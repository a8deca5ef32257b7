/** Base64 with the URL-safe alphabet and without padding (section 5 of RFC 4648), as the codec uses it. */
module Base64Url {
  import opened Common

  predicate IsSextetChar(c: char) {
    'A' <= c <= 'Z' || 'a' <= c <= 'z' || '0' <= c <= '9' || c == '-' || c == '_'
  }

  function SextetChar(n: nat): (c: char)
    requires n < 64
    ensures IsSextetChar(c) && SextetValue(c) == n
  {
    if n < 26 then 'A' + n as char
    else if n < 52 then 'a' + (n - 26) as char
    else if n < 62 then '0' + (n - 52) as char
    else if n == 62 then '-'
    else '_'
  }

  function SextetValue(c: char): (n: nat)
    requires IsSextetChar(c)
    ensures n < 64
  {
    if 'A' <= c <= 'Z' then (c - 'A') as nat
    else if 'a' <= c <= 'z' then (c - 'a') as nat + 26
    else if '0' <= c <= '9' then (c - '0') as nat + 52
    else if c == '-' then 62
    else 63
  }

  lemma CharOfValue(c: char)
    requires IsSextetChar(c)
    ensures SextetChar(SextetValue(c)) == c
  {
  }

  function Encode(bytes: seq<byte>): (s: string)
    ensures forall c | c in s :: IsSextetChar(c)
  {
    if |bytes| == 0 then ""
    else if |bytes| == 1 then
      var a := bytes[0] as nat;
      [SextetChar(a / 4), SextetChar(a % 4 * 16)]
    else if |bytes| == 2 then
      var a, b := bytes[0] as nat, bytes[1] as nat;
      [SextetChar(a / 4), SextetChar(a % 4 * 16 + b / 16), SextetChar(b % 16 * 4)]
    else
      EncodeTriple(bytes[0], bytes[1], bytes[2]) + Encode(bytes[3..])
  }

  function EncodeTriple(x: byte, y: byte, z: byte): (s: string)
    ensures |s| == 4 && forall c | c in s :: IsSextetChar(c)
  {
    var a, b, c := x as nat, y as nat, z as nat;
    [SextetChar(a / 4), SextetChar(a % 4 * 16 + b / 16), SextetChar(b % 16 * 4 + c / 64), SextetChar(c % 64)]
  }

  function AsByte(n: nat): byte
    requires n < 256
  {
    n as byte
  }

  function DecodeQuad(w: nat, x: nat, y: nat, z: nat): (byte, byte, byte)
    requires w < 64 && x < 64 && y < 64 && z < 64
  {
    (AsByte(w * 4 + x / 16), AsByte(x % 16 * 16 + y / 4), AsByte(y % 4 * 64 + z))
  }

  /** Refuses foreign characters, a lone last character, and unused bits that are not zero. */
  function Decode(s: string): Option<seq<byte>> {
    if |s| == 0 then Some([])
    else if |s| == 1 then None
    else if exists c | c in s :: !IsSextetChar(c) then None
    else if |s| == 2 then
      assert s[0] in s && s[1] in s;
      var w, x := SextetValue(s[0]), SextetValue(s[1]);
      if x % 16 != 0 then None else Some([AsByte(w * 4 + x / 16)])
    else if |s| == 3 then
      assert s[0] in s && s[1] in s && s[2] in s;
      var w, x, y := SextetValue(s[0]), SextetValue(s[1]), SextetValue(s[2]);
      if y % 4 != 0 then None else Some([AsByte(w * 4 + x / 16), AsByte(x % 16 * 16 + y / 4)])
    else
      assert s[0] in s && s[1] in s && s[2] in s && s[3] in s;
      match Decode(s[4..])
      case None => None
      case Some(rest) =>
        var (a, b, c) := DecodeQuad(SextetValue(s[0]), SextetValue(s[1]), SextetValue(s[2]), SextetValue(s[3]));
        Some([a, b, c] + rest)
  }

  lemma QuadOfTriple(a: nat, b: nat, c: nat)
    requires a < 256 && b < 256 && c < 256
    ensures DecodeQuad(a / 4, a % 4 * 16 + b / 16, b % 16 * 4 + c / 64, c % 64) == (AsByte(a), AsByte(b), AsByte(c))
  {
  }

  lemma DivMod(q: nat, r: nat, d: nat)
    requires d == 4 || d == 16 || d == 64
    requires r < d
    ensures (q * d + r) / d == q && (q * d + r) % d == r
  {
  }

  /** The first sextet, from the first byte. */
  lemma Sextet0(w: nat, x: nat)
    requires w < 64 && x < 64
    ensures (w * 4 + x / 16) / 4 == w
  {
    DivMod(w, x / 16, 4);
  }

  /** The second sextet, from the first two bytes. */
  lemma Sextet1(w: nat, x: nat, low: nat)
    requires w < 64 && x < 64 && low < 16
    ensures (w * 4 + x / 16) % 4 * 16 + (x % 16 * 16 + low) / 16 == x
  {
    DivMod(w, x / 16, 4);
    DivMod(x % 16, low, 16);
  }

  /** The third sextet, from the last two bytes. */
  lemma Sextet2(high: nat, y: nat, low: nat)
    requires high < 16 && y < 64 && low < 64
    ensures (high * 16 + y / 4) % 16 * 4 + (y % 4 * 64 + low) / 64 == y
  {
    DivMod(high, y / 4, 16);
    DivMod(y % 4, low, 64);
  }

  lemma SextetsOfQuad(w: nat, x: nat, y: nat, z: nat, a: nat, b: nat, c: nat)
    requires w < 64 && x < 64 && y < 64 && z < 64
    requires a == w * 4 + x / 16 && b == x % 16 * 16 + y / 4 && c == y % 4 * 64 + z
    ensures a / 4 == w && a % 4 * 16 + b / 16 == x && b % 16 * 4 + c / 64 == y && c % 64 == z
  {
    Sextet0(w, x);
    Sextet1(w, x, y / 4);
    Sextet2(x % 16, y, z);
    DivMod(y % 4, z, 64);
  }

  lemma TripleOfQuad(w: nat, x: nat, y: nat, z: nat)
    requires w < 64 && x < 64 && y < 64 && z < 64
    ensures var (a, b, c) := DecodeQuad(w, x, y, z);
      EncodeTriple(a, b, c) == [SextetChar(w), SextetChar(x), SextetChar(y), SextetChar(z)]
  {
    var (p, q, r) := DecodeQuad(w, x, y, z);
    var a, b, c := p as nat, q as nat, r as nat;
    SextetsOfQuad(w, x, y, z, a, b, c);
    TripleFrom(a, b, c, w, x, y, z);
  }

  lemma TripleFrom(a: nat, b: nat, c: nat, w: nat, x: nat, y: nat, z: nat)
    requires a < 256 && b < 256 && c < 256 && w < 64 && x < 64 && y < 64 && z < 64
    requires a / 4 == w && a % 4 * 16 + b / 16 == x && b % 16 * 4 + c / 64 == y && c % 64 == z
    ensures EncodeTriple(AsByte(a), AsByte(b), AsByte(c)) == [SextetChar(w), SextetChar(x), SextetChar(y), SextetChar(z)]
  {
  }

  lemma OneByte(x: byte)
    ensures Decode(Encode([x])) == Some([x])
  {
    var a := x as nat;
    var s := Encode([x]);
    assert s == [SextetChar(a / 4), SextetChar(a % 4 * 16)];
    assert a % 4 * 16 % 16 == 0 && a / 4 * 4 + a % 4 * 16 / 16 == a;
  }

  lemma TwoBytes(x: byte, y: byte)
    ensures Decode(Encode([x, y])) == Some([x, y])
  {
    var a, b := x as nat, y as nat;
    var s := Encode([x, y]);
    assert s == [SextetChar(a / 4), SextetChar(a % 4 * 16 + b / 16), SextetChar(b % 16 * 4)];
    assert b % 16 * 4 % 4 == 0;
    QuadOfTriple(a, b, 0);
  }

  lemma DecodeStep(quad: string, rest: string)
    requires |quad| == 4 && (forall c | c in quad :: IsSextetChar(c)) && (forall c | c in rest :: IsSextetChar(c))
    requires Decode(rest).Some?
    ensures quad[0] in quad && quad[1] in quad && quad[2] in quad && quad[3] in quad
    ensures var (a, b, c) :=
        DecodeQuad(SextetValue(quad[0]), SextetValue(quad[1]), SextetValue(quad[2]), SextetValue(quad[3]));
      Decode(quad + rest) == Some([a, b, c] + Decode(rest).value)
  {
    var s := quad + rest;
    assert s[4..] == rest;
    assert forall c | c in s :: IsSextetChar(c);
    assert s[0] in s && s[1] in s && s[2] in s && s[3] in s;
  }

  lemma TripleStep(x: byte, y: byte, z: byte, rest: string)
    requires (forall c | c in rest :: IsSextetChar(c)) && Decode(rest).Some?
    ensures Decode(EncodeTriple(x, y, z) + rest) == Some([x, y, z] + Decode(rest).value)
  {
    QuadOfTriple(x as nat, y as nat, z as nat);
    DecodeStep(EncodeTriple(x, y, z), rest);
  }

  lemma FrontOfThree(bytes: seq<byte>)
    requires |bytes| >= 3
    ensures bytes == [bytes[0], bytes[1], bytes[2]] + bytes[3..]
  {
  }

  lemma LongDecode(bytes: seq<byte>, tail: seq<byte>, rest: string)
    requires |bytes| >= 3 && tail == bytes[3..]
    requires (forall c | c in rest :: IsSextetChar(c)) && Decode(rest) == Some(tail)
    ensures Decode(EncodeTriple(bytes[0], bytes[1], bytes[2]) + rest) == Some(bytes)
  {
    FrontOfThree(bytes);
    TripleStep(bytes[0], bytes[1], bytes[2], rest);
  }

  lemma LongEncode(bytes: seq<byte>)
    requires |bytes| >= 3
    ensures Encode(bytes) == EncodeTriple(bytes[0], bytes[1], bytes[2]) + Encode(bytes[3..])
  {
  }

  lemma LongStep(bytes: seq<byte>)
    requires |bytes| >= 3 && Decode(Encode(bytes[3..])) == Some(bytes[3..])
    ensures Decode(Encode(bytes)) == Some(bytes)
  {
    LongEncode(bytes);
    LongDecode(bytes, bytes[3..], Encode(bytes[3..]));
  }

  /** Decoding what was encoded gives the bytes back. */
  lemma {:induction false} DecodeEncode(bytes: seq<byte>)
    ensures Decode(Encode(bytes)) == Some(bytes)
  {
    if bytes == [] {
    } else if |bytes| == 1 {
      assert bytes == [bytes[0]];
      OneByte(bytes[0]);
    } else if |bytes| == 2 {
      assert bytes == [bytes[0], bytes[1]];
      TwoBytes(bytes[0], bytes[1]);
    } else {
      DecodeEncode(bytes[3..]);
      LongStep(bytes);
    }
  }

  lemma TwoChars(s: string)
    requires |s| == 2 && Decode(s).Some?
    ensures Encode(Decode(s).value) == s
  {
    assert s[0] in s && s[1] in s;
    CharOfValue(s[0]);
    CharOfValue(s[1]);
    var w, x := SextetValue(s[0]), SextetValue(s[1]);
    Sextet0(w, x);
    Sextet1(w, x, 0);
  }

  lemma ThreeChars(s: string)
    requires |s| == 3 && Decode(s).Some?
    ensures Encode(Decode(s).value) == s
  {
    assert s[0] in s && s[1] in s && s[2] in s;
    CharOfValue(s[0]);
    CharOfValue(s[1]);
    CharOfValue(s[2]);
    var w, x, y := SextetValue(s[0]), SextetValue(s[1]), SextetValue(s[2]);
    var a, b := w * 4 + x / 16, x % 16 * 16 + y / 4;
    assert a / 4 == w by { Sextet0(w, x); }
    assert a % 4 * 16 + b / 16 == x by { Sextet1(w, x, y / 4); }
    assert b % 16 * 4 == y by { Sextet2(x % 16, y, 0); }
    PairFrom(a, b, w, x, y);
  }

  lemma PairFrom(a: nat, b: nat, w: nat, x: nat, y: nat)
    requires a < 256 && b < 256 && w < 64 && x < 64 && y < 64
    requires a / 4 == w && a % 4 * 16 + b / 16 == x && b % 16 * 4 == y
    ensures Encode([AsByte(a), AsByte(b)]) == [SextetChar(w), SextetChar(x), SextetChar(y)]
  {
  }

  lemma FourChars(s: string)
    requires |s| >= 4 && Decode(s).Some?
    ensures Decode(s[4..]).Some? && |Decode(s).value| >= 3 && Decode(s).value[3..] == Decode(s[4..]).value
    ensures EncodeTriple(Decode(s).value[0], Decode(s).value[1], Decode(s).value[2]) == s[..4]
  {
    assert s[0] in s && s[1] in s && s[2] in s && s[3] in s;
    TripleOfQuad(SextetValue(s[0]), SextetValue(s[1]), SextetValue(s[2]), SextetValue(s[3]));
    CharOfValue(s[0]);
    CharOfValue(s[1]);
    CharOfValue(s[2]);
    CharOfValue(s[3]);
    assert s[..4] == [s[0], s[1], s[2], s[3]];
  }

  /** Only the encoding of some bytes decodes to them: there is one text per byte string. */
  lemma {:induction false} EncodeDecode(s: string)
    requires Decode(s).Some?
    ensures Encode(Decode(s).value) == s
  {
    if |s| == 2 {
      TwoChars(s);
    } else if |s| == 3 {
      ThreeChars(s);
    } else if |s| >= 4 {
      FourChars(s);
      EncodeDecode(s[4..]);
      assert s == s[..4] + s[4..];
    }
  }

  /** Four characters for three bytes, rounded up: the ceiling of 4n/3. */
  lemma {:induction false} EncodedLength(bytes: seq<byte>)
    ensures |Encode(bytes)| == (4 * |bytes| + 2) / 3
  {
    if |bytes| >= 3 { EncodedLength(bytes[3..]); }
  }

  const UPPER := "ABCDEFGHIJKLMNOPQRSTUVWXYZ"
  const LOWER := "abcdefghijklmnopqrstuvwxyz"
  const REST := "0123456789-_"

  /** The URL-safe alphabet of section 5 of RFC 4648. */
  lemma CharsAreAlphabet(n: nat)
    requires n < 64
    ensures SextetChar(n) == if n < 26 then UPPER[n] else if n < 52 then LOWER[n - 26] else REST[n - 52]
  {
  }

  /** Four characters hold the 24 bits of three bytes, six each, the highest first. */
  lemma TripleKeepsBits(x: byte, y: byte, z: byte)
    ensures var s := EncodeTriple(x, y, z);
      && s[0] in s && s[1] in s && s[2] in s && s[3] in s
      && SextetValue(s[0]) * 0x40000 + SextetValue(s[1]) * 0x1000 + SextetValue(s[2]) * 0x40 + SextetValue(s[3])
         == x as nat * 0x10000 + y as nat * 0x100 + z as nat
  {
  }

  /** One or two bytes at the end are filled up with zero bits to two or three characters. */
  lemma TailKeepsBits(x: byte, y: byte)
    ensures var s := Encode([x]);
      && |s| == 2 && s[0] in s && s[1] in s
      && SextetValue(s[0]) * 0x40 + SextetValue(s[1]) == x as nat * 0x10
    ensures var s := Encode([x, y]);
      && |s| == 3 && s[0] in s && s[1] in s && s[2] in s
      && SextetValue(s[0]) * 0x1000 + SextetValue(s[1]) * 0x40 + SextetValue(s[2]) == (x as nat * 0x100 + y as nat) * 4
  {
  }

  /** Longer byte strings are encoded three bytes at a time. */
  lemma EncodedInGroups(x: byte, y: byte, z: byte, rest: seq<byte>)
    ensures Encode([x, y, z] + rest) == EncodeTriple(x, y, z) + Encode(rest)
  {
    assert ([x, y, z] + rest)[3..] == rest;
  }
}
