/**
 The ECDSA signature blob: two SSH mpints, one after the other (section 5 of RFC 4251, section 3.1.2 of
 RFC 5656). The encoder works on big-endian magnitudes and appends to a growing buffer.
 */
module Mpint {
  import opened Common

  const U32_LIMIT := 0x1_0000_0000

  // ---------------------------------------------------------------------------
  // Integers and bytes
  // ---------------------------------------------------------------------------

  function Pow256(n: nat): nat {
    if n == 0 then 1 else 256 * Pow256(n - 1)
  }

  /** The integer a big-endian magnitude stands for. */
  function BigEndian(bytes: seq<byte>): nat {
    if bytes == [] then 0 else BigEndian(bytes[..|bytes| - 1]) * 256 + bytes[|bytes| - 1] as nat
  }

  /** The integer a two's complement body stands for. */
  function TwosComplement(body: seq<byte>): int {
    if body != [] && body[0] >= 128 then BigEndian(body) - Pow256(|body|) else BigEndian(body)
  }

  /** The last `k` base-256 digits of `n`. */
  function LowBytes(n: nat, k: nat): seq<byte> {
    if k == 0 then [] else LowBytes(n / 256, k - 1) + [(n % 256) as byte]
  }

  /** The four bytes of a length that has been cast to u32. */
  function U32Bytes(n: nat): seq<byte> {
    LowBytes(n, 4)
  }

  function Strip(bytes: seq<byte>): seq<byte> {
    if bytes != [] && bytes[0] == 0 then Strip(bytes[1..]) else bytes
  }

  function Body(bytes: seq<byte>): seq<byte> {
    var s := Strip(bytes);
    if s != [] && s[0] >= 128 then [0] + s else s
  }

  function Encoded(bytes: seq<byte>): seq<byte> {
    U32Bytes(|Body(bytes)|) + Body(bytes)
  }

  function Blob(r: seq<byte>, s: seq<byte>): seq<byte> {
    Encoded(r) + Encoded(s)
  }

  // ---------------------------------------------------------------------------
  // The reader on the other side
  // ---------------------------------------------------------------------------

  /** An mpint at the start of `b`, and what follows it. */
  function DecodeMpint(b: seq<byte>): Option<(int, seq<byte>)> {
    if |b| < 4 then None
    else
      var len := BigEndian(b[..4]);
      if |b| < 4 + len then None else Some((TwosComplement(b[4..4 + len]), b[4 + len..]))
  }

  /** A signature blob is two mpints and nothing more. */
  function DecodeBlob(b: seq<byte>): Option<(int, int)> {
    match DecodeMpint(b)
    case None => None
    case Some((r, rest)) =>
      match DecodeMpint(rest)
      case None => None
      case Some((s, end)) => if end == [] then Some((r, s)) else None
  }

  // ---------------------------------------------------------------------------
  // The encoder
  // ---------------------------------------------------------------------------

  class Buffer {
    var bytes: seq<byte>

    constructor ()
      ensures bytes == []
    {
      bytes := [];
    }

    method Push(b: byte)
      modifies this
      ensures bytes == old(bytes) + [b]
    {
      bytes := bytes + [b];
    }

    method Extend(more: seq<byte>)
      modifies this
      ensures bytes == old(bytes) + more
    {
      bytes := bytes + more;
    }

    /** Appends one mpint: the leading zeros go, and a zero comes in front of a set top bit. */
    method PutMpint(bytes': seq<byte>)
      modifies this
      ensures bytes == old(bytes) + Encoded(bytes')
    {
      var start := 0;
      while start < |bytes'| && bytes'[start] == 0
        invariant start <= |bytes'|
        invariant Strip(bytes'[start..]) == Strip(bytes')
      {
        assert bytes'[start..][1..] == bytes'[start + 1..];
        start := start + 1;
      }
      var stripped := bytes'[start..];
      assert stripped == Strip(bytes');
      if stripped == [] {
        Extend(U32Bytes(0));
        return;
      }
      var needsPad := stripped[0] >= 128;
      var len := |stripped| + if needsPad then 1 else 0;
      ghost var body := Body(bytes');
      assert body == (if needsPad then [0] + stripped else stripped);
      Extend(U32Bytes(len));
      if needsPad {
        Push(0);
      }
      Extend(stripped);
      assert bytes == old(bytes) + (U32Bytes(len) + body);
    }
  }

  method EncodeSignature(r: seq<byte>, s: seq<byte>) returns (blob: seq<byte>)
    ensures blob == Blob(r, s)
  {
    var buf := new Buffer();
    buf.PutMpint(r);
    assert buf.bytes == Encoded(r);
    buf.PutMpint(s);
    blob := buf.bytes;
  }

  // ---------------------------------------------------------------------------
  // Big-endian arithmetic
  // ---------------------------------------------------------------------------

  lemma {:induction false} PowAdd(m: nat, n: nat)
    ensures Pow256(m + n) == Pow256(m) * Pow256(n)
  {
    if m > 0 {
      PowAdd(m - 1, n);
      assert 256 * Pow256(m - 1) * Pow256(n) == 256 * (Pow256(m - 1) * Pow256(n));
    }
  }

  lemma {:induction false} PowPositive(n: nat)
    ensures Pow256(n) >= 1
  {
    if n > 0 { PowPositive(n - 1); }
  }

  lemma {:induction false} PowMonotone(m: nat, n: nat)
    requires m <= n
    ensures Pow256(m) <= Pow256(n)
  {
    if m < n { PowMonotone(m, n - 1); }
  }

  lemma {:induction false} Concat(a: seq<byte>, b: seq<byte>)
    ensures BigEndian(a + b) == BigEndian(a) * Pow256(|b|) + BigEndian(b)
  {
    if b == [] {
      assert a + b == a;
    } else {
      var b' := b[..|b| - 1];
      assert (a + b)[..|a + b| - 1] == a + b';
      Concat(a, b');
      assert BigEndian(a) * Pow256(|b'|) * 256 == BigEndian(a) * Pow256(|b|);
    }
  }

  lemma {:induction false} Bounded(a: seq<byte>)
    ensures BigEndian(a) < Pow256(|a|)
  {
    if a != [] { Bounded(a[..|a| - 1]); }
  }

  lemma HeadSplit(a: seq<byte>)
    requires a != []
    ensures BigEndian(a) == a[0] as nat * Pow256(|a| - 1) + BigEndian(a[1..])
  {
    assert [a[0]] + a[1..] == a;
    assert BigEndian([]) == 0 && [a[0]][..0] == [];
    assert BigEndian([a[0]]) == a[0] as nat;
    Concat([a[0]], a[1..]);
  }

  lemma Scale(v: nat, a: nat, b: nat)
    requires a <= b
    ensures v * a <= v * b && v * a == a * v && v * b == b * v
  {
  }

  lemma LeadingByte(a: seq<byte>)
    requires a != [] && a[0] != 0
    ensures BigEndian(a) >= Pow256(|a| - 1)
  {
    HeadSplit(a);
    Scale(Pow256(|a| - 1), 1, a[0] as nat);
  }

  lemma {:induction false} SameLength(a: seq<byte>, b: seq<byte>)
    requires |a| == |b| && BigEndian(a) == BigEndian(b)
    ensures a == b
  {
    if a != [] {
      SameLength(a[..|a| - 1], b[..|b| - 1]);
      assert a == a[..|a| - 1] + [a[|a| - 1]] && b == b[..|b| - 1] + [b[|b| - 1]];
    }
  }

  // ---------------------------------------------------------------------------
  // Stripping
  // ---------------------------------------------------------------------------

  lemma {:induction false} Stripped(bytes: seq<byte>)
    ensures BigEndian(Strip(bytes)) == BigEndian(bytes)
    ensures |Strip(bytes)| <= |bytes|
    ensures Strip(bytes) != [] ==> Strip(bytes)[0] != 0
    ensures |Strip(bytes)| < |bytes| ==> bytes[0] == 0
  {
    if bytes != [] && bytes[0] == 0 {
      Stripped(bytes[1..]);
      HeadSplit(bytes);
    }
  }

  /** Without leading zeros an integer has only one magnitude. */
  lemma Canonical(a: seq<byte>, b: seq<byte>)
    requires (a != [] ==> a[0] != 0) && (b != [] ==> b[0] != 0)
    requires BigEndian(a) == BigEndian(b)
    ensures a == b
  {
    if |a| < |b| {
      ShorterIsLess(a, b);
    } else if |b| < |a| {
      ShorterIsLess(b, a);
    } else {
      SameLength(a, b);
    }
  }

  lemma ShorterIsLess(a: seq<byte>, b: seq<byte>)
    requires |a| < |b| && b[0] != 0
    ensures BigEndian(a) < BigEndian(b)
  {
    Bounded(a);
    LeadingByte(b);
    PowMonotone(|a|, |b| - 1);
  }

  lemma PaddedValue(s: seq<byte>)
    ensures BigEndian([0] + s) == BigEndian(s)
  {
    HeadSplit([0] + s);
    assert ([0] + s)[1..] == s;
  }

  lemma BodyValue(bytes: seq<byte>)
    ensures TwosComplement(Body(bytes)) == BigEndian(bytes)
  {
    Stripped(bytes);
    var s := Strip(bytes);
    if s != [] && s[0] >= 128 { PaddedValue(s); }
  }

  /** Leading zero bytes never matter: the body depends on the integer alone. */
  lemma BodyDependsOnInteger(a: seq<byte>, b: seq<byte>)
    ensures Body(a) == Body(b) <==> BigEndian(a) == BigEndian(b)
  {
    if BigEndian(a) == BigEndian(b) {
      Stripped(a);
      Stripped(b);
      Canonical(Strip(a), Strip(b));
    }
    if Body(a) == Body(b) {
      BodyValue(a);
      BodyValue(b);
    }
  }

  /** The body is the shortest two's complement form of the integer, and the only one of its length. */
  lemma ShortestForm(bytes: seq<byte>, other: seq<byte>)
    requires TwosComplement(other) == BigEndian(bytes)
    ensures |Body(bytes)| <= |other|
    ensures |Body(bytes)| == |other| ==> Body(bytes) == other
  {
    Bounded(other);
    assert other == [] || other[0] < 128;
    Stripped(bytes);
    Stripped(other);
    Canonical(Strip(bytes), Strip(other));
    var s := Strip(other);
    if |s| == |other| {
      SameLength(s, other);
    } else if s != [] && s[0] >= 128 && |other| == |s| + 1 {
      assert other[0] == 0;
      HeadSplit(other);
      SameLength(s, other[1..]);
      assert other == [0] + other[1..];
    }
  }

  // ---------------------------------------------------------------------------
  // Round trip
  // ---------------------------------------------------------------------------

  lemma NextMultiple(d: int, q: int, p: int)
    requires d < q && p > 0
    ensures d * p + p <= q * p
  {
    assert (q - d - 1) * p >= 0;
    assert (q - d - 1) * p == q * p - d * p - p;
  }

  lemma ModUnique(q: int, p: int, r: int)
    requires 0 <= r < p
    ensures (q * p + r) % p == r
  {
    var v := q * p + r;
    var d, m := v / p, v % p;
    assert v == d * p + m;
    if d < q {
      NextMultiple(d, q, p);
    } else if q < d {
      NextMultiple(q, d, p);
    }
  }

  lemma ModSplit(n: nat, p: nat)
    requires p > 0
    ensures n / 256 % p * 256 + n % 256 == n % (256 * p)
  {
    var q, d := n / 256, n / 256 / p;
    var r := q % p * 256 + n % 256;
    assert q == d * p + q % p;
    assert n == d * (256 * p) + r by {
      assert d * p * 256 == d * (256 * p);
    }
    ModUnique(d, 256 * p, r);
  }

  lemma {:induction false} LowBytesValue(n: nat, k: nat)
    ensures |LowBytes(n, k)| == k
    ensures Pow256(k) > 0 && BigEndian(LowBytes(n, k)) == n % Pow256(k)
  {
    PowPositive(k);
    if k > 0 {
      LowBytesValue(n / 256, k - 1);
      assert LowBytes(n, k)[..k - 1] == LowBytes(n / 256, k - 1);
      ModSplit(n, Pow256(k - 1));
    }
  }

  lemma LengthRoundTrip(n: nat)
    ensures |U32Bytes(n)| == 4
    ensures BigEndian(U32Bytes(n)) == n % U32_LIMIT
  {
    LowBytesValue(n, 4);
    assert Pow256(1) == 256 && Pow256(2) == 0x1_0000 && Pow256(3) == 0x100_0000;
  }

  /** What the reader makes of four length bytes and enough bytes after them. */
  lemma ReadsPrefix(length: seq<byte>, body: seq<byte>, rest: seq<byte>)
    requires |length| == 4 && BigEndian(length) <= |body|
    ensures DecodeMpint(length + body + rest)
      == Some((TwosComplement(body[..BigEndian(length)]), body[BigEndian(length)..] + rest))
  {
    var n := BigEndian(length);
    var b := length + body + rest;
    assert b[..4] == length;
    assert b[4..4 + n] == body[..n];
    assert b[4 + n..] == body[n..] + rest;
  }

  lemma ReadsWhole(body: seq<byte>, rest: seq<byte>)
    requires |body| < U32_LIMIT
    ensures DecodeMpint(U32Bytes(|body|) + body + rest) == Some((TwosComplement(body), rest))
  {
    var length := U32Bytes(|body|);
    LengthRoundTrip(|body|);
    assert BigEndian(length) == |body|;
    ReadsPrefix(length, body, rest);
    assert body[..|body|] == body && body[|body|..] + rest == rest;
  }

  /** Reading back one mpint whose length fits in 32 bits gives its integer and what follows. */
  lemma ReadsBack(bytes: seq<byte>, rest: seq<byte>)
    requires |Body(bytes)| < U32_LIMIT
    ensures DecodeMpint(Encoded(bytes) + rest) == Some((BigEndian(bytes) as int, rest))
  {
    var body := Body(bytes);
    ReadsWhole(body, rest);
    BodyValue(bytes);
  }

  /** A longer body is cut short by its 32-bit length, and the integer read back is too small. */
  lemma ReadsShort(bytes: seq<byte>, rest: seq<byte>)
    requires |Body(bytes)| >= U32_LIMIT
    ensures DecodeMpint(Encoded(bytes) + rest).Some?
    ensures DecodeMpint(Encoded(bytes) + rest).value.0 < BigEndian(bytes)
    ensures DecodeMpint(Encoded(bytes) + rest).value.1 != []
  {
    var body := Body(bytes);
    var len := |body| % U32_LIMIT;
    LengthRoundTrip(|body|);
    ReadsPrefix(U32Bytes(|body|), body, rest);
    CutIsLess(bytes, len);
  }

  lemma CutIsLess(bytes: seq<byte>, len: nat)
    requires len < |Body(bytes)|
    ensures TwosComplement(Body(bytes)[..len]) < BigEndian(bytes)
  {
    var body := Body(bytes);
    var cut, tail := body[..len], body[len..];
    assert cut + tail == body;
    Stripped(bytes);
    BodyValue(bytes);
    assert body[0] < 128;
    if len == 0 {
      LeadingByte(Strip(bytes));
      PowPositive(|Strip(bytes)| - 1);
    } else {
      assert cut[0] == body[0];
      PrefixIsLess(bytes, cut, tail);
    }
  }

  lemma PrefixIsLess(bytes: seq<byte>, cut: seq<byte>, tail: seq<byte>)
    requires Body(bytes) == cut + tail && |cut| > 0 && |tail| > 0
    ensures BigEndian(cut) < BigEndian(cut + tail)
  {
    if BigEndian(cut) == 0 {
      Stripped(bytes);
      BodyValue(bytes);
      LeadingByte(Strip(bytes));
      PowPositive(|Strip(bytes)| - 1);
    } else {
      Grows(cut, tail);
    }
  }

  lemma Grows(cut: seq<byte>, tail: seq<byte>)
    requires BigEndian(cut) > 0 && |tail| > 0
    ensures BigEndian(cut) < BigEndian(cut + tail)
  {
    Concat(cut, tail);
    PowPositive(|tail| - 1);
    Scale(BigEndian(cut), 256, Pow256(|tail|));
  }

  /** Decoding the blob gives back exactly the two integers, if and only if both lengths fit in 32 bits. */
  lemma BlobRoundTrip(r: seq<byte>, s: seq<byte>)
    ensures DecodeBlob(Blob(r, s)) == Some((BigEndian(r) as int, BigEndian(s) as int))
      <==> |Body(r)| < U32_LIMIT && |Body(s)| < U32_LIMIT
  {
    assert Encoded(s) + [] == Encoded(s);
    if |Body(r)| < U32_LIMIT {
      ReadsBack(r, Encoded(s));
      if |Body(s)| < U32_LIMIT {
        ReadsBack(s, []);
      } else {
        ReadsShort(s, []);
      }
    } else {
      ReadsShort(r, Encoded(s));
    }
  }

  /** Equal integers give equal blobs, and blobs with 32-bit lengths are equal only for equal integers. */
  lemma BlobInjective(r: seq<byte>, s: seq<byte>, r': seq<byte>, s': seq<byte>)
    ensures BigEndian(r) == BigEndian(r') && BigEndian(s) == BigEndian(s') ==> Blob(r, s) == Blob(r', s')
    ensures (|Body(r)| < U32_LIMIT && |Body(s)| < U32_LIMIT && |Body(r')| < U32_LIMIT && |Body(s')| < U32_LIMIT) ==>
      (Blob(r, s) == Blob(r', s') ==> BigEndian(r) == BigEndian(r') && BigEndian(s) == BigEndian(s'))
  {
    BodyDependsOnInteger(r, r');
    BodyDependsOnInteger(s, s');
    BlobRoundTrip(r, s);
    BlobRoundTrip(r', s');
  }

  /** At most five bytes per integer are added; 74 bytes for P-256 and 106 bytes for P-384 signatures. */
  lemma BlobBound(r: seq<byte>, s: seq<byte>)
    ensures |Blob(r, s)| <= |r| + |s| + 10
    ensures |r| == 32 && |s| == 32 ==> |Blob(r, s)| <= 74
    ensures |r| == 48 && |s| == 48 ==> |Blob(r, s)| <= 106
  {
    Stripped(r);
    Stripped(s);
    LengthRoundTrip(|Body(r)|);
    LengthRoundTrip(|Body(s)|);
  }
}
