/**
 The vt:// codec: secrets are sealed, written in base64url behind a one-character type, and opened again. The
 cipher, the UTF-8 conversion and the one-time-password generator are library code and come in as values.
 */
module Codec {
  import opened Common
  import opened Scanner
  import Base64Url

  type Bytes = seq<byte>

  // ---------------------------------------------------------------------------
  // Library code
  // ---------------------------------------------------------------------------

  /** AES-256-GCM under one key: sealing may fail for oversized input, opening fails for forged input. */
  datatype Aead = Aead(seal: (Bytes, Bytes) -> Option<Bytes>, open: (Bytes, Bytes) -> Option<Bytes>)

  const NONCE_LENGTH := 12
  const TAG_LENGTH := 16

  ghost predicate AeadInverse(a: Aead) {
    forall nonce, plain | |nonce| == NONCE_LENGTH && a.seal(nonce, plain).Some? ::
      a.open(nonce, a.seal(nonce, plain).value) == Some(plain)
      && |a.seal(nonce, plain).value| == |plain| + TAG_LENGTH
  }

  datatype Text = Text(encode: string -> Bytes, decode: Bytes -> Option<string>)

  ghost predicate TextInverse(u: Text) {
    forall s :: u.decode(u.encode(s)) == Some(s)
  }

  /** Everything the codec calls out to; `totp` turns a stored secret into the current password. */
  datatype Library = Library(aead: Aead, text: Text, totp: string -> Result<string>)

  ghost predicate Sound(lib: Library) {
    AeadInverse(lib.aead) && TextInverse(lib.text)
  }

  // ---------------------------------------------------------------------------
  // Secret types
  // ---------------------------------------------------------------------------

  datatype SecretType = RAW | TOTP | UNKNOWN {
    function AsStr(): string {
      match this
      case RAW => "0"
      case TOTP => "1"
      case UNKNOWN => "_"
    }
  }

  function Lower(s: string): string {
    if s == "" then ""
    else [if 'A' <= s[0] <= 'Z' then 'a' + (s[0] - 'A') else s[0]] + Lower(s[1..])
  }

  function TypeOf(s: string): SecretType {
    var l := Lower(s);
    if l == "raw" || l == "0" then RAW
    else if l == "totp" || l == "1" then TOTP
    else UNKNOWN
  }

  /** Writing a type and reading it back gives the same type. */
  lemma TypeRoundTrip(t: SecretType)
    ensures TypeOf(t.AsStr()) == t
  {
    assert t.AsStr()[1..] == "";
    assert Lower(t.AsStr()) == t.AsStr();
  }

  predicate IsLetter(c: char, lower: char) {
    'a' <= lower <= 'z' && (c == lower || c == 'A' + (lower - 'a'))
  }

  /** The word in capital or small letters. */
  predicate Spells(s: string, word: string) {
    |s| == |word| && forall i | 0 <= i < |s| :: IsLetter(s[i], word[i])
  }

  lemma {:induction false} LowerIs(s: string, word: string)
    requires forall i | 0 <= i < |word| :: 'a' <= word[i] <= 'z'
    ensures Lower(s) == word <==> Spells(s, word)
  {
    if s != "" && word != "" {
      LowerIs(s[1..], word[1..]);
      assert Lower(s) == [Lower(s)[0]] + Lower(s[1..]) && word == [word[0]] + word[1..];
      assert Spells(s, word) <==> IsLetter(s[0], word[0]) && Spells(s[1..], word[1..]) by {
        if IsLetter(s[0], word[0]) && Spells(s[1..], word[1..]) {
          forall i | 0 <= i < |s| ensures IsLetter(s[i], word[i]) {
            if i > 0 { assert s[i] == s[1..][i - 1] && word[i] == word[1..][i - 1]; }
          }
        }
      }
    }
  }

  lemma {:induction false} LowerDigit(s: string, d: char)
    requires '0' <= d <= '9'
    ensures Lower(s) == [d] <==> s == [d]
  {
    if s != "" && s[1..] != "" { assert Lower(s)[1..] == Lower(s[1..]) && Lower(s[1..]) != ""; }
  }

  /** Which names stand for which type. */
  lemma TypeNames(s: string)
    ensures TypeOf(s) == RAW <==> s == "0" || Spells(s, "raw")
    ensures TypeOf(s) == TOTP <==> s == "1" || Spells(s, "totp")
  {
    LowerIs(s, "raw");
    LowerIs(s, "totp");
    LowerDigit(s, '0');
    LowerDigit(s, '1');
  }

  // ---------------------------------------------------------------------------
  // One item
  // ---------------------------------------------------------------------------

  const PREFIX := "vt://mac/"

  datatype EncryptItem = EncryptItem(plaintext: string, t: SecretType)

  datatype CryptoResItem = CryptoResItem(result: string, errMessage: string)

  /** The sealed form is the nonce followed by the ciphertext. */
  function SealBytes(a: Aead, nonce: Bytes, plain: Bytes): Option<Bytes> {
    match a.seal(nonce, plain)
    case None => None
    case Some(ct) => Some(nonce + ct)
  }

  function OpenBytes(a: Aead, data: Bytes): Result<Bytes> {
    if |data| < NONCE_LENGTH then Err("Data too short, missing nonce")
    else
      match a.open(data[..NONCE_LENGTH], data[NONCE_LENGTH..])
      case None => Err("Decryption error")
      case Some(plain) => Ok(plain)
  }

  function EncryptOne(lib: Library, nonce: Bytes, item: EncryptItem): CryptoResItem {
    match SealBytes(lib.aead, nonce, lib.text.encode(item.plaintext))
    case Some(data) => CryptoResItem(PREFIX + item.t.AsStr() + Base64Url.Encode(data), "")
    case None => CryptoResItem("", "Encryption error")
  }

  function OpenText(lib: Library, b64: string): Result<string> {
    match Base64Url.Decode(b64)
    case None => Err("base64 decode error")
    case Some(data) =>
      match OpenBytes(lib.aead, data)
      case Err(e) => Err(e)
      case Ok(plain) =>
        match lib.text.decode(plain)
        case None => Err("decryption error")
        case Some(s) => Ok(s)
  }

  function DecryptToken(lib: Library, item: string): Result<string> {
    if !(PREFIX <= item) then Err("not a vt item")
    else
      var body := item[|PREFIX|..];
      if body == "" then Err("empty vt item after prefix")
      else
        match TypeOf(body[..1])
        case RAW => OpenText(lib, body[1..])
        case TOTP =>
          (match OpenText(lib, body[1..])
           case Ok(secret) => lib.totp(secret)
           case Err(e) => Err(e))
        case UNKNOWN => Err("unknown secret type")
  }

  function Reply(r: Result<string>): CryptoResItem {
    match r
    case Ok(value) => CryptoResItem(value, "")
    case Err(e) => CryptoResItem("", e)
  }

  // ---------------------------------------------------------------------------
  // Lists of items
  // ---------------------------------------------------------------------------

  /** Every item is sealed under its own nonce, in order. */
  method DoEncrypt(lib: Library, items: seq<EncryptItem>, nonces: seq<Bytes>) returns (out: seq<CryptoResItem>)
    requires |nonces| == |items|
    ensures |out| == |items| && forall i | 0 <= i < |items| :: out[i] == EncryptOne(lib, nonces[i], items[i])
  {
    out := [];
    for i := 0 to |items|
      invariant |out| == i && forall j | 0 <= j < i :: out[j] == EncryptOne(lib, nonces[j], items[j])
    {
      var sealed := SealBytes(lib.aead, nonces[i], lib.text.encode(items[i].plaintext));
      var item :=
        if sealed.Some? then CryptoResItem(PREFIX + items[i].t.AsStr() + Base64Url.Encode(sealed.value), "")
        else CryptoResItem("", "Encryption error");
      out := out + [item];
    }
  }

  /** The code slices one byte off after the prefix, so that character must be a single byte. */
  predicate Sliceable(item: string) {
    PREFIX <= item && |item| > |PREFIX| ==> item[|PREFIX|] < 128 as char
  }

  /** The item is what the token opens to, or it carries the reason why it does not open. */
  predicate Answers(lib: Library, token: string, item: CryptoResItem) {
    match DecryptToken(lib, token)
    case Ok(plain) => item.errMessage == "" && item.result == plain
    case Err(e) => item.errMessage == e && item.result == ""
  }

  /** A token that does not open is always answered with a reason, as long as the password generator gives one. */
  lemma FailuresAreTold(lib: Library, token: string, item: CryptoResItem)
    requires Answers(lib, token, item)
    requires forall s :: lib.totp(s) != Err("")
    ensures item.errMessage == "" <==> DecryptToken(lib, token).Ok?
  {
  }

  method DoDecrypt(lib: Library, items: seq<string>) returns (out: seq<CryptoResItem>)
    requires forall i | 0 <= i < |items| :: Sliceable(items[i])
    ensures |out| == |items| && forall i | 0 <= i < |items| :: Answers(lib, items[i], out[i])
  {
    out := [];
    for i := 0 to |items|
      invariant |out| == i && forall j | 0 <= j < i :: Answers(lib, items[j], out[j])
    {
      var item := items[i];
      var result: Result<string>;
      if !(PREFIX <= item) {
        result := Err("not a vt item");
      } else {
        var body := item[|PREFIX|..];
        if body == "" {
          result := Err("empty vt item after prefix");
        } else {
          var t := TypeOf(body[..1]);
          if t == UNKNOWN {
            result := Err("unknown secret type");
          } else {
            result := OpenText(lib, body[1..]);
            if t == TOTP && result.Ok? { result := lib.totp(result.value); }
          }
        }
      }
      out := out + [Reply(result)];
    }
  }

  // ---------------------------------------------------------------------------
  // Round trip
  // ---------------------------------------------------------------------------

  lemma OpenSealed(lib: Library, nonce: Bytes, plain: string)
    requires Sound(lib) && |nonce| == NONCE_LENGTH
    requires SealBytes(lib.aead, nonce, lib.text.encode(plain)).Some?
    ensures OpenText(lib, Base64Url.Encode(SealBytes(lib.aead, nonce, lib.text.encode(plain)).value)) == Ok(plain)
  {
    var data := SealBytes(lib.aead, nonce, lib.text.encode(plain)).value;
    Base64Url.DecodeEncode(data);
    assert data[..NONCE_LENGTH] == nonce;
    assert data[NONCE_LENGTH..] == lib.aead.seal(nonce, lib.text.encode(plain)).value;
  }

  lemma TokenParts(t: SecretType, b64: string)
    ensures var item := PREFIX + t.AsStr() + b64;
      PREFIX <= item && item[|PREFIX|..] == t.AsStr() + b64
      && item[|PREFIX|..][..1] == t.AsStr() && item[|PREFIX|..][1..] == b64 && Sliceable(item)
  {
    var item := PREFIX + t.AsStr() + b64;
    assert item[..|PREFIX|] == PREFIX;
    assert item[|PREFIX|] == t.AsStr()[0];
  }

  /** Decrypting an emitted token gives back the plaintext, its current password, or the refusal of the type. */
  lemma ItemRoundTrip(lib: Library, nonce: Bytes, item: EncryptItem)
    requires Sound(lib) && |nonce| == NONCE_LENGTH && EncryptOne(lib, nonce, item).errMessage == ""
    ensures Sliceable(EncryptOne(lib, nonce, item).result)
    ensures DecryptToken(lib, EncryptOne(lib, nonce, item).result) ==
      match item.t
      case RAW => Ok(item.plaintext)
      case TOTP => lib.totp(item.plaintext)
      case UNKNOWN => Err("unknown secret type")
  {
    var data := SealBytes(lib.aead, nonce, lib.text.encode(item.plaintext)).value;
    TokenParts(item.t, Base64Url.Encode(data));
    TypeRoundTrip(item.t);
    OpenSealed(lib, nonce, item.plaintext);
  }

  lemma TokenText(t: SecretType, b64: string)
    requires forall c | c in b64 :: Base64Url.IsSextetChar(c)
    ensures IsToken(PREFIX + t.AsStr() + b64)
  {
    var r := PREFIX + t.AsStr() + b64;
    assert r[..5] == SCHEME && r[5..8] == "mac" && r[8] == '/';
    forall k | 8 < k < |r| ensures IsData(r[k]) {
      if k > 9 { assert r[k] == b64[k - 10] && b64[k - 10] in b64; } else { assert r[k] == t.AsStr()[0]; }
    }
    forall k | 5 <= k < 8 ensures r[k] != '/' { assert r[k] == r[5..8][k - 5]; }
    assert MatchesVia(r, 0, 8, |r|);
  }

  /** An emitted token is one match of the scanner that covers it whole. */
  lemma EmittedIsToken(lib: Library, nonce: Bytes, item: EncryptItem)
    requires EncryptOne(lib, nonce, item).errMessage == ""
    ensures var r := EncryptOne(lib, nonce, item).result;
      IsToken(r) && Scan(r, 0) == [(0, |r|)] && Found(r, 0) == [r]
  {
    var data := SealBytes(lib.aead, nonce, lib.text.encode(item.plaintext)).value;
    TokenText(item.t, Base64Url.Encode(data));
    TokenIsOneMatch(EncryptOne(lib, nonce, item).result);
  }

  /** Nonce, tag, base64 and the ten characters in front fix the length. */
  lemma EmittedLength(lib: Library, nonce: Bytes, item: EncryptItem)
    requires AeadInverse(lib.aead) && |nonce| == NONCE_LENGTH && EncryptOne(lib, nonce, item).errMessage == ""
    ensures |EncryptOne(lib, nonce, item).result| == 10 + (4 * (|lib.text.encode(item.plaintext)| + 28) + 2) / 3
  {
    var data := SealBytes(lib.aead, nonce, lib.text.encode(item.plaintext)).value;
    Base64Url.EncodedLength(data);
  }

  /** For a list of RAW items, decrypting what was encrypted returns the plaintexts index by index with empty
      errors; every string in between is one whole match of the scanner and has the stated length. */
  method EncryptThenDecrypt(lib: Library, items: seq<EncryptItem>, nonces: seq<Bytes>)
    returns (sealed: seq<CryptoResItem>, plains: seq<CryptoResItem>)
    requires Sound(lib) && |nonces| == |items| && forall i | 0 <= i < |items| :: |nonces[i]| == NONCE_LENGTH
    requires forall i | 0 <= i < |items| :: items[i].t.RAW?
    requires forall i | 0 <= i < |items| :: lib.aead.seal(nonces[i], lib.text.encode(items[i].plaintext)).Some?
    ensures |sealed| == |items| == |plains|
    ensures forall i | 0 <= i < |items| :: plains[i] == CryptoResItem(items[i].plaintext, "")
    ensures forall i | 0 <= i < |items| :: Found(sealed[i].result, 0) == [sealed[i].result]
    ensures forall i | 0 <= i < |items| ::
      |sealed[i].result| == 10 + (4 * (|lib.text.encode(items[i].plaintext)| + 28) + 2) / 3
  {
    sealed := DoEncrypt(lib, items, nonces);
    var tokens := seq(|sealed|, i requires 0 <= i < |sealed| => sealed[i].result);
    forall i | 0 <= i < |items|
      ensures Sliceable(tokens[i]) && DecryptToken(lib, tokens[i]) == Ok(items[i].plaintext)
      ensures Found(sealed[i].result, 0) == [sealed[i].result]
      ensures |sealed[i].result| == 10 + (4 * (|lib.text.encode(items[i].plaintext)| + 28) + 2) / 3
    {
      ItemRoundTrip(lib, nonces[i], items[i]);
      EmittedIsToken(lib, nonces[i], items[i]);
      EmittedLength(lib, nonces[i], items[i]);
    }
    plains := DoDecrypt(lib, tokens);
  }

  /** Nothing else opens: an accepted RAW string is the token of the very bytes that were opened, so two
      different strings never stand for the same sealed bytes. */
  lemma OnlyTokensOpen(lib: Library, item: string)
    requires Sliceable(item) && DecryptToken(lib, item).Ok?
    ensures PREFIX <= item && |item| > |PREFIX|
    ensures Base64Url.Decode(item[|PREFIX| + 1..]).Some?
    ensures var data := Base64Url.Decode(item[|PREFIX| + 1..]).value;
      |data| >= NONCE_LENGTH && item == PREFIX + [item[|PREFIX|]] + Base64Url.Encode(data)
  {
    var body := item[|PREFIX|..];
    assert body[1..] == item[|PREFIX| + 1..];
    var data := Base64Url.Decode(body[1..]).value;
    Base64Url.EncodeDecode(body[1..]);
    assert item == PREFIX + [item[|PREFIX|]] + body[1..];
  }

  /** The token holds these bytes, a nonce and a ciphertext, and they open to `secret`. */
  ghost predicate Contents(lib: Library, token: string, kind: string, data: Bytes, secret: string) {
    && token == "vt://mac/" + kind + Base64Url.Encode(data) && |data| >= 12
    && match lib.aead.open(data[..12], data[12..])
       case None => false
       case Some(plain) => lib.text.decode(plain) == Some(secret)
  }

  lemma ContentsOpen(lib: Library, token: string, t: SecretType, data: Bytes, secret: string)
    requires t != UNKNOWN && Contents(lib, token, t.AsStr(), data, secret)
    ensures DecryptToken(lib, token) == if t == RAW then Ok(secret) else lib.totp(secret)
  {
    TokenParts(t, Base64Url.Encode(data));
    TypeRoundTrip(t);
    Base64Url.DecodeEncode(data);
  }

  /** A token opens to a value exactly if it is written as a raw secret and holds that value, or as a one-time-password
      secret and holds one whose current password is that value. */
  lemma OpensExactly(lib: Library, token: string, value: string)
    ensures DecryptToken(lib, token) == Ok(value) <==>
      (exists data :: Contents(lib, token, "0", data, value))
      || (exists data, secret :: Contents(lib, token, "1", data, secret) && lib.totp(secret) == Ok(value))
  {
    if data :| Contents(lib, token, "0", data, value) { ContentsOpen(lib, token, RAW, data, value); }
    if data, secret :| Contents(lib, token, "1", data, secret) && lib.totp(secret) == Ok(value) {
      ContentsOpen(lib, token, TOTP, data, secret);
    }
    if DecryptToken(lib, token) == Ok(value) { OpenedHasContents(lib, token, value); }
  }

  lemma OpenedHasContents(lib: Library, token: string, value: string)
    requires DecryptToken(lib, token) == Ok(value)
    ensures (exists data :: Contents(lib, token, "0", data, value))
      || (exists data, secret :: Contents(lib, token, "1", data, secret) && lib.totp(secret) == Ok(value))
  {
    var body := token[|PREFIX|..];
    var data := Base64Url.Decode(body[1..]).value;
    TypeNames(body[..1]);
    Base64Url.EncodeDecode(body[1..]);
    assert token == PREFIX + body[..1] + body[1..];
    var plain := lib.aead.open(data[..12], data[12..]).value;
    var secret := lib.text.decode(plain).value;
    assert Contents(lib, token, body[..1], data, secret);
  }

  /** The scanner's data characters are those of base64. */
  lemma DataIsBase64(c: char)
    ensures IsData(c) <==> Base64Url.IsSextetChar(c)
  {
  }
}
