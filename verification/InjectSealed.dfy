/**
 Inject from the sealed tokens to the plaintexts: what becomes of the texts when the server opens the tokens that
 were found in them.
 */
module InjectSealed {
  import opened Common
  import opened Scanner
  import opened Substitution
  import opened Codec
  import opened Inject
  import Base64Url

  /** The server answers every token on its own, in the order of the tokens. */
  ghost predicate Serves(lib: Library, tokens: seq<string>, reply: Result<seq<CryptoResItem>>) {
    && reply.Ok? && |reply.value| == |tokens|
    && forall k | 0 <= k < |tokens| :: Answers(lib, tokens[k], reply.value[k])
  }

  lemma {:induction false} LastPlace(tokens: seq<string>, t: string) returns (i: nat)
    requires t in tokens
    ensures i < |tokens| && tokens[i] == t && forall j | i < j < |tokens| :: tokens[j] != t
  {
    var n := |tokens| - 1;
    if tokens[n] == t { i := n; } else { i := LastPlace(tokens[..n], t); }
  }

  /** Each token found stands for what it opens to, or for the reason why it does not open. */
  lemma ServedSecrets(lib: Library, texts: seq<string>, decrypt: Decryptor, t: string)
    requires Serves(lib, AllFound(texts), decrypt(AllFound(texts))) && t in AllFound(texts)
    ensures Secrets(texts, decrypt).Ok? && t in Secrets(texts, decrypt).value
    ensures Secrets(texts, decrypt).value[t] == match DecryptToken(lib, t) { case Ok(plain) => plain case Err(e) => e }
  {
    var tokens := AllFound(texts);
    var i := LastPlace(tokens, t);
    LastAnswerWins(tokens, decrypt(tokens).value, i);
  }

  /** `token` seals `plain` under this nonce: both behind the prefix and the type of a raw secret, in base64. */
  ghost predicate SealsWith(lib: Library, nonce: Bytes, token: string, plain: string) {
    var sealed := lib.aead.seal(nonce, lib.text.encode(plain));
    |nonce| == 12 && sealed.Some? && token == "vt://mac/0" + Base64Url.Encode(nonce + sealed.value)
  }

  ghost predicate Seals(lib: Library, token: string, plain: string) {
    exists nonce :: SealsWith(lib, nonce, token, plain)
  }

  /** What the encryption of a raw secret emits seals it. */
  lemma EmittedSeals(lib: Library, nonce: Bytes, plain: string)
    requires |nonce| == 12 && EncryptOne(lib, nonce, EncryptItem(plain, RAW)).errMessage == ""
    ensures Seals(lib, EncryptOne(lib, nonce, EncryptItem(plain, RAW)).result, plain)
  {
    assert SealsWith(lib, nonce, EncryptOne(lib, nonce, EncryptItem(plain, RAW)).result, plain);
  }

  lemma SealedOpens(lib: Library, token: string, plain: string)
    requires Sound(lib) && Seals(lib, token, plain)
    ensures DecryptToken(lib, token) == Ok(plain) && PREFIX <= token
  {
    var nonce :| SealsWith(lib, nonce, token, plain);
    var item := EncryptItem(plain, RAW);
    assert EncryptOne(lib, nonce, item).result == token;
    ItemRoundTrip(lib, nonce, item);
  }

  /** Every token found seals the plaintext listed for it. */
  ghost predicate AllSealed(lib: Library, tokens: seq<string>, plain: SecretMap) {
    forall t | t in tokens :: t in plain && Seals(lib, t, plain[t])
  }

  /** The texts keep their tokens apart, and no plaintext looks like a token. */
  ghost predicate SealedTexts(lib: Library, texts: seq<string>, plain: SecretMap) {
    && AllSealed(lib, AllFound(texts), plain) && PlainValues(plain) && NoProperPrefix(AllFound(texts))
    && forall i | 0 <= i < |texts| :: Spaced(texts[i])
  }

  lemma SealedSecrets(lib: Library, texts: seq<string>, decrypt: Decryptor, plain: SecretMap)
    requires Sound(lib) && SealedTexts(lib, texts, plain)
    requires Serves(lib, AllFound(texts), decrypt(AllFound(texts)))
    ensures Secrets(texts, decrypt).Ok? && CleanTexts(texts, Secrets(texts, decrypt).value)
    ensures var m := Secrets(texts, decrypt).value;
      m.Keys <= plain.Keys && forall t | t in m :: m[t] == plain[t]
  {
    var m := Secrets(texts, decrypt).value;
    SecretsFitTexts(texts, decrypt);
    forall t | t in AllFound(texts) ensures t in m && t in plain && m[t] == plain[t] && PREFIX <= t {
      ServedSecrets(lib, texts, decrypt, t);
      SealedOpens(lib, t, plain[t]);
    }
  }

  lemma {:induction false} SameSwap(s: string, i: nat, m: SecretMap, plain: SecretMap)
    requires i <= |s| && MatchesIn(s, i, m.Keys) && m.Keys <= plain.Keys && forall t | t in m :: m[t] == plain[t]
    ensures MatchesIn(s, i, plain.Keys) && Swapped(s, i, m) == Swapped(s, i, plain)
    decreases |s| - i
  {
    if i < |s| {
      match MatchEnd(s, i)
      case None =>
        assert Found(s, i) == Found(s, i + 1);
        SameSwap(s, i + 1, m, plain);
      case Some(e) =>
        assert Found(s, i) == [s[i..e]] + Found(s, e);
        SameSwap(s, e, m, plain);
    }
  }

  /** Every text comes back with each of its tokens exchanged for the plaintext it seals. */
  lemma SealedTextsOpen(lib: Library, texts: seq<string>, decrypt: Decryptor, plain: SecretMap, out: seq<string>)
    requires Sound(lib) && SealedTexts(lib, texts, plain)
    requires Serves(lib, AllFound(texts), decrypt(AllFound(texts)))
    ensures Secrets(texts, decrypt).Ok?
    ensures AllSubstituted(texts, Secrets(texts, decrypt).value, out) ==>
      |out| == |texts| && forall i | 0 <= i < |texts| :: Swaps(texts[i], plain, out[i])
  {
    SealedSecrets(lib, texts, decrypt, plain);
    var m := Secrets(texts, decrypt).value;
    if AllSubstituted(texts, m, out) {
      forall i | 0 <= i < |texts| ensures Swaps(texts[i], plain, out[i]) {
        PipelineSwaps(texts, decrypt, i, out[i]);
        SameSwap(texts[i], 0, m, plain);
      }
    }
  }

  /** The whole command: variables, arguments and the output get the plaintexts their own tokens seal. */
  lemma SealedInject(lib: Library, q: Request, vars: seq<Variable>, args: seq<string>, content: string,
                     decrypt: Decryptor, plain: SecretMap, io: OutputIo,
                     before: World, after: World, result: Result<seq<string>>)
    requires q.replaceFile.Some? ==> q.replaceFile.value in before.files
    requires Sound(lib) && Lists(vars, before.env) && SealedTexts(lib, Texts(args, content, vars), plain)
    requires Serves(lib, AllFound(Texts(args, content, vars)), decrypt(AllFound(Texts(args, content, vars))))
    ensures Secrets(Texts(args, content, vars), decrypt).Ok?
    ensures Prepared(q, args, content, Secrets(Texts(args, content, vars), decrypt).value, io, before, after, result) ==>
      && (result.Ok? ==>
            |result.value| == |args| && forall i | 0 <= i < |args| :: Swaps(args[i], plain, result.value[i]))
      && after.env.Keys == before.env.Keys && (forall k | k in before.env :: Swaps(before.env[k], plain, after.env[k]))
      && MatchesIn(content, 0, plain.Keys)
      && OutputDone(q, io, before, after, Swapped(content, 0, plain), result)
  {
    var texts := Texts(args, content, vars);
    SealedSecrets(lib, texts, decrypt, plain);
    var m := Secrets(texts, decrypt).value;
    if Prepared(q, args, content, m, io, before, after, result) {
      CleanInject(q, vars, args, content, decrypt, io, before, after, result);
      if result.Ok? {
        forall i | 0 <= i < |args| ensures Swaps(args[i], plain, result.value[i]) { SameSwap(args[i], 0, m, plain); }
      }
      forall k | k in before.env ensures Swaps(before.env[k], plain, after.env[k]) {
        SameSwap(before.env[k], 0, m, plain);
      }
      SameSwap(content, 0, m, plain);
    }
  }
}
