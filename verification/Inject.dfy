/**
 The inject command up to the moment it starts its child: every text that may hold tokens is pushed on one
 vector, the vector is substituted as a whole, and the results are popped off again in reverse.
 */
module Inject {
  import opened Common
  import opened Scanner
  import opened Substitution
  import opened Codec

  // ---------------------------------------------------------------------------
  // From the matches of all texts to the secret map
  // ---------------------------------------------------------------------------

  /** The matches of all texts, text by text. */
  function AllFound(texts: seq<string>): seq<string> {
    if texts == [] then [] else AllFound(texts[..|texts| - 1]) + Found(texts[|texts| - 1], 0)
  }

  /** The tokens of a text are its matches, and those of two lists of texts stand one list after the other. */
  lemma {:induction false} FoundInOrder(texts: seq<string>, more: seq<string>, text: string)
    ensures AllFound(texts + more) == AllFound(texts) + AllFound(more) && AllFound([text]) == Found(text, 0)
    decreases |more|
  {
    assert [text][..0] == [];
    if more == [] {
      assert texts + more == texts;
    } else {
      var n := |more| - 1;
      assert (texts + more)[..|texts| + n] == texts + more[..n];
      FoundInOrder(texts, more[..n], text);
    }
  }

  /** A failed item is replaced by its error message. */
  function ShownValue(item: CryptoResItem): string {
    if item.errMessage == "" then item.result else item.errMessage
  }

  /** Inserting the answers one by one; a later answer for the same token wins. */
  function SecretsOf(tokens: seq<string>, answers: seq<CryptoResItem>): SecretMap
    requires |tokens| == |answers|
  {
    if tokens == [] then map[]
    else
      var n := |tokens| - 1;
      SecretsOf(tokens[..n], answers[..n])[tokens[n] := ShownValue(answers[n])]
  }

  /** The map holds exactly the tokens found. */
  lemma {:induction false} SecretKeys(tokens: seq<string>, answers: seq<CryptoResItem>, t: string)
    requires |tokens| == |answers|
    ensures t in SecretsOf(tokens, answers) <==> t in tokens
  {
    if tokens != [] {
      var n := |tokens| - 1;
      SecretKeys(tokens[..n], answers[..n], t);
      assert tokens == tokens[..n] + [tokens[n]];
    }
  }

  /** Each token has the last answer that was given for it: its result, or the reason why there is none. */
  lemma {:induction false} LastAnswerWins(tokens: seq<string>, answers: seq<CryptoResItem>, i: nat)
    requires |tokens| == |answers| && i < |tokens|
    requires forall j | i < j < |tokens| :: tokens[j] != tokens[i]
    ensures tokens[i] in SecretsOf(tokens, answers)
    ensures answers[i].errMessage == "" ==> SecretsOf(tokens, answers)[tokens[i]] == answers[i].result
    ensures answers[i].errMessage != "" ==> SecretsOf(tokens, answers)[tokens[i]] == answers[i].errMessage
  {
    var n := |tokens| - 1;
    if i < n {
      assert tokens[n] != tokens[i];
      LastAnswerWins(tokens[..n], answers[..n], i);
    }
  }

  type Decryptor = seq<string> -> Result<seq<CryptoResItem>>

  /** What the server's reply means for the texts: the map to substitute with, or an error. */
  function Secrets(texts: seq<string>, decrypt: Decryptor): Result<SecretMap> {
    match decrypt(AllFound(texts))
    case Err(e) => Err(e)
    case Ok(answers) =>
      if |answers| != |AllFound(texts)| then Err("Expected same number of items in response")
      else Ok(SecretsOf(AllFound(texts), answers))
  }

  lemma {:induction false} FoundSomewhere(texts: seq<string>, t: string) returns (i: nat)
    requires t in AllFound(texts)
    ensures i < |texts| && t in Found(texts[i], 0)
  {
    var n := |texts| - 1;
    if t in Found(texts[n], 0) { i := n; } else { i := FoundSomewhere(texts[..n], t); }
  }

  lemma {:induction false} FoundEverywhere(texts: seq<string>, i: nat, t: string)
    requires i < |texts| && t in Found(texts[i], 0)
    ensures t in AllFound(texts)
  {
    var n := |texts| - 1;
    if i < n { FoundEverywhere(texts[..n], i, t); }
  }

  lemma FoundIsToken(s: string, t: string)
    requires t in Found(s, 0)
    ensures IsToken(t)
  {
    FoundAreMatches(s, 0);
    var k :| 0 <= k < |Found(s, 0)| && Found(s, 0)[k] == t;
    ScanIsLeftmostLongest(s);
    var (a, b) := Scan(s, 0)[k];
    assert Matches(s, Scan(s, 0)[k].0, Scan(s, 0)[k].1);
    MatchIsToken(s, a, b);
  }

  lemma EmptyIsNoToken()
    ensures !IsToken("")
  {
    forall h ensures !MatchesVia("", 0, h, 0) {}
  }

  lemma SecretsFitTexts(texts: seq<string>, decrypt: Decryptor)
    requires Secrets(texts, decrypt).Ok?
    ensures var m := Secrets(texts, decrypt).value;
      AllTokens(m.Keys) && (forall t :: t in m <==> t in AllFound(texts))
      && forall i | 0 <= i < |texts| :: MatchesIn(texts[i], 0, m.Keys)
  {
    var tokens := AllFound(texts);
    var m := Secrets(texts, decrypt).value;
    forall t ensures t in m <==> t in tokens { SecretKeys(tokens, decrypt(tokens).value, t); }
    forall t | t in m ensures IsToken(t) {
      var i := FoundSomewhere(texts, t);
      FoundIsToken(texts[i], t);
    }
    forall i | 0 <= i < |texts| ensures MatchesIn(texts[i], 0, m.Keys) {
      forall t | t in Found(texts[i], 0) ensures t in m.Keys { FoundEverywhere(texts, i, t); }
    }
  }

  // ---------------------------------------------------------------------------
  // Substituting all texts
  // ---------------------------------------------------------------------------

  /** `out` is `s` with the entries of `m` replaced in some iteration order of the map. */
  ghost predicate Substituted(s: string, m: SecretMap, out: string) {
    exists order :: IsOrder(order, m) && UsableKeys(order, m) && out == ReplaceInOrder(s, order, m)
  }

  ghost predicate AllSubstituted(texts: seq<string>, m: SecretMap, out: seq<string>) {
    |out| == |texts| && forall i | 0 <= i < |texts| :: Substituted(texts[i], m, out[i])
  }

  lemma {:induction false} OneMoreKey(s: string, order: seq<string>, k: string, m: SecretMap)
    requires UsableKeys(order, m) && k in m && k != ""
    ensures UsableKeys(order + [k], m)
    ensures ReplaceInOrder(s, order + [k], m) == ReplaceAll(ReplaceInOrder(s, order, m), k, m[k])
    decreases |order|
  {
    if order == [] {
      assert [k][1..] == [] && order + [k] == [k];
    } else {
      assert (order + [k])[1..] == order[1..] + [k];
      OneMoreKey(ReplaceAll(s, order[0], m[order[0]]), order[1..], k, m);
    }
  }

  /** One text: every entry of the map once, in whatever order the map yields them. */
  method Substitute(text: string, secrets: SecretMap) returns (result: string)
    requires "" !in secrets
    ensures Substituted(text, secrets, result)
  {
    result := text;
    ghost var order: seq<string> := [];
    var rest := secrets.Keys;
    while rest != {}
      invariant rest <= secrets.Keys && (forall k :: k in order <==> k in secrets && k !in rest)
      invariant forall i, j | 0 <= i < j < |order| :: order[i] != order[j]
      invariant UsableKeys(order, secrets) && result == ReplaceInOrder(text, order, secrets)
      decreases rest
    {
      var k :| k in rest;
      OneMoreKey(text, order, k, secrets);
      assert k !in order;
      result := ReplaceAll(result, k, secrets[k]);
      order := order + [k];
      rest := rest - {k};
    }
    assert IsOrder(order, secrets);
  }

  method CollectTokens(texts: seq<string>) returns (tokens: seq<string>)
    ensures tokens == AllFound(texts)
  {
    tokens := [];
    for i := 0 to |texts|
      invariant tokens == AllFound(texts[..i])
    {
      var found := FindMatches(texts[i]);
      assert texts[..i + 1][..i] == texts[..i];
      tokens := tokens + found;
    }
    assert texts[..|texts|] == texts;
  }

  method CollectSecrets(tokens: seq<string>, answers: seq<CryptoResItem>) returns (secrets: SecretMap)
    requires |tokens| == |answers|
    ensures secrets == SecretsOf(tokens, answers)
  {
    secrets := map[];
    for i := 0 to |tokens|
      invariant secrets == SecretsOf(tokens[..i], answers[..i])
    {
      assert tokens[..i + 1][..i] == tokens[..i] && answers[..i + 1][..i] == answers[..i];
      secrets := secrets[tokens[i] := ShownValue(answers[i])];
    }
    assert tokens[..|tokens|] == tokens && answers[..|tokens|] == answers;
  }

  method SubstituteAll(texts: seq<string>, secrets: SecretMap) returns (out: seq<string>)
    requires "" !in secrets
    ensures AllSubstituted(texts, secrets, out)
  {
    out := [];
    for i := 0 to |texts|
      invariant |out| == i && forall j | 0 <= j < i :: Substituted(texts[j], secrets, out[j])
    {
      var result := Substitute(texts[i], secrets);
      out := out + [result];
    }
  }

  /** All tokens of all texts go to the server in one request, the answers come back as one map, and that map
      is applied to every text. */
  method DecryptFromMultiStr(texts: seq<string>, decrypt: Decryptor) returns (r: Result<seq<string>>)
    ensures r.Ok? <==> Secrets(texts, decrypt).Ok?
    ensures r.Err? ==> r.message == Secrets(texts, decrypt).message
    ensures r.Ok? ==> AllSubstituted(texts, Secrets(texts, decrypt).value, r.value)
  {
    var tokens := CollectTokens(texts);
    var reply := decrypt(tokens);
    if reply.Err? { return Err(reply.message); }
    if |reply.value| != |tokens| { return Err("Expected same number of items in response"); }
    var secrets := CollectSecrets(tokens, reply.value);
    NoEmptyKey(texts, decrypt);
    var out := SubstituteAll(texts, secrets);
    return Ok(out);
  }

  lemma NoEmptyKey(texts: seq<string>, decrypt: Decryptor)
    requires Secrets(texts, decrypt).Ok?
    ensures "" !in Secrets(texts, decrypt).value
  {
    SecretsFitTexts(texts, decrypt);
    EmptyIsNoToken();
  }

  // ---------------------------------------------------------------------------
  // Texts with tokens of the one host the tool writes
  // ---------------------------------------------------------------------------

  predicate TokenChar(c: char) {
    IsData(c) || c == ':' || c == '/'
  }

  /** Next to a match there is the end of the text or a character no token of ours contains. */
  predicate Spaced(s: string) {
    forall k | 0 <= k < |Scan(s, 0)| ::
      var (a, b) := Scan(s, 0)[k];
      (a > 0 ==> !TokenChar(s[a - 1])) && (b < |s| ==> !TokenChar(s[b]))
  }

  ghost predicate MacTokens(tokens: seq<string>) {
    forall t | t in tokens :: PREFIX <= t
  }

  ghost predicate NoProperPrefix(tokens: seq<string>) {
    forall t, u | t in tokens && u in tokens && u <= t :: u == t
  }

  lemma MacTokenChars(t: string, c: char)
    requires IsToken(t) && PREFIX <= t && c in t
    ensures TokenChar(c)
  {
    var h: nat :| MatchesVia(t, 0, h, |t|);
    assert t[..9] == PREFIX && t[8] == PREFIX[8];
    assert h <= 8;
    var k :| 0 <= k < |t| && t[k] == c;
    if k < 9 { assert c == PREFIX[k]; }
  }

  /** All tokens are of the vt://mac/ form and stand apart from other token characters, none is a proper prefix
      of another, and no secret contains vt://. */
  ghost predicate CleanTexts(texts: seq<string>, secrets: SecretMap) {
    && MacTokens(AllFound(texts)) && NoProperPrefix(AllFound(texts)) && PlainValues(secrets)
    && forall i | 0 <= i < |texts| :: Spaced(texts[i])
  }

  lemma CleanIsSeparated(texts: seq<string>, decrypt: Decryptor, i: nat)
    requires Secrets(texts, decrypt).Ok? && i < |texts| && CleanTexts(texts, Secrets(texts, decrypt).value)
    ensures var m := Secrets(texts, decrypt).value; WellSeparated(texts[i], m) && PrefixFree(texts[i], m.Keys)
  {
    var m := Secrets(texts, decrypt).value;
    SecretsFitTexts(texts, decrypt);
    forall c | KeyChar(m.Keys, c) ensures TokenChar(c) {
      var t :| t in m.Keys && c in t;
      assert IsToken(t);
      MacTokenChars(t, c);
    }
    assert Spaced(texts[i]);
    forall t | t in Found(texts[i], 0) ensures t in m.Keys {}
  }

  /** The pipeline on clean texts: every text comes back with all its matches swapped at once for their own
      values, whatever order the map was walked in. */
  lemma PipelineSwaps(texts: seq<string>, decrypt: Decryptor, i: nat, out: string)
    requires Secrets(texts, decrypt).Ok? && i < |texts| && CleanTexts(texts, Secrets(texts, decrypt).value)
    requires Substituted(texts[i], Secrets(texts, decrypt).value, out)
    ensures var m := Secrets(texts, decrypt).value;
      MatchesIn(texts[i], 0, m.Keys) && out == Swapped(texts[i], 0, m)
  {
    var m := Secrets(texts, decrypt).value;
    CleanIsSeparated(texts, decrypt, i);
    var order :| IsOrder(order, m) && UsableKeys(order, m) && out == ReplaceInOrder(texts[i], order, m);
    SubstitutionIsSimultaneous(texts[i], order, m);
  }

  // ---------------------------------------------------------------------------
  // The vector of texts
  // ---------------------------------------------------------------------------

  type Variable = (string, string)

  /** The operating system lists every variable once, in an order of its own. */
  ghost predicate Lists(vars: seq<Variable>, env: map<string, string>) {
    && (forall i, j | 0 <= i < j < |vars| :: vars[i].0 != vars[j].0)
    && (forall i | 0 <= i < |vars| :: vars[i].0 in env && env[vars[i].0] == vars[i].1)
    && (forall k | k in env :: (k, env[k]) in vars)
  }

  predicate HasToken(s: string) {
    Found(s, 0) != []
  }

  function WithTokens(vars: seq<Variable>): (r: seq<Variable>)
    ensures forall v :: v in r <==> v in vars && HasToken(v.1)
    ensures |r| <= |vars|
  {
    if vars == [] then []
    else if HasToken(vars[|vars| - 1].1) then WithTokens(vars[..|vars| - 1]) + [vars[|vars| - 1]]
    else WithTokens(vars[..|vars| - 1])
  }

  lemma {:induction false} WithTokensDistinct(vars: seq<Variable>)
    requires forall i, j | 0 <= i < j < |vars| :: vars[i].0 != vars[j].0
    ensures forall i, j | 0 <= i < j < |WithTokens(vars)| :: WithTokens(vars)[i].0 != WithTokens(vars)[j].0
  {
    if vars != [] {
      var n := |vars| - 1;
      WithTokensDistinct(vars[..n]);
      var r := WithTokens(vars[..n]);
      forall i | 0 <= i < |r| ensures r[i].0 != vars[n].0 {
        assert r[i] in r;
      }
    }
  }

  function Values(vars: seq<Variable>): (r: seq<string>)
    ensures |r| == |vars| && forall i | 0 <= i < |vars| :: r[i] == vars[i].1
  {
    seq(|vars|, i requires 0 <= i < |vars| => vars[i].1)
  }

  /** The vector that goes to the server: the command, the file content, the variables with tokens. */
  function Texts(args: seq<string>, content: string, vars: seq<Variable>): seq<string> {
    args + [content] + Values(WithTokens(vars))
  }

  // ---------------------------------------------------------------------------
  // The command
  // ---------------------------------------------------------------------------

  datatype Request = Request(replaceFile: Option<string>, inputFile: Option<string>, outputFile: Option<string>) {
    predicate Conflicting() { replaceFile.Some? && (inputFile.Some? || outputFile.Some?) }

    /** The replaced file, else the input file. */
    function Source(): Option<string> { if replaceFile.Some? then replaceFile else inputFile }
  }

  /** Each variable with a token got the substitution of its own value, no other variable changed. */
  ghost predicate EnvSubstituted(before: map<string, string>, after: map<string, string>, m: SecretMap) {
    after.Keys == before.Keys && forall k | k in before :: VariableDone(before[k], after[k], m)
  }

  ghost predicate VariableDone(was: string, now: string, m: SecretMap) {
    if HasToken(was) then Substituted(was, m, now) else now == was
  }

  /** Where the output text goes; a replaced file is copied first. */
  function Written(q: Request, files: map<string, string>, text: string): map<string, string>
    requires q.replaceFile.Some? ==> q.replaceFile.value in files
  {
    match q.replaceFile
    case Some(f) => files[f + ".vt" := files[f]][f := text]
    case None => if q.outputFile.Some? then files[q.outputFile.value := text] else files
  }

  function Printed(q: Request, text: string): string {
    if q.replaceFile.None? && q.outputFile.None? then text else ""
  }

  /** A snapshot of the process, for specifications. */
  datatype World = World(env: map<string, string>, files: map<string, string>, stdout: string)

  /** How a file is written: as asked, not at all, or cut short with some other content. */
  datatype WriteOutcome = Works | FailsUntouched | FailsLeaving(content: string)

  datatype OutputIo = OutputIo(copy: WriteOutcome, write: WriteOutcome)

  function Put(files: map<string, string>, path: string, content: string, o: WriteOutcome): map<string, string> {
    match o
    case Works => files[path := content]
    case FailsUntouched => files
    case FailsLeaving(left) => files[path := left]
  }

  /** Backing up and writing, or printing, with whatever goes wrong; each failure ends it. */
  function OutputStep(q: Request, w: World, text: string, io: OutputIo): (World, Result<()>)
    requires q.replaceFile.Some? ==> q.replaceFile.value in w.files
  {
    match q.replaceFile
    case Some(f) =>
      var copied := w.(files := Put(w.files, f + ".vt", w.files[f], io.copy));
      if io.copy != Works then (copied, Err("Failed to backup file"))
      else
        (copied.(files := Put(copied.files, f, text, io.write)),
         if io.write == Works then Ok(()) else Err("Failed to write to replace file"))
    case None =>
      if q.outputFile.Some? then
        (w.(files := Put(w.files, q.outputFile.value, text, io.write)),
         if io.write == Works then Ok(()) else Err("Failed to write to output file"))
      else (w.(stdout := w.stdout + text), Ok(()))
  }

  /** When the output works, and what is then where. */
  lemma OutputMeans(q: Request, w: World, text: string, io: OutputIo)
    requires q.replaceFile.Some? ==> q.replaceFile.value in w.files
    ensures var (after, r) := OutputStep(q, w, text, io);
      && after.env == w.env
      && (r.Ok? <==> (q.replaceFile.Some? ==> io.copy.Works? && io.write.Works?)
                     && (q.replaceFile.None? && q.outputFile.Some? ==> io.write.Works?))
      && (r.Ok? && q.replaceFile.Some? ==>
            q.replaceFile.value in after.files && after.files[q.replaceFile.value] == text
            && q.replaceFile.value + ".vt" in after.files
            && after.files[q.replaceFile.value + ".vt"] == w.files[q.replaceFile.value] && after.stdout == w.stdout)
      && (r.Ok? && q.replaceFile.None? && q.outputFile.Some? ==>
            after.files == w.files[q.outputFile.value := text] && after.stdout == w.stdout)
      && (q.replaceFile.None? && q.outputFile.None? ==> after.files == w.files && after.stdout == w.stdout + text)
  {
    if q.replaceFile.Some? { assert |q.replaceFile.value + ".vt"| == |q.replaceFile.value| + 3; }
  }

  /** A successful output is the backup and the written text, or the printed text. */
  lemma OutputWorks(q: Request, w: World, text: string, io: OutputIo)
    requires q.replaceFile.Some? ==> q.replaceFile.value in w.files
    ensures var (after, r) := OutputStep(q, w, text, io);
      r.Ok? ==> after == w.(files := Written(q, w.files, text), stdout := w.stdout + Printed(q, text))
  {
  }

  /** A failed one leaves no other file changed, and the original content of a replaced file in place or in the
      backup. */
  lemma FailedOutputKeepsOriginal(q: Request, w: World, text: string, io: OutputIo)
    requires q.replaceFile.Some? && q.replaceFile.value in w.files && OutputStep(q, w, text, io).1.Err?
    ensures var f := q.replaceFile.value;
      var after := OutputStep(q, w, text, io).0.files;
      && (after[f] == w.files[f] || (f + ".vt" in after && after[f + ".vt"] == w.files[f]))
      && forall path | path != f && path != f + ".vt" :: (path in after <==> path in w.files)
           && (path in after ==> after[path] == w.files[path])
  {
    assert |q.replaceFile.value + ".vt"| == |q.replaceFile.value| + 3;
  }

  /** The output was attempted with this text, and the result says whether it worked. */
  ghost predicate OutputDone(q: Request, io: OutputIo, before: World, after: World, text: string,
                             result: Result<seq<string>>)
    requires q.replaceFile.Some? ==> q.replaceFile.value in before.files
  {
    var (w, r) := OutputStep(q, before.(env := after.env), text, io);
    after == w && (result.Ok? <==> r.Ok?) && (result.Err? ==> result.message == r.message)
  }

  /** The variables and the one output are substituted, each from its own text, and if the output worked exactly the
      substituted arguments are left, in order. */
  ghost predicate Prepared(q: Request, args: seq<string>, content: string, m: SecretMap, io: OutputIo,
                           before: World, after: World, result: Result<seq<string>>)
    requires q.replaceFile.Some? ==> q.replaceFile.value in before.files
  {
    && EnvSubstituted(before.env, after.env, m)
    && (exists text | Substituted(content, m, text) :: OutputDone(q, io, before, after, text, result))
    && (result.Ok? ==> AllSubstituted(args, m, result.value))
  }

  /** Whatever went wrong with the output: the original content of a replaced file is in place or in the backup, and no
      other file has changed. */
  lemma OriginalSurvives(q: Request, args: seq<string>, content: string, m: SecretMap, io: OutputIo,
                         before: World, after: World, result: Result<seq<string>>)
    requires q.replaceFile.Some? && q.replaceFile.value in before.files
    requires Prepared(q, args, content, m, io, before, after, result)
    ensures var f := q.replaceFile.value;
      && ((f in after.files && after.files[f] == before.files[f])
          || (f + ".vt" in after.files && after.files[f + ".vt"] == before.files[f]))
      && forall path | path != f && path != f + ".vt" :: (path in after.files <==> path in before.files)
           && (path in after.files ==> after.files[path] == before.files[path])
  {
    var f := q.replaceFile.value;
    assert |f + ".vt"| == |f| + 3;
    var text :| Substituted(content, m, text) && OutputDone(q, io, before, after, text, result);
    if result.Ok? {
      OutputWorks(q, before.(env := after.env), text, io);
    } else {
      FailedOutputKeepsOriginal(q, before.(env := after.env), text, io);
    }
  }

  /** The values came off the vector: variables from its end, then the output, the rest stays. */
  ghost predicate Distributed(q: Request, matching: seq<Variable>, values: seq<string>, io: OutputIo,
                              before: World, after: World, result: Result<seq<string>>)
    requires |values| > |matching| && (q.replaceFile.Some? ==> q.replaceFile.value in before.files)
  {
    var n := |values| - |matching| - 1;
    && SetFromVector(matching, before.env, after.env, values)
    && OutputDone(q, io, before, after, values[n], result)
    && (result.Ok? ==> result.value == values[..n])
  }

  lemma VariablesPrepared(args: seq<string>, content: string, vars: seq<Variable>, m: SecretMap,
                          before: map<string, string>, after: map<string, string>, out: seq<string>)
    requires Lists(vars, before) && AllSubstituted(Texts(args, content, vars), m, out)
    requires SetFromVector(WithTokens(vars), before, after, out)
    ensures EnvSubstituted(before, after, m)
  {
    assert EndsWith(Texts(args, content, vars), WithTokens(vars));
    VariablesDone(before, after, vars, Texts(args, content, vars), out, m);
  }

  lemma PartsPrepared(q: Request, args: seq<string>, content: string, vars: seq<Variable>, m: SecretMap, io: OutputIo,
                      before: World, after: World, out: seq<string>, result: Result<seq<string>>)
    requires q.replaceFile.Some? ==> q.replaceFile.value in before.files
    requires AllSubstituted(Texts(args, content, vars), m, out) && EnvSubstituted(before.env, after.env, m)
    requires |out| > |WithTokens(vars)| && Distributed(q, WithTokens(vars), out, io, before, after, result)
    ensures Prepared(q, args, content, m, io, before, after, result)
  {
    TextsApart(args, content, vars, m, out);
    assert |out| - |WithTokens(vars)| - 1 == |args|;
  }

  /** What inject reads from and writes to. */
  class Process {
    var env: map<string, string>
    var files: map<string, string>
    var stdout: string

    constructor (env: map<string, string>, files: map<string, string>)
      ensures this.env == env && this.files == files && stdout == ""
    {
      this.env := env;
      this.files := files;
      stdout := "";
    }

    ghost function Snapshot(): World
      reads this
    {
      World(env, files, stdout)
    }

    function ContentOf(source: Option<string>): Result<string>
      reads this
    {
      match source
      case None => Ok("")
      case Some(f) => if f in files then Ok(files[f]) else Err("Failed to read file")
    }

    /** Does inject get as far as changing anything, and with which secrets? */
    function Plan(q: Request, args: seq<string>, vars: seq<Variable>, decrypt: Decryptor): Result<SecretMap>
      reads this
    {
      if q.Conflicting() then Err("Cannot specify both replace file and input file or output file")
      else
        match ContentOf(q.Source())
        case Err(e) => Err(e)
        case Ok(content) => Secrets(Texts(args, content, vars), decrypt)
    }

    /** An error up to the server's reply leaves everything as it was; after that everything is prepared with the
        plan's secrets, and only the output may fail. */
    method Prepare(q: Request, args: seq<string>, vars: seq<Variable>, decrypt: Decryptor, io: OutputIo)
      returns (command: Result<seq<string>>)
      requires Lists(vars, env)
      modifies this
      ensures old(Plan(q, args, vars, decrypt)).Err? ==>
        command == Err(old(Plan(q, args, vars, decrypt)).message) && Snapshot() == old(Snapshot())
      ensures old(Plan(q, args, vars, decrypt)).Ok? ==>
        Prepared(q, args, old(ContentOf(q.Source())).value, old(Plan(q, args, vars, decrypt)).value, io,
                 old(Snapshot()), Snapshot(), command)
    {
      if q.Conflicting() {
        return Err("Cannot specify both replace file and input file or output file");
      }
      var content := ContentOf(q.Source());
      if content.Err? { return Err(content.message); }
      var matching := MatchingVariables(vars);
      var texts := PushAll(args, content.value, matching);
      var decrypted := DecryptFromMultiStr(texts, decrypt);
      if decrypted.Err? { return Err(decrypted.message); }
      MatchingSettable(vars, env);
      command := Distribute(q, matching, decrypted.value, io);
      VariablesPrepared(args, content.value, vars, Secrets(texts, decrypt).value, old(env), env, decrypted.value);
      PartsPrepared(q, args, content.value, vars, Secrets(texts, decrypt).value, io,
                    old(Snapshot()), Snapshot(), decrypted.value, command);
    }

    /** Takes the variables and then the output off the vector; no pop ever meets an empty one. */
    method Distribute(q: Request, matching: seq<Variable>, values: seq<string>, io: OutputIo)
      returns (result: Result<seq<string>>)
      requires |values| > |matching| && Settable(matching, env)
      requires q.replaceFile.Some? ==> q.replaceFile.value in files
      modifies this
      ensures Distributed(q, matching, values, io, old(Snapshot()), Snapshot(), result)
    {
      var rest := SetVariables(matching, values);
      result := WriteOutput(q, rest, io);
    }

    /** The values come off the end of the vector, last variable first. */
    method SetVariables(matching: seq<Variable>, values: seq<string>) returns (rest: seq<string>)
      requires |values| >= |matching| && Settable(matching, env)
      modifies this`env
      ensures rest == values[..|values| - |matching|] && SetFromVector(matching, old(env), env, values)
    {
      rest := values;
      var i := |matching|;
      while i > 0
        invariant 0 <= i <= |matching| && rest == values[..|values| - |matching| + i]
        invariant env.Keys == old(env).Keys
        invariant forall j | i <= j < |matching| :: env[matching[j].0] == values[|values| - |matching| + j]
        invariant forall k | k in env && !SetFrom(matching, i, k) :: env[k] == old(env)[k]
      {
        i := i - 1;
        var key := matching[i].0;
        var value := rest[|rest| - 1];
        rest := rest[..|rest| - 1];
        env := env[key := value];
        assert SetFrom(matching, i, key);
      }
    }

    /** The copy of a replaced file is made before its content is taken off the vector and written. */
    method WriteOutput(q: Request, values: seq<string>, io: OutputIo) returns (result: Result<seq<string>>)
      requires values != [] && (q.replaceFile.Some? ==> q.replaceFile.value in files)
      modifies this`files, this`stdout
      ensures (Snapshot(), if result.Ok? then Ok(()) else Err(result.message)) ==
        OutputStep(q, old(Snapshot()), values[|values| - 1], io)
      ensures result.Ok? ==> result.value == values[..|values| - 1]
    {
      if q.replaceFile.Some? {
        var f := q.replaceFile.value;
        files := Put(files, f + ".vt", files[f], io.copy);
        if io.copy != Works { return Err("Failed to backup file"); }
      }
      var output := values[|values| - 1];
      var rest := values[..|values| - 1];
      if q.replaceFile.Some? {
        files := Put(files, q.replaceFile.value, output, io.write);
        if io.write != Works { return Err("Failed to write to replace file"); }
      } else if q.outputFile.Some? {
        files := Put(files, q.outputFile.value, output, io.write);
        if io.write != Works { return Err("Failed to write to output file"); }
      } else {
        stdout := stdout + output;
      }
      return Ok(rest);
    }
  }

  /** `content` is what inject works on: the replaced file, else the input file, else nothing. */
  predicate WorksOn(q: Request, files: map<string, string>, content: string) {
    if q.replaceFile.Some? then q.replaceFile.value in files && content == files[q.replaceFile.value]
    else if q.inputFile.Some? then q.inputFile.value in files && content == files[q.inputFile.value]
    else content == ""
  }

  /** Inject goes ahead exactly if no other file is given beside a replaced one, the file it is to read is there, and
      the server answers every token of the arguments, the content and the variables with tokens. */
  lemma PlanSucceeds(p: Process, q: Request, args: seq<string>, vars: seq<Variable>, decrypt: Decryptor, content: string)
    requires WorksOn(q, p.files, content)
    ensures var tokens := AllFound(args + [content] + Values(WithTokens(vars)));
      && (p.Plan(q, args, vars, decrypt).Ok? <==>
            !(q.replaceFile.Some? && (q.inputFile.Some? || q.outputFile.Some?))
            && decrypt(tokens).Ok? && |decrypt(tokens).value| == |tokens|)
      && (p.Plan(q, args, vars, decrypt).Ok? ==>
            p.ContentOf(q.Source()) == Ok(content)
            && p.Plan(q, args, vars, decrypt).value == SecretsOf(tokens, decrypt(tokens).value))
  {
  }

  lemma PlanNeedsContent(p: Process, q: Request, args: seq<string>, vars: seq<Variable>, decrypt: Decryptor)
    requires p.Plan(q, args, vars, decrypt).Ok?
    ensures exists content :: WorksOn(q, p.files, content)
  {
    assert WorksOn(q, p.files, p.ContentOf(q.Source()).value);
  }

  method MatchingVariables(vars: seq<Variable>) returns (matching: seq<Variable>)
    ensures matching == WithTokens(vars)
  {
    matching := [];
    for i := 0 to |vars|
      invariant matching == WithTokens(vars[..i])
    {
      assert vars[..i + 1][..i] == vars[..i];
      if HasToken(vars[i].1) { matching := matching + [vars[i]]; }
    }
    assert vars[..|vars|] == vars;
  }

  method PushAll(args: seq<string>, content: string, matching: seq<Variable>) returns (texts: seq<string>)
    ensures texts == args + [content] + Values(matching)
  {
    texts := args + [content];
    for i := 0 to |matching|
      invariant texts == args + [content] + Values(matching[..i])
    {
      assert Values(matching[..i + 1]) == Values(matching[..i]) + [matching[i].1];
      texts := texts + [matching[i].1];
    }
    assert matching[..|matching|] == matching;
  }

  /** Variable `k` is one of those from position `i` on. */
  ghost predicate SetFrom(matching: seq<Variable>, i: nat, k: string) {
    exists j | i <= j < |matching| :: matching[j].0 == k
  }

  ghost predicate Settable(matching: seq<Variable>, env: map<string, string>) {
    && (forall i | 0 <= i < |matching| :: matching[i].0 in env)
    && (forall i, j | 0 <= i < j < |matching| :: matching[i].0 != matching[j].0)
  }

  lemma MatchingSettable(vars: seq<Variable>, env: map<string, string>)
    requires Lists(vars, env)
    ensures Settable(WithTokens(vars), env)
  {
    WithTokensDistinct(vars);
    MatchingInEnv(vars, env);
  }

  lemma MatchingInEnv(vars: seq<Variable>, env: map<string, string>)
    requires Lists(vars, env)
    ensures forall j | 0 <= j < |WithTokens(vars)| ::
      WithTokens(vars)[j].0 in env && env[WithTokens(vars)[j].0] == WithTokens(vars)[j].1
      && HasToken(WithTokens(vars)[j].1)
  {
    var matching := WithTokens(vars);
    forall j | 0 <= j < |matching|
      ensures matching[j].0 in env && env[matching[j].0] == matching[j].1 && HasToken(matching[j].1)
    {
      assert matching[j] in matching;
      assert matching[j] in vars;
    }
  }

  /** The vector read back in its three parts. */
  lemma TextsApart(args: seq<string>, content: string, vars: seq<Variable>, m: SecretMap, out: seq<string>)
    requires AllSubstituted(Texts(args, content, vars), m, out)
    ensures AllSubstituted(args, m, out[..|args|]) && Substituted(content, m, out[|args|])
  {
    var texts := Texts(args, content, vars);
    assert texts[|args|] == content;
    forall i | 0 <= i < |args| ensures Substituted(args[i], m, out[i]) { assert texts[i] == args[i]; }
  }

  /** The values set are those at the end of the substituted vector. */
  ghost predicate SetFromVector(matching: seq<Variable>, before: map<string, string>, after: map<string, string>,
                                out: seq<string>)
  {
    && after.Keys == before.Keys && |out| >= |matching|
    && (forall k | k in after && !SetFrom(matching, 0, k) :: after[k] == before[k])
    && ValuesSet(matching, after, out)
  }

  ghost predicate ValuesSet(matching: seq<Variable>, after: map<string, string>, out: seq<string>)
    requires |out| >= |matching|
  {
    forall j | 0 <= j < |matching| ::
      matching[j].0 in after && after[matching[j].0] == out[|out| - |matching| + j]
  }

  ghost predicate EndsWith(texts: seq<string>, matching: seq<Variable>) {
    |matching| <= |texts|
    && forall j | 0 <= j < |matching| :: texts[|texts| - |matching| + j] == matching[j].1
  }

  lemma TokenVariableDone(matching: seq<Variable>, j: nat, after: map<string, string>,
                          texts: seq<string>, out: seq<string>, m: SecretMap)
    requires j < |matching| <= |out| && ValuesSet(matching, after, out)
    requires AllSubstituted(texts, m, out) && EndsWith(texts, matching)
    ensures matching[j].0 in after && Substituted(matching[j].1, m, after[matching[j].0])
  {
    var n := |texts| - |matching| + j;
    assert texts[n] == matching[j].1;
    assert Substituted(texts[n], m, out[n]);
  }

  lemma OtherVariableKept(vars: seq<Variable>, env: map<string, string>, k: string)
    requires Lists(vars, env) && k in env && !HasToken(env[k])
    ensures !SetFrom(WithTokens(vars), 0, k)
  {
    MatchingInEnv(vars, env);
  }

  lemma OneVariableDone(before: map<string, string>, after: map<string, string>, vars: seq<Variable>,
                        texts: seq<string>, out: seq<string>, m: SecretMap, k: string)
    requires Lists(vars, before) && SetFromVector(WithTokens(vars), before, after, out) && k in before
    requires AllSubstituted(texts, m, out) && EndsWith(texts, WithTokens(vars))
    ensures VariableDone(before[k], after[k], m)
  {
    if HasToken(before[k]) {
      var j := ListedAt(vars, before, k);
      TokenVariableDone(WithTokens(vars), j, after, texts, out, m);
    } else {
      OtherVariableKept(vars, before, k);
    }
  }

  lemma ListedAt(vars: seq<Variable>, env: map<string, string>, k: string) returns (j: nat)
    requires Lists(vars, env) && k in env && HasToken(env[k])
    ensures j < |WithTokens(vars)| && WithTokens(vars)[j] == (k, env[k])
  {
    assert (k, env[k]) in WithTokens(vars);
    j :| 0 <= j < |WithTokens(vars)| && WithTokens(vars)[j] == (k, env[k]);
  }

  lemma VariablesDone(before: map<string, string>, after: map<string, string>, vars: seq<Variable>,
                      texts: seq<string>, out: seq<string>, m: SecretMap)
    requires Lists(vars, before) && SetFromVector(WithTokens(vars), before, after, out)
    requires AllSubstituted(texts, m, out)
    requires EndsWith(texts, WithTokens(vars))
    ensures EnvSubstituted(before, after, m)
  {
    forall k | k in before ensures VariableDone(before[k], after[k], m) {
      OneVariableDone(before, after, vars, texts, out, m, k);
    }
  }

  // ---------------------------------------------------------------------------
  // The whole command on clean texts
  // ---------------------------------------------------------------------------

  /** A variable is touched exactly if the pattern matches somewhere in it. */
  lemma HasTokenMeans(s: string)
    ensures HasToken(s) <==> exists p: nat, e: nat :: Matches(s, p, e)
  {
    ScanIsLeftmostLongest(s);
    FoundAreMatches(s, 0);
    if HasToken(s) {
      assert Matches(s, Scan(s, 0)[0].0, Scan(s, 0)[0].1);
    }
    if p: nat, e: nat :| Matches(s, p, e) {
      assert Covered(Scan(s, 0), p);
    }
  }

  /** `out` is `s` with every match swapped at once. */
  ghost predicate Swaps(s: string, m: SecretMap, out: string) {
    MatchesIn(s, 0, m.Keys) && out == Swapped(s, 0, m)
  }

  lemma {:induction false} NothingToSwap(s: string, i: nat, m: SecretMap)
    requires i <= |s| && Found(s, i) == []
    ensures MatchesIn(s, i, m.Keys) && Swapped(s, i, m) == s[i..]
    decreases |s| - i
  {
    if i < |s| { NothingToSwap(s, i + 1, m); }
  }

  /** Where a variable with a token stands on the vector. */
  lemma VariableText(vars: seq<Variable>, args: seq<string>, content: string, env: map<string, string>, k: string)
    returns (n: nat)
    requires Lists(vars, env) && k in env && HasToken(env[k])
    ensures n < |Texts(args, content, vars)| && Texts(args, content, vars)[n] == env[k]
  {
    var j := ListedAt(vars, env, k);
    n := |args| + 1 + j;
  }

  lemma VariableSwaps(vars: seq<Variable>, args: seq<string>, content: string, decrypt: Decryptor,
                      env: map<string, string>, k: string, now: string)
    requires Lists(vars, env) && k in env && Secrets(Texts(args, content, vars), decrypt).Ok?
    requires CleanTexts(Texts(args, content, vars), Secrets(Texts(args, content, vars), decrypt).value)
    requires VariableDone(env[k], now, Secrets(Texts(args, content, vars), decrypt).value)
    ensures Swaps(env[k], Secrets(Texts(args, content, vars), decrypt).value, now)
  {
    if HasToken(env[k]) {
      var n := VariableText(vars, args, content, env, k);
      PipelineSwaps(Texts(args, content, vars), decrypt, n, now);
    } else {
      NothingToSwap(env[k], 0, Secrets(Texts(args, content, vars), decrypt).value);
    }
  }

  lemma ArgumentsSwap(vars: seq<Variable>, args: seq<string>, content: string, decrypt: Decryptor, out: seq<string>)
    requires Secrets(Texts(args, content, vars), decrypt).Ok?
    requires CleanTexts(Texts(args, content, vars), Secrets(Texts(args, content, vars), decrypt).value)
    requires AllSubstituted(args, Secrets(Texts(args, content, vars), decrypt).value, out)
    ensures forall i | 0 <= i < |args| :: Swaps(args[i], Secrets(Texts(args, content, vars), decrypt).value, out[i])
  {
    var texts := Texts(args, content, vars);
    forall i | 0 <= i < |args| ensures Swaps(args[i], Secrets(texts, decrypt).value, out[i]) {
      assert texts[i] == args[i];
      PipelineSwaps(texts, decrypt, i, out[i]);
    }
  }

  lemma ContentSwaps(vars: seq<Variable>, args: seq<string>, content: string, decrypt: Decryptor, out: string)
    requires Secrets(Texts(args, content, vars), decrypt).Ok?
    requires CleanTexts(Texts(args, content, vars), Secrets(Texts(args, content, vars), decrypt).value)
    requires Substituted(content, Secrets(Texts(args, content, vars), decrypt).value, out)
    ensures Swaps(content, Secrets(Texts(args, content, vars), decrypt).value, out)
  {
    assert Texts(args, content, vars)[|args|] == content;
    PipelineSwaps(Texts(args, content, vars), decrypt, |args|, out);
  }

  /** On clean texts, whatever order the map is walked in: each variable, each argument and the one output hold
      their own text with all its matches swapped at once, each in its own place. */
  lemma CleanInject(q: Request, vars: seq<Variable>, args: seq<string>, content: string, decrypt: Decryptor, io: OutputIo,
                    before: World, after: World, result: Result<seq<string>>)
    requires q.replaceFile.Some? ==> q.replaceFile.value in before.files
    requires Lists(vars, before.env) && Secrets(Texts(args, content, vars), decrypt).Ok?
    requires CleanTexts(Texts(args, content, vars), Secrets(Texts(args, content, vars), decrypt).value)
    requires Prepared(q, args, content, Secrets(Texts(args, content, vars), decrypt).value, io, before, after, result)
    ensures var m := Secrets(Texts(args, content, vars), decrypt).value;
      && (result.Ok? ==> |result.value| == |args| && forall i | 0 <= i < |args| :: Swaps(args[i], m, result.value[i]))
      && after.env.Keys == before.env.Keys && (forall k | k in before.env :: Swaps(before.env[k], m, after.env[k]))
      && MatchesIn(content, 0, m.Keys)
      && OutputDone(q, io, before, after, Swapped(content, 0, m), result)
  {
    var m := Secrets(Texts(args, content, vars), decrypt).value;
    if result.Ok? { ArgumentsSwap(vars, args, content, decrypt, result.value); }
    forall k | k in before.env ensures Swaps(before.env[k], m, after.env[k]) {
      assert VariableDone(before.env[k], after.env[k], m);
      VariableSwaps(vars, args, content, decrypt, before.env, k, after.env[k]);
    }
    var text :| Substituted(content, m, text) && OutputDone(q, io, before, after, text, result);
    ContentSwaps(vars, args, content, decrypt, text);
  }
}
