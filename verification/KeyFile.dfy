/**
 The key file. Command line and agent edit it by loading the list, changing it and saving it again; each edit is
 taken as one step here. Parsing, serializing and fingerprinting keys is library code and comes in as values.
 */
module KeyFile {
  import opened Common

  // ---------------------------------------------------------------------------
  // Library code
  // ---------------------------------------------------------------------------

  datatype KeyLib = KeyLib(
    parse: string -> Option<PrivateKey>,
    write: PrivateKey -> Option<string>,
    fingerprint: KeyMaterial -> string,
    algorithm: KeyMaterial -> string,
    supported: KeyMaterial -> bool)   // ECDSA on P-256 or P-384

  /** What is written can be read back, and different keys have different fingerprints. */
  ghost predicate Sound(lib: KeyLib) {
    && (forall k | lib.write(k).Some? :: lib.parse(lib.write(k).value) == Some(k))
    && (forall a, b | lib.fingerprint(a) == lib.fingerprint(b) :: a == b)
  }

  // ---------------------------------------------------------------------------
  // The file
  // ---------------------------------------------------------------------------

  datatype KeyEntry = KeyEntry(fingerprint: string, algorithm: string, comment: string, keyData: string)

  datatype Disk = Missing | Entries(entries: seq<KeyEntry>) | Unreadable

  /** Whether reading and writing work this time. A failed write leaves the file as it was. */
  datatype Io = Io(readable: bool, writable: bool)

  function Loaded(disk: Disk, io: Io): Result<seq<KeyEntry>> {
    match disk
    case Missing => Ok([])
    case Entries(es) => if io.readable then Ok(es) else Err("Failed to read ssh_keys.enc")
    case Unreadable => Err("Failed to read ssh_keys.enc")
  }

  function Saved(disk: Disk, entries: seq<KeyEntry>, io: Io): Disk {
    if io.writable then Entries(entries) else disk
  }

  function SaveResult(io: Io): Result<()> {
    if io.writable then Ok(()) else Err("Failed to write ssh_keys.enc")
  }

  function OrEmpty(r: Result<seq<KeyEntry>>): seq<KeyEntry> {
    match r case Ok(es) => es case Err(_) => []
  }

  // ---------------------------------------------------------------------------
  // Lists of entries
  // ---------------------------------------------------------------------------

  predicate HasFingerprint(es: seq<KeyEntry>, fp: string) {
    exists i | 0 <= i < |es| :: es[i].fingerprint == fp
  }

  function Without(es: seq<KeyEntry>, fp: string): seq<KeyEntry> {
    if es == [] then []
    else
      var rest := Without(es[..|es| - 1], fp);
      if es[|es| - 1].fingerprint == fp then rest else rest + [es[|es| - 1]]
  }

  function Matching(es: seq<KeyEntry>, pattern: string): seq<KeyEntry> {
    if es == [] then []
    else
      var rest := Matching(es[..|es| - 1], pattern);
      if Contains(es[|es| - 1].fingerprint, pattern) then rest + [es[|es| - 1]] else rest
  }

  function FirstWith(es: seq<KeyEntry>, fp: string): (i: nat)
    ensures i <= |es| && (forall j | 0 <= j < i :: es[j].fingerprint != fp)
    ensures i < |es| ==> es[i].fingerprint == fp
  {
    if es == [] then 0
    else if es[0].fingerprint == fp then 0
    else 1 + FirstWith(es[1..], fp)
  }

  ghost predicate OnlyMatch(es: seq<KeyEntry>, pattern: string, i: nat) {
    i < |es| && forall j | 0 <= j < |es| :: Contains(es[j].fingerprint, pattern) <==> j == i
  }

  predicate Distinct(es: seq<KeyEntry>) {
    forall i, j | 0 <= i < j < |es| :: es[i].fingerprint != es[j].fingerprint
  }

  // ---------------------------------------------------------------------------
  // Edits
  // ---------------------------------------------------------------------------

  datatype Edit =
    | CliAdd(key: PrivateKey) | CliRemove(pattern: string) | CliRemoveAll | CliComment(pattern: string, comment: string)
    | AgentAdd(key: PrivateKey) | AgentRemove(material: KeyMaterial) | AgentRemoveAll

  function EntryFor(lib: KeyLib, key: PrivateKey, text: string): KeyEntry {
    KeyEntry(lib.fingerprint(key.material), lib.algorithm(key.material), key.comment, text)
  }

  function Unique(es: seq<KeyEntry>, pattern: string): Result<KeyEntry> {
    var matches := Matching(es, pattern);
    if |matches| == 0 then Err("No key found matching")
    else if |matches| > 1 then Err("Ambiguous fingerprint, please be more specific")
    else Ok(matches[0])
  }

  /** The list with the entry appended, unless its fingerprint is there already. */
  function Added(disk: Disk, es: seq<KeyEntry>, e: KeyEntry, io: Io): (Disk, Result<()>) {
    if HasFingerprint(es, e.fingerprint) then (disk, Ok(())) else (Saved(disk, es + [e], io), SaveResult(io))
  }

  /** The entry under a new comment, with the comment inside its key text changed alike. */
  function Recommented(lib: KeyLib, e: KeyEntry, comment: string): Result<KeyEntry> {
    match lib.parse(e.keyData)
    case None => Err("Failed to parse stored key")
    case Some(key) =>
      match lib.write(key.(comment := comment))
      case None => Err("Failed to serialize key")
      case Some(text) => Ok(e.(comment := comment, keyData := text))
  }

  /** The file after an edit and what the edit reports. */
  function Edited(lib: KeyLib, disk: Disk, edit: Edit, io: Io): (Disk, Result<()>) {
    match edit
    case CliAdd(key) =>
      if !lib.supported(key.material) then (disk, Err("Only ECDSA P-256 and P-384 keys are supported"))
      else if lib.write(key).None? then (disk, Err("Failed to serialize key"))
      else (match Loaded(disk, io)
            case Err(m) => (disk, Err(m))
            case Ok(es) => Added(disk, es, EntryFor(lib, key, lib.write(key).value), io))
    case CliRemove(pattern) =>
      (match Loaded(disk, io)
       case Err(m) => (disk, Err(m))
       case Ok(es) =>
         match Unique(es, pattern)
         case Err(m) => (disk, Err(m))
         case Ok(e) => (Saved(disk, Without(es, e.fingerprint), io), SaveResult(io)))
    case CliRemoveAll => (Saved(disk, [], io), SaveResult(io))
    case CliComment(pattern, comment) =>
      (match Loaded(disk, io)
       case Err(m) => (disk, Err(m))
       case Ok(es) =>
         match Unique(es, pattern)
         case Err(m) => (disk, Err(m))
         case Ok(found) =>
           var i := FirstWith(es, found.fingerprint);
           if i == |es| then (disk, Err("No key found matching"))
           else
             match Recommented(lib, es[i], comment)
             case Err(m) => (disk, Err(m))
             case Ok(e) => (Saved(disk, es[i := e], io), SaveResult(io)))
    case AgentAdd(key) =>
      if !lib.supported(key.material) then (disk, Err("agent failure"))
      else if lib.write(key).None? then (disk, Err("Failed to serialize key"))
      else Added(disk, OrEmpty(Loaded(disk, io)), EntryFor(lib, key, lib.write(key).value), io)
    case AgentRemove(material) =>
      (Saved(disk, Without(OrEmpty(Loaded(disk, io)), lib.fingerprint(material)), io), Ok(()))
    case AgentRemoveAll => (Saved(disk, [], io), Ok(()))
  }

  class File {
    var disk: Disk

    constructor (disk: Disk)
      ensures this.disk == disk
    {
      this.disk := disk;
    }

    method Save(entries: seq<KeyEntry>, io: Io) returns (r: Result<()>)
      modifies this
      ensures disk == Saved(old(disk), entries, io) && r == SaveResult(io)
    {
      if io.writable { disk := Entries(entries); }
      r := SaveResult(io);
    }

    method Append(entries: seq<KeyEntry>, e: KeyEntry, io: Io) returns (r: Result<()>)
      modifies this
      ensures (disk, r) == Added(old(disk), entries, e, io)
    {
      if HasFingerprint(entries, e.fingerprint) { return Ok(()); }
      r := Save(entries + [e], io);
    }

    method SshAdd(lib: KeyLib, key: PrivateKey, io: Io) returns (r: Result<()>)
      modifies this
      ensures (disk, r) == Edited(lib, old(disk), CliAdd(key), io)
    {
      if !lib.supported(key.material) { return Err("Only ECDSA P-256 and P-384 keys are supported"); }
      var text := lib.write(key);
      if text.None? { return Err("Failed to serialize key"); }
      var entries := Loaded(disk, io);
      if entries.Err? { return Err(entries.message); }
      r := Append(entries.value, EntryFor(lib, key, text.value), io);
    }

    method SshRemove(lib: KeyLib, pattern: string, io: Io) returns (r: Result<()>)
      modifies this
      ensures (disk, r) == Edited(lib, old(disk), CliRemove(pattern), io)
    {
      var entries := Loaded(disk, io);
      if entries.Err? { return Err(entries.message); }
      var matches := FindMatching(entries.value, pattern);
      if |matches| == 0 { return Err("No key found matching"); }
      if |matches| > 1 { return Err("Ambiguous fingerprint, please be more specific"); }
      var kept := RetainOthers(entries.value, matches[0].fingerprint);
      r := Save(kept, io);
    }

    method SshRemoveAll(lib: KeyLib, io: Io) returns (r: Result<()>)
      modifies this
      ensures (disk, r) == Edited(lib, old(disk), CliRemoveAll, io)
    {
      r := Save([], io);
    }

    method SshComment(lib: KeyLib, pattern: string, comment: string, io: Io) returns (r: Result<()>)
      modifies this
      ensures (disk, r) == Edited(lib, old(disk), CliComment(pattern, comment), io)
    {
      var entries := Loaded(disk, io);
      if entries.Err? { return Err(entries.message); }
      var es := entries.value;
      var matches := FindMatching(es, pattern);
      if |matches| == 0 { return Err("No key found matching"); }
      if |matches| > 1 { return Err("Ambiguous fingerprint, please be more specific"); }
      var i := FirstWith(es, matches[0].fingerprint);
      if i == |es| { return Err("No key found matching"); }
      var key := lib.parse(es[i].keyData);
      if key.None? { return Err("Failed to parse stored key"); }
      var text := lib.write(key.value.(comment := comment));
      if text.None? { return Err("Failed to serialize key"); }
      es := es[i := es[i].(comment := comment, keyData := text.value)];
      r := Save(es, io);
    }

    /** The agent takes a file it cannot read for an empty one. */
    method AddFromAgent(lib: KeyLib, key: PrivateKey, io: Io) returns (r: Result<()>)
      modifies this
      ensures (disk, r) == Edited(lib, old(disk), AgentAdd(key), io)
    {
      if !lib.supported(key.material) { return Err("agent failure"); }
      var text := lib.write(key);
      if text.None? { return Err("Failed to serialize key"); }
      r := Append(OrEmpty(Loaded(disk, io)), EntryFor(lib, key, text.value), io);
    }

    method RemoveFromAgent(lib: KeyLib, material: KeyMaterial, io: Io)
      modifies this
      ensures disk == Edited(lib, old(disk), AgentRemove(material), io).0
    {
      var kept := RetainOthers(OrEmpty(Loaded(disk, io)), lib.fingerprint(material));
      var _ := Save(kept, io);
    }

    method RemoveAllFromAgent(lib: KeyLib, io: Io)
      modifies this
      ensures disk == Edited(lib, old(disk), AgentRemoveAll, io).0
    {
      var _ := Save([], io);
    }
  }

  method FindMatching(es: seq<KeyEntry>, pattern: string) returns (matches: seq<KeyEntry>)
    ensures matches == Matching(es, pattern)
  {
    matches := [];
    for i := 0 to |es|
      invariant matches == Matching(es[..i], pattern)
    {
      assert es[..i + 1][..i] == es[..i];
      if Contains(es[i].fingerprint, pattern) { matches := matches + [es[i]]; }
    }
    assert es[..|es|] == es;
  }

  method RetainOthers(es: seq<KeyEntry>, fp: string) returns (kept: seq<KeyEntry>)
    ensures kept == Without(es, fp)
  {
    kept := [];
    for i := 0 to |es|
      invariant kept == Without(es[..i], fp)
    {
      assert es[..i + 1][..i] == es[..i];
      if es[i].fingerprint != fp { kept := kept + [es[i]]; }
    }
    assert es[..|es|] == es;
  }

  // ---------------------------------------------------------------------------
  // What the list functions mean
  // ---------------------------------------------------------------------------

  lemma {:induction false} WithoutMembers(es: seq<KeyEntry>, fp: string, e: KeyEntry)
    ensures e in Without(es, fp) <==> e in es && e.fingerprint != fp
  {
    if es != [] {
      var n := |es| - 1;
      WithoutMembers(es[..n], fp, e);
      assert es == es[..n] + [es[n]];
    }
  }

  lemma {:induction false} WithoutDistinct(es: seq<KeyEntry>, fp: string)
    requires Distinct(es)
    ensures Distinct(Without(es, fp))
  {
    if es != [] {
      var n := |es| - 1;
      var rest := Without(es[..n], fp);
      WithoutDistinct(es[..n], fp);
      forall i | 0 <= i < |rest| ensures rest[i].fingerprint != es[n].fingerprint {
        WithoutMembers(es[..n], fp, rest[i]);
        assert rest[i] in rest;
        var j :| 0 <= j < n && es[..n][j] == rest[i];
      }
    }
  }

  lemma {:induction false} WithoutAbsent(es: seq<KeyEntry>, fp: string)
    requires !HasFingerprint(es, fp)
    ensures Without(es, fp) == es
  {
    if es != [] {
      var n := |es| - 1;
      forall i | 0 <= i < n ensures es[..n][i].fingerprint != fp { assert es[i].fingerprint != fp; }
      WithoutAbsent(es[..n], fp);
      assert es[n].fingerprint != fp;
      assert es == es[..n] + [es[n]];
    }
  }

  /** Dropping the one entry that has this fingerprint keeps the others in order. */
  lemma {:induction false} WithoutDropsAt(es: seq<KeyEntry>, i: nat)
    requires i < |es| && forall j | 0 <= j < |es| && j != i :: es[j].fingerprint != es[i].fingerprint
    ensures Without(es, es[i].fingerprint) == es[..i] + es[i + 1..]
  {
    var n := |es| - 1;
    var fp := es[i].fingerprint;
    if i == n {
      WithoutAbsent(es[..n], fp);
    } else {
      forall j | 0 <= j < n && j != i ensures es[..n][j].fingerprint != fp { assert es[j].fingerprint != fp; }
      WithoutDropsAt(es[..n], i);
      assert es[n].fingerprint != fp;
      assert es[..n][..i] + es[..n][i + 1..] + [es[n]] == es[..i] + es[i + 1..];
    }
  }

  lemma {:induction false} NoneMatching(es: seq<KeyEntry>, pattern: string)
    requires Matching(es, pattern) == []
    ensures forall j | 0 <= j < |es| :: !Contains(es[j].fingerprint, pattern)
  {
    if es != [] {
      var n := |es| - 1;
      NoneMatching(es[..n], pattern);
      forall j | 0 <= j < |es| ensures !Contains(es[j].fingerprint, pattern) {
        if j < n { assert es[..n][j] == es[j]; }
      }
    }
  }

  /** Exactly one match means one position, and it is that entry. */
  lemma {:induction false} OneMatching(es: seq<KeyEntry>, pattern: string) returns (i: nat)
    requires |Matching(es, pattern)| == 1
    ensures OnlyMatch(es, pattern, i) && Matching(es, pattern)[0] == es[i]
  {
    var n := |es| - 1;
    if Contains(es[n].fingerprint, pattern) {
      NoneMatching(es[..n], pattern);
      i := n;
    } else {
      i := OneMatching(es[..n], pattern);
    }
    forall j | 0 <= j < |es| ensures Contains(es[j].fingerprint, pattern) <==> j == i {
      if j < n { assert es[..n][j] == es[j]; }
    }
  }

  lemma {:induction false} OnlyMatchMatches(es: seq<KeyEntry>, pattern: string, i: nat)
    requires OnlyMatch(es, pattern, i)
    ensures Matching(es, pattern) == [es[i]]
  {
    var n := |es| - 1;
    if i == n {
      NoMatchMatchesNothing(es[..n], pattern);
    } else {
      assert OnlyMatch(es[..n], pattern, i);
      OnlyMatchMatches(es[..n], pattern, i);
    }
  }

  lemma {:induction false} NoMatchMatchesNothing(es: seq<KeyEntry>, pattern: string)
    requires forall j | 0 <= j < |es| :: !Contains(es[j].fingerprint, pattern)
    ensures Matching(es, pattern) == []
  {
    if es != [] { NoMatchMatchesNothing(es[..|es| - 1], pattern); }
  }

  // ---------------------------------------------------------------------------
  // What the edits promise
  // ---------------------------------------------------------------------------

  ghost predicate DropsOnly(es: seq<KeyEntry>, pattern: string, i: nat, after: Disk) {
    OnlyMatch(es, pattern, i) && after == Entries(es[..i] + es[i + 1..])
  }

  /** Removing succeeds exactly if one entry's fingerprint contains the text and file access works; then that
      entry is dropped and all others stay, in order. Otherwise the file stays. */
  lemma RemoveDropsOne(lib: KeyLib, disk: Disk, pattern: string, io: Io)
    ensures var (after, r) := Edited(lib, disk, CliRemove(pattern), io);
      && (r.Err? ==> after == disk)
      && (r.Ok? ==> Loaded(disk, io).Ok? && exists i: nat :: DropsOnly(Loaded(disk, io).value, pattern, i, after))
    ensures Edited(lib, disk, CliRemove(pattern), io).1.Ok? <==>
      io.writable && Loaded(disk, io).Ok? && exists i: nat :: OnlyMatch(Loaded(disk, io).value, pattern, i)
  {
    if Loaded(disk, io).Ok? {
      var es := Loaded(disk, io).value;
      if |Matching(es, pattern)| == 1 {
        var i := OneMatching(es, pattern);
        WithoutDropsAt(es, i);
        assert io.writable ==> DropsOnly(es, pattern, i, Edited(lib, disk, CliRemove(pattern), io).0);
      } else if i: nat :| OnlyMatch(es, pattern, i) {
        OnlyMatchMatches(es, pattern, i);
      }
    }
  }

  /** A successful comment change keeps the list but for one entry, and of that entry all but the comment, in the
      list as well as inside the key text. */
  lemma CommentChangesOne(lib: KeyLib, disk: Disk, pattern: string, comment: string, io: Io) returns (i: nat)
    requires Sound(lib) && Edited(lib, disk, CliComment(pattern, comment), io).1.Ok?
    ensures Loaded(disk, io).Ok? && OnlyMatch(Loaded(disk, io).value, pattern, i)
    ensures var es := Loaded(disk, io).value;
      var after := Edited(lib, disk, CliComment(pattern, comment), io).0;
      && lib.parse(es[i].keyData).Some? && after.Entries? && |after.entries| == |es|
      && (forall j | 0 <= j < |es| && j != i :: after.entries[j] == es[j])
      && after.entries[i] == es[i].(comment := comment, keyData := after.entries[i].keyData)
      && lib.parse(after.entries[i].keyData) == Some(lib.parse(es[i].keyData).value.(comment := comment))
  {
    var es := Loaded(disk, io).value;
    i := OneMatching(es, pattern);
    var k := FirstWith(es, es[i].fingerprint);
    assert es[i].fingerprint == es[k].fingerprint && Contains(es[k].fingerprint, pattern);
  }

  /** A successful add leaves every earlier entry where it was; a new fingerprint comes last, under the key text of
      the key given, and a fingerprint that was there keeps its old entry. */
  lemma AddAppendsOne(lib: KeyLib, disk: Disk, key: PrivateKey, io: Io)
    requires Sound(lib) && Edited(lib, disk, CliAdd(key), io).1.Ok?
    ensures Loaded(disk, io).Ok?
    ensures var es := Loaded(disk, io).value;
      var after := Edited(lib, disk, CliAdd(key), io).0;
      var fp := lib.fingerprint(key.material);
      if HasFingerprint(es, fp) then after == disk
      else after.Entries? && |after.entries| == |es| + 1 && es <= after.entries
           && after.entries[|es|].fingerprint == fp && after.entries[|es|].comment == key.comment
           && after.entries[|es|].algorithm == lib.algorithm(key.material)
           && lib.parse(after.entries[|es|].keyData) == Some(key)
  {
  }

  ghost predicate CanRecomment(lib: KeyLib, e: KeyEntry, comment: string) {
    lib.parse(e.keyData).Some? && lib.write(lib.parse(e.keyData).value.(comment := comment)).Some?
  }

  lemma OnlyMatchIsFirst(es: seq<KeyEntry>, pattern: string, i: nat)
    requires OnlyMatch(es, pattern, i)
    ensures FirstWith(es, es[i].fingerprint) == i
  {
    var k := FirstWith(es, es[i].fingerprint);
    assert Contains(es[i].fingerprint, pattern);
    if k < |es| { assert Contains(es[k].fingerprint, pattern); }
  }

  /** Changing a comment succeeds exactly if one entry's fingerprint contains the text, its key text can be parsed and
      written again under the new comment, and file access works. */
  lemma CommentSucceeds(lib: KeyLib, disk: Disk, pattern: string, comment: string, io: Io)
    ensures Edited(lib, disk, CliComment(pattern, comment), io).1.Ok? <==>
      io.writable && Loaded(disk, io).Ok?
      && exists i: nat :: OnlyMatch(Loaded(disk, io).value, pattern, i)
                          && CanRecomment(lib, Loaded(disk, io).value[i], comment)
  {
    if Loaded(disk, io).Ok? {
      var es := Loaded(disk, io).value;
      if |Matching(es, pattern)| == 1 {
        var i := OneMatching(es, pattern);
        OnlyMatchIsFirst(es, pattern, i);
        forall k: nat | OnlyMatch(es, pattern, k) ensures k == i {}
      } else if i: nat :| OnlyMatch(es, pattern, i) {
        OnlyMatchMatches(es, pattern, i);
      }
    }
  }

  /** Two entries' fingerprints contain the text. */
  ghost predicate TwoMatch(es: seq<KeyEntry>, pattern: string) {
    exists i, j | 0 <= i < j < |es| :: Contains(es[i].fingerprint, pattern) && Contains(es[j].fingerprint, pattern)
  }

  lemma {:induction false} CountedMatches(es: seq<KeyEntry>, pattern: string)
    ensures |Matching(es, pattern)| > 1 <==> TwoMatch(es, pattern)
  {
    if |Matching(es, pattern)| == 1 {
      var i := OneMatching(es, pattern);
    } else if |Matching(es, pattern)| > 1 {
      var n := |es| - 1;
      if |Matching(es[..n], pattern)| > 1 {
        CountedMatches(es[..n], pattern);
        var i, j :| 0 <= i < j < n && Contains(es[..n][i].fingerprint, pattern) && Contains(es[..n][j].fingerprint, pattern);
        assert Contains(es[i].fingerprint, pattern) && Contains(es[j].fingerprint, pattern);
      } else {
        var i := OneMatching(es[..n], pattern);
        assert Contains(es[i].fingerprint, pattern) && Contains(es[n].fingerprint, pattern);
      }
    } else {
      NoneMatching(es, pattern);
    }
  }

  /** Why a removal or a comment change is refused: nothing matches, or more than one entry does. */
  lemma UnclearPatternIsRefused(lib: KeyLib, disk: Disk, pattern: string, comment: string, io: Io)
    requires Loaded(disk, io).Ok?
    ensures (forall e | e in Loaded(disk, io).value :: !Contains(e.fingerprint, pattern)) ==>
      && Edited(lib, disk, CliRemove(pattern), io) == (disk, Err("No key found matching"))
      && Edited(lib, disk, CliComment(pattern, comment), io) == (disk, Err("No key found matching"))
    ensures TwoMatch(Loaded(disk, io).value, pattern) ==>
      && Edited(lib, disk, CliRemove(pattern), io) == (disk, Err("Ambiguous fingerprint, please be more specific"))
      && Edited(lib, disk, CliComment(pattern, comment), io) ==
           (disk, Err("Ambiguous fingerprint, please be more specific"))
  {
    var es := Loaded(disk, io).value;
    CountedMatches(es, pattern);
    if forall e | e in es :: !Contains(e.fingerprint, pattern) { NoMatchMatchesNothing(es, pattern); }
  }

  /** When the other command line edits succeed, and what loading gives them. */
  lemma EditsSucceed(lib: KeyLib, disk: Disk, key: PrivateKey, io: Io)
    ensures Loaded(disk, io).Ok? <==> disk.Missing? || (disk.Entries? && io.readable)
    ensures Loaded(disk, io).Ok? ==> Loaded(disk, io).value == if disk.Entries? then disk.entries else []
    ensures Edited(lib, disk, CliAdd(key), io).1.Ok? <==>
      lib.supported(key.material) && lib.write(key).Some? && Loaded(disk, io).Ok?
      && (io.writable || HasFingerprint(Loaded(disk, io).value, lib.fingerprint(key.material)))
    ensures Edited(lib, disk, CliRemoveAll, io).1.Ok? <==> io.writable
    ensures io.writable ==> Edited(lib, disk, CliRemoveAll, io).0 == Entries([])
  {
  }

  /** An edit that reports an error leaves the file as it was, whichever edit and whatever the error. */
  lemma FailedEditKeepsFile(lib: KeyLib, disk: Disk, edit: Edit, io: Io)
    requires Edited(lib, disk, edit, io).1.Err?
    ensures Edited(lib, disk, edit, io).0 == disk
  {
  }

  // ---------------------------------------------------------------------------
  // Sequences of edits
  // ---------------------------------------------------------------------------

  predicate DiskDistinct(disk: Disk) {
    disk.Entries? ==> Distinct(disk.entries)
  }

  /** Every entry's key text holds the key its fingerprint was made from. */
  ghost predicate Kept(lib: KeyLib, es: seq<KeyEntry>) {
    forall e | e in es :: lib.parse(e.keyData).Some?
      && e.fingerprint == lib.fingerprint(lib.parse(e.keyData).value.material)
  }

  ghost predicate DiskKept(lib: KeyLib, disk: Disk) {
    disk.Entries? ==> Kept(lib, disk.entries)
  }

  lemma EditKeepsDistinct(lib: KeyLib, disk: Disk, edit: Edit, io: Io)
    requires DiskDistinct(disk)
    ensures DiskDistinct(Edited(lib, disk, edit, io).0)
  {
    match edit
    case CliAdd(_) =>
    case AgentAdd(_) =>
    case CliRemoveAll =>
    case AgentRemoveAll =>
    case CliRemove(pattern) =>
      if Loaded(disk, io).Ok? && Unique(Loaded(disk, io).value, pattern).Ok? {
        WithoutDistinct(Loaded(disk, io).value, Unique(Loaded(disk, io).value, pattern).value.fingerprint);
      }
    case CliComment(_, _) =>
    case AgentRemove(material) =>
      WithoutDistinct(OrEmpty(Loaded(disk, io)), lib.fingerprint(material));
  }

  lemma WithoutKept(lib: KeyLib, es: seq<KeyEntry>, fp: string)
    requires Kept(lib, es)
    ensures Kept(lib, Without(es, fp))
  {
    forall e | e in Without(es, fp) ensures e in es { WithoutMembers(es, fp, e); }
  }

  lemma ReplacedKept(lib: KeyLib, es: seq<KeyEntry>, i: nat, comment: string)
    requires Sound(lib) && Kept(lib, es) && i < |es| && Recommented(lib, es[i], comment).Ok?
    ensures Kept(lib, es[i := Recommented(lib, es[i], comment).value])
  {
    var after := es[i := Recommented(lib, es[i], comment).value];
    assert es[i] in es;
    forall e | e in after
      ensures lib.parse(e.keyData).Some? && e.fingerprint == lib.fingerprint(lib.parse(e.keyData).value.material)
    {
      var j :| 0 <= j < |after| && after[j] == e;
      if j != i { assert es[j] in es; }
    }
  }

  lemma EditKeepsKept(lib: KeyLib, disk: Disk, edit: Edit, io: Io)
    requires Sound(lib) && DiskKept(lib, disk)
    ensures DiskKept(lib, Edited(lib, disk, edit, io).0)
  {
    match edit
    case CliAdd(_) =>
    case AgentAdd(_) =>
    case CliRemoveAll =>
    case AgentRemoveAll =>
    case CliRemove(pattern) =>
      if Loaded(disk, io).Ok? && Unique(Loaded(disk, io).value, pattern).Ok? {
        WithoutKept(lib, Loaded(disk, io).value, Unique(Loaded(disk, io).value, pattern).value.fingerprint);
      }
    case CliComment(pattern, comment) =>
      if Loaded(disk, io).Ok? && Unique(Loaded(disk, io).value, pattern).Ok? {
        var es := Loaded(disk, io).value;
        var i := FirstWith(es, Unique(es, pattern).value.fingerprint);
        if i < |es| && Recommented(lib, es[i], comment).Ok? { ReplacedKept(lib, es, i, comment); }
      }
    case AgentRemove(material) =>
      WithoutKept(lib, OrEmpty(Loaded(disk, io)), lib.fingerprint(material));
  }

  function EditedAll(lib: KeyLib, disk: Disk, edits: seq<(Edit, Io)>): Disk {
    if edits == [] then disk
    else Edited(lib, EditedAll(lib, disk, edits[..|edits| - 1]), edits[|edits| - 1].0, edits[|edits| - 1].1).0
  }

  /** No sequence of command line and agent edits, failing or not, ever puts a fingerprint in the file twice or
      separates an entry from its key. */
  lemma {:induction false} EditsKeepFile(lib: KeyLib, disk: Disk, edits: seq<(Edit, Io)>)
    requires DiskDistinct(disk)
    ensures DiskDistinct(EditedAll(lib, disk, edits))
    ensures Sound(lib) && DiskKept(lib, disk) ==> DiskKept(lib, EditedAll(lib, disk, edits))
  {
    if edits != [] {
      var n := |edits| - 1;
      EditsKeepFile(lib, disk, edits[..n]);
      var before := EditedAll(lib, disk, edits[..n]);
      EditKeepsDistinct(lib, before, edits[n].0, edits[n].1);
      if Sound(lib) && DiskKept(lib, before) { EditKeepsKept(lib, before, edits[n].0, edits[n].1); }
    }
  }

  /** The edits that reported success, each judged on the file it met. */
  function Successful(lib: KeyLib, disk: Disk, edits: seq<(Edit, Io)>): seq<(Edit, Io)> {
    if edits == [] then []
    else
      var n := |edits| - 1;
      var before := Successful(lib, disk, edits[..n]);
      if Edited(lib, EditedAll(lib, disk, edits[..n]), edits[n].0, edits[n].1).1.Ok? then before + [edits[n]] else before
  }

  /** Edits that report an error might as well not have been made. */
  lemma {:induction false} FailedEditsAreInvisible(lib: KeyLib, disk: Disk, edits: seq<(Edit, Io)>)
    ensures EditedAll(lib, disk, Successful(lib, disk, edits)) == EditedAll(lib, disk, edits)
  {
    if edits != [] {
      var n := |edits| - 1;
      FailedEditsAreInvisible(lib, disk, edits[..n]);
      var before := Successful(lib, disk, edits[..n]);
      if Edited(lib, EditedAll(lib, disk, edits[..n]), edits[n].0, edits[n].1).1.Ok? {
        assert (before + [edits[n]])[..|before|] == before;
      } else {
        FailedEditKeepsFile(lib, EditedAll(lib, disk, edits[..n]), edits[n].0, edits[n].1);
      }
    }
  }

  /** Removing a key by its fingerprint undoes having added it, if no other fingerprint contains that one. */
  lemma RemoveUndoesAdd(lib: KeyLib, es: seq<KeyEntry>, key: PrivateKey)
    requires Sound(lib) && lib.supported(key.material) && lib.write(key).Some?
    requires forall i | 0 <= i < |es| :: !Contains(es[i].fingerprint, lib.fingerprint(key.material))
    ensures var fp := lib.fingerprint(key.material);
      var io := Io(true, true);
      Edited(lib, Edited(lib, Entries(es), CliAdd(key), io).0, CliRemove(fp), io) == (Entries(es), Ok(()))
  {
    var fp := lib.fingerprint(key.material);
    var io := Io(true, true);
    ContainsItself(fp);
    assert !HasFingerprint(es, fp);
    AddAppendsOne(lib, Entries(es), key, io);
    var added := Edited(lib, Entries(es), CliAdd(key), io).0.entries;
    var n := |es|;
    forall j | 0 <= j < |added| ensures Contains(added[j].fingerprint, fp) <==> j == n {
      if j < n { assert added[j] == es[j]; }
    }
    assert added[n].fingerprint == fp;
    RemoveOnlyMatch(lib, added, fp, n);
    assert added[..n] == es && added[n + 1..] == [] && es + [] == es;
  }

  lemma RemoveOnlyMatch(lib: KeyLib, es: seq<KeyEntry>, pattern: string, i: nat)
    requires OnlyMatch(es, pattern, i)
    ensures Edited(lib, Entries(es), CliRemove(pattern), Io(true, true)) == (Entries(es[..i] + es[i + 1..]), Ok(()))
  {
    OnlyMatchMatches(es, pattern, i);
    forall j | 0 <= j < |es| && j != i ensures es[j].fingerprint != es[i].fingerprint {
      assert !Contains(es[j].fingerprint, pattern) && Contains(es[i].fingerprint, pattern);
    }
    WithoutDropsAt(es, i);
  }

  lemma ContainsItself(s: string)
    ensures Contains(s, s)
  {
    assert s[0..0 + |s|] == s;
    assert OccursAt(s, s, 0);
  }

  // ---------------------------------------------------------------------------
  // A file that cannot be read
  // ---------------------------------------------------------------------------

  /** Which edits write without having read. */
  predicate Overwrites(lib: KeyLib, edit: Edit) {
    match edit
    case AgentAdd(key) => lib.supported(key.material) && lib.write(key).Some?
    case AgentRemove(_) | AgentRemoveAll | CliRemoveAll => true
    case _ => false
  }

  /** The command line never touches a file it cannot read except to remove all keys; the agent replaces it. */
  lemma UnreadableFileIsReplaced(lib: KeyLib, disk: Disk, edit: Edit, io: Io)
    requires Loaded(disk, io).Err?
    ensures Edited(lib, disk, edit, io).0 ==
      if !(Overwrites(lib, edit) && io.writable) then disk
      else if edit.AgentAdd? then Entries([EntryFor(lib, edit.key, lib.write(edit.key).value)])
      else Entries([])
  {
  }

  lemma ReadableStays(lib: KeyLib, disk: Disk, edit: Edit, io: Io)
    requires !disk.Unreadable?
    ensures !Edited(lib, disk, edit, io).0.Unreadable?
  {
  }

  predicate OverwritesNow(lib: KeyLib, e: (Edit, Io)) {
    Overwrites(lib, e.0) && e.1.writable
  }

  /** Through any sequence of edits an unreadable file stays what it is if and only if none of them is an agent edit or
      a remove-all that can write. */
  lemma {:induction false} UnreadableUntilOverwritten(lib: KeyLib, edits: seq<(Edit, Io)>)
    ensures EditedAll(lib, Unreadable, edits) == Unreadable <==>
      forall i | 0 <= i < |edits| :: !OverwritesNow(lib, edits[i])
  {
    if edits != [] {
      var n := |edits| - 1;
      UnreadableUntilOverwritten(lib, edits[..n]);
      var before := EditedAll(lib, Unreadable, edits[..n]);
      if before == Unreadable {
        UnreadableFileIsReplaced(lib, before, edits[n].0, edits[n].1);
      } else {
        ReadableStays(lib, before, edits[n].0, edits[n].1);
      }
    }
  }
}
