/**
 When exactly each request to the agent succeeds and what it then leaves, for every state and every outcome of the file
 access, said by what is in memory and on file and not by how the agent gets there.
 */
module AgentAnswers {
  import opened Common
  import opened KeyFile
  import opened Agent

  predicate FileReadable(disk: Disk, io: Io) {
    disk.Missing? || (disk.Entries? && io.readable)
  }

  /** Entry `i` is the last one of its fingerprint that can be parsed, and it holds this key. */
  ghost predicate LastParsable(lib: KeyLib, es: seq<KeyEntry>, i: nat, fp: string, key: PrivateKey) {
    && i < |es| && es[i].fingerprint == fp && lib.parse(es[i].keyData) == Some(key)
    && forall j | i < j < |es| :: es[j].fingerprint == fp ==> lib.parse(es[j].keyData).None?
  }

  ghost predicate OnFile(lib: KeyLib, disk: Disk, fp: string, key: PrivateKey) {
    disk.Entries? && exists i: nat :: LastParsable(lib, disk.entries, i, fp, key)
  }

  /** Memory was emptied by the idle sweeper, so it does not count. */
  predicate Cleared(s: AgentState) {
    s.keys == map[] && s.idleCleared
  }

  predicate CanServe(s: AgentState, io: Io) {
    !s.locked && (Cleared(s) ==> FileReadable(s.disk, io))
  }

  /** The agent can use `key` under `fp`: from memory, or from the file if memory does not count. */
  ghost predicate Available(lib: AgentLib, s: AgentState, fp: string, key: PrivateKey) {
    if Cleared(s) then OnFile(lib.keyLib, s.disk, fp, key) else fp in s.keys && s.keys[fp] == key
  }

  lemma {:induction false} KeysOfAre(lib: KeyLib, es: seq<KeyEntry>, fp: string, key: PrivateKey)
    ensures (fp in KeysOf(lib, es) && KeysOf(lib, es)[fp] == key) <==>
      exists i: nat :: LastParsable(lib, es, i, fp, key)
  {
    if es != [] {
      var n := |es| - 1;
      var last := es[n].fingerprint == fp && lib.parse(es[n].keyData).Some?;
      KeysOfAre(lib, es[..n], fp, key);
      if last {
        assert lib.parse(es[n].keyData) == Some(key) ==> LastParsable(lib, es, n, fp, key);
      } else {
        if i: nat :| LastParsable(lib, es[..n], i, fp, key) { assert LastParsable(lib, es, i, fp, key); }
        if i: nat :| LastParsable(lib, es, i, fp, key) { assert LastParsable(lib, es[..n], i, fp, key); }
      }
    }
  }

  lemma LoadedKeysAre(lib: AgentLib, s: AgentState, io: Io, fp: string, key: PrivateKey)
    requires CanServe(s, io)
    ensures EnsureLoaded(lib, s, io).Ok?
    ensures var t := EnsureLoaded(lib, s, io).value;
      (fp in t.keys && t.keys[fp] == key) <==> Available(lib, s, fp, key)
  {
    if Cleared(s) { KeysOfAre(lib.keyLib, if s.disk.Entries? then s.disk.entries else [], fp, key); }
  }

  /** A sign request is answered with a signature exactly if it was approved, the agent is not locked, the keys can be
      had, and the one with this fingerprint is of a supported kind; that is the key that signs. */
  lemma SignAnswers(lib: AgentLib, s: AgentState, material: KeyMaterial, approved: bool, io: Io)
    ensures var answer := Apply(lib, s, Sign(material, approved), io).1;
      var fp := lib.keyLib.fingerprint(material);
      && (answer.Signed? || answer == Failure)
      && (answer.Signed? <==>
            approved && CanServe(s, io) && exists key :: Available(lib, s, fp, key) && lib.keyLib.supported(key.material))
      && (answer.Signed? ==> Available(lib, s, fp, answer.key) && lib.keyLib.supported(answer.key.material))
  {
    var answer := Apply(lib, s, Sign(material, approved), io).1;
    var fp := lib.keyLib.fingerprint(material);
    if CanServe(s, io) {
      forall key
        ensures (fp in EnsureLoaded(lib, s, io).value.keys && EnsureLoaded(lib, s, io).value.keys[fp] == key)
          <==> Available(lib, s, fp, key)
      {
        LoadedKeysAre(lib, s, io, fp, key);
      }
      if answer.Signed? { assert Available(lib, s, fp, answer.key); }
    }
  }

  /** A list request shows exactly the keys that can be used, or nothing while the agent is locked; it fails exactly if
      the keys cannot be had. */
  lemma ListAnswers(lib: AgentLib, s: AgentState, io: Io)
    ensures var answer := Apply(lib, s, List, io).1;
      && (answer.Identities? <==> s.locked || CanServe(s, io)) && (answer.Identities? || answer == Failure)
      && (s.locked ==> answer == Identities(map[]))
      && (CanServe(s, io) ==> forall fp, key :: (fp in answer.keys && answer.keys[fp] == key) <==>
            Available(lib, s, fp, key))
  {
    if CanServe(s, io) {
      forall fp, key
        ensures (fp in Apply(lib, s, List, io).1.keys && Apply(lib, s, List, io).1.keys[fp] == key)
          <==> Available(lib, s, fp, key)
      {
        LoadedKeysAre(lib, s, io, fp, key);
      }
    }
  }

  /** What a list or a sign leaves: memory untouched, or, cleared and with the file at hand, reloaded from it. */
  lemma ServingLeaves(lib: AgentLib, s: AgentState, r: Request, io: Io, fp: string, key: PrivateKey)
    requires r.List? || r.Sign?
    ensures var t := Apply(lib, s, r, io).0;
      && (!(CanServe(s, io) && Cleared(s)) ==> t == s)
      && (CanServe(s, io) && Cleared(s) ==>
            t == s.(keys := t.keys, idleCleared := false)
            && ((fp in t.keys && t.keys[fp] == key) <==> OnFile(lib.keyLib, s.disk, fp, key)))
  {
    if CanServe(s, io) { LoadedKeysAre(lib, s, io, fp, key); }
  }

  /** The fingerprint is in a file the agent can read. */
  predicate Stored(disk: Disk, io: Io, fp: string) {
    disk.Entries? && io.readable && exists i | 0 <= i < |disk.entries| :: disk.entries[i].fingerprint == fp
  }

  /** A key is taken exactly if the agent is not locked, the key is supported and can be serialized, and it is stored
      already or the file can be written. Then it is in memory under its fingerprint; otherwise nothing changes. */
  lemma AddAnswers(lib: AgentLib, s: AgentState, key: PrivateKey, io: Io)
    ensures var (t, answer) := Apply(lib, s, Add(key), io);
      var fp := lib.keyLib.fingerprint(key.material);
      && (answer == Done <==>
            !s.locked && lib.keyLib.supported(key.material) && lib.keyLib.write(key).Some?
            && (Stored(s.disk, io, fp) || io.writable))
      && (answer == Done || (answer == Failure && t == s))
      && (answer == Done ==> t == s.(keys := s.keys[fp := key], disk := t.disk))
      && (answer == Done && Stored(s.disk, io, fp) ==> t.disk == s.disk)
      && (answer == Done && !Stored(s.disk, io, fp) ==>
            t.disk.Entries?
            && t.disk.entries == (if s.disk.Entries? && io.readable then s.disk.entries else [])
                 + [KeyEntry(fp, lib.keyLib.algorithm(key.material), key.comment, lib.keyLib.write(key).value)])
  {
  }

  /** A removal always reports success. It takes the key from memory, and from the file what can be taken: with an
      unreadable file nothing else is left there either, with an unwritable one everything is. */
  lemma RemoveAnswers(lib: AgentLib, s: AgentState, material: KeyMaterial, io: Io)
    ensures var (t, answer) := Apply(lib, s, Remove(material), io);
      var fp := lib.keyLib.fingerprint(material);
      && answer == Done && t == s.(keys := t.keys, disk := t.disk)
      && (forall f :: f in t.keys <==> f in s.keys && f != fp) && (forall f | f in t.keys :: t.keys[f] == s.keys[f])
      && (!io.writable ==> t.disk == s.disk)
      && (io.writable ==> t.disk.Entries? && forall e :: e in t.disk.entries <==>
            s.disk.Entries? && io.readable && e in s.disk.entries && e.fingerprint != fp)
  {
    var fp := lib.keyLib.fingerprint(material);
    forall e ensures e in Without(OrEmpty(Loaded(s.disk, io)), fp) <==>
      s.disk.Entries? && io.readable && e in s.disk.entries && e.fingerprint != fp
    {
      WithoutMembers(OrEmpty(Loaded(s.disk, io)), fp, e);
    }
  }

  /** A lock is accepted exactly by an unlocked agent, an unlock exactly by an agent locked under the same hash; the one
      empties the memory, the other loads what is on file if it can be read. */
  lemma LockAnswers(lib: AgentLib, s: AgentState, p: string, io: Io, fp: string, key: PrivateKey)
    ensures var (t, answer) := Apply(lib, s, Lock(p), io);
      && (answer == Done <==> !s.locked) && (answer == Done || (answer == Failure && t == s))
      && (answer == Done ==> t == s.(locked := true, lockHash := Some(lib.hash(p)), keys := map[]))
    ensures var (t, answer) := Apply(lib, s, Unlock(p), io);
      && (answer == Done <==> s.locked && s.lockHash == Some(lib.hash(p)))
      && (answer == Done || (answer == Failure && t == s))
      && (answer == Done ==>
            t == s.(locked := false, lockHash := None, keys := t.keys)
            && if FileReadable(s.disk, io)
               then (fp in t.keys && t.keys[fp] == key) <==> OnFile(lib.keyLib, s.disk, fp, key)
               else t.keys == s.keys)
  {
    KeysOfAre(lib.keyLib, if s.disk.Entries? then s.disk.entries else [], fp, key);
  }

  /** Removing all keys empties memory and, if it can be written, the file; the idle sweep empties memory alone and
      raises its flag if there was anything to clear. */
  lemma ClearingAnswers(lib: AgentLib, s: AgentState, io: Io)
    ensures Apply(lib, s, RemoveAll, io) ==
      (s.(keys := map[], disk := if io.writable then Entries([]) else s.disk), Done)
    ensures Apply(lib, s, IdleSweep, io).0 ==
      s.(keys := map[], idleCleared := s.idleCleared || s.keys != map[])
  {
  }
}
