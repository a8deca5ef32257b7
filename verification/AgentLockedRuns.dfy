/**
 Two runs in which a lock is overtaken: a locked agent takes a key, and a locked agent lists its keys.
 */
module AgentLockedRuns {
  import opened Common
  import opened AncestorWalk
  import opened AgentMachine
  import opened AgentGuards
  import opened AgentProgress
  import opened AgentLockProtocol
  import opened AgentStragglers
  import opened AgentLockReturn
  import opened AgentLockedMemory
  import opened AgentLockedListing

  // ---------------------------------------------------------------------------
  // A run in which a locked agent takes a key
  // ---------------------------------------------------------------------------

  const NO_QUEUES: PerLock<seq<nat>> := PerLock([], [], [], [], [], [])

  /** Nobody owns a guard or waits for one. */
  ghost predicate Calm(s: System) {
    s.queues == NO_QUEUES && forall u | 0 <= u < |s.tasks| :: s.tasks[u].guards == NO_GUARDS
  }

  /** The state in which a request has just arrived and got its first guard. */
  ghost predicate Begun(s: System, s': System, t: nat, op: Op)
    requires t < |s.tasks| && Wants(FirstPc(op)).Some?
  {
    var (l, h) := Wants(FirstPc(op)).value;
    && |s'.tasks| == |s.tasks| && s'.tasks == s.tasks[t := s'.tasks[t]]
    && s'.shared == s.shared && s'.queues == NO_QUEUES
    && s'.tasks[t].pc == AfterAcquire(FirstPc(op)) && s'.tasks[t].op == op
    && s'.tasks[t].guards == NO_GUARDS.With(l, h)
  }

  lemma OneRequestQueue(l: Lock, t: nat)
    ensures NO_QUEUES.With(l, NO_QUEUES.At(l) + [t]).At(l) == [t]
    ensures NO_QUEUES.With(l, NO_QUEUES.At(l) + [t]).With(l, [t][1..]) == NO_QUEUES
  {
    assert NO_QUEUES.At(l) == [] && NO_QUEUES.At(l) + [t] == [t];
    assert [t][1..] == [];
  }

  /** In a calm state a new request gets its first guard at once. */
  lemma ArriveAlone(c: Config, s: System, t: nat, op: Op) returns (s': System, labels: seq<Label>)
    requires Calm(s) && t < |s.tasks| && s.tasks[t].pc.Idle? && Wants(FirstPc(op)).Some?
    ensures Exec(c, s, labels) == Some(s') && Begun(s, s', t, op)
  {
    var (l, h) := Wants(FirstPc(op)).value;
    OneRequestQueue(l, t);
    var s1 := Next(c, s, Arrive(t, op));
    var s2 := Next(c, s1, Enqueue(t));
    assert Compatible(s2, l, h);
    s' := Next(c, s2, Acquire(t));
    labels := [Arrive(t, op)] + ([Enqueue(t)] + ([Acquire(t)] + []));
    ExecFirst(c, s, Arrive(t, op), [Enqueue(t)] + ([Acquire(t)] + []));
    ExecFirst(c, s1, Enqueue(t), [Acquire(t)] + []);
    ExecFirst(c, s2, Acquire(t), []);
  }

  /** An add passes its check. */
  lemma StartAdd(c: Config, s: System, fp: string, key: PrivateKey) returns (s': System, labels: seq<Label>)
    requires Calm(s) && |s.tasks| >= 2 && s.tasks[0].pc.Idle? && !s.shared.locked
    ensures Exec(c, s, labels) == Some(s') && Calm(s') && |s'.tasks| == |s.tasks| && s'.tasks[1] == s.tasks[1]
    ensures s'.tasks[0].pc == AtEdit(AddSave) && s'.tasks[0].op == Add(fp, key) && !s'.shared.locked
  {
    var ch := Choice(true, map[]);
    var s1, first := ArriveAlone(c, s, 0, Add(fp, key));
    s' := Next(c, s1, Local(0, ch));
    ExecFirst(c, s1, Local(0, ch), []);
    ExecAppend(c, s, first, [Local(0, ch)] + []);
    labels := first + ([Local(0, ch)] + []);
  }

  /** A lock sets the flag. */
  lemma SetLock(c: Config, s: System, hash: Digest) returns (s': System, labels: seq<Label>)
    requires Calm(s) && |s.tasks| >= 2 && s.tasks[1].pc.Idle? && !s.shared.locked
    ensures Exec(c, s, labels) == Some(s') && |s'.tasks| == |s.tasks| && s'.tasks[0] == s.tasks[0]
    ensures s'.tasks[1].pc == AtLock(LockPassAcquire) && s'.shared.locked && s'.queues == NO_QUEUES
    ensures |s'.trace| > 0 && s'.trace[|s'.trace| - 1] == LockSet(1, s'.tasks[1].req, hash)
  {
    var ch := Choice(true, map[]);
    var s1, first := ArriveAlone(c, s, 1, LockAgent(hash));
    s' := Next(c, s1, Local(1, ch));
    ExecFirst(c, s1, Local(1, ch), []);
    ExecAppend(c, s, first, [Local(1, ch)] + []);
    labels := first + ([Local(1, ch)] + []);
  }

  /** An add passes its check, then a lock sets the flag. */
  lemma AddThenLock(c: Config, s0: System, fp: string, key: PrivateKey, hash: Digest)
    returns (s: System, run: seq<Label>)
    requires Init(s0) && |s0.tasks| >= 2
    ensures Exec(c, s0, run) == Some(s) && |s.tasks| >= 2
    ensures s.tasks[0].pc == AtEdit(AddSave) && s.tasks[0].op == Add(fp, key) && s.tasks[0].guards == NO_GUARDS
    ensures s.tasks[1].pc == AtLock(LockPassAcquire) && s.shared.locked && s.queues == NO_QUEUES
    ensures |s.trace| > 0 && s.trace[|s.trace| - 1] == LockSet(1, s.tasks[1].req, hash)
  {
    var s1, first := StartAdd(c, s0, fp, key);
    var s2, second := SetLock(c, s1, hash);
    ExecAppend(c, s0, first, second);
    s, run := s2, first + second;
  }

  /** Task 1 locks the agent at event `i` and returns at `r`; task 0 adds the key at `n`, and nobody unlocks. */
  ghost predicate LockedThenAdded(tr: Trace, hash: Digest, fp: string, i: nat, r: nat, n: nat) {
    && i < r < n < |tr| && tr[i].LockSet? && tr[i].t == 1 && tr[i].hash == hash
    && tr[r] == LockReturned(1, tr[i].req) && tr[n].Added? && tr[n].t == 0
    && forall j | i < j < |tr| :: !tr[j].LockReset?
  }

  /** A locked agent can take a key: for any key there is a run from any start with two sessions in which the lock has
      returned, nobody has unlocked, and the key is added to memory. */
  lemma LockedAgentTakesKey(c: Config, s0: System, fp: string, key: PrivateKey, hash: Digest) returns (run: seq<Label>)
    requires Init(s0) && |s0.tasks| >= 2
    ensures Exec(c, s0, run).Some?
    ensures var s := Exec(c, s0, run).value;
      && s.shared.locked && fp in s.shared.keys
      && exists i, r, n :: LockedThenAdded(s.trace, hash, fp, i, r, n)
  {
    var s, first := AddThenLock(c, s0, fp, key, hash);
    ReachableIsSane(c, s0, first);
    var second := LockThenAdd(c, s, fp, hash);
    ExecAppend(c, s0, first, second);
    run := first + second;
  }

  /** With nobody queueing and a bystander with empty hands, a lock that has just set the flag can be run to its end. */
  lemma FreshLockGoesOn(s: System, t: nat, u: nat)
    requires Sane(s) && s.shared.locked && s.queues == NO_QUEUES
    requires t < |s.tasks| && u < |s.tasks| && u != t && s.tasks[u].guards == NO_GUARDS
    requires s.tasks[t].pc == AtLock(LockPassAcquire)
    ensures LockGoesOn(s, t, {u})
  {
  }

  /** The rest of the run, given the two pieces: the lock returns, the add is served. */
  lemma TwoPieces(c: Config, s: System, first: seq<Label>, second: seq<Label>, fp: string, hash: Digest)
    requires |s.tasks| >= 2 && s.trace != [] && s.trace[|s.trace| - 1] == LockSet(1, s.tasks[1].req, hash)
    requires s.tasks[0].op.Add? && s.tasks[0].op.fingerprint == fp
    requires Exec(c, s, first).Some? && Returned(s, Exec(c, s, first).value, 1, {0})
    requires var s1 := Exec(c, s, first).value; Exec(c, s1, second).Some?
    requires var s1 := Exec(c, s, first).value;
      var s2 := Exec(c, s1, second).value;
      Continues(s1, s2) && s2.shared.locked && |s2.trace| > |s1.trace| && JustServed(s2, 0, s1.tasks[0].req, s1.tasks[0].op)
    ensures Exec(c, s, first + second).Some?
    ensures var s2 := Exec(c, s, first + second).value;
      s2.shared.locked && fp in s2.shared.keys && exists i, r, n :: LockedThenAdded(s2.trace, hash, fp, i, r, n)
  {
    var s1 := Exec(c, s, first).value;
    ExecAppend(c, s, first, second);
    AddedWhileLocked(s, s1, Exec(c, s1, second).value, hash, fp);
  }

  lemma LockThenAdd(c: Config, s: System, fp: string, hash: Digest) returns (run: seq<Label>)
    requires Sane(s) && |s.tasks| >= 2 && s.shared.locked && s.queues == NO_QUEUES
    requires s.tasks[0].pc == AtEdit(AddSave) && s.tasks[0].op.Add? && s.tasks[0].op.fingerprint == fp
    requires s.tasks[0].guards == NO_GUARDS && s.tasks[1].pc == AtLock(LockPassAcquire)
    requires s.trace != [] && s.trace[|s.trace| - 1] == LockSet(1, s.tasks[1].req, hash)
    ensures Exec(c, s, run).Some?
    ensures var s2 := Exec(c, s, run).value;
      s2.shared.locked && fp in s2.shared.keys && exists i, r, n :: LockedThenAdded(s2.trace, hash, fp, i, r, n)
  {
    FreshLockGoesOn(s, 1, 0);
    var first := RunToReturn(c, s, 1, {0});
    var second := Serve(c, Exec(c, s, first).value, 0);
    TwoPieces(c, s, first, second, fp, hash);
    run := first + second;
  }

  lemma AddedWhileLocked(s: System, s1: System, s2: System, hash: Digest, fp: string)
    requires |s.tasks| >= 2 && s.trace != [] && s.trace[|s.trace| - 1] == LockSet(1, s.tasks[1].req, hash)
    requires Returned(s, s1, 1, {0}) && Continues(s1, s2) && |s2.trace| > |s1.trace|
    requires s.tasks[0].op.Add? && JustServed(s2, 0, s1.tasks[0].req, s1.tasks[0].op)
    ensures LockedThenAdded(s2.trace, hash, fp, |s.trace| - 1, |s1.trace| - 1, |s2.trace| - 1)
  {
    ContinuesOn(s, s1, s2);
  }

  // ---------------------------------------------------------------------------
  // A run in which a locked agent lists its keys
  // ---------------------------------------------------------------------------

  /** Nobody queues, and nobody but `t` owns a guard. */
  ghost predicate Alone(s: System, t: nat) {
    && s.queues == NO_QUEUES && t < |s.tasks|
    && forall u | 0 <= u < |s.tasks| && u != t :: s.tasks[u].guards == NO_GUARDS
  }

  /** Only task `t` has moved; nobody waits. */
  ghost predicate OnlyMoved(s: System, s': System, t: nat) {
    && t < |s.tasks| == |s'.tasks| && s'.tasks == s.tasks[t := s'.tasks[t]] && s'.queues == NO_QUEUES
  }

  /** A task that is alone gets the guard it wants at once. */
  lemma TakeAlone(c: Config, s: System, t: nat) returns (s': System, labels: seq<Label>)
    requires Alone(s, t) && Wants(s.tasks[t].pc).Some? && s.tasks[t].guards.At(Wants(s.tasks[t].pc).value.0).Free?
    ensures Exec(c, s, labels) == Some(s') && OnlyMoved(s, s', t) && Alone(s', t)
    ensures s'.shared == s.shared && s'.now == s.now
    ensures var (l, h) := Wants(s.tasks[t].pc).value;
      s'.tasks[t] == s.tasks[t].(pc := AfterAcquire(s.tasks[t].pc), guards := s.tasks[t].guards.With(l, h),
                                 keysAt := s'.tasks[t].keysAt)
  {
    var (l, h) := Wants(s.tasks[t].pc).value;
    OneRequestQueue(l, t);
    var s1 := Next(c, s, Enqueue(t));
    assert Compatible(s1, l, h);
    s' := Next(c, s1, Acquire(t));
    labels := [Enqueue(t)] + ([Acquire(t)] + []);
    ExecFirst(c, s, Enqueue(t), [Acquire(t)] + []);
    ExecFirst(c, s1, Acquire(t), []);
  }

  /** A task that is alone runs its code up to the next lock operation. */
  lemma RunAlone(c: Config, s: System, t: nat, ch: Choice) returns (s': System, labels: seq<Label>)
    requires Alone(s, t) && !s.tasks[t].pc.Idle? && Wants(s.tasks[t].pc).None?
    ensures Exec(c, s, labels) == Some(s') && OnlyMoved(s, s', t) && Alone(s', t) && s'.now == s.now
    ensures var e := LocalEffect(c, s.now, s.procs, t, s.shared, s.tasks[t], ch);
      s'.tasks[t] == e.task && s'.shared == e.shared
  {
    s' := Next(c, s, Local(t, ch));
    labels := [Local(t, ch)] + [];
    ExecFirst(c, s, Local(t, ch), []);
  }

  /** Time passes. */
  lemma WaitUntil(c: Config, s: System, now: nat) returns (s': System, labels: seq<Label>)
    requires s.now <= now
    ensures Exec(c, s, labels) == Some(s') && s' == s.(now := now)
  {
    s' := Next(c, s, Tick(now));
    labels := [Tick(now)] + [];
    ExecFirst(c, s, Tick(now), []);
  }

  const ANY := Choice(true, map[])

  /** Runs through the first half of an idle sweep: task `t` finds the timeout elapsed. */
  lemma SweepStarts(c: Config, s: System, t: nat) returns (s': System, labels: seq<Label>)
    requires Calm(s) && t < |s.tasks| && s.tasks[t].pc.Idle?
    ensures Exec(c, s, labels) == Some(s') && OnlyMoved(s, s', t) && Calm(s') && s'.shared == s.shared
    ensures s'.tasks[t].pc == AtSweep(SweepKeysAcquire) && s'.tasks[t].op.IdleSweep?
  {
    var s1, l1 := ArriveAlone(c, s, t, IdleSweep);
    var s2, l2 := RunAlone(c, s1, t, ANY);
    var late := s2.now + s2.tasks[t].last + c.idleTimeout;
    var s3, l3 := WaitUntil(c, s2, late);
    var s4, l4 := RunAlone(c, s3, t, ANY);
    ExecAppend(c, s, l1, l2);
    ExecAppend(c, s, l1 + l2, l3);
    ExecAppend(c, s, l1 + l2 + l3, l4);
    s', labels := s4, l1 + l2 + l3 + l4;
  }

  /** The end of a sweep: the guards go back. */
  lemma SweepLeaves(c: Config, s: System, t: nat) returns (s': System, labels: seq<Label>)
    requires Alone(s, t) && s.tasks[t].pc == AtSweep(SweepFlagRelease)
    ensures Exec(c, s, labels) == Some(s') && OnlyMoved(s, s', t) && Calm(s') && s'.tasks[t].pc.Idle?
    ensures s'.shared == s.shared
  {
    var s1, l1 := RunAlone(c, s, t, ANY);
    var s2, l2 := RunAlone(c, s1, t, ANY);
    ExecAppend(c, s, l1, l2);
    s', labels := s2, l1 + l2;
  }

  /** Runs through the second half: the map is emptied and the flag put up. */
  lemma SweepEnds(c: Config, s: System, t: nat) returns (s': System, labels: seq<Label>)
    requires Calm(s) && t < |s.tasks| && s.tasks[t].pc == AtSweep(SweepKeysAcquire) && s.shared.keys != map[]
    ensures Exec(c, s, labels) == Some(s') && OnlyMoved(s, s', t) && Calm(s') && s'.tasks[t].pc.Idle?
    ensures s'.shared == s.shared.(keys := map[], idleCleared := true)
  {
    var s1, l1 := TakeAlone(c, s, t);
    var s2, l2 := RunAlone(c, s1, t, ANY);
    var s3, l3 := TakeAlone(c, s2, t);
    var s4, l4 := RunAlone(c, s3, t, ANY);
    ExecAppend(c, s, l1, l2);
    ExecAppend(c, s, l1 + l2, l3);
    ExecAppend(c, s, l1 + l2 + l3, l4);
    var s5, l5 := SweepLeaves(c, s4, t);
    ExecAppend(c, s, l1 + l2 + l3 + l4, l5);
    s', labels := s5, l1 + l2 + l3 + l4 + l5;
  }

  /** A list passes its check, finds the map empty and the flag up, and is about to read the key file. */
  lemma ListStarts(c: Config, s: System, t: nat) returns (s': System, labels: seq<Label>)
    requires Calm(s) && t < |s.tasks| && s.tasks[t].pc.Idle? && !s.shared.locked
    requires s.shared.keys == map[] && s.shared.idleCleared
    ensures Exec(c, s, labels) == Some(s') && OnlyMoved(s, s', t) && Calm(s') && s'.shared == s.shared
    ensures s'.tasks[t].pc == AtEnsure(EnsureLoad) && s'.tasks[t].op.List?
  {
    var s1, l1 := ArriveAlone(c, s, t, List);
    var s2, l2 := RunAlone(c, s1, t, ANY);
    var s3, l3 := TakeAlone(c, s2, t);
    var s4, l4 := RunAlone(c, s3, t, ANY);
    var s5, l5 := TakeAlone(c, s4, t);
    var s6, l6 := RunAlone(c, s5, t, ANY);
    ExecAppend(c, s, l1, l2);
    ExecAppend(c, s, l1 + l2, l3);
    ExecAppend(c, s, l1 + l2 + l3, l4);
    ExecAppend(c, s, l1 + l2 + l3 + l4, l5);
    ExecAppend(c, s, l1 + l2 + l3 + l4 + l5, l6);
    s', labels := s6, l1 + l2 + l3 + l4 + l5 + l6;
  }

  /** A lock request runs up to the point where it has emptied the map. */
  lemma LockEmpties(c: Config, s: System, t: nat, hash: Digest) returns (s': System, labels: seq<Label>)
    requires Calm(s) && t < |s.tasks| && s.tasks[t].pc.Idle? && !s.shared.locked
    ensures Exec(c, s, labels) == Some(s') && OnlyMoved(s, s', t)
    ensures s'.tasks[t].pc == AtLock(LockCacheAcquire) && s'.shared.locked && s'.shared.keys == map[]
    ensures s'.shared.idleCleared == s.shared.idleCleared
  {
    var s1, l1 := ArriveAlone(c, s, t, LockAgent(hash));
    var s2, l2 := RunAlone(c, s1, t, ANY);
    var s3, l3 := TakeAlone(c, s2, t);
    var s4, l4 := RunAlone(c, s3, t, ANY);
    var s5, l5 := TakeAlone(c, s4, t);
    var s6, l6 := RunAlone(c, s5, t, ANY);
    ExecAppend(c, s, l1, l2);
    ExecAppend(c, s, l1 + l2, l3);
    ExecAppend(c, s, l1 + l2 + l3, l4);
    ExecAppend(c, s, l1 + l2 + l3 + l4, l5);
    ExecAppend(c, s, l1 + l2 + l3 + l4 + l5, l6);
    s', labels := s6, l1 + l2 + l3 + l4 + l5 + l6;
  }

  /** Sweep, list and lock, one after the other, up to the moment the lock has emptied the map. */
  lemma SweepListLock(c: Config, s0: System, hash: Digest) returns (s: System, run: seq<Label>)
    requires Init(s0) && |s0.tasks| >= 2 && s0.shared.keys != map[]
    ensures Exec(c, s0, run) == Some(s) && |s.tasks| >= 2 && s.queues == NO_QUEUES
    ensures s.tasks[0].pc == AtEnsure(EnsureLoad) && s.tasks[0].op.List? && s.tasks[0].guards == NO_GUARDS
    ensures s.tasks[1].pc == AtLock(LockCacheAcquire) && s.shared.locked && s.shared.keys == map[]
    ensures forall u | 0 <= u < |s.tasks| && u != 1 :: s.tasks[u].guards == NO_GUARDS
  {
    var s1, l1 := SweepStarts(c, s0, 1);
    var s2, l2 := SweepEnds(c, s1, 1);
    var s3, l3 := ListStarts(c, s2, 0);
    var s4, l4 := LockEmpties(c, s3, 1, hash);
    ExecAppend(c, s0, l1, l2);
    ExecAppend(c, s0, l1 + l2, l3);
    ExecAppend(c, s0, l1 + l2 + l3, l4);
    s, run := s4, l1 + l2 + l3 + l4;
  }

  /** Task 1 has locked the agent and returned at `r`; task 0 lists a key at `n`, and nobody unlocks in between. */
  ghost predicate LockedThenListed(tr: Trace, r: nat, n: nat) {
    && r < n < |tr| && tr[r].LockReturned? && tr[r].t == 1
    && tr[n].Listed? && tr[n].t == 0 && tr[n].fingerprints != {}
    && forall j | r < j < |tr| :: !tr[j].LockReset?
  }

  /** A locked agent can list its keys: from any start with a key and two sessions, after an idle sweep, there is a run
      in which the lock has returned, nobody has unlocked, and a list shows a key of the file. */
  lemma LockedAgentListsKeys(c: Config, s0: System, hash: Digest, file: KeyMap) returns (run: seq<Label>)
    requires Init(s0) && |s0.tasks| >= 2 && s0.shared.keys != map[] && file != map[]
    ensures Exec(c, s0, run).Some? && Exec(c, s0, run).value.shared.locked
    ensures exists r, n :: LockedThenListed(Exec(c, s0, run).value.trace, r, n)
  {
    var s, first := SweepListLock(c, s0, hash);
    ReachableIsSane(c, s0, first);
    assert JustEmptied(s, 1);
    assert WillFill(s, 0) && Waiting(s, 0, 0);
    var second := FilledMapIsListed(c, s, 1, 0, 0, file);
    ExecAppend(c, s0, first, second);
    run := first + second;
    ListedWhileLocked(s, Exec(c, s, second).value, s.tasks[1].req, s.tasks[0].req);
  }

  lemma ListedWhileLocked(s: System, s': System, lock: nat, req: nat)
    requires ListsAfterReturn(s, s', 1, lock, 0, req)
    ensures exists r, n :: LockedThenListed(s'.trace, r, n)
  {
    var r: nat, n: nat :| ReturnedThenListed(s, s', 1, lock, 0, req, r, n);
    assert LockedThenListed(s'.trace, r, n);
  }
}
