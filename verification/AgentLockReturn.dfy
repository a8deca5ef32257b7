/**
 Running a lock to its end: from any point after setting the flag it can be run to its return without moving
 bystanders that are in none of its ways, and it leaves the key map empty.
 */
module AgentLockReturn {
  import opened Common
  import opened AncestorWalk
  import opened AgentMachine
  import opened AgentGuards
  import opened AgentProgress
  import AgentDiscipline
  import AgentIdleFlag
  import AgentFlush
  import opened AgentLockProtocol
  import opened AgentStragglers

  // ---------------------------------------------------------------------------
  // Running a lock to its end past a bystander
  // ---------------------------------------------------------------------------

  /** A lock request that has emptied the key map. */
  predicate Flushed(pc: Pc) {
    AgentFlush.AfterFlush(pc) || AgentFlush.AfterClear(pc)
  }

  predicate Near(s: System, u: nat, m: Lock)
    requires u < |s.tasks|
  {
    u in s.queues.At(m) || !s.tasks[u].guards.At(m).Free?
  }

  /** Task `u` neither holds nor queues for any lock the locking task `t` may still have to wait for. */
  ghost predicate Aside(s: System, t: nat, u: nat) {
    && t < |s.tasks| && u < |s.tasks| && u != t
    && forall m | m == LCache || (!Flushed(s.tasks[t].pc) && Rank(m) >= 1) :: !Near(s, u, m)
  }

  ghost predicate OthersOffKeys(s: System, t: nat) {
    forall v | 0 <= v < |s.tasks| && v != t :: s.tasks[v].guards.keys.Free?
  }

  ghost predicate Emptied(s: System, t: nat) {
    s.shared.keys == map[] && OthersOffKeys(s, t)
  }

  /** The way to the end of a lock: steps of others only clear guards out of the way. */
  ghost predicate LockGoesOn(s: System, t: nat, us: set<nat>) {
    && Sane(s) && s.shared.locked && t < |s.tasks| && Locking(s.tasks[t].pc)
    && (forall u | u in us :: Aside(s, t, u))
    && (Flushed(s.tasks[t].pc) ==> Emptied(s, t))
  }

  /** An unlock that does not own the flag is still waiting for it, with empty hands. */
  lemma UnlockOutside(k: Task, m: Lock)
    requires TaskOk(k) && k.pc.AtUnlock? && k.guards.locked.Free?
    ensures k.guards.At(m).Free? && Wants(k.pc) == Some((LLocked, Write))
  {
  }

  lemma LockerOnTheWay(s: System, t: nat, us: set<nat>, b: nat)
    requires LockGoesOn(s, t, us) && OnTheWay(s, t, b) && b != t
    ensures b !in us && b < |s.tasks| && !s.tasks[b].pc.AtUnlock?
  {
    assert TaskOk(s.tasks[t]) && TaskOk(s.tasks[b]);
    var l := Wants(s.tasks[t].pc).value.0;
    LockerWants(s.tasks[t]);
    var m :| (m == l || Rank(m) > Rank(l)) && FirstAt(s, b, m);
    assert s.tasks[b].guards.At(m).Free? ==> b in s.queues.At(m);
    assert Near(s, b, m);
    assert s.tasks[t].guards.At(LLocked).Write? && s.tasks[b].guards.At(LLocked).Free?;
    assert b in s.queues.At(m) ==> Waits(s, b, m);
    if s.tasks[b].pc.AtUnlock? { UnlockOutside(s.tasks[b], m); }
  }

  lemma LockerWants(k: Task)
    requires TaskOk(k) && Locking(k.pc)
    ensures k.guards.locked.Write? && (Wants(k.pc).Some? ==>
      Rank(Wants(k.pc).value.0) >= 1 && (Flushed(k.pc) ==> Wants(k.pc).value.0.LCache? && k.guards.keys.Write?))
  {
  }

  lemma LockerMoves(t: nat, sh: Shared, k: Task)
    requires TaskOk(k) && Locking(k.pc) && Wants(k.pc).None?
    ensures var e := LockEffect(t, sh, k, k.pc.l, k.op.hash);
      && e.shared.idleCleared == sh.idleCleared && e.task.req == k.req
      && (e.shared.keys == sh.keys || e.shared.keys == map[])
      && (if k.pc.l.LockReturn? then e.event == Some(LockReturned(t, k.req)) && e.task.pc.Idle?
          else Locking(e.task.pc) && (Flushed(e.task.pc) <==> Flushed(k.pc) || k.pc.l.LockKeysClear?))
      && (k.pc.l.LockKeysClear? ==> e.shared.keys == map[])
  {
    match k.pc.l
    case LockPassStore =>
    case LockKeysClear =>
    case LockCacheClear =>
    case LockCacheRelease =>
    case LockKeysRelease =>
    case LockPassRelease =>
    case LockReturn =>
  }

  /** A step of the locking task itself. */
  lemma OwnStep(c: Config, s: System, a: Label, t: nat, us: set<nat>)
    requires LockGoesOn(s, t, us) && Enabled(s, a) && Actor(a) == Some(t)
    ensures var s1 := Next(c, s, a);
      && s1.shared.idleCleared == s.shared.idleCleared && s1.tasks[t].req == s.tasks[t].req
      && (if s.tasks[t].pc == AtLock(LockReturn)
          then s1.trace == s.trace + [LockReturned(t, s.tasks[t].req)] && s1.shared.keys == s.shared.keys && s1.tasks[t].pc.Idle?
          else Locking(s1.tasks[t].pc) && (Flushed(s.tasks[t].pc) ==> Flushed(s1.tasks[t].pc) && s1.shared.keys == map[]))
  {
    assert TaskOk(s.tasks[t]);
    if a.Local? { LockerMoves(t, s.shared, s.tasks[t]); }
  }

  /** The map is empty from the moment it is emptied, and nobody else has its guard then. */
  lemma EmptiedByStep(c: Config, s: System, a: Label, t: nat, us: set<nat>)
    requires LockGoesOn(s, t, us) && Enabled(s, a) && Actor(a) == Some(t)
    requires Flushed(Next(c, s, a).tasks[t].pc) || s.tasks[t].pc == AtLock(LockReturn)
    ensures Emptied(Next(c, s, a), t)
  {
    var k := s.tasks[t];
    assert TaskOk(k);
    if a.Local? { LockerMoves(t, s.shared, k); }
    if !Flushed(k.pc) {
      assert k.guards.At(LKeys).Write?;
      forall v | 0 <= v < |s.tasks| && v != t ensures s.tasks[v].guards.keys.Free? { assert s.tasks[v].guards.At(LKeys).Free?; }
    }
  }

  /** A step of another task that stands on the way. */
  lemma OthersStep(c: Config, s: System, a: Label, t: nat, us: set<nat>)
    requires LockGoesOn(s, t, us) && Enabled(s, a) && Actor(a).Some? && Actor(a).value != t
    requires Sane(Next(c, s, a)) && (Flushed(s.tasks[t].pc) ==> s.tasks[t].guards.keys.Write?)
    ensures var s1 := Next(c, s, a);
      && s1.tasks[t] == s.tasks[t]
      && (Flushed(s.tasks[t].pc) ==> Emptied(s1, t) && s1.shared.idleCleared == s.shared.idleCleared)
  {
    var b := Actor(a).value;
    var s1 := Next(c, s, a);
    if Flushed(s.tasks[t].pc) {
      assert s1.tasks[t].guards.At(LKeys).Write?;
      forall v | 0 <= v < |s1.tasks| && v != t ensures s1.tasks[v].guards.keys.Free? { assert s1.tasks[v].guards.At(LKeys).Free?; }
      if a.Local? {
        assert TaskOk(s.tasks[b]);
        AgentDiscipline.EveryWriteIsGuarded(c, s.now, s.procs, b, s.shared, s.tasks[b], a.choice);
      }
    }
  }

  lemma StaysAside(c: Config, s: System, a: Label, t: nat, u: nat)
    requires Aside(s, t, u) && Enabled(s, a) && Actor(a).Some? && Actor(a).value != u
    requires Flushed(s.tasks[t].pc) ==> Flushed(Next(c, s, a).tasks[t].pc)
    ensures Next(c, s, a).tasks[u] == s.tasks[u] && Aside(Next(c, s, a), t, u)
  {
    var s1 := Next(c, s, a);
    StepExtends(c, s, a);
    forall m | m == LCache || (!Flushed(s1.tasks[t].pc) && Rank(m) >= 1) ensures !Near(s1, u, m) {
      assert !Near(s, u, m);
      if a.Enqueue? {
        var l := Wants(s.tasks[a.t].pc).value.0;
        WithAt(s.queues, l, s.queues.At(l) + [a.t], m);
      } else if a.Acquire? {
        var l := Wants(s.tasks[a.t].pc).value.0;
        WithAt(s.queues, l, s.queues.At(l)[1..], m);
      }
    }
  }

  predicate LastStep(s: System, a: Label, t: nat)
    requires t < |s.tasks|
  {
    Actor(a) == Some(t) && s.tasks[t].pc == AtLock(LockReturn)
  }

  /** The queue for the keys is the same, and whoever is in it stands where it stood. */
  ghost predicate KeysQueueKept(s: System, s1: System) {
    && |s1.tasks| == |s.tasks| && s1.queues.keys == s.queues.keys
    && forall v | v in s.queues.keys && v < |s.tasks| :: s1.tasks[v] == s.tasks[v]
  }

  /** Once the lock has emptied the map, nobody touches the idle flag and nobody moves in the queue for the keys. */
  ghost predicate FlagKept(s: System, s1: System, t: nat) {
    && t < |s.tasks| == |s1.tasks|
    && (Flushed(s.tasks[t].pc) ==> s1.shared.idleCleared == s.shared.idleCleared && KeysQueueKept(s, s1))
  }

  predicate WantsKeys(k: Task) {
    Wants(k.pc).Some? && Wants(k.pc).value.0.LKeys?
  }

  /** A task that does not want the keys leaves their queue alone. */
  lemma KeysQueueStays(c: Config, s: System, a: Label, b: nat)
    requires GuardInv(s) && Enabled(s, a) && Actor(a) == Some(b) && b < |s.tasks| && !WantsKeys(s.tasks[b])
    ensures KeysQueueKept(s, Next(c, s, a))
  {
    assert b in s.queues.At(LKeys) ==> Waits(s, b, LKeys);
  }

  /** Nobody on the way of a lock that wants the cache wants the keys. */
  lemma CacheWayWantsNoKeys(s: System, t: nat, b: nat)
    requires GuardInv(s) && t < |s.tasks| && b < |s.tasks| && OnTheWay(s, t, b) && Locking(s.tasks[t].pc) && Flushed(s.tasks[t].pc)
    ensures !WantsKeys(s.tasks[b])
  {
    assert TaskOk(s.tasks[t]) && TaskOk(s.tasks[b]);
    LockerWants(s.tasks[t]);
    if b != t {
      var m :| (m == LCache || Rank(m) > Rank(LCache)) && FirstAt(s, b, m);
      assert s.tasks[b].guards.At(m).Free? ==> b in s.queues.At(m) && Waits(s, b, m);
      if !s.tasks[b].guards.At(m).Free? && Wants(s.tasks[b].pc).Some? { AcquiresInOrder(s.tasks[b], m); }
    }
  }

  /** One step towards the end of the lock. */
  lemma ReturnStep(c: Config, s: System, t: nat, us: set<nat>) returns (a: Label)
    requires LockGoesOn(s, t, us)
    ensures Enabled(s, a) && Actor(a).Some?
    ensures LastStep(s, a, t) ==> Returned(s, Next(c, s, a), t, us)
    ensures !LastStep(s, a, t) ==> GoesOn(s, Next(c, s, a), t, us)
  {
    assert TaskOk(s.tasks[t]);
    LockerWants(s.tasks[t]);
    a := FindRunnable(s, t);
    var b := Actor(a).value;
    if b != t { LockerOnTheWay(s, t, us, b); }
    if Flushed(s.tasks[t].pc) {
      CacheWayWantsNoKeys(s, t, b);
      KeysQueueStays(c, s, a, b);
    }
    OnlyUnlocksReset(c, s, a);
    LockedStep(c, s, a);
    StepExtends(c, s, a);
    if b == t {
      OwnStep(c, s, a, t, us);
      if Flushed(Next(c, s, a).tasks[t].pc) || s.tasks[t].pc == AtLock(LockReturn) { EmptiedByStep(c, s, a, t, us); }
    } else {
      OthersStep(c, s, a, t, us);
    }
    if !LastStep(s, a, t) {
      forall u | u in us ensures Aside(Next(c, s, a), t, u) { StaysAside(c, s, a, t, u); }
    }
  }

  ghost predicate StandStill(s: System, s': System, us: set<nat>) {
    |s'.tasks| == |s.tasks| && forall u | u in us :: u < |s.tasks| && s'.tasks[u] == s.tasks[u]
  }

  /** What a finished lock leaves: an empty map, nobody with a guard for it, and the bystanders where they were. */
  ghost predicate Returned(s: System, s': System, t: nat, us: set<nat>) {
    && Sane(s') && s'.shared.locked && Continues(s, s') && t < |s.tasks|
    && |s'.trace| > |s.trace| && s'.trace[|s'.trace| - 1] == LockReturned(t, s.tasks[t].req)
    && StandStill(s, s', us) && s'.tasks[t].pc.Idle? && Emptied(s', t) && FlagKept(s, s', t)
  }

  ghost predicate GoesOn(s: System, s': System, t: nat, us: set<nat>) {
    && LockGoesOn(s', t, us) && Continues(s, s') && t < |s.tasks|
    && s'.tasks[t].req == s.tasks[t].req && StandStill(s, s', us) && FlagKept(s, s', t)
    && (Flushed(s.tasks[t].pc) ==> Flushed(s'.tasks[t].pc))
  }

  lemma ReturnedOn(s: System, s1: System, s2: System, t: nat, us: set<nat>)
    requires GoesOn(s, s1, t, us) && Returned(s1, s2, t, us)
    ensures Returned(s, s2, t, us)
  {
    ContinuesOn(s, s1, s2);
    if Flushed(s.tasks[t].pc) { QueueKeptOn(s, s1, s2); }
  }

  lemma QueueKeptOn(s: System, s1: System, s2: System)
    requires KeysQueueKept(s, s1) && KeysQueueKept(s1, s2)
    ensures KeysQueueKept(s, s2)
  {
  }

  lemma {:induction false} RunToReturn(c: Config, s: System, t: nat, us: set<nat>) returns (labels: seq<Label>)
    requires LockGoesOn(s, t, us)
    ensures Exec(c, s, labels).Some? && Returned(s, Exec(c, s, labels).value, t, us)
    decreases Work(s)
  {
    var a := ReturnStep(c, s, t, us);
    StepDoesWork(c, s, a);
    var s1 := Next(c, s, a);
    var rest: seq<Label> := [];
    if !LastStep(s, a, t) {
      rest := RunToReturn(c, s1, t, us);
      ReturnedOn(s, s1, Exec(c, s1, rest).value, t, us);
    }
    ExecFirst(c, s, a, rest);
    labels := [a] + rest;
  }
}
