/**
 Why the agent never deadlocks and why every request finishes: locks are taken in one global order, no task
 asks for a lock it holds, and every step of a task uses up some of a bounded amount of work.
 */
module AgentProgress {
  import opened Common
  import opened AncestorWalk
  import opened AgentMachine
  import opened AgentGuards

  // ---------------------------------------------------------------------------
  // Deadlock freedom
  // ---------------------------------------------------------------------------

  /** The global order in which locks are taken. */
  function Rank(l: Lock): nat {
    match l
    case LLocked => 0
    case LPass => 1
    case LKeys => 2
    case LIdle | LCache | LActivity => 3
  }

  /** Every task asks only for locks above all the locks it holds; in particular it never asks twice. */
  lemma AcquiresInOrder(k: Task, held: Lock)
    requires TaskOk(k) && Wants(k.pc).Some? && !k.guards.At(held).Free?
    ensures Rank(held) < Rank(Wants(k.pc).value.0)
  {
  }

  /** The task a step belongs to; time, the process table and new requests belong to none. */
  function Actor(a: Label): Option<nat> {
    match a
    case Enqueue(t) => Some(t)
    case Acquire(t) => Some(t)
    case Local(t, _) => Some(t)
    case _ => None
  }

  ghost predicate CanProgress(s: System, a: Label) {
    Actor(a).Some? && Enabled(s, a)
  }

  ghost predicate Blocks(s: System, u: nat, l: Lock, h: Hold) {
    u < |s.tasks| && !s.tasks[u].guards.At(l).Free? && !(h.Read? && s.tasks[u].guards.At(l).Read?)
  }

  /** Task `b` heads the queue of `m` or holds it. */
  ghost predicate FirstAt(s: System, b: nat, m: Lock)
    requires b < |s.tasks|
  {
    (s.queues.At(m) != [] && s.queues.At(m)[0] == b) || !s.tasks[b].guards.At(m).Free?
  }

  /** Task `b` stands on the way of someone who waits for `l`: it heads the queue of that lock or holds it, or it does
      so for a lock further up in the order. */
  ghost predicate Above(s: System, b: nat, l: Lock) {
    b < |s.tasks| && exists m :: (m == l || Rank(m) > Rank(l)) && FirstAt(s, b, m)
  }

  ghost predicate OnTheWay(s: System, t: nat, b: nat) {
    b == t || (t < |s.tasks| && Wants(s.tasks[t].pc).Some? && Above(s, b, Wants(s.tasks[t].pc).value.0))
  }

  /** Following the chain of holders from any unfinished task leads to a task that can move. */
  lemma {:induction false} FindRunnable(s: System, t: nat) returns (a: Label)
    requires GuardInv(s) && t < |s.tasks| && !s.tasks[t].pc.Idle?
    ensures CanProgress(s, a) && OnTheWay(s, t, Actor(a).value)
    decreases if Wants(s.tasks[t].pc).None? then 0 else 4 - Rank(Wants(s.tasks[t].pc).value.0)
  {
    if Wants(s.tasks[t].pc).None? {
      a := Local(t, Choice(true, map[]));
    } else {
      var (l, h) := Wants(s.tasks[t].pc).value;
      var q := s.queues.At(l);
      if t !in q {
        a := Enqueue(t);
      } else {
        var head := q[0];
        assert head in q && Waits(s, head, l);
        var want := Wants(s.tasks[head].pc).value.1;
        if exists u: nat :: Blocks(s, u, l, want) {
          var u: nat :| Blocks(s, u, l, want);
          assert TaskOk(s.tasks[u]);
          assert !s.tasks[u].pc.Idle?;
          assert FirstAt(s, u, l);
          if Wants(s.tasks[u].pc).Some? {
            AcquiresInOrder(s.tasks[u], l);
          }
          a := FindRunnable(s, u);
        } else {
          assert Compatible(s, l, want) by {
            forall u | 0 <= u < |s.tasks|
              ensures s.tasks[u].guards.At(l).Free? || (want.Read? && s.tasks[u].guards.At(l).Read?)
            {
              assert !Blocks(s, u, l, want);
            }
          }
          assert FirstAt(s, head, l);
          a := Acquire(head);
        }
      }
    }
  }

  /** In every reachable state with an unfinished task some task can make a step. */
  lemma DeadlockFree(c: Config, s0: System, labels: seq<Label>, t: nat)
    requires Init(s0) && Exec(c, s0, labels).Some?
    requires t < |Exec(c, s0, labels).value.tasks| && !Exec(c, s0, labels).value.tasks[t].pc.Idle?
    ensures exists a :: CanProgress(Exec(c, s0, labels).value, a)
  {
    GuardsAlwaysHold(c, s0, labels);
    var a := FindRunnable(Exec(c, s0, labels).value, t);
  }

  // ---------------------------------------------------------------------------
  // Every request finishes
  // ---------------------------------------------------------------------------

  /** A bound on the program points a request still has to pass. */
  function Remaining(pc: Pc): nat {
    match pc
    case Idle => 0
    case AtCheck(c) => if c.CheckAcquire? then 26 else 25
    case AtEnsure(e) => RemainingInEnsure(e)
    case ListAcquire => 2
    case ListRead => 1
    case ActivityAcquire => 13
    case ActivityStore => 12
    case OpenEnvelope => 10
    case AtAuth(a) => RemainingInAuth(a)
    case AtSign(SignAcquire) => 11
    case AtSign(SignLookup) => 10
    case AtSign(SignUse) => 2
    case AtSign(SignRelease) => 1
    case AtEdit(AddSave) => 16
    case AtEdit(AddAcquire) => 15
    case AtEdit(AddStore) => 14
    case AtEdit(AddRelease) => 1
    case AtEdit(RemoveSave) => 3
    case AtEdit(RemoveAcquire) => 2
    case AtEdit(RemoveStore) => 1
    case AtLock(l) => RemainingInLock(l)
    case AtUnlock(u) => RemainingInUnlock(u)
    case AtSweep(w) => RemainingInSweep(w)
  }

  function RemainingInEnsure(e: EnsurePc): nat {
    match e
    case EnsureAcquire => 24
    case EnsureTest => 23
    case EnsureFlagAcquire => 22
    case EnsureFlagRead => 21
    case EnsureLoad => 20
    case StoreAcquire => 19
    case StoreKeys => 18
    case StoreFlagAcquire => 17
    case StoreFlag => 16
    case StoreFlagRelease => 15
    case StoreRelease => 14
  }

  function RemainingInAuth(a: AuthPc): nat {
    match a
    case FindContext => 9
    case HitAcquire => 8
    case HitRead => 7
    case TouchToGrant => 6
    case GrantAcquire => 5
    case GrantStore => 4
    case TouchOnly => 4
    case Approve => 3
  }

  function RemainingInLock(l: LockPc): nat {
    match l
    case LockAcquire => 12
    case LockTest => 11
    case LockPassAcquire => 10
    case LockPassStore => 9
    case LockKeysAcquire => 8
    case LockKeysClear => 7
    case LockCacheAcquire => 6
    case LockCacheClear => 5
    case LockCacheRelease => 4
    case LockKeysRelease => 3
    case LockPassRelease => 2
    case LockReturn => 1
  }

  function RemainingInUnlock(u: UnlockPc): nat {
    match u
    case UnlockAcquire => 12
    case UnlockTest => 11
    case UnlockPassAcquire => 10
    case UnlockCompare => 9
    case UnlockOpen => 8
    case UnlockWipeAcquire => 7
    case UnlockWipe => 6
    case UnlockLoad => 5
    case UnlockKeysAcquire => 4
    case UnlockKeysStore => 3
    case UnlockPassRelease => 2
    case UnlockReturn => 1
  }

  function RemainingInSweep(w: SweepPc): nat {
    match w
    case SweepAcquire => 9
    case SweepRead => 8
    case SweepElapsed => 7
    case SweepKeysAcquire => 6
    case SweepKeys => 5
    case SweepFlagAcquire => 4
    case SweepFlag => 3
    case SweepFlagRelease => 2
    case SweepKeysRelease => 1
    case CacheAcquire => 2
    case CacheStore => 1
  }

  lemma CheckShrinks(t: nat, sh: Shared, k: Task)
    requires TaskOk(k) && k.pc.AtCheck? && Wants(k.pc).None?
    ensures Remaining(CheckEffect(t, sh, k).task.pc) < Remaining(k.pc)
  {
    match k.pc.c
    case CheckRead =>
  }

  lemma EnsureShrinks(t: nat, sh: Shared, k: Task, ch: Choice)
    requires TaskOk(k) && k.pc.AtEnsure? && Wants(k.pc).None?
    ensures Remaining(EnsureEffect(t, sh, k, k.pc.e, ch).task.pc) < Remaining(k.pc)
  {
    match k.pc.e
    case EnsureTest =>
    case EnsureFlagRead =>
    case EnsureLoad =>
    case StoreKeys =>
    case StoreFlag =>
    case StoreFlagRelease =>
    case StoreRelease =>
  }

  lemma AuthShrinks(c: Config, now: nat, procs: ProcessTable, t: nat, sh: Shared, k: Task, ch: Choice)
    requires TaskOk(k) && k.pc.AtAuth? && Wants(k.pc).None?
    ensures Remaining(AuthEffect(c, now, procs, t, sh, k, k.pc.a, ch).task.pc) < Remaining(k.pc)
  {
    match k.pc.a
    case FindContext =>
    case HitRead =>
    case TouchToGrant =>
    case GrantStore =>
    case TouchOnly =>
    case Approve =>
  }

  lemma LockShrinks(t: nat, sh: Shared, k: Task, hash: Digest)
    requires TaskOk(k) && k.pc.AtLock? && Wants(k.pc).None?
    ensures Remaining(LockEffect(t, sh, k, k.pc.l, hash).task.pc) < Remaining(k.pc)
  {
    match k.pc.l
    case LockTest =>
    case LockPassStore =>
    case LockKeysClear =>
    case LockCacheClear =>
    case LockCacheRelease =>
    case LockKeysRelease =>
    case LockPassRelease =>
    case LockReturn =>
  }

  lemma UnlockShrinks(t: nat, sh: Shared, k: Task, candidate: Digest, ch: Choice)
    requires TaskOk(k) && k.pc.AtUnlock? && Wants(k.pc).None?
    ensures Remaining(UnlockEffect(t, sh, k, k.pc.u, candidate, ch).task.pc) < Remaining(k.pc)
  {
    match k.pc.u
    case UnlockTest =>
    case UnlockCompare =>
    case UnlockOpen =>
    case UnlockWipe =>
    case UnlockLoad =>
    case UnlockKeysStore =>
    case UnlockPassRelease =>
    case UnlockReturn =>
  }

  lemma SweepShrinks(c: Config, now: nat, t: nat, sh: Shared, k: Task)
    requires TaskOk(k) && k.pc.AtSweep? && Wants(k.pc).None?
    ensures Remaining(SweepEffect(c, now, t, sh, k, k.pc.w).task.pc) < Remaining(k.pc)
  {
    match k.pc.w
    case SweepRead =>
    case SweepElapsed =>
    case SweepKeys =>
    case SweepFlag =>
    case SweepFlagRelease =>
    case SweepKeysRelease =>
    case CacheStore =>
  }

  /** Every stretch of code brings its request closer to its end. */
  lemma LocalShrinks(c: Config, now: nat, procs: ProcessTable, t: nat, sh: Shared, k: Task, ch: Choice)
    requires TaskOk(k) && !k.pc.Idle? && Wants(k.pc).None?
    ensures Remaining(LocalEffect(c, now, procs, t, sh, k, ch).task.pc) < Remaining(k.pc)
  {
    match k.pc
    case AtCheck(_) => CheckShrinks(t, sh, k);
    case AtEnsure(_) => EnsureShrinks(t, sh, k, ch);
    case AtAuth(_) => AuthShrinks(c, now, procs, t, sh, k, ch);
    case AtLock(_) => LockShrinks(t, sh, k, if k.op.LockAgent? then k.op.hash else []);
    case AtUnlock(_) => UnlockShrinks(t, sh, k, if k.op.UnlockAgent? then k.op.hash else [], ch);
    case AtSweep(_) => SweepShrinks(c, now, t, sh, k);
    case _ =>
  }

  lemma AcquireShrinks(pc: Pc)
    requires Wants(pc).Some?
    ensures Remaining(AfterAcquire(pc)) < Remaining(pc)
  {
  }

  predicate Queued(s: System, t: nat)
    requires t < |s.tasks|
  {
    Wants(s.tasks[t].pc).Some? && t in s.queues.At(Wants(s.tasks[t].pc).value.0)
  }

  /** Passing a program point costs two, having queued for a guard is worth one of them. */
  function Cost(s: System, t: nat): nat
    requires t < |s.tasks|
  {
    var r := 2 * Remaining(s.tasks[t].pc);
    if Queued(s, t) && r > 0 then r - 1 else r
  }

  function Sum(xs: seq<nat>): nat {
    if xs == [] then 0 else Sum(xs[..|xs| - 1]) + xs[|xs| - 1]
  }

  /** The work that is left, over all tasks. */
  function Work(s: System): nat {
    Sum(seq(|s.tasks|, t requires 0 <= t < |s.tasks| => Cost(s, t)))
  }

  lemma {:induction false} SumDrops(xs: seq<nat>, ys: seq<nat>, t: nat)
    requires |xs| == |ys| && t < |xs| && ys[t] < xs[t]
    requires forall u | 0 <= u < |xs| && u != t :: ys[u] == xs[u]
    ensures Sum(ys) < Sum(xs)
  {
    var n := |xs| - 1;
    if t < n {
      SumDrops(xs[..n], ys[..n], t);
    } else {
      assert xs[..n] == ys[..n];
    }
  }

  lemma StepCosts(c: Config, s: System, a: Label, t: nat)
    requires GuardInv(s) && Enabled(s, a) && Actor(a) == Some(t)
    ensures t < |s.tasks| == |Next(c, s, a).tasks|
    ensures forall u | 0 <= u < |s.tasks| && u != t :: Cost(Next(c, s, a), u) == Cost(s, u)
    ensures Cost(Next(c, s, a), t) < Cost(s, t)
  {
    var s' := Next(c, s, a);
    var k := s.tasks[t];
    assert TaskOk(k);
    match a
    case Local(_, ch) =>
      LocalShrinks(c, s.now, s.procs, t, s.shared, k, ch);
    case Enqueue(_) =>
      var l := Wants(k.pc).value.0;
      AcquireShrinks(k.pc);
      forall u: nat | u < |s.tasks| && Wants(s.tasks[u].pc).Some?
        ensures Queued(s', u) == (Queued(s, u) || u == t)
      {
        WithAt(s.queues, l, s.queues.At(l) + [t], Wants(s.tasks[u].pc).value.0);
        assert u == t ==> Wants(s.tasks[u].pc).value.0 == l;
      }
    case Acquire(_) =>
      var l := Wants(k.pc).value.0;
      var rest := s.queues.At(l)[1..];
      AcquireShrinks(k.pc);
      assert s.queues.At(l) == [t] + rest;
      forall u: nat | u < |s.tasks| && u != t && Wants(s.tasks[u].pc).Some?
        ensures Queued(s', u) == Queued(s, u)
      {
        WithAt(s.queues, l, rest, Wants(s.tasks[u].pc).value.0);
      }
  }

  /** A task step lowers the work that is left, whichever task makes it and whatever the world answers. */
  lemma StepDoesWork(c: Config, s: System, a: Label)
    requires GuardInv(s) && Enabled(s, a) && Actor(a).Some?
    ensures |Next(c, s, a).tasks| == |s.tasks| && Work(Next(c, s, a)) < Work(s)
  {
    var t := Actor(a).value;
    var s' := Next(c, s, a);
    StepCosts(c, s, a, t);
    SumDrops(seq(|s.tasks|, u requires 0 <= u < |s.tasks| => Cost(s, u)),
             seq(|s'.tasks|, u requires 0 <= u < |s'.tasks| => Cost(s', u)), t);
  }

  /** As long as no new request arrives, no schedule is longer than the work that was left at its start. */
  lemma {:induction false} RunsAreBounded(c: Config, s: System, labels: seq<Label>)
    requires GuardInv(s) && Exec(c, s, labels).Some?
    requires forall i | 0 <= i < |labels| :: Actor(labels[i]).Some?
    ensures var s' := Exec(c, s, labels).value;
      GuardInv(s') && |s'.tasks| == |s.tasks| && |labels| + Work(s') <= Work(s)
  {
    if labels != [] {
      var n := |labels| - 1;
      RunsAreBounded(c, s, labels[..n]);
      var before := Exec(c, s, labels[..n]).value;
      NextKeepsGuards(c, before, labels[n]);
      StepDoesWork(c, before, labels[n]);
    }
  }

  /** And a schedule that cannot be continued has finished every request. */
  lemma MaximalRunsFinish(c: Config, s0: System, labels: seq<Label>)
    requires Init(s0) && Exec(c, s0, labels).Some?
    requires forall a :: !CanProgress(Exec(c, s0, labels).value, a)
    ensures forall t | 0 <= t < |Exec(c, s0, labels).value.tasks| :: Exec(c, s0, labels).value.tasks[t].pc.Idle?
  {
    forall t | 0 <= t < |Exec(c, s0, labels).value.tasks|
      ensures Exec(c, s0, labels).value.tasks[t].pc.Idle?
    {
      if !Exec(c, s0, labels).value.tasks[t].pc.Idle? {
        DeadlockFree(c, s0, labels, t);
      }
    }
  }
}
