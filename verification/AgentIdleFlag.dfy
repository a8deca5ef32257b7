/**
 The idle flag under fine interleaving: whenever nobody holds the keys for writing, the flag says exactly
 whether the idle sweeper has emptied the key map and `ensure_keys_loaded` has not reloaded it since. The reload
 of an unlock does not count: it fills the map and leaves the flag up.
 */
module AgentIdleFlag {
  import opened Common
  import opened AncestorWalk
  import opened AgentMachine
  import opened AgentGuards

  /** Has the sweeper emptied the map after the last reload by `ensure_keys_loaded`? */
  function IdleState(tr: Trace): bool {
    if tr == [] then false
    else
      match tr[|tr| - 1]
      case KeysIdled(_) => true
      case KeysReloaded(_) => false
      case _ => IdleState(tr[..|tr| - 1])
  }

  /** The sweeper emptied the map at event `i` and no reload by `ensure_keys_loaded` has followed. */
  ghost predicate EmptiedAt(tr: Trace, i: nat) {
    i < |tr| && tr[i].KeysIdled? && forall j | i < j < |tr| :: !tr[j].KeysReloaded?
  }

  lemma {:induction false} IdleStateMeaning(tr: Trace)
    ensures IdleState(tr) <==> exists i :: EmptiedAt(tr, i)
  {
    if tr != [] {
      var n := |tr| - 1;
      var init := tr[..n];
      IdleStateMeaning(init);
      if tr[n].KeysIdled? {
        assert EmptiedAt(tr, n);
      } else if !tr[n].KeysReloaded? {
        if i: nat :| EmptiedAt(init, i) {
          assert tr[i] == init[i];
          forall j | i < j < |tr| ensures !tr[j].KeysReloaded? { assert j < n ==> tr[j] == init[j]; }
          assert EmptiedAt(tr, i);
        }
        if i: nat :| EmptiedAt(tr, i) {
          assert init[i] == tr[i];
          forall j | i < j < |init| ensures !init[j].KeysReloaded? { assert tr[j] == init[j]; }
          assert EmptiedAt(init, i);
        }
      }
    }
  }

  lemma IdleStateStep(tr: Trace, e: Event)
    ensures IdleState(tr + [e]) == (if e.KeysIdled? then true else if e.KeysReloaded? then false else IdleState(tr))
  {
    assert (tr + [e])[..|tr|] == tr;
  }

  /** The map has been reloaded, the flag not yet taken down. */
  predicate Reloading(pc: Pc) {
    pc == AtEnsure(StoreFlagAcquire) || pc == AtEnsure(StoreFlag)
  }

  /** The map has been emptied, the flag not yet put up. */
  predicate Emptying(pc: Pc) {
    pc == AtSweep(SweepFlagAcquire) || pc == AtSweep(SweepFlag)
  }

  predicate FlagPending(pc: Pc) {
    Reloading(pc) || Emptying(pc)
  }

  predicate FlagTaskOk(tr: Trace, k: Task) {
    (Reloading(k.pc) ==> !IdleState(tr)) && (Emptying(k.pc) ==> IdleState(tr))
  }

  ghost predicate NonePending(s: System) {
    forall t | 0 <= t < |s.tasks| :: !FlagPending(s.tasks[t].pc)
  }

  ghost predicate FlagInv(s: System) {
    && (forall t | 0 <= t < |s.tasks| :: FlagTaskOk(s.trace, s.tasks[t]))
    && (NonePending(s) ==> s.shared.idleCleared == IdleState(s.trace))
  }

  /** What one stretch of code does to the flag and to what the flag should be. */
  predicate FlagStepOk(tr: Trace, sh: Shared, k: Task, e: Effect) {
    && FlagTaskOk(Recorded(tr, e.event), e.task)
    && (!FlagPending(e.task.pc) && (FlagPending(k.pc) || sh.idleCleared == IdleState(tr)) ==>
          e.shared.idleCleared == IdleState(Recorded(tr, e.event)))
    && (e.event.Some? && (e.event.value.KeysIdled? || e.event.value.KeysReloaded?) ==> k.guards.keys.Write?)
  }

  /** Most code neither touches the flag nor the reason for it. */
  predicate FlagElsewhere(sh: Shared, e: Effect) {
    && e.shared.idleCleared == sh.idleCleared
    && !FlagPending(e.task.pc)
    && (e.event.Some? ==> !e.event.value.KeysIdled? && !e.event.value.KeysReloaded?)
  }

  lemma ElsewhereIsOk(tr: Trace, sh: Shared, k: Task, e: Effect)
    requires FlagElsewhere(sh, e) && !FlagPending(k.pc)
    ensures FlagStepOk(tr, sh, k, e)
  {
    if e.event.Some? { IdleStateStep(tr, e.event.value); }
  }

  lemma CheckFlag(t: nat, sh: Shared, k: Task)
    requires k.pc.AtCheck? && Wants(k.pc).None?
    ensures FlagElsewhere(sh, CheckEffect(t, sh, k))
  {
  }

  lemma EnsureFlag(tr: Trace, t: nat, sh: Shared, k: Task, ch: Choice)
    requires TaskOk(k) && k.pc.AtEnsure? && Wants(k.pc).None? && FlagTaskOk(tr, k)
    ensures FlagStepOk(tr, sh, k, EnsureEffect(t, sh, k, k.pc.e, ch))
  {
    if EnsureEffect(t, sh, k, k.pc.e, ch).event.Some? { IdleStateStep(tr, EnsureEffect(t, sh, k, k.pc.e, ch).event.value); }
    match k.pc.e
    case EnsureTest =>
    case EnsureFlagRead =>
    case EnsureLoad =>
    case StoreKeys =>
    case StoreFlag =>
    case StoreFlagRelease =>
    case StoreRelease =>
  }

  lemma AuthFlag(c: Config, now: nat, procs: ProcessTable, t: nat, sh: Shared, k: Task, ch: Choice)
    requires k.pc.AtAuth? && Wants(k.pc).None?
    ensures FlagElsewhere(sh, AuthEffect(c, now, procs, t, sh, k, k.pc.a, ch))
  {
    match k.pc.a
    case FindContext =>
    case HitRead =>
    case TouchToGrant =>
    case GrantStore =>
    case TouchOnly =>
    case Approve =>
  }

  lemma LockFlag(t: nat, sh: Shared, k: Task, hash: Digest)
    requires k.pc.AtLock? && Wants(k.pc).None?
    ensures FlagElsewhere(sh, LockEffect(t, sh, k, k.pc.l, hash))
  {
    match k.pc.l
    case LockTest =>
    case LockPassStore =>
    case LockKeysClear =>
    case LockCacheClear =>
    case LockCacheRelease =>
    case LockKeysRelease =>
    case LockPassRelease =>
    case LockReturn =>
  }

  lemma UnlockFlag(t: nat, sh: Shared, k: Task, candidate: Digest, ch: Choice)
    requires k.pc.AtUnlock? && Wants(k.pc).None?
    ensures FlagElsewhere(sh, UnlockEffect(t, sh, k, k.pc.u, candidate, ch))
  {
    match k.pc.u
    case UnlockTest =>
    case UnlockCompare =>
    case UnlockOpen =>
    case UnlockWipe =>
    case UnlockLoad =>
    case UnlockKeysStore =>
    case UnlockPassRelease =>
    case UnlockReturn =>
  }

  lemma SweepFlagCode(c: Config, now: nat, tr: Trace, t: nat, sh: Shared, k: Task)
    requires TaskOk(k) && k.pc.AtSweep? && Wants(k.pc).None? && FlagTaskOk(tr, k)
    ensures FlagStepOk(tr, sh, k, SweepEffect(c, now, t, sh, k, k.pc.w))
  {
    if SweepEffect(c, now, t, sh, k, k.pc.w).event.Some? { IdleStateStep(tr, SweepEffect(c, now, t, sh, k, k.pc.w).event.value); }
    match k.pc.w
    case SweepRead =>
    case SweepElapsed =>
    case SweepKeys =>
    case SweepFlag =>
    case SweepFlagRelease =>
    case SweepKeysRelease =>
    case CacheStore =>
  }

  lemma LocalFlag(c: Config, now: nat, procs: ProcessTable, tr: Trace, t: nat, sh: Shared, k: Task, ch: Choice)
    requires TaskOk(k) && !k.pc.Idle? && Wants(k.pc).None? && FlagTaskOk(tr, k)
    ensures FlagStepOk(tr, sh, k, LocalEffect(c, now, procs, t, sh, k, ch))
  {
    var e := LocalEffect(c, now, procs, t, sh, k, ch);
    match k.pc
    case AtCheck(_) => CheckFlag(t, sh, k); ElsewhereIsOk(tr, sh, k, e);
    case AtEnsure(_) => EnsureFlag(tr, t, sh, k, ch);
    case AtAuth(_) => AuthFlag(c, now, procs, t, sh, k, ch); ElsewhereIsOk(tr, sh, k, e);
    case AtLock(_) => LockFlag(t, sh, k, if k.op.LockAgent? then k.op.hash else []); ElsewhereIsOk(tr, sh, k, e);
    case AtUnlock(_) => UnlockFlag(t, sh, k, if k.op.UnlockAgent? then k.op.hash else [], ch); ElsewhereIsOk(tr, sh, k, e);
    case AtSweep(_) => SweepFlagCode(c, now, tr, t, sh, k);
    case _ => ElsewhereIsOk(tr, sh, k, e);
  }

  /** Other tasks that wait to set the flag are not overtaken: they hold the keys for writing. */
  lemma OthersKeepFlag(s: System, t: nat, u: nat, e: Event)
    requires GuardInv(s) && t < |s.tasks| && u < |s.tasks| && u != t && FlagTaskOk(s.trace, s.tasks[u])
    requires e.KeysIdled? || e.KeysReloaded? ==> s.tasks[t].guards.keys.Write?
    ensures FlagTaskOk(s.trace + [e], s.tasks[u])
  {
    IdleStateStep(s.trace, e);
    assert TaskOk(s.tasks[u]);
    if s.tasks[t].guards.keys.Write? {
      assert s.tasks[t].guards.At(LKeys).Write?;
      assert s.tasks[u].guards.At(LKeys).Free?;
    }
  }

  lemma LocalKeepsFlag(c: Config, s: System, t: nat, ch: Choice)
    requires GuardInv(s) && FlagInv(s) && Enabled(s, Local(t, ch))
    ensures FlagInv(Next(c, s, Local(t, ch)))
  {
    var k := s.tasks[t];
    var s' := Next(c, s, Local(t, ch));
    assert TaskOk(k) && FlagTaskOk(s.trace, k);
    var e := LocalEffect(c, s.now, s.procs, t, s.shared, k, ch);
    LocalFlag(c, s.now, s.procs, s.trace, t, s.shared, k, ch);
    forall u | 0 <= u < |s'.tasks| ensures FlagTaskOk(s'.trace, s'.tasks[u]) {
      if u != t && e.event.Some? { OthersKeepFlag(s, t, u, e.event.value); }
    }
    if NonePending(s') {
      assert !FlagPending(s'.tasks[t].pc);
      assert FlagPending(k.pc) || NonePending(s) by {
        forall u | 0 <= u < |s.tasks| && u != t ensures !FlagPending(s.tasks[u].pc) {
          assert s'.tasks[u] == s.tasks[u];
        }
      }
    }
  }

  /** A step that leaves the flag, its reason and every pending task alone. */
  lemma QuietKeepsFlag(s: System, s': System, t: nat)
    requires FlagInv(s) && t < |s.tasks| == |s'.tasks| && s'.tasks == s.tasks[t := s'.tasks[t]]
    requires s'.shared == s.shared && IdleState(s'.trace) == IdleState(s.trace)
    requires Reloading(s'.tasks[t].pc) == Reloading(s.tasks[t].pc) && Emptying(s'.tasks[t].pc) == Emptying(s.tasks[t].pc)
    ensures FlagInv(s')
  {
    assert FlagTaskOk(s.trace, s.tasks[t]);
    if NonePending(s') {
      forall u | 0 <= u < |s.tasks| ensures !FlagPending(s.tasks[u].pc) {
        assert !FlagPending(s'.tasks[u].pc);
      }
    }
  }

  lemma AcquireKeepsFlag(c: Config, s: System, t: nat)
    requires FlagInv(s) && Enabled(s, Acquire(t))
    ensures FlagInv(Next(c, s, Acquire(t)))
  {
    var pc := s.tasks[t].pc;
    assert Reloading(AfterAcquire(pc)) == Reloading(pc) && Emptying(AfterAcquire(pc)) == Emptying(pc);
    QuietKeepsFlag(s, Next(c, s, Acquire(t)), t);
  }

  lemma ArriveKeepsFlag(c: Config, s: System, t: nat, op: Op)
    requires FlagInv(s) && Enabled(s, Arrive(t, op))
    ensures FlagInv(Next(c, s, Arrive(t, op)))
  {
    IdleStateStep(s.trace, Arrived(t, op, s.tasks[t].peer));
    QuietKeepsFlag(s, Next(c, s, Arrive(t, op)), t);
  }

  lemma NextKeepsFlag(c: Config, s: System, a: Label)
    requires GuardInv(s) && FlagInv(s) && Enabled(s, a)
    ensures FlagInv(Next(c, s, a))
  {
    match a
    case Tick(_) => assert NonePending(Next(c, s, a)) == NonePending(s);
    case ProcessesChange(_) => assert NonePending(Next(c, s, a)) == NonePending(s);
    case Enqueue(_) => assert NonePending(Next(c, s, a)) == NonePending(s);
    case Acquire(t) => AcquireKeepsFlag(c, s, t);
    case Arrive(t, op) => ArriveKeepsFlag(c, s, t, op);
    case Local(t, ch) => LocalKeepsFlag(c, s, t, ch);
  }

  lemma {:induction false} FlagAlwaysHolds(c: Config, s0: System, labels: seq<Label>)
    requires Init(s0) && Exec(c, s0, labels).Some?
    ensures FlagInv(Exec(c, s0, labels).value)
  {
    if labels != [] {
      var before := labels[..|labels| - 1];
      FlagAlwaysHolds(c, s0, before);
      GuardsAlwaysHold(c, s0, before);
      NextKeepsFlag(c, Exec(c, s0, before).value, labels[|labels| - 1]);
    }
  }

  /** Whenever nobody holds the keys for writing, the flag is up if and only if the sweeper has emptied the
      map and `ensure_keys_loaded` has not reloaded it since. */
  lemma IdleFlagIsExact(c: Config, s0: System, labels: seq<Label>)
    requires Init(s0) && Exec(c, s0, labels).Some?
    requires forall t | 0 <= t < |Exec(c, s0, labels).value.tasks| ::
      !Exec(c, s0, labels).value.tasks[t].guards.keys.Write?
    ensures var s := Exec(c, s0, labels).value;
      s.shared.idleCleared <==> exists i :: EmptiedAt(s.trace, i)
  {
    var s := Exec(c, s0, labels).value;
    GuardsAlwaysHold(c, s0, labels);
    FlagAlwaysHolds(c, s0, labels);
    IdleStateMeaning(s.trace);
    forall t | 0 <= t < |s.tasks| ensures !FlagPending(s.tasks[t].pc) {
      assert TaskOk(s.tasks[t]);
    }
  }

  /** An unlock that refills the map leaves the flag as it is: it stays up if the sweeper had emptied the map and
      only unlocks have refilled it since. */
  lemma UnlockReloadLeavesFlag(c: Config, s0: System, labels: seq<Label>, t: nat, ch: Choice)
    requires Init(s0) && Exec(c, s0, labels).Some? && Enabled(Exec(c, s0, labels).value, Local(t, ch))
    requires Exec(c, s0, labels).value.tasks[t].pc == AtUnlock(UnlockKeysStore)
    ensures var s := Exec(c, s0, labels).value;
      var s' := Next(c, s, Local(t, ch));
      && s'.shared.keys == s.tasks[t].loaded && s'.trace == s.trace + [KeysRestored(t, s.tasks[t].req)]
      && s'.shared.idleCleared == s.shared.idleCleared
      && (s'.shared.idleCleared <==> exists i :: EmptiedAt(s'.trace, i))
  {
    var s := Exec(c, s0, labels).value;
    GuardsAlwaysHold(c, s0, labels);
    FlagAlwaysHolds(c, s0, labels);
    NobodyPendingBeside(s, t);
    IdleStateStep(s.trace, KeysRestored(t, s.tasks[t].req));
    IdleStateMeaning(s.trace + [KeysRestored(t, s.tasks[t].req)]);
  }

  lemma NobodyPendingBeside(s: System, t: nat)
    requires GuardInv(s) && t < |s.tasks| && s.tasks[t].pc == AtUnlock(UnlockKeysStore)
    ensures NonePending(s)
  {
    assert TaskOk(s.tasks[t]);
    assert s.tasks[t].guards.At(LKeys).Write?;
    forall u | 0 <= u < |s.tasks| ensures !FlagPending(s.tasks[u].pc) {
      assert TaskOk(s.tasks[u]);
      if u != t { assert s.tasks[u].guards.At(LKeys).Free?; }
    }
  }
}
