/**
 The lock protocol under fine interleaving: what `locked` and the lock passphrase mean, and that a locked
 agent lets no request past its check until the passphrase of the matching lock is given back.
 */
module AgentLockProtocol {
  import opened Common
  import opened AncestorWalk
  import opened AgentMachine
  import opened AgentGuards
  import opened AgentDiscipline

  /** The hash the agent is locked with, if it is locked. */
  function LockState(tr: Trace): Option<Digest> {
    if tr == [] then None
    else
      match tr[|tr| - 1]
      case LockSet(_, _, hash) => Some(hash)
      case LockReset(_, _, _) => None
      case _ => LockState(tr[..|tr| - 1])
  }

  function LockStep(before: Option<Digest>, e: Event): Option<Digest> {
    if e.LockSet? then Some(e.hash) else if e.LockReset? then None else before
  }

  lemma LockStateStep(tr: Trace, e: Event)
    ensures LockState(tr + [e]) == LockStep(LockState(tr), e)
  {
    assert (tr + [e])[..|tr|] == tr;
  }

  ghost predicate StartedBefore(tr: Trace, t: nat, req: nat) {
    exists j | 0 <= j < |tr| :: tr[j] == Started(t, req)
  }

  ghost predicate EventOk(past: Trace, e: Event) {
    match e
    case Started(_, _) => LockState(past).None?
    case LockSet(_, _, _) => LockState(past).None?
    case LockReset(_, _, hash) => LockState(past) == Some(hash)
    case Listed(t, req, _) => StartedBefore(past, t, req)
    case Added(t, req, _) => StartedBefore(past, t, req)
    case Touched(t, req, _) => StartedBefore(past, t, req)
    case Granted(t, req, _, _, _, _, _) => StartedBefore(past, t, req)
    case Approved(t, req) => StartedBefore(past, t, req)
    case Signed(t, req) => StartedBefore(past, t, req)
    case _ => true
  }

  ghost predicate TraceOk(tr: Trace) {
    forall i | 0 <= i < |tr| :: EventOk(tr[..i], tr[i])
  }

  predicate SettingPass(pc: Pc) {
    pc == AtLock(LockPassAcquire) || pc == AtLock(LockPassStore)
  }

  /** A lock request from the moment it has set the flag. */
  predicate Locking(pc: Pc) {
    pc.AtLock? && !pc.l.LockAcquire? && !pc.l.LockTest?
  }

  predicate WipingPass(pc: Pc) {
    pc == AtUnlock(UnlockWipeAcquire) || pc == AtUnlock(UnlockWipe)
  }

  /** The program points of an unlock after it has opened the lock. */
  predicate Opened(pc: Pc) {
    WipingPass(pc) || (pc.AtUnlock? && (pc.u.UnlockLoad? || pc.u.UnlockKeysAcquire? || pc.u.UnlockKeysStore?
                                        || pc.u.UnlockPassRelease? || pc.u.UnlockReturn?))
  }

  predicate CheckingPass(pc: Pc) {
    pc == AtUnlock(UnlockPassAcquire) || pc == AtUnlock(UnlockCompare) || pc == AtUnlock(UnlockOpen)
  }

  predicate PassPending(pc: Pc) {
    SettingPass(pc) || WipingPass(pc)
  }

  /** The program points a request reaches only through an open locked check. */
  predicate PastCheck(pc: Pc) {
    match pc
    case AtEnsure(_) | ListAcquire | ListRead | ActivityAcquire | ActivityStore | OpenEnvelope | AtAuth(_) | AtSign(_) => true
    case AtEdit(d) => d.AddSave? || d.AddAcquire? || d.AddStore? || d.AddRelease?
    case _ => false
  }

  ghost predicate LockTaskOk(sh: Shared, tr: Trace, t: nat, k: Task) {
    && (Locking(k.pc) ==> k.op.LockAgent? && LockState(tr) == Some(k.op.hash))
    && (CheckingPass(k.pc) ==> sh.locked)
    && (k.pc == AtUnlock(UnlockOpen) ==> k.op.UnlockAgent? && sh.pass == Some(k.op.hash))
    && (Opened(k.pc) ==> LockState(tr).None?)
    && (PastCheck(k.pc) ==> StartedBefore(tr, t, k.req))
  }

  ghost predicate NonePending(s: System) {
    forall t | 0 <= t < |s.tasks| :: !PassPending(s.tasks[t].pc)
  }

  ghost predicate LockInv(s: System) {
    && TraceOk(s.trace)
    && s.shared.locked == LockState(s.trace).Some?
    && (forall t | 0 <= t < |s.tasks| :: LockTaskOk(s.shared, s.trace, t, s.tasks[t]))
    && (NonePending(s) ==> s.shared.pass == LockState(s.trace))
  }

  lemma StartedBeforeStays(tr: Trace, e: Event, t: nat, req: nat)
    requires StartedBefore(tr, t, req)
    ensures StartedBefore(tr + [e], t, req)
  {
    var j :| 0 <= j < |tr| && tr[j] == Started(t, req);
    assert (tr + [e])[j] == Started(t, req);
  }

  lemma TraceExtends(tr: Trace, e: Event)
    requires TraceOk(tr) && EventOk(tr, e)
    ensures TraceOk(tr + [e])
  {
    forall i | 0 <= i < |tr + [e]| ensures EventOk((tr + [e])[..i], (tr + [e])[i]) {
      if i < |tr| {
        assert (tr + [e])[..i] == tr[..i];
      } else {
        assert (tr + [e])[..i] == tr;
      }
    }
  }

  // ---------------------------------------------------------------------------
  // One stretch of code
  // ---------------------------------------------------------------------------

  /** What it must establish; `alone` says that no other task has a passphrase update pending. */
  ghost predicate LockStepOk(tr: Trace, t: nat, sh: Shared, k: Task, alone: bool, e: Effect) {
    && (e.event.Some? ==> EventOk(tr, e.event.value))
    && e.shared.locked == LockState(Recorded(tr, e.event)).Some?
    && LockTaskOk(e.shared, Recorded(tr, e.event), t, e.task)
    && (alone && !PassPending(e.task.pc) ==> e.shared.pass == LockState(Recorded(tr, e.event)))
  }

  ghost predicate LockBefore(tr: Trace, t: nat, sh: Shared, k: Task, alone: bool) {
    && TaskOk(k) && Wants(k.pc).None? && !k.pc.Idle?
    && sh.locked == LockState(tr).Some?
    && LockTaskOk(sh, tr, t, k)
    && (alone && !PassPending(k.pc) ==> sh.pass == LockState(tr))
    && (k.guards.locked.Write? ==> alone)
  }

  /** An event that neither sets, resets nor starts; work is only recorded past the check. */
  predicate EventElsewhere(t: nat, k: Task, e: Event) {
    match e
    case Started(_, _) | LockSet(_, _, _) | LockReset(_, _, _) => false
    case Listed(u, req, _) => PastCheck(k.pc) && u == t && req == k.req
    case Added(u, req, _) => PastCheck(k.pc) && u == t && req == k.req
    case Touched(u, req, _) => PastCheck(k.pc) && u == t && req == k.req
    case Granted(u, req, _, _, _, _, _) => PastCheck(k.pc) && u == t && req == k.req
    case Approved(u, req) => PastCheck(k.pc) && u == t && req == k.req
    case Signed(u, req) => PastCheck(k.pc) && u == t && req == k.req
    case _ => true
  }

  /** Code that neither sets nor resets the lock nor opens the locked check. */
  predicate LockElsewhere(t: nat, sh: Shared, k: Task, e: Effect) {
    && e.shared.locked == sh.locked && e.shared.pass == sh.pass
    && e.task.req == k.req && e.task.op == k.op && !PassPending(k.pc) && !PassPending(e.task.pc) && !CheckingPass(e.task.pc)
    && (Locking(e.task.pc) ==> Locking(k.pc))
    && (Opened(e.task.pc) ==> Opened(k.pc))
    && (PastCheck(e.task.pc) ==> PastCheck(k.pc))
    && (e.event.Some? ==> EventElsewhere(t, k, e.event.value))
  }

  lemma ElsewhereIsOk(tr: Trace, t: nat, sh: Shared, k: Task, alone: bool, e: Effect)
    requires LockBefore(tr, t, sh, k, alone) && LockElsewhere(t, sh, k, e)
    ensures LockStepOk(tr, t, sh, k, alone, e)
  {
    if e.event.Some? {
      LockStateStep(tr, e.event.value);
      if PastCheck(k.pc) { StartedBeforeStays(tr, e.event.value, t, k.req); }
    }
  }

  lemma EnsureLocking(t: nat, sh: Shared, k: Task, ch: Choice)
    requires k.pc.AtEnsure? && Wants(k.pc).None?
    ensures LockElsewhere(t, sh, k, EnsureEffect(t, sh, k, k.pc.e, ch))
  {
    match k.pc.e
    case EnsureTest =>
    case EnsureFlagRead =>
    case EnsureLoad =>
    case StoreKeys =>
    case StoreFlag =>
    case StoreFlagRelease =>
    case StoreRelease =>
  }

  lemma AuthLocking(c: Config, now: nat, procs: ProcessTable, t: nat, sh: Shared, k: Task, ch: Choice)
    requires k.pc.AtAuth? && Wants(k.pc).None?
    ensures LockElsewhere(t, sh, k, AuthEffect(c, now, procs, t, sh, k, k.pc.a, ch))
  {
    match k.pc.a
    case FindContext =>
    case HitRead =>
    case TouchToGrant =>
    case GrantStore =>
    case TouchOnly =>
    case Approve =>
  }

  lemma SignLocking(t: nat, sh: Shared, k: Task)
    requires k.pc.AtSign? && Wants(k.pc).None?
    ensures LockElsewhere(t, sh, k, SignEffect(t, sh, k, k.pc.s))
  {
  }

  lemma EditLocking(t: nat, sh: Shared, k: Task, ch: Choice)
    requires k.pc.AtEdit? && Wants(k.pc).None?
    ensures LockElsewhere(t, sh, k, EditEffect(t, sh, k, k.pc.d, ch))
  {
    match k.pc.d
    case AddSave =>
    case AddStore =>
    case AddRelease =>
    case RemoveSave =>
    case RemoveStore =>
  }

  lemma SweepLocking(c: Config, now: nat, t: nat, sh: Shared, k: Task)
    requires k.pc.AtSweep? && Wants(k.pc).None?
    ensures LockElsewhere(t, sh, k, SweepEffect(c, now, t, sh, k, k.pc.w))
  {
    match k.pc.w
    case SweepRead =>
    case SweepElapsed =>
    case SweepKeys =>
    case SweepFlag =>
    case SweepFlagRelease =>
    case SweepKeysRelease =>
    case CacheStore =>
  }

  lemma CheckRefuses(t: nat, sh: Shared, k: Task)
    requires k.pc == AtCheck(CheckRead) && sh.locked
    ensures LockElsewhere(t, sh, k, CheckEffect(t, sh, k))
  {
  }

  lemma CheckStarts(t: nat, sh: Shared, k: Task)
    requires k.pc == AtCheck(CheckRead) && !sh.locked
    ensures var e := CheckEffect(t, sh, k);
      && e.shared == sh && e.event == Some(Started(t, k.req)) && e.task.req == k.req
      && !PassPending(e.task.pc) && !CheckingPass(e.task.pc) && !Locking(e.task.pc) && !Opened(e.task.pc)
  {
  }

  lemma CheckLocking(tr: Trace, t: nat, sh: Shared, k: Task, alone: bool)
    requires LockBefore(tr, t, sh, k, alone) && k.pc.AtCheck?
    ensures LockStepOk(tr, t, sh, k, alone, CheckEffect(t, sh, k))
  {
    var e := CheckEffect(t, sh, k);
    if sh.locked {
      CheckRefuses(t, sh, k);
      ElsewhereIsOk(tr, t, sh, k, alone, e);
    } else {
      CheckStarts(t, sh, k);
      StartIsOk(tr, t, sh, k, alone, e);
    }
  }

  lemma StartTaskIsOk(sh: Shared, tr: Trace, t: nat, k: Task, req: nat)
    requires k.req == req && !PassPending(k.pc) && !CheckingPass(k.pc) && !Locking(k.pc) && !Opened(k.pc)
    ensures LockTaskOk(sh, tr + [Started(t, req)], t, k)
  {
    assert (tr + [Started(t, req)])[|tr|] == Started(t, req);
  }

  lemma StartEventIsOk(tr: Trace, t: nat, req: nat)
    requires LockState(tr).None?
    ensures EventOk(tr, Started(t, req)) && LockState(tr + [Started(t, req)]).None?
  {
    LockStateStep(tr, Started(t, req));
  }

  lemma StartIsOk(tr: Trace, t: nat, sh: Shared, k: Task, alone: bool, e: Effect)
    requires LockBefore(tr, t, sh, k, alone) && !PassPending(k.pc) && !sh.locked
    requires e.shared == sh && e.event == Some(Started(t, k.req)) && e.task.req == k.req
    requires !PassPending(e.task.pc) && !CheckingPass(e.task.pc) && !Locking(e.task.pc) && !Opened(e.task.pc)
    ensures LockStepOk(tr, t, sh, k, alone, e)
  {
    StartEventIsOk(tr, t, k.req);
    StartTaskIsOk(sh, tr, t, e.task, k.req);
  }

  lemma LockQuiet(t: nat, sh: Shared, k: Task)
    requires k.op.LockAgent? && k.pc.AtLock? && Wants(k.pc).None? && !k.pc.l.LockTest? && !k.pc.l.LockPassStore?
    ensures LockElsewhere(t, sh, k, LockEffect(t, sh, k, k.pc.l, k.op.hash))
  {
    match k.pc.l
    case LockKeysClear =>
    case LockCacheClear =>
    case LockCacheRelease =>
    case LockKeysRelease =>
    case LockPassRelease =>
    case LockReturn =>
  }

  lemma LockSetting(tr: Trace, t: nat, sh: Shared, k: Task, alone: bool)
    requires LockBefore(tr, t, sh, k, alone) && (k.pc == AtLock(LockTest) || k.pc == AtLock(LockPassStore))
    ensures LockStepOk(tr, t, sh, k, alone, LockEffect(t, sh, k, k.pc.l, k.op.hash))
  {
    LockStateStep(tr, LockSet(t, k.req, k.op.hash));
  }

  lemma LockLocking(tr: Trace, t: nat, sh: Shared, k: Task, alone: bool)
    requires LockBefore(tr, t, sh, k, alone) && k.pc.AtLock?
    ensures LockStepOk(tr, t, sh, k, alone, LockEffect(t, sh, k, k.pc.l, k.op.hash))
  {
    if k.pc.l.LockTest? || k.pc.l.LockPassStore? {
      LockSetting(tr, t, sh, k, alone);
    } else {
      LockQuiet(t, sh, k);
      ElsewhereIsOk(tr, t, sh, k, alone, LockEffect(t, sh, k, k.pc.l, k.op.hash));
    }
  }

  lemma UnlockQuiet(t: nat, sh: Shared, k: Task, ch: Choice)
    requires k.op.UnlockAgent? && k.pc.AtUnlock? && Wants(k.pc).None? && !CheckingPass(k.pc) && !k.pc.u.UnlockTest? && !k.pc.u.UnlockWipe?
    ensures LockElsewhere(t, sh, k, UnlockEffect(t, sh, k, k.pc.u, k.op.hash, ch))
  {
    match k.pc.u
    case UnlockLoad =>
    case UnlockKeysStore =>
    case UnlockPassRelease =>
    case UnlockReturn =>
  }

  /** An unlock is refused by its first test or by the comparison of the hashes. */
  predicate Refuses(sh: Shared, k: Task) {
    (k.pc == AtUnlock(UnlockTest) && !sh.locked)
    || (k.pc == AtUnlock(UnlockCompare) && k.op.UnlockAgent? && sh.pass != Some(k.op.hash))
  }

  lemma UnlockRefuses(t: nat, sh: Shared, k: Task, ch: Choice)
    requires k.op.UnlockAgent? && Refuses(sh, k)
    ensures LockElsewhere(t, sh, k, UnlockEffect(t, sh, k, k.pc.u, k.op.hash, ch))
  {
  }

  lemma UnlockProceeds(tr: Trace, t: nat, sh: Shared, k: Task, alone: bool, ch: Choice)
    requires LockBefore(tr, t, sh, k, alone) && k.op.UnlockAgent? && !Refuses(sh, k)
    requires k.pc == AtUnlock(UnlockTest) || k.pc == AtUnlock(UnlockCompare)
    ensures LockStepOk(tr, t, sh, k, alone, UnlockEffect(t, sh, k, k.pc.u, k.op.hash, ch))
  {
    var e := UnlockEffect(t, sh, k, k.pc.u, k.op.hash, ch);
    assert e.event.None? && e.shared == sh;
  }

  lemma UnlockTesting(tr: Trace, t: nat, sh: Shared, k: Task, alone: bool, ch: Choice)
    requires LockBefore(tr, t, sh, k, alone) && k.op.UnlockAgent?
    requires k.pc == AtUnlock(UnlockTest) || k.pc == AtUnlock(UnlockCompare)
    ensures LockStepOk(tr, t, sh, k, alone, UnlockEffect(t, sh, k, k.pc.u, k.op.hash, ch))
  {
    if Refuses(sh, k) {
      UnlockRefuses(t, sh, k, ch);
      ElsewhereIsOk(tr, t, sh, k, alone, UnlockEffect(t, sh, k, k.pc.u, k.op.hash, ch));
    } else {
      UnlockProceeds(tr, t, sh, k, alone, ch);
    }
  }

  lemma UnlockOpening(tr: Trace, t: nat, sh: Shared, k: Task, alone: bool, ch: Choice)
    requires LockBefore(tr, t, sh, k, alone) && (k.pc == AtUnlock(UnlockOpen) || k.pc == AtUnlock(UnlockWipe))
    ensures LockStepOk(tr, t, sh, k, alone, UnlockEffect(t, sh, k, k.pc.u, k.op.hash, ch))
  {
    LockStateStep(tr, LockReset(t, k.req, k.op.hash));
  }

  lemma UnlockLocking(tr: Trace, t: nat, sh: Shared, k: Task, alone: bool, ch: Choice)
    requires LockBefore(tr, t, sh, k, alone) && k.pc.AtUnlock?
    ensures LockStepOk(tr, t, sh, k, alone, UnlockEffect(t, sh, k, k.pc.u, k.op.hash, ch))
  {
    var e := UnlockEffect(t, sh, k, k.pc.u, k.op.hash, ch);
    match k.pc.u
    case UnlockTest => UnlockTesting(tr, t, sh, k, alone, ch);
    case UnlockCompare => UnlockTesting(tr, t, sh, k, alone, ch);
    case UnlockOpen => UnlockOpening(tr, t, sh, k, alone, ch);
    case UnlockWipe => UnlockOpening(tr, t, sh, k, alone, ch);
    case _ => UnlockQuiet(t, sh, k, ch); ElsewhereIsOk(tr, t, sh, k, alone, e);
  }

  lemma SessionLocking(c: Config, now: nat, procs: ProcessTable, t: nat, sh: Shared, k: Task, ch: Choice)
    requires TaskOk(k) && Wants(k.pc).None? && !k.pc.Idle? && !k.pc.AtCheck? && !k.pc.AtLock? && !k.pc.AtUnlock?
    ensures LockElsewhere(t, sh, k, LocalEffect(c, now, procs, t, sh, k, ch))
  {
    match k.pc
    case AtEnsure(_) => EnsureLocking(t, sh, k, ch);
    case AtAuth(_) => AuthLocking(c, now, procs, t, sh, k, ch);
    case AtSign(_) => SignLocking(t, sh, k);
    case AtEdit(_) => EditLocking(t, sh, k, ch);
    case AtSweep(_) => SweepLocking(c, now, t, sh, k);
    case _ =>
  }

  lemma LocalLocking(c: Config, now: nat, procs: ProcessTable, tr: Trace, t: nat, sh: Shared, k: Task, alone: bool, ch: Choice)
    requires LockBefore(tr, t, sh, k, alone)
    ensures LockStepOk(tr, t, sh, k, alone, LocalEffect(c, now, procs, t, sh, k, ch))
  {
    if k.pc.AtCheck? {
      CheckLocking(tr, t, sh, k, alone);
    } else if k.pc.AtLock? {
      LockLocking(tr, t, sh, k, alone);
    } else if k.pc.AtUnlock? {
      UnlockLocking(tr, t, sh, k, alone, ch);
    } else {
      SessionLocking(c, now, procs, t, sh, k, ch);
      ElsewhereIsOk(tr, t, sh, k, alone, LocalEffect(c, now, procs, t, sh, k, ch));
    }
  }

  // ---------------------------------------------------------------------------
  // One step of the system
  // ---------------------------------------------------------------------------

  /** A task that relies on the flag or the passphrase owns the flag, so no other task's step disturbs it. */
  lemma OthersKeepLock(s: System, t: nat, u: nat, sh': Shared, e: Option<Event>)
    requires GuardInv(s) && t < |s.tasks| && u < |s.tasks| && u != t && LockTaskOk(s.shared, s.trace, u, s.tasks[u])
    requires sh'.locked != s.shared.locked || sh'.pass != s.shared.pass ==> s.tasks[t].guards.locked.Write?
    requires e.Some? && (e.value.LockSet? || e.value.LockReset?) ==> s.tasks[t].guards.locked.Write?
    ensures LockTaskOk(sh', Recorded(s.trace, e), u, s.tasks[u])
  {
    assert TaskOk(s.tasks[u]);
    if e.Some? {
      LockStateStep(s.trace, e.value);
      if PastCheck(s.tasks[u].pc) { StartedBeforeStays(s.trace, e.value, u, s.tasks[u].req); }
    }
    if s.tasks[t].guards.locked.Write? {
      assert s.tasks[t].guards.At(LLocked).Write?;
      assert s.tasks[u].guards.At(LLocked).Free?;
    }
  }

  ghost predicate OthersQuiet(s: System, t: nat) {
    forall u | 0 <= u < |s.tasks| && u != t :: !PassPending(s.tasks[u].pc)
  }

  lemma WriterIsAlone(s: System, t: nat)
    requires GuardInv(s) && t < |s.tasks| && s.tasks[t].guards.locked.Write?
    ensures OthersQuiet(s, t)
  {
    assert s.tasks[t].guards.At(LLocked).Write?;
    forall u | 0 <= u < |s.tasks| && u != t ensures !PassPending(s.tasks[u].pc) {
      assert TaskOk(s.tasks[u]);
      assert s.tasks[u].guards.At(LLocked).Free?;
    }
  }

  lemma QuietBySteps(s: System, s': System, t: nat)
    requires t < |s.tasks| == |s'.tasks| && s'.tasks == s.tasks[t := s'.tasks[t]]
    ensures NonePending(s') <==> OthersQuiet(s, t) && !PassPending(s'.tasks[t].pc)
    ensures NonePending(s) <==> OthersQuiet(s, t) && !PassPending(s.tasks[t].pc)
  {
    if NonePending(s') {
      forall u | 0 <= u < |s.tasks| && u != t ensures !PassPending(s.tasks[u].pc) { assert s'.tasks[u] == s.tasks[u]; }
    }
  }

  lemma LocalKeepsLock(c: Config, s: System, t: nat, ch: Choice)
    requires GuardInv(s) && LockInv(s) && Enabled(s, Local(t, ch))
    ensures LockInv(Next(c, s, Local(t, ch)))
  {
    var k := s.tasks[t];
    var s' := Next(c, s, Local(t, ch));
    var alone := OthersQuiet(s, t);
    assert TaskOk(k) && LockTaskOk(s.shared, s.trace, t, k);
    QuietBySteps(s, s', t);
    if k.guards.locked.Write? { WriterIsAlone(s, t); }
    var e := LocalEffect(c, s.now, s.procs, t, s.shared, k, ch);
    LocalLocking(c, s.now, s.procs, s.trace, t, s.shared, k, alone, ch);
    EveryWriteIsGuarded(c, s.now, s.procs, t, s.shared, k, ch);
    if e.event.Some? { TraceExtends(s.trace, e.event.value); }
    forall u | 0 <= u < |s'.tasks| ensures LockTaskOk(s'.shared, s'.trace, u, s'.tasks[u]) {
      if u != t { OthersKeepLock(s, t, u, e.shared, e.event); }
    }
  }

  lemma AcquiredPc(pc: Pc)
    requires Wants(pc).Some?
    ensures SettingPass(AfterAcquire(pc)) == SettingPass(pc) && WipingPass(AfterAcquire(pc)) == WipingPass(pc)
    ensures CheckingPass(AfterAcquire(pc)) == CheckingPass(pc) && AfterAcquire(pc) != AtUnlock(UnlockOpen)
    ensures PastCheck(AfterAcquire(pc)) == PastCheck(pc) && Opened(AfterAcquire(pc)) == Opened(pc)
    ensures Locking(pc) ==> Locking(AfterAcquire(pc))
    ensures Locking(AfterAcquire(pc)) ==> Locking(pc)
  {
  }

  lemma ArrivedPc(op: Op)
    ensures !PassPending(FirstPc(op)) && !CheckingPass(FirstPc(op)) && !PastCheck(FirstPc(op)) && !Opened(FirstPc(op))
    ensures !Locking(FirstPc(op))
  {
  }

  lemma AcquireKeepsLock(c: Config, s: System, t: nat)
    requires LockInv(s) && Enabled(s, Acquire(t))
    ensures LockInv(Next(c, s, Acquire(t)))
  {
    var s' := Next(c, s, Acquire(t));
    var pc := s.tasks[t].pc;
    assert LockTaskOk(s.shared, s.trace, t, s.tasks[t]);
    AcquiredPc(pc);
    QuietBySteps(s, s', t);
    assert s'.tasks[t].pc == AfterAcquire(pc) && s'.tasks[t].op == s.tasks[t].op && s'.tasks[t].req == s.tasks[t].req;
    assert LockTaskOk(s.shared, s.trace, t, s'.tasks[t]);
  }

  lemma ArriveKeepsLock(c: Config, s: System, t: nat, op: Op)
    requires LockInv(s) && Enabled(s, Arrive(t, op))
    ensures LockInv(Next(c, s, Arrive(t, op)))
  {
    var s' := Next(c, s, Arrive(t, op));
    var e := Arrived(t, op, s.tasks[t].peer);
    LockStateStep(s.trace, e);
    TraceExtends(s.trace, e);
    ArrivedPc(op);
    QuietBySteps(s, s', t);
    forall u | 0 <= u < |s'.tasks| ensures LockTaskOk(s'.shared, s'.trace, u, s'.tasks[u]) {
      if u != t && PastCheck(s.tasks[u].pc) { StartedBeforeStays(s.trace, e, u, s.tasks[u].req); }
    }
  }

  lemma NextKeepsLock(c: Config, s: System, a: Label)
    requires GuardInv(s) && LockInv(s) && Enabled(s, a)
    ensures LockInv(Next(c, s, a))
  {
    match a
    case Tick(_) => assert NonePending(Next(c, s, a)) == NonePending(s);
    case ProcessesChange(_) => assert NonePending(Next(c, s, a)) == NonePending(s);
    case Enqueue(_) => assert NonePending(Next(c, s, a)) == NonePending(s);
    case Acquire(t) => AcquireKeepsLock(c, s, t);
    case Arrive(t, op) => ArriveKeepsLock(c, s, t, op);
    case Local(t, ch) => LocalKeepsLock(c, s, t, ch);
  }

  lemma {:induction false} LockAlwaysHolds(c: Config, s0: System, labels: seq<Label>)
    requires Init(s0) && Exec(c, s0, labels).Some?
    ensures LockInv(Exec(c, s0, labels).value)
  {
    if labels != [] {
      var before := labels[..|labels| - 1];
      LockAlwaysHolds(c, s0, before);
      GuardsAlwaysHold(c, s0, before);
      NextKeepsLock(c, Exec(c, s0, before).value, labels[|labels| - 1]);
    }
  }

  // ---------------------------------------------------------------------------
  // Every run
  // ---------------------------------------------------------------------------

  /** Whenever no task holds `locked` for writing, it is set if and only if a passphrase hash is stored,
      and that hash is the one of the latest lock. */
  lemma LockedIffPassphrase(c: Config, s0: System, labels: seq<Label>)
    requires Init(s0) && Exec(c, s0, labels).Some?
    requires forall t | 0 <= t < |Exec(c, s0, labels).value.tasks| ::
      !Exec(c, s0, labels).value.tasks[t].guards.locked.Write?
    ensures var s := Exec(c, s0, labels).value;
      (s.shared.locked <==> s.shared.pass.Some?) && s.shared.pass == LockState(s.trace)
  {
    var s := Exec(c, s0, labels).value;
    GuardsAlwaysHold(c, s0, labels);
    LockAlwaysHolds(c, s0, labels);
    forall t | 0 <= t < |s.tasks| ensures !PassPending(s.tasks[t].pc) {
      assert TaskOk(s.tasks[t]);
    }
  }

  /** As long as nobody resets it, the lock stays set with its hash. */
  lemma {:induction false} LockStays(tr: Trace, i: nat, j: nat)
    requires TraceOk(tr) && i < j <= |tr| && tr[i].LockSet?
    requires forall m | i < m < j :: !tr[m].LockReset?
    ensures LockState(tr[..j]) == Some(tr[i].hash)
  {
    assert tr[..j] == tr[..j - 1] + [tr[j - 1]];
    LockStateStep(tr[..j - 1], tr[j - 1]);
    if i < j - 1 {
      LockStays(tr, i, j - 1);
      assert EventOk(tr[..j - 1], tr[j - 1]);
    }
  }

  lemma FirstReset(tr: Trace, i: nat, j: nat) returns (m: nat)
    requires TraceOk(tr) && i < j < |tr| && tr[i].LockSet? && LockState(tr[..j]).None?
    ensures i < m < j && tr[m].LockReset? && tr[m].hash == tr[i].hash
    ensures forall n | i < n < m :: !tr[n].LockReset? && !tr[n].LockSet? && !tr[n].Started?
  {
    m := i + 1;
    while m < j && !tr[m].LockReset?
      invariant i < m <= j
      invariant forall n | i < n < m :: !tr[n].LockReset? && !tr[n].LockSet? && !tr[n].Started?
    {
      LockStays(tr, i, m);
      assert EventOk(tr[..m], tr[m]);
      m := m + 1;
    }
    LockStays(tr, i, m);
    assert m < j;
    assert EventOk(tr[..m], tr[m]);
  }

  /** Between a lock and any request that passes its locked check after it lies an unlock with the hash of that very
      lock, and no request passes before that unlock. Requests that have passed before are not stopped. */
  lemma LockedStartsNothing(c: Config, s0: System, labels: seq<Label>, i: nat, j: nat)
    requires Init(s0) && Exec(c, s0, labels).Some?
    requires i < j < |Exec(c, s0, labels).value.trace|
    requires Exec(c, s0, labels).value.trace[i].LockSet? && Exec(c, s0, labels).value.trace[j].Started?
    ensures var tr := Exec(c, s0, labels).value.trace;
      exists m | i < m < j :: tr[m].LockReset? && tr[m].hash == tr[i].hash
        && forall n | i < n < m :: !tr[n].LockReset? && !tr[n].LockSet? && !tr[n].Started?
  {
    LockAlwaysHolds(c, s0, labels);
    var tr := Exec(c, s0, labels).value.trace;
    assert EventOk(tr[..j], tr[j]);
    var m := FirstReset(tr, i, j);
  }

  /** Every list, addition, touch prompt, approval and signature belongs to a request that passed the locked
      check while the agent was unlocked; it may itself come later. */
  lemma WorkIsStartedUnlocked(c: Config, s0: System, labels: seq<Label>, i: nat)
    requires Init(s0) && Exec(c, s0, labels).Some? && i < |Exec(c, s0, labels).value.trace|
    requires var e := Exec(c, s0, labels).value.trace[i];
      e.Listed? || e.Added? || e.Touched? || e.Approved? || e.Signed?
    ensures var tr := Exec(c, s0, labels).value.trace;
      exists j | 0 <= j < i :: tr[j] == Started(tr[i].t, tr[i].req) && LockState(tr[..j]).None?
  {
    LockAlwaysHolds(c, s0, labels);
    var tr := Exec(c, s0, labels).value.trace;
    assert EventOk(tr[..i], tr[i]);
    var j :| 0 <= j < i && tr[..i][j] == Started(tr[i].t, tr[i].req);
    assert tr[j] == tr[..i][j] && EventOk(tr[..j], tr[j]);
  }

  /** An unlock ends at its test or at its comparison exactly when the agent is not locked or the hash differs, and has
      given its guards back then. */
  lemma RefusalStep(c: Config, s: System, t: nat, ch: Choice)
    requires Enabled(s, Local(t, ch)) && s.tasks[t].pc.AtUnlock? && s.tasks[t].op.UnlockAgent?
    requires s.tasks[t].pc.u.UnlockTest? || s.tasks[t].pc.u.UnlockCompare?
    ensures var s' := Next(c, s, Local(t, ch));
      && s'.shared == s.shared
      && (s'.tasks[t].pc.Idle? <==>
            if s.tasks[t].pc.u.UnlockTest? then !s.shared.locked else s.shared.pass != Some(s.tasks[t].op.hash))
      && (s'.tasks[t].pc.Idle? ==> s'.tasks[t].guards == NO_GUARDS && s'.trace == s.trace + [UnlockFailed(t, s.tasks[t].req)])
  {
  }
}
