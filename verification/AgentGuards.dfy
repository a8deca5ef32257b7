/**
 Which guards a task owns at each program point, what that means for the other tasks, and that every
 step of every run keeps to it.
 */
module AgentGuards {
  import opened Common
  import opened AncestorWalk
  import opened AgentMachine

  /** The guard kept across the authorization of a request: sign holds the keys, an extension nothing. */
  function WhileAuthorizing(op: Op): Guards {
    if op.Sign? then NO_GUARDS.(keys := Read) else NO_GUARDS
  }

  /** Adding a key records activity while it still owns the keys. */
  function WhileRecording(op: Op): Guards {
    if op.Add? then NO_GUARDS.(keys := Write) else NO_GUARDS
  }

  /** The guards owned at a program point. */
  function GuardsAt(pc: Pc, op: Op): Guards {
    match pc
    case AtCheck(CheckRead) => NO_GUARDS.(locked := Read)
    case AtEnsure(e) => GuardsInEnsure(e)
    case ListRead => NO_GUARDS.(keys := Read)
    case ActivityAcquire => WhileRecording(op)
    case ActivityStore => WhileRecording(op).(activity := Write)
    case AtAuth(HitRead) => WhileAuthorizing(op).(cache := Read)
    case AtAuth(GrantStore) => WhileAuthorizing(op).(cache := Write)
    case AtAuth(_) => WhileAuthorizing(op)
    case AtSign(SignAcquire) => NO_GUARDS
    case AtSign(_) => NO_GUARDS.(keys := Read)
    case AtEdit(AddStore) => NO_GUARDS.(keys := Write)
    case AtEdit(AddRelease) => NO_GUARDS.(keys := Write)
    case AtEdit(RemoveStore) => NO_GUARDS.(keys := Write)
    case AtLock(l) => GuardsInLock(l)
    case AtUnlock(u) => GuardsInUnlock(u)
    case AtSweep(w) => GuardsInSweep(w)
    case _ => NO_GUARDS
  }

  function GuardsInEnsure(e: EnsurePc): Guards {
    match e
    case EnsureAcquire | EnsureFlagAcquire | EnsureLoad | StoreAcquire => NO_GUARDS
    case EnsureTest => NO_GUARDS.(keys := Read)
    case EnsureFlagRead => NO_GUARDS.(idle := Read)
    case StoreKeys | StoreFlagAcquire | StoreRelease => NO_GUARDS.(keys := Write)
    case StoreFlag | StoreFlagRelease => NO_GUARDS.(keys := Write, idle := Write)
  }

  function GuardsInLock(l: LockPc): Guards {
    match l
    case LockAcquire => NO_GUARDS
    case LockTest | LockPassAcquire | LockReturn => NO_GUARDS.(locked := Write)
    case LockPassStore | LockKeysAcquire | LockPassRelease => NO_GUARDS.(locked := Write, pass := Write)
    case LockKeysClear | LockCacheAcquire | LockKeysRelease => NO_GUARDS.(locked := Write, pass := Write, keys := Write)
    case LockCacheClear | LockCacheRelease => NO_GUARDS.(locked := Write, pass := Write, keys := Write, cache := Write)
  }

  function GuardsInUnlock(u: UnlockPc): Guards {
    match u
    case UnlockAcquire => NO_GUARDS
    case UnlockTest | UnlockPassAcquire | UnlockOpen | UnlockWipeAcquire | UnlockReturn => NO_GUARDS.(locked := Write)
    case UnlockCompare => NO_GUARDS.(locked := Write, pass := Read)
    case UnlockWipe | UnlockLoad | UnlockKeysAcquire | UnlockPassRelease => NO_GUARDS.(locked := Write, pass := Write)
    case UnlockKeysStore => NO_GUARDS.(locked := Write, pass := Write, keys := Write)
  }

  function GuardsInSweep(w: SweepPc): Guards {
    match w
    case SweepAcquire | SweepElapsed | SweepKeysAcquire | CacheAcquire => NO_GUARDS
    case SweepRead => NO_GUARDS.(activity := Read)
    case SweepKeys | SweepFlagAcquire | SweepKeysRelease => NO_GUARDS.(keys := Write)
    case SweepFlag | SweepFlagRelease => NO_GUARDS.(keys := Write, idle := Write)
    case CacheStore => NO_GUARDS.(cache := Write)
  }

  /** Which requests visit which program points. */
  predicate Fits(pc: Pc, op: Op) {
    match pc
    case AtCheck(_) => op.List? || op.Sign? || op.Encrypt? || op.Decrypt? || op.Auth? || op.OtherExtension? || op.Add?
    case AtEnsure(_) => op.List? || op.Sign?
    case ListAcquire => op.List?
    case ListRead => op.List?
    case ActivityAcquire => op.Sign? || op.Encrypt? || op.Decrypt? || op.Auth? || op.Add?
    case ActivityStore => op.Sign? || op.Encrypt? || op.Decrypt? || op.Auth? || op.Add?
    case OpenEnvelope => op.Encrypt? || op.Decrypt? || op.Auth?
    case AtAuth(a) => op.Sign? || op.Decrypt? || (op.Auth? && (a.TouchOnly? || a.Approve?))
    case AtSign(_) => op.Sign?
    case AtEdit(d) => if d.RemoveSave? || d.RemoveAcquire? || d.RemoveStore? then op.Remove? || op.RemoveAll? else op.Add?
    case AtLock(_) => op.LockAgent?
    case AtUnlock(_) => op.UnlockAgent?
    case AtSweep(w) => if w.CacheAcquire? || w.CacheStore? then op.CacheSweep? else op.IdleSweep?
    case Idle => true
  }

  /** The program points between a computed cache context and the end of its use. */
  predicate UsesContext(pc: Pc) {
    pc.AtAuth? && (pc.a.HitAcquire? || pc.a.HitRead? || pc.a.TouchToGrant? || pc.a.GrantAcquire? || pc.a.GrantStore?)
  }

  ghost predicate TaskOk(k: Task) {
    k.guards == GuardsAt(k.pc, k.op) && Fits(k.pc, k.op) && (UsesContext(k.pc) ==> k.context.Some?)
  }

  /** No task holds a lock in a way another task's write guard excludes. */
  ghost predicate Exclusive(s: System) {
    forall t, u, l | 0 <= t < |s.tasks| && 0 <= u < |s.tasks| && t != u && s.tasks[t].guards.At(l).Write? ::
      s.tasks[u].guards.At(l).Free?
  }

  predicate Distinct(q: seq<nat>) {
    forall i, j | 0 <= i < j < |q| :: q[i] != q[j]
  }

  ghost predicate Waits(s: System, t: nat, l: Lock) {
    t < |s.tasks| && Wants(s.tasks[t].pc).Some? && Wants(s.tasks[t].pc).value.0 == l
  }

  ghost predicate QueuesOk(s: System) {
    && (forall l, t | t in s.queues.At(l) :: Waits(s, t, l))
    && (forall l :: Distinct(s.queues.At(l)))
  }

  ghost predicate GuardInv(s: System) {
    && (forall t | 0 <= t < |s.tasks| :: TaskOk(s.tasks[t]))
    && Exclusive(s)
    && QueuesOk(s)
  }

  // ---------------------------------------------------------------------------
  // One stretch of code keeps to the table and only gives guards back
  // ---------------------------------------------------------------------------

  predicate GivesBack(before: Guards, after: Guards) {
    && (after.locked == before.locked || after.locked.Free?)
    && (after.pass == before.pass || after.pass.Free?)
    && (after.keys == before.keys || after.keys.Free?)
    && (after.idle == before.idle || after.idle.Free?)
    && (after.cache == before.cache || after.cache.Free?)
    && (after.activity == before.activity || after.activity.Free?)
  }

  ghost predicate Keeps(k: Task, k': Task) {
    TaskOk(k') && GivesBack(k.guards, k'.guards)
  }

  lemma CheckKeeps(t: nat, sh: Shared, k: Task)
    requires TaskOk(k) && k.pc.AtCheck? && Wants(k.pc).None?
    ensures Keeps(k, CheckEffect(t, sh, k).task)
  {
  }

  lemma EnsureKeeps(t: nat, sh: Shared, k: Task, ch: Choice)
    requires TaskOk(k) && k.pc.AtEnsure? && Wants(k.pc).None?
    ensures Keeps(k, EnsureEffect(t, sh, k, k.pc.e, ch).task)
  {
    match k.pc.e
    case EnsureTest =>
    case EnsureFlagRead =>
    case EnsureLoad =>
    case StoreKeys =>
    case StoreFlag =>
    case StoreFlagRelease =>
    case StoreRelease =>
  }

  lemma AuthKeeps(c: Config, now: nat, procs: ProcessTable, t: nat, sh: Shared, k: Task, ch: Choice)
    requires TaskOk(k) && k.pc.AtAuth? && Wants(k.pc).None?
    ensures Keeps(k, AuthEffect(c, now, procs, t, sh, k, k.pc.a, ch).task)
  {
    match k.pc.a
    case FindContext =>
    case HitRead =>
    case TouchToGrant =>
    case GrantStore =>
    case TouchOnly =>
    case Approve =>
  }

  lemma SignKeeps(t: nat, sh: Shared, k: Task)
    requires TaskOk(k) && k.pc.AtSign? && Wants(k.pc).None?
    ensures Keeps(k, SignEffect(t, sh, k, k.pc.s).task)
  {
  }

  lemma EditKeeps(t: nat, sh: Shared, k: Task, ch: Choice)
    requires TaskOk(k) && k.pc.AtEdit? && Wants(k.pc).None?
    ensures Keeps(k, EditEffect(t, sh, k, k.pc.d, ch).task)
  {
  }

  /** On its way in, a lock takes guards; on its way out it gives them back in reverse. */
  lemma LockKeepsIn(t: nat, sh: Shared, k: Task, hash: Digest)
    requires TaskOk(k) && k.pc.AtLock? && (k.pc.l.LockTest? || k.pc.l.LockPassStore? || k.pc.l.LockKeysClear? || k.pc.l.LockCacheClear?)
    ensures Keeps(k, LockEffect(t, sh, k, k.pc.l, hash).task)
  {
  }

  lemma LockKeepsOut(t: nat, sh: Shared, k: Task, hash: Digest)
    requires TaskOk(k) && k.pc.AtLock? && (k.pc.l.LockCacheRelease? || k.pc.l.LockKeysRelease? || k.pc.l.LockPassRelease? || k.pc.l.LockReturn?)
    ensures Keeps(k, LockEffect(t, sh, k, k.pc.l, hash).task)
  {
  }

  lemma UnlockKeepsIn(t: nat, sh: Shared, k: Task, candidate: Digest, ch: Choice)
    requires TaskOk(k) && k.pc.AtUnlock? && (k.pc.u.UnlockTest? || k.pc.u.UnlockCompare? || k.pc.u.UnlockOpen? || k.pc.u.UnlockWipe?)
    ensures Keeps(k, UnlockEffect(t, sh, k, k.pc.u, candidate, ch).task)
  {
  }

  lemma UnlockKeepsOut(t: nat, sh: Shared, k: Task, candidate: Digest, ch: Choice)
    requires TaskOk(k) && k.pc.AtUnlock? && (k.pc.u.UnlockLoad? || k.pc.u.UnlockKeysStore? || k.pc.u.UnlockPassRelease? || k.pc.u.UnlockReturn?)
    ensures Keeps(k, UnlockEffect(t, sh, k, k.pc.u, candidate, ch).task)
  {
  }

  lemma LockKeeps(t: nat, sh: Shared, k: Task, hash: Digest)
    requires TaskOk(k) && k.pc.AtLock? && Wants(k.pc).None?
    ensures Keeps(k, LockEffect(t, sh, k, k.pc.l, hash).task)
  {
    if k.pc.l.LockTest? || k.pc.l.LockPassStore? || k.pc.l.LockKeysClear? || k.pc.l.LockCacheClear? {
      LockKeepsIn(t, sh, k, hash);
    } else {
      LockKeepsOut(t, sh, k, hash);
    }
  }

  lemma UnlockKeeps(t: nat, sh: Shared, k: Task, candidate: Digest, ch: Choice)
    requires TaskOk(k) && k.pc.AtUnlock? && Wants(k.pc).None?
    ensures Keeps(k, UnlockEffect(t, sh, k, k.pc.u, candidate, ch).task)
  {
    if k.pc.u.UnlockTest? || k.pc.u.UnlockCompare? || k.pc.u.UnlockOpen? || k.pc.u.UnlockWipe? {
      UnlockKeepsIn(t, sh, k, candidate, ch);
    } else {
      UnlockKeepsOut(t, sh, k, candidate, ch);
    }
  }

  lemma SweepKeeps(c: Config, now: nat, t: nat, sh: Shared, k: Task)
    requires TaskOk(k) && k.pc.AtSweep? && Wants(k.pc).None?
    ensures Keeps(k, SweepEffect(c, now, t, sh, k, k.pc.w).task)
  {
    match k.pc.w
    case SweepRead =>
    case SweepElapsed =>
    case SweepKeys =>
    case SweepFlag =>
    case SweepFlagRelease =>
    case SweepKeysRelease =>
    case CacheStore =>
  }

  lemma LocalKeeps(c: Config, now: nat, procs: ProcessTable, t: nat, sh: Shared, k: Task, ch: Choice)
    requires TaskOk(k) && !k.pc.Idle? && Wants(k.pc).None?
    ensures Keeps(k, LocalEffect(c, now, procs, t, sh, k, ch).task)
  {
    match k.pc
    case AtCheck(_) => CheckKeeps(t, sh, k);
    case AtEnsure(_) => EnsureKeeps(t, sh, k, ch);
    case AtAuth(_) => AuthKeeps(c, now, procs, t, sh, k, ch);
    case AtSign(_) => SignKeeps(t, sh, k);
    case AtEdit(_) => EditKeeps(t, sh, k, ch);
    case AtLock(_) => LockKeeps(t, sh, k, if k.op.LockAgent? then k.op.hash else []);
    case AtUnlock(_) => UnlockKeeps(t, sh, k, if k.op.UnlockAgent? then k.op.hash else [], ch);
    case AtSweep(_) => SweepKeeps(c, now, t, sh, k);
    case _ =>
  }

  lemma AcquireKeeps(k: Task)
    requires TaskOk(k) && Wants(k.pc).Some?
    ensures var (l, h) := Wants(k.pc).value;
      GuardsAt(AfterAcquire(k.pc), k.op) == k.guards.With(l, h) && Fits(AfterAcquire(k.pc), k.op)
  {
  }

  // ---------------------------------------------------------------------------
  // Every step of every run keeps to the table
  // ---------------------------------------------------------------------------

  lemma InitGuards(s: System)
    requires Init(s)
    ensures GuardInv(s)
  {
  }

  /** Giving guards back at one task endangers nobody. */
  lemma ReleaseKeepsExclusive(s: System, s': System, t: nat)
    requires Exclusive(s) && t < |s.tasks|
    requires |s'.tasks| == |s.tasks| && s'.tasks == s.tasks[t := s'.tasks[t]]
    requires GivesBack(s.tasks[t].guards, s'.tasks[t].guards)
    ensures Exclusive(s')
  {
    forall u, v, l | 0 <= u < |s'.tasks| && 0 <= v < |s'.tasks| && u != v && s'.tasks[u].guards.At(l).Write?
      ensures s'.tasks[v].guards.At(l).Free?
    {
      assert s.tasks[u].guards.At(l).Write?;
      assert s.tasks[v].guards.At(l).Free?;
    }
  }

  lemma AcquireKeepsExclusive(s: System, s': System, t: nat, l: Lock, h: Hold)
    requires Exclusive(s) && t < |s.tasks| && Compatible(s, l, h) && !h.Free?
    requires |s'.tasks| == |s.tasks| && s'.tasks == s.tasks[t := s'.tasks[t]]
    requires s'.tasks[t].guards == s.tasks[t].guards.With(l, h)
    ensures Exclusive(s')
  {
    forall u, v, m | 0 <= u < |s'.tasks| && 0 <= v < |s'.tasks| && u != v && s'.tasks[u].guards.At(m).Write?
      ensures s'.tasks[v].guards.At(m).Free?
    {
      if m != l {
        assert s.tasks[u].guards.At(m).Write?;
      }
    }
  }

  lemma NoQueueHolds(s: System, t: nat)
    requires QueuesOk(s) && t < |s.tasks| && Wants(s.tasks[t].pc).None?
    ensures forall l :: t !in s.queues.At(l)
  {
    forall l ensures t !in s.queues.At(l) {
      assert !Waits(s, t, l);
    }
  }

  lemma QueuesStay(s: System, s': System, t: nat)
    requires QueuesOk(s) && t < |s.tasks| && (forall l :: t !in s.queues.At(l))
    requires s'.queues == s.queues && |s'.tasks| == |s.tasks| && s'.tasks == s.tasks[t := s'.tasks[t]]
    ensures QueuesOk(s')
  {
    forall l, u | u in s'.queues.At(l) ensures Waits(s', u, l) {
      assert Waits(s, u, l) && u != t;
    }
  }

  lemma WithAt<T>(p: PerLock<T>, l: Lock, v: T, m: Lock)
    ensures p.With(l, v).At(m) == if m == l then v else p.At(m)
  {
  }

  lemma EnqueueKeepsQueues(s: System, s': System, t: nat, l: Lock)
    requires QueuesOk(s) && Waits(s, t, l) && t !in s.queues.At(l)
    requires s' == s.(queues := s.queues.With(l, s.queues.At(l) + [t]))
    ensures QueuesOk(s')
  {
    forall m, u | u in s'.queues.At(m) ensures Waits(s', u, m) {
      WithAt(s.queues, l, s.queues.At(l) + [t], m);
      assert u in s.queues.At(m) || (u == t && m == l);
      assert Waits(s, u, m);
    }
    forall m ensures Distinct(s'.queues.At(m)) {
      WithAt(s.queues, l, s.queues.At(l) + [t], m);
    }
  }

  lemma AcquireKeepsQueues(s: System, s': System, t: nat, l: Lock)
    requires QueuesOk(s) && Waits(s, t, l) && s.queues.At(l) != [] && s.queues.At(l)[0] == t
    requires s'.queues == s.queues.With(l, s.queues.At(l)[1..])
    requires |s'.tasks| == |s.tasks| && s'.tasks == s.tasks[t := s'.tasks[t]]
    ensures QueuesOk(s')
  {
    var rest := s.queues.At(l)[1..];
    assert Distinct(s.queues.At(l));
    forall m, u | u in s'.queues.At(m) ensures Waits(s', u, m) {
      WithAt(s.queues, l, rest, m);
      assert u in s.queues.At(m);
      assert Waits(s, u, m);
      assert u != t;
    }
    forall m ensures Distinct(s'.queues.At(m)) {
      WithAt(s.queues, l, rest, m);
      assert Distinct(s.queues.At(m));
    }
  }

  lemma AcquireKeepsGuards(c: Config, s: System, t: nat)
    requires GuardInv(s) && Enabled(s, Acquire(t))
    ensures GuardInv(Next(c, s, Acquire(t)))
  {
    var s' := Next(c, s, Acquire(t));
    var (l, h) := Wants(s.tasks[t].pc).value;
    AcquireKeeps(s.tasks[t]);
    AcquireKeepsExclusive(s, s', t, l, h);
    AcquireKeepsQueues(s, s', t, l);
  }

  lemma LocalKeepsGuards(c: Config, s: System, t: nat, ch: Choice)
    requires GuardInv(s) && Enabled(s, Local(t, ch))
    ensures GuardInv(Next(c, s, Local(t, ch)))
  {
    var s' := Next(c, s, Local(t, ch));
    LocalKeeps(c, s.now, s.procs, t, s.shared, s.tasks[t], ch);
    NoQueueHolds(s, t);
    QueuesStay(s, s', t);
    ReleaseKeepsExclusive(s, s', t);
  }

  lemma NextKeepsGuards(c: Config, s: System, a: Label)
    requires GuardInv(s) && Enabled(s, a)
    ensures GuardInv(Next(c, s, a))
  {
    var s' := Next(c, s, a);
    match a
    case Tick(_) => assert forall l, t | t in s'.queues.At(l) :: Waits(s, t, l);
    case ProcessesChange(_) => assert forall l, t | t in s'.queues.At(l) :: Waits(s, t, l);
    case Arrive(t, op) =>
      assert TaskOk(s.tasks[t]);
      NoQueueHolds(s, t);
      QueuesStay(s, s', t);
      ReleaseKeepsExclusive(s, s', t);
    case Enqueue(t) => EnqueueKeepsQueues(s, s', t, Wants(s.tasks[t].pc).value.0);
    case Acquire(t) => AcquireKeepsGuards(c, s, t);
    case Local(t, ch) => LocalKeepsGuards(c, s, t, ch);
  }

  lemma {:induction false} GuardsAlwaysHold(c: Config, s0: System, labels: seq<Label>)
    requires Init(s0) && Exec(c, s0, labels).Some?
    ensures GuardInv(Exec(c, s0, labels).value)
  {
    if labels == [] {
      InitGuards(s0);
    } else {
      GuardsAlwaysHold(c, s0, labels[..|labels| - 1]);
      NextKeepsGuards(c, Exec(c, s0, labels[..|labels| - 1]).value, labels[|labels| - 1]);
    }
  }
}
