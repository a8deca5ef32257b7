/**
 The discipline of the shared memory: every cell is written under its own write guard and read under one of
 its guards, so a stretch of code is not disturbed by the others.
 */
module AgentDiscipline {
  import opened Common
  import opened AncestorWalk
  import opened AgentMachine
  import opened AgentGuards

  /** Every cell an effect changes, and every event that tells of such a change, has its write guard; the
      lock flag guards the lock passphrase too, and the keys guard the idle flag. */
  predicate WritesGuarded(k: Task, sh: Shared, e: Effect) {
    && (e.shared.locked != sh.locked ==> k.guards.locked.Write?)
    && (e.shared.pass != sh.pass ==> k.guards.pass.Write? && k.guards.locked.Write?)
    && (e.shared.keys != sh.keys ==> k.guards.keys.Write?)
    && (e.shared.idleCleared != sh.idleCleared ==> k.guards.idle.Write? && k.guards.keys.Write?)
    && (e.shared.cache != sh.cache ==> k.guards.cache.Write?)
    && (e.shared.lastActivity != sh.lastActivity ==> k.guards.activity.Write?)
    && (e.event.Some? ==>
          && (e.event.value.LockSet? || e.event.value.LockReset? ==> k.guards.locked.Write?)
          && (e.event.value.KeysFlushed? || e.event.value.KeysReloaded? || e.event.value.KeysIdled? ==> k.guards.keys.Write?)
          && (e.event.value.Granted? || e.event.value.CacheCleared? || e.event.value.CacheSwept? ==> k.guards.cache.Write?))
  }

  lemma CheckWrites(t: nat, sh: Shared, k: Task)
    requires TaskOk(k) && k.pc.AtCheck? && Wants(k.pc).None?
    ensures WritesGuarded(k, sh, CheckEffect(t, sh, k))
  {
  }

  lemma EnsureWrites(t: nat, sh: Shared, k: Task, ch: Choice)
    requires TaskOk(k) && k.pc.AtEnsure? && Wants(k.pc).None?
    ensures WritesGuarded(k, sh, EnsureEffect(t, sh, k, k.pc.e, ch))
  {
    match k.pc.e
    case EnsureTest =>
    case EnsureFlagRead =>
    case EnsureLoad =>
    case StoreKeys =>
    case StoreFlag =>
    case StoreFlagRelease =>
    case StoreRelease =>
  }

  lemma AuthWrites(c: Config, now: nat, procs: ProcessTable, t: nat, sh: Shared, k: Task, ch: Choice)
    requires TaskOk(k) && k.pc.AtAuth? && Wants(k.pc).None?
    ensures WritesGuarded(k, sh, AuthEffect(c, now, procs, t, sh, k, k.pc.a, ch))
  {
    match k.pc.a
    case FindContext =>
    case HitRead =>
    case TouchToGrant =>
    case GrantStore =>
    case TouchOnly =>
    case Approve =>
  }

  lemma SignWrites(t: nat, sh: Shared, k: Task)
    requires TaskOk(k) && k.pc.AtSign? && Wants(k.pc).None?
    ensures WritesGuarded(k, sh, SignEffect(t, sh, k, k.pc.s))
  {
  }

  lemma EditWrites(t: nat, sh: Shared, k: Task, ch: Choice)
    requires TaskOk(k) && k.pc.AtEdit? && Wants(k.pc).None?
    ensures WritesGuarded(k, sh, EditEffect(t, sh, k, k.pc.d, ch))
  {
    match k.pc.d
    case AddSave =>
    case AddStore =>
    case AddRelease =>
    case RemoveSave =>
    case RemoveStore =>
  }

  lemma LockWrites(t: nat, sh: Shared, k: Task, hash: Digest)
    requires TaskOk(k) && k.pc.AtLock? && Wants(k.pc).None?
    ensures WritesGuarded(k, sh, LockEffect(t, sh, k, k.pc.l, hash))
  {
    match k.pc.l
    case LockTest =>
    case LockPassStore =>
    case LockKeysClear =>
    case LockCacheClear =>
    case LockCacheRelease =>
    case LockKeysRelease =>
    case LockPassRelease =>
    case LockReturn =>
  }

  lemma UnlockWrites(t: nat, sh: Shared, k: Task, candidate: Digest, ch: Choice)
    requires TaskOk(k) && k.pc.AtUnlock? && Wants(k.pc).None?
    ensures WritesGuarded(k, sh, UnlockEffect(t, sh, k, k.pc.u, candidate, ch))
  {
    match k.pc.u
    case UnlockTest =>
    case UnlockCompare =>
    case UnlockOpen =>
    case UnlockWipe =>
    case UnlockLoad =>
    case UnlockKeysStore =>
    case UnlockPassRelease =>
    case UnlockReturn =>
  }

  lemma SweepWrites(c: Config, now: nat, t: nat, sh: Shared, k: Task)
    requires TaskOk(k) && k.pc.AtSweep? && Wants(k.pc).None?
    ensures WritesGuarded(k, sh, SweepEffect(c, now, t, sh, k, k.pc.w))
  {
    match k.pc.w
    case SweepRead =>
    case SweepElapsed =>
    case SweepKeys =>
    case SweepFlag =>
    case SweepFlagRelease =>
    case SweepKeysRelease =>
    case CacheStore =>
  }

  /** No step writes a cell without its write guard. */
  lemma EveryWriteIsGuarded(c: Config, now: nat, procs: ProcessTable, t: nat, sh: Shared, k: Task, ch: Choice)
    requires TaskOk(k) && !k.pc.Idle? && Wants(k.pc).None?
    ensures WritesGuarded(k, sh, LocalEffect(c, now, procs, t, sh, k, ch))
  {
    match k.pc
    case AtCheck(_) => CheckWrites(t, sh, k);
    case AtEnsure(_) => EnsureWrites(t, sh, k, ch);
    case AtAuth(_) => AuthWrites(c, now, procs, t, sh, k, ch);
    case AtSign(_) => SignWrites(t, sh, k);
    case AtEdit(_) => EditWrites(t, sh, k, ch);
    case AtLock(_) => LockWrites(t, sh, k, if k.op.LockAgent? then k.op.hash else []);
    case AtUnlock(_) => UnlockWrites(t, sh, k, if k.op.UnlockAgent? then k.op.hash else [], ch);
    case AtSweep(_) => SweepWrites(c, now, t, sh, k);
    case _ =>
  }

  /** Two memories that agree on every cell for which the guards hold something. */
  predicate Agree(g: Guards, sh: Shared, sh': Shared) {
    && (!g.locked.Free? ==> sh.locked == sh'.locked)
    && (!g.pass.Free? ==> sh.pass == sh'.pass)
    && (!g.keys.Free? ==> sh.keys == sh'.keys)
    && (!g.idle.Free? ==> sh.idleCleared == sh'.idleCleared)
    && (!g.cache.Free? ==> sh.cache == sh'.cache)
    && (!g.activity.Free? ==> sh.lastActivity == sh'.lastActivity)
  }

  /** The same continuation, and the same record. */
  predicate SameEffect(e: Effect, e': Effect) {
    e.task == e'.task && e.event == e'.event
  }

  lemma CheckReads(t: nat, sh: Shared, sh': Shared, k: Task)
    requires TaskOk(k) && k.pc.AtCheck? && Wants(k.pc).None? && Agree(k.guards, sh, sh')
    ensures SameEffect(CheckEffect(t, sh, k), CheckEffect(t, sh', k))
  {
  }

  lemma EnsureReads(t: nat, sh: Shared, sh': Shared, k: Task, ch: Choice)
    requires TaskOk(k) && k.pc.AtEnsure? && Wants(k.pc).None? && Agree(k.guards, sh, sh')
    ensures SameEffect(EnsureEffect(t, sh, k, k.pc.e, ch), EnsureEffect(t, sh', k, k.pc.e, ch))
  {
    match k.pc.e
    case EnsureTest =>
    case EnsureFlagRead =>
    case EnsureLoad =>
    case StoreKeys =>
    case StoreFlag =>
    case StoreFlagRelease =>
    case StoreRelease =>
  }

  lemma AuthReads(c: Config, now: nat, procs: ProcessTable, t: nat, sh: Shared, sh': Shared, k: Task, ch: Choice)
    requires TaskOk(k) && k.pc.AtAuth? && Wants(k.pc).None? && Agree(k.guards, sh, sh')
    ensures SameEffect(AuthEffect(c, now, procs, t, sh, k, k.pc.a, ch), AuthEffect(c, now, procs, t, sh', k, k.pc.a, ch))
  {
    match k.pc.a
    case FindContext =>
    case HitRead =>
    case TouchToGrant =>
    case GrantStore =>
    case TouchOnly =>
    case Approve =>
  }

  lemma SignReads(t: nat, sh: Shared, sh': Shared, k: Task)
    requires TaskOk(k) && k.pc.AtSign? && Wants(k.pc).None? && Agree(k.guards, sh, sh')
    ensures SameEffect(SignEffect(t, sh, k, k.pc.s), SignEffect(t, sh', k, k.pc.s))
  {
  }

  lemma EditReads(t: nat, sh: Shared, sh': Shared, k: Task, ch: Choice)
    requires TaskOk(k) && k.pc.AtEdit? && Wants(k.pc).None? && Agree(k.guards, sh, sh')
    ensures SameEffect(EditEffect(t, sh, k, k.pc.d, ch), EditEffect(t, sh', k, k.pc.d, ch))
  {
    match k.pc.d
    case AddSave =>
    case AddStore =>
    case AddRelease =>
    case RemoveSave =>
    case RemoveStore =>
  }

  lemma LockReads(t: nat, sh: Shared, sh': Shared, k: Task, hash: Digest)
    requires TaskOk(k) && k.pc.AtLock? && Wants(k.pc).None? && Agree(k.guards, sh, sh')
    ensures SameEffect(LockEffect(t, sh, k, k.pc.l, hash), LockEffect(t, sh', k, k.pc.l, hash))
  {
    match k.pc.l
    case LockTest =>
    case LockPassStore =>
    case LockKeysClear =>
    case LockCacheClear =>
    case LockCacheRelease =>
    case LockKeysRelease =>
    case LockPassRelease =>
    case LockReturn =>
  }

  lemma UnlockReads(t: nat, sh: Shared, sh': Shared, k: Task, candidate: Digest, ch: Choice)
    requires TaskOk(k) && k.pc.AtUnlock? && Wants(k.pc).None? && Agree(k.guards, sh, sh')
    ensures SameEffect(UnlockEffect(t, sh, k, k.pc.u, candidate, ch), UnlockEffect(t, sh', k, k.pc.u, candidate, ch))
  {
    match k.pc.u
    case UnlockTest =>
    case UnlockCompare =>
    case UnlockOpen =>
    case UnlockWipe =>
    case UnlockLoad =>
    case UnlockKeysStore =>
    case UnlockPassRelease =>
    case UnlockReturn =>
  }

  lemma SweepReads(c: Config, now: nat, t: nat, sh: Shared, sh': Shared, k: Task)
    requires TaskOk(k) && k.pc.AtSweep? && Wants(k.pc).None? && Agree(k.guards, sh, sh')
    ensures SameEffect(SweepEffect(c, now, t, sh, k, k.pc.w), SweepEffect(c, now, t, sh', k, k.pc.w))
  {
    match k.pc.w
    case SweepRead =>
    case SweepElapsed =>
    case SweepKeys =>
    case SweepFlag =>
    case SweepFlagRelease =>
    case SweepKeysRelease =>
    case CacheStore =>
  }

  /** What a step does depends only on the cells it holds guards for. */
  lemma EveryReadIsGuarded(c: Config, now: nat, procs: ProcessTable, t: nat, sh: Shared, sh': Shared, k: Task, ch: Choice)
    requires TaskOk(k) && !k.pc.Idle? && Wants(k.pc).None? && Agree(k.guards, sh, sh')
    ensures SameEffect(LocalEffect(c, now, procs, t, sh, k, ch), LocalEffect(c, now, procs, t, sh', k, ch))
  {
    match k.pc
    case AtCheck(_) => CheckReads(t, sh, sh', k);
    case AtEnsure(_) => EnsureReads(t, sh, sh', k, ch);
    case AtAuth(_) => AuthReads(c, now, procs, t, sh, sh', k, ch);
    case AtSign(_) => SignReads(t, sh, sh', k);
    case AtEdit(_) => EditReads(t, sh, sh', k, ch);
    case AtLock(_) => LockReads(t, sh, sh', k, if k.op.LockAgent? then k.op.hash else []);
    case AtUnlock(_) => UnlockReads(t, sh, sh', k, if k.op.UnlockAgent? then k.op.hash else [], ch);
    case AtSweep(_) => SweepReads(c, now, t, sh, sh', k);
    case _ =>
  }
}
