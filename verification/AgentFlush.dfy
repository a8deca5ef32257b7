/**
 What locking flushes, under fine interleaving: once `lock` has returned, no task still borrows a private key
 it looked up before, and the cache holds no sign grant whose keys guard was taken before.
 */
module AgentFlush {
  import opened Common
  import opened AncestorWalk
  import opened AgentMachine
  import opened AgentGuards
  import AgentAuthorization
  import AgentLockProtocol

  ghost predicate NoFlushSince(tr: Trace, i: nat) {
    forall j | i <= j < |tr| :: !tr[j].KeysFlushed?
  }

  /** The lock request set the flag at event `i`. */
  ghost predicate SetAt(tr: Trace, i: nat, t: nat, req: nat) {
    i < |tr| && tr[i].LockSet? && tr[i].t == t && tr[i].req == req
  }

  ghost predicate SetBefore(tr: Trace, l: nat, t: nat, req: nat) {
    exists i | 0 <= i < l :: SetAt(tr, i, t, req)
  }

  /** After setting the flag, the lock request emptied the key map at event `l`. */
  ghost predicate FlushedAt(tr: Trace, l: nat, t: nat, req: nat) {
    req < l < |tr| && tr[l] == KeysFlushed(t, req) && SetBefore(tr, l, t, req)
  }

  /** It emptied the key map at event `l` and then, still owning the keys, the cache at event `m`. */
  ghost predicate ClearedAt(tr: Trace, l: nat, m: nat, t: nat, req: nat) {
    FlushedAt(tr, l, t, req) && l < m < |tr| && tr[m] == CacheCleared(t, req)
  }

  ghost predicate FlushedBy(tr: Trace, t: nat, req: nat) {
    exists l :: FlushedAt(tr, l, t, req)
  }

  ghost predicate ClearedBy(tr: Trace, t: nat, req: nat) {
    exists l, m :: ClearedAt(tr, l, m, t, req)
  }

  ghost predicate EventOk(past: Trace, e: Event) {
    match e
    case Granted(_, _, _, _, isDecrypt, _, keysAt) => !isDecrypt ==> keysAt <= |past| && NoFlushSince(past, keysAt)
    case LockReturned(t, req) => ClearedBy(past, t, req)
    case _ => true
  }

  ghost predicate TraceOk(tr: Trace) {
    forall i | 0 <= i < |tr| :: EventOk(tr[..i], tr[i])
  }

  /** Where a task may hold a borrowed private key. */
  predicate MayHoldKey(pc: Pc, op: Op) {
    op.Sign? && (pc.AtAuth? || (pc.AtSign? && !pc.s.SignAcquire?))
  }

  predicate AfterFlush(pc: Pc) {
    pc == AtLock(LockCacheAcquire) || pc == AtLock(LockCacheClear)
  }

  predicate AfterClear(pc: Pc) {
    pc == AtLock(LockCacheRelease) || pc == AtLock(LockKeysRelease) || pc == AtLock(LockPassRelease) || pc == AtLock(LockReturn)
  }

  ghost predicate FlushTaskOk(tr: Trace, t: nat, k: Task) {
    && (!k.pc.Idle? ==> k.req < |tr|)
    && (k.guards.keys.Read? ==> k.keysAt <= |tr| && NoFlushSince(tr, k.keysAt))
    && (k.key.Some? ==> MayHoldKey(k.pc, k.op))
    && (AgentLockProtocol.Locking(k.pc) ==> SetBefore(tr, |tr|, t, k.req))
    && (AfterFlush(k.pc) ==> FlushedBy(tr, t, k.req))
    && (AfterClear(k.pc) ==> ClearedBy(tr, t, k.req))
  }

  ghost predicate FlushInv(s: System) {
    TraceOk(s.trace) && forall t | 0 <= t < |s.tasks| :: FlushTaskOk(s.trace, t, s.tasks[t])
  }

  lemma SetBeforeStays(tr: Trace, e: Event, l: nat, t: nat, req: nat)
    requires SetBefore(tr, l, t, req)
    ensures SetBefore(tr + [e], l, t, req) && SetBefore(tr + [e], l + 1, t, req)
  {
    var i: nat :| i < l && SetAt(tr, i, t, req);
    assert SetAt(tr + [e], i, t, req);
  }

  lemma FlushedByStays(tr: Trace, e: Event, t: nat, req: nat)
    requires FlushedBy(tr, t, req)
    ensures FlushedBy(tr + [e], t, req)
  {
    var l: nat :| FlushedAt(tr, l, t, req);
    assert (tr + [e])[l] == tr[l];
    SetBeforeStays(tr, e, l, t, req);
    assert FlushedAt(tr + [e], l, t, req);
  }

  lemma ClearedByStays(tr: Trace, e: Event, t: nat, req: nat)
    requires ClearedBy(tr, t, req)
    ensures ClearedBy(tr + [e], t, req)
  {
    var l: nat, m: nat :| ClearedAt(tr, l, m, t, req);
    assert (tr + [e])[l] == tr[l] && (tr + [e])[m] == tr[m];
    SetBeforeStays(tr, e, l, t, req);
    assert ClearedAt(tr + [e], l, m, t, req);
  }

  lemma NoFlushStays(tr: Trace, e: Event, i: nat)
    requires NoFlushSince(tr, i) && !e.KeysFlushed?
    ensures NoFlushSince(tr + [e], i)
  {
  }

  lemma TraceExtends(tr: Trace, e: Event)
    requires TraceOk(tr) && EventOk(tr, e)
    ensures TraceOk(tr + [e])
  {
    forall i | 0 <= i < |tr + [e]| ensures EventOk((tr + [e])[..i], (tr + [e])[i]) {
      if i < |tr| {
        assert (tr + [e])[..i] == tr[..i];
      } else {
        assert (tr + [e])[..i] == tr;
      }
    }
  }

  /** An event other than a flush disturbs no task; a flush disturbs none that holds no keys guard. */
  lemma TaskStays(tr: Trace, e: Event, t: nat, k: Task)
    requires FlushTaskOk(tr, t, k) && (e.KeysFlushed? ==> !k.guards.keys.Read?)
    ensures FlushTaskOk(tr + [e], t, k)
  {
    if k.guards.keys.Read? { NoFlushStays(tr, e, k.keysAt); }
    if AgentLockProtocol.Locking(k.pc) { SetBeforeStays(tr, e, |tr|, t, k.req); }
    if AfterFlush(k.pc) { FlushedByStays(tr, e, t, k.req); }
    if AfterClear(k.pc) { ClearedByStays(tr, e, t, k.req); }
  }

  // ---------------------------------------------------------------------------
  // One stretch of code
  // ---------------------------------------------------------------------------

  ghost predicate FlushStepOk(tr: Trace, t: nat, k: Task, e: Effect) {
    && (e.event.Some? ==> EventOk(tr, e.event.value))
    && FlushTaskOk(Recorded(tr, e.event), t, e.task)
    && (e.event.Some? && e.event.value.KeysFlushed? ==> k.guards.keys.Write?)
  }

  /** Code that neither flushes nor grants. */
  predicate FlushElsewhere(k: Task, e: Effect) {
    && e.task.req == k.req && e.task.keysAt == k.keysAt
    && (e.task.guards.keys.Read? ==> k.guards.keys.Read?)
    && (e.task.key.Some? ==> MayHoldKey(e.task.pc, e.task.op))
    && !AgentLockProtocol.Locking(e.task.pc) && !AfterFlush(e.task.pc) && !AfterClear(e.task.pc)
    && (e.event.Some? ==>
          !e.event.value.KeysFlushed? && !e.event.value.LockReturned? && !e.event.value.CacheCleared? && !e.event.value.Granted?)
  }

  lemma ElsewhereIsOk(tr: Trace, t: nat, k: Task, e: Effect)
    requires FlushTaskOk(tr, t, k) && !k.pc.Idle? && FlushElsewhere(k, e)
    ensures FlushStepOk(tr, t, k, e)
  {
    if e.event.Some? && k.guards.keys.Read? { NoFlushStays(tr, e.event.value, k.keysAt); }
  }

  lemma CheckFlushes(t: nat, sh: Shared, k: Task)
    requires TaskOk(k) && k.pc.AtCheck? && Wants(k.pc).None? && (k.key.Some? ==> MayHoldKey(k.pc, k.op))
    ensures FlushElsewhere(k, CheckEffect(t, sh, k))
  {
  }

  lemma EnsureFlushes(t: nat, sh: Shared, k: Task, ch: Choice)
    requires TaskOk(k) && k.pc.AtEnsure? && Wants(k.pc).None? && (k.key.Some? ==> MayHoldKey(k.pc, k.op))
    ensures FlushElsewhere(k, EnsureEffect(t, sh, k, k.pc.e, ch))
  {
    match k.pc.e
    case EnsureTest =>
    case EnsureFlagRead =>
    case EnsureLoad =>
    case StoreKeys =>
    case StoreFlag =>
    case StoreFlagRelease =>
    case StoreRelease =>
  }

  lemma AuthFlushes(c: Config, now: nat, procs: ProcessTable, t: nat, sh: Shared, k: Task, ch: Choice)
    requires TaskOk(k) && k.pc.AtAuth? && Wants(k.pc).None? && !k.pc.a.GrantStore? && (k.key.Some? ==> MayHoldKey(k.pc, k.op))
    ensures FlushElsewhere(k, AuthEffect(c, now, procs, t, sh, k, k.pc.a, ch))
  {
    match k.pc.a
    case FindContext =>
    case HitRead =>
    case TouchToGrant =>
    case TouchOnly =>
    case Approve =>
  }

  lemma SignFlushes(t: nat, sh: Shared, k: Task)
    requires TaskOk(k) && k.pc.AtSign? && Wants(k.pc).None? && (k.key.Some? ==> MayHoldKey(k.pc, k.op))
    ensures FlushElsewhere(k, SignEffect(t, sh, k, k.pc.s))
  {
  }

  lemma EditFlushes(t: nat, sh: Shared, k: Task, ch: Choice)
    requires TaskOk(k) && k.pc.AtEdit? && Wants(k.pc).None? && (k.key.Some? ==> MayHoldKey(k.pc, k.op))
    ensures FlushElsewhere(k, EditEffect(t, sh, k, k.pc.d, ch))
  {
    match k.pc.d
    case AddSave =>
    case AddStore =>
    case AddRelease =>
    case RemoveSave =>
    case RemoveStore =>
  }

  lemma UnlockFlushes(t: nat, sh: Shared, k: Task, candidate: Digest, ch: Choice)
    requires TaskOk(k) && k.pc.AtUnlock? && Wants(k.pc).None? && (k.key.Some? ==> MayHoldKey(k.pc, k.op))
    ensures FlushElsewhere(k, UnlockEffect(t, sh, k, k.pc.u, candidate, ch))
  {
    match k.pc.u
    case UnlockTest =>
    case UnlockCompare =>
    case UnlockOpen =>
    case UnlockWipe =>
    case UnlockLoad =>
    case UnlockKeysStore =>
    case UnlockPassRelease =>
    case UnlockReturn =>
  }

  lemma SweepFlushes(c: Config, now: nat, t: nat, sh: Shared, k: Task)
    requires TaskOk(k) && k.pc.AtSweep? && Wants(k.pc).None? && (k.key.Some? ==> MayHoldKey(k.pc, k.op))
    ensures FlushElsewhere(k, SweepEffect(c, now, t, sh, k, k.pc.w))
  {
    match k.pc.w
    case SweepRead =>
    case SweepElapsed =>
    case SweepKeys =>
    case SweepFlag =>
    case SweepFlagRelease =>
    case SweepKeysRelease =>
    case CacheStore =>
  }

  lemma GrantFlushes(c: Config, now: nat, procs: ProcessTable, tr: Trace, t: nat, sh: Shared, k: Task, ch: Choice)
    requires TaskOk(k) && k.pc == AtAuth(GrantStore) && FlushTaskOk(tr, t, k)
    ensures FlushStepOk(tr, t, k, AuthEffect(c, now, procs, t, sh, k, GrantStore, ch))
  {
    var e := AuthEffect(c, now, procs, t, sh, k, GrantStore, ch);
    if k.guards.keys.Read? { NoFlushStays(tr, e.event.value, k.keysAt); }
  }

  lemma LockFlushes(tr: Trace, t: nat, sh: Shared, k: Task, hash: Digest)
    requires TaskOk(k) && k.pc.AtLock? && Wants(k.pc).None? && FlushTaskOk(tr, t, k)
    ensures FlushStepOk(tr, t, k, LockEffect(t, sh, k, k.pc.l, hash))
  {
    var e := LockEffect(t, sh, k, k.pc.l, hash);
    var tr' := Recorded(tr, e.event);
    assert k.key.None?;
    if e.event.Some? && AgentLockProtocol.Locking(k.pc) { SetBeforeStays(tr, e.event.value, |tr|, t, k.req); }
    match k.pc.l
    case LockTest => if !sh.locked { assert SetAt(tr', |tr|, t, k.req); }
    case LockPassStore =>
    case LockKeysClear =>
      assert tr'[|tr|] == KeysFlushed(t, k.req);
      assert FlushedAt(tr', |tr|, t, k.req);
    case LockCacheClear =>
      var l: nat :| FlushedAt(tr, l, t, k.req);
      assert tr'[|tr|] == CacheCleared(t, k.req) && tr'[l] == tr[l];
      SetBeforeStays(tr, CacheCleared(t, k.req), l, t, k.req);
      assert ClearedAt(tr', l, |tr|, t, k.req);
    case LockCacheRelease =>
    case LockKeysRelease =>
    case LockPassRelease =>
    case LockReturn => ClearedByStays(tr, e.event.value, t, k.req);
  }

  lemma LocalFlushes(c: Config, now: nat, procs: ProcessTable, tr: Trace, t: nat, sh: Shared, k: Task, ch: Choice)
    requires TaskOk(k) && !k.pc.Idle? && Wants(k.pc).None? && FlushTaskOk(tr, t, k)
    ensures FlushStepOk(tr, t, k, LocalEffect(c, now, procs, t, sh, k, ch))
  {
    var e := LocalEffect(c, now, procs, t, sh, k, ch);
    match k.pc
    case AtCheck(_) => CheckFlushes(t, sh, k); ElsewhereIsOk(tr, t, k, e);
    case AtEnsure(_) => EnsureFlushes(t, sh, k, ch); ElsewhereIsOk(tr, t, k, e);
    case AtAuth(GrantStore) => GrantFlushes(c, now, procs, tr, t, sh, k, ch);
    case AtAuth(_) => AuthFlushes(c, now, procs, t, sh, k, ch); ElsewhereIsOk(tr, t, k, e);
    case AtSign(_) => SignFlushes(t, sh, k); ElsewhereIsOk(tr, t, k, e);
    case AtEdit(_) => EditFlushes(t, sh, k, ch); ElsewhereIsOk(tr, t, k, e);
    case AtLock(_) => LockFlushes(tr, t, sh, k, if k.op.LockAgent? then k.op.hash else []);
    case AtUnlock(_) => UnlockFlushes(t, sh, k, if k.op.UnlockAgent? then k.op.hash else [], ch); ElsewhereIsOk(tr, t, k, e);
    case AtSweep(_) => SweepFlushes(c, now, t, sh, k); ElsewhereIsOk(tr, t, k, e);
    case _ => ElsewhereIsOk(tr, t, k, e);
  }

  // ---------------------------------------------------------------------------
  // One step of the system
  // ---------------------------------------------------------------------------

  lemma LocalKeepsFlush(c: Config, s: System, t: nat, ch: Choice)
    requires GuardInv(s) && FlushInv(s) && Enabled(s, Local(t, ch))
    ensures FlushInv(Next(c, s, Local(t, ch)))
  {
    var k := s.tasks[t];
    var s' := Next(c, s, Local(t, ch));
    assert TaskOk(k) && FlushTaskOk(s.trace, t, k);
    var e := LocalEffect(c, s.now, s.procs, t, s.shared, k, ch);
    LocalFlushes(c, s.now, s.procs, s.trace, t, s.shared, k, ch);
    if e.event.Some? {
      TraceExtends(s.trace, e.event.value);
      forall u | 0 <= u < |s'.tasks| && u != t ensures FlushTaskOk(s'.trace, u, s'.tasks[u]) {
        if e.event.value.KeysFlushed? {
          assert s.tasks[t].guards.At(LKeys).Write?;
          assert s.tasks[u].guards.At(LKeys).Free?;
        }
        TaskStays(s.trace, e.event.value, u, s.tasks[u]);
      }
    }
  }

  lemma AcquiredPc(pc: Pc, op: Op)
    requires Wants(pc).Some?
    ensures AgentLockProtocol.Locking(AfterAcquire(pc)) ==> AgentLockProtocol.Locking(pc)
    ensures AfterFlush(AfterAcquire(pc)) == AfterFlush(pc) && AfterClear(AfterAcquire(pc)) == AfterClear(pc)
    ensures MayHoldKey(pc, op) ==> MayHoldKey(AfterAcquire(pc), op)
  {
  }

  lemma AcquireKeepsFlush(c: Config, s: System, t: nat)
    requires GuardInv(s) && FlushInv(s) && Enabled(s, Acquire(t))
    ensures FlushInv(Next(c, s, Acquire(t)))
  {
    var k := s.tasks[t];
    var s' := Next(c, s, Acquire(t));
    assert TaskOk(k) && FlushTaskOk(s.trace, t, k);
    var pc' := AfterAcquire(k.pc);
    AcquiredPc(k.pc, k.op);
    assert s'.tasks[t].pc == pc' && s'.tasks[t].op == k.op && s'.tasks[t].key == k.key && s'.tasks[t].req == k.req;
    assert FlushTaskOk(s'.trace, t, s'.tasks[t]);
  }

  lemma ArriveKeepsFlush(c: Config, s: System, t: nat, op: Op)
    requires GuardInv(s) && FlushInv(s) && Enabled(s, Arrive(t, op))
    ensures FlushInv(Next(c, s, Arrive(t, op)))
  {
    var s' := Next(c, s, Arrive(t, op));
    var e := Arrived(t, op, s.tasks[t].peer);
    TraceExtends(s.trace, e);
    assert TaskOk(s.tasks[t]) && FlushTaskOk(s.trace, t, s.tasks[t]);
    forall u | 0 <= u < |s'.tasks| ensures FlushTaskOk(s'.trace, u, s'.tasks[u]) {
      TaskStays(s.trace, e, u, s.tasks[u]);
    }
  }

  lemma NextKeepsFlush(c: Config, s: System, a: Label)
    requires GuardInv(s) && FlushInv(s) && Enabled(s, a)
    ensures FlushInv(Next(c, s, a))
  {
    match a
    case Tick(_) =>
    case ProcessesChange(_) =>
    case Enqueue(_) =>
    case Acquire(t) => AcquireKeepsFlush(c, s, t);
    case Arrive(t, op) => ArriveKeepsFlush(c, s, t, op);
    case Local(t, ch) => LocalKeepsFlush(c, s, t, ch);
  }

  lemma {:induction false} FlushAlwaysHolds(c: Config, s0: System, labels: seq<Label>)
    requires Init(s0) && Exec(c, s0, labels).Some?
    ensures FlushInv(Exec(c, s0, labels).value)
  {
    if labels != [] {
      var before := labels[..|labels| - 1];
      FlushAlwaysHolds(c, s0, before);
      GuardsAlwaysHold(c, s0, before);
      NextKeepsFlush(c, Exec(c, s0, before).value, labels[|labels| - 1]);
    }
  }

  // ---------------------------------------------------------------------------
  // Every run
  // ---------------------------------------------------------------------------

  /** Lock, flush and clear of the lock that returned at event `r`. */
  ghost predicate LockedBy(tr: Trace, r: nat, i: nat, l: nat, m: nat) {
    r < |tr| && tr[r].LockReturned? && i < l && SetAt(tr, i, tr[r].t, tr[r].req)
    && ClearedAt(tr, l, m, tr[r].t, tr[r].req) && m < r
  }

  lemma ReturnedLock(tr: Trace, r: nat) returns (i: nat, l: nat, m: nat)
    requires TraceOk(tr) && r < |tr| && tr[r].LockReturned?
    ensures LockedBy(tr, r, i, l, m)
  {
    var past := tr[..r];
    assert EventOk(past, tr[r]);
    l, m :| ClearedAt(past, l, m, tr[r].t, tr[r].req);
    assert tr[l] == past[l] && tr[m] == past[m];
    i :| i < l && SetAt(past, i, tr[r].t, tr[r].req);
    assert tr[i] == past[i];
    assert SetAt(tr, i, tr[r].t, tr[r].req);
  }

  /** Every borrowed key was looked up under a keys guard taken after event `l`. */
  ghost predicate KeysBorrowedAfter(s: System, l: nat) {
    forall t | 0 <= t < |s.tasks| && s.tasks[t].key.Some? :: s.tasks[t].keysAt > l
  }

  /** Every sign entry of the cache comes from an uncleared grant made under a keys guard taken after `l`. */
  ghost predicate SignGrantsAfter(c: Config, s: System, l: nat) {
    forall context, fp | (context, fp) in s.shared.cache && fp != DECRYPT_FINGERPRINT ::
      GrantedAfter(c, s, context, fp, s.shared.cache[(context, fp)], l)
  }

  ghost predicate GrantedAfter(c: Config, s: System, context: nat, fp: string, expiry: nat, l: nat) {
    exists g: nat :: AgentAuthorization.IsSource(c.ttl, s.trace, g, context, fp, expiry) && s.trace[g].keysAt > l
  }

  lemma BorrowersCameLater(s: System, l: nat, t: nat, req: nat)
    requires GuardInv(s) && FlushInv(s) && FlushedAt(s.trace, l, t, req)
    ensures KeysBorrowedAfter(s, l)
  {
    forall u | 0 <= u < |s.tasks| && s.tasks[u].key.Some? ensures s.tasks[u].keysAt > l {
      assert TaskOk(s.tasks[u]) && FlushTaskOk(s.trace, u, s.tasks[u]);
      assert s.tasks[u].guards.keys.Read?;
    }
  }

  lemma GrantCameLater(tr: Trace, g: nat, l: nat, m: nat)
    requires TraceOk(tr) && l < m < |tr| && g < |tr| && tr[l].KeysFlushed? && tr[m].CacheCleared?
    requires tr[g].Granted? && !tr[g].isDecrypt && AgentAuthorization.NoClearSince(tr, g)
    ensures tr[g].keysAt > l
  {
    assert m < g;
    assert EventOk(tr[..g], tr[g]);
    assert tr[..g][l] == tr[l];
  }

  lemma GrantsCameLater(c: Config, s: System, l: nat, m: nat, t: nat, req: nat)
    requires TraceOk(s.trace) && AgentAuthorization.AuthInv(c, s) && ClearedAt(s.trace, l, m, t, req)
    ensures SignGrantsAfter(c, s, l)
  {
    forall context, fp | (context, fp) in s.shared.cache && fp != DECRYPT_FINGERPRINT
      ensures GrantedAfter(c, s, context, fp, s.shared.cache[(context, fp)], l)
    {
      var expiry := s.shared.cache[(context, fp)];
      AgentAuthorization.EntryHasGrant(c.ttl, s.trace, context, fp);
      var g: nat :| AgentAuthorization.IsSource(c.ttl, s.trace, g, context, fp, expiry);
      AgentAuthorization.SourceKind(c, s.trace, g, context, fp, expiry);
      GrantCameLater(s.trace, g, l, m);
    }
  }

  /** Once a lock has returned, and for ever after, no task borrows a key looked up before the lock emptied
      the map, and no sign entry of the cache was granted under a keys guard taken before that. Keys that are stored
      and looked up later are another matter. */
  lemma LockFlushesForGood(c: Config, s0: System, labels: seq<Label>, r: nat)
    requires Init(s0) && Exec(c, s0, labels).Some?
    requires r < |Exec(c, s0, labels).value.trace| && Exec(c, s0, labels).value.trace[r].LockReturned?
    ensures var s := Exec(c, s0, labels).value;
      exists i, l, m :: LockedBy(s.trace, r, i, l, m) && KeysBorrowedAfter(s, l) && SignGrantsAfter(c, s, l)
  {
    var s := Exec(c, s0, labels).value;
    GuardsAlwaysHold(c, s0, labels);
    FlushAlwaysHolds(c, s0, labels);
    AgentAuthorization.AuthAlwaysHolds(c, s0, labels);
    var i, l, m := ReturnedLock(s.trace, r);
    BorrowersCameLater(s, l, s.trace[r].t, s.trace[r].req);
    GrantsCameLater(c, s, l, m, s.trace[r].t, s.trace[r].req);
  }

  // ---------------------------------------------------------------------------
  // What else can be in the cache of a locked agent
  // ---------------------------------------------------------------------------

  ghost predicate NoResetSince(tr: Trace, i: nat) {
    forall n | i < n < |tr| :: !tr[n].LockReset?
  }

  ghost predicate StartedBy(tr: Trace, i: nat, t: nat, req: nat) {
    exists j | 0 <= j < i && j < |tr| :: tr[j] == Started(t, req)
  }

  /** A grant made while the agent is locked belongs to a request that passed its check before the lock. */
  lemma LockedGrantStartedEarlier(tr: Trace, i: nat, g: nat)
    requires AgentLockProtocol.TraceOk(tr) && i < g < |tr| && tr[i].LockSet? && tr[g].Granted? && NoResetSince(tr, i)
    ensures StartedBy(tr, i, tr[g].t, tr[g].req)
  {
    assert AgentLockProtocol.EventOk(tr[..g], tr[g]);
    var j :| 0 <= j < g && tr[..g][j] == Started(tr[g].t, tr[g].req);
    assert tr[j] == tr[..g][j];
    if j > i {
      assert AgentLockProtocol.EventOk(tr[..j], tr[j]);
      AgentLockProtocol.LockStays(tr, i, j);
    }
  }

  /** The entry comes from an uncleared grant, made after event `m` by a request that started before event `i`; for a
      sign entry under a keys guard taken after event `l`. */
  ghost predicate LateGrant(c: Config, s: System, context: nat, fp: string, expiry: nat, i: nat, l: nat, m: nat) {
    exists g: nat :: AgentAuthorization.IsSource(c.ttl, s.trace, g, context, fp, expiry) && m < g
      && StartedBy(s.trace, i, s.trace[g].t, s.trace[g].req)
      && (fp != DECRYPT_FINGERPRINT ==> s.trace[g].keysAt > l)
  }

  lemma GrantIsLate(c: Config, tr: Trace, g: nat, i: nat, l: nat, m: nat)
    requires TraceOk(tr) && AgentLockProtocol.TraceOk(tr) && i < l < m < |tr| && g < |tr|
    requires tr[i].LockSet? && tr[l].KeysFlushed? && tr[m].CacheCleared? && NoResetSince(tr, i)
    requires tr[g].Granted? && AgentAuthorization.NoClearSince(tr, g)
    ensures m < g && StartedBy(tr, i, tr[g].t, tr[g].req) && (!tr[g].isDecrypt ==> tr[g].keysAt > l)
  {
    assert m < g;
    LockedGrantStartedEarlier(tr, i, g);
    if !tr[g].isDecrypt { GrantCameLater(tr, g, l, m); }
  }

  lemma EntryIsLate(c: Config, s: System, context: nat, fp: string, i: nat, l: nat, m: nat)
    requires TraceOk(s.trace) && AgentAuthorization.AuthInv(c, s) && AgentLockProtocol.TraceOk(s.trace)
    requires i < l < m < |s.trace| && s.trace[i].LockSet? && s.trace[l].KeysFlushed? && s.trace[m].CacheCleared?
    requires NoResetSince(s.trace, i) && (context, fp) in s.shared.cache
    ensures LateGrant(c, s, context, fp, s.shared.cache[(context, fp)], i, l, m)
  {
    var expiry := s.shared.cache[(context, fp)];
    AgentAuthorization.EntryHasGrant(c.ttl, s.trace, context, fp);
    var g: nat :| AgentAuthorization.IsSource(c.ttl, s.trace, g, context, fp, expiry);
    AgentAuthorization.SourceKind(c, s.trace, g, context, fp, expiry);
    GrantIsLate(c, s.trace, g, i, l, m);
  }

  /** After a lock has returned and as long as nobody unlocks, every entry of the cache, for signing as for decrypting,
      was granted after the lock cleared the cache, by a request that had passed its check before the lock was set. */
  lemma LockedCacheIsLate(c: Config, s0: System, labels: seq<Label>, r: nat)
    requires Init(s0) && Exec(c, s0, labels).Some?
    requires r < |Exec(c, s0, labels).value.trace| && Exec(c, s0, labels).value.trace[r].LockReturned?
    ensures var s := Exec(c, s0, labels).value;
      exists i, l, m :: LockedBy(s.trace, r, i, l, m)
        && (NoResetSince(s.trace, i) ==> forall context, fp | (context, fp) in s.shared.cache ::
              LateGrant(c, s, context, fp, s.shared.cache[(context, fp)], i, l, m))
  {
    var s := Exec(c, s0, labels).value;
    FlushAlwaysHolds(c, s0, labels);
    AgentAuthorization.AuthAlwaysHolds(c, s0, labels);
    AgentLockProtocol.LockAlwaysHolds(c, s0, labels);
    var i, l, m := ReturnedLock(s.trace, r);
    if NoResetSince(s.trace, i) {
      forall context, fp | (context, fp) in s.shared.cache
        ensures LateGrant(c, s, context, fp, s.shared.cache[(context, fp)], i, l, m)
      {
        EntryIsLate(c, s, context, fp, i, l, m);
      }
    }
  }
}
