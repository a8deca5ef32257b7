/**
 Who approved what: over every run of the fine-grained agent, each approval has a touch of its own or rests on
 a touched grant for the same context and fingerprint that is recent enough and was not cleared.
 */
module AgentAuthorization {
  import opened Common
  import opened AncestorWalk
  import opened AgentMachine
  import opened AgentGuards
  import AuthCache

  // ---------------------------------------------------------------------------
  // What counts as authorized, said about the trace alone
  // ---------------------------------------------------------------------------

  /** Request `req` was made to task `t`. */
  ghost predicate IsRequest(tr: Trace, t: nat, req: nat) {
    req < |tr| && tr[req].Arrived? && tr[req].t == t
  }

  /** The request has been confirmed by a touch of its own. */
  ghost predicate OwnTouch(tr: Trace, t: nat, req: nat) {
    exists j | 0 <= j < |tr| :: tr[j] == Touched(t, req, true)
  }

  /** The request looked its cache context up, in the process table of that moment, and found this one. */
  ghost predicate InContext(c: Config, tr: Trace, t: nat, req: nat, context: nat) {
    && IsRequest(tr, t, req)
    && exists j | 0 <= j < |tr| :: ContextFoundAt(c, tr[j], t, req, tr[req].peer, context)
  }

  ghost predicate ContextFoundAt(c: Config, e: Event, t: nat, req: nat, peer: Option<i32>, context: nat) {
    && e.FoundContext? && e.t == t && e.req == req && e.found == Some(context)
    && peer.Some? && IsContext(c.mode, e.procs, peer.value, context)
  }

  /** In per-session mode the terminal of the peer, in per-app mode the application around it, as the table has it. */
  ghost predicate IsContext(mode: Mode, procs: ProcessTable, peer: i32, context: nat) {
    (mode.PerSession? && IsTtyContext(procs, peer, context)) || (mode.PerApp? && IsAppContext(procs, peer, context))
  }

  /** The context that is looked up is the right one; there is none without caching or without a known peer. */
  lemma ContextIsRight(mode: Mode, peer: Option<i32>, procs: ProcessTable)
    ensures var found := ContextOf(mode, peer, procs);
      && (found.None? <==> mode.CacheNone? || peer.None?)
      && (found.Some? ==> IsContext(mode, procs, peer.value, found.value))
  {
    if peer.Some? {
      TtyIsContext(procs, peer.value);
      AppPidIsContext(procs, peer.value);
    }
  }

  ghost predicate ApprovedBefore(tr: Trace, t: nat, req: nat) {
    exists j | 0 <= j < |tr| :: tr[j] == Approved(t, req)
  }

  ghost predicate NoClearSince(tr: Trace, g: nat) {
    forall j | g < j < |tr| :: !tr[j].CacheCleared?
  }

  /** Event `g` granted this context and fingerprint, still runs at `at`, was not cleared, was touched for, and
      belongs to a request made in that context. */
  ghost predicate Backs(c: Config, tr: Trace, g: nat, context: nat, fingerprint: string, isDecrypt: bool, at: nat) {
    && g < |tr| && tr[g].Granted?
    && tr[g].context == context && tr[g].fingerprint == fingerprint && tr[g].isDecrypt == isDecrypt
    && tr[g].at <= at < tr[g].at + (if isDecrypt then c.ttl.decrypt else c.ttl.sign)
    && NoClearSince(tr, g)
    && OwnTouch(tr[..g], tr[g].t, tr[g].req)
    && InContext(c, tr[..g], tr[g].t, tr[g].req, context)
  }

  ghost predicate IsBacked(c: Config, tr: Trace, context: nat, fingerprint: string, isDecrypt: bool, at: nat) {
    exists g :: Backs(c, tr, g, context, fingerprint, isDecrypt, at)
  }

  /** The cache answered for this request, and a grant of the right kind backed the answer. */
  ghost predicate CacheTouch(c: Config, tr: Trace, h: nat, t: nat, req: nat, op: Op) {
    && h < |tr| && tr[h].Hit? && tr[h].t == t && tr[h].req == req && tr[h].fingerprint == CacheFingerprint(op)
    && InContext(c, tr[..h], t, req, tr[h].context)
    && IsBacked(c, tr[..h], tr[h].context, tr[h].fingerprint, op.Decrypt?, tr[h].at)
  }

  /** The full condition for an approval. */
  ghost predicate Justified(c: Config, tr: Trace, t: nat, req: nat) {
    && IsRequest(tr, t, req)
    && var op, peer := tr[req].op, tr[req].peer;
    && (op.Sign? || op.Decrypt? || op.Auth?)
    && (OwnTouch(tr, t, req)
        || (!op.Auth? && !c.mode.CacheNone? && peer.Some? && exists h :: CacheTouch(c, tr, h, t, req, op)))
  }

  /** Each event of the trace is justified by the events before it. */
  ghost predicate EventOk(c: Config, past: Trace, e: Event) {
    match e
    case Granted(t, req, context, fp, isDecrypt, _, _) =>
      && OwnTouch(past, t, req) && InContext(c, past, t, req, context) && (isDecrypt <==> fp == DECRYPT_FINGERPRINT)
      && (past[req].op.Sign? || past[req].op.Decrypt?) && fp == CacheFingerprint(past[req].op)
    case FoundContext(t, req, found, procs) =>
      && IsRequest(past, t, req) && (found.None? <==> c.mode.CacheNone? || past[req].peer.None?)
    case Hit(t, req, context, fp, at) =>
      InContext(c, past, t, req, context) && IsBacked(c, past, context, fp, fp == DECRYPT_FINGERPRINT, at)
    case Approved(t, req) => Justified(c, past, t, req)
    case Signed(t, req) => ApprovedBefore(past, t, req)
    case _ => true
  }

  ghost predicate TraceOk(c: Config, tr: Trace) {
    forall i | 0 <= i < |tr| :: EventOk(c, tr[..i], tr[i])
  }

  // ---------------------------------------------------------------------------
  // The cache is what the trace says it is
  // ---------------------------------------------------------------------------

  function CacheStep(ttl: AuthCache.Ttl, m: AuthCache.Entries, e: Event): AuthCache.Entries {
    match e
    case Granted(_, _, context, fp, isDecrypt, at, _) => AuthCache.AfterGrant(ttl, m, context, fp, isDecrypt, at)
    case CacheCleared(_, _) => map[]
    case CacheSwept(at) => AuthCache.AfterSweep(m, at)
    case _ => m
  }

  function CacheOf(ttl: AuthCache.Ttl, tr: Trace): AuthCache.Entries {
    if tr == [] then map[] else CacheStep(ttl, CacheOf(ttl, tr[..|tr| - 1]), tr[|tr| - 1])
  }

  ghost predicate GrantsBy(tr: Trace, now: nat) {
    forall i | 0 <= i < |tr| && tr[i].Granted? :: tr[i].at <= now
  }

  ghost predicate IsSource(ttl: AuthCache.Ttl, tr: Trace, g: nat, context: nat, fp: string, expiry: nat) {
    && g < |tr| && tr[g].Granted? && tr[g].context == context && tr[g].fingerprint == fp
    && tr[g].at + (if tr[g].isDecrypt then ttl.decrypt else ttl.sign) == expiry && NoClearSince(tr, g)
  }

  /** Whatever the cache holds was put there by a grant that has not been cleared. */
  lemma {:induction false} EntryHasGrant(ttl: AuthCache.Ttl, tr: Trace, context: nat, fp: string)
    requires (context, fp) in CacheOf(ttl, tr)
    ensures exists g :: IsSource(ttl, tr, g, context, fp, CacheOf(ttl, tr)[(context, fp)])
  {
    var init, e := tr[..|tr| - 1], tr[|tr| - 1];
    if e.Granted? && e.context == context && e.fingerprint == fp {
      assert IsSource(ttl, tr, |tr| - 1, context, fp, CacheOf(ttl, tr)[(context, fp)]);
    } else {
      EntryHasGrant(ttl, init, context, fp);
      var expiry := CacheOf(ttl, init)[(context, fp)];
      var g: nat :| IsSource(ttl, init, g, context, fp, expiry);
      assert tr[g] == init[g];
      forall j | g < j < |tr| ensures !tr[j].CacheCleared? {
        if j < |init| { assert tr[j] == init[j]; }
      }
      assert IsSource(ttl, tr, g, context, fp, expiry);
    }
  }

  // ---------------------------------------------------------------------------
  // The invariant
  // ---------------------------------------------------------------------------

  predicate AfterTouch(pc: Pc) {
    pc.AtAuth? && (pc.a.GrantAcquire? || pc.a.GrantStore?)
  }

  ghost predicate AuthTaskOk(c: Config, tr: Trace, t: nat, k: Task) {
    && (!k.pc.Idle? ==> k.req < |tr| && tr[k.req] == Arrived(t, k.op, k.peer))
    && (UsesContext(k.pc) ==>
          !c.mode.CacheNone? && k.peer.Some? && !k.op.Auth? && k.context.Some? && InContext(c, tr, t, k.req, k.context.value))
    && (AfterTouch(k.pc) ==> OwnTouch(tr, t, k.req))
    && (k.pc == AtAuth(Approve) ==> Justified(c, tr, t, k.req))
    && (k.pc == AtSign(SignUse) ==> ApprovedBefore(tr, t, k.req))
  }

  ghost predicate AuthInv(c: Config, s: System) {
    && TraceOk(c, s.trace)
    && s.shared.cache == CacheOf(c.ttl, s.trace)
    && GrantsBy(s.trace, s.now)
    && forall t | 0 <= t < |s.tasks| :: AuthTaskOk(c, s.trace, t, s.tasks[t])
  }

  lemma OwnTouchStays(tr: Trace, e: Event, t: nat, req: nat)
    requires OwnTouch(tr, t, req)
    ensures OwnTouch(tr + [e], t, req)
  {
    var j :| 0 <= j < |tr| && tr[j] == Touched(t, req, true);
    assert (tr + [e])[j] == Touched(t, req, true);
  }

  lemma InContextStays(c: Config, tr: Trace, e: Event, t: nat, req: nat, context: nat)
    requires InContext(c, tr, t, req, context)
    ensures InContext(c, tr + [e], t, req, context)
  {
    var j :| 0 <= j < |tr| && ContextFoundAt(c, tr[j], t, req, tr[req].peer, context);
    assert (tr + [e])[j] == tr[j] && (tr + [e])[req] == tr[req];
  }

  lemma ApprovedBeforeStays(tr: Trace, e: Event, t: nat, req: nat)
    requires ApprovedBefore(tr, t, req)
    ensures ApprovedBefore(tr + [e], t, req)
  {
    var j :| 0 <= j < |tr| && tr[j] == Approved(t, req);
    assert (tr + [e])[j] == Approved(t, req);
  }

  lemma JustifiedStays(c: Config, tr: Trace, e: Event, t: nat, req: nat)
    requires Justified(c, tr, t, req)
    ensures Justified(c, tr + [e], t, req)
  {
    var op := tr[req].op;
    if OwnTouch(tr, t, req) {
      OwnTouchStays(tr, e, t, req);
    } else {
      var h: nat :| CacheTouch(c, tr, h, t, req, op);
      CacheTouchStays(c, tr, e, h, t, req, op);
    }
  }

  lemma CacheTouchStays(c: Config, tr: Trace, e: Event, h: nat, t: nat, req: nat, op: Op)
    requires CacheTouch(c, tr, h, t, req, op)
    ensures CacheTouch(c, tr + [e], h, t, req, op)
  {
    assert (tr + [e])[..h] == tr[..h] && (tr + [e])[h] == tr[h];
  }

  lemma TaskOkStays(c: Config, tr: Trace, e: Event, t: nat, k: Task)
    requires AuthTaskOk(c, tr, t, k)
    ensures AuthTaskOk(c, tr + [e], t, k)
  {
    if UsesContext(k.pc) { InContextStays(c, tr, e, t, k.req, k.context.value); }
    if AfterTouch(k.pc) { OwnTouchStays(tr, e, t, k.req); }
    if k.pc == AtSign(SignUse) { ApprovedBeforeStays(tr, e, t, k.req); }
    if k.pc == AtAuth(Approve) { JustifiedStays(c, tr, e, t, k.req); }
  }

  lemma TraceExtends(c: Config, tr: Trace, e: Event)
    requires TraceOk(c, tr) && EventOk(c, tr, e)
    ensures TraceOk(c, tr + [e])
  {
    forall i | 0 <= i < |tr + [e]| ensures EventOk(c, (tr + [e])[..i], (tr + [e])[i]) {
      if i < |tr| {
        assert (tr + [e])[..i] == tr[..i];
      } else {
        assert (tr + [e])[..i] == tr;
      }
    }
  }

  // ---------------------------------------------------------------------------
  // One step
  // ---------------------------------------------------------------------------

  lemma SourceKind(c: Config, tr: Trace, g: nat, context: nat, fp: string, expiry: nat)
    requires TraceOk(c, tr) && IsSource(c.ttl, tr, g, context, fp, expiry)
    ensures tr[g].isDecrypt <==> fp == DECRYPT_FINGERPRINT
  {
    assert EventOk(c, tr[..g], tr[g]);
  }

  /** A hit of the cache is backed by a grant in the trace. */
  lemma HitIsBacked(c: Config, tr: Trace, now: nat, context: nat, fp: string)
    requires TraceOk(c, tr) && GrantsBy(tr, now)
    requires AuthCache.IsAuthorized(CacheOf(c.ttl, tr), context, fp, now)
    ensures IsBacked(c, tr, context, fp, fp == DECRYPT_FINGERPRINT, now)
  {
    EntryHasGrant(c.ttl, tr, context, fp);
    var g: nat :| IsSource(c.ttl, tr, g, context, fp, CacheOf(c.ttl, tr)[(context, fp)]);
    assert EventOk(c, tr[..g], tr[g]);
    assert Backs(c, tr, g, context, fp, fp == DECRYPT_FINGERPRINT, now);
  }

  /** Sign grants never serve a decrypt nor the reverse: the names of the keys differ. */
  lemma FingerprintKinds(op: Op)
    ensures CacheFingerprint(op) == DECRYPT_FINGERPRINT <==> !op.Sign?
  {
    if op.Sign? {
      assert CacheFingerprint(op)[0] == 'S';
      assert DECRYPT_FINGERPRINT[0] == 'd';
    }
  }

  /** What one stretch of code must establish for the task that runs it. */
  ghost predicate AuthStepOk(c: Config, tr: Trace, t: nat, k: Task, sh: Shared, e: Effect) {
    && e.task.op == k.op && e.task.peer == k.peer && e.task.req == k.req
    && e.shared.cache == (if e.event.Some? then CacheStep(c.ttl, sh.cache, e.event.value) else sh.cache)
    && (e.event.Some? ==> EventOk(c, tr, e.event.value))
    && AuthTaskOk(c, Recorded(tr, e.event), t, e.task)
  }

  /** Outside the authorization code nothing is granted, hit or approved, and the cache changes only by
      the events that say so. */
  predicate Elsewhere(t: nat, sh: Shared, k: Task, e: Effect) {
    && e.task.op == k.op && e.task.peer == k.peer && e.task.req == k.req
    && !UsesContext(e.task.pc) && e.task.pc != AtAuth(Approve) && e.task.pc != AtSign(SignUse)
    && (if e.event.None? then e.shared.cache == sh.cache else EventElsewhere(t, sh, k, e.shared, e.event.value))
  }

  predicate EventElsewhere(t: nat, sh: Shared, k: Task, after: Shared, e: Event) {
    match e
    case CacheCleared(_, _) => after.cache == map[]
    case CacheSwept(at) => after.cache == AuthCache.AfterSweep(sh.cache, at)
    case Signed(u, req) => after.cache == sh.cache && u == t && req == k.req && k.pc == AtSign(SignUse)
    case _ => after.cache == sh.cache && !e.Granted? && !e.Hit? && !e.Approved? && !e.FoundContext?
  }

  lemma EnsureElsewhere(t: nat, sh: Shared, k: Task, ch: Choice)
    requires k.pc.AtEnsure? && Wants(k.pc).None?
    ensures Elsewhere(t, sh, k, EnsureEffect(t, sh, k, k.pc.e, ch))
  {
    match k.pc.e
    case EnsureTest =>
    case EnsureFlagRead =>
    case EnsureLoad =>
    case StoreKeys =>
    case StoreFlag =>
    case StoreFlagRelease =>
    case StoreRelease =>
  }

  lemma LockElsewhere(t: nat, sh: Shared, k: Task, hash: Digest)
    requires k.pc.AtLock? && Wants(k.pc).None?
    ensures Elsewhere(t, sh, k, LockEffect(t, sh, k, k.pc.l, hash))
  {
    match k.pc.l
    case LockTest =>
    case LockPassStore =>
    case LockKeysClear =>
    case LockCacheClear =>
    case LockCacheRelease =>
    case LockKeysRelease =>
    case LockPassRelease =>
    case LockReturn =>
  }

  lemma UnlockElsewhere(t: nat, sh: Shared, k: Task, candidate: Digest, ch: Choice)
    requires k.pc.AtUnlock? && Wants(k.pc).None?
    ensures Elsewhere(t, sh, k, UnlockEffect(t, sh, k, k.pc.u, candidate, ch))
  {
    match k.pc.u
    case UnlockTest =>
    case UnlockCompare =>
    case UnlockOpen =>
    case UnlockWipe =>
    case UnlockLoad =>
    case UnlockKeysStore =>
    case UnlockPassRelease =>
    case UnlockReturn =>
  }

  lemma SweepElsewhere(c: Config, now: nat, t: nat, sh: Shared, k: Task)
    requires k.pc.AtSweep? && Wants(k.pc).None?
    ensures Elsewhere(t, sh, k, SweepEffect(c, now, t, sh, k, k.pc.w))
  {
    match k.pc.w
    case SweepRead =>
    case SweepElapsed =>
    case SweepKeys =>
    case SweepFlag =>
    case SweepFlagRelease =>
    case SweepKeysRelease =>
    case CacheStore =>
  }

  lemma CheckElsewhere(t: nat, sh: Shared, k: Task)
    requires k.pc.AtCheck? && Wants(k.pc).None?
    ensures Elsewhere(t, sh, k, CheckEffect(t, sh, k))
  {
  }

  lemma EditElsewhere(t: nat, sh: Shared, k: Task, ch: Choice)
    requires k.pc.AtEdit? && Wants(k.pc).None?
    ensures Elsewhere(t, sh, k, EditEffect(t, sh, k, k.pc.d, ch))
  {
  }

  lemma OtherCode(c: Config, now: nat, procs: ProcessTable, t: nat, sh: Shared, k: Task, ch: Choice)
    requires !k.pc.Idle? && !k.pc.AtAuth? && Wants(k.pc).None?
    ensures Elsewhere(t, sh, k, LocalEffect(c, now, procs, t, sh, k, ch))
  {
    match k.pc
    case AtCheck(_) => CheckElsewhere(t, sh, k);
    case AtEnsure(_) => EnsureElsewhere(t, sh, k, ch);
    case AtSign(_) =>
    case AtEdit(_) => EditElsewhere(t, sh, k, ch);
    case AtLock(_) => LockElsewhere(t, sh, k, if k.op.LockAgent? then k.op.hash else []);
    case AtUnlock(_) => UnlockElsewhere(t, sh, k, if k.op.UnlockAgent? then k.op.hash else [], ch);
    case AtSweep(_) => SweepElsewhere(c, now, t, sh, k);
    case _ =>
  }

  lemma ElsewhereIsOk(c: Config, tr: Trace, t: nat, k: Task, sh: Shared, e: Effect)
    requires AuthTaskOk(c, tr, t, k) && !k.pc.Idle? && Elsewhere(t, sh, k, e)
    ensures AuthStepOk(c, tr, t, k, sh, e)
  {
  }

  /** What the authorization code may assume. */
  ghost predicate AuthBefore(c: Config, now: nat, tr: Trace, t: nat, sh: Shared, k: Task) {
    && TaskOk(k) && k.pc.AtAuth? && AuthTaskOk(c, tr, t, k)
    && TraceOk(c, tr) && sh.cache == CacheOf(c.ttl, tr) && GrantsBy(tr, now)
  }

  /** An answer of the cache justifies the approval of the request that asked. */
  lemma HitJustifies(c: Config, tr: Trace, now: nat, t: nat, req: nat, op: Op, context: nat)
    requires TraceOk(c, tr) && GrantsBy(tr, now) && (op.Sign? || op.Decrypt?)
    requires IsRequest(tr, t, req) && tr[req].op == op && tr[req].peer.Some? && !c.mode.CacheNone?
    requires InContext(c, tr, t, req, context)
    requires AuthCache.IsAuthorized(CacheOf(c.ttl, tr), context, CacheFingerprint(op), now)
    ensures var e := Hit(t, req, context, CacheFingerprint(op), now);
      EventOk(c, tr, e) && Justified(c, tr + [e], t, req)
  {
    var e := Hit(t, req, context, CacheFingerprint(op), now);
    var tr' := tr + [e];
    FingerprintKinds(op);
    HitIsBacked(c, tr, now, context, CacheFingerprint(op));
    assert tr'[..|tr|] == tr && tr'[|tr|] == e && tr'[req] == tr[req];
    assert CacheTouch(c, tr', |tr|, t, req, op);
  }

  /** A task about to approve needs only its request and the justification. */
  lemma ApproverIsOk(c: Config, tr: Trace, t: nat, k: Task)
    requires k.pc == AtAuth(Approve) && k.req < |tr| && tr[k.req] == Arrived(t, k.op, k.peer) && Justified(c, tr, t, k.req)
    ensures AuthTaskOk(c, tr, t, k)
  {
  }

  /** Whatever made it so, a step to the approval needs its event to be in order and to justify the approval. */
  lemma ToApproval(c: Config, tr: Trace, t: nat, k: Task, sh: Shared, e: Effect, ev: Event)
    requires k.req < |tr| && tr[k.req] == Arrived(t, k.op, k.peer)
    requires e.task.pc == AtAuth(Approve) && e.task.op == k.op && e.task.peer == k.peer && e.task.req == k.req
    requires e.event == Some(ev) && e.shared.cache == CacheStep(c.ttl, sh.cache, ev)
    requires EventOk(c, tr, ev) && Justified(c, tr + [ev], t, k.req)
    ensures AuthStepOk(c, tr, t, k, sh, e)
  {
    assert (tr + [ev])[k.req] == tr[k.req];
    ApproverIsOk(c, tr + [ev], t, e.task);
  }

  lemma HitCode(c: Config, now: nat, procs: ProcessTable, tr: Trace, t: nat, sh: Shared, k: Task, ch: Choice)
    requires AuthBefore(c, now, tr, t, sh, k) && k.pc.a.HitRead?
    requires AuthCache.IsAuthorized(sh.cache, k.context.value, CacheFingerprint(k.op), now)
    ensures AuthStepOk(c, tr, t, k, sh, AuthEffect(c, now, procs, t, sh, k, HitRead, ch))
  {
    HitJustifies(c, tr, now, t, k.req, k.op, k.context.value);
    ToApproval(c, tr, t, k, sh, AuthEffect(c, now, procs, t, sh, k, HitRead, ch),
               Hit(t, k.req, k.context.value, CacheFingerprint(k.op), now));
  }

  lemma MissCode(c: Config, now: nat, procs: ProcessTable, tr: Trace, t: nat, sh: Shared, k: Task, ch: Choice)
    requires AuthBefore(c, now, tr, t, sh, k) && k.pc.a.HitRead?
    requires !AuthCache.IsAuthorized(sh.cache, k.context.value, CacheFingerprint(k.op), now)
    ensures AuthStepOk(c, tr, t, k, sh, AuthEffect(c, now, procs, t, sh, k, HitRead, ch))
  {
    var e := AuthEffect(c, now, procs, t, sh, k, HitRead, ch);
    assert e == Effect(k.(pc := AtAuth(TouchToGrant), guards := k.guards.(cache := Free)), sh, None);
  }

  lemma TouchedNow(tr: Trace, t: nat, req: nat)
    ensures OwnTouch(tr + [Touched(t, req, true)], t, req)
  {
    assert (tr + [Touched(t, req, true)])[|tr|] == Touched(t, req, true);
  }

  lemma TouchToGrantCode(c: Config, now: nat, procs: ProcessTable, tr: Trace, t: nat, sh: Shared, k: Task, ch: Choice)
    requires AuthBefore(c, now, tr, t, sh, k) && k.pc.a.TouchToGrant?
    ensures AuthStepOk(c, tr, t, k, sh, AuthEffect(c, now, procs, t, sh, k, TouchToGrant, ch))
  {
    InContextStays(c, tr, Touched(t, k.req, ch.ok), t, k.req, k.context.value);
    TouchedNow(tr, t, k.req);
    assert (tr + [Touched(t, k.req, ch.ok)])[k.req] == tr[k.req];
  }

  lemma TouchJustifies(c: Config, tr: Trace, t: nat, req: nat)
    requires IsRequest(tr, t, req) && (tr[req].op.Sign? || tr[req].op.Decrypt? || tr[req].op.Auth?)
    ensures Justified(c, tr + [Touched(t, req, true)], t, req)
  {
    TouchedNow(tr, t, req);
  }

  lemma TouchOnlyCode(c: Config, now: nat, procs: ProcessTable, tr: Trace, t: nat, sh: Shared, k: Task, ch: Choice)
    requires AuthBefore(c, now, tr, t, sh, k) && k.pc.a.TouchOnly?
    ensures AuthStepOk(c, tr, t, k, sh, AuthEffect(c, now, procs, t, sh, k, TouchOnly, ch))
  {
    var e := AuthEffect(c, now, procs, t, sh, k, TouchOnly, ch);
    if ch.ok {
      TouchJustifies(c, tr, t, k.req);
      ToApproval(c, tr, t, k, sh, e, Touched(t, k.req, true));
    } else {
      RefusalIsOk(c, tr, t, k, sh, e);
    }
  }

  lemma RefusalIsOk(c: Config, tr: Trace, t: nat, k: Task, sh: Shared, e: Effect)
    requires k.req < |tr| && tr[k.req] == Arrived(t, k.op, k.peer)
    requires e == Effect(Refuse(k), sh, Some(Touched(t, k.req, false)))
    ensures AuthStepOk(c, tr, t, k, sh, e)
  {
    assert (tr + [Touched(t, k.req, false)])[k.req] == tr[k.req];
  }

  /** A grant follows its own touch, which also justifies the approval. */
  lemma GrantJustifies(c: Config, tr: Trace, t: nat, req: nat, op: Op, context: nat, at: nat, keysAt: nat)
    requires IsRequest(tr, t, req) && tr[req].op == op && (op.Sign? || op.Decrypt?)
    requires OwnTouch(tr, t, req) && InContext(c, tr, t, req, context)
    ensures var e := Granted(t, req, context, CacheFingerprint(op), op.Decrypt?, at, keysAt);
      EventOk(c, tr, e) && Justified(c, tr + [e], t, req)
  {
    FingerprintKinds(op);
    OwnTouchStays(tr, Granted(t, req, context, CacheFingerprint(op), op.Decrypt?, at, keysAt), t, req);
  }

  lemma GrantCode(c: Config, now: nat, procs: ProcessTable, tr: Trace, t: nat, sh: Shared, k: Task, ch: Choice)
    requires AuthBefore(c, now, tr, t, sh, k) && k.pc.a.GrantStore?
    ensures AuthStepOk(c, tr, t, k, sh, AuthEffect(c, now, procs, t, sh, k, GrantStore, ch))
  {
    GrantJustifies(c, tr, t, k.req, k.op, k.context.value, now, k.keysAt);
    ToApproval(c, tr, t, k, sh, AuthEffect(c, now, procs, t, sh, k, GrantStore, ch),
               Granted(t, k.req, k.context.value, CacheFingerprint(k.op), k.op.Decrypt?, now, k.keysAt));
  }

  lemma FindCode(c: Config, now: nat, procs: ProcessTable, tr: Trace, t: nat, sh: Shared, k: Task, ch: Choice)
    requires AuthBefore(c, now, tr, t, sh, k) && k.pc.a.FindContext?
    ensures AuthStepOk(c, tr, t, k, sh, AuthEffect(c, now, procs, t, sh, k, FindContext, ch))
  {
    var e := AuthEffect(c, now, procs, t, sh, k, FindContext, ch).event.value;
    ContextIsRight(c.mode, k.peer, procs);
    assert (tr + [e])[|tr|] == e && (tr + [e])[k.req] == tr[k.req];
    if e.found.Some? {
      assert ContextFoundAt(c, (tr + [e])[|tr|], t, k.req, k.peer, e.found.value);
    }
  }

  lemma ApproveCode(c: Config, now: nat, procs: ProcessTable, tr: Trace, t: nat, sh: Shared, k: Task, ch: Choice)
    requires AuthBefore(c, now, tr, t, sh, k) && k.pc.a.Approve?
    ensures AuthStepOk(c, tr, t, k, sh, AuthEffect(c, now, procs, t, sh, k, Approve, ch))
  {
    assert (tr + [Approved(t, k.req)])[|tr|] == Approved(t, k.req);
  }

  lemma AuthCode(c: Config, now: nat, procs: ProcessTable, tr: Trace, t: nat, sh: Shared, k: Task, ch: Choice)
    requires AuthBefore(c, now, tr, t, sh, k) && Wants(k.pc).None?
    ensures AuthStepOk(c, tr, t, k, sh, AuthEffect(c, now, procs, t, sh, k, k.pc.a, ch))
  {
    match k.pc.a
    case FindContext => FindCode(c, now, procs, tr, t, sh, k, ch);
    case HitRead =>
      if AuthCache.IsAuthorized(sh.cache, k.context.value, CacheFingerprint(k.op), now) {
        HitCode(c, now, procs, tr, t, sh, k, ch);
      } else {
        MissCode(c, now, procs, tr, t, sh, k, ch);
      }
    case TouchToGrant => TouchToGrantCode(c, now, procs, tr, t, sh, k, ch);
    case TouchOnly => TouchOnlyCode(c, now, procs, tr, t, sh, k, ch);
    case GrantStore => GrantCode(c, now, procs, tr, t, sh, k, ch);
    case Approve => ApproveCode(c, now, procs, tr, t, sh, k, ch);
  }

  /** A step that records nothing and leaves the cache alone. */
  lemma QuietStep(c: Config, s: System, s': System, t: nat)
    requires AuthInv(c, s) && t < |s.tasks| == |s'.tasks| && s'.tasks == s.tasks[t := s'.tasks[t]]
    requires s'.trace == s.trace && s'.now == s.now && s'.shared.cache == s.shared.cache
    requires AuthTaskOk(c, s'.trace, t, s'.tasks[t])
    ensures AuthInv(c, s')
  {
  }

  lemma AcquiredPc(pc: Pc)
    requires Wants(pc).Some?
    ensures UsesContext(AfterAcquire(pc)) == UsesContext(pc) && AfterTouch(AfterAcquire(pc)) == AfterTouch(pc)
    ensures AfterAcquire(pc) != AtAuth(Approve) && AfterAcquire(pc) != AtSign(SignUse) && !AfterAcquire(pc).Idle?
  {
  }

  lemma AcquireKeepsAuth(c: Config, s: System, t: nat)
    requires GuardInv(s) && AuthInv(c, s) && Enabled(s, Acquire(t))
    ensures AuthInv(c, Next(c, s, Acquire(t)))
  {
    assert AuthTaskOk(c, s.trace, t, s.tasks[t]);
    AcquiredPc(s.tasks[t].pc);
    assert AuthTaskOk(c, s.trace, t, Next(c, s, Acquire(t)).tasks[t]);
    QuietStep(c, s, Next(c, s, Acquire(t)), t);
  }

  /** A grant carries the time at which it is made. */
  lemma GrantsNow(c: Config, now: nat, procs: ProcessTable, t: nat, sh: Shared, k: Task, ch: Choice)
    requires TaskOk(k) && !k.pc.Idle? && Wants(k.pc).None?
    ensures var e := LocalEffect(c, now, procs, t, sh, k, ch).event; e.Some? && e.value.Granted? ==> e.value.at <= now
  {
    if !k.pc.AtAuth? { OtherCode(c, now, procs, t, sh, k, ch); }
  }

  lemma LocalKeepsAuth(c: Config, s: System, t: nat, ch: Choice)
    requires GuardInv(s) && AuthInv(c, s) && Enabled(s, Local(t, ch))
    ensures AuthInv(c, Next(c, s, Local(t, ch)))
  {
    var k := s.tasks[t];
    assert TaskOk(k) && AuthTaskOk(c, s.trace, t, k);
    var e := LocalEffect(c, s.now, s.procs, t, s.shared, k, ch);
    if k.pc.AtAuth? {
      AuthCode(c, s.now, s.procs, s.trace, t, s.shared, k, ch);
    } else {
      OtherCode(c, s.now, s.procs, t, s.shared, k, ch);
      ElsewhereIsOk(c, s.trace, t, k, s.shared, e);
    }
    GrantsNow(c, s.now, s.procs, t, s.shared, k, ch);
    if e.event.Some? {
      ExtendSystem(c, s, Next(c, s, Local(t, ch)), t, e.event.value);
    } else {
      QuietStep(c, s, Next(c, s, Local(t, ch)), t);
    }
  }

  lemma NextKeepsAuth(c: Config, s: System, a: Label)
    requires GuardInv(s) && AuthInv(c, s) && Enabled(s, a)
    ensures AuthInv(c, Next(c, s, a))
  {
    match a
    case Tick(_) =>
    case ProcessesChange(_) =>
    case Enqueue(_) =>
    case Acquire(t) => AcquireKeepsAuth(c, s, t);
    case Arrive(t, op) => ExtendSystem(c, s, Next(c, s, a), t, Arrived(t, op, s.tasks[t].peer));
    case Local(t, ch) => LocalKeepsAuth(c, s, t, ch);
  }

  /** Appending one good event by one good task step keeps the invariant. */
  lemma ExtendSystem(c: Config, s: System, s': System, t: nat, e: Event)
    requires AuthInv(c, s) && t < |s.tasks| == |s'.tasks| && s'.tasks == s.tasks[t := s'.tasks[t]]
    requires s'.trace == s.trace + [e] && EventOk(c, s.trace, e) && s'.now == s.now
    requires e.Granted? ==> e.at <= s.now
    requires s'.shared.cache == CacheStep(c.ttl, s.shared.cache, e)
    requires AuthTaskOk(c, s'.trace, t, s'.tasks[t])
    ensures AuthInv(c, s')
  {
    TraceExtends(c, s.trace, e);
    assert s'.trace[..|s.trace|] == s.trace;
    forall u | 0 <= u < |s'.tasks| ensures AuthTaskOk(c, s'.trace, u, s'.tasks[u]) {
      if u != t { TaskOkStays(c, s.trace, e, u, s.tasks[u]); }
    }
  }

  // ---------------------------------------------------------------------------
  // Every run
  // ---------------------------------------------------------------------------

  lemma {:induction false} AuthAlwaysHolds(c: Config, s0: System, labels: seq<Label>)
    requires Init(s0) && Exec(c, s0, labels).Some?
    ensures AuthInv(c, Exec(c, s0, labels).value)
  {
    if labels != [] {
      var before := labels[..|labels| - 1];
      AuthAlwaysHolds(c, s0, before);
      GuardsAlwaysHold(c, s0, before);
      NextKeepsAuth(c, Exec(c, s0, before).value, labels[|labels| - 1]);
    }
  }

  /** In every interleaving every approval is justified by what happened before it. */
  lemma ApprovalsAreJustified(c: Config, s0: System, labels: seq<Label>, i: nat)
    requires Init(s0) && Exec(c, s0, labels).Some?
    requires i < |Exec(c, s0, labels).value.trace| && Exec(c, s0, labels).value.trace[i].Approved?
    ensures var tr := Exec(c, s0, labels).value.trace;
      Justified(c, tr[..i], tr[i].t, tr[i].req)
  {
    AuthAlwaysHolds(c, s0, labels);
    var tr := Exec(c, s0, labels).value.trace;
    assert EventOk(c, tr[..i], tr[i]);
  }

  /** And nothing is signed without such an approval of the same request. */
  lemma SignaturesAreApproved(c: Config, s0: System, labels: seq<Label>, i: nat)
    requires Init(s0) && Exec(c, s0, labels).Some?
    requires i < |Exec(c, s0, labels).value.trace| && Exec(c, s0, labels).value.trace[i].Signed?
    ensures var tr := Exec(c, s0, labels).value.trace;
      exists j | 0 <= j < i :: tr[j] == Approved(tr[i].t, tr[i].req) && Justified(c, tr[..j], tr[i].t, tr[i].req)
  {
    AuthAlwaysHolds(c, s0, labels);
    var tr := Exec(c, s0, labels).value.trace;
    assert EventOk(c, tr[..i], tr[i]);
    var j :| 0 <= j < i && tr[..i][j] == Approved(tr[i].t, tr[i].req);
    assert tr[j] == tr[..i][j] && EventOk(c, tr[..j], tr[j]);
  }

  // ---------------------------------------------------------------------------
  // Approvals that rest on the cache
  // ---------------------------------------------------------------------------

  /** The same key to sign with, or both a decrypt. */
  predicate SameKey(a: Op, b: Op) {
    (a.Sign? && b.Sign? && a.digest == b.digest) || (a.Decrypt? && b.Decrypt?)
  }

  /** Cache entries are told apart by the key they are for. */
  lemma FingerprintsNameKeys(a: Op, b: Op)
    requires (a.Sign? || a.Decrypt?) && (b.Sign? || b.Decrypt?)
    ensures CacheFingerprint(a) == CacheFingerprint(b) <==> SameKey(a, b)
  {
    FingerprintKinds(a);
    FingerprintKinds(b);
    if a.Sign? && b.Sign? && CacheFingerprint(a) == CacheFingerprint(b) {
      assert a.digest == CacheFingerprint(a)[|FINGERPRINT_PREFIX|..];
      assert b.digest == CacheFingerprint(b)[|FINGERPRINT_PREFIX|..];
    }
  }

  /** Request `req` looked up `context` for its peer in a process table of that time. */
  ghost predicate LookedUp(c: Config, tr: Trace, t: nat, req: nat, context: nat) {
    && IsRequest(tr, t, req) && tr[req].peer.Some?
    && exists procs :: FoundContext(t, req, Some(context), procs) in tr && IsContext(c.mode, procs, tr[req].peer.value, context)
  }

  /** Request `req` rests on the grant `g`: one key, one context, touched for, not cleared, not older than the lifetime
      of its kind when the cache answered at time `at`. */
  ghost predicate RestsOn(c: Config, tr: Trace, t: nat, req: nat, g: nat, context: nat, at: nat) {
    && g < |tr| && tr[g].Granted? && tr[g].context == context
    && IsRequest(tr, t, req) && IsRequest(tr, tr[g].t, tr[g].req) && SameKey(tr[req].op, tr[tr[g].req].op)
    && LookedUp(c, tr, t, req, context) && LookedUp(c, tr, tr[g].t, tr[g].req, context)
    && OwnTouch(tr, tr[g].t, tr[g].req)
    && tr[g].at <= at < tr[g].at + (if tr[req].op.Decrypt? then c.ttl.decrypt else c.ttl.sign)
  }

  lemma ContextWasLookedUp(c: Config, past: Trace, tr: Trace, t: nat, req: nat, context: nat)
    requires InContext(c, past, t, req, context) && past <= tr
    ensures LookedUp(c, tr, t, req, context)
  {
    var j :| 0 <= j < |past| && ContextFoundAt(c, past[j], t, req, past[req].peer, context);
    assert tr[j] == past[j] && tr[req] == past[req];
    assert FoundContext(t, req, Some(context), past[j].procs) in tr;
  }

  lemma TouchesStay(past: Trace, tr: Trace, t: nat, req: nat)
    requires OwnTouch(past, t, req) && past <= tr
    ensures OwnTouch(tr, t, req)
  {
    var j :| 0 <= j < |past| && past[j] == Touched(t, req, true);
    assert tr[j] == past[j];
  }

  lemma BackingGrant(c: Config, tr: Trace, h: nat, t: nat, req: nat, g: nat)
    requires TraceOk(c, tr) && h < |tr| && tr[h].Hit? && IsRequest(tr, t, req)
    requires CacheTouch(c, tr, h, t, req, tr[req].op) && (tr[req].op.Sign? || tr[req].op.Decrypt?)
    requires Backs(c, tr[..h], g, tr[h].context, tr[h].fingerprint, tr[req].op.Decrypt?, tr[h].at)
    ensures RestsOn(c, tr, t, req, g, tr[h].context, tr[h].at)
  {
    assert tr[..h][g] == tr[g] && tr[..h][..g] == tr[..g];
    assert EventOk(c, tr[..g], tr[g]);
    var greq := tr[g].req;
    assert tr[..g][greq] == tr[greq];
    FingerprintsNameKeys(tr[req].op, tr[greq].op);
    ContextWasLookedUp(c, tr[..h], tr, t, req, tr[h].context);
    ContextWasLookedUp(c, tr[..g], tr, tr[g].t, greq, tr[h].context);
    TouchesStay(tr[..g], tr, tr[g].t, greq);
  }

  /** It rests on such a grant, with no clear between the grant and the answer. */
  ghost predicate RestsOnCache(c: Config, tr: Trace, t: nat, req: nat) {
    exists g: nat, context: nat, at: nat :: RestsOn(c, tr, t, req, g, context, at) && NoClearBetween(tr, g, t, req, at)
  }

  lemma UntouchedRestsOnCache(c: Config, tr: Trace, t: nat, req: nat)
    requires TraceOk(c, tr) && Justified(c, tr, t, req) && !OwnTouch(tr, t, req)
    ensures RestsOnCache(c, tr, t, req)
  {
    var op := tr[req].op;
    var h: nat :| CacheTouch(c, tr, h, t, req, op);
    var g: nat :| Backs(c, tr[..h], g, tr[h].context, tr[h].fingerprint, op.Decrypt?, tr[h].at);
    BackingGrant(c, tr, h, t, req, g);
    assert HitOf(tr, h, t, req, tr[h].at);
    forall j | g < j < h ensures !tr[j].CacheCleared? { assert tr[..h][j] == tr[j]; }
    assert NoClearBetween(tr, g, t, req, tr[h].at);
  }

  /** In every run, an approval without a touch of its own rests on a grant to a request for the same key whose peer was
      found in the very same context: on the same terminal, or inside the same application. */
  lemma CachedApprovalsShareContext(c: Config, s0: System, labels: seq<Label>, i: nat)
    requires Init(s0) && Exec(c, s0, labels).Some?
    requires var tr := Exec(c, s0, labels).value.trace;
      i < |tr| && tr[i].Approved? && !OwnTouch(tr[..i], tr[i].t, tr[i].req)
    ensures var tr := Exec(c, s0, labels).value.trace; RestsOnCache(c, tr[..i], tr[i].t, tr[i].req)
  {
    ApprovalsAreJustified(c, s0, labels, i);
    AuthAlwaysHolds(c, s0, labels);
    var tr := Exec(c, s0, labels).value.trace;
    PrefixOk(c, tr, i);
    UntouchedRestsOnCache(c, tr[..i], tr[i].t, tr[i].req);
  }

  ghost predicate HitOf(tr: Trace, h: nat, t: nat, req: nat, at: nat) {
    h < |tr| && tr[h].Hit? && tr[h].t == t && tr[h].req == req && tr[h].at == at
  }

  /** Between the grant and the answer the cache was not cleared. */
  ghost predicate NoClearBetween(tr: Trace, g: nat, t: nat, req: nat, at: nat) {
    exists h: nat :: HitOf(tr, h, t, req, at) && forall j | g < j < h :: !tr[j].CacheCleared?
  }

  lemma PrefixOk(c: Config, tr: Trace, i: nat)
    requires TraceOk(c, tr) && i <= |tr|
    ensures TraceOk(c, tr[..i])
  {
    forall j | 0 <= j < i ensures EventOk(c, tr[..i][..j], tr[..i][j]) {
      assert tr[..i][..j] == tr[..j];
      assert EventOk(c, tr[..j], tr[j]);
    }
  }
}
