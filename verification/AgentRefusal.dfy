/**
 A refused unlock, from its arrival to its failure: no step of the request has changed anything that the tasks
 share.
 */
module AgentRefusal {
  import opened Common
  import opened AncestorWalk
  import opened AgentMachine
  import opened AgentGuards
  import opened AgentLockProtocol

  /** The request has opened the lock. */
  ghost predicate OpenedBy(tr: Trace, t: nat, req: nat) {
    exists j | 0 <= j < |tr| :: IsReset(tr[j], t, req)
  }

  predicate IsReset(e: Event, t: nat, req: nat) {
    e.LockReset? && e.t == t && e.req == req
  }

  /** The request has been refused. */
  ghost predicate RefusedBy(tr: Trace, t: nat, req: nat) {
    UnlockFailed(t, req) in tr
  }

  /** Requests are named by their place in the trace; none is both refused and successful. */
  ghost predicate OutcomeOk(past: Trace, e: Event) {
    match e
    case UnlockFailed(t, req) => req < |past| && !OpenedBy(past, t, req)
    case LockReset(t, req, _) => req < |past| && !RefusedBy(past, t, req)
    case _ => true
  }

  ghost predicate OutcomesOk(tr: Trace) {
    forall i | 0 <= i < |tr| :: OutcomeOk(tr[..i], tr[i])
  }

  ghost predicate OutcomeTaskOk(tr: Trace, t: nat, k: Task) {
    && (!k.pc.Idle? ==> k.req < |tr| && !RefusedBy(tr, t, k.req))
    && (!k.pc.Idle? && !Opened(k.pc) ==> !OpenedBy(tr, t, k.req))
    && (Opened(k.pc) ==> OpenedBy(tr, t, k.req))
  }

  ghost predicate OutcomeInv(s: System) {
    OutcomesOk(s.trace) && forall t | 0 <= t < |s.tasks| :: OutcomeTaskOk(s.trace, t, s.tasks[t])
  }

  lemma OutcomesExtend(tr: Trace, e: Event)
    requires OutcomesOk(tr) && OutcomeOk(tr, e)
    ensures OutcomesOk(tr + [e])
  {
    forall i | 0 <= i < |tr + [e]| ensures OutcomeOk((tr + [e])[..i], (tr + [e])[i]) {
      assert (tr + [e])[..i] == if i < |tr| then tr[..i] else tr;
    }
  }

  lemma OpenedByStep(tr: Trace, e: Event, t: nat, req: nat)
    ensures OpenedBy(tr + [e], t, req) <==> OpenedBy(tr, t, req) || IsReset(e, t, req)
  {
    if OpenedBy(tr, t, req) {
      var j :| 0 <= j < |tr| && IsReset(tr[j], t, req);
      assert (tr + [e])[j] == tr[j];
    }
    assert (tr + [e])[|tr|] == e;
  }

  /** No outcome names a request that has not arrived. */
  lemma OutcomesArePast(tr: Trace, t: nat, req: nat)
    requires OutcomesOk(tr) && req >= |tr|
    ensures !OpenedBy(tr, t, req) && !RefusedBy(tr, t, req)
  {
    forall j | 0 <= j < |tr| ensures !IsReset(tr[j], t, req) && tr[j] != UnlockFailed(t, req) {
      assert OutcomeOk(tr[..j], tr[j]);
    }
  }

  // ---------------------------------------------------------------------------
  // One stretch of code
  // ---------------------------------------------------------------------------

  predicate IsOutcome(e: Event) {
    e.LockReset? || e.UnlockFailed?
  }

  /** Code that is not an unlock's decides no outcome. */
  predicate NoOutcome(k: Task, e: Effect) {
    && e.task.req == k.req && !Opened(e.task.pc) && !Opened(k.pc)
    && (e.event.Some? ==> !IsOutcome(e.event.value))
  }

  lemma AuthNoOutcome(c: Config, now: nat, procs: ProcessTable, t: nat, sh: Shared, k: Task, ch: Choice)
    requires k.pc.AtAuth? && Wants(k.pc).None?
    ensures NoOutcome(k, AuthEffect(c, now, procs, t, sh, k, k.pc.a, ch))
  {
  }

  lemma LockNoOutcome(t: nat, sh: Shared, k: Task, hash: Digest)
    requires k.pc.AtLock? && Wants(k.pc).None?
    ensures NoOutcome(k, LockEffect(t, sh, k, k.pc.l, hash))
  {
  }

  lemma SweepNoOutcome(c: Config, now: nat, t: nat, sh: Shared, k: Task)
    requires k.pc.AtSweep? && Wants(k.pc).None?
    ensures NoOutcome(k, SweepEffect(c, now, t, sh, k, k.pc.w))
  {
  }

  lemma EnsureNoOutcome(t: nat, sh: Shared, k: Task, ch: Choice)
    requires k.pc.AtEnsure? && Wants(k.pc).None?
    ensures NoOutcome(k, EnsureEffect(t, sh, k, k.pc.e, ch))
  {
  }

  lemma OtherNoOutcome(c: Config, now: nat, procs: ProcessTable, t: nat, sh: Shared, k: Task, ch: Choice)
    requires TaskOk(k) && !k.pc.Idle? && Wants(k.pc).None? && !k.pc.AtUnlock?
    ensures NoOutcome(k, LocalEffect(c, now, procs, t, sh, k, ch))
  {
    match k.pc
    case AtEnsure(_) => EnsureNoOutcome(t, sh, k, ch);
    case AtAuth(_) => AuthNoOutcome(c, now, procs, t, sh, k, ch);
    case AtLock(_) => LockNoOutcome(t, sh, k, if k.op.LockAgent? then k.op.hash else []);
    case AtSweep(_) => SweepNoOutcome(c, now, t, sh, k);
    case _ =>
  }

  /** An unlock fails only before it opens, changes nothing before it opens, and records that it opens. */
  predicate UnlockOutcome(t: nat, sh: Shared, k: Task, e: Effect) {
    && e.task.req == k.req
    && (e.event.Some? && IsOutcome(e.event.value) ==>
          !Opened(k.pc) && e.event.value.t == t && e.event.value.req == k.req
          && (e.event.value.LockReset? <==> Opened(e.task.pc)) && (e.event.value.UnlockFailed? ==> e.task.pc.Idle?))
    && (!e.task.pc.Idle? && !Opened(k.pc) && Opened(e.task.pc) ==> e.event.Some? && e.event.value.LockReset?)
    && (Opened(k.pc) ==> Opened(e.task.pc) || e.task.pc.Idle?)
    && (e.shared != sh ==> Opened(k.pc) || (e.event.Some? && e.event.value.LockReset?))
  }

  lemma UnlockDecides(t: nat, sh: Shared, k: Task, ch: Choice)
    requires TaskOk(k) && k.pc.AtUnlock? && Wants(k.pc).None?
    ensures UnlockOutcome(t, sh, k, UnlockEffect(t, sh, k, k.pc.u, k.op.hash, ch))
  {
    match k.pc.u
    case UnlockTest =>
    case UnlockCompare =>
    case UnlockOpen =>
    case UnlockWipe =>
    case UnlockLoad =>
    case UnlockKeysStore =>
    case UnlockPassRelease =>
    case UnlockReturn =>
  }

  // ---------------------------------------------------------------------------
  // Every run
  // ---------------------------------------------------------------------------

  /** An event about another request leaves a task's outcome open. */
  lemma OutcomeStays(tr: Trace, e: Event, t: nat, k: Task)
    requires OutcomeTaskOk(tr, t, k) && (IsOutcome(e) ==> e.t != t)
    ensures OutcomeTaskOk(tr + [e], t, k)
  {
    OpenedByStep(tr, e, t, k.req);
  }

  lemma UnlockKeepsOutcome(tr: Trace, t: nat, sh: Shared, k: Task, e: Effect)
    requires OutcomeTaskOk(tr, t, k) && !k.pc.Idle? && OutcomesOk(tr) && UnlockOutcome(t, sh, k, e)
    ensures OutcomeTaskOk(Recorded(tr, e.event), t, e.task) && OutcomesOk(Recorded(tr, e.event))
  {
    if e.event.Some? {
      OpenedByStep(tr, e.event.value, t, k.req);
      OutcomesExtend(tr, e.event.value);
    }
  }

  lemma OtherKeepsOutcome(tr: Trace, t: nat, k: Task, e: Effect)
    requires OutcomeTaskOk(tr, t, k) && !k.pc.Idle? && OutcomesOk(tr) && NoOutcome(k, e)
    ensures OutcomeTaskOk(Recorded(tr, e.event), t, e.task) && OutcomesOk(Recorded(tr, e.event))
  {
    if e.event.Some? {
      OpenedByStep(tr, e.event.value, t, k.req);
      OutcomesExtend(tr, e.event.value);
    }
  }

  lemma LocalKeepsOutcome(c: Config, s: System, t: nat, ch: Choice)
    requires GuardInv(s) && OutcomeInv(s) && Enabled(s, Local(t, ch))
    ensures OutcomeInv(Next(c, s, Local(t, ch)))
  {
    var k := s.tasks[t];
    assert TaskOk(k) && OutcomeTaskOk(s.trace, t, k);
    var e := LocalEffect(c, s.now, s.procs, t, s.shared, k, ch);
    if k.pc.AtUnlock? {
      UnlockDecides(t, s.shared, k, ch);
      UnlockKeepsOutcome(s.trace, t, s.shared, k, e);
    } else {
      OtherNoOutcome(c, s.now, s.procs, t, s.shared, k, ch);
      OtherKeepsOutcome(s.trace, t, k, e);
    }
    var s' := Next(c, s, Local(t, ch));
    forall u | 0 <= u < |s'.tasks| && u != t ensures OutcomeTaskOk(s'.trace, u, s'.tasks[u]) {
      if e.event.Some? { OutcomeStays(s.trace, e.event.value, u, s.tasks[u]); }
    }
  }

  lemma ArriveKeepsOutcome(c: Config, s: System, t: nat, op: Op)
    requires OutcomeInv(s) && Enabled(s, Arrive(t, op))
    ensures OutcomeInv(Next(c, s, Arrive(t, op)))
  {
    var e := Arrived(t, op, s.tasks[t].peer);
    var s' := Next(c, s, Arrive(t, op));
    OutcomesExtend(s.trace, e);
    OutcomesArePast(s.trace, t, |s.trace|);
    OpenedByStep(s.trace, e, t, |s.trace|);
    ArrivedPc(op);
    forall u | 0 <= u < |s'.tasks| && u != t ensures OutcomeTaskOk(s'.trace, u, s'.tasks[u]) {
      OutcomeStays(s.trace, e, u, s.tasks[u]);
    }
  }

  lemma NextKeepsOutcome(c: Config, s: System, a: Label)
    requires GuardInv(s) && OutcomeInv(s) && Enabled(s, a)
    ensures OutcomeInv(Next(c, s, a))
  {
    match a
    case Local(t, ch) => LocalKeepsOutcome(c, s, t, ch);
    case Arrive(t, op) => ArriveKeepsOutcome(c, s, t, op);
    case Acquire(t) =>
      assert OutcomeTaskOk(s.trace, t, s.tasks[t]);
      AcquiredPc(s.tasks[t].pc);
    case _ =>
  }

  lemma {:induction false} OutcomesAlwaysHold(c: Config, s0: System, labels: seq<Label>)
    requires Init(s0) && Exec(c, s0, labels).Some?
    ensures OutcomeInv(Exec(c, s0, labels).value)
  {
    if labels != [] {
      var before := labels[..|labels| - 1];
      OutcomesAlwaysHold(c, s0, before);
      GuardsAlwaysHold(c, s0, before);
      NextKeepsOutcome(c, Exec(c, s0, before).value, labels[|labels| - 1]);
    }
  }

  /** A request that is refused never opens, at any time. */
  lemma NotBoth(tr: Trace, t: nat, req: nat)
    requires OutcomesOk(tr) && RefusedBy(tr, t, req)
    ensures !OpenedBy(tr, t, req)
  {
    var f :| 0 <= f < |tr| && tr[f] == UnlockFailed(t, req);
    assert OutcomeOk(tr[..f], tr[f]);
    forall j | 0 <= j < |tr| ensures !IsReset(tr[j], t, req) {
      assert OutcomeOk(tr[..j], tr[j]);
      if j < f { assert tr[..f][j] == tr[j]; }
      if f < j { assert tr[..j][f] == tr[f]; }
    }
  }

  lemma {:induction false} PrefixRuns(c: Config, s0: System, labels: seq<Label>, n: nat)
    requires Exec(c, s0, labels).Some? && n <= |labels|
    ensures Exec(c, s0, labels[..n]).Some? && Exec(c, s0, labels[..n]).value.trace <= Exec(c, s0, labels).value.trace
    decreases |labels|
  {
    if n == |labels| {
      assert labels[..n] == labels;
    } else {
      var before := labels[..|labels| - 1];
      PrefixRuns(c, s0, before, n);
      assert before[..n] == labels[..n];
    }
  }

  lemma OpenedStays(tr: Trace, longer: Trace, t: nat, req: nat)
    requires OpenedBy(tr, t, req) && tr <= longer
    ensures OpenedBy(longer, t, req)
  {
    var j :| 0 <= j < |tr| && IsReset(tr[j], t, req);
    assert longer[j] == tr[j];
  }

  /** A step of an unlock that changes shared memory belongs to a request that has opened the lock. */
  lemma ChangingUnlockOpened(c: Config, s: System, t: nat, ch: Choice)
    requires GuardInv(s) && OutcomeInv(s) && Enabled(s, Local(t, ch)) && s.tasks[t].pc.AtUnlock?
    requires Next(c, s, Local(t, ch)).shared != s.shared
    ensures OpenedBy(Next(c, s, Local(t, ch)).trace, t, s.tasks[t].req)
  {
    var k := s.tasks[t];
    assert TaskOk(k) && OutcomeTaskOk(s.trace, t, k);
    UnlockDecides(t, s.shared, k, ch);
    var e := UnlockEffect(t, s.shared, k, k.pc.u, k.op.hash, ch);
    if e.event.Some? { OpenedByStep(s.trace, e.event.value, t, k.req); }
  }

  /** In every run: if an unlock request is refused at some point, none of its steps from its arrival on has changed
      shared memory, whatever else went on in between. */
  lemma RefusedUnlockChangesNothing(c: Config, s0: System, labels: seq<Label>, n: nat, t: nat)
    requires Init(s0) && Exec(c, s0, labels).Some? && n < |labels| && labels[n].Local? && labels[n].t == t
    requires Exec(c, s0, labels[..n]).Some? && t < |Exec(c, s0, labels[..n]).value.tasks|
    requires Exec(c, s0, labels[..n]).value.tasks[t].pc.AtUnlock?
    requires RefusedBy(Exec(c, s0, labels).value.trace, t, Exec(c, s0, labels[..n]).value.tasks[t].req)
    ensures Exec(c, s0, labels[..n + 1]).Some?
    ensures Exec(c, s0, labels[..n + 1]).value.shared == Exec(c, s0, labels[..n]).value.shared
  {
    var s := Exec(c, s0, labels[..n]).value;
    var end := Exec(c, s0, labels).value;
    PrefixRuns(c, s0, labels, n + 1);
    assert labels[..n + 1][..n] == labels[..n];
    var s1 := Exec(c, s0, labels[..n + 1]).value;
    GuardsAlwaysHold(c, s0, labels[..n]);
    OutcomesAlwaysHold(c, s0, labels[..n]);
    OutcomesAlwaysHold(c, s0, labels);
    NotBoth(end.trace, t, s.tasks[t].req);
    if s1.shared != s.shared {
      ChangingUnlockOpened(c, s, t, labels[n].choice);
      OpenedStays(s1.trace, end.trace, t, s.tasks[t].req);
    }
  }
}
