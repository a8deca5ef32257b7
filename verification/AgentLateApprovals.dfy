/**
 Approvals after a lock: a decrypt or an auth that passed its check before may still be approved, and a sign that
 holds its key may still sign.
 */
module AgentLateApprovals {
  import opened Common
  import opened AncestorWalk
  import opened AgentMachine
  import opened AgentGuards
  import opened AgentProgress
  import AgentAuthorization
  import opened AgentLockProtocol
  import opened AgentStragglers

  /** A decrypt or auth past its check and not approved yet. */
  predicate Approvable(k: Task) {
    && (k.op.Decrypt? || k.op.Auth?)
    && (k.pc == ActivityAcquire || k.pc == ActivityStore || k.pc == OpenEnvelope || k.pc.AtAuth?)
  }

  /** A sign that has looked its key up and not used it yet. */
  predicate HoldsKey(k: Task) {
    k.op.Sign? && (k.pc.AtAuth? || k.pc == AtSign(SignUse))
  }

  predicate Confirmable(k: Task) {
    Approvable(k) || HoldsKey(k)
  }

  /** What the request is after: an approval, or for a sign the signature. */
  function Confirmation(t: nat, req: nat, op: Op): Event {
    if op.Sign? then Signed(t, req) else Approved(t, req)
  }

  // ---------------------------------------------------------------------------
  // Running such a request until it is confirmed
  // ---------------------------------------------------------------------------

  lemma ConfirmableWants(k: Task)
    requires TaskOk(k) && Confirmable(k)
    ensures !k.pc.Idle? && !k.pc.AtUnlock? && (Wants(k.pc).Some? ==> Rank(Wants(k.pc).value.0) >= 2)
  {
  }

  /** With a touch, its own code leads it on. */
  lemma AuthConfirms(c: Config, now: nat, procs: ProcessTable, t: nat, sh: Shared, k: Task, ch: Choice)
    requires TaskOk(k) && k.pc.AtAuth? && Confirmable(k) && Wants(k.pc).None? && ch.ok
    ensures var e := AuthEffect(c, now, procs, t, sh, k, k.pc.a, ch);
      e.task.req == k.req && e.task.op == k.op && (Confirmable(e.task) || e.event == Some(Confirmation(t, k.req, k.op)))
  {
    match k.pc.a
    case FindContext =>
    case HitRead =>
    case TouchToGrant =>
    case GrantStore =>
    case TouchOnly =>
    case Approve =>
  }

  lemma LocalConfirms(c: Config, now: nat, procs: ProcessTable, t: nat, sh: Shared, k: Task, ch: Choice)
    requires TaskOk(k) && Confirmable(k) && Wants(k.pc).None? && ch.ok
    ensures var e := LocalEffect(c, now, procs, t, sh, k, ch);
      e.task.req == k.req && e.task.op == k.op && (Confirmable(e.task) || e.event == Some(Confirmation(t, k.req, k.op)))
  {
    if k.pc.AtAuth? { AuthConfirms(c, now, procs, t, sh, k, ch); }
  }

  lemma AcquireConfirms(k: Task, k': Task)
    requires Wants(k.pc).Some? && Confirmable(k) && k'.pc == AfterAcquire(k.pc) && k'.op == k.op
    ensures Confirmable(k')
  {
  }

  ghost predicate JustConfirmed(s: System, s1: System, u: nat, req: nat, op: Op) {
    |s1.trace| > |s.trace| && s1.trace[|s1.trace| - 1] == Confirmation(u, req, op)
  }

  lemma ConfirmableMoves(c: Config, s: System, a: Label, u: nat)
    requires Enabled(s, a) && Actor(a) == Some(u) && TaskOk(s.tasks[u]) && Confirmable(s.tasks[u]) && (a.Local? ==> a.choice.ok)
    ensures var s1 := Next(c, s, a);
      && s1.tasks[u].req == s.tasks[u].req && s1.tasks[u].op == s.tasks[u].op
      && (Confirmable(s1.tasks[u]) || JustConfirmed(s, s1, u, s.tasks[u].req, s.tasks[u].op))
  {
    if a.Local? {
      LocalConfirms(c, s.now, s.procs, u, s.shared, s.tasks[u], a.choice);
    } else if a.Acquire? {
      AcquireConfirms(s.tasks[u], Next(c, s, a).tasks[u]);
    }
  }

  lemma ConfirmStep(c: Config, s: System, u: nat) returns (a: Label)
    requires Sane(s) && s.shared.locked && u < |s.tasks| && Confirmable(s.tasks[u])
    ensures Enabled(s, a) && Actor(a).Some? && Continues(s, Next(c, s, a))
    ensures var s1 := Next(c, s, a);
      && Sane(s1) && s1.shared.locked && s1.tasks[u].req == s.tasks[u].req && s1.tasks[u].op == s.tasks[u].op
      && (Confirmable(s1.tasks[u]) || JustConfirmed(s, s1, u, s.tasks[u].req, s.tasks[u].op))
  {
    assert TaskOk(s.tasks[u]);
    ConfirmableWants(s.tasks[u]);
    a := FindRunnable(s, u);
    a := WithFile(a, map[]);
    var b := Actor(a).value;
    if b != u { AboveIsNoUnlock(s, b, Wants(s.tasks[u].pc).value.0); }
    OnlyUnlocksReset(c, s, a);
    LockedStep(c, s, a);
    StepExtends(c, s, a);
    if b == u { ConfirmableMoves(c, s, a, u); }
  }

  /** A locked agent can be run on, without any unlock, until the request is confirmed. */
  lemma {:induction false} RunToConfirmation(c: Config, s: System, u: nat) returns (labels: seq<Label>)
    requires Sane(s) && s.shared.locked && u < |s.tasks| && Confirmable(s.tasks[u])
    ensures Exec(c, s, labels).Some?
    ensures var s' := Exec(c, s, labels).value;
      Continues(s, s') && JustConfirmed(s, s', u, s.tasks[u].req, s.tasks[u].op)
    decreases Work(s)
  {
    var a := ConfirmStep(c, s, u);
    StepDoesWork(c, s, a);
    var s1 := Next(c, s, a);
    var rest: seq<Label> := [];
    if !JustConfirmed(s, s1, u, s.tasks[u].req, s.tasks[u].op) {
      rest := RunToConfirmation(c, s1, u);
      ContinuesOn(s, s1, Exec(c, s1, rest).value);
    }
    ExecFirst(c, s, a, rest);
    labels := [a] + rest;
  }

  // ---------------------------------------------------------------------------
  // Requests that will be refused
  // ---------------------------------------------------------------------------

  /** Request `req` of task `u` is still before its check, or over. */
  ghost predicate Outside(s: System, u: nat, req: nat) {
    && u < |s.tasks| && req < |s.trace|
    && (s.tasks[u].req == req ==> s.tasks[u].pc.Idle? || s.tasks[u].pc.AtCheck?)
  }

  predicate Confirms(e: Event, u: nat, req: nat) {
    e == Approved(u, req) || e == Signed(u, req)
  }

  ghost predicate NeverConfirmed(s: System, s': System, u: nat, req: nat) {
    forall n | |s.trace| <= n < |s'.trace| :: !Confirms(s'.trace[n], u, req)
  }

  /** Only a task's own code confirms its request. */
  lemma OwnConfirmation(c: Config, now: nat, procs: ProcessTable, t: nat, sh: Shared, k: Task, ch: Choice, u: nat, req: nat)
    requires TaskOk(k) && !k.pc.Idle? && Wants(k.pc).None? && (t == u && k.req == req ==> k.pc.AtCheck?)
    ensures var e := LocalEffect(c, now, procs, t, sh, k, ch); e.event.Some? ==> !Confirms(e.event.value, u, req)
  {
    if !k.pc.AtAuth? {
      AgentAuthorization.OtherCode(c, now, procs, t, sh, k, ch);
    }
  }

  lemma OutsideStep(c: Config, s: System, a: Label, u: nat, req: nat)
    requires GuardInv(s) && s.shared.locked && Enabled(s, a) && Outside(s, u, req)
    ensures Outside(Next(c, s, a), u, req) && NeverConfirmed(s, Next(c, s, a), u, req)
  {
    StepExtends(c, s, a);
    match a
    case Local(t, ch) =>
      assert TaskOk(s.tasks[t]);
      OwnConfirmation(c, s.now, s.procs, t, s.shared, s.tasks[t], ch, u, req);
      KeepsItsNumber(c, s.now, s.procs, t, s.shared, s.tasks[t], ch);
    case _ =>
  }

  lemma KeepsItsNumber(c: Config, now: nat, procs: ProcessTable, t: nat, sh: Shared, k: Task, ch: Choice)
    requires TaskOk(k) && !k.pc.Idle? && Wants(k.pc).None?
    ensures LocalEffect(c, now, procs, t, sh, k, ch).task.req == k.req
  {
    if !k.pc.AtAuth? { AgentAuthorization.OtherCode(c, now, procs, t, sh, k, ch); }
  }

  lemma {:induction false} OutsideRun(c: Config, s: System, labels: seq<Label>, u: nat, req: nat)
    requires Sane(s) && s.shared.locked && Outside(s, u, req)
    requires Exec(c, s, labels).Some? && Continues(s, Exec(c, s, labels).value)
    ensures var s' := Exec(c, s, labels).value;
      Sane(s') && s'.shared.locked && Outside(s', u, req) && NeverConfirmed(s, s', u, req)
  {
    if labels != [] {
      var n := |labels| - 1;
      var s1 := Exec(c, s, labels[..n]).value;
      PrefixContinues(c, s, labels);
      OutsideRun(c, s, labels[..n], u, req);
      LockedStep(c, s1, labels[n]);
      OutsideStep(c, s1, labels[n], u, req);
      StepExtends(c, s1, labels[n]);
    }
  }

  // ---------------------------------------------------------------------------
  // Exactly who is confirmed after a lock
  // ---------------------------------------------------------------------------

  /** A continuation without an unlock that confirms request `req` of task `u`. */
  ghost predicate ConfirmingRun(c: Config, s: System, labels: seq<Label>, u: nat, req: nat) {
    && Exec(c, s, labels).Some? && Continues(s, Exec(c, s, labels).value)
    && !NeverConfirmed(s, Exec(c, s, labels).value, u, req)
  }

  lemma ConfirmableIsConfirmed(c: Config, s: System, u: nat)
    requires Sane(s) && s.shared.locked && u < |s.tasks| && Confirmable(s.tasks[u])
    ensures exists labels :: ConfirmingRun(c, s, labels, u, s.tasks[u].req)
  {
    var labels := RunToConfirmation(c, s, u);
    var s' := Exec(c, s, labels).value;
    assert Confirms(s'.trace[|s'.trace| - 1], u, s.tasks[u].req);
    assert ConfirmingRun(c, s, labels, u, s.tasks[u].req);
  }

  lemma OutsideIsNeverConfirmed(c: Config, s: System, u: nat, req: nat)
    requires Sane(s) && s.shared.locked && Outside(s, u, req)
    ensures forall labels :: !ConfirmingRun(c, s, labels, u, req)
  {
    forall labels ensures !ConfirmingRun(c, s, labels, u, req) {
      if Exec(c, s, labels).Some? && Continues(s, Exec(c, s, labels).value) { OutsideRun(c, s, labels, u, req); }
    }
  }

  /** In every locked state of every run, and so when the lock has just been set: a decrypt or auth under way can be
      approved before the next unlock if and only if it stands past its check and is not approved yet. */
  lemma ApprovedWhileLocked(c: Config, s0: System, run: seq<Label>, u: nat)
    requires Init(s0) && Exec(c, s0, run).Some? && Exec(c, s0, run).value.shared.locked
    requires var s := Exec(c, s0, run).value;
      u < |s.tasks| && !s.tasks[u].pc.Idle? && (s.tasks[u].op.Decrypt? || s.tasks[u].op.Auth?)
    ensures var s := Exec(c, s0, run).value;
      (exists labels :: ConfirmingRun(c, s, labels, u, s.tasks[u].req)) <==> Approvable(s.tasks[u])
  {
    var s := Exec(c, s0, run).value;
    ReachableIsSane(c, s0, run);
    AgentAuthorization.AuthAlwaysHolds(c, s0, run);
    assert TaskOk(s.tasks[u]) && AgentAuthorization.AuthTaskOk(c, s.trace, u, s.tasks[u]);
    if Approvable(s.tasks[u]) {
      ConfirmableIsConfirmed(c, s, u);
    } else {
      OutsideIsNeverConfirmed(c, s, u, s.tasks[u].req);
    }
  }

  /** A sign that holds its key can sign before the next unlock; one still before its check cannot. */
  lemma SignedWhileLocked(c: Config, s0: System, run: seq<Label>, u: nat)
    requires Init(s0) && Exec(c, s0, run).Some? && Exec(c, s0, run).value.shared.locked
    requires var s := Exec(c, s0, run).value; u < |s.tasks| && s.tasks[u].op.Sign?
    ensures var s := Exec(c, s0, run).value;
      && (HoldsKey(s.tasks[u]) ==> exists labels :: ConfirmingRun(c, s, labels, u, s.tasks[u].req))
      && (s.tasks[u].pc.AtCheck? ==> forall labels :: !ConfirmingRun(c, s, labels, u, s.tasks[u].req))
  {
    var s := Exec(c, s0, run).value;
    ReachableIsSane(c, s0, run);
    AgentAuthorization.AuthAlwaysHolds(c, s0, run);
    assert TaskOk(s.tasks[u]) && AgentAuthorization.AuthTaskOk(c, s.trace, u, s.tasks[u]);
    if HoldsKey(s.tasks[u]) {
      ConfirmableIsConfirmed(c, s, u);
    } else if s.tasks[u].pc.AtCheck? {
      OutsideIsNeverConfirmed(c, s, u, s.tasks[u].req);
    }
  }
}
