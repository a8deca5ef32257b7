/**
 What a lock does not stop. List, sign and add give the `locked` guard back before they touch the keys, so a
 request that has passed its check may list, store or add keys after the agent was locked. Here is exactly when.
 */
module AgentStragglers {
  import opened Common
  import opened AncestorWalk
  import opened AgentMachine
  import opened AgentGuards
  import opened AgentProgress
  import AgentDiscipline
  import opened AgentLockProtocol

  // ---------------------------------------------------------------------------
  // Continuing a run
  // ---------------------------------------------------------------------------

  lemma {:induction false} ExecAppend(c: Config, s: System, a: seq<Label>, b: seq<Label>)
    requires Exec(c, s, a).Some?
    ensures Exec(c, s, a + b) == Exec(c, Exec(c, s, a).value, b)
  {
    if b == [] {
      assert a + b == a;
    } else {
      assert (a + b)[..|a + b| - 1] == a + b[..|b| - 1];
      ExecAppend(c, s, a, b[..|b| - 1]);
    }
  }

  lemma ExecFirst(c: Config, s: System, a: Label, rest: seq<Label>)
    requires Enabled(s, a)
    ensures Exec(c, s, [a] + rest) == Exec(c, Next(c, s, a), rest)
  {
    assert [a][..0] == [];
    assert Exec(c, s, [a][..0]) == Some(s);
    ExecAppend(c, s, [a], rest);
  }

  /** The guards are as the table says, and the trace tells the lock state. */
  ghost predicate Sane(s: System) {
    GuardInv(s) && LockInv(s)
  }

  lemma ReachableIsSane(c: Config, s0: System, labels: seq<Label>)
    requires Init(s0) && Exec(c, s0, labels).Some?
    ensures Sane(Exec(c, s0, labels).value)
  {
    GuardsAlwaysHold(c, s0, labels);
    LockAlwaysHolds(c, s0, labels);
  }

  lemma StepIsSane(c: Config, s: System, a: Label)
    requires Sane(s) && Enabled(s, a)
    ensures Sane(Next(c, s, a))
  {
    NextKeepsGuards(c, s, a);
    NextKeepsLock(c, s, a);
  }

  /** `s'` continues the trace of `s`, and nobody unlocks meanwhile. */
  ghost predicate Continues(s: System, s': System) {
    && |s.tasks| == |s'.tasks| && s.trace <= s'.trace
    && forall n | |s.trace| <= n < |s'.trace| :: !s'.trace[n].LockReset?
  }

  lemma ContinuesOn(s: System, s1: System, s2: System)
    requires Continues(s, s1) && Continues(s1, s2)
    ensures Continues(s, s2)
  {
    forall n | |s.trace| <= n < |s2.trace| ensures !s2.trace[n].LockReset? {
      if n < |s1.trace| { assert s2.trace[n] == s1.trace[n]; }
    }
  }

  lemma StepExtends(c: Config, s: System, a: Label)
    requires Enabled(s, a)
    ensures var s' := Next(c, s, a);
      && |s.tasks| == |s'.tasks| && s.trace <= s'.trace && |s'.trace| <= |s.trace| + 1
      && forall u | 0 <= u < |s.tasks| && Actor(a) != Some(u) && !(a.Arrive? && a.t == u) :: s'.tasks[u] == s.tasks[u]
  {
  }

  /** As long as nobody unlocks, the agent stays locked. */
  lemma StillLocked(s: System, s': System)
    requires LockInv(s) && LockInv(s') && s.shared.locked && Continues(s, s') && |s'.trace| <= |s.trace| + 1
    ensures s'.shared.locked
  {
    if |s'.trace| == |s.trace| + 1 {
      assert s'.trace == s.trace + [s'.trace[|s.trace|]];
      LockStateStep(s.trace, s'.trace[|s.trace|]);
    } else {
      assert s'.trace == s.trace;
    }
  }

  lemma LockedStep(c: Config, s: System, a: Label)
    requires Sane(s) && s.shared.locked && Enabled(s, a) && Continues(s, Next(c, s, a))
    ensures Sane(Next(c, s, a)) && Next(c, s, a).shared.locked
  {
    StepIsSane(c, s, a);
    StepExtends(c, s, a);
    StillLocked(s, Next(c, s, a));
  }

  // ---------------------------------------------------------------------------
  // Steps taken on behalf of a request past its check
  // ---------------------------------------------------------------------------

  /** While the agent is locked, no task is past the point where an unlock opens it. */
  lemma NobodyOpened(s: System, b: nat)
    requires Sane(s) && s.shared.locked && b < |s.tasks|
    ensures !Opened(s.tasks[b].pc)
  {
    assert LockTaskOk(s.shared, s.trace, b, s.tasks[b]);
  }

  /** What stands on the way to keys or to a lock above is no unlock. */
  lemma AboveIsNoUnlock(s: System, b: nat, l: Lock)
    requires Sane(s) && s.shared.locked && Above(s, b, l) && Rank(l) >= 2
    ensures !s.tasks[b].pc.AtUnlock?
  {
    NobodyOpened(s, b);
    assert TaskOk(s.tasks[b]);
    var m :| (m == l || Rank(m) > Rank(l)) && FirstAt(s, b, m);
    if s.tasks[b].guards.At(m).Free? {
      assert b in s.queues.At(m);
      assert Waits(s, b, m);
    }
  }

  lemma LocalResetsNothing(c: Config, now: nat, procs: ProcessTable, t: nat, sh: Shared, k: Task, ch: Choice)
    requires TaskOk(k) && !k.pc.Idle? && Wants(k.pc).None? && !k.pc.AtUnlock?
    ensures var e := LocalEffect(c, now, procs, t, sh, k, ch); e.event.Some? ==> !e.event.value.LockReset?
  {
    if !k.pc.AtLock? {
      AgentDiscipline.EveryWriteIsGuarded(c, now, procs, t, sh, k, ch);
    }
  }

  lemma OnlyUnlocksReset(c: Config, s: System, a: Label)
    requires Sane(s) && Enabled(s, a) && (a.Local? ==> !s.tasks[a.t].pc.AtUnlock?)
    ensures Continues(s, Next(c, s, a))
  {
    StepExtends(c, s, a);
    if a.Local? {
      assert TaskOk(s.tasks[a.t]);
      LocalResetsNothing(c, s.now, s.procs, a.t, s.shared, s.tasks[a.t], a.choice);
    }
  }

  /** The choice under which file and decryption calls succeed and the file holds `keys`. */
  function WithFile(a: Label, keys: KeyMap): Label {
    if a.Local? then Local(a.t, Choice(true, keys)) else a
  }

  // ---------------------------------------------------------------------------
  // Requests served while locked
  // ---------------------------------------------------------------------------

  /** A list or add past its check that has not listed or added yet. */
  predicate Unserved(k: Task) {
    match k.pc
    case AtEnsure(_) | ListAcquire | ListRead => k.op.List?
    case AtEdit(d) => d.AddSave? || d.AddAcquire? || d.AddStore?
    case _ => false
  }

  predicate Serves(e: Event, t: nat, req: nat) {
    match e
    case Listed(u, r, _) => u == t && r == req
    case Added(u, r, _) => u == t && r == req
    case _ => false
  }

  /** Request `req` of task `u` has just been served; an added key is in memory. */
  ghost predicate JustServed(s: System, u: nat, req: nat, op: Op) {
    && s.trace != [] && Serves(s.trace[|s.trace| - 1], u, req)
    && ServingKind(s.trace[|s.trace| - 1], op.Add?)
    && (op.Add? ==> s.trace[|s.trace| - 1] == Added(u, req, op.fingerprint) && op.fingerprint in s.shared.keys)
  }

  lemma UnservedWantsKeys(k: Task)
    requires TaskOk(k) && Unserved(k)
    ensures !k.pc.Idle? && !k.pc.AtUnlock? && (Wants(k.pc).Some? ==> Rank(Wants(k.pc).value.0) >= 2)
  {
  }

  lemma EditMoves(t: nat, sh: Shared, k: Task, ch: Choice)
    requires TaskOk(k) && k.pc.AtEdit? && Unserved(k) && Wants(k.pc).None? && ch.ok
    ensures var e := EditEffect(t, sh, k, k.pc.d, ch);
      if k.pc.d.AddStore? then e.event == Some(Added(t, k.req, k.op.fingerprint)) && k.op.fingerprint in e.shared.keys
      else Unserved(e.task)
  {
  }

  /** A stretch of its own code leads it on or serves it. */
  lemma LocalMoves(c: Config, now: nat, procs: ProcessTable, t: nat, sh: Shared, k: Task, ch: Choice)
    requires TaskOk(k) && Unserved(k) && Wants(k.pc).None? && ch.ok
    ensures var e := LocalEffect(c, now, procs, t, sh, k, ch);
      && e.task.req == k.req && e.task.op == k.op
      && (Unserved(e.task)
          || (e.event.Some? && Serves(e.event.value, t, k.req) && ServingKind(e.event.value, k.op.Add?)
              && (k.op.Add? ==> e.event.value == Added(t, k.req, k.op.fingerprint) && k.op.fingerprint in e.shared.keys)))
  {
    match k.pc
    case AtEnsure(_) => EnsureMoves(t, sh, k, ch);
    case AtEdit(_) => EditMoves(t, sh, k, ch);
    case _ =>
  }

  lemma AcquiredUnserved(k: Task, k': Task)
    requires Wants(k.pc).Some? && k'.pc == AfterAcquire(k.pc) && k'.op == k.op
    ensures Unserved(k') <==> Unserved(k)
  {
  }

  /** Its own steps lead it on until it is served. */
  lemma UnservedMoves(c: Config, s: System, a: Label, u: nat)
    requires Enabled(s, a) && Actor(a) == Some(u) && TaskOk(s.tasks[u]) && Unserved(s.tasks[u]) && (a.Local? ==> a.choice.ok)
    ensures var s' := Next(c, s, a);
      && s'.tasks[u].req == s.tasks[u].req && s'.tasks[u].op == s.tasks[u].op
      && (Unserved(s'.tasks[u])
          || (|s'.trace| > |s.trace| && JustServed(s', u, s.tasks[u].req, s.tasks[u].op)))
  {
    var k := s.tasks[u];
    if a.Local? {
      LocalMoves(c, s.now, s.procs, u, s.shared, k, a.choice);
    } else if a.Acquire? {
      AcquiredUnserved(k, Next(c, s, a).tasks[u]);
    }
  }

  lemma EnsureMoves(t: nat, sh: Shared, k: Task, ch: Choice)
    requires TaskOk(k) && k.pc.AtEnsure? && k.op.List? && Wants(k.pc).None? && ch.ok
    ensures Unserved(EnsureEffect(t, sh, k, k.pc.e, ch).task)
  {
    match k.pc.e
    case EnsureTest =>
    case EnsureFlagRead =>
    case EnsureLoad =>
    case StoreKeys =>
    case StoreFlag =>
    case StoreFlagRelease =>
    case StoreRelease =>
  }

  /** One step on its behalf, which no unlock takes. */
  lemma ServeStep(c: Config, s: System, u: nat) returns (a: Label)
    requires Sane(s) && s.shared.locked && u < |s.tasks| && Unserved(s.tasks[u])
    ensures Enabled(s, a) && Actor(a).Some?
    ensures var s1 := Next(c, s, a);
      && Sane(s1) && s1.shared.locked && Continues(s, s1)
      && s1.tasks[u].req == s.tasks[u].req && s1.tasks[u].op == s.tasks[u].op
      && (Unserved(s1.tasks[u]) || JustServed(s1, u, s.tasks[u].req, s.tasks[u].op))
      && (!Unserved(s1.tasks[u]) ==> |s1.trace| > |s.trace|)
  {
    assert TaskOk(s.tasks[u]);
    UnservedWantsKeys(s.tasks[u]);
    a := FindRunnable(s, u);
    a := WithFile(a, map[]);
    var b := Actor(a).value;
    if b != u { AboveIsNoUnlock(s, b, Wants(s.tasks[u].pc).value.0); }
    OnlyUnlocksReset(c, s, a);
    LockedStep(c, s, a);
    StepExtends(c, s, a);
    if b == u { UnservedMoves(c, s, a, u); }
  }

  /** A locked agent can be run on, without any unlock, until such a request is served. */
  lemma {:induction false} Serve(c: Config, s: System, u: nat) returns (labels: seq<Label>)
    requires Sane(s) && s.shared.locked && u < |s.tasks| && Unserved(s.tasks[u])
    ensures Exec(c, s, labels).Some?
    ensures var s' := Exec(c, s, labels).value;
      && Continues(s, s') && s'.shared.locked && |s'.trace| > |s.trace|
      && JustServed(s', u, s.tasks[u].req, s.tasks[u].op)
    decreases Work(s)
  {
    var a := ServeStep(c, s, u);
    StepDoesWork(c, s, a);
    var s1 := Next(c, s, a);
    var rest: seq<Label> := [];
    if Unserved(s1.tasks[u]) {
      rest := Serve(c, s1, u);
      ContinuesOn(s, s1, Exec(c, s1, rest).value);
    }
    ExecFirst(c, s, a, rest);
    labels := [a] + rest;
  }

  /** Adds, or lists, that have not been served yet. */
  predicate UnservedKind(k: Task, adds: bool) {
    Unserved(k) && k.op.Add? == adds
  }

  predicate ServingKind(e: Event, adds: bool) {
    if adds then e.Added? else e.Listed?
  }

  ghost predicate NoneUnserved(s: System, adds: bool) {
    forall u | 0 <= u < |s.tasks| :: !UnservedKind(s.tasks[u], adds)
  }

  /** Nothing was listed, or nothing added, on the way from `s` to `s'`. */
  ghost predicate ServesNobody(s: System, s': System, adds: bool) {
    forall n | |s.trace| <= n < |s'.trace| :: !ServingKind(s'.trace[n], adds)
  }

  /** The code neither serves such a request nor makes one. */
  predicate ServesNoKind(e: Effect, adds: bool) {
    !UnservedKind(e.task, adds) && (e.event.Some? ==> !ServingKind(e.event.value, adds))
  }

  lemma LocalServesNobody(c: Config, now: nat, procs: ProcessTable, t: nat, sh: Shared, k: Task, ch: Choice, adds: bool)
    requires TaskOk(k) && !k.pc.Idle? && Wants(k.pc).None? && sh.locked && !UnservedKind(k, adds)
    ensures ServesNoKind(LocalEffect(c, now, procs, t, sh, k, ch), adds)
  {
    match k.pc
    case AtLock(_) => LockServesNobody(t, sh, k, adds);
    case AtUnlock(_) => UnlockServesNobody(t, sh, k, ch, adds);
    case AtEnsure(_) => EnsureServesNobody(t, sh, k, ch, adds);
    case AtEdit(_) => EditServesNobody(t, sh, k, ch, adds);
    case AtAuth(_) => AuthServesNobody(c, now, procs, t, sh, k, ch, adds);
    case AtSweep(_) => SweepServesNobody(c, now, t, sh, k, adds);
    case _ =>
  }

  lemma LockServesNobody(t: nat, sh: Shared, k: Task, adds: bool)
    requires TaskOk(k) && k.pc.AtLock? && Wants(k.pc).None?
    ensures ServesNoKind(LockEffect(t, sh, k, k.pc.l, k.op.hash), adds)
  {
  }

  lemma UnlockServesNobody(t: nat, sh: Shared, k: Task, ch: Choice, adds: bool)
    requires TaskOk(k) && k.pc.AtUnlock? && Wants(k.pc).None?
    ensures ServesNoKind(UnlockEffect(t, sh, k, k.pc.u, k.op.hash, ch), adds)
  {
  }

  lemma EnsureServesNobody(t: nat, sh: Shared, k: Task, ch: Choice, adds: bool)
    requires TaskOk(k) && k.pc.AtEnsure? && Wants(k.pc).None? && !UnservedKind(k, adds)
    ensures ServesNoKind(EnsureEffect(t, sh, k, k.pc.e, ch), adds)
  {
  }

  lemma EditServesNobody(t: nat, sh: Shared, k: Task, ch: Choice, adds: bool)
    requires TaskOk(k) && k.pc.AtEdit? && Wants(k.pc).None? && !UnservedKind(k, adds)
    ensures ServesNoKind(EditEffect(t, sh, k, k.pc.d, ch), adds)
  {
  }

  lemma AuthServesNobody(c: Config, now: nat, procs: ProcessTable, t: nat, sh: Shared, k: Task, ch: Choice, adds: bool)
    requires TaskOk(k) && k.pc.AtAuth? && Wants(k.pc).None?
    ensures ServesNoKind(AuthEffect(c, now, procs, t, sh, k, k.pc.a, ch), adds)
  {
  }

  lemma SweepServesNobody(c: Config, now: nat, t: nat, sh: Shared, k: Task, adds: bool)
    requires TaskOk(k) && k.pc.AtSweep? && Wants(k.pc).None?
    ensures ServesNoKind(SweepEffect(c, now, t, sh, k, k.pc.w), adds)
  {
  }

  lemma CodeServesNobody(c: Config, s: System, t: nat, ch: Choice, adds: bool)
    requires GuardInv(s) && s.shared.locked && Enabled(s, Local(t, ch)) && NoneUnserved(s, adds)
    ensures NoneUnserved(Next(c, s, Local(t, ch)), adds) && ServesNobody(s, Next(c, s, Local(t, ch)), adds)
  {
    assert TaskOk(s.tasks[t]);
    LocalServesNobody(c, s.now, s.procs, t, s.shared, s.tasks[t], ch, adds);
  }

  lemma StepServesNobody(c: Config, s: System, a: Label, adds: bool)
    requires GuardInv(s) && s.shared.locked && Enabled(s, a) && NoneUnserved(s, adds)
    ensures NoneUnserved(Next(c, s, a), adds) && ServesNobody(s, Next(c, s, a), adds)
  {
    if a.Local? {
      CodeServesNobody(c, s, a.t, a.choice, adds);
    } else if a.Acquire? {
      AcquiredUnserved(s.tasks[a.t], Next(c, s, a).tasks[a.t]);
    }
  }

  lemma {:induction false} QuietServesNobody(c: Config, s: System, labels: seq<Label>, adds: bool)
    requires Sane(s) && s.shared.locked && NoneUnserved(s, adds)
    requires Exec(c, s, labels).Some? && Continues(s, Exec(c, s, labels).value)
    ensures var s' := Exec(c, s, labels).value;
      Sane(s') && s'.shared.locked && NoneUnserved(s', adds) && ServesNobody(s, s', adds)
  {
    if labels != [] {
      var n := |labels| - 1;
      var s1 := Exec(c, s, labels[..n]).value;
      PrefixContinues(c, s, labels);
      QuietServesNobody(c, s, labels[..n], adds);
      LockedStep(c, s1, labels[n]);
      StepServesNobody(c, s1, labels[n], adds);
      StepExtends(c, s1, labels[n]);
    }
  }

  lemma {:induction false} RunExtends(c: Config, s: System, labels: seq<Label>)
    requires Exec(c, s, labels).Some?
    ensures s.trace <= Exec(c, s, labels).value.trace && |Exec(c, s, labels).value.tasks| == |s.tasks|
  {
    if labels != [] {
      RunExtends(c, s, labels[..|labels| - 1]);
      StepExtends(c, Exec(c, s, labels[..|labels| - 1]).value, labels[|labels| - 1]);
    }
  }

  /** If nobody unlocks in a run, nobody does before its last step, nor in it. */
  lemma PrefixContinues(c: Config, s: System, labels: seq<Label>)
    requires labels != [] && Exec(c, s, labels).Some? && Continues(s, Exec(c, s, labels).value)
    ensures var s1 := Exec(c, s, labels[..|labels| - 1]).value;
      Continues(s, s1) && Continues(s1, Exec(c, s, labels).value)
  {
    var s1 := Exec(c, s, labels[..|labels| - 1]).value;
    RunExtends(c, s, labels[..|labels| - 1]);
    StepExtends(c, s1, labels[|labels| - 1]);
    forall n | |s.trace| <= n < |s1.trace| ensures !s1.trace[n].LockReset? {
      assert Exec(c, s, labels).value.trace[n] == s1.trace[n];
    }
  }

  /** A continuation without an unlock that adds a key, or that lists from the map. */
  ghost predicate ServingRun(c: Config, s: System, labels: seq<Label>, adds: bool) {
    && Exec(c, s, labels).Some? && Continues(s, Exec(c, s, labels).value)
    && !ServesNobody(s, Exec(c, s, labels).value, adds)
  }

  lemma UnservedIsServed(c: Config, s: System, u: nat, adds: bool)
    requires Sane(s) && s.shared.locked && u < |s.tasks| && UnservedKind(s.tasks[u], adds)
    ensures exists labels :: ServingRun(c, s, labels, adds)
  {
    var labels := Serve(c, s, u);
    var s' := Exec(c, s, labels).value;
    assert ServingKind(s'.trace[|s'.trace| - 1], adds);
    assert ServingRun(c, s, labels, adds);
  }

  /** In every locked state of every run, and so when the lock has just been set: some continuation adds a key before the
      next unlock if and only if an add stands past its check and short of its add; and some continuation answers a list
      from the key map, be it empty or not, if and only if a list stands past its check and short of its reading. */
  lemma ServedWhileLocked(c: Config, s0: System, run: seq<Label>, adds: bool)
    requires Init(s0) && Exec(c, s0, run).Some? && Exec(c, s0, run).value.shared.locked
    ensures var s := Exec(c, s0, run).value;
      (exists labels :: ServingRun(c, s, labels, adds)) <==> !NoneUnserved(s, adds)
  {
    var s := Exec(c, s0, run).value;
    ReachableIsSane(c, s0, run);
    if NoneUnserved(s, adds) {
      forall labels ensures !ServingRun(c, s, labels, adds) {
        if ServingRun(c, s, labels, adds) { QuietServesNobody(c, s, labels, adds); }
      }
    } else {
      var u: nat :| u < |s.tasks| && UnservedKind(s.tasks[u], adds);
      UnservedIsServed(c, s, u, adds);
    }
  }
}
