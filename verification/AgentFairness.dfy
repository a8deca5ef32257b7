/**
 Every single request finishes, even while others keep arriving: on an infinite run on which every task that can
 step gets its turn, the first-come queues of the locks let nobody starve.
 */
module AgentFairness {
  import opened Common
  import opened AncestorWalk
  import opened AgentMachine
  import opened AgentGuards
  import opened AgentProgress
  import AgentStragglers

  // ---------------------------------------------------------------------------
  // Infinite fair runs
  // ---------------------------------------------------------------------------

  /** The state before each step, and the step. */
  datatype Run = Run(at: nat -> System, step: nat -> Label)

  /** A task that runs code, has yet to queue, or heads the queue of a lock that is free for it. */
  ghost predicate CanStep(s: System, t: nat) {
    && t < |s.tasks| && !s.tasks[t].pc.Idle?
    && (Wants(s.tasks[t].pc).Some? ==>
          var (l, h) := Wants(s.tasks[t].pc).value;
          t !in s.queues.At(l) || (s.queues.At(l)[0] == t && Compatible(s, l, h)))
  }

  ghost predicate Turn(r: Run, i: nat, t: nat, j: nat) {
    i <= j && (Actor(r.step(j)) == Some(t) || !CanStep(r.at(j), t))
  }

  ghost predicate GetsTurn(r: Run, i: nat, t: nat) {
    exists j :: Turn(r, i, t, j)
  }

  ghost predicate Steps(c: Config, r: Run, i: nat) {
    Enabled(r.at(i), r.step(i)) && r.at(i + 1) == Next(c, r.at(i), r.step(i))
  }

  /** Requests may arrive forever; a task that can step is not passed over forever. */
  ghost predicate FairRun(c: Config, r: Run) {
    && Init(r.at(0))
    && (forall i :: Steps(c, r, i))
    && (forall i, t :: GetsTurn(r, i, t))
  }

  lemma {:induction false} AlwaysGuarded(c: Config, r: Run, i: nat)
    requires FairRun(c, r)
    ensures GuardInv(r.at(i)) && |r.at(i).tasks| == |r.at(0).tasks|
  {
    if i == 0 {
      InitGuards(r.at(0));
    } else {
      AlwaysGuarded(c, r, i - 1);
      assert Steps(c, r, i - 1);
      NextKeepsGuards(c, r.at(i - 1), r.step(i - 1));
    }
  }

  // ---------------------------------------------------------------------------
  // Whoever can step will
  // ---------------------------------------------------------------------------

  /** The guards of a task other than the one that steps stay, and so does the task unless it is a new request. */
  lemma OthersStay(c: Config, s: System, a: Label, u: nat)
    requires GuardInv(s) && Enabled(s, a) && u < |s.tasks| && Actor(a) != Some(u)
    ensures u < |Next(c, s, a).tasks| && Next(c, s, a).tasks[u].guards == s.tasks[u].guards
    ensures !s.tasks[u].pc.Idle? ==> Next(c, s, a).tasks[u] == s.tasks[u]
  {
  }

  /** A guard is gained only by taking the lock. */
  lemma GuardsOfOne(c: Config, s: System, a: Label, u: nat, l: Lock)
    requires GuardInv(s) && Enabled(s, a) && u < |s.tasks| && (a == Acquire(u) ==> Wants(s.tasks[u].pc).value.0 != l)
    ensures u < |Next(c, s, a).tasks|
    ensures var after := Next(c, s, a).tasks[u].guards.At(l); after.Free? || after == s.tasks[u].guards.At(l)
  {
    if Actor(a) != Some(u) {
      OthersStay(c, s, a, u);
    } else if a.Acquire? {
      var (m, h) := Wants(s.tasks[u].pc).value;
      WithAt(s.tasks[u].guards, m, h, l);
    } else if a.Local? {
      LocalKeeps(c, s.now, s.procs, u, s.shared, s.tasks[u], a.choice);
      GivenBackStays(s.tasks[u].guards, Next(c, s, a).tasks[u].guards, l);
    }
  }

  lemma GivenBackStays(before: Guards, after: Guards, l: Lock)
    requires GivesBack(before, after)
    ensures after.At(l).Free? || after.At(l) == before.At(l)
  {
  }

  ghost predicate HeadAt(s: System, b: nat, l: Lock) {
    s.queues.At(l) != [] && s.queues.At(l)[0] == b && Waits(s, b, l)
  }

  /** Only the head of a queue leaves it, and others queue up behind. */
  lemma QueueStep(c: Config, s: System, a: Label, b: nat, l: Lock)
    requires GuardInv(s) && Enabled(s, a) && HeadAt(s, b, l) && a != Acquire(b)
    ensures s.queues.At(l) <= Next(c, s, a).queues.At(l)
    ensures forall t | t in s.queues.At(l) :: t < |s.tasks| && Actor(a) != Some(t)
  {
    assert b in s.queues.At(l);
    if a.Enqueue? {
      var m := Wants(s.tasks[a.t].pc).value.0;
      WithAt(s.queues, m, s.queues.At(m) + [a.t], l);
    } else if a.Acquire? {
      var m := Wants(s.tasks[a.t].pc).value.0;
      assert m != l;
      WithAt(s.queues, m, s.queues.At(m)[1..], l);
    }
    forall t | t in s.queues.At(l) ensures t < |s.tasks| && Actor(a) != Some(t) {
      assert Waits(s, t, l);
    }
  }

  /** What a task can do it still can after somebody else's step. */
  lemma CanStepStays(c: Config, s: System, a: Label, t: nat)
    requires GuardInv(s) && Enabled(s, a) && CanStep(s, t) && Actor(a) != Some(t)
    ensures CanStep(Next(c, s, a), t) && Next(c, s, a).tasks[t] == s.tasks[t]
  {
    var s' := Next(c, s, a);
    OthersStay(c, s, a, t);
    if Wants(s.tasks[t].pc).Some? {
      var (l, h) := Wants(s.tasks[t].pc).value;
      if t in s.queues.At(l) {
        assert Waits(s, t, l);
        QueueStep(c, s, a, t, l);
        CompatibleStays(c, s, a, t, l, h);
      } else {
        NotQueuedStays(c, s, a, t, l);
      }
    }
  }

  lemma NotQueuedStays(c: Config, s: System, a: Label, t: nat, l: Lock)
    requires Enabled(s, a) && Actor(a) != Some(t) && t !in s.queues.At(l)
    ensures t !in Next(c, s, a).queues.At(l)
  {
    if a.Enqueue? {
      var m := Wants(s.tasks[a.t].pc).value.0;
      WithAt(s.queues, m, s.queues.At(m) + [a.t], l);
    } else if a.Acquire? {
      var m := Wants(s.tasks[a.t].pc).value.0;
      WithAt(s.queues, m, s.queues.At(m)[1..], l);
    }
  }

  lemma CompatibleStays(c: Config, s: System, a: Label, t: nat, l: Lock, h: Hold)
    requires GuardInv(s) && Enabled(s, a) && Actor(a) != Some(t) && Compatible(s, l, h) && HeadAt(s, t, l)
    ensures Compatible(Next(c, s, a), l, h)
  {
    var s' := Next(c, s, a);
    forall u | 0 <= u < |s'.tasks|
      ensures s'.tasks[u].guards.At(l).Free? || (h.Read? && s'.tasks[u].guards.At(l).Read?)
    {
      GuardsOfOne(c, s, a, u, l);
    }
  }

  /** Task `t` stands still from `i` until it steps at `j`. */
  ghost predicate StepsAt(r: Run, i: nat, t: nat, j: nat) {
    && i <= j && Actor(r.step(j)) == Some(t)
    && t < |r.at(i).tasks| && t < |r.at(j).tasks| && r.at(j).tasks[t] == r.at(i).tasks[t]
  }

  lemma {:induction false} StandsStill(c: Config, r: Run, i: nat, t: nat, k: nat) returns (j: nat)
    requires FairRun(c, r) && i <= k && CanStep(r.at(i), t) && (Actor(r.step(k)) == Some(t) || !CanStep(r.at(k), t))
    ensures StepsAt(r, i, t, j)
    decreases k - i
  {
    if Actor(r.step(i)) == Some(t) {
      j := i;
    } else {
      AlwaysGuarded(c, r, i);
      assert Steps(c, r, i);
      CanStepStays(c, r.at(i), r.step(i), t);
      j := StandsStill(c, r, i + 1, t, k);
    }
  }

  lemma Moves(c: Config, r: Run, i: nat, t: nat) returns (j: nat)
    requires FairRun(c, r) && CanStep(r.at(i), t)
    ensures StepsAt(r, i, t, j)
  {
    assert GetsTurn(r, i, t);
    var k :| Turn(r, i, t, k);
    j := StandsStill(c, r, i, t, k);
  }

  // ---------------------------------------------------------------------------
  // Waiting in a queue
  // ---------------------------------------------------------------------------

  predicate NotTaken(r: Run, i: nat, j: nat, b: nat) {
    forall k | i <= k < j :: r.step(k) != Acquire(b)
  }

  /** As long as the head has not taken the lock: the queue only grows, whoever is in it stands still, and nobody else
      gets the lock. */
  ghost predicate HeldUp(s: System, s': System, l: Lock) {
    && s.queues.At(l) <= s'.queues.At(l) && |s'.tasks| == |s.tasks|
    && (forall t | t in s.queues.At(l) :: t < |s.tasks| && s'.tasks[t] == s.tasks[t])
    && (forall u | 0 <= u < |s.tasks| && s.tasks[u].guards.At(l).Free? :: s'.tasks[u].guards.At(l).Free?)
  }

  lemma HeldUpOn(s: System, s1: System, s2: System, l: Lock)
    requires HeldUp(s, s1, l) && HeldUp(s1, s2, l)
    ensures HeldUp(s, s2, l)
  {
    forall t | t in s.queues.At(l) ensures s2.tasks[t] == s.tasks[t] { assert t in s1.queues.At(l); }
  }

  lemma HeldUpStep(c: Config, s: System, a: Label, b: nat, l: Lock)
    requires GuardInv(s) && Enabled(s, a) && HeadAt(s, b, l) && a != Acquire(b)
    ensures HeldUp(s, Next(c, s, a), l) && HeadAt(Next(c, s, a), b, l)
  {
    var s' := Next(c, s, a);
    QueueStep(c, s, a, b, l);
    forall t | t in s.queues.At(l) ensures s'.tasks[t] == s.tasks[t] {
      assert Waits(s, t, l);
      OthersStay(c, s, a, t);
    }
    assert b in s.queues.At(l);
    forall u | 0 <= u < |s.tasks| && s.tasks[u].guards.At(l).Free? ensures s'.tasks[u].guards.At(l).Free? {
      assert a == Acquire(u) && Wants(s.tasks[u].pc).value.0 == l ==> u == b;
      GuardsOfOne(c, s, a, u, l);
    }
  }

  lemma {:induction false} HeadStays(c: Config, r: Run, i: nat, j: nat, b: nat, l: Lock)
    requires FairRun(c, r) && i <= j && HeadAt(r.at(i), b, l) && NotTaken(r, i, j, b)
    ensures HeldUp(r.at(i), r.at(j), l) && HeadAt(r.at(j), b, l)
    decreases j - i
  {
    AlwaysGuarded(c, r, i);
    if i < j {
      assert Steps(c, r, i);
      HeldUpStep(c, r.at(i), r.step(i), b, l);
      HeadStays(c, r, i + 1, j, b, l);
      HeldUpOn(r.at(i), r.at(i + 1), r.at(j), l);
    } else {
      forall t | t in r.at(i).queues.At(l) ensures t < |r.at(i).tasks| { assert Waits(r.at(i), t, l); }
    }
  }

  ghost predicate AllFree(s: System, l: Lock, n: nat) {
    forall u | 0 <= u < n && u < |s.tasks| :: s.tasks[u].guards.At(l).Free?
  }

  /** How far a waiting task is from the end of the lock order. */
  function Height(k: Task): nat {
    if Wants(k.pc).None? then 0 else 4 - Rank(Wants(k.pc).value.0)
  }

  /** The task has passed a program point at step `j`. */
  ghost predicate Passes(r: Run, i: nat, t: nat, j: nat) {
    && i <= j && t < |r.at(i).tasks| && t < |r.at(j + 1).tasks|
    && Remaining(r.at(j + 1).tasks[t].pc) < Remaining(r.at(i).tasks[t].pc)
  }

  /** The head of a queue takes the lock at `k`, and not before. */
  ghost predicate Takes(r: Run, i: nat, b: nat, k: nat) {
    i <= k && r.step(k) == Acquire(b) && NotTaken(r, i, k, b)
  }

  lemma {:induction false} FirstTake(r: Run, i: nat, b: nat, j: nat) returns (k: nat)
    requires i <= j && r.step(j) == Acquire(b)
    ensures Takes(r, i, b, k) && k <= j
    decreases j - i
  {
    if r.step(i) == Acquire(b) {
      k := i;
    } else {
      k := FirstTake(r, i + 1, b, j);
    }
  }

  /** A task that steps while heading the queue takes the lock. */
  lemma HeadOnlyTakes(c: Config, r: Run, j: nat, b: nat, l: Lock)
    requires FairRun(c, r) && HeadAt(r.at(j), b, l) && Actor(r.step(j)) == Some(b)
    ensures r.step(j) == Acquire(b)
  {
    assert Steps(c, r, j);
    assert b in r.at(j).queues.At(l);
  }

  lemma AcquirePasses(c: Config, r: Run, j: nat, t: nat)
    requires FairRun(c, r) && r.step(j) == Acquire(t)
    ensures t < |r.at(j).tasks| && Passes(r, j, t, j)
  {
    assert Steps(c, r, j);
    AcquireShrinks(r.at(j).tasks[t].pc);
  }

  lemma LocalPasses(c: Config, r: Run, j: nat, t: nat)
    requires FairRun(c, r) && Actor(r.step(j)) == Some(t) && r.step(j).Local?
    ensures t < |r.at(j).tasks| && Passes(r, j, t, j)
  {
    assert Steps(c, r, j);
    AlwaysGuarded(c, r, j);
    var s := r.at(j);
    LocalShrinks(c, s.now, s.procs, t, s.shared, s.tasks[t], r.step(j).choice);
  }

  /** Whoever holds a lock gives it back. */
  lemma {:induction false} GivesItBack(c: Config, r: Run, i: nat, u: nat, l: Lock) returns (j: nat)
    requires FairRun(c, r) && u < |r.at(i).tasks|
    ensures i <= j && u < |r.at(j).tasks| && r.at(j).tasks[u].guards.At(l).Free?
    decreases 4 - Rank(l), 1, Remaining(r.at(i).tasks[u].pc)
  {
    AlwaysGuarded(c, r, i);
    var k := r.at(i).tasks[u];
    assert TaskOk(k);
    if k.guards.At(l).Free? {
      j := i;
    } else {
      if Wants(k.pc).Some? { AcquiresInOrder(k, l); }
      var p := Advance(c, r, i, u);
      j := GivesItBack(c, r, p + 1, u, l);
    }
  }

  /** While the head of the queue waits, the first `n` tasks give the lock back one after the other. */
  lemma {:induction false} HoldersLeave(c: Config, r: Run, i: nat, b: nat, l: Lock, n: nat) returns (j: nat)
    requires FairRun(c, r) && HeadAt(r.at(i), b, l) && n <= |r.at(i).tasks|
    ensures i <= j && (NotTaken(r, i, j, b) ==> AllFree(r.at(j), l, n))
    decreases 4 - Rank(l), 2, n
  {
    if n == 0 {
      j := i;
    } else {
      var k := HoldersLeave(c, r, i, b, l, n - 1);
      AlwaysGuarded(c, r, i);
      AlwaysGuarded(c, r, k);
      j := GivesItBack(c, r, k, n - 1, l);
      if NotTaken(r, i, j, b) {
        HeadStays(c, r, i, k, b, l);
        HeadStays(c, r, k, j, b, l);
      }
    }
  }

  /** The head of a queue takes the lock. */
  lemma {:induction false} HeadTakes(c: Config, r: Run, i: nat, b: nat, l: Lock) returns (k: nat)
    requires FairRun(c, r) && HeadAt(r.at(i), b, l)
    ensures Takes(r, i, b, k)
    decreases 4 - Rank(l), 3, 0
  {
    AlwaysGuarded(c, r, i);
    var j := HoldersLeave(c, r, i, b, l, |r.at(i).tasks|);
    if NotTaken(r, i, j, b) {
      HeadStays(c, r, i, j, b, l);
      FreeMeansCanStep(r.at(j), b, l);
      var m := Moves(c, r, j, b);
      if NotTaken(r, j, m, b) {
        HeadStays(c, r, j, m, b, l);
        HeadOnlyTakes(c, r, m, b, l);
        k := FirstTake(r, i, b, m);
      } else {
        var n :| j <= n < m && r.step(n) == Acquire(b);
        k := FirstTake(r, i, b, n);
      }
    } else {
      var n :| i <= n < j && r.step(n) == Acquire(b);
      k := FirstTake(r, i, b, n);
    }
  }

  lemma FreeMeansCanStep(s: System, b: nat, l: Lock)
    requires HeadAt(s, b, l) && AllFree(s, l, |s.tasks|)
    ensures CanStep(s, b)
  {
  }

  /** Whoever stands in a queue takes the lock when its turn comes. */
  lemma {:induction false} QueueServes(c: Config, r: Run, i: nat, t: nat, l: Lock, p: nat) returns (k: nat)
    requires FairRun(c, r) && p < |r.at(i).queues.At(l)| && r.at(i).queues.At(l)[p] == t
    ensures i <= k && r.step(k) == Acquire(t) && t < |r.at(i).tasks| && t < |r.at(k).tasks| && r.at(k).tasks[t] == r.at(i).tasks[t]
    decreases 4 - Rank(l), 4, p
  {
    AlwaysGuarded(c, r, i);
    var q := r.at(i).queues.At(l);
    var b := q[0];
    assert b in q && t in q && Waits(r.at(i), b, l);
    var m := HeadTakes(c, r, i, b, l);
    HeadStays(c, r, i, m, b, l);
    if p == 0 {
      k := m;
    } else {
      TurnComesCloser(c, r, m, b, t, l, p);
      k := QueueServes(c, r, m + 1, t, l, p - 1);
    }
  }

  lemma TurnComesCloser(c: Config, r: Run, m: nat, b: nat, t: nat, l: Lock, p: nat)
    requires FairRun(c, r) && r.step(m) == Acquire(b) && HeadAt(r.at(m), b, l)
    requires 0 < p < |r.at(m).queues.At(l)| && r.at(m).queues.At(l)[p] == t
    ensures p - 1 < |r.at(m + 1).queues.At(l)| && r.at(m + 1).queues.At(l)[p - 1] == t
    ensures t < |r.at(m).tasks| && t < |r.at(m + 1).tasks| && r.at(m + 1).tasks[t] == r.at(m).tasks[t]
  {
    AlwaysGuarded(c, r, m);
    assert Steps(c, r, m);
    var s := r.at(m);
    assert Distinct(s.queues.At(l)) && t in s.queues.At(l);
    assert Waits(s, t, l) && t != b;
    WithAt(s.queues, l, s.queues.At(l)[1..], l);
    OthersStay(c, s, r.step(m), t);
  }

  /** Every unfinished request passes its program point. */
  lemma {:induction false} Advance(c: Config, r: Run, i: nat, t: nat) returns (j: nat)
    requires FairRun(c, r) && t < |r.at(i).tasks| && !r.at(i).tasks[t].pc.Idle?
    ensures Passes(r, i, t, j)
    decreases Height(r.at(i).tasks[t]), 5, 0
  {
    var k := r.at(i).tasks[t];
    if Wants(k.pc).None? {
      j := Moves(c, r, i, t);
      assert Steps(c, r, j);
      LocalPasses(c, r, j, t);
    } else {
      var l := Wants(k.pc).value.0;
      var from := i;
      if t !in r.at(i).queues.At(l) {
        var e := Moves(c, r, i, t);
        assert Steps(c, r, e);
        if r.step(e) == Acquire(t) {
          AcquirePasses(c, r, e, t);
          return e;
        }
        Enqueued(c, r.at(e), t);
        from := e + 1;
      }
      var q := r.at(from).queues.At(l);
      var p: nat :| p < |q| && q[p] == t;
      j := QueueServes(c, r, from, t, l, p);
      AcquirePasses(c, r, j, t);
    }
  }

  lemma Enqueued(c: Config, s: System, t: nat)
    requires Enabled(s, Enqueue(t))
    ensures var l := Wants(s.tasks[t].pc).value.0;
      var s' := Next(c, s, Enqueue(t));
      t in s'.queues.At(l) && s'.tasks == s.tasks
  {
    var l := Wants(s.tasks[t].pc).value.0;
    WithAt(s.queues, l, s.queues.At(l) + [t], l);
  }

  /** On every fair run every request finishes, however many others keep arriving. */
  lemma {:induction false} EveryRequestFinishes(c: Config, r: Run, i: nat, t: nat) returns (j: nat)
    requires FairRun(c, r) && t < |r.at(i).tasks|
    ensures i <= j && t < |r.at(j).tasks| && r.at(j).tasks[t].pc.Idle?
    decreases Remaining(r.at(i).tasks[t].pc)
  {
    if r.at(i).tasks[t].pc.Idle? {
      j := i;
    } else {
      var k := Advance(c, r, i, t);
      j := EveryRequestFinishes(c, r, k + 1, t);
    }
  }

  // ---------------------------------------------------------------------------
  // There are fair runs
  // ---------------------------------------------------------------------------

  ghost predicate AllDone(s: System) {
    forall t | 0 <= t < |s.tasks| :: s.tasks[t].pc.Idle?
  }

  /** Any schedule can be continued until every request has finished. */
  lemma {:induction false} RunToEnd(c: Config, s: System) returns (labels: seq<Label>)
    requires GuardInv(s)
    ensures Exec(c, s, labels).Some? && AllDone(Exec(c, s, labels).value)
    decreases Work(s)
  {
    if AllDone(s) {
      labels := [];
    } else {
      var t: nat :| t < |s.tasks| && !s.tasks[t].pc.Idle?;
      var a := FindRunnable(s, t);
      NextKeepsGuards(c, s, a);
      StepDoesWork(c, s, a);
      var rest := RunToEnd(c, Next(c, s, a));
      AgentStragglers.ExecFirst(c, s, a, rest);
      labels := [a] + rest;
    }
  }

  ghost function StateAt(c: Config, s0: System, labels: seq<Label>, i: nat): System {
    var prefix := if i <= |labels| then labels[..i] else labels;
    if Exec(c, s0, prefix).Some? then Exec(c, s0, prefix).value else s0
  }

  /** The schedule, and then time ticking away. */
  ghost function ThenIdle(c: Config, s0: System, labels: seq<Label>): Run {
    Run((i: nat) => StateAt(c, s0, labels, i),
        (i: nat) => if i < |labels| then labels[i] else Tick(StateAt(c, s0, labels, |labels|).now))
  }

  lemma {:induction false} PrefixRuns(c: Config, s0: System, labels: seq<Label>, n: nat)
    requires Exec(c, s0, labels).Some? && n <= |labels|
    ensures Exec(c, s0, labels[..n]).Some?
    decreases |labels|
  {
    if n == |labels| {
      assert labels[..n] == labels;
    } else {
      PrefixRuns(c, s0, labels[..|labels| - 1], n);
      assert labels[..|labels| - 1][..n] == labels[..n];
    }
  }

  lemma ThenIdleSteps(c: Config, s0: System, labels: seq<Label>, i: nat)
    requires Exec(c, s0, labels).Some?
    ensures Steps(c, ThenIdle(c, s0, labels), i)
  {
    var n := |labels|;
    assert labels[..n] == labels;
    if i < n {
      PrefixRuns(c, s0, labels, i + 1);
      assert labels[..i + 1][..i] == labels[..i];
    }
  }

  lemma NobodySteps(s: System, t: nat)
    requires AllDone(s)
    ensures !CanStep(s, t)
  {
  }

  lemma ThenIdleIsFair(c: Config, s0: System, labels: seq<Label>, i: nat, t: nat)
    requires Exec(c, s0, labels).Some? && AllDone(Exec(c, s0, labels).value)
    ensures GetsTurn(ThenIdle(c, s0, labels), i, t)
  {
    var j := i + |labels|;
    var prefix := if j <= |labels| then labels[..j] else labels;
    assert prefix == labels;
    NobodySteps(Exec(c, s0, labels).value, t);
    assert Turn(ThenIdle(c, s0, labels), i, t, j);
  }

  /** Every finite schedule, with whatever requests in it, begins some infinite fair run. */
  lemma FairRunExists(c: Config, s0: System, labels: seq<Label>) returns (r: Run)
    requires Init(s0) && Exec(c, s0, labels).Some?
    ensures FairRun(c, r)
    ensures forall i | 0 <= i < |labels| :: r.step(i) == labels[i]
    ensures r.at(|labels|) == Exec(c, s0, labels).value
  {
    GuardsAlwaysHold(c, s0, labels);
    var rest := RunToEnd(c, Exec(c, s0, labels).value);
    AgentStragglers.ExecAppend(c, s0, labels, rest);
    var all := labels + rest;
    r := ThenIdle(c, s0, all);
    forall i ensures Steps(c, r, i) { ThenIdleSteps(c, s0, all, i); }
    forall i, t ensures GetsTurn(r, i, t) { ThenIdleIsFair(c, s0, all, i, t); }
    assert all[..|labels|] == labels && all[..0] == [];
  }
}
