/**
 Listing the keys of a locked agent: with nobody in the queue who clears the map again, what a straggler puts in
 memory after a lock is shown by a list that passed its check before.
 */
module AgentLockedListing {
  import opened Common
  import opened AncestorWalk
  import opened AgentMachine
  import opened AgentGuards
  import opened AgentProgress
  import opened AgentLockProtocol
  import opened AgentStragglers
  import opened AgentLockReturn
  import opened AgentLockedMemory

  // ---------------------------------------------------------------------------
  // Who clears the map, who lists it
  // ---------------------------------------------------------------------------

  /** It waits for the keys to clear the map. */
  predicate Clears(k: Task) {
    k.pc == AtEdit(RemoveAcquire) || k.pc == AtSweep(SweepKeysAcquire) || k.pc == AtLock(LockKeysAcquire)
    || k.pc == AtUnlock(UnlockKeysAcquire) || EmptyLoad(k)
  }

  /** It has the keys and is about to clear the map. */
  predicate Clearing(k: Task) {
    k.pc == AtEdit(RemoveStore) || k.pc == AtSweep(SweepKeys) || k.pc == AtLock(LockKeysClear)
    || k.pc == AtUnlock(UnlockKeysStore) || (k.pc == AtEnsure(StoreKeys) && k.loaded == map[])
  }

  ghost predicate NobodyClears(s: System) {
    && (forall v | v in s.queues.keys && v < |s.tasks| :: !Clears(s.tasks[v]))
    && (forall v | 0 <= v < |s.tasks| :: !Clearing(s.tasks[v]))
  }

  /** A list past its check that has not read an empty key file. */
  predicate Lists(k: Task) {
    k.op.List? && Unserved(k) && (AtStore(k) ==> k.loaded != map[])
  }

  /** It stands outside all queues with empty hands. */
  ghost predicate Parked(s: System, u: nat) {
    && u < |s.tasks| && s.tasks[u].guards == NO_GUARDS
    && (Wants(s.tasks[u].pc).None? || (WantsKeys(s.tasks[u]) && u !in s.queues.keys))
  }

  lemma ParkedIsNowhere(s: System, u: nat, m: Lock)
    requires GuardInv(s) && Parked(s, u)
    ensures !Near(s, u, m)
  {
    assert u in s.queues.At(m) ==> Waits(s, u, m);
  }

  /** A list as its own filler, or outside the filler's way. */
  ghost predicate Waiting(s: System, f: nat, u: nat) {
    u < |s.tasks| && Lists(s.tasks[u]) && (u == f || Parked(s, u))
  }

  // ---------------------------------------------------------------------------
  // Steps on somebody's way clear nothing
  // ---------------------------------------------------------------------------

  /** Whoever wants the keys on the way of `f` heads their queue; `f` itself clears nothing. */
  ghost predicate OnKeysWay(s: System, f: nat, b: nat) {
    && b < |s.tasks| && f < |s.tasks| && !Clears(s.tasks[f])
    && (b != f && WantsKeys(s.tasks[b]) ==> s.queues.keys != [] && s.queues.keys[0] == b)
  }

  lemma LocalClearsNobody(c: Config, now: nat, procs: ProcessTable, t: nat, sh: Shared, k: Task, ch: Choice)
    requires TaskOk(k) && !k.pc.Idle? && Wants(k.pc).None?
    ensures !Clearing(LocalEffect(c, now, procs, t, sh, k, ch).task)
  {
    match k.pc
    case AtAuth(_) => AuthClearsNobody(c, now, procs, t, sh, k, ch);
    case AtLock(_) => LockClearsNobody(t, sh, k, if k.op.LockAgent? then k.op.hash else []);
    case AtUnlock(_) => UnlockClearsNobody(t, sh, k, if k.op.UnlockAgent? then k.op.hash else [], ch);
    case AtSweep(_) => SweepClearsNobody(c, now, t, sh, k);
    case _ =>
  }

  lemma AuthClearsNobody(c: Config, now: nat, procs: ProcessTable, t: nat, sh: Shared, k: Task, ch: Choice)
    requires k.pc.AtAuth? && Wants(k.pc).None?
    ensures !Clearing(AuthEffect(c, now, procs, t, sh, k, k.pc.a, ch).task)
  {
  }

  lemma LockClearsNobody(t: nat, sh: Shared, k: Task, hash: Digest)
    requires k.pc.AtLock? && Wants(k.pc).None?
    ensures !Clearing(LockEffect(t, sh, k, k.pc.l, hash).task)
  {
  }

  lemma UnlockClearsNobody(t: nat, sh: Shared, k: Task, hash: Digest, ch: Choice)
    requires k.pc.AtUnlock? && Wants(k.pc).None?
    ensures !Clearing(UnlockEffect(t, sh, k, k.pc.u, hash, ch).task)
  {
  }

  lemma SweepClearsNobody(c: Config, now: nat, t: nat, sh: Shared, k: Task)
    requires k.pc.AtSweep? && Wants(k.pc).None?
    ensures !Clearing(SweepEffect(c, now, t, sh, k, k.pc.w).task)
  {
  }

  lemma AcquiredClearing(k: Task, k': Task)
    requires Wants(k.pc).Some? && k'.pc == AfterAcquire(k.pc) && k'.loaded == k.loaded
    ensures Clearing(k') ==> Clears(k) && WantsKeys(k)
    ensures !Clears(k') || EmptyLoad(k)
  {
  }

  lemma NobodyClearsStep(c: Config, s: System, a: Label, f: nat)
    requires GuardInv(s) && NobodyClears(s) && Enabled(s, a) && Actor(a).Some? && OnKeysWay(s, f, Actor(a).value)
    ensures NobodyClears(Next(c, s, a))
  {
    var b := Actor(a).value;
    var s1 := Next(c, s, a);
    assert TaskOk(s.tasks[b]);
    match a
    case Local(_, ch) =>
      LocalClearsNobody(c, s.now, s.procs, b, s.shared, s.tasks[b], ch);
      KeysQueueStays(c, s, a, b);
    case Acquire(_) => NobodyClearsAcquire(c, s, b);
    case Enqueue(_) =>
      if !WantsKeys(s.tasks[b]) { KeysQueueStays(c, s, a, b); }
  }

  lemma NobodyClearsAcquire(c: Config, s: System, b: nat)
    requires GuardInv(s) && NobodyClears(s) && Enabled(s, Acquire(b))
    ensures NobodyClears(Next(c, s, Acquire(b)))
  {
    var s1 := Next(c, s, Acquire(b));
    AcquiredClearing(s.tasks[b], s1.tasks[b]);
    if WantsKeys(s.tasks[b]) {
      assert s.queues.At(LKeys) == s.queues.keys && b in s.queues.keys && Distinct(s.queues.At(LKeys));
      assert s1.queues.keys == s.queues.keys[1..];
    } else {
      KeysQueueStays(c, s, Acquire(b), b);
    }
  }

  lemma EnsureKeepsFull(t: nat, sh: Shared, k: Task, ch: Choice)
    requires k.pc.AtEnsure? && Wants(k.pc).None? && !Clearing(k) && sh.keys != map[]
    ensures EnsureEffect(t, sh, k, k.pc.e, ch).shared.keys != map[]
  {
  }

  lemma EditKeepsFull(t: nat, sh: Shared, k: Task, ch: Choice)
    requires k.pc.AtEdit? && Wants(k.pc).None? && !Clearing(k) && sh.keys != map[]
    ensures EditEffect(t, sh, k, k.pc.d, ch).shared.keys != map[]
  {
    if k.op.Add? { assert k.op.fingerprint in sh.keys[k.op.fingerprint := k.op.key]; }
  }

  lemma LockKeepsFull(t: nat, sh: Shared, k: Task, hash: Digest)
    requires k.pc.AtLock? && Wants(k.pc).None? && !Clearing(k)
    ensures LockEffect(t, sh, k, k.pc.l, hash).shared.keys == sh.keys
  {
  }

  lemma UnlockKeepsFull(t: nat, sh: Shared, k: Task, hash: Digest, ch: Choice)
    requires k.pc.AtUnlock? && Wants(k.pc).None? && !Clearing(k)
    ensures UnlockEffect(t, sh, k, k.pc.u, hash, ch).shared.keys == sh.keys
  {
  }

  lemma SweepKeepsFull(c: Config, now: nat, t: nat, sh: Shared, k: Task)
    requires k.pc.AtSweep? && Wants(k.pc).None? && !Clearing(k)
    ensures SweepEffect(c, now, t, sh, k, k.pc.w).shared.keys == sh.keys
  {
  }

  lemma AuthKeepsFull(c: Config, now: nat, procs: ProcessTable, t: nat, sh: Shared, k: Task, ch: Choice)
    requires k.pc.AtAuth? && Wants(k.pc).None?
    ensures AuthEffect(c, now, procs, t, sh, k, k.pc.a, ch).shared.keys == sh.keys
  {
  }

  lemma LocalKeepsFull(c: Config, now: nat, procs: ProcessTable, t: nat, sh: Shared, k: Task, ch: Choice)
    requires !k.pc.Idle? && Wants(k.pc).None? && !Clearing(k) && sh.keys != map[]
    ensures LocalEffect(c, now, procs, t, sh, k, ch).shared.keys != map[]
  {
    match k.pc
    case AtEnsure(_) => EnsureKeepsFull(t, sh, k, ch);
    case AtEdit(_) => EditKeepsFull(t, sh, k, ch);
    case AtAuth(_) => AuthKeepsFull(c, now, procs, t, sh, k, ch);
    case AtLock(_) => LockKeepsFull(t, sh, k, if k.op.LockAgent? then k.op.hash else []);
    case AtUnlock(_) => UnlockKeepsFull(t, sh, k, if k.op.UnlockAgent? then k.op.hash else [], ch);
    case AtSweep(_) => SweepKeepsFull(c, now, t, sh, k);
    case _ =>
  }

  // ---------------------------------------------------------------------------
  // From a full map to its listing
  // ---------------------------------------------------------------------------

  /** Request `req` of task `u` has just listed a key. */
  ghost predicate JustListed(s: System, s1: System, u: nat, req: nat) {
    && |s1.trace| > |s.trace|
    && s1.trace[|s1.trace| - 1].Listed? && s1.trace[|s1.trace| - 1].t == u && s1.trace[|s1.trace| - 1].req == req
    && s1.trace[|s1.trace| - 1].fingerprints != {}
  }

  ghost predicate ListGoesOn(s: System, u: nat) {
    Sane(s) && s.shared.locked && s.shared.keys != map[] && NobodyClears(s) && u < |s.tasks| && Lists(s.tasks[u])
  }

  lemma EnsureLists(t: nat, sh: Shared, k: Task, ch: Choice)
    requires TaskOk(k) && k.pc.AtEnsure? && Wants(k.pc).None? && Lists(k) && ch.ok && ch.keys != map[]
    ensures Lists(EnsureEffect(t, sh, k, k.pc.e, ch).task)
  {
  }

  lemma ListerMoves(c: Config, s: System, a: Label, u: nat)
    requires ListGoesOn(s, u) && Enabled(s, a) && Actor(a) == Some(u) && (a.Local? ==> a.choice.ok && a.choice.keys != map[])
    ensures var s1 := Next(c, s, a);
      s1.tasks[u].req == s.tasks[u].req && (Lists(s1.tasks[u]) || JustListed(s, s1, u, s.tasks[u].req))
  {
    var k := s.tasks[u];
    assert TaskOk(k);
    if a.Local? && k.pc.AtEnsure? { EnsureLists(u, s.shared, k, a.choice); }
    if a.Local? && k.pc == ListRead { NotEmpty(s.shared.keys); }
  }

  lemma NotEmpty(keys: KeyMap)
    requires keys != map[]
    ensures keys.Keys != {}
  {
    var k :| k in keys;
    assert k in keys.Keys;
  }

  /** The way of a task that clears nothing is a way on which nobody clears anything. */
  lemma WayClearsNothing(s: System, f: nat, b: nat)
    requires GuardInv(s) && f < |s.tasks| && OnTheWay(s, f, b) && !Clears(s.tasks[f])
    requires Wants(s.tasks[f].pc).Some? ==> Rank(Wants(s.tasks[f].pc).value.0) >= 2
    ensures OnKeysWay(s, f, b)
  {
    if b != f { WayToKeys(s, f, b); }
  }

  lemma ListStep(c: Config, s: System, u: nat, file: KeyMap) returns (a: Label)
    requires ListGoesOn(s, u) && file != map[]
    ensures Enabled(s, a) && Actor(a).Some? && Continues(s, Next(c, s, a))
    ensures var s1 := Next(c, s, a);
      && s1.shared.locked && u < |s1.tasks| && s1.tasks[u].req == s.tasks[u].req
      && (ListGoesOn(s1, u) || JustListed(s, s1, u, s.tasks[u].req))
  {
    assert TaskOk(s.tasks[u]);
    UnservedWantsKeys(s.tasks[u]);
    a := FindRunnable(s, u);
    a := WithFile(a, file);
    var b := Actor(a).value;
    WayClearsNothing(s, u, b);
    if b != u { AboveIsNoUnlock(s, b, Wants(s.tasks[u].pc).value.0); }
    OnlyUnlocksReset(c, s, a);
    LockedStep(c, s, a);
    StepExtends(c, s, a);
    NobodyClearsStep(c, s, a, u);
    FullStays(c, s, a);
    if b == u { ListerMoves(c, s, a, u); }
  }

  lemma FullStays(c: Config, s: System, a: Label)
    requires GuardInv(s) && NobodyClears(s) && s.shared.keys != map[] && Enabled(s, a)
    ensures Next(c, s, a).shared.keys != map[]
  {
    if a.Local? {
      assert TaskOk(s.tasks[a.t]);
      LocalKeepsFull(c, s.now, s.procs, a.t, s.shared, s.tasks[a.t], a.choice);
    }
  }

  lemma {:induction false} RunToListing(c: Config, s: System, u: nat, file: KeyMap) returns (labels: seq<Label>)
    requires ListGoesOn(s, u) && file != map[]
    ensures Exec(c, s, labels).Some?
    ensures var s' := Exec(c, s, labels).value;
      Continues(s, s') && s'.shared.locked && JustListed(s, s', u, s.tasks[u].req)
    decreases Work(s)
  {
    var a := ListStep(c, s, u, file);
    StepDoesWork(c, s, a);
    var s1 := Next(c, s, a);
    var rest: seq<Label> := [];
    if !JustListed(s, s1, u, s.tasks[u].req) {
      rest := RunToListing(c, s1, u, file);
      ContinuesOn(s, s1, Exec(c, s1, rest).value);
    }
    ExecFirst(c, s, a, rest);
    labels := [a] + rest;
  }

  // ---------------------------------------------------------------------------
  // From a filler to a full map, past a list
  // ---------------------------------------------------------------------------

  ghost predicate FillAndList(s: System, f: nat, u: nat) {
    FillGoesOn(s, f) && NobodyClears(s) && Waiting(s, f, u)
  }

  lemma FillerClearsNothing(s: System, f: nat)
    requires FillGoesOn(s, f)
    ensures !Clears(s.tasks[f])
  {
  }

  /** A list that is its own filler goes on as a list. */
  lemma FillerStaysList(c: Config, s: System, a: Label, f: nat)
    requires FillGoesOn(s, f) && Lists(s.tasks[f]) && Enabled(s, a) && Actor(a) == Some(f)
    requires a.Local? ==> a.choice.ok && a.choice.keys != map[]
    ensures Lists(Next(c, s, a).tasks[f]) && Next(c, s, a).tasks[f].req == s.tasks[f].req
  {
    assert TaskOk(s.tasks[f]);
    assert s.tasks[f].pc.AtEnsure?;
    if a.Local? { EnsureLists(f, s.shared, s.tasks[f], a.choice); }
  }

  /** A parked list is not touched by steps on the filler's way. */
  lemma ParkedStays(c: Config, s: System, a: Label, f: nat, u: nat)
    requires GuardInv(s) && Parked(s, u) && u != f && Enabled(s, a) && Actor(a).Some? && OnTheWay(s, f, Actor(a).value)
    ensures u < |Next(c, s, a).tasks| && Next(c, s, a).tasks[u] == s.tasks[u] && Parked(Next(c, s, a), u)
  {
    var b := Actor(a).value;
    if b == u {
      var l := Wants(s.tasks[f].pc).value.0;
      var m :| (m == l || Rank(m) > Rank(l)) && FirstAt(s, b, m);
      ParkedIsNowhere(s, u, m);
    }
    StepExtends(c, s, a);
  }

  lemma FillAndListStep(c: Config, s: System, f: nat, u: nat, file: KeyMap) returns (a: Label)
    requires FillAndList(s, f, u) && file != map[]
    ensures Enabled(s, a) && Actor(a).Some? && Continues(s, Next(c, s, a))
    ensures var s1 := Next(c, s, a);
      && s1.shared.locked && u < |s1.tasks| && s1.tasks[u].req == s.tasks[u].req
      && (FillAndList(s1, f, u) || ListGoesOn(s1, u))
  {
    FillerWantsKeys(s, f);
    FillerClearsNothing(s, f);
    a := FindRunnable(s, f);
    a := WithFile(a, file);
    var b := Actor(a).value;
    WayClearsNothing(s, f, b);
    if b != f { AboveIsNoUnlock(s, b, Wants(s.tasks[f].pc).value.0); }
    OnlyUnlocksReset(c, s, a);
    LockedStep(c, s, a);
    StepExtends(c, s, a);
    FillSurvives(c, s, a, f);
    NobodyClearsStep(c, s, a, f);
    if u != f {
      ParkedStays(c, s, a, f, u);
    } else if b == f {
      FillerStaysList(c, s, a, f);
    }
  }

  lemma {:induction false} RunToFillAndList(c: Config, s: System, f: nat, u: nat, file: KeyMap) returns (labels: seq<Label>)
    requires FillAndList(s, f, u) && file != map[]
    ensures Exec(c, s, labels).Some?
    ensures var s' := Exec(c, s, labels).value;
      Continues(s, s') && s'.shared.locked && JustListed(s, s', u, s.tasks[u].req)
    decreases Work(s)
  {
    var a := FillAndListStep(c, s, f, u, file);
    StepDoesWork(c, s, a);
    var s1 := Next(c, s, a);
    var rest: seq<Label>;
    if FillAndList(s1, f, u) {
      rest := RunToFillAndList(c, s1, f, u, file);
    } else {
      rest := RunToListing(c, s1, u, file);
    }
    JustListedOn(s, s1, Exec(c, s1, rest).value, u, s.tasks[u].req);
    ExecFirst(c, s, a, rest);
    labels := [a] + rest;
  }

  lemma JustListedOn(s: System, s1: System, s2: System, u: nat, req: nat)
    requires Continues(s, s1) && Continues(s1, s2) && JustListed(s1, s2, u, req)
    ensures Continues(s, s2) && JustListed(s, s2, u, req)
  {
    ContinuesOn(s, s1, s2);
  }

  // ---------------------------------------------------------------------------
  // After a lock
  // ---------------------------------------------------------------------------

  /** In a run without an unlock the lock returns, and later request `req` of task `u` lists a key. */
  ghost predicate ListsAfterReturn(s: System, s': System, t: nat, lock: nat, u: nat, req: nat) {
    && Continues(s, s') && s'.shared.locked
    && exists r, n :: ReturnedThenListed(s, s', t, lock, u, req, r, n)
  }

  ghost predicate ReturnedThenListed(s: System, s': System, t: nat, lock: nat, u: nat, req: nat, r: nat, n: nat) {
    && |s.trace| <= r < n < |s'.trace| && s'.trace[r] == LockReturned(t, lock)
    && s'.trace[n].Listed? && s'.trace[n].t == u && s'.trace[n].req == req && s'.trace[n].fingerprints != {}
  }

  lemma QueueClearsNothing(s: System, s1: System, t: nat, us: set<nat>)
    requires Returned(s, s1, t, us) && GuardInv(s) && Flushed(s.tasks[t].pc)
    requires forall v | v in s.queues.keys && v < |s.tasks| :: !Clears(s.tasks[v])
    ensures NobodyClears(s1)
  {
    forall v | 0 <= v < |s1.tasks| ensures !Clearing(s1.tasks[v]) {
      assert TaskOk(s1.tasks[v]);
      if Clearing(s1.tasks[v]) { ClearingOwnsKeys(s1.tasks[v]); }
    }
  }

  lemma ClearingOwnsKeys(k: Task)
    requires TaskOk(k) && Clearing(k)
    ensures k.guards.keys.Write? && !k.pc.Idle?
  {
  }

  lemma ParkedAfterReturn(s: System, s1: System, t: nat, us: set<nat>, u: nat)
    requires Returned(s, s1, t, us) && Flushed(s.tasks[t].pc) && u in us && Parked(s, u)
    ensures Parked(s1, u) && s1.tasks[u] == s.tasks[u]
  {
  }

  lemma ListedLater(s: System, s1: System, s2: System, t: nat, us: set<nat>, u: nat)
    requires Returned(s, s1, t, us) && u in us && Continues(s1, s2) && s2.shared.locked
    requires JustListed(s1, s2, u, s1.tasks[u].req)
    ensures ListsAfterReturn(s, s2, t, s.tasks[t].req, u, s.tasks[u].req)
  {
    ContinuesOn(s, s1, s2);
    var r := |s1.trace| - 1;
    assert s2.trace[r] == s1.trace[r];
    assert ReturnedThenListed(s, s2, t, s.tasks[t].req, u, s.tasks[u].req, r, |s2.trace| - 1);
  }

  lemma ListIsAside(s: System, t: nat, u: nat)
    requires JustEmptied(s, t) && u < |s.tasks| && Lists(s.tasks[u])
    ensures Aside(s, t, u)
  {
    ListWantsNoCache(s.tasks[u]);
    assert u in s.queues.At(LCache) ==> Waits(s, u, LCache);
  }

  lemma ListWantsNoCache(k: Task)
    requires TaskOk(k) && Lists(k)
    ensures k.guards.cache.Free? && (Wants(k.pc).Some? ==> !Wants(k.pc).value.0.LCache?) && !k.pc.AtLock?
  {
  }

  /** When `lock` has just emptied the map and nobody queues for the keys to clear it: if some request will fill the map,
      then a list past its check, if it is that request or stands outside all queues, can show a key after the lock has
      returned and before any unlock. If no request will fill it, MapStaysEmpty says that every listing is empty. */
  lemma FilledMapIsListed(c: Config, s: System, t: nat, f: nat, u: nat, file: KeyMap) returns (labels: seq<Label>)
    requires JustEmptied(s, t) && WillFill(s, f) && Waiting(s, f, u) && file != map[]
    requires forall v | v in s.queues.keys && v < |s.tasks| :: !Clears(s.tasks[v])
    ensures Exec(c, s, labels).Some?
    ensures ListsAfterReturn(s, Exec(c, s, labels).value, t, s.tasks[t].req, u, s.tasks[u].req)
  {
    FillerIsAside(s, t, f);
    ListIsAside(s, t, u);
    var first := RunToReturn(c, s, t, {f, u});
    var s1 := Exec(c, s, first).value;
    ReturnedFew(s, s1, t, {f, u}, f);
    FillerAfterReturn(s, s1, t, f);
    QueueClearsNothing(s, s1, t, {f, u});
    if u != f { ParkedAfterReturn(s, s1, t, {f, u}, u); }
    var rest := RunToFillAndList(c, s1, f, u, file);
    ListedLater(s, s1, Exec(c, s1, rest).value, t, {f, u}, u);
    ExecAppend(c, s, first, rest);
    labels := first + rest;
  }

  lemma ReturnedFew(s: System, s1: System, t: nat, us: set<nat>, f: nat)
    requires Returned(s, s1, t, us) && f in us
    ensures Returned(s, s1, t, {f})
  {
  }
}
