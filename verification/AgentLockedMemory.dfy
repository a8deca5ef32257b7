/**
 The key map of a locked agent. `lock` empties it, but a request that passed its check before may fill it again.
 Here is exactly when, seen from the moment the lock empties the map.
 */
module AgentLockedMemory {
  import opened Common
  import opened AncestorWalk
  import opened AgentMachine
  import opened AgentGuards
  import opened AgentProgress
  import opened AgentLockProtocol
  import opened AgentStragglers
  import opened AgentLockReturn

  // ---------------------------------------------------------------------------
  // Who will fill an empty map
  // ---------------------------------------------------------------------------

  predicate AtStore(k: Task) {
    k.pc == AtEnsure(StoreAcquire) || k.pc == AtEnsure(StoreKeys)
  }

  /** A reload that has read an empty key file and waits for the keys: it will store nothing and take the flag down. */
  predicate EmptyLoad(k: Task) {
    k.pc == AtEnsure(StoreAcquire) && k.loaded == map[]
  }

  /** It has the keys for writing and will take the flag down before it gives them back. */
  predicate TakesFlagDown(k: Task) {
    (k.pc == AtEnsure(StoreKeys) && k.loaded == map[]) || k.pc == AtEnsure(StoreFlagAcquire) || k.pc == AtEnsure(StoreFlag)
  }

  /** A request that will put a key in memory whatever it reads from now on. */
  predicate Brings(k: Task) {
    match k.pc
    case AtEdit(d) => d.AddSave? || d.AddAcquire? || d.AddStore?
    case AtEnsure(e) => e.EnsureLoad? || ((e.StoreAcquire? || e.StoreKeys?) && k.loaded != map[])
    case _ => false
  }

  predicate Ahead(q: seq<nat>, u: nat, v: nat) {
    exists i, j | 0 <= i < j < |q| :: q[i] == u && q[j] == v
  }

  /** No empty reload will get the keys before task `u` does. */
  ghost predicate NoEmptyAhead(s: System, u: nat) {
    forall v | v in s.queues.keys && v < |s.tasks| && EmptyLoad(s.tasks[v]) :: Ahead(s.queues.keys, u, v)
  }

  ghost predicate FlagStays(s: System) {
    forall v | 0 <= v < |s.tasks| :: !TakesFlagDown(s.tasks[v])
  }

  /** A request on its way through `ensure_keys_loaded` that will still find the flag up. */
  ghost predicate FindsFlagUp(s: System, u: nat)
    requires u < |s.tasks|
  {
    && s.shared.idleCleared && FlagStays(s) && s.tasks[u].pc.AtEnsure?
    && match s.tasks[u].pc.e
       case EnsureAcquire => NoEmptyAhead(s, u)
       case EnsureTest | EnsureFlagAcquire | EnsureFlagRead => true
       case _ => false
  }

  /** With the map empty, task `u` will put a key in memory, if the key file holds one. */
  ghost predicate WillFill(s: System, u: nat) {
    u < |s.tasks| && (Brings(s.tasks[u]) || FindsFlagUp(s, u))
  }

  // ---------------------------------------------------------------------------
  // Running such a request until the map is filled
  // ---------------------------------------------------------------------------

  ghost predicate FillGoesOn(s: System, u: nat) {
    Sane(s) && s.shared.locked && s.shared.keys == map[] && WillFill(s, u)
  }

  predicate MidEnsure(pc: Pc) {
    pc.AtEnsure? && (pc.e.EnsureAcquire? || pc.e.EnsureTest? || pc.e.EnsureFlagAcquire? || pc.e.EnsureFlagRead?)
  }

  lemma FillerWantsKeys(s: System, u: nat)
    requires FillGoesOn(s, u)
    ensures var k := s.tasks[u];
      !k.pc.Idle? && !k.pc.AtUnlock? && (Wants(k.pc).Some? ==> Rank(Wants(k.pc).value.0) >= 2)
  {
    assert TaskOk(s.tasks[u]);
  }

  /** Only the head of the queue gets the keys on somebody's way, and nobody new queues for them. */
  lemma WayToKeys(s: System, u: nat, b: nat)
    requires GuardInv(s) && u < |s.tasks| && OnTheWay(s, u, b) && b != u
    requires Rank(Wants(s.tasks[u].pc).value.0) >= 2
    ensures b < |s.tasks|
    ensures WantsKeys(s.tasks[b]) ==> WantsKeys(s.tasks[u]) && s.queues.keys != [] && s.queues.keys[0] == b
  {
    assert TaskOk(s.tasks[b]);
    var l := Wants(s.tasks[u].pc).value.0;
    var m :| (m == l || Rank(m) > Rank(l)) && FirstAt(s, b, m);
    if WantsKeys(s.tasks[b]) {
      if !s.tasks[b].guards.At(m).Free? { AcquiresInOrder(s.tasks[b], m); }
      assert b in s.queues.At(m);
      assert Waits(s, b, m);
    }
  }

  /** Its own code leads a filler on. */
  lemma EditFills(t: nat, sh: Shared, k: Task, ch: Choice)
    requires TaskOk(k) && k.pc.AtEdit? && Brings(k) && Wants(k.pc).None? && ch.ok
    ensures var e := EditEffect(t, sh, k, k.pc.d, ch); e.shared.keys != map[] || (Brings(e.task) && e.shared == sh)
  {
    if k.pc.d.AddStore? { assert k.op.fingerprint in EditEffect(t, sh, k, k.pc.d, ch).shared.keys; }
  }

  lemma EnsureFills(t: nat, sh: Shared, k: Task, ch: Choice)
    requires TaskOk(k) && k.pc.AtEnsure? && Wants(k.pc).None? && ch.ok && ch.keys != map[] && sh.keys == map[]
    requires Brings(k) || (MidEnsure(k.pc) && sh.idleCleared)
    ensures var e := EnsureEffect(t, sh, k, k.pc.e, ch);
      || e.shared.keys != map[]
      || (e.shared == sh && !TakesFlagDown(e.task) && !EmptyLoad(e.task)
          && (Brings(e.task) || (!Brings(k) && e.task.pc == AtEnsure(EnsureFlagAcquire))))
  {
  }

  lemma OwnLocalFills(c: Config, s: System, u: nat, ch: Choice)
    requires FillGoesOn(s, u) && Enabled(s, Local(u, ch)) && ch.ok && ch.keys != map[]
    ensures var s1 := Next(c, s, Local(u, ch)); s1.shared.keys != map[] || WillFill(s1, u)
  {
    var k := s.tasks[u];
    assert TaskOk(k);
    if k.pc.AtEdit? {
      EditFills(u, s.shared, k, ch);
    } else {
      EnsureFills(u, s.shared, k, ch);
    }
  }

  /** Queueing up behind no empty reload. */
  lemma EnqueueFills(c: Config, s: System, u: nat)
    requires GuardInv(s) && Enabled(s, Enqueue(u)) && u < |s.tasks| && s.tasks[u].pc == AtEnsure(EnsureAcquire) && NoEmptyAhead(s, u)
    ensures NoEmptyAhead(Next(c, s, Enqueue(u)), u)
  {
    var s1 := Next(c, s, Enqueue(u));
    forall v | v in s1.queues.keys && v < |s1.tasks| ensures !EmptyLoad(s1.tasks[v]) {
      if v in s.queues.keys { NotAheadOfOthers(s.queues.keys, u, v); }
    }
  }

  /** Queueing up or getting its guard, a filler stays one. */
  lemma OwnWaitFills(c: Config, s: System, a: Label, u: nat)
    requires FillGoesOn(s, u) && Enabled(s, a) && (a == Enqueue(u) || a == Acquire(u))
    ensures WillFill(Next(c, s, a), u)
  {
    if a.Enqueue? && FindsFlagUp(s, u) && s.tasks[u].pc == AtEnsure(EnsureAcquire) { EnqueueFills(c, s, u); }
  }

  lemma NotAheadOfOthers(q: seq<nat>, u: nat, v: nat)
    requires u !in q
    ensures !Ahead(q, u, v)
  {
  }

  /** Other code leaves an empty map empty and the flag up, unless it fills the map or unlocks. */
  predicate KeepsCleared(k: Task, sh: Shared, e: Effect) {
    && (sh.idleCleared ==> e.shared.idleCleared)
    && (e.shared.keys == map[] ==> !TakesFlagDown(e.task))
    && (EmptyLoad(e.task) ==> k.pc == AtEnsure(EnsureLoad))
  }

  lemma EnsureKeepsCleared(t: nat, sh: Shared, k: Task, ch: Choice)
    requires k.pc.AtEnsure? && Wants(k.pc).None? && !TakesFlagDown(k) && ch.keys != map[]
    ensures KeepsCleared(k, sh, EnsureEffect(t, sh, k, k.pc.e, ch))
  {
  }

  lemma LockKeepsCleared(t: nat, sh: Shared, k: Task, hash: Digest)
    requires k.pc.AtLock? && Wants(k.pc).None?
    ensures KeepsCleared(k, sh, LockEffect(t, sh, k, k.pc.l, hash))
  {
  }

  lemma SweepKeepsCleared(c: Config, now: nat, t: nat, sh: Shared, k: Task)
    requires k.pc.AtSweep? && Wants(k.pc).None?
    ensures KeepsCleared(k, sh, SweepEffect(c, now, t, sh, k, k.pc.w))
  {
  }

  lemma AuthKeepsCleared(c: Config, now: nat, procs: ProcessTable, t: nat, sh: Shared, k: Task, ch: Choice)
    requires k.pc.AtAuth? && Wants(k.pc).None?
    ensures KeepsCleared(k, sh, AuthEffect(c, now, procs, t, sh, k, k.pc.a, ch))
  {
  }

  lemma LocalKeepsCleared(c: Config, now: nat, procs: ProcessTable, t: nat, sh: Shared, k: Task, ch: Choice)
    requires TaskOk(k) && !k.pc.Idle? && Wants(k.pc).None? && !k.pc.AtUnlock? && !TakesFlagDown(k) && ch.keys != map[]
    ensures KeepsCleared(k, sh, LocalEffect(c, now, procs, t, sh, k, ch))
  {
    match k.pc
    case AtEnsure(_) => EnsureKeepsCleared(t, sh, k, ch);
    case AtLock(_) => LockKeepsCleared(t, sh, k, if k.op.LockAgent? then k.op.hash else []);
    case AtSweep(_) => SweepKeepsCleared(c, now, t, sh, k);
    case AtAuth(_) => AuthKeepsCleared(c, now, procs, t, sh, k, ch);
    case _ =>
  }

  /** Running somebody else's code. */
  lemma OtherLocalKeepsFill(c: Config, s: System, t: nat, ch: Choice, u: nat)
    requires FillGoesOn(s, u) && FindsFlagUp(s, u) && Enabled(s, Local(t, ch)) && t != u
    requires !s.tasks[t].pc.AtUnlock? && ch.keys != map[]
    ensures var s1 := Next(c, s, Local(t, ch)); s1.shared.keys != map[] || FindsFlagUp(s1, u)
  {
    var s1 := Next(c, s, Local(t, ch));
    assert TaskOk(s.tasks[t]) && !TakesFlagDown(s.tasks[t]);
    LocalKeepsCleared(c, s.now, s.procs, t, s.shared, s.tasks[t], ch);
    assert t in s.queues.At(LKeys) ==> Waits(s, t, LKeys);
  }

  lemma AheadAfterHead(q: seq<nat>, u: nat, v: nat)
    requires q != [] && q[0] != u && Ahead(q, u, v)
    ensures Ahead(q[1..], u, v)
  {
    var i, j :| 0 <= i < j < |q| && q[i] == u && q[j] == v;
    assert q[1..][i - 1] == u && q[1..][j - 1] == v;
  }

  /** Somebody else gets the keys: the head of the queue, which is no empty reload. */
  lemma QueueMovesUp(c: Config, s: System, b: nat, u: nat)
    requires GuardInv(s) && NoEmptyAhead(s, u) && Enabled(s, Acquire(b)) && b != u && WantsKeys(s.tasks[b])
    ensures !EmptyLoad(s.tasks[b]) && NoEmptyAhead(Next(c, s, Acquire(b)), u)
  {
    var s1 := Next(c, s, Acquire(b));
    var q := s.queues.keys;
    assert s.queues.At(LKeys) == q && Distinct(q) && b in q;
    HeadIsNotBehind(q, u, b);
    forall v | v in q[1..] && v < |s1.tasks| && EmptyLoad(s1.tasks[v]) ensures Ahead(q[1..], u, v) {
      assert v in q && v != b;
      AheadAfterHead(q, u, v);
    }
  }

  /** Somebody else gets a guard on the way. */
  lemma OtherAcquireKeepsFill(c: Config, s: System, b: nat, u: nat)
    requires GuardInv(s) && u < |s.tasks| && FindsFlagUp(s, u) && Enabled(s, Acquire(b)) && b != u
    requires WantsKeys(s.tasks[b]) ==> WantsKeys(s.tasks[u])
    ensures FindsFlagUp(Next(c, s, Acquire(b)), u)
  {
    if WantsKeys(s.tasks[b]) {
      QueueMovesUp(c, s, b, u);
    } else {
      KeysQueueStays(c, s, Acquire(b), b);
    }
    AcquireKeepsFlag(c, s, b);
  }

  lemma AcquireKeepsFlag(c: Config, s: System, b: nat)
    requires FlagStays(s) && Enabled(s, Acquire(b)) && !EmptyLoad(s.tasks[b])
    ensures FlagStays(Next(c, s, Acquire(b)))
  {
    assert !TakesFlagDown(s.tasks[b]);
  }

  lemma HeadIsNotBehind(q: seq<nat>, u: nat, b: nat)
    requires Distinct(q) && q != [] && q[0] == b
    ensures !Ahead(q, u, b)
  {
  }

  lemma OtherEnqueueKeepsFill(c: Config, s: System, b: nat, u: nat)
    requires FillGoesOn(s, u) && FindsFlagUp(s, u) && Enabled(s, Enqueue(b)) && b != u
    requires WantsKeys(s.tasks[b]) ==> s.queues.keys != [] && s.queues.keys[0] == b
    ensures FindsFlagUp(Next(c, s, Enqueue(b)), u)
  {
    KeysQueueStays(c, s, Enqueue(b), b);
  }

  /** Whoever steps on the way of a filler, it stays one or the map is filled. */
  lemma FillSurvives(c: Config, s: System, a: Label, u: nat)
    requires FillGoesOn(s, u) && Enabled(s, a) && Actor(a).Some? && OnTheWay(s, u, Actor(a).value)
    requires a.Local? ==> a.choice.ok && a.choice.keys != map[]
    requires Actor(a) != Some(u) ==> !s.tasks[Actor(a).value].pc.AtUnlock?
    ensures Next(c, s, a).shared.keys != map[] || WillFill(Next(c, s, a), u)
  {
    var b := Actor(a).value;
    FillerWantsKeys(s, u);
    if b == u {
      if a.Local? { OwnLocalFills(c, s, u, a.choice); } else { OwnWaitFills(c, s, a, u); }
    } else if FindsFlagUp(s, u) {
      WayToKeys(s, u, b);
      match a
      case Local(_, ch) => OtherLocalKeepsFill(c, s, b, ch, u);
      case Acquire(_) => OtherAcquireKeepsFill(c, s, b, u);
      case Enqueue(_) => OtherEnqueueKeepsFill(c, s, b, u);
    }
  }

  /** One step on its behalf, with a key in the file, which no unlock takes. */
  lemma FillStep(c: Config, s: System, u: nat, file: KeyMap) returns (a: Label)
    requires FillGoesOn(s, u) && file != map[]
    ensures Enabled(s, a) && Actor(a).Some? && Continues(s, Next(c, s, a)) && Next(c, s, a).shared.locked
    ensures FillGoesOn(Next(c, s, a), u) || Next(c, s, a).shared.keys != map[]
  {
    FillerWantsKeys(s, u);
    a := FindRunnable(s, u);
    a := WithFile(a, file);
    var b := Actor(a).value;
    if b != u { AboveIsNoUnlock(s, b, Wants(s.tasks[u].pc).value.0); }
    OnlyUnlocksReset(c, s, a);
    LockedStep(c, s, a);
    FillSurvives(c, s, a, u);
  }

  /** A locked agent with such a request can be run on, without any unlock, until a key is in memory. */
  lemma {:induction false} RunToFill(c: Config, s: System, u: nat, file: KeyMap) returns (labels: seq<Label>)
    requires FillGoesOn(s, u) && file != map[]
    ensures Exec(c, s, labels).Some?
    ensures var s' := Exec(c, s, labels).value; Continues(s, s') && s'.shared.locked && s'.shared.keys != map[]
    decreases Work(s)
  {
    var a := FillStep(c, s, u, file);
    StepDoesWork(c, s, a);
    var s1 := Next(c, s, a);
    var rest: seq<Label> := [];
    if s1.shared.keys == map[] {
      rest := RunToFill(c, s1, u, file);
      ContinuesOn(s, s1, Exec(c, s1, rest).value);
    }
    ExecFirst(c, s, a, rest);
    labels := [a] + rest;
  }

  // ---------------------------------------------------------------------------
  // Keeping the map of a locked agent empty
  // ---------------------------------------------------------------------------

  /** An empty reload gets the keys before task `u`, or has them, and will take the flag down first. */
  ghost predicate HeldBack(s: System, u: nat) {
    exists v :: HoldsBack(s, u, v)
  }

  ghost predicate HoldsBack(s: System, u: nat, v: nat) {
    v < |s.tasks| && (TakesFlagDown(s.tasks[v])
      || (EmptyLoad(s.tasks[v]) && v in s.queues.keys && (u in s.queues.keys ==> Ahead(s.queues.keys, v, u))))
  }

  /** Nothing this task does can put a key into an empty map, list one or sign with one. */
  predicate Harmless(k: Task, flag: bool) {
    match k.pc
    case AtEnsure(EnsureAcquire) => true
    case AtEnsure(EnsureLoad) => false
    case AtEnsure(e) => (MidEnsure(k.pc) ==> !flag) && (AtStore(k) ==> k.loaded == map[])
    case AtEdit(d) => !d.AddSave? && !d.AddAcquire? && !d.AddStore?
    case AtSweep(w) => !w.SweepFlagAcquire? && !w.SweepFlag?
    case AtAuth(_) => !k.op.Sign?
    case AtSign(g) => !g.SignUse?
    case _ => true
  }

  /** Whoever might still test the flag will find it down. */
  ghost predicate NobodyFindsFlagUp(s: System) {
    forall u | 0 <= u < |s.tasks| && s.tasks[u].pc == AtEnsure(EnsureAcquire) && s.shared.idleCleared :: HeldBack(s, u)
  }

  ghost predicate AllHarmless(s: System) {
    forall u | 0 <= u < |s.tasks| :: Harmless(s.tasks[u], s.shared.idleCleared)
  }

  ghost predicate Sealed(s: System) {
    s.shared.locked && s.shared.keys == map[] && AllHarmless(s) && NobodyFindsFlagUp(s)
  }

  /** An event that shows no key of a locked agent. */
  predicate Silent(e: Event) {
    !e.Added? && !e.KeysRestored? && !e.Signed? && (e.Listed? ==> e.fingerprints == {})
  }

  predicate StaysSealed(sh: Shared, k: Task, e: Effect) {
    && e.shared.keys == map[] && (e.shared.idleCleared ==> sh.idleCleared) && Harmless(e.task, e.shared.idleCleared)
    && (TakesFlagDown(k) ==> TakesFlagDown(e.task) || !e.shared.idleCleared)
    && e.task.pc != AtEnsure(EnsureAcquire)
    && (e.event.Some? ==> Silent(e.event.value))
  }

  lemma EnsureStaysSealed(t: nat, sh: Shared, k: Task, ch: Choice)
    requires TaskOk(k) && k.pc.AtEnsure? && Wants(k.pc).None? && sh.keys == map[] && Harmless(k, sh.idleCleared)
    ensures StaysSealed(sh, k, EnsureEffect(t, sh, k, k.pc.e, ch))
  {
  }

  lemma AuthStaysSealed(c: Config, now: nat, procs: ProcessTable, t: nat, sh: Shared, k: Task, ch: Choice)
    requires TaskOk(k) && k.pc.AtAuth? && Wants(k.pc).None? && sh.keys == map[] && Harmless(k, sh.idleCleared)
    ensures StaysSealed(sh, k, AuthEffect(c, now, procs, t, sh, k, k.pc.a, ch))
  {
  }

  lemma EditStaysSealed(t: nat, sh: Shared, k: Task, ch: Choice)
    requires TaskOk(k) && k.pc.AtEdit? && Wants(k.pc).None? && sh.keys == map[] && Harmless(k, sh.idleCleared)
    ensures StaysSealed(sh, k, EditEffect(t, sh, k, k.pc.d, ch))
  {
  }

  lemma LockStaysSealed(t: nat, sh: Shared, k: Task, hash: Digest)
    requires k.pc.AtLock? && Wants(k.pc).None? && sh.keys == map[]
    ensures StaysSealed(sh, k, LockEffect(t, sh, k, k.pc.l, hash))
  {
  }

  lemma UnlockStaysSealed(t: nat, sh: Shared, k: Task, hash: Digest, ch: Choice)
    requires k.pc.AtUnlock? && Wants(k.pc).None? && sh.keys == map[] && !Opened(k.pc)
    ensures StaysSealed(sh, k, UnlockEffect(t, sh, k, k.pc.u, hash, ch))
  {
  }

  lemma SweepStaysSealed(c: Config, now: nat, t: nat, sh: Shared, k: Task)
    requires k.pc.AtSweep? && Wants(k.pc).None? && sh.keys == map[] && Harmless(k, sh.idleCleared)
    ensures StaysSealed(sh, k, SweepEffect(c, now, t, sh, k, k.pc.w))
  {
  }

  lemma LocalStaysSealed(c: Config, now: nat, procs: ProcessTable, t: nat, sh: Shared, k: Task, ch: Choice)
    requires TaskOk(k) && !k.pc.Idle? && Wants(k.pc).None? && !Opened(k.pc)
    requires sh.locked && sh.keys == map[] && Harmless(k, sh.idleCleared)
    ensures StaysSealed(sh, k, LocalEffect(c, now, procs, t, sh, k, ch))
  {
    match k.pc
    case AtEnsure(_) => EnsureStaysSealed(t, sh, k, ch);
    case AtAuth(_) => AuthStaysSealed(c, now, procs, t, sh, k, ch);
    case AtEdit(_) => EditStaysSealed(t, sh, k, ch);
    case AtLock(_) => LockStaysSealed(t, sh, k, if k.op.LockAgent? then k.op.hash else []);
    case AtUnlock(_) => UnlockStaysSealed(t, sh, k, if k.op.UnlockAgent? then k.op.hash else [], ch);
    case AtSweep(_) => SweepStaysSealed(c, now, t, sh, k);
    case _ =>
  }

  /** All that happened between the two states was silent. */
  ghost predicate SilentSince(s: System, s': System) {
    forall n | |s.trace| <= n < |s'.trace| :: Silent(s'.trace[n])
  }

  /** Running code: whoever takes the flag down goes on doing so until it is down. */
  lemma SealedLocal(c: Config, s: System, t: nat, ch: Choice)
    requires Sane(s) && Sealed(s) && Enabled(s, Local(t, ch)) && Next(c, s, Local(t, ch)).shared.locked
    ensures Sealed(Next(c, s, Local(t, ch))) && SilentSince(s, Next(c, s, Local(t, ch)))
  {
    var s1 := Next(c, s, Local(t, ch));
    assert TaskOk(s.tasks[t]) && Harmless(s.tasks[t], s.shared.idleCleared);
    NobodyOpened(s, t);
    LocalStaysSealed(c, s.now, s.procs, t, s.shared, s.tasks[t], ch);
    HarmlessWhenLower(s, s1, t);
    NoQueueHolds(s, t);
    assert t !in s.queues.At(LKeys);
    forall u | 0 <= u < |s1.tasks| && s1.tasks[u].pc == AtEnsure(EnsureAcquire) && s1.shared.idleCleared
      ensures HeldBack(s1, u)
    {
      assert u != t && HeldBack(s, u);
      var v: nat :| HoldsBack(s, u, v);
      assert HoldsBack(s1, u, v);
    }
  }

  lemma HarmlessWhenLower(s: System, s1: System, t: nat)
    requires AllHarmless(s) && t < |s.tasks| == |s1.tasks| && s1.tasks == s.tasks[t := s1.tasks[t]]
    requires (s1.shared.idleCleared ==> s.shared.idleCleared) && Harmless(s1.tasks[t], s1.shared.idleCleared)
    ensures AllHarmless(s1)
  {
    forall u | 0 <= u < |s1.tasks| ensures Harmless(s1.tasks[u], s1.shared.idleCleared) {
      if u != t { assert Harmless(s.tasks[u], s.shared.idleCleared); }
    }
  }

  lemma AheadStays(q: seq<nat>, more: seq<nat>, u: nat, v: nat)
    requires Ahead(q, u, v)
    ensures Ahead(q + more, u, v)
  {
    var i, j :| 0 <= i < j < |q| && q[i] == u && q[j] == v;
    assert (q + more)[i] == u && (q + more)[j] == v;
  }

  lemma AheadOfNew(q: seq<nat>, u: nat, v: nat)
    requires v in q
    ensures Ahead(q + [u], v, u)
  {
    var i :| 0 <= i < |q| && q[i] == v;
    assert (q + [u])[i] == v && (q + [u])[|q|] == u;
  }

  /** An empty reload in the queue stays ahead of whoever queues up. */
  lemma HeldBackByQueue(s: System, s1: System, b: nat, u: nat)
    requires s1.tasks == s.tasks && s1.queues.keys == s.queues.keys + [b] && HeldBack(s, u)
    ensures HeldBack(s1, u)
  {
    var q := s.queues.keys;
    var v: nat :| HoldsBack(s, u, v);
    if !TakesFlagDown(s.tasks[v]) {
      if u in q { AheadStays(q, [b], v, u); }
      if u == b { AheadOfNew(q, b, v); }
    }
    assert HoldsBack(s1, u, v);
  }

  /** With the same queue and the same tasks, the same are held back. */
  lemma HeldBackByTasks(s: System, s1: System, u: nat)
    requires s1.tasks == s.tasks && s1.queues.keys == s.queues.keys && HeldBack(s, u)
    ensures HeldBack(s1, u)
  {
    var v: nat :| HoldsBack(s, u, v);
    assert HoldsBack(s1, u, v);
  }

  lemma SealedEnqueue(c: Config, s: System, b: nat)
    requires Sealed(s) && Enabled(s, Enqueue(b))
    ensures Sealed(Next(c, s, Enqueue(b))) && SilentSince(s, Next(c, s, Enqueue(b)))
  {
    var s1 := Next(c, s, Enqueue(b));
    forall u | 0 <= u < |s1.tasks| && s1.tasks[u].pc == AtEnsure(EnsureAcquire) && s1.shared.idleCleared
      ensures HeldBack(s1, u)
    {
      assert HeldBack(s, u);
      if WantsKeys(s.tasks[b]) { HeldBackByQueue(s, s1, b, u); } else { HeldBackByTasks(s, s1, u); }
    }
  }

  lemma AcquiredIsHarmless(k: Task, k': Task, flag: bool)
    requires Wants(k.pc).Some? && Harmless(k, flag) && k' == k.(pc := AfterAcquire(k.pc), guards := k'.guards, keysAt := k'.keysAt)
    requires k.pc == AtEnsure(EnsureAcquire) ==> !flag
    ensures Harmless(k', flag)
  {
  }

  /** Whoever gets the keys is not held back. */
  lemma HeadIsNotHeldBack(s: System, b: nat)
    requires GuardInv(s) && Enabled(s, Acquire(b)) && WantsKeys(s.tasks[b])
    ensures !HeldBack(s, b)
  {
    var q := s.queues.keys;
    assert s.queues.At(LKeys) == q && Distinct(q) && q[0] == b && b in q;
    forall v: nat | v < |s.tasks| ensures !HoldsBack(s, b, v) {
      assert TaskOk(s.tasks[v]);
      assert s.tasks[v].guards.At(LKeys).Free? || s.tasks[v].guards.At(LKeys).Read?;
      HeadIsNotBehind(q, v, b);
    }
  }

  /** Somebody gets the keys: what held others back was that one, or still does. */
  lemma HeldBackByKeys(c: Config, s: System, b: nat, u: nat, v: nat)
    requires GuardInv(s) && Enabled(s, Acquire(b)) && u < |s.tasks| && u != b && WantsKeys(s.tasks[b]) && HoldsBack(s, u, v)
    ensures HoldsBack(Next(c, s, Acquire(b)), u, v)
  {
    var q := s.queues.keys;
    assert s.queues.At(LKeys) == q && q != [] && q[0] == b;
    if v != b && !TakesFlagDown(s.tasks[v]) {
      assert v in q[1..];
      if u in q { AheadAfterHead(q, v, u); }
    }
  }

  lemma HeldBackByOther(c: Config, s: System, b: nat, u: nat, v: nat)
    requires GuardInv(s) && Enabled(s, Acquire(b)) && u < |s.tasks| && u != b && !WantsKeys(s.tasks[b]) && HoldsBack(s, u, v)
    ensures HoldsBack(Next(c, s, Acquire(b)), u, v)
  {
  }

  lemma HeldBackStays(c: Config, s: System, b: nat, u: nat)
    requires GuardInv(s) && Enabled(s, Acquire(b)) && u < |s.tasks| && u != b && HeldBack(s, u)
    ensures HeldBack(Next(c, s, Acquire(b)), u)
  {
    var v: nat :| HoldsBack(s, u, v);
    if WantsKeys(s.tasks[b]) { HeldBackByKeys(c, s, b, u, v); } else { HeldBackByOther(c, s, b, u, v); }
  }

  lemma SealedAcquire(c: Config, s: System, b: nat)
    requires Sane(s) && Sealed(s) && Enabled(s, Acquire(b))
    ensures Sealed(Next(c, s, Acquire(b))) && SilentSince(s, Next(c, s, Acquire(b)))
  {
    var s1 := Next(c, s, Acquire(b));
    assert Harmless(s.tasks[b], s.shared.idleCleared);
    if s.tasks[b].pc == AtEnsure(EnsureAcquire) { HeadIsNotHeldBack(s, b); }
    AcquiredIsHarmless(s.tasks[b], s1.tasks[b], s.shared.idleCleared);
    HarmlessWhenLower(s, s1, b);
    forall u | 0 <= u < |s1.tasks| && s1.tasks[u].pc == AtEnsure(EnsureAcquire) && s1.shared.idleCleared
      ensures HeldBack(s1, u)
    {
      assert u != b;
      HeldBackStays(c, s, b, u);
    }
  }

  lemma HeldBackByNew(s: System, s1: System, t: nat, u: nat)
    requires t < |s.tasks| == |s1.tasks| && u < |s.tasks| && s1.tasks == s.tasks[t := s1.tasks[t]]
    requires s1.queues == s.queues && s.tasks[t].pc.Idle? && HeldBack(s, u)
    ensures HeldBack(s1, u)
  {
    var v: nat :| HoldsBack(s, u, v);
    assert HoldsBack(s1, u, v);
  }

  lemma SealedArrive(c: Config, s: System, t: nat, op: Op)
    requires Sealed(s) && Enabled(s, Arrive(t, op))
    ensures Sealed(Next(c, s, Arrive(t, op))) && SilentSince(s, Next(c, s, Arrive(t, op)))
  {
    var s1 := Next(c, s, Arrive(t, op));
    assert !s1.tasks[t].pc.AtEnsure?;
    HarmlessWhenLower(s, s1, t);
    forall u | 0 <= u < |s1.tasks| && s1.tasks[u].pc == AtEnsure(EnsureAcquire) && s1.shared.idleCleared
      ensures HeldBack(s1, u)
    {
      assert HeldBack(s, u);
      HeldBackByNew(s, s1, t, u);
    }
  }

  lemma SealedWorld(c: Config, s: System, a: Label)
    requires Sealed(s) && Enabled(s, a) && (a.Tick? || a.ProcessesChange?)
    ensures Sealed(Next(c, s, a)) && SilentSince(s, Next(c, s, a))
  {
    SealedTime(s, Next(c, s, a));
  }

  lemma SealedStep(c: Config, s: System, a: Label)
    requires Sane(s) && Sealed(s) && Enabled(s, a) && Continues(s, Next(c, s, a))
    ensures Sane(Next(c, s, a)) && Sealed(Next(c, s, a)) && SilentSince(s, Next(c, s, a))
  {
    LockedStep(c, s, a);
    match a
    case Local(t, ch) => SealedLocal(c, s, t, ch);
    case Acquire(t) => SealedAcquire(c, s, t);
    case Enqueue(t) => SealedEnqueue(c, s, t);
    case Arrive(t, op) => SealedArrive(c, s, t, op);
    case Tick(_) => SealedWorld(c, s, a);
    case ProcessesChange(_) => SealedWorld(c, s, a);
  }

  lemma SealedTime(s: System, s1: System)
    requires Sealed(s) && s1.tasks == s.tasks && s1.queues == s.queues && s1.shared == s.shared
    ensures Sealed(s1)
  {
    forall u | 0 <= u < |s1.tasks| && s1.tasks[u].pc == AtEnsure(EnsureAcquire) && s1.shared.idleCleared
      ensures HeldBack(s1, u)
    {
      HeldBackByTasks(s, s1, u);
    }
  }

  lemma {:induction false} SealedRun(c: Config, s: System, labels: seq<Label>)
    requires Sane(s) && Sealed(s) && Exec(c, s, labels).Some? && Continues(s, Exec(c, s, labels).value)
    ensures var s' := Exec(c, s, labels).value; Sane(s') && Sealed(s') && SilentSince(s, s')
  {
    if labels != [] {
      var n := |labels| - 1;
      var s1 := Exec(c, s, labels[..n]).value;
      PrefixContinues(c, s, labels);
      SealedRun(c, s, labels[..n]);
      SealedStep(c, s1, labels[n]);
      StepExtends(c, s1, labels[n]);
    }
  }

  // ---------------------------------------------------------------------------
  // Exactly when the map stays empty
  // ---------------------------------------------------------------------------

  ghost predicate NobodyFills(s: System) {
    forall u | 0 <= u < |s.tasks| :: !WillFill(s, u)
  }

  /** Without an unlock, the map is empty in the end and nothing has shown a key. */
  ghost predicate LeaksNothing(c: Config, s: System, labels: seq<Label>) {
    Exec(c, s, labels).Some? && Continues(s, Exec(c, s, labels).value) ==>
      Exec(c, s, labels).value.shared.keys == map[] && SilentSince(s, Exec(c, s, labels).value)
  }

  /** In a run without an unlock the lock has returned, and now a key is in memory. */
  ghost predicate FilledAfterReturn(s: System, s': System, t: nat, req: nat) {
    && Continues(s, s') && s'.shared.locked && s'.shared.keys != map[]
    && exists r | |s.trace| <= r < |s'.trace| :: s'.trace[r] == LockReturned(t, req)
  }

  /** `lock` has just emptied the map. */
  ghost predicate EmptiedNow(c: Config, s0: System, run: seq<Label>, t: nat, ch: Choice) {
    && Init(s0) && Exec(c, s0, run).Some?
    && var s := Exec(c, s0, run).value;
      t < |s.tasks| && s.tasks[t].pc == AtLock(LockKeysClear) && Enabled(s, Local(t, ch))
  }

  /** The state in which the lock of task `t` has just emptied the map. */
  ghost predicate JustEmptied(s: System, t: nat) {
    && Sane(s) && s.shared.locked && Emptied(s, t)
    && t < |s.tasks| && s.tasks[t].pc == AtLock(LockCacheAcquire)
  }

  lemma EmptiedState(c: Config, s0: System, run: seq<Label>, t: nat, ch: Choice)
    requires EmptiedNow(c, s0, run, t, ch)
    ensures JustEmptied(Next(c, Exec(c, s0, run).value, Local(t, ch)), t)
  {
    var before := Exec(c, s0, run).value;
    ReachableIsSane(c, s0, run);
    StepIsSane(c, before, Local(t, ch));
    var s := Next(c, before, Local(t, ch));
    assert TaskOk(before.tasks[t]);
    LockerIsLocked(before, t);
    OwnerIsAlone(s, t);
  }

  lemma OwnerIsAlone(s: System, t: nat)
    requires GuardInv(s) && t < |s.tasks| && s.tasks[t].guards.keys.Write?
    ensures OthersOffKeys(s, t)
  {
    assert s.tasks[t].guards.At(LKeys).Write?;
    forall v | 0 <= v < |s.tasks| && v != t ensures s.tasks[v].guards.keys.Free? { assert s.tasks[v].guards.At(LKeys).Free?; }
  }

  /** While a lock request is at work, the agent is locked. */
  lemma LockerIsLocked(s: System, t: nat)
    requires Sane(s) && t < |s.tasks| && Locking(s.tasks[t].pc)
    ensures s.shared.locked
  {
    assert LockTaskOk(s.shared, s.trace, t, s.tasks[t]);
  }

  lemma OffKeysFlagStays(s: System, t: nat)
    requires GuardInv(s) && OthersOffKeys(s, t) && t < |s.tasks| && !s.tasks[t].pc.AtEnsure?
    ensures FlagStays(s)
  {
    forall v | 0 <= v < |s.tasks| ensures !TakesFlagDown(s.tasks[v]) { assert TaskOk(s.tasks[v]); }
  }

  /** Who is no filler is harmless, and held back if it is still to look at the flag. */
  lemma NoFillerIsHarmless(k: Task, flag: bool)
    requires TaskOk(k) && k.guards.keys.Free? && !Brings(k)
    requires flag && MidEnsure(k.pc) ==> k.pc == AtEnsure(EnsureAcquire)
    ensures Harmless(k, flag)
  {
  }

  lemma NotAheadMeansBehind(q: seq<nat>, u: nat, v: nat)
    requires v in q && u in q && u != v && !Ahead(q, u, v)
    ensures Ahead(q, v, u)
  {
    var i :| 0 <= i < |q| && q[i] == u;
    var j :| 0 <= j < |q| && q[j] == v;
  }

  lemma BlockedIsHeldBack(s: System, u: nat)
    requires u < |s.tasks| && s.tasks[u].pc == AtEnsure(EnsureAcquire) && !NoEmptyAhead(s, u)
    ensures HeldBack(s, u)
  {
    var v: nat :| v in s.queues.keys && v < |s.tasks| && EmptyLoad(s.tasks[v]) && !Ahead(s.queues.keys, u, v);
    if u in s.queues.keys { NotAheadMeansBehind(s.queues.keys, u, v); }
    assert HoldsBack(s, u, v);
  }

  lemma SealedWhenEmptied(s: System, t: nat)
    requires JustEmptied(s, t) && NobodyFills(s)
    ensures Sealed(s)
  {
    OffKeysFlagStays(s, t);
    forall u | 0 <= u < |s.tasks| ensures Harmless(s.tasks[u], s.shared.idleCleared) {
      assert TaskOk(s.tasks[u]) && !WillFill(s, u);
      if u != t {
        NoFillerIsHarmless(s.tasks[u], s.shared.idleCleared);
      }
    }
    forall u | 0 <= u < |s.tasks| && s.tasks[u].pc == AtEnsure(EnsureAcquire) && s.shared.idleCleared ensures HeldBack(s, u) {
      assert !WillFill(s, u);
      BlockedIsHeldBack(s, u);
    }
  }

  lemma FillerIsAside(s: System, t: nat, u: nat)
    requires JustEmptied(s, t) && WillFill(s, u)
    ensures Aside(s, t, u)
  {
    assert TaskOk(s.tasks[u]);
    assert u in s.queues.At(LCache) ==> Waits(s, u, LCache);
  }

  /** Running the lock to its end changes nothing for a filler. */
  lemma FillerAfterReturn(s: System, s1: System, t: nat, u: nat)
    requires u < |s.tasks| && Returned(s, s1, t, {u}) && GuardInv(s)
    requires Brings(s.tasks[u]) || (Flushed(s.tasks[t].pc) && WillFill(s, u))
    ensures FillGoesOn(s1, u)
  {
    OffKeysFlagStays(s1, t);
    if !Brings(s.tasks[u]) && s.tasks[u].pc == AtEnsure(EnsureAcquire) {
      forall v | v in s1.queues.keys && v < |s1.tasks| && EmptyLoad(s1.tasks[v]) ensures Ahead(s1.queues.keys, u, v) {
        assert s1.tasks[v] == s.tasks[v];
      }
    }
  }

  lemma FilledLater(s: System, s1: System, s2: System, t: nat, us: set<nat>)
    requires Returned(s, s1, t, us) && Continues(s1, s2) && s2.shared.locked && s2.shared.keys != map[]
    ensures FilledAfterReturn(s, s2, t, s.tasks[t].req)
  {
    ContinuesOn(s, s1, s2);
    var r := |s1.trace| - 1;
    assert s2.trace[r] == s1.trace[r];
  }

  /** Wherever a lock request stands after setting the flag: a request out of its way that is bound to bring keys, and
      once the map is empty every filler, can put keys in memory after the lock has returned and before any unlock. */
  lemma FillerFillsLater(c: Config, s: System, t: nat, u: nat, file: KeyMap) returns (labels: seq<Label>)
    requires LockGoesOn(s, t, {u}) && u < |s.tasks| && file != map[]
    requires Brings(s.tasks[u]) || (Flushed(s.tasks[t].pc) && WillFill(s, u))
    ensures Exec(c, s, labels).Some? && FilledAfterReturn(s, Exec(c, s, labels).value, t, s.tasks[t].req)
  {
    var first := RunToReturn(c, s, t, {u});
    var s1 := Exec(c, s, first).value;
    FillerAfterReturn(s, s1, t, u);
    var rest := RunToFill(c, s1, u, file);
    FilledLater(s, s1, Exec(c, s1, rest).value, t, {u});
    ExecAppend(c, s, first, rest);
    labels := first + rest;
  }

  /** Each filler gives a run in which a key is in memory after the lock has returned. */
  lemma FillerFills(c: Config, s: System, t: nat, u: nat, file: KeyMap) returns (labels: seq<Label>)
    requires JustEmptied(s, t) && WillFill(s, u) && file != map[]
    ensures Exec(c, s, labels).Some? && FilledAfterReturn(s, Exec(c, s, labels).value, t, s.tasks[t].req)
  {
    FillerIsAside(s, t, u);
    labels := FillerFillsLater(c, s, t, u, file);
  }

  /** At the moment `lock` empties the map: in all continuations without an unlock the map stays empty, nothing is
      added or signed and every listing is empty, if and only if no request will fill it. One will if it is an add past
      its check, if it is about to read the key file or has read a key from it, or if it is still to test the flag, the
      flag is up, and no reload that has read an empty file comes before it. */
  lemma MapStaysEmpty(c: Config, s0: System, run: seq<Label>, t: nat, ch: Choice)
    requires EmptiedNow(c, s0, run, t, ch)
    ensures var s := Next(c, Exec(c, s0, run).value, Local(t, ch));
      (forall labels :: LeaksNothing(c, s, labels)) <==> NobodyFills(s)
  {
    var s := Next(c, Exec(c, s0, run).value, Local(t, ch));
    EmptiedState(c, s0, run, t, ch);
    if NobodyFills(s) {
      SealedWhenEmptied(s, t);
      forall labels ensures LeaksNothing(c, s, labels) {
        if Exec(c, s, labels).Some? && Continues(s, Exec(c, s, labels).value) { SealedRun(c, s, labels); }
      }
    } else {
      var u: nat :| u < |s.tasks| && WillFill(s, u);
      var file: KeyMap := map["" := PrivateKey([], "")];
      assert "" in file;
      var labels := FillerFills(c, s, t, u, file);
      assert !LeaksNothing(c, s, labels);
    }
  }

  // ---------------------------------------------------------------------------
  // Seen from the moment the lock is set
  // ---------------------------------------------------------------------------

  /** Past the check and short of the last store of keys. */
  predicate Halfway(pc: Pc) {
    pc.AtEnsure? || (pc.AtEdit? && (pc.d.AddSave? || pc.d.AddAcquire? || pc.d.AddStore?))
  }

  ghost predicate NoneHalfway(s: System) {
    forall u | 0 <= u < |s.tasks| :: !Halfway(s.tasks[u].pc)
  }

  lemma AuthNotHalfway(c: Config, now: nat, procs: ProcessTable, t: nat, sh: Shared, k: Task, ch: Choice)
    requires k.pc.AtAuth? && Wants(k.pc).None?
    ensures !Halfway(AuthEffect(c, now, procs, t, sh, k, k.pc.a, ch).task.pc)
  {
  }

  lemma LocalNotHalfway(c: Config, now: nat, procs: ProcessTable, t: nat, sh: Shared, k: Task, ch: Choice)
    requires TaskOk(k) && !k.pc.Idle? && Wants(k.pc).None? && sh.locked && !Halfway(k.pc)
    ensures !Halfway(LocalEffect(c, now, procs, t, sh, k, ch).task.pc)
  {
    match k.pc
    case AtAuth(_) => AuthNotHalfway(c, now, procs, t, sh, k, ch);
    case _ =>
  }

  lemma {:induction false} StaysClean(c: Config, s: System, labels: seq<Label>)
    requires Sane(s) && s.shared.locked && NoneHalfway(s)
    requires Exec(c, s, labels).Some? && Continues(s, Exec(c, s, labels).value)
    ensures var s' := Exec(c, s, labels).value; Sane(s') && s'.shared.locked && NoneHalfway(s')
  {
    if labels != [] {
      var n := |labels| - 1;
      var s1 := Exec(c, s, labels[..n]).value;
      PrefixContinues(c, s, labels);
      StaysClean(c, s, labels[..n]);
      LockedStep(c, s1, labels[n]);
      CleanStep(c, s1, labels[n]);
    }
  }

  lemma CleanStep(c: Config, s: System, a: Label)
    requires GuardInv(s) && s.shared.locked && NoneHalfway(s) && Enabled(s, a)
    ensures NoneHalfway(Next(c, s, a))
  {
    if a.Local? {
      assert TaskOk(s.tasks[a.t]);
      LocalNotHalfway(c, s.now, s.procs, a.t, s.shared, s.tasks[a.t], a.choice);
    } else if a.Acquire? {
      assert !Halfway(s.tasks[a.t].pc);
    }
  }

  /** If, when the agent is locked, no request stands between its check and its last store of keys, then the map stays
      empty and nothing is shown from the moment the lock empties it until the next unlock. */
  lemma CleanLockStaysEmpty(c: Config, s0: System, run: seq<Label>, more: seq<Label>, t: nat, ch: Choice)
    requires EmptiedNow(c, s0, run + more, t, ch) && Exec(c, s0, run).Some?
    requires var s := Exec(c, s0, run).value;
      s.shared.locked && NoneHalfway(s) && Continues(s, Exec(c, s0, run + more).value)
    ensures forall labels :: LeaksNothing(c, Next(c, Exec(c, s0, run + more).value, Local(t, ch)), labels)
  {
    var s := Exec(c, s0, run).value;
    var s1 := Exec(c, s0, run + more).value;
    var s2 := Next(c, s1, Local(t, ch));
    ReachableIsSane(c, s0, run);
    ExecAppend(c, s0, run, more);
    StaysClean(c, s, more);
    CleanStep(c, s1, Local(t, ch));
    forall u | 0 <= u < |s2.tasks| ensures !WillFill(s2, u) {
      assert !Halfway(s2.tasks[u].pc);
    }
    MapStaysEmpty(c, s0, run + more, t, ch);
  }
}
