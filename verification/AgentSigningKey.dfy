/**
 The key a sign request has borrowed stays the one in memory until it has signed: nobody can remove, replace or flush a
 key while it is in use.
 */
module AgentSigningKey {
  import opened Common
  import opened AncestorWalk
  import opened AgentMachine
  import opened AgentGuards
  import opened AgentDiscipline

  /** From the look-up of the key to the signature. */
  predicate UsesKey(k: Task) {
    k.op.Sign? && (k.pc.AtAuth? || k.pc == AtSign(SignUse))
  }

  predicate HasItsKey(sh: Shared, k: Task) {
    k.op.Sign? && "SHA256:" + k.op.digest in sh.keys && k.key == Some(sh.keys["SHA256:" + k.op.digest])
  }

  ghost predicate KeysInPlace(s: System) {
    forall t | 0 <= t < |s.tasks| && UsesKey(s.tasks[t]) :: HasItsKey(s.shared, s.tasks[t])
  }

  lemma AuthKeepsKey(c: Config, now: nat, procs: ProcessTable, t: nat, sh: Shared, k: Task, ch: Choice)
    requires TaskOk(k) && k.pc.AtAuth? && k.op.Sign? && Wants(k.pc).None? && HasItsKey(sh, k)
    ensures var e := AuthEffect(c, now, procs, t, sh, k, k.pc.a, ch); UsesKey(e.task) ==> HasItsKey(e.shared, e.task)
  {
    match k.pc.a
    case FindContext =>
    case HitRead =>
    case TouchToGrant =>
    case GrantStore =>
    case TouchOnly =>
    case Approve =>
  }

  lemma SignKeepsKey(t: nat, sh: Shared, k: Task)
    requires TaskOk(k) && k.pc.AtSign? && Wants(k.pc).None? && (UsesKey(k) ==> HasItsKey(sh, k))
    ensures var e := SignEffect(t, sh, k, k.pc.s); UsesKey(e.task) ==> HasItsKey(e.shared, e.task)
  {
  }

  /** No other code leads into the use of a key. */
  lemma OthersUseNoKey(c: Config, now: nat, procs: ProcessTable, t: nat, sh: Shared, k: Task, ch: Choice)
    requires TaskOk(k) && !k.pc.Idle? && Wants(k.pc).None? && !k.pc.AtAuth? && !k.pc.AtSign?
    ensures !UsesKey(LocalEffect(c, now, procs, t, sh, k, ch).task)
  {
    match k.pc
    case AtCheck(_) =>
    case AtEnsure(_) =>
    case ListRead =>
    case ActivityStore =>
    case OpenEnvelope =>
    case AtEdit(_) =>
    case AtLock(_) =>
    case AtUnlock(_) =>
    case AtSweep(_) =>
  }

  /** Its own code keeps the key of a task in place. */
  lemma OwnStep(c: Config, s: System, t: nat, ch: Choice)
    requires GuardInv(s) && KeysInPlace(s) && Enabled(s, Local(t, ch))
    ensures var s' := Next(c, s, Local(t, ch)); UsesKey(s'.tasks[t]) ==> HasItsKey(s'.shared, s'.tasks[t])
  {
    var k := s.tasks[t];
    assert TaskOk(k);
    if k.pc.AtAuth? {
      if k.op.Sign? { AuthKeepsKey(c, s.now, s.procs, t, s.shared, k, ch); }
    } else if k.pc.AtSign? {
      SignKeepsKey(t, s.shared, k);
    } else {
      OthersUseNoKey(c, s.now, s.procs, t, s.shared, k, ch);
    }
  }

  /** The code of another task cannot touch it: it would need the write guard of the keys. */
  lemma OtherStep(c: Config, s: System, t: nat, u: nat, ch: Choice)
    requires GuardInv(s) && KeysInPlace(s) && Enabled(s, Local(t, ch)) && u < |s.tasks| && u != t
    ensures var s' := Next(c, s, Local(t, ch)); UsesKey(s'.tasks[u]) ==> HasItsKey(s'.shared, s'.tasks[u])
  {
    var k := s.tasks[t];
    assert TaskOk(k) && TaskOk(s.tasks[u]);
    EveryWriteIsGuarded(c, s.now, s.procs, t, s.shared, k, ch);
    if UsesKey(s.tasks[u]) {
      assert s.tasks[u].guards.At(LKeys).Read?;
      assert !k.guards.At(LKeys).Write?;
    }
  }

  lemma NextKeepsKeys(c: Config, s: System, a: Label)
    requires GuardInv(s) && KeysInPlace(s) && Enabled(s, a)
    ensures KeysInPlace(Next(c, s, a))
  {
    var s' := Next(c, s, a);
    if a.Local? {
      forall u | 0 <= u < |s'.tasks| && UsesKey(s'.tasks[u]) ensures HasItsKey(s'.shared, s'.tasks[u]) {
        if u == a.t { OwnStep(c, s, u, a.choice); } else { OtherStep(c, s, a.t, u, a.choice); }
      }
    } else if a.Acquire? {
      var k := s.tasks[a.t];
      assert TaskOk(k);
      assert UsesKey(s'.tasks[a.t]) ==> UsesKey(k);
    }
  }

  /** In every reachable state, for any number of sessions: a sign between look-up and signature holds exactly the key
      that memory has under its fingerprint, whatever adds, removals, locks and sweeps the others are at. */
  lemma {:induction false} BorrowedKeysStay(c: Config, s0: System, labels: seq<Label>)
    requires Init(s0) && Exec(c, s0, labels).Some?
    ensures KeysInPlace(Exec(c, s0, labels).value)
  {
    if labels != [] {
      var n := |labels| - 1;
      BorrowedKeysStay(c, s0, labels[..n]);
      GuardsAlwaysHold(c, s0, labels[..n]);
      NextKeepsKeys(c, Exec(c, s0, labels[..n]).value, labels[n]);
    }
  }
}
