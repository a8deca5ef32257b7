/**
 The agent taken one request at a time is a view of the agent under fine interleaving: whatever a sequence of requests
 does there, a run of the interleaved agent does, in which the requests come one after another.
 */
module AgentSimulation {
  import opened Common
  import opened AncestorWalk
  import opened AgentMachine
  import opened AgentGuards
  import opened AgentStragglers
  import opened AgentLockedRuns
  import opened AgentAlone
  import opened KeyFile
  import Agent

  // ---------------------------------------------------------------------------
  // One task alone is a run
  // ---------------------------------------------------------------------------

  ghost predicate Mirrors(s: System, env: Env, x: Solo) {
    && GuardInv(s) && Alone(s, env.t) && s.now == env.now && s.procs == env.procs
    && s.tasks[env.t] == x.k && s.shared == x.sh && s.trace == x.tr
  }

  lemma WantedIsFree(k: Task)
    requires TaskOk(k) && Wants(k.pc).Some?
    ensures k.guards.At(Wants(k.pc).value.0).Free?
  {
  }

  lemma MirrorTakes(s: System, env: Env, x: Solo) returns (s': System, labels: seq<Label>)
    requires Mirrors(s, env, x) && Wants(x.k.pc).Some?
    ensures Exec(env.c, s, labels) == Some(s') && Mirrors(s', env, Moved(env, x)) && OnlyMoved(s, s', env.t)
  {
    var t := env.t;
    var (l, h) := Wants(x.k.pc).value;
    assert TaskOk(s.tasks[t]);
    WantedIsFree(x.k);
    OneRequestQueue(l, t);
    var s1 := Next(env.c, s, Enqueue(t));
    assert Compatible(s1, l, h);
    s' := Next(env.c, s1, Acquire(t));
    NextKeepsGuards(env.c, s, Enqueue(t));
    NextKeepsGuards(env.c, s1, Acquire(t));
    labels := [Enqueue(t)] + ([Acquire(t)] + []);
    ExecFirst(env.c, s, Enqueue(t), [Acquire(t)] + []);
    ExecFirst(env.c, s1, Acquire(t), []);
  }

  lemma MirrorRuns(s: System, env: Env, x: Solo) returns (s': System, labels: seq<Label>)
    requires Mirrors(s, env, x) && Wants(x.k.pc).None? && !x.k.pc.Idle?
    ensures Exec(env.c, s, labels) == Some(s') && Mirrors(s', env, Moved(env, x)) && OnlyMoved(s, s', env.t)
  {
    var a := Local(env.t, env.outside.At(x.k.pc));
    NextKeepsGuards(env.c, s, a);
    s' := Next(env.c, s, a);
    labels := [a] + [];
    ExecFirst(env.c, s, a, []);
  }

  lemma {:induction false} PathIsRun(s: System, env: Env, path: seq<Solo>, x: Solo, y: Solo)
    returns (s': System, labels: seq<Label>)
    requires Mirrors(s, env, x) && Along(env, path, x, y)
    ensures Exec(env.c, s, labels) == Some(s') && Mirrors(s', env, y) && OnlyMoved(s, s', env.t)
    decreases |path|
  {
    var n := |path| - 1;
    if n == 0 {
      s', labels := s, [];
    } else {
      var z := path[n - 1];
      forall i | 0 <= i < n - 1 ensures IsMove(env, path[..n], i) { assert IsMove(env, path, i); }
      var s1, l1 := PathIsRun(s, env, path[..n], x, z);
      assert IsMove(env, path, n - 1);
      if z.k.pc.Idle? {
        s', labels := s1, l1;
      } else {
        var l2;
        if Wants(z.k.pc).Some? { s', l2 := MirrorTakes(s1, env, z); } else { s', l2 := MirrorRuns(s1, env, z); }
        ExecAppend(env.c, s, l1, l2);
        labels := l1 + l2;
      }
    }
  }

  /** The request on its arrival. */
  function Arrival(s: System, t: nat, op: Op): Solo
    requires t < |s.tasks|
  {
    Solo(s.tasks[t].(pc := FirstPc(op), op := op, req := |s.trace|), s.shared, s.trace + [Arrived(t, op, s.tasks[t].peer)])
  }

  /** From a calm state, what a request does alone is a run that ends calm. */
  lemma AloneIsRun(s: System, env: Env, op: Op, y: Solo) returns (s': System, labels: seq<Label>)
    requires GuardInv(s) && Calm(s) && env.t < |s.tasks| && s.tasks[env.t].pc.Idle?
    requires s.now == env.now && s.procs == env.procs && Goes(env, Arrival(s, env.t, op), y) && Done(y)
    ensures Exec(env.c, s, labels) == Some(s') && OnlyMoved(s, s', env.t) && Calm(s') && GuardInv(s')
    ensures s'.tasks[env.t] == y.k && s'.shared == y.sh && s'.trace == y.tr && s'.now == s.now && s'.procs == s.procs
  {
    var x := Arrival(s, env.t, op);
    var path :| Along(env, path, x, y);
    var a := Arrive(env.t, op);
    NextKeepsGuards(env.c, s, a);
    var s1 := Next(env.c, s, a);
    var s2, rest := PathIsRun(s1, env, path, x, y);
    ExecFirst(env.c, s, a, rest);
    s', labels := s2, [a] + rest;
  }

  // ---------------------------------------------------------------------------
  // One request
  // ---------------------------------------------------------------------------

  /** The shared memory as the agent's state, the key file left aside. */
  predicate Models(sh: Shared, a: Agent.AgentState) {
    sh.locked == a.locked && sh.pass == a.lockHash && sh.keys == a.keys && sh.idleCleared == a.idleCleared
  }

  /** The same request on both sides. */
  predicate Matches(lib: Agent.AgentLib, r: Agent.Request, op: Op) {
    match r
    case List => op.List?
    case Sign(material, _) => op.Sign? && "SHA256:" + op.digest == lib.keyLib.fingerprint(material)
    case Add(key) => op == Add(lib.keyLib.fingerprint(key.material), key)
    case Remove(material) => op == Remove(lib.keyLib.fingerprint(material))
    case RemoveAll => op.RemoveAll?
    case Lock(p) => op == LockAgent(lib.hash(p))
    case Unlock(p) => op == UnlockAgent(lib.hash(p))
    case IdleSweep => op.IdleSweep?
  }

  /** What the outside answers is what the key file gives. */
  predicate FileAnswers(lib: Agent.AgentLib, a: Agent.AgentState, r: Agent.Request, io: Io, outside: Outside) {
    && outside.file == (match Loaded(a.disk, io) case Ok(es) => Some(Agent.KeysOf(lib.keyLib, es)) case Err(_) => None)
    && (r.Add? ==> (outside.saves <==> Edited(lib.keyLib, a.disk, AgentAdd(r.key), io).1.Ok?))
  }

  /** What is recorded when the request succeeds. */
  function Success(env: Env, op: Op, req: nat, response: Agent.Response): Option<Event> {
    match op
    case List => if response.Identities? then Some(Listed(env.t, req, response.keys.Keys)) else None
    case Sign(_) => Some(Signed(env.t, req))
    case Add(fp, _) => Some(Added(env.t, req, fp))
    case _ => None
  }

  /** The approval of a sign is a running grant or a touch, and the key held is one that can sign. */
  predicate ApprovalFits(lib: Agent.AgentLib, a: Agent.AgentState, r: Agent.Request, io: Io, env: Env, x: Solo) {
    r.Sign? ==>
      && (r.approved <==> CacheAllows(env, x, ContextOf(env.c.mode, x.k.peer, env.procs)) || env.outside.touched)
      && var t := Agent.EnsureLoaded(lib, a, io);
         var fp := lib.keyLib.fingerprint(r.material);
         (t.Ok? && fp in t.value.keys ==> lib.keyLib.supported(t.value.keys[fp].material))
  }

  /** What the request leaves is what the request-level agent leaves, and it is recorded as answered exactly if it is
      answered there. */
  predicate Agrees(lib: Agent.AgentLib, a: Agent.AgentState, r: Agent.Request, io: Io, env: Env, x: Solo, y: Solo) {
    && Models(y.sh, Agent.Apply(lib, a, r, io).0)
    && ((r.List? && !a.locked) || r.Add? || (r.Sign? && ApprovalFits(lib, a, r, io, env, x)) ==>
          Answered(env, x, y, Agent.Apply(lib, a, r, io).1))
  }

  predicate Answered(env: Env, x: Solo, y: Solo, response: Agent.Response) {
    if response == Agent.Failure then Quiet(x.tr, y.tr)
    else Success(env, x.k.op, x.k.req, response).Some?
         && Says(x.tr, y.tr, Success(env, x.k.op, x.k.req, response).value)
  }

  lemma SignRequest(lib: Agent.AgentLib, a: Agent.AgentState, r: Agent.Request, io: Io, env: Env, x: Solo) returns (y: Solo)
    requires Fresh(x) && Models(x.sh, a) && Matches(lib, r, x.k.op) && FileAnswers(lib, a, r, io, env.outside)
    requires r.Sign?
    ensures Goes(env, x, y) && Done(y) && Agrees(lib, a, r, io, env, x, y)
  {
    y := SignAlone(env, x);
    assert Swept(x.sh) <==> a.keys == map[] && a.idleCleared;
  }

  /** Alone, a request does to the interleaved agent what it does to the request-level one; the idle sweeper sweeps if
      the timeout has elapsed. */
  lemma RequestAlone(lib: Agent.AgentLib, a: Agent.AgentState, r: Agent.Request, io: Io, env: Env, x: Solo) returns (y: Solo)
    requires Fresh(x) && Models(x.sh, a) && Matches(lib, r, x.k.op) && FileAnswers(lib, a, r, io, env.outside)
    requires r.IdleSweep? ==> env.now >= x.sh.lastActivity + env.c.idleTimeout
    ensures Goes(env, x, y) && Done(y) && Agrees(lib, a, r, io, env, x, y)
  {
    match r
    case List => y := ListAlone(env, x);
    case Sign(_, _) => y := SignRequest(lib, a, r, io, env, x);
    case Add(_) => y := AddAlone(env, x);
    case Remove(_) | RemoveAll => y := RemoveAlone(env, x);
    case Lock(_) => y := LockAlone(env, x);
    case Unlock(_) => y := UnlockAlone(env, x);
    case IdleSweep => y := IdleSweepAlone(env, x);
  }

  // ---------------------------------------------------------------------------
  // Sequences of requests
  // ---------------------------------------------------------------------------

  /** The op of a request; every fingerprint is the prefix and a digest. */
  function OpOf(lib: Agent.AgentLib, r: Agent.Request): (op: Op)
    requires r.Sign? ==> "SHA256:" <= lib.keyLib.fingerprint(r.material)
    ensures Matches(lib, r, op)
  {
    match r
    case List => List
    case Sign(material, _) =>
      var fp := lib.keyLib.fingerprint(material);
      assert "SHA256:" + fp[7..] == fp;
      Sign(fp[7..])
    case Add(key) => Add(lib.keyLib.fingerprint(key.material), key)
    case Remove(material) => Remove(lib.keyLib.fingerprint(material))
    case RemoveAll => RemoveAll
    case Lock(p) => LockAgent(lib.hash(p))
    case Unlock(p) => UnlockAgent(lib.hash(p))
    case IdleSweep => IdleSweep
  }

  /** Task `t` is ready for a request in a calm state that models `a`. */
  ghost predicate Ready(s: System, t: nat, a: Agent.AgentState) {
    GuardInv(s) && Calm(s) && t < |s.tasks| && s.tasks[t].pc.Idle? && Models(s.shared, a)
  }

  lemma OneRequest(c: Config, lib: Agent.AgentLib, s: System, t: nat, a: Agent.AgentState, r: Agent.Request)
    returns (s': System, labels: seq<Label>)
    requires Ready(s, t, a) && (r.Sign? ==> "SHA256:" <= lib.keyLib.fingerprint(r.material))
    ensures Exec(c, s, labels) == Some(s') && Ready(s', t, Agent.Apply(lib, a, r, Agent.WORKING).0)
  {
    var s1, l1 := WaitUntil(c, s, s.now + s.shared.lastActivity + c.idleTimeout);
    assert GuardInv(s1) by { NextKeepsGuards(c, s, Tick(s1.now)); }
    var io := Agent.WORKING;
    var file := match Loaded(a.disk, io) case Ok(es) => Some(Agent.KeysOf(lib.keyLib, es)) case Err(_) => None;
    var saves := r.Add? && Edited(lib.keyLib, a.disk, AgentAdd(r.key), io).1.Ok?;
    var env := Env(c, s1.now, s1.procs, t, Outside(file, saves, true, true));
    var op := OpOf(lib, r);
    var y := RequestAlone(lib, a, r, io, env, Arrival(s1, t, op));
    var s2, l2 := AloneIsRun(s1, env, op, y);
    ExecAppend(c, s, l1, l2);
    s', labels := s2, l1 + l2;
  }

  /** Every run of the request-level agent is one of the interleaved agent: whatever requests come, one session can make
      them one after another and the shared memory ends as the request-level agent says. */
  lemma {:induction false} RequestsAreRuns(c: Config, lib: Agent.AgentLib, s: System, t: nat, a: Agent.AgentState,
                                           rs: seq<Agent.Request>)
    returns (s': System, labels: seq<Label>)
    requires Ready(s, t, a) && forall m :: "SHA256:" <= lib.keyLib.fingerprint(m)
    ensures Exec(c, s, labels) == Some(s') && Ready(s', t, Agent.After(lib, a, rs))
  {
    if rs == [] {
      s', labels := s, [];
    } else {
      var n := |rs| - 1;
      var s1, l1 := RequestsAreRuns(c, lib, s, t, a, rs[..n]);
      var s2, l2 := OneRequest(c, lib, s1, t, Agent.After(lib, a, rs[..n]), rs[n]);
      ExecAppend(c, s, l1, l2);
      s', labels := s2, l1 + l2;
    }
  }
}
