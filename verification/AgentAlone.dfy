/**
 What a request does when nobody interferes: step by step through its guards, from its arrival to its return. This ties
 the agent under fine interleaving to the agent taken one request at a time.
 */
module AgentAlone {
  import opened Common
  import opened AncestorWalk
  import opened AgentMachine
  import opened AgentGuards
  import AuthCache

  /** What the outside world answers the request: the keys in the file if it can be read, whether the file can be saved,
      whether the envelope of an extension opens, and whether the device is touched. */
  datatype Outside = Outside(file: Option<KeyMap>, saves: bool, opens: bool, touched: bool) {
    function At(pc: Pc): Choice {
      match pc
      case AtEnsure(_) | AtUnlock(_) => if file.Some? then Choice(true, file.value) else Choice(false, map[])
      case AtEdit(_) => Choice(saves, map[])
      case OpenEnvelope => Choice(opens, map[])
      case _ => Choice(touched, map[])
    }
  }

  datatype Env = Env(c: Config, now: nat, procs: ProcessTable, t: nat, outside: Outside)

  /** The one task that runs, the shared memory and the trace. */
  datatype Solo = Solo(k: Task, sh: Shared, tr: Trace)

  /** Its next step: getting the guard it wants, which nobody else holds, or its code up to the next one. */
  function Moved(env: Env, x: Solo): Solo {
    if Wants(x.k.pc).Some? then
      var (l, h) := Wants(x.k.pc).value;
      x.(k := x.k.(pc := AfterAcquire(x.k.pc), guards := x.k.guards.With(l, h),
                   keysAt := if l.LKeys? then |x.tr| else x.k.keysAt))
    else
      var e := LocalEffect(env.c, env.now, env.procs, env.t, x.sh, x.k, env.outside.At(x.k.pc));
      Solo(e.task, e.shared, Recorded(x.tr, e.event))
  }

  ghost predicate IsMove(env: Env, path: seq<Solo>, i: nat)
    requires i + 1 < |path|
  {
    path[i + 1] == Moved(env, path[i])
  }

  /** Step by step along `path`. */
  ghost predicate Along(env: Env, path: seq<Solo>, x: Solo, y: Solo) {
    && path != [] && path[0] == x && path[|path| - 1] == y
    && forall i | 0 <= i < |path| - 1 :: IsMove(env, path, i)
  }

  ghost predicate Goes(env: Env, x: Solo, y: Solo) {
    exists path :: Along(env, path, x, y)
  }

  lemma Stays(env: Env, x: Solo)
    ensures Goes(env, x, x)
  {
    assert Along(env, [x], x, x);
  }

  lemma Move(env: Env, x: Solo, y: Solo)
    requires Goes(env, x, y)
    ensures Goes(env, x, Moved(env, y))
  {
    var path :| Along(env, path, x, y);
    var longer := path + [Moved(env, y)];
    forall i | 0 <= i < |longer| - 1 ensures IsMove(env, longer, i) {
      if i < |path| - 1 { assert IsMove(env, path, i); }
    }
    assert Along(env, longer, x, Moved(env, y));
  }

  /** Getting the guard that is wanted. */
  lemma Take(env: Env, x: Solo, y: Solo) returns (z: Solo)
    requires Goes(env, x, y) && Wants(y.k.pc).Some?
    ensures Goes(env, x, z) && z.sh == y.sh && z.tr == y.tr
    ensures var (l, h) := Wants(y.k.pc).value;
      z.k == y.k.(pc := AfterAcquire(y.k.pc), guards := y.k.guards.With(l, h), keysAt := z.k.keysAt)
  {
    Move(env, x, y);
    z := Moved(env, y);
  }

  /** What a stretch of code makes of it. */
  function Made(x: Solo, e: Effect): Solo {
    Solo(e.task, e.shared, Recorded(x.tr, e.event))
  }

  /** Running the code up to the next guard; the lemmas after this one say it for each kind of program point. */
  lemma Go(env: Env, x: Solo, y: Solo) returns (z: Solo)
    requires Goes(env, x, y) && Wants(y.k.pc).None?
    ensures Goes(env, x, z)
    ensures z == Made(y, LocalEffect(env.c, env.now, env.procs, env.t, y.sh, y.k, env.outside.At(y.k.pc)))
  {
    Move(env, x, y);
    z := Moved(env, y);
  }

  lemma GoCheck(env: Env, x: Solo, y: Solo) returns (z: Solo)
    requires Goes(env, x, y) && Wants(y.k.pc).None? && y.k.pc.AtCheck?
    ensures Goes(env, x, z) && z == Made(y, CheckEffect(env.t, y.sh, y.k))
  {
    z := Go(env, x, y);
  }

  lemma GoEnsure(env: Env, x: Solo, y: Solo) returns (z: Solo)
    requires Goes(env, x, y) && Wants(y.k.pc).None? && y.k.pc.AtEnsure?
    ensures Goes(env, x, z) && z == Made(y, EnsureEffect(env.t, y.sh, y.k, y.k.pc.e, env.outside.At(y.k.pc)))
  {
    z := Go(env, x, y);
  }

  lemma GoAuth(env: Env, x: Solo, y: Solo) returns (z: Solo)
    requires Goes(env, x, y) && Wants(y.k.pc).None? && y.k.pc.AtAuth?
    ensures Goes(env, x, z) && z == Made(y, AuthEffect(env.c, env.now, env.procs, env.t, y.sh, y.k, y.k.pc.a, env.outside.At(y.k.pc)))
  {
    z := Go(env, x, y);
  }

  lemma GoSign(env: Env, x: Solo, y: Solo) returns (z: Solo)
    requires Goes(env, x, y) && Wants(y.k.pc).None? && y.k.pc.AtSign?
    ensures Goes(env, x, z) && z == Made(y, SignEffect(env.t, y.sh, y.k, y.k.pc.s))
  {
    z := Go(env, x, y);
  }

  lemma GoEdit(env: Env, x: Solo, y: Solo) returns (z: Solo)
    requires Goes(env, x, y) && Wants(y.k.pc).None? && y.k.pc.AtEdit?
    ensures Goes(env, x, z) && z == Made(y, EditEffect(env.t, y.sh, y.k, y.k.pc.d, env.outside.At(y.k.pc)))
  {
    z := Go(env, x, y);
  }

  lemma GoLock(env: Env, x: Solo, y: Solo) returns (z: Solo)
    requires Goes(env, x, y) && Wants(y.k.pc).None? && y.k.pc.AtLock? && y.k.op.LockAgent?
    ensures Goes(env, x, z) && z == Made(y, LockEffect(env.t, y.sh, y.k, y.k.pc.l, y.k.op.hash))
  {
    z := Go(env, x, y);
  }

  lemma GoUnlock(env: Env, x: Solo, y: Solo) returns (z: Solo)
    requires Goes(env, x, y) && Wants(y.k.pc).None? && y.k.pc.AtUnlock? && y.k.op.UnlockAgent?
    ensures Goes(env, x, z) && z == Made(y, UnlockEffect(env.t, y.sh, y.k, y.k.pc.u, y.k.op.hash, env.outside.At(y.k.pc)))
  {
    z := Go(env, x, y);
  }

  lemma GoSweep(env: Env, x: Solo, y: Solo) returns (z: Solo)
    requires Goes(env, x, y) && Wants(y.k.pc).None? && y.k.pc.AtSweep?
    ensures Goes(env, x, z) && z == Made(y, SweepEffect(env.c, env.now, env.t, y.sh, y.k, y.k.pc.w))
  {
    z := Go(env, x, y);
  }

  /** The same request of the same session, and the guards it has at `pc`. */
  predicate At(x: Solo, y: Solo, pc: Pc) {
    && y.k.pc == pc && y.k.op == x.k.op && y.k.req == x.k.req && y.k.peer == x.k.peer
    && y.k.guards == GuardsAt(pc, x.k.op)
  }

  predicate Done(y: Solo) {
    y.k.pc == Idle && y.k.guards == NO_GUARDS
  }

  /** No answer of a request was recorded in between. */
  predicate Quiet(before: Trace, after: Trace) {
    before <= after && forall n | |before| <= n < |after| :: !IsAnswer(after[n])
  }

  predicate IsAnswer(e: Event) {
    e.Listed? || e.Added? || e.Approved? || e.Signed?
  }

  /** The last thing recorded in between. */
  predicate Says(before: Trace, after: Trace, e: Event) {
    before <= after && |before| < |after| && after[|after| - 1] == e
  }

  // ---------------------------------------------------------------------------
  // The pieces of a request
  // ---------------------------------------------------------------------------

  /** Where a request goes on that has found the agent unlocked. */
  function FirstWork(op: Op): Pc {
    match op
    case List | Sign(_) => AtEnsure(EnsureAcquire)
    case Add(_, _) => AtEdit(AddSave)
    case OtherExtension => Idle
    case _ => ActivityAcquire
  }

  /** The locked check. */
  lemma Checks(env: Env, x0: Solo, x: Solo) returns (y: Solo)
    requires Goes(env, x0, x) && x.k.pc == AtCheck(CheckAcquire) && TaskOk(x.k)
    ensures Goes(env, x0, y) && y.sh == x.sh
    ensures x.sh.locked ==> Done(y) && y.tr == x.tr
    ensures !x.sh.locked ==> y.tr == x.tr + [Started(env.t, x.k.req)] && At(x, y, FirstWork(x.k.op))
  {
    y := Take(env, x0, x);
    y := GoCheck(env, x0, y);
  }

  /** Memory was emptied by the idle sweeper. */
  predicate Swept(sh: Shared) { sh.keys == map[] && sh.idleCleared }

  /** Making sure keys are loaded: nothing to do, a reload with the flag taken down, or a failure. */
  lemma Ensures(env: Env, x0: Solo, x: Solo) returns (y: Solo)
    requires Goes(env, x0, x) && x.k.pc == AtEnsure(EnsureAcquire) && TaskOk(x.k)
    ensures Goes(env, x0, y)
    ensures !Swept(x.sh) ==> y.sh == x.sh && y.tr == x.tr && At(x, y, AfterEnsure(x.k.op))
    ensures Swept(x.sh) && env.outside.file.None? ==> y.sh == x.sh && y.tr == x.tr && Done(y)
    ensures Swept(x.sh) && env.outside.file.Some? ==>
      y.sh == x.sh.(keys := env.outside.file.value, idleCleared := false)
      && y.tr == x.tr + [KeysReloaded(env.t)] && At(x, y, AfterEnsure(x.k.op))
  {
    y := Take(env, x0, x);
    y := GoEnsure(env, x0, y);
    if x.sh.keys == map[] {
      y := Take(env, x0, y);
      y := GoEnsure(env, x0, y);
      if x.sh.idleCleared {
        y := GoEnsure(env, x0, y);
        if env.outside.file.Some? { y := Reloads(env, x0, y); }
      }
    }
  }

  lemma Reloads(env: Env, x0: Solo, x: Solo) returns (y: Solo)
    requires Goes(env, x0, x) && x.k.pc == AtEnsure(StoreAcquire) && TaskOk(x.k)
    ensures Goes(env, x0, y) && y.sh == x.sh.(keys := x.k.loaded, idleCleared := false)
    ensures y.tr == x.tr + [KeysReloaded(env.t)] && At(x, y, AfterEnsure(x.k.op))
  {
    y := Take(env, x0, x);
    y := GoEnsure(env, x0, y);
    y := Take(env, x0, y);
    y := TakesFlagDown(env, x0, y);
  }

  lemma TakesFlagDown(env: Env, x0: Solo, x: Solo) returns (y: Solo)
    requires Goes(env, x0, x) && x.k.pc == AtEnsure(StoreFlag) && TaskOk(x.k)
    ensures Goes(env, x0, y) && y.sh == x.sh.(idleCleared := false)
    ensures y.tr == x.tr && At(x, y, AfterEnsure(x.k.op))
  {
    y := GoEnsure(env, x0, x);
    y := GoEnsure(env, x0, y);
    y := GoEnsure(env, x0, y);
  }

  /** Recording activity. */
  lemma Records(env: Env, x0: Solo, x: Solo) returns (y: Solo)
    requires Goes(env, x0, x) && x.k.pc == ActivityAcquire && TaskOk(x.k)
    ensures Goes(env, x0, y) && y.sh == x.sh.(lastActivity := env.now) && y.tr == x.tr
    ensures At(x, y, match x.k.op
                     case Sign(_) => AtSign(SignAcquire)
                     case Add(_, _) => AtEdit(AddRelease)
                     case _ => OpenEnvelope)
  {
    y := Take(env, x0, x);
    y := Go(env, x0, y);
  }

  // ---------------------------------------------------------------------------
  // Authorization
  // ---------------------------------------------------------------------------

  /** A grant of this context for this request is running. */
  predicate CacheAllows(env: Env, x: Solo, context: Option<nat>) {
    context.Some? && AuthCache.IsAuthorized(x.sh.cache, context.value, CacheFingerprint(x.k.op), env.now)
  }

  /** The cache with a touch that counts from now on, if there is a context to grant it to. */
  function Granting(env: Env, x: Solo, context: Option<nat>): AuthCache.Entries {
    if context.None? then x.sh.cache
    else AuthCache.AfterGrant(env.c.ttl, x.sh.cache, context.value, CacheFingerprint(x.k.op), x.k.op.Decrypt?, env.now)
  }

  /** Approved, the memory as before but for the cache. */
  predicate Authorized(env: Env, x: Solo, y: Solo, context: Option<nat>) {
    && y.sh == x.sh.(cache := if CacheAllows(env, x, context) then x.sh.cache else Granting(env, x, context))
    && Quiet(x.tr, y.tr) && At(x, y, AtAuth(Approve))
  }

  predicate Refused(x: Solo, y: Solo) {
    y.sh == x.sh && Quiet(x.tr, y.tr) && if x.k.op.Sign? then At(x, y, AtSign(SignRelease)) else Done(y)
  }

  lemma QuietOn(a: Trace, b: Trace, c: Trace)
    requires Quiet(a, b) && Quiet(b, c)
    ensures Quiet(a, c)
  {
    forall n | |a| <= n < |c| ensures !IsAnswer(c[n]) {
      if n < |b| { assert c[n] == b[n]; }
    }
  }

  /** Authorizing a sign or a decrypt: the cache allows it, or a touch does. */
  lemma Authorizes(env: Env, x0: Solo, x: Solo) returns (y: Solo)
    requires Goes(env, x0, x) && x.k.pc == AtAuth(FindContext) && TaskOk(x.k)
    ensures Goes(env, x0, y)
    ensures var context := ContextOf(env.c.mode, x.k.peer, env.procs);
      if CacheAllows(env, x, context) || env.outside.touched then Authorized(env, x, y, context) else Refused(x, y)
  {
    var context := ContextOf(env.c.mode, x.k.peer, env.procs);
    var z := GoAuth(env, x0, x);
    assert At(x, z, z.k.pc) && z.k.context == context && z.sh == x.sh && Quiet(x.tr, z.tr);
    if context.Some? { y := AsksCache(env, x0, z); } else { y := AsksAlways(env, x0, z); }
    QuietOn(x.tr, z.tr, y.tr);
  }

  lemma AsksAlways(env: Env, x0: Solo, x: Solo) returns (y: Solo)
    requires Goes(env, x0, x) && x.k.pc == AtAuth(TouchOnly) && TaskOk(x.k)
    ensures Goes(env, x0, y)
    ensures if env.outside.touched then Authorized(env, x, y, None) else Refused(x, y)
  {
    y := GoAuth(env, x0, x);
  }

  lemma AsksCache(env: Env, x0: Solo, x: Solo) returns (y: Solo)
    requires Goes(env, x0, x) && x.k.pc == AtAuth(HitAcquire) && TaskOk(x.k)
    ensures Goes(env, x0, y)
    ensures if CacheAllows(env, x, x.k.context) || env.outside.touched
            then Authorized(env, x, y, x.k.context) else Refused(x, y)
  {
    y := Take(env, x0, x);
    y := GoAuth(env, x0, y);
    if !CacheAllows(env, x, x.k.context) { y := AsksDevice(env, x0, y); }
  }

  lemma AsksDevice(env: Env, x0: Solo, x: Solo) returns (y: Solo)
    requires Goes(env, x0, x) && x.k.pc == AtAuth(TouchToGrant) && TaskOk(x.k) && !CacheAllows(env, x, x.k.context)
    ensures Goes(env, x0, y)
    ensures if env.outside.touched then Authorized(env, x, y, x.k.context) else Refused(x, y)
  {
    var z := GoAuth(env, x0, x);
    y := z;
    if env.outside.touched {
      y := Grants(env, x0, z);
      QuietOn(x.tr, z.tr, y.tr);
    }
  }

  lemma Grants(env: Env, x0: Solo, x: Solo) returns (y: Solo)
    requires Goes(env, x0, x) && x.k.pc == AtAuth(GrantAcquire) && TaskOk(x.k)
    ensures Goes(env, x0, y)
    ensures y.sh == x.sh.(cache := Granting(env, x, x.k.context)) && Quiet(x.tr, y.tr) && At(x, y, AtAuth(Approve))
  {
    y := Take(env, x0, x);
    y := GoAuth(env, x0, y);
  }

  // ---------------------------------------------------------------------------
  // Whole requests
  // ---------------------------------------------------------------------------

  /** A request that has just arrived at a session with empty hands. */
  predicate Fresh(x: Solo) {
    x.k.pc == FirstPc(x.k.op) && x.k.guards == NO_GUARDS
  }

  /** The keys a list or sign works on: those in memory, or those on file after an idle clear. */
  function Usable(env: Env, sh: Shared): Option<KeyMap> {
    if Swept(sh) then env.outside.file else Some(sh.keys)
  }

  /** The memory with these keys loaded. */
  function WithKeys(sh: Shared, keys: KeyMap): Shared {
    if Swept(sh) then sh.(keys := keys, idleCleared := false) else sh
  }

  /** The check of a list or a sign and the loading of keys. */
  lemma Begins(env: Env, x: Solo) returns (y: Solo)
    requires Fresh(x) && (x.k.op.List? || x.k.op.Sign?)
    ensures Goes(env, x, y) && Quiet(x.tr, y.tr)
    ensures if x.sh.locked || Usable(env, x.sh).None? then y.sh == x.sh && Done(y)
            else y.sh == WithKeys(x.sh, Usable(env, x.sh).value) && At(x, y, AfterEnsure(x.k.op))
  {
    Stays(env, x);
    y := Checks(env, x, x);
    if !x.sh.locked { y := Ensures(env, x, y); }
  }

  /** A list shows the keys there are, or nothing. */
  lemma ListAlone(env: Env, x: Solo) returns (y: Solo)
    requires Fresh(x) && x.k.op.List?
    ensures Goes(env, x, y) && Done(y)
    ensures if x.sh.locked || Usable(env, x.sh).None? then y.sh == x.sh && Quiet(x.tr, y.tr)
            else y.sh == WithKeys(x.sh, Usable(env, x.sh).value)
                 && Says(x.tr, y.tr, Listed(env.t, x.k.req, Usable(env, x.sh).value.Keys))
  {
    y := Begins(env, x);
    if !Done(y) { y := Shows(env, x, y); }
  }

  lemma Shows(env: Env, x0: Solo, x: Solo) returns (y: Solo)
    requires Goes(env, x0, x) && x.k.pc == ListAcquire && TaskOk(x.k)
    ensures Goes(env, x0, y) && Done(y) && y.sh == x.sh && y.tr == x.tr + [Listed(env.t, x.k.req, x.sh.keys.Keys)]
  {
    y := Take(env, x0, x);
    y := Go(env, x0, y);
  }

  /** The end of a sign: the approved key signs, and the guard goes back. */
  lemma SignsOff(env: Env, x0: Solo, x: Solo) returns (y: Solo)
    requires Goes(env, x0, x) && x.k.op.Sign? && TaskOk(x.k)
    requires x.k.pc == AtAuth(Approve) || x.k.pc == AtSign(SignRelease)
    ensures Goes(env, x0, y) && Done(y) && y.sh == x.sh
    ensures y.tr == x.tr + if x.k.pc.AtAuth? then [Approved(env.t, x.k.req), Signed(env.t, x.k.req)] else []
  {
    y := x;
    if x.k.pc.AtAuth? {
      y := GoAuth(env, x0, y);
      y := GoSign(env, x0, y);
    }
    y := GoSign(env, x0, y);
  }

  /** The key is there and a grant or a touch allows its use. */
  predicate MaySign(env: Env, x: Solo) {
    && x.k.op.Sign? && "SHA256:" + x.k.op.digest in x.sh.keys
    && (CacheAllows(env, x, ContextOf(env.c.mode, x.k.peer, env.procs)) || env.outside.touched)
  }

  /** The memory after a sign that had to ask the device. */
  function AfterSign(env: Env, x: Solo): Shared {
    var context := ContextOf(env.c.mode, x.k.peer, env.procs);
    x.sh.(cache := if MaySign(env, x) && !CacheAllows(env, x, context) then Granting(env, x, context) else x.sh.cache)
  }

  lemma LooksUp(env: Env, x0: Solo, x: Solo) returns (y: Solo)
    requires Goes(env, x0, x) && x.k.op.Sign? && TaskOk(x.k) && x.k.pc == AtSign(SignAcquire)
    ensures Goes(env, x0, y) && y.sh == x.sh && y.tr == x.tr
    ensures At(x, y, if "SHA256:" + x.k.op.digest in x.sh.keys then AtAuth(FindContext) else AtSign(SignRelease))
  {
    y := Take(env, x0, x);
    y := GoSign(env, x0, y);
  }

  /** From the keys guard on: a key that is there is signed with if it is authorized. */
  lemma SignsWithKey(env: Env, x0: Solo, x: Solo) returns (y: Solo)
    requires Goes(env, x0, x) && x.k.op.Sign? && TaskOk(x.k) && x.k.pc == AtSign(SignAcquire)
    ensures Goes(env, x0, y) && Done(y) && y.sh == AfterSign(env, x)
    ensures if MaySign(env, x) then Says(x.tr, y.tr, Signed(env.t, x.k.req)) else Quiet(x.tr, y.tr)
  {
    y := LooksUp(env, x0, x);
    if y.k.pc.AtAuth? { y := Authorizes(env, x0, y); }
    y := SignsOff(env, x0, y);
  }

  /** A sign signs if the key is among those that can be used and a grant or a touch allows it. */
  lemma SignAlone(env: Env, x: Solo) returns (y: Solo)
    requires Fresh(x) && x.k.op.Sign?
    ensures Goes(env, x, y) && Done(y)
    ensures if x.sh.locked || Usable(env, x.sh).None? then y.sh == x.sh && Quiet(x.tr, y.tr)
            else
              var w := x.(sh := WithKeys(x.sh, Usable(env, x.sh).value).(lastActivity := env.now));
              y.sh == AfterSign(env, w)
              && if MaySign(env, w) then Says(x.tr, y.tr, Signed(env.t, x.k.req)) else Quiet(x.tr, y.tr)
  {
    y := Begins(env, x);
    if !Done(y) {
      y := Records(env, x, y);
      y := SignsWithKey(env, x, y);
    }
  }

  /** An add that could be saved puts the key under its fingerprint. */
  lemma AddAlone(env: Env, x: Solo) returns (y: Solo)
    requires Fresh(x) && x.k.op.Add?
    ensures Goes(env, x, y) && Done(y)
    ensures if x.sh.locked || !env.outside.saves then y.sh == x.sh && Quiet(x.tr, y.tr)
            else y.sh == x.sh.(keys := x.sh.keys[x.k.op.fingerprint := x.k.op.key], lastActivity := env.now)
                 && Says(x.tr, y.tr, Added(env.t, x.k.req, x.k.op.fingerprint))
  {
    Stays(env, x);
    y := Checks(env, x, x);
    if !x.sh.locked {
      y := Saves(env, x, y);
      if !Done(y) { y := Takes(env, x, y); }
    }
  }

  lemma Saves(env: Env, x0: Solo, x: Solo) returns (y: Solo)
    requires Goes(env, x0, x) && x.k.pc == AtEdit(AddSave) && TaskOk(x.k)
    ensures Goes(env, x0, y) && y.sh == x.sh && y.tr == x.tr
    ensures if env.outside.saves then At(x, y, AtEdit(AddAcquire)) else Done(y)
  {
    y := GoEdit(env, x0, x);
  }

  lemma Takes(env: Env, x0: Solo, x: Solo) returns (y: Solo)
    requires Goes(env, x0, x) && x.k.pc == AtEdit(AddAcquire) && TaskOk(x.k)
    ensures Goes(env, x0, y) && Done(y)
    ensures y.sh == x.sh.(keys := x.sh.keys[x.k.op.fingerprint := x.k.op.key], lastActivity := env.now)
    ensures y.tr == x.tr + [Added(env.t, x.k.req, x.k.op.fingerprint)]
  {
    y := Take(env, x0, x);
    y := GoEdit(env, x0, y);
    y := Records(env, x0, y);
    y := GoEdit(env, x0, y);
  }

  /** A removal takes the key, or all keys, out of memory, locked or not. */
  lemma RemoveAlone(env: Env, x: Solo) returns (y: Solo)
    requires Fresh(x) && (x.k.op.Remove? || x.k.op.RemoveAll?)
    ensures Goes(env, x, y) && Done(y) && Quiet(x.tr, y.tr)
    ensures y.sh == x.sh.(keys := if x.k.op.Remove? then x.sh.keys - {x.k.op.fingerprint} else map[])
  {
    Stays(env, x);
    y := GoEdit(env, x, x);
    y := Take(env, x, y);
    y := GoEdit(env, x, y);
  }

  /** A lock sets flag and hash and empties keys and cache, unless the agent is locked already. */
  lemma LockAlone(env: Env, x: Solo) returns (y: Solo)
    requires Fresh(x) && x.k.op.LockAgent?
    ensures Goes(env, x, y) && Done(y)
    ensures if x.sh.locked then y.sh == x.sh && y.tr == x.tr
            else y.sh == x.sh.(locked := true, pass := Some(x.k.op.hash), keys := map[], cache := map[])
                 && Quiet(x.tr, y.tr) && Says(x.tr, y.tr, LockReturned(env.t, x.k.req))
  {
    Stays(env, x);
    y := Take(env, x, x);
    y := GoLock(env, x, y);
    if !x.sh.locked {
      y := Empties(env, x, y);
      y := Leaves(env, x, y);
    }
  }

  lemma Empties(env: Env, x0: Solo, x: Solo) returns (y: Solo)
    requires Goes(env, x0, x) && x.k.pc == AtLock(LockPassAcquire) && TaskOk(x.k)
    ensures Goes(env, x0, y) && At(x, y, AtLock(LockCacheRelease))
    ensures y.sh == x.sh.(pass := Some(x.k.op.hash), keys := map[], cache := map[])
    ensures y.tr == x.tr + [KeysFlushed(env.t, x.k.req), CacheCleared(env.t, x.k.req)]
  {
    y := Take(env, x0, x);
    y := GoLock(env, x0, y);
    y := EmptiesKeys(env, x0, y);
    y := EmptiesCache(env, x0, y);
  }

  lemma EmptiesCache(env: Env, x0: Solo, x: Solo) returns (y: Solo)
    requires Goes(env, x0, x) && x.k.pc == AtLock(LockCacheAcquire) && TaskOk(x.k)
    ensures Goes(env, x0, y) && At(x, y, AtLock(LockCacheRelease))
    ensures y.sh == x.sh.(cache := map[]) && y.tr == x.tr + [CacheCleared(env.t, x.k.req)]
  {
    y := Take(env, x0, x);
    y := GoLock(env, x0, y);
  }

  lemma EmptiesKeys(env: Env, x0: Solo, x: Solo) returns (y: Solo)
    requires Goes(env, x0, x) && x.k.pc == AtLock(LockKeysAcquire) && TaskOk(x.k)
    ensures Goes(env, x0, y) && At(x, y, AtLock(LockCacheAcquire))
    ensures y.sh == x.sh.(keys := map[]) && y.tr == x.tr + [KeysFlushed(env.t, x.k.req)]
  {
    y := Take(env, x0, x);
    y := GoLock(env, x0, y);
  }

  lemma Leaves(env: Env, x0: Solo, x: Solo) returns (y: Solo)
    requires Goes(env, x0, x) && x.k.pc == AtLock(LockCacheRelease) && TaskOk(x.k)
    ensures Goes(env, x0, y) && Done(y) && y.sh == x.sh && y.tr == x.tr + [LockReturned(env.t, x.k.req)]
  {
    y := GoLock(env, x0, x);
    y := GoLock(env, x0, y);
    y := Returns(env, x0, y);
  }

  lemma Returns(env: Env, x0: Solo, x: Solo) returns (y: Solo)
    requires Goes(env, x0, x) && x.k.pc == AtLock(LockPassRelease) && TaskOk(x.k)
    ensures Goes(env, x0, y) && Done(y) && y.sh == x.sh && y.tr == x.tr + [LockReturned(env.t, x.k.req)]
  {
    y := GoLock(env, x0, x);
    y := GoLock(env, x0, y);
  }

  /** An unlock with the hash of the lock opens, wipes it and reloads the keys if the file can be read; any other
      changes nothing. */
  lemma UnlockAlone(env: Env, x: Solo) returns (y: Solo)
    requires Fresh(x) && x.k.op.UnlockAgent?
    ensures Goes(env, x, y) && Done(y) && Quiet(x.tr, y.tr)
    ensures if !x.sh.locked || x.sh.pass != Some(x.k.op.hash)
            then y.sh == x.sh && Says(x.tr, y.tr, UnlockFailed(env.t, x.k.req))
            else y.sh == x.sh.(locked := false, pass := None,
                               keys := if env.outside.file.Some? then env.outside.file.value else x.sh.keys)
  {
    Stays(env, x);
    y := Take(env, x, x);
    y := GoUnlock(env, x, y);
    if x.sh.locked {
      y := Compares(env, x, y);
      if !Done(y) { y := Opens(env, x, y); }
    }
  }

  lemma Compares(env: Env, x0: Solo, x: Solo) returns (y: Solo)
    requires Goes(env, x0, x) && x.k.pc == AtUnlock(UnlockPassAcquire) && TaskOk(x.k)
    ensures Goes(env, x0, y) && y.sh == x.sh
    ensures if x.sh.pass != Some(x.k.op.hash) then Done(y) && y.tr == x.tr + [UnlockFailed(env.t, x.k.req)]
            else At(x, y, AtUnlock(UnlockOpen)) && y.tr == x.tr
  {
    y := Take(env, x0, x);
    y := GoUnlock(env, x0, y);
  }

  lemma Opens(env: Env, x0: Solo, x: Solo) returns (y: Solo)
    requires Goes(env, x0, x) && x.k.pc == AtUnlock(UnlockOpen) && TaskOk(x.k)
    ensures Goes(env, x0, y) && Done(y) && Quiet(x.tr, y.tr)
    ensures y.sh == x.sh.(locked := false, pass := None,
                          keys := if env.outside.file.Some? then env.outside.file.value else x.sh.keys)
  {
    y := GoUnlock(env, x0, x);
    y := Wipes(env, x0, y);
    y := Refills(env, x0, y);
  }

  lemma Wipes(env: Env, x0: Solo, x: Solo) returns (y: Solo)
    requires Goes(env, x0, x) && x.k.pc == AtUnlock(UnlockWipeAcquire) && TaskOk(x.k)
    ensures Goes(env, x0, y) && At(x, y, AtUnlock(UnlockLoad)) && y.sh == x.sh.(pass := None) && y.tr == x.tr
  {
    y := Take(env, x0, x);
    y := GoUnlock(env, x0, y);
  }

  lemma Refills(env: Env, x0: Solo, x: Solo) returns (y: Solo)
    requires Goes(env, x0, x) && x.k.pc == AtUnlock(UnlockLoad) && TaskOk(x.k)
    ensures Goes(env, x0, y) && Done(y) && Quiet(x.tr, y.tr)
    ensures y.sh == x.sh.(keys := if env.outside.file.Some? then env.outside.file.value else x.sh.keys)
  {
    y := GoUnlock(env, x0, x);
    if env.outside.file.Some? { y := StoresKeys(env, x0, y); }
    y := Closes(env, x0, y);
  }

  lemma StoresKeys(env: Env, x0: Solo, x: Solo) returns (y: Solo)
    requires Goes(env, x0, x) && x.k.pc == AtUnlock(UnlockKeysAcquire) && TaskOk(x.k)
    ensures Goes(env, x0, y) && At(x, y, AtUnlock(UnlockPassRelease))
    ensures y.sh == x.sh.(keys := x.k.loaded) && Quiet(x.tr, y.tr)
  {
    y := Take(env, x0, x);
    y := GoUnlock(env, x0, y);
  }

  lemma Closes(env: Env, x0: Solo, x: Solo) returns (y: Solo)
    requires Goes(env, x0, x) && x.k.pc == AtUnlock(UnlockPassRelease) && TaskOk(x.k)
    ensures Goes(env, x0, y) && Done(y) && y.sh == x.sh && y.tr == x.tr
  {
    y := GoUnlock(env, x0, x);
    y := GoUnlock(env, x0, y);
  }

  /** An idle sweep empties the memory and raises the flag if the timeout has elapsed since the last activity and there
      are keys. */
  lemma IdleSweepAlone(env: Env, x: Solo) returns (y: Solo)
    requires Fresh(x) && x.k.op.IdleSweep?
    ensures Goes(env, x, y) && Done(y) && Quiet(x.tr, y.tr)
    ensures y.sh == if env.now >= x.sh.lastActivity + env.c.idleTimeout && x.sh.keys != map[]
                    then x.sh.(keys := map[], idleCleared := true) else x.sh
  {
    Stays(env, x);
    y := Take(env, x, x);
    y := GoSweep(env, x, y);
    y := GoSweep(env, x, y);
    if !Done(y) { y := SweepsKeys(env, x, y); }
  }

  lemma SweepsKeys(env: Env, x0: Solo, x: Solo) returns (y: Solo)
    requires Goes(env, x0, x) && x.k.pc == AtSweep(SweepKeysAcquire) && TaskOk(x.k)
    ensures Goes(env, x0, y) && Done(y) && Quiet(x.tr, y.tr)
    ensures y.sh == if x.sh.keys != map[] then x.sh.(keys := map[], idleCleared := true) else x.sh
  {
    y := Take(env, x0, x);
    y := GoSweep(env, x0, y);
    if x.sh.keys != map[] { y := RaisesFlag(env, x0, y); }
  }

  lemma RaisesFlag(env: Env, x0: Solo, x: Solo) returns (y: Solo)
    requires Goes(env, x0, x) && x.k.pc == AtSweep(SweepFlagAcquire) && TaskOk(x.k)
    ensures Goes(env, x0, y) && Done(y) && y.tr == x.tr && y.sh == x.sh.(idleCleared := true)
  {
    y := Take(env, x0, x);
    y := GoSweep(env, x0, y);
    y := EndsSweep(env, x0, y);
  }

  lemma EndsSweep(env: Env, x0: Solo, x: Solo) returns (y: Solo)
    requires Goes(env, x0, x) && x.k.pc == AtSweep(SweepFlagRelease) && TaskOk(x.k)
    ensures Goes(env, x0, y) && Done(y) && y.tr == x.tr && y.sh == x.sh
  {
    y := GoSweep(env, x0, x);
    y := GoSweep(env, x0, y);
  }

  /** A cache sweep keeps exactly the grants that are still running. */
  lemma CacheSweepAlone(env: Env, x: Solo) returns (y: Solo)
    requires Fresh(x) && x.k.op.CacheSweep?
    ensures Goes(env, x, y) && Done(y) && Quiet(x.tr, y.tr) && y.sh == x.sh.(cache := y.sh.cache)
    ensures forall e :: e in y.sh.cache <==> e in x.sh.cache && env.now < x.sh.cache[e]
    ensures forall e | e in y.sh.cache :: y.sh.cache[e] == x.sh.cache[e]
  {
    Stays(env, x);
    y := Take(env, x, x);
    y := GoSweep(env, x, y);
  }

  /** An extension request: is it let in, and which of them need an approval? */
  lemma ExtensionAlone(env: Env, x: Solo) returns (y: Solo)
    requires Fresh(x) && (x.k.op.Encrypt? || x.k.op.Decrypt? || x.k.op.Auth? || x.k.op.OtherExtension?)
    ensures Goes(env, x, y) && Done(y)
    ensures
      if x.sh.locked || x.k.op.OtherExtension? then y.sh == x.sh && Quiet(x.tr, y.tr)
      else
        var w := x.(sh := x.sh.(lastActivity := env.now));
        if env.outside.opens && MayAnswer(env, x) then
          y.sh == AfterAnswer(env, w) && Says(x.tr, y.tr, Approved(env.t, x.k.req))
        else y.sh == w.sh && Quiet(x.tr, y.tr)
  {
    Stays(env, x);
    y := Checks(env, x, x);
    if !x.sh.locked && !x.k.op.OtherExtension? {
      y := Extends(env, x, y);
    }
  }

  lemma Extends(env: Env, x0: Solo, x: Solo) returns (y: Solo)
    requires Goes(env, x0, x) && x.k.pc == ActivityAcquire && !x.k.op.Sign? && !x.k.op.Add? && TaskOk(x.k)
    ensures Goes(env, x0, y) && Done(y)
    ensures
      var w := x.(sh := x.sh.(lastActivity := env.now));
      if env.outside.opens && MayAnswer(env, x) then
        y.sh == AfterAnswer(env, w) && Says(x.tr, y.tr, Approved(env.t, x.k.req))
      else y.sh == w.sh && Quiet(x.tr, y.tr)
  {
    y := Records(env, x0, x);
    y := OpensEnvelope(env, x0, y);
    if !Done(y) { y := Answers(env, x0, y); }
  }

  /** A decrypt needs a grant or a touch, an authentication a touch. */
  predicate MayAnswer(env: Env, x: Solo) {
    || (x.k.op.Decrypt? && (CacheAllows(env, x, ContextOf(env.c.mode, x.k.peer, env.procs)) || env.outside.touched))
    || (x.k.op.Auth? && env.outside.touched)
  }

  function AfterAnswer(env: Env, x: Solo): Shared {
    var context := ContextOf(env.c.mode, x.k.peer, env.procs);
    x.sh.(cache := if x.k.op.Decrypt? && !CacheAllows(env, x, context) then Granting(env, x, context) else x.sh.cache)
  }

  lemma OpensEnvelope(env: Env, x0: Solo, x: Solo) returns (y: Solo)
    requires Goes(env, x0, x) && x.k.pc == OpenEnvelope && TaskOk(x.k)
    ensures Goes(env, x0, y) && y.sh == x.sh && y.tr == x.tr
    ensures if env.outside.opens && (x.k.op.Decrypt? || x.k.op.Auth?)
            then At(x, y, AtAuth(if x.k.op.Auth? then TouchOnly else FindContext)) else Done(y)
  {
    y := Go(env, x0, x);
  }

  lemma Answers(env: Env, x0: Solo, x: Solo) returns (y: Solo)
    requires Goes(env, x0, x) && x.k.pc.AtAuth? && !x.k.op.Sign? && TaskOk(x.k)
    requires x.k.pc.a == if x.k.op.Auth? then TouchOnly else FindContext
    ensures Goes(env, x0, y) && Done(y)
    ensures if MayAnswer(env, x) then y.sh == AfterAnswer(env, x) && Says(x.tr, y.tr, Approved(env.t, x.k.req))
            else y.sh == x.sh && Quiet(x.tr, y.tr)
  {
    if x.k.op.Auth? { y := AsksAlways(env, x0, x); } else { y := Authorizes(env, x0, x); }
    if !Done(y) { y := GoAuth(env, x0, y); }
  }
}
