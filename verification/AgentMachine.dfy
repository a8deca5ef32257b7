/**
 The SSH agent under fine interleaving: any number of tasks (sessions and sweepers) share six fair
 read-write locks. Every request of a guard, every grant of a guard and every stretch of code between two
 of them is one step. A run is any sequence of steps the locks permit.
 */
module AgentMachine {
  import opened Common
  import opened AncestorWalk
  import AuthCache

  // ---------------------------------------------------------------------------
  // Locks and guards
  // ---------------------------------------------------------------------------

  datatype Lock = LLocked | LPass | LKeys | LIdle | LCache | LActivity

  datatype Hold = Free | Read | Write

  /** One value per lock. */
  datatype PerLock<T> = PerLock(locked: T, pass: T, keys: T, idle: T, cache: T, activity: T) {
    function At(l: Lock): T {
      match l
      case LLocked => locked
      case LPass => pass
      case LKeys => keys
      case LIdle => idle
      case LCache => cache
      case LActivity => activity
    }

    function With(l: Lock, v: T): PerLock<T> {
      match l
      case LLocked => this.(locked := v)
      case LPass => this.(pass := v)
      case LKeys => this.(keys := v)
      case LIdle => this.(idle := v)
      case LCache => this.(cache := v)
      case LActivity => this.(activity := v)
    }
  }

  /** The guards one task owns. */
  type Guards = PerLock<Hold>

  const NO_GUARDS: Guards := PerLock(Free, Free, Free, Free, Free, Free)

  // ---------------------------------------------------------------------------
  // Requests and program points
  // ---------------------------------------------------------------------------

  type KeyMap = map<string, PrivateKey>

  type Digest = seq<byte>

  /** A request to a session, or one round of a sweeper. A signing request names a key by its digest text. */
  datatype Op =
    | List
    | Sign(digest: string)
    | Encrypt
    | Decrypt
    | Auth
    | OtherExtension
    | Add(fingerprint: string, key: PrivateKey)
    | Remove(fingerprint: string)
    | RemoveAll
    | LockAgent(hash: Digest)
    | UnlockAgent(hash: Digest)
    | IdleSweep
    | CacheSweep

  datatype CheckPc = CheckAcquire | CheckRead
  datatype EnsurePc =
    | EnsureAcquire | EnsureTest | EnsureFlagAcquire | EnsureFlagRead | EnsureLoad
    | StoreAcquire | StoreKeys | StoreFlagAcquire | StoreFlag | StoreFlagRelease | StoreRelease
  datatype AuthPc =
    | FindContext | HitAcquire | HitRead | TouchToGrant | GrantAcquire | GrantStore | TouchOnly | Approve
  datatype SignPc = SignAcquire | SignLookup | SignUse | SignRelease
  datatype EditPc = AddSave | AddAcquire | AddStore | AddRelease | RemoveSave | RemoveAcquire | RemoveStore
  datatype LockPc =
    | LockAcquire | LockTest | LockPassAcquire | LockPassStore | LockKeysAcquire | LockKeysClear
    | LockCacheAcquire | LockCacheClear | LockCacheRelease | LockKeysRelease | LockPassRelease | LockReturn
  datatype UnlockPc =
    | UnlockAcquire | UnlockTest | UnlockPassAcquire | UnlockCompare | UnlockOpen | UnlockWipeAcquire
    | UnlockWipe | UnlockLoad | UnlockKeysAcquire | UnlockKeysStore | UnlockPassRelease | UnlockReturn
  datatype SweepPc =
    | SweepAcquire | SweepRead | SweepElapsed | SweepKeysAcquire | SweepKeys | SweepFlagAcquire | SweepFlag
    | SweepFlagRelease | SweepKeysRelease
    | CacheAcquire | CacheStore

  datatype Pc =
    | Idle
    | AtCheck(c: CheckPc)
    | AtEnsure(e: EnsurePc)
    | ListAcquire | ListRead
    | ActivityAcquire | ActivityStore
    | OpenEnvelope
    | AtAuth(a: AuthPc)
    | AtSign(s: SignPc)
    | AtEdit(d: EditPc)
    | AtLock(l: LockPc)
    | AtUnlock(u: UnlockPc)
    | AtSweep(w: SweepPc)

  /** A task: where it is, the guards it owns and its local variables. `req` identifies the request by the
      position of its arrival in the trace, `keysAt` is the trace length when the task last got the keys guard. */
  datatype Task = Task(
    pc: Pc, op: Op, peer: Option<i32>, guards: Guards, req: nat,
    context: Option<nat>, keysAt: nat, key: Option<PrivateKey>, loaded: KeyMap, last: nat)

  /** The lock a program point waits for, and how. */
  function Wants(pc: Pc): Option<(Lock, Hold)> {
    match pc
    case AtCheck(CheckAcquire) => Some((LLocked, Read))
    case AtEnsure(EnsureAcquire) => Some((LKeys, Read))
    case AtEnsure(EnsureFlagAcquire) => Some((LIdle, Read))
    case AtEnsure(StoreAcquire) => Some((LKeys, Write))
    case AtEnsure(StoreFlagAcquire) => Some((LIdle, Write))
    case ListAcquire => Some((LKeys, Read))
    case ActivityAcquire => Some((LActivity, Write))
    case AtAuth(HitAcquire) => Some((LCache, Read))
    case AtAuth(GrantAcquire) => Some((LCache, Write))
    case AtSign(SignAcquire) => Some((LKeys, Read))
    case AtEdit(AddAcquire) => Some((LKeys, Write))
    case AtEdit(RemoveAcquire) => Some((LKeys, Write))
    case AtLock(LockAcquire) => Some((LLocked, Write))
    case AtLock(LockPassAcquire) => Some((LPass, Write))
    case AtLock(LockKeysAcquire) => Some((LKeys, Write))
    case AtLock(LockCacheAcquire) => Some((LCache, Write))
    case AtUnlock(UnlockAcquire) => Some((LLocked, Write))
    case AtUnlock(UnlockPassAcquire) => Some((LPass, Read))
    case AtUnlock(UnlockWipeAcquire) => Some((LPass, Write))
    case AtUnlock(UnlockKeysAcquire) => Some((LKeys, Write))
    case AtSweep(SweepAcquire) => Some((LActivity, Read))
    case AtSweep(SweepKeysAcquire) => Some((LKeys, Write))
    case AtSweep(SweepFlagAcquire) => Some((LIdle, Write))
    case AtSweep(CacheAcquire) => Some((LCache, Write))
    case _ => None
  }

  /** Where a task goes on once it has the guard it waited for. */
  function AfterAcquire(pc: Pc): Pc
    requires Wants(pc).Some?
  {
    match pc
    case AtCheck(CheckAcquire) => AtCheck(CheckRead)
    case AtEnsure(EnsureAcquire) => AtEnsure(EnsureTest)
    case AtEnsure(EnsureFlagAcquire) => AtEnsure(EnsureFlagRead)
    case AtEnsure(StoreAcquire) => AtEnsure(StoreKeys)
    case AtEnsure(StoreFlagAcquire) => AtEnsure(StoreFlag)
    case ListAcquire => ListRead
    case ActivityAcquire => ActivityStore
    case AtAuth(HitAcquire) => AtAuth(HitRead)
    case AtAuth(GrantAcquire) => AtAuth(GrantStore)
    case AtSign(SignAcquire) => AtSign(SignLookup)
    case AtEdit(AddAcquire) => AtEdit(AddStore)
    case AtEdit(RemoveAcquire) => AtEdit(RemoveStore)
    case AtLock(LockAcquire) => AtLock(LockTest)
    case AtLock(LockPassAcquire) => AtLock(LockPassStore)
    case AtLock(LockKeysAcquire) => AtLock(LockKeysClear)
    case AtLock(LockCacheAcquire) => AtLock(LockCacheClear)
    case AtUnlock(UnlockAcquire) => AtUnlock(UnlockTest)
    case AtUnlock(UnlockPassAcquire) => AtUnlock(UnlockCompare)
    case AtUnlock(UnlockWipeAcquire) => AtUnlock(UnlockWipe)
    case AtUnlock(UnlockKeysAcquire) => AtUnlock(UnlockKeysStore)
    case AtSweep(SweepAcquire) => AtSweep(SweepRead)
    case AtSweep(SweepKeysAcquire) => AtSweep(SweepKeys)
    case AtSweep(SweepFlagAcquire) => AtSweep(SweepFlag)
    case AtSweep(CacheAcquire) => AtSweep(CacheStore)
  }

  function FirstPc(op: Op): Pc {
    match op
    case List | Sign(_) | Encrypt | Decrypt | Auth | OtherExtension | Add(_, _) => AtCheck(CheckAcquire)
    case Remove(_) | RemoveAll => AtEdit(RemoveSave)
    case LockAgent(_) => AtLock(LockAcquire)
    case UnlockAgent(_) => AtUnlock(UnlockAcquire)
    case IdleSweep => AtSweep(SweepAcquire)
    case CacheSweep => AtSweep(CacheAcquire)
  }

  // ---------------------------------------------------------------------------
  // Shared memory, trace and system state
  // ---------------------------------------------------------------------------

  datatype Mode = CacheNone | PerSession | PerApp

  datatype Config = Config(mode: Mode, ttl: AuthCache.Ttl, idleTimeout: nat)

  datatype Shared = Shared(
    locked: bool, pass: Option<Digest>, keys: KeyMap, idleCleared: bool,
    cache: AuthCache.Entries, lastActivity: nat)

  datatype Event =
    | Arrived(t: nat, op: Op, peer: Option<i32>)
    | Started(t: nat, req: nat)
    | Added(t: nat, req: nat, fingerprint: string)
    | Listed(t: nat, req: nat, fingerprints: set<string>)
    | FoundContext(t: nat, req: nat, found: Option<nat>, procs: ProcessTable)
    | Touched(t: nat, req: nat, yes: bool)
    | Hit(t: nat, req: nat, context: nat, fingerprint: string, at: nat)
    | Granted(t: nat, req: nat, context: nat, fingerprint: string, isDecrypt: bool, at: nat, keysAt: nat)
    | Approved(t: nat, req: nat)
    | Signed(t: nat, req: nat)
    | LockSet(t: nat, req: nat, hash: Digest)
    | KeysFlushed(t: nat, req: nat)
    | CacheCleared(t: nat, req: nat)
    | LockReturned(t: nat, req: nat)
    | LockReset(t: nat, req: nat, hash: Digest)
    | UnlockFailed(t: nat, req: nat)
    | KeysReloaded(t: nat)
    | KeysRestored(t: nat, req: nat)
    | KeysIdled(t: nat)
    | CacheSwept(at: nat)

  type Trace = seq<Event>

  datatype System = System(
    tasks: seq<Task>, queues: PerLock<seq<nat>>, shared: Shared, now: nat, procs: ProcessTable, trace: Trace)

  /** What the outside world contributes to a step: the answer to a touch prompt, whether file and
      decryption calls succeed, and the keys read from the key file. */
  datatype Choice = Choice(ok: bool, keys: KeyMap)

  // ---------------------------------------------------------------------------
  // The code between two lock operations
  // ---------------------------------------------------------------------------

  /** What a stretch of code leaves behind. */
  datatype Effect = Effect(task: Task, shared: Shared, event: Option<Event>)

  /** Returning drops every guard and forgets the borrowed key. */
  function Finish(k: Task): Task {
    k.(pc := Idle, guards := NO_GUARDS, key := None, context := None)
  }

  /** The locked check of list, sign, extension and add. */
  function CheckEffect(t: nat, sh: Shared, k: Task): Effect {
    if sh.locked then Effect(Finish(k), sh, None)
    else
      var next :=
        match k.op
        case List | Sign(_) => AtEnsure(EnsureAcquire)
        case Add(_, _) => AtEdit(AddSave)
        case OtherExtension => Idle
        case _ => ActivityAcquire;
      Effect(k.(pc := next, guards := k.guards.(locked := Free)), sh, Some(Started(t, k.req)))
  }

  function AfterEnsure(op: Op): Pc {
    if op.List? then ListAcquire else ActivityAcquire
  }

  function EnsureEffect(t: nat, sh: Shared, k: Task, e: EnsurePc, ch: Choice): Effect {
    match e
    case EnsureTest =>
      var next := if sh.keys != map[] then AfterEnsure(k.op) else AtEnsure(EnsureFlagAcquire);
      Effect(k.(pc := next, guards := k.guards.(keys := Free)), sh, None)
    case EnsureFlagRead =>
      var next := if !sh.idleCleared then AfterEnsure(k.op) else AtEnsure(EnsureLoad);
      Effect(k.(pc := next, guards := k.guards.(idle := Free)), sh, None)
    case EnsureLoad =>
      if ch.ok then Effect(k.(pc := AtEnsure(StoreAcquire), loaded := ch.keys), sh, None)
      else Effect(Finish(k), sh, None)
    case StoreKeys =>
      Effect(k.(pc := AtEnsure(StoreFlagAcquire)), sh.(keys := k.loaded), Some(KeysReloaded(t)))
    case StoreFlag =>
      Effect(k.(pc := AtEnsure(StoreFlagRelease)), sh.(idleCleared := false), None)
    case StoreFlagRelease =>
      Effect(k.(pc := AtEnsure(StoreRelease), guards := k.guards.(idle := Free)), sh, None)
    case StoreRelease =>
      Effect(k.(pc := AfterEnsure(k.op), guards := k.guards.(keys := Free)), sh, None)
    case _ => Effect(k, sh, None)
  }

  /** Recording activity; adding a key does it while it still holds the keys guard. */
  function ActivityEffect(now: nat, sh: Shared, k: Task): Effect {
    var next :=
      match k.op
      case Sign(_) => AtSign(SignAcquire)
      case Add(_, _) => AtEdit(AddRelease)
      case _ => OpenEnvelope;
    Effect(k.(pc := next, guards := k.guards.(activity := Free)), sh.(lastActivity := now), None)
  }

  /** Decrypting the request of an extension with the auth token, which fails for a wrong token. */
  function OpenEffect(sh: Shared, k: Task, ch: Choice): Effect {
    if !ch.ok || !(k.op.Decrypt? || k.op.Auth?) then Effect(Finish(k), sh, None)
    else Effect(k.(pc := AtAuth(if k.op.Auth? then TouchOnly else FindContext)), sh, None)
  }

  function CacheFingerprint(op: Op): string {
    if op.Sign? then FINGERPRINT_PREFIX + op.digest else DECRYPT_FINGERPRINT
  }

  function ContextOf(mode: Mode, peer: Option<i32>, procs: ProcessTable): Option<nat> {
    if mode.CacheNone? || peer.None? then None
    else if mode.PerSession? then Some(TtyOf(procs, peer.value))
    else Some(AppPid(procs, peer.value))
  }

  /** A refused sign gives its guard back first; a refused extension just returns. */
  function Refuse(k: Task): Task {
    if k.op.Sign? then k.(pc := AtSign(SignRelease)) else Finish(k)
  }

  function AuthEffect(c: Config, now: nat, procs: ProcessTable, t: nat, sh: Shared, k: Task, a: AuthPc, ch: Choice): Effect {
    match a
    case FindContext =>
      var context := ContextOf(c.mode, k.peer, procs);
      Effect(k.(pc := AtAuth(if context.None? then TouchOnly else HitAcquire), context := context), sh,
             Some(FoundContext(t, k.req, context, procs)))
    case HitRead =>
      if k.context.Some? && AuthCache.IsAuthorized(sh.cache, k.context.value, CacheFingerprint(k.op), now) then
        Effect(k.(pc := AtAuth(Approve), guards := k.guards.(cache := Free)), sh,
               Some(Hit(t, k.req, k.context.value, CacheFingerprint(k.op), now)))
      else
        Effect(k.(pc := AtAuth(TouchToGrant), guards := k.guards.(cache := Free)), sh, None)
    case TouchToGrant =>
      Effect(if ch.ok then k.(pc := AtAuth(GrantAcquire)) else Refuse(k), sh, Some(Touched(t, k.req, ch.ok)))
    case GrantStore =>
      if k.context.None? then Effect(k, sh, None)
      else
        var cache := AuthCache.AfterGrant(c.ttl, sh.cache, k.context.value, CacheFingerprint(k.op), k.op.Decrypt?, now);
        Effect(k.(pc := AtAuth(Approve), guards := k.guards.(cache := Free)), sh.(cache := cache),
               Some(Granted(t, k.req, k.context.value, CacheFingerprint(k.op), k.op.Decrypt?, now, k.keysAt)))
    case TouchOnly =>
      Effect(if ch.ok then k.(pc := AtAuth(Approve)) else Refuse(k), sh, Some(Touched(t, k.req, ch.ok)))
    case Approve =>
      Effect(if k.op.Sign? then k.(pc := AtSign(SignUse)) else Finish(k), sh, Some(Approved(t, k.req)))
    case _ => Effect(k, sh, None)
  }

  function SignEffect(t: nat, sh: Shared, k: Task, s: SignPc): Effect {
    match s
    case SignLookup =>
      var fp := CacheFingerprint(k.op);
      if fp in sh.keys then Effect(k.(pc := AtAuth(FindContext), key := Some(sh.keys[fp])), sh, None)
      else Effect(k.(pc := AtSign(SignRelease)), sh, None)
    case SignUse => Effect(k.(pc := AtSign(SignRelease)), sh, Some(Signed(t, k.req)))
    case SignRelease => Effect(Finish(k), sh, None)
    case SignAcquire => Effect(k, sh, None)
  }

  function EditEffect(t: nat, sh: Shared, k: Task, d: EditPc, ch: Choice): Effect {
    match d
    case AddSave => Effect(if ch.ok then k.(pc := AtEdit(AddAcquire)) else Finish(k), sh, None)
    case AddStore =>
      if k.op.Add? then Effect(k.(pc := ActivityAcquire), sh.(keys := sh.keys[k.op.fingerprint := k.op.key]),
                             Some(Added(t, k.req, k.op.fingerprint)))
      else Effect(k, sh, None)
    case AddRelease => Effect(Finish(k), sh, None)
    case RemoveSave => Effect(k.(pc := AtEdit(RemoveAcquire)), sh, None)
    case RemoveStore =>
      Effect(Finish(k), sh.(keys := if k.op.Remove? then sh.keys - {k.op.fingerprint} else map[]), None)
    case _ => Effect(k, sh, None)
  }

  function LockEffect(t: nat, sh: Shared, k: Task, l: LockPc, hash: Digest): Effect {
    match l
    case LockTest =>
      if sh.locked then Effect(Finish(k), sh, None)
      else Effect(k.(pc := AtLock(LockPassAcquire)), sh.(locked := true), Some(LockSet(t, k.req, hash)))
    case LockPassStore => Effect(k.(pc := AtLock(LockKeysAcquire)), sh.(pass := Some(hash)), None)
    case LockKeysClear => Effect(k.(pc := AtLock(LockCacheAcquire)), sh.(keys := map[]), Some(KeysFlushed(t, k.req)))
    case LockCacheClear => Effect(k.(pc := AtLock(LockCacheRelease)), sh.(cache := map[]), Some(CacheCleared(t, k.req)))
    case LockCacheRelease => Effect(k.(pc := AtLock(LockKeysRelease), guards := k.guards.(cache := Free)), sh, None)
    case LockKeysRelease => Effect(k.(pc := AtLock(LockPassRelease), guards := k.guards.(keys := Free)), sh, None)
    case LockPassRelease => Effect(k.(pc := AtLock(LockReturn), guards := k.guards.(pass := Free)), sh, None)
    case LockReturn => Effect(Finish(k), sh, Some(LockReturned(t, k.req)))
    case _ => Effect(k, sh, None)
  }

  function UnlockEffect(t: nat, sh: Shared, k: Task, u: UnlockPc, candidate: Digest, ch: Choice): Effect {
    match u
    case UnlockTest =>
      if !sh.locked then Effect(Finish(k), sh, Some(UnlockFailed(t, k.req)))
      else Effect(k.(pc := AtUnlock(UnlockPassAcquire)), sh, None)
    case UnlockCompare =>
      if sh.pass == Some(candidate) then
        Effect(k.(pc := AtUnlock(UnlockOpen), guards := k.guards.(pass := Free)), sh, None)
      else Effect(Finish(k), sh, Some(UnlockFailed(t, k.req)))
    case UnlockOpen =>
      Effect(k.(pc := AtUnlock(UnlockWipeAcquire)), sh.(locked := false), Some(LockReset(t, k.req, candidate)))
    case UnlockWipe => Effect(k.(pc := AtUnlock(UnlockLoad)), sh.(pass := None), None)
    case UnlockLoad =>
      if ch.ok then Effect(k.(pc := AtUnlock(UnlockKeysAcquire), loaded := ch.keys), sh, None)
      else Effect(k.(pc := AtUnlock(UnlockPassRelease)), sh, None)
    case UnlockKeysStore =>
      Effect(k.(pc := AtUnlock(UnlockPassRelease), guards := k.guards.(keys := Free)), sh.(keys := k.loaded),
             Some(KeysRestored(t, k.req)))
    case UnlockPassRelease => Effect(k.(pc := AtUnlock(UnlockReturn), guards := k.guards.(pass := Free)), sh, None)
    case UnlockReturn => Effect(Finish(k), sh, None)
    case _ => Effect(k, sh, None)
  }

  function SweepEffect(c: Config, now: nat, t: nat, sh: Shared, k: Task, w: SweepPc): Effect {
    match w
    case SweepRead =>
      Effect(k.(pc := AtSweep(SweepElapsed), guards := k.guards.(activity := Free), last := sh.lastActivity), sh, None)
    case SweepElapsed =>
      Effect(if now >= k.last + c.idleTimeout then k.(pc := AtSweep(SweepKeysAcquire)) else Finish(k), sh, None)
    case SweepKeys =>
      if sh.keys == map[] then Effect(Finish(k), sh, None)
      else Effect(k.(pc := AtSweep(SweepFlagAcquire)), sh.(keys := map[]), Some(KeysIdled(t)))
    case SweepFlag => Effect(k.(pc := AtSweep(SweepFlagRelease)), sh.(idleCleared := true), None)
    case SweepFlagRelease => Effect(k.(pc := AtSweep(SweepKeysRelease), guards := k.guards.(idle := Free)), sh, None)
    case SweepKeysRelease => Effect(Finish(k), sh, None)
    case CacheStore => Effect(Finish(k), sh.(cache := AuthCache.AfterSweep(sh.cache, now)), Some(CacheSwept(now)))
    case _ => Effect(k, sh, None)
  }

  function LocalEffect(c: Config, now: nat, procs: ProcessTable, t: nat, sh: Shared, k: Task, ch: Choice): Effect {
    match k.pc
    case AtCheck(_) => CheckEffect(t, sh, k)
    case AtEnsure(e) => EnsureEffect(t, sh, k, e, ch)
    case ListRead => Effect(Finish(k), sh, Some(Listed(t, k.req, sh.keys.Keys)))
    case ActivityStore => ActivityEffect(now, sh, k)
    case OpenEnvelope => OpenEffect(sh, k, ch)
    case AtAuth(a) => AuthEffect(c, now, procs, t, sh, k, a, ch)
    case AtSign(s) => SignEffect(t, sh, k, s)
    case AtEdit(d) => EditEffect(t, sh, k, d, ch)
    case AtLock(l) => LockEffect(t, sh, k, l, if k.op.LockAgent? then k.op.hash else [])
    case AtUnlock(u) => UnlockEffect(t, sh, k, u, if k.op.UnlockAgent? then k.op.hash else [], ch)
    case AtSweep(w) => SweepEffect(c, now, t, sh, k, w)
    case _ => Effect(k, sh, None)
  }

  // ---------------------------------------------------------------------------
  // Steps and runs
  // ---------------------------------------------------------------------------

  /** A reader may join readers; a writer must be alone. The tasks include the one that asks. */
  ghost predicate Compatible(s: System, l: Lock, h: Hold) {
    forall u | 0 <= u < |s.tasks| ::
      s.tasks[u].guards.At(l).Free? || (h.Read? && s.tasks[u].guards.At(l).Read?)
  }

  datatype Label =
    | Tick(now: nat)
    | ProcessesChange(procs: ProcessTable)
    | Arrive(t: nat, op: Op)
    | Enqueue(t: nat)
    | Acquire(t: nat)
    | Local(t: nat, choice: Choice)

  /** Requests queue up in order, and only the head of a queue can get the guard: a queued writer blocks
      the readers behind it. */
  ghost predicate Enabled(s: System, a: Label) {
    match a
    case Tick(now) => s.now <= now
    case ProcessesChange(_) => true
    case Arrive(t, op) => t < |s.tasks| && s.tasks[t].pc.Idle?
    case Enqueue(t) =>
      && t < |s.tasks| && Wants(s.tasks[t].pc).Some?
      && t !in s.queues.At(Wants(s.tasks[t].pc).value.0)
    case Acquire(t) =>
      && t < |s.tasks| && Wants(s.tasks[t].pc).Some?
      && var (l, h) := Wants(s.tasks[t].pc).value;
      && s.queues.At(l) != [] && s.queues.At(l)[0] == t && Compatible(s, l, h)
    case Local(t, _) => t < |s.tasks| && !s.tasks[t].pc.Idle? && Wants(s.tasks[t].pc).None?
  }

  function Recorded(tr: Trace, e: Option<Event>): Trace {
    if e.Some? then tr + [e.value] else tr
  }

  ghost function Next(c: Config, s: System, a: Label): System
    requires Enabled(s, a)
  {
    match a
    case Tick(now) => s.(now := now)
    case ProcessesChange(procs) => s.(procs := procs)
    case Arrive(t, op) =>
      s.(tasks := s.tasks[t := s.tasks[t].(pc := FirstPc(op), op := op, req := |s.trace|)],
         trace := s.trace + [Arrived(t, op, s.tasks[t].peer)])
    case Enqueue(t) =>
      var l := Wants(s.tasks[t].pc).value.0;
      s.(queues := s.queues.With(l, s.queues.At(l) + [t]))
    case Acquire(t) =>
      var k := s.tasks[t];
      var (l, h) := Wants(k.pc).value;
      s.(queues := s.queues.With(l, s.queues.At(l)[1..]),
         tasks := s.tasks[t := k.(pc := AfterAcquire(k.pc), guards := k.guards.With(l, h),
                                  keysAt := if l.LKeys? then |s.trace| else k.keysAt)])
    case Local(t, ch) =>
      var e := LocalEffect(c, s.now, s.procs, t, s.shared, s.tasks[t], ch);
      s.(tasks := s.tasks[t := e.task], shared := e.shared, trace := Recorded(s.trace, e.event))
  }

  /** A starting agent: nobody is doing anything, nobody waits, and the agent is unlocked. */
  ghost predicate Init(s: System) {
    && (forall t | 0 <= t < |s.tasks| ::
          s.tasks[t].pc.Idle? && s.tasks[t].guards == NO_GUARDS && s.tasks[t].key.None? && s.tasks[t].context.None?)
    && s.queues == PerLock([], [], [], [], [], [])
    && !s.shared.locked && s.shared.pass.None? && !s.shared.idleCleared && s.shared.cache == map[]
    && s.trace == []
  }

  /** The state after a schedule, if every step of it was possible. */
  ghost function Exec(c: Config, s: System, labels: seq<Label>): Option<System> {
    if labels == [] then Some(s)
    else
      var before := Exec(c, s, labels[..|labels| - 1]);
      var a := labels[|labels| - 1];
      if before.Some? && Enabled(before.value, a) then Some(Next(c, before.value, a)) else None
  }
}
