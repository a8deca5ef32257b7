/**
 The agent taken one request at a time, together with the key file it alone writes: how the keys in memory relate
 to the keys on disk through idle clears, locks, reloads and edits.
 */
module Agent {
  import opened Common
  import opened KeyFile

  type Keys = map<string, PrivateKey>

  /** The library code the agent calls; `hash` is that of lock passphrases. */
  datatype AgentLib = AgentLib(keyLib: KeyLib, hash: string -> seq<byte>)

  datatype AgentState = AgentState(
    keys: Keys, locked: bool, lockHash: Option<seq<byte>>, idleCleared: bool, disk: Disk)

  datatype Request =
    | List
    | Sign(material: KeyMaterial, approved: bool)   // `approved`: the outcome of the authorization check
    | Add(key: PrivateKey)
    | Remove(material: KeyMaterial)
    | RemoveAll
    | Lock(passphrase: string)
    | Unlock(passphrase: string)
    | IdleSweep                                     // with the idle timeout elapsed

  datatype Response = Identities(keys: Keys) | Signed(key: PrivateKey) | Done | Failure

  // ---------------------------------------------------------------------------
  // What each request does
  // ---------------------------------------------------------------------------

  /** The map of all entries that can be parsed; a later entry for the same fingerprint wins. */
  function KeysOf(lib: KeyLib, es: seq<KeyEntry>): Keys {
    if es == [] then map[]
    else
      var rest := KeysOf(lib, es[..|es| - 1]);
      var e := es[|es| - 1];
      match lib.parse(e.keyData)
      case Some(key) => rest[e.fingerprint := key]
      case None => rest
  }

  /** The state after making sure keys are loaded, unless the file cannot be read. */
  function EnsureLoaded(lib: AgentLib, s: AgentState, io: Io): Result<AgentState> {
    if s.keys != map[] || !s.idleCleared then Ok(s)
    else
      match Loaded(s.disk, io)
      case Err(m) => Err(m)
      case Ok(es) => Ok(s.(keys := KeysOf(lib.keyLib, es), idleCleared := false))
  }

  function SignWith(lib: AgentLib, keys: Keys, material: KeyMaterial, approved: bool): Response {
    var fp := lib.keyLib.fingerprint(material);
    if fp !in keys || !approved || !lib.keyLib.supported(keys[fp].material) then Failure else Signed(keys[fp])
  }

  function Apply(lib: AgentLib, s: AgentState, r: Request, io: Io): (AgentState, Response) {
    match r
    case List =>
      if s.locked then (s, Identities(map[]))
      else (match EnsureLoaded(lib, s, io) case Ok(t) => (t, Identities(t.keys)) case Err(_) => (s, Failure))
    case Sign(material, approved) =>
      if s.locked then (s, Failure)
      else
        (match EnsureLoaded(lib, s, io)
         case Ok(t) => (t, SignWith(lib, t.keys, material, approved))
         case Err(_) => (s, Failure))
    case Add(key) =>
      if s.locked then (s, Failure)
      else
        (match Edited(lib.keyLib, s.disk, AgentAdd(key), io)
         case (disk, Ok(_)) =>
           (s.(disk := disk, keys := s.keys[lib.keyLib.fingerprint(key.material) := key]), Done)
         case (disk, Err(_)) => (s.(disk := disk), Failure))
    case Remove(material) =>
      (s.(disk := Edited(lib.keyLib, s.disk, AgentRemove(material), io).0,
          keys := s.keys - {lib.keyLib.fingerprint(material)}), Done)
    case RemoveAll =>
      (s.(disk := Edited(lib.keyLib, s.disk, AgentRemoveAll, io).0, keys := map[]), Done)
    case Lock(passphrase) =>
      if s.locked then (s, Failure)
      else (s.(locked := true, lockHash := Some(lib.hash(passphrase)), keys := map[]), Done)
    case Unlock(passphrase) =>
      if !s.locked || s.lockHash != Some(lib.hash(passphrase)) then (s, Failure)
      else
        var keys := match Loaded(s.disk, io) case Ok(es) => KeysOf(lib.keyLib, es) case Err(_) => s.keys;
        (s.(locked := false, lockHash := None, keys := keys), Done)
    case IdleSweep =>
      if s.keys == map[] then (s, Done) else (s.(keys := map[], idleCleared := true), Done)
  }

  // ---------------------------------------------------------------------------
  // The agent
  // ---------------------------------------------------------------------------

  class VtAgent {
    const lib: AgentLib
    const file: File
    var keys: Keys
    var locked: bool
    var lockPassphrase: Option<seq<byte>>
    var idleCleared: bool

    ghost function State(): AgentState
      reads this, file
    {
      AgentState(keys, locked, lockPassphrase, idleCleared, file.disk)
    }

    /** Starting up needs a readable key file. */
    constructor (lib: AgentLib, file: File, loaded: Keys)
      requires Loaded(file.disk, Io(true, true)).Ok?
      requires loaded == KeysOf(lib.keyLib, Loaded(file.disk, Io(true, true)).value)
      ensures this.lib == lib && this.file == file && Initial(lib, State())
    {
      this.lib := lib;
      this.file := file;
      keys := loaded;
      locked := false;
      lockPassphrase := None;
      idleCleared := false;
    }

    method LoadAllKeys(io: Io) returns (r: Result<Keys>)
      ensures r == match Loaded(file.disk, io) case Ok(es) => Ok(KeysOf(lib.keyLib, es)) case Err(m) => Err(m)
    {
      var entries := Loaded(file.disk, io);
      if entries.Err? { return Err(entries.message); }
      var es := entries.value;
      var loaded: Keys := map[];
      for i := 0 to |es|
        invariant loaded == KeysOf(lib.keyLib, es[..i])
      {
        assert es[..i + 1][..i] == es[..i];
        var key := lib.keyLib.parse(es[i].keyData);
        if key.Some? { loaded := loaded[es[i].fingerprint := key.value]; }
      }
      assert es[..|es|] == es;
      return Ok(loaded);
    }

    method EnsureKeysLoaded(io: Io) returns (ok: bool)
      modifies this
      ensures match EnsureLoaded(lib, old(State()), io)
              case Ok(t) => ok && State() == t
              case Err(_) => !ok && State() == old(State())
    {
      if keys != map[] { return true; }
      if !idleCleared { return true; }
      var loaded := LoadAllKeys(io);
      if loaded.Err? { return false; }
      keys := loaded.value;
      idleCleared := false;
      return true;
    }

    method RequestIdentities(io: Io) returns (response: Response)
      modifies this
      ensures (State(), response) == Apply(lib, old(State()), List, io)
    {
      if locked { return Identities(map[]); }
      var ok := EnsureKeysLoaded(io);
      return if ok then Identities(keys) else Failure;
    }

    method SignRequest(material: KeyMaterial, approved: bool, io: Io) returns (response: Response)
      modifies this
      ensures (State(), response) == Apply(lib, old(State()), Sign(material, approved), io)
    {
      if locked { return Failure; }
      var ok := EnsureKeysLoaded(io);
      if !ok { return Failure; }
      var fp := lib.keyLib.fingerprint(material);
      if fp !in keys { return Failure; }
      var key := keys[fp];
      if !approved { return Failure; }
      if !lib.keyLib.supported(key.material) { return Failure; }
      return Signed(key);
    }

    method AddIdentity(key: PrivateKey, io: Io) returns (response: Response)
      modifies this, file
      ensures (State(), response) == Apply(lib, old(State()), Add(key), io)
    {
      if locked { return Failure; }
      var added := file.AddFromAgent(lib.keyLib, key, io);
      if added.Err? { return Failure; }
      keys := keys[lib.keyLib.fingerprint(key.material) := key];
      return Done;
    }

    method RemoveIdentity(material: KeyMaterial, io: Io) returns (response: Response)
      modifies this, file
      ensures (State(), response) == Apply(lib, old(State()), Remove(material), io)
    {
      file.RemoveFromAgent(lib.keyLib, material, io);
      keys := keys - {lib.keyLib.fingerprint(material)};
      return Done;
    }

    method RemoveAllIdentities(io: Io) returns (response: Response)
      modifies this, file
      ensures (State(), response) == Apply(lib, old(State()), RemoveAll, io)
    {
      file.RemoveAllFromAgent(lib.keyLib, io);
      keys := map[];
      return Done;
    }

    method LockAgent(passphrase: string, io: Io) returns (response: Response)
      modifies this
      ensures (State(), response) == Apply(lib, old(State()), Lock(passphrase), io)
    {
      if locked { return Failure; }
      locked := true;
      lockPassphrase := Some(lib.hash(passphrase));
      keys := map[];
      return Done;
    }

    method UnlockAgent(passphrase: string, io: Io) returns (response: Response)
      modifies this
      ensures (State(), response) == Apply(lib, old(State()), Unlock(passphrase), io)
    {
      if !locked { return Failure; }
      var candidate := lib.hash(passphrase);
      if lockPassphrase.None? || lockPassphrase.value != candidate { return Failure; }
      locked := false;
      lockPassphrase := None;
      var loaded := LoadAllKeys(io);
      if loaded.Ok? { keys := loaded.value; }
      return Done;
    }

    method SweepIdle(io: Io) returns (response: Response)
      modifies this
      ensures (State(), response) == Apply(lib, old(State()), IdleSweep, io)
    {
      if keys != map[] {
        keys := map[];
        idleCleared := true;
      }
      return Done;
    }
  }

  // ---------------------------------------------------------------------------
  // Memory and disk
  // ---------------------------------------------------------------------------

  function EntriesOf(disk: Disk): seq<KeyEntry> {
    if disk.Entries? then disk.entries else []
  }

  function Fingerprints(es: seq<KeyEntry>): set<string> {
    set e | e in es :: e.fingerprint
  }

  function DiskKeys(s: AgentState): set<string> {
    Fingerprints(EntriesOf(s.disk))
  }

  ghost predicate Initial(lib: AgentLib, s: AgentState) {
    && !s.locked && s.lockHash.None? && !s.idleCleared && !s.disk.Unreadable?
    && s.keys == KeysOf(lib.keyLib, EntriesOf(s.disk))
  }

  /** Fingerprints belong to their keys, in memory and on disk; a locked agent has no keys in memory, as long as no
      other request is under way when the lock comes (AgentLockedMemory says what can happen then). */
  ghost predicate Valid(lib: AgentLib, s: AgentState) {
    && !s.disk.Unreadable? && Kept(lib.keyLib, EntriesOf(s.disk))
    && (forall fp | fp in s.keys :: lib.keyLib.fingerprint(s.keys[fp].material) == fp)
    && (s.locked <==> s.lockHash.Some?)
    && (s.locked ==> s.keys == map[])
  }

  /** What loading a well-kept file gives. */
  lemma {:induction false} KeysOfKept(lib: KeyLib, es: seq<KeyEntry>)
    requires Kept(lib, es)
    ensures KeysOf(lib, es).Keys == Fingerprints(es)
    ensures forall fp | fp in KeysOf(lib, es) :: lib.fingerprint(KeysOf(lib, es)[fp].material) == fp
  {
    if es != [] {
      var n := |es| - 1;
      assert es[n] in es;
      assert es == es[..n] + [es[n]];
      KeysOfKept(lib, es[..n]);
      assert Fingerprints(es) == Fingerprints(es[..n]) + {es[n].fingerprint};
    }
  }

  lemma FingerprintsWithout(es: seq<KeyEntry>, fp: string)
    ensures Fingerprints(Without(es, fp)) == Fingerprints(es) - {fp}
  {
    forall e ensures e in Without(es, fp) <==> e in es && e.fingerprint != fp { WithoutMembers(es, fp, e); }
    forall x | x in Fingerprints(es) - {fp} ensures x in Fingerprints(Without(es, fp)) {
      var e :| e in es && e.fingerprint == x;
      assert e in Without(es, fp);
    }
  }

  lemma FingerprintsAppend(es: seq<KeyEntry>, e: KeyEntry)
    ensures Fingerprints(es + [e]) == Fingerprints(es) + {e.fingerprint}
  {
  }

  const WORKING := Io(true, true)

  /** The agent accepts this key. */
  predicate Accepted(lib: AgentLib, s: AgentState, r: Request) {
    r.Add? && !s.locked && lib.keyLib.supported(r.key.material) && lib.keyLib.write(r.key).Some?
  }

  function AddedFp(lib: AgentLib, r: Request): string
    requires r.Add?
  {
    lib.keyLib.fingerprint(r.key.material)
  }

  lemma DiskKeysAfterAdd(lib: AgentLib, s: AgentState, r: Request, io: Io)
    requires !s.disk.Unreadable? && io.readable && Accepted(lib, s, r)
    ensures DiskKeys(Apply(lib, s, r, io).0) == if io.writable then DiskKeys(s) + {AddedFp(lib, r)} else DiskKeys(s)
  {
    FingerprintsAppend(EntriesOf(s.disk), EntryFor(lib.keyLib, r.key, lib.keyLib.write(r.key).value));
  }

  /** The disk's fingerprints after a request, when reading works. */
  lemma DiskKeysAfter(lib: AgentLib, s: AgentState, r: Request, io: Io)
    requires Valid(lib, s) && io.readable
    ensures DiskKeys(Apply(lib, s, r, io).0) ==
      if !io.writable then DiskKeys(s)
      else if Accepted(lib, s, r) then DiskKeys(s) + {AddedFp(lib, r)}
      else if r.Remove? then DiskKeys(s) - {lib.keyLib.fingerprint(r.material)}
      else if r.RemoveAll? then {}
      else DiskKeys(s)
  {
    if Accepted(lib, s, r) {
      DiskKeysAfterAdd(lib, s, r, io);
    } else if r.Remove? {
      FingerprintsWithout(EntriesOf(s.disk), lib.keyLib.fingerprint(r.material));
    }
  }

  lemma StepKeepsDisk(lib: AgentLib, s: AgentState, r: Request, io: Io)
    requires Sound(lib.keyLib) && Valid(lib, s)
    ensures var t := Apply(lib, s, r, io).0; !t.disk.Unreadable? && Kept(lib.keyLib, EntriesOf(t.disk))
  {
    assert DiskKept(lib.keyLib, s.disk);
    match r
    case Add(key) => EditKeepsKept(lib.keyLib, s.disk, AgentAdd(key), io);
    case Remove(material) => EditKeepsKept(lib.keyLib, s.disk, AgentRemove(material), io);
    case _ =>
  }

  lemma StepKeepsValid(lib: AgentLib, s: AgentState, r: Request, io: Io)
    requires Sound(lib.keyLib) && Valid(lib, s)
    ensures Valid(lib, Apply(lib, s, r, io).0)
  {
    StepKeepsDisk(lib, s, r, io);
    KeysOfKept(lib.keyLib, EntriesOf(s.disk));
    match r
    case List => case Sign(_, _) => case Add(_) => case Remove(_) => case RemoveAll =>
    case Lock(_) => case Unlock(_) => case IdleSweep =>
  }

  /** Every key in memory is on disk with the same key material. */
  ghost predicate Backed(lib: AgentLib, s: AgentState) {
    forall fp | fp in s.keys :: exists e :: e in EntriesOf(s.disk) && Holds(lib, e, fp, s.keys[fp])
  }

  ghost predicate Holds(lib: AgentLib, e: KeyEntry, fp: string, key: PrivateKey) {
    e.fingerprint == fp && lib.keyLib.parse(e.keyData).Some?
    && lib.keyLib.parse(e.keyData).value.material == key.material
  }

  /** For well-kept states that is only a matter of fingerprints. */
  lemma BackedByFingerprints(lib: AgentLib, s: AgentState)
    requires Sound(lib.keyLib) && Valid(lib, s)
    ensures Backed(lib, s) <==> s.keys.Keys <= DiskKeys(s)
  {
    if s.keys.Keys <= DiskKeys(s) {
      forall fp | fp in s.keys ensures exists e :: e in EntriesOf(s.disk) && Holds(lib, e, fp, s.keys[fp]) {
        assert fp in DiskKeys(s);
        var e :| e in EntriesOf(s.disk) && e.fingerprint == fp;
        assert Holds(lib, e, fp, s.keys[fp]);
      }
    } else {
      var fp :| fp in s.keys && fp !in DiskKeys(s);
      forall e | e in EntriesOf(s.disk) ensures !Holds(lib, e, fp, s.keys[fp]) {
        assert e.fingerprint in DiskKeys(s);
      }
    }
  }

  /** The request rewrites the key file without having been able to read it, while memory holds other keys. */
  ghost predicate ForgetsFile(lib: AgentLib, s: AgentState, r: Request, io: Io) {
    && s.disk.Entries? && !io.readable && io.writable
    && ((Accepted(lib, s, r) && exists k | k in s.keys :: k != AddedFp(lib, r))
        || (r.Remove? && exists k | k in s.keys :: k != lib.keyLib.fingerprint(r.material)))
  }

  /** One step keeps memory backed by disk if and only if it does not forget the file; failing saves never
      matter. */
  lemma BackedStep(lib: AgentLib, s: AgentState, r: Request, io: Io)
    requires Sound(lib.keyLib) && Valid(lib, s) && Backed(lib, s)
    ensures Backed(lib, Apply(lib, s, r, io).0) <==> !ForgetsFile(lib, s, r, io)
  {
    var t := Apply(lib, s, r, io).0;
    StepKeepsValid(lib, s, r, io);
    BackedByFingerprints(lib, s);
    BackedByFingerprints(lib, t);
    BackedKeysStep(lib, s, r, io);
  }

  lemma BackedKeysStep(lib: AgentLib, s: AgentState, r: Request, io: Io)
    requires Sound(lib.keyLib) && Valid(lib, s) && s.keys.Keys <= DiskKeys(s)
    ensures var t := Apply(lib, s, r, io).0; t.keys.Keys <= DiskKeys(t) <==> !ForgetsFile(lib, s, r, io)
  {
    if io.readable {
      BackedWhenRead(lib, s, r, io);
    } else if s.disk.Missing? {
      MissingIsReadable(lib, s, r, io);
      BackedWhenRead(lib, s, r, io.(readable := true));
    } else if Accepted(lib, s, r) {
      AddedUnread(lib, s, r, io);
    } else if r.Remove? {
      RemovedUnread(lib, s, r, io);
    } else {
      match r
      case List => case Sign(_, _) => case Add(_) => case RemoveAll =>
      case Lock(_) => case Unlock(_) => case IdleSweep =>
    }
  }

  lemma MissingIsReadable(lib: AgentLib, s: AgentState, r: Request, io: Io)
    requires s.disk.Missing?
    ensures Apply(lib, s, r, io) == Apply(lib, s, r, io.(readable := true))
  {
    assert Loaded(s.disk, io) == Loaded(s.disk, io.(readable := true));
  }

  lemma BackedWhenRead(lib: AgentLib, s: AgentState, r: Request, io: Io)
    requires Sound(lib.keyLib) && Valid(lib, s) && s.keys.Keys <= DiskKeys(s) && io.readable
    ensures var t := Apply(lib, s, r, io).0; t.keys.Keys <= DiskKeys(t)
  {
    DiskKeysAfter(lib, s, r, io);
    match r
    case List | Sign(_, _) | Unlock(_) => KeysOfKept(lib.keyLib, EntriesOf(s.disk));
    case Add(_) => case Remove(_) => case RemoveAll => case Lock(_) => case IdleSweep =>
  }

  lemma AddedUnread(lib: AgentLib, s: AgentState, r: Request, io: Io)
    requires s.disk.Entries? && !io.readable && s.keys.Keys <= DiskKeys(s) && Accepted(lib, s, r)
    ensures var t := Apply(lib, s, r, io).0;
      t.keys.Keys <= DiskKeys(t) <==> !(io.writable && exists k | k in s.keys :: k != AddedFp(lib, r))
  {
    var e := EntryFor(lib.keyLib, r.key, lib.keyLib.write(r.key).value);
    assert Fingerprints([e]) == {e.fingerprint};
    var t := Apply(lib, s, r, io).0;
    if io.writable {
      assert t.disk == Entries([e]) && t.keys.Keys == s.keys.Keys + {AddedFp(lib, r)};
    }
  }

  lemma RemovedUnread(lib: AgentLib, s: AgentState, r: Request, io: Io)
    requires s.disk.Entries? && !io.readable && s.keys.Keys <= DiskKeys(s) && r.Remove?
    ensures var t := Apply(lib, s, r, io).0;
      t.keys.Keys <= DiskKeys(t)
      <==> !(io.writable && exists k | k in s.keys :: k != lib.keyLib.fingerprint(r.material))
  {
    var t := Apply(lib, s, r, io).0;
    var fp := lib.keyLib.fingerprint(r.material);
    assert t.keys.Keys == s.keys.Keys - {fp};
    if io.writable {
      assert t.disk == Entries([]) && DiskKeys(t) == {};
      forall k | k in s.keys && k != fp ensures k in t.keys.Keys {}
    }
  }

  // ---------------------------------------------------------------------------
  // Runs
  // ---------------------------------------------------------------------------

  function After(lib: AgentLib, s: AgentState, rs: seq<Request>): AgentState {
    if rs == [] then s
    else Apply(lib, After(lib, s, rs[..|rs| - 1]), rs[|rs| - 1], WORKING).0
  }

  lemma {:induction false} AfterKeepsValid(lib: AgentLib, s: AgentState, rs: seq<Request>)
    requires Sound(lib.keyLib) && Valid(lib, s)
    ensures Valid(lib, After(lib, s, rs))
  {
    if rs != [] {
      var n := |rs| - 1;
      AfterKeepsValid(lib, s, rs[..n]);
      StepKeepsValid(lib, After(lib, s, rs[..n]), rs[n], WORKING);
    }
  }

  lemma RunKeepsValid(lib: AgentLib, s: AgentState, rs: seq<Request>)
    requires Sound(lib.keyLib) && Initial(lib, s) && Kept(lib.keyLib, EntriesOf(s.disk))
    ensures Valid(lib, After(lib, s, rs))
  {
    KeysOfKept(lib.keyLib, EntriesOf(s.disk));
    AfterKeepsValid(lib, s, rs);
  }

  /** Memory and disk hold the same fingerprints, unless the agent is locked or still thinks of itself as
      cleared. */
  predicate Agrees(s: AgentState) {
    && s.keys.Keys <= DiskKeys(s)
    && (!s.locked && !s.idleCleared ==> s.keys.Keys == DiskKeys(s))
  }

  lemma AgreesStep(lib: AgentLib, s: AgentState, r: Request)
    requires Sound(lib.keyLib) && Valid(lib, s) && Agrees(s)
    ensures Agrees(Apply(lib, s, r, WORKING).0)
  {
    KeysOfKept(lib.keyLib, EntriesOf(s.disk));
    DiskKeysAfter(lib, s, r, WORKING);
    match r
    case List => case Sign(_, _) => case Add(_) => case Remove(_) => case RemoveAll =>
    case Lock(_) => case Unlock(_) => case IdleSweep =>
  }

  /** With working I/O, in every reachable state each key in memory is on disk with the same key material, and an
      unlocked agent that was not idle-cleared has exactly the keys on disk. */
  lemma {:induction false} MemoryAgreesWithDisk(lib: AgentLib, s: AgentState, rs: seq<Request>)
    requires Sound(lib.keyLib) && Initial(lib, s) && Kept(lib.keyLib, EntriesOf(s.disk))
    ensures var t := After(lib, s, rs);
      Backed(lib, t) && Agrees(t)
  {
    RunKeepsValid(lib, s, rs);
    if rs == [] {
      KeysOfKept(lib.keyLib, EntriesOf(s.disk));
    } else {
      var n := |rs| - 1;
      RunKeepsValid(lib, s, rs[..n]);
      MemoryAgreesWithDisk(lib, s, rs[..n]);
      AgreesStep(lib, After(lib, s, rs[..n]), rs[n]);
    }
    BackedByFingerprints(lib, After(lib, s, rs));
  }

  // ---------------------------------------------------------------------------
  // Idle clears
  // ---------------------------------------------------------------------------

  /** An unlocked list or sign would work on exactly the keys on disk. */
  ghost predicate WorksOnDisk(lib: AgentLib, s: AgentState) {
    EnsureLoaded(lib, s, WORKING).Ok? && EnsureLoaded(lib, s, WORKING).value.keys.Keys == DiskKeys(s)
  }

  predicate Transparent(s: AgentState) {
    !s.locked ==> (s.keys == map[] && s.idleCleared) || s.keys.Keys == DiskKeys(s)
  }

  lemma TransparentMeansWorks(lib: AgentLib, s: AgentState)
    requires Valid(lib, s) && !s.locked
    ensures Transparent(s) <==> WorksOnDisk(lib, s)
  {
    KeysOfKept(lib.keyLib, EntriesOf(s.disk));
    assert Loaded(s.disk, WORKING) == Ok(EntriesOf(s.disk));
  }

  /** What such a request answers: all keys on disk are listed, and exactly those can sign. */
  lemma WorkingAnswers(lib: AgentLib, s: AgentState, material: KeyMaterial)
    requires Sound(lib.keyLib) && Valid(lib, s) && !s.locked && WorksOnDisk(lib, s)
    ensures var listed := Apply(lib, s, List, WORKING).1; listed.Identities? && listed.keys.Keys == DiskKeys(s)
    ensures var signed := Apply(lib, s, Sign(material, true), WORKING).1;
      if lib.keyLib.fingerprint(material) in DiskKeys(s) && lib.keyLib.supported(material)
      then signed.Signed? && signed.key.material == material
      else signed == Failure
  {
    KeysOfKept(lib.keyLib, EntriesOf(s.disk));
  }

  /** Adding a key to a cleared map while the disk holds another one: the map is no longer empty, so the others
      are never reloaded. */
  predicate HidesKeys(lib: AgentLib, s: AgentState, r: Request) {
    Accepted(lib, s, r) && s.keys == map[] && s.idleCleared && !(DiskKeys(s) <= {AddedFp(lib, r)})
  }

  /** One step keeps idle clears invisible if and only if it is not such an add. */
  lemma TransparentStep(lib: AgentLib, s: AgentState, r: Request)
    requires Sound(lib.keyLib) && Valid(lib, s) && Transparent(s)
    ensures Transparent(Apply(lib, s, r, WORKING).0) <==> !HidesKeys(lib, s, r)
  {
    KeysOfKept(lib.keyLib, EntriesOf(s.disk));
    DiskKeysAfter(lib, s, r, WORKING);
    match r
    case List => case Sign(_, _) => case Remove(_) => case RemoveAll =>
    case Add(_) => if Accepted(lib, s, r) { AddToTransparent(lib, s, r); }
    case Lock(_) => case Unlock(_) => case IdleSweep =>
  }

  lemma AddToTransparent(lib: AgentLib, s: AgentState, r: Request)
    requires Valid(lib, s) && Transparent(s) && Accepted(lib, s, r)
    ensures Transparent(Apply(lib, s, r, WORKING).0) <==> !HidesKeys(lib, s, r)
  {
    var t := Apply(lib, s, r, WORKING).0;
    DiskKeysAfter(lib, s, r, WORKING);
    assert AddedFp(lib, r) in t.keys;
    assert t.keys.Keys == s.keys.Keys + {AddedFp(lib, r)};
  }

  /** Keys were cleared by the sweeper and no unlocked list or sign has come since. */
  predicate Pending(lib: AgentLib, s: AgentState, rs: seq<Request>) {
    if rs == [] then false
    else
      var n := |rs| - 1;
      var before := After(lib, s, rs[..n]);
      match rs[n]
      case IdleSweep => before.keys != map[] || Pending(lib, s, rs[..n])
      case List | Sign(_, _) => before.locked && Pending(lib, s, rs[..n])
      case _ => Pending(lib, s, rs[..n])
  }

  ghost predicate NoAddWhilePending(lib: AgentLib, s: AgentState, rs: seq<Request>) {
    forall i | 0 <= i < |rs| && rs[i].Add? :: !Pending(lib, s, rs[..i])
  }

  /** Holds along such runs: what is not pending is not missing anything either. */
  predicate Settled(t: AgentState, pending: bool) {
    Transparent(t) && (!t.locked && !pending ==> t.keys.Keys == DiskKeys(t))
  }

  lemma SettledStep(lib: AgentLib, s: AgentState, r: Request, was: bool, now: bool)
    requires Sound(lib.keyLib) && Valid(lib, s) && Settled(s, was)
    requires r.Add? ==> !was
    requires now == (match r
                     case IdleSweep => s.keys != map[] || was
                     case List | Sign(_, _) => s.locked && was
                     case _ => was)
    ensures Settled(Apply(lib, s, r, WORKING).0, now)
  {
    TransparentStep(lib, s, r);
    KeysOfKept(lib.keyLib, EntriesOf(s.disk));
    DiskKeysAfter(lib, s, r, WORKING);
    match r
    case List => case Sign(_, _) => case Remove(_) => case RemoveAll =>
    case Add(_) => case Lock(_) => case Unlock(_) => case IdleSweep =>
  }

  lemma {:induction false} RunSettles(lib: AgentLib, s: AgentState, rs: seq<Request>)
    requires Sound(lib.keyLib) && Initial(lib, s) && Kept(lib.keyLib, EntriesOf(s.disk))
    requires NoAddWhilePending(lib, s, rs)
    ensures Settled(After(lib, s, rs), Pending(lib, s, rs))
  {
    if rs == [] {
      KeysOfKept(lib.keyLib, EntriesOf(s.disk));
    } else {
      var n := |rs| - 1;
      assert NoAddWhilePending(lib, s, rs[..n]) by {
        forall i | 0 <= i < n && rs[..n][i].Add? ensures !Pending(lib, s, rs[..n][..i]) {
          assert rs[..n][..i] == rs[..i];
        }
      }
      RunKeepsValid(lib, s, rs[..n]);
      RunSettles(lib, s, rs[..n]);
      SettledStep(lib, After(lib, s, rs[..n]), rs[n], Pending(lib, s, rs[..n]), Pending(lib, s, rs));
    }
  }

  /** Idle clears are invisible: in every run in which no add falls between an idle clear and the next unlocked
      list or sign, an unlocked list or sign works on exactly the keys on disk, whatever locks, unlocks and
      removals lie in between. */
  lemma IdleClearIsTransparent(lib: AgentLib, s: AgentState, rs: seq<Request>)
    requires Sound(lib.keyLib) && Initial(lib, s) && Kept(lib.keyLib, EntriesOf(s.disk))
    requires NoAddWhilePending(lib, s, rs) && !After(lib, s, rs).locked
    ensures WorksOnDisk(lib, After(lib, s, rs))
  {
    RunSettles(lib, s, rs);
    RunKeepsValid(lib, s, rs);
    TransparentMeansWorks(lib, After(lib, s, rs));
  }

  /** The add that breaks it: with any other key on disk, after an idle clear and one accepted add a listing
      shows the added key alone, again and again. */
  lemma AddAfterIdleClearHides(lib: AgentLib, s: AgentState, key: PrivateKey)
    requires Sound(lib.keyLib) && Initial(lib, s) && Kept(lib.keyLib, EntriesOf(s.disk))
    requires Accepted(lib, s, Add(key)) && !(DiskKeys(s) <= {AddedFp(lib, Add(key))})
    ensures var t := After(lib, s, [IdleSweep, Add(key)]);
      Apply(lib, t, List, WORKING) == (t, Identities(map[AddedFp(lib, Add(key)) := key])) && !WorksOnDisk(lib, t)
  {
    KeysOfKept(lib.keyLib, EntriesOf(s.disk));
    var a := [IdleSweep, Add(key)];
    assert a[..1] == [IdleSweep] && a[..1][..0] == [];
    var s1 := After(lib, s, [IdleSweep]);
    assert After(lib, s, [IdleSweep][..0]) == s;
    assert s1 == s.(keys := map[], idleCleared := true);
    RunKeepsValid(lib, s, [IdleSweep]);
    RunKeepsValid(lib, s, a);
    TransparentStep(lib, s1, Add(key));
    TransparentMeansWorks(lib, After(lib, s, a));
  }

  /** An unlock refills the map but leaves the idle flag up: after a sweep, a lock and its unlock the agent has all its
      keys back and still counts as cleared. */
  lemma UnlockLeavesIdleFlag(lib: AgentLib, s: AgentState, passphrase: string)
    requires Initial(lib, s) && s.keys != map[]
    ensures After(lib, s, [IdleSweep, Lock(passphrase), Unlock(passphrase)]) == s.(idleCleared := true)
  {
    var rs := [IdleSweep, Lock(passphrase), Unlock(passphrase)];
    assert rs[..2] == [IdleSweep, Lock(passphrase)] && rs[..2][..1] == [IdleSweep] && rs[..2][..1][..0] == [];
    assert After(lib, s, rs[..2][..1]) == s.(keys := map[], idleCleared := true);
  }

  /** Unlocking while the file cannot be read leaves an unlocked agent without keys; it recovers by itself only
      if the sweeper had cleared before, since only then does the next request reload. */
  lemma UnlockWithoutFile(lib: AgentLib, s: AgentState, passphrase: string)
    requires Sound(lib.keyLib) && Valid(lib, s) && s.locked && s.lockHash == Some(lib.hash(passphrase))
    requires s.disk.Entries?
    ensures var t := Apply(lib, s, Unlock(passphrase), Io(false, true)).0;
      !t.locked && t.keys == map[] && (WorksOnDisk(lib, t) <==> s.idleCleared || DiskKeys(s) == {})
  {
    KeysOfKept(lib.keyLib, EntriesOf(s.disk));
  }

  // ---------------------------------------------------------------------------
  // Locking
  // ---------------------------------------------------------------------------

  ghost predicate NoSuchUnlock(lib: AgentLib, passphrase: string, rs: seq<Request>) {
    forall i | 0 <= i < |rs| && rs[i].Unlock? :: lib.hash(rs[i].passphrase) != lib.hash(passphrase)
  }

  /** A locked agent stays locked under the same hash through any requests without an unlock of that hash. */
  lemma {:induction false} StaysLocked(lib: AgentLib, s: AgentState, passphrase: string, rs: seq<Request>)
    requires s.locked && s.lockHash == Some(lib.hash(passphrase)) && s.keys == map[]
    requires NoSuchUnlock(lib, passphrase, rs)
    ensures var t := After(lib, s, rs);
      t.locked && t.lockHash == s.lockHash && t.keys == map[] && t.idleCleared == s.idleCleared
  {
    if rs != [] {
      var n := |rs| - 1;
      StaysLocked(lib, s, passphrase, rs[..n]);
      match rs[n]
      case Unlock(p) => assert lib.hash(p) != lib.hash(passphrase);
      case List => case Sign(_, _) => case Add(_) => case Remove(_) => case RemoveAll => case Lock(_) => case IdleSweep =>
    }
  }

  /** From a lock until the first unlock with its passphrase hash the agent lists nothing, signs nothing and takes no
      key; that unlock brings back exactly the keys that are on disk by then, removals in between included. */
  lemma LockHoldsUntilItsUnlock(lib: AgentLib, s: AgentState, p: string, rs: seq<Request>, material: KeyMaterial, key: PrivateKey)
    requires Sound(lib.keyLib) && Valid(lib, s) && !s.locked && NoSuchUnlock(lib, p, rs)
    ensures var t := After(lib, Apply(lib, s, Lock(p), WORKING).0, rs);
      && Apply(lib, t, List, WORKING).1 == Identities(map[])
      && Apply(lib, t, Sign(material, true), WORKING) == (t, Failure)
      && Apply(lib, t, Add(key), WORKING) == (t, Failure)
      && Apply(lib, t, Unlock(p), WORKING).1 == Done
      && Apply(lib, t, Unlock(p), WORKING).0.keys.Keys == DiskKeys(t)
  {
    var s1 := Apply(lib, s, Lock(p), WORKING).0;
    var t := After(lib, s1, rs);
    StaysLocked(lib, s1, p, rs);
    StepKeepsValid(lib, s, Lock(p), WORKING);
    AfterKeepsValid(lib, s1, rs);
    KeysOfKept(lib.keyLib, EntriesOf(t.disk));
  }
}
