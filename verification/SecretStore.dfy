/**
 Setting up the secret store: passphrase.enc, auth_token.enc and config.toml are written one after another, the
 configuration last; an import then rewrites passphrase.enc. Every write may be the one at which the program is
 stopped. The PIV slot, its encryption scheme and the hash are library code and come in as values.
 */
module SecretStore {
  import opened Common
  import Base64Url
  import opened Codec

  // ---------------------------------------------------------------------------
  // Library code
  // ---------------------------------------------------------------------------

  /** Encryption to a PIV public key (given in DER, with the randomness drawn) and decryption by the slot's
      private key. */
  datatype Piv = Piv(
    publicOf: Bytes -> Bytes,
    parses: Bytes -> bool,
    encrypt: (Bytes, Bytes, Bytes) -> Option<Bytes>,
    decrypt: (Bytes, Bytes) -> Option<Bytes>)
  {
    /** Private key `d` opens all that is encrypted to `pub`. */
    ghost predicate Matches(d: Bytes, pub: Bytes) {
      parses(pub)
      && forall rnd, x | encrypt(pub, rnd, x).Some? :: decrypt(d, encrypt(pub, rnd, x).value) == Some(x)
    }
  }

  /** A private key opens what is encrypted to its own public key, and one that opens anything encrypted to some
      public key belongs to it. */
  ghost predicate PivSound(piv: Piv) {
    && (forall d :: piv.Matches(d, piv.publicOf(d)))
    && (forall d, pub, rnd, x | piv.parses(pub) && piv.encrypt(pub, rnd, x).Some? ::
          piv.decrypt(d, piv.encrypt(pub, rnd, x).value).Some? ==> piv.Matches(d, pub))
  }

  datatype StoreLib = StoreLib(piv: Piv, sha: Bytes -> Bytes, aeadOf: Bytes -> Aead, utf8: string -> Bytes)

  const KEY_LENGTH := 32

  ghost predicate StoreSound(lib: StoreLib) {
    && PivSound(lib.piv) && (forall x :: |lib.sha(x)| == KEY_LENGTH) && (forall k :: AeadInverse(lib.aeadOf(k)))
  }

  function DoubleSha(lib: StoreLib, x: Bytes): Bytes { lib.sha(lib.sha(x)) }

  // ---------------------------------------------------------------------------
  // The files
  // ---------------------------------------------------------------------------

  /** Torn: the file is there but a write to it was cut short. */
  datatype EncFile = NoFile | Torn | Whole(bytes: Bytes)

  datatype ConfigFile = NoConfig | TornConfig | Config(serial: nat, publicKey: Bytes)

  datatype Disk = Disk(config: ConfigFile, passphrase: EncFile, authToken: EncFile)

  /** How a write ends. Stopping the program between two writes is the refusal of the next one, stopping it in the
      middle of a write breaks that write; nothing happens after either. */
  datatype Outcome = Finished | Refused | Broken

  function WriteEnc(file: EncFile, bytes: Bytes, o: Outcome): EncFile {
    match o case Finished => Whole(bytes) case Refused => file case Broken => Torn
  }

  function WriteConfig(file: ConfigFile, config: ConfigFile, o: Outcome): ConfigFile {
    match o case Finished => config case Refused => file case Broken => TornConfig
  }

  function Require32(r: Option<Bytes>): Result<Bytes> {
    match r
    case None => Err("Failed to decrypt")
    case Some(x) => if |x| == KEY_LENGTH then Ok(x) else Err("must be exactly 32 bytes")
  }

  /** Reading one of the two secrets with the device's private key. */
  function LoadSecret(piv: Piv, file: EncFile, slot: Bytes): Result<Bytes> {
    match file
    case NoFile => Err("Failed to read")
    case Torn => Err("Failed to parse ECIES ciphertext")
    case Whole(bytes) => Require32(piv.decrypt(slot, bytes))
  }

  // ---------------------------------------------------------------------------
  // The commands
  // ---------------------------------------------------------------------------

  /** What is drawn at random during one initialization. */
  datatype Drawn = Drawn(device: Bytes, passphrase: Bytes, token: Bytes, rnd1: Bytes, rnd2: Bytes) {
    predicate FullLength() { |passphrase| == KEY_LENGTH && |token| == KEY_LENGTH }
  }

  datatype Outcomes = Outcomes(passphrase: Outcome, token: Outcome, config: Outcome)

  /** The writes shared by both ways of initializing. */
  function SecretsWritten(lib: StoreLib, disk: Disk, pub: Bytes, serial: nat, drawn: Drawn, o: Outcomes)
    : (Disk, Result<string>)
  {
    if !lib.piv.parses(pub) then (disk, Err("Failed to parse PIV public key DER"))
    else
      match lib.piv.encrypt(pub, drawn.rnd1, drawn.passphrase)
      case None => (disk, Err("ecies encrypt"))
      case Some(c1) =>
        var disk1 := disk.(passphrase := WriteEnc(disk.passphrase, c1, o.passphrase));
        if o.passphrase != Finished then (disk1, Err("Failed to write"))
        else
          match lib.piv.encrypt(pub, drawn.rnd2, DoubleSha(lib, drawn.token))
          case None => (disk1, Err("ecies encrypt"))
          case Some(c2) =>
            var disk2 := disk1.(authToken := WriteEnc(disk.authToken, c2, o.token));
            if o.token != Finished then (disk2, Err("Failed to write"))
            else
              var disk3 := disk2.(config := WriteConfig(disk.config, Config(serial, pub), o.config));
              if o.config != Finished then (disk3, Err("Failed to write config.toml"))
              else (disk3, Ok(Base64Url.Encode(drawn.token)))
  }

  datatype Command =
    | Init(serial: nat, drawn: Drawn, outcomes: Outcomes)
    | InitWithKey(pub: Bytes, rnd: Bytes, drawn: Drawn, outcomes: Outcomes)
    | Import(text: string, master: string, serial: nat, drawn: Drawn, outcomes: Outcomes, rnd: Bytes, last: Outcome)
  {
    predicate FullLength() { drawn.FullLength() }
  }

  /** The files, and the private key in the device's slot. */
  datatype StoreState = StoreState(disk: Disk, slot: Bytes)

  const ALREADY := "Already initialized. Delete ~/.vt-yubi to re-initialize."

  const TEST_PLAINTEXT: Bytes := [118, 116, 45, 121, 117, 98, 105, 45, 105, 110, 105, 116, 45,
                                  114, 111, 117, 110, 100, 116, 114, 105, 112, 45, 99, 104, 101, 99, 107]

  function InitStep(lib: StoreLib, s: StoreState, serial: nat, drawn: Drawn, o: Outcomes): (StoreState, Result<string>) {
    if s.disk.config != NoConfig then (s, Err(ALREADY))
    else
      var (disk, r) := SecretsWritten(lib, s.disk, lib.piv.publicOf(drawn.device), serial, drawn, o);
      (StoreState(disk, drawn.device), r)
  }

  /** Does the device open what is encrypted to this public key? */
  function RoundTrip(piv: Piv, slot: Bytes, pub: Bytes, rnd: Bytes): Result<()> {
    if !piv.parses(pub) then Err("Failed to parse PIV public key DER")
    else
      match piv.encrypt(pub, rnd, TEST_PLAINTEXT)
      case None => Err("ecies encrypt")
      case Some(c) =>
        match piv.decrypt(slot, c)
        case None => Err("Round-trip decrypt failed")
        case Some(x) => if x == TEST_PLAINTEXT then Ok(()) else Err("Round-trip plaintext mismatch")
  }

  /** The imported passphrase, decrypted under the master passphrase. */
  function Imported(lib: StoreLib, text: string, master: string): Result<Bytes> {
    match Base64Url.Decode(text)
    case None => Err("base64 decode error")
    case Some(data) =>
      match OpenBytes(lib.aeadOf(DoubleSha(lib, lib.utf8(master))), data)
      case Err(m) => Err(m)
      case Ok(x) => Require32(Some(x))
  }

  function Reencrypted(lib: StoreLib, disk: Disk, x: Bytes, rnd: Bytes, o: Outcome): (Disk, Result<()>) {
    if !disk.config.Config? then (disk, Err("Failed to read config.toml"))
    else if !lib.piv.parses(disk.config.publicKey) then (disk, Err("Failed to parse PIV public key DER"))
    else
      match lib.piv.encrypt(disk.config.publicKey, rnd, x)
      case None => (disk, Err("ecies encrypt"))
      case Some(c) =>
        (disk.(passphrase := WriteEnc(disk.passphrase, c, o)),
         if o == Finished then Ok(()) else Err("Failed to write"))
  }

  /** One command: the state it leaves and the token it prints, or why it stopped. */
  function Step(lib: StoreLib, s: StoreState, c: Command): (StoreState, Result<string>) {
    match c
    case Init(serial, drawn, o) => InitStep(lib, s, serial, drawn, o)
    case InitWithKey(pub, rnd, drawn, o) =>
      if s.disk.config != NoConfig then (s, Err(ALREADY))
      else
        (match RoundTrip(lib.piv, s.slot, pub, rnd)
         case Err(m) => (s, Err(m))
         case Ok(_) =>
           var (disk, r) := SecretsWritten(lib, s.disk, pub, 0, drawn, o);
           (s.(disk := disk), r))
    case Import(text, master, serial, drawn, o, rnd, last) =>
      if s.disk.config.Config? then (s, Err(ALREADY))
      else
        match Imported(lib, text, master)
        case Err(m) => (s, Err(m))
        case Ok(x) =>
          var (t, r) := InitStep(lib, s, serial, drawn, o);
          if r.Err? then (t, r)
          else
            var (disk, done) := Reencrypted(lib, t.disk, x, rnd, last);
            (t.(disk := disk), if done.Ok? then r else Err(done.message))
  }

  /** The printed form of the store's passphrase, sealed under the master passphrase. */
  function Exported(lib: StoreLib, s: StoreState, master: string, nonce: Bytes): Result<string> {
    if !s.disk.config.Config? then Err("Failed to read config.toml")
    else
      match LoadSecret(lib.piv, s.disk.passphrase, s.slot)
      case Err(m) => Err(m)
      case Ok(x) =>
        match SealBytes(lib.aeadOf(DoubleSha(lib, lib.utf8(master))), nonce, x)
        case None => Err("Failed to encrypt master secret")
        case Some(data) => Ok(Base64Url.Encode(data))
  }

  class Store {
    const lib: StoreLib
    var config: ConfigFile
    var passphrase: EncFile
    var authToken: EncFile
    var slot: Bytes

    ghost function State(): StoreState
      reads this
    {
      StoreState(Disk(config, passphrase, authToken), slot)
    }

    constructor (lib: StoreLib, s: StoreState)
      ensures this.lib == lib && State() == s
    {
      this.lib := lib;
      config, passphrase, authToken, slot := s.disk.config, s.disk.passphrase, s.disk.authToken, s.slot;
    }

    /** passphrase.enc, auth_token.enc, config.toml, in this order. */
    method WriteSecrets(pub: Bytes, serial: nat, drawn: Drawn, o: Outcomes) returns (r: Result<string>)
      modifies this`config, this`passphrase, this`authToken
      ensures (State().disk, r) == SecretsWritten(lib, old(State()).disk, pub, serial, drawn, o)
    {
      if !lib.piv.parses(pub) { return Err("Failed to parse PIV public key DER"); }
      var c1 := lib.piv.encrypt(pub, drawn.rnd1, drawn.passphrase);
      if c1.None? { return Err("ecies encrypt"); }
      passphrase := WriteEnc(passphrase, c1.value, o.passphrase);
      if o.passphrase != Finished { return Err("Failed to write"); }
      var derived := lib.sha(lib.sha(drawn.token));
      var c2 := lib.piv.encrypt(pub, drawn.rnd2, derived);
      if c2.None? { return Err("ecies encrypt"); }
      authToken := WriteEnc(authToken, c2.value, o.token);
      if o.token != Finished { return Err("Failed to write"); }
      config := WriteConfig(config, Config(serial, pub), o.config);
      if o.config != Finished { return Err("Failed to write config.toml"); }
      return Ok(Base64Url.Encode(drawn.token));
    }

    method YubikeyInit(serial: nat, drawn: Drawn, o: Outcomes) returns (r: Result<string>)
      modifies this
      ensures (State(), r) == Step(lib, old(State()), Init(serial, drawn, o))
    {
      if config != NoConfig { return Err(ALREADY); }
      slot := drawn.device;
      r := WriteSecrets(lib.piv.publicOf(slot), serial, drawn, o);
    }

    /** The public key is tried out on the device before any file is written. */
    method YubikeyInitWithPubkey(pub: Bytes, rnd: Bytes, drawn: Drawn, o: Outcomes) returns (r: Result<string>)
      modifies this
      ensures (State(), r) == Step(lib, old(State()), InitWithKey(pub, rnd, drawn, o))
    {
      if config != NoConfig { return Err(ALREADY); }
      if !lib.piv.parses(pub) { return Err("Failed to parse PIV public key DER"); }
      var test := lib.piv.encrypt(pub, rnd, TEST_PLAINTEXT);
      if test.None? { return Err("ecies encrypt"); }
      var back := lib.piv.decrypt(slot, test.value);
      if back.None? { return Err("Round-trip decrypt failed"); }
      if back.value != TEST_PLAINTEXT { return Err("Round-trip plaintext mismatch"); }
      r := WriteSecrets(pub, 0, drawn, o);
    }

    method ReencryptPassphrase(x: Bytes, rnd: Bytes, o: Outcome) returns (r: Result<()>)
      modifies this`passphrase
      ensures (State().disk, r) == Reencrypted(lib, old(State()).disk, x, rnd, o)
    {
      if !config.Config? { return Err("Failed to read config.toml"); }
      if !lib.piv.parses(config.publicKey) { return Err("Failed to parse PIV public key DER"); }
      var c := lib.piv.encrypt(config.publicKey, rnd, x);
      if c.None? { return Err("ecies encrypt"); }
      passphrase := WriteEnc(passphrase, c.value, o);
      return if o == Finished then Ok(()) else Err("Failed to write");
    }

    method ImportSecret(text: string, master: string, serial: nat, drawn: Drawn, o: Outcomes, rnd: Bytes, last: Outcome)
      returns (r: Result<string>)
      modifies this
      ensures (State(), r) == Step(lib, old(State()), Import(text, master, serial, drawn, o, rnd, last))
    {
      if config.Config? { return Err(ALREADY); }
      var secret := Imported(lib, text, master);
      if secret.Err? { return Err(secret.message); }
      r := YubikeyInit(serial, drawn, o);
      if r.Err? { return; }
      var done := ReencryptPassphrase(secret.value, rnd, last);
      if done.Err? { r := Err(done.message); }
    }
  }

  // ---------------------------------------------------------------------------
  // Crash consistency
  // ---------------------------------------------------------------------------

  /** Both secrets can be loaded with the device, and the device is the one whose key is configured. */
  ghost predicate Usable(lib: StoreLib, s: StoreState) {
    && LoadSecret(lib.piv, s.disk.passphrase, s.slot).Ok?
    && LoadSecret(lib.piv, s.disk.authToken, s.slot).Ok?
    && (s.disk.config.Config? ==> lib.piv.Matches(s.slot, s.disk.config.publicKey))
  }

  ghost predicate Consistent(lib: StoreLib, s: StoreState) {
    s.disk.config != NoConfig ==> Usable(lib, s)
  }

  lemma LoadsWhatWasEncrypted(piv: Piv, slot: Bytes, pub: Bytes, rnd: Bytes, x: Bytes)
    requires piv.Matches(slot, pub) && piv.encrypt(pub, rnd, x).Some? && |x| == KEY_LENGTH
    ensures LoadSecret(piv, Whole(piv.encrypt(pub, rnd, x).value), slot) == Ok(x)
  {
  }

  /** Wherever the writes stop: once there is a configuration, both secrets are in place. */
  lemma WritesAreConsistent(lib: StoreLib, disk: Disk, slot: Bytes, pub: Bytes, serial: nat, drawn: Drawn, o: Outcomes)
    requires StoreSound(lib) && drawn.FullLength() && disk.config == NoConfig && lib.piv.Matches(slot, pub)
    ensures var (after, r) := SecretsWritten(lib, disk, pub, serial, drawn, o);
      && Consistent(lib, StoreState(after, slot))
      && (r.Ok? ==> LoadSecret(lib.piv, after.passphrase, slot) == Ok(drawn.passphrase)
                    && LoadSecret(lib.piv, after.authToken, slot) == Ok(lib.sha(lib.sha(drawn.token)))
                    && after.config == Config(serial, pub) && r.value == Base64Url.Encode(drawn.token))
  {
    assert |DoubleSha(lib, drawn.token)| == KEY_LENGTH;
    if lib.piv.encrypt(pub, drawn.rnd1, drawn.passphrase).Some? {
      LoadsWhatWasEncrypted(lib.piv, slot, pub, drawn.rnd1, drawn.passphrase);
    }
    if lib.piv.encrypt(pub, drawn.rnd2, DoubleSha(lib, drawn.token)).Some? {
      LoadsWhatWasEncrypted(lib.piv, slot, pub, drawn.rnd2, DoubleSha(lib, drawn.token));
    }
  }

  /** A round trip that works means the device has the private key. */
  lemma RoundTripMatches(lib: StoreLib, slot: Bytes, pub: Bytes, rnd: Bytes)
    requires StoreSound(lib) && RoundTrip(lib.piv, slot, pub, rnd).Ok?
    ensures lib.piv.Matches(slot, pub)
  {
    assert lib.piv.decrypt(slot, lib.piv.encrypt(pub, rnd, TEST_PLAINTEXT).value).Some?;
  }

  /** The import gets as far as rewriting the passphrase file, and that write is cut short. */
  predicate TearsPassphrase(lib: StoreLib, s: StoreState, c: Command) {
    c.Import? && s.disk.config == NoConfig && Imported(lib, c.text, c.master).Ok?
    && c.last == Broken
    && InitStep(lib, s, c.serial, c.drawn, c.outcomes).1.Ok?
    && lib.piv.encrypt(lib.piv.publicOf(c.drawn.device), c.rnd, Imported(lib, c.text, c.master).value).Some?
  }

  lemma InitKeepsConsistent(lib: StoreLib, s: StoreState, serial: nat, drawn: Drawn, o: Outcomes)
    requires StoreSound(lib) && Consistent(lib, s) && drawn.FullLength()
    ensures var (t, r) := InitStep(lib, s, serial, drawn, o);
      && Consistent(lib, t)
      && (r.Ok? ==> t.slot == drawn.device && t.disk.config == Config(serial, lib.piv.publicOf(drawn.device))
                    && LoadSecret(lib.piv, t.disk.passphrase, t.slot) == Ok(drawn.passphrase)
                    && LoadSecret(lib.piv, t.disk.authToken, t.slot) == Ok(lib.sha(lib.sha(drawn.token)))
                    && r.value == Base64Url.Encode(drawn.token))
  {
    if s.disk.config == NoConfig {
      assert lib.piv.Matches(drawn.device, lib.piv.publicOf(drawn.device));
      WritesAreConsistent(lib, s.disk, drawn.device, lib.piv.publicOf(drawn.device), serial, drawn, o);
    }
  }

  /** After a completed initialization, rewriting the passphrase file leaves a usable store unless the write is
      cut short; if it finishes, the file holds the new passphrase. */
  lemma ReencryptKeepsConsistent(lib: StoreLib, t: StoreState, x: Bytes, rnd: Bytes, o: Outcome)
    requires StoreSound(lib) && Usable(lib, t) && t.disk.config.Config? && |x| == KEY_LENGTH
    ensures var (disk, done) := Reencrypted(lib, t.disk, x, rnd, o);
      && (Consistent(lib, t.(disk := disk))
          <==> !(o == Broken && lib.piv.encrypt(t.disk.config.publicKey, rnd, x).Some?))
      && (done.Ok? ==> LoadSecret(lib.piv, disk.passphrase, t.slot) == Ok(x))
      && (done.Err? && o != Broken ==> disk == t.disk)
  {
    if lib.piv.encrypt(t.disk.config.publicKey, rnd, x).Some? {
      LoadsWhatWasEncrypted(lib.piv, t.slot, t.disk.config.publicKey, rnd, x);
    }
  }

  /** Every command, stopped anywhere, keeps the store consistent if and only if it is not an import cut short in
      the middle of rewriting passphrase.enc. */
  lemma StepKeepsConsistent(lib: StoreLib, s: StoreState, c: Command)
    requires StoreSound(lib) && Consistent(lib, s) && c.FullLength()
    ensures Consistent(lib, Step(lib, s, c).0) <==> !TearsPassphrase(lib, s, c)
  {
    match c
    case Init(serial, drawn, o) => InitKeepsConsistent(lib, s, serial, drawn, o);
    case InitWithKey(pub, rnd, drawn, o) =>
      if s.disk.config == NoConfig && RoundTrip(lib.piv, s.slot, pub, rnd).Ok? {
        RoundTripMatches(lib, s.slot, pub, rnd);
        WritesAreConsistent(lib, s.disk, s.slot, pub, 0, drawn, o);
      }
    case Import(text, master, serial, drawn, o, rnd, last) =>
      InitKeepsConsistent(lib, s, serial, drawn, o);
      ImportKeepsConsistent(lib, s, c);
  }

  lemma ImportKeepsConsistent(lib: StoreLib, s: StoreState, c: Command)
    requires StoreSound(lib) && Consistent(lib, s) && c.FullLength() && c.Import?
    requires Consistent(lib, InitStep(lib, s, c.serial, c.drawn, c.outcomes).0)
    ensures Consistent(lib, Step(lib, s, c).0) <==> !TearsPassphrase(lib, s, c)
  {
    var (t, r) := InitStep(lib, s, c.serial, c.drawn, c.outcomes);
    if Imported(lib, c.text, c.master).Ok? && r.Ok? {
      InitKeepsConsistent(lib, s, c.serial, c.drawn, c.outcomes);
      ReencryptKeepsConsistent(lib, t, Imported(lib, c.text, c.master).value, c.rnd, c.last);
    }
  }

  function Steps(lib: StoreLib, s: StoreState, cs: seq<Command>): StoreState {
    if cs == [] then s else Step(lib, Steps(lib, s, cs[..|cs| - 1]), cs[|cs| - 1]).0
  }

  /** From an empty directory, whatever commands are run and wherever they stop between writes or within the writes
      of an initialization, a configuration means two secrets that load. */
  lemma {:induction false} AlwaysConsistent(lib: StoreLib, s: StoreState, cs: seq<Command>)
    requires StoreSound(lib) && s.disk.config == NoConfig
    requires forall i | 0 <= i < |cs| :: cs[i].FullLength() && (cs[i].Import? ==> cs[i].last != Broken)
    ensures Consistent(lib, Steps(lib, s, cs))
  {
    if cs != [] {
      var n := |cs| - 1;
      AlwaysConsistent(lib, s, cs[..n]);
      StepKeepsConsistent(lib, Steps(lib, s, cs[..n]), cs[n]);
    }
  }

  // ---------------------------------------------------------------------------
  // What a finished setup delivers
  // ---------------------------------------------------------------------------

  /** The printed VT_AUTH is a token whose twice hashed bytes are the key stored in auth_token.enc. */
  lemma PrintedTokenFits(lib: StoreLib, s: StoreState, c: Command)
    requires StoreSound(lib) && c.FullLength() && Step(lib, s, c).1.Ok?
    ensures var (t, r) := Step(lib, s, c);
      && Base64Url.Decode(r.value).Some?
      && LoadSecret(lib.piv, t.disk.authToken, t.slot) == Ok(lib.sha(lib.sha(Base64Url.Decode(r.value).value)))
  {
    Base64Url.DecodeEncode(c.drawn.token);
    match c
    case Init(serial, drawn, o) => InitKeepsConsistent(lib, s, serial, drawn, o);
    case InitWithKey(pub, rnd, drawn, o) =>
      RoundTripMatches(lib, s.slot, pub, rnd);
      WritesAreConsistent(lib, s.disk, s.slot, pub, 0, drawn, o);
    case Import(text, master, serial, drawn, o, rnd, last) =>
      InitKeepsConsistent(lib, s, serial, drawn, o);
  }

  /** Export and import under one master passphrase carry the passphrase over to another device. */
  lemma ExportImport(lib: StoreLib, a: StoreState, b: StoreState, master: string, nonce: Bytes, c: Command)
    requires StoreSound(lib) && |nonce| == NONCE_LENGTH && Exported(lib, a, master, nonce).Ok?
    requires c.Import? && c.text == Exported(lib, a, master, nonce).value && c.master == master && c.FullLength()
    requires b.disk.config == NoConfig
    ensures var x := LoadSecret(lib.piv, a.disk.passphrase, a.slot);
      var (t, r) := Step(lib, b, c);
      && x.Ok? && Imported(lib, c.text, c.master) == x
      && (r.Ok? ==> LoadSecret(lib.piv, t.disk.passphrase, t.slot) == x)
      && (InitStep(lib, b, c.serial, c.drawn, c.outcomes).1.Ok? && r.Err? && c.last == Refused
          ==> LoadSecret(lib.piv, t.disk.passphrase, t.slot) == Ok(c.drawn.passphrase))
  {
    var x := LoadSecret(lib.piv, a.disk.passphrase, a.slot).value;
    var aead := lib.aeadOf(DoubleSha(lib, lib.utf8(master)));
    assert AeadInverse(aead);
    var data := SealBytes(aead, nonce, x).value;
    Base64Url.DecodeEncode(data);
    assert data[..NONCE_LENGTH] == nonce && data[NONCE_LENGTH..] == aead.seal(nonce, x).value;
    InitKeepsConsistent(lib, b, c.serial, c.drawn, c.outcomes);
    var (t, r) := InitStep(lib, b, c.serial, c.drawn, c.outcomes);
    if r.Ok? { ReencryptKeepsConsistent(lib, t, x, c.rnd, c.last); }
  }

  /** Hence a token made on the first device is opened by the second. */
  lemma TokensSurviveImport(lib: StoreLib, text: Text, totp: string -> Result<string>, a: StoreState, b: StoreState,
                            master: string, nonce: Bytes, c: Command, itemNonce: Bytes, item: EncryptItem)
    requires StoreSound(lib) && TextInverse(text) && |nonce| == NONCE_LENGTH && |itemNonce| == NONCE_LENGTH
    requires Exported(lib, a, master, nonce).Ok? && b.disk.config == NoConfig
    requires c.Import? && c.text == Exported(lib, a, master, nonce).value && c.master == master && c.FullLength()
    requires Step(lib, b, c).1.Ok? && item.t.RAW?
    ensures var x := LoadSecret(lib.piv, a.disk.passphrase, a.slot).value;
      var t := Step(lib, b, c).0;
      var sealed := EncryptOne(Library(lib.aeadOf(x), text, totp), itemNonce, item);
      var y := LoadSecret(lib.piv, t.disk.passphrase, t.slot);
      y.Ok? && (sealed.errMessage == "" ==>
        DecryptToken(Library(lib.aeadOf(y.value), text, totp), sealed.result) == Ok(item.plaintext))
  {
    ExportImport(lib, a, b, master, nonce, c);
    var x := LoadSecret(lib.piv, a.disk.passphrase, a.slot).value;
    var l := Library(lib.aeadOf(x), text, totp);
    assert AeadInverse(lib.aeadOf(x));
    if EncryptOne(l, itemNonce, item).errMessage == "" { ItemRoundTrip(l, itemNonce, item); }
  }

  /** An import stopped between initialization and re-encryption cannot be repeated: the store is usable, but with
      a passphrase nobody exported, and every further command refuses. */
  lemma InterruptedImportSticks(lib: StoreLib, s: StoreState, c: Command, again: Command)
    requires StoreSound(lib) && c.Import? && c.FullLength() && s.disk.config == NoConfig
    requires Imported(lib, c.text, c.master).Ok? && c.last == Refused
    requires InitStep(lib, s, c.serial, c.drawn, c.outcomes).1.Ok?
    ensures var t := Step(lib, s, c).0;
      && Usable(lib, t) && LoadSecret(lib.piv, t.disk.passphrase, t.slot) == Ok(c.drawn.passphrase)
      && Step(lib, t, again) == (t, Err(ALREADY))
  {
    InitKeepsConsistent(lib, s, c.serial, c.drawn, c.outcomes);
    var t := InitStep(lib, s, c.serial, c.drawn, c.outcomes).0;
    ReencryptKeepsConsistent(lib, t, Imported(lib, c.text, c.master).value, c.rnd, c.last);
  }

  // ---------------------------------------------------------------------------
  // When the commands succeed
  // ---------------------------------------------------------------------------

  /** The public key is one, and takes both secrets. */
  predicate Seals(lib: StoreLib, pub: Bytes, drawn: Drawn) {
    && lib.piv.parses(pub) && lib.piv.encrypt(pub, drawn.rnd1, drawn.passphrase).Some?
    && lib.piv.encrypt(pub, drawn.rnd2, lib.sha(lib.sha(drawn.token))).Some?
  }

  predicate AllFinished(o: Outcomes) {
    o.passphrase == Finished && o.token == Finished && o.config == Finished
  }

  /** The files hold both secrets of this initialization, sealed to the configured key. */
  ghost predicate Holds(lib: StoreLib, disk: Disk, serial: nat, pub: Bytes, drawn: Drawn) {
    Seals(lib, pub, drawn)
    && disk == Disk(Config(serial, pub), Whole(lib.piv.encrypt(pub, drawn.rnd1, drawn.passphrase).value),
                    Whole(lib.piv.encrypt(pub, drawn.rnd2, lib.sha(lib.sha(drawn.token))).value))
  }

  /** An initialization succeeds exactly if there is no configuration, the device's new key takes both secrets and every
      write finishes, whatever the serial; then all three files are there and the token is printed. */
  lemma InitSucceeds(lib: StoreLib, s: StoreState, serial: nat, drawn: Drawn, o: Outcomes)
    ensures var (t, r) := Step(lib, s, Init(serial, drawn, o));
      var pub := lib.piv.publicOf(drawn.device);
      && (r.Ok? <==> s.disk.config == NoConfig && Seals(lib, pub, drawn) && AllFinished(o))
      && (r.Ok? ==>
            Holds(lib, t.disk, serial, pub, drawn) && t.slot == drawn.device && r.value == Base64Url.Encode(drawn.token))
  {
  }

  /** The device gives back what was encrypted to this public key. */
  predicate Answers(piv: Piv, slot: Bytes, pub: Bytes, rnd: Bytes) {
    && piv.parses(pub) && piv.encrypt(pub, rnd, TEST_PLAINTEXT).Some?
    && piv.decrypt(slot, piv.encrypt(pub, rnd, TEST_PLAINTEXT).value) == Some(TEST_PLAINTEXT)
  }

  /** The same with a public key that is given: the device must answer it, keeps its own key, and any serial will do. */
  lemma InitWithKeySucceeds(lib: StoreLib, s: StoreState, pub: Bytes, rnd: Bytes, drawn: Drawn, o: Outcomes)
    ensures var (t, r) := Step(lib, s, InitWithKey(pub, rnd, drawn, o));
      && (r.Ok? <==>
            s.disk.config == NoConfig && Answers(lib.piv, s.slot, pub, rnd) && Seals(lib, pub, drawn) && AllFinished(o))
      && (r.Ok? ==> Holds(lib, t.disk, 0, pub, drawn) && t.slot == s.slot && r.value == Base64Url.Encode(drawn.token))
      && (!Answers(lib.piv, s.slot, pub, rnd) ==> r.Err? && t == s)
  {
  }

  /** `text` is a passphrase sealed under the master passphrase. */
  ghost predicate OpensTo(lib: StoreLib, text: string, master: string, x: Bytes) {
    |x| == 32
    && match Base64Url.Decode(text)
       case None => false
       case Some(data) =>
         |data| >= 12 && lib.aeadOf(lib.sha(lib.sha(lib.utf8(master)))).open(data[..12], data[12..]) == Some(x)
  }

  /** An import succeeds exactly if the text opens to a passphrase, the initialization succeeds, and the passphrase can
      be sealed to the new key and written; it is then what passphrase.enc holds. */
  lemma ImportSucceeds(lib: StoreLib, s: StoreState, c: Command, x: Bytes)
    requires c.Import? && OpensTo(lib, c.text, c.master, x)
    ensures var (t, r) := Step(lib, s, c);
      var pub := lib.piv.publicOf(c.drawn.device);
      && (r.Ok? <==>
            Step(lib, s, Init(c.serial, c.drawn, c.outcomes)).1.Ok?
            && lib.piv.encrypt(pub, c.rnd, x).Some? && c.last == Finished)
      && (r.Ok? ==>
            t.slot == c.drawn.device && t.disk.passphrase == Whole(lib.piv.encrypt(pub, c.rnd, x).value)
            && Holds(lib, t.disk.(passphrase := Whole(lib.piv.encrypt(pub, c.drawn.rnd1, c.drawn.passphrase).value)),
                     c.serial, pub, c.drawn))
  {
    InitSucceeds(lib, s, c.serial, c.drawn, c.outcomes);
  }

  /** A text that opens to nothing is refused before anything is touched, and for that reason unless there is a readable
      configuration. */
  lemma ImportRefuses(lib: StoreLib, s: StoreState, c: Command)
    requires c.Import? && forall x :: !OpensTo(lib, c.text, c.master, x)
    ensures Step(lib, s, c).1.Err? && Step(lib, s, c).0 == s
    ensures Step(lib, s, c).1.message == ALREADY <==> s.disk.config.Config?
  {
    if Imported(lib, c.text, c.master).Ok? {
      assert OpensTo(lib, c.text, c.master, Imported(lib, c.text, c.master).value);
    }
  }

  /** The device opens a stored secret. */
  predicate Loads(piv: Piv, file: EncFile, slot: Bytes, x: Bytes) {
    file.Whole? && piv.decrypt(slot, file.bytes) == Some(x) && |x| == 32
  }

  /** An export succeeds exactly if there is a configuration and the device opens a passphrase that can be sealed. What
      it prints opens to that passphrase under the same master passphrase. */
  lemma ExportSucceeds(lib: StoreLib, s: StoreState, master: string, nonce: Bytes)
    requires StoreSound(lib) && |nonce| == 12
    ensures Exported(lib, s, master, nonce).Ok? <==>
      s.disk.config.Config?
      && exists x :: Loads(lib.piv, s.disk.passphrase, s.slot, x)
                     && lib.aeadOf(lib.sha(lib.sha(lib.utf8(master)))).seal(nonce, x).Some?
    ensures forall x | Loads(lib.piv, s.disk.passphrase, s.slot, x) && Exported(lib, s, master, nonce).Ok? ::
      OpensTo(lib, Exported(lib, s, master, nonce).value, master, x)
  {
    var aead := lib.aeadOf(lib.sha(lib.sha(lib.utf8(master))));
    assert AeadInverse(aead);
    forall x | s.disk.config.Config? && Loads(lib.piv, s.disk.passphrase, s.slot, x) && aead.seal(nonce, x).Some?
      ensures Exported(lib, s, master, nonce).Ok? && OpensTo(lib, Exported(lib, s, master, nonce).value, master, x)
    {
      var data := nonce + aead.seal(nonce, x).value;
      Base64Url.DecodeEncode(data);
      assert data[..12] == nonce && data[12..] == aead.seal(nonce, x).value;
    }
    if Exported(lib, s, master, nonce).Ok? {
      var x := LoadSecret(lib.piv, s.disk.passphrase, s.slot).value;
      assert Loads(lib.piv, s.disk.passphrase, s.slot, x);
    }
  }
}
