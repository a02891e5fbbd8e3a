/** The pool's configuration: the persistence section and its conversion into
    a persistence setup, and PoolConfig with its setters. */
module Config {
  import opened Base

  const SHARES_ENTITY: string := "shares"
  const FILE_BACKEND: string := "file"
  const FILE_SECTION_REQUIRED: string := "[persistence.file] section required for file backend"
  const UNKNOWN_BACKEND: string := "Unknown backend type: "

  /** The `[persistence.file]` section. */
  datatype FileBackendConfig = FileBackendConfig(filePath: string, channelSize: nat)

  /** The `[persistence]` section: backend name, entity names, file section. */
  datatype PersistenceConfig = PersistenceConfig(
    backend: string,
    entities: seq<string>,
    file: Option<FileBackendConfig>)

  /** The channel size a file section gets when it names none: a capacity
      the backend's bounded channel accepts. */
  function DefaultChannelSize(): (n: nat)
    ensures n > 0
  {
    10000
  }

  /** The entity list a persistence section gets when it names none: it
      enables exactly the share entity. */
  function DefaultEntities(): (names: seq<string>)
    ensures ParseEntities(names) == [Share]
  {
    assert [SHARES_ENTITY][1..] == [];
    [SHARES_ENTITY]
  }

  /** A file section that names only its path. */
  function FileSectionWithDefaults(filePath: string): FileBackendConfig {
    FileBackendConfig(filePath, DefaultChannelSize())
  }

  /** A persistence section that names only its backend and file section. */
  function PersistenceSectionWithDefaults(backend: string, file: Option<FileBackendConfig>): PersistenceConfig {
    PersistenceConfig(backend, DefaultEntities(), file)
  }

  datatype EntityType = Share

  /** The file backend a persistence setup writes to, by its constructor's arguments. */
  datatype Backend = File(path: string, channelSize: nat)

  datatype PersistenceSetup = PersistenceSetup(backend: Backend, enabledEntities: seq<EntityType>)

  datatype PersistenceError = Custom(message: string) | IoError

  /** The entity an entity name selects; unknown names select none. */
  function ParseEntity(name: string): (r: Option<EntityType>)
    ensures r.Some? <==> name == SHARES_ENTITY
  {
    if name == SHARES_ENTITY then Some(Share) else None
  }

  /** The known entities among `names`, in order; unknown names are skipped. */
  function ParseEntities(names: seq<string>): (r: seq<EntityType>)
    ensures |r| <= |names|
    decreases |names|
  {
    if names == [] then []
    else
      (match ParseEntity(names[0]) case Some(e) => [e] case None => [])
      + ParseEntities(names[1..])
  }

  lemma {:induction false} ParseEntitiesAppend(a: seq<string>, b: seq<string>)
    ensures ParseEntities(a + b) == ParseEntities(a) + ParseEntities(b)
    decreases |a|
  {
    if a == [] {
      assert a + b == b;
    } else {
      assert (a + b)[0] == a[0] && (a + b)[1..] == a[1..] + b;
      ParseEntitiesAppend(a[1..], b);
    }
  }

  /** Parsing never fails: it yields one Share per occurrence of "shares", and
      unknown names contribute nothing. */
  lemma {:induction false} ParseEntitiesCountsShares(names: seq<string>)
    ensures |ParseEntities(names)| == multiset(names)[SHARES_ENTITY]
    ensures forall i :: 0 <= i < |ParseEntities(names)| ==> ParseEntities(names)[i] == Share
    ensures Share in ParseEntities(names) <==> SHARES_ENTITY in names
    decreases |names|
  {
    if names != [] {
      ParseEntitiesCountsShares(names[1..]);
      assert names == [names[0]] + names[1..];
      assert multiset(names) == multiset{names[0]} + multiset(names[1..]);
    }
  }

  /** The conversion of the persistence section into a persistence setup.
      `backendOpens` is whether the file backend's constructor succeeds on
      the section's path (it creates the parent directory and opens the file). */
  function IntoPersistence(config: PersistenceConfig, backendOpens: bool): (r: Result<PersistenceSetup, PersistenceError>)
    requires config.backend == FILE_BACKEND && config.file.Some? ==> config.file.value.channelSize > 0
    ensures r.Ok? <==> config.backend == FILE_BACKEND && config.file.Some? && backendOpens
    ensures r.Ok? ==>
      && r.value.backend == File(config.file.value.filePath, config.file.value.channelSize)
      && r.value.enabledEntities == ParseEntities(config.entities)
    ensures config.backend != FILE_BACKEND ==>
      r.Err? && r.error.Custom? && UNKNOWN_BACKEND <= r.error.message &&
      r.error.message[|UNKNOWN_BACKEND|..] == config.backend
    ensures config.backend == FILE_BACKEND && config.file.None? ==>
      r == Err(Custom(FILE_SECTION_REQUIRED))
    ensures config.backend == FILE_BACKEND && config.file.Some? && !backendOpens ==> r == Err(IoError)
  {
    var enabledEntities := ParseEntities(config.entities);
    if config.backend == FILE_BACKEND then
      match config.file
      case None => Err(Custom(FILE_SECTION_REQUIRED))
      case Some(fileConfig) =>
        if backendOpens then Ok(PersistenceSetup(File(fileConfig.filePath, fileConfig.channelSize), enabledEntities))
        else Err(IoError)
    else
      Err(Custom(UNKNOWN_BACKEND + config.backend))
  }

  /** A file-backed section that relies on the defaults logs shares to its
      path through a channel of 10000 commands. */
  lemma DefaultsGiveShareLogging(filePath: string)
    ensures IntoPersistence(PersistenceSectionWithDefaults(FILE_BACKEND, Some(FileSectionWithDefaults(filePath))), true)
      == Ok(PersistenceSetup(File(filePath, 10000), [Share]))
  {
  }

  /** The missing-section error message contains "[persistence.file] section required". */
  lemma MissingFileSectionMessage(config: PersistenceConfig, backendOpens: bool)
    requires config.backend == FILE_BACKEND && config.file.None?
    ensures var r := IntoPersistence(config, backendOpens);
      r.Err? && r.error.Custom? && "[persistence.file] section required" <= r.error.message
  {
  }

  /** Adding an unknown entity name changes nothing. */
  lemma UnknownEntitiesAreIgnored(config: PersistenceConfig, backendOpens: bool, unknown: string)
    requires config.backend == FILE_BACKEND && config.file.Some? ==> config.file.value.channelSize > 0
    requires unknown != SHARES_ENTITY
    ensures IntoPersistence(config.(entities := config.entities + [unknown]), backendOpens) ==
            IntoPersistence(config, backendOpens)
  {
    ParseEntitiesAppend(config.entities, [unknown]);
    assert [unknown][1..] == [];
    assert ParseEntities(config.entities + [unknown]) == ParseEntities(config.entities);
  }

  /** Opaque key material and the coinbase script, by their encodings. */
  datatype Secp256k1PublicKey = Secp256k1PublicKey(bytes: seq<U8>)
  datatype Secp256k1SecretKey = Secp256k1SecretKey(bytes: seq<U8>)
  datatype CoinbaseRewardScript = CoinbaseRewardScript(script: seq<U8>)

  datatype ConnectionConfig = ConnectionConfig(listenAddress: SocketAddr, certValiditySec: U64, signature: string)
  datatype TemplateProviderConfig = TemplateProviderConfig(address: string, authorityPublicKey: Option<Secp256k1PublicKey>)
  datatype AuthorityConfig = AuthorityConfig(publicKey: Secp256k1PublicKey, secretKey: Secp256k1SecretKey)

  /** The pool's configuration. Its setters update it in place. */
  class PoolConfig {
    var listenAddress: SocketAddr
    var tpAddress: string
    var tpAuthorityPublicKey: Option<Secp256k1PublicKey>
    var authorityPublicKey: Secp256k1PublicKey
    var authoritySecretKey: Secp256k1SecretKey
    var certValiditySec: U64
    var coinbaseRewardScript: CoinbaseRewardScript
    var poolSignature: string
    var shareBatchSize: nat
    var logFile: Option<string>
    var serverId: U16
    var persistence: Option<PersistenceConfig>

    /** Copies every field from the sub-configurations; no log file yet. */
    constructor (
      poolConnection: ConnectionConfig,
      templateProvider: TemplateProviderConfig,
      authorityConfig: AuthorityConfig,
      coinbaseRewardScript: CoinbaseRewardScript,
      shareBatchSize: nat,
      serverId: U16,
      persistence: Option<PersistenceConfig>)
      ensures listenAddress == poolConnection.listenAddress
      ensures tpAddress == templateProvider.address
      ensures tpAuthorityPublicKey == templateProvider.authorityPublicKey
      ensures authorityPublicKey == authorityConfig.publicKey
      ensures authoritySecretKey == authorityConfig.secretKey
      ensures certValiditySec == poolConnection.certValiditySec
      ensures this.coinbaseRewardScript == coinbaseRewardScript
      ensures poolSignature == poolConnection.signature
      ensures this.shareBatchSize == shareBatchSize
      ensures logFile == None && LogDir() == None
      ensures this.serverId == serverId
      ensures this.persistence == persistence
    {
      listenAddress := poolConnection.listenAddress;
      tpAddress := templateProvider.address;
      tpAuthorityPublicKey := templateProvider.authorityPublicKey;
      authorityPublicKey := authorityConfig.publicKey;
      authoritySecretKey := authorityConfig.secretKey;
      certValiditySec := poolConnection.certValiditySec;
      this.coinbaseRewardScript := coinbaseRewardScript;
      poolSignature := poolConnection.signature;
      this.shareBatchSize := shareBatchSize;
      logFile := None;
      this.serverId := serverId;
      this.persistence := persistence;
    }

    /** The configured log directory, if any. */
    function LogDir(): (d: Option<string>)
      reads this
      ensures d == logFile
    {
      logFile
    }

    /** Sets the log directory; None keeps the current one. */
    method SetLogDir(logDir: Option<string>)
      modifies this`logFile
      ensures logDir.Some? ==> LogDir() == logDir
      ensures logDir.None? ==> LogDir() == old(LogDir())
    {
      if logDir.Some? {
        logFile := Some(logDir.value);
      }
    }

    method SetTpAddress(tpAddress: string)
      modifies this`tpAddress
      ensures this.tpAddress == tpAddress
    {
      this.tpAddress := tpAddress;
    }

    method SetCoinbaseRewardScript(coinbaseOutput: CoinbaseRewardScript)
      modifies this`coinbaseRewardScript
      ensures coinbaseRewardScript == coinbaseOutput
    {
      coinbaseRewardScript := coinbaseOutput;
    }
  }
}
