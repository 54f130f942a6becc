/** The configuration as a value, and the four resolution steps as functions
    of that value: the properties-file overlay (`parseFile`), the
    command-line overlay (`parse`), and the ordered defaulting and
    validation (`setDefaults`). The class in module `Maxwell` performs the
    same steps field by field and is proved to agree with these functions. */
module Resolution {
  import opened Basics
  import opened JavaText
  import opened ValueParsers

  const DEFAULT_CONFIG_FILE: string := "config.properties"
  const KAFKA_PREFIX: string := "kafka."
  const DEFAULT_MYSQL_PORT: int32 := 3306
  const DEFAULT_FETCH_SIZE: int32 := 64000
  const BOOTSTRAPPERS: set<string> := {"async", "sync", "none"}

  /** One MySQL endpoint; every part may be null. */
  datatype MysqlConfig = MysqlConfig(
    host: Option<string>,
    port: Option<int32>,
    user: Option<string>,
    password: Option<string>)

  const NO_MYSQL: MysqlConfig := MysqlConfig(None, None, None, None)

  /** Every field of the configuration object, plus two records of effects
      outside it: whether the "host not specified" warning was logged, and
      the value handed to the schema store's `setMaxSchemas`. */
  datatype ConfigState = ConfigState(
    maxwellMysql: MysqlConfig,
    replicationMysql: MysqlConfig,
    includeDatabases: Option<string>,
    excludeDatabases: Option<string>,
    includeTables: Option<string>,
    excludeTables: Option<string>,
    kafkaProperties: map<string, string>,
    kafkaTopic: Option<string>,
    producerType: Option<string>,
    bootstrapperType: Option<string>,
    bootstrapperBatchFetchSize: Option<int32>,
    outputFile: Option<string>,
    logLevel: Option<string>,
    maxSchemas: Option<int32>,
    initPosition: Option<BinlogPosition>,
    replayMode: bool,
    hostDefaultWarned: bool,
    schemaStoreMaxSchemas: Option<int32>)

  /** The state the no-argument constructor leaves. */
  const INITIAL: ConfigState :=
    ConfigState(NO_MYSQL, NO_MYSQL, None, None, None, None, map[], None, None, None, None,
                None, None, None, None, false, false, None)

  // ---------------------------------------------------------------------
  // Inputs

  /** A loaded properties file: its entries and the order in which its
      table enumerates the keys. */
  datatype Properties = Properties(entries: map<string, string>, keyOrder: seq<string>)

  /** The key order lists every key exactly once. */
  predicate WellFormed(p: Properties)
  {
    && (forall i :: 0 <= i < |p.keyOrder| ==> p.keyOrder[i] in p.entries)
    && (forall k :: k in p.entries ==> k in p.keyOrder)
    && (forall i, j :: 0 <= i < j < |p.keyOrder| ==> p.keyOrder[i] != p.keyOrder[j])
  }

  /** `getProperty(key)`. */
  function GetProperty(p: Properties, key: string): Option<string>
  {
    if key in p.entries then Some(p.entries[key]) else None
  }

  /** `getProperty(key, fallback)`. */
  function GetPropertyOr(p: Properties, key: string, fallback: string): string
  {
    if key in p.entries then p.entries[key] else fallback
  }

  /** A file that exists is either unreadable or loads as properties. */
  datatype FileState = Unreadable | Readable(properties: Properties)

  /** The files visible to the process, by name; a missing name is a file
      that does not exist. */
  type FileSystem = map<string, FileState>

  predicate FilesWellFormed(fs: FileSystem)
  {
    forall path :: path in fs && fs[path].Readable? ==> WellFormed(fs[path].properties)
  }

  /** The parsed command line: an option that was given maps to its
      argument, or to `None` when it has no argument. */
  type OptionSet = map<string, Option<string>>

  /** Options declared with a required argument. */
  const REQUIRED_ARGUMENT: set<string> :=
    {"config", "log_level", "host", "port", "user", "replication_host", "replication_user",
     "replication_port", "producer", "output_file", "kafka.bootstrap.servers", "bootstrapper",
     "bootstrapper_fetch_size", "init_position"}

  /** The option parser never yields an option with a required argument
      without that argument. */
  predicate OptionsWellFormed(opts: OptionSet)
  {
    forall name :: name in opts && name in REQUIRED_ARGUMENT ==> opts[name].Some?
  }

  /** What reading the endpoint options assigns, for the primary endpoint and
      for the replication one (`replication_` options); `None` leaves the
      field as it was. */
  datatype EndpointArgs = EndpointArgs(primary: MysqlConfig, replication: MysqlConfig)

  function Overlay(base: MysqlConfig, args: MysqlConfig): MysqlConfig
  {
    MysqlConfig(
      if args.host.Some? then args.host else base.host,
      if args.port.Some? then args.port else base.port,
      if args.user.Some? then args.user else base.user,
      if args.password.Some? then args.password else base.password)
  }

  function OptionOr(opts: OptionSet, name: string, current: Option<string>): Option<string>
  {
    if name in opts then opts[name] else current
  }

  // ---------------------------------------------------------------------
  // File overlay

  /** `readPropertiesFile`: a missing file is fatal only when it was asked
      for; a missing default file means "no file". */
  function ReadPropertiesFile(fs: FileSystem, filename: string, abortOnMissing: bool): (r: Result<Option<Properties>>)
    requires FilesWellFormed(fs)
    ensures filename !in fs && abortOnMissing ==> r == Err(ConfigFileNotFound(filename))
    ensures filename !in fs && !abortOnMissing ==> r == Ok(None)
    ensures filename in fs && fs[filename].Unreadable? ==> r == Err(ConfigFileUnreadable(filename))
    ensures filename in fs && fs[filename].Readable? ==> r == Ok(Some(fs[filename].properties))
    ensures r.Ok? && r.value.Some? ==> WellFormed(r.value.value)
  {
    if filename !in fs then
      if abortOnMissing then Err(ConfigFileNotFound(filename)) else Ok(None)
    else
      match fs[filename]
      case Unreadable => Err(ConfigFileUnreadable(filename))
      case Readable(p) => Ok(Some(p))
  }

  predicate IsKafkaKey(key: string) { StartsWith(key, KAFKA_PREFIX) }

  /** The broker property a `kafka.` key becomes: every occurrence of
      `kafka.` is removed, not only the prefix. */
  function BrokerKey(key: string): string { Replace(key, KAFKA_PREFIX, []) }

  /** The broker properties after the keys in `keys` were visited in order,
      each `kafka.` key storing its value under its broker key. */
  function KafkaOverlay(props: map<string, string>, entries: map<string, string>, keys: seq<string>): map<string, string>
    requires forall i :: 0 <= i < |keys| ==> keys[i] in entries
    decreases |keys|
  {
    if keys == [] then props
    else
      var before := KafkaOverlay(props, entries, keys[..|keys| - 1]);
      var key := keys[|keys| - 1];
      if IsKafkaKey(key) then before[BrokerKey(key) := entries[key]] else before
  }

  /** `parseFile` once the file is loaded, block by block; the two ports,
      `max_schemas` and `log_level` are parsed in that order and the first
      failure ends it. */
  function FileOverlay(s: ConfigState, p: Properties): Result<ConfigState>
    requires WellFormed(p)
  {
    var withEndpoints :- FileEndpoints(s, p);
    var withSchemas :- FileMaxSchemas(FileStrings(withEndpoints, p), p);
    var withLevel :- FileLogLevel(withSchemas, p);
    Ok(FileKafkaProperties(withLevel, p))
  }

  /** Both endpoints are replaced from the file: the primary host falls back
      to 127.0.0.1, both ports to 3306, everything else to null. */
  function FileEndpoints(s: ConfigState, p: Properties): Result<ConfigState>
  {
    var port :- IntegerValueOf(Some(GetPropertyOr(p, "port", "3306")));
    var replicationPort :- IntegerValueOf(Some(GetPropertyOr(p, "replication_port", "3306")));
    Ok(s.(
      maxwellMysql := MysqlConfig(Some(GetPropertyOr(p, "host", "127.0.0.1")), Some(port),
                                  GetProperty(p, "user"), GetProperty(p, "password")),
      replicationMysql := MysqlConfig(GetProperty(p, "replication_host"), Some(replicationPort),
                                      GetProperty(p, "replication_user"), GetProperty(p, "replication_password"))))
  }

  /** The plain string fields are replaced from the file, null when absent. */
  function FileStrings(s: ConfigState, p: Properties): ConfigState
  {
    FileFilters(FileKinds(s, p), p)
  }

  /** The producer, the bootstrapper and their destinations. */
  function FileKinds(s: ConfigState, p: Properties): ConfigState
  {
    s.(
      producerType := GetProperty(p, "producer"),
      bootstrapperType := GetProperty(p, "bootstrapper"),
      outputFile := GetProperty(p, "output_file"),
      kafkaTopic := GetProperty(p, "kafka_topic"))
  }

  /** The four database and table filters. */
  function FileFilters(s: ConfigState, p: Properties): ConfigState
  {
    s.(
      includeDatabases := GetProperty(p, "include_dbs"),
      excludeDatabases := GetProperty(p, "exclude_dbs"),
      includeTables := GetProperty(p, "include_tables"),
      excludeTables := GetProperty(p, "exclude_tables"))
  }

  /** `max_schemas` is assigned only when the key is present. */
  function FileMaxSchemas(s: ConfigState, p: Properties): Result<ConfigState>
  {
    if "max_schemas" in p.entries then
      var n :- IntegerValueOf(GetProperty(p, "max_schemas"));
      Ok(s.(maxSchemas := Some(n)))
    else Ok(s)
  }

  /** `log_level` is assigned only when the key is present, and must parse. */
  function FileLogLevel(s: ConfigState, p: Properties): Result<ConfigState>
  {
    if "log_level" in p.entries then
      var level :- ParseLogLevel(p.entries["log_level"]);
      Ok(s.(logLevel := Some(level)))
    else Ok(s)
  }

  /** Every `kafka.` key, in the file's key order, becomes a broker property. */
  function FileKafkaProperties(s: ConfigState, p: Properties): ConfigState
    requires WellFormed(p)
  {
    s.(kafkaProperties := KafkaOverlay(s.kafkaProperties, p.entries, p.keyOrder))
  }

  /** `parseFile(filename, abortOnMissing)`. */
  function ParseFileSpec(s: ConfigState, fs: FileSystem, filename: string, abortOnMissing: bool): Result<ConfigState>
    requires FilesWellFormed(fs)
  {
    var file :- ReadPropertiesFile(fs, filename, abortOnMissing);
    if file.None? then Ok(s) else FileOverlay(s, file.value)
  }

  // ---------------------------------------------------------------------
  // Command-line overlay

  /** The part of `parse` after the file and the help check, block by block:
      each option assigns its field only when it is present. */
  function ApplyOptions(s: ConfigState, opts: OptionSet, endpoints: EndpointArgs): Result<ConfigState>
    requires OptionsWellFormed(opts)
  {
    var withLevel :- LogLevelOption(s, opts);
    var withKinds :- KindOptions(EndpointOptions(withLevel, endpoints), opts);
    var withSchemas :- MaxSchemasOption(SinkOptions(withKinds, opts), opts);
    var withPosition :- InitPositionOption(withSchemas, opts);
    Ok(ReplayAndFilterOptions(withPosition, opts))
  }

  function LogLevelOption(s: ConfigState, opts: OptionSet): Result<ConfigState>
    requires OptionsWellFormed(opts)
  {
    if "log_level" in opts then
      var level :- ParseLogLevel(opts["log_level"].value);
      Ok(s.(logLevel := Some(level)))
    else Ok(s)
  }

  function EndpointOptions(s: ConfigState, endpoints: EndpointArgs): ConfigState
  {
    s.(maxwellMysql := Overlay(s.maxwellMysql, endpoints.primary),
       replicationMysql := Overlay(s.replicationMysql, endpoints.replication))
  }

  /** `producer`, `bootstrapper` and `bootstrapper_fetch_size`. */
  function KindOptions(s: ConfigState, opts: OptionSet): Result<ConfigState>
  {
    var withKinds := s.(producerType := OptionOr(opts, "producer", s.producerType),
                        bootstrapperType := OptionOr(opts, "bootstrapper", s.bootstrapperType));
    if "bootstrapper_fetch_size" in opts then
      var n :- IntegerValueOf(opts["bootstrapper_fetch_size"]);
      Ok(withKinds.(bootstrapperBatchFetchSize := Some(n)))
    else Ok(withKinds)
  }

  /** `kafka.bootstrap.servers`, `kafka_topic` and `output_file`. */
  function SinkOptions(s: ConfigState, opts: OptionSet): ConfigState
    requires OptionsWellFormed(opts)
  {
    s.(kafkaProperties :=
         if "kafka.bootstrap.servers" in opts
         then s.kafkaProperties["bootstrap.servers" := opts["kafka.bootstrap.servers"].value]
         else s.kafkaProperties,
       kafkaTopic := OptionOr(opts, "kafka_topic", s.kafkaTopic),
       outputFile := OptionOr(opts, "output_file", s.outputFile))
  }

  function MaxSchemasOption(s: ConfigState, opts: OptionSet): Result<ConfigState>
  {
    if "max_schemas" in opts then
      var n :- IntegerValueOf(opts["max_schemas"]);
      Ok(s.(maxSchemas := Some(n)))
    else Ok(s)
  }

  function InitPositionOption(s: ConfigState, opts: OptionSet): Result<ConfigState>
    requires OptionsWellFormed(opts)
  {
    if "init_position" in opts then
      var position :- ParseInitPosition(opts["init_position"].value);
      Ok(s.(initPosition := Some(position)))
    else Ok(s)
  }

  /** `replay` and the four filters. */
  function ReplayAndFilterOptions(s: ConfigState, opts: OptionSet): ConfigState
  {
    s.(replayMode := if "replay" in opts then true else s.replayMode,
       includeDatabases := OptionOr(opts, "include_dbs", s.includeDatabases),
       excludeDatabases := OptionOr(opts, "exclude_dbs", s.excludeDatabases),
       includeTables := OptionOr(opts, "include_tables", s.includeTables),
       excludeTables := OptionOr(opts, "exclude_tables", s.excludeTables))
  }

  /** The file `parse` reads: the one named by `--config` (which must then
      exist), otherwise the default file (which may be missing). */
  function ChosenFile(opts: OptionSet): (string, bool)
    requires OptionsWellFormed(opts)
  {
    if "config" in opts then (opts["config"].value, true) else (DEFAULT_CONFIG_FILE, false)
  }

  /** `parse`: the file first, then the help request, then the options. */
  function ParseSpec(s: ConfigState, opts: OptionSet, fs: FileSystem, endpoints: EndpointArgs): Result<ConfigState>
    requires OptionsWellFormed(opts) && FilesWellFormed(fs)
  {
    var afterFile :- ParseFileSpec(s, fs, ChosenFile(opts).0, ChosenFile(opts).1);
    if "help" in opts then Err(Usage(HelpRequested)) else ApplyOptions(afterFile, opts, endpoints)
  }

  // ---------------------------------------------------------------------
  // Defaulting and validation, in the order `setDefaults` runs them

  /** 1. The producer: stdout by default; kafka needs a broker list and file
      needs an output file. */
  function ResolveProducer(s: ConfigState): Result<ConfigState>
  {
    if s.producerType.None? then Ok(s.(producerType := Some("stdout")))
    else if s.producerType.value == "kafka" && "bootstrap.servers" !in s.kafkaProperties then
      Err(Usage(KafkaServersMissing))
    else if s.producerType.value == "file" && s.outputFile.None? then
      Err(Usage(OutputFileMissing))
    else Ok(s)
  }

  /** 2. The primary port and user. */
  function DefaultPrimaryPortAndUser(s: ConfigState): ConfigState
  {
    var m := s.maxwellMysql;
    s.(maxwellMysql := m.(
      port := if m.port.None? then Some(DEFAULT_MYSQL_PORT) else m.port,
      user := if m.user.None? then Some("maxwell") else m.user))
  }

  /** 3. The bootstrapper kind and the fetch size. */
  function ResolveBootstrapper(s: ConfigState): Result<ConfigState>
  {
    if s.bootstrapperType.Some? && s.bootstrapperType.value !in BOOTSTRAPPERS then
      Err(Usage(UnknownBootstrapper))
    else
      Ok(s.(
        bootstrapperType := if s.bootstrapperType.None? then Some("async") else s.bootstrapperType,
        bootstrapperBatchFetchSize :=
          if s.bootstrapperBatchFetchSize.None? then Some(DEFAULT_FETCH_SIZE) else s.bootstrapperBatchFetchSize))
  }

  /** 4. The primary host, with a warning when it is defaulted. */
  function DefaultPrimaryHost(s: ConfigState): ConfigState
  {
    if s.maxwellMysql.host.None? then
      s.(maxwellMysql := s.maxwellMysql.(host := Some("localhost")), hostDefaultWarned := true)
    else s
  }

  /** 5. A separate replication host needs the bootstrapper switched off. */
  function CheckReplicationHost(s: ConfigState): Result<ConfigState>
  {
    if s.replicationMysql.host.Some? && s.bootstrapperType != Some("none") then
      Err(Usage(ReplicationHostNeedsNoBootstrapper))
    else Ok(s)
  }

  /** 6. The replication endpoint: complete, absent (then a copy of the
      primary endpoint), or partial (an error). */
  function ResolveReplication(s: ConfigState): Result<ConfigState>
  {
    var r := s.replicationMysql.(
      port := if s.replicationMysql.port.None? then Some(DEFAULT_MYSQL_PORT) else s.replicationMysql.port);
    if r.host.None? || r.user.None? then
      if r.host.Some? || r.user.Some? || r.password.Some? then Err(Usage(PartialReplicationOptions))
      else Ok(s.(replicationMysql := s.maxwellMysql))
    else Ok(s.(replicationMysql := r))
  }

  /** 7. The schema store's history depth. */
  function RecordMaxSchemas(s: ConfigState): ConfigState
  {
    if s.maxSchemas.Some? then s.(schemaStoreMaxSchemas := s.maxSchemas) else s
  }

  /** `setDefaults`: the steps above in order, stopping at the first error. */
  function Defaults(s: ConfigState): Result<ConfigState>
  {
    var produced :- ResolveProducer(s);
    var bootstrapped :- ResolveBootstrapper(DefaultPrimaryPortAndUser(produced));
    var checked :- CheckReplicationHost(DefaultPrimaryHost(bootstrapped));
    var replicated :- ResolveReplication(checked);
    Ok(RecordMaxSchemas(replicated))
  }

  /** The constructor that takes the command line: parse, then defaults. */
  function Resolve(opts: OptionSet, fs: FileSystem, endpoints: EndpointArgs): Result<ConfigState>
    requires OptionsWellFormed(opts) && FilesWellFormed(fs)
  {
    var parsed :- ParseSpec(INITIAL, opts, fs, endpoints);
    Defaults(parsed)
  }
}
