/** Where each setting comes from: an option on the command line wins over
    the properties file, the file wins over the state before it, and
    `setDefaults` only fills what is still missing. */
module PrecedenceFacts {
  import opened Basics
  import opened JavaText
  import opened ValueParsers
  import opened Resolution
  import opened DefaultsFacts

  const NO_ENDPOINTS: EndpointArgs := EndpointArgs(NO_MYSQL, NO_MYSQL)

  /** The command-line overlay, field by field: an option that is present
      decides its field (a parsed option through its parser), an absent one
      leaves the field as it was. */
  lemma ApplyOptionsFields(s: ConfigState, opts: OptionSet, endpoints: EndpointArgs)
    requires OptionsWellFormed(opts)
    requires ApplyOptions(s, opts, endpoints).Ok?
    ensures var c := ApplyOptions(s, opts, endpoints).value;
      && c.producerType == OptionOr(opts, "producer", s.producerType)
      && c.bootstrapperType == OptionOr(opts, "bootstrapper", s.bootstrapperType)
      && c.outputFile == OptionOr(opts, "output_file", s.outputFile)
      && c.kafkaTopic == OptionOr(opts, "kafka_topic", s.kafkaTopic)
      && c.includeDatabases == OptionOr(opts, "include_dbs", s.includeDatabases)
      && c.excludeDatabases == OptionOr(opts, "exclude_dbs", s.excludeDatabases)
      && c.includeTables == OptionOr(opts, "include_tables", s.includeTables)
      && c.excludeTables == OptionOr(opts, "exclude_tables", s.excludeTables)
      && c.replayMode == (s.replayMode || "replay" in opts)
      && c.maxwellMysql == Overlay(s.maxwellMysql, endpoints.primary)
      && c.replicationMysql == Overlay(s.replicationMysql, endpoints.replication)
      && c.kafkaProperties == (if "kafka.bootstrap.servers" in opts
                               then s.kafkaProperties["bootstrap.servers" := opts["kafka.bootstrap.servers"].value]
                               else s.kafkaProperties)
      && ("log_level" in opts ==> c.logLevel.Some? && ParseLogLevel(opts["log_level"].value) == Ok(c.logLevel.value))
      && ("log_level" !in opts ==> c.logLevel == s.logLevel)
      && ("max_schemas" in opts ==> c.maxSchemas.Some? && IntegerValueOf(opts["max_schemas"]) == Ok(c.maxSchemas.value))
      && ("max_schemas" !in opts ==> c.maxSchemas == s.maxSchemas)
      && ("bootstrapper_fetch_size" in opts ==>
            c.bootstrapperBatchFetchSize.Some? &&
            IntegerValueOf(opts["bootstrapper_fetch_size"]) == Ok(c.bootstrapperBatchFetchSize.value))
      && ("bootstrapper_fetch_size" !in opts ==> c.bootstrapperBatchFetchSize == s.bootstrapperBatchFetchSize)
      && ("init_position" in opts ==>
            c.initPosition.Some? && ParseInitPosition(opts["init_position"].value) == Ok(c.initPosition.value))
      && ("init_position" !in opts ==> c.initPosition == s.initPosition)
      && c.hostDefaultWarned == s.hostDefaultWarned
      && c.schemaStoreMaxSchemas == s.schemaStoreMaxSchemas
  {
    var withLevel := LogLevelOption(s, opts).value;
    var withKinds := KindOptions(EndpointOptions(withLevel, endpoints), opts).value;
    var withSchemas := MaxSchemasOption(SinkOptions(withKinds, opts), opts).value;
    var withPosition := InitPositionOption(withSchemas, opts).value;
    assert ApplyOptions(s, opts, endpoints).value == ReplayAndFilterOptions(withPosition, opts);
  }

  /** The properties-file overlay, field by field, once the file is loaded:
      the file replaces every plain field (null when its key is missing),
      both endpoints, and `max_schemas` and `log_level` only when their key
      is present; its `kafka.` keys are added to the broker properties. */
  lemma FileOverlayFields(s: ConfigState, p: Properties)
    requires WellFormed(p)
    requires FileOverlay(s, p).Ok?
    ensures var c := FileOverlay(s, p).value;
      && c.producerType == GetProperty(p, "producer")
      && c.bootstrapperType == GetProperty(p, "bootstrapper")
      && c.outputFile == GetProperty(p, "output_file")
      && c.kafkaTopic == GetProperty(p, "kafka_topic")
      && c.includeDatabases == GetProperty(p, "include_dbs")
      && c.excludeDatabases == GetProperty(p, "exclude_dbs")
      && c.includeTables == GetProperty(p, "include_tables")
      && c.excludeTables == GetProperty(p, "exclude_tables")
      && c.maxwellMysql.host == Some(GetPropertyOr(p, "host", "127.0.0.1"))
      && c.maxwellMysql.port.Some?
      && IntegerValueOf(Some(GetPropertyOr(p, "port", "3306"))) == Ok(c.maxwellMysql.port.value)
      && c.maxwellMysql.user == GetProperty(p, "user")
      && c.maxwellMysql.password == GetProperty(p, "password")
      && c.replicationMysql.host == GetProperty(p, "replication_host")
      && c.replicationMysql.port.Some?
      && IntegerValueOf(Some(GetPropertyOr(p, "replication_port", "3306"))) == Ok(c.replicationMysql.port.value)
      && c.replicationMysql.user == GetProperty(p, "replication_user")
      && c.replicationMysql.password == GetProperty(p, "replication_password")
      && ("max_schemas" in p.entries ==>
            c.maxSchemas.Some? && IntegerValueOf(Some(p.entries["max_schemas"])) == Ok(c.maxSchemas.value))
      && ("max_schemas" !in p.entries ==> c.maxSchemas == s.maxSchemas)
      && ("log_level" in p.entries ==> c.logLevel.Some? && ParseLogLevel(p.entries["log_level"]) == Ok(c.logLevel.value))
      && ("log_level" !in p.entries ==> c.logLevel == s.logLevel)
      && c.kafkaProperties == KafkaOverlay(s.kafkaProperties, p.entries, p.keyOrder)
      && c.bootstrapperBatchFetchSize == s.bootstrapperBatchFetchSize
      && c.initPosition == s.initPosition && c.replayMode == s.replayMode
      && c.hostDefaultWarned == s.hostDefaultWarned && c.schemaStoreMaxSchemas == s.schemaStoreMaxSchemas
  {
    var withEndpoints := FileEndpoints(s, p).value;
    var withSchemas := FileMaxSchemas(FileStrings(withEndpoints, p), p).value;
    var withLevel := FileLogLevel(withSchemas, p).value;
    assert FileOverlay(s, p).value == FileKafkaProperties(withLevel, p);
  }

  /** The file that `parse` loads, if any. */
  predicate LoadsFile(opts: OptionSet, fs: FileSystem, p: Properties)
    requires OptionsWellFormed(opts)
  {
    ChosenFile(opts).0 in fs && fs[ChosenFile(opts).0] == Readable(p)
  }

  /** With a loaded file, an option that is present wins over the file and
      the file decides the fields whose option is absent: the plain string
      fields and the broker list. */
  lemma CommandLineOverFile(s: ConfigState, opts: OptionSet, fs: FileSystem, endpoints: EndpointArgs, p: Properties)
    requires OptionsWellFormed(opts) && FilesWellFormed(fs) && LoadsFile(opts, fs, p)
    requires ParseSpec(s, opts, fs, endpoints).Ok?
    ensures var c := ParseSpec(s, opts, fs, endpoints).value;
      && c.producerType == (if "producer" in opts then opts["producer"] else GetProperty(p, "producer"))
      && c.bootstrapperType == (if "bootstrapper" in opts then opts["bootstrapper"] else GetProperty(p, "bootstrapper"))
      && c.outputFile == (if "output_file" in opts then opts["output_file"] else GetProperty(p, "output_file"))
      && c.kafkaTopic == (if "kafka_topic" in opts then opts["kafka_topic"] else GetProperty(p, "kafka_topic"))
      && c.includeDatabases == (if "include_dbs" in opts then opts["include_dbs"] else GetProperty(p, "include_dbs"))
      && c.excludeDatabases == (if "exclude_dbs" in opts then opts["exclude_dbs"] else GetProperty(p, "exclude_dbs"))
      && c.includeTables == (if "include_tables" in opts then opts["include_tables"] else GetProperty(p, "include_tables"))
      && c.excludeTables == (if "exclude_tables" in opts then opts["exclude_tables"] else GetProperty(p, "exclude_tables"))
      && ("kafka.bootstrap.servers" in opts ==>
            "bootstrap.servers" in c.kafkaProperties &&
            c.kafkaProperties["bootstrap.servers"] == opts["kafka.bootstrap.servers"].value)
      && ("kafka.bootstrap.servers" !in opts ==>
            c.kafkaProperties == KafkaOverlay(s.kafkaProperties, p.entries, p.keyOrder))
  {
    var afterFile := ParseFileSpec(s, fs, ChosenFile(opts).0, ChosenFile(opts).1).value;
    assert afterFile == FileOverlay(s, p).value;
    FileOverlayFields(s, p);
    ApplyOptionsFields(afterFile, opts, endpoints);
  }

  /** The same precedence for the parsed fields: an option that is present
      decides `log_level` and `max_schemas` through its parser; otherwise the
      file's key does, when the file has one; otherwise the earlier value
      stays. */
  lemma CommandLineOverFileParsed(s: ConfigState, opts: OptionSet, fs: FileSystem, endpoints: EndpointArgs, p: Properties)
    requires OptionsWellFormed(opts) && FilesWellFormed(fs) && LoadsFile(opts, fs, p)
    requires ParseSpec(s, opts, fs, endpoints).Ok?
    ensures var c := ParseSpec(s, opts, fs, endpoints).value;
      && ("log_level" in opts ==> c.logLevel.Some? && ParseLogLevel(opts["log_level"].value) == Ok(c.logLevel.value))
      && ("log_level" !in opts && "log_level" in p.entries ==>
            c.logLevel.Some? && ParseLogLevel(p.entries["log_level"]) == Ok(c.logLevel.value))
      && ("log_level" !in opts && "log_level" !in p.entries ==> c.logLevel == s.logLevel)
      && ("max_schemas" in opts ==> c.maxSchemas.Some? && IntegerValueOf(opts["max_schemas"]) == Ok(c.maxSchemas.value))
      && ("max_schemas" !in opts && "max_schemas" in p.entries ==>
            c.maxSchemas.Some? && IntegerValueOf(Some(p.entries["max_schemas"])) == Ok(c.maxSchemas.value))
      && ("max_schemas" !in opts && "max_schemas" !in p.entries ==> c.maxSchemas == s.maxSchemas)
  {
    var afterFile := ParseFileSpec(s, fs, ChosenFile(opts).0, ChosenFile(opts).1).value;
    assert afterFile == FileOverlay(s, p).value;
    FileOverlayFields(s, p);
    ApplyOptionsFields(afterFile, opts, endpoints);
  }

  /** The same precedence for the endpoints: each part the endpoint options
      give wins, and every other part is the file's (the primary host with
      its 127.0.0.1 fallback, both ports parsed with their 3306 fallback). */
  lemma CommandLineOverFileEndpoints(s: ConfigState, opts: OptionSet, fs: FileSystem, endpoints: EndpointArgs, p: Properties)
    requires OptionsWellFormed(opts) && FilesWellFormed(fs) && LoadsFile(opts, fs, p)
    requires ParseSpec(s, opts, fs, endpoints).Ok?
    ensures var c := ParseSpec(s, opts, fs, endpoints).value;
      var primary, replication := endpoints.primary, endpoints.replication;
      && c.maxwellMysql.host == (if primary.host.Some? then primary.host else Some(GetPropertyOr(p, "host", "127.0.0.1")))
      && (primary.port.Some? ==> c.maxwellMysql.port == primary.port)
      && (primary.port.None? ==>
            c.maxwellMysql.port.Some? && IntegerValueOf(Some(GetPropertyOr(p, "port", "3306"))) == Ok(c.maxwellMysql.port.value))
      && c.maxwellMysql.user == (if primary.user.Some? then primary.user else GetProperty(p, "user"))
      && c.maxwellMysql.password == (if primary.password.Some? then primary.password else GetProperty(p, "password"))
      && c.replicationMysql.host == (if replication.host.Some? then replication.host else GetProperty(p, "replication_host"))
      && (replication.port.Some? ==> c.replicationMysql.port == replication.port)
      && (replication.port.None? ==>
            c.replicationMysql.port.Some? &&
            IntegerValueOf(Some(GetPropertyOr(p, "replication_port", "3306"))) == Ok(c.replicationMysql.port.value))
      && c.replicationMysql.user == (if replication.user.Some? then replication.user else GetProperty(p, "replication_user"))
      && c.replicationMysql.password == (if replication.password.Some? then replication.password
                                         else GetProperty(p, "replication_password"))
  {
    var afterFile := ParseFileSpec(s, fs, ChosenFile(opts).0, ChosenFile(opts).1).value;
    assert afterFile == FileOverlay(s, p).value;
    FileOverlayFields(s, p);
    ApplyOptionsFields(afterFile, opts, endpoints);
  }

  /** A file that exists but cannot be read is fatal, whether it was named by
      `--config` or is the default file, and this comes before everything
      else. */
  lemma UnreadableFileFatal(opts: OptionSet, fs: FileSystem, endpoints: EndpointArgs)
    requires OptionsWellFormed(opts) && FilesWellFormed(fs)
    requires ChosenFile(opts).0 in fs && fs[ChosenFile(opts).0] == Unreadable
    ensures Resolve(opts, fs, endpoints) == Err(ConfigFileUnreadable(ChosenFile(opts).0))
    ensures "config" !in opts ==> Resolve(opts, fs, endpoints) == Err(ConfigFileUnreadable(DEFAULT_CONFIG_FILE))
    ensures "config" in opts ==> Resolve(opts, fs, endpoints) == Err(ConfigFileUnreadable(opts["config"].value))
  {
  }

  /** Without `--config`, a missing default file is no error and changes
      nothing. */
  lemma MissingDefaultFileIgnored(s: ConfigState, fs: FileSystem)
    requires FilesWellFormed(fs) && DEFAULT_CONFIG_FILE !in fs
    ensures ParseFileSpec(s, fs, DEFAULT_CONFIG_FILE, false) == Ok(s)
  {
  }

  /** A file named by `--config` must exist, and the failure to find it
      comes before everything else, help included. */
  lemma MissingConfigFileFatal(opts: OptionSet, fs: FileSystem, endpoints: EndpointArgs)
    requires OptionsWellFormed(opts) && FilesWellFormed(fs)
    requires "config" in opts && opts["config"].value !in fs
    ensures Resolve(opts, fs, endpoints) == Err(ConfigFileNotFound(opts["config"].value))
  {
  }

  /** `--help` is answered once the file has been read, before any other
      option is looked at. */
  lemma HelpAfterFile(opts: OptionSet, fs: FileSystem, endpoints: EndpointArgs)
    requires OptionsWellFormed(opts) && FilesWellFormed(fs) && "help" in opts
    ensures var file := ParseFileSpec(INITIAL, fs, ChosenFile(opts).0, ChosenFile(opts).1);
      Resolve(opts, fs, endpoints) == if file.Err? then Err(file.failure) else Err(Usage(HelpRequested))
  {
  }

  /** Without any file, the primary host comes only from the command line;
      when it is not given the warning is logged and localhost is used. */
  lemma NoFileHostDefaultsToLocalhost(opts: OptionSet, fs: FileSystem, endpoints: EndpointArgs)
    requires OptionsWellFormed(opts) && FilesWellFormed(fs)
    requires "config" !in opts && DEFAULT_CONFIG_FILE !in fs
    requires Resolve(opts, fs, endpoints).Ok?
    ensures var c := Resolve(opts, fs, endpoints).value;
      && c.maxwellMysql.host == (if endpoints.primary.host.Some? then endpoints.primary.host else Some("localhost"))
      && c.hostDefaultWarned == endpoints.primary.host.None?
  {
    var parsed := ParseSpec(INITIAL, opts, fs, endpoints).value;
    assert ParseFileSpec(INITIAL, fs, DEFAULT_CONFIG_FILE, false) == Ok(INITIAL);
    ApplyOptionsFields(INITIAL, opts, endpoints);
    DefaultsFill(parsed);
  }

  /** A loaded file always supplies a primary host (127.0.0.1 when it has no
      `host` key), so the warning is never logged. */
  lemma FileHostNeverWarns(opts: OptionSet, fs: FileSystem, endpoints: EndpointArgs, p: Properties)
    requires OptionsWellFormed(opts) && FilesWellFormed(fs) && LoadsFile(opts, fs, p)
    requires Resolve(opts, fs, endpoints).Ok?
    ensures var c := Resolve(opts, fs, endpoints).value;
      && !c.hostDefaultWarned
      && c.maxwellMysql.host == (if endpoints.primary.host.Some? then endpoints.primary.host
                                 else Some(GetPropertyOr(p, "host", "127.0.0.1")))
  {
    var parsed := ParseSpec(INITIAL, opts, fs, endpoints).value;
    var afterFile := ParseFileSpec(INITIAL, fs, ChosenFile(opts).0, ChosenFile(opts).1).value;
    assert afterFile == FileOverlay(INITIAL, p).value;
    FileOverlayFields(INITIAL, p);
    ApplyOptionsFields(afterFile, opts, endpoints);
    CommandLineOverFileEndpoints(INITIAL, opts, fs, endpoints, p);
    DefaultsFill(parsed);
  }

  /** Without a replication host from either source, the replication
      endpoint ends up equal to the primary endpoint. */
  lemma ReplicationMirrorsPrimary(opts: OptionSet, fs: FileSystem, endpoints: EndpointArgs)
    requires OptionsWellFormed(opts) && FilesWellFormed(fs)
    requires endpoints.replication.host.None?
    requires forall p :: LoadsFile(opts, fs, p) ==> "replication_host" !in p.entries
    requires Resolve(opts, fs, endpoints).Ok?
    ensures var c := Resolve(opts, fs, endpoints).value;
      c.replicationMysql == c.maxwellMysql
  {
    var parsed := ParseSpec(INITIAL, opts, fs, endpoints).value;
    var afterFile := ParseFileSpec(INITIAL, fs, ChosenFile(opts).0, ChosenFile(opts).1).value;
    if ChosenFile(opts).0 in fs && fs[ChosenFile(opts).0].Readable? {
      var p := fs[ChosenFile(opts).0].properties;
      assert LoadsFile(opts, fs, p);
      assert afterFile == FileOverlay(INITIAL, p).value;
      FileOverlayFields(INITIAL, p);
    } else {
      assert afterFile == INITIAL;
    }
    ApplyOptionsFields(afterFile, opts, endpoints);
    DefaultsReplication(parsed);
  }

  /** An empty command line with no file: every default applies. */
  lemma ResolveDefaultsOnly()
    ensures Resolve(map[], map[], NO_ENDPOINTS) == Ok(INITIAL.(
      producerType := Some("stdout"),
      maxwellMysql := MysqlConfig(Some("localhost"), Some(3306), Some("maxwell"), None),
      replicationMysql := MysqlConfig(Some("localhost"), Some(3306), Some("maxwell"), None),
      bootstrapperType := Some("async"),
      bootstrapperBatchFetchSize := Some(64000),
      hostDefaultWarned := true))
  {
    assert ParseSpec(INITIAL, map[], map[], NO_ENDPOINTS) == Ok(INITIAL);
  }

  /** The kafka producer needs `kafka.bootstrap.servers`, from the file or
      from the command line. */
  lemma KafkaProducerNeedsServers()
    ensures Resolve(map["producer" := Some("kafka")], map[], NO_ENDPOINTS) == Err(Usage(KafkaServersMissing))
    ensures Resolve(map["producer" := Some("kafka"), "kafka.bootstrap.servers" := Some("b:9092")], map[], NO_ENDPOINTS).Ok?
  {
    var opts := map["producer" := Some("kafka"), "kafka.bootstrap.servers" := Some("b:9092")];
    ApplyOptionsFields(INITIAL, opts, NO_ENDPOINTS);
  }

  /** `--max_schemas` has an optional argument; given without one it reaches
      `Integer.valueOf(null)`. */
  lemma MaxSchemasWithoutArgument()
    ensures Resolve(map["max_schemas" := None], map[], NO_ENDPOINTS) == Err(NumberFormat(None))
  {
  }
}
