/** The configuration object itself: public fields set one by one by
    `parseFile`, `parse` and `setDefaults`. Each method is proved to leave
    exactly the state (or report exactly the failure) that the matching
    function of module `Resolution` describes. */
module Maxwell {
  import opened Basics
  import opened JavaText
  import opened ValueParsers
  import opened Resolution

  class MaxwellConfig {
    var replicationMysql: MysqlConfig
    var maxwellMysql: MysqlConfig
    var includeDatabases: Option<string>
    var excludeDatabases: Option<string>
    var includeTables: Option<string>
    var excludeTables: Option<string>
    var kafkaProperties: map<string, string>
    var kafkaTopic: Option<string>
    var producerType: Option<string>
    var bootstrapperType: Option<string>
    var bootstrapperBatchFetchSize: Option<int32>
    var outputFile: Option<string>
    var logLevel: Option<string>
    var maxSchemas: Option<int32>
    var initPosition: Option<BinlogPosition>
    var replayMode: bool
    /** Set when the "host not specified" warning is logged. */
    var hostDefaultWarned: bool
    /** The value last passed to the schema store's `setMaxSchemas`. */
    var schemaStoreMaxSchemas: Option<int32>

    /** All fields as one value. */
    function Snapshot(): ConfigState
      reads this
    {
      ConfigState(maxwellMysql, replicationMysql, includeDatabases, excludeDatabases,
                  includeTables, excludeTables, kafkaProperties, kafkaTopic, producerType,
                  bootstrapperType, bootstrapperBatchFetchSize, outputFile, logLevel, maxSchemas,
                  initPosition, replayMode, hostDefaultWarned, schemaStoreMaxSchemas)
    }

    /** The no-argument constructor: empty broker properties, replay off,
        two empty endpoints. */
    constructor ()
      ensures Snapshot() == INITIAL
    {
      kafkaProperties := map[];
      replayMode := false;
      replicationMysql := NO_MYSQL;
      maxwellMysql := NO_MYSQL;
      includeDatabases, excludeDatabases, includeTables, excludeTables := None, None, None, None;
      kafkaTopic, producerType, bootstrapperType, bootstrapperBatchFetchSize := None, None, None, None;
      outputFile, logLevel, maxSchemas, initPosition := None, None, None, None;
      hostDefaultWarned, schemaStoreMaxSchemas := false, None;
    }

    /** The constructor that takes the command line: construct, `parse`,
        `setDefaults`. */
    static method FromArguments(opts: OptionSet, fs: FileSystem, endpoints: EndpointArgs)
      returns (config: MaxwellConfig, outcome: Outcome)
      requires OptionsWellFormed(opts) && FilesWellFormed(fs)
      ensures fresh(config)
      ensures outcome == OutcomeOf(Resolve(opts, fs, endpoints))
      ensures outcome.Pass? ==> config.Snapshot() == Resolve(opts, fs, endpoints).value
    {
      config := new MaxwellConfig();
      outcome := config.Parse(opts, fs, endpoints);
      if outcome.Fail? { return; }
      outcome := config.SetDefaults();
    }

    /** `parseFile(filename, abortOnMissing)`. */
    method ParseFile(filename: string, abortOnMissing: bool, fs: FileSystem) returns (outcome: Outcome)
      requires FilesWellFormed(fs)
      modifies this
      ensures outcome == OutcomeOf(ParseFileSpec(old(Snapshot()), fs, filename, abortOnMissing))
      ensures outcome.Pass? ==> Snapshot() == ParseFileSpec(old(Snapshot()), fs, filename, abortOnMissing).value
    {
      var file := ReadPropertiesFile(fs, filename, abortOnMissing);
      if file.Err? { return Fail(file.failure); }
      if file.value.None? { return Pass; }
      var p := file.value.value;
      outcome := ReadFileEndpoints(p);
      if outcome.Fail? { return; }
      ReadFileStrings(p);
      outcome := ReadFileMaxSchemas(p);
      if outcome.Fail? { return; }
      outcome := ReadFileLogLevel(p);
      if outcome.Fail? { return; }
      CopyKafkaProperties(p);
    }

    method ReadFileEndpoints(p: Properties) returns (outcome: Outcome)
      modifies this`maxwellMysql, this`replicationMysql
      ensures outcome == OutcomeOf(FileEndpoints(old(Snapshot()), p))
      ensures outcome.Pass? ==> Snapshot() == FileEndpoints(old(Snapshot()), p).value
    {
      maxwellMysql := maxwellMysql.(host := Some(GetPropertyOr(p, "host", "127.0.0.1")));
      maxwellMysql := maxwellMysql.(password := GetProperty(p, "password"));
      maxwellMysql := maxwellMysql.(user := GetProperty(p, "user"));
      var port := IntegerValueOf(Some(GetPropertyOr(p, "port", "3306")));
      if port.Err? { return Fail(port.failure); }
      maxwellMysql := maxwellMysql.(port := Some(port.value));

      replicationMysql := replicationMysql.(host := GetProperty(p, "replication_host"));
      replicationMysql := replicationMysql.(password := GetProperty(p, "replication_password"));
      replicationMysql := replicationMysql.(user := GetProperty(p, "replication_user"));
      var replicationPort := IntegerValueOf(Some(GetPropertyOr(p, "replication_port", "3306")));
      if replicationPort.Err? { return Fail(replicationPort.failure); }
      replicationMysql := replicationMysql.(port := Some(replicationPort.value));
      outcome := Pass;
    }

    method ReadFileStrings(p: Properties)
      modifies this`producerType, this`bootstrapperType, this`outputFile, this`kafkaTopic
      modifies this`includeDatabases, this`excludeDatabases, this`includeTables, this`excludeTables
      ensures Snapshot() == FileStrings(old(Snapshot()), p)
    {
      ReadFileKinds(p);
      ReadFileFilters(p);
    }

    method ReadFileKinds(p: Properties)
      modifies this`producerType, this`bootstrapperType, this`outputFile, this`kafkaTopic
      ensures Snapshot() == FileKinds(old(Snapshot()), p)
    {
      producerType := GetProperty(p, "producer");
      bootstrapperType := GetProperty(p, "bootstrapper");
      outputFile := GetProperty(p, "output_file");
      kafkaTopic := GetProperty(p, "kafka_topic");
    }

    method ReadFileFilters(p: Properties)
      modifies this`includeDatabases, this`excludeDatabases, this`includeTables, this`excludeTables
      ensures Snapshot() == FileFilters(old(Snapshot()), p)
    {
      includeDatabases := GetProperty(p, "include_dbs");
      excludeDatabases := GetProperty(p, "exclude_dbs");
      includeTables := GetProperty(p, "include_tables");
      excludeTables := GetProperty(p, "exclude_tables");
    }

    method ReadFileMaxSchemas(p: Properties) returns (outcome: Outcome)
      modifies this`maxSchemas
      ensures outcome == OutcomeOf(FileMaxSchemas(old(Snapshot()), p))
      ensures outcome.Pass? ==> Snapshot() == FileMaxSchemas(old(Snapshot()), p).value
    {
      var maxSchemaString := GetProperty(p, "max_schemas");
      if maxSchemaString.Some? {
        var n := IntegerValueOf(maxSchemaString);
        if n.Err? { return Fail(n.failure); }
        maxSchemas := Some(n.value);
      }
      outcome := Pass;
    }

    method ReadFileLogLevel(p: Properties) returns (outcome: Outcome)
      modifies this`logLevel
      ensures outcome == OutcomeOf(FileLogLevel(old(Snapshot()), p))
      ensures outcome.Pass? ==> Snapshot() == FileLogLevel(old(Snapshot()), p).value
    {
      if "log_level" in p.entries {
        var level := ParseLogLevel(p.entries["log_level"]);
        if level.Err? { return Fail(level.failure); }
        logLevel := Some(level.value);
      }
      outcome := Pass;
    }

    /** The `kafka.` keys of a loaded file, visited in the file's key order;
        the broker properties are updated in place. */
    method CopyKafkaProperties(p: Properties)
      requires WellFormed(p)
      modifies this`kafkaProperties
      ensures kafkaProperties == KafkaOverlay(old(kafkaProperties), p.entries, p.keyOrder)
      ensures Snapshot() == FileKafkaProperties(old(Snapshot()), p)
    {
      var i := 0;
      while i < |p.keyOrder|
        invariant 0 <= i <= |p.keyOrder|
        invariant kafkaProperties == KafkaOverlay(old(kafkaProperties), p.entries, p.keyOrder[..i])
      {
        var key := p.keyOrder[i];
        assert p.keyOrder[..i + 1][..i] == p.keyOrder[..i];
        if IsKafkaKey(key) {
          kafkaProperties := kafkaProperties[BrokerKey(key) := p.entries[key]];
        }
        i := i + 1;
      }
      assert p.keyOrder[..i] == p.keyOrder;
    }

    /** `parse`: the file, the help request, then each option that is present. */
    method Parse(opts: OptionSet, fs: FileSystem, endpoints: EndpointArgs) returns (outcome: Outcome)
      requires OptionsWellFormed(opts) && FilesWellFormed(fs)
      modifies this
      ensures outcome == OutcomeOf(ParseSpec(old(Snapshot()), opts, fs, endpoints))
      ensures outcome.Pass? ==> Snapshot() == ParseSpec(old(Snapshot()), opts, fs, endpoints).value
    {
      if "config" in opts {
        outcome := ParseFile(opts["config"].value, true, fs);
      } else {
        outcome := ParseFile(DEFAULT_CONFIG_FILE, false, fs);
      }
      if outcome.Fail? { return; }

      if "help" in opts { return Fail(Usage(HelpRequested)); }

      outcome := ApplyLogLevelOption(opts);
      if outcome.Fail? { return; }
      ApplyEndpointOptions(endpoints);
      outcome := ApplyKindOptions(opts);
      if outcome.Fail? { return; }
      ApplySinkOptions(opts);
      outcome := ApplyMaxSchemasOption(opts);
      if outcome.Fail? { return; }
      outcome := ApplyInitPositionOption(opts);
      if outcome.Fail? { return; }
      ApplyReplayAndFilterOptions(opts);
    }

    method ApplyLogLevelOption(opts: OptionSet) returns (outcome: Outcome)
      requires OptionsWellFormed(opts)
      modifies this`logLevel
      ensures outcome == OutcomeOf(LogLevelOption(old(Snapshot()), opts))
      ensures outcome.Pass? ==> Snapshot() == LogLevelOption(old(Snapshot()), opts).value
    {
      if "log_level" in opts {
        var level := ParseLogLevel(opts["log_level"].value);
        if level.Err? { return Fail(level.failure); }
        logLevel := Some(level.value);
      }
      outcome := Pass;
    }

    /** Reading the endpoint options (`parseOptions` with no prefix and with
        the `replication_` prefix). */
    method ApplyEndpointOptions(endpoints: EndpointArgs)
      modifies this`maxwellMysql, this`replicationMysql
      ensures Snapshot() == EndpointOptions(old(Snapshot()), endpoints)
    {
      maxwellMysql := Overlay(maxwellMysql, endpoints.primary);
      replicationMysql := Overlay(replicationMysql, endpoints.replication);
    }

    method ApplyKindOptions(opts: OptionSet) returns (outcome: Outcome)
      modifies this`producerType, this`bootstrapperType, this`bootstrapperBatchFetchSize
      ensures outcome == OutcomeOf(KindOptions(old(Snapshot()), opts))
      ensures outcome.Pass? ==> Snapshot() == KindOptions(old(Snapshot()), opts).value
    {
      if "producer" in opts { producerType := opts["producer"]; }
      if "bootstrapper" in opts { bootstrapperType := opts["bootstrapper"]; }
      if "bootstrapper_fetch_size" in opts {
        var n := IntegerValueOf(opts["bootstrapper_fetch_size"]);
        if n.Err? { return Fail(n.failure); }
        bootstrapperBatchFetchSize := Some(n.value);
      }
      outcome := Pass;
    }

    method ApplySinkOptions(opts: OptionSet)
      requires OptionsWellFormed(opts)
      modifies this`kafkaProperties, this`kafkaTopic, this`outputFile
      ensures Snapshot() == SinkOptions(old(Snapshot()), opts)
    {
      if "kafka.bootstrap.servers" in opts {
        kafkaProperties := kafkaProperties["bootstrap.servers" := opts["kafka.bootstrap.servers"].value];
      }
      if "kafka_topic" in opts { kafkaTopic := opts["kafka_topic"]; }
      if "output_file" in opts { outputFile := opts["output_file"]; }
    }

    method ApplyMaxSchemasOption(opts: OptionSet) returns (outcome: Outcome)
      modifies this`maxSchemas
      ensures outcome == OutcomeOf(MaxSchemasOption(old(Snapshot()), opts))
      ensures outcome.Pass? ==> Snapshot() == MaxSchemasOption(old(Snapshot()), opts).value
    {
      if "max_schemas" in opts {
        var n := IntegerValueOf(opts["max_schemas"]);
        if n.Err? { return Fail(n.failure); }
        maxSchemas := Some(n.value);
      }
      outcome := Pass;
    }

    method ApplyInitPositionOption(opts: OptionSet) returns (outcome: Outcome)
      requires OptionsWellFormed(opts)
      modifies this`initPosition
      ensures outcome == OutcomeOf(InitPositionOption(old(Snapshot()), opts))
      ensures outcome.Pass? ==> Snapshot() == InitPositionOption(old(Snapshot()), opts).value
    {
      if "init_position" in opts {
        var position := ParseInitPosition(opts["init_position"].value);
        if position.Err? { return Fail(position.failure); }
        initPosition := Some(position.value);
      }
      outcome := Pass;
    }

    method ApplyReplayAndFilterOptions(opts: OptionSet)
      modifies this`replayMode, this`includeDatabases, this`excludeDatabases
      modifies this`includeTables, this`excludeTables
      ensures Snapshot() == ReplayAndFilterOptions(old(Snapshot()), opts)
    {
      if "replay" in opts { replayMode := true; }
      if "include_dbs" in opts { includeDatabases := opts["include_dbs"]; }
      if "exclude_dbs" in opts { excludeDatabases := opts["exclude_dbs"]; }
      if "include_tables" in opts { includeTables := opts["include_tables"]; }
      if "exclude_tables" in opts { excludeTables := opts["exclude_tables"]; }
    }

    /** `setDefaults`: fill in and check, in order, stopping at the first violation. */
    method SetDefaults() returns (outcome: Outcome)
      modifies this
      ensures outcome == OutcomeOf(Defaults(old(Snapshot())))
      ensures outcome.Pass? ==> Snapshot() == Defaults(old(Snapshot())).value
    {
      outcome := ProducerStep();
      if outcome.Fail? { return; }
      PrimaryPortAndUserStep();
      outcome := BootstrapperStep();
      if outcome.Fail? { return; }
      PrimaryHostStep();
      outcome := ReplicationHostStep();
      if outcome.Fail? { return; }
      outcome := ReplicationStep();
      if outcome.Fail? { return; }
      MaxSchemasStep();
    }

    method ProducerStep() returns (outcome: Outcome)
      modifies this`producerType
      ensures outcome == OutcomeOf(ResolveProducer(old(Snapshot())))
      ensures outcome.Pass? ==> Snapshot() == ResolveProducer(old(Snapshot())).value
    {
      if producerType.None? {
        producerType := Some("stdout");
      } else if producerType.value == "kafka" && "bootstrap.servers" !in kafkaProperties {
        return Fail(Usage(KafkaServersMissing));
      } else if producerType.value == "file" && outputFile.None? {
        return Fail(Usage(OutputFileMissing));
      }
      outcome := Pass;
    }

    method PrimaryPortAndUserStep()
      modifies this`maxwellMysql
      ensures Snapshot() == DefaultPrimaryPortAndUser(old(Snapshot()))
    {
      if maxwellMysql.port.None? {
        maxwellMysql := maxwellMysql.(port := Some(DEFAULT_MYSQL_PORT));
      }
      if maxwellMysql.user.None? {
        maxwellMysql := maxwellMysql.(user := Some("maxwell"));
      }
    }

    method BootstrapperStep() returns (outcome: Outcome)
      modifies this`bootstrapperType, this`bootstrapperBatchFetchSize
      ensures outcome == OutcomeOf(ResolveBootstrapper(old(Snapshot())))
      ensures outcome.Pass? ==> Snapshot() == ResolveBootstrapper(old(Snapshot())).value
    {
      if bootstrapperType.None? {
        bootstrapperType := Some("async");
      } else if bootstrapperType.value !in BOOTSTRAPPERS {
        return Fail(Usage(UnknownBootstrapper));
      }
      if bootstrapperBatchFetchSize.None? {
        bootstrapperBatchFetchSize := Some(DEFAULT_FETCH_SIZE);
      }
      outcome := Pass;
    }

    method PrimaryHostStep()
      modifies this`maxwellMysql, this`hostDefaultWarned
      ensures Snapshot() == DefaultPrimaryHost(old(Snapshot()))
    {
      if maxwellMysql.host.None? {
        hostDefaultWarned := true;
        maxwellMysql := maxwellMysql.(host := Some("localhost"));
      }
    }

    method ReplicationHostStep() returns (outcome: Outcome)
      ensures outcome == OutcomeOf(CheckReplicationHost(Snapshot()))
    {
      if replicationMysql.host.Some? && bootstrapperType != Some("none") {
        return Fail(Usage(ReplicationHostNeedsNoBootstrapper));
      }
      outcome := Pass;
    }

    method ReplicationStep() returns (outcome: Outcome)
      modifies this`replicationMysql
      ensures outcome == OutcomeOf(ResolveReplication(old(Snapshot())))
      ensures outcome.Pass? ==> Snapshot() == ResolveReplication(old(Snapshot())).value
    {
      if replicationMysql.port.None? {
        replicationMysql := replicationMysql.(port := Some(DEFAULT_MYSQL_PORT));
      }
      if replicationMysql.host.None? || replicationMysql.user.None? {
        if replicationMysql.host.Some? || replicationMysql.user.Some? || replicationMysql.password.Some? {
          return Fail(Usage(PartialReplicationOptions));
        }
        replicationMysql := MysqlConfig(maxwellMysql.host, maxwellMysql.port, maxwellMysql.user, maxwellMysql.password);
      }
      outcome := Pass;
    }

    method MaxSchemasStep()
      modifies this`schemaStoreMaxSchemas
      ensures Snapshot() == RecordMaxSchemas(old(Snapshot()))
    {
      if maxSchemas.Some? {
        schemaStoreMaxSchemas := maxSchemas;
      }
    }
  }
}
