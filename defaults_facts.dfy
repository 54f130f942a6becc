/** What `setDefaults` guarantees: which configurations it accepts, which
    usage error it reports for the others (the first check that fails, in
    the order the checks run), and what the accepted configuration looks
    like afterwards. */
module DefaultsFacts {
  import opened Basics
  import opened Resolution

  /** The producer's own requirements: a kafka producer needs a broker list,
      a file producer an output file. */
  predicate ProducerReady(s: ConfigState)
  {
    && (s.producerType == Some("kafka") ==> "bootstrap.servers" in s.kafkaProperties)
    && (s.producerType == Some("file") ==> s.outputFile.Some?)
  }

  /** The bootstrapper, when given, is one of the three known kinds. */
  predicate BootstrapperKnown(s: ConfigState)
  {
    s.bootstrapperType.None? || s.bootstrapperType.value in BOOTSTRAPPERS
  }

  /** A separate replication host is only allowed with the bootstrapper off. */
  predicate ReplicationHostAllowed(s: ConfigState)
  {
    s.replicationMysql.host.Some? ==> s.bootstrapperType == Some("none")
  }

  /** Some replication option was given, but the host or the user is missing. */
  predicate ReplicationPartial(r: MysqlConfig)
  {
    (r.host.None? || r.user.None?) && (r.host.Some? || r.user.Some? || r.password.Some?)
  }

  /** The configurations `setDefaults` lets through. */
  predicate Acceptable(s: ConfigState)
  {
    ProducerReady(s) && BootstrapperKnown(s) && ReplicationHostAllowed(s) && !ReplicationPartial(s.replicationMysql)
  }

  /** A configuration after `setDefaults`: every setting the daemon relies on
      is present, and the producer's requirements hold. */
  predicate Resolved(c: ConfigState)
  {
    && c.producerType.Some? && ProducerReady(c)
    && c.bootstrapperType.Some? && c.bootstrapperType.value in BOOTSTRAPPERS
    && c.bootstrapperBatchFetchSize.Some?
    && c.maxwellMysql.host.Some? && c.maxwellMysql.port.Some? && c.maxwellMysql.user.Some?
    && c.replicationMysql.host.Some? && c.replicationMysql.port.Some? && c.replicationMysql.user.Some?
  }

  /** The steps before the replication checks leave the replication endpoint
      alone, and the bootstrapper is `none` afterwards exactly when it was
      `none` before. */
  lemma EarlyStepsKeepReplication(s: ConfigState)
    requires ResolveProducer(s).Ok?
    requires ResolveBootstrapper(DefaultPrimaryPortAndUser(ResolveProducer(s).value)).Ok?
    ensures var t := DefaultPrimaryHost(ResolveBootstrapper(DefaultPrimaryPortAndUser(ResolveProducer(s).value)).value);
      t.replicationMysql == s.replicationMysql &&
      (t.bootstrapperType == Some("none") <==> s.bootstrapperType == Some("none"))
  {
  }

  /** `setDefaults` succeeds exactly on the acceptable configurations, and
      it only ever fails with a usage error. */
  lemma DefaultsAcceptance(s: ConfigState)
    ensures Defaults(s).Ok? <==> Acceptable(s)
    ensures Defaults(s).Err? ==> Defaults(s).failure.Usage?
  {
    if ResolveProducer(s).Ok? && ResolveBootstrapper(DefaultPrimaryPortAndUser(ResolveProducer(s).value)).Ok? {
      EarlyStepsKeepReplication(s);
    }
  }

  /** The kafka check comes first. */
  lemma KafkaServersMissingWhen(s: ConfigState)
    ensures Defaults(s) == Err(Usage(KafkaServersMissing))
        <==> s.producerType == Some("kafka") && "bootstrap.servers" !in s.kafkaProperties
  {
  }

  lemma OutputFileMissingWhen(s: ConfigState)
    ensures Defaults(s) == Err(Usage(OutputFileMissing))
        <==> s.producerType == Some("file") && s.outputFile.None?
  {
  }

  /** An unknown bootstrapper is reported only once the producer is fine. */
  lemma UnknownBootstrapperWhen(s: ConfigState)
    ensures Defaults(s) == Err(Usage(UnknownBootstrapper))
        <==> ProducerReady(s) && !BootstrapperKnown(s)
  {
  }

  /** The replication-host check runs before the partial-options check, so a
      host given without a user is reported as needing `--bootstrapper=none`
      while the bootstrapper is on. */
  lemma ReplicationHostNeedsNoBootstrapperWhen(s: ConfigState)
    ensures Defaults(s) == Err(Usage(ReplicationHostNeedsNoBootstrapper))
        <==> ProducerReady(s) && BootstrapperKnown(s) && !ReplicationHostAllowed(s)
  {
    if ResolveProducer(s).Ok? && ResolveBootstrapper(DefaultPrimaryPortAndUser(ResolveProducer(s).value)).Ok? {
      EarlyStepsKeepReplication(s);
    }
  }

  lemma PartialReplicationOptionsWhen(s: ConfigState)
    ensures Defaults(s) == Err(Usage(PartialReplicationOptions))
        <==> ProducerReady(s) && BootstrapperKnown(s) && ReplicationHostAllowed(s) && ReplicationPartial(s.replicationMysql)
  {
    if ResolveProducer(s).Ok? && ResolveBootstrapper(DefaultPrimaryPortAndUser(ResolveProducer(s).value)).Ok? {
      EarlyStepsKeepReplication(s);
    }
  }

  /** After a successful `setDefaults` the configuration is resolved. */
  lemma DefaultsResolves(s: ConfigState)
    requires Defaults(s).Ok?
    ensures Resolved(Defaults(s).value)
  {
  }

  /** The defaults that were filled in, field by field: the producer is
      stdout, the primary endpoint is localhost:3306 as user maxwell (with
      the warning logged exactly when the host was defaulted), the
      bootstrapper is async with a fetch size of 64000, and the schema store
      receives `max_schemas` when it is set. */
  lemma DefaultsFill(s: ConfigState)
    requires Defaults(s).Ok?
    ensures var c := Defaults(s).value;
      && c.producerType == (if s.producerType.None? then Some("stdout") else s.producerType)
      && c.maxwellMysql.host == (if s.maxwellMysql.host.None? then Some("localhost") else s.maxwellMysql.host)
      && c.maxwellMysql.port == (if s.maxwellMysql.port.None? then Some(3306) else s.maxwellMysql.port)
      && c.maxwellMysql.user == (if s.maxwellMysql.user.None? then Some("maxwell") else s.maxwellMysql.user)
      && c.maxwellMysql.password == s.maxwellMysql.password
      && c.hostDefaultWarned == (s.hostDefaultWarned || s.maxwellMysql.host.None?)
      && c.bootstrapperType == (if s.bootstrapperType.None? then Some("async") else s.bootstrapperType)
      && c.bootstrapperBatchFetchSize == (if s.bootstrapperBatchFetchSize.None? then Some(64000) else s.bootstrapperBatchFetchSize)
      && c.schemaStoreMaxSchemas == (if s.maxSchemas.Some? then s.maxSchemas else s.schemaStoreMaxSchemas)
  {
  }

  /** The replication endpoint: without any replication option it becomes a
      copy of the resolved primary endpoint; otherwise it is kept, with its
      port defaulted to 3306. */
  lemma DefaultsReplication(s: ConfigState)
    requires Defaults(s).Ok?
    ensures var c := Defaults(s).value;
      && (s.replicationMysql.host.None? ==> c.replicationMysql == c.maxwellMysql)
      && (s.replicationMysql.host.Some? ==>
            c.replicationMysql == s.replicationMysql.(port := if s.replicationMysql.port.None? then Some(3306) else s.replicationMysql.port))
  {
    EarlyStepsKeepReplication(s);
  }

  /** Everything `setDefaults` does not default is left as it was. */
  lemma DefaultsKeepsTheRest(s: ConfigState)
    requires Defaults(s).Ok?
    ensures var c := Defaults(s).value;
      && c.kafkaProperties == s.kafkaProperties && c.kafkaTopic == s.kafkaTopic
      && c.outputFile == s.outputFile && c.logLevel == s.logLevel
      && c.maxSchemas == s.maxSchemas && c.initPosition == s.initPosition
      && c.replayMode == s.replayMode
      && c.includeDatabases == s.includeDatabases && c.excludeDatabases == s.excludeDatabases
      && c.includeTables == s.includeTables && c.excludeTables == s.excludeTables
  {
  }

  /** `setDefaults` is not idempotent: on the empty configuration it copies
      the primary endpoint into the replication endpoint and picks the async
      bootstrapper, and a second run then sees a replication host with the
      bootstrapper on. */
  lemma DefaultsNotIdempotent()
    ensures Defaults(INITIAL).Ok?
    ensures Defaults(Defaults(INITIAL).value) == Err(Usage(ReplicationHostNeedsNoBootstrapper))
  {
    var c := Defaults(INITIAL).value;
    assert c.replicationMysql.host == Some("localhost");
    assert c.bootstrapperType == Some("async");
  }
}
