# Maxwell configuration resolution

A model of how the Maxwell binlog daemon turns its command line and its
properties file into one resolved configuration. The model follows
`MaxwellConfig`:

- `parseFile`: the properties-file overlay, including the loop that copies
  `kafka.` keys into the broker properties.
- `parse`: the command-line overlay, including `--init_position` and
  `--replay`.
- `parseLogLevel`: the log-level check.
- `setDefaults`: the ordered defaulting and validation.
- The two constructors.

The configuration object is the class `Maxwell.MaxwellConfig`. Its fields are
those of the Java object, and its methods update them in place. Each method
is proved to report exactly the failure, or to leave exactly the state,
given by a function of the previous state in module `Resolution`:

- `ParseFileSpec` for `parseFile`.
- `ParseSpec` for `parse`.
- `Defaults` for `setDefaults`.
- `Resolve` for the constructor that takes `argv`.

There is one function per block of the Java method, so each method is a
sequence of small step methods. The lemma modules prove what these functions
promise:

- `DefaultsFacts`: which configurations `setDefaults` accepts, which usage
  error fires first, and which defaults are filled in.
- `PrecedenceFacts`: the command line wins over the file, and the file wins
  over the earlier state.
- `KafkaFacts`: which broker properties a file contributes.
- `ValueParsers`: the log level and the initial binlog position.

Module `JavaText` models the Java library calls the code relies on:

- `toLowerCase`
- `startsWith`
- `replace`
- `split(":")`
- `Integer.valueOf` and `Long.valueOf`, for ASCII text

A call to `usage(...)` or `System.exit` ends the process. In the model it is
a `Failure` value:

- `Usage(reason)`: one reason per message.
- `ConfigFileNotFound`.
- `ConfigFileUnreadable`.
- `NumberFormat(input)`: the uncaught `NumberFormatException` of
  `Integer.valueOf`.

A method reports its failure as `Outcome.Fail`. Two effects outside the
object are recorded as fields:

- `hostDefaultWarned`: the warning logged when the host defaults to
  localhost.
- `schemaStoreMaxSchemas`: the value passed to `SchemaStore.setMaxSchemas`.

Behaviours of the code that are easy to miss:

- **Negative offsets.** `--init_position` accepts a negative offset.
  `Long.valueOf` takes a sign (`InitPositionNegativeOffset`).
- **Trailing colons.** `--init_position` accepts trailing colons, because
  `split` drops trailing empty pieces, so `f:12::` is accepted
  (`InitPositionTrailingColons`).
- **Config file before help.** The configuration file is read before
  `--help` is looked at. A missing `--config` file therefore wins over
  `--help` (`HelpAfterFile`).
- **Unreadable default file.** A default `config.properties` that exists
  but cannot be read is fatal, just as one named by `--config` is.
- **Broker key names.** A file key `kafka.X` loses every occurrence of
  `kafka.`, not only the prefix. Two keys can therefore name the same
  broker property, and the table's key order decides which one wins
  (`BrokerKeyCollision`, `CollisionFollowsKeyOrder`).
- **Command-line broker property.** The only broker property the command
  line sets is `bootstrap.servers`.
- **Options with an optional argument.** `kafka_topic`, the four filters and
  `max_schemas` may be given without a value. A value-less filter or topic
  sets its field to null. A value-less `--max_schemas` fails with
  `NumberFormat(None)` (`MaxSchemasWithoutArgument`).
- **Not idempotent.** `setDefaults` changes the state in a way a second run
  would reject (`DefaultsNotIdempotent`). It is only ever called once.

## Model

| member | source | states |
|---|---|---|
| Maxwell.MaxwellConfig.constructor | src/main/java/com/zendesk/maxwell/MaxwellConfig.java:37-42 | the new object has empty broker properties, replay off, two empty endpoints and every other field null |
| Maxwell.MaxwellConfig.FromArguments | src/main/java/com/zendesk/maxwell/MaxwellConfig.java:44-48 | construct, `parse`, `setDefaults`: the outcome and the final state are those of `Resolve` on the command line and the files |
| Maxwell.MaxwellConfig.ParseFile | src/main/java/com/zendesk/maxwell/MaxwellConfig.java:209-249 | reports the failure of `ParseFileSpec` (for example a missing requested file, an unreadable file, a bad port, a bad log level), or leaves exactly its state; a missing default file changes nothing |
| Maxwell.MaxwellConfig.ReadFileEndpoints | src/main/java/com/zendesk/maxwell/MaxwellConfig.java:216-224 | both endpoints are replaced from the file: the host falls back to 127.0.0.1 and both ports fall back to 3306, and a port that is not an `int` is a `NumberFormat` failure |
| Maxwell.MaxwellConfig.ReadFileStrings | src/main/java/com/zendesk/maxwell/MaxwellConfig.java:226-233 | the producer, bootstrapper, output file, topic and the four filters are taken from the file, null when their key is missing |
| Maxwell.MaxwellConfig.ReadFileKinds | src/main/java/com/zendesk/maxwell/MaxwellConfig.java:226-229 | the producer, bootstrapper, output file and topic are taken from the file |
| Maxwell.MaxwellConfig.ReadFileFilters | src/main/java/com/zendesk/maxwell/MaxwellConfig.java:230-233 | the four database and table filters are taken from the file |
| Maxwell.MaxwellConfig.ReadFileMaxSchemas | src/main/java/com/zendesk/maxwell/MaxwellConfig.java:235-237 | `max_schemas` is assigned only when its key is present, and must be an `int` |
| Maxwell.MaxwellConfig.ReadFileLogLevel | src/main/java/com/zendesk/maxwell/MaxwellConfig.java:239-240 | `log_level` is assigned only when its key is present, and must name a level |
| Maxwell.MaxwellConfig.CopyKafkaProperties | src/main/java/com/zendesk/maxwell/MaxwellConfig.java:242-247 | the loop over the file's keys sets, for each `kafka.` key in table order, the broker property named by the key without `kafka.`; loop invariant: the properties equal `KafkaOverlay` of the keys visited so far |
| Maxwell.MaxwellConfig.Parse | src/main/java/com/zendesk/maxwell/MaxwellConfig.java:113-184 | reads the `--config` file (which must exist) or the default file (which may be missing), then fails on `--help`, then applies each option that is present; outcome and state are those of `ParseSpec` |
| Maxwell.MaxwellConfig.ApplyLogLevelOption | src/main/java/com/zendesk/maxwell/MaxwellConfig.java:125-127 | `--log_level` must name a level and then sets the level |
| Maxwell.MaxwellConfig.ApplyEndpointOptions | src/main/java/com/zendesk/maxwell/MaxwellConfig.java:129-131 | endpoint options override the endpoint fields they give and keep the others |
| Maxwell.MaxwellConfig.ApplyKindOptions | src/main/java/com/zendesk/maxwell/MaxwellConfig.java:133-138 | `--producer` and `--bootstrapper` set their fields; `--bootstrapper_fetch_size` must be an `int` |
| Maxwell.MaxwellConfig.ApplySinkOptions | src/main/java/com/zendesk/maxwell/MaxwellConfig.java:140-147 | `--kafka.bootstrap.servers` sets broker property `bootstrap.servers`; `--kafka_topic` and `--output_file` set their fields |
| Maxwell.MaxwellConfig.ApplyMaxSchemasOption | src/main/java/com/zendesk/maxwell/MaxwellConfig.java:149-150 | `--max_schemas` must be an `int`; without an argument it is `NumberFormat(None)` |
| Maxwell.MaxwellConfig.ApplyInitPositionOption | src/main/java/com/zendesk/maxwell/MaxwellConfig.java:152-167 | `--init_position` must parse as a binlog position (usage error otherwise) and then sets the initial position |
| Maxwell.MaxwellConfig.ApplyReplayAndFilterOptions | src/main/java/com/zendesk/maxwell/MaxwellConfig.java:169-183 | `--replay` switches replay on; each filter option sets its filter |
| Maxwell.MaxwellConfig.SetDefaults | src/main/java/com/zendesk/maxwell/MaxwellConfig.java:251-310 | the seven steps in order, stopping at the first failure: outcome and state are those of `Defaults` |
| Maxwell.MaxwellConfig.ProducerStep | src/main/java/com/zendesk/maxwell/MaxwellConfig.java:252-260 | a null producer becomes stdout; kafka without `bootstrap.servers` and file without an output file are usage errors |
| Maxwell.MaxwellConfig.PrimaryPortAndUserStep | src/main/java/com/zendesk/maxwell/MaxwellConfig.java:262-267 | the primary port defaults to 3306 and the user to maxwell |
| Maxwell.MaxwellConfig.BootstrapperStep | src/main/java/com/zendesk/maxwell/MaxwellConfig.java:269-279 | a null bootstrapper becomes async, one outside async/sync/none is a usage error, and the fetch size defaults to 64000 |
| Maxwell.MaxwellConfig.PrimaryHostStep | src/main/java/com/zendesk/maxwell/MaxwellConfig.java:281-284 | a null primary host becomes localhost and the warning is recorded |
| Maxwell.MaxwellConfig.ReplicationHostStep | src/main/java/com/zendesk/maxwell/MaxwellConfig.java:286-288 | a replication host with a bootstrapper other than none is a usage error; nothing changes |
| Maxwell.MaxwellConfig.ReplicationStep | src/main/java/com/zendesk/maxwell/MaxwellConfig.java:290-306 | the replication port defaults to 3306; without host or user, any replication option is a usage error, and otherwise the endpoint becomes a copy of the primary |
| Maxwell.MaxwellConfig.MaxSchemasStep | src/main/java/com/zendesk/maxwell/MaxwellConfig.java:308-309 | a set `max_schemas` is handed to the schema store |
| Resolution.ReadPropertiesFile | src/main/java/com/zendesk/maxwell/MaxwellConfig.java:186-207 | each case is stated: a missing file is `ConfigFileNotFound` when requested and "no file" otherwise; an existing unreadable file is `ConfigFileUnreadable` whether requested or not; a readable file yields its properties, which list each key exactly once |
| ValueParsers.ParseLogLevel | src/main/java/com/zendesk/maxwell/MaxwellConfig.java:106-111 | an accepted level is one of debug/info/warn/error; a refused one is the usage error quoting the lower-cased text |
| ValueParsers.ParseLogLevelAccepts | src/main/java/com/zendesk/maxwell/MaxwellConfig.java:106-111 | a level is accepted as name N exactly when it equals N ignoring case (both directions) |
| ValueParsers.ParseLogLevelMessage | src/main/java/com/zendesk/maxwell/MaxwellConfig.java:108-109 | a refused level prints `unknown log level: ` followed by the lower-cased text |
| ValueParsers.ParseLogLevelStable | src/main/java/com/zendesk/maxwell/MaxwellConfig.java:106-111 | the accepted (lower-cased) level is accepted again unchanged |
| ValueParsers.ParseInitPosition | src/main/java/com/zendesk/maxwell/MaxwellConfig.java:152-167 | every refusal, whether the wrong number of pieces or a bad offset, is the one usage error quoting the whole value |
| ValueParsers.ParseInitPositionMessage | src/main/java/com/zendesk/maxwell/MaxwellConfig.java:156-164 | a refused position prints `Invalid init_position: ` followed by the whole value |
| ValueParsers.InitPositionOfParts | src/main/java/com/zendesk/maxwell/MaxwellConfig.java:153-166 | for `FILE:OFFSET` followed by any number of colons, the result is decided by whether OFFSET is a `long` |
| ValueParsers.InitPositionShape | src/main/java/com/zendesk/maxwell/MaxwellConfig.java:153-166 | every accepted value is a colon-free file, a colon, an offset text that parses to the offset, and nothing after that but colons |
| ValueParsers.InitPositionRoundTrip | src/main/java/com/zendesk/maxwell/MaxwellConfig.java:152-167 | rendering a position with a colon-free file as `FILE:OFFSET` and parsing it back gives the position |
| ValueParsers.InitPositionExample | src/main/java/com/zendesk/maxwell/MaxwellConfig.java:152-167 | `mysql-bin.001:456` is file `mysql-bin.001`, offset 456 |
| ValueParsers.InitPositionNegativeOffset | src/main/java/com/zendesk/maxwell/MaxwellConfig.java:158-161 | `mysql-bin.001:-5` is accepted with offset -5: `Long.valueOf` takes a sign |
| ValueParsers.InitPositionNonNumericOffset | src/main/java/com/zendesk/maxwell/MaxwellConfig.java:158-164 | `file:abc` is refused |
| ValueParsers.InitPositionTrailingColons | src/main/java/com/zendesk/maxwell/MaxwellConfig.java:154-157 | `f:12::` is accepted as file `f`, offset 12 |
| ValueParsers.InitPositionMissingOffset | src/main/java/com/zendesk/maxwell/MaxwellConfig.java:154-157 | `f:` splits into one piece and is refused |
| ValueParsers.InitPositionWithoutColon | src/main/java/com/zendesk/maxwell/MaxwellConfig.java:154-157 | `bad` is refused |
| JavaText.ToLowerShape | src/main/java/com/zendesk/maxwell/MaxwellConfig.java:107 | lower-casing keeps the length, maps each character, and leaves no upper-case letter |
| JavaText.ToLowerIdempotent | src/main/java/com/zendesk/maxwell/MaxwellConfig.java:107 | lower-casing twice is lower-casing once |
| JavaText.IntegerValueOf | src/main/java/com/zendesk/maxwell/MaxwellConfig.java:219 | null is `NumberFormat(None)`; a text is accepted exactly when `ParseDecimal` accepts it within the `int` range, with that value; every refusal is `NumberFormat` of the input |
| JavaText.LongValueOf | src/main/java/com/zendesk/maxwell/MaxwellConfig.java:160 | a text is accepted exactly when `ParseDecimal` accepts it within the `long` range, with that value |
| JavaText.ParseDecimal | src/main/java/com/zendesk/maxwell/MaxwellConfig.java:160 | a parsed value lies within the requested range (the value itself is given by `ParseDecimalShape` and `ParseDecimalOfShape`) |
| JavaText.ParseDecimalShape | src/main/java/com/zendesk/maxwell/MaxwellConfig.java:160 | every accepted text is an optional sign, some zeros and the decimal rendering of the value's magnitude, with a minus sign exactly for negative values (zero may carry either sign) |
| JavaText.ParseDecimalOfShape | src/main/java/com/zendesk/maxwell/MaxwellConfig.java:160 | conversely, every sign-zeros-rendering text whose value is in range is accepted with that value |
| JavaText.ParseRenderedDecimal | src/main/java/com/zendesk/maxwell/MaxwellConfig.java:160 | the decimal rendering of a number in range parses back to the number |
| JavaText.RemovePrefix | src/main/java/com/zendesk/maxwell/MaxwellConfig.java:245 | removing a target that occurs only as the prefix leaves the rest |
| JavaText.PiecesAfterHead | src/main/java/com/zendesk/maxwell/MaxwellConfig.java:154 | splitting at the first separator gives the head and the pieces of the rest |
| JavaText.JoinPieces | src/main/java/com/zendesk/maxwell/MaxwellConfig.java:154 | joining the pieces of a split with the separator gives back the string |
| DefaultsFacts.EarlyStepsKeepReplication | src/main/java/com/zendesk/maxwell/MaxwellConfig.java:252-284 | the steps before the replication checks do not touch the replication endpoint, and the bootstrapper is none afterwards exactly when it was none before |
| DefaultsFacts.DefaultsAcceptance | src/main/java/com/zendesk/maxwell/MaxwellConfig.java:251-310 | `setDefaults` succeeds exactly on configurations whose producer is ready, whose bootstrapper is known, whose replication host comes with bootstrapper none, and whose replication options are not partial; it fails only with usage errors |
| DefaultsFacts.KafkaServersMissingWhen | src/main/java/com/zendesk/maxwell/MaxwellConfig.java:254-256 | this error fires exactly for a kafka producer without `bootstrap.servers` |
| DefaultsFacts.OutputFileMissingWhen | src/main/java/com/zendesk/maxwell/MaxwellConfig.java:257-259 | this error fires exactly for a file producer without an output file |
| DefaultsFacts.UnknownBootstrapperWhen | src/main/java/com/zendesk/maxwell/MaxwellConfig.java:269-275 | this error fires exactly when the producer is ready and the bootstrapper is given but unknown |
| DefaultsFacts.ReplicationHostNeedsNoBootstrapperWhen | src/main/java/com/zendesk/maxwell/MaxwellConfig.java:286-288 | this error fires exactly when the earlier checks pass and a replication host comes with a bootstrapper other than none; it takes precedence over the partial-options error |
| DefaultsFacts.PartialReplicationOptionsWhen | src/main/java/com/zendesk/maxwell/MaxwellConfig.java:293-300 | this error fires exactly when all earlier checks pass and a replication option is given without both host and user |
| DefaultsFacts.DefaultsResolves | src/main/java/com/zendesk/maxwell/MaxwellConfig.java:251-310 | after success, the producer, bootstrapper (a known kind), fetch size, both hosts, both ports and both users are set, and the producer's requirements hold |
| DefaultsFacts.DefaultsFill | src/main/java/com/zendesk/maxwell/MaxwellConfig.java:251-310 | the defaults are stdout, localhost, 3306, maxwell, async and 64000, each only for a field that was null; the warning is recorded exactly when the host was defaulted, and `max_schemas` reaches the schema store when it is set |
| DefaultsFacts.DefaultsReplication | src/main/java/com/zendesk/maxwell/MaxwellConfig.java:290-306 | without a replication host the replication endpoint equals the resolved primary; otherwise it is kept, with its port defaulted |
| DefaultsFacts.DefaultsKeepsTheRest | src/main/java/com/zendesk/maxwell/MaxwellConfig.java:251-310 | broker properties, topic, output file, log level, `max_schemas`, initial position, replay and filters are unchanged |
| DefaultsFacts.DefaultsNotIdempotent | src/main/java/com/zendesk/maxwell/MaxwellConfig.java:286-306 | the empty configuration resolves, and resolving the result again fails with the replication-host error |
| PrecedenceFacts.ApplyOptionsFields | src/main/java/com/zendesk/maxwell/MaxwellConfig.java:125-183 | after the options, each field is its option's (parsed) value when the option is present and its previous value otherwise |
| PrecedenceFacts.FileOverlayFields | src/main/java/com/zendesk/maxwell/MaxwellConfig.java:216-247 | after a loaded file, each plain field and both endpoints are as in the file (with host and port fallbacks); `max_schemas` and `log_level` are taken from the file only when their key is present; the file's `kafka.` keys are added; the other fields are kept |
| PrecedenceFacts.CommandLineOverFile | src/main/java/com/zendesk/maxwell/MaxwellConfig.java:113-184 | with a loaded file, for the producer, bootstrapper, output file, topic, the four filters: an option that is present wins over the file, and the file decides the field when the option is absent; for the broker list, `--kafka.bootstrap.servers` sets `bootstrap.servers`, and without it the broker properties are exactly the file's `kafka.` keys overlaid on the earlier ones |
| PrecedenceFacts.CommandLineOverFileParsed | src/main/java/com/zendesk/maxwell/MaxwellConfig.java:125-150 | with a loaded file, `log_level` and `max_schemas` come from the option through its parser when present, else from the file's key through the same parser when the file has one, else they keep their earlier value |
| PrecedenceFacts.CommandLineOverFileEndpoints | src/main/java/com/zendesk/maxwell/MaxwellConfig.java:129-131 | with a loaded file, each endpoint part the options give wins; every other host, port, user and password of both endpoints is the file's, with the 127.0.0.1 host and 3306 port fallbacks |
| PrecedenceFacts.MissingDefaultFileIgnored | src/main/java/com/zendesk/maxwell/MaxwellConfig.java:190-196 | a missing default file leaves the configuration unchanged |
| PrecedenceFacts.UnreadableFileFatal | src/main/java/com/zendesk/maxwell/MaxwellConfig.java:199-204 | a chosen file that exists but cannot be read ends resolution with `ConfigFileUnreadable`, both for a `--config` file and for the default file |
| PrecedenceFacts.MissingConfigFileFatal | src/main/java/com/zendesk/maxwell/MaxwellConfig.java:116-117 | a `--config` file that does not exist ends resolution with that error before anything else |
| PrecedenceFacts.HelpAfterFile | src/main/java/com/zendesk/maxwell/MaxwellConfig.java:116-123 | with `--help`, the result is the file's failure if it has one, and otherwise the help usage |
| PrecedenceFacts.NoFileHostDefaultsToLocalhost | src/main/java/com/zendesk/maxwell/MaxwellConfig.java:281-284 | without a file, the host is the `--host` value, or localhost with the warning |
| PrecedenceFacts.FileHostNeverWarns | src/main/java/com/zendesk/maxwell/MaxwellConfig.java:216 | with a loaded file, the host is the command-line host, else the file host, else 127.0.0.1, and no warning is logged |
| PrecedenceFacts.ReplicationMirrorsPrimary | src/main/java/com/zendesk/maxwell/MaxwellConfig.java:293-306 | with no replication host from either source, the resolved replication endpoint equals the primary |
| PrecedenceFacts.ResolveDefaultsOnly | src/main/java/com/zendesk/maxwell/MaxwellConfig.java:44-48 | an empty command line with no file resolves to stdout, localhost:3306 as maxwell for both endpoints, async with fetch size 64000, and the warning |
| PrecedenceFacts.KafkaProducerNeedsServers | src/main/java/com/zendesk/maxwell/MaxwellConfig.java:140-141 | `--producer=kafka` alone fails; with `--kafka.bootstrap.servers` it resolves |
| PrecedenceFacts.MaxSchemasWithoutArgument | src/main/java/com/zendesk/maxwell/MaxwellConfig.java:149-150 | `--max_schemas` with no argument ends in `NumberFormat(None)` |
| KafkaFacts.KafkaOverlayDomain | src/main/java/com/zendesk/maxwell/MaxwellConfig.java:242-247 | afterwards, a broker property exists exactly when it existed before or some visited `kafka.` key names it |
| KafkaFacts.KafkaOverlayLastWins | src/main/java/com/zendesk/maxwell/MaxwellConfig.java:242-247 | a broker property holds the value of the last visited key that names it |
| KafkaFacts.KafkaOverlayKeepsOthers | src/main/java/com/zendesk/maxwell/MaxwellConfig.java:242-247 | a broker property that no visited key names keeps its value |
| KafkaFacts.BrokerKeyStripsPrefix | src/main/java/com/zendesk/maxwell/MaxwellConfig.java:244-245 | `kafka.NAME`, where NAME does not contain `kafka.`, is a broker key naming NAME |
| KafkaFacts.FileBrokerProperty | src/main/java/com/zendesk/maxwell/MaxwellConfig.java:242-247 | a file key `kafka.NAME` that is the only key naming NAME sets broker property NAME to its value, whatever the key order |
| KafkaFacts.BrokerKeyCollision | src/main/java/com/zendesk/maxwell/MaxwellConfig.java:245 | `kafka.acks` and `kafka.kafka.acks` both name `acks` |
| KafkaFacts.CollisionFollowsKeyOrder | src/main/java/com/zendesk/maxwell/MaxwellConfig.java:242-247 | for any two distinct `kafka.` keys that name the same broker property, the later one in the table's key order gives the value, so swapping their order swaps which value is kept |
| KafkaFacts.AcksCollisionFollowsKeyOrder | src/main/java/com/zendesk/maxwell/MaxwellConfig.java:242-247 | for `kafka.acks` and `kafka.kafka.acks` alone in a table, the result is exactly `acks` set to the later key's value, in both orders |

## Left out

- Command-line parsing by the option library (lines 50-104): the parsed
  option set is an input. Its declared required arguments are kept as a
  precondition. Unknown-option rejection and the help formatting are not
  modelled, because they belong to the library.
- `usage` output: the message, the help text written to standard error, and
  the exit status are not modelled. Each is reduced to a `Failure` value.
  The branch in which printing the help throws `IOException` and `usage`
  returns without exiting is not modelled: the model always stops at the
  first `usage` call.
- `readPropertiesFile`: file I/O becomes a map from file names to
  "unreadable" or "loaded properties". The `.properties` text format itself
  is not parsed.
- `MaxwellMysqlConfig.parseOptions` and the two `MaxwellMysqlConfig`
  constructors are not part of this model. The endpoint options it reads
  are an input (`EndpointArgs`) of optional overrides. Its own parsing of
  `--port` is therefore not modelled. The model assumes that the
  no-argument constructor leaves host, port, user and password null
  (`NO_MYSQL`), and that the four-argument constructor used by `parseFile`
  copies its four arguments into those fields.
- The logger: the warning is recorded only as the flag `hostDefaultWarned`.
- `SchemaStore.setMaxSchemas`: the static call is recorded as the field
  `schemaStoreMaxSchemas`.
- Key order of `Properties`: the key order of a `Hashtable` is not specified
  by Java, so it is an input (`Properties.keyOrder`). Every result that does
  not depend on it is proved for every order.
- Unicode behaviour: `toLowerCase` is modelled for ASCII letters only, and
  `Integer.valueOf`/`Long.valueOf` for ASCII digits only. Java's
  locale-dependent case mapping and non-ASCII digits are not modelled.
- Object identity: the endpoint objects are modelled as values, not as
  shared references. `setDefaults` gives the replication endpoint a new
  object, so no aliasing is observable in this code.
- Maxwell.MaxwellConfig.ParseFile: the state after a failure is not stated,
  because a failure ends the process.
- Maxwell.MaxwellConfig.Parse: the state after a failure is not stated,
  because a failure ends the process.
- Maxwell.MaxwellConfig.SetDefaults: the state after a failure is not
  stated, because a failure ends the process.
- Maxwell.MaxwellConfig.FromArguments: the state after a failure is not
  stated, because a failure ends the process.
