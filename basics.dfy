/** Shared vocabulary of the configuration model: optional values (Java's
    nullable references), Java's fixed-width integers, and the ways the
    configuration step can end the process. */
module Basics {

  /** A Java reference that may be null. */
  datatype Option<T> = None | Some(value: T)

  /** Java `int` (the range of `Integer`). */
  const INT_MIN: int := -0x8000_0000
  const INT_MAX: int := 0x7fff_ffff
  type int32 = x: int | -0x8000_0000 <= x <= 0x7fff_ffff

  /** Java `long` (the range of `Long`). */
  const LONG_MIN: int := -0x8000_0000_0000_0000
  const LONG_MAX: int := 0x7fff_ffff_ffff_ffff
  type int64 = x: int | -0x8000_0000_0000_0000 <= x <= 0x7fff_ffff_ffff_ffff

  /** The situations in which `usage(...)` is called: one message, the
      option reference, exit status 1. */
  datatype UsageReason =
    | HelpRequested
    | UnknownLogLevel(level: string)
    | InvalidInitPosition(value: string)
    | KafkaServersMissing
    | OutputFileMissing
    | UnknownBootstrapper
    | ReplicationHostNeedsNoBootstrapper
    | PartialReplicationOptions

  /** Every way configuration can stop the process. */
  datatype Failure =
    | Usage(reason: UsageReason)
      /** `--config` named a file that does not exist. */
    | ConfigFileNotFound(filename: string)
      /** The properties file exists but could not be read. */
    | ConfigFileUnreadable(filename: string)
      /** An uncaught `NumberFormatException` from `Integer.valueOf` or
          `Long.valueOf`; `None` is a null argument. */
    | NumberFormat(input: Option<string>)

  /** The first line `usage` prints for each reason. */
  function UsageMessage(reason: UsageReason): string
  {
    match reason
    case HelpRequested => "Help for Maxwell:"
    case UnknownLogLevel(level) => "unknown log level: " + level
    case InvalidInitPosition(value) => "Invalid init_position: " + value
    case KafkaServersMissing => "You must specify kafka.bootstrap.servers for the kafka producer!"
    case OutputFileMissing => "please specify --output_file=FILE to use the file producer"
    case UnknownBootstrapper => "please specify --bootstrapper=async|sync|none"
    case ReplicationHostNeedsNoBootstrapper => "please specify --bootstrapper=none when specifying a replication host"
    case PartialReplicationOptions =>
      "Specified a replication option but missing one of the following options: replication_host, replication_user, replication_password."
  }

  /** A value, or the failure that ends the process. */
  datatype Result<T> = Ok(value: T) | Err(failure: Failure) {
    predicate IsFailure() { Err? }

    function PropagateFailure<U>(): Result<U>
      requires Err?
    {
      Err(failure)
    }

    function Extract(): T
      requires Ok?
    {
      value
    }
  }

  /** The outcome of a step that changes an object rather than returning a value. */
  datatype Outcome = Pass | Fail(failure: Failure)

  function OutcomeOf<T>(r: Result<T>): Outcome
  {
    if r.Ok? then Pass else Fail(r.failure)
  }
}
