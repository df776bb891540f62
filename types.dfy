/**
 * Value types shared by the logging facade (src/types.ts), completed with the
 * timestamp format and the two timestamp options that src/logger.ts reads
 * from its options object but that src/types.ts does not declare.
 */
module Types {

  /** An optional value: an absent option, a missing `window.location`, an unlabelled call. */
  datatype Option<+T> = None | Some(value: T) {

    /** The value, or `default` when absent (a destructuring default in the source). */
    function GetOr(default: T): T {
      match this
      case Some(v) => v
      case None => default
    }
  }

  /** The runtime tier a host belongs to. */
  datatype Environment = Local | Dev | Stage | Production | Unknown

  /**
   * A hostname pattern. The source uses a `RegExp` and calls `test` on it;
   * only the verdict matters here, so a pattern is a predicate on the hostname.
   */
  type HostnamePattern = string -> bool

  /**
   * The four timestamp formats. `Unrecognized` stands for any other value that
   * reaches `formatTimestamp` at run time (a string cast past the type checker).
   */
  datatype TimestampFormat = Time | DateTime | Iso | Ms | Unrecognized(name: string)

  /** The constructor options of the logger; `None` is an option left undefined. */
  datatype LoggerOptions = LoggerOptions(
    enabledEnvironments: Option<seq<Environment>>,
    customHostnamePatterns: Option<map<Environment, HostnamePattern>>,
    prefix: Option<string>,
    forceEnvironment: Option<Environment>,
    showTimestamp: Option<bool>,
    timestampFormat: Option<TimestampFormat>)

  /** `new Develog()` with no options. */
  const NoOptions: LoggerOptions := LoggerOptions(None, None, None, None, None, None)
}
