/**
 * The `Develog` facade (src/logger.ts). The global `console` is a `Console`
 * object that records every call made on it; the clock reading that a
 * timestamped prefix needs is passed in as an `Instant`.
 */
module Logger {
  import opened Types
  import opened EnvironmentDetection
  import opened TimestampFormatting

  /** The console methods the facade calls. */
  datatype ConsoleMethod =
    | LogMethod | InfoMethod | WarnMethod | ErrorMethod | DebugMethod
    | GroupMethod | GroupCollapsedMethod | GroupEndMethod | TableMethod
    | TimeMethod | TimeEndMethod | CountMethod | CountResetMethod | ClearMethod

  /** The severities of `logWithLevel`. */
  datatype LogLevel = Log | Info | Warn | Error | Debug

  /**
   * `console[level] || console.log`: every level names a console method of
   * its own, so the `console.log` fallback is never taken.
   */
  function ConsoleMethodFor(level: LogLevel): (m: ConsoleMethod)
    ensures m.LogMethod? || m.InfoMethod? || m.WarnMethod? || m.ErrorMethod? || m.DebugMethod?
  {
    match level
    case Log => LogMethod
    case Info => InfoMethod
    case Warn => WarnMethod
    case Error => ErrorMethod
    case Debug => DebugMethod
  }

  /** The severities are told apart by the console method they reach. */
  lemma ConsoleMethodForIsInjective(a: LogLevel, b: LogLevel)
    ensures ConsoleMethodFor(a) == ConsoleMethodFor(b) ==> a == b
  {
  }

  /** An argument handed to the console: a string, or any other value, passed through untouched. */
  datatype Value = Str(text: string) | Opaque(handle: nat)

  /** One call on the console: which method, with which arguments. */
  datatype ConsoleCall = ConsoleCall(name: ConsoleMethod, args: seq<Value>)

  /** The console sink: the calls made on it, in order. */
  class Console {
    var calls: seq<ConsoleCall>

    constructor ()
      ensures calls == []
    {
      calls := [];
    }

    method Invoke(name: ConsoleMethod, args: seq<Value>)
      modifies this
      ensures calls == old(calls) + [ConsoleCall(name, args)]
    {
      calls := calls + [ConsoleCall(name, args)];
    }
  }

  const DefaultPrefix: string := "[develog]"
  const DefaultEnabledEnvironments: seq<Environment> := [Local, Dev, Stage]

  /** The environment a logger resolves: the forced one if given, else the detected one. */
  function ResolveEnvironment(options: LoggerOptions, hostname: Option<string>): (e: Environment)
    ensures options.forceEnvironment.Some? ==> e == options.forceEnvironment.value
    ensures options.forceEnvironment.None? ==> e == DetectEnvironment(hostname, options.customHostnamePatterns.GetOr(map[]))
  {
    match options.forceEnvironment
    case Some(forced) => forced
    case None => DetectEnvironment(hostname, options.customHostnamePatterns.GetOr(map[]))
  }

  /** `new Set(enabledEnvironments)`, with the default list when the option is left out. */
  function EnabledSet(options: LoggerOptions): (enabled: set<Environment>)
    ensures forall e :: e in enabled <==> e in options.enabledEnvironments.GetOr(DefaultEnabledEnvironments)
  {
    set e | e in options.enabledEnvironments.GetOr(DefaultEnabledEnvironments)
  }

  /** By default logging is on in local, dev and stage, and off in production and unknown. */
  lemma DefaultEnabledVerdict(options: LoggerOptions, e: Environment)
    requires options.enabledEnvironments.None?
    ensures e in EnabledSet(options) <==> e != Production && e != Unknown
  {
  }

  /** Forcing production with the default list turns logging off, whatever the host is. */
  lemma ForcedProductionIsDisabled(options: LoggerOptions, hostname: Option<string>)
    requires options.forceEnvironment == Some(Production) && options.enabledEnvironments.None?
    ensures ResolveEnvironment(options, hostname) !in EnabledSet(options)
  {
  }

  /** A label counts as given when it is present and not empty (JavaScript truthiness). */
  predicate HasLabel(labelText: Option<string>) {
    labelText.Some? && labelText.value != ""
  }

  /**
   * `Develog`. Its six fields are `readonly` in the source and `const` here,
   * so the getters return the values fixed by the constructor for the whole
   * life of the object.
   */
  class Develog {
    const environment: Environment
    const enabledEnvironments: set<Environment>
    const prefix: string
    const isEnabled: bool
    const showTimestamp: bool
    const timestampFormat: TimestampFormat

    /** The cached verdict is membership of the environment in the enabled set. */
    ghost predicate Valid() {
      isEnabled <==> environment in enabledEnvironments
    }

    /** `hostname` is `window.location.hostname`, or `None` outside a browser. */
    constructor (options: LoggerOptions, hostname: Option<string>)
      ensures environment == ResolveEnvironment(options, hostname)
      ensures enabledEnvironments == EnabledSet(options)
      ensures Valid()
      ensures prefix == options.prefix.GetOr(DefaultPrefix)
      ensures showTimestamp == options.showTimestamp.GetOr(false)
      ensures timestampFormat == options.timestampFormat.GetOr(TimestampFormat.Time)
    {
      environment := ResolveEnvironment(options, hostname);
      enabledEnvironments := EnabledSet(options);
      prefix := options.prefix.GetOr(DefaultPrefix);
      isEnabled := ResolveEnvironment(options, hostname) in EnabledSet(options);
      showTimestamp := options.showTimestamp.GetOr(false);
      timestampFormat := options.timestampFormat.GetOr(TimestampFormat.Time);
    }

    function GetEnvironment(): (e: Environment)
      ensures e == environment
    {
      environment
    }

    function IsLoggingEnabled(): (enabled: bool)
      requires Valid()
      ensures enabled <==> environment in enabledEnvironments
    {
      isEnabled
    }

    /** `getPrefixWithTimestamp`: the prefix, followed by ` [timestamp]` when timestamps are on. */
    function PrefixWithTimestamp(now: Instant): (p: string)
      ensures !showTimestamp ==> p == prefix
      ensures showTimestamp ==> p == prefix + " [" + FormatTimestamp(Some(timestampFormat), now) + "]"
    {
      if !showTimestamp then prefix
      else prefix + " [" + FormatTimestamp(Some(timestampFormat), now) + "]"
    }

    /** `formatMessage`: the composed prefix, a space, then the message. */
    function FormatMessage(message: string, now: Instant): (m: string)
      ensures m == PrefixWithTimestamp(now) + " " + message
    {
      PrefixWithTimestamp(now) + " " + message
    }

    /**
     * `logWithLevel`: when enabled, one call on the same-named console method
     * with the composed prefix first and the caller's arguments after it,
     * unchanged and in order; when disabled, nothing.
     */
    method LogWithLevel(level: LogLevel, args: seq<Value>, console: Console, now: Instant)
      modifies console
      ensures !isEnabled ==> console.calls == old(console.calls)
      ensures isEnabled ==>
        console.calls == old(console.calls) + [ConsoleCall(ConsoleMethodFor(level), [Str(PrefixWithTimestamp(now))] + args)]
    {
      if !isEnabled {
        return;
      }
      var prefixWithTimestamp := PrefixWithTimestamp(now);
      console.Invoke(ConsoleMethodFor(level), [Str(prefixWithTimestamp)] + args);
    }

    method Log(args: seq<Value>, console: Console, now: Instant)
      modifies console
      ensures !isEnabled ==> console.calls == old(console.calls)
      ensures isEnabled ==> console.calls == old(console.calls) + [ConsoleCall(LogMethod, [Str(PrefixWithTimestamp(now))] + args)]
    {
      LogWithLevel(LogLevel.Log, args, console, now);
    }

    method Info(args: seq<Value>, console: Console, now: Instant)
      modifies console
      ensures !isEnabled ==> console.calls == old(console.calls)
      ensures isEnabled ==> console.calls == old(console.calls) + [ConsoleCall(InfoMethod, [Str(PrefixWithTimestamp(now))] + args)]
    {
      LogWithLevel(LogLevel.Info, args, console, now);
    }

    method Warn(args: seq<Value>, console: Console, now: Instant)
      modifies console
      ensures !isEnabled ==> console.calls == old(console.calls)
      ensures isEnabled ==> console.calls == old(console.calls) + [ConsoleCall(WarnMethod, [Str(PrefixWithTimestamp(now))] + args)]
    {
      LogWithLevel(LogLevel.Warn, args, console, now);
    }

    method Error(args: seq<Value>, console: Console, now: Instant)
      modifies console
      ensures !isEnabled ==> console.calls == old(console.calls)
      ensures isEnabled ==> console.calls == old(console.calls) + [ConsoleCall(ErrorMethod, [Str(PrefixWithTimestamp(now))] + args)]
    {
      LogWithLevel(LogLevel.Error, args, console, now);
    }

    method Debug(args: seq<Value>, console: Console, now: Instant)
      modifies console
      ensures !isEnabled ==> console.calls == old(console.calls)
      ensures isEnabled ==> console.calls == old(console.calls) + [ConsoleCall(DebugMethod, [Str(PrefixWithTimestamp(now))] + args)]
    {
      LogWithLevel(LogLevel.Debug, args, console, now);
    }

    /** `group(label?)`: a labelled group gets the formatted label; an unlabelled one gets no argument. */
    method Group(labelText: Option<string>, console: Console, now: Instant)
      modifies console
      ensures !isEnabled ==> console.calls == old(console.calls)
      ensures isEnabled && HasLabel(labelText) ==>
        console.calls == old(console.calls) + [ConsoleCall(GroupMethod, [Str(FormatMessage(labelText.value, now))])]
      ensures isEnabled && !HasLabel(labelText) ==> console.calls == old(console.calls) + [ConsoleCall(GroupMethod, [])]
    {
      if !isEnabled {
        return;
      }
      if HasLabel(labelText) {
        console.Invoke(GroupMethod, [Str(FormatMessage(labelText.value, now))]);
      } else {
        console.Invoke(GroupMethod, []);
      }
    }

    /** `groupCollapsed(label?)`: as `group`, on the collapsed console method. */
    method GroupCollapsed(labelText: Option<string>, console: Console, now: Instant)
      modifies console
      ensures !isEnabled ==> console.calls == old(console.calls)
      ensures isEnabled && HasLabel(labelText) ==>
        console.calls == old(console.calls) + [ConsoleCall(GroupCollapsedMethod, [Str(FormatMessage(labelText.value, now))])]
      ensures isEnabled && !HasLabel(labelText) ==> console.calls == old(console.calls) + [ConsoleCall(GroupCollapsedMethod, [])]
    {
      if !isEnabled {
        return;
      }
      if HasLabel(labelText) {
        console.Invoke(GroupCollapsedMethod, [Str(FormatMessage(labelText.value, now))]);
      } else {
        console.Invoke(GroupCollapsedMethod, []);
      }
    }

    method GroupEnd(console: Console)
      modifies console
      ensures !isEnabled ==> console.calls == old(console.calls)
      ensures isEnabled ==> console.calls == old(console.calls) + [ConsoleCall(GroupEndMethod, [])]
    {
      if !isEnabled {
        return;
      }
      console.Invoke(GroupEndMethod, []);
    }

    /** `table(data)`: the bare prefix on `console.log` (no timestamp), then the data untouched. */
    method Table(data: Value, console: Console)
      modifies console
      ensures !isEnabled ==> console.calls == old(console.calls)
      ensures isEnabled ==>
        console.calls == old(console.calls) + [ConsoleCall(LogMethod, [Str(prefix)]), ConsoleCall(TableMethod, [data])]
    {
      if !isEnabled {
        return;
      }
      console.Invoke(LogMethod, [Str(prefix)]);
      console.Invoke(TableMethod, [data]);
    }

    /** `time(labelText)`: the label is always formatted, even when empty. */
    method Time(labelText: string, console: Console, now: Instant)
      modifies console
      ensures !isEnabled ==> console.calls == old(console.calls)
      ensures isEnabled ==> console.calls == old(console.calls) + [ConsoleCall(TimeMethod, [Str(FormatMessage(labelText, now))])]
    {
      if !isEnabled {
        return;
      }
      console.Invoke(TimeMethod, [Str(FormatMessage(labelText, now))]);
    }

    method TimeEnd(labelText: string, console: Console, now: Instant)
      modifies console
      ensures !isEnabled ==> console.calls == old(console.calls)
      ensures isEnabled ==> console.calls == old(console.calls) + [ConsoleCall(TimeEndMethod, [Str(FormatMessage(labelText, now))])]
    {
      if !isEnabled {
        return;
      }
      console.Invoke(TimeEndMethod, [Str(FormatMessage(labelText, now))]);
    }

    /** `count(label?)`: the formatted labelText, or the bare prefix (no timestamp) without one. */
    method Count(labelText: Option<string>, console: Console, now: Instant)
      modifies console
      ensures !isEnabled ==> console.calls == old(console.calls)
      ensures isEnabled && HasLabel(labelText) ==>
        console.calls == old(console.calls) + [ConsoleCall(CountMethod, [Str(FormatMessage(labelText.value, now))])]
      ensures isEnabled && !HasLabel(labelText) ==> console.calls == old(console.calls) + [ConsoleCall(CountMethod, [Str(prefix)])]
    {
      if !isEnabled {
        return;
      }
      if HasLabel(labelText) {
        console.Invoke(CountMethod, [Str(FormatMessage(labelText.value, now))]);
      } else {
        console.Invoke(CountMethod, [Str(prefix)]);
      }
    }

    method CountReset(labelText: Option<string>, console: Console, now: Instant)
      modifies console
      ensures !isEnabled ==> console.calls == old(console.calls)
      ensures isEnabled && HasLabel(labelText) ==>
        console.calls == old(console.calls) + [ConsoleCall(CountResetMethod, [Str(FormatMessage(labelText.value, now))])]
      ensures isEnabled && !HasLabel(labelText) ==> console.calls == old(console.calls) + [ConsoleCall(CountResetMethod, [Str(prefix)])]
    {
      if !isEnabled {
        return;
      }
      if HasLabel(labelText) {
        console.Invoke(CountResetMethod, [Str(FormatMessage(labelText.value, now))]);
      } else {
        console.Invoke(CountResetMethod, [Str(prefix)]);
      }
    }

    method Clear(console: Console)
      modifies console
      ensures !isEnabled ==> console.calls == old(console.calls)
      ensures isEnabled ==> console.calls == old(console.calls) + [ConsoleCall(ClearMethod, [])]
    {
      if !isEnabled {
        return;
      }
      console.Invoke(ClearMethod, []);
    }
  }

  /** `new Develog({ forceEnvironment: 'local' }).log('test message')`. */
  method ForcedLocalLog(now: Instant) returns (calls: seq<ConsoleCall>)
    ensures calls == [ConsoleCall(LogMethod, [Str("[develog]"), Str("test message")])]
  {
    var console := new Console();
    var options := NoOptions.(forceEnvironment := Some(Local));
    var logger := new Develog(options, None);
    DefaultEnabledVerdict(options, Local);
    assert [Str(DefaultPrefix)] + [Str("test message")] == [Str("[develog]"), Str("test message")];
    logger.Log([Str("test message")], console, now);
    calls := console.calls;
  }

  /** A logger forced to production with the default list makes no console call at all. */
  method ForcedProductionIsSilent(hostname: Option<string>, args: seq<Value>, data: Value,
                                  labelText: Option<string>, now: Instant) returns (calls: seq<ConsoleCall>)
    ensures calls == []
  {
    var console := new Console();
    var logger := new Develog(NoOptions.(forceEnvironment := Some(Production)), hostname);
    logger.Log(args, console, now);
    logger.Info(args, console, now);
    logger.Warn(args, console, now);
    logger.Error(args, console, now);
    logger.Debug(args, console, now);
    logger.Group(labelText, console, now);
    logger.GroupCollapsed(labelText, console, now);
    logger.GroupEnd(console);
    logger.Table(data, console);
    logger.Time(labelText.GetOr(""), console, now);
    logger.TimeEnd(labelText.GetOr(""), console, now);
    logger.Count(labelText, console, now);
    logger.CountReset(labelText, console, now);
    logger.Clear(console);
    calls := console.calls;
  }

  /** `table(data)` on an enabled logger: the bare prefix on `log`, then the data on `table`. */
  method EnabledTable(prefix: string, data: Value, now: Instant) returns (calls: seq<ConsoleCall>)
    ensures calls == [ConsoleCall(LogMethod, [Str(prefix)]), ConsoleCall(TableMethod, [data])]
  {
    var console := new Console();
    var options := NoOptions.(forceEnvironment := Some(Dev), prefix := Some(prefix), showTimestamp := Some(true));
    var logger := new Develog(options, None);
    DefaultEnabledVerdict(options, Dev);
    logger.Table(data, console);
    calls := console.calls;
  }

  /** With timestamps on, a labelled group reads `prefix [timestamp] label`. */
  method TimestampedGroup(format: TimestampFormat, labelText: string, now: Instant) returns (calls: seq<ConsoleCall>)
    requires labelText != ""
    ensures calls == [ConsoleCall(GroupMethod, [Str(DefaultPrefix + " [" + FormatTimestamp(Some(format), now) + "]" + " " + labelText)])]
  {
    var console := new Console();
    var options := NoOptions.(forceEnvironment := Some(Stage), showTimestamp := Some(true), timestampFormat := Some(format));
    var logger := new Develog(options, None);
    DefaultEnabledVerdict(options, Stage);
    logger.Group(Some(labelText), console, now);
    calls := console.calls;
  }
}
