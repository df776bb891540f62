# develog — a Dafny model of its decision logic

develog is a browser logging facade. A `Develog` logger works out once, at
construction, which environment it runs in (local, dev, stage, production or
unknown, from the page's hostname or a forced value). It then decides whether
that environment is one it logs in. Each logging call is silently dropped when
logging is off. When logging is on, the call is forwarded to the matching
`console` method with a prefix (and, optionally, a timestamp) in front.

The model has four modules:

- `Types` (types.dfy): the environments, the timestamp formats, the logger
  options and an `Option` type.
- `EnvironmentDetection` (environment.dfy): `detectEnvironment`. The default
  patterns are prefix predicates, custom patterns are opaque predicates, and
  the pattern table is a map merged with the overrides.
- `TimestampFormatting` (utils.dfy): `formatTimestamp`, `formatTime`,
  `formatDateTime` and `padZero`, together with the decimal rendering of
  numbers they rely on.
- `Logger` (logger.dfy): the `Develog` class with `const` fields, and a
  `Console` class that records every call made on it as
  `ConsoleCall(method, args)`. Every output method states exactly which calls
  it appends.

The source and its typings disagree in one place. `TimestampFormat` is
imported by src/logger.ts and src/utils.ts but not declared in src/types.ts.
`showTimestamp` and `timestampFormat` are read from the options but are not
declared in `LoggerOptions`. The model declares
`TimestampFormat = Time | DateTime | Iso | Ms`. It adds `Unrecognized(name)`
for a value that reaches `formatTimestamp` past the type checker. It also
adds both options to `LoggerOptions`.

src/__tests__/namespace.test.ts:25-201 exercises `namespace()`, a child
registry and `enabledNamespaces`. src/logger.ts and src/types.ts have none of
these, so the model leaves namespaces out. `time`/`timeEnd` take a required
label and always format it, even when it is empty (`Logger.Develog.Time`).

Inputs that the source reads from the host become parameters:

- the hostname is an `Option<string>`, where `None` means there is no
  `window` or no `window.location`;
- the clock reading is an `Instant`, which holds the local-time fields, the
  epoch milliseconds and the ISO string of one `Date`;
- the console is a `Console` object passed to each output method.

## Model

| member | source | states |
|---|---|---|
| EnvironmentDetection.DefaultHostnamePatterns | src/environment.ts:6-12 | the default table has an entry for every environment; local, dev, stage and production map to the loopback, `dev.`/`development.`, `stage.`/`staging.` and `prod.`/`production.`/`www.` prefix tests |
| EnvironmentDetection.MergePatterns | src/environment.ts:28 | the merged table has every environment; an overridden environment gets exactly its override, every other environment keeps its default pattern |
| EnvironmentDetection.DetectEnvironment | src/environment.ts:19-52 | no host gives `Unknown`; otherwise the result's pattern accepts the host (unless the result is `Unknown`), and no pattern earlier in the detection order local, dev, stage, production accepts it (none of the four when the result is `Unknown`) |
| EnvironmentDetection.DetectIsFirstMatch | src/environment.ts:31-51 | detection equals an independent ordered first-match search over [local, dev, stage, production], falling through to `Unknown` |
| EnvironmentDetection.NoHostIsUnknown | src/environment.ts:23-25 | without a window or location the result is `Unknown`, whatever the overrides |
| EnvironmentDetection.DefaultPatternsDisjoint | src/environment.ts:7-10 | no hostname matches two of the default local, dev, stage and production patterns |
| EnvironmentDetection.DefaultDetection | src/environment.ts:7-10 | with no overrides, each environment is detected exactly when its default prefix is present (both directions), and `Unknown` exactly when none is |
| EnvironmentDetection.LocalTakesPriority | src/environment.ts:31-33 | with the default local pattern, a loopback-prefixed host is `Local` whatever the dev/stage/production overrides accept |
| EnvironmentDetection.MergeAfterOverride | src/environment.ts:28 | overriding one environment changes the merged table at that environment only |
| EnvironmentDetection.OverrideReplacesOnlyItsEntry | src/environment.ts:28 | replacing one environment's pattern by one that agrees on the host leaves the detected environment unchanged, so an override affects no other entry |
| EnvironmentDetection.UnknownEntryNeverConsulted | src/environment.ts:11-51 | changing the `unknown` entry of the table never changes the result: `Unknown` is reached only by falling through |
| TimestampFormatting.NatToDecimal | src/utils.ts:50 | `toString` of a non-negative number gives at least one digit and no leading zero; it is one character exactly below 10 and at most two exactly below 100 |
| TimestampFormatting.NatToDecimalRoundTrip | src/utils.ts:50 | reading the written digits back gives the number |
| TimestampFormatting.FourDigitYear | src/utils.ts:39 | a year from 1000 to 9999 is written with four characters |
| TimestampFormatting.IntToString | src/utils.ts:19 | a non-negative integer is written as digits denoting it, with no leading zero unless it is 0; a negative one as `-` followed by the digits of its magnitude, again with no leading zero |
| TimestampFormatting.PadStart | src/utils.ts:50 | `padStart` keeps the string as the suffix and fills the front with the fill character up to the width |
| TimestampFormatting.PadZero | src/utils.ts:49-51 | the result is digits denoting `n`; exactly two below 100, led by `0` exactly when `n < 10`; from 10 on it is the full decimal, so 100 and above are not truncated |
| TimestampFormatting.FormatTime | src/utils.ts:28-33 | for in-range fields the result is 8 characters `HH:MM:SS`, each field two digits denoting the hour, minute and second |
| TimestampFormatting.FormatDateTime | src/utils.ts:38-44 | the result starts with the unpadded year and a `-`; for a calendar instant it continues with two digits for month index + 1, `-`, two digits for the day, a space and the `formatTime` output |
| TimestampFormatting.FourDigitYearDateTime | src/utils.ts:38-44 | with a four-digit year the result is 19 characters `YYYY-MM-DD HH:MM:SS`, every field denoting its component |
| TimestampFormatting.FormatTimestamp | src/utils.ts:8-23 | no argument, `time` and any unrecognized format give `formatTime`; `datetime` gives `formatDateTime`; `iso` the ISO string; `ms` the decimal epoch milliseconds |
| TimestampFormatting.FallbackIsTime | src/utils.ts:8-21 | the omitted format and an unrecognized format produce the same string as `time` |
| TimestampFormatting.TimestampShapes | src/utils.ts:11-22 | time, default and fallback outputs are `DD:DD:DD`; `ms` after the epoch is all digits denoting the milliseconds |
| Logger.ConsoleMethodFor | src/logger.ts:179 | every log level selects one of the five severity console methods, so the `console.log` fallback is never needed |
| Logger.ConsoleMethodForIsInjective | src/logger.ts:179 | distinct levels reach distinct console methods |
| Logger.ResolveEnvironment | src/logger.ts:27 | the forced environment when given, otherwise the detected one under the caller's overrides |
| Logger.EnabledSet | src/logger.ts:18-28 | the enabled set holds exactly the listed environments, or local, dev and stage when the option is left out |
| Logger.DefaultEnabledVerdict | src/logger.ts:18-30 | with the default list, logging is on exactly in local, dev and stage, and off in production and unknown |
| Logger.ForcedProductionIsDisabled | src/logger.ts:27-30 | forcing production with the default list makes logging off for every host |
| Logger.Develog.constructor | src/logger.ts:16-33 | fixes environment (forced or detected), enabled set, verdict (membership of the environment in the set), prefix (default `[develog]`), timestamp toggle (default off) and format (default `time`) |
| Logger.Develog.GetEnvironment | src/logger.ts:38-40 | returns the environment fixed at construction; the field is `const` |
| Logger.Develog.IsLoggingEnabled | src/logger.ts:45-47 | returns whether the environment fixed at construction is in the enabled set |
| Logger.Develog.PrefixWithTimestamp | src/logger.ts:195-201 | the bare prefix when timestamps are off; `prefix + " [" + timestamp + "]"` when on |
| Logger.Develog.FormatMessage | src/logger.ts:187-190 | the composed prefix, a space, then the label |
| Logger.Develog.LogWithLevel | src/logger.ts:176-182 | disabled: no console call; enabled: exactly one call on the level's console method with the composed prefix followed by the caller's arguments, unchanged and in order |
| Logger.Develog.Log | src/logger.ts:52-54 | as `LogWithLevel` on `console.log` |
| Logger.Develog.Info | src/logger.ts:59-61 | as `LogWithLevel` on `console.info` |
| Logger.Develog.Warn | src/logger.ts:66-68 | as `LogWithLevel` on `console.warn` |
| Logger.Develog.Error | src/logger.ts:73-75 | as `LogWithLevel` on `console.error` |
| Logger.Develog.Debug | src/logger.ts:80-82 | as `LogWithLevel` on `console.debug` |
| Logger.Develog.Group | src/logger.ts:87-94 | disabled: nothing; a present non-empty label gives one `group` call with the formatted label; an absent or empty one gives one `group` call with no arguments |
| Logger.Develog.GroupCollapsed | src/logger.ts:99-106 | as `Group`, on `console.groupCollapsed` |
| Logger.Develog.GroupEnd | src/logger.ts:111-114 | disabled: nothing; enabled: one argument-less `groupEnd` call |
| Logger.Develog.Table | src/logger.ts:119-123 | disabled: nothing; enabled: exactly two calls in order, `log` with the bare prefix (no timestamp) then `table` with the data unchanged |
| Logger.Develog.Time | src/logger.ts:128-131 | disabled: nothing; enabled: one `time` call with the formatted label |
| Logger.Develog.TimeEnd | src/logger.ts:136-139 | disabled: nothing; enabled: one `timeEnd` call with the formatted label |
| Logger.Develog.Count | src/logger.ts:144-151 | disabled: nothing; a present non-empty label gives one `count` call with the formatted label; otherwise the bare prefix, without a timestamp |
| Logger.Develog.CountReset | src/logger.ts:156-163 | as `Count`, on `console.countReset` |
| Logger.Develog.Clear | src/logger.ts:168-171 | disabled: nothing; enabled: one argument-less `clear` call |
| Logger.ForcedLocalLog | src/logger.test.ts:117-122 | a logger forced to local with default options logs `'test message'` as exactly one call `log('[develog]', 'test message')` |
| Logger.ForcedProductionIsSilent | src/logger.test.ts:161-188 | a logger forced to production with the default list makes no console call from any of its fourteen output methods |
| Logger.EnabledTable | src/logger.test.ts:233-240 | `table` on an enabled logger, even with timestamps on, makes exactly a bare-prefix `log` call then a `table` call with the data |
| Logger.TimestampedGroup | src/logger.ts:87-94 | with timestamps on, a labelled group's argument is `[develog] [timestamp] label` |

## Left out

- Reading `window.location` and `new Date()`: host I/O. The hostname and the clock reading are parameters.
- The conversion of an instant to local-time fields (`getHours`, `getDate`, …) and `toISOString`: library calls. An `Instant` carries their results, and the ISO string is opaque.
- General regular expressions: the default patterns are written as the prefix tests they denote, and custom patterns are arbitrary predicates.
- An override given explicitly as `undefined` (`{ dev: undefined }`): the spread would store `undefined` and `test` would throw. The model's override map only holds patterns.
- Real console output: the console only records the calls made on it.
- When the logger is disabled, the source also skips formatting the timestamp. The model does not capture this: evaluating a function has no observable effect.
- The exported default instance (src/logger.ts:207) and the re-exports of src/index.ts: wiring, not logic.
- Namespaced loggers: not present in src/logger.ts or src/types.ts.
- Number rendering for non-integer or non-finite numbers: every number the source renders is an integer returned by a `Date` getter.
