/**
 * Environment detection from the browser hostname (src/environment.ts).
 * The default patterns are start-anchored alternations of literal labels, so
 * each is a disjunction of prefix tests; caller overrides are opaque predicates.
 */
module EnvironmentDetection {
  import opened Types

  /** `^(localhost|127\.0\.0\.1|0\.0\.0\.0|::1|\[::1\])` */
  predicate IsLocalHost(hostname: string) {
    || "localhost" <= hostname
    || "127.0.0.1" <= hostname
    || "0.0.0.0" <= hostname
    || "::1" <= hostname
    || "[::1]" <= hostname
  }

  /** `^(dev|development)\.` */
  predicate IsDevHost(hostname: string) {
    "dev." <= hostname || "development." <= hostname
  }

  /** `^(stage|staging)\.` */
  predicate IsStageHost(hostname: string) {
    "stage." <= hostname || "staging." <= hostname
  }

  /** `^(prod|production|www)\.` */
  predicate IsProductionHost(hostname: string) {
    "prod." <= hostname || "production." <= hostname || "www." <= hostname
  }

  /** `.*`, the entry for `unknown`, which matches every hostname. */
  predicate MatchesEveryHost(hostname: string) {
    true
  }

  /** The default pattern table: one entry per environment. */
  function DefaultHostnamePatterns(): (patterns: map<Environment, HostnamePattern>)
    ensures forall e :: e in patterns
    ensures patterns[Local] == IsLocalHost && patterns[Dev] == IsDevHost
    ensures patterns[Stage] == IsStageHost && patterns[Production] == IsProductionHost
  {
    var patterns := map[Local := IsLocalHost, Dev := IsDevHost, Stage := IsStageHost,
                        Production := IsProductionHost, Unknown := MatchesEveryHost];
    EveryEnvironmentListed();
    assert patterns.Keys == AllEnvironments;
    patterns
  }

  /** The five environments. */
  const AllEnvironments: set<Environment> := {Local, Dev, Stage, Production, Unknown}

  lemma EveryEnvironmentListed()
    ensures forall e: Environment :: e in AllEnvironments
  {
    forall e: Environment ensures e in AllEnvironments {
      match e
      case Local => case Dev => case Stage => case Production => case Unknown =>
    }
  }

  /**
   * `{ ...DEFAULT_HOSTNAME_PATTERNS, ...customPatterns }`: an override replaces
   * its own environment's entry and no other.
   */
  function MergePatterns(custom: map<Environment, HostnamePattern>): (patterns: map<Environment, HostnamePattern>)
    ensures forall e :: e in patterns
    ensures forall e :: e in custom ==> patterns[e] == custom[e]
    ensures forall e :: e !in custom ==> patterns[e] == DefaultHostnamePatterns()[e]
  {
    DefaultHostnamePatterns() + custom
  }

  /** The environments whose patterns are tried, in order; `Unknown` is the fall-through. */
  const DetectionOrder: seq<Environment> := [Local, Dev, Stage, Production]

  /** The first position of `e` in `order`, or `|order|` when `e` is not in it. */
  function IndexOf(order: seq<Environment>, e: Environment): (i: nat)
    ensures i <= |order|
    ensures i < |order| ==> order[i] == e
    ensures forall k :: 0 <= k < i ==> order[k] != e
  {
    if order == [] then 0
    else if order[0] == e then 0
    else 1 + IndexOf(order[1..], e)
  }

  /** Position of an environment in `DetectionOrder`; `Unknown` comes after all of it. */
  function Rank(e: Environment): nat {
    IndexOf(DetectionOrder, e)
  }

  /**
   * Reference definition of ordered first-match: the first environment of
   * `order` whose pattern accepts the hostname, `Unknown` when none does.
   */
  function FirstMatch(order: seq<Environment>, patterns: map<Environment, HostnamePattern>, hostname: string): Environment
    requires forall e :: e in patterns
  {
    if order == [] then Unknown
    else if patterns[order[0]](hostname) then order[0]
    else FirstMatch(order[1..], patterns, hostname)
  }

  /**
   * `detectEnvironment`. `hostname` is `None` when there is no `window` or no
   * `window.location`; then no pattern is consulted.
   */
  function DetectEnvironment(hostname: Option<string>, custom: map<Environment, HostnamePattern>): (e: Environment)
    ensures hostname.None? ==> e == Unknown
    ensures hostname.Some? && e != Unknown ==> MergePatterns(custom)[e](hostname.value)
    ensures hostname.Some? ==>
      forall k :: 0 <= k < Rank(e) ==> !MergePatterns(custom)[DetectionOrder[k]](hostname.value)
  {
    match hostname
    case None => Unknown
    case Some(h) =>
      var patterns := MergePatterns(custom);
      if patterns[Local](h) then Local
      else if patterns[Dev](h) then Dev
      else if patterns[Stage](h) then Stage
      else if patterns[Production](h) then Production
      else Unknown
  }

  /** The if-chain of `detectEnvironment` is ordered first-match over local, dev, stage, production. */
  lemma {:induction false} DetectIsFirstMatch(hostname: string, custom: map<Environment, HostnamePattern>)
    ensures DetectEnvironment(Some(hostname), custom) == FirstMatch(DetectionOrder, MergePatterns(custom), hostname)
  {
    var p := MergePatterns(custom);
    var order := DetectionOrder;
    assert order[1..] == [Dev, Stage, Production];
    assert order[1..][1..] == [Stage, Production];
    assert order[1..][1..][1..] == [Production];
    assert order[1..][1..][1..][1..] == [];
    assert FirstMatch([Production], p, hostname) == if p[Production](hostname) then Production else Unknown;
    assert FirstMatch([Stage, Production], p, hostname)
        == if p[Stage](hostname) then Stage else FirstMatch([Production], p, hostname);
    assert FirstMatch([Dev, Stage, Production], p, hostname)
        == if p[Dev](hostname) then Dev else FirstMatch([Stage, Production], p, hostname);
  }

  /** Absent host context: `Unknown`, whatever the overrides are. */
  lemma NoHostIsUnknown(custom: map<Environment, HostnamePattern>)
    ensures DetectEnvironment(None, custom) == Unknown
  {
  }

  /** The default patterns accept disjoint sets of hostnames. */
  lemma {:induction false} DefaultPatternsDisjoint(hostname: string)
    ensures IsLocalHost(hostname) ==> !IsDevHost(hostname) && !IsStageHost(hostname) && !IsProductionHost(hostname)
    ensures IsDevHost(hostname) ==> !IsStageHost(hostname) && !IsProductionHost(hostname)
    ensures IsStageHost(hostname) ==> !IsProductionHost(hostname)
  {
    if hostname != [] {
      var c := hostname[0];
      assert IsLocalHost(hostname) ==> c in {'l', '1', '0', ':', '['};
      assert IsDevHost(hostname) ==> c == 'd';
      assert IsStageHost(hostname) ==> c == 's';
      assert IsProductionHost(hostname) ==> c in {'p', 'w'};
    }
  }

  /** With no overrides, each environment is detected exactly when its default prefix is present. */
  lemma DefaultDetection(hostname: string)
    ensures DetectEnvironment(Some(hostname), map[]) == Local <==> IsLocalHost(hostname)
    ensures DetectEnvironment(Some(hostname), map[]) == Dev <==> IsDevHost(hostname)
    ensures DetectEnvironment(Some(hostname), map[]) == Stage <==> IsStageHost(hostname)
    ensures DetectEnvironment(Some(hostname), map[]) == Production <==> IsProductionHost(hostname)
    ensures DetectEnvironment(Some(hostname), map[]) == Unknown <==>
      !IsLocalHost(hostname) && !IsDevHost(hostname) && !IsStageHost(hostname) && !IsProductionHost(hostname)
  {
    DefaultPatternsDisjoint(hostname);
  }

  /**
   * Local takes priority: unless `local` itself is overridden, a loopback
   * hostname is `Local` whatever the other overrides accept.
   */
  lemma LocalTakesPriority(hostname: string, custom: map<Environment, HostnamePattern>)
    requires Local !in custom
    requires IsLocalHost(hostname)
    ensures DetectEnvironment(Some(hostname), custom) == Local
  {
  }

  /** Overriding environment `e` changes the merged table at `e` and nowhere else. */
  lemma MergeAfterOverride(custom: map<Environment, HostnamePattern>, e: Environment, pattern: HostnamePattern,
                           d: Environment)
    ensures MergePatterns(custom[e := pattern])[d] == if d == e then pattern else MergePatterns(custom)[d]
  {
    assert d in custom[e := pattern] <==> d == e || d in custom;
  }

  /**
   * An override replaces only its own entry: overriding environment `e` with
   * a pattern that agrees with the current one on the hostname leaves the
   * detected environment unchanged.
   */
  lemma {:induction false} OverrideReplacesOnlyItsEntry(hostname: string, custom: map<Environment, HostnamePattern>,
                                                       e: Environment, pattern: HostnamePattern)
    requires pattern(hostname) == MergePatterns(custom)[e](hostname)
    ensures DetectEnvironment(Some(hostname), custom[e := pattern]) == DetectEnvironment(Some(hostname), custom)
  {
    MergeAfterOverride(custom, e, pattern, Local);
    MergeAfterOverride(custom, e, pattern, Dev);
    MergeAfterOverride(custom, e, pattern, Stage);
    MergeAfterOverride(custom, e, pattern, Production);
  }

  /** The `unknown` entry of the table is never consulted: `Unknown` is reached only by falling through. */
  lemma {:induction false} UnknownEntryNeverConsulted(hostname: Option<string>, custom: map<Environment, HostnamePattern>,
                                                     pattern: HostnamePattern)
    ensures DetectEnvironment(hostname, custom[Unknown := pattern]) == DetectEnvironment(hostname, custom)
  {
    MergeAfterOverride(custom, Unknown, pattern, Local);
    MergeAfterOverride(custom, Unknown, pattern, Dev);
    MergeAfterOverride(custom, Unknown, pattern, Stage);
    MergeAfterOverride(custom, Unknown, pattern, Production);
  }
}
