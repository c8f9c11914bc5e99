/** `cmd/paw/record.go`: the `record` command. It selects the driver and the
    collectors from the configured and the built-in profiles, plans which queries of
    the test file to run and how to describe them on the progress bar, and records a
    query: a fixed number of timed driver runs, then one result per collector. */
module Recording {
  import opened Wrappers
  import opened Text
  import opened Sequences
  import opened Driver
  import opened Collector
  import opened Config
  import opened QueryRecords
  import ClickHouse

  /* ---------------------------------------------------------------------------
     Profiles
     --------------------------------------------------------------------------- */

  /** A default entry for every registered name. */
  function Defaults<P>(registered: set<string>, defaultFor: string -> P): map<string, P> {
    map n | n in registered :: defaultFor(n)
  }

  /** The profile table both `buildProfiles` and `buildCollectorProfiles` build: a
      default profile for every registered name, then the configured profiles keyed
      by their names, a later one replacing an earlier one and any default. */
  function ProfileTable<P>(registered: set<string>, defaultFor: string -> P,
                           configured: seq<P>, nameOf: P -> string): map<string, P>
  {
    Defaults(registered, defaultFor) + LastByKey(configured, nameOf)
  }

  /** What the profile table holds: exactly the registered and the configured names;
      a name nobody configured keeps its default; a configured name maps to the last
      profile configured under it. */
  lemma ProfileTableEntries<P>(registered: set<string>, defaultFor: string -> P,
                               configured: seq<P>, nameOf: P -> string)
    ensures var m := ProfileTable(registered, defaultFor, configured, nameOf);
            && (forall n :: n in m <==> n in registered || exists i :: 0 <= i < |configured| && nameOf(configured[i]) == n)
            && (forall n :: n in registered && (forall i :: 0 <= i < |configured| ==> nameOf(configured[i]) != n) ==>
                  m[n] == defaultFor(n))
            && (forall n :: (exists i :: 0 <= i < |configured| && nameOf(configured[i]) == n) ==>
                  exists i :: 0 <= i < |configured| && configured[i] == m[n] && nameOf(configured[i]) == n &&
                              forall j :: i < j < |configured| ==> nameOf(configured[j]) != n)
  {
    var byName := LastByKey(configured, nameOf);
    LastByKeyEntries(configured, nameOf);
    var m := ProfileTable(registered, defaultFor, configured, nameOf);
    forall n | n in registered && (forall i :: 0 <= i < |configured| ==> nameOf(configured[i]) != n)
      ensures m[n] == defaultFor(n)
    {
      assert n !in byName;
    }
  }

  /** One more registered name in the defaults. */
  lemma DefaultsAdd<P>(registered: set<string>, name: string, defaultFor: string -> P)
    ensures Defaults(registered + {name}, defaultFor) == Defaults(registered, defaultFor)[name := defaultFor(name)]
  {
  }

  /** One more configured profile over the defaults. */
  lemma ConfiguredAdd<P>(defaults: map<string, P>, configured: seq<P>, i: nat, nameOf: P -> string)
    requires i < |configured|
    ensures (defaults + LastByKey(configured[..i], nameOf))[nameOf(configured[i]) := configured[i]]
            == defaults + LastByKey(configured[..i + 1], nameOf)
  {
    assert configured[..i + 1][..i] == configured[..i];
  }

  /** The built-in profile of a driver: named after it, with no settings. */
  function DefaultProfile(name: string): Profile {
    Profile(name, name, map[])
  }

  function ProfileName(p: Profile): string {
    p.name
  }

  /** The built-in profile of a collector: named after it, with no settings. */
  function DefaultCollectorProfile(name: string): CollectorProfile {
    CollectorProfile(name, name, map[])
  }

  function CollectorProfileName(p: CollectorProfile): string {
    p.name
  }

  /** The driver profiles the `record` command can choose from. */
  function DriverProfiles(configuration: Config, drivers: DriverRegistry): map<string, Profile>
    reads drivers
  {
    ProfileTable(drivers.entries.Keys, DefaultProfile, configuration.profiles, ProfileName)
  }

  /** The collector profiles a test can name. */
  function CollectorProfiles(configuration: Config, collectors: CollectorRegistry): map<string, CollectorProfile>
    reads collectors
  {
    ProfileTable(collectors.entries.Keys, DefaultCollectorProfile, configuration.collectorProfiles,
                 CollectorProfileName)
  }

  /** `buildProfiles`: one loop over the registered drivers (in Go's unspecified map
      order, which the result does not depend on) and one over the configured
      profiles. */
  method BuildProfiles(configuration: Config, drivers: DriverRegistry) returns (profiles: map<string, Profile>)
    ensures profiles == DriverProfiles(configuration, drivers)
  {
    profiles := map[];
    var names := drivers.entries.Keys;
    while names != {}
      invariant names <= drivers.entries.Keys
      invariant profiles == Defaults(drivers.entries.Keys - names, DefaultProfile)
      decreases names
    {
      var name :| name in names;
      DefaultsAdd(drivers.entries.Keys - names, name, DefaultProfile);
      assert drivers.entries.Keys - (names - {name}) == (drivers.entries.Keys - names) + {name};
      profiles := profiles[name := DefaultProfile(name)];
      names := names - {name};
    }
    ghost var defaults := profiles;
    for i := 0 to |configuration.profiles|
      invariant profiles == defaults + LastByKey(configuration.profiles[..i], ProfileName)
    {
      var profile := configuration.profiles[i];
      ConfiguredAdd(defaults, configuration.profiles, i, ProfileName);
      profiles := profiles[profile.name := profile];
    }
    assert configuration.profiles[..|configuration.profiles|] == configuration.profiles;
  }

  /** `buildCollectorProfiles`: the same two loops over the registered collectors and
      the configured collector profiles. */
  method BuildCollectorProfiles(configuration: Config, collectors: CollectorRegistry)
    returns (profiles: map<string, CollectorProfile>)
    ensures profiles == CollectorProfiles(configuration, collectors)
  {
    profiles := map[];
    var names := collectors.entries.Keys;
    while names != {}
      invariant names <= collectors.entries.Keys
      invariant profiles == Defaults(collectors.entries.Keys - names, DefaultCollectorProfile)
      decreases names
    {
      var name :| name in names;
      DefaultsAdd(collectors.entries.Keys - names, name, DefaultCollectorProfile);
      assert collectors.entries.Keys - (names - {name}) == (collectors.entries.Keys - names) + {name};
      profiles := profiles[name := DefaultCollectorProfile(name)];
      names := names - {name};
    }
    ghost var defaults := profiles;
    for i := 0 to |configuration.collectorProfiles|
      invariant profiles == defaults + LastByKey(configuration.collectorProfiles[..i], CollectorProfileName)
    {
      var profile := configuration.collectorProfiles[i];
      ConfiguredAdd(defaults, configuration.collectorProfiles, i, CollectorProfileName);
      profiles := profiles[profile.name := profile];
    }
    assert configuration.collectorProfiles[..|configuration.collectorProfiles|] == configuration.collectorProfiles;
  }

  /** `buildDriver`: looks the chosen profile up and creates its driver; an unknown
      profile or a creation error ends the process. */
  method BuildDriver(configuration: Config, profile: string, drivers: DriverRegistry)
    returns (r: Process<Driver>)
    ensures var table := DriverProfiles(configuration, drivers);
            && (profile !in table ==> r == Exited("Profile " + profile + " not found"))
            && (profile in table ==>
                 match CreateDriver(drivers, table[profile].driver, table[profile].settings)
                 case Err(e) => r == Exited("Failed to create driver: " + e)
                 case Ok(d) => r == Running(d))
  {
    var profiles := BuildProfiles(configuration, drivers);
    if profile !in profiles {
      return Exited("Profile " + profile + " not found");
    }
    var driverProfile := profiles[profile];
    var created := CreateDriver(drivers, driverProfile.driver, driverProfile.settings);
    if created.Err? {
      return Exited("Failed to create driver: " + created.error);
    }
    r := Running(created.value);
  }

  /** Without a configuration file, the `clickhouse` profile is the built-in one and
      gives the ClickHouse driver on `127.0.0.1:9000` with no settings. */
  lemma DefaultClickHouseProfile(drivers: DriverRegistry)
    requires ClickHouse.DriverName in drivers.entries
    requires drivers.entries[ClickHouse.DriverName] == ClickHouse.NewFromSettings
    ensures var table := DriverProfiles(DefaultConfig(), drivers);
            && ClickHouse.DriverName in table
            && CreateDriver(drivers, table[ClickHouse.DriverName].driver, table[ClickHouse.DriverName].settings)
               == Ok(ClickHouseDriver(ClickHouse.DefaultHost, ClickHouse.DefaultPort, map[]))
  {
    ClickHouse.DefaultDriver();
    ProfileTableEntries(drivers.entries.Keys, DefaultProfile, DefaultConfig().profiles, ProfileName);
  }

  /** A collector of the test, with the name the test gave it. */
  datatype NamedCollector = NamedCollector(collector: Collector, name: string)

  /** What `buildCollectors` makes of one collector name of the test. */
  function CollectorFor(profiles: map<string, CollectorProfile>, collectors: CollectorRegistry, name: string)
    : Process<Collector>
    reads collectors
  {
    if name !in profiles then Exited("Collector profile " + name + " not found")
    else match CreateCollector(collectors, profiles[name].collector, profiles[name].settings)
      case Err(e) => Exited("Failed to create collector " + name + ": " + e)
      case Ok(c) => Running(c)
  }

  /** A collector name that is neither registered nor configured has no profile, and
      `buildCollectors` stops at it; a configured profile is found even when no
      collector of that name is registered. */
  lemma CollectorProfileFound(configuration: Config, collectors: CollectorRegistry, name: string)
    ensures var table := CollectorProfiles(configuration, collectors);
            && ((name !in collectors.entries &&
                 forall i :: 0 <= i < |configuration.collectorProfiles| ==>
                   configuration.collectorProfiles[i].name != name) ==>
                  CollectorFor(table, collectors, name) == Exited("Collector profile " + name + " not found"))
            && ((exists i :: 0 <= i < |configuration.collectorProfiles| &&
                   configuration.collectorProfiles[i].name == name) ==>
                  name in table)
  {
    ProfileTableEntries(collectors.entries.Keys, DefaultCollectorProfile, configuration.collectorProfiles,
                        CollectorProfileName);
  }

  /** `buildCollectors`: one collector per name the test lists, in the test's order;
      the first name without a profile or whose collector cannot be created ends the
      process. */
  method BuildCollectors(configuration: Config, test: Test, collectors: CollectorRegistry)
    returns (r: Process<seq<NamedCollector>>)
    ensures var table := CollectorProfiles(configuration, collectors);
            && (r.Running? <==> (forall i :: 0 <= i < |test.collectors| ==>
                                   CollectorFor(table, collectors, test.collectors[i]).Running?))
            && (r.Running? ==> |r.value| == |test.collectors|)
            && (r.Running? ==>
                  forall i :: 0 <= i < |test.collectors| ==>
                    r.value[i] == NamedCollector(CollectorFor(table, collectors, test.collectors[i]).value,
                                                 test.collectors[i]))
            && (forall i :: (0 <= i < |test.collectors| && CollectorFor(table, collectors, test.collectors[i]).Exited? &&
                             (forall j :: 0 <= j < i ==> CollectorFor(table, collectors, test.collectors[j]).Running?)) ==>
                  r == Exited(CollectorFor(table, collectors, test.collectors[i]).log))
  {
    var result: seq<NamedCollector> := [];
    var profiles := BuildCollectorProfiles(configuration, collectors);
    for i := 0 to |test.collectors|
      invariant |result| == i
      invariant forall k :: 0 <= k < i ==>
                  && CollectorFor(profiles, collectors, test.collectors[k]).Running?
                  && result[k] == NamedCollector(CollectorFor(profiles, collectors, test.collectors[k]).value,
                                                 test.collectors[k])
    {
      var name := test.collectors[i];
      if name !in profiles {
        return Exited("Collector profile " + name + " not found");
      }
      var collectorProfile := profiles[name];
      var created := CreateCollector(collectors, collectorProfile.collector, collectorProfile.settings);
      if created.Err? {
        return Exited("Failed to create collector " + name + ": " + created.error);
      }
      result := result + [NamedCollector(created.value, name)];
    }
    r := Running(result);
  }

  /* ---------------------------------------------------------------------------
     Recording one query
     --------------------------------------------------------------------------- */

  /** The folder a collector writes into. */
  function CollectorDir(outputPath: string, name: string): string {
    outputPath + "/" + name
  }

  /** What the second loop of `recordQuery` makes of one collector: `mkdirErr` is
      what creating its folder returned and `outcome` what its `Collect` returned. */
  function CollectorStep(outputPath: string, name: string, mkdirErr: Option<string>,
                         outcome: Process<CollectOutcome>): Process<CollectorResult>
  {
    match mkdirErr
    case Some(e) =>
      Exited("Failed to create directory " + CollectorDir(outputPath, name) + " for collector " + name + ": " + e)
    case None =>
      match outcome
      case Exited(log) => Exited(log)
      case Running(o) =>
        match o.err
        case Some(e) => Exited("Failed to collect " + name + ": " + e)
        case None => Running(o.result)
  }

  /** The step of the `i`-th collector, with the folder and collection outcomes the
      environment gives it. */
  function StepOf(outputPath: string, collectors: seq<NamedCollector>, mkdir: string -> Option<string>,
                  collect: nat -> Process<CollectOutcome>, i: nat): Process<CollectorResult>
    requires i < |collectors|
  {
    CollectorStep(outputPath, collectors[i].name, mkdir(CollectorDir(outputPath, collectors[i].name)), collect(i))
  }

  /** The log line of a failed measure run. */
  function RunFailureLog(queryNumber: int, query: string, error: string): string {
    "Failed to run " + IntToString(queryNumber) + " query '" + query + "': " + error
  }

  /** `recordQuery`. `driverRun(k)` is the driver's answer to the `k`-th measure run,
      `mkdir(dir)` what `os.MkdirAll` returns for a collector's folder, and
      `collect(i)` what the `i`-th collector's `Collect` returns. It makes exactly
      `measureRuns` driver runs and keeps their times in order, then gives every
      collector, in order, its folder and one collection. The first failing run or
      collector ends the process and no record is returned. */
  method RecordQuery(driverRun: nat -> RunResult, collectors: seq<NamedCollector>, measureRuns: nat,
                     queryNumber: int, query: string, outputPath: string,
                     mkdir: string -> Option<string>, collect: nat -> Process<CollectOutcome>)
    returns (r: Process<QueryRecord>)
    ensures r.Running? <==>
              (forall k :: 0 <= k < measureRuns ==> driverRun(k).Ran?) &&
              (forall i :: 0 <= i < |collectors| ==> StepOf(outputPath, collectors, mkdir, collect, i).Running?)
    ensures r.Running? ==>
              && r.value.queryNumber == queryNumber && r.value.query == query
              && |r.value.executionTimes| == measureRuns
              && (forall k :: 0 <= k < measureRuns ==> driverRun(k) == Ran(r.value.executionTimes[k]))
              && |r.value.collectorResults| == |collectors|
              && (forall i :: 0 <= i < |collectors| ==>
                    StepOf(outputPath, collectors, mkdir, collect, i) == Running(r.value.collectorResults[i]))
    ensures forall k :: 0 <= k < measureRuns && driverRun(k).RunFailed? &&
                        (forall j :: 0 <= j < k ==> driverRun(j).Ran?) ==>
              r == Exited(RunFailureLog(queryNumber, query, driverRun(k).error))
    ensures (forall k :: 0 <= k < measureRuns ==> driverRun(k).Ran?) ==>
              forall i :: 0 <= i < |collectors| && StepOf(outputPath, collectors, mkdir, collect, i).Exited? &&
                          (forall j :: 0 <= j < i ==> StepOf(outputPath, collectors, mkdir, collect, j).Running?) ==>
                r == Exited(StepOf(outputPath, collectors, mkdir, collect, i).log)
  {
    var executionTimes: seq<ExecutionTime> := [];
    for run := 0 to measureRuns
      invariant |executionTimes| == run
      invariant forall k :: 0 <= k < run ==> driverRun(k) == Ran(executionTimes[k])
    {
      var answer := driverRun(run);
      if answer.RunFailed? {
        return Exited(RunFailureLog(queryNumber, query, answer.error));
      }
      executionTimes := executionTimes + [answer.time];
    }

    var collectorResults: seq<CollectorResult> := [];
    for i := 0 to |collectors|
      invariant |collectorResults| == i
      invariant forall k :: 0 <= k < i ==>
                  StepOf(outputPath, collectors, mkdir, collect, k) == Running(collectorResults[k])
    {
      var collectorName := collectors[i].name;
      var collectorDirName := CollectorDir(outputPath, collectorName);
      var mkdirErr := mkdir(collectorDirName);
      if mkdirErr.Some? {
        r := Exited("Failed to create directory " + collectorDirName + " for collector " + collectorName +
                    ": " + mkdirErr.value);
        assert StepOf(outputPath, collectors, mkdir, collect, i) == Exited(r.log);
        return;
      }
      var outcome := collect(i);
      if outcome.Exited? {
        r := Exited(outcome.log);
        assert StepOf(outputPath, collectors, mkdir, collect, i) == Exited(r.log);
        return;
      }
      if outcome.value.err.Some? {
        r := Exited("Failed to collect " + collectorName + ": " + outcome.value.err.value);
        assert StepOf(outputPath, collectors, mkdir, collect, i) == Exited(r.log);
        return;
      }
      collectorResults := collectorResults + [outcome.value.result];
    }
    r := Running(QueryRecord(queryNumber, query, executionTimes, collectorResults));
  }

  /* ---------------------------------------------------------------------------
     Planning the queries
     --------------------------------------------------------------------------- */

  const FixedDescriptionWidth := 80

  /** A progress description brought to the fixed width: shorter text is padded with
      spaces, longer text is cut to its first 77 bytes followed by `...`. */
  function FixedWidth(description: string): (r: string)
    ensures |r| == FixedDescriptionWidth
    ensures |description| <= FixedDescriptionWidth ==>
              r[..|description|] == description &&
              forall i :: |description| <= i < FixedDescriptionWidth ==> r[i] == ' '
    ensures |description| > FixedDescriptionWidth ==>
              r[..FixedDescriptionWidth - 3] == description[..FixedDescriptionWidth - 3] &&
              r[FixedDescriptionWidth - 3..] == "..."
  {
    if |description| < FixedDescriptionWidth then
      description + Repeat(' ', FixedDescriptionWidth - |description|)
    else if |description| > FixedDescriptionWidth then
      description[..FixedDescriptionWidth - 3] + "..."
    else description
  }

  /** The description shown before the first query: padded without a length check. */
  const StartingDescription := "Starting..." + Repeat(' ', FixedDescriptionWidth - |"Starting..."|)

  /** The unchecked padding of the initial description is what the checked rule
      would give, so it too has the fixed width. */
  lemma StartingDescriptionFixed()
    ensures StartingDescription == FixedWidth("Starting...")
    ensures |StartingDescription| == FixedDescriptionWidth
  {
  }

  /** A text of the fixed width is left as it is. */
  lemma FixedWidthStable(description: string)
    ensures FixedWidth(FixedWidth(description)) == FixedWidth(description)
  {
  }

  /** One query the loop of `Record` runs: its index in the test file, its text, the
      progress description and the folder its record goes to. */
  datatype PlannedQuery = PlannedQuery(index: nat, query: string, description: string, dir: string)

  function RunningDescription(index: nat, query: string): string {
    "Running query " + NatToString(index) + ": " + query
  }

  function QueryDir(outputPath: string, index: nat): string {
    outputPath + "/query_" + NatToString(index)
  }

  /** The indices `--query-index` selects among `n` queries: all of them for a
      negative index, the given one when there is such a query, none otherwise. */
  function Selection(n: nat, queryIndex: int): (r: seq<nat>)
    ensures forall k :: 0 <= k < |r| ==> r[k] < n
    ensures forall k, l :: 0 <= k < l < |r| ==> r[k] < r[l]
    ensures forall i: nat :: i < n ==> (i in r <==> queryIndex < 0 || queryIndex == i)
    ensures queryIndex < 0 ==> |r| == n
  {
    if queryIndex < 0 then
      var all := seq(n, k => k);
      assert forall i :: 0 <= i < n ==> i in all by {
        forall i | 0 <= i < n
          ensures i in all
        {
          assert all[i] == i;
        }
      }
      all
    else if queryIndex < n then [queryIndex]
    else []
  }

  /** The loop of `Record` without its effects on the file system and the terminal:
      which queries it runs, in which order, with which description and folder. */
  method PlanQueries(outputPath: string, queries: seq<string>, queryIndex: int)
    returns (plan: seq<PlannedQuery>)
    ensures |plan| == |Selection(|queries|, queryIndex)|
    ensures forall k :: 0 <= k < |plan| ==>
              && plan[k].index == Selection(|queries|, queryIndex)[k]
              && plan[k].query == queries[plan[k].index]
              && plan[k].description == FixedWidth(RunningDescription(plan[k].index, plan[k].query))
              && plan[k].dir == QueryDir(outputPath, plan[k].index)
  {
    plan := [];
    for index := 0 to |queries|
      invariant |plan| == |Selection(index, queryIndex)|
      invariant forall k :: 0 <= k < |plan| ==>
                  && plan[k].index == Selection(index, queryIndex)[k]
                  && plan[k].index < index
                  && plan[k].query == queries[plan[k].index]
                  && plan[k].description == FixedWidth(RunningDescription(plan[k].index, plan[k].query))
                  && plan[k].dir == QueryDir(outputPath, plan[k].index)
    {
      var query := queries[index];
      if queryIndex >= 0 && queryIndex != index {
        continue;
      }
      var description := RunningDescription(index, query);
      if |description| < FixedDescriptionWidth {
        description := description + Repeat(' ', FixedDescriptionWidth - |description|);
      } else if |description| > FixedDescriptionWidth {
        description := description[..FixedDescriptionWidth - 3] + "...";
      }
      plan := plan + [PlannedQuery(index, query, description, QueryDir(outputPath, index))];
    }
  }
}
