# paw core in Dafny

paw is a command-line benchmarking tool for ClickHouse. Its `record` command runs each
query of a test file a fixed number of times through a driver and keeps the samples.
It also runs profiling collectors (on-CPU and off-CPU flamegraphs) while the driver
keeps executing the query, and writes one record per query. Its `view` command loads
the records of one run, or pairs the records of two runs, summarises the samples
and marks medians that changed significantly.

This project models the sequential logic of that core and proves what it promises:

- the statistics engine (`Stats`): minimum, maximum, truncating mean, population
  dispersion, an idealised standard deviation and the overflow-safe median of both
  durations of the samples;
- the registries of drivers and collectors (`Registries`, `Driver`, `Collector`): a map that
  registration updates in place, and a lookup that fails on unknown names;
- the ClickHouse driver's settings factory, connection address and progress accounting
  (`ClickHouse`);
- the two flamegraph collectors (`Polling`, `CpuFlamegraph`, `OffCpuFlamegraph`): the
  settings decoder, the background pipeline that reports its first failing step, and the
  foreground loop that keeps calling the driver until the profiler's signal arrives;
- the `record` command (`Recording`): the default-then-configured profile tables, the
  construction of the driver and the collectors, the recording of one query, the
  query-index filter and the fixed-width progress description;
- the `view` command (`View`): loading a run folder, pairing two runs by query number,
  resolving test files to folders, choosing the view, and the relative-difference rule.

External effects are parameters. The driver is `run: nat -> RunResult`, its answer to the
k-th call. The profiler is `ready: nat -> bool`, whether the poll after call k finds its
signal, together with the signal's value. A collector's `Collect` is `collect`, a
directory's creation is `mkdir`, and reading a record file or a test file is `load` or
`parse`. A directory listing is a value. `os.Exit(1)` after a log line becomes the
`Exited(log)` case of `Wrappers.Process`, and a Go `(T, error)` pair becomes
`Wrappers.Result`. Durations are unbounded integers. Go's truncating division is
`Numbers.TruncDiv`. The floating-point view rules are modelled over the reals.

Files: `wrappers.dfy`, `text.dfy`, `numbers.dfy`, `sequences.dfy`, `sorting.dfy`,
`registry.dfy`, `driver.dfy`, `clickhouse.dfy`, `collector.dfy`, `polling.dfy`,
`cpu_flamegraph.dfy`, `off_cpu_flamegraph.dfy`, `stats.dfy`, `queryrecord.dfy`,
`config.dfy`, `view.dfy`, `record.dfy`. Verify them together in one
`dafny verify` call.

## Model

| member | source | states |
|---|---|---|
| Stats.Durations | internal/stats/stats.go:137-140 | one value per sample, in sample order, the chosen duration of that sample |
| Stats.Min | internal/stats/stats.go:75-96 | the minimum of non-empty values is one of them and no value is smaller |
| Stats.Max | internal/stats/stats.go:75-96 | the maximum of non-empty values is one of them and no value is larger |
| Stats.Mean | internal/stats/stats.go:102-103 | the sum divided by the count with Go's truncation; `CentresBetween` places it between the minimum and the maximum, `MeanOfNonNegative` equates it with the floor quotient for non-negative sums |
| Stats.Dispersion | internal/stats/stats.go:105-114 | the sum of squared deviations from the truncated mean, divided by the count, is never negative |
| Stats.StdDev | internal/stats/stats.go:116-117 | the standard deviation is the floor square root of the dispersion: its square is at most the dispersion, the next square exceeds it |
| Stats.MiddleOf | internal/stats/stats.go:143-148 | on sorted values: the middle element for an odd count; for an even count a value between the two middle elements, equal to the floor of their plain average |
| Stats.Median | internal/stats/stats.go:139-148 | the middle of the sorted values, 0 for none; `CentresBetween` places it between the minimum and the maximum, `SortedIsSortSeq` makes it independent of the sort's order of equal values |
| Stats.StatsOf | internal/stats/stats.go:68-73 | no samples give the all-zero summary |
| Stats.GetMedianDuration | internal/stats/stats.go:129-149 | the array copy, in-place sort and middle read give the median of the chosen durations (0 for no samples), whatever order the unstable sort leaves equal values in |
| Stats.ReadMiddle | internal/stats/stats.go:143-148 | the read of the sorted array gives the middle of its contents, as `MiddleOf` states it |
| Stats.SortedIsSortSeq | internal/stats/stats.go:141 | any sorted rearrangement of the values is the same sequence, so the sort's result is determined |
| Stats.ExtremesAndSums | internal/stats/stats.go:75-100 | the first loop leaves the minimum, maximum and sum of both durations |
| Stats.SquaredDeviationSums | internal/stats/stats.go:105-111 | the second loop leaves the sums of squared deviations of both durations from the given means |
| Stats.GetStats | internal/stats/stats.go:68-127 | the loops compute the summary of the samples; no samples give the zero summary |
| Stats.CentresBetween | internal/stats/stats.go:75-148 | for non-empty values, min <= mean <= max and min <= median <= max |
| Stats.Bounded | internal/stats/stats.go:75-96 | every value lies between the minimum and the maximum |
| Stats.MeanOfNonNegative | internal/stats/stats.go:102-103 | for non-negative durations the truncating mean equals the floor quotient |
| Stats.StatsBounds | internal/stats/stats.go:68-148 | every summary of at least one sample has both means and both medians between their minimum and maximum |
| Stats.ConstantValues | internal/stats/stats.go:68-148 | equal values have that value as min, max, mean and median, and zero dispersion and deviation |
| Stats.ValuesPermutation | internal/stats/stats.go:137-141 | each statistic of one duration depends only on the multiset of its values |
| Stats.StatsPermutation | internal/stats/stats.go:137-141 | reordering the samples leaves the whole summary unchanged |
| Stats.TestTimesStats | internal/stats/stats_test.go:12-33 | samples of 1s to 11s give min 1s, max 11s, mean 6s and median 6s in both durations |
| Numbers.TruncDiv | internal/stats/stats.go:102-103 | Go's integer division rounds toward zero: quotient bounds for negative and non-negative dividends |
| Numbers.IntSqrt | internal/stats/stats.go:116-117 | the floor square root of a non-negative integer |
| Numbers.TruncDivBetween | internal/stats/stats.go:102-103 | a truncated quotient of a value between n·lo and n·hi lies between lo and hi |
| Numbers.SumPermutation | internal/stats/stats.go:98-99 | the accumulated sum does not depend on the order of the terms |
| Sequences.SortSeq | internal/stats/stats.go:141 | the sorted arrangement of the values is sorted and a permutation of them |
| Sequences.SortedUnique | internal/stats/stats.go:141 | two sorted permutations of the same values are equal |
| Sequences.LastByKey | cmd/view.go:284-287 | the map a keyed loop fills, later elements overwriting earlier ones; its entries are stated by `LastByKeyEntries` |
| Sequences.LastByKeyEntries | cmd/view.go:284-287 | the map filled by a keyed loop has exactly the occurring keys, each bound to the last element with that key |
| Sorting.SortByKey | cmd/view.go:296-298 | the in-place sort leaves the array ordered by the key and a permutation of what it held |
| Text.TrimPrefix | cmd/view.go:321 | with the prefix present, prefix plus result is the input; otherwise the input is unchanged |
| Text.Repeat | cmd/paw/record.go:72 | n copies of the character |
| Text.ParseUint64 | cmd/view.go:322-325 | succeeds exactly on non-empty all-digit text whose value fits in 64 bits, and gives that value |
| Text.NatToString | cmd/paw/record.go:89 | `%d` of a natural number: non-empty digits without a leading zero, denoting the number |
| Text.IntToString | cmd/view.go:36 | `%d` of any integer: a minus sign before the digits of a negative one |
| Registries.Registry.constructor | internal/driver/driver.go:22 | a registry starts empty |
| Registries.Registry.Register | internal/driver/driver.go:24-26 | the entry for the name becomes the creator, replacing any earlier one; every other entry is unchanged (also `RegisterCollector`) |
| Registries.Registry.Lookup | internal/collector/collector.go:44 | finds a creator exactly when the name is registered, and it is the registered one |
| Driver.CreateFrom | internal/driver/driver.go:28-35 | an unknown name fails with `driver <name> not found`; a known one returns what its creator returns for the unchanged settings |
| Driver.CreateDriver | internal/driver/driver.go:28-35 | the same on the registry |
| Driver.CreateAfterRegister | internal/driver/driver.go:24-35 | after a registration, creating that name calls the new creator, and creating any other name behaves as before |
| Collector.CreateCollector | internal/collector/collector.go:43-50 | an unknown name fails with `collector <name> not found`; a known one returns what its creator returns for the unchanged settings |
| ClickHouse.Passthrough | internal/driver/clickhouse_driver.go:94-99 | the passed-through settings are the input minus `host` and `port`, every other value kept |
| ClickHouse.CopyDriverSettings | internal/driver/clickhouse_driver.go:94-99 | the copy loop over the map, in any order, produces exactly the passed-through settings |
| ClickHouse.NewFromSettings | internal/driver/clickhouse_driver.go:70-102 | a non-string `host` fails first, then a non-int `port`; it succeeds exactly when neither type check fails (the connection's opening is left out); defaults 127.0.0.1 and 9000 for absent keys; passthrough of the rest |
| ClickHouse.Address | internal/driver/clickhouse_driver.go:29 | `host:port` with the port in decimal; `AddressParts` reads the host, the colon and the port's digits back |
| ClickHouse.AddressParts | internal/driver/clickhouse_driver.go:29 | the address reads back as the host, a colon and the port's decimal digits |
| ClickHouse.DefaultDriver | internal/driver/clickhouse_driver.go:72-73 | with no settings the driver uses 127.0.0.1:9000 and passes nothing through |
| ClickHouse.Run | internal/driver/clickhouse_driver.go:45-68 | the server duration is the sum of all progress increments (0 without any); a query or row error gives the zero sample and the wrapped error, the query error first |
| ClickHouse.Init | internal/driver/clickhouse_driver.go:70-71 | registers the factory under `clickhouse` and nothing else |
| ClickHouse.CreateRegistered | internal/driver/clickhouse_driver.go:70-71 | once registered, creating `clickhouse` is the factory |
| Polling.FirstFailure | internal/collector/cpu_flamegraph_collector.go:104-163 | the pipeline sends nil exactly when all steps succeed, otherwise the error of the first failing step |
| Polling.Wrapped | internal/collector/cpu_flamegraph_collector.go:104-111 | a step succeeds exactly when its command succeeded, and a failure carries the collector's wrapping of the error |
| Polling.DecodeBuildSeconds | internal/collector/cpu_flamegraph_collector.go:193-206 | `build_seconds` defaults when absent, fails when not an int, and otherwise is the given int |
| Polling.CollectWhileProfiling | internal/collector/cpu_flamegraph_collector.go:166-189 | at least one driver call; one sample per call, in call order; stops at the first poll that finds the signal; returns its error with all samples; a driver error ends the process before any later call |
| Polling.CallsWithinWindow | internal/collector/cpu_flamegraph_collector.go:168-187 | a profiler that finishes after `window` call latencies lets the loop make `window` or `window + 1` calls |
| CpuFlamegraph.NewFromSettings | internal/collector/cpu_flamegraph_collector.go:192-207 | the creator succeeds exactly when `build_seconds` is absent or an int, with the decoded budget |
| CpuFlamegraph.Signal | internal/collector/cpu_flamegraph_collector.go:88-164 | record, fold, render and chmod run in order; the first failure's wrapped error is sent, or nil |
| CpuFlamegraph.Collect | internal/collector/cpu_flamegraph_collector.go:72-190 | the foreground loop with name `cpu_flamegraph`, file `cpu_flamegraph.svg` and this pipeline's signal |
| CpuFlamegraph.Init | internal/collector/cpu_flamegraph_collector.go:192-193 | registers the creator under `cpu_flamegraph` |
| OffCpuFlamegraph.NewFromSettings | internal/collector/off_cpu_flamegraph_collector.go:159-175 | the creator succeeds exactly when `build_seconds` is absent or an int, with the decoded budget |
| OffCpuFlamegraph.Signal | internal/collector/off_cpu_flamegraph_collector.go:80-131 | offcputime, render and chmod run in order; the first failure's wrapped error is sent, or nil |
| OffCpuFlamegraph.Collect | internal/collector/off_cpu_flamegraph_collector.go:64-157 | the foreground loop with name `off_cpu_flamegraph`, file `off_cpu_flamegraph.svg` and this pipeline's signal |
| OffCpuFlamegraph.Init | internal/collector/off_cpu_flamegraph_collector.go:159-160 | registers the creator under `off_cpu_flamegraph` |
| Config.DefaultConfig | internal/config/config.go:39-45 | no profiles, no collector profiles, five measure runs |
| View.Matched | cmd/view.go:289-294 | the pairs the loop over the right-hand records appends, in right-hand order; its members by `MatchedMembers`, its length by `MatchedCount` |
| View.MatchedMembers | cmd/view.go:289-294 | every appended pair holds a right-hand record whose number is a key, next to that key's record, and every such right-hand record is paired |
| View.MatchedCount | cmd/view.go:289-294 | one pair per right-hand position whose number is a key |
| View.BuildQueryRecordsDiff | cmd/view.go:280-301 | the pairs are sorted by query number and are a permutation of the right-hand records with a left-hand partner, each paired with the last left-hand record of its number |
| View.DiffCount | cmd/view.go:285-294 | the number of pairs is the number of right-hand records whose number occurs on the left |
| View.DiffPairsMatch | cmd/view.go:284-294 | both records of a pair have the same number; the right one comes from the right-hand run; the left one is the last left-hand record with that number |
| View.DiffPairedIff | cmd/view.go:290-294 | a right-hand record is paired exactly when some left-hand record has its number |
| View.ExampleLhsMap | cmd/view.go:284-287 | left-hand records 0, 1, 2 give the map with exactly those keys |
| View.ExampleMatched | cmd/view.go:289-294 | against that map, right-hand records 0, 1, 3 give pairs for 0 and 1 only |
| View.DiffExample | cmd/view.go:280-301 | runs {0,1,2} and {0,1,3} give exactly the pairs for 0 and 1, in that order |
| View.SortedPairOf | cmd/view.go:296-298 | a sorted permutation of two pairs with increasing numbers is that order |
| View.QueryFolderNames | cmd/view.go:316-325 | an entry is used exactly when it is a directory named `query_` followed by a non-empty run of digits whose value fits in a uint64 |
| View.QueryFolders | cmd/view.go:316-325 | the kept entries are exactly the query folders of the listing |
| View.RecordPath | cmd/view.go:327 | the record file's path inside a query folder; `LoadRecordsFirstError` reports it with the load error |
| View.LoadRecords | cmd/view.go:327-337 | loading succeeds exactly when every record file loads; then one record per folder, in order, each with its statistics |
| View.LoadRecordsFirstError | cmd/view.go:328-331 | loading fails with the first unreadable record file and its path |
| View.LoadQueryFolders | cmd/view.go:316-337 | the loop with its two skips and its early error return computes that loading |
| View.ParseTestFolder | cmd/view.go:303-344 | a listing error is reported with the folder; a record error is the first one; otherwise the records are sorted by query number and are a permutation of the loaded records |
| View.ConvertPathToFolder | cmd/view.go:346-358 | a `.yaml` path gives its test's name, or ends the process on a parse error; any other path is returned unchanged |
| View.FolderPathNotParsed | cmd/view.go:346-358 | a path without the `.yaml` suffix is never given to the parser |
| View.ViewCommand | cmd/view.go:30-60 | one argument gives the single view, two the diff view (left path resolved first), any other count ends the process with the count (in the program only zero arguments reach that case, since the command line admits at most two) |
| View.RelativeDiff | cmd/view.go:374-380 | the result times the base equals the change times 100, where the base is the left value, or 0.000001 for a zero left value |
| View.RowClass | cmd/view.go:382-394 | negative mark exactly above +5 percent, positive mark exactly below -5 percent, no mark in between |
| View.RowClassByRatio | cmd/view.go:374-394 | for a positive left value, negative mark exactly when rhs > 1.05·lhs, positive mark exactly when rhs < 0.95·lhs |
| Recording.ProfileTable | cmd/paw/record.go:281-315 | defaults for the registered names overwritten by the configured profiles; its entries by `ProfileTableEntries` |
| Recording.ProfileTableEntries | cmd/paw/record.go:281-297 | the table has exactly the registered and configured names; an unconfigured registered name keeps its default; a configured name maps to its last configured profile |
| Recording.BuildProfiles | cmd/paw/record.go:281-297 | the two loops, in any map order, build the driver profile table |
| Recording.BuildCollectorProfiles | cmd/paw/record.go:299-315 | the two loops, in any map order, build the collector profile table |
| Recording.BuildDriver | cmd/paw/record.go:230-245 | an unknown profile ends the process with `Profile <p> not found`; a creation error with `Failed to create driver: <e>`; otherwise the created driver |
| Recording.DefaultClickHouseProfile | cmd/paw/record.go:281-290 | without a configuration file, profile `clickhouse` exists and creates the driver for 127.0.0.1:9000 |
| Recording.CollectorProfileFound | cmd/paw/record.go:256-263 | an unregistered, unconfigured collector name has no profile and stops at `Collector profile <n> not found`; a configured one always has a profile |
| Recording.CollectorFor | cmd/paw/record.go:258-270 | one test collector name's profile lookup and creation, ending the process with either failure's log; `CollectorProfileFound` and `BuildCollectors` state its cases |
| Recording.BuildCollectors | cmd/paw/record.go:253-279 | succeeds exactly when every test collector name resolves; then one named collector per name, in the test's order; otherwise the first failing name's log |
| Recording.CollectorStep | cmd/paw/record.go:198-226 | one collector's iteration: a directory failure ends the process with its log, a `Collect` failure with its log, otherwise its result; `RecordQuery` states the loop over them |
| Recording.RecordQuery | cmd/paw/record.go:170-228 | exactly `measureRuns` driver runs kept in order, then one result per collector in order; succeeds exactly when all runs and collectors do; otherwise the first failure's log and no record |
| Recording.FixedWidth | cmd/paw/record.go:89-94 | the description always has 80 characters: shorter text padded with spaces, longer text cut to 77 characters plus `...` |
| Recording.StartingDescriptionFixed | cmd/paw/record.go:69-72 | the initial `Starting...` description, padded without a length check, is the same 80-character text |
| Recording.FixedWidthStable | cmd/paw/record.go:89-94 | a description of the fixed width is left as it is |
| Recording.Selection | cmd/paw/record.go:84-87 | a negative index selects every query in order; otherwise only the query at that index, if there is one |
| Recording.PlanQueries | cmd/paw/record.go:84-99 | the loop runs exactly the selected queries in increasing index order, each with its fixed-width `Running query` description and its `query_<index>` folder |

## Left out

- The HTTP server, its handlers, the HTML templates and the concurrent rendering of the per-query pages (`cmd/view.go`): network I/O, presentation and goroutines. Only the relative-difference and row-class rule is modelled.
- `buildViewSingleHTMLPages` and `buildViewDiffHTMLPages`: they only glue loading and pairing to the templates.
- Goroutines and channels in the collectors: the background profiler is the `ready` oracle plus the value it sends.
- Polling.CollectWhileProfiling: the model covers only a profiler that eventually sends its signal (`requires exists k: nat :: ready(k)`). The Go loop (`cpu_flamegraph_collector.go:168-187`, `off_cpu_flamegraph_collector.go:135-154`) has no timeout and no bound on its driver calls, so if `perf`, `sh` or `offcputime-bpfcc` hangs, it calls the driver forever. Such a run has no counterpart in the model.
- CpuFlamegraph.Collect: the same restriction, to a record/fold/render pipeline that finishes; the Go collector spins without bound otherwise.
- OffCpuFlamegraph.Collect: the same restriction, to an offcputime/render pipeline that finishes; the Go collector spins without bound otherwise.
- The external processes (`perf`, `offcputime-bpfcc`, `sh`, the flamegraph scripts), their command lines (kept as opaque text), the temporary directory and its cleanup function, and `os.Chmod`: these are foreign programs and file-system effects. Their outcomes are inputs.
- CpuFlamegraph.NewFromSettings: does not model the failures of creating the temporary directory or writing the scripts, because those are file-system effects.
- OffCpuFlamegraph.NewFromSettings: the same.
- `clickhouse.Open`, `conn.Query` and `time.Since`: a foreign library and the clock. `ClickHouse.Run` takes what they report as a value.
- ClickHouse.NewFromSettings: the error that `clickhouse.Open` can return from `NewClickHouseDriver` (`internal/driver/clickhouse_driver.go:35-38`, reached at line 101) is not modelled. So the "succeeds exactly when" clause covers only the `host` and `port` type checks, and the Go creator can also fail when they pass. `Recording.BuildDriver`'s `Failed to create driver` path and `Recording.DefaultClickHouseProfile` inherit this gap.
- JSON serialisation of records and YAML parsing of the configuration and test files: the record and file shapes are datatypes, and parsing is the `load` and `parse` parameters.
- The cobra command set-up (including `cobra.MaximumNArgs(2)` for `view` at `cmd/main.go:66`, which rejects three or more arguments before `View` runs, and `cobra.ExactArgs(1)` for `record`), the logger's debug and info lines, the progress bar, the interactive `delete` prompt, copying the configuration files, and removing and creating the query folders in `Record`: plumbing and terminal I/O. `Recording.PlanQueries` covers which queries run, with which description and which folder.
- `Record`'s own checks before the loop (no test file argument, configuration or test file that does not parse) and the error of saving a record: they end the process on I/O results.
- Floating point: the standard deviation is the floor integer square root, not `math.Sqrt` with its float64 round trip. The `...Milliseconds` getters are left out. `RelativeDiff` and `RowClass` compute over the reals, without float64 rounding.
- Stats.GetStats: durations are unbounded integers, so int64 overflow of sums and squares, which the source does not guard, is not modelled.
- Stats.GetStats: the two loops of the source are factored into `ExtremesAndSums` and `SquaredDeviationSums`, with the same update rules.
- View.LoadQueryFolders: the loop of `parseTestFolder` is a method of its own, so that `ParseTestFolder` only lists, loads and sorts.
- View.RecordPath: `filepath.Join` also cleans the path; the model joins with `/`.
- Recording.FixedWidth: lengths are counted in characters of the Dafny string, whereas Go counts bytes; the two agree for ASCII text.
- Recording.RecordQuery: the collectors' cleanup functions and the logger output are left out, and the collector's `Collect` is the `collect` parameter.
- The `QueryRecordPair` type without statistics is unused by the modelled code and left out; `QueryRecords.QueryRecordPair` stands for the pair with statistics.
