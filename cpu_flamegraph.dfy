/** `internal/collector/cpu_flamegraph_collector.go`: a collector that samples on-CPU
    stacks with `perf` while the driver keeps running the query, then folds and
    renders them into `cpu_flamegraph.svg`. */
module CpuFlamegraph {
  import opened Wrappers
  import opened Driver
  import opened Collector
  import opened Polling

  const CollectorName := "cpu_flamegraph"
  const DefaultBuildSeconds := 5
  const OutputFile := "cpu_flamegraph.svg"

  /** The creator registered in `init`: decodes `build_seconds` and builds the
      collector. Creating its scratch directory is not part of the model. */
  function NewFromSettings(settings: Settings): (r: Result<Collector>)
    ensures r.Ok? <==> "build_seconds" !in settings || settings["build_seconds"].Int?
    ensures r.Ok? ==> r.value == CpuFlamegraphCollector(DecodeBuildSeconds(CollectorName, DefaultBuildSeconds, settings).value)
    ensures r.Err? ==> r.error == "collector " + CollectorName + " setting 'build_seconds' is not int"
  {
    match DecodeBuildSeconds(CollectorName, DefaultBuildSeconds, settings)
    case Ok(seconds) => Ok(CpuFlamegraphCollector(seconds))
    case Err(e) => Err(e)
  }

  /** The value the background goroutine sends after running `perf record`, the
      folding pipeline, the flamegraph script and the chmod of the output file. */
  function Signal(record: ExternalRun, fold: ExternalRun, render: ExternalRun, chmodErr: Option<string>)
    : (r: Option<string>)
    ensures r.None? <==> record.err.None? && fold.err.None? && render.err.None? && chmodErr.None?
    ensures record.err.Some? ==>
              r == Some("collector cpu_flamegraph perf record " + record.command + " error: " + record.err.value)
    ensures record.err.None? && fold.err.Some? ==>
              r == Some("collector cpu_flamegraph perf script " + fold.command + " error: " + fold.err.value)
    ensures record.err.None? && fold.err.None? && render.err.Some? ==>
              r == Some("collector cpu_flamegraph flamegraph script " + render.command + " error: " + render.err.value)
    ensures record.err.None? && fold.err.None? && render.err.None? && chmodErr.Some? ==>
              r == Some("collector cpu_flamegraph failed to set permissions for flamegraph output file: " + chmodErr.value)
  {
    var steps := [
      Wrapped(record.err, "collector cpu_flamegraph perf record " + record.command, " error: "),
      Wrapped(fold.err, "collector cpu_flamegraph perf script " + fold.command, " error: "),
      Wrapped(render.err, "collector cpu_flamegraph flamegraph script " + render.command, " error: "),
      Wrapped(chmodErr, "collector cpu_flamegraph failed to set permissions for flamegraph output file", ": ")
    ];
    assert steps[0].StepOk? && steps[1].StepOk? && steps[2].StepOk? && steps[3].StepOk? ==>
           forall i :: 0 <= i < |steps| ==> steps[i] == StepOk;
    assert "collector cpu_flamegraph failed to set permissions for flamegraph output file" + ": "
        == "collector cpu_flamegraph failed to set permissions for flamegraph output file: ";
    FirstFailure(steps)
  }

  /** `Collect`: the shared foreground loop with this collector's name, file and
      pipeline, for a profiler that finishes. */
  method Collect(query: string, run: nat -> RunResult, ready: nat -> bool,
                 record: ExternalRun, fold: ExternalRun, render: ExternalRun, chmodErr: Option<string>)
    returns (r: Process<CollectOutcome>)
    requires exists k: nat :: ready(k)
    ensures PollingOutcome(r, CollectorName, OutputFile, query, run, ready, Signal(record, fold, render, chmodErr))
  {
    r := CollectWhileProfiling(CollectorName, OutputFile, query, run, ready,
                               Signal(record, fold, render, chmodErr));
  }

  /** `init`: registers the creator under `cpu_flamegraph`. */
  method Init(collectors: CollectorRegistry)
    modifies collectors
    ensures collectors.entries == old(collectors.entries)[CollectorName := NewFromSettings]
  {
    collectors.Register(CollectorName, NewFromSettings);
  }
}
