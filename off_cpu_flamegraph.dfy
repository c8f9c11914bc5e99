/** `internal/collector/off_cpu_flamegraph_collector.go`: a collector that records
    off-CPU stacks with `offcputime-bpfcc` while the driver keeps running the query,
    then renders them into `off_cpu_flamegraph.svg`. */
module OffCpuFlamegraph {
  import opened Wrappers
  import opened Driver
  import opened Collector
  import opened Polling

  const CollectorName := "off_cpu_flamegraph"
  const DefaultBuildSeconds := 5
  const OutputFile := "off_cpu_flamegraph.svg"

  /** The creator registered in `init`: decodes `build_seconds` and builds the
      collector. Creating its scratch directory is not part of the model. */
  function NewFromSettings(settings: Settings): (r: Result<Collector>)
    ensures r.Ok? <==> "build_seconds" !in settings || settings["build_seconds"].Int?
    ensures r.Ok? ==> r.value == OffCpuFlamegraphCollector(DecodeBuildSeconds(CollectorName, DefaultBuildSeconds, settings).value)
    ensures r.Err? ==> r.error == "collector " + CollectorName + " setting 'build_seconds' is not int"
  {
    match DecodeBuildSeconds(CollectorName, DefaultBuildSeconds, settings)
    case Ok(seconds) => Ok(OffCpuFlamegraphCollector(seconds))
    case Err(e) => Err(e)
  }

  /** The value the background goroutine sends after running `offcputime-bpfcc`, the
      flamegraph script and the chmod of the output file. */
  function Signal(offcputime: ExternalRun, render: ExternalRun, chmodErr: Option<string>)
    : (r: Option<string>)
    ensures r.None? <==> offcputime.err.None? && render.err.None? && chmodErr.None?
    ensures offcputime.err.Some? ==>
              r == Some("collector off_cpu_flamegraph offcputime " + offcputime.command + " error: " + offcputime.err.value)
    ensures offcputime.err.None? && render.err.Some? ==>
              r == Some("collector off_cpu_flamegraph flamegraph script " + render.command + " error: " + render.err.value)
    ensures offcputime.err.None? && render.err.None? && chmodErr.Some? ==>
              r == Some("collector off_cpu_flamegraph failed to set permissions for flamegraph output file: " + chmodErr.value)
  {
    var steps := [
      Wrapped(offcputime.err, "collector off_cpu_flamegraph offcputime " + offcputime.command, " error: "),
      Wrapped(render.err, "collector off_cpu_flamegraph flamegraph script " + render.command, " error: "),
      Wrapped(chmodErr, "collector off_cpu_flamegraph failed to set permissions for flamegraph output file", ": ")
    ];
    assert steps[0].StepOk? && steps[1].StepOk? && steps[2].StepOk? ==>
           forall i :: 0 <= i < |steps| ==> steps[i] == StepOk;
    assert "collector off_cpu_flamegraph failed to set permissions for flamegraph output file" + ": "
        == "collector off_cpu_flamegraph failed to set permissions for flamegraph output file: ";
    FirstFailure(steps)
  }

  /** `Collect`: the shared foreground loop with this collector's name, file and
      pipeline, for a profiler that finishes. */
  method Collect(query: string, run: nat -> RunResult, ready: nat -> bool,
                 offcputime: ExternalRun, render: ExternalRun, chmodErr: Option<string>)
    returns (r: Process<CollectOutcome>)
    requires exists k: nat :: ready(k)
    ensures PollingOutcome(r, CollectorName, OutputFile, query, run, ready, Signal(offcputime, render, chmodErr))
  {
    r := CollectWhileProfiling(CollectorName, OutputFile, query, run, ready,
                               Signal(offcputime, render, chmodErr));
  }

  /** `init`: registers the creator under `off_cpu_flamegraph`. */
  method Init(collectors: CollectorRegistry)
    modifies collectors
    ensures collectors.entries == old(collectors.entries)[CollectorName := NewFromSettings]
  {
    collectors.Register(CollectorName, NewFromSettings);
  }
}
