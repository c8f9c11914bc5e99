/** The part both flamegraph collectors share: the foreground loop that keeps the
    driver busy while the background profiler runs, the way the background pipeline
    reports its outcome, and the decoding of `build_seconds`. */
module Polling {
  import opened Wrappers
  import opened Driver
  import opened Collector

  /** How one step of the background pipeline ended. */
  datatype Step = StepOk | StepFailed(message: string)

  /** The single value the background goroutine sends: it runs its steps in order and
      sends the error of the first one that fails, or nil when all succeed. */
  function FirstFailure(steps: seq<Step>): (r: Option<string>)
    ensures r.None? <==> forall i :: 0 <= i < |steps| ==> steps[i] == StepOk
    ensures forall i :: (0 <= i < |steps| && steps[i].StepFailed? &&
                         forall j :: 0 <= j < i ==> steps[j] == StepOk) ==> r == Some(steps[i].message)
  {
    if steps == [] then None
    else if steps[0].StepFailed? then Some(steps[0].message)
    else
      var r := FirstFailure(steps[1..]);
      assert forall i :: 1 <= i < |steps| ==> steps[i] == steps[1..][i - 1];
      r
  }

  /** One external command of the pipeline: its rendered command line and the error its
      `Run` returned, if any. */
  datatype ExternalRun = ExternalRun(command: string, err: Option<string>)

  /** A step's outcome, with the collector's wrapping of the underlying error. */
  function Wrapped(err: Option<string>, prefix: string, suffix: string): (s: Step)
    ensures s == StepOk <==> err.None?
    ensures err.Some? ==> s == StepFailed(prefix + suffix + err.value)
  {
    match err
    case None => StepOk
    case Some(e) => StepFailed(prefix + suffix + e)
  }

  /** The `build_seconds` setting: the default when absent, an error when it holds
      anything but an int, the given int otherwise. */
  function DecodeBuildSeconds(collectorName: string, defaultSeconds: int, settings: Settings)
    : (r: Result<int>)
    ensures "build_seconds" !in settings ==> r == Ok(defaultSeconds)
    ensures "build_seconds" in settings && settings["build_seconds"].Int? ==>
              r == Ok(settings["build_seconds"].i)
    ensures "build_seconds" in settings && !settings["build_seconds"].Int? ==>
              r == Err("collector " + collectorName + " setting 'build_seconds' is not int")
  {
    if "build_seconds" !in settings then Ok(defaultSeconds)
    else match settings["build_seconds"]
      case Int(i) => Ok(i)
      case _ => Err("collector " + collectorName + " setting 'build_seconds' is not int")
  }

  /** What the foreground loop of a collector delivers. When it finishes, the result
      carries the collector's name and declared file and the signal's error, and its
      samples are exactly the driver's answers up to and including the call after which
      the poll first found the signal. When it ends the process, some call `k` failed
      while no earlier poll had found the signal and every earlier call succeeded. */
  ghost predicate PollingOutcome(r: Process<CollectOutcome>, name: string, outputFile: string,
                                 query: string, run: nat -> RunResult, ready: nat -> bool,
                                 signal: Option<string>)
  {
    match r
    case Running(outcome) =>
      var n := |outcome.result.executionTimes|;
      && outcome.result.name == name
      && outcome.result.files == [ResultFile(Flamegraph, outputFile)]
      && outcome.err == signal
      && n >= 1 && ready(n - 1) && (forall j :: 0 <= j < n - 1 ==> !ready(j))
      && (forall j :: 0 <= j < n ==> run(j) == Ran(outcome.result.executionTimes[j]))
    case Exited(log) =>
      exists k: nat :: && run(k).RunFailed?
                       && (forall j :: 0 <= j < k ==> !ready(j) && run(j).Ran?)
                       && log == "Collector " + name + " failed to run query '" + query + "': " + run(k).error
  }

  /** The foreground loop of `Collect`. `run(k)` is the driver's answer to the loop's
      k-th call; `ready(k)` tells whether the non-blocking poll after that call finds
      the background signal, whose value is `signal`. Only a profiler that finishes is
      modelled: the requires says that some poll finds the signal. Each iteration makes one driver call and appends
      one sample; the loop stops at the first poll that finds the signal and returns
      the samples with the signal's error. A driver error ends the process. */
  method CollectWhileProfiling(name: string, outputFile: string, query: string,
                               run: nat -> RunResult, ready: nat -> bool, signal: Option<string>)
    returns (r: Process<CollectOutcome>)
    requires exists k: nat :: ready(k)
    ensures PollingOutcome(r, name, outputFile, query, run, ready, signal)
  {
    var times: seq<ExecutionTime> := [];
    var resultErr: Option<string> := None;
    ghost var last: nat :| ready(last);
    while true
      invariant |times| <= last
      invariant forall j :: 0 <= j < |times| ==> run(j) == Ran(times[j]) && !ready(j)
      decreases last - |times|
    {
      var answer := run(|times|);
      if answer.RunFailed? {
        return Exited("Collector " + name + " failed to run query '" + query + "': " + answer.error);
      }
      times := times + [answer.time];
      if ready(|times| - 1) {
        resultErr := signal;
        break;
      }
    }
    r := Running(CollectOutcome(CollectorResult(name, [ResultFile(Flamegraph, outputFile)], times), resultErr));
  }

  /** Timing: if the profiler finishes exactly `window` driver-call latencies after the
      loop starts, a poll after call `window + 1` or later certainly finds it done and
      one before call `window` cannot; the loop then makes `window` or `window + 1`
      calls. */
  lemma CallsWithinWindow(ready: nat -> bool, window: nat, n: nat)
    requires forall j: nat :: j >= window ==> ready(j)
    requires forall j: nat :: j + 1 < window ==> !ready(j)
    requires n >= 1 && ready(n - 1) && forall j :: 0 <= j < n - 1 ==> !ready(j)
    ensures window <= n <= window + 1
  {
    assert ready(window);
  }
}
