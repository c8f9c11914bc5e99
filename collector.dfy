/** `internal/collector/collector.go`: what a collector returns, the collector
    variants, and the lookup that turns a registered name into a collector. */
module Collector {
  import Wrappers
  import opened Driver
  import Registries

  datatype FileType = Flamegraph

  datatype ResultFile = ResultFile(fileType: FileType, name: string)

  /** `collector.Result`: the collector's name, the files it declares, and the samples
      taken while it profiled. */
  datatype CollectorResult = CollectorResult(name: string, files: seq<ResultFile>,
                                             executionTimes: seq<ExecutionTime>)

  /** The `(Result, error)` pair that `Collect` returns. */
  datatype CollectOutcome = CollectOutcome(result: CollectorResult, err: Wrappers.Option<string>)

  /** The collectors compiled into the tool, with the profiling budget in seconds. */
  datatype Collector = CpuFlamegraphCollector(buildSeconds: int)
                     | OffCpuFlamegraphCollector(buildSeconds: int)

  type Creator = Settings -> Wrappers.Result<Collector>

  type CollectorRegistry = Registries.Registry<Creator>

  /** `CreateCollector`: an unknown name fails with `collector <name> not found`; a known
      one hands the settings, unchanged, to its creator and returns what it returns. */
  function CreateCollector(collectors: CollectorRegistry, name: string, settings: Settings)
    : (r: Wrappers.Result<Collector>)
    reads collectors
    ensures name !in collectors.entries ==> r == Wrappers.Err("collector " + name + " not found")
    ensures name in collectors.entries ==> r == collectors.entries[name](settings)
  {
    match collectors.Lookup(name)
    case None => Wrappers.Err("collector " + name + " not found")
    case Some(creator) => creator(settings)
  }
}
