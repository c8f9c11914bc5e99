/** `internal/config/config.go`: the shapes of the configuration file and of a test
    file. Parsing them from YAML is not part of this model. */
module Config {
  import opened Driver

  /** A driver profile: a name to select it by, the driver it uses and that driver's
      settings. */
  datatype Profile = Profile(name: string, driver: string, settings: Settings)

  /** A collector profile, of the same shape, naming a collector. */
  datatype CollectorProfile = CollectorProfile(name: string, collector: string, settings: Settings)

  datatype RunSettings = RunSettings(queryMeasureRuns: nat)

  datatype Config = Config(profiles: seq<Profile>, collectorProfiles: seq<CollectorProfile>,
                           settings: RunSettings)

  /** A test file: its name, the collectors to run for each query, and the queries. */
  datatype Test = Test(name: string, collectors: seq<string>, queries: seq<string>)

  /** `CreateDefaultConfig`: no profiles, five measure runs per query. */
  function DefaultConfig(): (c: Config)
    ensures c.profiles == [] && c.collectorProfiles == []
    ensures c.settings.queryMeasureRuns == 5
  {
    Config([], [], RunSettings(5))
  }
}
