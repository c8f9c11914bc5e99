/** `internal/driver/driver.go`: the measurement sample, the settings map, the driver
    variants and the lookup that turns a registered name into a driver. */
module Driver {
  import opened Wrappers
  import Registries

  /** One sample: wall time seen by the client and time reported by the server,
      both in nanoseconds (`time.Duration`). */
  datatype ExecutionTime = ExecutionTime(clientDuration: int, serverDuration: int)

  /** What one `Run` call returns. */
  datatype RunResult = Ran(time: ExecutionTime) | RunFailed(error: string)

  /** A value of a `map[string]any` settings map, as decoded from YAML: the
      decoders only distinguish Go `int`, Go `string` and anything else. */
  datatype SettingValue = Int(i: int) | Str(s: string) | Other

  type Settings = map<string, SettingValue>

  /** The drivers compiled into the tool; `clickhouse` is the only one. */
  datatype Driver = ClickHouseDriver(host: string, port: int, settings: Settings)

  type Creator = Settings -> Result<Driver>

  type DriverRegistry = Registries.Registry<Creator>

  /** `CreateDriver` on the entries of a registry. */
  function CreateFrom(entries: map<string, Creator>, name: string, settings: Settings): (r: Result<Driver>)
    ensures name !in entries ==> r == Err("driver " + name + " not found")
    ensures name in entries ==> r == entries[name](settings)
  {
    if name in entries then entries[name](settings) else Err("driver " + name + " not found")
  }

  /** `CreateDriver`: an unknown name fails with `driver <name> not found`; a known one
      hands the settings, unchanged, to its creator and returns what it returns. */
  function CreateDriver(drivers: DriverRegistry, name: string, settings: Settings): (r: Result<Driver>)
    reads drivers
    ensures name !in drivers.entries ==> r == Err("driver " + name + " not found")
    ensures name in drivers.entries ==> r == drivers.entries[name](settings)
  {
    CreateFrom(drivers.entries, name, settings)
  }

  /** After registering `creator` under `name`, creating `name` is exactly a call of
      `creator`, and creating any other name behaves as before. */
  lemma CreateAfterRegister(entries: map<string, Creator>, name: string, creator: Creator,
                            other: string, settings: Settings)
    requires other != name
    ensures CreateFrom(entries[name := creator], name, settings) == creator(settings)
    ensures CreateFrom(entries[name := creator], other, settings) == CreateFrom(entries, other, settings)
  {
  }
}
