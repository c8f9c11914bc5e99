/** `internal/driver/clickhouse_driver.go`: the settings factory registered under
    `clickhouse`, the connection address, and how `Run` turns one query into a sample. */
module ClickHouse {
  import opened Wrappers
  import opened Text
  import opened Numbers
  import opened Driver

  const DriverName := "clickhouse"
  const DefaultHost := "127.0.0.1"
  const HostSetting := "host"
  const DefaultPort := 9000
  const PortSetting := "port"

  /** The settings passed through to the connection: every key except `host` and
      `port`, each with its own value. */
  function Passthrough(settings: Settings): (r: Settings)
    ensures r.Keys == settings.Keys - {HostSetting, PortSetting}
    ensures forall k :: k in r ==> r[k] == settings[k]
  {
    map k | k in settings && k != HostSetting && k != PortSetting :: settings[k]
  }

  /** The copy loop of the factory: it visits the keys in Go's unspecified map order
      and keeps every key except `host` and `port`; the result does not depend on the
      order. */
  method CopyDriverSettings(settings: Settings) returns (driverSettings: Settings)
    ensures driverSettings == Passthrough(settings)
  {
    driverSettings := map[];
    var names := settings.Keys;
    while names != {}
      invariant names <= settings.Keys
      invariant driverSettings ==
                map k | k in settings.Keys - names && k != HostSetting && k != PortSetting :: settings[k]
      decreases names
    {
      var name :| name in names;
      if name != HostSetting && name != PortSetting {
        driverSettings := driverSettings[name := settings[name]];
      }
      names := names - {name};
    }
  }

  /** The creator registered in `init`: `host` must hold a string and `port` an int
      when present (host is checked first), absent keys take the defaults, and the
      remaining keys go to the connection unchanged. Opening the connection, which
      can fail in the source, is not part of the model. */
  function NewFromSettings(settings: Settings): (r: Result<Driver>)
    ensures HostSetting in settings && !settings[HostSetting].Str? ==>
              r == Err("clickhouse driver profile setting 'host' is not string")
    ensures (HostSetting !in settings || settings[HostSetting].Str?) &&
            PortSetting in settings && !settings[PortSetting].Int? ==>
              r == Err("clickhouse driver profile setting 'port' is not int")
    ensures r.Ok? <==> (HostSetting !in settings || settings[HostSetting].Str?) &&
                       (PortSetting !in settings || settings[PortSetting].Int?)
    ensures r.Ok? ==> r.value.host == (if HostSetting in settings then settings[HostSetting].s else DefaultHost)
    ensures r.Ok? ==> r.value.port == (if PortSetting in settings then settings[PortSetting].i else DefaultPort)
    ensures r.Ok? ==> r.value.settings == Passthrough(settings)
  {
    var host := if HostSetting in settings then settings[HostSetting] else Str(DefaultHost);
    var port := if PortSetting in settings then settings[PortSetting] else Int(DefaultPort);
    if !host.Str? then Err("clickhouse driver profile setting 'host' is not string")
    else if !port.Int? then Err("clickhouse driver profile setting 'port' is not int")
    else Ok(ClickHouseDriver(host.s, port.i, Passthrough(settings)))
  }

  /** `fmt.Sprintf("%s:%d", host, port)`. */
  function Address(host: string, port: int): string {
    host + ":" + IntToString(port)
  }

  /** The address reads back as the host, a colon, and the port's decimal digits. */
  lemma AddressParts(host: string, port: int)
    requires 0 <= port <= MaxUint64
    ensures Address(host, port)[..|host|] == host
    ensures Address(host, port)[|host|] == ':'
    ensures ParseUint64(Address(host, port)[|host| + 1..]) == Some(port)
  {
    var a := Address(host, port);
    assert a[|host| + 1..] == NatToString(port);
    ParseRendered(port);
  }

  /** With no settings at all the driver talks to `127.0.0.1:9000` with nothing
      passed through. */
  lemma DefaultDriver()
    ensures NewFromSettings(map[]) == Ok(ClickHouseDriver(DefaultHost, DefaultPort, map[]))
    ensures Address(DefaultHost, DefaultPort) == "127.0.0.1:9000"
  {
    assert Passthrough(map[]) == map[];
    assert NatToString(9) == "9";
    assert NatToString(90) == "90";
    assert NatToString(900) == "900";
    assert NatToString(9000) == "9000";
  }

  /** What the server and the client library report for one query, in the order `Run`
      observes it: the error of `conn.Query`, the `Elapsed` of each progress packet,
      the final error of the row stream, and the wall time `time.Since` measured. */
  datatype QueryReply = QueryReply(queryErr: Option<string>, progress: seq<int>,
                                   rowsErr: Option<string>, clientDuration: int)

  /** `Run`: the progress callback adds each `Elapsed` to the server duration; either
      error yields the zero sample and a wrapped error. */
  method Run(reply: QueryReply) returns (t: ExecutionTime, err: Option<string>)
    ensures err.None? <==> reply.queryErr.None? && reply.rowsErr.None?
    ensures reply.queryErr.Some? ==>
              err == Some("clickhouse driver query error: " + reply.queryErr.value)
    ensures reply.queryErr.None? && reply.rowsErr.Some? ==>
              err == Some("clickhouse driver rows final error: " + reply.rowsErr.value)
    ensures err.Some? ==> t == ExecutionTime(0, 0)
    ensures err.None? ==> t == ExecutionTime(reply.clientDuration, Sum(reply.progress))
  {
    var serverDuration := 0;
    var i := 0;
    while i < |reply.progress|
      invariant 0 <= i <= |reply.progress|
      invariant serverDuration == Sum(reply.progress[..i])
    {
      assert reply.progress[..i + 1][..i] == reply.progress[..i];
      serverDuration := serverDuration + reply.progress[i];
      i := i + 1;
    }
    assert reply.progress[..i] == reply.progress;
    if reply.queryErr.Some? {
      return ExecutionTime(0, 0), Some("clickhouse driver query error: " + reply.queryErr.value);
    }
    if reply.rowsErr.Some? {
      return ExecutionTime(0, 0), Some("clickhouse driver rows final error: " + reply.rowsErr.value);
    }
    t, err := ExecutionTime(reply.clientDuration, serverDuration), None;
  }

  /** `init`: registers the factory under `clickhouse`. */
  method Init(drivers: DriverRegistry)
    modifies drivers
    ensures drivers.entries == old(drivers.entries)[DriverName := NewFromSettings]
  {
    drivers.Register(DriverName, NewFromSettings);
  }

  /** Once registered, `CreateDriver("clickhouse", settings)` is the factory above. */
  lemma CreateRegistered(drivers: DriverRegistry, settings: Settings)
    requires DriverName in drivers.entries && drivers.entries[DriverName] == NewFromSettings
    ensures CreateDriver(drivers, DriverName, settings) == NewFromSettings(settings)
  {
  }
}
