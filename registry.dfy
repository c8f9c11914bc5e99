/** The name-to-factory tables of `internal/driver/driver.go` (`Drivers`) and
    `internal/collector/collector.go` (`Collectors`): a map that registration updates in
    place and lookups read. */
module Registries {
  import opened Wrappers

  class Registry<Creator> {
    var entries: map<string, Creator>

    /** The package-level `map[string]Creator{}` before any `init` runs. */
    constructor ()
      ensures entries == map[]
    {
      entries := map[];
    }

    /** `RegisterDriver` / `RegisterCollector`: the entry for `name` becomes `creator`,
        replacing any earlier one; every other entry stays as it was. */
    method Register(name: string, creator: Creator)
      modifies this
      ensures entries == old(entries)[name := creator]
      ensures name in entries && entries[name] == creator
      ensures forall n :: n != name ==> (n in entries <==> n in old(entries))
      ensures forall n :: n != name && n in old(entries) ==> entries[n] == old(entries)[n]
    {
      entries := entries[name := creator];
    }

    /** The `creator, ok := Collectors[name]` lookup. */
    function Lookup(name: string): (r: Option<Creator>)
      reads this
      ensures r.Some? <==> name in entries
      ensures r.Some? ==> r.value == entries[name]
    {
      if name in entries then Some(entries[name]) else None
    }
  }
}
