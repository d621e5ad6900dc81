/**
 * `__init__.py` of the current integration: config-entry migration, which
 * instruments are set up, the instrument lookup and vehicle name of
 * `VolkswagenData`, the entity's state-write decision, unique id and
 * availability, the coordinator's login and vehicle update, and unloading.
 */
module Integration {
  import opened Wrappers
  import opened Text
  import opened PyValue
  import opened FirstMatch
  import opened Host
  import opened Util

  const RESOURCES: string := "resources"
  const AVAILABLE_RESOURCES: string := "available_resources"
  const CONVERT: string := "convert"
  const VEHICLE: string := "vehicle"
  const NAME: string := "name"
  const STATE_UNKNOWN: string := "unknown"

  /** The keys of `COMPONENTS`, in declaration order; each maps to itself. */
  const ComponentOrder: seq<string> := ["sensor", "binary_sensor", "lock", "device_tracker", "select", "switch", "number"]
  const Components: map<string, string> := map c | c in ComponentOrder :: c

  // ---------------------------------------------------------------- migration

  /** A config entry's version, data and options after a migration, and whether it ran to the end. */
  datatype Migration = Migration(version: int, data: map<string, Value>, options: map<string, Value>, completed: bool)

  /**
   * `async_migrate_entry`. From version 1: `resources` moves from data to
   * options and `convert` gets a default; `data["resources"]` raises
   * `KeyError` when absent, after the version is already 2. From version 2:
   * `convert` is dropped from the options. Other versions are left alone.
   */
  function Migrate(version: int, data: map<string, Value>, options: map<string, Value>): (m: Migration)
    ensures !m.completed <==> version == 1 && RESOURCES !in data
    ensures m.version == (if version == 1 && RESOURCES !in data then 2
                          else if version == 1 || version == 2 then 3 else version)
  {
    if version == 1 then
      if RESOURCES !in data then Migration(2, data, options, false)
      else
        var convertDefault := GetConvertConf(options, data);
        var options1 := options[RESOURCES := data[RESOURCES]];
        var options2 := options1[CONVERT := GetOr(options1, CONVERT, Str(convertDefault))];
        MigrateFromTwo(data - {RESOURCES}, options2)
    else if version == 2 then MigrateFromTwo(data, options)
    else Migration(version, data, options, true)
  }

  function MigrateFromTwo(data: map<string, Value>, options: map<string, Value>): Migration {
    Migration(3, data, options - {CONVERT}, true)
  }

  /** `async_migrate_entry` on the entry, step by step. */
  method MigrateEntry(entry: ConfigEntry) returns (completed: bool)
    modifies entry
    ensures Migration(entry.version, entry.data, entry.options, completed)
      == Migrate(old(entry.version), old(entry.data), old(entry.options))
  {
    var version := entry.version;
    if version == 1 {
      var convertDefault := GetConvertConf(entry.options, entry.data);
      version := 2;
      entry.version := 2;
      var options := entry.options;
      var data := entry.data;
      if RESOURCES !in data {
        return false;
      }
      options := options[RESOURCES := data[RESOURCES]];
      options := options[CONVERT := GetOr(options, CONVERT, Str(convertDefault))];
      data := data - {RESOURCES};
      entry.data, entry.options := data, options;
    }
    if version == 2 {
      version := 3;
      entry.version := 3;
      var options := entry.options - {CONVERT};
      var data := entry.data;
      entry.data, entry.options := data, options;
    }
    completed := true;
  }

  /**
   * A version-1 entry with resources ends at version 3 with the resources
   * moved into the options, and the `convert` default of the first step gone
   * again: no other key of data or options changes.
   */
  lemma MigrateFromOne(data: map<string, Value>, options: map<string, Value>)
    requires RESOURCES in data
    ensures Migrate(1, data, options)
      == Migration(3, data - {RESOURCES}, (options - {CONVERT})[RESOURCES := data[RESOURCES]], true)
  {
    var m := Migrate(1, data, options);
    assert m.options == (options - {CONVERT})[RESOURCES := data[RESOURCES]];
  }

  /** After a completed migration from version 1 or 2 no `convert` option is left. */
  lemma MigrationDropsConvert(version: int, data: map<string, Value>, options: map<string, Value>)
    requires version == 1 || version == 2
    requires Migrate(version, data, options).completed
    ensures CONVERT !in Migrate(version, data, options).options
    ensures Migrate(version, data, options).version == 3
  {
  }

  /** Migrating a migrated entry again changes nothing. */
  lemma MigrationIdempotent(version: int, data: map<string, Value>, options: map<string, Value>)
    requires Migrate(version, data, options).completed
    ensures var m := Migrate(version, data, options);
      Migrate(m.version, m.data, m.options) == m
  {
  }

  /**
   * A version-1 entry without resources stops at version 2, unchanged; the
   * next attempt goes straight to version 3 and never moves any resources.
   */
  lemma FailedMigrationRetry(data: map<string, Value>, options: map<string, Value>)
    requires RESOURCES !in data
    ensures Migrate(1, data, options) == Migration(2, data, options, false)
    ensures Migrate(2, data, options) == Migration(3, data, options - {CONVERT}, true)
  {
  }

  // ---------------------------------------------------------------- selection at setup

  /** The resource lists are values `in` can search (Python raises `TypeError` otherwise). */
  predicate SelectionOptions(options: map<string, Value>) {
    (RESOURCES in options ==> IsContainer(options[RESOURCES]))
    && (AVAILABLE_RESOURCES in options ==> IsContainer(options[AVAILABLE_RESOURCES]))
  }

  /** `is_enabled`: the attribute is in `options["resources"]`, which defaults to `[attr]`. */
  predicate IsEnabled(options: map<string, Value>, attr: string)
    requires SelectionOptions(options)
  {
    Contains(GetOr(options, RESOURCES, Arr([Str(attr)])), attr)
  }

  /** `is_new`: the attribute is not in `options["available_resources"]`, which defaults to `[attr]`. */
  predicate IsNew(options: map<string, Value>, attr: string)
    requires SelectionOptions(options)
  {
    !Contains(GetOr(options, AVAILABLE_RESOURCES, Arr([Str(attr)])), attr)
  }

  /** The condition under which setup adds an instrument. */
  predicate IsSelected(i: Instrument, options: map<string, Value>, prefDisableNewEntities: bool)
    requires SelectionOptions(options)
  {
    i.component in Components
    && (IsEnabled(options, i.slugAttr) || (IsNew(options, i.slugAttr) && !prefDisableNewEntities))
  }

  /** The instruments setup adds. */
  function Selection(instruments: seq<Instrument>, options: map<string, Value>, prefDisableNewEntities: bool): set<Instrument>
    requires SelectionOptions(options)
  {
    set i | i in instruments && IsSelected(i, options, prefDisableNewEntities)
  }

  /** The platforms of a set of instruments: the `COMPONENTS` image of their components. */
  function PlatformsOf(instruments: set<Instrument>): (platforms: set<string>)
    ensures forall p :: p in platforms ==> p in Components
  {
    set i | i in instruments && i.component in Components :: Components[i.component]
  }

  /** Without either resource list every instrument of a known platform is set up. */
  lemma SelectionWithoutOptions(instruments: seq<Instrument>, options: map<string, Value>, prefDisableNewEntities: bool)
    requires RESOURCES !in options && AVAILABLE_RESOURCES !in options
    ensures Selection(instruments, options, prefDisableNewEntities)
      == set i | i in instruments && i.component in Components
  {
  }

  /**
   * With both lists stored, an instrument of a known platform that neither
   * list mentions is set up exactly when new entities are not disabled.
   */
  lemma UnlistedInstrumentFollowsPreference(i: Instrument, options: map<string, Value>, prefDisableNewEntities: bool)
    requires SelectionOptions(options) && RESOURCES in options && AVAILABLE_RESOURCES in options
    requires i.component in Components
    requires !Contains(options[RESOURCES], i.slugAttr) && !Contains(options[AVAILABLE_RESOURCES], i.slugAttr)
    ensures IsSelected(i, options, prefDisableNewEntities) <==> !prefDisableNewEntities
  {
  }

  // ---------------------------------------------------------------- VolkswagenData

  /** `config.get(DOMAIN, config).get("name", "")`. */
  function NamesOf(config: map<string, Value>): Value
    requires DOMAIN in config ==> config[DOMAIN].Obj?
  {
    GetOr(if DOMAIN in config then config[DOMAIN].fields else config, NAME, Str(""))
  }

  /** `vehicle.vin == vin and instrument.component == component and instrument.attr == attr`. */
  predicate IsInstrument(i: Instrument, vin: string, component: string, attr: string) {
    i.vin == vin && i.component == component && i.attr == attr
  }

  function Matching(vin: string, component: string, attr: string): Instrument -> bool {
    (i: Instrument) => IsInstrument(i, vin, component, attr)
  }

  function NotFound(component: string, attr: string): string {
    "Instrument not found; component: " + component + ", attribute: " + attr
  }

  /** `VolkswagenData`: the instruments set up for the entry, the configured name and the coordinator. */
  class VolkswagenData {
    var instruments: set<Instrument>
    const names: Value
    const coordinator: Coordinator?

    constructor (config: map<string, Value>, coordinator: Coordinator?)
      requires DOMAIN in config ==> config[DOMAIN].Obj?
      ensures instruments == {} && names == NamesOf(config) && this.coordinator == coordinator
    {
      instruments := {};
      names := NamesOf(config);
      this.coordinator := coordinator;
    }

    /**
     * `instrument`: with a coordinator, the first matching instrument of its
     * data; without one, some matching instrument of the set; `ValueError`
     * when nothing matches.
     */
    method InstrumentOf(vin: string, component: string, attr: string) returns (r: Result<Instrument, string>)
      ensures r.Err? ==> r.error == NotFound(component, attr)
      ensures coordinator != null ==>
        (r.Ok? <==> exists k :: 0 <= k < |coordinator.data| && IsInstrument(coordinator.data[k], vin, component, attr))
      ensures coordinator != null && r.Ok? ==>
        exists k :: 0 <= k < |coordinator.data| && coordinator.data[k] == r.value
          && IsFirst(coordinator.data, Matching(vin, component, attr), k)
      ensures coordinator == null ==>
        (r.Ok? <==> exists i :: i in instruments && IsInstrument(i, vin, component, attr))
      ensures coordinator == null && r.Ok? ==> r.value in instruments && IsInstrument(r.value, vin, component, attr)
    {
      var found: Option<Instrument>;
      if coordinator != null {
        found := FirstWhere(coordinator.data, Matching(vin, component, attr));
      } else if exists i :: i in instruments && IsInstrument(i, vin, component, attr) {
        var i :| i in instruments && IsInstrument(i, vin, component, attr);
        found := Some(i);
      } else {
        found := None;
      }
      r := if found.Some? then Ok(found.value) else Err(NotFound(component, attr));
    }
  }

  /**
   * `vehicle_name`: the configured name whenever it is a string, even an
   * empty one; otherwise the VIN (an empty VIN gives `""` either way).
   */
  function VehicleName(names: Value, vehicle: Vehicle): (n: string)
    ensures names.Str? ==> n == names.s
    ensures !names.Str? ==> n == vehicle.vin
  {
    if names.Str? then names.s
    else if vehicle.vin != "" then vehicle.vin
    else ""
  }

  /** An entry whose data names no vehicle gives every vehicle the empty name, not its VIN. */
  lemma UnnamedEntryGivesEmptyName(config: map<string, Value>, vehicle: Vehicle)
    requires DOMAIN !in config && NAME !in config
    ensures VehicleName(NamesOf(config), vehicle) == ""
  {
  }

  /** `setup`'s selection loop: adds the selected instruments to `data` and collects their platforms. */
  method SetupInstruments(data: VolkswagenData, instruments: seq<Instrument>, entry: ConfigEntry)
    returns (components: set<string>)
    requires SelectionOptions(entry.options)
    modifies data
    ensures data.instruments
      == old(data.instruments) + Selection(instruments, entry.options, entry.prefDisableNewEntities)
    ensures components == PlatformsOf(Selection(instruments, entry.options, entry.prefDisableNewEntities))
  {
    var options := entry.options;
    var pref := entry.prefDisableNewEntities;
    components := {};
    var k := 0;
    while k < |instruments|
      invariant 0 <= k <= |instruments|
      invariant data.instruments == old(data.instruments) + Selection(instruments[..k], options, pref)
      invariant components == PlatformsOf(Selection(instruments[..k], options, pref))
    {
      var i := instruments[k];
      if i.component in Components && (IsEnabled(options, i.slugAttr) || (IsNew(options, i.slugAttr) && !pref)) {
        data.instruments := data.instruments + {i};
        components := components + {Components[i.component]};
      }
      assert instruments[..k + 1] == instruments[..k] + [i];
      k := k + 1;
    }
    assert instruments[..k] == instruments;
  }

  // ---------------------------------------------------------------- entity

  /** The stored state of an entity: its state string and its attributes. */
  datatype PrevState = PrevState(state: string, attributes: map<string, Value>)

  /** The stored `last_updated` attribute, `None` when absent. */
  function StoredRefresh(prev: PrevState): Value {
    Get(prev.attributes, "last_updated")
  }

  /** The attributes and states compared are scalars, whose `str` the model renders. */
  predicate Comparable(prev: Option<PrevState>, lastRefresh: Value, state: Value) {
    IsScalar(lastRefresh) && IsScalar(state) && (prev.Some? ==> IsScalar(StoredRefresh(prev.value)))
  }

  /**
   * `async_write_ha_state`'s decision, as written: write when there is no
   * previous state, when the stored refresh time reads differently, or when
   * `str(state or "unknown")` differs from the stored state.
   */
  function ShouldWrite(prev: Option<PrevState>, lastRefresh: Value, state: Value): (write: bool)
    requires Comparable(prev, lastRefresh, state)
    ensures prev.None? ==> write
    ensures !write ==>
      PyStr(StoredRefresh(prev.value)) == PyStr(lastRefresh)
      && prev.value.state == (if Truthy(state) then PyStr(state) else STATE_UNKNOWN)
    ensures (prev.Some? && PyStr(StoredRefresh(prev.value)) == PyStr(lastRefresh)
             && prev.value.state == (if Truthy(state) then PyStr(state) else STATE_UNKNOWN)) ==> !write
  {
    prev.None?
    || PyStr(StoredRefresh(prev.value)) != PyStr(lastRefresh)
    || PyStr(if Truthy(state) then state else Str(STATE_UNKNOWN)) != prev.value.state
  }

  /** The string Home Assistant stores for a state: `unknown` for `None`, otherwise `str(state)`. */
  function StoredForm(state: Value): string
    requires IsScalar(state)
  {
    if state.Null? then STATE_UNKNOWN else PyStr(state)
  }

  /** The decision the comment describes: write when there is no previous state, or when the refresh time or the stored state string changed. */
  function ShouldWriteIntended(prev: Option<PrevState>, lastRefresh: Value, state: Value): (write: bool)
    requires Comparable(prev, lastRefresh, state)
    ensures write <==>
      prev.None? || PyStr(StoredRefresh(prev.value)) != PyStr(lastRefresh) || StoredForm(state) != prev.value.state
  {
    prev.None? || PyStr(StoredRefresh(prev.value)) != PyStr(lastRefresh) || StoredForm(state) != prev.value.state
  }

  /**
   * A zero reading that Home Assistant stored as "0" under the same refresh
   * time is written again as written, because `0 or "unknown"` is "unknown";
   * the intended decision skips it.
   */
  lemma ZeroStateRewritten(refresh: string)
    ensures var prev := Some(PrevState("0", map["last_updated" := Str(refresh)]));
      ShouldWrite(prev, Str(refresh), Int(0)) && !ShouldWriteIntended(prev, Str(refresh), Int(0))
  {
    assert IntToString(0) == "0";
  }

  /** The state Home Assistant keeps after writing `state` with the refresh time `lastRefresh`. */
  function Written(state: Value, lastRefresh: Value, attributes: map<string, Value>): PrevState
    requires IsScalar(state)
  {
    PrevState(StoredForm(state), attributes["last_updated" := lastRefresh])
  }

  /**
   * The intended decision never repeats a write: once a state has been
   * stored with its refresh time, the same state under the same refresh time
   * is skipped, and any other state is written.
   */
  lemma IntendedSkipsStoredState(stored: Value, state: Value, lastRefresh: Value, attributes: map<string, Value>)
    requires IsScalar(stored) && IsScalar(state) && IsScalar(lastRefresh)
    ensures var prev := Some(Written(stored, lastRefresh, attributes));
      !ShouldWriteIntended(prev, lastRefresh, state) <==> StoredForm(state) == StoredForm(stored)
  {
  }

  /**
   * As written, a falsy state other than `None` (`0`, `False`, `""`) is
   * written on every update, even when exactly that state is stored under
   * the same refresh time.
   */
  lemma FalsyStateAlwaysRewritten(state: Value, lastRefresh: Value, attributes: map<string, Value>)
    requires IsScalar(state) && IsScalar(lastRefresh) && !Truthy(state) && !state.Null?
    ensures ShouldWrite(Some(Written(state, lastRefresh, attributes)), lastRefresh, state)
  {
    assert IntToString(0) == "0";
  }

  /** The two decisions agree on every truthy or `None` state. */
  lemma WriteDecisionsAgree(prev: Option<PrevState>, lastRefresh: Value, state: Value)
    requires Comparable(prev, lastRefresh, state)
    requires Truthy(state) || state.Null?
    ensures ShouldWrite(prev, lastRefresh, state) == ShouldWriteIntended(prev, lastRefresh, state)
  {
  }

  /** `unique_id`: `"{vin}-{component}-{attribute}"`. */
  function UniqueId(vin: string, component: string, attribute: string): (id: string)
    ensures |id| == |vin| + |component| + |attribute| + 2
  {
    vin + "-" + component + "-" + attribute
  }

  /** Text before a first `-` is recovered from `a + "-" + x`. */
  lemma {:induction false} SplitAtDash(a: string, x: string, b: string, y: string)
    requires '-' !in a && '-' !in b
    requires a + "-" + x == b + "-" + y
    ensures a == b && x == y
  {
    var s := a + "-" + x;
    assert s[|a|] == '-' && forall i :: 0 <= i < |a| ==> s[i] == a[i];
    assert s[|b|] == '-' && forall i :: 0 <= i < |b| ==> s[i] == b[i];
    assert |a| == |b|;
    assert a == s[..|a|] == b;
    assert x == s[|a| + 1..] == y;
  }

  /** Distinct (vin, component, attribute) triples get distinct ids when VINs and components contain no `-`. */
  lemma UniqueIdInjective(vin: string, component: string, attribute: string,
                          vin': string, component': string, attribute': string)
    requires '-' !in vin && '-' !in vin' && '-' !in component && '-' !in component'
    requires UniqueId(vin, component, attribute) == UniqueId(vin', component', attribute')
    ensures vin == vin' && component == component' && attribute == attribute'
  {
    assert UniqueId(vin, component, attribute) == vin + "-" + (component + "-" + attribute);
    assert UniqueId(vin', component', attribute') == vin' + "-" + (component' + "-" + attribute');
    SplitAtDash(vin, component + "-" + attribute, vin', component' + "-" + attribute');
    SplitAtDash(component, attribute, component', attribute');
  }

  /** `available`: the coordinator's last update succeeded; always available without a coordinator. */
  function Available(coordinator: Coordinator?): (available: bool)
    reads coordinator
    ensures !available <==> coordinator != null && !coordinator.lastUpdateSuccess
  {
    if coordinator != null then coordinator.lastUpdateSuccess else true
  }

  // ---------------------------------------------------------------- coordinator

  /** `VolkswagenCoordinator`: the VIN it serves, the connection's state and the last instruments fetched. */
  class Coordinator {
    const vin: string
    var loggedIn: bool
    var vehicles: seq<Vehicle>
    var data: seq<Instrument>
    var lastUpdateSuccess: bool
    var platforms: seq<string>

    /** The VIN is the entry's `vehicle`, upper-cased. */
    constructor (entryData: map<string, Value>)
      requires VEHICLE in entryData && entryData[VEHICLE].Str?
      ensures vin == Upper(entryData[VEHICLE].s)
      ensures !loggedIn && vehicles == [] && data == [] && lastUpdateSuccess && platforms == []
    {
      vin := Upper(entryData[VEHICLE].s);
      loggedIn := false;
      vehicles := [];
      data := [];
      lastUpdateSuccess := true;
      platforms := [];
    }

    /** `async_login`: log in unless already logged in; `loginSucceeds` is the portal's answer. */
    method Login(loginSucceeds: bool) returns (ok: bool)
      modifies this`loggedIn
      ensures loggedIn == (old(loggedIn) || loginSucceeds)
      ensures ok == loggedIn
    {
      if !loggedIn {
        loggedIn := loginSucceeds;
        if !loggedIn {
          return false;
        }
      }
      return true;
    }

    /**
     * `update`: nothing when the connection's update fails (`updated`),
     * otherwise the vehicle `get_vehicle` finds.
     */
    method Update(updated: bool) returns (v: Option<Vehicle>)
      ensures !updated ==> v.None?
      ensures updated ==> (v.Some? <==> GetVehicle(vehicles, vin).Ok?)
      ensures v.Some? ==> GetVehicle(vehicles, vin) == Ok(v.value)
    {
      if !updated {
        return None;
      }
      var k := 0;
      while k < |vehicles|
        invariant 0 <= k <= |vehicles|
        invariant forall j :: 0 <= j < k ==> Upper(vehicles[j].vin) != vin
      {
        if Upper(vehicles[k].vin) == vin {
          GetVehicleIgnoresCase(vehicles, k);
          return Some(vehicles[k]);
        }
        k := k + 1;
      }
      return None;
    }
  }

  // ---------------------------------------------------------------- unloading

  /** Every platform of `COMPONENTS` that was set up unloads. */
  predicate AllUnloaded(platforms: seq<string>, unloadOk: string -> bool) {
    forall p :: p in Components && p in platforms ==> unloadOk(p)
  }

  /**
   * `async_unload_coordinator`: the entry's slot in `hass.data[DOMAIN]` is
   * removed exactly when every platform unloaded; other slots are untouched.
   */
  function UnloadCoordinator<T>(domainData: map<string, T>, entryId: string, platforms: seq<string>,
                                unloadOk: string -> bool): (r: (bool, map<string, T>))
    requires entryId in domainData
    ensures r.0 <==> AllUnloaded(platforms, unloadOk)
    ensures entryId in r.1 <==> !r.0
    ensures forall k :: k != entryId ==> (k in r.1 <==> k in domainData)
    ensures forall k :: k in r.1 ==> r.1[k] == domainData[k]
  {
    var unloaded := AllUnloaded(platforms, unloadOk);
    (unloaded, if unloaded then domainData - {entryId} else domainData)
  }

  /** After setup the platform list holds only `COMPONENTS` keys, so unloading succeeds iff each of them unloads. */
  lemma UnloadAfterSetup(selected: set<Instrument>, platforms: seq<string>, unloadOk: string -> bool)
    requires forall p :: p in platforms <==> p in PlatformsOf(selected)
    ensures AllUnloaded(platforms, unloadOk) <==> forall p :: p in platforms ==> unloadOk(p)
  {
  }
}
