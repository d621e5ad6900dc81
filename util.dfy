/**
 * `util.py` of the current integration: the distance-conversion default,
 * the case-insensitive vehicle search and the coordinator lookup behind a
 * device id.
 */
module Util {
  import opened Wrappers
  import opened Text
  import opened PyValue
  import opened FirstMatch
  import opened Host

  const SCANDINAVIAN_MILES: string := "scandinavian_miles"
  const NO_CONVERSION: string := "no_conversion"

  /**
   * `get_convert_conf`: the `scandinavian_miles` flag of the options, else of
   * the data, else `False`, decides between the two conversions.
   */
  function GetConvertConf(options: map<string, Value>, data: map<string, Value>): (c: string)
    ensures c == SCANDINAVIAN_MILES || c == NO_CONVERSION
    ensures c == SCANDINAVIAN_MILES <==>
      (if SCANDINAVIAN_MILES in options then Truthy(options[SCANDINAVIAN_MILES])
       else SCANDINAVIAN_MILES in data && Truthy(data[SCANDINAVIAN_MILES]))
  {
    if Truthy(GetOr(options, SCANDINAVIAN_MILES, GetOr(data, SCANDINAVIAN_MILES, Bool(false))))
    then SCANDINAVIAN_MILES
    else NO_CONVERSION
  }

  /** An option value hides the data value completely. */
  lemma ConvertConfOptionWins(options: map<string, Value>, data: map<string, Value>, data': map<string, Value>)
    requires SCANDINAVIAN_MILES in options
    ensures GetConvertConf(options, data) == GetConvertConf(options, data')
  {
  }

  /** With the flag set nowhere there is no conversion. */
  lemma ConvertConfDefault(options: map<string, Value>, data: map<string, Value>)
    requires SCANDINAVIAN_MILES !in options && SCANDINAVIAN_MILES !in data
    ensures GetConvertConf(options, data) == NO_CONVERSION
  {
  }

  /** The test `vehicle.vin.upper() == coordinator.vin`. */
  function VinMatches(vin: string): Vehicle -> bool {
    (v: Vehicle) => Upper(v.vin) == vin
  }

  /**
   * `get_vehicle`: the first vehicle of the connection whose upper-cased VIN
   * is the coordinator's VIN; the exception when there is none.
   */
  function GetVehicle(vehicles: seq<Vehicle>, vin: string): (r: Result<Vehicle, string>)
    ensures r.Err? <==> forall k :: 0 <= k < |vehicles| ==> Upper(vehicles[k].vin) != vin
    ensures r.Err? ==> r.error == "Vehicle not found"
    ensures r.Ok? ==>
      exists k :: 0 <= k < |vehicles| && vehicles[k] == r.value
        && Upper(r.value.vin) == vin && forall j :: 0 <= j < k ==> Upper(vehicles[j].vin) != vin
  {
    match FirstWhere(vehicles, VinMatches(vin))
    case Some(v) => Ok(v)
    case None => Err("Vehicle not found")
  }

  /** A VIN stored in lower or mixed case is found by its upper-cased form. */
  lemma GetVehicleIgnoresCase(vehicles: seq<Vehicle>, k: int)
    requires 0 <= k < |vehicles|
    requires forall j :: 0 <= j < k ==> Upper(vehicles[j].vin) != Upper(vehicles[k].vin)
    ensures GetVehicle(vehicles, Upper(vehicles[k].vin)) == Ok(vehicles[k])
  {
    var r := GetVehicle(vehicles, Upper(vehicles[k].vin));
    var i :| 0 <= i < |vehicles| && vehicles[i] == r.value && Upper(r.value.vin) == Upper(vehicles[k].vin)
      && forall j :: 0 <= j < i ==> Upper(vehicles[j].vin) != Upper(vehicles[k].vin);
    if i < k {
      assert Upper(vehicles[i].vin) != Upper(vehicles[k].vin);
    } else if k < i {
      assert false;
    }
  }

  /** A device registry entry: the ids of the config entries that handle the device. */
  datatype DeviceEntry = DeviceEntry(configEntries: seq<string>)

  /** What the lookup reads of a config entry: its id, its domain and the `coordinator` value of its data. */
  datatype EntryView<C> = EntryView(entryId: string, domain: string, storedCoordinator: Option<C>)

  /** `ServiceError("Unknown entity")`, or one of the `AttributeError`, `IndexError` and `KeyError` a failed step raises. */
  datatype LookupError = UnknownEntity | LookupFailed

  /**
   * From a config entry on: `ServiceError` for another domain, then the
   * coordinator stored in the entry's data, then the one of
   * `hass.data[DOMAIN][entry_id]["data"]`, then `ServiceError`.
   */
  function CoordinatorOfEntry<C>(entry: EntryView<C>, domainData: map<string, Option<C>>): (r: Result<C, LookupError>)
    ensures entry.domain != DOMAIN ==> r == Err(UnknownEntity)
    ensures entry.domain == DOMAIN && entry.storedCoordinator.Some? ==> r == Ok(entry.storedCoordinator.value)
    ensures r.Ok? ==>
      entry.domain == DOMAIN
      && (entry.storedCoordinator == Some(r.value)
          || (entry.storedCoordinator.None? && entry.entryId in domainData && domainData[entry.entryId] == Some(r.value)))
    ensures (entry.domain == DOMAIN && entry.storedCoordinator.None? && entry.entryId in domainData
             && domainData[entry.entryId].Some?) ==> r == Ok(domainData[entry.entryId].value)
    ensures r == Err(LookupFailed) <==>
      entry.domain == DOMAIN && entry.storedCoordinator.None? && entry.entryId !in domainData
  {
    if entry.domain != DOMAIN then Err(UnknownEntity)
    else if entry.storedCoordinator.Some? then Ok(entry.storedCoordinator.value)
    else if entry.entryId !in domainData then Err(LookupFailed)
    else if domainData[entry.entryId].None? then Err(UnknownEntity)
    else Ok(domainData[entry.entryId].value)
  }

  /**
   * `get_coordinator`: the device's first config entry (a missing device,
   * an empty entry list or an unknown entry id raise), then `CoordinatorOfEntry`.
   */
  function GetCoordinator<C>(device: Option<DeviceEntry>, entries: map<string, EntryView<C>>,
                             domainData: map<string, Option<C>>): (r: Result<C, LookupError>)
    ensures device.None? ==> r == Err(LookupFailed)
    ensures r.Ok? ==>
      device.Some? && device.value.configEntries != []
      && device.value.configEntries[0] in entries
      && CoordinatorOfEntry(entries[device.value.configEntries[0]], domainData) == r
  {
    if device.None? || device.value.configEntries == [] || device.value.configEntries[0] !in entries
    then Err(LookupFailed)
    else CoordinatorOfEntry(entries[device.value.configEntries[0]], domainData)
  }

  /** What a device-registry lookup is given: a device id, or (as written in the options flow) a config entry object. */
  datatype RegistryKey = DeviceId(id: string) | EntryObject(entryId: string)

  /** `registry.async_get(key)`: the registry is keyed by device id, so any other key finds nothing. */
  function LookupDevice(registry: map<string, DeviceEntry>, key: RegistryKey): (d: Option<DeviceEntry>)
    ensures key.EntryObject? ==> d.None?
    ensures key.DeviceId? ==> (d.Some? <==> key.id in registry)
  {
    match key
    case DeviceId(id) => if id in registry then Some(registry[id]) else None
    case EntryObject(_) => None
  }

  /** A device whose first config entry is `entry` leads to the coordinator of that entry. */
  lemma GetCoordinatorOfDevice<C>(registry: map<string, DeviceEntry>, deviceId: string,
                                  entries: map<string, EntryView<C>>, domainData: map<string, Option<C>>)
    requires deviceId in registry && registry[deviceId].configEntries != []
    requires registry[deviceId].configEntries[0] in entries
    ensures GetCoordinator(LookupDevice(registry, DeviceId(deviceId)), entries, domainData)
      == CoordinatorOfEntry(entries[registry[deviceId].configEntries[0]], domainData)
  {
  }
}
