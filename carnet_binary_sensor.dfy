/**
 * The legacy binary-sensor platform: three read-only views per vehicle over
 * the `VWCarnet` record, one of which reads the door-lock flag inverted.
 */
module CarnetBinarySensor {
  import opened Wrappers
  import opened PyValue
  import opened Carnet

  /** One entry of the `BINARY_SENSORS` table. */
  datatype BinarySensorSpec = BinarySensorSpec(name: string, friendlyName: string, icon: string, deviceClass: string)

  const BinarySensors: seq<BinarySensorSpec> := [
    BinarySensorSpec("external_power_connected", "External power connected", "mdi:power-plug", "power"),
    BinarySensorSpec("door_locked", "Door Locked", "mdi:lock", "door"),
    BinarySensorSpec("parking_lights", "Parking Lights", "mdi:lightbulb", "light")
  ]

  /** `VolkswagenCarnetSensor`: the vehicle key and the table entry it was created for. */
  datatype BinarySensor = BinarySensor(vehicle: Value, spec: BinarySensorSpec)

  /**
   * `setup_platform`: nothing without discovery info, otherwise one sensor per
   * vehicle (in table order) and per entry of `BinarySensors`.
   */
  function SetupPlatform(vehicles: seq<Value>, discovered: bool): (sensors: seq<BinarySensor>)
    ensures !discovered ==> sensors == []
    ensures discovered ==> |sensors| == 3 * |vehicles|
    ensures discovered ==> forall k :: 0 <= k < |sensors| ==>
      sensors[k] == BinarySensor(Pairs(vehicles, BinarySensors)[k].0, Pairs(vehicles, BinarySensors)[k].1)
  {
    if !discovered then []
    else
      var pairs := Pairs(vehicles, BinarySensors);
      seq(|pairs|, k requires 0 <= k < |pairs| => BinarySensor(pairs[k].0, pairs[k].1))
  }

  /** Every vehicle gets each of the three sensors, at position `3 * i + j`. */
  lemma SetupPlatformAt(vehicles: seq<Value>, i: int, j: int)
    requires 0 <= i < |vehicles| && 0 <= j < 3
    ensures 3 * i + j < |SetupPlatform(vehicles, true)|
    ensures SetupPlatform(vehicles, true)[3 * i + j] == BinarySensor(vehicles[i], BinarySensors[j])
  {
    PairsAt(vehicles, BinarySensors, i, j);
  }

  /**
   * `is_on` over the vehicle's record: power and parking lights as stored,
   * the door inverted (the door class reads true as open), anything else `None`.
   */
  function IsOn(r: Record, sensorName: string): (on: Option<bool>)
    ensures sensorName == "external_power_connected" ==> on == Some(r.readings.externalPowerConnected)
    ensures sensorName == "door_locked" ==> on == Some(!r.report.doorLocked)
    ensures sensorName == "parking_lights" ==> on == Some(r.report.parkingLights)
    ensures on.Some? <==> sensorName in {"external_power_connected", "door_locked", "parking_lights"}
  {
    if sensorName == "external_power_connected" then Some(r.readings.externalPowerConnected)
    else if sensorName == "door_locked" then Some(!r.report.doorLocked)
    else if sensorName == "parking_lights" then Some(r.report.parkingLights)
    else None
  }

  /** `device_class`: the table entry's class. */
  function DeviceClass(sensor: BinarySensor): (c: string)
    ensures c == sensor.spec.deviceClass
  {
    sensor.spec.deviceClass
  }

  /**
   * The class of each created sensor follows its table entry: the power
   * sensor is a power sensor, the door sensor a door, the parking lights a light.
   */
  lemma SetupDeviceClasses(vehicles: seq<Value>, i: int, j: int)
    requires 0 <= i < |vehicles| && 0 <= j < 3
    ensures 3 * i + j < |SetupPlatform(vehicles, true)|
    ensures var sensor := SetupPlatform(vehicles, true)[3 * i + j];
      && DeviceClass(sensor) == BinarySensors[j].deviceClass
      && (sensor.spec.name == "external_power_connected" ==> DeviceClass(sensor) == "power")
      && (sensor.spec.name == "door_locked" ==> DeviceClass(sensor) == "door")
      && (sensor.spec.name == "parking_lights" ==> DeviceClass(sensor) == "light")
  {
    SetupPlatformAt(vehicles, i, j);
  }

  /** Every sensor the platform creates reports a state, and its class is power, door or light. */
  lemma SetupSensorsReport(vehicles: seq<Value>, r: Record, k: int)
    requires 0 <= k < |SetupPlatform(vehicles, true)|
    ensures IsOn(r, SetupPlatform(vehicles, true)[k].spec.name).Some?
    ensures DeviceClass(SetupPlatform(vehicles, true)[k]) in {"power", "door", "light"}
  {
    PairsFrom(vehicles, BinarySensors, k);
  }

  /** A freshly enrolled vehicle shows no external power, no parking lights, and its door open. */
  lemma TemplateReadings(entry: map<string, Value>)
    ensures IsOn(Template(entry), "external_power_connected") == Some(false)
    ensures IsOn(Template(entry), "door_locked") == Some(true)
    ensures IsOn(Template(entry), "parking_lights") == Some(false)
  {
  }

  /** After a successful poll the door sensor is on (open) exactly when not every `lockData` value is 2. */
  lemma DoorSensorAfterPoll(r: Record, p: Payloads, now: string, reformat: string -> Option<string>)
    ensures IsOn(Polled(r, Fetched(p), now, reformat), "door_locked")
      == Some(!AllLocked(Lookup(p.car, LockDataPath)))
  {
    StatusRules(r, p, now, reformat);
  }

  /** After a successful poll the power sensor is on exactly when a supply state other than `UNAVAILABLE` is reported. */
  lemma PowerSensorAfterPoll(r: Record, p: Payloads, now: string, reformat: string -> Option<string>)
    ensures IsOn(Polled(r, Fetched(p), now, reformat), "external_power_connected")
      == Some(var supply := Lookup(p.emanager, RbcStatus + ["extPowerSupplyState"]);
              supply.Some? && supply.value != Str("UNAVAILABLE"))
  {
  }
}
