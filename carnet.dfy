/**
 * The legacy `volkswagen_carnet` component: the table `VWCarnet.vehicles`
 * from VIN to vehicle record, how records are created, enriched and updated
 * from the portal's status payloads, the switch states stored in them, and
 * the sensor entities' reading of a record.
 */
module Carnet {
  import opened Wrappers
  import opened Text
  import opened PyValue

  /** The identity and model fields, filled from the enrollment and vehicle lists. */
  datatype Info = Info(
    vin: Value, pin: Value, name: Value,
    modelYear: Value, modelCode: Value, modelImageUrl: Value,
    dashboardUrl: Value, profileId: Value)

  /** The three switch states `state_charge`, `state_climat` and `state_melt`. */
  datatype States = States(charge: bool, climat: bool, melt: bool)

  /** The sensor fields read from the e-manager payload. */
  datatype Readings = Readings(
    externalPowerConnected: bool,
    batteryLeft: Value,
    chargeMaxAmpere: Value,
    chargingTimeLeft: Value,
    climatTargetTemperature: Value,
    climatWithoutHwPower: bool,
    climatTimeLeft: Value,
    electricRangeLeft: Value)

  /** The fields read from the location, details and status-report payloads, and the poll time. */
  datatype Report = Report(
    lastUpdated: Value,
    latitude: Value,
    longitude: Value,
    nextServiceInspection: Value,
    distance: Value,
    lastConnected: Value,
    doorLocked: bool,
    parkingLights: bool)

  /**
   * One row of `VWCarnet.vehicles`, its keys grouped by the payload that
   * fills them. Fields that the source only ever sets to booleans are
   * `bool`; the others hold whatever the payload carried, or `False`
   * (`Bool(false)`) where the source stores that.
   */
  datatype Record = Record(initialized: bool, info: Info, states: States, readings: Readings, report: Report)

  /** The stored charging time is `False` or a whole number of minutes in seconds. */
  predicate WellFormed(r: Record) {
    var t := r.readings.chargingTimeLeft;
    t == Bool(false) || (t.Int? && t.i % 60 == 0)
  }

  /** Every field other than the VIN, PIN, name and `initialized` holds `False`. */
  predicate Blank(r: Record) {
    var f := Bool(false);
    && r.info == Info(r.info.vin, r.info.pin, r.info.name, f, f, f, f, f)
    && r.states == States(false, false, false)
    && r.readings == Readings(false, f, f, f, f, false, f, f)
    && r.report == Report(f, f, f, f, f, f, false, false)
  }

  /** `_vehicle_template`: the row created for one entry of the enrollment list. */
  function Template(entry: map<string, Value>): (r: Record)
    ensures r.info.vin == Get(entry, "vin") && r.info.pin == Get(entry, "enrollmentPin")
    ensures r.info.name == Get(entry, "vehicleName")
    ensures !r.initialized && Blank(r) && WellFormed(r)
  {
    var f := Bool(false);
    Record(
      initialized := false,
      info := Info(Get(entry, "vin"), Get(entry, "enrollmentPin"), Get(entry, "vehicleName"), f, f, f, f, f),
      states := States(false, false, false),
      readings := Readings(false, f, f, f, f, false, f, f),
      report := Report(f, f, f, f, f, f, false, false))
  }

  // ---------------------------------------------------------------------
  // Switch states
  // ---------------------------------------------------------------------

  /** The switch names `_set_state` and `_switch_get_state` recognise. */
  predicate IsSwitch(switch: string) {
    switch == "climat" || switch == "charge" || switch == "melt"
  }

  /** `_switch_get_state` on one record: `None` for a name it does not recognise. */
  function StateOf(r: Record, switch: string): (b: Option<bool>)
    ensures b.Some? <==> IsSwitch(switch)
  {
    if switch == "climat" then Some(r.states.climat)
    else if switch == "charge" then Some(r.states.charge)
    else if switch == "melt" then Some(r.states.melt)
    else None
  }

  /** `_set_state` on one record. */
  function WithState(r: Record, switch: string, state: bool): (r': Record)
    ensures IsSwitch(switch) ==> StateOf(r', switch) == Some(state)
    ensures forall s :: s != switch ==> StateOf(r', s) == StateOf(r, s)
    ensures r'.(states := r.states) == r
  {
    if switch == "climat" then r.(states := r.states.(climat := state))
    else if switch == "charge" then r.(states := r.states.(charge := state))
    else if switch == "melt" then r.(states := r.states.(melt := state))
    else r
  }

  // ---------------------------------------------------------------------
  // Field mapping of `_carnet_update_vehicle_status`
  // ---------------------------------------------------------------------

  /** The four documents fetched for one vehicle: e-manager, location, details and status report. */
  datatype Payloads = Payloads(emanager: Value, location: Value, details: Value, car: Value)

  /** How fetching one vehicle's status went. */
  datatype Fetch =
    | RequestFailed        // the status request itself raised an HTTP error
    | DataFailed           // a later request (polling or one of the four documents) raised
    | Fetched(payloads: Payloads)

  const RbcStatus: seq<string> := ["EManager", "rbc", "status"]
  const RbcSettings: seq<string> := ["EManager", "rbc", "settings"]
  const RpcStatus: seq<string> := ["EManager", "rpc", "status"]
  const RpcSettings: seq<string> := ["EManager", "rpc", "settings"]
  const LockDataPath: seq<string> := ["vehicleStatusData", "lockData"]

  /** `int(x)` when it succeeds, else `False`. */
  function IntOrFalse(x: Option<Value>): Value {
    if x.Some? && ToInt(x.value).Some? then Int(ToInt(x.value).value) else Bool(false)
  }

  /** `int(x)` when it succeeds, else the previous value. */
  function IntOrKeep(x: Option<Value>, previous: Value): Value {
    if x.Some? && ToInt(x.value).Some? then Int(ToInt(x.value).value) else previous
  }

  /** The field read if present, else the previous value. */
  function ValueOrKeep(x: Option<Value>, previous: Value): Value {
    if x.Some? then x.value else previous
  }

  /** Latitude is stored before longitude is read, so a missing longitude keeps only the old longitude. */
  function WithLocation(x: Report, location: Value): Report {
    var lat := Lookup(location, ["position", "lat"]);
    var lng := Lookup(location, ["position", "lng"]);
    if lat.None? then x
    else if lng.None? then x.(latitude := lat.value)
    else x.(latitude := lat.value, longitude := lng.value)
  }

  function ExternalPowerConnected(emanager: Value): bool {
    var supply := Lookup(emanager, RbcStatus + ["extPowerSupplyState"]);
    supply.Some? && supply.value != Str("UNAVAILABLE")
  }

  /** The remaining charging time in seconds as the portal reports it, when both parts convert. */
  function ChargingSeconds(emanager: Value): (seconds: Option<int>)
    ensures var hours := Lookup(emanager, RbcStatus + ["chargingRemaningHour"]);
      var minutes := Lookup(emanager, RbcStatus + ["chargingRemaningMinute"]);
      && (seconds.Some? <==> hours.Some? && ToInt(hours.value).Some? && minutes.Some? && ToInt(minutes.value).Some?)
      && (seconds.Some? ==> seconds.value == ToInt(hours.value).value * 3600 + ToInt(minutes.value).value * 60)
    ensures seconds.Some? ==> seconds.value % 60 == 0
  {
    var hours := Lookup(emanager, RbcStatus + ["chargingRemaningHour"]);
    var minutes := Lookup(emanager, RbcStatus + ["chargingRemaningMinute"]);
    if hours.Some? && ToInt(hours.value).Some? && minutes.Some? && ToInt(minutes.value).Some? then
      SecondsAreWholeMinutes(ToInt(hours.value).value, ToInt(minutes.value).value);
      Some(ToInt(hours.value).value * 60 * 60 + ToInt(minutes.value).value * 60)
    else None
  }

  /** What is stored as the charging time: the seconds only while the vehicle is recorded as charging. */
  function ChargingTimeLeft(emanager: Value, charging: bool): Value {
    var seconds := ChargingSeconds(emanager);
    if seconds.Some? && charging then Int(seconds.value) else Bool(false)
  }

  /** `.replace('.', '')`. */
  function WithoutDots(s: string): (r: string)
    ensures '.' !in r
    ensures '.' !in s ==> r == s
    ensures multiset(r) == multiset(s)['.' := 0]
  {
    if s == [] then []
    else
      assert s == [s[0]] + s[1..];
      if s[0] == '.' then WithoutDots(s[1..])
      else [s[0]] + WithoutDots(s[1..])
  }

  /** Removing dots works piece by piece: the characters that remain keep their order. */
  lemma {:induction false} WithoutDotsAppend(x: string, y: string)
    ensures WithoutDots(x + y) == WithoutDots(x) + WithoutDots(y)
  {
    if x != [] {
      assert (x + y)[0] == x[0] && (x + y)[1..] == x[1..] + y;
      WithoutDotsAppend(x[1..], y);
    } else {
      assert x + y == y;
    }
  }

  /** Where the thousands separators sit does not matter: a dot between two parts reads as the parts joined. */
  lemma DotIgnored(x: string, y: string)
    ensures WithoutDots(x + "." + y) == WithoutDots(x + y)
  {
    WithoutDotsAppend(x + ".", y);
    WithoutDotsAppend(x, ".");
    WithoutDotsAppend(x, y);
  }

  /** The distance covered, a string with dots as thousands separators. */
  function Distance(details: Value, previous: Value): Value {
    var covered := Lookup(details, ["vehicleDetails", "distanceCovered"]);
    if covered.Some? && covered.value.Str? && ParseInt(WithoutDots(covered.value.s)).Some? then
      Int(ParseInt(WithoutDots(covered.value.s)).value)
    else previous
  }

  /** The details payload carrying only a distance string. */
  function DistanceDetails(covered: string): Value {
    Obj(map["vehicleDetails" := Obj(map["distanceCovered" := Str(covered)])])
  }

  /** A distance whose digits, dots removed, spell `n` is stored as the number `n`. */
  lemma DistanceReadsDottedNumber(covered: string, n: int, previous: Value)
    requires WithoutDots(covered) == IntToString(n)
    ensures Distance(DistanceDetails(covered), previous) == Int(n)
  {
    var inner := Obj(map["distanceCovered" := Str(covered)]);
    assert Lookup(inner, ["distanceCovered"]) == Some(Str(covered)) by {
      assert ["distanceCovered"][1..] == [];
    }
    assert Lookup(DistanceDetails(covered), ["vehicleDetails", "distanceCovered"]) == Some(Str(covered)) by {
      assert ["vehicleDetails", "distanceCovered"][1..] == ["distanceCovered"];
    }
    ParseIntRoundTrip(n);
  }

  /**
   * The last connection time: the two parts of the timestamp joined by a space
   * and re-formatted by `reformat` (the date library), else the previous value.
   */
  function LastConnected(details: Value, reformat: string -> Option<string>, previous: Value): Value {
    var stamp := Lookup(details, ["vehicleDetails", "lastConnectionTimeStamp"]);
    if stamp.None? then previous
    else
      var date := At(stamp.value, 0);
      var time := At(stamp.value, 1);
      if date.Some? && date.value.Str? && time.Some? && time.value.Str? then
        var formatted := reformat(date.value.s + " " + time.value.s);
        if formatted.Some? then Str(formatted.value) else previous
      else previous
  }

  /** `lock_data[key]` for a key taken from the list itself: an int (or bool) index, negative from the end. */
  function ListSubscript(a: seq<Value>, key: Value): Option<Value> {
    var index :=
      match key
      case Int(i) => Some(i)
      case Bool(b) => Some(if b then 1 else 0)
      case _ => None;
    if index.Some? && -|a| <= index.value < |a| then
      Some(a[if index.value < 0 then index.value + |a| else index.value])
    else None
  }

  /**
   * The door is locked when every value in `lockData` is 2 (vacuously so when
   * it is empty); a missing or non-iterable `lockData`, or a subscript that
   * raises while iterating, reports it unlocked.
   */
  predicate AllLocked(lockData: Option<Value>) {
    match lockData
    case None => false
    case Some(Obj(m)) => forall k :: k in m ==> m[k] == Int(2)
    case Some(Arr(a)) => forall j :: 0 <= j < |a| ==> ListSubscript(a, a[j]) == Some(Int(2))
    case Some(Str(s)) => s == ""
    case Some(_) => false
  }

  /** The door-lock loop: `vehicle_locked` starts true and is cleared by any value other than 2. */
  method DoorLocked(lockData: Option<Value>) returns (locked: bool)
    ensures locked == AllLocked(lockData)
  {
    if lockData.None? {
      return false;
    }
    match lockData.value {
      case Obj(m) =>
        locked := true;
        var todo := m.Keys;
        while todo != {}
          invariant todo <= m.Keys
          invariant locked <==> forall k :: k in m.Keys - todo ==> m[k] == Int(2)
          decreases todo
        {
          var k :| k in todo;
          if m[k] != Int(2) {
            locked := false;
          }
          todo := todo - {k};
        }
      case Arr(a) =>
        locked := true;
        var i := 0;
        while i < |a|
          invariant 0 <= i <= |a|
          invariant locked <==> forall j :: 0 <= j < i ==> ListSubscript(a, a[j]) == Some(Int(2))
        {
          var value := ListSubscript(a, a[i]);
          if value.None? {
            // the subscript raised: the handler reports the door unlocked
            return false;
          }
          if value.value != Int(2) {
            locked := false;
          }
          i := i + 1;
        }
      case Str(s) =>
        // iterating a string yields characters, and subscripting a string by one raises
        locked := s == "";
      case _ =>
        locked := false;
    }
  }

  function ParkingLights(car: Value): bool {
    var lights := Lookup(car, ["vehicleStatusData", "carRenderData", "parkingLights"]);
    lights.Some? && lights.value != Int(2)
  }

  /** A state flag from a status string: off exactly for `'OFF'`; a missing status leaves the flag as it was. */
  function FlagFromStatus(status: Option<Value>, previous: bool): bool {
    if status.Some? then status.value != Str("OFF") else previous
  }

  /** The e-manager readings after a poll; `charging` is the charge state recorded before it. */
  function ReadingsFrom(x: Readings, e: Value, charging: bool): Readings {
    var without := Lookup(e, RpcSettings + ["climatisationWithoutHVPower"]);
    Readings(
      externalPowerConnected := ExternalPowerConnected(e),
      batteryLeft := IntOrFalse(Lookup(e, RbcStatus + ["batteryPercentage"])),
      chargeMaxAmpere := IntOrKeep(Lookup(e, RbcSettings + ["chargerMaxCurrent"]), x.chargeMaxAmpere),
      chargingTimeLeft := ChargingTimeLeft(e, charging),
      climatTargetTemperature := IntOrKeep(Lookup(e, RpcSettings + ["targetTemperature"]), x.climatTargetTemperature),
      climatWithoutHwPower := if without.Some? then Truthy(without.value) else x.climatWithoutHwPower,
      climatTimeLeft := IntOrFalse(Lookup(e, RpcStatus + ["climatisationRemaningTime"])),
      electricRangeLeft := IntOrFalse(Lookup(e, RbcStatus + ["electricRange"])))
  }

  /** The poll time, location, details and status-report fields after a poll. */
  function ReportFrom(x: Report, p: Payloads, now: string, reformat: string -> Option<string>): Report {
    var located := WithLocation(x, p.location);
    located.(
      lastUpdated := Str(now),
      nextServiceInspection :=
        ValueOrKeep(Lookup(p.details, ["vehicleDetails", "serviceInspectionData"]), x.nextServiceInspection),
      distance := Distance(p.details, x.distance),
      lastConnected := LastConnected(p.details, reformat, x.lastConnected),
      doorLocked := AllLocked(Lookup(p.car, LockDataPath)),
      parkingLights := ParkingLights(p.car))
  }

  /** The switch states after a poll, from the climatisation, rear-window heating and charging status strings. */
  function StatesFrom(x: States, e: Value): States {
    States(
      charge := FlagFromStatus(Lookup(e, RbcStatus + ["chargingState"]), x.charge),
      climat := FlagFromStatus(Lookup(e, RpcStatus + ["climatisationState"]), x.climat),
      melt := FlagFromStatus(Lookup(e, RpcStatus + ["windowHeatingStateRear"]), x.melt))
  }

  /** The record after one successful status fetch. */
  function StatusApplied(r: Record, p: Payloads, now: string, reformat: string -> Option<string>): Record {
    r.(report := ReportFrom(r.report, p, now, reformat),
       readings := ReadingsFrom(r.readings, p.emanager, r.states.charge),
       states := StatesFrom(r.states, p.emanager))
  }

  /** The poll time, location, details and status-report fields, read in the source's order. */
  method ReadReport(x: Report, p: Payloads, now: string, reformat: string -> Option<string>) returns (report: Report)
    ensures report == ReportFrom(x, p, now, reformat)
  {
    report := x.(lastUpdated := Str(now));
    var lat := Lookup(p.location, ["position", "lat"]);
    if lat.Some? {
      report := report.(latitude := lat.value);
      var lng := Lookup(p.location, ["position", "lng"]);
      if lng.Some? {
        report := report.(longitude := lng.value);
      }
    }
    report := report.(nextServiceInspection :=
      ValueOrKeep(Lookup(p.details, ["vehicleDetails", "serviceInspectionData"]), report.nextServiceInspection));
    report := report.(distance := Distance(p.details, report.distance));
    report := report.(lastConnected := LastConnected(p.details, reformat, report.lastConnected));
    var locked := DoorLocked(Lookup(p.car, LockDataPath));
    report := report.(doorLocked := locked);
    report := report.(parkingLights := ParkingLights(p.car));
  }

  /** The e-manager readings, read in the source's order; `charging` is the recorded charge state. */
  method ReadEManager(x: Readings, e: Value, charging: bool) returns (readings: Readings)
    ensures readings == ReadingsFrom(x, e, charging)
  {
    readings := x.(externalPowerConnected := ExternalPowerConnected(e));
    readings := readings.(batteryLeft := IntOrFalse(Lookup(e, RbcStatus + ["batteryPercentage"])));
    readings := readings.(chargeMaxAmpere :=
      IntOrKeep(Lookup(e, RbcSettings + ["chargerMaxCurrent"]), readings.chargeMaxAmpere));
    readings := readings.(climatTargetTemperature :=
      IntOrKeep(Lookup(e, RpcSettings + ["targetTemperature"]), readings.climatTargetTemperature));
    var without := Lookup(e, RpcSettings + ["climatisationWithoutHVPower"]);
    if without.Some? {
      readings := readings.(climatWithoutHwPower := Truthy(without.value));
    }
    readings := readings.(climatTimeLeft := IntOrFalse(Lookup(e, RpcStatus + ["climatisationRemaningTime"])));
    readings := readings.(electricRangeLeft := IntOrFalse(Lookup(e, RbcStatus + ["electricRange"])));
    readings := readings.(chargingTimeLeft := ChargingTimeLeft(e, charging));
  }

  /**
   * The body of `_carnet_update_vehicle_status` once the four payloads are
   * in. The groups do not read each other's fields, except that the charging
   * time is computed from the charge state before the status strings update it.
   */
  method ApplyStatus(r: Record, p: Payloads, now: string, reformat: string -> Option<string>) returns (r': Record)
    ensures r' == StatusApplied(r, p, now, reformat)
  {
    var e := p.emanager;
    var report := ReadReport(r.report, p, now, reformat);
    var readings := ReadEManager(r.readings, e, r.states.charge);
    var states := r.states;
    states := states.(climat := FlagFromStatus(Lookup(e, RpcStatus + ["climatisationState"]), states.climat));
    states := states.(melt := FlagFromStatus(Lookup(e, RpcStatus + ["windowHeatingStateRear"]), states.melt));
    states := states.(charge := FlagFromStatus(Lookup(e, RbcStatus + ["chargingState"]), states.charge));
    r' := r.(report := report, readings := readings, states := states);
  }

  /** The record after one call of `_carnet_update_vehicle_status` with the given fetch outcome. */
  function Polled(r: Record, fetch: Fetch, now: string, reformat: string -> Option<string>): Record {
    match fetch
    case RequestFailed => r
    case DataFailed => r.(initialized := true)
    case Fetched(p) => StatusApplied(r.(initialized := true), p, now, reformat)
  }

  /**
   * One row through `_carnet_update_vehicle_status`: nothing changes when the
   * status request fails, the row is marked initialized before the payloads
   * are requested, and the payloads are applied when they all arrive.
   */
  method PollRecord(r: Record, fetch: Fetch, now: string, reformat: string -> Option<string>)
    returns (r': Record, ok: bool)
    requires WellFormed(r)
    ensures r' == Polled(r, fetch, now, reformat) && WellFormed(r')
    ensures ok == fetch.Fetched?
  {
    if fetch.RequestFailed? {
      return r, false;
    }
    r' := r;
    if !r'.initialized {
      r' := r'.(initialized := true);
    }
    if fetch.DataFailed? {
      return r', false;
    }
    PolledWellFormed(r, fetch, now, reformat);
    r' := ApplyStatus(r', fetch.payloads, now, reformat);
    ok := true;
  }

  lemma SecondsAreWholeMinutes(hours: int, minutes: int)
    ensures (hours * 60 * 60 + minutes * 60) % 60 == 0
    ensures (hours * 60 * 60 + minutes * 60) / 60 == hours * 60 + minutes
  {
    assert hours * 60 * 60 + minutes * 60 == (hours * 60 + minutes) * 60;
  }

  /** A poll keeps records well formed: the stored charging time is always whole minutes. */
  lemma PolledWellFormed(r: Record, fetch: Fetch, now: string, reformat: string -> Option<string>)
    requires WellFormed(r)
    ensures WellFormed(Polled(r, fetch, now, reformat))
  {
  }

  /**
   * The rules of one successful poll, stated against the record as it was
   * before the poll: charging time from the old charge state, the three
   * flags from their status strings, the door from `lockData`, and the
   * identity fields untouched.
   */
  lemma StatusRules(r: Record, p: Payloads, now: string, reformat: string -> Option<string>)
    ensures var r' := Polled(r, Fetched(p), now, reformat);
      && r'.initialized && r'.report.lastUpdated == Str(now) && r'.info == r.info
      && r'.readings.chargingTimeLeft ==
           (if r.states.charge && ChargingSeconds(p.emanager).Some?
            then Int(ChargingSeconds(p.emanager).value) else Bool(false))
      && r'.report.doorLocked == AllLocked(Lookup(p.car, LockDataPath))
      && r'.states.climat == FlagFromStatus(Lookup(p.emanager, RpcStatus + ["climatisationState"]), r.states.climat)
      && r'.states.melt == FlagFromStatus(Lookup(p.emanager, RpcStatus + ["windowHeatingStateRear"]), r.states.melt)
      && r'.states.charge == FlagFromStatus(Lookup(p.emanager, RbcStatus + ["chargingState"]), r.states.charge)
  {
  }

  /** The charging time stored by a poll uses the charge state from before the poll, not the one it reports. */
  lemma ChargingTimeUsesPreviousState(r: Record, p: Payloads, now: string, reformat: string -> Option<string>)
    requires !r.states.charge
    requires Lookup(p.emanager, RbcStatus + ["chargingState"]) == Some(Str("CHARGING"))
    ensures var r' := Polled(r, Fetched(p), now, reformat);
      r'.states.charge && r'.readings.chargingTimeLeft == Bool(false)
  {
  }

  /**
   * What a poll leaves alone or resets when the payloads lack every field:
   * the last charger current, target temperature, service inspection,
   * distance, connection time, climatisation-without-power, location and
   * states are kept, while battery, range, climatisation time, charging
   * time, power, parking lights and door fall back to `False`.
   */
  lemma MissingFields(r: Record, now: string, reformat: string -> Option<string>)
    ensures var empty := Obj(map[]);
      var r' := Polled(r, Fetched(Payloads(empty, empty, empty, empty)), now, reformat);
      var f := Bool(false);
      && r'.states == r.states
      && r'.readings == r.readings.(externalPowerConnected := false, batteryLeft := f,
           chargingTimeLeft := f, climatTimeLeft := f, electricRangeLeft := f)
      && r'.report == r.report.(lastUpdated := Str(now), doorLocked := false, parkingLights := false)
  {
  }

  // ---------------------------------------------------------------------
  // Vehicle discovery of `_carnet_get_vehicles`
  // ---------------------------------------------------------------------

  /** A VIN as a dict key: `None`, an int or a string (booleans collide with ints, lists and dicts are unhashable). */
  predicate IsVinKey(v: Value) {
    v.Null? || v.Int? || v.Str?
  }

  predicate VinsAreKeys(es: seq<map<string, Value>>) {
    forall k :: 0 <= k < |es| ==> IsVinKey(Get(es[k], "vin"))
  }

  /** The VINs an entry list names. */
  function VinsOf(es: seq<map<string, Value>>): set<Value> {
    set k | 0 <= k < |es| :: Get(es[k], "vin")
  }

  /** The table after the enrollment loop: each entry (re)creates the row for its VIN from the template. */
  function Enrolled(vs: map<Value, Record>, es: seq<map<string, Value>>): map<Value, Record> {
    if es == [] then vs
    else
      var last := es[|es| - 1];
      Enrolled(vs, es[..|es| - 1])[Get(last, "vin") := Template(last)]
  }

  /** The key order after the enrollment loop: a VIN seen for the first time goes last. */
  function EnrolledOrder(order: seq<Value>, es: seq<map<string, Value>>): seq<Value> {
    if es == [] then order
    else
      var previous := EnrolledOrder(order, es[..|es| - 1]);
      var key := Get(es[|es| - 1], "vin");
      if key in previous then previous else previous + [key]
  }

  /** The fields copied from a fully-loaded or not-fully-loaded entry. */
  function WithDetails(r: Record, e: map<string, Value>): Record {
    r.(info := r.info.(dashboardUrl := Get(e, "dashboardUrl"), profileId := Get(e, "xprofileId"),
                       modelYear := Get(e, "modelYear"), modelCode := Get(e, "modelCode"),
                       modelImageUrl := Get(e, "imageUrl")))
  }

  /** The table after an enrichment loop: only rows already present are touched. */
  function Enriched(vs: map<Value, Record>, es: seq<map<string, Value>>): map<Value, Record> {
    if es == [] then vs
    else
      var previous := Enriched(vs, es[..|es| - 1]);
      var last := es[|es| - 1];
      var key := Get(last, "vin");
      if key in previous then previous[key := WithDetails(previous[key], last)] else previous
  }

  lemma EnrolledStep(vs: map<Value, Record>, order: seq<Value>, es: seq<map<string, Value>>, i: nat)
    requires i < |es|
    ensures Enrolled(vs, es[..i + 1]) == Enrolled(vs, es[..i])[Get(es[i], "vin") := Template(es[i])]
    ensures var previous := EnrolledOrder(order, es[..i]);
      EnrolledOrder(order, es[..i + 1]) ==
        if Get(es[i], "vin") in previous then previous else previous + [Get(es[i], "vin")]
  {
    assert es[..i + 1][..i] == es[..i];
  }

  lemma EnrichedStep(vs: map<Value, Record>, es: seq<map<string, Value>>, i: nat)
    requires i < |es|
    ensures var previous := Enriched(vs, es[..i]);
      var key := Get(es[i], "vin");
      Enriched(vs, es[..i + 1]) ==
        if key in previous then previous[key := WithDetails(previous[key], es[i])] else previous
  {
    assert es[..i + 1][..i] == es[..i];
  }

  /** Enrollment adds exactly the listed VINs to the table. */
  lemma {:induction false} EnrolledKeys(vs: map<Value, Record>, es: seq<map<string, Value>>)
    ensures Enrolled(vs, es).Keys == vs.Keys + VinsOf(es)
  {
    if es != [] {
      var init := es[..|es| - 1];
      EnrolledKeys(vs, init);
      assert VinsOf(es) == VinsOf(init) + {Get(es[|es| - 1], "vin")} by {
        forall v | v in VinsOf(es) ensures v in VinsOf(init) + {Get(es[|es| - 1], "vin")} {
          var k :| 0 <= k < |es| && Get(es[k], "vin") == v;
          if k < |es| - 1 { assert init[k] == es[k]; }
        }
        forall v | v in VinsOf(init) ensures v in VinsOf(es) {
          var k :| 0 <= k < |init| && Get(init[k], "vin") == v;
          assert es[k] == init[k];
        }
      }
    }
  }

  /** Enrollment leaves the rows of VINs it does not list as they were. */
  lemma {:induction false} EnrolledKeepsOthers(vs: map<Value, Record>, es: seq<map<string, Value>>, key: Value)
    requires key in vs && key !in VinsOf(es)
    ensures key in Enrolled(vs, es) && Enrolled(vs, es)[key] == vs[key]
  {
    if es != [] {
      var init := es[..|es| - 1];
      assert key !in VinsOf(init);
      assert Get(es[|es| - 1], "vin") != key;
      EnrolledKeepsOthers(vs, init, key);
    }
  }

  /** Enrichment never adds a row: the keys are those of the table before it. */
  lemma {:induction false} EnrichedKeys(vs: map<Value, Record>, es: seq<map<string, Value>>)
    ensures Enriched(vs, es).Keys == vs.Keys
  {
    if es != [] {
      EnrichedKeys(vs, es[..|es| - 1]);
    }
  }

  /** Enrichment leaves the rows of VINs it does not list as they were. */
  lemma {:induction false} EnrichedKeepsOthers(vs: map<Value, Record>, es: seq<map<string, Value>>, key: Value)
    requires key in vs && key !in VinsOf(es)
    ensures key in Enriched(vs, es) && Enriched(vs, es)[key] == vs[key]
  {
    if es != [] {
      var init := es[..|es| - 1];
      assert key !in VinsOf(init);
      EnrichedKeepsOthers(vs, init, key);
    }
  }

  /** Enrichment changes nothing but the five copied fields, and keeps the VIN, PIN and name. */
  lemma {:induction false} EnrichedKeepsState(vs: map<Value, Record>, es: seq<map<string, Value>>, key: Value)
    requires key in vs
    ensures key in Enriched(vs, es)
    ensures var r := vs[key]; var r' := Enriched(vs, es)[key];
      && r'.(info := r.info) == r
      && r'.info.vin == r.info.vin && r'.info.pin == r.info.pin && r'.info.name == r.info.name
  {
    if es != [] {
      EnrichedKeepsState(vs, es[..|es| - 1], key);
    }
  }

  /** What the discovery requests returned: a request that raised ends discovery early. */
  datatype Discovery =
    | OwnersRequestFailed
    | LoadedCarsRequestFailed(enrollment: seq<map<string, Value>>)
    | Discovered(enrollment: seq<map<string, Value>>,
                 complete: seq<map<string, Value>>,
                 notFullyLoaded: seq<map<string, Value>>)
  {
    predicate HashableVins() {
      match this
      case OwnersRequestFailed => true
      case LoadedCarsRequestFailed(e) => VinsAreKeys(e)
      case Discovered(e, c, n) => VinsAreKeys(e) && VinsAreKeys(c) && VinsAreKeys(n)
    }
  }

  /** The table once the discovery requests have been merged in. */
  function AfterDiscovery(vs: map<Value, Record>, d: Discovery): map<Value, Record> {
    match d
    case OwnersRequestFailed => vs
    case LoadedCarsRequestFailed(e) => Enrolled(vs, e)
    case Discovered(e, c, n) => Enriched(Enriched(Enrolled(vs, e), c), n)
  }

  function OrderAfterDiscovery(order: seq<Value>, d: Discovery): seq<Value> {
    match d
    case OwnersRequestFailed => order
    case LoadedCarsRequestFailed(e) => EnrolledOrder(order, e)
    case Discovered(e, _, _) => EnrolledOrder(order, e)
  }

  /** The table after polling the rows of `keys` one after another, as the status pass does. */
  function PolledOver(vs: map<Value, Record>, keys: seq<Value>, fetches: Value -> Fetch, clock: Value -> string,
                      reformat: string -> Option<string>): map<Value, Record> {
    if keys == [] then vs
    else
      var before := PolledOver(vs, keys[..|keys| - 1], fetches, clock, reformat);
      var key := keys[|keys| - 1];
      if key in before then before[key := Polled(before[key], fetches(key), clock(key), reformat)] else before
  }

  /**
   * With each VIN listed once, the status pass polls each listed row exactly
   * once with its own fetch outcome and leaves every other row as it was.
   */
  lemma {:induction false} PolledOverAt(vs: map<Value, Record>, keys: seq<Value>, fetches: Value -> Fetch,
                                        clock: Value -> string, reformat: string -> Option<string>, k: Value)
    requires forall i, j :: 0 <= i < j < |keys| ==> keys[i] != keys[j]
    ensures PolledOver(vs, keys, fetches, clock, reformat).Keys == vs.Keys
    ensures k in vs ==>
      PolledOver(vs, keys, fetches, clock, reformat)[k] ==
      if k in keys then Polled(vs[k], fetches(k), clock(k), reformat) else vs[k]
  {
    if keys != [] {
      var init := keys[..|keys| - 1];
      PolledOverAt(vs, init, fetches, clock, reformat, k);
      var last := keys[|keys| - 1];
      assert k in keys <==> k in init || k == last;
      if k == last {
        assert last !in init;
      }
      PolledOverAt(vs, init, fetches, clock, reformat, last);
    }
  }

  /** Every fetch for the listed VINs succeeded. */
  predicate AllFetched(fetches: Value -> Fetch, done: seq<Value>) {
    done == [] || (AllFetched(fetches, done[..|done| - 1]) && fetches(done[|done| - 1]).Fetched?)
  }

  /** The login flag survives the status pass exactly when no listed VIN's fetch failed. */
  lemma {:induction false} AllFetchedMeans(fetches: Value -> Fetch, done: seq<Value>)
    ensures AllFetched(fetches, done) <==> forall k :: k in done ==> fetches(k).Fetched?
  {
    if done != [] {
      var init := done[..|done| - 1];
      AllFetchedMeans(fetches, init);
      assert forall k :: k in done <==> k in init || k == done[|done| - 1];
    }
  }
  /** One more row of the status pass. */
  lemma PolledOverStep(vs: map<Value, Record>, keys: seq<Value>, i: nat, fetches: Value -> Fetch,
                       clock: Value -> string, reformat: string -> Option<string>)
    requires i < |keys|
    ensures var before := PolledOver(vs, keys[..i], fetches, clock, reformat);
      PolledOver(vs, keys[..i + 1], fetches, clock, reformat) ==
        if keys[i] in before
        then before[keys[i] := Polled(before[keys[i]], fetches(keys[i]), clock(keys[i]), reformat)]
        else before
    ensures AllFetched(fetches, keys[..i + 1]) == (AllFetched(fetches, keys[..i]) && fetches(keys[i]).Fetched?)
  {
    assert keys[..i + 1] == keys[..i] + [keys[i]];
  }



  // ---------------------------------------------------------------------
  // VWCarnet
  // ---------------------------------------------------------------------

  /** The order lists each key of the table once, keys are hashable VINs, and every row is well formed. */
  ghost predicate ValidTable(vs: map<Value, Record>, order: seq<Value>) {
    && (forall i, j :: 0 <= i < j < |order| ==> order[i] != order[j])
    && (forall k :: k in vs <==> k in order)
    && (forall k :: k in vs ==> IsVinKey(k) && WellFormed(vs[k]))
  }

  lemma ReplaceKeepsValid(vs: map<Value, Record>, order: seq<Value>, key: Value, r: Record)
    requires ValidTable(vs, order) && key in vs && WellFormed(r)
    ensures ValidTable(vs[key := r], order)
  {
  }

  lemma AppendKeepsValid(vs: map<Value, Record>, order: seq<Value>, key: Value, r: Record)
    requires ValidTable(vs, order) && key !in vs && IsVinKey(key) && WellFormed(r)
    ensures ValidTable(vs[key := r], order + [key])
  {
  }

  /** `VWCarnet`: the vehicle table, in the insertion order Python keeps for it, and the login flag. */
  class VWCarnet {
    var vehicles: map<Value, Record>
    var order: seq<Value>
    var loggedIn: bool

    ghost predicate Valid()
      reads this
    {
      ValidTable(vehicles, order)
    }

    constructor ()
      ensures Valid()
      ensures vehicles == map[] && order == [] && !loggedIn
    {
      vehicles := map[];
      order := [];
      loggedIn := false;
    }

    /** `_switch_get_state`. */
    function SwitchGetState(vin: Value, switch: string): (b: Option<bool>)
      reads this
      requires IsSwitch(switch) ==> vin in vehicles
      ensures b.Some? <==> IsSwitch(switch)
    {
      if IsSwitch(switch) then StateOf(vehicles[vin], switch) else None
    }

    /** `_set_state`: writes one state flag of one row; an unknown switch name touches nothing. */
    method SetState(switch: string, vin: Value, state: bool)
      requires Valid() && (IsSwitch(switch) ==> vin in vehicles)
      modifies this
      ensures Valid() && order == old(order) && loggedIn == old(loggedIn)
      ensures IsSwitch(switch) ==> vehicles == old(vehicles)[vin := WithState(old(vehicles)[vin], switch, state)]
      ensures !IsSwitch(switch) ==> vehicles == old(vehicles)
      ensures IsSwitch(switch) ==> SwitchGetState(vin, switch) == Some(state)
    {
      if IsSwitch(switch) {
        vehicles := vehicles[vin := WithState(vehicles[vin], switch, state)];
      }
    }

    /**
     * `_switch_update_state`: the start/stop command for a switch records the
     * requested state before it posts the command to the portal.
     */
    method SwitchUpdateState(vin: Value, switch: string, state: bool)
      requires Valid() && (IsSwitch(switch) ==> vin in vehicles)
      modifies this
      ensures Valid() && order == old(order) && loggedIn == old(loggedIn)
      ensures IsSwitch(switch) ==> vehicles == old(vehicles)[vin := WithState(old(vehicles)[vin], switch, state)]
      ensures !IsSwitch(switch) ==> vehicles == old(vehicles)
    {
      if IsSwitch(switch) {
        SetState(switch, vin, state);
      }
    }

    /**
     * `_carnet_update_vehicle_status` for one row: the record is updated as
     * `PollRecord` describes, and a failed request clears the login flag.
     */
    method UpdateVehicleStatus(vin: Value, fetch: Fetch, now: string, reformat: string -> Option<string>)
      returns (ok: bool)
      requires Valid() && vin in vehicles
      modifies this
      ensures Valid() && order == old(order)
      ensures vehicles == old(vehicles)[vin := Polled(old(vehicles)[vin], fetch, now, reformat)]
      ensures ok == fetch.Fetched?
      ensures loggedIn == (old(loggedIn) && fetch.Fetched?)
    {
      var r;
      r, ok := PollRecord(vehicles[vin], fetch, now, reformat);
      ReplaceKeepsValid(vehicles, order, vin, r);
      vehicles := vehicles[vin := r];
      if !ok {
        loggedIn := false;
      }
    }

    /** The enrollment loop of `_carnet_get_vehicles`. */
    method Enroll(es: seq<map<string, Value>>)
      requires Valid() && VinsAreKeys(es)
      modifies this
      ensures Valid() && loggedIn == old(loggedIn)
      ensures vehicles == Enrolled(old(vehicles), es) && order == EnrolledOrder(old(order), es)
    {
      var i := 0;
      while i < |es|
        invariant 0 <= i <= |es|
        invariant Valid() && loggedIn == old(loggedIn)
        invariant vehicles == Enrolled(old(vehicles), es[..i])
        invariant order == EnrolledOrder(old(order), es[..i])
      {
        var key := Get(es[i], "vin");
        if key !in vehicles {
          AppendKeepsValid(vehicles, order, key, Template(es[i]));
          order := order + [key];
        } else {
          ReplaceKeepsValid(vehicles, order, key, Template(es[i]));
        }
        vehicles := vehicles[key := Template(es[i])];
        EnrolledStep(old(vehicles), old(order), es, i);
        i := i + 1;
      }
      assert es[..|es|] == es;
    }

    /** One of the two enrichment loops of `_carnet_get_vehicles`. */
    method Enrich(es: seq<map<string, Value>>)
      requires Valid() && VinsAreKeys(es)
      modifies this
      ensures Valid() && loggedIn == old(loggedIn) && order == old(order)
      ensures vehicles == Enriched(old(vehicles), es)
    {
      var i := 0;
      while i < |es|
        invariant 0 <= i <= |es|
        invariant Valid() && loggedIn == old(loggedIn) && order == old(order)
        invariant vehicles == Enriched(old(vehicles), es[..i])
      {
        var key := Get(es[i], "vin");
        if key in vehicles {
          ReplaceKeepsValid(vehicles, order, key, WithDetails(vehicles[key], es[i]));
          vehicles := vehicles[key := WithDetails(vehicles[key], es[i])];
        }
        EnrichedStep(old(vehicles), es, i);
        i := i + 1;
      }
      assert es[..|es|] == es;
    }

    /** The status pass at the end of `_carnet_get_vehicles`: every row polled once, in table order. */
    method PollAll(fetches: Value -> Fetch, clock: Value -> string, reformat: string -> Option<string>)
      requires Valid()
      modifies this
      ensures Valid() && order == old(order)
      ensures vehicles == PolledOver(old(vehicles), order, fetches, clock, reformat)
      ensures loggedIn == (old(loggedIn) && AllFetched(fetches, order))
    {
      var keys := order;
      var i := 0;
      while i < |keys|
        invariant 0 <= i <= |keys|
        invariant Valid() && order == keys
        invariant vehicles == PolledOver(old(vehicles), keys[..i], fetches, clock, reformat)
        invariant loggedIn == (old(loggedIn) && AllFetched(fetches, keys[..i]))
      {
        PollNext(old(vehicles), old(loggedIn), i, fetches, clock, reformat);
        i := i + 1;
      }
      assert keys[..|keys|] == keys;
    }

    /** One round of `PollAll`: polls the `i`-th listed VIN, extending the pass by one key. */
    method PollNext(ghost vs: map<Value, Record>, ghost wasLoggedIn: bool, i: nat, fetches: Value -> Fetch,
                    clock: Value -> string, reformat: string -> Option<string>)
      requires Valid() && i < |order|
      requires vehicles == PolledOver(vs, order[..i], fetches, clock, reformat)
      requires loggedIn == (wasLoggedIn && AllFetched(fetches, order[..i]))
      modifies this
      ensures Valid() && order == old(order)
      ensures vehicles == PolledOver(vs, order[..i + 1], fetches, clock, reformat)
      ensures loggedIn == (wasLoggedIn && AllFetched(fetches, order[..i + 1]))
    {
      var key := order[i];
      PolledOverStep(vs, order, i, fetches, clock, reformat);
      var _ := UpdateVehicleStatus(key, fetches(key), clock(key), reformat);
    }

    /**
     * `_carnet_get_vehicles`: enroll, enrich, then poll every row once. A
     * discovery request that raises stops there, clears the login flag and
     * reports failure; failed polls only clear the login flag.
     */
    method GetVehicles(discovery: Discovery, fetches: Value -> Fetch, clock: Value -> string,
                       reformat: string -> Option<string>) returns (ok: bool)
      requires Valid() && discovery.HashableVins()
      modifies this
      ensures Valid()
      ensures ok == discovery.Discovered?
      ensures order == OrderAfterDiscovery(old(order), discovery)
      ensures !ok ==> vehicles == AfterDiscovery(old(vehicles), discovery) && !loggedIn
      ensures ok ==> vehicles == PolledOver(AfterDiscovery(old(vehicles), discovery), order, fetches, clock, reformat)
      ensures ok ==> loggedIn == (old(loggedIn) && AllFetched(fetches, order))
    {
      match discovery {
        case OwnersRequestFailed =>
          loggedIn := false;
          return false;
        case LoadedCarsRequestFailed(e) =>
          Enroll(e);
          loggedIn := false;
          return false;
        case Discovered(e, c, n) =>
          Enroll(e);
          Enrich(c);
          Enrich(n);
          PollAll(fetches, clock, reformat);
          return true;
      }
    }
  }

  // ---------------------------------------------------------------------
  // VolkswagenCarnetEntity
  // ---------------------------------------------------------------------

  /** The record value a sensor shows before the falsy check; the charging time in minutes. */
  function RawSensorState(r: Record, sensorName: string): Value
    requires WellFormed(r)
  {
    var t := r.readings.chargingTimeLeft;
    if sensorName == "battery" then r.readings.batteryLeft
    else if sensorName == "charge_max_ampere" then r.readings.chargeMaxAmpere
    else if sensorName == "charging_time_left" then Int(if t.Int? then t.i / 60 else 0)
    else if sensorName == "climat_target_temperature" then r.readings.climatTargetTemperature
    else if sensorName == "electric_range_left" then r.readings.electricRangeLeft
    else if sensorName == "distance" then r.report.distance
    else if sensorName == "last_connected" then r.report.lastConnected
    else if sensorName == "next_service_inspection" then r.report.nextServiceInspection
    else Null
  }

  /** `VolkswagenCarnetEntity._state`: the sensor's reading, with every falsy reading reported as `None`. */
  function SensorState(r: Record, sensorName: string): (v: Value)
    requires WellFormed(r)
    ensures v == Null || Truthy(v)
    ensures Truthy(RawSensorState(r, sensorName)) ==> v == RawSensorState(r, sensorName)
    ensures !Truthy(RawSensorState(r, sensorName)) ==> v == Null
  {
    var state := RawSensorState(r, sensorName);
    if Truthy(state) then state else Null
  }

  /** The charging time is shown in minutes, exactly, and `None` whenever nothing is being charged. */
  lemma ChargingMinutes(r: Record)
    requires WellFormed(r)
    ensures var v := SensorState(r, "charging_time_left");
      var t := r.readings.chargingTimeLeft;
      && (v != Null <==> t.Int? && t.i != 0)
      && (v != Null ==> v.Int? && v.i * 60 == t.i)
  {
  }

  /** After a poll that reports `hours`/`minutes` left while recorded as charging, the sensor shows `hours*60 + minutes`. */
  lemma ChargingMinutesAfterPoll(r: Record, p: Payloads, now: string, reformat: string -> Option<string>,
                                  hours: int, minutes: int)
    requires WellFormed(r) && r.states.charge
    requires var h := Lookup(p.emanager, RbcStatus + ["chargingRemaningHour"]); h.Some? && ToInt(h.value) == Some(hours)
    requires var m := Lookup(p.emanager, RbcStatus + ["chargingRemaningMinute"]); m.Some? && ToInt(m.value) == Some(minutes)
    requires hours * 60 + minutes != 0
    ensures WellFormed(Polled(r, Fetched(p), now, reformat))
    ensures SensorState(Polled(r, Fetched(p), now, reformat), "charging_time_left") == Int(hours * 60 + minutes)
  {
    SecondsAreWholeMinutes(hours, minutes);
    PolledWellFormed(r, Fetched(p), now, reformat);
  }

  /**
   * The (vehicle, table entry) pairs a legacy platform's setup creates
   * entities for: every table entry for the first vehicle, then for the next.
   */
  function Pairs<T>(vehicles: seq<Value>, table: seq<T>): (ps: seq<(Value, T)>)
    ensures |ps| == |vehicles| * |table|
  {
    if vehicles == [] then []
    else
      var init := vehicles[..|vehicles| - 1];
      var row := seq(|table|, j requires 0 <= j < |table| => (vehicles[|vehicles| - 1], table[j]));
      assert |init| * |table| + |table| == |vehicles| * |table| by {
        assert |vehicles| == |init| + 1;
      }
      Pairs(init, table) + row
  }

  /** Every enumerated pair is a listed vehicle with a table entry. */
  lemma {:induction false} PairsFrom<T>(vehicles: seq<Value>, table: seq<T>, k: int)
    requires 0 <= k < |Pairs(vehicles, table)|
    ensures Pairs(vehicles, table)[k].0 in vehicles && Pairs(vehicles, table)[k].1 in table
  {
    var init := vehicles[..|vehicles| - 1];
    if k < |Pairs(init, table)| {
      PairsFrom(init, table, k);
    }
  }

  /** Entry `i * |table| + j` of the enumeration is vehicle `i` with table entry `j`. */
  lemma {:induction false} PairsAt<T>(vehicles: seq<Value>, table: seq<T>, i: int, j: int)
    requires 0 <= i < |vehicles| && 0 <= j < |table|
    ensures 0 <= i * |table| + j < |vehicles| * |table|
    ensures Pairs(vehicles, table)[i * |table| + j] == (vehicles[i], table[j])
  {
    var n, m := |vehicles|, |table|;
    var init := vehicles[..n - 1];
    var front := Pairs(init, table);
    var row := seq(m, k requires 0 <= k < m => (vehicles[n - 1], table[k]));
    assert Pairs(vehicles, table) == front + row;
    assert |front| == (n - 1) * m;
    ProductStep(n, m, i, j);
    if i < n - 1 {
      PairsAt(init, table, i, j);
      assert (front + row)[i * m + j] == front[i * m + j];
    } else {
      assert i * m == |front|;
      assert (front + row)[i * m + j] == row[j];
    }
  }

  /** The index arithmetic of `PairsAt`, kept apart from the sequence reasoning. */
  lemma ProductStep(n: int, m: int, i: int, j: int)
    requires 0 <= i < n && 0 <= j < m
    ensures 0 <= i * m + j < n * m
    ensures (n - 1) * m + m == n * m
    ensures i < n - 1 ==> i * m + j < (n - 1) * m
    ensures i == n - 1 ==> i * m == (n - 1) * m
  {
    assert (n - 1) * m + m == n * m;
    if i < n - 1 {
      assert i * m + m <= (n - 1) * m by {
        assert (i + 1) * m <= (n - 1) * m;
      }
    }
  }

  /** `'vw_%s_%s' % (vehicle, sensor name)`, the entity name of the sensors and switches. */
  function EntityName(vehicle: Value, entityName: string): (n: string)
    requires IsScalar(vehicle)
    ensures |n| > |entityName| + 3 && n[..3] == "vw_"
    ensures n[|n| - |entityName| - 1..] == "_" + entityName
    ensures n[3..|n| - |entityName| - 1] == PyStr(vehicle)
  {
    "vw_" + PyStr(vehicle) + "_" + entityName
  }

  /** The same entity of two vehicles whose names print differently gets different entity names. */
  lemma EntityNamesOfVehiclesDistinct(v1: Value, v2: Value, entityName: string)
    requires IsScalar(v1) && IsScalar(v2) && PyStr(v1) != PyStr(v2)
    ensures EntityName(v1, entityName) != EntityName(v2, entityName)
  {
  }

  /** Two entities of one vehicle with different names get different entity names. */
  lemma EntityNamesDistinct(vehicle: Value, a: string, b: string)
    requires IsScalar(vehicle) && a != b
    ensures EntityName(vehicle, a) != EntityName(vehicle, b)
  {
    var prefix := "vw_" + PyStr(vehicle) + "_";
    assert EntityName(vehicle, a)[|prefix|..] == a;
    assert EntityName(vehicle, b)[|prefix|..] == b;
  }
}
