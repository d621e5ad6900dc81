/**
 * The legacy switch platform: one toggle entity per (vehicle, switch) pair,
 * each caching the on/off state it last read from `VWCarnet`.
 */
module CarnetSwitch {
  import opened Wrappers
  import opened PyValue
  import opened Carnet

  const STATE_ON: string := "on"
  const STATE_OFF: string := "off"

  /** One entry of the `SWITCHES` table. */
  datatype SwitchSpec = SwitchSpec(name: string, friendlyName: string, icon: string)

  const Switches: seq<SwitchSpec> := [
    SwitchSpec("climat", "Climat", "mdi:radiator"),
    SwitchSpec("charge", "Charge", "mdi:battery-charging"),
    SwitchSpec("melt", "Window melt", "mdi:car-wash")
  ]

  /** Every switch of the table is one `VWCarnet` recognises. */
  lemma SwitchesAreKnown()
    ensures forall j :: 0 <= j < |Switches| ==> IsSwitch(Switches[j].name)
    ensures forall i, j :: 0 <= i < j < |Switches| ==> Switches[i].name != Switches[j].name
  {
  }

  /** The switches of one vehicle get pairwise different entity names. */
  lemma SwitchNamesDistinct(vehicle: Value, i: int, j: int)
    requires IsScalar(vehicle) && 0 <= i < |Switches| && 0 <= j < |Switches| && i != j
    ensures EntityName(vehicle, Switches[i].name) != EntityName(vehicle, Switches[j].name)
  {
    SwitchesAreKnown();
    EntityNamesDistinct(vehicle, Switches[i].name, Switches[j].name);
  }

  /** `VolkswagenCarnetSwitch`. */
  class Switch {
    const vw: VWCarnet
    const vehicle: Value
    const spec: SwitchSpec
    var state: string

    ghost predicate Valid()
      reads this
    {
      state == STATE_ON || state == STATE_OFF
    }

    constructor (vw: VWCarnet, vehicle: Value, spec: SwitchSpec)
      ensures Valid() && this.vw == vw && this.vehicle == vehicle && this.spec == spec
      ensures state == STATE_OFF && !IsOn()
    {
      this.vw := vw;
      this.vehicle := vehicle;
      this.spec := spec;
      state := STATE_OFF;
    }

    /** `is_on`. */
    function IsOn(): (on: bool)
      reads this
      ensures on <==> state == STATE_ON
    {
      state == STATE_ON
    }

    /** `available` returns the cached state string, which is never empty, so the switch is always available. */
    function Available(): (available: bool)
      reads this
      requires Valid()
      ensures available
    {
      Truthy(Str(state))
    }

    /** `name`. */
    function Name(): (n: string)
      requires IsScalar(vehicle)
      ensures |n| > |spec.name| + 3 && n[..3] == "vw_" && n[|n| - |spec.name| - 1..] == "_" + spec.name
      ensures n[3..|n| - |spec.name| - 1] == PyStr(vehicle)
    {
      EntityName(vehicle, spec.name)
    }

    /** `update`: cache whether the backend reports the switch as on. */
    method Update()
      requires vw.Valid() && (IsSwitch(spec.name) ==> vehicle in vw.vehicles)
      modifies this
      ensures Valid()
      ensures IsOn() <==> vw.SwitchGetState(vehicle, spec.name) == Some(true)
    {
      var backend := vw.SwitchGetState(vehicle, spec.name);
      state := if backend == Some(true) then STATE_ON else STATE_OFF;
    }

    /** `turn_on`: ask the backend to switch on; the cached state waits for the next `update`. */
    method TurnOn()
      requires vw.Valid() && (IsSwitch(spec.name) ==> vehicle in vw.vehicles)
      modifies vw
      ensures vw.Valid() && unchanged(this)
      ensures IsSwitch(spec.name) ==>
        vw.vehicles == old(vw.vehicles)[vehicle := WithState(old(vw.vehicles)[vehicle], spec.name, true)]
      ensures IsSwitch(spec.name) ==> vw.SwitchGetState(vehicle, spec.name) == Some(true)
      ensures vw.order == old(vw.order) && vw.loggedIn == old(vw.loggedIn)
      ensures !IsSwitch(spec.name) ==> vw.vehicles == old(vw.vehicles)
    {
      vw.SwitchUpdateState(vehicle, spec.name, true);
    }

    /** `turn_off`: ask the backend to switch off; the cached state waits for the next `update`. */
    method TurnOff()
      requires vw.Valid() && (IsSwitch(spec.name) ==> vehicle in vw.vehicles)
      modifies vw
      ensures vw.Valid() && unchanged(this)
      ensures IsSwitch(spec.name) ==>
        vw.vehicles == old(vw.vehicles)[vehicle := WithState(old(vw.vehicles)[vehicle], spec.name, false)]
      ensures IsSwitch(spec.name) ==> vw.SwitchGetState(vehicle, spec.name) == Some(false)
      ensures vw.order == old(vw.order) && vw.loggedIn == old(vw.loggedIn)
      ensures !IsSwitch(spec.name) ==> vw.vehicles == old(vw.vehicles)
    {
      vw.SwitchUpdateState(vehicle, spec.name, false);
    }
  }

  /** The switches are attached to `vw` and stand for the listed (vehicle, switch) pairs, in order. */
  ghost predicate Enumerates(switches: seq<Switch>, vw: VWCarnet, pairs: seq<(Value, SwitchSpec)>) {
    |switches| == |pairs|
    && forall k :: 0 <= k < |switches| ==>
      switches[k].vw == vw && switches[k].vehicle == pairs[k].0 && switches[k].spec == pairs[k].1
  }

  /**
   * `setup_platform`: nothing without discovery info, otherwise one switch per
   * vehicle (in table order) and per entry of `Switches`, all off.
   */
  method SetupPlatform(vw: VWCarnet, discovered: bool) returns (switches: seq<Switch>)
    ensures !discovered ==> switches == []
    ensures discovered ==> Enumerates(switches, vw, Pairs(vw.order, Switches))
    ensures forall k :: 0 <= k < |switches| ==> fresh(switches[k]) && switches[k].state == STATE_OFF
  {
    switches := [];
    if !discovered {
      return;
    }
    var vehicles := vw.order;
    var i := 0;
    while i < |vehicles|
      invariant 0 <= i <= |vehicles|
      invariant Enumerates(switches, vw, Pairs(vehicles[..i], Switches))
      invariant forall k :: 0 <= k < |switches| ==> fresh(switches[k]) && switches[k].state == STATE_OFF
    {
      ghost var done := Pairs(vehicles[..i], Switches);
      var j := 0;
      while j < |Switches|
        invariant 0 <= j <= |Switches|
        invariant Enumerates(switches, vw, done + seq(j, j' requires 0 <= j' < j => (vehicles[i], Switches[j'])))
        invariant forall k :: 0 <= k < |switches| ==> fresh(switches[k]) && switches[k].state == STATE_OFF
      {
        var s := new Switch(vw, vehicles[i], Switches[j]);
        switches := switches + [s];
        j := j + 1;
      }
      assert vehicles[..i + 1][..i] == vehicles[..i];
      i := i + 1;
    }
    assert vehicles[..|vehicles|] == vehicles;
  }
}
