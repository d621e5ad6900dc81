/**
 * `config_flow.py`: the config flow's steps (user, login, select_vehicle,
 * select_instruments, reauth) as a state machine over the flow's fields,
 * and the options flow's instrument step with its set logic.
 */
module Flow {
  import opened Wrappers
  import opened PyValue
  import opened DictBuild
  import opened Host
  import opened Util
  import opened Integration

  const USERNAME: string := "username"
  const PASSWORD: string := "password"
  const REGION: string := "region"
  const CANNOT_CONNECT: string := "cannot_connect"

  /** What a step hands back to the flow manager; `Failed` is an exception escaping the step. */
  datatype FlowResult =
    | Form(stepId: string, errors: map<string, string>)
    | SelectForm(stepId: string, errors: map<string, string>, choices: map<string, string>, preselected: set<string>)
    | Progress(stepId: string)
    | ProgressDone(nextStepId: string)
    | CreateEntry(title: Value, data: map<string, Value>, options: map<string, Value>)
    | CreateOptions(title: Value, options: map<string, Value>)
    | Abort(reason: string)
    | Failed(error: string)

  /** How the portal answers the connection's `doLogin`: an exception, no session, or a session with its vehicles. */
  datatype LoginOutcome = LoginRaised | NotLoggedIn | LoggedIn(vehicles: seq<Vehicle>)

  /** How the portal answers a reauthentication: `doLogin` raises, `validate_login` is false, or it is true. */
  datatype ReauthOutcome = ReauthRaised | ReauthRejected | ReauthAccepted

  /** The login task: not created, created but not yet run, or run. */
  datatype LoginTask = NoTask | Pending | Finished

  /** `{vehicle.vin: vehicle.dashboard().instruments for vehicle in vehicles}`. */
  function VehiclesByVin(vehicles: seq<Vehicle>): (d: map<string, seq<Instrument>>)
    ensures d.Keys == set k | 0 <= k < |vehicles| :: vehicles[k].vin
    ensures forall vin :: vin in d ==>
      exists k :: 0 <= k < |vehicles| && vehicles[k].vin == vin && d[vin] == vehicles[k].instruments
        && forall j :: k < j < |vehicles| ==> vehicles[j].vin != vin
  {
    LastWins(vehicles, (v: Vehicle) => v.vin, (v: Vehicle) => v.instruments)
  }

  /** `{instrument.attr: instrument.name for instrument in instruments}`. */
  function InstrumentNames(instruments: seq<Instrument>): (d: map<string, string>)
    ensures d.Keys == set k | 0 <= k < |instruments| :: instruments[k].attr
    ensures forall a :: a in d ==>
      exists k :: 0 <= k < |instruments| && instruments[k].attr == a && instruments[k].name == d[a]
        && forall j :: k < j < |instruments| ==> instruments[j].attr != a
  {
    LastWins(instruments, (i: Instrument) => i.attr, (i: Instrument) => i.name)
  }

  /** The attr-to-name dictionary as stored in the options. */
  function NamesValue(names: map<string, string>): (v: Value)
    ensures v.Obj? && v.fields.Keys == names.Keys
    ensures forall a :: a in names ==> v.fields[a] == Str(names[a])
  {
    Obj(map a | a in names :: Str(names[a]))
  }

  /** The errors the login task leaves: `cannot_connect` unless the portal gave a session. */
  function AfterLoginTask(errors: map<string, string>, connection: Option<LoginOutcome>): (e: map<string, string>)
    ensures connection.Some? && connection.value.LoggedIn? ==> e == errors
    ensures !(connection.Some? && connection.value.LoggedIn?) ==> e == errors["base" := CANNOT_CONNECT]
  {
    match connection
    case Some(LoggedIn(_)) => errors
    case _ => errors["base" := CANNOT_CONNECT]
  }

  /** The entry data: the collected input, with an empty name replaced by the chosen VIN. */
  function CreatedData(initInfo: map<string, Value>): (data: map<string, Value>)
    requires VEHICLE in initInfo && NAME in initInfo
    ensures data.Keys == initInfo.Keys
    ensures forall k :: k in initInfo && k != NAME ==> data[k] == initInfo[k]
    ensures data[NAME] == (if Truthy(initInfo[NAME]) then initInfo[NAME] else initInfo[VEHICLE])
  {
    if Truthy(initInfo[NAME]) then initInfo else initInfo[NAME := initInfo[VEHICLE]]
  }

  /** When the chosen VIN is non-empty, the entry's name is never empty either. */
  lemma CreatedNameIsSet(initInfo: map<string, Value>, vin: string)
    requires NAME in initInfo && VEHICLE in initInfo && initInfo[VEHICLE] == Str(vin) && vin != ""
    ensures Truthy(CreatedData(initInfo)[NAME])
  {
  }

  /** The first entry's options: the chosen resources and every available attribute with its name. */
  function CreatedOptions(resources: Value, names: map<string, string>): (options: map<string, Value>)
    ensures options.Keys == {RESOURCES, AVAILABLE_RESOURCES}
    ensures options[RESOURCES] == resources
    ensures options[AVAILABLE_RESOURCES].Obj? && options[AVAILABLE_RESOURCES].fields.Keys == names.Keys
    ensures forall a :: a in names ==> options[AVAILABLE_RESOURCES].fields[a] == Str(names[a])
  {
    map[RESOURCES := resources, AVAILABLE_RESOURCES := NamesValue(names)]
  }

  /** `VolkswagenCarnetConfigFlow`. */
  class ConfigFlow {
    var initInfo: map<string, Value>
    /** `initInfo["CONF_VEHICLES"]`, when present. */
    var discovered: Option<map<string, seq<Instrument>>>
    var errors: map<string, string>
    /** The connection the user step created, given by how the portal will answer its login. */
    var connection: Option<LoginOutcome>
    var task: LoginTask
    var entry: ConfigEntry?

    /** An errorless finished login task had a session. */
    ghost predicate Valid()
      reads this
    {
      task == Finished && errors == map[] ==> connection.Some? && connection.value.LoggedIn?
    }

    constructor ()
      ensures Valid()
      ensures initInfo == map[] && discovered.None? && errors == map[] && connection.None? && task == NoTask
      ensures entry == null
    {
      initInfo := map[];
      discovered := None;
      errors := map[];
      connection := None;
      task := NoTask;
      entry := null;
    }

    /**
     * `async_step_user`: without input, the form; with input, the input
     * becomes the collected data, errors and task are reset, a connection is
     * made and the login step starts its task.
     */
    method UserStep(userInput: Option<map<string, Value>>, portal: LoginOutcome) returns (r: FlowResult)
      requires Valid()
      modifies this
      ensures Valid() && entry == old(entry)
      ensures userInput.None? ==> r == Form("user", errors) && unchanged(this)
      ensures userInput.Some? ==>
        initInfo == userInput.value && discovered.None? && errors == map[]
        && connection == Some(portal) && task == Pending && r == Progress("login")
    {
      if userInput.Some? {
        errors := map[];
        initInfo := userInput.value;
        discovered := None;
        task := NoTask;
        connection := Some(portal);
        r := LoginStep();
        return;
      }
      r := Form("user", errors);
    }

    /**
     * `async_step_login`: the first entry creates the login task and shows
     * progress; a later entry awaits it, then goes back to `user` on an error
     * or lists the session's vehicles and moves on to `select_vehicle`.
     */
    method LoginStep() returns (r: FlowResult)
      requires Valid()
      modifies this
      ensures Valid()
      ensures initInfo == old(initInfo) && connection == old(connection) && entry == old(entry)
      ensures old(task) == NoTask ==>
        task == Pending && r == Progress("login") && errors == old(errors) && discovered == old(discovered)
      ensures old(task) != NoTask ==> task == Finished
      ensures old(task) == Pending ==> errors == AfterLoginTask(old(errors), connection)
      ensures old(task) == Finished ==> errors == old(errors)
      ensures old(task) != NoTask && errors != map[] ==> r == ProgressDone("user") && discovered == old(discovered)
      ensures old(task) != NoTask && errors == map[] ==>
        connection.Some? && connection.value.LoggedIn?
        && discovered == Some(VehiclesByVin(connection.value.vehicles)) && r == ProgressDone("select_vehicle")
    {
      if task == NoTask {
        task := Pending;
        return Progress("login");
      }
      if task == Pending {
        RunLoginTask();
      }
      if errors != map[] {
        return ProgressDone("user");
      }
      discovered := Some(VehiclesByVin(connection.value.vehicles));
      r := ProgressDone("select_vehicle");
    }

    /** `_async_task_login`: `cannot_connect` when the login raises or leaves no session. */
    method RunLoginTask()
      requires task == Pending
      modifies this`errors, this`task
      ensures task == Finished && errors == AfterLoginTask(old(errors), connection)
      ensures Valid()
    {
      match connection {
        case Some(LoggedIn(_)) =>
        case _ =>
          errors := errors["base" := CANNOT_CONNECT];
          assert "base" in errors;
      }
      task := Finished;
    }

    /**
     * `async_step_select_vehicle`: with a chosen VIN (one of the listed
     * ones), record it and show the instrument form; without input, restart
     * at `user` when no vehicles were listed, else show the vehicle form.
     */
    method SelectVehicleStep(userInput: Option<string>) returns (r: FlowResult)
      requires Valid()
      requires userInput.Some? ==> discovered.Some? && userInput.value in discovered.value
      modifies this
      ensures Valid() && entry == old(entry) && discovered == old(discovered)
      ensures userInput.Some? ==>
        initInfo == old(initInfo)[VEHICLE := Str(userInput.value)]
        && r == SelectForm("select_instruments", errors, InstrumentNames(discovered.value[userInput.value]),
                           InstrumentNames(discovered.value[userInput.value]).Keys)
      ensures userInput.Some? ==> errors == old(errors) && connection == old(connection) && task == old(task)
      ensures userInput.None? ==> unchanged(this)
      ensures userInput.None? && discovered.None? ==> r == Form("user", errors)
      ensures userInput.None? && discovered.Some? ==> r == Form("select_vehicle", errors)
    {
      if userInput.Some? {
        initInfo := initInfo[VEHICLE := Str(userInput.value)];
        r := SelectInstrumentsStep(None, {});
        return;
      }
      if discovered.None? {
        r := UserStep(None, NotLoggedIn);
        return;
      }
      r := Form("select_vehicle", errors);
    }

    /**
     * `async_step_select_instruments`: without input, the form with every
     * instrument of the chosen vehicle preselected; with input, drop the
     * vehicle list, default an empty name to the VIN, abort when the VIN is
     * already configured, else create the entry.
     */
    method SelectInstrumentsStep(userInput: Option<Value>, configuredIds: set<string>) returns (r: FlowResult)
      requires Valid()
      requires discovered.Some? && VEHICLE in initInfo && initInfo[VEHICLE].Str?
      requires initInfo[VEHICLE].s in discovered.value
      requires userInput.Some? ==> NAME in initInfo
      modifies this
      ensures Valid() && entry == old(entry)
      ensures userInput.None? ==>
        unchanged(this)
        && r == SelectForm("select_instruments", errors, InstrumentNames(discovered.value[initInfo[VEHICLE].s]),
                           InstrumentNames(discovered.value[initInfo[VEHICLE].s]).Keys)
      ensures userInput.Some? ==>
        var vin := old(initInfo)[VEHICLE].s;
        var names := InstrumentNames(old(discovered).value[vin]);
        discovered.None? && initInfo == CreatedData(old(initInfo))
        && errors == old(errors) && connection == old(connection) && task == old(task)
        && r == (if vin in configuredIds then Abort("already_configured")
                 else CreateEntry(initInfo[NAME], initInfo, CreatedOptions(userInput.value, names)))
    {
      var vin := initInfo[VEHICLE].s;
      var names := InstrumentNames(discovered.value[vin]);
      if userInput.Some? {
        discovered := None;
        if !Truthy(initInfo[NAME]) {
          initInfo := initInfo[NAME := initInfo[VEHICLE]];
        }
        if vin in configuredIds {
          return Abort("already_configured");
        }
        return CreateEntry(initInfo[NAME], initInfo, CreatedOptions(userInput.value, names));
      }
      r := SelectForm("select_instruments", errors, names, names.Keys);
    }

    /**
     * `async_step_reauth`: look the entry up by the flow context's
     * `entry_id`, then run the confirmation step without input.
     */
    method ReauthStep(contextEntryId: Option<string>, entries: map<string, ConfigEntry>) returns (r: FlowResult)
      modifies this`entry, ReauthEntry(contextEntryId, entries)
      ensures entry == ReauthEntry(contextEntryId, entries)
      ensures entry == null ==> r == Failed("AssertionError")
      ensures entry != null ==> r == (if USERNAME in entry.data then Form("reauth_confirm", map[]) else Failed("KeyError"))
      ensures forall e | e in entries.Values :: e.data == old(e.data) && e.options == old(e.options) && e.version == old(e.version)
    {
      entry := ReauthEntry(contextEntryId, entries);
      r := ReauthConfirmStep(None, ReauthRejected);
    }

    /**
     * `async_step_reauth_confirm`: with credentials, log in (the region is
     * read from the entry's data first, so a missing one raises); an accepted
     * login writes them into the entry's data and aborts with
     * `reauth_successful`, a raised or rejected one shows the form again
     * with `cannot_connect`. The form needs an entry holding a username.
     */
    method ReauthConfirmStep(credentials: Option<(Value, Value)>, portal: ReauthOutcome) returns (r: FlowResult)
      modifies entry
      ensures entry == null ==> r == Failed("AssertionError")
      ensures entry != null ==> entry.version == old(entry.version) && entry.options == old(entry.options)
      ensures entry != null && credentials.Some? && REGION !in entry.data ==>
        r == Failed("KeyError") && entry.data == old(entry.data)
      ensures entry != null && credentials.Some? && REGION in old(entry.data) && portal == ReauthAccepted ==>
        entry.data == old(entry.data)[USERNAME := credentials.value.0][PASSWORD := credentials.value.1]
        && r == Abort("reauth_successful")
      ensures entry != null && !(credentials.Some? && REGION in old(entry.data) && portal == ReauthAccepted) ==>
        entry.data == old(entry.data)
      ensures entry != null && credentials.Some? && REGION in entry.data && portal != ReauthAccepted ==>
        r == (if USERNAME in entry.data then Form("reauth_confirm", map["base" := CANNOT_CONNECT]) else Failed("KeyError"))
      ensures entry != null && credentials.None? ==>
        r == (if USERNAME in entry.data then Form("reauth_confirm", map[]) else Failed("KeyError"))
    {
      var errs: map<string, string> := map[];
      if credentials.Some? {
        if entry == null {
          return Failed("AssertionError");
        }
        if REGION !in entry.data {
          return Failed("KeyError");
        }
        if portal == ReauthAccepted {
          entry.data := entry.data[USERNAME := credentials.value.0][PASSWORD := credentials.value.1];
          return Abort("reauth_successful");
        }
        errs := errs["base" := CANNOT_CONNECT];
      }
      if entry == null {
        return Failed("AssertionError");
      }
      if USERNAME !in entry.data {
        return Failed("KeyError");
      }
      r := Form("reauth_confirm", errs);
    }
  }

  /** `async_get_entry(self.context.get("entry_id"))`: the entry with that id, or `None`. */
  function ReauthEntry(contextEntryId: Option<string>, entries: map<string, ConfigEntry>): (e: ConfigEntry?)
    ensures e != null <==> contextEntryId.Some? && contextEntryId.value in entries
    ensures e != null ==> e == entries[contextEntryId.value]
  {
    if contextEntryId.Some? && contextEntryId.value in entries then entries[contextEntryId.value] else null
  }

  /**
   * The reauthentication started at setup passes the entry as the flow's
   * data and no `entry_id` in its context, so the lookup finds no entry.
   */
  lemma ReauthFromSetupFindsNoEntry(entries: map<string, ConfigEntry>)
    ensures ReauthEntry(None, entries) == null
  {
  }

  // ---------------------------------------------------------------- options flow

  /** `set(v)`: the items of a list of hashable values, the keys of a dict, the characters of a string; `None` where Python raises. */
  function ResourceSet(v: Value): (s: Option<set<Value>>)
    ensures s.Some? <==> v.Obj? || v.Str? || (v.Arr? && forall k :: 0 <= k < |v.items| ==> IsScalar(v.items[k]))
    ensures v.Arr? && s.Some? ==> forall x :: x in s.value <==> x in v.items
    ensures v.Obj? ==> s == Some(set k | k in v.fields :: Str(k))
  {
    match v
    case Arr(items) => if forall k :: 0 <= k < |items| ==> IsScalar(items[k]) then Some(set x | x in items) else None
    case Obj(fields) => Some(set k | k in fields :: Str(k))
    case Str(s) => Some(set k | 0 <= k < |s| :: Str([s[k]]))
    case _ => None
  }

  /** The new selection as a set of values. */
  function Chosen(resources: seq<string>): (s: set<Value>)
    ensures forall x :: x in s <==> x.Str? && x.s in resources
  {
    set r | r in resources :: Str(r)
  }

  /** `recreate_entities`: some resource was removed, or the conversion changed. */
  function Recreate(before: set<Value>, after: set<Value>, oldConvert: Value, newConvert: Value): (recreate: bool)
    ensures recreate <==> (exists x :: x in before && x !in after) || oldConvert != newConvert
  {
    assert forall x :: x in before && x !in after ==> x in before - after;
    before - after != {} || oldConvert != newConvert
  }

  /** Only adding resources, under the same conversion, never recreates entities. */
  lemma AddingDoesNotRecreate(before: set<Value>, after: set<Value>, convert: Value)
    requires before <= after
    ensures !Recreate(before, after, convert, convert)
  {
  }

  /** The options written: every existing key kept, `resources` and `available_resources` overwritten. */
  function MergedOptions(options: map<string, Value>, resources: Value, available: Value): (r: map<string, Value>)
    ensures r.Keys == options.Keys + {RESOURCES, AVAILABLE_RESOURCES}
    ensures forall k :: k in options && k != RESOURCES && k != AVAILABLE_RESOURCES ==> r[k] == options[k]
    ensures r[RESOURCES] == resources && r[AVAILABLE_RESOURCES] == available
  {
    options[RESOURCES := resources][AVAILABLE_RESOURCES := available]
  }

  /** The entry data: the old data with the first options step's input merged over it. */
  function MergedData(data: map<string, Value>, input: map<string, Value>): (r: map<string, Value>)
    ensures r.Keys == data.Keys + input.Keys
    ensures forall k :: k in input ==> r[k] == input[k]
    ensures forall k :: k in data && k !in input ==> r[k] == data[k]
  {
    data + input
  }

  /**
   * `selected`: the available attributes found (`in`) in the stored
   * resources; `None` for the `TypeError` of a stored value `in` cannot search.
   */
  function Preselected(names: map<string, string>, resources: Value): (s: Option<set<string>>)
    ensures s.None? <==> names != map[] && !IsContainer(resources)
    ensures s.Some? ==> forall a :: a in s.value <==> a in names && Contains(resources, a)
  {
    if names == map[] then Some({})
    else if !IsContainer(resources) then None
    else Some(set a | a in names && Contains(resources, a))
  }

  /** For a stored list of attribute names the preselection is its intersection with the available attributes. */
  lemma PreselectedOfList(names: map<string, string>, stored: seq<string>)
    ensures var s := Preselected(names, Arr(seq(|stored|, k requires 0 <= k < |stored| => Str(stored[k]))));
      s.Some? && forall a :: a in s.value <==> a in names && a in stored
  {
    var items := seq(|stored|, k requires 0 <= k < |stored| => Str(stored[k]));
    forall a | a in names
      ensures Contains(Arr(items), a) <==> a in stored
    {
      if a in stored {
        var k :| 0 <= k < |stored| && stored[k] == a;
        assert items[k] == Str(a);
      }
    }
  }

  /** `VolkswagenCarnetOptionsFlowHandler`. */
  class OptionsFlow {
    const entry: ConfigEntry
    var errors: map<string, string>
    /** The first step's input. */
    var data: map<string, Value>

    constructor (entry: ConfigEntry)
      ensures this.entry == entry && errors == map[] && data == map[]
    {
      this.entry := entry;
      errors := map[];
      data := map[];
    }

    /** `async_step_init`: the user step without input. */
    method InitStep(stored: Option<Coordinator>, domainData: map<string, Option<Coordinator>>) returns (r: FlowResult)
      modifies this`data, entry
      ensures unchanged(this) && unchanged(entry)
      ensures r == (if REGION in entry.data then Form("user", map[]) else Failed("KeyError"))
    {
      r := UserStep(None, stored, domainData);
    }

    /**
     * `async_step_user`: without input, the options form, whose region
     * default reads the entry's data eagerly and raises when it has none;
     * with input, keep it and go on to the instrument step, which locates the
     * vehicle through the entry's coordinator.
     */
    method UserStep(userInput: Option<map<string, Value>>, stored: Option<Coordinator>,
                    domainData: map<string, Option<Coordinator>>) returns (r: FlowResult)
      modifies this`data, entry
      ensures unchanged(entry)
      ensures userInput.None? ==>
        data == old(data) && r == (if REGION in entry.data then Form("user", map[]) else Failed("KeyError"))
      ensures userInput.Some? ==> data == userInput.value && r == SelectStepForm(entry, errors, stored, domainData)
    {
      if userInput.None? {
        if REGION !in entry.data {
          return Failed("KeyError");
        }
        return Form("user", map[]);
      }
      data := userInput.value;
      var recreate;
      r, recreate := SelectInstrumentsStep(None, stored, domainData);
    }

    /**
     * `async_step_select_instruments`, with the coordinator found from the
     * entry itself. With input: entities are recreated exactly when a stored
     * resource was dropped or the conversion changed, the data gets the first
     * step's input merged in, and the options keep every key while
     * `resources` and `available_resources` are replaced.
     */
    method SelectInstrumentsStep(userInput: Option<seq<string>>, stored: Option<Coordinator>,
                                 domainData: map<string, Option<Coordinator>>)
      returns (r: FlowResult, recreate: bool)
      modifies entry
      ensures userInput.None? ==> unchanged(entry) && !recreate && r == SelectStepForm(entry, errors, stored, domainData)
      ensures userInput.Some? ==>
        match SelectStepVehicle(entry.entryId, entry.domain, stored, domainData)
        case Err(e) => r == Failed(e) && !recreate && unchanged(entry)
        case Ok(v) =>
          match ResourceSet(GetOr(old(entry.options), RESOURCES, Arr([])))
          case None => r == Failed("TypeError") && !recreate && unchanged(entry)
          case Some(oldResources) =>
            recreate == Recreate(oldResources, Chosen(userInput.value),
                                 GetOr(old(entry.data), CONVERT, Str(NO_CONVERSION)),
                                 GetOr(data, CONVERT, Str(NO_CONVERSION)))
            && entry.data == MergedData(old(entry.data), data)
            && entry.options == MergedOptions(old(entry.options), StrList(userInput.value),
                                              NamesValue(InstrumentNames(v.instruments)))
            && entry.version == old(entry.version)
            && r == CreateOptions(Str(""), entry.options)
    {
      recreate := false;
      var vehicle := SelectStepVehicle(entry.entryId, entry.domain, stored, domainData);
      if vehicle.Err? {
        return Failed(vehicle.error), false;
      }
      var names := InstrumentNames(vehicle.value.instruments);
      if userInput.None? {
        r := SelectStepForm(entry, errors, stored, domainData);
        return;
      }
      var oldResources := ResourceSet(GetOr(entry.options, RESOURCES, Arr([])));
      if oldResources.None? {
        return Failed("TypeError"), false;
      }
      var newResources := Chosen(userInput.value);
      var oldConvert := GetOr(entry.data, CONVERT, Str(NO_CONVERSION));
      var newConvert := GetOr(data, CONVERT, Str(NO_CONVERSION));
      recreate := Recreate(oldResources.value, newResources, oldConvert, newConvert);
      entry.data := MergedData(entry.data, data);
      entry.options := MergedOptions(entry.options, StrList(userInput.value), NamesValue(names));
      r := CreateOptions(Str(""), entry.options);
    }
  }

  /** A list of strings as stored in the options. */
  function StrList(xs: seq<string>): (v: Value)
    ensures v.Arr? && |v.items| == |xs| && forall k :: 0 <= k < |xs| ==> v.items[k] == Str(xs[k])
  {
    Arr(seq(|xs|, k requires 0 <= k < |xs| => Str(xs[k])))
  }

  /** The error text of a failed coordinator lookup. */
  function LookupMessage(e: LookupError): string {
    match e
    case UnknownEntity => "Unknown entity"
    case LookupFailed => "lookup failed"
  }

  /** The options flow's vehicle: the entry's coordinator, then `get_vehicle` on it. */
  function SelectStepVehicle(entryId: string, domain: string, stored: Option<Coordinator>,
                             domainData: map<string, Option<Coordinator>>): (r: Result<Vehicle, string>)
    reads set c | c in domainData.Values && c.Some? :: c.value
    reads if stored.Some? then {stored.value} else {}
    ensures var c := CoordinatorOfEntry(EntryView(entryId, domain, stored), domainData);
      && (c.Ok? ==> r == GetVehicle(c.value.vehicles, c.value.vin))
      && (c.Err? ==> r == Err(LookupMessage(c.error)))
  {
    match CoordinatorOfEntry(EntryView(entryId, domain, stored), domainData)
    case Err(e) => Err(LookupMessage(e))
    case Ok(c) => GetVehicle(c.vehicles, c.vin)
  }

  /** The instrument form: every instrument of the vehicle offered, the stored ones preselected. */
  function SelectStepForm(entry: ConfigEntry, errors: map<string, string>, stored: Option<Coordinator>,
                          domainData: map<string, Option<Coordinator>>): (r: FlowResult)
    reads entry
    reads set c | c in domainData.Values && c.Some? :: c.value
    reads if stored.Some? then {stored.value} else {}
  {
    match SelectStepVehicle(entry.entryId, entry.domain, stored, domainData)
    case Err(e) => Failed(e)
    case Ok(v) =>
      var names := InstrumentNames(v.instruments);
      match Preselected(names, GetOr(entry.options, RESOURCES, Arr([])))
      case None => Failed("TypeError")
      case Some(s) => SelectForm("select_instruments", errors, names, s)
  }

  /**
   * As written, the options flow hands the config entry to `get_coordinator`,
   * which looks it up in the device registry: whatever the registry holds,
   * the lookup fails before any coordinator is reached.
   */
  lemma OptionsFlowLookupAsWritten<C>(registry: map<string, DeviceEntry>, entryId: string,
                                      entries: map<string, EntryView<C>>, domainData: map<string, Option<C>>)
    ensures GetCoordinator(LookupDevice(registry, EntryObject(entryId)), entries, domainData) == Err(LookupFailed)
  {
  }

  /** Looked up from the entry itself, a set-up entry of this domain yields its coordinator. */
  lemma OptionsFlowLookupOfSetUpEntry(entryId: string, c: Coordinator, domainData: map<string, Option<Coordinator>>)
    requires entryId in domainData && domainData[entryId] == Some(c)
    ensures CoordinatorOfEntry(EntryView(entryId, DOMAIN, None), domainData) == Ok(c)
  {
  }
}
