# Volkswagen Carnet for Home Assistant, modelled in Dafny

This project models the parts of the Volkswagen Carnet Home Assistant
integration that are plain logic: they decide values, keep state and
move between steps. It does not model the parts that talk to the Carnet
web portal or to Home Assistant itself. There are two groups.

**The legacy `volkswagen_carnet` component.** `VWCarnet` keeps a table
from VIN to vehicle record (`carnet.dfy`).
- A record is created from `_vehicle_template`.
- The enrollment list and the two vehicle lists of `_carnet_get_vehicles`
  merge into the table.
- Each row is polled by `_carnet_update_vehicle_status`, and the status
  payloads are mapped field by field into the record:
  - the door is locked iff every `lockData` value is 2;
  - the charging time is hours·3600 + minutes·60, stored only while
    charging;
  - a state flag is off iff its status is `OFF`;
  - a missing field keeps the old value or falls back to `False`.
- Switch states are written with `_set_state` and read back with
  `_switch_get_state`.
- The sensor entity reports `_state`, with every falsy reading shown as
  `None`.

The legacy switch platform (`carnet_switch.dfy`) and binary-sensor
platform (`carnet_binary_sensor.dfy`) are views over that record. The
switch caches the state it last read; the door sensor reads the lock
flag inverted.

**The current `volkswagencarnet` integration.**
- `integration.dfy` (`__init__.py`):
  - the config-entry migration 1 → 2 → 3;
  - the rule for which instruments are enabled at setup;
  - `VolkswagenData.instrument` and `vehicle_name`;
  - the decision whether an entity writes its state;
  - `unique_id` and `available`;
  - the coordinator's `async_login` and `update`;
  - the outcome of unloading.
- `util.py` (`util.dfy`):
  - `get_convert_conf`;
  - `get_vehicle`, whose VIN match ignores case;
  - the `get_coordinator` lookup chain.
- `config_flow.dfy`:
  - the config flow as a state machine: user → login → select_vehicle →
    select_instruments, plus reauth;
  - the options flow: resource set differences, the "recreate entities"
    decision, and option and data merging.

Supporting modules:
- `wrappers.dfy`: `Option` and `Result`.
- `py_value.dfy`: JSON-like values with Python truthiness, `dict.get`,
  subscript chains, `int()`, `str()` of scalars and `in`.
- `text.dfy`: ASCII upper-casing and decimal digits.
- `first_match.dfy`: first-match search.
- `dict_build.dfy`: a dict comprehension in which the last key wins.
- `host.dfy`: the Home Assistant config entry, and the `Instrument` and
  `Vehicle` objects of the external library, as plain records with the
  fields that are read.

Python dict insertion order is kept explicitly. `VWCarnet.order` lists
the table's keys in the order Python iterates them.

## Model

| member | source | states |
|---|---|---|
| Text.UpperIdempotent | custom_components/volkswagencarnet/__init__.py:445 | upper-casing a VIN twice gives the same VIN, so the coordinator's stored VIN is already in the form `get_vehicle` compares against |
| Text.ParseIntRoundTrip | custom_components/volkswagen_carnet.py:518-521 | `int()` reads back every decimal rendering of an integer, so a distance with its dots removed converts to the number it spells |
| Text.DigitsRoundTrip | custom_components/volkswagen_carnet.py:518-521 | the digit string of a natural number has that value (the unsigned half of the `int()` round trip) |
| FirstMatch.FirstWhere | custom_components/volkswagencarnet/util.py:48-54 | the result is None iff no element matches; otherwise it is the element at the first matching index |
| FirstMatch.FirstWhereOfPrefix | custom_components/volkswagencarnet/__init__.py:218-231 | a match in a prefix is found before anything appended after it is looked at |
| DictBuild.LastWins | custom_components/volkswagencarnet/config_flow.py:170-172 | a dict comprehension has exactly the keys of the list, and each key maps to the value of its last occurrence |
| PyValue.Lookup | custom_components/volkswagen_carnet.py:440-555 | an empty subscript chain yields the value itself; a chain that succeeds went through a dict holding its first key |
| Carnet.Template | custom_components/volkswagen_carnet.py:104-135 | a new record copies vin, enrollmentPin and vehicleName, is not initialized, and holds `False` in every other field |
| Carnet.StateOf | custom_components/volkswagen_carnet.py:621-627 | a switch state is returned exactly for climat, charge and melt |
| Carnet.WithState | custom_components/volkswagen_carnet.py:588-594 | the named switch reads back the new state, every other switch reads as before, and nothing but the switch states changes |
| Carnet.ChargingSeconds | custom_components/volkswagen_carnet.py:498-509 | a time is computed iff both the hour and the minute field are present and `int()` converts them; it is hours·3600 + minutes·60, a whole number of minutes |
| Carnet.WithoutDots | custom_components/volkswagen_carnet.py:519 | the result holds no dot, equals the input when it had none, and holds every other character of the input as often as the input does |
| Carnet.WithoutDotsAppend | custom_components/volkswagen_carnet.py:519 | removing dots from two joined strings joins the two results, so the remaining characters keep their order |
| Carnet.DotIgnored | custom_components/volkswagen_carnet.py:519 | a dot between two parts reads as the two parts joined |
| Carnet.DistanceReadsDottedNumber | custom_components/volkswagen_carnet.py:517-521 | a distance string that spells a number once its dots are removed is stored as that number |
| Carnet.DoorLocked | custom_components/volkswagen_carnet.py:531-545 | the loop leaves the door locked iff every `lockData` value is 2 (true when it is empty); a missing `lockData` gives unlocked |
| Carnet.ReadReport | custom_components/volkswagen_carnet.py:436-555 | reading poll time, location, inspection, distance, connection time, door and parking lights in source order gives the report of the specification function |
| Carnet.ReadEManager | custom_components/volkswagen_carnet.py:447-509 | reading power, battery, current, temperature, climatisation, range and charging time in source order gives the readings of the specification function |
| Carnet.ApplyStatus | custom_components/volkswagen_carnet.py:436-582 | the whole field mapping of one successful poll equals the specified updated record |
| Carnet.PollRecord | custom_components/volkswagen_carnet.py:389-585 | a failed request changes nothing and reports failure; otherwise the row is initialized and updated; stored charging times stay whole minutes |
| Carnet.PolledWellFormed | custom_components/volkswagen_carnet.py:498-509 | every poll keeps the stored charging time `False` or whole minutes |
| Carnet.StatusRules | custom_components/volkswagen_carnet.py:436-582 | after a successful poll: poll time set, identity untouched, charging time from the previous charge state, each flag off iff its status is `OFF`, door from `lockData` |
| Carnet.ChargingTimeUsesPreviousState | custom_components/volkswagen_carnet.py:498-582 | a poll that reports `CHARGING` for a vehicle recorded as not charging sets the flag but stores `False` as the charging time |
| Carnet.MissingFields | custom_components/volkswagen_carnet.py:440-582 | with every field missing, the kept fields are unchanged and the others fall back to `False` |
| Carnet.EnrolledKeys | custom_components/volkswagen_carnet.py:353-356 | enrollment adds exactly the listed VINs to the table |
| Carnet.EnrolledKeepsOthers | custom_components/volkswagen_carnet.py:353-356 | enrollment leaves the rows of VINs it does not list unchanged |
| Carnet.EnrichedKeys | custom_components/volkswagen_carnet.py:360-376 | enrichment never adds a row |
| Carnet.EnrichedKeepsOthers | custom_components/volkswagen_carnet.py:360-376 | enrichment leaves the rows of VINs it does not list unchanged |
| Carnet.EnrichedKeepsState | custom_components/volkswagen_carnet.py:360-376 | enrichment changes only the five copied model fields and keeps vin, pin and name |
| Carnet.PolledOverAt | custom_components/volkswagen_carnet.py:385-387 | the status pass polls each listed row exactly once with its own outcome and leaves the others as they were |
| Carnet.AllFetchedMeans | custom_components/volkswagen_carnet.py:430-434 | the login flag survives the status pass iff no listed vehicle's request failed |
| Carnet.VWCarnet.constructor | custom_components/volkswagen_carnet.py:95-102 | the table starts empty and the component is logged out |
| Carnet.VWCarnet.SwitchGetState | custom_components/volkswagen_carnet.py:621-627 | a state is returned iff the switch name is recognised |
| Carnet.VWCarnet.SetState | custom_components/volkswagen_carnet.py:588-594 | only that row's switch changes, an unknown switch changes nothing, and `_switch_get_state` then reads the stored state back |
| Carnet.VWCarnet.SwitchUpdateState | custom_components/volkswagen_carnet.py:598-619 | starting or stopping climatisation, charging or window heating records the requested state for that switch only |
| Carnet.VWCarnet.UpdateVehicleStatus | custom_components/volkswagen_carnet.py:389-585 | the row becomes the polled record, the result tells whether the request succeeded, and a failure clears the login flag |
| Carnet.VWCarnet.Enroll | custom_components/volkswagen_carnet.py:353-356 | the table and its key order become the enrollment of the listed entries |
| Carnet.VWCarnet.Enrich | custom_components/volkswagen_carnet.py:360-376 | the table becomes the enrichment of the listed entries, in the same key order |
| Carnet.VWCarnet.PollAll | custom_components/volkswagen_carnet.py:385-387 | every row is polled once in table order; the login flag survives iff every request succeeded |
| Carnet.VWCarnet.PollNext | custom_components/volkswagen_carnet.py:386-387 | one more row of the status pass extends the pass by that row |
| Carnet.VWCarnet.GetVehicles | custom_components/volkswagen_carnet.py:349-387 | enrollment, enrichment and the status pass in sequence; a discovery request that raises stops early, clears the login flag and returns `False` |
| Carnet.SensorState | custom_components/volkswagen_carnet.py:653-683 | a truthy reading is reported unchanged, and every falsy reading (`False`, 0, `""`, `None`) is reported as `None` |
| Carnet.ChargingMinutes | custom_components/volkswagen_carnet.py:661-663 | the charging-time sensor shows exactly the stored seconds divided by 60, and `None` when nothing is stored |
| Carnet.ChargingMinutesAfterPoll | custom_components/volkswagen_carnet.py:498-663 | after a poll while charging whose hour and minute fields `int()` converts (numbers or digit strings), the sensor shows hours·60 + minutes |
| Carnet.Pairs | custom_components/switch/volkswagen_carnet.py:30-40 | the setup loops enumerate \|vehicles\|·\|table\| pairs |
| Carnet.PairsFrom | custom_components/binary_sensor/volkswagen_carnet.py:51-60 | every enumerated pair is a listed vehicle with a table entry |
| Carnet.PairsAt | custom_components/binary_sensor/volkswagen_carnet.py:51-60 | pair `i·\|table\| + j` is vehicle `i` with table entry `j` |
| Carnet.EntityName | custom_components/volkswagen_carnet.py:699-701 | the name is `vw_`, then the vehicle as `str()` prints it, then `_` and the entity's own name |
| Carnet.EntityNamesDistinct | custom_components/volkswagen_carnet.py:699-701 | two entities of one vehicle with different names get different entity names |
| Carnet.EntityNamesOfVehiclesDistinct | custom_components/volkswagen_carnet.py:699-701 | one entity of two vehicles that print differently gets two different entity names |
| CarnetSwitch.SwitchesAreKnown | custom_components/switch/volkswagen_carnet.py:9-25 | the table's switch names are the three that `VWCarnet` recognises, each listed once |
| CarnetSwitch.Switch.constructor | custom_components/switch/volkswagen_carnet.py:45-54 | a new switch starts off, so `is_on` is false before the first update |
| CarnetSwitch.Switch.Available | custom_components/switch/volkswagen_carnet.py:66-68 | the cached state string is never empty, so the switch is always available |
| CarnetSwitch.Switch.Name | custom_components/switch/volkswagen_carnet.py:61-63 | the name is `vw_`, then the vehicle as `str()` prints it, then `_` and the switch name |
| CarnetSwitch.SwitchNamesDistinct | custom_components/switch/volkswagen_carnet.py:61-63 | the three switches of one vehicle get pairwise different names |
| CarnetSwitch.Switch.Update | custom_components/switch/volkswagen_carnet.py:89-91 | after `update`, `is_on` holds iff the backend reports the switch as on |
| CarnetSwitch.Switch.TurnOn | custom_components/switch/volkswagen_carnet.py:80-82 | forwards `True` for this switch and vehicle to the backend, so the backend then reads it as on; the cached state, the table order, the login flag and (for an unknown switch) the table stay as they were |
| CarnetSwitch.Switch.TurnOff | custom_components/switch/volkswagen_carnet.py:85-87 | forwards `False` for this switch and vehicle to the backend, so the backend then reads it as off; the cached state, the table order, the login flag and (for an unknown switch) the table stay as they were |
| CarnetSwitch.SetupPlatform | custom_components/switch/volkswagen_carnet.py:28-40 | nothing without discovery info; otherwise one new, off switch per (vehicle, switch) pair, in order |
| CarnetBinarySensor.SetupPlatform | custom_components/binary_sensor/volkswagen_carnet.py:48-60 | nothing without discovery info; otherwise exactly one sensor per (vehicle, table entry), three per vehicle |
| CarnetBinarySensor.SetupPlatformAt | custom_components/binary_sensor/volkswagen_carnet.py:51-60 | every vehicle gets each of the three sensors |
| CarnetBinarySensor.IsOn | custom_components/binary_sensor/volkswagen_carnet.py:64-78 | power and parking lights as stored, door locked inverted, and `None` for any other name |
| CarnetBinarySensor.SetupDeviceClasses | custom_components/binary_sensor/volkswagen_carnet.py:10-83 | each created sensor has the class of its table entry: power for external power, door for the door, light for the parking lights |
| CarnetBinarySensor.SetupSensorsReport | custom_components/binary_sensor/volkswagen_carnet.py:10-83 | every created sensor reports a state, and its class is power, door or light |
| CarnetBinarySensor.TemplateReadings | custom_components/binary_sensor/volkswagen_carnet.py:64-78 | a freshly enrolled vehicle shows no power, no parking lights, and its door open |
| CarnetBinarySensor.DoorSensorAfterPoll | custom_components/binary_sensor/volkswagen_carnet.py:69-74 | after a poll the door sensor is on (open) iff some `lockData` value is not 2 |
| CarnetBinarySensor.PowerSensorAfterPoll | custom_components/binary_sensor/volkswagen_carnet.py:67-68 | after a poll the power sensor is on iff a supply state other than `UNAVAILABLE` was reported |
| Util.GetConvertConf | custom_components/volkswagencarnet/util.py:15-20 | the result is scandinavian_miles iff the option flag is truthy, or it is absent and the data flag is truthy; otherwise it is no_conversion |
| Util.ConvertConfOptionWins | custom_components/volkswagencarnet/util.py:18 | once the option is set, the data value does not matter |
| Util.ConvertConfDefault | custom_components/volkswagencarnet/util.py:18 | with the flag in neither place, no conversion |
| Util.GetVehicle | custom_components/volkswagencarnet/util.py:42-55 | error "Vehicle not found" iff no upper-cased VIN matches; otherwise the first matching vehicle |
| Util.GetVehicleIgnoresCase | custom_components/volkswagencarnet/util.py:48-52 | a vehicle is found by its upper-cased VIN whatever the case of its stored VIN, unless an earlier vehicle matches |
| Util.CoordinatorOfEntry | custom_components/volkswagencarnet/util.py:29-38 | another domain fails; a coordinator stored in the entry wins; otherwise the one held under the entry id in the integration's data; it fails when both are missing |
| Util.GetCoordinator | custom_components/volkswagencarnet/util.py:23-39 | an unknown device fails; otherwise the lookup continues from the device's first config entry |
| Util.LookupDevice | custom_components/volkswagencarnet/util.py:25-26 | the device registry finds a device id it holds, and never finds a config entry object |
| Util.GetCoordinatorOfDevice | custom_components/volkswagencarnet/util.py:23-39 | for a registered device the result is the lookup of its first config entry |
| Integration.Migrate | custom_components/volkswagencarnet/__init__.py:127-157 | migration fails only for a version-1 entry without `resources`, and says which version the entry ends at |
| Integration.MigrateEntry | custom_components/volkswagencarnet/__init__.py:127-157 | the step-by-step migration of the entry's version, data and options equals the migration function |
| Integration.MigrateFromOne | custom_components/volkswagencarnet/__init__.py:134-153 | a version-1 entry ends at version 3, with `resources` moved from data into options and `convert` gone |
| Integration.MigrationDropsConvert | custom_components/volkswagencarnet/__init__.py:142-153 | a completed migration from version 1 or 2 ends at version 3 with no `convert` option |
| Integration.MigrationIdempotent | custom_components/volkswagencarnet/__init__.py:134-153 | migrating a migrated entry again changes nothing |
| Integration.FailedMigrationRetry | custom_components/volkswagencarnet/__init__.py:134-153 | without `resources` a version-1 entry stops at version 2 and reports failure; the next attempt completes from there |
| Integration.PlatformsOf | custom_components/volkswagencarnet/__init__.py:110-113 | every platform set up is one of `COMPONENTS` |
| Integration.SetupInstruments | custom_components/volkswagencarnet/__init__.py:96-113 | the loop adds exactly the selected instruments and yields the platforms of the selection |
| Integration.SelectionWithoutOptions | custom_components/volkswagencarnet/__init__.py:96-102 | with no stored resources, every instrument of a known component is selected |
| Integration.UnlistedInstrumentFollowsPreference | custom_components/volkswagencarnet/__init__.py:96-111 | an instrument neither enabled nor already offered is selected iff new entities are not disabled |
| Integration.VolkswagenData.constructor | custom_components/volkswagencarnet/__init__.py:206-214 | no instruments yet; names from the configuration; the given coordinator |
| Integration.VolkswagenData.InstrumentOf | custom_components/volkswagencarnet/__init__.py:216-236 | with a coordinator, the first match in its data; without one, a match from the instrument set; the error names component and attribute exactly when nothing matches |
| Integration.VehicleName | custom_components/volkswagencarnet/__init__.py:238-245 | a configured string name wins, even an empty one; otherwise the VIN |
| Integration.UnnamedEntryGivesEmptyName | custom_components/volkswagencarnet/__init__.py:206-245 | with no name in the configuration, the name is the empty string |
| Integration.ShouldWrite | custom_components/volkswagencarnet/__init__.py:290-303 | the state is skipped iff a previous state is stored with the same refresh time and the same string of `state or "unknown"`; a state stored as `unknown` thus hides a later falsy state |
| Integration.ZeroStateRewritten | custom_components/volkswagencarnet/__init__.py:294 | a state of 0 whose previous string is "0" is written again by the decision as written, and skipped by the intended one |
| Integration.FalsyStateAlwaysRewritten | custom_components/volkswagencarnet/__init__.py:290-296 | as written, a falsy state other than `None` is written again even when exactly that state is stored under the same refresh time |
| Integration.IntendedSkipsStoredState | custom_components/volkswagencarnet/__init__.py:285-295 | with the intended decision, once a state is stored with its refresh time, a state is skipped under that refresh time iff it stores as the same string |
| Integration.WriteDecisionsAgree | custom_components/volkswagencarnet/__init__.py:290-295 | for truthy or missing states the two decisions agree |
| Integration.UniqueId | custom_components/volkswagencarnet/__init__.py:428-431 | the id is as long as the three parts and two separators together; which entities it tells apart is stated by `UniqueIdInjective` |
| Integration.UniqueIdInjective | custom_components/volkswagencarnet/__init__.py:428-431 | for a VIN and a component without dashes, different entities get different ids |
| Integration.Available | custom_components/volkswagencarnet/__init__.py:421-426 | unavailable iff there is a coordinator whose last update failed |
| Integration.Coordinator.constructor | custom_components/volkswagencarnet/__init__.py:441-458 | the coordinator's VIN is the entry's vehicle upper-cased; nothing is loaded yet |
| Integration.Coordinator.Login | custom_components/volkswagencarnet/__init__.py:504-517 | logged in if it was already, or the login succeeded; the result is the login state |
| Integration.Coordinator.Update | custom_components/volkswagencarnet/__init__.py:519-531 | `None` when the update fails or no VIN matches; otherwise the vehicle `get_vehicle` finds |
| Integration.UnloadCoordinator | custom_components/volkswagencarnet/__init__.py:180-195 | reports whether every platform unloaded; the entry's slot is removed iff so; other slots untouched |
| Integration.UnloadAfterSetup | custom_components/volkswagencarnet/__init__.py:183-191 | after setup, unloading succeeds iff each platform that was set up unloads |
| Flow.VehiclesByVin | custom_components/volkswagencarnet/config_flow.py:138-141 | the keys are the discovered VINs, and each maps to the instruments of the last vehicle with that VIN |
| Flow.InstrumentNames | custom_components/volkswagencarnet/config_flow.py:170-172 | the keys are the instruments' attributes, and each maps to the name of the last instrument with that attribute |
| Flow.NamesValue | custom_components/volkswagencarnet/config_flow.py:183-190 | the stored `available_resources` is a dict with the same attributes and names |
| Flow.AfterLoginTask | custom_components/volkswagencarnet/config_flow.py:96-112 | a login that raised or did not log in sets `base` to cannot_connect; a successful one leaves the errors alone |
| Flow.CreatedData | custom_components/volkswagencarnet/config_flow.py:175-178 | the entry data is the collected data with an empty name replaced by the VIN |
| Flow.CreatedNameIsSet | custom_components/volkswagencarnet/config_flow.py:175-178 | for a non-empty VIN, the created entry carries a non-empty name |
| Flow.CreatedOptions | custom_components/volkswagencarnet/config_flow.py:183-190 | the options hold exactly the chosen resources and the available resources, each attribute mapped to its name |
| Flow.ConfigFlow.constructor | custom_components/volkswagencarnet/config_flow.py:65-71 | the flow starts with nothing collected, no errors, no connection and no login task |
| Flow.ConfigFlow.UserStep | custom_components/volkswagencarnet/config_flow.py:73-94 | without input the user form is shown; with input the errors reset, the login task starts and progress is shown |
| Flow.ConfigFlow.LoginStep | custom_components/volkswagencarnet/config_flow.py:114-143 | the first entry starts the login task; the next awaits it and goes back to `user` on errors, or on to `select_vehicle` with the vehicles keyed by VIN |
| Flow.ConfigFlow.RunLoginTask | custom_components/volkswagencarnet/config_flow.py:96-112 | the task finishes and sets cannot_connect unless logged in |
| Flow.ConfigFlow.SelectVehicleStep | custom_components/volkswagencarnet/config_flow.py:145-163 | with nothing discovered the flow restarts at `user`; a chosen vehicle is recorded and leads to the instrument form for that vehicle, with errors, connection and task unchanged |
| Flow.ConfigFlow.SelectInstrumentsStep | custom_components/volkswagencarnet/config_flow.py:165-203 | without input the instrument form; with input an abort for a configured VIN, otherwise an entry with the created data and options; errors, connection and login task stay as they were |
| Flow.ConfigFlow.ReauthStep | custom_components/volkswagencarnet/config_flow.py:205-209 | the entry is the one the context's `entry_id` names; without one the confirmation step fails its assertion, otherwise it shows the empty reauth form (or fails on a missing username) and changes no entry |
| Flow.ReauthEntry | custom_components/volkswagencarnet/config_flow.py:207-208 | an entry is found iff the context carries an `entry_id` of a known entry, and then it is that entry |
| Flow.ReauthFromSetupFindsNoEntry | custom_components/volkswagencarnet/__init__.py:81-85 | the reauthentication started at setup carries no `entry_id`, so its lookup finds no entry |
| Flow.ConfigFlow.ReauthConfirmStep | custom_components/volkswagencarnet/config_flow.py:211-267 | no entry fails the assertion; credentials with no region in the data fail; accepted credentials are written into the entry's data and the flow aborts as successful; a failed login shows cannot_connect; no input shows the form; only an accepted login changes the entry |
| Flow.ResourceSet | custom_components/volkswagencarnet/config_flow.py:347 | `set()` of the stored resources: list items, dict keys or string characters, and a failure where Python raises |
| Flow.Chosen | custom_components/volkswagencarnet/config_flow.py:348 | the new resources as a set |
| Flow.Recreate | custom_components/volkswagencarnet/config_flow.py:350-363 | entities are recreated iff some resource was removed or the conversion changed |
| Flow.AddingDoesNotRecreate | custom_components/volkswagencarnet/config_flow.py:347-363 | only adding resources under the same conversion never recreates entities |
| Flow.MergedOptions | custom_components/volkswagencarnet/config_flow.py:380-387 | every existing option key is kept; only `resources` and `available_resources` are overwritten |
| Flow.MergedData | custom_components/volkswagencarnet/config_flow.py:370-377 | the entry data is the old data with the first step's input merged over it |
| Flow.Preselected | custom_components/volkswagencarnet/config_flow.py:389-393 | the preselected attributes are exactly the available ones found in the stored resources, and a failure where `in` raises |
| Flow.PreselectedOfList | custom_components/volkswagencarnet/config_flow.py:389-393 | for a stored list the preselection is its intersection with the available attributes |
| Flow.OptionsFlow.constructor | custom_components/volkswagencarnet/config_flow.py:279-284 | the options flow holds its entry, with no errors and no data |
| Flow.OptionsFlow.InitStep | custom_components/volkswagencarnet/config_flow.py:286-288 | the init step is the user step without input: the options form, or a `KeyError` when the entry's data has no region; nothing changes |
| Flow.OptionsFlow.UserStep | custom_components/volkswagencarnet/config_flow.py:290-331 | without input the options form (failing when the entry's data has no region); with input the input is kept for the next step, which is shown |
| Flow.OptionsFlow.SelectInstrumentsStep | custom_components/volkswagencarnet/config_flow.py:333-406 | with input the entry data and options are merged and the recreate decision returned, with the entry's version kept; without input the form with the preselection |
| Flow.StrList | custom_components/volkswagencarnet/config_flow.py:384 | the chosen resources are stored as a list of the same strings in order |
| Flow.SelectStepVehicle | custom_components/volkswagencarnet/config_flow.py:337-341 | when the entry's coordinator is found, the result is what `get_vehicle` finds on it; a failed lookup gives its error message |
| Flow.OptionsFlowLookupAsWritten | custom_components/volkswagencarnet/config_flow.py:337 | passing the config entry where a device id is expected always fails the lookup |
| Flow.OptionsFlowLookupOfSetUpEntry | custom_components/volkswagencarnet/util.py:35-37 | looking up a set-up entry by its own id finds its coordinator |

## Left out

- Web-portal login scraping and every HTTP request: the outcome of each request is a parameter (`Fetch`, `Discovery`, `LoginOutcome`, `ReauthOutcome`, `loginSucceeds`, `updated`).
- The status polling loop with `time.sleep` and its timeout counter (custom_components/volkswagen_carnet.py:397-419): the model starts at the point where the four payloads have been fetched or the request has failed.
- `datetime` parsing and formatting: the poll time is a parameter `now`/`clock`, and the date re-formatting of the last connection time is a parameter `reformat`.
- Home Assistant lifecycle: listeners, the dispatcher, reload, forwarding platform setups, `asyncio.gather` and task scheduling. Clearing the entity registry is returned as the `recreate` flag instead of being performed.
- The current integration's platform adapters, the legacy sensor and device-tracker platforms, `services.py`, `manage/update_manifest.py` and `const.py` (its constants are written inline).
- `_async_update_data`, the dashboard construction, the scan interval of `async_setup_entry`, `VolkswagenData.vehicles` and `async_logout`: these are calls into the external library.
- `int()` accepts only an optional sign and ASCII digits. Whitespace, underscores and floats are not modelled.
- Fractional JSON numbers: the `Value` type has integers but no floats, so a payload field holding a number with a fraction cannot be represented.
- `Flow.CreatedNameIsSet`: holds only for a non-empty VIN. The VIN comes from the portal's list, and nothing in the flow rejects an empty one; an empty VIN with no name gives an entry named `""`.
- Upper-casing is ASCII only.
- `Integration.VolkswagenData.InstrumentOf`: without a coordinator it returns some matching member of the set, not the one Python's set iteration order would reach first.
- Python's `1 == True` equality between dict keys and values: booleans and integers are distinct values in the model. The legacy table's keys are restricted to `None`, integers and strings.
- `Integration.ShouldWrite`: `str()` is modelled for scalars only, so states, previous refresh times and refresh times must be scalars.
- Flow form inputs are assumed to pass the schema validation Home Assistant applies before a step runs. This is the `requires` of the flow steps.
- The abort that happens when awaiting the login task itself raises.
- The form defaults and schema of the options flow's user step: only whether building them raises is modelled.
- `Flow.ConfigFlow.ReauthStep`: the one start of a reauthentication visible in the integration (custom_components/volkswagencarnet/__init__.py:81-85) passes the entry as data and no `entry_id` in the context. As modelled, that flow therefore ends in the assertion at config_flow.py:255. Whether Home Assistant adds the `entry_id` itself is outside the model.
- The entry reload after a successful reauthentication, and a failure of that reload (which the source reports as cannot_connect after the data has been written).
- Request failures in the legacy component: the model treats every failed request as the caught `HTTPError`. As written, the `except` clauses catch `urllib.error.HTTPError` (custom_components/volkswagen_carnet.py:13), which the `requests` library does not raise. A failed request, a missing payload key or a missing dashboard URL would then escape and end the whole status pass at that row, where `PollAll` goes on with the remaining rows.
- `Carnet.VWCarnet.GetVehicles`: `ok` stands for a result other than `False`. The source returns `False` after a failed discovery request and otherwise falls off the end and returns `None`; its caller ignores the result. `UpdateVehicleStatus` is read the same way.
- The legacy login flag is set to `False` in the constructor and after failures but never set to `True` anywhere in the component as shown. The ensures about it hold, but with the flag only ever false.
- `Util.GetCoordinator`: the device's config entries are a set in the source, and `list(...)[0]` takes whichever Python lists first. The model takes the first element of a sequence.
- `Flow.OptionsFlow.SelectInstrumentsStep`: this uses the corrected coordinator lookup (see Findings), not the call as written.

## Findings

| source | as written | input that shows it | evidently intended | confidence | as-written member | corrected member |
|---|---|---|---|---|---|---|
| custom_components/volkswagencarnet/__init__.py:294 | `str(self.state or STATE_UNKNOWN) != str(prev.state)` compares `"unknown"` against the stored string whenever the state is falsy | state `0` with the previous state stored as `"0"` and an unchanged refresh time: the state is written again on every update | skip the write when the stored string of the state is unchanged | medium, not executed | Integration.ZeroStateRewritten | Integration.ShouldWriteIntended |
| custom_components/volkswagencarnet/config_flow.py:337 | `get_coordinator(self.hass, self._config_entry)` passes a config entry where util.py:23-27 looks up a device id in the device registry | any options flow that reaches `select_instruments`: the registry finds no device, and the lookup raises before the form is shown | look up the coordinator of this config entry directly | medium, not executed | Flow.OptionsFlowLookupAsWritten | Util.CoordinatorOfEntry |
