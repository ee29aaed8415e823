# Athena integration: config flow and entity projections

This project models the two deterministic parts of the Athena plugin for
a home-automation host. The plugin polls a networked Athena device and
exposes what it reads as entities.

- **The user step of the config flow.** The form schema fills the
  defaults (port 80, scan interval 30) and admits only the three device
  types. `validate_input` then checks, in order, a non-empty host, a port
  in 1..65535, and non-empty credentials. On success it returns the
  title `"Athena <Type> (<host>)"`. `async_step_user` turns each failure
  into one `errors["base"]` key. On success it builds the unique id
  `host + "_" + device_type`. It then aborts when that id is already
  configured, and otherwise creates the entry with the user input as its
  data.
- **The entity platforms.** Sensor, binary sensor, switch, number and
  select entities all read from the coordinator's current snapshot. The
  snapshot is a mapping from field name to an opaque JSON-like `Value`.
  Every entity gets the unique id `entry_id + "_" + type` and a device
  record read once, at construction, with `"Unknown"` fallbacks. Getters
  are `dict.get` lookups. Sensors, binary sensors and switches default to
  None; number and select entities have fixed defaults. The write paths
  (set value, select option, turn on/off) change nothing and only request
  a refresh.

Modules: `Wrappers` (Option, Result), `DeviceData` (values, snapshots,
the coordinator handle, the placeholder payload of `coordinator.py`),
`Entity` (the constructor every platform shares), `ConfigFlow`, `Sensor`,
`BinarySensor`, `Switch`, `Number`, `Select`, and `Integration`. The last
one holds the cross-platform facts: all fourteen type keys are distinct,
so all unique ids within one entry are distinct.

The coordinator is a value `Coordinator(entryId, data, refreshRequested)`.
Entities are only built after the first refresh has succeeded
(`__init__.py:36-45`), so every entity function requires `c.data.Some?`.
An entity always reads its own coordinator (`self.coordinator`), so
each getter also requires the coordinator's entry id to be the one the
entity was built with.

When `device_info` is present but is not a mapping, the source's
`.get("device_info", {}).get(...)` raises AttributeError in the entity
constructor. The model returns `None` from the constructor in that case,
and platform setup then fails too (`Entity.DeviceInfoReadable`).

## Model

| member | source | states |
|---|---|---|
| ConfigFlow.ApplySchema | custom_components/athena/config_flow.py:26-35 | the schema accepts exactly the three device types; a missing port becomes 80 and a missing scan interval 30; every other field passes through |
| ConfigFlow.ValidateInput | custom_components/athena/config_flow.py:38-56 | empty host gives InvalidHost; with a host, InvalidPort iff the port is outside 1..65535; InvalidAuth iff host and port pass and a credential is empty; success iff all pass, with title "Athena " + TitleCase(type) + " (" + host + ")"; never CannotConnect or an unexpected error |
| ConfigFlow.EmptyHostFirst | custom_components/athena/config_flow.py:46-47 | an empty host is rejected with InvalidHost whatever the other fields hold |
| ConfigFlow.ValidationIgnoresTypeAndInterval | custom_components/athena/config_flow.py:38-56 | changing the device type or scan interval never changes whether or why validation fails |
| ConfigFlow.TitleCase | custom_components/athena/config_flow.py:56 | on a lower-case word, `str.title()` keeps the length, upper-cases the first letter and keeps the rest |
| ConfigFlow.DeviceTypesTitled | custom_components/athena/const.py:19-23 | the three device types are lower-case words titled Controller, Monitor, Sensor |
| ConfigFlow.TitleInjective | custom_components/athena/config_flow.py:56 | two forms with different host or device type never get the same title |
| ConfigFlow.ErrorKey | custom_components/athena/config_flow.py:73-83 | each exception maps to one of cannot_connect, invalid_auth, invalid_host, invalid_port, unknown; "unknown" exactly for an unexpected exception |
| ConfigFlow.ErrorKeyInjective | custom_components/athena/config_flow.py:73-83 | different exceptions get different error keys |
| ConfigFlow.SplitAtLastUnderscore | custom_components/athena/config_flow.py:86 | ids of the form prefix + "_" + suffix, with no underscore in either suffix, are equal only when prefixes and suffixes are equal |
| ConfigFlow.UniqueIdInjective | custom_components/athena/config_flow.py:86 | no device type contains "_", so distinct (host, type) pairs get distinct unique ids |
| ConfigFlow.StepUser | custom_components/athena/config_flow.py:64-94 | no input gives the form with no errors; a failed validation gives the form with the single "base" error; a valid input whose id is taken aborts; otherwise the entry is created with the validated title, id host + "_" + type, and the input unchanged as data; end to end, an empty host shows "invalid_host", an out-of-range port "invalid_port", an empty credential "invalid_auth" |
| DeviceData.Get | custom_components/athena/sensor.py:81 | `dict.get(key, default)`: the stored value when the key is present, the default otherwise |
| DeviceData.RequestRefresh | custom_components/athena/number.py:68 | a refresh request keeps the entry id and the snapshot and marks a refresh as requested |
| DeviceData.Placeholder | custom_components/athena/coordinator.py:53-71 | the placeholder payload has a status and a mapping device_info, and no threshold, interval, mode or profile |
| Entity.InfoField | custom_components/athena/sensor.py:62-63 | a device-info field is the nested value when device_info and the field are both present, and "Unknown" when either is missing |
| Entity.NewBase | custom_components/athena/sensor.py:53-64 | the shared constructor succeeds iff device_info is absent or a mapping; it records the coordinator's entry id; unique id entry_id + "_" + type; identifiers {(athena, entry_id)}, name "Athena Device", manufacturer "Athena", model and sw_version read with the Unknown fallback |
| Entity.DeviceInfoShared | custom_components/athena/sensor.py:58-64 | entities built from one snapshot carry the same device record whatever their type |
| Entity.UniqueIdInjective | custom_components/athena/sensor.py:57 | within one entry, equal unique ids mean equal type keys |
| Entity.DistinctKeysDistinctIds | custom_components/athena/sensor.py:57 | distinct type keys give distinct unique ids |
| Sensor.New | custom_components/athena/sensor.py:53-64 | a sensor of the requested type, id entry_id + "_" + key, device model and sw_version with Unknown fallbacks; fails iff device_info is unreadable |
| Sensor.NativeValue | custom_components/athena/sensor.py:78-146 | the reading is snapshot[key] when present and None otherwise, for all five sensor keys |
| Sensor.SetupEntry | custom_components/athena/sensor.py:39-45 | setup creates exactly five sensors, each the constructor's result for temperature, humidity, pressure, signal strength, status in that order |
| Sensor.KeysDistinct | custom_components/athena/sensor.py:39-45 | the five sensor keys are distinct |
| Sensor.UniqueIdsDistinct | custom_components/athena/sensor.py:39-57 | the five sensors come in the setup order and have five distinct unique ids |
| Sensor.DeviceInfoFixedValueLive | custom_components/athena/sensor.py:58-81 | for two snapshots of one entry that report different models, sensors built from each get different device records but the same unique id, while a sensor built from the earlier one reads its value from the later snapshot |
| BinarySensor.New | custom_components/athena/binary_sensor.py:37-48 | a binary sensor of the requested type, id entry_id + "_" + key, model and sw_version with Unknown fallbacks; fails iff device_info is unreadable |
| BinarySensor.IsOn | custom_components/athena/binary_sensor.py:60-93 | is_on is snapshot[key] when present and None otherwise, for online, fault and maintenance |
| BinarySensor.SetupEntry | custom_components/athena/binary_sensor.py:25-29 | setup creates exactly three binary sensors: online, fault, maintenance |
| BinarySensor.UniqueIdsDistinct | custom_components/athena/binary_sensor.py:25-41 | the three binary sensors come in the setup order and have distinct unique ids |
| Switch.New | custom_components/athena/switch.py:35-46 | a switch of the requested type, id entry_id + "_" + key, model and sw_version with Unknown fallbacks; fails iff device_info is unreadable |
| Switch.IsOn | custom_components/athena/switch.py:58-86 | is_on is snapshot["power"] or snapshot["auto_mode"] when present and None otherwise |
| Switch.TurnOn | custom_components/athena/switch.py:63-66 | turning on (power here, auto mode at lines 88-91) keeps the snapshot and only requests a refresh |
| Switch.TurnOff | custom_components/athena/switch.py:68-71 | turning off (power here, auto mode at lines 93-96) keeps the snapshot and only requests a refresh |
| Switch.TurnLeavesStateUnread | custom_components/athena/switch.py:63-96 | turning on and off are the same action, and neither changes what is_on reports |
| Switch.SetupEntry | custom_components/athena/switch.py:24-27 | setup creates exactly two switches: power then auto_mode |
| Switch.UniqueIdsDistinct | custom_components/athena/switch.py:24-39 | the two switches are power then auto mode, with distinct unique ids |
| Number.New | custom_components/athena/number.py:33-44 | a number entity of the requested type, id entry_id + "_" + key, model and sw_version with Unknown fallbacks; fails iff device_info is unreadable |
| Number.NativeValue | custom_components/athena/number.py:60-88 | threshold is snapshot["threshold"] or 50, interval is snapshot["interval"] or 60 |
| Number.SetNativeValue | custom_components/athena/number.py:65-93 | setting a value keeps the snapshot and only requests a refresh |
| Number.SetIgnoresValue | custom_components/athena/number.py:65-93 | the value set is ignored, and the reported value is unchanged afterwards |
| Number.DefaultsOnScale | custom_components/athena/number.py:54-88 | threshold range 0..100 step 1 and interval range 10..300 step 10 hold their defaults on a step |
| Number.NotClamped | custom_components/athena/number.py:60-88 | any integer snapshot value below the declared minimum or above the declared maximum is reported as is |
| Number.SetupEntry | custom_components/athena/number.py:22-25 | setup creates exactly two number entities: threshold then interval |
| Number.UniqueIdsDistinct | custom_components/athena/number.py:37-76 | the ids are entry_id + "_threshold" and entry_id + "_interval", and they differ |
| Select.New | custom_components/athena/select.py:33-44 | a select of the requested type, id entry_id + "_" + key, model and sw_version with Unknown fallbacks; fails iff device_info is unreadable |
| Select.CurrentOption | custom_components/athena/select.py:57-81 | mode is snapshot["mode"] or "automatic", profile is snapshot["profile"] or "normal" |
| Select.SelectOption | custom_components/athena/select.py:62-86 | selecting keeps the snapshot and only requests a refresh |
| Select.SelectIgnoresOption | custom_components/athena/select.py:62-86 | the option selected is ignored, and the reported option is unchanged afterwards |
| Select.OptionsWellFormed | custom_components/athena/select.py:54-81 | each option list has four distinct values, and the default is one of them |
| Select.NoMembershipCheck | custom_components/athena/select.py:57-81 | any text snapshot value outside the option list is reported as is |
| Select.SetupEntry | custom_components/athena/select.py:22-25 | setup creates exactly two selects: mode then profile |
| Select.UniqueIdsDistinct | custom_components/athena/select.py:37-73 | the ids are entry_id + "_mode" and entry_id + "_profile", and they differ |
| Integration.AllKeysDistinct | custom_components/athena/sensor.py:39-45 | the fourteen type keys of the five platforms are pairwise distinct |
| Integration.EntryEntities | custom_components/athena/__init__.py:21-27 | the platforms together add fourteen entities, and succeed iff device_info is readable |
| Integration.EntryUniqueIdsDistinct | custom_components/athena/__init__.py:21-27 | each of the fourteen entities has id entry_id + "_" + its own key, no two share an id, and all carry one device record |
| Integration.PlaceholderCoordinator | custom_components/athena/coordinator.py:53-71 | the placeholder payload after a first refresh is a snapshot whose device_info is readable |
| Integration.PlaceholderReadings | custom_components/athena/coordinator.py:53-71 | on the placeholder payload the threshold reads 50, interval 60, mode "automatic", profile "normal"; temperature, power, fault, model and sw_version read the payload's values |

## Left out

- `api.py`, the HTTP client: network I/O only, and no platform calls it.
- The refresh machinery of `coordinator.py`: the periodic poll, request coalescing and keeping the last good data belong to the host's update coordinator, which is not part of this model. A refresh request is only a flag on the coordinator value. The placeholder payload of `coordinator.py` is kept as a fixture.
- `__init__.py`: setup, unload and reload go through host calls. Only two things are kept: the snapshot is present before entities are built, and the five platforms come in forwarding order.
- `install.py`: filesystem checks and logging.
- Presentation attributes: names, icons, device and state classes, units, number mode, and the host's entity base classes.
- Device control in the write paths: the source has only TODO comments there. The model captures only that these paths leave the snapshot alone.
- `str.title()` in general: it is modelled only for the lower-case device types.
- voluptuous type coercion: the schema is modelled as defaults plus device-type membership.
- async/await and logging.
- Floating point: float fields are opaque literals, and no arithmetic is done on them.
- `CannotConnect` and unexpected exceptions: `ValidateInput` never raises them, so `StepUser` cannot reach `"cannot_connect"` or `"unknown"`. `ErrorKey` still maps both.
- The set of already-configured unique ids is an input to `StepUser`. The host's entry registry is not modelled. Neither is the host's abort with "already_in_progress" from `async_set_unique_id` (config_flow.py:87), taken when another flow in progress holds the same unique id.
