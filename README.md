# Velbus adapter model

A Dafny model of the Home Assistant Velbus integration's own logic
(`homeassistant/components/velbus/__init__.py`): the adapter that connects a
Velbus home-automation bus to the host's entity model.

What is modelled:

- **Discovery partitioning** (module `Discovery`). When the bus scan
  completes, the callback builds a snapshot with the controller (the
  `"cntrl"` slot) and one list per host platform in `COMPONENT_TYPES`
  (`switch`, `sensor`, `binary_sensor`, `cover`, `climate`). Each list holds the
  `(module address, channel)` pairs whose channel declares that platform.
  `Partition` is the specification of one list. `Discover` is the callback's
  nested loop over modules, channels `1..number_of_channels()` and platforms,
  split into `EmptyLists`, `VisitModule` and `VisitChannel`, and proved to
  build exactly the `Partition` lists. Lemmas give membership (both
  directions), channel bounds, module and channel order, length bounds and
  absence of duplicates.
- **Per-entry bookkeeping in `hass.data`** (module `Bookkeeping`). The
  value of `hass.data[DOMAIN]` is an `Option<map<entry id, Snapshot>>`, None
  while the key is absent. `SetDefault`, `Store` and `Unload` are the
  transitions as functions. The class `HassData` holds the slot and performs
  them in place in `SetupEntry`, `ScanCompleted` and `UnloadEntry`.
- **`async_setup`** (module `ConfigImport`): whether an import flow is
  started and with what data.
- **Entity identity and metadata** (module `Entity`): `unique_id`, `name`,
  `should_poll` (always false) and `device_info`. The unique id and the
  firmware string are proved to read back into the numbers they are built
  from (module `Decimal` renders and reads decimal numbers).

Modelling choices:

- A bus module is a record of what the adapter asks the bus library for.
  `get_categories` and `get_name` are functions from channel numbers.
- The Python dict `discovery_info` mixes the controller and the lists under
  string keys. The model keeps the controller in its own field, `cntrl`, and
  the lists in a map whose keys are exactly the five platform names.
- The controller is a handle identified by its port. Opening it and scanning
  are bus I/O, so `SetupEntry` takes the entry's data and `connected` (did
  the library accept the port), and `ScanCompleted` takes the scanned modules
  as inputs.
- In its `hass.data` handling, Python raises `KeyError` in two places: a
  store when the domain key is absent, and an unload when the domain key or
  the entry's slot is missing. The model shows this as an unchanged state and
  a None result.
- Reading the port from the entry's data also raises `KeyError` when the
  entry has no port. The handler for bus errors does not catch it, so setup
  fails outright rather than asking to be retried. `SetupEntry` returns
  `Failed` for this case.
- A unique id identifies a serial-or-address number and a channel, not a
  module: a module without a serial at address 12 and a module with serial
  12 get the same id on the same channel, as in the source.
- `DOMAIN` comes from `const.py`, which is not part of this model. It is
  taken to be `"velbus"`.

## Model

| member | source | states |
|---|---|---|
| `Discovery.Discover` | homeassistant/components/velbus/__init__.py:52-65 | the snapshot holds the given controller and exactly one list per platform in `COMPONENT_TYPES`, each equal to `Partition` of the scanned modules for that platform |
| `Discovery.EmptyLists` | homeassistant/components/velbus/__init__.py:54-56 | every platform starts with its own empty list, and there are no other keys |
| `Discovery.VisitModule` | homeassistant/components/velbus/__init__.py:59-64 | visiting one module appends that module's pairs for channels `1..number_of_channels()` in ascending order to each platform's list |
| `Discovery.VisitChannel` | homeassistant/components/velbus/__init__.py:60-64 | one channel visit appends `(address, channel)` to exactly the platforms the channel declares, and to each at most once; other lists are unchanged |
| `Discovery.PartitionMembership` | homeassistant/components/velbus/__init__.py:58-64 | `(a, c)` is in platform `k`'s list iff some scanned module has address `a`, `1 <= c <= number_of_channels()` and `k` among `get_categories(c)` |
| `Discovery.PartitionChannelsInRange` | homeassistant/components/velbus/__init__.py:59 | a recorded channel is never 0 and is at most the channel count of a module with the recorded address |
| `Discovery.PartitionEmptyWhenUndeclared` | homeassistant/components/velbus/__init__.py:55-64 | a platform that no channel declares gets an empty list |
| `Discovery.PartitionAppend` | homeassistant/components/velbus/__init__.py:58 | lists keep module-list order: the list for `front + back` is the list for `front` followed by the list for `back` |
| `Discovery.PartitionSingle` | homeassistant/components/velbus/__init__.py:59-64 | one module contributes exactly its channel pairs |
| `Discovery.ModulePairsAscending` | homeassistant/components/velbus/__init__.py:59-64 | within a module's contribution every pair carries the module's address, channels lie in `1..n` and strictly ascend |
| `Discovery.ModulePairsMembership` | homeassistant/components/velbus/__init__.py:59-64 | a pair is in a module's contribution iff the module declares the platform on that channel |
| `Discovery.ModulePairsLength` | homeassistant/components/velbus/__init__.py:60-64 | visiting `n` channels appends at most `n` pairs to one platform's list |
| `Discovery.PartitionLength` | homeassistant/components/velbus/__init__.py:58-64 | a platform's list is no longer than the total number of channels of the scanned modules |
| `Discovery.PartitionNoDuplicates` | homeassistant/components/velbus/__init__.py:58-64 | when the modules' addresses are distinct, no pair appears twice in a list |
| `Discovery.DiscoverySnapshotShape` | homeassistant/components/velbus/__init__.py:54-56 | the stored snapshot has the controller and a list for each of the five platforms and no other list |
| `Bus.ComponentTypesDistinct` | homeassistant/components/velbus/__init__.py:24 | the five platform names are pairwise distinct |
| `Bookkeeping.SetDefault` | homeassistant/components/velbus/__init__.py:50 | the domain map exists afterwards; an existing map is kept unchanged, a missing one is created empty |
| `Bookkeeping.Store` | homeassistant/components/velbus/__init__.py:66 | the entry's slot holds the new snapshot, every other entry keeps its slot, and no key other than the entry's is added; an absent domain key is a KeyError that changes nothing |
| `Bookkeeping.Unload` | homeassistant/components/velbus/__init__.py:99-102 | stops exactly the entry's controller, removes exactly the entry's slot, keeps all other slots, and removes the domain key iff no entry is left; a missing key changes nothing |
| `Bookkeeping.StoreThenUnload` | homeassistant/components/velbus/__init__.py:99-102 | unloading right after storing stops the stored controller and leaves the domain as it was without the entry |
| `Bookkeeping.OtherEntriesUntouched` | homeassistant/components/velbus/__init__.py:50-102 | setting up or unloading one entry never adds, removes or changes another entry's slot |
| `Bookkeeping.HassData.SetupEntry` | homeassistant/components/velbus/__init__.py:48-78 | the domain map is ensured; setup fails outright iff the entry's data has no port; otherwise the host gets the controller opened on that port or the retry signal (`ConfigEntryNotReady`) |
| `Bookkeeping.HassData.ScanCompleted` | homeassistant/components/velbus/__init__.py:52-71 | the new state is `Store` of the discovery snapshot, and all five platforms are forwarded exactly when the store succeeded |
| `Bookkeeping.HassData.UnloadEntry` | homeassistant/components/velbus/__init__.py:99-103 | the new state and the stopped controller are those of `Unload` |
| `ConfigImport.AsyncSetup` | homeassistant/components/velbus/__init__.py:27-45 | always returns true; a flow starts iff the domain is configured; the flow data is `{port, name: "Velbus import"}` with the configured port when that port is present and non-empty, and `{}` otherwise |
| `ConfigImport.ImportIgnoresExtraKeys` | homeassistant/components/velbus/__init__.py:33 | keys of the domain configuration other than `port` do not change the outcome |
| `Entity.UniqueId` | homeassistant/components/velbus/__init__.py:114-122 | the id reads back into the serial (the address when the serial is 0) and the channel |
| `Entity.UniqueIdInjective` | homeassistant/components/velbus/__init__.py:117-122 | two entities have the same id iff they have the same serial-or-address and the same channel |
| `Entity.UniqueIdsOfDistinctModulesCanCoincide` | homeassistant/components/velbus/__init__.py:117-122 | a module at address 12 without a serial and a module at address 40 with serial 12 both get "12-1" on channel 1 |
| `Entity.Name` | homeassistant/components/velbus/__init__.py:124-127 | the display name is the module's name for the entity's channel |
| `Entity.ShouldPoll` | homeassistant/components/velbus/__init__.py:129-132 | polling is disabled |
| `Entity.UniqueIdExamples` | homeassistant/components/velbus/__init__.py:117-122 | address 12 with serial 0 on channel 3 gives "12-3"; serial 555 on channel 1 gives "555-1" |
| `Entity.GetDeviceInfo` | homeassistant/components/velbus/__init__.py:141-158 | identifiers are `{(DOMAIN, address, serial)}`; the name is the address followed by a space and the module name; manufacturer "Velleman"; model is the module name; the firmware string reads back into memory-map version, build year and build week |
| `Entity.SwVersionRoundTrip` | homeassistant/components/velbus/__init__.py:153-157 | `"{version}.{year}-{week}"` reads back into the three numbers |
| `Entity.OneDevicePerModule` | homeassistant/components/velbus/__init__.py:114-158 | all channels of one module share one device identifier, and distinct channels get distinct unique ids |
| `Decimal.DecimalString` | homeassistant/components/velbus/__init__.py:122 | the rendering of a number is non-empty, all digits, and has no leading zero |
| `Decimal.DigitsValueOfDecimalString` | homeassistant/components/velbus/__init__.py:122 | the rendered digits denote the number rendered |
| `Decimal.ReadNumberOfDecimalString` | homeassistant/components/velbus/__init__.py:122 | reading a rendered number followed by a non-digit gives back the number and the rest |
| `Decimal.DecimalStringInjective` | homeassistant/components/velbus/__init__.py:122 | distinct numbers render differently |

## Left out

- Bus I/O: `velbus.Controller`, `scan`, `get_modules`, `stop` and `on_status_update` are calls into the bus library. The controller is an input handle, and the scanned modules are an input to `ScanCompleted`.
- The `sync_clock` service (lines 80-86): it forwards to the bus library and logs and swallows its errors, so it has no state or result to model.
- Host plumbing: `async_create_task`, the import flow's own handling, `async_forward_entry_setup` and `async_forward_entry_unload`, and the concurrent `asyncio.wait` at lines 93-98. `ScanCompleted` returns the platform names it would forward. `UnloadEntry` models the state change after the platforms are unloaded.
- Push updates (`async_added_to_hass`, `_on_update`, `schedule_update_ha_state`): these are host callbacks with no state of the adapter's own.
- Logging and the voluptuous `CONFIG_SCHEMA` (lines 20-22). `AsyncSetup` handles a missing or empty port as the code does, even though the schema requires one.
- Entity.UniqueId: serial, address and channel are non-negative integers (`nat`); Python's rendering of negative numbers is not modelled, because the bus reports them as unsigned fields.
- Entity.GetDeviceInfo: the same restriction to non-negative firmware and address fields applies.
- The GeoNet NZ Quakes test file: the feed reconciliation it checks lives in the external `aio_geojson_client` feed library, outside this model, and its distance conversions are floating point.
