/** The bus-side data the adapter reads: the modules a scan reports, the
    controller handle, and the fixed list of host platforms. The bus library
    itself (serial/network I/O, scanning) is not modelled; a module is the
    record of what the adapter asks it. */
module Bus {

  /** The integration's domain key in `hass.data` and in device identifiers. */
  const Domain: string := "velbus"

  /** The host's configuration keys `CONF_PORT` and `CONF_NAME`. */
  const ConfPort: string := "port"
  const ConfName: string := "name"

  /** The host platforms a channel can belong to, in the order the adapter
      visits them. */
  const ComponentTypes: seq<string> := ["switch", "sensor", "binary_sensor", "cover", "climate"]

  /** The handle of one open bus connection, identified by the port it was
      opened on. */
  datatype Controller = Controller(port: string)

  /** What the adapter reads from one scanned module:
      `get_module_address()`, `serial` (0 when no serial is programmed),
      `number_of_channels()`, `get_categories(channel)`, `get_name(channel)`,
      `get_module_name()` and the firmware fields. */
  datatype BusModule = BusModule(
    address: nat,
    serial: nat,
    channelCount: nat,
    categories: nat -> set<string>,
    channelName: nat -> string,
    moduleName: string,
    memoryMapVersion: nat,
    buildYear: nat,
    buildWeek: nat)

  /** One `(module address, channel)` pair of a discovery list. */
  datatype ChannelRef = ChannelRef(address: nat, channel: nat)

  /** The five platform names are pairwise distinct, so each has its own list. */
  lemma ComponentTypesDistinct()
    ensures forall t, u :: 0 <= t < u < |ComponentTypes| ==> ComponentTypes[t] != ComponentTypes[u]
  {
  }
}
