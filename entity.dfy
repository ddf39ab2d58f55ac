/** `VelbusEntity`: the host entity for one channel of one bus module. Its
    identity and device metadata are read from the module's fields each time
    they are asked for. */
module Entity {
  import opened Wrappers
  import opened Bus
  import opened Decimal

  datatype VelbusEntity = VelbusEntity(busModule: BusModule, channel: nat)

  /** The number that identifies the module in unique ids: its serial, or its
      bus address when no serial is programmed (serial 0). */
  function IdentityNumber(m: BusModule): nat {
    if m.serial == 0 then m.address else m.serial
  }

  /** Reads an id of the form `<number>-<number>` back into its two numbers. */
  function ParseUniqueId(s: string): Option<(nat, nat)> {
    match ReadNumber(s)
    case None => None
    case Some((ident, rest)) =>
      match ReadAfter('-', rest)
      case Some((channel, tail)) => if tail == "" then Some((ident, channel)) else None
      case None => None
  }

  /** `unique_id`: `"{serial}-{channel}"` with the address standing in for a
      zero serial. The id reads back into exactly that number and the
      channel. */
  function UniqueId(e: VelbusEntity): (id: string)
    ensures ParseUniqueId(id) == Some((IdentityNumber(e.busModule), e.channel))
  {
    var ident := IdentityNumber(e.busModule);
    var tail := "-" + DecimalString(e.channel);
    ReadAfterDecimalString('-', e.channel, "");
    assert tail == ['-'] + DecimalString(e.channel) + "";
    ReadNumberOfDecimalString(ident, tail);
    DecimalString(ident) + tail
  }

  /** Two entities get the same unique id exactly when their modules have
      the same identity number and they are on the same channel, so
      rediscovering a channel never yields a second entity for it. */
  lemma UniqueIdInjective(e1: VelbusEntity, e2: VelbusEntity)
    ensures UniqueId(e1) == UniqueId(e2) <==>
      IdentityNumber(e1.busModule) == IdentityNumber(e2.busModule) && e1.channel == e2.channel
  {
  }

  /** The id identifies a serial-or-address number, not a module: a module
      at address 12 without a serial and a module at address 40 with serial
      12 get the same id on the same channel. */
  lemma UniqueIdsOfDistinctModulesCanCoincide(m: BusModule)
    ensures var unserialised, serialised := m.(address := 12, serial := 0), m.(address := 40, serial := 12);
      UniqueId(VelbusEntity(unserialised, 1)) == UniqueId(VelbusEntity(serialised, 1)) == "12-1"
  {
  }

  /** The examples of the identity rule: address 12 without a serial on
      channel 3 is "12-3"; serial 555 on channel 1 is "555-1". */
  lemma UniqueIdExamples(m: BusModule)
    ensures UniqueId(VelbusEntity(m.(address := 12, serial := 0), 3)) == "12-3"
    ensures UniqueId(VelbusEntity(m.(serial := 555), 1)) == "555-1"
  {
  }

  /** `name`: the module's name for the entity's channel. */
  function Name(e: VelbusEntity): (r: string)
    ensures r == e.busModule.channelName(e.channel)
  {
    e.busModule.channelName(e.channel)
  }

  /** `should_poll`: the entity is updated by the bus pushing status, never
      polled. */
  function ShouldPoll(e: VelbusEntity): (r: bool)
    ensures !r
  {
    false
  }

  /** The `device_info` block the host registers the entity's device with. */
  datatype DeviceInfo = DeviceInfo(
    identifiers: set<(string, nat, nat)>,
    name: string,
    manufacturer: string,
    model: string,
    swVersion: string)

  /** Reads a version of the form `<number>.<number>-<number>` back into its
      three numbers. */
  function ParseSwVersion(s: string): Option<(nat, nat, nat)> {
    match ReadNumber(s)
    case None => None
    case Some((version, rest)) =>
      match ReadAfter('.', rest)
      case None => None
      case Some((year, rest')) =>
        match ReadAfter('-', rest')
        case Some((week, tail)) => if tail == "" then Some((version, year, week)) else None
        case None => None
  }

  /** The firmware string `"{memory_map_version}.{build_year}-{build_week}"`. */
  function FormatSwVersion(version: nat, year: nat, week: nat): string {
    DecimalString(version) + "." + DecimalString(year) + "-" + DecimalString(week)
  }

  /** The firmware string reads back into the three numbers it was built
      from. */
  lemma SwVersionRoundTrip(version: nat, year: nat, week: nat)
    ensures ParseSwVersion(FormatSwVersion(version, year, week)) == Some((version, year, week))
  {
    var afterYear := "-" + DecimalString(week);
    var afterVersion := "." + DecimalString(year) + afterYear;
    assert FormatSwVersion(version, year, week) == DecimalString(version) + afterVersion;
    ReadNumberOfDecimalString(version, afterVersion);
    assert afterVersion == ['.'] + DecimalString(year) + afterYear;
    ReadAfterDecimalString('.', year, afterYear);
    assert afterYear == ['-'] + DecimalString(week) + "";
    ReadAfterDecimalString('-', week, "");
  }

  /** `device_info`: one identifier (domain, address, serial); the name is
      the address followed by a space and the module name; the firmware
      string reads back into memory-map version, build year and build week. */
  function GetDeviceInfo(e: VelbusEntity): (info: DeviceInfo)
    ensures info.identifiers == {(Domain, e.busModule.address, e.busModule.serial)}
    ensures ReadNumber(info.name) == Some((e.busModule.address, " " + e.busModule.moduleName))
    ensures info.manufacturer == "Velleman" && info.model == e.busModule.moduleName
    ensures ParseSwVersion(info.swVersion) ==
      Some((e.busModule.memoryMapVersion, e.busModule.buildYear, e.busModule.buildWeek))
  {
    var m := e.busModule;
    var name := DecimalString(m.address) + (" " + m.moduleName);
    ReadNumberOfDecimalString(m.address, " " + m.moduleName);
    SwVersionRoundTrip(m.memoryMapVersion, m.buildYear, m.buildWeek);
    DeviceInfo(
      {(Domain, m.address, m.serial)},
      name,
      "Velleman",
      m.moduleName,
      FormatSwVersion(m.memoryMapVersion, m.buildYear, m.buildWeek))
  }

  /** All channels of one module are entities of the same device, and each
      channel's entity has its own unique id. */
  lemma OneDevicePerModule(m: BusModule, c1: nat, c2: nat)
    ensures GetDeviceInfo(VelbusEntity(m, c1)).identifiers == GetDeviceInfo(VelbusEntity(m, c2)).identifiers
    ensures UniqueId(VelbusEntity(m, c1)) == UniqueId(VelbusEntity(m, c2)) <==> c1 == c2
  {
  }
}
