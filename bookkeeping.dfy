/** The adapter's per-entry state in the host's shared `hass.data`: the slot
    `hass.data[DOMAIN]` (absent until the first entry is set up) maps each
    config entry id to the discovery snapshot of that entry.

    The transitions are stated as functions on the slot's value
    (`SetDefault`, `Store`, `Unload`); the class `HassData` holds the slot and
    its methods perform those transitions in place, as `async_setup_entry`,
    its scan callback and `async_unload_entry` do. */
module Bookkeeping {
  import opened Wrappers
  import opened Bus
  import opened Discovery

  /** The value of `hass.data[DOMAIN]`: None while the key is absent. */
  type DomainData = Option<map<string, Snapshot>>

  /** `hass.data.setdefault(DOMAIN, {})`: the map is created empty when
      absent and an existing map is kept with all its entries. */
  function SetDefault(d: DomainData): (r: DomainData)
    ensures r.Some?
    ensures d.Some? ==> r == d
    ensures d.None? ==> |r.value| == 0
  {
    if d.None? then Some(map[]) else d
  }

  /** `hass.data[DOMAIN][entry_id] = discovery_info`. The result is None when
      the domain key is absent (Python raises a KeyError and nothing
      changes); otherwise the entry's slot holds the new snapshot and every
      other entry keeps its slot. */
  function Store(d: DomainData, entryId: string, snap: Snapshot): (r: DomainData)
    ensures r.Some? <==> d.Some?
    ensures d.Some? ==> r.value.Keys == d.value.Keys + {entryId} && r.value[entryId] == snap
    ensures d.Some? ==> forall other :: other in d.value && other != entryId ==> r.value[other] == d.value[other]
  {
    if d.None? then None else Some(d.value[entryId := snap])
  }

  /** What `async_unload_entry` leaves behind: the new domain value and the
      controller it stopped (None when the domain key or the entry's slot is
      missing, where Python raises a KeyError and nothing changes). */
  datatype UnloadOutcome = UnloadOutcome(data: DomainData, stopped: Option<Controller>)

  /** Stop the entry's controller, pop the entry's slot, and pop the domain
      key once no entry is left. */
  function Unload(d: DomainData, entryId: string): (r: UnloadOutcome)
    ensures r.stopped.Some? <==> d.Some? && entryId in d.value
    ensures r.stopped.None? ==> r.data == d
    ensures r.stopped.Some? ==> r.stopped.value == d.value[entryId].cntrl
    ensures r.stopped.Some? ==> (r.data.None? <==> d.value.Keys == {entryId})
    ensures r.stopped.Some? && r.data.Some? ==>
      r.data.value.Keys == d.value.Keys - {entryId} &&
      forall other :: other in r.data.value ==> r.data.value[other] == d.value[other]
  {
    if d.None? || entryId !in d.value then UnloadOutcome(d, None)
    else
      var rest := d.value - {entryId};
      UnloadOutcome(if |rest| == 0 then None else Some(rest), Some(d.value[entryId].cntrl))
  }

  /** Unloading an entry right after storing its snapshot stops the stored
      controller and gives back the domain value as it was without that
      entry, the key itself dropped when that leaves no entry. */
  lemma StoreThenUnload(d: DomainData, entryId: string, snap: Snapshot)
    requires d.Some?
    ensures Unload(Store(d, entryId, snap), entryId) ==
      UnloadOutcome(if d.value.Keys <= {entryId} then None else Some(d.value - {entryId}), Some(snap.cntrl))
  {
    var stored := Store(d, entryId, snap).value;
    assert stored - {entryId} == d.value - {entryId};
    if d.value.Keys <= {entryId} {
      assert (stored - {entryId}).Keys == {};
    } else {
      var other :| other in d.value && other != entryId;
      assert other in stored - {entryId};
    }
  }

  /** Setting up and unloading entries only ever touches the slot of the
      entry concerned. */
  lemma OtherEntriesUntouched(d: DomainData, entryId: string, other: string, snap: Snapshot)
    requires other != entryId
    ensures var s := Store(SetDefault(d), entryId, snap);
      s.Some? && (other in s.value <==> d.Some? && other in d.value) &&
      (other in s.value ==> s.value[other] == d.value[other])
    ensures var u := Unload(d, entryId).data;
      (u.Some? && other in u.value <==> d.Some? && other in d.value) &&
      (u.Some? && other in u.value ==> u.value[other] == d.value[other])
  {
  }

  /** How the host learns the outcome of `async_setup_entry`: the entry's
      data has no port (an uncaught KeyError, so setup fails outright), the
      bus connection could not be opened (`ConfigEntryNotReady`, retried
      later), or it is open and scanning. */
  datatype EntrySetup = Failed | NotReady | Scanning(cntrl: Controller)

  /** The host-wide `hass.data`, reduced to the adapter's domain slot. */
  class HassData {
    var velbus: DomainData

    /** Before the first entry is set up the domain key is absent. */
    constructor ()
      ensures velbus.None?
    {
      velbus := None;
    }

    /** `async_setup_entry` up to the scan: make sure the domain map exists,
        then open a controller on the port in the entry's data. `connected` is
        whether the bus library accepted the port; when it did not, the host
        is told to retry. A missing port raises a KeyError that the handler
        for bus errors does not catch. The snapshot is stored later, by
        `ScanCompleted`. */
    method SetupEntry(entryData: map<string, string>, connected: bool) returns (r: EntrySetup)
      modifies this
      ensures velbus == SetDefault(old(velbus))
      ensures r.Failed? <==> ConfPort !in entryData
      ensures ConfPort in entryData ==>
        r == if connected then Scanning(Controller(entryData[ConfPort])) else NotReady
    {
      velbus := SetDefault(velbus);
      if ConfPort !in entryData {
        r := Failed;
      } else if connected {
        r := Scanning(Controller(entryData[ConfPort]));
      } else {
        r := NotReady;
      }
    }

    /** The scan callback: partition the scanned modules, store the snapshot
        under the entry id, and forward one platform setup per category. When
        the domain key has meanwhile disappeared, the store raises and no
        platform is forwarded. */
    method ScanCompleted(entryId: string, cntrl: Controller, modules: seq<BusModule>)
      returns (forwarded: seq<string>)
      modifies this
      ensures velbus == Store(old(velbus), entryId, DiscoverySnapshot(cntrl, modules))
      ensures forwarded == if old(velbus).Some? then ComponentTypes else []
    {
      var snap := Discover(cntrl, modules);
      assert snap == DiscoverySnapshot(cntrl, modules);
      if velbus.Some? {
        velbus := Some(velbus.value[entryId := snap]);
        forwarded := ComponentTypes;
      } else {
        forwarded := [];
      }
    }

    /** `async_unload_entry` after the platforms are unloaded: stop the
        entry's controller, pop its slot, pop the domain key when empty. */
    method UnloadEntry(entryId: string) returns (stopped: Option<Controller>)
      modifies this
      ensures UnloadOutcome(velbus, stopped) == Unload(old(velbus), entryId)
    {
      if velbus.None? || entryId !in velbus.value {
        stopped := None;
        return;
      }
      stopped := Some(velbus.value[entryId].cntrl);
      var rest := velbus.value - {entryId};
      if |rest| == 0 {
        velbus := None;
      } else {
        velbus := Some(rest);
      }
    }
  }
}
