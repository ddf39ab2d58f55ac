/** The scan-completion callback of `async_setup_entry`: it partitions every
    (module, channel) pair of the scanned modules into one list per host
    platform. `Partition` is the specification of one list; `Discover` is the
    callback's nested loop, proved to build exactly those lists. */
module Discovery {
  import opened Bus

  /** The discovery snapshot stored per config entry: the controller (the
      `"cntrl"` slot) and one list of channel pairs per platform. */
  datatype Snapshot = Snapshot(cntrl: Controller, lists: map<string, seq<ChannelRef>>)

  /** Module `m` has address `a` and its channel `c` (an existing channel,
      numbered from 1) declares category `k`. */
  predicate Declares(m: BusModule, a: nat, c: nat, k: string) {
    m.address == a && 1 <= c <= m.channelCount && k in m.categories(c)
  }

  /** The pairs module `m` contributes to the list of category `k` when its
      channels `1..n` are visited in ascending order. */
  function ModulePairs(m: BusModule, k: string, n: nat): seq<ChannelRef> {
    if n == 0 then []
    else ModulePairs(m, k, n - 1) + (if k in m.categories(n) then [ChannelRef(m.address, n)] else [])
  }

  /** The list of category `k`: the modules' contributions, in module order. */
  function Partition(modules: seq<BusModule>, k: string): seq<ChannelRef> {
    if modules == [] then []
    else
      var last := modules[|modules| - 1];
      Partition(modules[..|modules| - 1], k) + ModulePairs(last, k, last.channelCount)
  }

  /** The snapshot the callback stores for a scan that reported `modules`. */
  function DiscoverySnapshot(cntrl: Controller, modules: seq<BusModule>): Snapshot {
    Snapshot(cntrl, map k | k in ComponentTypes :: Partition(modules, k))
  }

  /** The callback's first loop: an empty list for every platform. */
  method EmptyLists() returns (lists: map<string, seq<ChannelRef>>)
    ensures forall k :: k in lists <==> k in ComponentTypes
    ensures forall k :: k in lists ==> lists[k] == []
  {
    lists := map[];
    for t := 0 to |ComponentTypes|
      invariant forall k :: k in lists <==> k in ComponentTypes[..t]
      invariant forall k :: k in lists ==> lists[k] == []
    {
      lists := lists[ComponentTypes[t] := []];
    }
    assert ComponentTypes[..|ComponentTypes|] == ComponentTypes;
  }

  /** The innermost loop, for one channel of one module: every platform the
      channel declares gets the pair `(address, channel)` appended, and every
      other list is left as it was. */
  method VisitChannel(lists: map<string, seq<ChannelRef>>, m: BusModule, channel: nat)
    returns (lists': map<string, seq<ChannelRef>>)
    requires forall k :: k in lists <==> k in ComponentTypes
    ensures forall k :: k in lists' <==> k in ComponentTypes
    ensures forall k :: k in lists' ==>
      lists'[k] == lists[k] + (if k in m.categories(channel) then [ChannelRef(m.address, channel)] else [])
  {
    ComponentTypesDistinct();
    lists' := lists;
    for t := 0 to |ComponentTypes|
      invariant forall k :: k in lists' <==> k in ComponentTypes
      invariant forall k :: k in lists' && k in ComponentTypes[..t] ==>
        lists'[k] == lists[k] + (if k in m.categories(channel) then [ChannelRef(m.address, channel)] else [])
      invariant forall k :: k in lists' && k !in ComponentTypes[..t] ==> lists'[k] == lists[k]
    {
      var category := ComponentTypes[t];
      assert category !in ComponentTypes[..t];
      assert ComponentTypes[..t + 1] == ComponentTypes[..t] + [category];
      if category in m.categories(channel) {
        lists' := lists'[category := lists'[category] + [ChannelRef(m.address, channel)]];
      }
    }
    assert ComponentTypes[..|ComponentTypes|] == ComponentTypes;
  }

  /** The channel loop for one module: channels `1..number_of_channels()` in
      ascending order, each visited as `VisitChannel` does. */
  method VisitModule(lists: map<string, seq<ChannelRef>>, m: BusModule)
    returns (lists': map<string, seq<ChannelRef>>)
    requires forall k :: k in lists <==> k in ComponentTypes
    ensures forall k :: k in lists' <==> k in ComponentTypes
    ensures forall k :: k in lists' ==> lists'[k] == lists[k] + ModulePairs(m, k, m.channelCount)
  {
    lists' := lists;
    for channel := 1 to m.channelCount + 1
      invariant forall k :: k in lists' <==> k in ComponentTypes
      invariant forall k :: k in lists' ==> lists'[k] == lists[k] + ModulePairs(m, k, channel - 1)
    {
      lists' := VisitChannel(lists', m, channel);
    }
  }

  /** The callback's partition: an empty list per platform, then every
      module, every channel `1..number_of_channels()` and every platform,
      appending the pair when the channel declares that platform. */
  method Discover(cntrl: Controller, modules: seq<BusModule>) returns (snap: Snapshot)
    ensures snap.cntrl == cntrl
    ensures forall k :: k in snap.lists <==> k in ComponentTypes
    ensures forall k :: k in snap.lists ==> snap.lists[k] == Partition(modules, k)
  {
    var lists := EmptyLists();
    for i := 0 to |modules|
      invariant forall k :: k in lists <==> k in ComponentTypes
      invariant forall k :: k in lists ==> lists[k] == Partition(modules[..i], k)
    {
      lists := VisitModule(lists, modules[i]);
      assert modules[..i + 1][..i] == modules[..i];
    }
    assert modules[..|modules|] == modules;
    snap := Snapshot(cntrl, lists);
  }

  /** A pair is in a module's contribution iff that module declares the
      category on that channel. */
  lemma {:induction false} ModulePairsMembership(m: BusModule, k: string, n: nat, r: ChannelRef)
    requires n <= m.channelCount
    ensures r in ModulePairs(m, k, n) <==> Declares(m, r.address, r.channel, k) && r.channel <= n
  {
    if n > 0 {
      ModulePairsMembership(m, k, n - 1, r);
    }
  }

  /** Within one module's contribution the address is the module's and the
      channels strictly ascend, so no channel is recorded twice. */
  lemma {:induction false} ModulePairsAscending(m: BusModule, k: string, n: nat)
    ensures forall p :: 0 <= p < |ModulePairs(m, k, n)| ==>
      ModulePairs(m, k, n)[p].address == m.address && 1 <= ModulePairs(m, k, n)[p].channel <= n
    ensures forall p, q :: 0 <= p < q < |ModulePairs(m, k, n)| ==>
      ModulePairs(m, k, n)[p].channel < ModulePairs(m, k, n)[q].channel
  {
    if n > 0 {
      ModulePairsAscending(m, k, n - 1);
    }
  }

  /** Each channel visit appends at most one pair to a category's list. */
  lemma {:induction false} ModulePairsLength(m: BusModule, k: string, n: nat)
    ensures |ModulePairs(m, k, n)| <= n
  {
    if n > 0 {
      ModulePairsLength(m, k, n - 1);
    }
  }

  /** The total number of channels of the scanned modules. */
  function TotalChannels(modules: seq<BusModule>): nat {
    if modules == [] then 0 else TotalChannels(modules[..|modules| - 1]) + modules[|modules| - 1].channelCount
  }

  /** A category's list is no longer than the number of channels visited. */
  lemma {:induction false} PartitionLength(modules: seq<BusModule>, k: string)
    ensures |Partition(modules, k)| <= TotalChannels(modules)
  {
    if modules != [] {
      var last := modules[|modules| - 1];
      PartitionLength(modules[..|modules| - 1], k);
      ModulePairsLength(last, k, last.channelCount);
    }
  }

  /** `(a, c)` is in the list of category `k` iff some scanned module has
      address `a` and declares `k` on its channel `c`. */
  lemma {:induction false} PartitionMembership(modules: seq<BusModule>, k: string, a: nat, c: nat)
    ensures ChannelRef(a, c) in Partition(modules, k) <==>
      exists i :: 0 <= i < |modules| && Declares(modules[i], a, c, k)
  {
    if modules != [] {
      var n := |modules| - 1;
      var front, last := modules[..n], modules[n];
      PartitionMembership(front, k, a, c);
      ModulePairsMembership(last, k, last.channelCount, ChannelRef(a, c));
      if ChannelRef(a, c) in Partition(modules, k) {
        if ChannelRef(a, c) in Partition(front, k) {
          var i :| 0 <= i < n && Declares(front[i], a, c, k);
          assert modules[i] == front[i];
        } else {
          assert Declares(modules[n], a, c, k);
        }
      } else {
        forall i | 0 <= i < |modules|
          ensures !Declares(modules[i], a, c, k)
        {
          if i < n {
            assert modules[i] == front[i];
          }
        }
      }
    }
  }

  /** Channel 0 is never recorded, and every recorded channel exists on a
      module with the recorded address. */
  lemma PartitionChannelsInRange(modules: seq<BusModule>, k: string, r: ChannelRef)
    requires r in Partition(modules, k)
    ensures r.channel != 0
    ensures exists i :: 0 <= i < |modules| && modules[i].address == r.address && r.channel <= modules[i].channelCount
  {
    PartitionMembership(modules, k, r.address, r.channel);
    var i :| 0 <= i < |modules| && Declares(modules[i], r.address, r.channel, k);
  }

  /** A category no channel declares still gets its (empty) list. */
  lemma PartitionEmptyWhenUndeclared(modules: seq<BusModule>, k: string)
    requires forall i, c :: 0 <= i < |modules| && 1 <= c <= modules[i].channelCount ==> k !in modules[i].categories(c)
    ensures Partition(modules, k) == []
  {
    if Partition(modules, k) != [] {
      var r := Partition(modules, k)[0];
      PartitionMembership(modules, k, r.address, r.channel);
    }
  }

  /** Module order is kept: the list for a concatenation of module lists is
      the concatenation of their lists. */
  lemma {:induction false} PartitionAppend(front: seq<BusModule>, back: seq<BusModule>, k: string)
    ensures Partition(front + back, k) == Partition(front, k) + Partition(back, k)
    decreases |back|
  {
    if back != [] {
      var n := |back| - 1;
      var last := back[n];
      assert (front + back)[..|front + back| - 1] == front + back[..n];
      PartitionAppend(front, back[..n], k);
    } else {
      assert front + back == front;
    }
  }

  /** A single module contributes its pairs in ascending channel order. */
  lemma PartitionSingle(m: BusModule, k: string)
    ensures Partition([m], k) == ModulePairs(m, k, m.channelCount)
  {
  }

  /** When module addresses are distinct, no pair appears twice in a list. */
  lemma {:induction false} PartitionNoDuplicates(modules: seq<BusModule>, k: string)
    requires forall i, j :: 0 <= i < j < |modules| ==> modules[i].address != modules[j].address
    ensures forall p, q :: 0 <= p < q < |Partition(modules, k)| ==> Partition(modules, k)[p] != Partition(modules, k)[q]
  {
    if modules != [] {
      var n := |modules| - 1;
      var front, last := modules[..n], modules[n];
      PartitionNoDuplicates(front, k);
      var head, tail := Partition(front, k), ModulePairs(last, k, last.channelCount);
      ModulePairsAscending(last, k, last.channelCount);
      forall p, q | 0 <= p < |head| && 0 <= q < |tail|
        ensures head[p] != tail[q]
      {
        PartitionMembership(front, k, head[p].address, head[p].channel);
        var i :| 0 <= i < n && Declares(front[i], head[p].address, head[p].channel, k);
        assert front[i] == modules[i];
      }
      var whole := head + tail;
      forall p, q | 0 <= p < q < |whole|
        ensures whole[p] != whole[q]
      {
        if q < |head| {
          assert whole[p] == head[p] && whole[q] == head[q];
        } else if p >= |head| {
          assert whole[p] == tail[p - |head|] && whole[q] == tail[q - |head|];
        } else {
          assert whole[p] == head[p] && whole[q] == tail[q - |head|];
        }
      }
    }
  }

  /** The stored snapshot has the controller and exactly one list per
      platform, each list the partition of the scanned modules. */
  lemma DiscoverySnapshotShape(cntrl: Controller, modules: seq<BusModule>)
    ensures DiscoverySnapshot(cntrl, modules).cntrl == cntrl
    ensures DiscoverySnapshot(cntrl, modules).lists.Keys == set k | k in ComponentTypes
    ensures forall k :: k in ComponentTypes ==> DiscoverySnapshot(cntrl, modules).lists[k] == Partition(modules, k)
  {
  }
}
