/**
 * The state of a FabricEvent engine as a value, and its operations as pure
 * transition functions.
 *
 * The ledger SDK's event hubs are objects with identity and a live
 * connection status. Here a hub is its identity (a HubId handed out by the
 * SDK from `nextHub`), and the set `live` holds the hubs whose connection is
 * currently up. Connecting or disconnecting a hub changes `live` only, so the
 * registry keeps pointing at the same hub. This is how the source behaves:
 * the registry holds a reference to the hub object.
 *
 * Calls the engine makes to its collaborators (the persistence service
 * `fabricServices`, the client's `initializeNewChannel`, and the follow-ups
 * scheduled with a 5-second timer) are appended to the call log `calls`.
 */
module EngineState {
  import opened Wrappers
  import opened BlockFilter

  /** Identity of an SDK event hub. */
  type HubId = nat

  /** The first argument handed to `client.initializeNewChannel`. */
  datatype InitArg = ChannelName(name: string) | EngineObject

  /** One call the engine makes outside itself. */
  datatype Call =
    | ProcessBlockEvent(block: Block)             // fabricServices.processBlockEvent(client, block)
    | ServicesSynchBlocks(channel: string)        // fabricServices.synchBlocks(client, channel)
    | SynchNetworkConfigToDB                      // fabricServices.synchNetworkConfigToDB(client)
    | InitializeNewChannel(arg: InitArg)          // client.initializeNewChannel(arg, ...)
    | ScheduledSynchBlocks                        // setTimeout(synchBlocks, 5000)
    | ScheduledSynchChannelBlocks(channel: string) // setTimeout(synchChannelBlocks, 5000, channel)

  /** FabricEvent's fields, with the client and SDK state they consult. */
  datatype Engine = Engine(
    peerEventHub: Option<HubId>,              // this.peerEventHub
    channelEventHubs: map<string, HubId>,     // this.channelEventHubs
    channels: seq<string>,                    // the keys of client.getChannels(), in insertion order
    live: set<HubId>,                         // hubs whose isconnected() is true
    nextHub: HubId,                           // the next identity the SDK hands out
    calls: seq<Call>)                         // calls made so far

  predicate NoDuplicates(s: seq<string>)
  {
    forall i, j :: 0 <= i < j < |s| ==> s[i] != s[j]
  }

  /**
   * The engine's invariant: every hub was handed out by the SDK, the
   * registry holds distinct hubs, none of them is the peer hub, and the
   * client's channel names are unique (they are the keys of a Map).
   */
  predicate Valid(st: Engine)
  {
    && (st.peerEventHub.Some? ==> st.peerEventHub.value < st.nextHub)
    && (forall n :: n in st.channelEventHubs ==> st.channelEventHubs[n] < st.nextHub)
    && (forall n :: n in st.channelEventHubs && st.peerEventHub.Some? ==>
          st.channelEventHubs[n] != st.peerEventHub.value)
    && (forall a, b :: a in st.channelEventHubs && b in st.channelEventHubs && a != b ==>
          st.channelEventHubs[a] != st.channelEventHubs[b])
    && NoDuplicates(st.channels)
  }

  /** isPeerEventHubConnected: false without a peer hub, else that hub's live status. */
  function PeerHubConnected(st: Engine): (r: bool)
    ensures st.peerEventHub.None? ==> !r
    ensures st.peerEventHub.Some? ==> (r <==> st.peerEventHub.value in st.live)
  {
    match st.peerEventHub
    case None => false
    case Some(hub) => hub in st.live
  }

  /**
   * isChannelEventHubConnected(name): false when the registry has no entry
   * for `name`, else that hub's live status. The argument may be missing
   * (None, JavaScript's `undefined`); no key is `undefined`, so that lookup
   * finds nothing.
   */
  function ChannelHubConnected(st: Engine, name: Option<string>): (r: bool)
    ensures name.None? ==> !r
    ensures r ==> name.Some? && name.value in st.channelEventHubs
    ensures name.Some? && name.value in st.channelEventHubs ==>
              (r <==> st.channelEventHubs[name.value] in st.live)
  {
    match name
    case None => false
    case Some(key) => key in st.channelEventHubs && st.channelEventHubs[key] in st.live
  }

  /**
   * createPeerEventHub: obtain a new peer hub from the SDK, store it in the
   * peerEventHub field, register the block-0 callback and connect it.
   */
  function CreatePeerHub(st: Engine): (r: Engine)
    decreases 1
    ensures r.peerEventHub == Some(st.nextHub) && r.nextHub == st.nextHub + 1
    ensures PeerHubConnected(r) && r.live == st.live + {st.nextHub}
    ensures r.calls == st.calls + [ScheduledSynchBlocks]
    ensures r.channelEventHubs == st.channelEventHubs && r.channels == st.channels
    ensures Valid(st) ==> Valid(r)
  {
    ConnectPeerHub(st.(peerEventHub := Some(st.nextHub), nextHub := st.nextHub + 1))
  }

  /**
   * connectPeerEventHub: connect the peer hub that is there, and schedule a
   * synchBlocks pass; without a peer hub, create one instead.
   */
  function ConnectPeerHub(st: Engine): (r: Engine)
    decreases if st.peerEventHub.None? then 2 else 0
    ensures PeerHubConnected(r)
    ensures st.peerEventHub.Some? ==> r.peerEventHub == st.peerEventHub && r.nextHub == st.nextHub
    ensures st.peerEventHub.Some? ==> r.live == st.live + {st.peerEventHub.value}
    ensures st.peerEventHub.None? ==> r == CreatePeerHub(st)
    ensures st.live <= r.live
    ensures r.calls == st.calls + [ScheduledSynchBlocks]
    ensures r.channelEventHubs == st.channelEventHubs && r.channels == st.channels
    ensures Valid(st) ==> Valid(r)
  {
    match st.peerEventHub
    case Some(hub) => st.(live := st.live + {hub}, calls := st.calls + [ScheduledSynchBlocks])
    case None => CreatePeerHub(st)
  }

  /**
   * createChannelEventHub(channel): obtain a new hub for the channel from the
   * SDK, register the callback that skips block 0, connect it, and only then
   * store it in the registry under the channel's name.
   */
  function CreateChannelHub(st: Engine, name: string): (r: Engine)
    decreases 1
    ensures name in r.channelEventHubs && r.channelEventHubs[name] == st.nextHub
    ensures forall n :: n in st.channelEventHubs && n != name ==>
              n in r.channelEventHubs && r.channelEventHubs[n] == st.channelEventHubs[n]
    ensures r.channelEventHubs.Keys == st.channelEventHubs.Keys + {name}
    ensures r.nextHub == st.nextHub + 1 && r.live == st.live + {st.nextHub}
    ensures ChannelHubConnected(r, Some(name))
    ensures r.calls == st.calls + [ScheduledSynchChannelBlocks(name)]
    ensures r.peerEventHub == st.peerEventHub && r.channels == st.channels
    ensures Valid(st) ==> Valid(r)
  {
    var hub := st.nextHub;
    var connected := ConnectChannelHub(st.(nextHub := hub + 1), name, Some(hub));
    connected.(channelEventHubs := connected.channelEventHubs[name := hub])
  }

  /**
   * connectChannelEventHub(name, hub): connect the hub it is given and
   * schedule a synchChannelBlocks(name) pass; given no hub, create a new hub
   * for the channel instead.
   */
  function ConnectChannelHub(st: Engine, name: string, hub: Option<HubId>): (r: Engine)
    decreases if hub.None? then 2 else 0
    ensures hub.Some? ==> r.channelEventHubs == st.channelEventHubs && r.nextHub == st.nextHub
    ensures hub.Some? ==> r.live == st.live + {hub.value}
    ensures hub.Some? ==> r.calls == st.calls + [ScheduledSynchChannelBlocks(name)]
    ensures hub.None? ==> r == CreateChannelHub(st, name)
    ensures hub.Some? && name in st.channelEventHubs && st.channelEventHubs[name] == hub.value ==>
              ChannelHubConnected(r, Some(name))
    ensures hub.None? ==> ChannelHubConnected(r, Some(name))
    ensures st.live <= r.live
    ensures r.peerEventHub == st.peerEventHub && r.channels == st.channels
    ensures Valid(st) ==> Valid(r)
  {
    match hub
    case Some(h) => st.(live := st.live + {h}, calls := st.calls + [ScheduledSynchChannelBlocks(name)])
    case None => CreateChannelHub(st, name)
  }

  /**
   * Reconnecting the hub that the registry already holds for a channel
   * keeps that very hub: the registry is untouched, no new hub is handed
   * out, and every other channel's status stays as it was.
   */
  lemma ReconnectKeepsHub(st: Engine, name: string)
    requires Valid(st) && name in st.channelEventHubs
    ensures var r := ConnectChannelHub(st, name, Some(st.channelEventHubs[name]));
      && r.channelEventHubs == st.channelEventHubs
      && r.nextHub == st.nextHub
      && ChannelHubConnected(r, Some(name))
      && (forall n :: n != name ==> ChannelHubConnected(r, Some(n)) == ChannelHubConnected(st, Some(n)))
  {
  }

  /** Creating a channel hub leaves every other channel's hub and status as it was. */
  lemma CreateLeavesOthers(st: Engine, name: string)
    requires Valid(st)
    ensures var r := CreateChannelHub(st, name);
      forall n :: n != name ==> ChannelHubConnected(r, Some(n)) == ChannelHubConnected(st, Some(n))
  {
  }

  lemma AppendAssociates(a: seq<Call>, b: seq<Call>, c: seq<Call>)
    ensures (a + b) + c == a + (b + c)
  {
  }

  /** The follow-ups scheduled when hubs are created for `names`, in order. */
  function ScheduledChannelSyncs(names: seq<string>): (r: seq<Call>)
    ensures |r| == |names|
    ensures forall i :: 0 <= i < |names| ==> r[i] == ScheduledSynchChannelBlocks(names[i])
  {
    if names == [] then []
    else ScheduledChannelSyncs(names[..|names| - 1]) + [ScheduledSynchChannelBlocks(names[|names| - 1])]
  }

  /** The loop of initialize: createChannelEventHub for each name in turn. */
  function CreateChannelHubs(st: Engine, names: seq<string>): (r: Engine)
    decreases |names|
    ensures r.peerEventHub == st.peerEventHub && r.channels == st.channels
    ensures r.nextHub == st.nextHub + |names| && st.live <= r.live
    ensures r.calls == st.calls + ScheduledChannelSyncs(names)
    ensures forall n :: n in names ==>
              && n in r.channelEventHubs
              && st.nextHub <= r.channelEventHubs[n]
              && ChannelHubConnected(r, Some(n))
    ensures forall n :: n in st.channelEventHubs && n !in names ==>
              n in r.channelEventHubs && r.channelEventHubs[n] == st.channelEventHubs[n]
    ensures r.channelEventHubs.Keys == st.channelEventHubs.Keys + set n | n in names
    ensures Valid(st) ==> Valid(r)
  {
    if names == [] then st
    else
      var front := names[..|names| - 1];
      var last := names[|names| - 1];
      assert names == front + [last];
      var before := CreateChannelHubs(st, front);
      var r := CreateChannelHub(before, last);
      assert forall n :: n in names ==> n in front || n == last;
      assert ScheduledChannelSyncs(names) == ScheduledChannelSyncs(front) + [ScheduledSynchChannelBlocks(last)];
      AppendAssociates(st.calls, ScheduledChannelSyncs(front), [ScheduledSynchChannelBlocks(last)]);
      r
  }

  /** The loop of initialize, one more name at a time. */
  lemma CreateChannelHubsExtend(st: Engine, names: seq<string>, i: nat)
    requires i < |names|
    ensures CreateChannelHubs(st, names[..i + 1]) == CreateChannelHub(CreateChannelHubs(st, names[..i]), names[i])
  {
    assert names[..i + 1][..i] == names[..i];
  }

  /**
   * initialize: create the peer hub, then one channel hub for every channel
   * the client knows locally.
   */
  function Initialize(st: Engine): (r: Engine)
    ensures r.peerEventHub == Some(st.nextHub) && PeerHubConnected(r)
    ensures forall n :: n in st.channels ==> ChannelHubConnected(r, Some(n))
    ensures r.channels == st.channels
    ensures r.calls == st.calls + [ScheduledSynchBlocks] + ScheduledChannelSyncs(st.channels)
    ensures Valid(st) ==> Valid(r)
  {
    var withPeer := CreatePeerHub(st);
    CreateChannelHubs(withPeer, withPeer.channels)
  }

  /** The loop of initialize brings up exactly the hubs it creates, and no other. */
  lemma {:induction false} CreateChannelHubsLive(st: Engine, names: seq<string>, h: HubId)
    decreases |names|
    ensures h in CreateChannelHubs(st, names).live <==> h in st.live || st.nextHub <= h < st.nextHub + |names|
  {
    if names != [] {
      CreateChannelHubsLive(st, names[..|names| - 1], h);
    }
  }

  /**
   * initialize brings up exactly the hubs it creates: the fresh peer hub and
   * one fresh hub per channel the client knows.
   */
  lemma InitializeLive(st: Engine, h: HubId)
    ensures h in Initialize(st).live <==> h in st.live || st.nextHub <= h < st.nextHub + 1 + |st.channels|
  {
    var withPeer := CreatePeerHub(st);
    var r := CreateChannelHubs(withPeer, st.channels);
    assert Initialize(st) == r;
    assert h in withPeer.live <==> h in st.live || h == st.nextHub;
    assert withPeer.nextHub == st.nextHub + 1;
    CreateChannelHubsLive(withPeer, st.channels, h);
    assert h in r.live <==> h in withPeer.live || withPeer.nextHub <= h < withPeer.nextHub + |st.channels|;
  }

  /**
   * After initialize, every channel the client knows has a registry entry
   * holding a hub created by initialize itself, and that hub is live.
   */
  lemma InitializeCoversLocalChannels(st: Engine)
    ensures var r := Initialize(st);
      forall n :: n in st.channels ==>
        n in r.channelEventHubs && r.channelEventHubs[n] > st.nextHub && r.channelEventHubs[n] in r.live
  {
  }

  /** The peer hub's block callback (registered in createPeerEventHub). */
  function OnPeerBlock(st: Engine, block: Block): (r: Engine)
    ensures r == st.(calls := r.calls)
    ensures PeerHubForwards(block.number) ==> r.calls == st.calls + [ProcessBlockEvent(block)]
    ensures !PeerHubForwards(block.number) ==> r == st
  {
    if PeerHubForwards(block.number) then st.(calls := st.calls + [ProcessBlockEvent(block)]) else st
  }

  /** A channel hub's block callback (registered in createChannelEventHub). */
  function OnChannelBlock(st: Engine, block: Block): (r: Engine)
    ensures r == st.(calls := r.calls)
    ensures ChannelHubForwards(block.number) ==> r.calls == st.calls + [ProcessBlockEvent(block)]
    ensures !ChannelHubForwards(block.number) ==> r == st
  {
    if ChannelHubForwards(block.number) then st.(calls := st.calls + [ProcessBlockEvent(block)]) else st
  }

  /**
   * A block that reaches both the peer hub and a channel hub, in either
   * order, is handed to processBlockEvent exactly once.
   */
  lemma ProcessedExactlyOnce(st: Engine, block: Block)
    ensures OnChannelBlock(OnPeerBlock(st, block), block).calls == st.calls + [ProcessBlockEvent(block)]
    ensures OnPeerBlock(OnChannelBlock(st, block), block).calls == st.calls + [ProcessBlockEvent(block)]
  {
    FiltersPartition(block.number);
  }

  /** The processBlockEvent calls for the blocks `bs`, in order. */
  function ProcessCalls(bs: seq<Block>): (r: seq<Call>)
    ensures |r| == |bs|
    ensures forall i :: 0 <= i < |bs| ==> r[i] == ProcessBlockEvent(bs[i])
  {
    if bs == [] then [] else [ProcessBlockEvent(bs[0])] + ProcessCalls(bs[1..])
  }

  lemma ProcessCallsAppend(a: seq<Block>, b: seq<Block>)
    ensures ProcessCalls(a + b) == ProcessCalls(a) + ProcessCalls(b)
  {
    var whole, parts := ProcessCalls(a + b), ProcessCalls(a) + ProcessCalls(b);
    forall i | 0 <= i < |a + b|
      ensures whole[i] == parts[i]
    {
      if i < |a| {
        assert (a + b)[i] == a[i];
      } else {
        assert (a + b)[i] == b[i - |a|];
      }
    }
  }

  /** A stream of blocks reaching the peer hub's callback, one after another. */
  function DeliverToPeer(st: Engine, bs: seq<Block>): (r: Engine)
    decreases |bs|
    ensures r == st.(calls := r.calls)
  {
    if bs == [] then st else DeliverToPeer(OnPeerBlock(st, bs[0]), bs[1..])
  }

  /** A stream of blocks reaching a channel hub's callback, one after another. */
  function DeliverToChannel(st: Engine, bs: seq<Block>): (r: Engine)
    decreases |bs|
    ensures r == st.(calls := r.calls)
  {
    if bs == [] then st else DeliverToChannel(OnChannelBlock(st, bs[0]), bs[1..])
  }

  /**
   * Over a stream, the peer hub's callback hands to processBlockEvent
   * exactly the blocks its filter forwards, in stream order.
   */
  lemma {:induction false} PeerDeliveryForwards(st: Engine, bs: seq<Block>)
    decreases |bs|
    ensures DeliverToPeer(st, bs).calls == st.calls + ProcessCalls(PeerForwarded(bs))
  {
    if bs != [] {
      var head := if PeerHubForwards(bs[0].number) then [bs[0]] else [];
      var next := OnPeerBlock(st, bs[0]);
      PeerDeliveryForwards(next, bs[1..]);
      assert next.calls == st.calls + ProcessCalls(head);
      assert PeerForwarded(bs) == head + PeerForwarded(bs[1..]);
      ProcessCallsAppend(head, PeerForwarded(bs[1..]));
      AppendAssociates(st.calls, ProcessCalls(head), ProcessCalls(PeerForwarded(bs[1..])));
    }
  }

  /**
   * Over a stream, a channel hub's callback hands to processBlockEvent
   * exactly the blocks its filter forwards, in stream order.
   */
  lemma {:induction false} ChannelDeliveryForwards(st: Engine, bs: seq<Block>)
    decreases |bs|
    ensures DeliverToChannel(st, bs).calls == st.calls + ProcessCalls(ChannelForwarded(bs))
  {
    if bs != [] {
      var head := if ChannelHubForwards(bs[0].number) then [bs[0]] else [];
      var next := OnChannelBlock(st, bs[0]);
      ChannelDeliveryForwards(next, bs[1..]);
      assert next.calls == st.calls + ProcessCalls(head);
      assert ChannelForwarded(bs) == head + ChannelForwarded(bs[1..]);
      ProcessCallsAppend(head, ChannelForwarded(bs[1..]));
      AppendAssociates(st.calls, ProcessCalls(head), ProcessCalls(ChannelForwarded(bs[1..])));
    }
  }

  /** synchChannelBlocks(name): resynchronise the channel's blocks if its hub is live. */
  function SynchChannelBlocks(st: Engine, name: string): (r: Engine)
    ensures r == st.(calls := r.calls)
    ensures ChannelHubConnected(st, Some(name)) ==> r.calls == st.calls + [ServicesSynchBlocks(name)]
    ensures !ChannelHubConnected(st, Some(name)) ==> r == st
  {
    if ChannelHubConnected(st, Some(name)) then st.(calls := st.calls + [ServicesSynchBlocks(name)]) else st
  }

  /**
   * client.initializeNewChannel(arg): registers the named channel locally
   * unless the network cannot initialize it (`refused`). An argument that is
   * not a channel name registers nothing.
   */
  function ClientInitializeNewChannel(st: Engine, arg: InitArg, refused: set<string>): (r: Engine)
    ensures r.calls == st.calls + [InitializeNewChannel(arg)]
    ensures forall n :: n in r.channels <==> n in st.channels || (arg == ChannelName(n) && n !in refused)
    ensures r.peerEventHub == st.peerEventHub && r.channelEventHubs == st.channelEventHubs
    ensures r.live == st.live && r.nextHub == st.nextHub
    ensures Valid(st) ==> Valid(r)
  {
    var registered :=
      if arg.ChannelName? && arg.name !in refused && arg.name !in st.channels
      then st.channels + [arg.name]
      else st.channels;
    st.(channels := registered, calls := st.calls + [InitializeNewChannel(arg)])
  }

  /**
   * disconnectEventHubs, as its net effect: the loop over the registry asks
   * for the status of an unnamed channel, which is never connected, so it
   * disconnects nothing; then the peer hub, if any, is disconnected.
   */
  function DisconnectEventHubs(st: Engine): (r: Engine)
    ensures !PeerHubConnected(r)
    ensures r.channelEventHubs == st.channelEventHubs && r.peerEventHub == st.peerEventHub
    ensures r.channels == st.channels && r.calls == st.calls && r.nextHub == st.nextHub
    ensures st.peerEventHub.Some? ==> r.live == st.live - {st.peerEventHub.value}
    ensures st.peerEventHub.None? ==> r.live == st.live
    ensures !PeerHubConnected(st) ==> r == st
    ensures Valid(st) ==> Valid(r)
  {
    match st.peerEventHub
    case None => st
    case Some(hub) => st.(live := st.live - {hub})
  }

  /**
   * Shutdown as written leaves every channel hub exactly as connected as it
   * was before; only the peer hub goes down.
   */
  lemma DisconnectLeavesChannelHubs(st: Engine)
    requires Valid(st)
    ensures var r := DisconnectEventHubs(st);
      forall n :: ChannelHubConnected(r, Some(n)) == ChannelHubConnected(st, Some(n))
  {
  }
}
