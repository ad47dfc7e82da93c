/**
 * The FabricEvent class: the engine that owns the peer-level event hub and
 * the registry of channel-level event hubs, forwards blocks from their
 * callbacks, and reconciles the local view against the network.
 *
 * Besides its own two fields, the object holds the state of the
 * collaborators it reads: the client's local channel set, the SDK's
 * connection status of every hub, and the log of outside calls. Every
 * method is proved to take the state to exactly what the matching function
 * of EngineState or Reconciliation prescribes.
 */
module FabricEventClass {
  import opened Wrappers
  import opened BlockFilter
  import opened EngineState
  import Reconciliation

  class FabricEvent {
    var peerEventHub: Option<HubId>
    var channelEventHubs: map<string, HubId>
    /** The keys of client.getChannels(), in insertion order. */
    var channels: seq<string>
    /** The hubs whose isconnected() currently answers true. */
    var live: set<HubId>
    /** The identity the SDK gives the next hub it creates. */
    var nextHub: HubId
    /** The calls made so far to fabricServices, to the client and to the timer. */
    var calls: seq<Call>

    /** The object's state as a value. */
    function State(): Engine
      reads this
    {
      Engine(peerEventHub, channelEventHubs, channels, live, nextHub, calls)
    }

    predicate Valid()
      reads this
    {
      EngineState.Valid(State())
    }

    /**
     * new FabricEvent(client, fabricServices), for a client that knows the
     * channels `localChannels`. No hub exists yet.
     */
    constructor (localChannels: seq<string>)
      requires NoDuplicates(localChannels)
      ensures Valid()
      ensures State() == Engine(None, map[], localChannels, {}, 0, [])
    {
      peerEventHub := None;
      channelEventHubs := map[];
      channels := localChannels;
      live := {};
      nextHub := 0;
      calls := [];
    }

    /** initialize: the peer hub, then one hub per channel the client knows. */
    method Initialize()
      requires Valid()
      modifies this
      ensures Valid()
      ensures State() == EngineState.Initialize(old(State()))
    {
      CreatePeerEventHub();
      ghost var withPeer := State();
      var names := channels;
      var i := 0;
      while i < |names|
        invariant 0 <= i <= |names|
        invariant names == withPeer.channels
        invariant Valid()
        invariant State() == CreateChannelHubs(withPeer, names[..i])
      {
        CreateChannelEventHub(names[i]);
        CreateChannelHubsExtend(withPeer, names, i);
        i := i + 1;
      }
      assert names[..i] == names;
    }

    /** createPeerEventHub */
    method CreatePeerEventHub()
      requires Valid()
      modifies this
      decreases 1
      ensures Valid()
      ensures State() == CreatePeerHub(old(State()))
    {
      peerEventHub := Some(nextHub);
      nextHub := nextHub + 1;
      var _ := ConnectPeerEventHub();
    }

    /** connectPeerEventHub: the result is None (undefined) or false. */
    method ConnectPeerEventHub() returns (r: Option<bool>)
      requires Valid()
      modifies this
      decreases if peerEventHub.None? then 2 else 0
      ensures Valid()
      ensures State() == ConnectPeerHub(old(State()))
      ensures r == if old(peerEventHub).Some? then None else Some(false)
    {
      match peerEventHub {
        case Some(hub) =>
          live := live + {hub};
          calls := calls + [ScheduledSynchBlocks];
          r := None;
        case None =>
          CreatePeerEventHub();
          r := Some(false);
      }
    }

    /** createChannelEventHub(channel), for the channel named `name`. */
    method CreateChannelEventHub(name: string)
      requires Valid()
      modifies this
      decreases 1
      ensures Valid()
      ensures State() == CreateChannelHub(old(State()), name)
    {
      var hub := nextHub;
      nextHub := nextHub + 1;
      var _ := ConnectChannelEventHub(name, Some(hub));
      channelEventHubs := channelEventHubs[name := hub];
    }

    /** connectChannelEventHub(channel_name, eventHub): the result is None (undefined) or false. */
    method ConnectChannelEventHub(name: string, hub: Option<HubId>) returns (r: Option<bool>)
      requires Valid()
      modifies this
      decreases if hub.None? then 2 else 0
      ensures Valid()
      ensures State() == ConnectChannelHub(old(State()), name, hub)
      ensures r == if hub.Some? then None else Some(false)
    {
      match hub {
        case Some(h) =>
          live := live + {h};
          calls := calls + [ScheduledSynchChannelBlocks(name)];
          r := None;
        case None =>
          CreateChannelEventHub(name);
          r := Some(false);
      }
    }

    /** The callback registered on the peer hub. */
    method PeerBlockEvent(block: Block)
      requires Valid()
      modifies this
      ensures Valid()
      ensures State() == OnPeerBlock(old(State()), block)
    {
      if block.number == Str("0") || LooselyEqualsZero(block.number) {
        calls := calls + [ProcessBlockEvent(block)];
      }
    }

    /** The callback registered on every channel hub. */
    method ChannelBlockEvent(block: Block)
      requires Valid()
      modifies this
      ensures Valid()
      ensures State() == OnChannelBlock(old(State()), block)
    {
      if !(block.number == Str("0") || LooselyEqualsZero(block.number)) {
        calls := calls + [ProcessBlockEvent(block)];
      }
    }

    /**
     * client.initializeNewChannel(arg): the client's own operation, which
     * registers a named channel unless the network refuses it.
     */
    method ClientInitializeNewChannelCall(arg: InitArg, refused: set<string>)
      requires Valid()
      modifies this
      ensures Valid()
      ensures State() == ClientInitializeNewChannel(old(State()), arg, refused)
    {
      if arg.ChannelName? && arg.name !in refused && arg.name !in channels {
        channels := channels + [arg.name];
      }
      calls := calls + [InitializeNewChannel(arg)];
    }

    /**
     * disconnectEventHubs. The status asked for in the loop is that of an
     * unnamed channel, so the branch that would disconnect a channel hub is
     * never taken.
     */
    method DisconnectEventHubs()
      requires Valid()
      modifies this
      ensures Valid()
      ensures State() == EngineState.DisconnectEventHubs(old(State()))
    {
      var pending := channelEventHubs.Keys;
      while pending != {}
        invariant State() == old(State())
        decreases pending
      {
        var name :| name in pending;
        var status := ChannelHubConnected(State(), None);
        if status {
          assert false;
        }
        pending := pending - {name};
      }
      if peerEventHub.Some? {
        live := live - {peerEventHub.value};
      }
    }

    /** synchChannelBlocks(channel_name) */
    method SynchChannelBlocks(name: string)
      requires Valid()
      modifies this
      ensures Valid()
      ensures State() == EngineState.SynchChannelBlocks(old(State()), name)
    {
      if ChannelHubConnected(State(), Some(name)) {
        calls := calls + [ServicesSynchBlocks(name)];
      }
    }

    /** One iteration of synchBlocks' first loop: initialize a listed channel the client does not know. */
    method AddMissingChannel(name: string, refused: set<string>)
      requires Valid()
      modifies this
      ensures Valid()
      ensures State() == Reconciliation.FirstPassStep(old(State()), name, refused)
    {
      if name !in channels {
        ClientInitializeNewChannelCall(ChannelName(name), refused);
        calls := calls + [SynchNetworkConfigToDB];
      }
    }

    /** One iteration of synchBlocks' second loop: the four-way decision for one listed channel. */
    method ReconcileChannel(name: string, refused: set<string>)
      requires Valid()
      modifies this
      ensures Valid()
      ensures State() == Reconciliation.SecondPassStep(old(State()), name, refused)
    {
      if ChannelHubConnected(State(), Some(name)) {
        calls := calls + [ServicesSynchBlocks(name)];
      } else if name in channelEventHubs {
        var _ := ConnectChannelEventHub(name, Some(channelEventHubs[name]));
      } else if name in channels {
        CreateChannelEventHub(name);
      } else {
        ClientInitializeNewChannelCall(EngineObject, refused);
        calls := calls + [SynchNetworkConfigToDB];
      }
    }

    /**
     * synchBlocks, given the channel list the network reports (`listed`)
     * and the channels it cannot initialize (`refused`).
     */
    method SynchBlocks(listed: seq<string>, refused: set<string>)
      requires Valid()
      modifies this
      ensures Valid()
      ensures State() == Reconciliation.SynchBlocks(old(State()), listed, refused)
    {
      if !PeerHubConnected(State()) {
        var _ := ConnectPeerEventHub();
      }
      ghost var peerChecked := State();
      var i := 0;
      while i < |listed|
        invariant 0 <= i <= |listed|
        invariant Valid()
        invariant State() == Reconciliation.FirstPass(peerChecked, listed[..i], refused)
      {
        AddMissingChannel(listed[i], refused);
        Reconciliation.FirstPassExtend(peerChecked, listed, i, refused);
        i := i + 1;
      }
      assert listed[..i] == listed;
      ghost var added := State();
      i := 0;
      while i < |listed|
        invariant 0 <= i <= |listed|
        invariant Valid()
        invariant State() == Reconciliation.SecondPass(added, listed[..i], refused)
      {
        ReconcileChannel(listed[i], refused);
        Reconciliation.SecondPassExtend(added, listed, i, refused);
        i := i + 1;
      }
      assert listed[..i] == listed;
    }
  }
}
