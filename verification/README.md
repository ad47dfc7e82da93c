# FabricEvent: event subscription and gap recovery

The block-explorer synchroniser keeps its database current through the
`FabricEvent` class (`app/platform/fabric/sync/FabricEvent.js`). The class
owns two kinds of ledger-SDK event hub:

- **The peer-level hub.** It watches for the first block (block 0) of every
  channel, so that a channel created on the network is noticed.
- **The channel-level hubs.** There is one per channel the client knows. Each
  forwards every later block of its channel.

Both kinds hand the blocks they forward to the persistence service
`fabricServices.processBlockEvent`. A periodic reconciliation pass,
`synchBlocks`, compares the channels the network reports with the channels
the client knows. It initializes the missing channels, pushes the network
configuration to the database, and brings every channel's hub back up:

- it reconnects a registered hub that is down;
- it creates a hub for a known channel that has none;
- it re-synchronises the blocks of a channel whose hub is live.

Shutdown goes through `disconnectEventHubs`.

The project describes this in two layers:

- **A value-level model.** `EngineState` and `Reconciliation` give every
  operation as a pure transition on an `Engine` value. The lemmas beside
  them prove what the class promises.
- **The class itself.** `FabricEventClass.FabricEvent` has the same fields,
  methods that update them in place, and the same loops. Each method is
  proved to leave the object in exactly the state the matching transition
  prescribes.

A hub is modelled by its identity, which the SDK hands out from `nextHub`.
The set `live` holds the hubs whose connection is currently up. So
reconnecting a hub changes `live` only, and the registry keeps pointing at
the very same hub, as the source's object references do. The client's
channel set is part of the state. So is a log of the calls the engine makes
outside itself:

- to `fabricServices`;
- to `client.initializeNewChannel`;
- the follow-ups it schedules on a 5-second timer.

The network's answer to `queryChannels` is an input list. The set of
channels that `initializeNewChannel` cannot register is an input too.

A channel the network lists but the client cannot register is handled
twice in one pass. The first loop initializes it by name and pushes the
network configuration. The channel stays unknown and has no hub, so the
second loop reaches its fourth branch. There it initializes the channel
again, this time passing the engine object as the first argument, and
pushes the configuration a second time.

Files:

- `wrappers.dfy`: `Option`.
- `block_filter.dfy`: the block-number filters of the two callbacks.
- `engine_state.dfy`: the engine state and the hub operations.
- `reconciliation.dfy`: `synchBlocks`.
- `fabric_event.dfy`: the class.

## Model

| member | source | states |
|---|---|---|
| BlockFilter.PeerHubForwards | app/platform/fabric/sync/FabricEvent.js:41-43 | the peer hub's callback forwards a block exactly when its number is `0` or `'0'` |
| BlockFilter.ChannelHubForwards | app/platform/fabric/sync/FabricEvent.js:81-83 | a channel hub's callback forwards a block exactly when its number is neither `0` nor `'0'` |
| BlockFilter.FiltersPartition | app/platform/fabric/sync/FabricEvent.js:41-43 | every block number is accepted by exactly one of the two filters |
| BlockFilter.PeerForwarded | app/platform/fabric/sync/FabricEvent.js:38-44 | the peer hub's filter applied to a stream of blocks keeps only block-0 blocks, each taken from the stream |
| BlockFilter.ChannelForwarded | app/platform/fabric/sync/FabricEvent.js:78-84 | a channel hub's filter applied to a stream of blocks keeps only blocks other than block 0, each taken from the stream |
| BlockFilter.EachBlockForwardedOnce | app/platform/fabric/sync/FabricEvent.js:38-44 | applied to the same stream, the two filters together keep every block exactly once, as multisets |
| EngineState.PeerHubConnected | app/platform/fabric/sync/FabricEvent.js:67-73 | false without a peer hub, otherwise the peer hub's live status |
| EngineState.ChannelHubConnected | app/platform/fabric/sync/FabricEvent.js:113-120 | false for a missing name or a name with no registry entry, otherwise that entry's live status |
| EngineState.CreatePeerHub | app/platform/fabric/sync/FabricEvent.js:33-50 | a fresh hub becomes the peer hub and is connected; a synchBlocks follow-up is scheduled; the registry and the channel set are unchanged; the invariant is kept |
| EngineState.ConnectPeerHub | app/platform/fabric/sync/FabricEvent.js:52-65 | an existing peer hub is the one reconnected, with no new hub and only that hub added to `live`; without one the result is exactly createPeerEventHub's; either way the peer hub ends connected and one follow-up is scheduled |
| EngineState.CreateChannelHub | app/platform/fabric/sync/FabricEvent.js:75-92 | the fresh hub is stored under the channel's name, replacing any earlier entry, and is connected; every other entry is unchanged; one follow-up is scheduled for that channel |
| EngineState.ConnectChannelHub | app/platform/fabric/sync/FabricEvent.js:94-111 | given a hub, it reconnects that hub and leaves the registry alone; given none, it is exactly createChannelEventHub for the channel; the channel's hub ends live |
| EngineState.ReconnectKeepsHub | app/platform/fabric/sync/FabricEvent.js:94-104 | reconnecting the registered hub of a channel keeps the registry and the hub identity, makes the channel live, and leaves every other channel's status unchanged |
| EngineState.CreateLeavesOthers | app/platform/fabric/sync/FabricEvent.js:75-92 | creating a hub for one channel leaves every other channel's connection status unchanged |
| EngineState.CreateChannelHubs | app/platform/fabric/sync/FabricEvent.js:24-30 | after the loop every named channel has a fresh live hub; the other entries are unchanged; the registry's keys grow by exactly the names; the follow-ups are scheduled in order |
| EngineState.CreateChannelHubsLive | app/platform/fabric/sync/FabricEvent.js:24-30 | the loop brings up exactly the hubs it creates and no other |
| EngineState.Initialize | app/platform/fabric/sync/FabricEvent.js:15-31 | the peer hub is the fresh hub line 17 creates, and it is live; every locally known channel's hub is live; the calls are the peer follow-up and then one channel follow-up per local channel, in order |
| EngineState.InitializeCoversLocalChannels | app/platform/fabric/sync/FabricEvent.js:23-30 | after initialize every local channel has a registry entry holding a hub created by initialize, and that hub is live |
| EngineState.InitializeLive | app/platform/fabric/sync/FabricEvent.js:15-31 | initialize brings up exactly the fresh peer hub and one fresh hub per local channel, and no other hub |
| EngineState.OnPeerBlock | app/platform/fabric/sync/FabricEvent.js:39-44 | the peer callback logs processBlockEvent for a block-0 block and changes nothing otherwise |
| EngineState.OnChannelBlock | app/platform/fabric/sync/FabricEvent.js:79-84 | a channel callback logs processBlockEvent for any other block and changes nothing for block 0 |
| EngineState.ProcessedExactlyOnce | app/platform/fabric/sync/FabricEvent.js:39-44 | a block delivered to both callbacks, in either order, is handed to processBlockEvent exactly once |
| EngineState.PeerDeliveryForwards | app/platform/fabric/sync/FabricEvent.js:38-44 | a stream of blocks delivered to the peer hub's callback one by one logs processBlockEvent for exactly the blocks the peer filter keeps, in stream order, and changes nothing else |
| EngineState.ChannelDeliveryForwards | app/platform/fabric/sync/FabricEvent.js:78-84 | a stream of blocks delivered to a channel hub's callback one by one logs processBlockEvent for exactly the blocks the channel filter keeps, in stream order, and changes nothing else |
| EngineState.SynchChannelBlocks | app/platform/fabric/sync/FabricEvent.js:140-145 | fabricServices.synchBlocks is called for the channel exactly when its hub is live; nothing else changes |
| EngineState.ClientInitializeNewChannel | app/platform/fabric/sync/FabricEvent.js:160 | the call is logged; a channel becomes known exactly when it was known or it is the named argument and can be registered; no hub changes |
| EngineState.DisconnectEventHubs | app/platform/fabric/sync/FabricEvent.js:127-138 | afterwards the peer hub is down; only the peer hub leaves `live`; the registry, the channels and the calls are unchanged |
| EngineState.DisconnectLeavesChannelHubs | app/platform/fabric/sync/FabricEvent.js:129-134 | because the status lookup gets no channel name, shutdown leaves every channel hub exactly as connected as it was |
| Reconciliation.FirstPassStep | app/platform/fabric/sync/FabricEvent.js:157-162 | a known channel is skipped with no change; an unknown one leads to initializeNewChannel by name then synchNetworkConfigToDB, and becomes known exactly when it is not refused; no hub changes |
| Reconciliation.FirstPass | app/platform/fabric/sync/FabricEvent.js:156-163 | after the first loop a channel is known exactly when it was known before or it is listed and can be initialized; no hub is touched |
| Reconciliation.Missing | app/platform/fabric/sync/FabricEvent.js:158 | the listed channels the client lacks: exactly those listed and not known, without repetitions when the list has none |
| Reconciliation.FirstPassCalls | app/platform/fabric/sync/FabricEvent.js:156-163 | the first loop calls initializeNewChannel and then synchNetworkConfigToDB for each missing channel, in list order, and makes no other call |
| Reconciliation.ConfigPushCount | app/platform/fabric/sync/FabricEvent.js:161 | those calls hold one synchNetworkConfigToDB per missing channel |
| Reconciliation.InitializeCount | app/platform/fabric/sync/FabricEvent.js:160 | those calls initialize each channel as often as it is missing |
| Reconciliation.ConfigPushedOncePerMissingChannel | app/platform/fabric/sync/FabricEvent.js:156-163 | for a list without repetitions, the first loop calls synchNetworkConfigToDB once per missing channel and initializes each missing channel exactly once |
| Reconciliation.BranchOf | app/platform/fabric/sync/FabricEvent.js:167-186 | each listed channel takes exactly one of the four branches, each characterised by the hub's status, the registry and the channel set |
| Reconciliation.SecondPassStep | app/platform/fabric/sync/FabricEvent.js:164-188 | per branch: resynch logs fabricServices.synchBlocks only; reconnect keeps the registry and adds exactly the registered hub to `live`; create adds one fresh entry and exactly that hub to `live`; both schedule one follow-up; the fourth branch only logs initializeNewChannel(engine) and the config push; known or registered channels end live; every other channel keeps its connection status |
| Reconciliation.SecondPass | app/platform/fabric/sync/FabricEvent.js:164-188 | the second loop keeps the channel set, every registry entry and every live connection; it adds registry entries only for listed known channels; every listed channel that is known or registered ends live |
| Reconciliation.SecondPassFrame | app/platform/fabric/sync/FabricEvent.js:164-188 | every channel the second loop does not visit keeps its connection status |
| Reconciliation.FirstPassExtend | app/platform/fabric/sync/FabricEvent.js:156-163 | the first loop over one more listed channel is one more step |
| Reconciliation.SecondPassExtend | app/platform/fabric/sync/FabricEvent.js:164-188 | the second loop over one more listed channel is one more step |
| Reconciliation.SynchBlocks | app/platform/fabric/sync/FabricEvent.js:147-189 | the peer hub is connected afterwards, reconnected first if it was down; no connection goes down; the channel set grows by exactly the listed channels that can be initialized; no registry entry is replaced, and new entries are only for listed channels the client knows; the invariant is kept |
| Reconciliation.SynchBlocksFrame | app/platform/fabric/sync/FabricEvent.js:147-189 | every channel the network does not list keeps its connection status across a pass |
| Reconciliation.SynchBlocksConverges | app/platform/fabric/sync/FabricEvent.js:147-189 | every listed channel that was known or can be initialized is known afterwards and has a live hub |
| Reconciliation.Unregistered | app/platform/fabric/sync/FabricEvent.js:172-181 | the listed channels that reach the fourth branch: exactly those neither known nor registered |
| Reconciliation.Reinitialized | app/platform/fabric/sync/FabricEvent.js:181-185 | the listed channels a pass re-initializes with the engine object: exactly those unknown, refused and unregistered when the pass starts |
| Reconciliation.SecondPassConfigCount | app/platform/fabric/sync/FabricEvent.js:164-188 | the second loop calls synchNetworkConfigToDB exactly once per listed channel neither known nor registered when it starts |
| Reconciliation.SynchBlocksConfigCount | app/platform/fabric/sync/FabricEvent.js:147-189 | a whole pass over a list without repetitions calls synchNetworkConfigToDB once per missing channel, plus once more per missing channel that is refused and has no hub |
| Reconciliation.RefusedChannelPushedTwice | app/platform/fabric/sync/FabricEvent.js:156-188 | a listed channel that is unknown, unregistered and refused is pushed twice in one pass: at line 161 and again at line 184 |
| Reconciliation.SynchBlocksPushesConfigOncePerMissing | app/platform/fabric/sync/FabricEvent.js:147-189 | when every listed channel is known or can be initialized, a whole pass calls synchNetworkConfigToDB exactly once per missing channel |
| Reconciliation.NewChannelScenario | app/platform/fabric/sync/FabricEvent.js:147-189 | a client knowing chA, with chA and chB listed, ends knowing both, with both hubs live, after exactly one configuration push |
| FabricEventClass.FabricEvent.constructor | app/platform/fabric/sync/FabricEvent.js:8-13 | a new engine has no peer hub, an empty registry and an empty call log |
| FabricEventClass.FabricEvent.Initialize | app/platform/fabric/sync/FabricEvent.js:15-31 | the loop leaves the object in the state Initialize prescribes |
| FabricEventClass.FabricEvent.CreatePeerEventHub | app/platform/fabric/sync/FabricEvent.js:33-50 | the object ends in the state CreatePeerHub prescribes |
| FabricEventClass.FabricEvent.ConnectPeerEventHub | app/platform/fabric/sync/FabricEvent.js:52-65 | the state ConnectPeerHub prescribes; it returns false exactly when it had to create the hub |
| FabricEventClass.FabricEvent.CreateChannelEventHub | app/platform/fabric/sync/FabricEvent.js:75-92 | the object ends in the state CreateChannelHub prescribes |
| FabricEventClass.FabricEvent.ConnectChannelEventHub | app/platform/fabric/sync/FabricEvent.js:94-111 | the state ConnectChannelHub prescribes; it returns false exactly when it had to create a hub |
| FabricEventClass.FabricEvent.PeerBlockEvent | app/platform/fabric/sync/FabricEvent.js:39-44 | the state OnPeerBlock prescribes |
| FabricEventClass.FabricEvent.ChannelBlockEvent | app/platform/fabric/sync/FabricEvent.js:79-84 | the state OnChannelBlock prescribes |
| FabricEventClass.FabricEvent.ClientInitializeNewChannelCall | app/platform/fabric/sync/FabricEvent.js:183 | the call with a channel name (line 160) or the engine object (line 183) leaves the object in the state ClientInitializeNewChannel prescribes, keeping the invariant |
| FabricEventClass.FabricEvent.DisconnectEventHubs | app/platform/fabric/sync/FabricEvent.js:127-138 | the loop over the registry disconnects nothing; the object ends in the state DisconnectEventHubs prescribes |
| FabricEventClass.FabricEvent.SynchChannelBlocks | app/platform/fabric/sync/FabricEvent.js:140-145 | the state SynchChannelBlocks prescribes |
| FabricEventClass.FabricEvent.AddMissingChannel | app/platform/fabric/sync/FabricEvent.js:157-162 | one iteration of the first loop, as FirstPassStep prescribes |
| FabricEventClass.FabricEvent.ReconcileChannel | app/platform/fabric/sync/FabricEvent.js:165-187 | one iteration of the second loop, as SecondPassStep prescribes |
| FabricEventClass.FabricEvent.SynchBlocks | app/platform/fabric/sync/FabricEvent.js:147-189 | the peer check and the two loops leave the object in the state SynchBlocks prescribes |

## Left out

- The process that drives the engine (`sync.js`: arguments, signal and exception handlers, exit) is not part of this model. It holds no logic about hubs or channels.
- Timing and asynchrony: each 5-second `setTimeout` follow-up is a `ScheduledSynchBlocks` or `ScheduledSynchChannelBlocks` entry in the call log, and it is not run. Each operation is one sequential step. The interleaving of block callbacks with an `await` inside `synchBlocks` is not modelled.
- SDK internals (`getEventHub`, `newChannelEventHub`, `registerBlockEvent`, `connect`, `isconnected`, `disconnect`, `getChannel`): a hub is an identity and its status is membership in `live`. `connect` is modelled as succeeding at once; a connection that drops later is covered only because every lemma holds for any state, whatever its `live` set.
- `queryChannels` is an input list; its failure, and an exception thrown by `initializeNewChannel` or by a `fabricServices` call, are not modelled.
- `fabricServices` (`processBlockEvent`, `synchBlocks`, `synchNetworkConfigToDB`) is recorded in the call log only; what it persists is not modelled.
- Logging and the error callbacks of `registerBlockEvent`, which only log.
- JavaScript loose equality in `number == 0`: only the number 0 and the string `'0'` are modelled as zero. Other strings that coerce to 0 (`''`, `'00'`, `' 0'`) are outside the model, since a block number is `Num(int)` or `Str(string)` compared structurally.
- `disconnectChannelEventHub` (lines 122-125, which call the misspelt `disconnec()`) is unreachable. The only caller sits behind the status lookup at line 130, which gets no channel name and so always answers false. The method is not modelled, and the class's shutdown loop proves that branch dead.
- The constructor sets `peerEventHub` to `{}`, an object without SDK methods. It is modelled as no peer hub. Calling a connect or status operation, or `disconnectEventHubs` (whose line 136 calls `disconnect()` on that object), before `initialize` would throw in the source. The model treats that hub as absent, so there `DisconnectEventHubs` changes nothing.
- `client.initializeNewChannel` (FabricClient.js is not part of this model) is modelled as registering the named channel unless it is in the input set `refused`. The call at line 183 passes the engine object as its first argument. It is modelled as registering no channel, on the reading, suggested by line 160, that the client takes the channel name as its first parameter. Any other behaviour of the client here is outside the model.
- The value returned by `connectPeerEventHub` and `connectChannelEventHub` when they connect is `undefined`, which is modelled as `None`.
