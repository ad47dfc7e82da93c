/**
 * synchBlocks, the reconciliation pass, as a pure transition.
 *
 * The network's authoritative channel list (the result of queryChannels) is
 * an input. The pass first reconnects the peer hub if it is down. A first
 * loop then initializes every listed channel the client does not know and
 * pushes the network configuration. A second loop sends every listed
 * channel down one of four branches.
 *
 * `refused` names the channels that client.initializeNewChannel fails to
 * register: the network facade cannot initialize them.
 */
module Reconciliation {
  import opened Wrappers
  import opened EngineState

  /**
   * One iteration of the first loop: a known channel is skipped; an unknown
   * one is initialized by name and the network configuration is pushed.
   */
  function FirstPassStep(st: Engine, name: string, refused: set<string>): (r: Engine)
    ensures name in st.channels ==> r == st
    ensures name !in st.channels ==>
              r.calls == st.calls + [InitializeNewChannel(ChannelName(name)), SynchNetworkConfigToDB]
    ensures forall n :: n in r.channels <==> n in st.channels || (n == name && n !in refused)
    ensures r.peerEventHub == st.peerEventHub && r.channelEventHubs == st.channelEventHubs
    ensures r.live == st.live && r.nextHub == st.nextHub
    ensures Valid(st) ==> Valid(r)
  {
    if name in st.channels then st
    else
      var initialized := ClientInitializeNewChannel(st, ChannelName(name), refused);
      initialized.(calls := initialized.calls + [SynchNetworkConfigToDB])
  }

  /**
   * The first loop over the listed channels. A listed channel is known
   * afterwards exactly when it was known before or could be initialized.
   * No hub is touched.
   */
  function FirstPass(st: Engine, listed: seq<string>, refused: set<string>): (r: Engine)
    decreases |listed|
    ensures r.peerEventHub == st.peerEventHub && r.channelEventHubs == st.channelEventHubs
    ensures r.live == st.live && r.nextHub == st.nextHub
    ensures forall n :: n in r.channels <==> n in st.channels || (n in listed && n !in refused)
    ensures Valid(st) ==> Valid(r)
  {
    if listed == [] then st
    else
      var front := listed[..|listed| - 1];
      var last := listed[|listed| - 1];
      assert forall n :: n in listed <==> n in front || n == last;
      FirstPassStep(FirstPass(st, front, refused), last, refused)
  }

  /** The listed channels missing from `local`, in the order listed. */
  function Missing(listed: seq<string>, local: seq<string>): (r: seq<string>)
    ensures forall n :: n in r <==> n in listed && n !in local
    ensures NoDuplicates(listed) ==> NoDuplicates(r)
  {
    if listed == [] then []
    else
      var front := listed[..|listed| - 1];
      var last := listed[|listed| - 1];
      assert forall n :: n in listed <==> n in front || n == last;
      assert NoDuplicates(listed) ==> NoDuplicates(front) && last !in front;
      Missing(front, local) + (if last in local then [] else [last])
  }

  /** The calls the first loop makes for the missing channels `names`, in order. */
  function InitCalls(names: seq<string>): (r: seq<Call>)
    ensures |r| == 2 * |names|
  {
    if names == [] then []
    else
      InitCalls(names[..|names| - 1])
        + [InitializeNewChannel(ChannelName(names[|names| - 1])), SynchNetworkConfigToDB]
  }

  /**
   * For a channel list without repetitions, the first loop calls
   * initializeNewChannel and then synchNetworkConfigToDB for each missing
   * channel, in the order listed, and makes no other call.
   */
  lemma {:induction false} FirstPassCalls(st: Engine, listed: seq<string>, refused: set<string>)
    requires NoDuplicates(listed)
    ensures FirstPass(st, listed, refused).calls == st.calls + InitCalls(Missing(listed, st.channels))
  {
    if listed == [] {
      assert st.calls + InitCalls([]) == st.calls;
    } else {
      var front := listed[..|listed| - 1];
      var last := listed[|listed| - 1];
      assert listed == front + [last];
      SplitLast(listed);
      FirstPassCalls(st, front, refused);
      var before := FirstPass(st, front, refused);
      var earlier := InitCalls(Missing(front, st.channels));
      assert before.calls == st.calls + earlier;
      assert FirstPass(st, listed, refused) == FirstPassStep(before, last, refused);
      assert last in before.channels <==> last in st.channels;
      if last in st.channels {
        assert FirstPassStep(before, last, refused) == before;
        MissingKnown(front, last, st.channels);
      } else {
        var pair := [InitializeNewChannel(ChannelName(last)), SynchNetworkConfigToDB];
        MissingUnknown(front, last, st.channels);
        calc {
          FirstPass(st, listed, refused).calls;
          before.calls + pair;
          (st.calls + earlier) + pair;
          { AppendAssociates(st.calls, earlier, pair); }
          st.calls + (earlier + pair);
          st.calls + InitCalls(Missing(listed, st.channels));
        }
      }
    }
  }

  /** A listed channel the client knows adds no call. */
  lemma MissingKnown(front: seq<string>, last: string, local: seq<string>)
    requires last in local
    ensures Missing(front + [last], local) == Missing(front, local)
  {
    assert (front + [last])[..|front + [last]| - 1] == front;
  }

  /** A listed channel the client does not know adds its two calls. */
  lemma MissingUnknown(front: seq<string>, last: string, local: seq<string>)
    requires last !in local
    ensures InitCalls(Missing(front + [last], local))
      == InitCalls(Missing(front, local)) + [InitializeNewChannel(ChannelName(last)), SynchNetworkConfigToDB]
  {
    assert (front + [last])[..|front + [last]| - 1] == front;
    var m := Missing(front, local);
    assert Missing(front + [last], local) == m + [last];
    assert (m + [last])[..|m + [last]| - 1] == m;
  }

  /** Without repetitions, the last element does not occur before it. */
  lemma SplitLast(s: seq<string>)
    requires NoDuplicates(s) && s != []
    ensures NoDuplicates(s[..|s| - 1]) && s[|s| - 1] !in s[..|s| - 1]
  {
  }

  /** The calls for the missing channels, split before the last channel's two calls. */
  lemma InitCallsSplit(names: seq<string>)
    requires names != []
    ensures multiset(InitCalls(names)) == multiset(InitCalls(names[..|names| - 1]))
      + multiset{InitializeNewChannel(ChannelName(names[|names| - 1])), SynchNetworkConfigToDB}
  {
    var pair := [InitializeNewChannel(ChannelName(names[|names| - 1])), SynchNetworkConfigToDB];
    assert InitCalls(names) == InitCalls(names[..|names| - 1]) + pair;
  }

  /** The calls made for the missing channels hold one synchNetworkConfigToDB per missing channel. */
  lemma {:induction false} ConfigPushCount(names: seq<string>)
    ensures multiset(InitCalls(names))[SynchNetworkConfigToDB] == |names|
  {
    if names != [] {
      ConfigPushCount(names[..|names| - 1]);
      InitCallsSplit(names);
    }
  }

  /** The calls made for the missing channels initialize each of them as often as it is listed. */
  lemma {:induction false} InitializeCount(names: seq<string>, n: string)
    ensures multiset(InitCalls(names))[InitializeNewChannel(ChannelName(n))] == multiset(names)[n]
  {
    if names != [] {
      var front := names[..|names| - 1];
      var last := names[|names| - 1];
      InitializeCount(front, n);
      InitCallsSplit(names);
      MultisetSplitLast(names);
    }
  }

  lemma MultisetSplitLast(s: seq<string>)
    requires s != []
    ensures multiset(s) == multiset(s[..|s| - 1]) + multiset{s[|s| - 1]}
  {
    assert s == s[..|s| - 1] + [s[|s| - 1]];
  }

  /** Which of the second loop's four branches a listed channel takes. */
  datatype Branch =
    | Resynch          // its hub is live: fabricServices.synchBlocks
    | Reconnect        // its hub is registered but down: connect that hub again
    | CreateHub        // no hub, but the client knows the channel: create a hub
    | InitializeAgain  // neither: initialize the channel and push the network configuration

  function BranchOf(st: Engine, name: string): (b: Branch)
    ensures b == Resynch <==> ChannelHubConnected(st, Some(name))
    ensures b == Reconnect <==> !ChannelHubConnected(st, Some(name)) && name in st.channelEventHubs
    ensures b == CreateHub <==> name !in st.channelEventHubs && name in st.channels
    ensures b == InitializeAgain <==> name !in st.channelEventHubs && name !in st.channels
  {
    if ChannelHubConnected(st, Some(name)) then Resynch
    else if name in st.channelEventHubs then Reconnect
    else if name in st.channels then CreateHub
    else InitializeAgain
  }

  /**
   * One iteration of the second loop. The fourth branch hands the engine
   * object itself to initializeNewChannel as its first argument, so the
   * channel stays unknown to the client.
   */
  function SecondPassStep(st: Engine, name: string, refused: set<string>): (r: Engine)
    ensures r.channels == st.channels && r.peerEventHub == st.peerEventHub && st.live <= r.live
    ensures forall n :: n in st.channelEventHubs ==>
              n in r.channelEventHubs && r.channelEventHubs[n] == st.channelEventHubs[n]
    ensures name in st.channels || name in st.channelEventHubs ==> ChannelHubConnected(r, Some(name))
    ensures BranchOf(st, name) == Resynch ==> r == st.(calls := st.calls + [ServicesSynchBlocks(name)])
    ensures BranchOf(st, name) == Reconnect ==>
              && r.channelEventHubs == st.channelEventHubs && r.nextHub == st.nextHub
              && r.live == st.live + {st.channelEventHubs[name]}
    ensures BranchOf(st, name) == CreateHub ==>
              && r.channelEventHubs == st.channelEventHubs[name := st.nextHub] && r.nextHub == st.nextHub + 1
              && r.live == st.live + {st.nextHub}
    ensures BranchOf(st, name) == Reconnect || BranchOf(st, name) == CreateHub ==>
              r.calls == st.calls + [ScheduledSynchChannelBlocks(name)]
    ensures BranchOf(st, name) == InitializeAgain ==>
              && r == st.(calls := r.calls)
              && r.calls == st.calls + [InitializeNewChannel(EngineObject), SynchNetworkConfigToDB]
    ensures Valid(st) ==> forall n :: n != name ==> ChannelHubConnected(r, Some(n)) == ChannelHubConnected(st, Some(n))
    ensures Valid(st) ==> Valid(r)
  {
    match BranchOf(st, name)
    case Resynch => st.(calls := st.calls + [ServicesSynchBlocks(name)])
    case Reconnect => ConnectChannelHub(st, name, Some(st.channelEventHubs[name]))
    case CreateHub => CreateChannelHub(st, name)
    case InitializeAgain =>
      var initialized := ClientInitializeNewChannel(st, EngineObject, refused);
      initialized.(calls := initialized.calls + [SynchNetworkConfigToDB])
  }

  /**
   * The second loop over the listed channels. It never replaces a registry
   * entry and never takes a connection down, and every listed channel that
   * the client knows or that has a hub ends with a live hub.
   */
  function SecondPass(st: Engine, listed: seq<string>, refused: set<string>): (r: Engine)
    decreases |listed|
    ensures r.channels == st.channels && r.peerEventHub == st.peerEventHub && st.live <= r.live
    ensures forall n :: n in st.channelEventHubs ==>
              n in r.channelEventHubs && r.channelEventHubs[n] == st.channelEventHubs[n]
    ensures forall n :: n in listed && (n in st.channels || n in st.channelEventHubs) ==>
              ChannelHubConnected(r, Some(n))
    ensures forall n :: n in r.channelEventHubs ==> n in st.channelEventHubs || (n in listed && n in st.channels)
    ensures Valid(st) ==> Valid(r)
  {
    if listed == [] then st
    else
      var front := listed[..|listed| - 1];
      var last := listed[|listed| - 1];
      assert forall n :: n in listed <==> n in front || n == last;
      SecondPassStep(SecondPass(st, front, refused), last, refused)
  }

  /** The first loop, one more listed channel at a time. */
  lemma FirstPassExtend(st: Engine, listed: seq<string>, i: nat, refused: set<string>)
    requires i < |listed|
    ensures FirstPass(st, listed[..i + 1], refused) == FirstPassStep(FirstPass(st, listed[..i], refused), listed[i], refused)
  {
    assert listed[..i + 1][..i] == listed[..i];
  }

  /** The second loop, one more listed channel at a time. */
  lemma SecondPassExtend(st: Engine, listed: seq<string>, i: nat, refused: set<string>)
    requires i < |listed|
    ensures SecondPass(st, listed[..i + 1], refused) == SecondPassStep(SecondPass(st, listed[..i], refused), listed[i], refused)
  {
    assert listed[..i + 1][..i] == listed[..i];
  }

  /** synchBlocks: reconnect the peer hub if it is down, then the two loops. */
  function SynchBlocks(st: Engine, listed: seq<string>, refused: set<string>): (r: Engine)
    ensures PeerHubConnected(r)
    ensures r.peerEventHub == st.peerEventHub || st.peerEventHub.None?
    ensures forall n :: n in r.channels <==> n in st.channels || (n in listed && n !in refused)
    ensures forall n :: n in st.channelEventHubs ==>
              n in r.channelEventHubs && r.channelEventHubs[n] == st.channelEventHubs[n]
    ensures forall n :: n in r.channelEventHubs ==> n in st.channelEventHubs || (n in listed && n in r.channels)
    ensures st.live <= r.live
    ensures Valid(st) ==> Valid(r)
  {
    var peerChecked := if PeerHubConnected(st) then st else ConnectPeerHub(st);
    SecondPass(FirstPass(peerChecked, listed, refused), listed, refused)
  }

  /** The second loop leaves the status of every channel it does not visit as it was. */
  lemma {:induction false} SecondPassFrame(st: Engine, listed: seq<string>, refused: set<string>)
    requires Valid(st)
    ensures forall n :: n !in listed ==>
              ChannelHubConnected(SecondPass(st, listed, refused), Some(n)) == ChannelHubConnected(st, Some(n))
  {
    if listed != [] {
      var front := listed[..|listed| - 1];
      var last := listed[|listed| - 1];
      assert forall n :: n in front ==> n in listed;
      SecondPassFrame(st, front, refused);
      var before := SecondPass(st, front, refused);
      assert SecondPass(st, listed, refused) == SecondPassStep(before, last, refused);
    }
  }

  /** Every channel the network does not list keeps its connection status across a synchBlocks pass. */
  lemma SynchBlocksFrame(st: Engine, listed: seq<string>, refused: set<string>)
    requires Valid(st)
    ensures forall n :: n !in listed ==>
              ChannelHubConnected(SynchBlocks(st, listed, refused), Some(n)) == ChannelHubConnected(st, Some(n))
  {
    var peerChecked := if PeerHubConnected(st) then st else ConnectPeerHub(st);
    assert forall n :: ChannelHubConnected(peerChecked, Some(n)) == ChannelHubConnected(st, Some(n));
    var added := FirstPass(peerChecked, listed, refused);
    SecondPassFrame(added, listed, refused);
  }

  /**
   * Reconciliation converges: after one synchBlocks pass every listed
   * channel that the client knew, or that it could initialize, is known to
   * the client and has a live channel hub.
   */
  lemma SynchBlocksConverges(st: Engine, listed: seq<string>, refused: set<string>)
    ensures var r := SynchBlocks(st, listed, refused);
      forall n :: n in listed && (n in st.channels || n !in refused) ==>
        n in r.channels && ChannelHubConnected(r, Some(n))
  {
    var peerChecked := if PeerHubConnected(st) then st else ConnectPeerHub(st);
    var added := FirstPass(peerChecked, listed, refused);
    assert forall n :: n in listed && (n in st.channels || n !in refused) ==> n in added.channels;
  }

  /**
   * A pass over a list without repetitions calls synchNetworkConfigToDB
   * during its first loop exactly once for each listed channel the client
   * did not know.
   */
  lemma {:induction false} ConfigPushedOncePerMissingChannel(st: Engine, listed: seq<string>, refused: set<string>)
    requires NoDuplicates(listed)
    ensures var before := if PeerHubConnected(st) then st else ConnectPeerHub(st);
      var added := FirstPass(before, listed, refused);
      && |added.calls| >= |before.calls|
      && multiset(added.calls[|before.calls|..])[SynchNetworkConfigToDB] == |Missing(listed, st.channels)|
      && forall n :: n in listed && n !in st.channels ==>
           multiset(added.calls[|before.calls|..])[InitializeNewChannel(ChannelName(n))] == 1
  {
    var before := if PeerHubConnected(st) then st else ConnectPeerHub(st);
    var added := FirstPass(before, listed, refused);
    FirstPassCalls(before, listed, refused);
    var missing := Missing(listed, st.channels);
    assert before.channels == st.channels;
    assert added.calls[|before.calls|..] == InitCalls(missing);
    ConfigPushCount(missing);
    forall n | n in listed && n !in st.channels
      ensures multiset(added.calls[|before.calls|..])[InitializeNewChannel(ChannelName(n))] == 1
    {
      InitializeCount(missing, n);
      MultiplicityOne(missing, n);
    }
  }

  /** An element of a sequence without repetitions occurs in it once. */
  lemma {:induction false} MultiplicityOne(s: seq<string>, x: string)
    requires NoDuplicates(s) && x in s
    ensures multiset(s)[x] == 1
  {
    var front := s[..|s| - 1];
    var last := s[|s| - 1];
    assert s == front + [last];
    SplitLast(s);
    if x == last {
      assert multiset(front)[x] == 0;
    } else {
      MultiplicityOne(front, x);
    }
  }

  /**
   * The listed channels that reach the fourth branch of the second loop
   * from `st`: unknown to the client and without a registry entry, in the
   * order listed.
   */
  function Unregistered(listed: seq<string>, st: Engine): (r: seq<string>)
    ensures forall n :: n in r <==> n in listed && n !in st.channels && n !in st.channelEventHubs
  {
    if listed == [] then []
    else
      var front := listed[..|listed| - 1];
      var last := listed[|listed| - 1];
      assert forall n :: n in listed <==> n in front || n == last;
      Unregistered(front, st) + (if last !in st.channels && last !in st.channelEventHubs then [last] else [])
  }

  /**
   * The listed channels a pass starting in `st` initializes a second time,
   * with the engine object as argument: unknown to the client, refused by
   * initializeNewChannel, and without a registry entry.
   */
  function Reinitialized(listed: seq<string>, st: Engine, refused: set<string>): (r: seq<string>)
    ensures forall n :: n in r <==> n in listed && n !in st.channels && n in refused && n !in st.channelEventHubs
  {
    if listed == [] then []
    else
      var front := listed[..|listed| - 1];
      var last := listed[|listed| - 1];
      assert forall n :: n in listed <==> n in front || n == last;
      Reinitialized(front, st, refused)
        + (if last !in st.channels && last in refused && last !in st.channelEventHubs then [last] else [])
  }

  /**
   * The second loop calls synchNetworkConfigToDB once for every listed
   * channel that is neither known nor registered when the loop starts, and
   * at no other time.
   */
  lemma {:induction false} SecondPassConfigCount(st: Engine, listed: seq<string>, refused: set<string>)
    ensures multiset(SecondPass(st, listed, refused).calls)[SynchNetworkConfigToDB]
      == multiset(st.calls)[SynchNetworkConfigToDB] + |Unregistered(listed, st)|
  {
    if listed != [] {
      var front := listed[..|listed| - 1];
      var last := listed[|listed| - 1];
      SecondPassConfigCount(st, front, refused);
      var before := SecondPass(st, front, refused);
      assert SecondPass(st, listed, refused) == SecondPassStep(before, last, refused);
      var r := SecondPassStep(before, last, refused);
      var fourth := last !in st.channels && last !in st.channelEventHubs;
      assert Unregistered(listed, st) == Unregistered(front, st) + (if fourth then [last] else []);
      assert BranchOf(before, last) == InitializeAgain <==> fourth;
      var added := match BranchOf(before, last)
        case Resynch => [ServicesSynchBlocks(last)]
        case Reconnect => [ScheduledSynchChannelBlocks(last)]
        case CreateHub => [ScheduledSynchChannelBlocks(last)]
        case InitializeAgain => [InitializeNewChannel(EngineObject), SynchNetworkConfigToDB];
      assert r.calls == before.calls + added;
      assert multiset(r.calls) == multiset(before.calls) + multiset(added);
    }
  }

  /**
   * The two filters agree on a list whenever the state the second loop
   * starts in knows and registers each listed channel as described.
   */
  lemma {:induction false} UnregisteredAfterFirstPass(xs: seq<string>, added: Engine, st: Engine, refused: set<string>)
    requires forall n :: n in xs ==>
      ((n !in added.channels && n !in added.channelEventHubs) <==>
       (n !in st.channels && n in refused && n !in st.channelEventHubs))
    ensures Unregistered(xs, added) == Reinitialized(xs, st, refused)
  {
    if xs != [] {
      var front := xs[..|xs| - 1];
      assert forall n :: n in front ==> n in xs;
      UnregisteredAfterFirstPass(front, added, st, refused);
    }
  }

  /**
   * A whole synchBlocks pass over a list without repetitions calls
   * synchNetworkConfigToDB once for every listed channel the client did not
   * know (line 161), and once more for every such channel that
   * initializeNewChannel refused and that has no hub: the second loop
   * re-initializes it with the engine object, which registers nothing, and
   * pushes the configuration again (line 184).
   */
  lemma SynchBlocksConfigCount(st: Engine, listed: seq<string>, refused: set<string>)
    requires NoDuplicates(listed)
    ensures multiset(SynchBlocks(st, listed, refused).calls)[SynchNetworkConfigToDB]
      == multiset(st.calls)[SynchNetworkConfigToDB]
         + |Missing(listed, st.channels)| + |Reinitialized(listed, st, refused)|
  {
    var before := if PeerHubConnected(st) then st else ConnectPeerHub(st);
    assert multiset(before.calls)[SynchNetworkConfigToDB] == multiset(st.calls)[SynchNetworkConfigToDB] by {
      if !PeerHubConnected(st) {
        assert multiset(before.calls) == multiset(st.calls) + multiset{ScheduledSynchBlocks};
      }
    }
    var added := FirstPass(before, listed, refused);
    ConfigPushedOncePerMissingChannel(st, listed, refused);
    assert added.calls == before.calls + added.calls[|before.calls|..] by {
      FirstPassCalls(before, listed, refused);
    }
    assert multiset(added.calls) == multiset(before.calls) + multiset(added.calls[|before.calls|..]);
    SecondPassConfigCount(added, listed, refused);
    UnregisteredAfterFirstPass(listed, added, st, refused);
  }

  /**
   * When every listed channel is known or can be initialized, a whole
   * synchBlocks pass over a list without repetitions calls
   * synchNetworkConfigToDB exactly once per listed channel the client did
   * not know.
   */
  lemma SynchBlocksPushesConfigOncePerMissing(st: Engine, listed: seq<string>, refused: set<string>)
    requires NoDuplicates(listed)
    requires forall n :: n in listed ==> n in st.channels || n !in refused
    ensures multiset(SynchBlocks(st, listed, refused).calls)[SynchNetworkConfigToDB]
      == multiset(st.calls)[SynchNetworkConfigToDB] + |Missing(listed, st.channels)|
  {
    SynchBlocksConfigCount(st, listed, refused);
    NothingReinitialized(listed, st, refused);
  }

  /** Without a refused unknown channel, the second loop re-initializes nothing. */
  lemma {:induction false} NothingReinitialized(listed: seq<string>, st: Engine, refused: set<string>)
    requires forall n :: n in listed ==> n in st.channels || n !in refused
    ensures Reinitialized(listed, st, refused) == []
  {
    if listed != [] {
      var front := listed[..|listed| - 1];
      assert forall n :: n in front ==> n in listed;
      NothingReinitialized(front, st, refused);
    }
  }

  /**
   * A channel the network lists but that initializeNewChannel refuses, on a
   * client that neither knows it nor has a hub for it, is initialized twice
   * in one pass and the network configuration is pushed twice.
   */
  lemma RefusedChannelPushedTwice(st: Engine)
    requires st.channels == [] && st.channelEventHubs == map[]
    ensures multiset(SynchBlocks(st, ["chX"], {"chX"}).calls)[SynchNetworkConfigToDB]
      == multiset(st.calls)[SynchNetworkConfigToDB] + 2
  {
    SynchBlocksConfigCount(st, ["chX"], {"chX"});
    assert ["chX"][..0] == [];
    assert Missing(["chX"], st.channels) == ["chX"];
    assert Reinitialized(["chX"], st, {"chX"}) == ["chX"];
  }

  /** The channels the network lists in the scenario below that the client lacks. */
  lemma ScenarioMissing()
    ensures Missing(["chA", "chB"], ["chA"]) == ["chB"]
  {
    assert "chB"[2] != "chA"[2];
    assert ["chA", "chB"][..1] == ["chA"] && ["chA"][..0] == [];
    assert Missing(["chA"], ["chA"]) == [];
  }

  /** In the scenario below, the client ends knowing exactly the two channels. */
  lemma ScenarioKnowsBoth(st: Engine)
    requires st.channels == ["chA"]
    ensures forall n :: n in SynchBlocks(st, ["chA", "chB"], {}).channels <==> n == "chA" || n == "chB"
  {
  }

  /** In the scenario below, both channels end with a live hub. */
  lemma ScenarioBothLive(st: Engine)
    requires st.channels == ["chA"]
    ensures var r := SynchBlocks(st, ["chA", "chB"], {});
      ChannelHubConnected(r, Some("chA")) && ChannelHubConnected(r, Some("chB"))
  {
    var listed := ["chA", "chB"];
    assert listed[0] == "chA" && listed[1] == "chB";
    SynchBlocksConverges(st, listed, {});
  }

  /** In the scenario below, the network configuration is pushed once. */
  lemma ScenarioPushesOnce(st: Engine)
    requires st.channels == ["chA"]
    ensures multiset(SynchBlocks(st, ["chA", "chB"], {}).calls)[SynchNetworkConfigToDB]
      == multiset(st.calls)[SynchNetworkConfigToDB] + 1
  {
    ScenarioMissing();
    assert "chB"[2] != "chA"[2];
    SynchBlocksPushesConfigOncePerMissing(st, ["chA", "chB"], {});
  }

  /**
   * The scenario of a client that knows channel "chA" while the network
   * lists "chA" and "chB": after one pass the client knows both, both
   * channels have live hubs, and synchNetworkConfigToDB was called exactly
   * once, for "chB".
   */
  lemma NewChannelScenario(st: Engine)
    requires st.channels == ["chA"]
    ensures var r := SynchBlocks(st, ["chA", "chB"], {});
      && (forall n :: n in r.channels <==> n == "chA" || n == "chB")
      && ChannelHubConnected(r, Some("chA")) && ChannelHubConnected(r, Some("chB"))
      && multiset(r.calls)[SynchNetworkConfigToDB] == multiset(st.calls)[SynchNetworkConfigToDB] + 1
  {
    ScenarioKnowsBoth(st);
    ScenarioBothLive(st);
    ScenarioPushesOnce(st);
  }
}
