/**
 * The two block-number filters of FabricEvent's block callbacks.
 *
 * The peer-level hub forwards only the first block of a channel (number 0,
 * the block that announces a new channel); every channel-level hub forwards
 * every other block. Both callbacks use the same test, written
 * `number === '0' || number == 0`, once as is and once negated.
 */
module BlockFilter {

  /** `block.header.number` as it reaches a callback: a number or a string. */
  datatype BlockNumber = Num(value: int) | Str(text: string)

  /** A delivered block: the channel it was committed to and its header number. */
  datatype Block = Block(channel: string, number: BlockNumber)

  /**
   * `number == 0` under JavaScript's loose equality, for the representations
   * modelled here: a number equal to 0, or the string "0".
   */
  predicate LooselyEqualsZero(n: BlockNumber)
  {
    match n
    case Num(v) => v == 0
    case Str(t) => t == "0"
  }

  /**
   * The peer hub's callback hands a block to processBlockEvent exactly for
   * block 0: the test `number === '0' || number == 0`.
   */
  function PeerHubForwards(n: BlockNumber): (r: bool)
    ensures r <==> n == Num(0) || n == Str("0")
  {
    n == Str("0") || LooselyEqualsZero(n)
  }

  /** A channel hub's callback hands on every block except block 0: the same test, negated. */
  function ChannelHubForwards(n: BlockNumber): (r: bool)
    ensures r <==> n != Num(0) && n != Str("0")
  {
    !PeerHubForwards(n)
  }

  /** Every block number is accepted by exactly one of the two filters. */
  lemma FiltersPartition(n: BlockNumber)
    ensures PeerHubForwards(n) != ChannelHubForwards(n)
    ensures PeerHubForwards(n) || ChannelHubForwards(n)
  {
  }

  /** The blocks of a delivered stream that the peer hub's callback forwards, in order. */
  function PeerForwarded(bs: seq<Block>): (r: seq<Block>)
    ensures forall b :: b in r ==> PeerHubForwards(b.number)
    ensures multiset(r) <= multiset(bs)
  {
    if bs == [] then []
    else
      assert bs == [bs[0]] + bs[1..];
      (if PeerHubForwards(bs[0].number) then [bs[0]] else []) + PeerForwarded(bs[1..])
  }

  /** The blocks of a delivered stream that a channel hub's callback forwards, in order. */
  function ChannelForwarded(bs: seq<Block>): (r: seq<Block>)
    ensures forall b :: b in r ==> !PeerHubForwards(b.number)
    ensures multiset(r) <= multiset(bs)
  {
    if bs == [] then []
    else
      assert bs == [bs[0]] + bs[1..];
      (if ChannelHubForwards(bs[0].number) then [bs[0]] else []) + ChannelForwarded(bs[1..])
  }

  /**
   * When the same stream of blocks reaches both the peer hub and a channel
   * hub, the two callbacks together forward every block exactly once: no
   * block is persisted twice and none is dropped by both.
   */
  lemma {:induction false} EachBlockForwardedOnce(bs: seq<Block>)
    ensures multiset(PeerForwarded(bs)) + multiset(ChannelForwarded(bs)) == multiset(bs)
  {
    if bs != [] {
      EachBlockForwardedOnce(bs[1..]);
      assert bs == [bs[0]] + bs[1..];
      FiltersPartition(bs[0].number);
    }
  }
}
