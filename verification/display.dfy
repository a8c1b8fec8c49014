/**
 What the page shows for a state: the text readout of the water height and
 the stack of fixed-height blocks drawn one per unit of level.
 */
module Display {
  import opened Tub
  import opened Reducer

  /** The height of one drawn block, in pixels. */
  const BlockHeight: int := 20

  /** The largest length `Array(n)` accepts; beyond it (or below zero) the
      constructor throws a RangeError. */
  const MaxArrayLength: int := 0x1_0000_0000 - 1

  /** The number shown after "Water counter:", in pixels. */
  function Readout(s: TubState): int
  {
    s.level * BlockHeight
  }

  /** One drawn block: its React key and its height. */
  datatype Block = Block(key: int, height: int)

  /** The blocks drawn for a state, one per unit of level with keys 0, 1, ...;
      `None` where building the array would throw. */
  function Blocks(s: TubState): (r: Option<seq<Block>>)
    ensures r.Some? <==> 0 <= s.level <= MaxArrayLength
    ensures r.Some? ==> |r.value| == s.level
    ensures r.Some? ==> forall i :: 0 <= i < |r.value| ==> r.value[i] == Block(i, BlockHeight)
  {
    if 0 <= s.level <= MaxArrayLength then Some(seq(s.level, i => Block(i, BlockHeight)))
    else None
  }

  /** The total height of a stack of blocks. */
  function StackHeight(bs: seq<Block>): int
    decreases |bs|
  {
    if |bs| == 0 then 0 else bs[0].height + StackHeight(bs[1..])
  }

  lemma {:induction false} UniformStackHeight(bs: seq<Block>, h: int)
    requires forall i :: 0 <= i < |bs| ==> bs[i].height == h
    ensures StackHeight(bs) == |bs| * h
    decreases |bs|
  {
    if |bs| > 0 {
      UniformStackHeight(bs[1..], h);
    }
  }

  /** In every reachable state the page draws exactly `level` blocks, and the
      readout equals the height of the drawn stack, a multiple of 20 between
      0 and 100. */
  lemma DisplayConsistent(s: TubState)
    requires Valid(s)
    ensures Blocks(s).Some? && |Blocks(s).value| == s.level
    ensures Readout(s) == StackHeight(Blocks(s).value)
    ensures 0 <= Readout(s) <= Ceiling * BlockHeight && Readout(s) % BlockHeight == 0
  {
    UniformStackHeight(Blocks(s).value, BlockHeight);
  }

  /** The readout grows by one block's height when an action fills the tub and
      shrinks by one when it drains. */
  lemma ReadoutFollowsStatus(s: TubState, a: Action)
    ensures Reduce(s, a).status == INCREASING ==> Readout(Reduce(s, a)) == Readout(s) + BlockHeight
    ensures Reduce(s, a).status == DECRESING ==> Readout(Reduce(s, a)) == Readout(s) - BlockHeight
    ensures Reduce(s, a).status == IDLING ==> Readout(Reduce(s, a)) == Readout(s)
  {
  }
}
