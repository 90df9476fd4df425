/** An independent, recursive reference for batch broadcasting, in the
    style NumPy's `matmul` documents it: peel off the last batch dimension
    of both operands, broadcast that pair, recurse on the rest, and once one
    operand runs out take the other's remaining dimensions as they are.
    It is proved equal to the index-based rule of MatmulSpec, and batch
    broadcasting is proved symmetric in its two operands. */
module BroadcastReference {
  import opened MatmulSpec

  function BroadcastFromRight(ba: seq<int>, bb: seq<int>): (r: Option<seq<int>>)
    decreases |ba|
  {
    if |ba| == 0 then Some(bb)
    else if |bb| == 0 then Some(ba)
    else
      match BroadcastDim(ba[|ba| - 1], bb[|bb| - 1])
      case None => None
      case Some(d) =>
        match BroadcastFromRight(ba[..|ba| - 1], bb[..|bb| - 1])
        case None => None
        case Some(rest) => Some(rest + [d])
  }

  /** Dropping the last batch dimension of both operands leaves every
      other aligned position unchanged; the last position is the last pair. */
  lemma BatchDimAtDropLast(ba: seq<int>, bb: seq<int>, p: nat)
    requires |ba| > 0 && |bb| > 0 && p < Max(|ba|, |bb|)
    ensures p < Max(|ba|, |bb|) - 1 ==>
      BatchDimAt(ba, bb, p) == BatchDimAt(ba[..|ba| - 1], bb[..|bb| - 1], p)
    ensures p == Max(|ba|, |bb|) - 1 ==>
      BatchDimAt(ba, bb, p) == BroadcastDim(ba[|ba| - 1], bb[|bb| - 1])
  {
  }

  /** The recursive reference and the index-based rule agree on every pair
      of batch lists: same verdict, and the same dimensions on success. */
  lemma {:induction false} BroadcastFromRightAgrees(ba: seq<int>, bb: seq<int>)
    ensures BroadcastFromRight(ba, bb) == BroadcastBatch(ba, bb)
    decreases |ba|
  {
    if |ba| == 0 {
      assert BatchCompatible(ba, bb);
      assert BroadcastBatch(ba, bb).value == bb;
    } else if |bb| == 0 {
      assert BatchCompatible(ba, bb);
      assert BroadcastBatch(ba, bb).value == ba;
    } else {
      var ba', bb' := ba[..|ba| - 1], bb[..|bb| - 1];
      var last := Max(|ba|, |bb|) - 1;
      BroadcastFromRightAgrees(ba', bb');
      forall p: nat | p < Max(|ba|, |bb|)
        ensures p < last ==> BatchDimAt(ba, bb, p) == BatchDimAt(ba', bb', p)
        ensures p == last ==> BatchDimAt(ba, bb, p) == BroadcastDim(ba[|ba| - 1], bb[|bb| - 1])
      {
        BatchDimAtDropLast(ba, bb, p);
      }
      if BroadcastDim(ba[|ba| - 1], bb[|bb| - 1]).None? {
        assert BatchDimAt(ba, bb, last).None?;
      } else if !BatchCompatible(ba', bb') {
        var q: nat :| q < Max(|ba'|, |bb'|) && BatchDimAt(ba', bb', q).None?;
        assert BatchDimAt(ba, bb, q).None?;
      } else {
        assert BatchCompatible(ba, bb);
        var rest := BroadcastBatch(ba', bb').value;
        var d := BroadcastDim(ba[|ba| - 1], bb[|bb| - 1]).value;
        assert BroadcastBatch(ba, bb).value == rest + [d];
      }
    }
  }

  /** The aligned pair rule does not depend on which operand is A. */
  lemma BroadcastDimSymmetric(a: int, b: int)
    ensures BroadcastDim(a, b) == BroadcastDim(b, a)
  {
  }

  /** Swapping the batch lists of A and B gives the same verdict and the
      same broadcast dimensions. */
  lemma BroadcastBatchSymmetric(ba: seq<int>, bb: seq<int>)
    ensures BroadcastBatch(ba, bb) == BroadcastBatch(bb, ba)
  {
    var n := Max(|ba|, |bb|);
    assert Max(|bb|, |ba|) == n;
    forall p: nat | p < n
      ensures BatchDimAt(ba, bb, p) == BatchDimAt(bb, ba, p)
    {
      if n - |ba| <= p && n - |bb| <= p {
        BroadcastDimSymmetric(ba[p - (n - |ba|)], bb[p - (n - |bb|)]);
      }
    }
    assert BatchCompatible(ba, bb) <==> BatchCompatible(bb, ba);
    if BatchCompatible(ba, bb) {
      assert BroadcastBatch(ba, bb).value == BroadcastBatch(bb, ba).value;
    }
  }
}
