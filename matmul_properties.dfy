/** Properties of the matmul shape rule: what a successful result looks
    like, when the rule answers "no value", how the transpose flags and
    the order of the batch operands act on it, and what the bias check
    may and may not do. */
module MatmulProperties {
  import opened MatmulSpec
  import BroadcastReference

  /** A's last two dimensions exchanged (the shape of A transposed);
      shapes of rank below 2 are left as they are. */
  function SwapLast2(s: Shape): (r: Shape)
    ensures |r| == |s|
    ensures |s| >= 2 ==> Batch(r) == Batch(s) && r[|s| - 2] == s[|s| - 1] && r[|s| - 1] == s[|s| - 2]
  {
    if |s| < 2 then s else s[..|s| - 2] + [s[|s| - 1], s[|s| - 2]]
  }

  /** Either operand of rank below 2 is rejected, whatever else is given. */
  lemma RankBelowTwoRejected(inputs: seq<Shape>, transA: bool, transB: bool)
    requires |inputs| >= 2 && (|inputs[0]| < 2 || |inputs[1]| < 2)
    ensures InferShape(inputs, transA, transB) == None
  {
  }

  /** A successful result is one shape of rank max(rankA, rankB): the
      broadcast batch dimensions followed by the effective (m, n). */
  lemma OutputShape(inputs: seq<Shape>, transA: bool, transB: bool)
    requires |inputs| >= 2 && InferShape(inputs, transA, transB).Some?
    ensures var a, b, outs := inputs[0], inputs[1], InferShape(inputs, transA, transB).value;
      |a| >= 2 && |b| >= 2 && |outs| == 1 &&
      |outs[0]| == Max(|a|, |b|) &&
      BroadcastBatch(Batch(a), Batch(b)).Some? &&
      outs[0][..|outs[0]| - 2] == BroadcastBatch(Batch(a), Batch(b)).value &&
      outs[0][|outs[0]| - 2..] == [RowsA(a, transA), ColsB(b, transB)]
  {
  }

  /** Effective inner dimensions that differ are rejected whatever the
      batch dimensions and the bias are. */
  lemma InnerMismatchRejected(inputs: seq<Shape>, transA: bool, transB: bool)
    requires |inputs| >= 2 && |inputs[0]| >= 2 && |inputs[1]| >= 2
    requires InnerA(inputs[0], transA) != InnerB(inputs[1], transB)
    ensures InferShape(inputs, transA, transB) == None
  {
  }

  /** A right-aligned pair of batch dimensions, a[i] and b[j], lands at
      position max(i, j) of the result, which is i shifted by the rank
      difference of A and j shifted by that of B; the pair obeys the
      broadcast rule, and a clashing pair rejects the inputs. */
  lemma {:induction false} AlignedPair(a: Shape, b: Shape, transA: bool, transB: bool, i: nat, j: nat)
    requires |a| >= 2 && |b| >= 2 && i < |a| - 2 && j < |b| - 2 && |a| - i == |b| - j
    ensures i + (Max(|a|, |b|) - |a|) == Max(i, j) && j + (Max(|a|, |b|) - |b|) == Max(i, j)
    ensures !(a[i] == b[j] || a[i] == 1 || b[j] == 1) ==> MatmulShape(a, b, transA, transB) == None
    ensures MatmulShape(a, b, transA, transB).Some? ==>
      MatmulShape(a, b, transA, transB).value[Max(i, j)] ==
        (if a[i] == b[j] || b[j] == 1 then a[i] else b[j])
  {
    var p := Max(i, j);
    assert BatchDimAt(Batch(a), Batch(b), p) == BroadcastDim(a[i], b[j]);
    if MatmulShape(a, b, transA, transB).Some? {
      var batch := BroadcastBatch(Batch(a), Batch(b)).value;
      assert MatmulShape(a, b, transA, transB).value[p] == batch[p];
    }
  }

  /** Leading batch dimensions of the longer operand, which have no
      partner in the other, are copied into the same positions. */
  lemma UnpairedCopied(a: Shape, b: Shape, transA: bool, transB: bool, p: nat)
    requires MatmulShape(a, b, transA, transB).Some?
    ensures |a| - |b| > p ==> MatmulShape(a, b, transA, transB).value[p] == a[p]
    ensures |b| - |a| > p ==> MatmulShape(a, b, transA, transB).value[p] == b[p]
  {
  }

  /** Two rank-2 operands have no batch dimensions: the result is [m, n]. */
  lemma RankTwo(m: int, k: int, n: int)
    ensures InferShape([[m, k], [k, n]], false, false) == Some([[m, n]])
  {
    assert Batch([m, k]) == [] && Batch([k, n]) == [];
    assert BroadcastBatch([], []) == Some([]);
    assert [] + [m, n] == [m, n];
    assert MatmulShape([m, k], [k, n], false, false) == Some([m, n]);
  }

  /** Setting transA and transposing A's last two dimensions cancel out. */
  lemma TransposeA(inputs: seq<Shape>, transA: bool, transB: bool)
    requires |inputs| >= 2
    ensures InferShape(inputs[0 := SwapLast2(inputs[0])], !transA, transB) == InferShape(inputs, transA, transB)
  {
  }

  /** Setting transB and transposing B's last two dimensions cancel out. */
  lemma TransposeB(inputs: seq<Shape>, transA: bool, transB: bool)
    requires |inputs| >= 2
    ensures InferShape(inputs[1 := SwapLast2(inputs[1])], transA, !transB) == InferShape(inputs, transA, transB)
  {
  }

  /** Exchanging the batch dimensions of A and B, each keeping its own
      matrix dimensions, gives the same verdict and the same output. */
  lemma SwapBatch(a: Shape, b: Shape, transA: bool, transB: bool)
    requires |a| >= 2 && |b| >= 2
    ensures MatmulShape(Batch(b) + a[|a| - 2..], Batch(a) + b[|b| - 2..], transA, transB) ==
      MatmulShape(a, b, transA, transB)
  {
    var a', b' := Batch(b) + a[|a| - 2..], Batch(a) + b[|b| - 2..];
    assert Batch(a') == Batch(b) && Batch(b') == Batch(a);
    assert a'[|a'| - 2..] == a[|a| - 2..] && b'[|b'| - 2..] == b[|b| - 2..];
    BroadcastReference.BroadcastBatchSymmetric(Batch(a), Batch(b));
  }

  /** A bias with more dimensions than the result is rejected. */
  lemma BiasRankTooLarge(inputs: seq<Shape>, transA: bool, transB: bool)
    requires |inputs| > 2 && |inputs[2]| > Max(|inputs[0]|, |inputs[1]|)
    ensures InferShape(inputs, transA, transB) == None
  {
  }

  /** A rank-0 bias is always accepted. */
  lemma BiasScalarAccepted(inputs: seq<Shape>, transA: bool, transB: bool)
    requires |inputs| > 2 && inputs[2] == []
    ensures InferShape(inputs, transA, transB) == InferShape(inputs[..2], transA, transB)
  {
  }

  /** The bias only gates validity: an accepted bias leaves the output
      exactly what A and B alone give. */
  lemma BiasNeverChangesShape(inputs: seq<Shape>, transA: bool, transB: bool)
    requires |inputs| > 2 && InferShape(inputs, transA, transB).Some?
    ensures InferShape(inputs, transA, transB) == InferShape(inputs[..2], transA, transB)
  {
  }

  /** A=[2,3], B=[3,4] gives [2,4]. */
  lemma ScenarioPlain()
    ensures InferShape([[2, 3], [3, 4]], false, false) == Some([[2, 4]])
  {
    RankTwo(2, 3, 4);
  }

  /** A=[5,2,3], B=[3,4]: A's batch dimension is carried over, [5,2,4]. */
  lemma ScenarioCarriedBatch()
    ensures InferShape([[5, 2, 3], [3, 4]], false, false) == Some([[5, 2, 4]])
  {
    assert Batch([5, 2, 3]) == [5] && Batch([3, 4]) == [];
    assert BatchDimAt([5], [], 0) == Some(5);
    assert BatchCompatible([5], []);
    var batch := BroadcastBatch([5], []).value;
    assert BatchDimAt([5], [], 0) == Some(batch[0]);
    assert batch == [5];
    assert [5] + [2, 4] == [5, 2, 4];
    assert MatmulShape([5, 2, 3], [3, 4], false, false) == Some([5, 2, 4]);
  }

  /** A=[3,2] with transA, B=[3,4]: A acts as [2,3], giving [2,4]. */
  lemma ScenarioTransposedA()
    ensures InferShape([[3, 2], [3, 4]], true, false) == Some([[2, 4]])
  {
    assert Batch([3, 2]) == [] && Batch([3, 4]) == [];
    assert BroadcastBatch([], []) == Some([]);
    assert [] + [2, 4] == [2, 4];
    assert MatmulShape([3, 2], [3, 4], true, false) == Some([2, 4]);
  }

  /** A=[2,3], B=[5,4]: inner dimensions 3 and 5 differ. */
  lemma ScenarioInnerMismatch()
    ensures InferShape([[2, 3], [5, 4]], false, false) == None
  {
  }

  /** A=[1,2,3], B=[7,3,4], bias [4]: [7,2,4], the bias broadcasts. */
  lemma ScenarioBiasAccepted()
    ensures InferShape([[1, 2, 3], [7, 3, 4], [4]], false, false) == Some([[7, 2, 4]])
  {
    assert Batch([1, 2, 3]) == [1] && Batch([7, 3, 4]) == [7];
    assert BatchDimAt([1], [7], 0) == Some(7);
    assert BatchCompatible([1], [7]);
    var batch := BroadcastBatch([1], [7]).value;
    assert BatchDimAt([1], [7], 0) == Some(batch[0]);
    assert batch == [7];
    assert [7] + [2, 4] == [7, 2, 4];
    assert MatmulShape([1, 2, 3], [7, 3, 4], false, false) == Some([7, 2, 4]);
    assert BiasAccepted([4], [7, 2, 4]);
  }

  /** A=[2,3], B=[3,4], bias [2,2,4]: the bias has rank 3 > 2. */
  lemma ScenarioBiasTooLong()
    ensures InferShape([[2, 3], [3, 4], [2, 2, 4]], false, false) == None
  {
  }
}
