/** MatmulObj::inferShape as the source runs it: the result shape is
    preallocated and filled in place by index, walking the batch
    dimensions of A and B from the right with two decrementing counters. */
module MatmulInfer {
  import opened MatmulSpec

  /** Computes the output shapes of a matmul node whose inputs have the
      shapes `inputs` (A, B and optionally the bias C), under the flags
      `transA` and `transB`. The result is exactly the declarative rule;
      in particular `res[Max(i, j)]` is the right-aligned position of the
      batch pair `(dimA[i], dimB[j])`. */
  method InferShape(inputs: seq<Shape>, transA: bool, transB: bool) returns (r: Option<seq<Shape>>)
    requires |inputs| >= 2
    ensures r == MatmulSpec.InferShape(inputs, transA, transB)
  {
    var rankA, rankB := |inputs[0]|, |inputs[1]|;
    var dimA, dimB := inputs[0], inputs[1];
    if rankA < 2 || rankB < 2 {
      return None;
    }
    var rankR := Max(rankA, rankB);
    var res := new int[rankR];
    var ok := BroadcastBatchInto(res, dimA, dimB);
    if !ok {
      return None;
    }

    // Matrix dimensions under the transpose flags.
    var m, kA, kB, n := dimA[rankA - 2], dimA[rankA - 1], dimB[rankB - 2], dimB[rankB - 1];
    if transA {
      m, kA := kA, m;
    }
    if transB {
      kB, n := n, kB;
    }
    if kA != kB {
      return None;
    }
    res[rankR - 2] := m;
    res[rankR - 1] := n;
    assert res[..] == MatmulShape(dimA, dimB, transA, transB).value;
    if |inputs| <= 2 {
      return Some([res[..]]);
    }

    var accepted := BiasCheck(inputs[2], res[..]);
    return if accepted then Some([res[..]]) else None;
  }

  /** The batch-broadcasting loops of the rule: fills the batch positions `res[..|res| - 2]`
      from the right-aligned batch dimensions of `dimA` and `dimB`, copying
      the unpaired leading ones of the longer operand. Reports whether
      every aligned pair was compatible; when it was, the batch positions
      hold the broadcast batch dimensions. The last two positions of `res`
      are left alone. */
  method BroadcastBatchInto(res: array<int>, dimA: Shape, dimB: Shape) returns (ok: bool)
    requires |dimA| >= 2 && |dimB| >= 2 && res.Length == Max(|dimA|, |dimB|)
    modifies res
    ensures ok == BatchCompatible(Batch(dimA), Batch(dimB))
    ensures ok ==> res[..res.Length - 2] == BroadcastBatch(Batch(dimA), Batch(dimB)).value
    ensures res[res.Length - 2..] == old(res[res.Length - 2..])
  {
    var rankA, rankB, rankR := |dimA|, |dimB|, res.Length;
    ghost var ba, bb := Batch(dimA), Batch(dimB);
    assert Max(|ba|, |bb|) == rankR - 2;

    // Aligned pairs of batch dimensions.
    var i, j := rankA - 3, rankB - 3;
    while i >= 0 && j >= 0
      invariant -1 <= i <= rankA - 3 && -1 <= j <= rankB - 3
      invariant i - j == rankA - rankB
      invariant forall p: nat | Max(i, j) < p < rankR - 2 :: BatchDimAt(ba, bb, p) == Some(res[p])
      invariant res[rankR - 2..] == old(res[rankR - 2..])
    {
      if dimA[i] == dimB[j] || dimB[j] == 1 {
        res[Max(i, j)] := dimA[i];
      } else if dimA[i] == 1 {
        res[Max(i, j)] := dimB[j];
      } else {
        assert BatchDimAt(ba, bb, Max(i, j)).None?;
        return false;
      }
      i, j := i - 1, j - 1;
    }
    // Leading batch dimensions of A without a partner in B.
    while i >= 0
      invariant -1 <= i <= rankA - 3
      invariant i >= 0 ==> j == -1 && i < rankA - rankB
      invariant forall p: nat | Max(i, j) < p < rankR - 2 :: BatchDimAt(ba, bb, p) == Some(res[p])
      invariant res[rankR - 2..] == old(res[rankR - 2..])
    {
      res[i] := dimA[i];
      i := i - 1;
    }
    // Leading batch dimensions of B without a partner in A.
    while j >= 0
      invariant -1 <= j <= rankB - 3 && i == -1
      invariant j >= 0 ==> j < rankB - rankA
      invariant forall p: nat | Max(i, j) < p < rankR - 2 :: BatchDimAt(ba, bb, p) == Some(res[p])
      invariant res[rankR - 2..] == old(res[rankR - 2..])
    {
      res[j] := dimB[j];
      j := j - 1;
    }
    assert BatchCompatible(ba, bb);
    return true;
  }

  /** The bias loop of the rule: the bias `dimC` is checked against the
      result `res` by walking both from their last dimension. Accepted
      exactly when the one-directional broadcast applies. */
  method BiasCheck(dimC: Shape, res: Shape) returns (accepted: bool)
    ensures accepted == BiasAccepted(dimC, res)
  {
    var rankC, rankR := |dimC|, |res|;
    if rankC > rankR {
      return false;
    }
    var i, j := rankC - 1, rankR - 1;
    while i >= 0
      invariant -1 <= i < rankC && j - i == rankR - rankC
      invariant forall k | i < k < rankC :: dimC[k] == res[rankR - rankC + k] || dimC[k] == 1
    {
      if dimC[i] != res[j] && dimC[i] != 1 {
        return false;
      }
      i, j := i - 1, j - 1;
    }
    return true;
  }
}