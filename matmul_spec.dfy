/** Declarative specification of the matrix-multiplication shape rule
    (MatmulObj::inferShape): right-aligned broadcasting of the batch
    dimensions, transpose flags on the two matrix dimensions, and the
    optional one-directional bias check. */
module MatmulSpec {

  /** "No value" (None) is the rule's signal for incompatible inputs. */
  datatype Option<T> = None | Some(value: T)

  /** A tensor shape: one size per dimension, outermost first; rank = length. */
  type Shape = seq<int>

  function Max(x: int, y: int): (r: int)
    ensures r >= x && r >= y && (r == x || r == y)
  {
    if x >= y then x else y
  }

  /** The batch dimensions of an operand: all but its last two. */
  function Batch(s: Shape): (r: Shape)
    requires |s| >= 2
  {
    s[..|s| - 2]
  }

  /** One right-aligned pair of batch dimensions, `a` from A and `b` from B.
      The pair is compatible iff the sizes agree or one of them is 1, and
      the broadcast size is the one that is not 1 (either one when equal). */
  function BroadcastDim(a: int, b: int): (r: Option<int>)
    ensures r.Some? <==> (a == b || a == 1 || b == 1)
    ensures r.Some? ==> r.value == (if a == 1 then b else a)
  {
    if a == b || b == 1 then Some(a)
    else if a == 1 then Some(b)
    else None
  }

  /** Position `p` of the broadcast of the batch lists `ba` and `bb`,
      aligned from the right. A position left of one list's start takes
      the other list's size unchanged; None if the aligned pair clashes. */
  function BatchDimAt(ba: seq<int>, bb: seq<int>, p: nat): (r: Option<int>)
    requires p < Max(|ba|, |bb|)
  {
    var offA := Max(|ba|, |bb|) - |ba|;
    var offB := Max(|ba|, |bb|) - |bb|;
    if p < offA then Some(bb[p - offB])
    else if p < offB then Some(ba[p - offA])
    else BroadcastDim(ba[p - offA], bb[p - offB])
  }

  /** Every aligned pair of batch dimensions is compatible. */
  predicate BatchCompatible(ba: seq<int>, bb: seq<int>)
  {
    forall p: nat | p < Max(|ba|, |bb|) :: BatchDimAt(ba, bb, p).Some?
  }

  /** The broadcast batch dimensions, or None if some aligned pair clashes. */
  function BroadcastBatch(ba: seq<int>, bb: seq<int>): (r: Option<seq<int>>)
    ensures r.Some? <==> BatchCompatible(ba, bb)
    ensures r.Some? ==>
      |r.value| == Max(|ba|, |bb|) &&
      forall p: nat | p < |r.value| :: BatchDimAt(ba, bb, p) == Some(r.value[p])
  {
    if BatchCompatible(ba, bb) then
      Some(seq(Max(|ba|, |bb|), p requires 0 <= p < Max(|ba|, |bb|) && BatchCompatible(ba, bb) =>
        BatchDimAt(ba, bb, p).value))
    else None
  }

  /** Effective row count of A after the transpose flag. */
  function RowsA(a: Shape, transA: bool): (r: int)
    requires |a| >= 2
  {
    if transA then a[|a| - 1] else a[|a| - 2]
  }

  /** Effective inner dimension of A after the transpose flag. */
  function InnerA(a: Shape, transA: bool): (r: int)
    requires |a| >= 2
  {
    if transA then a[|a| - 2] else a[|a| - 1]
  }

  /** Effective inner dimension of B after the transpose flag. */
  function InnerB(b: Shape, transB: bool): (r: int)
    requires |b| >= 2
  {
    if transB then b[|b| - 1] else b[|b| - 2]
  }

  /** Effective column count of B after the transpose flag. */
  function ColsB(b: Shape, transB: bool): (r: int)
    requires |b| >= 2
  {
    if transB then b[|b| - 2] else b[|b| - 1]
  }

  /** The output shape of A x B (without the bias check), or None. */
  function MatmulShape(a: Shape, b: Shape, transA: bool, transB: bool): (r: Option<Shape>)
    ensures |a| < 2 || |b| < 2 ==> r.None?
    ensures r.Some? <==>
      |a| >= 2 && |b| >= 2 && BatchCompatible(Batch(a), Batch(b)) && InnerA(a, transA) == InnerB(b, transB)
    ensures r.Some? ==>
      |r.value| == Max(|a|, |b|) &&
      r.value[|r.value| - 2] == RowsA(a, transA) && r.value[|r.value| - 1] == ColsB(b, transB)
  {
    if |a| < 2 || |b| < 2 then None
    else
      match BroadcastBatch(Batch(a), Batch(b))
      case None => None
      case Some(batch) =>
        if InnerA(a, transA) != InnerB(b, transB) then None
        else Some(batch + [RowsA(a, transA), ColsB(b, transB)])
  }

  /** One-directional broadcast of the bias `c` into the result `res`:
      `c` has no more dimensions than `res`, and each of its dimensions,
      aligned to the trailing positions of `res`, equals the result's or is 1. */
  predicate BiasAccepted(c: Shape, res: Shape)
  {
    |c| <= |res| &&
    forall k :: 0 <= k < |c| ==> c[k] == res[|res| - |c| + k] || c[k] == 1
  }

  /** The whole rule: `inputs` holds A, B and optionally the bias C (any
      further inputs are ignored). The result is the one-element list of
      output shapes, or None. */
  function InferShape(inputs: seq<Shape>, transA: bool, transB: bool): (r: Option<seq<Shape>>)
    requires |inputs| >= 2
    ensures r.Some? ==> |r.value| == 1 && MatmulShape(inputs[0], inputs[1], transA, transB) == Some(r.value[0])
    ensures |inputs| > 2 && MatmulShape(inputs[0], inputs[1], transA, transB).Some? ==>
      (r.Some? <==> BiasAccepted(inputs[2], MatmulShape(inputs[0], inputs[1], transA, transB).value))
    ensures (MatmulShape(inputs[0], inputs[1], transA, transB).Some? &&
             (|inputs| <= 2 || BiasAccepted(inputs[2], MatmulShape(inputs[0], inputs[1], transA, transB).value))) ==>
      r == Some([MatmulShape(inputs[0], inputs[1], transA, transB).value])
  {
    match MatmulShape(inputs[0], inputs[1], transA, transB)
    case None => None
    case Some(res) =>
      if |inputs| <= 2 || BiasAccepted(inputs[2], res) then Some([res]) else None
  }
}
