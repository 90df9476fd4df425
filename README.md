# Matmul shape inference, modelled in Dafny

This project models the shape rule of the matrix-multiplication operator of
TinyInfiniTensor, `MatmulObj::inferShape`. Its inputs are the dimension
lists of A, B and, optionally, a bias C, plus the two flags `transA` and
`transB`. The rule either returns the single output shape or returns "no
value" to say that the inputs are incompatible. It works in four steps:

1. Both A and B must have rank at least 2.
2. The batch dimensions (all but the last two) are broadcast NumPy-style.
   They are aligned from the right, and a pair is compatible when the sizes
   are equal or one of them is 1. Leading batch dimensions without a partner
   are copied from the longer operand.
3. The transpose flags pick the effective `(m, k)` of A and `(k, n)` of B.
   The two inner `k` must be equal, and the output ends in `(m, n)`.
4. A bias C, when given, must fit into the result by one-directional
   trailing broadcasting, as ONNX `Gemm` broadcasts its C input. It may have
   no more dimensions than the result. Each of its dimensions, aligned to the
   result's last positions, must equal the result's dimension or be 1.

The project has four modules:

- `MatmulSpec` (`matmul_spec.dfy`) is the declarative rule. `BatchDimAt`
  gives each position of the broadcast batch by index. `MatmulShape` covers
  A and B alone, `BiasAccepted` is the bias check, and `InferShape` is the
  whole rule.
- `MatmulInfer` (`matmul_infer.dfy`) is the rule as the source runs it. The
  method preallocates the result as an `array<int>` and fills it by index
  with the three decrementing loops over `i` and `j`. The aligned write goes
  to `res[Max(i, j)]`. Then it swaps `m`/`kA` and `kB`/`n`, writes the last
  two positions and walks the bias from its last dimension. The method is
  proved to return exactly `MatmulSpec.InferShape`.
- `BroadcastReference` (`broadcast_reference.dfy`) is a separate, recursive
  definition of batch broadcasting. It peels the last pair off and recurses
  on the rest. It is proved equal to the index-based rule, and broadcasting
  is proved symmetric in A and B.
- `MatmulProperties` (`matmul_properties.dfy`) holds the properties of the
  rule: when it answers "no value", what a success looks like, how the
  transpose flags act, and what the bias check can and cannot do. It also
  checks six worked examples.

Each shape is a `seq<int>` and its rank is its length. The source does not
check that sizes are non-negative. It only compares sizes and never computes
with them, so unbounded `int` loses nothing. The flags are fields of the
C++ operator object. `inferShape` only reads them, so here they are
parameters. `inputs` must hold at least A and B, because the source reads
`inputs[0]` and `inputs[1]` without checking. Inputs after the third are
ignored, as in the source. The C++ result is an optional list of shapes.
Here it is `Option<seq<Shape>>`, and a success is a one-element list.

## Model

| member | source | states |
|---|---|---|
| MatmulSpec.BroadcastDim | TinyInfiniTensor/src/operators/matmul.cc:40-46 | An aligned batch pair is compatible iff the sizes are equal or either is 1; the broadcast size is the one that is not 1 |
| MatmulSpec.BroadcastBatch | TinyInfiniTensor/src/operators/matmul.cc:38-53 | Broadcasting the batch lists succeeds iff every aligned position is compatible; on success it has max(rank) - 2 entries, each the right-aligned value at its position |
| MatmulSpec.MatmulShape | TinyInfiniTensor/src/operators/matmul.cc:29-66 | A and B give a shape iff both have rank >= 2, the batches broadcast and the effective inner dimensions agree; the shape has rank max(rankA, rankB) and ends in the effective (m, n) |
| MatmulSpec.InferShape | TinyInfiniTensor/src/operators/matmul.cc:67-80 | A success is one output shape, the one A and B give; when A and B are compatible and there is no bias (or the bias is accepted), the result is exactly that one shape; with a bias present and A, B compatible, the result is a success iff the bias is accepted |
| MatmulInfer.InferShape | TinyInfiniTensor/src/operators/matmul.cc:21-81 | The array-filling procedure, with its three decrementing loops, swaps and bias loop, returns exactly the declarative rule for every input list and both flags |
| MatmulInfer.BroadcastBatchInto | TinyInfiniTensor/src/operators/matmul.cc:37-53 | The three loops report a clash exactly when the batches do not broadcast; otherwise they leave the broadcast batch in the leading positions, writing the aligned pair at index max(i, j), and do not touch the last two positions |
| MatmulInfer.BiasCheck | TinyInfiniTensor/src/operators/matmul.cc:70-79 | The bias loop, walking C and the result from their last dimension, accepts exactly when the one-directional trailing broadcast applies |
| BroadcastReference.BroadcastFromRightAgrees | TinyInfiniTensor/src/operators/matmul.cc:38-53 | The recursive NumPy-style broadcast and the index-based rule give the same verdict and the same dimensions for all batch lists |
| BroadcastReference.BroadcastDimSymmetric | TinyInfiniTensor/src/operators/matmul.cc:40-43 | The pair rule gives the same verdict and size whichever operand each size comes from |
| BroadcastReference.BroadcastBatchSymmetric | TinyInfiniTensor/src/operators/matmul.cc:38-53 | Exchanging the batch lists of A and B gives the same verdict and the same broadcast dimensions |
| MatmulProperties.RankBelowTwoRejected | TinyInfiniTensor/src/operators/matmul.cc:33-35 | If A or B has rank below 2 the result is "no value", whatever the rest is |
| MatmulProperties.OutputShape | TinyInfiniTensor/src/operators/matmul.cc:36-68 | A success is a single shape of rank max(rankA, rankB): the broadcast batch followed by the effective (m, n) |
| MatmulProperties.InnerMismatchRejected | TinyInfiniTensor/src/operators/matmul.cc:54-64 | Differing effective inner dimensions give "no value" whatever the batch dimensions and the bias |
| MatmulProperties.AlignedPair | TinyInfiniTensor/src/operators/matmul.cc:38-47 | A right-aligned pair a[i], b[j] lands at index max(i, j), which equals i and j each shifted by its operand's rank deficit; there the result is a[i] if a[i] == b[j] or b[j] == 1, else b[j]; a clashing pair gives "no value" |
| MatmulProperties.UnpairedCopied | TinyInfiniTensor/src/operators/matmul.cc:48-53 | Leading batch dimensions of the longer operand with no partner are copied into the same positions of the result |
| MatmulProperties.RankTwo | TinyInfiniTensor/src/operators/matmul.cc:36-68 | Two rank-2 operands [m, k] and [k, n] with no transposes give exactly [[m, n]] |
| MatmulProperties.TransposeA | TinyInfiniTensor/src/operators/matmul.cc:54-58 | Flipping transA while exchanging A's last two dimensions leaves the result unchanged |
| MatmulProperties.TransposeB | TinyInfiniTensor/src/operators/matmul.cc:54-61 | Flipping transB while exchanging B's last two dimensions leaves the result unchanged |
| MatmulProperties.SwapBatch | TinyInfiniTensor/src/operators/matmul.cc:38-47 | Exchanging the batch dimensions of A and B, each keeping its matrix dimensions, gives the same verdict and output |
| MatmulProperties.BiasRankTooLarge | TinyInfiniTensor/src/operators/matmul.cc:72-74 | A bias of rank above max(rankA, rankB) gives "no value" |
| MatmulProperties.BiasScalarAccepted | TinyInfiniTensor/src/operators/matmul.cc:75-80 | A rank-0 bias gives the same result as no bias |
| MatmulProperties.BiasNeverChangesShape | TinyInfiniTensor/src/operators/matmul.cc:67-80 | An accepted bias leaves the output exactly what A and B alone give |
| MatmulProperties.ScenarioPlain | TinyInfiniTensor/src/operators/matmul.cc:36-68 | A=[2,3], B=[3,4] gives [2,4] |
| MatmulProperties.ScenarioCarriedBatch | TinyInfiniTensor/src/operators/matmul.cc:48-68 | A=[5,2,3], B=[3,4] gives [5,2,4] |
| MatmulProperties.ScenarioTransposedA | TinyInfiniTensor/src/operators/matmul.cc:54-68 | A=[3,2] with transA, B=[3,4] gives [2,4] |
| MatmulProperties.ScenarioInnerMismatch | TinyInfiniTensor/src/operators/matmul.cc:62-64 | A=[2,3], B=[5,4] gives "no value" |
| MatmulProperties.ScenarioBiasAccepted | TinyInfiniTensor/src/operators/matmul.cc:38-80 | A=[1,2,3], B=[7,3,4] with bias [4] gives [7,2,4] |
| MatmulProperties.ScenarioBiasTooLong | TinyInfiniTensor/src/operators/matmul.cc:70-74 | A=[2,3], B=[3,4] with bias [2,2,4] gives "no value" |

## Left out

- The constructor `MatmulObj::MatmulObj` and its `checkValid` assertion (matmul.cc:5-10) are not modelled. They depend on the graph and operator base classes, which are not part of this model. The constructor passes only A and B as inputs, so the bias branch runs only when the rule is called directly with three inputs.
- `toString` (matmul.cc:12-19) is not modelled. It is diagnostic string formatting. It prints `m`, `n` and `k` members that `inferShape` never assigns.
- Tensor objects are not modelled: each input is just its dimension list, and `getRank()` is its length.
- The flags `transA` and `transB` are parameters rather than fields of an operator object, because the rule only reads them.
- Callers must pass at least two inputs. The source reads `inputs[0]` and `inputs[1]` unchecked, so fewer inputs would be undefined behaviour there.
- The source stores sizes as 32-bit `int`s. The model uses unbounded integers. The rule only compares sizes and copies them, so nothing can overflow.
