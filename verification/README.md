# AutoGrad with .NET — a Dafny model of the autograd core

AutoGrad is a small reverse-mode automatic differentiation engine written in C#
on top of the NumSharp array library. A `Tensor` is an array that remembers
whether it `RequiresGrad`, the `Function` that produced it (its `Context`)
and its accumulated `Gradient`. `Function.Apply` runs an operation's
`Forward`, wraps the result in a new tensor and attaches the context while
the global `no_grad` switch is off. `backward()` seeds the root gradient with
ones, lists the graph in post order by depth-first search, and walks that list
in reverse: each tensor's context turns the tensor's gradient into one
derivative per parent, those derivatives are added into the parents'
gradients, and the context is dropped.

This project models that core in Dafny:

- `shapes.dfy` (module `Shapes`): shapes as `seq<nat>`, axis lists, element
  counts (`Prod`), gathering extents, and the free axes of a contraction.
- `wrappers.dfy` (module `Wrappers`): `Option`, `Result` and the kinds of
  exception the code can end in.
- `funcs.dfy` (module `Funcs`, after `src/Funcs.cs`): `Squeeze`, the three
  `TensorDotAxes` and `TensorDot` overloads, both `TensorDotReshape`
  overloads, and `ReverseBroadcastAxes` and `ReverseBroadCast`. All of these
  are modelled at the level of shapes.
- `mlops.dfy` (module `MLops`, after `src/MLops.cs`): the `Function` class.
  Its constructor computes `requires_grad`, and its `Forward` methods compute
  the output shape and update the saved intermediates. The output shape of
  every operation is modelled (`ForwardShape`), and so are the derivative
  slots every `Backward` returns (`BackwardSlots`): which slots are null and
  which shape each derivative has.
- `tensor.dfy` (module `Autograd`, after `src/Tensor.cs`): the tensors of one
  program form an arena, `class Graph`, whose fields hold each tensor's
  shape, `RequiresGrad`, `Context` and `Gradient`, plus the `no_grad` switch.
  A tensor is an index into the arena. `Apply`, `Sum`, `Max`, `Mean`,
  `Flatten` and `Reshape` append tensors. `Visit`, `VisitParents` (the loop
  over a node's parents) and `VisitParent` (one turn of that loop) are the
  recursive depth-first search `__backward_r`. `Backward` is `backward()`, and
  it is proved equal to the pure specification `Run` of the pass. The graph
  keeps two invariants: every parent is older than its consumer, and only a
  tensor that requires a gradient has a context. With them, `BackwardCompletes`
  shows that the pass reaches every ancestor of the root that requires a
  gradient and never dereferences a null `Context` or `Gradient`.

Element values are not modelled. A gradient is an abstract real number, and
the derivative an operation's `Backward` computes is a parameter (`Derive`)
of the pass. The pass therefore proves its bookkeeping for every derivative
rule: which tensors are processed, in what order, what is added where, and
what is cleared.

Three behaviours of the code are worth knowing before reading the model:

- The `TensorDotAxes` overloads that take an axis pair or a pair of axis
  lists resolve negative axes of `b` against the rank of `a`. numpy's
  `tensordot`, which these functions follow, resolves each array's axes
  against that array's own rank.
- `Mean` with no axes sums every element but divides by 1.
- `backward()` on a tensor without a context still sets that tensor's
  gradient to ones. Only the traversal is empty.

The first two are bugs, listed under Findings below. For each, the model
states the behaviour as written in a separate member and proves the
discrepancy on a concrete input. `TensorDotPair`, `TensorDotLists` and
`Graph.Mean` then use the corrected definition (see "Left out"). The third is
modelled as written.

## Model

| member | source | states |
|---|---|---|
| Funcs.DropOnes | src/Funcs.cs:10-12 | The non-unit extents keep the element count. The result is empty exactly when every extent is 1. |
| Funcs.DropOnesKeepsOthers | src/Funcs.cs:10-12 | Every extent other than 1 keeps its multiplicity. |
| Funcs.DropOnesAppend | src/Funcs.cs:10-12 | Dropping unit extents distributes over concatenation. |
| Funcs.Squeeze | src/Funcs.cs:8-17 | A squeezed array has the same number of elements and rank at least 1. It is `[1]` exactly when every extent is 1, and otherwise it is the non-unit extents in order. |
| Funcs.StretchedAxes | src/Funcs.cs:189-199 | The listed axes are increasing and in range. They are exactly the axes where the padded initial shape differs from the result and the result is not 1. |
| Funcs.ReverseBroadcastAxes | src/Funcs.cs:169-179 | Fails exactly when the initial rank exceeds the resulting rank. Otherwise returns exactly the stretched axes, increasing and in range. |
| Funcs.ReverseBroadcastAxesEqual | src/Funcs.cs:189-199 | Two equal shapes give no axis to reduce. |
| Funcs.ReverseBroadcastShape | src/Funcs.cs:182-188 | The final reshape succeeds exactly when the rank fits and the summed shape spans as many elements as the initial shape. On success the result is the initial shape. |
| Funcs.ReverseBroadcastOfBroadcast | src/Funcs.cs:182-188 | Round trip: for any shape that broadcasts to `post`, summing the stretched axes gives the padded shape, and folding back returns that shape. |
| Funcs.ReverseBroadcastSame | src/Funcs.cs:182-188 | Folding a gradient of the operand's own shape back changes nothing. |
| Funcs.ReverseBroadcast | src/Funcs.cs:161-167 | The loop of keepdims sums sets exactly the stretched axes to 1, and the reshape outcome is the one `ReverseBroadcastShape` specifies. |
| Funcs.TensorDotAxesCount | src/Funcs.cs:136-144 | A count `k` succeeds exactly when `0 <= k <= rank(a)`. It then gives a's last `k` axes and b's first `k` axes, and a's free axes are its leading `rank(a)-k`. |
| Funcs.NormalizeResolves | src/Funcs.cs:132-133 | Adding the rank to a negative axis names the position the axis means: within `-rank .. rank-1` the one position congruent to it modulo the rank, and no valid position otherwise. |
| Funcs.NormalizeAllResolves | src/Funcs.cs:152-155 | Resolving a list resolves each axis that way, and the list is in range exactly when every axis lies in `-rank .. rank-1`. |
| Funcs.TensorDotAxesPairAsWritten | src/Funcs.cs:127-134 | Exactly two axes are accepted. Each resolved axis names, in an array of rank(a), the position its axis means (congruent modulo the rank, valid exactly for `-rank <= axis < rank`). For b's axis that is the wrong rank. |
| Funcs.TensorDotAxesPair | src/Funcs.cs:127-134 | Exactly two axes are accepted. a's axis names its position in rank(a) and b's its position in rank(b), each valid exactly when the axis lies in `-rank .. rank-1`. |
| Funcs.TensorDotAxesListsAsWritten | src/Funcs.cs:146-158 | Fewer than two lists is an index error. Success requires exactly two lists of equal length. Every axis of both lists names its position in rank(a), and each list is in range exactly when all its axes lie in `-rank(a) .. rank(a)-1`. |
| Funcs.TensorDotAxesLists | src/Funcs.cs:146-158 | The same error cases. a's axes name their positions in rank(a) and b's in rank(b), and each list is in range exactly when all its axes lie within its own array's rank. |
| Funcs.AxesResolutionAgrees | src/Funcs.cs:127-134 | The written and corrected pair resolutions agree whenever b's axis is non-negative or the ranks are equal. |
| Funcs.ListAxesResolutionAgrees | src/Funcs.cs:146-158 | The written and corrected list resolutions agree whenever every axis of b is non-negative or the ranks are equal. |
| Funcs.PairAxesUseRankOfA | src/Funcs.cs:127-134 | Counterexample: for ranks 3 and 2 and axes (2, -2), the code as written names b's axis 1, whose extent does not match. The corrected contraction of [2,3,4] with [4,5] gives [2,3,5]. |
| Funcs.ListAxesUseRankOfA | src/Funcs.cs:146-158 | The same counterexample for the list-pair overload. |
| Funcs.TensorDotReshape | src/Funcs.cs:90-125 | Succeeds exactly for distinct in-range axes. The permutation lists every axis once: free axes then contracted ones, or the reverse when flipped. It is transposed exactly when it is not the identity. The 2-D matrix spans the array's elements. |
| Funcs.PlanFacts | src/Funcs.cs:90-125 | The permutation and matrix of a valid plan keep every axis and the element count. |
| Funcs.MatrixKeepsSize | src/Funcs.cs:90-125 | The [free, contracted] matrix has as many elements as the array. |
| Funcs.PermsKeepSize | src/Funcs.cs:90-125 | The permutation is a permutation of all axes and keeps the element count. |
| Funcs.TensorDotReshapeAt | src/Funcs.cs:55-89 | The single-axis form succeeds exactly for an in-range axis, with the single-axis plan. |
| Funcs.TensorDotReshapeAtAgrees | src/Funcs.cs:55-89 | The single-axis overload equals the list overload given that one axis. |
| Funcs.MatmulReshape | src/Funcs.cs:23-27 | The matmul succeeds exactly when the inner extents match. The result is a's free extents followed by b's, reshaped only when the matmul output differs from that. |
| Funcs.TensorDotCount | src/Funcs.cs:18-28 | Succeeds exactly when `k` fits both ranks and the contracted extents span equally many elements. The shape is a's leading extents followed by b's trailing ones. |
| Funcs.TensorDotPair | src/Funcs.cs:30-40 | Contracting axis i of `a` with axis j of `b` gives `a` without i followed by `b` without j. Any other number of axes fails. |
| Funcs.TensorDotLastFirst | src/Funcs.cs:30-40 | The axes {-1, 0} succeed exactly when a's last extent equals b's first, giving a's leading extents followed by b's trailing ones. |
| Funcs.TensorDotLists | src/Funcs.cs:42-52 | The result is a's free extents followed by b's free extents. It exists exactly when both axis lists are valid and span equally many elements. |
| Funcs.MatrixLeftPlan | src/Funcs.cs:90-125 | The left operand of a matrix product keeps its axis order and shape. |
| Funcs.MatrixRightPlan | src/Funcs.cs:90-125 | The right operand of a matrix product keeps its axis order and shape. |
| Funcs.MatrixPlans | src/Funcs.cs:90-125 | Neither operand of a matrix product is permuted. |
| Funcs.TensorDotMatmul | src/Funcs.cs:18-28 | m×k by k×n over one axis needs no transpose and no final reshape, and gives m×n. |
| Funcs.MatrixCountSteps | src/Funcs.cs:18-28 | A one-axis contraction of two matrices is the matmul of a's plan over its last axis and b's plan over its first. |
| Funcs.CountSteps | src/Funcs.cs:18-28 | The count form reshapes a's last `k` axes and b's first `k` axes, both of which always succeed, and then takes the common matmul tail. |
| MLops.AnyRequiresGrad | src/MLops.cs:10-14 | True exactly when some parent requires a gradient. |
| MLops.Function.constructor | src/MLops.cs:10-14 | Keeps the parents in order. `requires_grad` holds exactly when some parent requires a gradient, and nothing is saved yet. |
| MLops.Broadcast | src/MLops.cs:59-62 | Succeeds exactly for compatible shapes. The result has the larger rank, and both operands broadcast to it. |
| MLops.PaddedSelf | src/MLops.cs:59-62 | Padding a shape to its own rank changes nothing. |
| MLops.BroadcastLeast | src/MLops.cs:59-62 | The broadcast shape is the least common target of the two operands. |
| MLops.BroadcastCommutes | src/MLops.cs:59-62 | Broadcasting is symmetric in its operands. |
| MLops.BroadcastInto | src/MLops.cs:59-62 | An operand that broadcasts to the other one yields the other's shape. |
| MLops.ReduceKeepDims | src/MLops.cs:392-397 | The keepdims loop succeeds exactly when every axis is valid, and it sets exactly the resolved axes to 1. |
| MLops.MaskedProd | src/MLops.cs:392-397 | The keepdims shape spans as many elements as the kept extents. |
| MLops.KeptDimsFacts | src/MLops.cs:392-397 | The keepdims shape spans the output's elements and broadcasts back to the input. |
| MLops.ReducedShape | src/MLops.cs:362-391 | As many axes as dimensions give `[1]`, without the axes being looked at. Otherwise it fails exactly on an invalid axis, and it gives the extents of the unreduced axes. |
| MLops.ReducedShapeCount | src/MLops.cs:362-391 | Distinct reduced axes leave rank minus axis count dimensions, and the kept and reduced extents together span the input. |
| MLops.LinearShape | src/MLops.cs:265-282 | Succeeds exactly when x's last extent equals w's first and, with a bias, the bias is compatible with the product. Without a bias the result is x's leading extents and then w's trailing ones. With one it is the broadcast of that shape with the bias, to which both broadcast. |
| MLops.ForwardShape | src/MLops.cs:59-444 | Per operation. Element-wise ops succeed exactly for compatible shapes. Pow fails with the explicit exception for an exponent of more than one element, fails with an index error for an empty exponent, and otherwise keeps x's shape. Pointwise ops keep the shape. Reshape succeeds exactly on an equal element count. Sum and Max give the reduced shape. |
| MLops.NoGradSavesNothing | src/MLops.cs:97-442 | Without gradients a Forward saves nothing except Linear's bias. |
| MLops.BinarySlots | src/MLops.cs:63-174 | Two slots, each null exactly when its parent needs no gradient. |
| MLops.LinearSlots | src/MLops.cs:283-300 | Three slots. dx and dw are null exactly when their parent needs no gradient. dB is present exactly for a saved bias with a third parent that needs a gradient, and it is the last extent of the gradient. |
| MLops.LinearDwResolvesAsWritten | src/MLops.cs:285-298 | dw's axes are non-negative, so the code's resolution of the gradient's axes against x's rank agrees with the corrected one: dw is modelled as written. |
| MLops.BiasGradShape | src/MLops.cs:289-296 | Reducing every axis but the last with keepdims and then squeezing leaves exactly the last extent. |
| MLops.SqueezeOnesThen | src/MLops.cs:289-296 | Unit extents followed by one extent squeeze to that extent. |
| MLops.UnarySlots | src/MLops.cs:194-460 | One slot. Outside ReLU it is null exactly when the Function needs no gradient. ReLU's slot is never null. |
| MLops.BackwardSlots | src/MLops.cs:63-460 | The slot count and null slots of every operation's Backward, as above. |
| MLops.ElementwiseBackwardShapes | src/MLops.cs:63-141 | Add, Subtract, Multiply and Divide: a gradient of the output's shape folds back to exactly each parent's shape. |
| MLops.ProdOneAllOnes | src/MLops.cs:153-169 | A one-element shape has only unit extents. |
| MLops.PowBackwardShapes | src/MLops.cs:146-177 | With a one-element exponent, both derivatives have the base's shape. The exponent's derivative is not folded back to the exponent's shape. |
| MLops.PointwiseBackwardShapes | src/MLops.cs:179-324 | Exp, Log, Sqrt and ReLU return a derivative of the input's shape. |
| MLops.ReshapeBackwardRestores | src/MLops.cs:329-351 | Reshape's Backward restores the shape its Forward received. |
| MLops.KeptShapeFacts | src/MLops.cs:362-397 | The saved keepdims shape broadcasts to the input and spans the output's elements. |
| MLops.SumBackwardRestores | src/MLops.cs:354-402 | Sum's Backward turns a gradient of the output's shape into one of the input's shape. |
| MLops.MaxBackwardRestores | src/MLops.cs:405-465 | With valid axes, Max's Backward turns a gradient of the output's shape into one of the input's shape. |
| MLops.LinearGradX | src/MLops.cs:283-300 | dx, the gradient contracted with w transposed, has x's shape. |
| MLops.LinearGradW | src/MLops.cs:283-300 | dw, x contracted with the gradient over the leading axes, has w's shape. |
| MLops.LinearContraction | src/MLops.cs:283-300 | Contracting x with the gradient over all axes but the last gives [k, m]. |
| MLops.LinearSlotsShapes | src/MLops.cs:283-300 | With every parent needing a gradient, the slots are dx, dw and, with a bias, the last extent. |
| MLops.LinearBackwardShapes | src/MLops.cs:254-303 | For x with last extent k and w of shape [k, m], Forward gives x's leading extents and m, and Backward gives x's shape, w's shape and `[m]` for a bias. |
| MLops.LinearForwardShape | src/MLops.cs:265-282 | With a [k, m] weight and a bias that broadcasts to the product, Forward gives x's leading extents followed by m. |
| MLops.LinearShapeOf | src/MLops.cs:265-282 | The same, stated for the contraction plus bias. |
| MLops.LinearSaves | src/MLops.cs:265-282 | A Forward that needs gradients keeps x, w and the bias for Backward. |
| MLops.ContractWithTranspose | src/MLops.cs:283-300 | A gradient ending in m, contracted with the transpose of a [k, m] weight, ends in k. |
| MLops.Function.Forward | src/MLops.cs:59-444 | Returns `ForwardShape`, and the saved intermediates become those the operation stores for its `requires_grad`. |
| MLops.Function.ForwardElementwise | src/MLops.cs:59-136 | The same, for Add, Subtract, Multiply and Divide. |
| MLops.Function.ForwardPow | src/MLops.cs:153-169 | The same, for Pow. |
| MLops.Function.ForwardLinear | src/MLops.cs:265-282 | The same, for Linear. The bias is saved whatever the flag. |
| MLops.Function.ForwardReduce | src/MLops.cs:362-444 | The same, for Sum and Max. |
| MLops.Function.ForwardUnary | src/MLops.cs:186-343 | The same, for Exp, Log, Sqrt, ReLU and Reshape. |
| Autograd.Graph.constructor | src/Tensor.cs:115-121 | An empty, valid graph with `no_grad` off. |
| Autograd.Graph.Leaf | src/Tensor.cs:8-19 | Appends one tensor with the given shape and flag, and no context or gradient. |
| Autograd.Graph.SetNoGrad | src/Tensor.cs:121 | Sets the switch and changes nothing else. |
| Autograd.Graph.Apply | src/MLops.cs:24-38 | Fails exactly when the Forward fails, and then changes nothing. On success it appends one tensor whose shape is the Forward's and whose flag says some operand requires a gradient. A context is attached exactly when that flag holds and `no_grad` is off. The context is a fresh Function over the operands, with its saved intermediates set. Earlier contexts are unchanged. |
| Autograd.Graph.Sum | src/Tensor.cs:83-89 | With no axes, every axis is reduced. Fails exactly when the reduction does, and then changes nothing. On success the old tensors are untouched and one tensor is appended: the reduced shape, the input's flag, no gradient, and a Sum context over the input exactly when the flag holds and `no_grad` is off. The axes tensor is never a parent. |
| Autograd.Graph.Max | src/Tensor.cs:90-96 | The same for Max. |
| Autograd.Graph.Mean | src/Tensor.cs:97-101 | The Sum tensor, then a division by a scalar constant. If the reduction fails, nothing changes. If the divisor fails, the Sum tensor stays appended. On success three tensors follow the untouched old ones: the sum, the constant (no flag, context or gradient) and the quotient, which has the sum's shape and flag and a Divide context over the two. The divisor is the corrected `MeanDivisor`: for distinct axes, the count of reduced elements. |
| Autograd.Graph.DivideByScalar | src/Tensor.cs:59-62 | `tensor / array` with a scalar array: appends the constant (no flag, context or gradient) and the quotient, which has the dividend's shape and flag and a Divide context over the dividend and the constant. Nothing can fail and older tensors are untouched. |
| Autograd.Graph.Flatten | src/Tensor.cs:103-108 | Fails with the error of `FlattenShape` and changes nothing. Otherwise it appends one tensor of the flattened shape with the input's flag and a Reshape context exactly when the flag holds and `no_grad` is off, leaving older tensors untouched. |
| Autograd.Graph.Reshape | src/Tensor.cs:110-113 | Succeeds exactly when the element count is unchanged; otherwise it is a shape mismatch and nothing changes. On success it appends one tensor with the target shape, the input's flag and a Reshape context as for Flatten, leaving older tensors untouched. |
| Autograd.Graph.Visit | src/Tensor.cs:123-135 | The depth-first search marks the node and lists each newly reached tensor with a context exactly once, after all of its parents that have a context. Every tensor it lists is an ancestor of the node. A node without a context is not listed, and a node with one comes last. |
| Autograd.Graph.VisitParents | src/Tensor.cs:130-132 | After the parent loop, every parent with a context is listed, everything newly listed is an ancestor of the node, and the listing stays in post order without repeats. |
| Autograd.Graph.VisitParent | src/Tensor.cs:130-132 | A parent is visited only when it has not been visited yet. Afterwards the search state of the loop still holds (the `Frontier` predicate), everything listed before stays listed, and the parent is listed when it has a context. |
| Autograd.Graph.BackwardOrder | src/Tensor.cs:123-141 | `_backward` lists distinct ancestors of the root that have contexts, in post order, and lists every such ancestor. The list is empty exactly when the root has no context, and otherwise it ends with the root. |
| Autograd.Graph.Backward | src/Tensor.cs:143-166 | Shapes and flags are unchanged. The listing holds only ancestors of the root, and the schedule is that listing reversed and filtered. The final gradients and contexts, and the exception if any, are exactly those of `Run` from the seeded state. The root's gradient is ones. The listing holds every ancestor with a context. When every Backward gives a slot to each parent that requires a gradient, the pass raises no exception and every ancestor of the root that requires a gradient ends with one. |
| Autograd.Graph.ProcessAll | src/Tensor.cs:151-164 | The outer `ForEach`: the final gradients and contexts, and the exception if any, are exactly those of `Run` over the schedule. Shapes and flags are unchanged. |
| Autograd.Graph.ScheduleOf | src/Tensor.cs:146-150 | The reversed listing, keeping the tensors whose context has a parent that requires a gradient. |
| Autograd.Graph.AddSlots | src/Tensor.cs:153-162 | The zipped accumulation of `Accumulate`, and nothing else changes. |
| Autograd.AccumulateLoop | src/Tensor.cs:153-162 | The loop over the shorter of the slots and the parents computes exactly `Accumulate`. |
| Autograd.AccumulateFirst | src/Tensor.cs:153-162 | One round of the zip adds the first slot into the first parent, if it requires a gradient. |
| Autograd.Graph.Process | src/Tensor.cs:151-163 | One tensor: succeeds exactly when `Step` does and then takes its state; otherwise it changes nothing. |
| Autograd.Plus | src/Tensor.cs:161 | A null gradient is replaced by the incoming one, a null contribution changes nothing, and two present ones are added. The result is null only when both are. |
| Autograd.Accumulate | src/Tensor.cs:153-162 | Only parents that require a gradient change. |
| Autograd.AccumulateSums | src/Tensor.cs:153-162 | Each tensor that requires a gradient receives exactly the sum of the non-null slots zipped with it, including repeated parents. |
| Autograd.PlusAssociates | src/Tensor.cs:161 | Accumulation is associative. |
| Autograd.Step | src/Tensor.cs:151-163 | A null context or gradient is a null dereference. Otherwise only the context of the processed tensor is cleared, and only its parents that require a gradient change. |
| Autograd.Run | src/Tensor.cs:151-164 | The pass keeps the state well formed. |
| Autograd.StepFeeds | src/Tensor.cs:151-163 | Processing a tensor that has a context and a gradient succeeds. Every non-null gradient stays non-null, and each parent that requires a gradient and receives a slot ends with a gradient. |
| Autograd.ContributionPresent | src/Tensor.cs:153-162 | A non-null slot zipped with a parent makes that parent's summed contribution non-null. |
| Autograd.RunCompletes | src/Tensor.cs:151-164 | If every scheduled tensor has its context, and has a gradient or is a parent of a tensor scheduled before it, the pass ends without an exception. Non-null gradients stay non-null, and every parent that requires a gradient of a scheduled tensor ends with one. |
| Autograd.ScheduleFed | src/Tensor.cs:145-150 | Over a complete post-order with the root seeded, every scheduled tensor has its context and is the root or a parent of a tensor scheduled earlier. |
| Autograd.ConsumerBefore | src/Tensor.cs:146-150 | In the schedule, a tensor's consumer comes before it. |
| Autograd.Consumer | src/Tensor.cs:146-150 | An ancestor of the root, other than the root, that requires a gradient has a consumer among the root's ancestors, and that consumer is scheduled. |
| Autograd.BackwardCompletes | src/Tensor.cs:143-164 | Over the listing that `_backward` gives, with the root seeded, the pass never dereferences a null context or gradient. Every ancestor of the root that requires a gradient ends with one, provided each Backward gives a slot to every parent that requires a gradient. |
| Autograd.Schedule | src/Tensor.cs:146-150 | Exactly the listed tensors that pass the filter, no more of them than were listed. |
| Autograd.ScheduleBelow | src/Tensor.cs:146-150 | When every listed tensor is at or below the root, so is every scheduled one. |
| Autograd.RunKeepsFrom | src/Tensor.cs:151-164 | The gradient of the root and of every later tensor is left alone by the pass. |
| Autograd.RunClearsContexts | src/Tensor.cs:151-164 | A pass without exception clears exactly the scheduled contexts. |
| Autograd.RunKeepsUnrequired | src/Tensor.cs:160-161 | The pass never gives a gradient to a tensor that does not require one. |
| Autograd.PostOrderParentsFirst | src/Tensor.cs:123-135 | In the listing every parent with a context comes before its consumer. |
| Autograd.ScheduleConsumersFirst | src/Tensor.cs:146-150 | In the schedule every consumer comes before each of its parents, so a tensor is processed after all its consumers have contributed. |
| Autograd.ScheduleStartsAtRoot | src/Tensor.cs:146-150 | A processable root is scheduled first. |
| Autograd.ScheduleDistinct | src/Tensor.cs:146-150 | No tensor is scheduled twice, so each Backward runs at most once. |
| Autograd.SquareAccumulatesBothSlots | src/Tensor.cs:151-164 | For `x*x`, both slots are added into x's gradient. |
| Autograd.DiamondSumsBothPaths | src/Tensor.cs:151-164 | A leaf used along two paths gets the sum of both paths' contributions, and every context is dropped. |
| Autograd.ExtentProduct | src/Tensor.cs:100 | The fold succeeds exactly when every axis is valid, giving the product of the listed extents; otherwise it is an index error. |
| Autograd.MeanOfAllDividesByOne | src/Tensor.cs:97-101 | Counterexample: for shape [2,3] with no axes, the divisor as written is 1 and the corrected one is 6. |
| Autograd.MeanRepeatedAxis | src/Tensor.cs:97-101 | With a repeated axis the divisor is the product of the listed extents: `Mean(1, 1)` of a 2 x 3 tensor sums all six elements and divides by 9. |
| Autograd.MeanDividesByCount | src/Tensor.cs:97-101 | The output's element count times the corrected divisor is the input's element count. With no axes the divisor is the whole count. |
| Autograd.ReducedKeepsTheRest | src/Tensor.cs:97-101 | The reduced shape and the reduced extents together span the input. |
| Autograd.ReduceEveryAxis | src/Tensor.cs:85-87 | Distinct axes naming every dimension span all of the array's elements. |
| Autograd.ReduceAll | src/Tensor.cs:85-87 | With no axes, the default axes are valid and reduce the array to `[1]`. |
| Autograd.FlattenShape | src/Tensor.cs:103-108 | Flattening keeps the element count. Unbatched it gives one extent. Batched it gives two extents whose first is the batch; it fails on a rank-0 array (index) and on a zero batch (division). |
| Autograd.PostOrderedAppend | src/Tensor.cs:133 | Appending a node all of whose parents with a context are already listed keeps post order. |
| Autograd.Ancestors | src/Tensor.cs:123-135 | Every ancestor of a tensor is the tensor itself or older, because parents are created before their consumers. |
| Autograd.AncestorsOfParent | src/Tensor.cs:130-132 | Ancestry is transitive: a parent is older than its consumer, and the parent's ancestors are the consumer's. |
| Autograd.AncestorsOfAllMember | src/Tensor.cs:130-132 | An ancestor through a list of parents is an ancestor of one of them. |
| Autograd.AncestorsOfLeaf | src/Tensor.cs:128 | A tensor without a context has no ancestor but itself. |
| Autograd.AncestorsStep | src/Tensor.cs:128-132 | Every ancestor other than the tensor itself is a parent of some ancestor. |
| Autograd.AncestorsListed | src/Tensor.cs:123-135 | A post-order lists, with each tensor it holds, every ancestor of that tensor that has a context. |
| Autograd.SiblingNeverListed | src/Tensor.cs:123-141 | With tensors 1 and 2 both computed from tensor 0, every listing from root 2 that `BackwardOrder` permits is `[2]`, so the sibling is never processed. |

## Left out

- Element values and floating point. Only shapes, flags, null slots and the bookkeeping of the pass are modelled. The numeric kernels of Forward and Backward (exponentials, square roots, the ReLU mask, the Max mask) and NumSharp's arrays are not part of this model.
- Derivative values: the pass takes each Backward's derivative as the parameter `Derive`, and gradients are reals added exactly. Floating-point addition is not associative, so the order in which contributions arrive can change the result in C#. `PlusAssociates` holds only for the model.
- Autograd.BackwardCompletes: assumes that each Backward gives a non-null slot to every parent that requires a gradient (`SlotsCover`). The per-operation lemmas on `BackwardSlots` state this for shapes when Backward succeeds, but the value-level `Derive` is a parameter, so the link is an assumption of the lemma.
- Autograd.Run: an exception thrown by an operation's own Backward during the pass (a missing saved intermediate, an unfoldable shape) is not modelled in the pass. `BackwardSlots` models those errors per operation.
- Autograd.Plus: the gradient sum goes through `Apply<Add>` on tensors and broadcasts mismatched shapes. The model adds values, and gradients are not tensors in the arena.
- A null derivative slot is wrapped in an empty tensor in C#, so its null test never fails. The model treats the slot as absent. The two agree unless a parent's `RequiresGrad` is set after `Apply`, which the model does not allow.
- The public setters of `RequiresGrad`, `Context` and `Gradient`: the state is only changed through the model's operations, so cycles cannot be built, and a tensor with a context always requires a gradient. Clearing `RequiresGrad` on such a tensor afterwards could leave its `Gradient` null when the pass dereferences it, and that is not modelled.
- Null parents: the public API never passes a null tensor to `Apply`. A null operand inside NumSharp arithmetic (for example ReLU's Backward after a Forward without gradients) is modelled as a null dereference.
- The auxiliary tensors holding Sum's and Max's axes and Reshape's target shape are not created in the arena. They are never parents, because those constructors pass only the input to the base constructor, so the model carries the values in the operation tag.
- Autograd.Graph.Reshape: the `-1` extent that NumSharp infers is not modelled. The target is a list of non-negative extents.
- Autograd.Graph.Mean: negative axes are resolved against the rank when the divisor is computed, assuming NumSharp's shape indexer does so.
- `GC.Collect`, `Numpy`, `Detach`, the operator overloads other than `tensor / array` (each is one `Apply`), `Funcs.Linear` (one `Apply` of Linear), `Activator.CreateInstance` and the disabled `ApplyV2`.
- The static `no_grad` switch is a field of the graph rather than a process-wide global. Concurrency is not modelled.
- Linear's Backward with a saved bias but only two parents is unreachable through `Forward`. It is modelled as an index error.
- Funcs.TensorDotPair: uses the corrected `TensorDotAxesPair`, which resolves b's axis against b's rank. It does not model the code as written, which resolves it against a's rank (first Findings row; the as-written resolution is `TensorDotAxesPairAsWritten`).
- Funcs.TensorDotLists: uses the corrected `TensorDotAxesLists` in the same way (second Findings row; the as-written resolution is `TensorDotAxesListsAsWritten`). The two agree whenever b's axes are non-negative (`ListAxesResolutionAgrees`), which is the case for the one call in the engine, Linear's dw (`LinearDwResolvesAsWritten`).
- Autograd.Graph.Mean: divides by the corrected `MeanDivisor`, the product of the extents at the reduced axes, which for distinct axes is the count of the elements actually reduced. It does not model the code as written, which divides by 1 when no axes are given (third Findings row; the as-written divisor is `MeanDivisorAsWritten`).
- Autograd.Graph.Mean: with a repeated axis the divisor is still the product of the listed extents, not the element count: `Mean(1, 1)` of a 2 x 3 tensor sums all six elements but divides by 9 (`MeanRepeatedAxis`). The code does the same, so this is modelled as written.
- Funcs.TensorDotReshape: a repeated contracted axis is modelled as a shape mismatch, on the assumption that NumSharp's `transpose` refuses a permutation longer than the rank. NumSharp's `transpose` is not part of this model, so what it actually does with such a permutation is not established.
- MLops.ForwardShape: an empty exponent to Pow is modelled as an index error, on the assumption that reading element 0 of an empty NumSharp array (`y.GetData()[0]`, src/MLops.cs:160) throws one. NumSharp's storage classes are not part of this model, so the exception actually raised there is not established. `Function.ForwardPow` makes the same assumption.
- Exception kinds: a negative count given to `Enumerable.Repeat` (src/Funcs.cs:173, 193) or `Enumerable.Range` (src/MLops.cs:285-287) throws `ArgumentOutOfRangeException` in .NET, and both are modelled as the one kind `ArgumentOutOfRange`. `InvalidArgument` is kept for the source's own `throw new Exception(...)`.
- Integer widths: extents and counts are unbounded naturals. A C# `int` overflow in an element count is not modelled.

## Findings

| source | as written | input that shows it | evidently intended | confidence | as-written member | corrected member |
|---|---|---|---|---|---|---|
| src/Funcs.cs:127-134 | Both axes of the pair are resolved against `a.ndim`. | `a` of shape [2,3,4], `b` of shape [4,5], axes (2, -2): b's axis becomes 1 (extent 5, not 4) | Resolve b's axis against `b.ndim` (axis 0), contracting to [2,3,5] | not executed; read from the code | Funcs.PairAxesUseRankOfA | Funcs.TensorDotAxesPair |
| src/Funcs.cs:146-158 | Both lists are resolved with `a.ndim`. | ranks 3 and 2, axes ([2], [-2]): b's axis becomes 1 | b's axes resolved against `b.ndim` (axis 0) | not executed; read from the code | Funcs.ListAxesUseRankOfA | Funcs.TensorDotAxesLists |
| src/Tensor.cs:97-101 | The divisor folds over `axes`, which is empty when no axes are given, while the sum reduced every axis. | shape [2,3], `Mean()`: the sum of 6 elements is divided by 1 | Divide by the number of reduced elements, 6 | not executed; read from the code | Autograd.MeanOfAllDividesByOne | Autograd.MeanDividesByCount |
