/**
 * The operations of `MLops` at the level of shapes, flags and saved state:
 * which shape each Forward produces, what it keeps for the backward pass, and
 * which derivative slots each Backward fills and with what shape.
 */
module MLops {
  import opened Wrappers
  import opened Shapes
  import opened Funcs

  // ---------------------------------------------------------------------------
  // Operation tags
  // ---------------------------------------------------------------------------

  /**
   * One tag per subclass of `Function`. The shape of a Reshape and the axes
   * of a Sum or Max travel in the tag: the source passes them as a second
   * tensor that never becomes a parent.
   */
  datatype Op =
    | Add | Subtract | Multiply | Divide | Pow
    | Exp | Log | Sqrt | ReLU
    | Linear
    | Reshape(target: Shape)
    | Sum(axes: seq<int>)
    | Max(axes: seq<int>)

  /** The element-wise binary operations whose gradients are reverse-broadcast. */
  predicate IsElementwise(op: Op)
  {
    op.Add? || op.Subtract? || op.Multiply? || op.Divide?
  }

  /** The number of parents each subclass's constructor passes to the base constructor. */
  predicate Arity(op: Op, n: nat)
  {
    if IsElementwise(op) || op.Pow? then n == 2
    else if op.Linear? then n == 2 || n == 3
    else n == 1
  }

  /** Function's constructor: some parent requires a gradient. */
  function AnyRequiresGrad(flags: seq<bool>): (r: bool)
    ensures r <==> exists i :: 0 <= i < |flags| && flags[i]
  {
    if flags == [] then false
    else if flags[0] then true
    else
      var rest := AnyRequiresGrad(flags[1..]);
      assert forall i :: 1 <= i < |flags| ==> flags[i] == flags[1..][i - 1];
      rest
  }

  // ---------------------------------------------------------------------------
  // Broadcasting of element-wise operands
  // ---------------------------------------------------------------------------

  function MaxRank(a: Shape, b: Shape): nat
  {
    if |a| >= |b| then |a| else |b|
  }

  /** Right-aligned, every pair of extents agrees or one of them is 1. */
  predicate Compatible(a: Shape, b: Shape)
  {
    var n := MaxRank(a, b);
    forall j :: 0 <= j < n ==>
      Padded(a, n)[j] == Padded(b, n)[j] || Padded(a, n)[j] == 1 || Padded(b, n)[j] == 1
  }

  /** The shape of an element-wise operation on arrays of shapes `a` and `b`. */
  function Broadcast(a: Shape, b: Shape): (r: Result<Shape>)
    ensures r.Success? <==> Compatible(a, b)
    ensures r.Success? ==>
      |r.value| == MaxRank(a, b) && BroadcastsTo(a, r.value) && BroadcastsTo(b, r.value)
  {
    var n := MaxRank(a, b);
    var pa, pb := Padded(a, n), Padded(b, n);
    if Compatible(a, b) then
      Success(seq(n, j requires 0 <= j < n => if pa[j] == 1 then pb[j] else pa[j]))
    else Failure(ShapeMismatch)
  }

  /** Padding to a shape's own rank changes nothing. */
  lemma PaddedSelf(s: Shape)
    ensures Padded(s, |s|) == s
  {
    assert Ones(0) + s == s;
  }

  /**
   * The broadcast shape is the least common target: any shape both operands
   * broadcast to is one the broadcast shape broadcasts to.
   */
  lemma BroadcastLeast(a: Shape, b: Shape, t: Shape)
    requires BroadcastsTo(a, t) && BroadcastsTo(b, t)
    ensures Broadcast(a, b).Success?
    ensures BroadcastsTo(Broadcast(a, b).value, t)
  {
    var n := MaxRank(a, b);
    var pa, pb := Padded(a, n), Padded(b, n);
    var ta, tb := Padded(a, |t|), Padded(b, |t|);
    forall j | 0 <= j < n
      ensures pa[j] == pb[j] || pa[j] == 1 || pb[j] == 1
    {
      assert pa[j] == ta[|t| - n + j] && pb[j] == tb[|t| - n + j];
    }
    var r := Broadcast(a, b).value;
    forall j | 0 <= j < |t|
      ensures Padded(r, |t|)[j] == t[j] || Padded(r, |t|)[j] == 1
    {
      if j >= |t| - n {
        assert pa[j - (|t| - n)] == ta[j] && pb[j - (|t| - n)] == tb[j];
      }
    }
  }

  /** Broadcasting never depends on the order of the operands. */
  lemma BroadcastCommutes(a: Shape, b: Shape)
    ensures Broadcast(a, b) == Broadcast(b, a)
  {
    var n := MaxRank(a, b);
    assert MaxRank(b, a) == n;
    if Compatible(a, b) {
      var pa, pb := Padded(a, n), Padded(b, n);
      assert Compatible(b, a);
      var r, r' := Broadcast(a, b).value, Broadcast(b, a).value;
      forall j | 0 <= j < n
        ensures r[j] == r'[j]
      {
        assert pa[j] == pb[j] || pa[j] == 1 || pb[j] == 1;
      }
      assert r == r';
    }
  }

  /** An operand that already broadcasts to the other one leaves its shape as the result. */
  lemma BroadcastInto(a: Shape, b: Shape)
    requires BroadcastsTo(a, b)
    ensures Broadcast(a, b) == Success(b)
    ensures Broadcast(b, a) == Success(b)
  {
    PaddedSelf(b);
    assert MaxRank(a, b) == |b|;
    assert Broadcast(a, b).value == b;
    BroadcastCommutes(a, b);
  }

  // ---------------------------------------------------------------------------
  // Reducing over axes with the dimension kept
  // ---------------------------------------------------------------------------

  /** The axes of a reduction are valid for a rank-`rank` array once resolved. */
  predicate ValidAxes(axes: seq<int>, rank: nat)
  {
    InRange(NormalizeAll(axes, rank), rank)
  }

  /** `s` reduced over `axes` with `keepdims`: every reduced extent becomes 1. */
  function KeptDims(s: Shape, axes: seq<int>): (r: Shape)
    requires ValidAxes(axes, |s|)
  {
    var resolved := NormalizeAll(axes, |s|);
    seq(|s|, j requires 0 <= j < |s| => if j in resolved then 1 else s[j])
  }

  /**
   * The loop `foreach (int i in axes) ret = ret.sum(i, keepdims: true)` at
   * shape level: each axis in turn, resolved against the rank, is reduced to
   * extent 1; an axis outside the array ends the loop with an error.
   */
  method ReduceKeepDims(s: Shape, axes: seq<int>) returns (r: Result<Shape>)
    ensures r.Success? <==> ValidAxes(axes, |s|)
    ensures r.Success? ==> r.value == KeptDims(s, axes)
  {
    var kept := s;
    for i := 0 to |axes|
      invariant |kept| == |s|
      invariant ValidAxes(axes[..i], |s|)
      invariant forall j :: 0 <= j < |s| ==>
        kept[j] == if j in NormalizeAll(axes[..i], |s|) then 1 else s[j]
    {
      var a := Normalize(axes[i], |s|);
      assert NormalizeAll(axes[..i + 1], |s|) == NormalizeAll(axes[..i], |s|) + [a];
      if !(0 <= a < |s|) {
        assert NormalizeAll(axes, |s|)[i] == a;
        return Failure(IndexOutOfRange);
      }
      kept := kept[a := 1];
    }
    assert axes[..|axes|] == axes;
    return Success(kept);
  }

  /** The first `n` extents with the listed axes set to 1. */
  function Masked(s: Shape, axes: seq<int>, n: nat): Shape
    requires n <= |s|
  {
    seq(n, j requires 0 <= j < n => if j in axes then 1 else s[j])
  }

  lemma MaskedStep(s: Shape, axes: seq<int>, n: nat)
    requires 0 < n <= |s|
    ensures Masked(s, axes, n) == Masked(s, axes, n - 1) + [if n - 1 in axes then 1 else s[n - 1]]
  {
  }

  lemma FreeGatherStep(s: Shape, axes: seq<int>, n: nat)
    requires 0 < n <= |s|
    ensures InRange(Free(n - 1, axes), |s|) && InRange(Free(n, axes), |s|)
    ensures Prod(Gather(s, Free(n, axes))) ==
      Prod(Gather(s, Free(n - 1, axes))) * (if n - 1 in axes then 1 else s[n - 1])
  {
    var g := Gather(s, Free(n - 1, axes));
    if n - 1 !in axes {
      GatherAppend(s, Free(n - 1, axes), [n - 1]);
      assert Gather(s, [n - 1]) == [s[n - 1]];
      ProdAppend(g, [s[n - 1]]);
    }
  }

  lemma {:induction false} MaskedProd(s: Shape, axes: seq<int>, n: nat)
    requires n <= |s|
    ensures InRange(Free(n, axes), |s|)
    ensures Prod(Masked(s, axes, n)) == Prod(Gather(s, Free(n, axes)))
  {
    if n > 0 {
      MaskedProd(s, axes, n - 1);
      MaskedStep(s, axes, n);
      FreeGatherStep(s, axes, n);
      var prefix := Masked(s, axes, n - 1);
      var last := if n - 1 in axes then 1 else s[n - 1];
      ProdSnoc(prefix, last);
    }
  }

  /**
   * Keeping the reduced dimensions as extent 1 or dropping them spans the same
   * number of elements, so the final reshape of Sum and Max always succeeds;
   * and the kept shape broadcasts back to the input.
   */
  lemma KeptDimsFacts(s: Shape, axes: seq<int>)
    requires ValidAxes(axes, |s|)
    ensures Prod(KeptDims(s, axes)) == Prod(Gather(s, Free(|s|, NormalizeAll(axes, |s|))))
    ensures BroadcastsTo(KeptDims(s, axes), s)
  {
    var resolved := NormalizeAll(axes, |s|);
    assert KeptDims(s, axes) == Masked(s, resolved, |s|);
    MaskedProd(s, resolved, |s|);
    PaddedSelf(KeptDims(s, axes));
  }

  // ---------------------------------------------------------------------------
  // Forward shapes
  // ---------------------------------------------------------------------------

  /**
   * The output shape of Sum and Max: `[1]` when as many axes as dimensions
   * are given (the axes themselves are then not looked at), otherwise the
   * input's extents at the axes that are not reduced, in order.
   */
  function ReducedShape(s: Shape, axes: seq<int>): (r: Result<Shape>)
    ensures |axes| == |s| ==> r == Success([1])
    ensures |axes| != |s| ==> (r.Success? <==> ValidAxes(axes, |s|))
    ensures r.Failure? ==> r.error == IndexOutOfRange
  {
    if |axes| == |s| then Success([1])
    else if !ValidAxes(axes, |s|) then Failure(IndexOutOfRange)
    else Success(Gather(s, Free(|s|, NormalizeAll(axes, |s|))))
  }

  /**
   * Reducing over distinct axes keeps exactly the other extents, in order:
   * the output has one dimension per unreduced axis, and the reduced and the
   * kept extents together span every element of the input.
   */
  lemma ReducedShapeCount(s: Shape, axes: seq<int>)
    requires |axes| != |s| && ValidAxes(axes, |s|) && Distinct(NormalizeAll(axes, |s|))
    ensures var out := ReducedShape(s, axes).value;
      && |out| == |s| - |axes|
      && Prod(out) * Prod(Gather(s, NormalizeAll(axes, |s|))) == Prod(s)
  {
    var resolved := NormalizeAll(axes, |s|);
    FreeAndAxesProd(s, resolved);
    FreeAndAxesCover(|s|, resolved);
  }

  /** Linear keeps its third input as the bias when it has one. */
  function LinearBias(inputs: seq<Shape>): Option<Shape>
  {
    if |inputs| == 3 then Some(inputs[2]) else None
  }

  /**
   * Linear's Forward: x's last axis contracted with w's first, giving x's
   * leading extents followed by w's trailing ones, then the bias added with
   * broadcasting.
   */
  function LinearShape(x: Shape, w: Shape, bias: Option<Shape>): (r: Result<Shape>)
    ensures bias.None? ==>
      && (r.Success? <==> |x| > 0 && |w| > 0 && x[|x| - 1] == w[0])
      && (r.Success? ==> r.value == x[..|x| - 1] + w[1..])
    ensures bias.Some? ==>
      && (r.Success? <==> |x| > 0 && |w| > 0 && x[|x| - 1] == w[0] && Compatible(x[..|x| - 1] + w[1..], bias.value))
      && (r.Success? ==> r == Broadcast(x[..|x| - 1] + w[1..], bias.value))
    ensures bias.Some? && r.Success? ==>
      && BroadcastsTo(x[..|x| - 1] + w[1..], r.value)
      && BroadcastsTo(bias.value, r.value)
  {
    TensorDotLastFirst(x, w);
    var product :- TensorDotPair(x, w, [-1, 0]);
    if bias.Some? then Broadcast(product.shape, bias.value) else Success(product.shape)
  }

  /** The shape a Forward computes from the shapes of its inputs. */
  function ForwardShape(op: Op, inputs: seq<Shape>): (r: Result<Shape>)
    requires Arity(op, |inputs|)
    ensures IsElementwise(op) ==>
      && (r.Success? <==> Compatible(inputs[0], inputs[1]))
      && (r.Success? ==> BroadcastsTo(inputs[0], r.value) && BroadcastsTo(inputs[1], r.value))
    ensures op.Pow? ==>
      && (r.Success? <==> Prod(inputs[1]) == 1)
      && (r.Success? ==> r.value == inputs[0])
    ensures op.Exp? || op.Log? || op.Sqrt? || op.ReLU? ==> r == Success(inputs[0])
    ensures op.Linear? ==> r == LinearShape(inputs[0], inputs[1], LinearBias(inputs))
    ensures op.Reshape? ==>
      && (r.Success? <==> Prod(op.target) == Prod(inputs[0]))
      && (r.Success? ==> r.value == op.target)
    ensures op.Sum? || op.Max? ==> r == ReducedShape(inputs[0], op.axes)
  {
    match op
    case Add => Broadcast(inputs[0], inputs[1])
    case Subtract => Broadcast(inputs[0], inputs[1])
    case Multiply => Broadcast(inputs[0], inputs[1])
    case Divide => Broadcast(inputs[0], inputs[1])
    case Pow =>
      if Prod(inputs[1]) > 1 then Failure(InvalidArgument("only accepting scalar values as exponents"))
      else if Prod(inputs[1]) == 0 then Failure(IndexOutOfRange)  // y.GetData()[0] of an empty array
      else Success(inputs[0])
    case Exp => Success(inputs[0])
    case Log => Success(inputs[0])
    case Sqrt => Success(inputs[0])
    case ReLU => Success(inputs[0])
    case Linear => LinearShape(inputs[0], inputs[1], LinearBias(inputs))
    case Reshape(target) =>
      if Prod(target) == Prod(inputs[0]) then Success(target) else Failure(ShapeMismatch)
    case Sum(axes) => ReducedShape(inputs[0], axes)
    case Max(axes) => ReducedShape(inputs[0], axes)
  }

  // ---------------------------------------------------------------------------
  // Saved state
  // ---------------------------------------------------------------------------

  /**
   * The intermediates a Function keeps for its Backward, by field: `x` the
   * first input, `y` the second (Linear's `w`), `ret` the output (ReLU's
   * `self`), `bias`, and Reshape's and Sum's `input_shape` and `outshape`.
   */
  datatype Saved = Saved(
    x: Option<Shape>, y: Option<Shape>, ret: Option<Shape>,
    bias: Option<Shape>, inputShape: Option<Shape>, outShape: Option<Shape>)

  const NothingSaved := Saved(None, None, None, None, None, None)

  /** The shape Sum keeps in `outshape` and Max in `ret`: the reduction with keepdims. */
  function KeptShape(s: Shape, axes: seq<int>): Shape
    requires |axes| == |s| || ValidAxes(axes, |s|)
  {
    if |axes| == |s| then [1] else KeptDims(s, axes)
  }


  /**
   * The saved state after Forward on `inputs`, from the state `before`: the
   * fields each Forward assigns, in the order it assigns them, up to the
   * point where it returns or throws.
   */
  function SavedAfter(op: Op, rg: bool, inputs: seq<Shape>, before: Saved): Saved
    requires Arity(op, |inputs|)
  {
    var ok := ForwardShape(op, inputs).Success?;
    match op
    case Add => before
    case Subtract => before
    case Multiply =>
      if ok && !rg then before.(x := None, y := None)
      else before.(x := Some(inputs[0]), y := Some(inputs[1]))
    case Divide =>
      if ok && !rg then before.(x := None, y := None)
      else before.(x := Some(inputs[0]), y := Some(inputs[1]))
    case Pow =>
      if !ok then before.(x := Some(inputs[0]), y := Some(inputs[1]))
      else if rg then before.(x := Some(inputs[0]), y := Some(inputs[1]), ret := Some(inputs[0]))
      else before.(x := None, y := None, ret := None)
    case Exp => if rg then before.(ret := Some(inputs[0])) else before
    case Log => before.(x := if rg then Some(inputs[0]) else None)
    case Sqrt => before.(x := if rg then Some(inputs[0]) else None)
    case ReLU => if rg then before.(ret := Some(inputs[0])) else before
    case Linear =>
      var stored := before.(x := Some(inputs[0]), y := Some(inputs[1]), bias := LinearBias(inputs));
      if ok && !rg then stored.(x := None, y := None) else stored
    case Reshape(_) => if ok && rg then before.(inputShape := Some(inputs[0])) else before
    case Sum(axes) =>
      if ok && rg then before.(inputShape := Some(inputs[0]), outShape := Some(KeptShape(inputs[0], axes)))
      else before
    case Max(axes) =>
      if ok && rg then before.(x := Some(inputs[0]), ret := Some(KeptShape(inputs[0], axes)))
      else before
  }

  /**
   * Without gradients a successful Forward leaves nothing saved on a fresh
   * Function, except Linear's bias, which is stored whatever the flag.
   */
  lemma NoGradSavesNothing(op: Op, inputs: seq<Shape>)
    requires Arity(op, |inputs|) && ForwardShape(op, inputs).Success?
    ensures var s := SavedAfter(op, false, inputs, NothingSaved);
      && s.x.None? && s.y.None? && s.ret.None? && s.inputShape.None? && s.outShape.None?
      && (s.bias.Some? <==> op.Linear? && |inputs| == 3)
  {
  }

  // ---------------------------------------------------------------------------
  // Backward shapes
  // ---------------------------------------------------------------------------

  /** A saved intermediate that must be present: reading an absent one throws. */
  function Required(o: Option<Shape>): Result<Shape>
  {
    if o.Some? then Success(o.value) else Failure(NullReference)
  }

  /** `cond ? derivative : null`, where the derivative is computed only when wanted. */
  function Slot(wanted: bool, grad: Result<Shape>): Result<Option<Shape>>
  {
    if !wanted then Success(None)
    else
      var s :- grad;
      Success(Some(s))
  }

  /** Multiply: ReverseBroadCast(mine, other * gradient). */
  function MultiplyGrad(mine: Option<Shape>, other: Option<Shape>, g: Shape): Result<Shape>
  {
    var o :- Required(other);
    var post :- Broadcast(o, g);
    var m :- Required(mine);
    ReverseBroadcastShape(m, post)
  }

  /** Divide, numerator: ReverseBroadCast(x, gradient / y). */
  function DivideGradX(x: Option<Shape>, y: Option<Shape>, g: Shape): Result<Shape>
  {
    var ys :- Required(y);
    var post :- Broadcast(g, ys);
    var xs :- Required(x);
    ReverseBroadcastShape(xs, post)
  }

  /** Divide, denominator: ReverseBroadCast(y, (gradient * -1) * x / (y * y)). */
  function DivideGradY(x: Option<Shape>, y: Option<Shape>, g: Shape): Result<Shape>
  {
    var xs :- Required(x);
    var scaled :- Broadcast(g, xs);
    var ys :- Required(y);
    var post :- Broadcast(scaled, ys);
    ReverseBroadcastShape(ys, post)
  }

  /** Pow, base: gradient * (y * (ret / x)), with no reverse broadcast. */
  function PowGradX(saved: Saved, g: Shape): Result<Shape>
  {
    var rs :- Required(saved.ret);
    var xs :- Required(saved.x);
    var ratio :- Broadcast(rs, xs);
    var ys :- Required(saved.y);
    var scaled :- Broadcast(ys, ratio);
    Broadcast(g, scaled)
  }

  /** Pow, exponent: gradient * (log(x) * ret), which has the base's shape. */
  function PowGradY(saved: Saved, g: Shape): Result<Shape>
  {
    var xs :- Required(saved.x);
    var rs :- Required(saved.ret);
    var scaled :- Broadcast(xs, rs);
    Broadcast(g, scaled)
  }

  /** `gradient * kept`, the shape of Exp's, Log's and Sqrt's derivative. */
  function TimesSaved(kept: Option<Shape>, g: Shape): Result<Shape>
  {
    var k :- Required(kept);
    Broadcast(g, k)
  }

  /** The derivative slots of the binary operations, in parent order. */
  function BinarySlots(op: Op, saved: Saved, parentRG: seq<bool>, parentShapes: seq<Shape>, g: Shape)
    : (r: Result<seq<Option<Shape>>>)
    requires IsElementwise(op) || op.Pow?
    requires |parentRG| == 2 && |parentShapes| == 2
    ensures r.Success? ==> |r.value| == 2 && forall i :: 0 <= i < 2 ==> (r.value[i].None? <==> !parentRG[i])
    ensures !parentRG[0] && !parentRG[1] ==> r == Success([None, None])
  {
    // Add and Subtract reverse-broadcast to the parents' current shapes
    var first :- Slot(parentRG[0],
      if op.Multiply? then MultiplyGrad(saved.x, saved.y, g)
      else if op.Divide? then DivideGradX(saved.x, saved.y, g)
      else if op.Pow? then PowGradX(saved, g)
      else ReverseBroadcastShape(parentShapes[0], g));
    var second :- Slot(parentRG[1],
      if op.Multiply? then MultiplyGrad(saved.y, saved.x, g)
      else if op.Divide? then DivideGradY(saved.x, saved.y, g)
      else if op.Pow? then PowGradY(saved, g)
      else ReverseBroadcastShape(parentShapes[1], g));
    Success([first, second])
  }

  /**
   * Linear: the axes `0 .. rank(g)-2`; dB is the gradient reduced over them
   * and squeezed, present only for a bias that requires a gradient; dx is
   * the gradient contracted with w transposed, dw is x contracted with the
   * gradient over those axes.
   */
  function LinearSlots(saved: Saved, parentRG: seq<bool>, g: Shape): (r: Result<seq<Option<Shape>>>)
    requires |parentRG| == 2 || |parentRG| == 3
    ensures r.Success? ==>
      && |r.value| == 3
      && (r.value[0].None? <==> !parentRG[0])
      && (r.value[1].None? <==> !parentRG[1])
      && (r.value[2].Some? <==> saved.bias.Some? && |parentRG| == 3 && parentRG[2])
    ensures r.Success? && r.value[2].Some? ==> |g| > 0 && r.value[2].value == [g[|g| - 1]]
    ensures |g| == 0 ==> r == Failure(ArgumentOutOfRange)
  {
    if |g| == 0 then Failure(ArgumentOutOfRange)  // Enumerable.Range(0, -1)
    else
      var dB :-
        if saved.bias.None? then Success(None)
        else if |parentRG| < 3 then Failure(IndexOutOfRange)
        else if !parentRG[2] then Success(None)
        else Success(Some(BiasGradShape(g)));
      var dx :- Slot(parentRG[0], LinearDx(saved, g));
      var dw :- Slot(parentRG[1], LinearDw(saved, g));
      Success([dx, dw, dB])
  }

  /** Linear's dx: TensorDot(gradient, w.T, {-1, 0}). */
  function LinearDx(saved: Saved, g: Shape): Result<Shape>
  {
    var ws :- Required(saved.y);
    var c :- TensorDotPair(g, Reversed(ws), [-1, 0]);
    Success(c.shape)
  }

  /** Linear's dw: TensorDot(x, gradient, {axes, axes}) over the leading axes of the gradient. */
  function LinearDw(saved: Saved, g: Shape): Result<Shape>
    requires |g| > 0
  {
    var xs :- Required(saved.x);
    var axes := Range(0, |g| - 1);
    var c :- TensorDotLists(xs, g, [axes, axes]);
    Success(c.shape)
  }

  /**
   * dw contracts over the axes `0 .. rank(g)-2`, none of them negative, so
   * resolving the gradient's axes against x's rank, as the code does, names
   * the same positions as resolving them against the gradient's own rank.
   */
  lemma LinearDwResolvesAsWritten(rankX: nat, g: Shape)
    requires |g| > 0
    ensures var axes := Range(0, |g| - 1);
      TensorDotAxesListsAsWritten(rankX, [axes, axes]) == TensorDotAxesLists(rankX, |g|, [axes, axes])
  {
    var axes := Range(0, |g| - 1);
    ListAxesResolutionAgrees(rankX, |g|, [axes, axes]);
  }

  /** The gradient reduced with keepdims over every axis but the last, then squeezed. */
  function BiasGradShape(g: Shape): (r: Shape)
    requires |g| > 0
    ensures ValidAxes(Range(0, |g| - 1), |g|)
    ensures r == Squeeze(KeptDims(g, Range(0, |g| - 1)))
    ensures r == [g[|g| - 1]]
  {
    var n := |g| - 1;
    NormalizeRange(n, |g|);
    var kept := KeptDims(g, Range(0, n));
    assert kept == Ones(n) + [g[n]] by {
      forall j | 0 <= j < |g|
        ensures kept[j] == (Ones(n) + [g[n]])[j]
      {
        if j < n {
          assert Range(0, n)[j] == j;
        }
      }
    }
    SqueezeOnesThen(n, g[n]);
    Squeeze(kept)
  }

  /** Non-negative axes are left as they are by the resolution. */
  lemma NormalizeRange(n: nat, rank: nat)
    requires n <= rank
    ensures NormalizeAll(Range(0, n), rank) == Range(0, n)
    ensures ValidAxes(Range(0, n), rank)
  {
  }

  /** Squeezing unit axes followed by one extent leaves just that extent. */
  lemma SqueezeOnesThen(n: nat, m: nat)
    ensures Squeeze(Ones(n) + [m]) == [m]
  {
    DropOnesAppend(Ones(n), [m]);
    assert DropOnes(Ones(n)) == [];
    assert [m][1..] == [];
    if m != 1 {
      assert DropOnes([m]) == [m] + DropOnes([]);
    }
  }

  /** The one derivative slot of the single-parent operations. */
  function UnarySlots(op: Op, rg: bool, saved: Saved, g: Shape): (r: Result<seq<Option<Shape>>>)
    requires op.Exp? || op.Log? || op.Sqrt? || op.ReLU? || op.Reshape? || op.Sum? || op.Max?
    ensures r.Success? ==> |r.value| == 1
    ensures r.Success? && !op.ReLU? ==> (r.value[0].None? <==> !rg)
    ensures r.Success? && op.ReLU? ==> r.value[0].Some?
    ensures !rg && !op.Max? && !op.ReLU? ==> r == Success([None])
  {
    match op
    case Exp =>
      var d :- Slot(rg, TimesSaved(saved.ret, g));
      Success([d])
    case Log =>
      var d :- Slot(rg, TimesSaved(saved.x, g));
      Success([d])
    case Sqrt =>
      var d :- Slot(rg, TimesSaved(saved.x, g));
      Success([d])
    case ReLU =>
      // self?.astype(...) * gradient: the product is taken even when self is null
      var self :- Required(saved.ret);
      var d :- Broadcast(self, g);
      Success([Some(d)])
    case Reshape(_) =>
      var d :- Slot(rg,
        var ins :- Required(saved.inputShape);
        if Prod(g) == Prod(ins) then Success(ins) else Failure(ShapeMismatch));
      Success([d])
    case Sum(_) =>
      var d :- Slot(rg,
        var outs :- Required(saved.outShape);
        if Prod(g) != Prod(outs) then Failure(ShapeMismatch)
        else
          var ins :- Required(saved.inputShape);
          if BroadcastsTo(outs, ins) then Success(ins) else Failure(ShapeMismatch));
      Success([d])
    case Max(axes) =>
      // the mask and its normaliser are computed before the flag is looked at
      var xs :- Required(saved.x);
      var rs :- Required(saved.ret);
      if !BroadcastsTo(rs, xs) then Failure(ShapeMismatch)
      else if !ValidAxes(axes, |xs|) then Failure(IndexOutOfRange)
      else if Prod(g) != Prod(rs) then Failure(ShapeMismatch)
      else Success([if rg then Some(xs) else None])
  }

  /**
   * Backward at shape level: one slot per element of the returned tuple, each
   * the shape of that parent's derivative or absent (null).
   */
  function BackwardSlots(op: Op, rg: bool, saved: Saved, parentRG: seq<bool>, parentShapes: seq<Shape>, g: Shape)
    : (r: Result<seq<Option<Shape>>>)
    requires Arity(op, |parentRG|) && |parentShapes| == |parentRG|
    ensures (IsElementwise(op) || op.Pow?) && r.Success? ==>
      |r.value| == 2 && forall i :: 0 <= i < 2 ==> (r.value[i].None? <==> !parentRG[i])
    ensures op.Linear? && r.Success? ==>
      && |r.value| == 3
      && (r.value[0].None? <==> !parentRG[0])
      && (r.value[1].None? <==> !parentRG[1])
      && (r.value[2].Some? <==> saved.bias.Some? && |parentRG| == 3 && parentRG[2])
    ensures !(IsElementwise(op) || op.Pow? || op.Linear?) && r.Success? ==>
      |r.value| == 1 && (op.ReLU? || (r.value[0].None? <==> !rg))
  {
    if IsElementwise(op) || op.Pow? then BinarySlots(op, saved, parentRG, parentShapes, g)
    else if op.Linear? then LinearSlots(saved, parentRG, g)
    else UnarySlots(op, rg, saved, g)
  }

  // ---------------------------------------------------------------------------
  // Forward then Backward: derivative shapes
  // ---------------------------------------------------------------------------

  /**
   * Add, Subtract, Multiply and Divide: after a Forward that needed gradients,
   * a gradient of the output's shape folds back to exactly each parent's shape.
   */
  lemma ElementwiseBackwardShapes(op: Op, a: Shape, b: Shape)
    requires IsElementwise(op) && Compatible(a, b)
    ensures var g := ForwardShape(op, [a, b]).value;
      var saved := SavedAfter(op, true, [a, b], NothingSaved);
      BackwardSlots(op, true, saved, [true, true], [a, b], g) == Success([Some(a), Some(b)])
  {
    var g := Broadcast(a, b).value;
    ReverseBroadcastOfBroadcast(a, g);
    ReverseBroadcastOfBroadcast(b, g);
    BroadcastInto(a, g);
    BroadcastInto(b, g);
  }

  /** An exponent of one element has only unit extents. */
  lemma {:induction false} ProdOneAllOnes(s: Shape)
    requires Prod(s) == 1
    ensures forall k :: 0 <= k < |s| ==> s[k] == 1
  {
    if s != [] {
      assert s[0] * Prod(s[1..]) == 1;
      ProdOneAllOnes(s[1..]);
      assert forall k :: 1 <= k < |s| ==> s[k] == s[1..][k - 1];
    }
  }

  /**
   * Pow with a one-element exponent of rank at most the base's: both
   * derivatives have the base's shape; the exponent's is not folded back to
   * the exponent's own shape.
   */
  lemma PowBackwardShapes(a: Shape, b: Shape)
    requires Prod(b) == 1 && |b| <= |a|
    ensures ForwardShape(Pow, [a, b]) == Success(a)
    ensures var saved := SavedAfter(Pow, true, [a, b], NothingSaved);
      BackwardSlots(Pow, true, saved, [true, true], [a, b], a) == Success([Some(a), Some(a)])
  {
    ProdOneAllOnes(b);
    var pb := Padded(b, |a|);
    assert forall j :: 0 <= j < |a| ==> pb[j] == 1;
    assert BroadcastsTo(b, a);
    BroadcastInto(b, a);
    PaddedSelf(a);
    BroadcastInto(a, a);
    var saved := SavedAfter(Pow, true, [a, b], NothingSaved);
    assert ForwardShape(Pow, [a, b]) == Success(a);
    assert saved.x == Some(a) && saved.y == Some(b) && saved.ret == Some(a);
    assert PowGradX(saved, a) == Success(a) && PowGradY(saved, a) == Success(a);
  }

  /** Exp, Log, Sqrt and ReLU: the derivative has the input's shape. */
  lemma PointwiseBackwardShapes(op: Op, a: Shape)
    requires op.Exp? || op.Log? || op.Sqrt? || op.ReLU?
    ensures var saved := SavedAfter(op, true, [a], NothingSaved);
      BackwardSlots(op, true, saved, [true], [a], a) == Success([Some(a)])
  {
    PaddedSelf(a);
    BroadcastInto(a, a);
  }

  /** Reshape's Backward restores the shape its Forward received. */
  lemma ReshapeBackwardRestores(s: Shape, target: Shape)
    requires Prod(target) == Prod(s)
    ensures ForwardShape(Reshape(target), [s]) == Success(target)
    ensures var saved := SavedAfter(Reshape(target), true, [s], NothingSaved);
      BackwardSlots(Reshape(target), true, saved, [true], [s], target) == Success([Some(s)])
  {
  }

  /** The keepdims shape of a reduction broadcasts back to the input and spans as many elements as the output. */
  lemma KeptShapeFacts(s: Shape, axes: seq<int>)
    requires |s| > 0 && ReducedShape(s, axes).Success?
    ensures BroadcastsTo(KeptShape(s, axes), s)
    ensures Prod(KeptShape(s, axes)) == Prod(ReducedShape(s, axes).value)
  {
    if |axes| == |s| {
      assert Padded([1], |s|) == Ones(|s|);
      assert Prod([1]) == 1;
    } else {
      KeptDimsFacts(s, axes);
    }
  }

  /**
   * Sum's Backward broadcasts a gradient of the output's shape back to the
   * input's shape (a rank-0 input is excluded: `[1]` does not broadcast to it).
   */
  lemma SumBackwardRestores(s: Shape, axes: seq<int>)
    requires |s| > 0 && ForwardShape(Sum(axes), [s]).Success?
    ensures var g := ForwardShape(Sum(axes), [s]).value;
      var saved := SavedAfter(Sum(axes), true, [s], NothingSaved);
      BackwardSlots(Sum(axes), true, saved, [true], [s], g) == Success([Some(s)])
  {
    KeptShapeFacts(s, axes);
  }

  /**
   * Max's Backward spreads a gradient of the output's shape over the input's
   * shape. Its mask is reduced over the listed axes even when they were not
   * looked at by the full reduction, so they must be valid here.
   */
  lemma MaxBackwardRestores(s: Shape, axes: seq<int>)
    requires |s| > 0 && ValidAxes(axes, |s|)
    ensures ForwardShape(Max(axes), [s]).Success?
    ensures var g := ForwardShape(Max(axes), [s]).value;
      var saved := SavedAfter(Max(axes), true, [s], NothingSaved);
      BackwardSlots(Max(axes), true, saved, [true], [s], g) == Success([Some(s)])
  {
    KeptShapeFacts(s, axes);
    var g := ForwardShape(Max(axes), [s]);
    assert g == ReducedShape(s, axes);
    var saved := SavedAfter(Max(axes), true, [s], NothingSaved);
    assert saved.x == Some(s) && saved.ret == Some(KeptShape(s, axes));
    assert UnarySlots(Max(axes), true, saved, g.value) == Success([Some(s)]);
  }

  /** The dx of Linear: the gradient contracted with w transposed has x's shape. */
  lemma LinearGradX(x: Shape, k: nat, m: nat, saved: Saved)
    requires |x| > 0 && x[|x| - 1] == k && saved.y == Some([k, m])
    ensures LinearDx(saved, x[..|x| - 1] + [m]) == Success(x)
  {
    var g := x[..|x| - 1] + [m];
    assert |g| == |x| && g[|g| - 1] == m;
    ContractWithTranspose(g, k, m);
    TransposeShapeIsInput(x, g, k);
    var c := TensorDotPair(g, Reversed([k, m]), [-1, 0]);
    assert Required(saved.y) == Success([k, m]);
    assert LinearDx(saved, g) == Success(c.value.shape);
  }

  lemma TransposeShapeIsInput(x: Shape, g: Shape, k: nat)
    requires |x| > 0 && x[|x| - 1] == k && |g| == |x| && g[..|g| - 1] == x[..|x| - 1]
    ensures g[..|g| - 1] + [k] == x
  {
    assert x == x[..|x| - 1] + [k];
  }

  /** A gradient ending in `m` contracted with the transpose of a [k, m] weight ends in `k`. */
  lemma ContractWithTranspose(g: Shape, k: nat, m: nat)
    requires |g| > 0 && g[|g| - 1] == m
    ensures TensorDotPair(g, Reversed([k, m]), [-1, 0]).Success?
    ensures TensorDotPair(g, Reversed([k, m]), [-1, 0]).value.shape == g[..|g| - 1] + [k]
  {
    var wt := Reversed([k, m]);
    assert wt == [m, k] by {
      assert wt[0] == m && wt[1] == k;
    }
    TensorDotLastFirst(g, wt);
    assert wt[1..] == [k];
  }


  /** The dw of Linear: x contracted with the gradient over the leading axes has w's shape. */
  lemma LinearGradW(x: Shape, k: nat, m: nat, saved: Saved)
    requires |x| > 0 && x[|x| - 1] == k && saved.x == Some(x)
    ensures LinearDw(saved, x[..|x| - 1] + [m]) == Success([k, m])
  {
    LinearContraction(x, k, m);
  }

  lemma LinearContraction(x: Shape, k: nat, m: nat)
    requires |x| > 0 && x[|x| - 1] == k
    ensures var g := x[..|x| - 1] + [m];
      var axes := Range(0, |g| - 1);
      && TensorDotLists(x, g, [axes, axes]).Success?
      && TensorDotLists(x, g, [axes, axes]).value.shape == [k, m]
  {
    var g := x[..|x| - 1] + [m];
    var n := |x| - 1;
    var axes := Range(0, n);
    NormalizeRange(n, |x|);
    FreeOfPrefixGather(x, n);
    FreeOfPrefixGather(g, n);
    assert g[..n] == x[..n];
    assert x[n..] == [k] && g[n..] == [m];
    assert [axes, axes][0] == axes && [axes, axes][1] == axes;
  }

  /** Linear's slots from saved x and 2-D w, for a gradient of the product's shape. */
  lemma LinearSlotsShapes(saved: Saved, flags: seq<bool>, g: Shape, dx: Shape, dw: Shape)
    requires |g| > 0 && LinearDx(saved, g) == Success(dx) && LinearDw(saved, g) == Success(dw)
    requires saved.bias.None? ==> flags == [true, true]
    requires saved.bias.Some? ==> flags == [true, true, true]
    ensures LinearSlots(saved, flags, g) ==
      Success([Some(dx), Some(dw), if saved.bias.Some? then Some([g[|g| - 1]]) else None])
  {
  }

  /**
   * Linear with a 2-D weight [k, m]: after a Forward that needed gradients,
   * a gradient of the product's shape gives dx of x's shape, dw of w's
   * shape, and, for a bias that broadcasts to that shape, a dB of `[m]`.
   */
  lemma LinearBackwardShapes(x: Shape, k: nat, m: nat, bias: Option<Shape>)
    requires |x| > 0 && x[|x| - 1] == k
    requires bias.Some? ==> BroadcastsTo(bias.value, x[..|x| - 1] + [m])
    ensures var inputs := if bias.Some? then [x, [k, m], bias.value] else [x, [k, m]];
      var g := x[..|x| - 1] + [m];
      var saved := SavedAfter(Linear, true, inputs, NothingSaved);
      var flags := if bias.Some? then [true, true, true] else [true, true];
      && ForwardShape(Linear, inputs) == Success(g)
      && BackwardSlots(Linear, true, saved, flags, inputs, g)
         == Success([Some(x), Some([k, m]), if bias.Some? then Some([m]) else None])
  {
    var inputs := if bias.Some? then [x, [k, m], bias.value] else [x, [k, m]];
    var g := x[..|x| - 1] + [m];
    var flags := if bias.Some? then [true, true, true] else [true, true];
    LinearForwardShape(x, k, m, bias);
    var saved := SavedAfter(Linear, true, inputs, NothingSaved);
    LinearSaves(x, k, m, bias);
    LinearGradX(x, k, m, saved);
    LinearGradW(x, k, m, saved);
    LinearSlotsShapes(saved, flags, g, x, [k, m]);
    assert g[|g| - 1] == m;
    assert BackwardSlots(Linear, true, saved, flags, inputs, g) == LinearSlots(saved, flags, g);
  }

  /** Linear's Forward on x and a [k, m] weight gives x's leading extents and m. */
  lemma LinearForwardShape(x: Shape, k: nat, m: nat, bias: Option<Shape>)
    requires |x| > 0 && x[|x| - 1] == k
    requires bias.Some? ==> BroadcastsTo(bias.value, x[..|x| - 1] + [m])
    ensures var inputs := if bias.Some? then [x, [k, m], bias.value] else [x, [k, m]];
      ForwardShape(Linear, inputs) == Success(x[..|x| - 1] + [m])
  {
    var inputs := if bias.Some? then [x, [k, m], bias.value] else [x, [k, m]];
    assert inputs[0] == x && inputs[1] == [k, m] && LinearBias(inputs) == bias;
    LinearShapeOf(x, k, m, bias);
  }

  lemma LinearShapeOf(x: Shape, k: nat, m: nat, bias: Option<Shape>)
    requires |x| > 0 && x[|x| - 1] == k
    requires bias.Some? ==> BroadcastsTo(bias.value, x[..|x| - 1] + [m])
    ensures LinearShape(x, [k, m], bias) == Success(x[..|x| - 1] + [m])
  {
    var g := x[..|x| - 1] + [m];
    TensorDotLastFirst(x, [k, m]);
    assert [k, m][1..] == [m];
    var product := TensorDotPair(x, [k, m], [-1, 0]);
    assert product.Success? && product.value.shape == g;
    if bias.Some? {
      BroadcastInto(bias.value, g);
      assert LinearShape(x, [k, m], bias) == Broadcast(g, bias.value);
    }
  }

  /** A Linear Forward that needed gradients saves x, the weight and the bias. */
  lemma LinearSaves(x: Shape, k: nat, m: nat, bias: Option<Shape>)
    ensures var inputs := if bias.Some? then [x, [k, m], bias.value] else [x, [k, m]];
      var saved := SavedAfter(Linear, true, inputs, NothingSaved);
      saved.x == Some(x) && saved.y == Some([k, m]) && saved.bias == bias
  {
    var inputs := if bias.Some? then [x, [k, m], bias.value] else [x, [k, m]];
    assert inputs[0] == x && inputs[1] == [k, m] && LinearBias(inputs) == bias;
  }


  // ---------------------------------------------------------------------------
  // The Function object
  // ---------------------------------------------------------------------------

  /**
   * A node's context: the operation, the parents it was applied to (indices
   * of tensors), whether any of them required a gradient, and the state its
   * Forward saved.
   */
  class Function {
    const op: Op
    const parents: seq<nat>
    const requiresGrad: bool
    var x: Option<Shape>
    var y: Option<Shape>
    var ret: Option<Shape>
    var bias: Option<Shape>
    var inputShape: Option<Shape>
    var outShape: Option<Shape>

    function State(): Saved
      reads this
    {
      Saved(x, y, ret, bias, inputShape, outShape)
    }

    /** Function(params Tensor[] tensors), given the tensors' RequiresGrad flags. */
    constructor (op: Op, parents: seq<nat>, parentFlags: seq<bool>)
      requires Arity(op, |parents|) && |parentFlags| == |parents|
      ensures this.op == op && this.parents == parents
      ensures requiresGrad <==> exists i :: 0 <= i < |parentFlags| && parentFlags[i]
      ensures State() == NothingSaved
    {
      this.op := op;
      this.parents := parents;
      requiresGrad := AnyRequiresGrad(parentFlags);
      x, y, ret, bias, inputShape, outShape := None, None, None, None, None, None;
    }

    /**
     * Forward at shape level: the output shape of the operation on inputs of
     * the given shapes, or the exception it throws, and the state it saves.
     */
    method Forward(inputs: seq<Shape>) returns (r: Result<Shape>)
      requires Arity(op, |inputs|)
      modifies this
      ensures r == ForwardShape(op, inputs)
      ensures State() == SavedAfter(op, requiresGrad, inputs, old(State()))
    {
      if IsElementwise(op) {
        r := ForwardElementwise(inputs);
      } else if op.Pow? {
        r := ForwardPow(inputs);
      } else if op.Linear? {
        r := ForwardLinear(inputs);
      } else if op.Sum? || op.Max? {
        r := ForwardReduce(inputs);
      } else {
        r := ForwardUnary(inputs);
      }
    }

    /** Add and Subtract keep nothing; Multiply and Divide keep x and y unless no gradient is needed. */
    method ForwardElementwise(inputs: seq<Shape>) returns (r: Result<Shape>)
      requires IsElementwise(op) && |inputs| == 2
      modifies this
      ensures r == ForwardShape(op, inputs)
      ensures State() == SavedAfter(op, requiresGrad, inputs, old(State()))
    {
      if op.Multiply? || op.Divide? {
        x, y := Some(inputs[0]), Some(inputs[1]);
      }
      r := Broadcast(inputs[0], inputs[1]);
      if (op.Multiply? || op.Divide?) && r.Success? && !requiresGrad {
        x, y := None, None;
      }
    }

    /** Pow: a scalar exponent only; x, y and the output are kept unless no gradient is needed. */
    method ForwardPow(inputs: seq<Shape>) returns (r: Result<Shape>)
      requires op.Pow? && |inputs| == 2
      modifies this
      ensures r == ForwardShape(op, inputs)
      ensures State() == SavedAfter(op, requiresGrad, inputs, old(State()))
    {
      x, y := Some(inputs[0]), Some(inputs[1]);
      if Prod(inputs[1]) > 1 {
        return Failure(InvalidArgument("only accepting scalar values as exponents"));
      }
      if Prod(inputs[1]) == 0 {
        return Failure(IndexOutOfRange);
      }
      r := Success(inputs[0]);
      ret := Some(inputs[0]);
      if !requiresGrad {
        x, y, ret := None, None, None;
      }
    }

    /** Linear: x, w and the bias are stored first; x and w are dropped unless a gradient is needed. */
    method ForwardLinear(inputs: seq<Shape>) returns (r: Result<Shape>)
      requires op.Linear? && (|inputs| == 2 || |inputs| == 3)
      modifies this
      ensures r == ForwardShape(op, inputs)
      ensures State() == SavedAfter(op, requiresGrad, inputs, old(State()))
    {
      ghost var expected := LinearShape(inputs[0], inputs[1], LinearBias(inputs));
      assert ForwardShape(op, inputs) == expected;
      x, y := Some(inputs[0]), Some(inputs[1]);
      bias := LinearBias(inputs);
      var product := TensorDotPair(inputs[0], inputs[1], [-1, 0]);
      if product.Failure? {
        return Failure(product.error);
      }
      r := Success(product.value.shape);
      if bias.Some? {
        r := Broadcast(product.value.shape, bias.value);
        if r.Failure? {
          return;
        }
      }
      if !requiresGrad {
        x, y := None, None;
      }
    }

    /**
     * Sum and Max: a full reduction to `[1]` when there are as many axes as
     * dimensions, otherwise one keepdims reduction per axis followed by a
     * reshape that drops the reduced axes.
     */
    method ForwardReduce(inputs: seq<Shape>) returns (r: Result<Shape>)
      requires (op.Sum? || op.Max?) && |inputs| == 1
      modifies this
      ensures r == ForwardShape(op, inputs)
      ensures State() == SavedAfter(op, requiresGrad, inputs, old(State()))
    {
      var s, axes := inputs[0], op.axes;
      if |axes| == |s| {
        if requiresGrad {
          if op.Sum? {
            inputShape, outShape := Some(s), Some([1]);
          } else {
            x, ret := Some(s), Some([1]);
          }
        }
        return Success([1]);
      }
      var kept := ReduceKeepDims(s, axes);
      if kept.Failure? {
        return Failure(IndexOutOfRange);
      }
      if requiresGrad {
        if op.Sum? {
          inputShape, outShape := Some(s), Some(kept.value);
        } else {
          x, ret := Some(s), Some(kept.value);
        }
      }
      // the final reshape spans as many elements as the kept shape, so it succeeds
      KeptDimsFacts(s, axes);
      r := Success(Gather(s, Free(|s|, NormalizeAll(axes, |s|))));
    }

    /** Exp, Log, Sqrt, ReLU and Reshape: one input, kept only as the backward needs it. */
    method ForwardUnary(inputs: seq<Shape>) returns (r: Result<Shape>)
      requires (op.Exp? || op.Log? || op.Sqrt? || op.ReLU? || op.Reshape?) && |inputs| == 1
      modifies this
      ensures r == ForwardShape(op, inputs)
      ensures State() == SavedAfter(op, requiresGrad, inputs, old(State()))
    {
      if op.Reshape? {
        if Prod(op.target) != Prod(inputs[0]) {
          return Failure(ShapeMismatch);
        }
        r := Success(op.target);
        if requiresGrad {
          inputShape := Some(inputs[0]);
        }
        return;
      }
      if op.Log? || op.Sqrt? {
        x := Some(inputs[0]);
      }
      r := Success(inputs[0]);
      if (op.Log? || op.Sqrt?) && !requiresGrad {
        x := None;
      }
      if (op.Exp? || op.ReLU?) && requiresGrad {
        ret := Some(inputs[0]);
      }
    }
  }
}
