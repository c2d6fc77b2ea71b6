/**
 * The autograd engine: a graph of tensors, each remembering the Function
 * that produced it (its context), and the reverse-mode pass that walks the
 * graph from an output back towards its leaves, accumulating gradients.
 *
 * Tensors live in an arena (`Graph`) and are named by their index; a
 * tensor's context names its parents by index too. Since a context is only
 * ever attached to a tensor created after its parents, every parent index
 * is smaller than its consumer's index.
 */
module Autograd {
  import opened Wrappers
  import opened Shapes
  import Funcs
  import MLops

  /** The parents of tensor `n` under `contexts`: none for a tensor without context. */
  function ParentsOf(contexts: seq<Option<MLops.Function>>, n: nat): seq<nat>
    requires n < |contexts|
  {
    if contexts[n].Some? then contexts[n].value.parents else []
  }

  /** Every context refers only to tensors created before the tensor it belongs to. */
  predicate ParentsBefore(contexts: seq<Option<MLops.Function>>)
  {
    forall n, k :: 0 <= n < |contexts| && contexts[n].Some? && 0 <= k < |contexts[n].value.parents| ==>
      contexts[n].value.parents[k] < n
  }

  /** Only a tensor that requires a gradient is ever given a context. */
  predicate ContextsRequireGrad(contexts: seq<Option<MLops.Function>>, rg: seq<bool>)
  {
    forall t :: 0 <= t < |contexts| && t < |rg| && contexts[t].Some? ==> rg[t]
  }

  predicate AllBelow(nodes: seq<nat>, n: nat)
  {
    forall k :: 0 <= k < |nodes| ==> nodes[k] < n
  }

  /**
   * In `order`, every tensor comes after those of its parents that have a
   * context: a post-order of the graph restricted to tensors with contexts.
   */
  predicate PostOrdered(contexts: seq<Option<MLops.Function>>, order: seq<nat>)
  {
    forall i, p ::
      (0 <= i < |order| && order[i] < |contexts| && p in ParentsOf(contexts, order[i])
       && p < |contexts| && contexts[p].Some?) ==> p in order[..i]
  }

  /** No tensor in `order` is a parent of a tensor listed before it. */
  predicate ParentsFirst(contexts: seq<Option<MLops.Function>>, order: seq<nat>)
  {
    forall i, j :: 0 <= i < j < |order| && order[i] < |contexts| ==> order[j] !in ParentsOf(contexts, order[i])
  }

  lemma PostOrderedAppend(contexts: seq<Option<MLops.Function>>, order: seq<nat>, node: nat)
    requires PostOrdered(contexts, order)
    requires node < |contexts|
    requires forall p :: p in ParentsOf(contexts, node) && p < |contexts| && contexts[p].Some? ==> p in order
    ensures PostOrdered(contexts, order + [node])
  {
    var o := order + [node];
    forall i, p | 0 <= i < |o| && o[i] < |contexts| && p in ParentsOf(contexts, o[i]) && p < |contexts| && contexts[p].Some?
      ensures p in o[..i]
    {
      if i < |order| {
        assert o[..i] == order[..i];
      } else {
        assert o[..i] == order;
      }
    }
  }

  /**
   * The tensors `n` is computed from: `n` itself and, through its context,
   * the ancestors of each of its parents. A tensor without a context has no
   * ancestor but itself, since the pass cannot see past it.
   */
  function Ancestors(contexts: seq<Option<MLops.Function>>, n: nat): (r: set<nat>)
    requires ParentsBefore(contexts) && n < |contexts|
    ensures n in r && forall v :: v in r ==> v <= n
    decreases n, 1
  {
    {n} + AncestorsOfAll(contexts, ParentsOf(contexts, n), n)
  }

  /** The ancestors of every tensor of `ps`, all of which are older than `bound`. */
  function AncestorsOfAll(contexts: seq<Option<MLops.Function>>, ps: seq<nat>, bound: nat): (r: set<nat>)
    requires ParentsBefore(contexts) && bound <= |contexts| && AllBelow(ps, bound)
    ensures forall v :: v in r ==> v < bound
    decreases bound, 0, |ps|
  {
    if ps == [] then {} else Ancestors(contexts, ps[0]) + AncestorsOfAll(contexts, ps[1..], bound)
  }

  lemma {:induction false} AncestorsOfAllContains(contexts: seq<Option<MLops.Function>>, ps: seq<nat>, bound: nat, k: nat)
    requires ParentsBefore(contexts) && bound <= |contexts| && AllBelow(ps, bound) && k < |ps|
    ensures Ancestors(contexts, ps[k]) <= AncestorsOfAll(contexts, ps, bound)
    decreases k
  {
    if k > 0 {
      AncestorsOfAllContains(contexts, ps[1..], bound, k - 1);
    }
  }

  /** Ancestry is transitive: whatever a parent is computed from, its consumer is computed from too. */
  lemma AncestorsOfParent(contexts: seq<Option<MLops.Function>>, n: nat, p: nat)
    requires ParentsBefore(contexts) && n < |contexts| && p in ParentsOf(contexts, n)
    ensures p < n && Ancestors(contexts, p) <= Ancestors(contexts, n)
  {
    var ps := ParentsOf(contexts, n);
    var k :| 0 <= k < |ps| && ps[k] == p;
    AncestorsOfAllContains(contexts, ps, n, k);
  }

  /** The entries of `order` from position `from` on are all ancestors of `node`. */
  predicate AncestorsFrom(contexts: seq<Option<MLops.Function>>, order: seq<nat>, from: nat, node: nat)
    requires ParentsBefore(contexts) && node < |contexts|
  {
    forall i :: from <= i < |order| ==> order[i] in Ancestors(contexts, node)
  }

  /**
   * Extending a list of ancestors of `node` by ancestors of one of its
   * parents keeps every added entry an ancestor of `node`.
   */
  lemma AncestorsKept(contexts: seq<Option<MLops.Function>>, from: nat, before: seq<nat>, after: seq<nat>, node: nat, child: nat)
    requires ParentsBefore(contexts) && node < |contexts| && child in ParentsOf(contexts, node)
    requires |before| <= |after| && after[..|before|] == before
    requires AncestorsFrom(contexts, before, from, node)
    requires AncestorsFrom(contexts, after, |before|, child)
    ensures AncestorsFrom(contexts, after, from, node)
  {
    AncestorsOfParent(contexts, node, child);
    forall i | from <= i < |after|
      ensures after[i] in Ancestors(contexts, node)
    {
      if i < |before| {
        assert after[i] == after[..|before|][i];
      }
    }
  }

  /** Whatever is an ancestor through a list of parents is an ancestor of one of them. */
  lemma {:induction false} AncestorsOfAllMember(contexts: seq<Option<MLops.Function>>, ps: seq<nat>, bound: nat, q: nat)
    requires ParentsBefore(contexts) && bound <= |contexts| && AllBelow(ps, bound)
    requires q in AncestorsOfAll(contexts, ps, bound)
    ensures exists k :: 0 <= k < |ps| && q in Ancestors(contexts, ps[k])
    decreases |ps|
  {
    if q !in Ancestors(contexts, ps[0]) {
      AncestorsOfAllMember(contexts, ps[1..], bound, q);
      var k :| 0 <= k < |ps[1..]| && q in Ancestors(contexts, ps[1..][k]);
      assert ps[1..][k] == ps[k + 1];
    }
  }

  /**
   * Every ancestor of `n` other than `n` is a parent of some ancestor of
   * `n`: the last step of a path from `n` down to it.
   */
  lemma {:induction false} AncestorsStep(contexts: seq<Option<MLops.Function>>, n: nat, q: nat)
    requires ParentsBefore(contexts) && n < |contexts| && q in Ancestors(contexts, n) && q != n
    ensures exists c :: c in Ancestors(contexts, n) && c < |contexts| && q in ParentsOf(contexts, c)
    decreases n
  {
    var ps := ParentsOf(contexts, n);
    AncestorsOfAllMember(contexts, ps, n, q);
    var k :| 0 <= k < |ps| && q in Ancestors(contexts, ps[k]);
    AncestorsOfParent(contexts, n, ps[k]);
    if q != ps[k] {
      AncestorsStep(contexts, ps[k], q);
    }
  }

  /** A tensor without a context has no ancestor but itself. */
  lemma AncestorsOfLeaf(contexts: seq<Option<MLops.Function>>, n: nat)
    requires ParentsBefore(contexts) && n < |contexts|
    ensures contexts[n].None? ==> Ancestors(contexts, n) == {n}
  {
    if contexts[n].None? {
      assert AncestorsOfAll(contexts, [], n) == {};
    }
  }

  /**
   * A post-order lists, with every tensor it holds, all the ancestors of
   * that tensor that have a context: a path of parents from a listed tensor
   * only passes through tensors with contexts, each listed before its consumer.
   */
  lemma {:induction false} AncestorsListed(contexts: seq<Option<MLops.Function>>, order: seq<nat>, c: nat)
    requires ParentsBefore(contexts) && PostOrdered(contexts, order) && c in order && c < |contexts|
    ensures forall q :: q in Ancestors(contexts, c) && contexts[q].Some? ==> q in order
    decreases c
  {
    forall q | q in Ancestors(contexts, c) && contexts[q].Some?
      ensures q in order
    {
      if q != c {
        var ps := ParentsOf(contexts, c);
        AncestorsOfAllMember(contexts, ps, c, q);
        var k :| 0 <= k < |ps| && q in Ancestors(contexts, ps[k]);
        var p := ps[k];
        AncestorsOfLeaf(contexts, p);
        if contexts[p].Some? {
          var i :| 0 <= i < |order| && order[i] == c;
          assert p in order[..i];
          AncestorsListed(contexts, order, p);
        }
      }
    }
  }

  // ---------------------------------------------------------------------------
  // The backward pass as a function of the graph's state
  // ---------------------------------------------------------------------------

  /**
   * What a Function's Backward hands back for an incoming gradient: one slot
   * per parent position, null where no gradient is produced. Only the
   * bookkeeping of the pass is modelled; the derivative itself is a
   * parameter.
   */
  type Derive = (MLops.Function, real) -> seq<Option<real>>

  /** The mutable state the pass works on: every tensor's Gradient and Context. */
  datatype Pass = Pass(gradients: seq<Option<real>>, contexts: seq<Option<MLops.Function>>)

  /** The state fits the graph: one entry per tensor, parents created before consumers. */
  predicate Fits(st: Pass, rg: seq<bool>)
  {
    |st.gradients| == |rg| && |st.contexts| == |rg| && ParentsBefore(st.contexts)
  }

  /**
   * Gradient accumulation: a null gradient is replaced by the incoming one,
   * a null contribution changes nothing, and otherwise the two are added.
   */
  function Plus(a: Option<real>, b: Option<real>): (r: Option<real>)
    ensures r.None? <==> a.None? && b.None?
    ensures a.None? ==> r == b
    ensures b.None? ==> r == a
    ensures a.Some? && b.Some? ==> r == Some(a.value + b.value)
  {
    if a.None? then b else if b.None? then a else Some(a.value + b.value)
  }

  /**
   * The inner loop of `backward`: slots and parents are zipped (the shorter
   * one decides), and each non-null slot is added to its parent's gradient
   * when that parent requires one. Only such parents change.
   */
  function Accumulate(grads: seq<Option<real>>, rg: seq<bool>, slots: seq<Option<real>>, parents: seq<nat>): (r: seq<Option<real>>)
    requires |rg| == |grads| && AllBelow(parents, |grads|)
    ensures |r| == |grads|
    ensures forall q :: 0 <= q < |grads| && (q !in parents || !rg[q]) ==> r[q] == grads[q]
    decreases |slots|
  {
    if slots == [] || parents == [] then grads
    else
      var p := parents[0];
      var next := if slots[0].Some? && rg[p] then grads[p := Plus(grads[p], slots[0])] else grads;
      Accumulate(next, rg, slots[1..], parents[1..])
  }

  /** One round of the zip: the first slot goes into the first parent. */
  lemma AccumulateFirst(grads: seq<Option<real>>, rg: seq<bool>, slots: seq<Option<real>>, parents: seq<nat>)
    requires |rg| == |grads| && AllBelow(parents, |grads|) && slots != [] && parents != []
    ensures AllBelow(parents[1..], |grads|)
    ensures Accumulate(grads, rg, slots, parents) ==
      Accumulate(if slots[0].Some? && rg[parents[0]] then grads[parents[0] := Plus(grads[parents[0]], slots[0])] else grads,
                 rg, slots[1..], parents[1..])
  {
  }

  /** The zipped `ForEach` as a loop over the shorter of the slots and the parents. */
  method AccumulateLoop(grads: seq<Option<real>>, rg: seq<bool>, slots: seq<Option<real>>, parents: seq<nat>)
    returns (g: seq<Option<real>>)
    requires |rg| == |grads| && AllBelow(parents, |grads|)
    ensures g == Accumulate(grads, rg, slots, parents)
  {
    g := grads;
    var n := if |slots| < |parents| then |slots| else |parents|;
    for k := 0 to n
      invariant |g| == |rg|
      invariant Accumulate(grads, rg, slots, parents) == Accumulate(g, rg, slots[k..], parents[k..])
    {
      var p := parents[k];
      AccumulateFirst(g, rg, slots[k..], parents[k..]);
      assert slots[k..][1..] == slots[k + 1..] && parents[k..][1..] == parents[k + 1..];
      if slots[k].Some? && rg[p] {
        g := g[p := Plus(g[p], slots[k])];
      }
    }
  }

  /** Reference definition: the sum of the non-null slots zipped with parent `q`. */
  function Contribution(slots: seq<Option<real>>, parents: seq<nat>, q: nat): Option<real>
    decreases |slots|
  {
    if slots == [] || parents == [] then None
    else Plus(if parents[0] == q then slots[0] else None, Contribution(slots[1..], parents[1..], q))
  }

  /**
   * Processing one tensor `t`: its context's Backward receives its gradient;
   * the slots are accumulated into the parents; the context is dropped. A
   * null context or gradient is a null dereference.
   */
  function Step(st: Pass, rg: seq<bool>, derive: Derive, t: nat): (r: Result<Pass>)
    requires Fits(st, rg) && t < |rg|
    ensures r.Failure? <==> st.contexts[t].None? || st.gradients[t].None?
    ensures r.Failure? ==> r.error == NullReference
    ensures r.Success? ==>
      && Fits(r.value, rg)
      && r.value.contexts == st.contexts[t := None]
      && forall q :: 0 <= q < |rg| && (q !in ParentsOf(st.contexts, t) || !rg[q]) ==>
           r.value.gradients[q] == st.gradients[q]
  {
    if st.contexts[t].None? || st.gradients[t].None? then Failure(NullReference)
    else
      var ctx := st.contexts[t].value;
      var grads := Accumulate(st.gradients, rg, derive(ctx, st.gradients[t].value), ctx.parents);
      Success(Pass(grads, st.contexts[t := None]))
  }

  /** Where the pass stopped: the state reached, and the exception that ended it, if any. */
  datatype Outcome = Outcome(pass: Pass, error: Option<Error>)

  /** The `ForEach` over the schedule: tensor after tensor, until one throws. */
  function Run(st: Pass, rg: seq<bool>, derive: Derive, schedule: seq<nat>): (r: Outcome)
    requires Fits(st, rg) && AllBelow(schedule, |rg|)
    ensures Fits(r.pass, rg)
    decreases |schedule|
  {
    if schedule == [] then Outcome(st, None)
    else
      match Step(st, rg, derive, schedule[0])
      case Failure(e) => Outcome(st, Some(e))
      case Success(next) => Run(next, rg, derive, schedule[1..])
  }

  /** The filter of `backward`: a tensor with a context some parent of which requires a gradient. */
  predicate Processable(contexts: seq<Option<MLops.Function>>, rg: seq<bool>, n: nat)
  {
    n < |contexts| && contexts[n].Some? &&
    exists k :: 0 <= k < |contexts[n].value.parents| && contexts[n].value.parents[k] < |rg| && rg[contexts[n].value.parents[k]]
  }

  /** The order reversed, filtered: the list `backward` processes. */
  function Schedule(order: seq<nat>, contexts: seq<Option<MLops.Function>>, rg: seq<bool>): (r: seq<nat>)
    ensures forall v :: v in r <==> v in order && Processable(contexts, rg, v)
    ensures |r| <= |order| && AllBelow(r, |contexts|)
  {
    if order == [] then []
    else Schedule(order[1..], contexts, rg) + (if Processable(contexts, rg, order[0]) then [order[0]] else [])
  }

  class Graph {
    /** The shape of each tensor. */
    var shapes: seq<Shape>
    /** Each tensor's `RequiresGrad`. */
    var requiresGrad: seq<bool>
    /** Each tensor's `Context`: the Function that produced it, or null. */
    var contexts: seq<Option<MLops.Function>>
    /** Each tensor's `Gradient`, as a value, or null. */
    var gradients: seq<Option<real>>
    /** The global `no_grad` switch: while set, results get no context. */
    var noGrad: bool

    ghost predicate Valid()
      reads this
    {
      && |requiresGrad| == |shapes|
      && |contexts| == |shapes|
      && |gradients| == |shapes|
      && ParentsBefore(contexts)
      && ContextsRequireGrad(contexts, requiresGrad)
    }

    /**
     * The first tensors are exactly the old ones (`shapes0`, `rg0`,
     * `contexts0`, `gradients0`), and `n` tensors follow them.
     */
    ghost predicate Extends(shapes0: seq<Shape>, rg0: seq<bool>, contexts0: seq<Option<MLops.Function>>,
                            gradients0: seq<Option<real>>, n: nat)
      reads this
    {
      && Valid()
      && |shapes| == |shapes0| + n
      && shapes[..|shapes0|] == shapes0 && requiresGrad[..|shapes0|] == rg0
      && contexts[..|shapes0|] == contexts0 && gradients[..|shapes0|] == gradients0
    }

    /**
     * Tensor `t` is the output of `op` on `operands`: it has shape `shape`,
     * requires a gradient exactly when `flag` is set, has no gradient yet,
     * and has a context (`op` on `operands`) exactly when it requires a
     * gradient and recording is on.
     */
    ghost predicate Created(t: nat, shape: Shape, flag: bool, op: MLops.Op, operands: seq<nat>)
      reads this
    {
      && Valid() && t < |shapes|
      && shapes[t] == shape && requiresGrad[t] == flag && gradients[t].None?
      && (contexts[t].Some? <==> flag && !noGrad)
      && (contexts[t].Some? ==> contexts[t].value.op == op && contexts[t].value.parents == operands)
    }

    /** An empty graph with gradient recording switched on. */
    constructor ()
      ensures Valid() && shapes == [] && !noGrad
    {
      shapes, requiresGrad, contexts, gradients := [], [], [], [];
      noGrad := false;
    }

    /** The operands are tensors of this graph. */
    predicate Operands(operands: seq<nat>)
      reads this
    {
      AllBelow(operands, |shapes|)
    }

    function ShapesOf(operands: seq<nat>): (r: seq<Shape>)
      reads this
      requires Operands(operands)
      ensures |r| == |operands|
    {
      var all := shapes;
      seq(|operands|, k requires 0 <= k < |operands| => all[operands[k]])
    }

    function FlagsOf(operands: seq<nat>): (r: seq<bool>)
      reads this
      requires Valid() && Operands(operands)
      ensures |r| == |operands|
    {
      var all := requiresGrad;
      seq(|operands|, k requires 0 <= k < |operands| => all[operands[k]])
    }

    /** A new tensor from data: no context and no gradient. */
    method Leaf(shape: Shape, rg: bool) returns (t: nat)
      requires Valid()
      modifies this
      ensures Valid() && noGrad == old(noGrad)
      ensures t == |old(shapes)|
      ensures shapes == old(shapes) + [shape] && requiresGrad == old(requiresGrad) + [rg]
      ensures contexts == old(contexts) + [None] && gradients == old(gradients) + [None]
    {
      t := |shapes|;
      shapes := shapes + [shape];
      requiresGrad := requiresGrad + [rg];
      contexts := contexts + [None];
      gradients := gradients + [None];
    }

    /** Setting the global `no_grad` switch: only the switch changes. */
    method SetNoGrad(on: bool)
      requires Valid()
      modifies this
      ensures Valid() && noGrad == on
      ensures shapes == old(shapes) && requiresGrad == old(requiresGrad)
      ensures contexts == old(contexts) && gradients == old(gradients)
    {
      noGrad := on;
    }

    /**
     * Function.Apply: builds the operation's Function on the operands, runs
     * its Forward, and wraps the output in a new tensor that requires a
     * gradient exactly when some operand does; the Function becomes the
     * new tensor's context only when it requires a gradient and recording
     * is on. When Forward throws, no tensor is created.
     */
    method Apply(op: MLops.Op, operands: seq<nat>) returns (r: Result<nat>)
      requires Valid() && MLops.Arity(op, |operands|) && Operands(operands)
      modifies this
      ensures Valid() && noGrad == old(noGrad)
      ensures var out := MLops.ForwardShape(op, old(ShapesOf(operands)));
        && (r.Failure? <==> out.Failure?)
        && (r.Failure? ==> r.error == out.error)
        && (r.Failure? ==> shapes == old(shapes) && requiresGrad == old(requiresGrad)
                           && contexts == old(contexts) && gradients == old(gradients))
        && (r.Success? ==>
              && r.value == |old(shapes)|
              && shapes == old(shapes) + [out.value]
              && requiresGrad == old(requiresGrad) + [MLops.AnyRequiresGrad(old(FlagsOf(operands)))]
              && gradients == old(gradients) + [None]
              && contexts[..r.value] == old(contexts))
      ensures r.Success? ==>
        && (contexts[r.value].Some? <==> requiresGrad[r.value] && !noGrad)
        && (contexts[r.value].Some? ==>
              var ctx := contexts[r.value].value;
              && fresh(ctx) && ctx.op == op && ctx.parents == operands && ctx.requiresGrad
              && ctx.State() == MLops.SavedAfter(op, true, old(ShapesOf(operands)), MLops.NothingSaved))
    {
      var inputs := ShapesOf(operands);
      var ctx := new MLops.Function(op, operands, FlagsOf(operands));
      var out := ctx.Forward(inputs);
      if out.Failure? {
        return Failure(out.error);
      }
      r := Success(|shapes|);
      shapes := shapes + [out.value];
      requiresGrad := requiresGrad + [ctx.requiresGrad];
      gradients := gradients + [None];
      contexts := contexts + [if ctx.requiresGrad && !noGrad then Some(ctx) else None];
    }

    /** Tensor.Sum: Sum over the given axes, or over every axis when none is given. */
    method Sum(x: nat, axes: seq<int>) returns (r: Result<nat>)
      requires Valid() && x < |shapes|
      modifies this
      ensures Valid() && noGrad == old(noGrad)
      ensures var all := ReductionAxes(|old(shapes[x])|, axes);
        var out := MLops.ReducedShape(old(shapes[x]), all);
        && (r.Success? <==> out.Success?)
        && (r.Failure? ==> r.error == out.error && shapes == old(shapes) && requiresGrad == old(requiresGrad)
                           && contexts == old(contexts) && gradients == old(gradients))
        && (r.Success? ==> r.value == |old(shapes)|
                           && Extends(old(shapes), old(requiresGrad), old(contexts), old(gradients), 1)
                           && Created(r.value, out.value, old(requiresGrad[x]), MLops.Sum(all), [x]))
    {
      r := Apply(MLops.Sum(ReductionAxes(|shapes[x]|, axes)), [x]);
    }

    /** Tensor.Max: Max over the given axes, or over every axis when none is given. */
    method Max(x: nat, axes: seq<int>) returns (r: Result<nat>)
      requires Valid() && x < |shapes|
      modifies this
      ensures Valid() && noGrad == old(noGrad)
      ensures var all := ReductionAxes(|old(shapes[x])|, axes);
        var out := MLops.ReducedShape(old(shapes[x]), all);
        && (r.Success? <==> out.Success?)
        && (r.Failure? ==> r.error == out.error && shapes == old(shapes) && requiresGrad == old(requiresGrad)
                           && contexts == old(contexts) && gradients == old(gradients))
        && (r.Success? ==> r.value == |old(shapes)|
                           && Extends(old(shapes), old(requiresGrad), old(contexts), old(gradients), 1)
                           && Created(r.value, out.value, old(requiresGrad[x]), MLops.Max(all), [x]))
    {
      r := Apply(MLops.Max(ReductionAxes(|shapes[x]|, axes)), [x]);
    }

    /**
     * Tensor.Mean: the Sum over the axes (tensor `n`, the old tensor count)
     * divided by a constant: a new scalar tensor `n + 1` that requires no
     * gradient, holding the element count of the reduced axes (`divisor`).
     * The quotient, tensor `n + 2`, has the Sum's shape. When the divisor
     * cannot be computed, the Sum tensor has been created already.
     */
    method Mean(x: nat, axes: seq<int>) returns (r: Result<nat>, divisor: nat)
      requires Valid() && x < |shapes|
      modifies this
      ensures Valid() && noGrad == old(noGrad)
      ensures var all := ReductionAxes(|old(shapes[x])|, axes);
        var out := MLops.ReducedShape(old(shapes[x]), all);
        var d := MeanDivisor(old(shapes[x]), axes);
        var n, flag := |old(shapes)|, old(requiresGrad[x]);
        && (r.Success? <==> out.Success? && d.Success?)
        && (out.Failure? ==> r == Failure(out.error) && shapes == old(shapes) && requiresGrad == old(requiresGrad)
                             && contexts == old(contexts) && gradients == old(gradients))
        && (out.Success? ==> Created(n, out.value, flag, MLops.Sum(all), [x]))
        && (out.Success? && d.Failure? ==>
              r == Failure(d.error) && Extends(old(shapes), old(requiresGrad), old(contexts), old(gradients), 1))
        && (r.Success? ==> r.value == n + 2 && divisor == d.value
                           && Extends(old(shapes), old(requiresGrad), old(contexts), old(gradients), 3)
                           && shapes[n + 1] == [] && !requiresGrad[n + 1]
                           && contexts[n + 1].None? && gradients[n + 1].None?
                           && Created(r.value, out.value, flag, MLops.Divide, [n, n + 1]))
    {
      divisor := 0;
      var s := shapes[x];
      var sum := Sum(x, axes);
      if sum.Failure? {
        return sum, divisor;
      }
      var d := MeanDivisor(s, axes);
      if d.Failure? {
        return Failure(d.error), divisor;
      }
      divisor := d.value;
      var q := DivideByScalar(sum.value);
      r := Success(q);
    }

    /**
     * `tensor / array` for a scalar array: the array becomes a new tensor
     * `n` that requires no gradient, and Divide is applied to the pair. A
     * scalar broadcasts into any shape, so the quotient `n + 1` has `a`'s
     * shape and nothing can fail.
     */
    method DivideByScalar(a: nat) returns (q: nat)
      requires Valid() && a < |shapes|
      modifies this
      ensures Valid() && noGrad == old(noGrad)
      ensures var n := |old(shapes)|;
        && q == n + 1
        && Extends(old(shapes), old(requiresGrad), old(contexts), old(gradients), 2)
        && shapes[n] == [] && !requiresGrad[n] && contexts[n].None? && gradients[n].None?
        && Created(q, old(shapes[a]), old(requiresGrad[a]), MLops.Divide, [a, n])
    {
      var c := Leaf([], false);
      MLops.BroadcastInto([], shapes[a]);
      var r := Apply(MLops.Divide, [a, c]);
      q := r.value;
    }

    /** Tensor.Flatten: a Reshape to one axis, or to a batch axis and one more. */
    method Flatten(x: nat, batched: bool) returns (r: Result<nat>)
      requires Valid() && x < |shapes|
      modifies this
      ensures Valid() && noGrad == old(noGrad)
      ensures var target := FlattenShape(old(shapes[x]), batched);
        && (r.Success? <==> target.Success?)
        && (r.Failure? ==> r.error == target.error && shapes == old(shapes) && requiresGrad == old(requiresGrad)
                           && contexts == old(contexts) && gradients == old(gradients))
        && (r.Success? ==> r.value == |old(shapes)|
                           && Extends(old(shapes), old(requiresGrad), old(contexts), old(gradients), 1)
                           && Created(r.value, target.value, old(requiresGrad[x]), MLops.Reshape(target.value), [x]))
    {
      var target := FlattenShape(shapes[x], batched);
      if target.Failure? {
        return Failure(target.error);
      }
      r := Apply(MLops.Reshape(target.value), [x]);
    }

    /** Tensor.Reshape: a Reshape to the given extents, which must keep the element count. */
    method Reshape(x: nat, target: Shape) returns (r: Result<nat>)
      requires Valid() && x < |shapes|
      modifies this
      ensures Valid() && noGrad == old(noGrad)
      ensures r.Success? <==> Prod(target) == Prod(old(shapes[x]))
      ensures r.Failure? ==> r.error == ShapeMismatch && shapes == old(shapes) && requiresGrad == old(requiresGrad)
                             && contexts == old(contexts) && gradients == old(gradients)
      ensures r.Success? ==> r.value == |old(shapes)|
                             && Extends(old(shapes), old(requiresGrad), old(contexts), old(gradients), 1)
                             && Created(r.value, target, old(requiresGrad[x]), MLops.Reshape(target), [x])
    {
      r := Apply(MLops.Reshape(target), [x]);
    }

    /**
     * `__backward_r`: marks `node` visited, and when it has a context,
     * first visits each parent not yet visited, then lists `node`. Only
     * tensors with a context are listed, each after its parents, and every
     * tensor it adds is an ancestor of `node`.
     */
    method Visit(node: nat, visited: set<nat>, order: seq<nat>) returns (visited': set<nat>, order': seq<nat>)
      requires Valid() && node < |shapes| && node !in visited
      requires forall v :: v in visited ==> v < |shapes|
      requires forall v :: v in order ==> v in visited
      requires PostOrdered(contexts, order) && Distinct(order)
      requires Pending(contexts, visited, order, node + 1)
      ensures visited <= visited' && node in visited'
      ensures forall v :: v in visited' ==> v < |shapes|
      ensures forall v :: v in order' ==> v in visited'
      ensures Grows(contexts, order, order', visited, node + 1)
      ensures contexts[node].None? ==> order' == order
      ensures contexts[node].Some? ==> |order'| > |order| && order'[|order'| - 1] == node
      ensures PostOrdered(contexts, order') && Distinct(order')
      ensures forall v :: v in visited' && v !in visited && contexts[v].Some? ==> v in order'
      ensures Pending(contexts, visited', order', node + 1)
      ensures AncestorsFrom(contexts, order', |order|, node)
      decreases node, 2
    {
      visited' := visited + {node};
      order' := order;
      if contexts[node].Some? {
        visited', order' := VisitParents(node, visited, visited', order');
        GrowsAppend(contexts, order, order', visited, node);
        order' := order' + [node];
      }
    }

    /** The loop of `__backward_r` over the parents of `node`, which is already marked visited. */
    method VisitParents(node: nat, visited: set<nat>, seen: set<nat>, order: seq<nat>) returns (visited': set<nat>, order': seq<nat>)
      requires Valid() && node < |shapes| && contexts[node].Some?
      requires seen == visited + {node} && node !in visited
      requires forall v :: v in seen ==> v < |shapes|
      requires forall v :: v in order ==> v in visited
      requires PostOrdered(contexts, order) && Distinct(order)
      requires Pending(contexts, visited, order, node + 1)
      ensures seen <= visited'
      ensures forall v :: v in visited' ==> v < |shapes|
      ensures forall v :: v in order' ==> v in visited'
      ensures Grows(contexts, order, order', visited, node)
      ensures PostOrdered(contexts, order') && Distinct(order')
      ensures forall v :: v in visited' && v !in visited && v != node && contexts[v].Some? ==> v in order'
      ensures Pending(contexts, visited', order', node)
      ensures forall p :: p in ParentsOf(contexts, node) && p < |contexts| && contexts[p].Some? ==> p in order'
      ensures AncestorsFrom(contexts, order', |order|, node)
      decreases node, 1
    {
      var ps := contexts[node].value.parents;
      visited', order' := seen, order;
      for k := 0 to |ps|
        invariant Frontier(contexts, visited, order, node, visited', order')
        invariant forall j :: 0 <= j < k && contexts[ps[j]].Some? ==> ps[j] in order'
      {
        visited', order' := VisitParent(node, visited, order, ps[k], visited', order');
      }
    }

    /** One iteration of that loop: visits the parent `child` unless it was visited already. */
    method VisitParent(node: nat, visited: set<nat>, order: seq<nat>, child: nat, v1: set<nat>, o1: seq<nat>)
      returns (v2: set<nat>, o2: seq<nat>)
      requires Valid() && Frontier(contexts, visited, order, node, v1, o1)
      requires child in ParentsOf(contexts, node)
      ensures Frontier(contexts, visited, order, node, v2, o2)
      ensures forall x :: x in o1 ==> x in o2
      ensures contexts[child].Some? ==> child in o2
      decreases node, 0
    {
      if child !in v1 {
        FrontierVisitable(contexts, visited, order, node, v1, o1, child);
        v2, o2 := Visit(child, v1, o1);
        FrontierStep(contexts, visited, order, node, v1, o1, child, v2, o2);
      } else {
        v2, o2 := v1, o1;
        PendingListed(contexts, v1, o1, node, child);
      }
    }

    /**
     * `_backward`: the post-order from `root`. It lists only ancestors of
     * `root` that have a context, none twice, each after those of its
     * parents that have a context, and ends with `root` exactly when `root`
     * has a context (it is empty otherwise).
     */
    method BackwardOrder(root: nat) returns (order: seq<nat>)
      requires Valid() && root < |shapes|
      ensures forall k :: 0 <= k < |order| ==> order[k] <= root && contexts[order[k]].Some?
      ensures forall k :: 0 <= k < |order| ==> order[k] in Ancestors(contexts, root)
      ensures Distinct(order) && PostOrdered(contexts, order)
      ensures contexts[root].None? ==> order == []
      ensures contexts[root].Some? ==> |order| > 0 && order[|order| - 1] == root
      ensures forall q :: q in Ancestors(contexts, root) && contexts[q].Some? ==> q in order
    {
      var visited;
      visited, order := Visit(root, {}, []);
      AncestorsOfLeaf(contexts, root);
      if contexts[root].Some? {
        AncestorsListed(contexts, order, root);
      }
    }

    /**
     * `backward`: seeds the root's gradient with ones, lists the post-order
     * from the root, reverses it, keeps the tensors some parent of which
     * requires a gradient, and processes them in that order, each one's
     * Backward slots added into its parents' gradients and its context
     * dropped. The post-order and the processed list are returned so that
     * the contract can name them.
     */
    method Backward(root: nat, derive: Derive) returns (order: seq<nat>, schedule: seq<nat>, error: Option<Error>)
      requires Valid() && root < |shapes|
      modifies this
      ensures Valid()
      ensures shapes == old(shapes) && requiresGrad == old(requiresGrad) && noGrad == old(noGrad)
      ensures forall k :: 0 <= k < |order| ==> order[k] <= root && old(contexts)[order[k]].Some?
      ensures forall k :: 0 <= k < |order| ==> order[k] in Ancestors(old(contexts), root)
      ensures Distinct(order) && PostOrdered(old(contexts), order)
      ensures old(contexts)[root].None? ==> order == []
      ensures old(contexts)[root].Some? ==> |order| > 0 && order[|order| - 1] == root
      ensures schedule == Schedule(order, old(contexts), requiresGrad) && AllBelow(schedule, |shapes|)
      ensures Run(Pass(old(gradients)[root := Some(1.0)], old(contexts)), requiresGrad, derive, schedule)
              == Outcome(Pass(gradients, contexts), error)
      ensures gradients[root] == Some(1.0)
      ensures forall q :: q in Ancestors(old(contexts), root) && old(contexts)[q].Some? ==> q in order
      ensures SlotsCover(derive, old(contexts), requiresGrad) ==>
        && error.None?
        && forall q :: q in Ancestors(old(contexts), root) && requiresGrad[q] ==> gradients[q].Some?
    {
      ghost var grads0, contexts0 := gradients, contexts;
      gradients := gradients[root := Some(1.0)];
      order := BackwardOrder(root);
      schedule := ScheduleOf(order);
      ghost var start := Pass(gradients, contexts);
      error := ProcessAll(schedule, derive);
      ScheduleBelow(order, old(contexts), requiresGrad, root);
      RunKeepsFrom(start, requiresGrad, derive, schedule, root);
      if SlotsCover(derive, contexts0, requiresGrad) {
        BackwardCompletes(contexts0, requiresGrad, grads0, derive, root, order);
      }
    }

    /** The outer `ForEach`: the tensors of `schedule` processed in turn, until one throws. */
    method ProcessAll(schedule: seq<nat>, derive: Derive) returns (error: Option<Error>)
      requires Valid() && AllBelow(schedule, |shapes|)
      modifies this
      ensures Valid() && shapes == old(shapes) && requiresGrad == old(requiresGrad) && noGrad == old(noGrad)
      ensures Run(old(Pass(gradients, contexts)), requiresGrad, derive, schedule) == Outcome(Pass(gradients, contexts), error)
    {
      ghost var start := Pass(gradients, contexts);
      error := None;
      var j := 0;
      while j < |schedule|
        invariant 0 <= j <= |schedule|
        invariant Valid() && shapes == old(shapes) && requiresGrad == old(requiresGrad) && noGrad == old(noGrad)
        invariant Run(start, requiresGrad, derive, schedule) == Run(Pass(gradients, contexts), requiresGrad, derive, schedule[j..])
      {
        assert schedule[j..][1..] == schedule[j + 1..];
        var ok := Process(schedule[j], derive);
        if !ok {
          error := Some(NullReference);
          break;
        }
        j := j + 1;
      }
    }

    /** `.ToArray().Reverse().Where(...).ToList()`: the post-order reversed, filtered. */
    method ScheduleOf(order: seq<nat>) returns (schedule: seq<nat>)
      requires Valid()
      ensures schedule == Schedule(order, contexts, requiresGrad)
    {
      schedule := [];
      var i := |order|;
      while i > 0
        invariant 0 <= i <= |order|
        invariant schedule == Schedule(order[i..], contexts, requiresGrad)
      {
        i := i - 1;
        assert order[i..][1..] == order[i + 1..];
        schedule := schedule + (if Processable(contexts, requiresGrad, order[i]) then [order[i]] else []);
      }
      assert order[0..] == order;
    }

    /** The inner `ForEach` over the zipped slots and parents. */
    method AddSlots(slots: seq<Option<real>>, parents: seq<nat>)
      requires Valid() && AllBelow(parents, |gradients|)
      modifies this
      ensures Valid() && shapes == old(shapes) && requiresGrad == old(requiresGrad) && noGrad == old(noGrad)
      ensures contexts == old(contexts)
      ensures gradients == Accumulate(old(gradients), requiresGrad, slots, parents)
    {
      gradients := AccumulateLoop(gradients, requiresGrad, slots, parents);
    }

    /**
     * The body of the `ForEach`: tensor `t`'s Backward on its gradient,
     * the slots added into the parents that require a gradient, and the
     * context dropped; `false` when the context or the gradient is null.
     */
    method Process(t: nat, derive: Derive) returns (ok: bool)
      requires Valid() && t < |shapes|
      modifies this
      ensures Valid() && shapes == old(shapes) && requiresGrad == old(requiresGrad) && noGrad == old(noGrad)
      ensures var step := Step(old(Pass(gradients, contexts)), requiresGrad, derive, t);
        && (ok <==> step.Success?)
        && (ok ==> Pass(gradients, contexts) == step.value)
        && (!ok ==> gradients == old(gradients) && contexts == old(contexts))
    {
      if contexts[t].None? || gradients[t].None? {
        return false;
      }
      var ctx := contexts[t].value;
      var slots := derive(ctx, gradients[t].value);
      assert AllBelow(ctx.parents, |gradients|) by {
        forall k | 0 <= k < |ctx.parents|
          ensures ctx.parents[k] < |gradients|
        {
          assert contexts[t].value.parents[k] < t;
        }
      }
      AddSlots(slots, ctx.parents);
      contexts := contexts[t := None];
      ok := true;
    }
  }

  /** The tensors on the DFS stack (visited, with a context, not yet listed) are all at least `bound`. */
  predicate Pending(contexts: seq<Option<MLops.Function>>, visited: set<nat>, order: seq<nat>, bound: nat)
  {
    forall v :: v in visited && v < |contexts| && contexts[v].Some? && v !in order ==> v >= bound
  }

  /** A visit that lists every tensor with a context it reaches keeps the stack above `bound`. */
  lemma StillPending(contexts: seq<Option<MLops.Function>>, va: set<nat>, oa: seq<nat>, vb: set<nat>, ob: seq<nat>, bound: nat)
    requires Pending(contexts, va, oa, bound) && va <= vb
    requires forall x :: x in oa ==> x in ob
    requires forall v :: v in vb && v !in va && v < |contexts| && contexts[v].Some? ==> v in ob
    requires forall v :: v in vb ==> v < |contexts|
    ensures Pending(contexts, vb, ob, bound)
  {
  }

  /** Tensors reached since `visited`, other than `node`, stay listed after one more visit. */
  lemma StillListed(contexts: seq<Option<MLops.Function>>, visited: set<nat>, va: set<nat>, oa: seq<nat>,
                    vb: set<nat>, ob: seq<nat>, node: nat)
    requires forall v :: v in va && v !in visited && v != node && v < |contexts| && contexts[v].Some? ==> v in oa
    requires va <= vb && forall x :: x in oa ==> x in ob
    requires forall v :: v in vb && v !in va && v < |contexts| && contexts[v].Some? ==> v in ob
    requires forall v :: v in vb ==> v < |contexts|
    ensures forall v :: v in vb && v !in visited && v != node && v < |contexts| && contexts[v].Some? ==> v in ob
  {
  }

  /** A visited parent with a context, below every tensor on the stack, is already listed. */
  lemma PendingListed(contexts: seq<Option<MLops.Function>>, visited: set<nat>, order: seq<nat>, node: nat, child: nat)
    requires Pending(contexts, visited, order, node) && child in visited && child < node
    ensures child < |contexts| && contexts[child].Some? ==> child in order
  {
  }

  /**
   * `after` extends `before` by tensors that have a context, are below
   * `bound` and were not in `visited`.
   */
  predicate Grows(contexts: seq<Option<MLops.Function>>, before: seq<nat>, after: seq<nat>, visited: set<nat>, bound: nat)
  {
    && |before| <= |after| && after[..|before|] == before
    && forall i :: |before| <= i < |after| ==>
         after[i] !in visited && after[i] < bound && after[i] < |contexts| && contexts[after[i]].Some?
  }

  lemma GrowsTrans(contexts: seq<Option<MLops.Function>>, a: seq<nat>, b: seq<nat>, c: seq<nat>,
                   v1: set<nat>, v2: set<nat>, bound: nat, bound': nat)
    requires Grows(contexts, a, b, v1, bound) && Grows(contexts, b, c, v2, bound')
    requires v1 <= v2 && bound' <= bound
    ensures Grows(contexts, a, c, v1, bound)
    ensures forall x :: x in b ==> x in c
  {
    assert c[..|a|] == c[..|b|][..|a|];
    forall i | |a| <= i < |c|
      ensures c[i] !in v1 && c[i] < bound && c[i] < |contexts| && contexts[c[i]].Some?
    {
      if i < |b| {
        assert c[i] == c[..|b|][i];
      }
    }
    forall x | x in b
      ensures x in c
    {
      var m :| 0 <= m < |b| && b[m] == x;
      assert c[..|b|][m] == c[m];
    }
  }

  /** Listing `node` after its parents keeps the list a duplicate-free post-order. */
  lemma GrowsAppend(contexts: seq<Option<MLops.Function>>, order: seq<nat>, order': seq<nat>, visited: set<nat>, node: nat)
    requires Grows(contexts, order, order', visited, node)
    requires node !in visited && forall v :: v in order ==> v in visited
    requires node < |contexts| && contexts[node].Some?
    requires PostOrdered(contexts, order') && Distinct(order')
    requires forall p :: p in ParentsOf(contexts, node) && p < |contexts| && contexts[p].Some? ==> p in order'
    ensures Grows(contexts, order, order' + [node], visited, node + 1)
    ensures PostOrdered(contexts, order' + [node]) && Distinct(order' + [node])
  {
    PostOrderedAppend(contexts, order', node);
    forall i | 0 <= i < |order'|
      ensures order'[i] != node
    {
      if i < |order| {
        assert order'[i] == order'[..|order|][i];
        assert order[i] in order;
      }
    }
    DistinctAppend(order', node);
    assert (order' + [node])[..|order|] == order'[..|order|];
  }


  /**
   * The state of the loop over the parents of `node` in `__backward_r`:
   * `visited'` and `order'` have grown from `visited` and `order` by
   * tensors reached from `node`, every such tensor with a context other
   * than `node` is listed, the stack stays above `node`, and the new
   * entries are ancestors of `node`.
   */
  predicate Frontier(contexts: seq<Option<MLops.Function>>, visited: set<nat>, order: seq<nat>, node: nat,
                     visited': set<nat>, order': seq<nat>)
  {
    && ParentsBefore(contexts) && node < |contexts| && contexts[node].Some?
    && visited <= visited' && node in visited' && node !in visited
    && (forall v :: v in visited' ==> v < |contexts|)
    && (forall v :: v in order' ==> v in visited')
    && Grows(contexts, order, order', visited, node)
    && PostOrdered(contexts, order') && Distinct(order')
    && Pending(contexts, visited', order', node)
    && (forall v :: v in visited' && v !in visited && v != node && contexts[v].Some? ==> v in order')
    && AncestorsFrom(contexts, order', |order|, node)
  }

  /** An unvisited parent of `node` may be visited from a loop state. */
  lemma FrontierVisitable(contexts: seq<Option<MLops.Function>>, visited: set<nat>, order: seq<nat>, node: nat,
                          visited': set<nat>, order': seq<nat>, child: nat)
    requires Frontier(contexts, visited, order, node, visited', order')
    requires child in ParentsOf(contexts, node) && child !in visited'
    ensures child < node && child < |contexts|
    ensures forall v :: v in order' ==> v in visited'
    ensures Pending(contexts, visited', order', child + 1)
  {
    AncestorsOfParent(contexts, node, child);
  }

  /**
   * Visiting an unvisited parent `child` of `node` keeps the loop state,
   * keeps what was listed, and lists `child` when it has a context.
   */
  lemma FrontierStep(contexts: seq<Option<MLops.Function>>, visited: set<nat>, order: seq<nat>, node: nat,
                     v1: set<nat>, o1: seq<nat>, child: nat, v2: set<nat>, o2: seq<nat>)
    requires Frontier(contexts, visited, order, node, v1, o1)
    requires child in ParentsOf(contexts, node) && child !in v1
    requires v1 <= v2 && child in v2
    requires forall v :: v in v2 ==> v < |contexts|
    requires forall v :: v in o2 ==> v in v2
    requires Grows(contexts, o1, o2, v1, child + 1)
    requires PostOrdered(contexts, o2) && Distinct(o2)
    requires forall v :: v in v2 && v !in v1 && contexts[v].Some? ==> v in o2
    requires AncestorsFrom(contexts, o2, |o1|, child)
    ensures Frontier(contexts, visited, order, node, v2, o2)
    ensures forall x :: x in o1 ==> x in o2
    ensures contexts[child].Some? ==> child in o2
  {
    AncestorsOfParent(contexts, node, child);
    GrowsTrans(contexts, order, o1, o2, visited, v1, node, child + 1);
    StillPending(contexts, v1, o1, v2, o2, node);
    StillListed(contexts, visited, v1, o1, v2, o2, node);
    AncestorsKept(contexts, |order|, o1, o2, node, child);
  }

  // ---------------------------------------------------------------------------
  // Tensor's reduction and reshaping helpers
  // ---------------------------------------------------------------------------

  /** The axes `Sum()` and `Max()` reduce over: every axis when none is given. */
  function ReductionAxes(rank: nat, axes: seq<int>): seq<int>
  {
    if axes == [] then Range(0, rank) else axes
  }

  /** Reducing without naming axes reduces over all of them, to the single-element shape `[1]`. */
  lemma ReduceAll(s: Shape)
    ensures MLops.ReducedShape(s, ReductionAxes(|s|, [])) == Success([1])
    ensures MLops.ValidAxes(ReductionAxes(|s|, []), |s|)
  {
    MLops.NormalizeRange(|s|, |s|);
  }

  /** `Shape[b]`: the extent of axis `b`, counted from the end when negative. */
  function Extent(s: Shape, b: int): Result<nat>
  {
    var a := Funcs.Normalize(b, |s|);
    if 0 <= a < |s| then Success(s[a]) else Failure(IndexOutOfRange)
  }

  /**
   * `axes.Aggregate(acc, (a, b) => a * Shape[b])`: `acc` times the extents
   * at the given axes, or the exception of the first axis outside the array.
   */
  function ExtentProduct(s: Shape, axes: seq<int>, acc: nat): (r: Result<nat>)
    ensures r.Success? <==> MLops.ValidAxes(axes, |s|)
    ensures r.Failure? ==> r.error == IndexOutOfRange
    ensures r.Success? ==> r.value == acc * Prod(Gather(s, Funcs.NormalizeAll(axes, |s|)))
    decreases |axes|
  {
    if axes == [] then Success(acc)
    else
      var resolved := Funcs.NormalizeAll(axes, |s|);
      assert Funcs.NormalizeAll(axes[1..], |s|) == resolved[1..];
      assert resolved[0] == Funcs.Normalize(axes[0], |s|);
      assert MLops.ValidAxes(axes, |s|) <==> 0 <= resolved[0] < |s| && MLops.ValidAxes(axes[1..], |s|);
      match Extent(s, axes[0])
      case Failure(e) => Failure(e)
      case Success(e) =>
        var rest := ExtentProduct(s, axes[1..], acc * e);
        ExtentStep(s, resolved, acc, e, rest);
        rest
  }

  /** One factor of the fold: the first extent moves from the accumulator into the product. */
  lemma ExtentStep(s: Shape, resolved: seq<int>, acc: nat, e: nat, rest: Result<nat>)
    requires resolved != [] && 0 <= resolved[0] < |s| && s[resolved[0]] == e
    requires rest.Success? ==> InRange(resolved[1..], |s|) && rest.value == acc * e * Prod(Gather(s, resolved[1..]))
    ensures rest.Success? ==> InRange(resolved, |s|) && rest.value == acc * Prod(Gather(s, resolved))
  {
    if rest.Success? {
      var tail := Prod(Gather(s, resolved[1..]));
      assert Gather(s, resolved) == [e] + Gather(s, resolved[1..]);
      assert Prod(Gather(s, resolved)) == e * tail;
      assert acc * e * tail == acc * (e * tail);
    }
  }

  /**
   * Tensor.Mean as written: the sum over the reduced axes is divided by the
   * product of the extents at the axes the caller passed, which is 1 when
   * the caller passed none, although the sum then runs over every axis.
   */
  function MeanDivisorAsWritten(s: Shape, axes: seq<int>): Result<nat>
  {
    ExtentProduct(s, axes, 1)
  }

  /** The divisor of Mean: the product of the extents at the axes actually reduced. */
  function MeanDivisor(s: Shape, axes: seq<int>): Result<nat>
  {
    ExtentProduct(s, ReductionAxes(|s|, axes), 1)
  }

  /** Mean() of a 2 x 3 tensor: the sum of six elements is divided by 1 as written, by 6 as intended. */
  lemma MeanOfAllDividesByOne()
    ensures MeanDivisorAsWritten([2, 3], []) == Success(1)
    ensures MeanDivisor([2, 3], []) == Success(6)
  {
    MeanDividesByCount([2, 3], []);
  }

  /**
   * A repeated axis: Mean(1, 1) of a 2 x 3 tensor sums all six elements
   * (as many axes as dimensions reduce everything) but divides by 3 * 3.
   */
  lemma MeanRepeatedAxis()
    ensures MLops.ReducedShape([2, 3], [1, 1]) == Success([1])
    ensures MeanDivisor([2, 3], [1, 1]) == Success(9)
  {
    assert ReductionAxes(2, [1, 1]) == [1, 1];
    assert ExtentProduct([2, 3], [1], 3) == Success(9);
  }

  /**
   * The divisor of Mean counts the elements summed into each output element:
   * the size of the output times the divisor is the size of the input.
   */
  lemma MeanDividesByCount(s: Shape, axes: seq<int>)
    requires MLops.ValidAxes(ReductionAxes(|s|, axes), |s|)
    requires Distinct(Funcs.NormalizeAll(ReductionAxes(|s|, axes), |s|))
    ensures MLops.ReducedShape(s, ReductionAxes(|s|, axes)).Success?
    ensures MeanDivisor(s, axes).Success?
    ensures Prod(MLops.ReducedShape(s, ReductionAxes(|s|, axes)).value) * MeanDivisor(s, axes).value == Prod(s)
    ensures axes == [] ==> MeanDivisor(s, axes) == Success(Prod(s))
  {
    var all := ReductionAxes(|s|, axes);
    var resolved := Funcs.NormalizeAll(all, |s|);
    var divisor := Prod(Gather(s, resolved));
    assert MeanDivisor(s, axes) == Success(divisor);
    ReducedKeepsTheRest(s, all);
    if axes == [] {
      MLops.NormalizeRange(|s|, |s|);
      GatherAll(s);
    }
  }

  /** The kept extents times the reduced ones give the size of the input. */
  lemma ReducedKeepsTheRest(s: Shape, axes: seq<int>)
    requires MLops.ValidAxes(axes, |s|) && Distinct(Funcs.NormalizeAll(axes, |s|))
    ensures MLops.ReducedShape(s, axes).Success?
    ensures Prod(MLops.ReducedShape(s, axes).value) * Prod(Gather(s, Funcs.NormalizeAll(axes, |s|))) == Prod(s)
  {
    if |axes| == |s| {
      ReducedKeepsNothing(s, axes);
    } else {
      MLops.ReducedShapeCount(s, axes);
    }
  }

  lemma ReducedKeepsNothing(s: Shape, axes: seq<int>)
    requires MLops.ValidAxes(axes, |s|) && Distinct(Funcs.NormalizeAll(axes, |s|)) && |axes| == |s|
    ensures MLops.ReducedShape(s, axes) == Success([1])
    ensures Prod([1]) * Prod(Gather(s, Funcs.NormalizeAll(axes, |s|))) == Prod(s)
  {
    var resolved := Funcs.NormalizeAll(axes, |s|);
    assert |resolved| == |s|;
    ReduceEveryAxis(s, resolved);
    assert Prod([1]) == 1 by { assert [1][1..] == []; }
  }

  /** Reducing over every axis, in any order, spans the whole input. */
  lemma ReduceEveryAxis(s: Shape, resolved: seq<int>)
    requires InRange(resolved, |s|) && Distinct(resolved) && |resolved| == |s|
    ensures Prod(Gather(s, resolved)) == Prod(s)
  {
    FreeAndAxesCover(|s|, resolved);
    var g := Gather(s, Free(|s|, resolved));
    assert |g| == 0;
    assert Prod(g) == 1;
    FreeAndAxesProd(s, resolved);
  }

  lemma DivideProduct(a: nat, b: nat)
    requires a > 0
    ensures (a * b) / a == b
  {
    var q, r := (a * b) / a, (a * b) % a;
    assert a * b == a * q + r && 0 <= r < a;
    var d := b - q;
    assert a * d == r;
    assert d >= 1 ==> a * d == a + a * (d - 1);
    assert d <= -1 ==> a * d == -(a as int) + a * (d + 1);
  }

  /**
   * The shape Flatten reshapes to: `[size]`, or with a batch axis
   * `[shape[0], size / shape[0]]`, which needs a first axis of non-zero
   * extent.
   */
  function FlattenShape(s: Shape, batched: bool): (r: Result<Shape>)
    ensures r.Success? <==> !batched || (|s| > 0 && s[0] > 0)
    ensures r.Failure? ==> r.error == (if |s| == 0 then IndexOutOfRange else DivideByZero)
    ensures r.Success? ==> Prod(r.value) == Prod(s)
    ensures r.Success? && !batched ==> r.value == [Prod(s)]
    ensures r.Success? && batched ==> |r.value| == 2 && r.value[0] == s[0]
  {
    if !batched then
      assert Prod([Prod(s)]) == Prod(s);
      Success([Prod(s)])
    else if |s| == 0 then Failure(IndexOutOfRange)
    else if s[0] == 0 then Failure(DivideByZero)
    else
      var rest := Prod(s[1..]);
      DivideProduct(s[0], rest);
      assert [s[0], rest][1..] == [rest];
      assert Prod([rest]) == rest;
      Success([s[0], Prod(s) / s[0]])
  }

  // ---------------------------------------------------------------------------
  // Properties of the backward pass
  // ---------------------------------------------------------------------------

  lemma ScheduleBelow(order: seq<nat>, contexts: seq<Option<MLops.Function>>, rg: seq<bool>, root: nat)
    requires forall k :: 0 <= k < |order| ==> order[k] <= root
    ensures forall k :: 0 <= k < |Schedule(order, contexts, rg)| ==> Schedule(order, contexts, rg)[k] <= root
  {
    var r := Schedule(order, contexts, rg);
    forall k | 0 <= k < |r|
      ensures r[k] <= root
    {
      assert r[k] in r;
      var m :| 0 <= m < |order| && order[m] == r[k];
    }
  }

  /**
   * Processing tensors created no later than `root` never changes the
   * gradient of `root` or of any later tensor: gradients only flow to
   * parents, which are older than their consumers.
   */
  lemma {:induction false} RunKeepsFrom(st: Pass, rg: seq<bool>, derive: Derive, schedule: seq<nat>, root: nat)
    requires Fits(st, rg) && AllBelow(schedule, |rg|)
    requires forall k :: 0 <= k < |schedule| ==> schedule[k] <= root
    ensures forall q :: root <= q < |rg| ==> Run(st, rg, derive, schedule).pass.gradients[q] == st.gradients[q]
    decreases |schedule|
  {
    if schedule != [] {
      var t := schedule[0];
      var step := Step(st, rg, derive, t);
      if step.Success? {
        forall q | root <= q < |rg|
          ensures step.value.gradients[q] == st.gradients[q]
        {
          assert q !in ParentsOf(st.contexts, t);
        }
        RunKeepsFrom(step.value, rg, derive, schedule[1..], root);
      }
    }
  }

  /**
   * A pass that ends without an exception has dropped the context of every
   * tensor it processed, and left every other context as it was.
   */
  lemma {:induction false} RunClearsContexts(st: Pass, rg: seq<bool>, derive: Derive, schedule: seq<nat>)
    requires Fits(st, rg) && AllBelow(schedule, |rg|)
    ensures var r := Run(st, rg, derive, schedule);
      && (r.error.None? ==> forall k :: 0 <= k < |schedule| ==> r.pass.contexts[schedule[k]].None?)
      && (forall q :: 0 <= q < |rg| && q !in schedule ==> r.pass.contexts[q] == st.contexts[q])
    decreases |schedule|
  {
    if schedule != [] {
      var step := Step(st, rg, derive, schedule[0]);
      if step.Success? {
        RunClearsContexts(step.value, rg, derive, schedule[1..]);
        var r := Run(step.value, rg, derive, schedule[1..]);
        if r.error.None? {
          forall k | 0 <= k < |schedule|
            ensures r.pass.contexts[schedule[k]].None?
          {
            if k > 0 {
              assert schedule[k] == schedule[1..][k - 1];
            } else if schedule[0] !in schedule[1..] {
              assert r.pass.contexts[schedule[0]] == step.value.contexts[schedule[0]];
            }
          }
        }
      }
    }
  }

  /** A tensor that does not require a gradient keeps its gradient through the pass. */
  lemma {:induction false} RunKeepsUnrequired(st: Pass, rg: seq<bool>, derive: Derive, schedule: seq<nat>)
    requires Fits(st, rg) && AllBelow(schedule, |rg|)
    ensures forall q :: 0 <= q < |rg| && !rg[q] ==> Run(st, rg, derive, schedule).pass.gradients[q] == st.gradients[q]
    decreases |schedule|
  {
    if schedule != [] {
      var step := Step(st, rg, derive, schedule[0]);
      if step.Success? {
        RunKeepsUnrequired(step.value, rg, derive, schedule[1..]);
      }
    }
  }

  /** Every parent that requires a gradient receives a non-null slot. */
  predicate Covers(slots: seq<Option<real>>, parents: seq<nat>, rg: seq<bool>)
  {
    forall k :: 0 <= k < |parents| && parents[k] < |rg| && rg[parents[k]] ==> k < |slots| && slots[k].Some?
  }

  /**
   * The Backward of every context, on any incoming gradient, returns a
   * non-null slot for each parent that requires a gradient, as each
   * operation's `BackwardSlots` does when it succeeds.
   */
  ghost predicate SlotsCover(derive: Derive, contexts: seq<Option<MLops.Function>>, rg: seq<bool>)
  {
    forall t, g :: 0 <= t < |contexts| && contexts[t].Some? ==> DeriveCovers(derive, contexts[t].value, g, rg)
  }

  /** `ctx`'s Backward on gradient `g` covers the parents of `ctx` that require a gradient. */
  predicate DeriveCovers(derive: Derive, ctx: MLops.Function, g: real, rg: seq<bool>)
  {
    Covers(derive(ctx, g), ctx.parents, rg)
  }

  /** A slot zipped with `q` makes the sum of `q`'s contributions non-null. */
  lemma {:induction false} ContributionPresent(slots: seq<Option<real>>, parents: seq<nat>, q: nat, k: nat)
    requires k < |slots| && k < |parents| && parents[k] == q && slots[k].Some?
    ensures Contribution(slots, parents, q).Some?
    decreases k
  {
    if k > 0 {
      ContributionPresent(slots[1..], parents[1..], q, k - 1);
    }
  }

  /**
   * Processing a tensor with a context and a gradient succeeds, keeps every
   * non-null gradient non-null, and gives a gradient to each of its parents
   * that requires one.
   */
  lemma StepFeeds(st: Pass, rg: seq<bool>, derive: Derive, t: nat)
    requires Fits(st, rg) && t < |rg| && st.contexts[t].Some? && st.gradients[t].Some?
    requires SlotsCover(derive, st.contexts, rg)
    ensures Step(st, rg, derive, t).Success?
    ensures forall q :: 0 <= q < |rg| && st.gradients[q].Some? ==> Step(st, rg, derive, t).value.gradients[q].Some?
    ensures forall q :: q in ParentsOf(st.contexts, t) && q < |rg| && rg[q] ==> Step(st, rg, derive, t).value.gradients[q].Some?
  {
    var ctx := st.contexts[t].value;
    var slots := derive(ctx, st.gradients[t].value);
    assert DeriveCovers(derive, ctx, st.gradients[t].value, rg);
    var grads := Step(st, rg, derive, t).value.gradients;
    forall q | 0 <= q < |rg|
      ensures grads[q] == if rg[q] then Plus(st.gradients[q], Contribution(slots, ctx.parents, q)) else st.gradients[q]
    {
      AccumulateSums(st.gradients, rg, slots, ctx.parents, q);
    }
    forall q | q in ParentsOf(st.contexts, t) && q < |rg| && rg[q]
      ensures grads[q].Some?
    {
      var k :| 0 <= k < |ctx.parents| && ctx.parents[k] == q;
      ContributionPresent(slots, ctx.parents, q, k);
    }
  }

  /**
   * Every tensor of `schedule` has a context, and has a gradient or is a
   * parent of a tensor scheduled before it.
   */
  predicate Fed(contexts: seq<Option<MLops.Function>>, grads: seq<Option<real>>, schedule: seq<nat>)
  {
    forall j :: 0 <= j < |schedule| ==>
      && schedule[j] < |contexts| && schedule[j] < |grads| && contexts[schedule[j]].Some?
      && (grads[schedule[j]].Some? ||
          exists i :: 0 <= i < j && schedule[i] < |contexts| && schedule[j] in ParentsOf(contexts, schedule[i]))
  }

  /**
   * The pass runs to the end without a null dereference when every
   * scheduled tensor still has its context and either has a gradient or is
   * a parent of a tensor scheduled before it. It then leaves every non-null
   * gradient non-null and gives a gradient to every parent, requiring one,
   * of a scheduled tensor.
   */
  lemma {:induction false} RunCompletes(st: Pass, rg: seq<bool>, derive: Derive, schedule: seq<nat>)
    requires Fits(st, rg) && AllBelow(schedule, |rg|) && Distinct(schedule)
    requires ContextsRequireGrad(st.contexts, rg) && SlotsCover(derive, st.contexts, rg)
    requires Fed(st.contexts, st.gradients, schedule)
    ensures var r := Run(st, rg, derive, schedule);
      && r.error.None?
      && (forall q :: 0 <= q < |rg| && st.gradients[q].Some? ==> r.pass.gradients[q].Some?)
      && (forall i, q :: 0 <= i < |schedule| && q in ParentsOf(st.contexts, schedule[i]) && q < |rg| && rg[q] ==>
            r.pass.gradients[q].Some?)
    decreases |schedule|
  {
    if schedule != [] {
      var t, rest := schedule[0], schedule[1..];
      StepFeeds(st, rg, derive, t);
      var next := Step(st, rg, derive, t).value;
      assert next.contexts == st.contexts[t := None];
      forall j | 0 <= j < |rest|
        ensures rest[j] != t && next.contexts[rest[j]] == st.contexts[rest[j]]
      {
        assert rest[j] == schedule[j + 1];
      }
      forall j | 0 <= j < |rest|
        ensures next.gradients[rest[j]].Some? || exists i :: 0 <= i < j && rest[i] < |rg| && rest[j] in ParentsOf(next.contexts, rest[i])
      {
        assert rest[j] == schedule[j + 1];
        if next.gradients[rest[j]].None? {
          var i :| 0 <= i < j + 1 && schedule[j + 1] in ParentsOf(st.contexts, schedule[i]);
          if i > 0 {
            assert rest[i - 1] == schedule[i] && ParentsOf(next.contexts, rest[i - 1]) == ParentsOf(st.contexts, schedule[i]);
          }
        }
      }
      assert Distinct(rest);
      RunCompletes(next, rg, derive, rest);
      forall i, q | 0 <= i < |schedule| && q in ParentsOf(st.contexts, schedule[i]) && q < |rg| && rg[q]
        ensures Run(st, rg, derive, schedule).pass.gradients[q].Some?
      {
        if i > 0 {
          assert rest[i - 1] == schedule[i] && ParentsOf(next.contexts, rest[i - 1]) == ParentsOf(st.contexts, schedule[i]);
        }
      }
    }
  }

  /**
   * The whole of `backward`: over the post-order from `root` that
   * `BackwardOrder` lists (only ancestors of `root` with a context, none
   * twice, parents first, and every such ancestor), with the root's
   * gradient seeded, the pass never meets a null context or gradient, and
   * every ancestor of `root` that requires a gradient ends with one,
   * provided each Backward gives a slot to every parent requiring one.
   */
  lemma BackwardCompletes(contexts: seq<Option<MLops.Function>>, rg: seq<bool>, grads: seq<Option<real>>,
                          derive: Derive, root: nat, order: seq<nat>)
    requires Fits(Pass(grads, contexts), rg) && root < |rg|
    requires ContextsRequireGrad(contexts, rg) && SlotsCover(derive, contexts, rg)
    requires forall k :: 0 <= k < |order| ==> order[k] < |contexts| && contexts[order[k]].Some?
    requires forall k :: 0 <= k < |order| ==> order[k] in Ancestors(contexts, root)
    requires Distinct(order) && PostOrdered(contexts, order)
    requires forall q :: q in Ancestors(contexts, root) && contexts[q].Some? ==> q in order
    ensures var r := Run(Pass(grads[root := Some(1.0)], contexts), rg, derive, Schedule(order, contexts, rg));
      && r.error.None?
      && forall q :: q in Ancestors(contexts, root) && rg[q] ==> r.pass.gradients[q].Some?
  {
    var st := Pass(grads[root := Some(1.0)], contexts);
    var schedule := Schedule(order, contexts, rg);
    ScheduleDistinct(order, contexts, rg);
    PostOrderParentsFirst(contexts, order);
    ScheduleConsumersFirst(order, contexts, rg);
    ScheduleFed(contexts, rg, st.gradients, root, order);
    RunCompletes(st, rg, derive, schedule);
    forall q | q in Ancestors(contexts, root) && rg[q]
      ensures Run(st, rg, derive, schedule).pass.gradients[q].Some?
    {
      if q != root {
        var c := Consumer(contexts, rg, root, order, q);
        var i :| 0 <= i < |schedule| && schedule[i] == c;
      }
    }
  }

  /**
   * Every scheduled tensor has its context, and is the root, whose gradient
   * is seeded, or a parent of a tensor scheduled before it.
   */
  lemma ScheduleFed(contexts: seq<Option<MLops.Function>>, rg: seq<bool>, grads: seq<Option<real>>, root: nat, order: seq<nat>)
    requires ParentsBefore(contexts) && |rg| == |contexts| && |grads| == |contexts| && root < |contexts|
    requires grads[root].Some? && ContextsRequireGrad(contexts, rg)
    requires forall k :: 0 <= k < |order| ==> order[k] < |contexts| && contexts[order[k]].Some?
    requires forall k :: 0 <= k < |order| ==> order[k] in Ancestors(contexts, root)
    requires forall q :: q in Ancestors(contexts, root) && contexts[q].Some? ==> q in order
    requires ConsumersFirst(contexts, Schedule(order, contexts, rg))
    ensures Fed(contexts, grads, Schedule(order, contexts, rg))
  {
    var schedule := Schedule(order, contexts, rg);
    forall j | 0 <= j < |schedule|
      ensures schedule[j] < |contexts| && contexts[schedule[j]].Some?
      ensures grads[schedule[j]].Some? ||
              exists i :: 0 <= i < j && schedule[i] < |contexts| && schedule[j] in ParentsOf(contexts, schedule[i])
    {
      var t := schedule[j];
      assert t in schedule;
      var m :| 0 <= m < |order| && order[m] == t;
      if t != root {
        var c := Consumer(contexts, rg, root, order, t);
        var i :| 0 <= i < |schedule| && schedule[i] == c;
        ConsumerBefore(contexts, schedule, i, j);
      }
    }
  }

  /** Where consumers come first, a consumer of a listed tensor is listed before it. */
  lemma ConsumerBefore(contexts: seq<Option<MLops.Function>>, s: seq<nat>, i: nat, j: nat)
    requires ConsumersFirst(contexts, s) && i < |s| && j < |s| && s[i] < |contexts|
    requires s[j] in ParentsOf(contexts, s[i]) && s[j] != s[i]
    ensures i < j
  {
  }

  /**
   * An ancestor `q` of `root`, other than `root`, that requires a gradient
   * has a consumer among the ancestors of `root`; that consumer is listed
   * and is processed, since one of its parents, `q`, requires a gradient.
   */
  lemma Consumer(contexts: seq<Option<MLops.Function>>, rg: seq<bool>, root: nat, order: seq<nat>, q: nat) returns (c: nat)
    requires ParentsBefore(contexts) && |rg| == |contexts| && root < |contexts|
    requires forall q :: q in Ancestors(contexts, root) && contexts[q].Some? ==> q in order
    requires q in Ancestors(contexts, root) && q != root && rg[q]
    ensures q < c < |contexts| && q in ParentsOf(contexts, c)
    ensures c in Schedule(order, contexts, rg)
  {
    AncestorsStep(contexts, root, q);
    c :| c in Ancestors(contexts, root) && c < |contexts| && q in ParentsOf(contexts, c);
    var ps := contexts[c].value.parents;
    var k :| 0 <= k < |ps| && ps[k] == q;
    assert Processable(contexts, rg, c);
  }

  lemma PlusAssociates(a: Option<real>, b: Option<real>, c: Option<real>)
    ensures Plus(Plus(a, b), c) == Plus(a, Plus(b, c))
  {
  }

  /**
   * One tensor's slots accumulate, into each parent that requires a
   * gradient, the sum of the slots zipped with it: several slots naming the
   * same parent add up.
   */
  lemma {:induction false} AccumulateSums(grads: seq<Option<real>>, rg: seq<bool>, slots: seq<Option<real>>, parents: seq<nat>, q: nat)
    requires |rg| == |grads| && AllBelow(parents, |grads|) && q < |grads|
    ensures Accumulate(grads, rg, slots, parents)[q]
            == if rg[q] then Plus(grads[q], Contribution(slots, parents, q)) else grads[q]
    decreases |slots|
  {
    if slots != [] && parents != [] {
      var p := parents[0];
      var next := if slots[0].Some? && rg[p] then grads[p := Plus(grads[p], slots[0])] else grads;
      AccumulateSums(next, rg, slots[1..], parents[1..], q);
      var here := if p == q then slots[0] else None;
      PlusAssociates(grads[q], here, Contribution(slots[1..], parents[1..], q));
      if rg[q] {
        assert next[q] == Plus(grads[q], here);
      }
    }
  }

  /** Read from the end, a post-order without repetitions never lists a parent after its consumer. */
  lemma PostOrderParentsFirst(contexts: seq<Option<MLops.Function>>, order: seq<nat>)
    requires PostOrdered(contexts, order) && Distinct(order)
    requires forall k :: 0 <= k < |order| ==> order[k] < |contexts| && contexts[order[k]].Some?
    ensures ParentsFirst(contexts, order)
  {
    forall i, j | 0 <= i < j < |order| && order[i] < |contexts|
      ensures order[j] !in ParentsOf(contexts, order[i])
    {
      forall m | 0 <= m < i
        ensures order[..i][m] != order[j]
      {
        assert order[..i][m] == order[m];
      }
      assert order[j] !in order[..i];
    }
  }

  /** In `s`, no tensor is a parent of a tensor listed after it: consumers come first. */
  predicate ConsumersFirst(contexts: seq<Option<MLops.Function>>, s: seq<nat>)
  {
    forall i, j :: 0 <= i < j < |s| && s[j] < |contexts| ==> s[i] !in ParentsOf(contexts, s[j])
  }

  /**
   * The schedule processes every tensor before any of its parents, so a
   * tensor's gradient has received all the contributions of the scheduled
   * consumers before its own Backward runs.
   */
  lemma {:induction false} ScheduleConsumersFirst(order: seq<nat>, contexts: seq<Option<MLops.Function>>, rg: seq<bool>)
    requires ParentsFirst(contexts, order)
    ensures ConsumersFirst(contexts, Schedule(order, contexts, rg))
  {
    if order != [] {
      var rest := order[1..];
      assert ParentsFirst(contexts, rest) by {
        forall i, j | 0 <= i < j < |rest| && rest[i] < |contexts|
          ensures rest[j] !in ParentsOf(contexts, rest[i])
        {
          assert rest[i] == order[i + 1] && rest[j] == order[j + 1];
        }
      }
      ScheduleConsumersFirst(rest, contexts, rg);
      var tail := Schedule(rest, contexts, rg);
      var s := Schedule(order, contexts, rg);
      forall i, j | 0 <= i < j < |s| && s[j] < |contexts|
        ensures s[i] !in ParentsOf(contexts, s[j])
      {
        if j >= |tail| {
          assert s[j] == order[0] && s[i] == tail[i];
          assert tail[i] in rest;
          var m :| 0 <= m < |rest| && rest[m] == tail[i];
          assert order[m + 1] == tail[i];
        } else {
          assert s[i] == tail[i] && s[j] == tail[j];
        }
      }
    }
  }

  /** The schedule starts at the root when the root itself is processed. */
  lemma {:induction false} ScheduleStartsAtRoot(order: seq<nat>, contexts: seq<Option<MLops.Function>>, rg: seq<bool>)
    requires |order| > 0 && Processable(contexts, rg, order[|order| - 1])
    ensures |Schedule(order, contexts, rg)| > 0 && Schedule(order, contexts, rg)[0] == order[|order| - 1]
  {
    if |order| > 1 {
      assert order[1..][|order[1..]| - 1] == order[|order| - 1];
      ScheduleStartsAtRoot(order[1..], contexts, rg);
    }
  }

  /**
   * The gradient of `x * x`: tensor 1 is the product of tensor 0 with
   * itself, so its context lists tensor 0 twice, and both slots of its
   * Backward are added into tensor 0's gradient.
   */
  lemma SquareAccumulatesBothSlots(ctx: MLops.Function, derive: Derive, a: real, b: real)
    requires ctx.parents == [0, 0] && derive(ctx, 1.0) == [Some(a), Some(b)]
    ensures var contexts := [None, Some(ctx)];
      Run(Pass([None, Some(1.0)], contexts), [true, true], derive, [1])
      == Outcome(Pass([Some(a + b), Some(1.0)], [None, None]), None)
  {
    var contexts: seq<Option<MLops.Function>> := [None, Some(ctx)];
    var st := Pass([None, Some(1.0)], contexts);
    assert Fits(st, [true, true]);
    var slots := derive(ctx, 1.0);
    var once := [None, Some(1.0)][0 := Plus(None, Some(a))];
    assert Accumulate(once, [true, true], slots[1..], [0]) == [Some(a + b), Some(1.0)];
    assert Accumulate([None, Some(1.0)], [true, true], slots, [0, 0]) == [Some(a + b), Some(1.0)];
  }

  /** A tensor reached through several consumers is still scheduled once. */
  lemma {:induction false} ScheduleDistinct(order: seq<nat>, contexts: seq<Option<MLops.Function>>, rg: seq<bool>)
    requires Distinct(order)
    ensures Distinct(Schedule(order, contexts, rg))
  {
    if order != [] {
      assert Distinct(order[1..]);
      ScheduleDistinct(order[1..], contexts, rg);
      assert order[0] !in order[1..];
      DisjointConcatDistinct(Schedule(order[1..], contexts, rg),
        if Processable(contexts, rg, order[0]) then [order[0]] else []);
    }
  }

  /**
   * A diamond: tensors 1 and 2 are both computed from tensor 0, and tensor 3
   * from 1 and 2. Processing 3, 2, 1 adds the contributions of both paths
   * into tensor 0's gradient and drops every context.
   */
  lemma DiamondSumsBothPaths(f: MLops.Function, h: MLops.Function, add: MLops.Function, derive: Derive,
                             p: real, q: real, u: real, v: real)
    requires f.parents == [0] && h.parents == [0] && add.parents == [1, 2]
    requires derive(add, 1.0) == [Some(p), Some(q)]
    requires derive(h, q) == [Some(u)] && derive(f, p) == [Some(v)]
    ensures var contexts := [None, Some(f), Some(h), Some(add)];
      Run(Pass([None, None, None, Some(1.0)], contexts), [true, true, true, true], derive, [3, 2, 1])
      == Outcome(Pass([Some(u + v), Some(p), Some(q), Some(1.0)], [None, None, None, None]), None)
  {
    var rg := [true, true, true, true];
    var c0: seq<Option<MLops.Function>> := [None, Some(f), Some(h), Some(add)];
    var st0 := Pass([None, None, None, Some(1.0)], c0);
    var st1 := Pass([None, Some(p), Some(q), Some(1.0)], [None, Some(f), Some(h), None]);
    var st2 := Pass([Some(u), Some(p), Some(q), Some(1.0)], [None, Some(f), None, None]);
    var st3 := Pass([Some(u + v), Some(p), Some(q), Some(1.0)], [None, None, None, None]);
    DiamondFirstStep(f, h, add, derive, p, q);
    DiamondLaterStep(st1, rg, derive, 2, h, q, u, st2);
    DiamondLaterStep(st2, rg, derive, 1, f, p, v, st3);
    assert Run(st3, rg, derive, []) == Outcome(st3, None);
    assert Run(st2, rg, derive, [1]) == Outcome(st3, None);
    assert [2, 1][1..] == [1];
    assert Run(st1, rg, derive, [2, 1]) == Outcome(st3, None);
    assert [3, 2, 1][1..] == [2, 1];
  }

  lemma DiamondFirstStep(f: MLops.Function, h: MLops.Function, add: MLops.Function, derive: Derive, p: real, q: real)
    requires f.parents == [0] && h.parents == [0] && add.parents == [1, 2]
    requires derive(add, 1.0) == [Some(p), Some(q)]
    ensures var c0: seq<Option<MLops.Function>> := [None, Some(f), Some(h), Some(add)];
      && Fits(Pass([None, None, None, Some(1.0)], c0), [true, true, true, true])
      && Step(Pass([None, None, None, Some(1.0)], c0), [true, true, true, true], derive, 3)
         == Success(Pass([None, Some(p), Some(q), Some(1.0)], [None, Some(f), Some(h), None]))
  {
    var rg := [true, true, true, true];
    var g0: seq<Option<real>> := [None, None, None, Some(1.0)];
    var g1: seq<Option<real>> := [None, Some(p), Some(q), Some(1.0)];
    assert Accumulate([None, Some(p), None, Some(1.0)], rg, [Some(q)], [2]) == g1;
    assert Accumulate(g0, rg, [Some(p), Some(q)], [1, 2]) == g1;
    var c0: seq<Option<MLops.Function>> := [None, Some(f), Some(h), Some(add)];
    var st0 := Pass(g0, c0);
    assert Fits(st0, rg);
    assert c0[3].value == add && g0[3].value == 1.0;
    assert c0[3 := None] == [None, Some(f), Some(h), None];
    assert Step(st0, rg, derive, 3) == Success(Pass(Accumulate(g0, rg, derive(add, 1.0), add.parents), c0[3 := None]));
  }

  /** One step of the diamond below its top: a single-parent Function feeding tensor 0. */
  lemma DiamondLaterStep(st: Pass, rg: seq<bool>, derive: Derive, t: nat, ctx: MLops.Function, g: real, d: real, next: Pass)
    requires rg == [true, true, true, true] && Fits(st, rg) && t < 4
    requires st.contexts[t] == Some(ctx) && st.gradients[t] == Some(g)
    requires ctx.parents == [0] && derive(ctx, g) == [Some(d)]
    requires next == Pass(st.gradients[0 := Plus(st.gradients[0], Some(d))], st.contexts[t := None])
    ensures Step(st, rg, derive, t) == Success(next)
  {
    assert Accumulate(st.gradients, rg, [Some(d)], [0]) == next.gradients;
  }

  /**
   * Two consumers of tensor 0: tensor 1 (by `f`) and tensor 2 (by `h`). The
   * sibling 1 is not an ancestor of 2, so the only listing from root 2 that
   * `BackwardOrder` allows is `[2]`: a pass from 2 never touches tensor 1.
   */
  lemma SiblingNeverListed(f: MLops.Function, h: MLops.Function, order: seq<nat>)
    requires f.parents == [0] && h.parents == [0]
    requires var contexts := [None, Some(f), Some(h)];
      && ParentsBefore(contexts)
      && (forall k :: 0 <= k < |order| ==> order[k] < 3 && contexts[order[k]].Some? && order[k] in Ancestors(contexts, 2))
    requires Distinct(order) && |order| > 0 && order[|order| - 1] == 2
    ensures order == [2]
  {
    var contexts: seq<Option<MLops.Function>> := [None, Some(f), Some(h)];
    assert Ancestors(contexts, 0) == {0};
    assert AncestorsOfAll(contexts, [0], 2) == {0};
    assert Ancestors(contexts, 2) == {0, 2};
    forall k | 0 <= k < |order|
      ensures order[k] == 2
    {
      assert order[k] in {0, 2} && contexts[order[k]].Some?;
    }
    assert |order| == 1 by {
      assert order[0] == 2 && order[|order| - 1] == 2;
    }
  }

  lemma DistinctAppend(s: seq<nat>, v: nat)
    requires Distinct(s) && v !in s
    ensures Distinct(s + [v])
  {
    DisjointConcatDistinct(s, [v]);
  }
}
