/**
 * The shape-level behaviour of the static helpers in `Funcs`: squeezing unit
 * dimensions, folding a broadcast gradient back to an operand's shape, and the
 * axis bookkeeping that turns a tensordot into a single 2-D matmul.
 */
module Funcs {
  import opened Wrappers
  import opened Shapes

  // ---------------------------------------------------------------------------
  // Squeeze
  // ---------------------------------------------------------------------------

  /** The extents of `s` that are not 1, in their original order. */
  function DropOnes(s: Shape): (r: Shape)
    ensures forall k :: 0 <= k < |r| ==> r[k] != 1
    ensures Prod(r) == Prod(s)
    ensures r == [] <==> forall k :: 0 <= k < |s| ==> s[k] == 1
  {
    if s == [] then []
    else
      assert s == [s[0]] + s[1..];
      if s[0] == 1 then DropOnes(s[1..])
      else
        var rest := DropOnes(s[1..]);
        assert ([s[0]] + rest)[1..] == rest;
        [s[0]] + rest
  }

  /** Every extent other than 1 occurs as often after dropping the unit extents as before. */
  lemma {:induction false} DropOnesKeepsOthers(s: Shape, d: nat)
    requires d != 1
    ensures multiset(DropOnes(s))[d] == multiset(s)[d]
  {
    if s != [] {
      DropOnesKeepsOthers(s[1..], d);
      assert s == [s[0]] + s[1..];
      assert multiset(s) == multiset{s[0]} + multiset(s[1..]);
      if s[0] != 1 {
        assert DropOnes(s) == [s[0]] + DropOnes(s[1..]);
        assert multiset(DropOnes(s)) == multiset{s[0]} + multiset(DropOnes(s[1..]));
      }
    }
  }

  /** Dropping unit extents works piece by piece, so it keeps the order of the rest. */
  lemma {:induction false} DropOnesAppend(a: Shape, b: Shape)
    ensures DropOnes(a + b) == DropOnes(a) + DropOnes(b)
  {
    if a == [] {
      assert a + b == b;
    } else {
      assert (a + b)[0] == a[0];
      assert (a + b)[1..] == a[1..] + b;
      DropOnesAppend(a[1..], b);
    }
  }

  /**
   * Funcs.Squeeze: the shape with every extent 1 removed, or `[1]` when
   * nothing is left; the element count is unchanged, so the reshape succeeds.
   */
  function Squeeze(s: Shape): (r: Shape)
    ensures Prod(r) == Prod(s)
    ensures |r| >= 1
    ensures (forall k :: 0 <= k < |s| ==> s[k] == 1) <==> r == [1]
    ensures (exists k :: 0 <= k < |s| && s[k] != 1) ==> r == DropOnes(s)
  {
    var kept := DropOnes(s);
    if kept == [] then [1] else kept
  }

  // ---------------------------------------------------------------------------
  // Reverse broadcasting
  // ---------------------------------------------------------------------------

  /** `initial` right-aligned against a rank-`rank` shape by prepending ones. */
  function Padded(initial: Shape, rank: nat): (r: Shape)
    requires |initial| <= rank
  {
    Ones(rank - |initial|) + initial
  }

  /** Axis `i` was stretched by broadcasting `p` to `q`. */
  predicate Stretched(p: Shape, q: Shape, i: nat)
    requires i < |p| && i < |q|
  {
    p[i] != q[i] && q[i] != 1
  }

  /** `initial` broadcasts to `target` under numpy's rules. */
  predicate BroadcastsTo(initial: Shape, target: Shape)
  {
    && |initial| <= |target|
    && forall j :: 0 <= j < |target| ==>
         Padded(initial, |target|)[j] == target[j] || Padded(initial, |target|)[j] == 1
  }

  /** The stretched axes among the first `n`, ascending. */
  function StretchedAxes(p: Shape, q: Shape, n: nat): (r: seq<int>)
    requires n <= |p| && n <= |q|
    ensures Increasing(r) && InRange(r, n)
    ensures forall v :: v in r <==> 0 <= v < n && Stretched(p, q, v)
  {
    if n == 0 then []
    else
      var prefix := StretchedAxes(p, q, n - 1);
      if Stretched(p, q, n - 1) then prefix + [n - 1] else prefix
  }

  /**
   * Funcs.ReverseBroadcastAxes: the axes, in increasing order, at which the
   * padded `initial` differs from `resulting` and `resulting` is not 1. A rank
   * of `initial` above that of `resulting` makes the padding count negative,
   * which the source's `Enumerable.Repeat` rejects.
   */
  function ReverseBroadcastAxes(initial: Shape, resulting: Shape): (r: Result<seq<int>>)
    ensures r.Failure? <==> |initial| > |resulting|
    ensures r.Success? ==>
      && Increasing(r.value)
      && InRange(r.value, |resulting|)
      && forall v :: v in r.value <==>
           0 <= v < |resulting| && Stretched(Padded(initial, |resulting|), resulting, v)
  {
    if |resulting| < |initial| then Failure(ArgumentOutOfRange)
    else Success(StretchedAxes(Padded(initial, |resulting|), resulting, |resulting|))
  }

  /** With equal shapes nothing was broadcast, so no axis is reduced. */
  lemma ReverseBroadcastAxesEqual(s: Shape)
    ensures ReverseBroadcastAxes(s, s) == Success([])
  {
    assert Padded(s, |s|) == s;
    var axes := StretchedAxes(s, s, |s|);
    if axes != [] {
      NonEmptyHasMember(axes);
    }
  }

  /** `post` with every stretched axis summed down to extent 1 (keepdims). */
  function Reduced(initial: Shape, post: Shape): (r: Shape)
    requires |initial| <= |post|
  {
    seq(|post|, j requires 0 <= j < |post| =>
      if Stretched(Padded(initial, |post|), post, j) then 1 else post[j])
  }

  /**
   * The outcome of Funcs.ReverseBroadCast at shape level: the final reshape to
   * `initial` succeeds exactly when the reduced shape spans as many elements.
   */
  function ReverseBroadcastShape(initial: Shape, post: Shape): (r: Result<Shape>)
    ensures r.Success? <==> |initial| <= |post| && Prod(Reduced(initial, post)) == Prod(initial)
    ensures r.Success? ==> r.value == initial
    ensures |initial| > |post| ==> r == ReverseBroadcastAxes(initial, post).PropagateFailure()
  {
    var _ :- ReverseBroadcastAxes(initial, post);
    if Prod(Reduced(initial, post)) == Prod(initial) then Success(initial)
    else Failure(ShapeMismatch)
  }

  /**
   * When `initial` broadcasts to `post`, the reduced shape is exactly the
   * padded `initial`, so folding a gradient back always succeeds.
   */
  lemma ReverseBroadcastOfBroadcast(initial: Shape, post: Shape)
    requires BroadcastsTo(initial, post)
    ensures Reduced(initial, post) == Padded(initial, |post|)
    ensures ReverseBroadcastShape(initial, post) == Success(initial)
  {
    assert Reduced(initial, post) == Padded(initial, |post|);
    ProdAppend(Ones(|post| - |initial|), initial);
    ProdOnes(|post| - |initial|);
  }

  /** Folding a gradient of an operand's own shape back changes nothing. */
  lemma ReverseBroadcastSame(s: Shape)
    ensures Reduced(s, s) == s
    ensures ReverseBroadcastShape(s, s) == Success(s)
  {
    assert Padded(s, |s|) == s;
    ReverseBroadcastOfBroadcast(s, s);
  }

  /**
   * Funcs.ReverseBroadCast: sums `post` over each axis listed by
   * ReverseBroadcastAxes with the dimension kept (giving `reduced`), then
   * reshapes to `initial`.
   */
  method ReverseBroadcast(initial: Shape, post: Shape) returns (reduced: Shape, r: Result<Shape>)
    ensures |initial| <= |post| ==> reduced == Reduced(initial, post)
    ensures r == ReverseBroadcastShape(initial, post)
  {
    var found := ReverseBroadcastAxes(initial, post);
    if found.Failure? {
      return post, Failure(found.error);
    }
    var axes := found.value;
    reduced := post;
    for i := 0 to |axes|
      invariant |reduced| == |post|
      invariant forall j :: 0 <= j < |post| ==> reduced[j] == if j in axes[..i] then 1 else post[j]
    {
      reduced := reduced[axes[i] := 1];
    }
    assert axes[..|axes|] == axes;
    assert reduced == Reduced(initial, post);
    if Prod(reduced) == Prod(initial) {
      r := Success(initial);
    } else {
      r := Failure(ShapeMismatch);
    }
  }

  // ---------------------------------------------------------------------------
  // Tensordot: resolving the axes specification
  // ---------------------------------------------------------------------------

  /**
   * `index` is the position that `axis` names in an array of rank `rank`:
   * an axis in `-rank .. rank - 1` names the one position in `0 .. rank - 1`
   * congruent to it modulo the rank, so that negative axes count from the
   * end; any other axis names no position at all.
   */
  predicate Resolves(axis: int, rank: nat, index: int)
  {
    if -(rank as int) <= axis < rank then 0 <= index < rank && (index - axis) % rank == 0
    else !(0 <= index < rank)
  }

  /** A negative axis counts from the end of a rank-`rank` array. */
  function Normalize(axis: int, rank: nat): int
  {
    if axis >= 0 then axis else axis + rank
  }

  /** Resolving an axis names the position the axis means. */
  lemma NormalizeResolves(axis: int, rank: nat)
    ensures Resolves(axis, rank, Normalize(axis, rank))
  {
    if -(rank as int) <= axis < 0 {
      var index := Normalize(axis, rank);
      assert index - axis == rank;
      assert (index - axis) % rank == 0;
    }
  }

  /**
   * Funcs.TensorDotAxes(a, int): contract the last `k` axes of `a` with the
   * first `k` axes of `b`; `k` outside `0 .. rank(a)` is refused.
   */
  function TensorDotAxesCount(rankA: nat, k: int): (r: Result<(seq<int>, seq<int>)>)
    ensures r.Success? <==> 0 <= k <= rankA
    ensures r.Success? ==>
      && |r.value.0| == k && |r.value.1| == k
      && (forall i :: 0 <= i < k ==> r.value.0[i] == rankA - k + i && r.value.1[i] == i)
      && InRange(r.value.0, rankA) && Increasing(r.value.0) && Distinct(r.value.0)
      && Free(rankA, r.value.0) == Range(0, rankA - k)
  {
    if k > rankA || k < 0 then Failure(InvalidArgument("invalid axis arg must be (0,rank]"))
    else
      FreeOfSuffix(rankA, k);
      Success((Range(rankA - k, k), Range(0, k)))
  }

  /** In an increasing sequence the head is the least element and the tail holds the rest. */
  lemma IncreasingHeadTail(x: seq<int>)
    requires Increasing(x) && x != []
    ensures forall v :: v in x ==> x[0] <= v
    ensures forall v :: v in x[1..] <==> v in x && v != x[0]
  {
    forall v | v in x ensures x[0] <= v {
      var k :| 0 <= k < |x| && x[k] == v;
    }
    forall v ensures v in x[1..] <==> v in x && v != x[0] {
      if v in x && v != x[0] {
        var k :| 0 <= k < |x| && x[k] == v;
        assert x[1..][k - 1] == v;
      }
      if v in x[1..] {
        var k :| 0 <= k < |x[1..]| && x[1..][k] == v;
        assert x[k + 1] == v;
      }
    }
  }

  lemma NonEmptyHasMember(x: seq<int>)
    requires x != []
    ensures exists v :: v in x
  {
    var v := x[0];
    assert v in x;
  }

  /** Two increasing sequences with the same elements are equal. */
  lemma {:induction false} IncreasingUnique(x: seq<int>, y: seq<int>)
    requires Increasing(x) && Increasing(y)
    requires forall v :: v in x <==> v in y
    ensures x == y
    decreases |x|
  {
    if x != [] && y != [] {
      IncreasingHeadTail(x);
      IncreasingHeadTail(y);
      assert x[0] in x && y[0] in y;
      assert x[0] == y[0];
      assert Increasing(x[1..]) && Increasing(y[1..]);
      IncreasingUnique(x[1..], y[1..]);
      assert x == [x[0]] + x[1..] && y == [y[0]] + y[1..];
    } else if x != [] {
      NonEmptyHasMember(x);
    } else if y != [] {
      NonEmptyHasMember(y);
    }
  }

  /** Contracting the last `k` axes leaves the first `rank - k` free. */
  lemma FreeOfSuffix(n: nat, k: nat)
    requires k <= n
    ensures Free(n, Range(n - k, k)) == Range(0, n - k)
  {
    var axes := Range(n - k, k);
    forall v ensures v in Free(n, axes) <==> v in Range(0, n - k) {
      if 0 <= v < n - k {
        assert Range(0, n - k)[v] == v;
      }
      if n - k <= v < n {
        assert axes[v - (n - k)] == v;
      }
    }
    IncreasingUnique(Free(n, axes), Range(0, n - k));
  }

  /** Contracting the first `k` axes leaves the last `rank - k` free. */
  lemma FreeOfPrefix(n: nat, k: nat)
    requires k <= n
    ensures Free(n, Range(0, k)) == Range(k, n - k)
  {
    var axes := Range(0, k);
    forall v ensures v in Free(n, axes) <==> v in Range(k, n - k) {
      if k <= v < n {
        assert Range(k, n - k)[v - k] == v;
      }
      if 0 <= v < k {
        assert axes[v] == v;
      }
    }
    IncreasingUnique(Free(n, axes), Range(k, n - k));
  }

  /** Contracting the single axis `i` leaves the others free, ascending. */
  lemma FreeOfSingleAxes(n: nat, i: nat)
    requires i < n
    ensures Free(n, [i]) == Range(0, i) + Range(i + 1, n - i - 1)
  {
    var lower, upper := Range(0, i), Range(i + 1, n - i - 1);
    var expected := lower + upper;
    forall p, q | 0 <= p < q < |expected|
      ensures expected[p] < expected[q]
    {
      if q < i {
        assert expected[p] == p && expected[q] == q;
      } else if p < i {
        assert expected[p] == p && expected[q] == q + 1;
      } else {
        assert expected[p] == p + 1 && expected[q] == q + 1;
      }
    }
    forall v ensures v in Free(n, [i]) <==> v in expected {
      if 0 <= v < i {
        assert expected[v] == v;
      }
      if i < v < n {
        assert expected[v - 1] == v;
      }
      if v in expected {
        var k :| 0 <= k < |expected| && expected[k] == v;
        assert k < i ==> v == k;
        assert k >= i ==> v == k + 1;
      }
    }
    IncreasingUnique(Free(n, [i]), expected);
  }

  /** Gathering a run of consecutive axes is slicing. */
  lemma GatherRange(s: Shape, lo: nat, n: nat)
    requires lo + n <= |s|
    ensures InRange(Range(lo, n), |s|)
    ensures Gather(s, Range(lo, n)) == s[lo..lo + n]
  {
  }

  lemma GatherSkip(s: Shape, i: nat)
    requires i < |s|
    ensures InRange(Range(0, i) + Range(i + 1, |s| - i - 1), |s|)
    ensures Gather(s, Range(0, i) + Range(i + 1, |s| - i - 1)) == s[..i] + s[i + 1..]
  {
    var lower, upper := Range(0, i), Range(i + 1, |s| - i - 1);
    GatherRange(s, 0, i);
    GatherRange(s, i + 1, |s| - i - 1);
    GatherAppend(s, lower, upper);
    assert s[0..i] == s[..i] && s[i + 1..i + 1 + (|s| - i - 1)] == s[i + 1..];
  }

  /** Contracting the single axis `i` leaves all other extents, in order. */
  lemma FreeOfSingle(s: Shape, i: nat)
    requires i < |s|
    ensures InRange(Free(|s|, [i]), |s|)
    ensures Gather(s, Free(|s|, [i])) == s[..i] + s[i + 1..]
  {
    FreeOfSingleAxes(|s|, i);
    GatherSkip(s, i);
  }

  /**
   * Funcs.TensorDotAxes(a, int[]) as written: a pair of single axes, both
   * resolved against the rank of `a` — also the axis meant for `b`.
   */
  function TensorDotAxesPairAsWritten(rankA: nat, axes: seq<int>): (r: Result<(int, int)>)
    ensures r.Success? <==> |axes| == 2
    ensures r.Success? ==> Resolves(axes[0], rankA, r.value.0) && Resolves(axes[1], rankA, r.value.1)
  {
    if |axes| != 2 then Failure(InvalidArgument("invalid axes arg must be 2 in len"))
    else
      NormalizeResolves(axes[0], rankA);
      NormalizeResolves(axes[1], rankA);
      Success((Normalize(axes[0], rankA), Normalize(axes[1], rankA)))
  }

  /**
   * The pair form with each axis resolved against its own array's rank, as
   * numpy's tensordot does; the tensordot model uses this one.
   */
  function TensorDotAxesPair(rankA: nat, rankB: nat, axes: seq<int>): (r: Result<(int, int)>)
    ensures r.Success? <==> |axes| == 2
    ensures r.Success? ==> Resolves(axes[0], rankA, r.value.0) && Resolves(axes[1], rankB, r.value.1)
  {
    if |axes| != 2 then Failure(InvalidArgument("invalid axes arg must be 2 in len"))
    else
      NormalizeResolves(axes[0], rankA);
      NormalizeResolves(axes[1], rankB);
      Success((Normalize(axes[0], rankA), Normalize(axes[1], rankB)))
  }

  /** Resolves every axis of a list against `rank`. */
  function NormalizeAll(axes: seq<int>, rank: nat): seq<int>
  {
    seq(|axes|, k requires 0 <= k < |axes| => Normalize(axes[k], rank))
  }

  /**
   * Each resolved axis names the position its axis means, so the resolved
   * list names valid positions exactly when every axis lies in
   * `-rank .. rank - 1`.
   */
  lemma NormalizeAllResolves(axes: seq<int>, rank: nat)
    ensures |NormalizeAll(axes, rank)| == |axes|
    ensures forall k :: 0 <= k < |axes| ==> Resolves(axes[k], rank, NormalizeAll(axes, rank)[k])
    ensures InRange(NormalizeAll(axes, rank), rank) <==> forall k :: 0 <= k < |axes| ==> -(rank as int) <= axes[k] < rank
  {
    forall k | 0 <= k < |axes|
      ensures Resolves(axes[k], rank, NormalizeAll(axes, rank)[k])
    {
      NormalizeResolves(axes[k], rank);
    }
  }

  /**
   * Funcs.TensorDotAxes(a, int[][]) as written: exactly two lists of equal
   * length, both resolved against the rank of `a`. Fewer than two lists fail
   * on the index `axes[1]` before the explicit check.
   */
  function TensorDotAxesListsAsWritten(rankA: nat, axes: seq<seq<int>>): (r: Result<(seq<int>, seq<int>)>)
    ensures r.Success? <==> |axes| == 2 && |axes[0]| == |axes[1]|
    ensures |axes| < 2 ==> r == Failure(IndexOutOfRange)
    ensures r.Success? ==>
      && |r.value.0| == |r.value.1| == |axes[0]|
      && (forall k :: 0 <= k < |axes[0]| ==>
            Resolves(axes[0][k], rankA, r.value.0[k]) && Resolves(axes[1][k], rankA, r.value.1[k]))
      && (InRange(r.value.0, rankA) <==> forall k :: 0 <= k < |axes[0]| ==> -(rankA as int) <= axes[0][k] < rankA)
      && (InRange(r.value.1, rankA) <==> forall k :: 0 <= k < |axes[1]| ==> -(rankA as int) <= axes[1][k] < rankA)
  {
    if |axes| < 2 then Failure(IndexOutOfRange)
    else if |axes[0]| != |axes[1]| || |axes| != 2 then
      Failure(InvalidArgument("axes must have same length and be 2"))
    else
      NormalizeAllResolves(axes[0], rankA);
      NormalizeAllResolves(axes[1], rankA);
      Success((NormalizeAll(axes[0], rankA), NormalizeAll(axes[1], rankA)))
  }

  /** The list-pair form with `b`'s axes resolved against `b`'s rank; used by the tensordot model. */
  function TensorDotAxesLists(rankA: nat, rankB: nat, axes: seq<seq<int>>): (r: Result<(seq<int>, seq<int>)>)
    ensures r.Success? <==> |axes| == 2 && |axes[0]| == |axes[1]|
    ensures |axes| < 2 ==> r == Failure(IndexOutOfRange)
    ensures r.Success? ==>
      && |r.value.0| == |r.value.1| == |axes[0]|
      && (forall k :: 0 <= k < |axes[0]| ==>
            Resolves(axes[0][k], rankA, r.value.0[k]) && Resolves(axes[1][k], rankB, r.value.1[k]))
      && (InRange(r.value.0, rankA) <==> forall k :: 0 <= k < |axes[0]| ==> -(rankA as int) <= axes[0][k] < rankA)
      && (InRange(r.value.1, rankB) <==> forall k :: 0 <= k < |axes[1]| ==> -(rankB as int) <= axes[1][k] < rankB)
  {
    if |axes| < 2 then Failure(IndexOutOfRange)
    else if |axes[0]| != |axes[1]| || |axes| != 2 then
      Failure(InvalidArgument("axes must have same length and be 2"))
    else
      NormalizeAllResolves(axes[0], rankA);
      NormalizeAllResolves(axes[1], rankB);
      Success((NormalizeAll(axes[0], rankA), NormalizeAll(axes[1], rankB)))
  }

  /** The two resolutions differ only for a negative axis of `b` when the ranks differ. */
  lemma AxesResolutionAgrees(rankA: nat, rankB: nat, axes: seq<int>)
    requires |axes| == 2 && (axes[1] >= 0 || rankA == rankB)
    ensures TensorDotAxesPairAsWritten(rankA, axes) == TensorDotAxesPair(rankA, rankB, axes)
  {
  }

  /**
   * The list-pair counterpart: the written and corrected resolutions differ
   * only when some axis of `b` is negative and the ranks differ.
   */
  lemma ListAxesResolutionAgrees(rankA: nat, rankB: nat, axes: seq<seq<int>>)
    requires rankA == rankB || (|axes| >= 2 ==> forall k :: 0 <= k < |axes[1]| ==> axes[1][k] >= 0)
    ensures TensorDotAxesListsAsWritten(rankA, axes) == TensorDotAxesLists(rankA, rankB, axes)
  {
    if |axes| >= 2 {
      assert NormalizeAll(axes[1], rankA) == NormalizeAll(axes[1], rankB);
    }
  }

  /**
   * The input that shows the discrepancy: `a` of shape [2,3,4], `b` of shape
   * [4,5], axes (2, -2). As written, b's axis resolves to 1 (extent 5, which
   * does not match a's 4); resolved against b's own rank it is 0 (extent 4),
   * and the contraction yields shape [2,3,5].
   */
  lemma PairAxesUseRankOfA()
    ensures TensorDotAxesPairAsWritten(3, [2, -2]) == Success((2, 1))
    ensures [4, 5][1] != [2, 3, 4][2]
    ensures TensorDotAxesPair(3, 2, [2, -2]) == Success((2, 0))
    ensures TensorDotPair([2, 3, 4], [4, 5], [2, -2]).Success?
    ensures TensorDotPair([2, 3, 4], [4, 5], [2, -2]).value.shape == [2, 3, 5]
  {
    FreeOfSingle([2, 3, 4], 2);
    FreeOfSingle([4, 5], 0);
  }

  /**
   * The same input for the list-pair overload: axes ([2], [-2]) with `a` of
   * rank 3 and `b` of rank 2 name b's axis 1 as written, axis 0 when resolved
   * against b's own rank.
   */
  lemma ListAxesUseRankOfA()
    ensures TensorDotAxesListsAsWritten(3, [[2], [-2]]) == Success(([2], [1]))
    ensures TensorDotAxesLists(3, 2, [[2], [-2]]) == Success(([2], [0]))
  {
    assert NormalizeAll([-2], 3) == [1];
    assert NormalizeAll([-2], 2) == [0];
    assert NormalizeAll([2], 3) == [2];
  }

  // ---------------------------------------------------------------------------
  // Tensordot: permutation and 2-D reshape
  // ---------------------------------------------------------------------------

  /**
   * How one operand is prepared for the matmul: the axis permutation, whether
   * a transpose is performed, the 2-D shape it is reshaped to, and the extents
   * of its free axes.
   */
  datatype Reshaped = Reshaped(perms: seq<int>, transposed: bool, matrix: Shape, freeDims: Shape)

  /**
   * Funcs.TensorDotReshape(a, int[] axes, flipped): the free axes are the
   * ones not contracted, ascending; they go first (or last, when flipped) in
   * the permutation, and the 2-D shape is [prod_free, prod_axes] (swapped when
   * flipped). An axis outside the array fails on the shape lookup; a repeated
   * axis makes the permutation longer than the rank, which the array engine's
   * transpose rejects.
   */
  function TensorDotReshape(shape: Shape, axes: seq<int>, flipped: bool): (r: Result<Reshaped>)
    ensures r.Success? <==> InRange(axes, |shape|) && Distinct(axes)
    ensures r.Success? ==>
      && IsPermutation(r.value.perms, |shape|)
      && r.value.perms == (if flipped then axes + Free(|shape|, axes) else Free(|shape|, axes) + axes)
      && (r.value.transposed <==> r.value.perms != Range(0, |shape|))
      && r.value.freeDims == Gather(shape, Free(|shape|, axes))
      && |r.value.matrix| == 2
      && r.value.matrix[if flipped then 1 else 0] == Prod(r.value.freeDims)
      && r.value.matrix[if flipped then 0 else 1] == Prod(Gather(shape, axes))
      && Prod(r.value.matrix) == Prod(shape)
      && Prod(Gather(shape, r.value.perms)) == Prod(shape)
  {
    if !InRange(axes, |shape|) then Failure(IndexOutOfRange)
    else if !Distinct(axes) then Failure(ShapeMismatch)
    else
      PlanFacts(shape, axes, flipped);
      Success(Plan(shape, axes, flipped))
  }

  /** The permutation and 2-D shape built for valid, distinct axes. */
  function Plan(shape: Shape, axes: seq<int>, flipped: bool): Reshaped
    requires InRange(axes, |shape|) && Distinct(axes)
  {
    var free := Free(|shape|, axes);
    var freeDims := Gather(shape, free);
    var prodFree := Prod(freeDims);
    var prodAxes := Prod(Gather(shape, axes));
    var perms := if flipped then axes + free else free + axes;
    var matrix := if flipped then [prodAxes, prodFree] else [prodFree, prodAxes];
    Reshaped(perms, perms != Range(0, |shape|), matrix, freeDims)
  }

  lemma PlanFacts(shape: Shape, axes: seq<int>, flipped: bool)
    requires InRange(axes, |shape|) && Distinct(axes)
    ensures var p := Plan(shape, axes, flipped);
      && IsPermutation(p.perms, |shape|)
      && Prod(p.matrix) == Prod(shape)
      && Prod(Gather(shape, p.perms)) == Prod(shape)
  {
    var p := Plan(shape, axes, flipped);
    var free := Free(|shape|, axes);
    assert p.perms == if flipped then axes + free else free + axes;
    PermsKeepSize(shape, axes, p.perms);
    var prodFree, prodAxes := Prod(Gather(shape, free)), Prod(Gather(shape, axes));
    assert p.matrix == if flipped then [prodAxes, prodFree] else [prodFree, prodAxes];
    MatrixKeepsSize(shape, axes, p.matrix);
  }

  lemma MatrixKeepsSize(shape: Shape, axes: seq<int>, matrix: Shape)
    requires InRange(axes, |shape|) && Distinct(axes)
    requires var prodFree, prodAxes := Prod(Gather(shape, Free(|shape|, axes))), Prod(Gather(shape, axes));
      matrix == [prodFree, prodAxes] || matrix == [prodAxes, prodFree]
    ensures Prod(matrix) == Prod(shape)
  {
    var pf, pa := Prod(Gather(shape, Free(|shape|, axes))), Prod(Gather(shape, axes));
    FreeAndAxesProd(shape, axes);
    MatrixProd(matrix);
    if matrix == [pf, pa] {
      assert matrix[0] * matrix[1] == pf * pa;
    } else {
      assert matrix[0] * matrix[1] == pa * pf == pf * pa;
    }
  }

  lemma PermsKeepSize(shape: Shape, axes: seq<int>, perms: seq<int>)
    requires InRange(axes, |shape|) && Distinct(axes)
    requires perms == Free(|shape|, axes) + axes || perms == axes + Free(|shape|, axes)
    ensures IsPermutation(perms, |shape|)
    ensures Prod(Gather(shape, perms)) == Prod(shape)
  {
    var free := Free(|shape|, axes);
    FreeAndAxesCover(|shape|, axes);
    assert multiset(perms) == multiset(free) + multiset(axes);
    GatherAll(shape);
    GatherPermProd(shape, Range(0, |shape|), perms);
  }

  lemma MatrixProd(m: Shape)
    requires |m| == 2
    ensures Prod(m) == m[0] * m[1]
  {
    assert m[1..][1..] == [];
    assert Prod(m[1..]) == m[1] * Prod(m[1..][1..]);
  }

  /**
   * Funcs.TensorDotReshape(a, int axis, flipped): the single-axis overload.
   * An axis outside the array fails on the shape lookup.
   */
  function TensorDotReshapeAt(shape: Shape, axis: int, flipped: bool): (r: Result<Reshaped>)
    ensures r.Success? <==> 0 <= axis < |shape|
    ensures r.Success? ==>
      && r.value.freeDims == shape[..axis] + shape[axis + 1..]
      && |r.value.matrix| == 2
      && r.value.matrix[if flipped then 1 else 0] == Prod(r.value.freeDims)
      && r.value.matrix[if flipped then 0 else 1] == shape[axis]
  {
    if !(0 <= axis < |shape|) then Failure(IndexOutOfRange)
    else
      FreeOfSingle(shape, axis);
      Success(PlanAt(shape, axis, flipped))
  }

  /** The single-axis permutation and 2-D shape. */
  function PlanAt(shape: Shape, axis: nat, flipped: bool): Reshaped
    requires axis < |shape|
  {
    var free := Free(|shape|, [axis]);
    var freeDims := Gather(shape, free);
    var prodFree := Prod(freeDims);
    var prodAxes := shape[axis];
    var perms := if flipped then [axis] + free else free + [axis];
    var matrix := if flipped then [prodAxes, prodFree] else [prodFree, prodAxes];
    Reshaped(perms, perms != Range(0, |shape|), matrix, freeDims)
  }

  /** The single-axis overload agrees with the list overload given that one axis. */
  lemma TensorDotReshapeAtAgrees(shape: Shape, axis: int, flipped: bool)
    ensures TensorDotReshapeAt(shape, axis, flipped) == TensorDotReshape(shape, [axis], flipped)
  {
    if 0 <= axis < |shape| {
      assert Gather(shape, [axis]) == [shape[axis]];
      assert Prod([shape[axis]]) == shape[axis];
      assert PlanAt(shape, axis, flipped) == Plan(shape, [axis], flipped);
    }
  }

  // ---------------------------------------------------------------------------
  // Tensordot: matmul and final reshape
  // ---------------------------------------------------------------------------

  /**
   * The outcome of one tensordot: how each operand was prepared, the matmul
   * output shape, whether it was reshaped, and the final shape.
   */
  datatype Contraction = Contraction(a: Reshaped, b: Reshaped, product: Shape, reshaped: bool, shape: Shape)

  /**
   * The common tail of the three TensorDot overloads: matmul of
   * [prod_free_a, prod_axes_a] by [prod_axes_b, prod_free_b], then a reshape to
   * free(a) ++ free(b) when that differs from the matmul output.
   */
  function MatmulReshape(ra: Reshaped, rb: Reshaped): (r: Result<Contraction>)
    requires |ra.matrix| == 2 && |rb.matrix| == 2
    requires ra.matrix[0] == Prod(ra.freeDims) && rb.matrix[1] == Prod(rb.freeDims)
    ensures r.Success? <==> ra.matrix[1] == rb.matrix[0]
    ensures r.Success? ==>
      && r.value.product == [ra.matrix[0], rb.matrix[1]]
      && r.value.shape == ra.freeDims + rb.freeDims
      && (r.value.reshaped <==> r.value.product != r.value.shape)
      && Prod(r.value.shape) == Prod(r.value.product)
  {
    if ra.matrix[1] != rb.matrix[0] then Failure(ShapeMismatch)
    else
      var product := [ra.matrix[0], rb.matrix[1]];
      var shape := ra.freeDims + rb.freeDims;
      ProdAppend(ra.freeDims, rb.freeDims);
      MatrixProd(product);
      Success(Contraction(ra, rb, product, product != shape, shape))
  }

  /**
   * Funcs.TensorDot(a, b, int k): the result has a's leading rank(a)-k
   * extents followed by b's trailing ones; it exists exactly when `k` is a
   * valid count for both arrays and the contracted extents span equally many
   * elements (the matmul checks only that product).
   */
  function TensorDotCount(a: Shape, b: Shape, k: int): (r: Result<Contraction>)
    ensures r.Success? <==>
      0 <= k <= |a| && k <= |b| && Prod(a[|a| - k..]) == Prod(b[..k])
    ensures r.Success? ==>
      && r.value.shape == a[..|a| - k] + b[k..]
      && Prod(r.value.shape) == Prod(r.value.product)
  {
    var axes :- TensorDotAxesCount(|a|, k);
    var rb :- TensorDotReshape(b, axes.1, true);
    // a's trailing axes are always valid and distinct, so its reshape succeeds
    var ra := TensorDotReshape(a, axes.0, false).value;
    FreeOfPrefixGather(b, k);
    FreeOfSuffixGather(a, k);
    MatmulReshape(ra, rb)
  }

  /** Gathering the axes before and from `m` gives the two slices of the shape. */
  lemma GatherSplit(s: Shape, m: nat)
    requires m <= |s|
    ensures InRange(Range(0, m), |s|) && InRange(Range(m, |s| - m), |s|)
    ensures Gather(s, Range(0, m)) == s[..m]
    ensures Gather(s, Range(m, |s| - m)) == s[m..]
  {
    GatherRange(s, 0, m);
    GatherRange(s, m, |s| - m);
    assert s[0..m] == s[..m] && s[m..m + (|s| - m)] == s[m..];
  }

  lemma FreeOfSuffixGather(s: Shape, k: nat)
    requires k <= |s|
    ensures InRange(Range(|s| - k, k), |s|) && InRange(Range(0, |s| - k), |s|)
    ensures Gather(s, Free(|s|, Range(|s| - k, k))) == s[..|s| - k]
    ensures Gather(s, Range(|s| - k, k)) == s[|s| - k..]
  {
    var m := |s| - k;
    FreeOfSuffix(|s|, k);
    assert Free(|s|, Range(m, k)) == Range(0, m);
    GatherSplit(s, m);
    assert |s| - m == k;
  }

  lemma FreeOfPrefixGather(s: Shape, k: int)
    ensures 0 <= k <= |s| ==>
      && InRange(Range(0, k), |s|)
      && Gather(s, Free(|s|, Range(0, k))) == s[k..]
      && Gather(s, Range(0, k)) == s[..k]
    ensures (0 <= k && !InRange(Range(0, k), |s|)) <==> k > |s|
  {
    if 0 <= k <= |s| {
      FreeOfPrefix(|s|, k);
      GatherSplit(s, k);
    }
    if k > |s| {
      assert Range(0, k)[|s|] == |s|;
    }
  }

  /**
   * Funcs.TensorDot(a, b, int[] axes): contracts axis i of `a` with axis j of
   * `b`; the result is `a` without axis i followed by `b` without axis j.
   */
  function TensorDotPair(a: Shape, b: Shape, axes: seq<int>): (r: Result<Contraction>)
    ensures |axes| != 2 ==> r.Failure?
    ensures |axes| == 2 ==>
      var i, j := Normalize(axes[0], |a|), Normalize(axes[1], |b|);
      && (r.Success? <==> 0 <= i < |a| && 0 <= j < |b| && a[i] == b[j])
      && (r.Success? ==>
            && r.value.shape == a[..i] + a[i + 1..] + b[..j] + b[j + 1..]
            && Prod(r.value.shape) == Prod(r.value.product))
  {
    var pair :- TensorDotAxesPair(|a|, |b|, axes);
    assert pair == (Normalize(axes[0], |a|), Normalize(axes[1], |b|));
    var ra :- TensorDotReshapeAt(a, pair.0, false);
    var rb :- TensorDotReshapeAt(b, pair.1, true);
    MatmulReshape(ra, rb)
  }

  /**
   * Contracting the last axis of `a` with the first of `b` (axes `{-1, 0}`),
   * as Linear does: a's leading extents followed by b's trailing ones.
   */
  lemma TensorDotLastFirst(a: Shape, b: Shape)
    ensures TensorDotPair(a, b, [-1, 0]).Success? <==> |a| > 0 && |b| > 0 && a[|a| - 1] == b[0]
    ensures TensorDotPair(a, b, [-1, 0]).Success? ==>
      TensorDotPair(a, b, [-1, 0]).value.shape == a[..|a| - 1] + b[1..]
  {
    var axes := [-1, 0];
    assert Normalize(axes[0], |a|) == |a| - 1 && Normalize(axes[1], |b|) == 0;
    if |a| > 0 && |b| > 0 {
      assert a[|a| - 1 + 1..] == [] && b[..0] == [];
      assert a[..|a| - 1] + a[|a| - 1 + 1..] + b[..0] + b[0 + 1..] == a[..|a| - 1] + b[1..];
    }
  }

  /**
   * Funcs.TensorDot(a, b, int[][] axes): contracts the listed axes pairwise;
   * the result is a's free extents followed by b's free extents, and it exists
   * exactly when both axis lists are valid and span equally many elements.
   */
  function TensorDotLists(a: Shape, b: Shape, axes: seq<seq<int>>): (r: Result<Contraction>)
    ensures r.Success? ==>
      && |axes| == 2 && |axes[0]| == |axes[1]|
      && var aAxes, bAxes := NormalizeAll(axes[0], |a|), NormalizeAll(axes[1], |b|);
         && InRange(aAxes, |a|) && Distinct(aAxes) && InRange(bAxes, |b|) && Distinct(bAxes)
         && Prod(Gather(a, aAxes)) == Prod(Gather(b, bAxes))
         && r.value.shape == Gather(a, Free(|a|, aAxes)) + Gather(b, Free(|b|, bAxes))
         && Prod(r.value.shape) == Prod(r.value.product)
    ensures |axes| == 2 && |axes[0]| == |axes[1]| ==>
      var aAxes, bAxes := NormalizeAll(axes[0], |a|), NormalizeAll(axes[1], |b|);
      (InRange(aAxes, |a|) && Distinct(aAxes) && InRange(bAxes, |b|) && Distinct(bAxes)
       && Prod(Gather(a, aAxes)) == Prod(Gather(b, bAxes))) ==> r.Success?
  {
    var lists :- TensorDotAxesLists(|a|, |b|, axes);
    assert lists.0 == NormalizeAll(axes[0], |a|) && lists.1 == NormalizeAll(axes[1], |b|);
    var ra :- TensorDotReshape(a, lists.0, false);
    var rb :- TensorDotReshape(b, lists.1, true);
    MatmulReshape(ra, rb)
  }

  /** The left operand of a plain matrix product keeps its axis order and shape. */
  lemma MatrixLeftPlan(m: nat, k: nat)
    ensures Plan([m, k], [1], false) == Reshaped([0, 1], false, [m, k], [m])
  {
    var free := Free(2, [1]);
    assert Free(1, [1]) == Free(0, [1]) + [0] == [0];
    assert free == [0];
    var freeDims := Gather([m, k], free);
    assert freeDims == [m];
    assert Gather([m, k], [1]) == [k];
    assert [k][1..] == [] && [m][1..] == [];
    assert Prod([m]) == m && Prod([k]) == k;
    assert free + [1] == [0, 1] == Range(0, 2);
  }

  /** The right operand of a plain matrix product keeps its axis order and shape. */
  lemma MatrixRightPlan(k: nat, n: nat)
    ensures Plan([k, n], [0], true) == Reshaped([0, 1], false, [k, n], [n])
  {
    assert Free(1, [0]) == Free(0, [0]) == [];
    assert Free(2, [0]) == [1];
    assert Range(0, 2) == [0, 1] == [0] + [1];
    assert Gather([k, n], [0]) == [k] && Gather([k, n], [1]) == [n];
    assert [k][1..] == [] && [n][1..] == [];
    assert Prod([n]) == n && Prod([k]) == k;
  }

  /** Neither operand of a plain matrix product is permuted or reshaped. */
  lemma MatrixPlans(m: nat, k: nat, n: nat)
    ensures TensorDotReshape([m, k], [1], false) == Success(Reshaped([0, 1], false, [m, k], [m]))
    ensures TensorDotReshape([k, n], [0], true) == Success(Reshaped([0, 1], false, [k, n], [n]))
  {
    MatrixLeftPlan(m, k);
    MatrixRightPlan(k, n);
    assert InRange([1], 2) && Distinct([1]) && InRange([0], 2) && Distinct([0]);
  }

  /**
   * For a 2-D `a` (m by k) and `b` (k by n) contracted over one axis, both
   * operands keep their axis order, no transpose or final reshape is needed,
   * and the result is the m by n matrix product.
   */
  lemma TensorDotMatmul(m: nat, k: nat, n: nat)
    ensures TensorDotCount([m, k], [k, n], 1).Success?
    ensures var c := TensorDotCount([m, k], [k, n], 1).value;
      && c.shape == [m, n] && c.product == [m, n]
      && !c.a.transposed && !c.b.transposed && !c.reshaped
  {
    var ra, rb := Reshaped([0, 1], false, [m, k], [m]), Reshaped([0, 1], false, [k, n], [n]);
    MatrixPlans(m, k, n);
    MatrixCountSteps(m, k, n);
    assert MatmulReshape(ra, rb) == Success(Contraction(ra, rb, [m, n], false, [m, n]));
  }

  /** Contracting one axis of two matrices reshapes the last axis of `a` and the first of `b`. */
  lemma MatrixCountSteps(m: nat, k: nat, n: nat)
    ensures TensorDotCount([m, k], [k, n], 1) ==
      MatmulReshape(TensorDotReshape([m, k], [1], false).value, TensorDotReshape([k, n], [0], true).value)
  {
    MatrixPlans(m, k, n);
    CountSteps([m, k], [k, n], 1);
    assert Range(1, 1) == [1] && Range(0, 1) == [0];
  }

  /** The count form of tensordot reshapes a's last `k` axes and b's first `k` axes. */
  lemma CountSteps(a: Shape, b: Shape, k: nat)
    requires k <= |a| && k <= |b|
    ensures TensorDotReshape(a, Range(|a| - k, k), false).Success?
    ensures TensorDotReshape(b, Range(0, k), true).Success?
    ensures TensorDotCount(a, b, k) ==
      MatmulReshape(TensorDotReshape(a, Range(|a| - k, k), false).value, TensorDotReshape(b, Range(0, k), true).value)
  {
    var axes := TensorDotAxesCount(|a|, k);
    assert axes == Success((Range(|a| - k, k), Range(0, k)));
  }

}
