/**
 * Shapes and axis lists: the integer algebra the autograd engine performs on
 * array shapes before it hands an array to the array engine.
 */
module Shapes {

  /** A shape: one non-negative extent per dimension. */
  type Shape = seq<nat>

  /** The number of elements of an array of shape `s`. */
  function Prod(s: seq<nat>): nat
  {
    if s == [] then 1 else s[0] * Prod(s[1..])
  }

  /** `n` dimensions of extent one. */
  function Ones(n: nat): (r: Shape)
  {
    seq(n, _ => 1)
  }

  /** The axes of `s` in reverse order (the transpose `.T`). */
  function Reversed(s: Shape): (r: Shape)
    ensures |r| == |s|
  {
    seq(|s|, k requires 0 <= k < |s| => s[|s| - 1 - k])
  }

  /** The consecutive integers `lo, lo + 1, ..., lo + n - 1`. */
  function Range(lo: int, n: nat): seq<int>
  {
    seq(n, k => lo + k)
  }

  /** Every entry of `idx` is an index of a rank-`n` array. */
  predicate InRange(idx: seq<int>, n: nat)
  {
    forall k :: 0 <= k < |idx| ==> 0 <= idx[k] < n
  }

  predicate Distinct(idx: seq<int>)
  {
    forall i, j :: 0 <= i < j < |idx| ==> idx[i] != idx[j]
  }

  predicate Increasing(idx: seq<int>)
  {
    forall i, j :: 0 <= i < j < |idx| ==> idx[i] < idx[j]
  }

  /** `p` lists every axis of a rank-`n` array exactly once. */
  predicate IsPermutation(p: seq<int>, n: nat)
  {
    |p| == n && InRange(p, n) && Distinct(p)
  }

  /** The extents of `s` at the axes `idx`, in the order of `idx`. */
  function Gather(s: Shape, idx: seq<int>): (r: Shape)
    requires InRange(idx, |s|)
  {
    seq(|idx|, k requires 0 <= k < |idx| => s[idx[k]])
  }

  /** The axes `0 .. n-1` that do not occur in `axes`, ascending. */
  function Free(n: nat, axes: seq<int>): (r: seq<int>)
    ensures Increasing(r)
    ensures InRange(r, n)
    ensures forall v :: v in r <==> 0 <= v < n && v !in axes
  {
    if n == 0 then []
    else
      var prefix := Free(n - 1, axes);
      if n - 1 in axes then prefix else prefix + [n - 1]
  }

  lemma {:induction false} ProdAppend(a: Shape, b: Shape)
    ensures Prod(a + b) == Prod(a) * Prod(b)
  {
    if a != [] {
      assert (a + b)[1..] == a[1..] + b;
      ProdAppend(a[1..], b);
      calc {
        Prod(a + b);
        a[0] * Prod(a[1..] + b);
        a[0] * (Prod(a[1..]) * Prod(b));
        (a[0] * Prod(a[1..])) * Prod(b);
      }
    } else {
      assert a + b == b;
    }
  }

  /** Appending one extent multiplies the element count by it. */
  lemma ProdSnoc(a: Shape, x: nat)
    ensures Prod(a + [x]) == Prod(a) * x
  {
    ProdAppend(a, [x]);
    assert [x][1..] == [];
  }

  /** An extent anywhere in a shape factors out of its element count. */
  lemma {:induction false} ProdMiddle(pre: Shape, x: nat, post: Shape)
    ensures Prod(pre + [x] + post) == x * Prod(pre + post)
  {
    if pre == [] {
      assert pre + [x] + post == [x] + post && ([x] + post)[1..] == post;
      assert pre + post == post;
    } else {
      assert (pre + [x] + post)[1..] == pre[1..] + [x] + post;
      assert (pre + post)[1..] == pre[1..] + post;
      ProdMiddle(pre[1..], x, post);
      var p, q := pre[0], Prod(pre[1..] + post);
      assert p * (x * q) == x * (p * q);
    }
  }

  lemma {:induction false} ProdOnes(n: nat)
    ensures Prod(Ones(n)) == 1
  {
    if n > 0 {
      assert Ones(n)[1..] == Ones(n - 1);
      ProdOnes(n - 1);
    }
  }

  lemma GatherAppend(s: Shape, x: seq<int>, y: seq<int>)
    requires InRange(x, |s|) && InRange(y, |s|)
    ensures InRange(x + y, |s|)
    ensures Gather(s, x + y) == Gather(s, x) + Gather(s, y)
  {
  }

  lemma GatherAll(s: Shape)
    ensures InRange(Range(0, |s|), |s|)
    ensures Gather(s, Range(0, |s|)) == s
  {
  }

  /** A distinct sequence holds each of its elements exactly once. */
  lemma {:induction false} DistinctMultiplicity(x: seq<int>, v: int)
    requires Distinct(x)
    ensures multiset(x)[v] == if v in x then 1 else 0
  {
    if x != [] {
      assert x == [x[0]] + x[1..];
      assert Distinct(x[1..]);
      DistinctMultiplicity(x[1..], v);
      assert x[0] !in x[1..];
    }
  }

  /** Two duplicate-free sequences with the same elements are permutations of each other. */
  lemma SameElementsSameMultiset(x: seq<int>, y: seq<int>)
    requires Distinct(x) && Distinct(y)
    requires forall v :: v in x <==> v in y
    ensures multiset(x) == multiset(y)
  {
    forall v
      ensures multiset(x)[v] == multiset(y)[v]
    {
      DistinctMultiplicity(x, v);
      DistinctMultiplicity(y, v);
    }
  }

  /** Taking the first element of `x` out of both of two permutations of each other. */
  lemma MultisetRemoveFirst(x: seq<int>, y: seq<int>, j: nat)
    requires multiset(x) == multiset(y) && x != [] && j < |y| && y[j] == x[0]
    ensures multiset(x[1..]) == multiset(y[..j] + y[j + 1..])
  {
    var v := x[0];
    assert y == y[..j] + [v] + y[j + 1..];
    assert x == [v] + x[1..];
    calc {
      multiset(y[..j] + y[j + 1..]);
      multiset(y[..j]) + multiset(y[j + 1..]);
      multiset(y[..j]) + multiset([v]) + multiset(y[j + 1..]) - multiset{v};
      multiset(y) - multiset{v};
      multiset(x) - multiset{v};
      multiset([v]) + multiset(x[1..]) - multiset{v};
      multiset(x[1..]);
    }
  }

  /** The extent at position `j` of the gathered axes factors out of their product. */
  lemma GatherProdSplit(s: Shape, y: seq<int>, j: nat)
    requires InRange(y, |s|) && j < |y|
    ensures InRange(y[..j] + y[j + 1..], |s|)
    ensures Prod(Gather(s, y)) == s[y[j]] * Prod(Gather(s, y[..j] + y[j + 1..]))
  {
    var x, pre, post := s[y[j]], Gather(s, y[..j]), Gather(s, y[j + 1..]);
    assert Gather(s, y) == pre + [x] + post;
    assert Gather(s, y[..j] + y[j + 1..]) == pre + post;
    ProdMiddle(pre, x, post);
  }

  /**
   * Reordering the axes does not change the number of elements they span:
   * the product of gathered extents depends only on the multiset of axes.
   */
  lemma {:induction false} GatherPermProd(s: Shape, x: seq<int>, y: seq<int>)
    requires InRange(x, |s|) && multiset(x) == multiset(y)
    ensures InRange(y, |s|)
    ensures Prod(Gather(s, x)) == Prod(Gather(s, y))
    decreases |x|
  {
    forall k | 0 <= k < |y|
      ensures 0 <= y[k] < |s|
    {
      assert y[k] in multiset(y);
      assert y[k] in multiset(x);
      var i :| 0 <= i < |x| && x[i] == y[k];
    }
    if x == [] {
      assert |y| == |multiset(y)| == 0;
    } else {
      assert x[0] in multiset(y);
      var j :| 0 <= j < |y| && y[j] == x[0];
      MultisetRemoveFirst(x, y, j);
      GatherPermProd(s, x[1..], y[..j] + y[j + 1..]);
      GatherProdSplit(s, x, 0);
      GatherProdSplit(s, y, j);
      assert x[..0] + x[1..] == x[1..];
    }
  }

  lemma DisjointConcatDistinct(x: seq<int>, y: seq<int>)
    requires Distinct(x) && Distinct(y)
    requires forall v :: v in x ==> v !in y
    ensures Distinct(x + y)
  {
    forall i, j | 0 <= i < j < |x + y|
      ensures (x + y)[i] != (x + y)[j]
    {
      if j >= |x| && i < |x| {
        assert x[i] in x;
        assert y[j - |x|] in y;
      }
    }
  }

  lemma FreeAndAxesElements(n: nat, axes: seq<int>)
    requires InRange(axes, n)
    ensures forall v :: v in Free(n, axes) + axes <==> v in Range(0, n)
  {
    var range := Range(0, n);
    forall v ensures v in Free(n, axes) + axes <==> v in range {
      if 0 <= v < n {
        assert range[v] == v;
      }
      if v in axes {
        var k :| 0 <= k < |axes| && axes[k] == v;
      }
    }
  }

  /** The free axes and the listed axes together name every axis once. */
  lemma FreeAndAxesCover(n: nat, axes: seq<int>)
    requires InRange(axes, n) && Distinct(axes)
    ensures IsPermutation(Free(n, axes) + axes, n)
    ensures IsPermutation(axes + Free(n, axes), n)
    ensures multiset(Free(n, axes) + axes) == multiset(Range(0, n))
  {
    var free := Free(n, axes);
    var all := free + axes;
    var range := Range(0, n);
    FreeAndAxesElements(n, axes);
    DisjointConcatDistinct(free, axes);
    DisjointConcatDistinct(axes, free);
    SameElementsSameMultiset(all, range);
    assert |all| == |multiset(all)| == |multiset(range)| == n;
    assert InRange(all, n);
    assert InRange(axes + free, n);
  }

  /**
   * Splitting the axes of `s` into the free ones and the listed ones: together
   * they span every element.
   */
  lemma FreeAndAxesProd(s: Shape, axes: seq<int>)
    requires InRange(axes, |s|) && Distinct(axes)
    ensures Prod(Gather(s, Free(|s|, axes))) * Prod(Gather(s, axes)) == Prod(s)
  {
    var free := Free(|s|, axes);
    FreeAndAxesCover(|s|, axes);
    GatherAll(s);
    GatherPermProd(s, Range(0, |s|), free + axes);
    GatherAppend(s, free, axes);
    ProdAppend(Gather(s, free), Gather(s, axes));
  }
}
