/** The divide-and-conquer fold: the left fold of the projected values, for every associative operation. */
module ParallelFold {
  import opened Options
  import opened ScanCorrect
  import opened Powers

  function Map<S, T>(proj: S -> T, xs: seq<S>): (ys: seq<T>)
    ensures |ys| == |xs| && forall i :: 0 <= i < |xs| ==> ys[i] == proj(xs[i])
  {
    seq(|xs|, i requires 0 <= i < |xs| => proj(xs[i]))
  }

  /** The tree of combinations that the recursion builds, whatever the operation. */
  function Tree<T>(bop: (T, T) -> T, ys: seq<T>, head: nat, tail: nat, n: nat): T
    requires head < tail <= |ys| && n >= 1
    decreases tail - head
  {
    var len := tail - head;
    if len <= n then Fold(bop, ys, head, tail)
    else
      var mid := head + len / 2;
      bop(Tree(bop, ys, head, mid, n), Tree(bop, ys, mid, tail, n))
  }

  /** The chunked version: a loop over a chunk, else two halves. */
  method Chunked<S, T>(bop: (T, T) -> T, proj: S -> T, xs: seq<S>, head: nat, tail: nat, n: nat) returns (acc: T)
    requires head < tail <= |xs| && n > 1
    ensures acc == Tree(bop, Map(proj, xs), head, tail, n)
    decreases tail - head
  {
    var len := tail - head;
    if len <= n {
      acc := proj(xs[head]);
      var i := head + 1;
      while i != tail
        invariant head < i <= tail && acc == Fold(bop, Map(proj, xs), head, i)
      {
        acc := bop(acc, proj(xs[i]));
        i := i + 1;
      }
    } else {
      var mid := head + len / 2;
      var lhs := Chunked(bop, proj, xs, head, mid, n);
      var rhs := Chunked(bop, proj, xs, mid, tail, n);
      acc := bop(lhs, rhs);
    }
  }

  /** The version without chunks. */
  method Single<S, T>(bop: (T, T) -> T, proj: S -> T, xs: seq<S>, head: nat, tail: nat) returns (acc: T)
    requires head < tail <= |xs|
    ensures acc == Tree(bop, Map(proj, xs), head, tail, 1)
    decreases tail - head
  {
    var len := tail - head;
    if len == 1 {
      acc := proj(xs[head]);
    } else {
      var mid := head + len / 2;
      var lhs := Single(bop, proj, xs, head, mid);
      var rhs := Single(bop, proj, xs, mid, tail);
      acc := bop(lhs, rhs);
    }
  }

  /** lf::fold: nothing for an empty range, else the left fold. */
  method ParallelFold<S, T(!new)>(bop: (T, T) -> T, proj: S -> T, xs: seq<S>, n: nat) returns (r: Option<T>)
    requires n >= 1
    ensures xs == [] <==> r == None
    ensures Associative(bop) && xs != [] ==> r == Some(Fold(bop, Map(proj, xs), 0, |xs|))
    ensures 0 < |xs| <= n ==> r == Some(Fold(bop, Map(proj, xs), 0, |xs|))
  {
    if |xs| == 0 {
      r := None;
    } else {
      var acc;
      if n == 1 {
        acc := Single(bop, proj, xs, 0, |xs|);
      } else {
        acc := Chunked(bop, proj, xs, 0, |xs|, n);
      }
      r := Some(acc);
      if Associative(bop) { TreeIsFold(bop, Map(proj, xs), 0, |xs|, n); }
    }
  }

  lemma {:induction false} TreeIsFold<T(!new)>(bop: (T, T) -> T, ys: seq<T>, head: nat, tail: nat, n: nat)
    requires Associative(bop) && head < tail <= |ys| && n >= 1
    ensures Tree(bop, ys, head, tail, n) == Fold(bop, ys, head, tail)
    decreases tail - head
  {
    if tail - head > n {
      var mid := head + (tail - head) / 2;
      TreeIsFold(bop, ys, head, mid, n);
      TreeIsFold(bop, ys, mid, tail, n);
      FoldJoins(bop, ys, head, mid, tail);
    }
  }

  /** The tree always agrees with the left fold. */
  ghost predicate AlwaysFolds<T(!new)>(bop: (T, T) -> T) {
    forall ys: seq<T>, n: nat :: ys != [] && n >= 1 ==> Tree(bop, ys, 0, |ys|, n) == Fold(bop, ys, 0, |ys|)
  }

  /** The operations for which the parallel fold is the left fold are exactly the associative ones. */
  lemma FoldsIffAssociative<T(!new)>(bop: (T, T) -> T)
    ensures AlwaysFolds(bop) <==> Associative(bop)
  {
    if Associative(bop) {
      forall ys: seq<T>, n: nat | ys != [] && n >= 1 ensures Tree(bop, ys, 0, |ys|, n) == Fold(bop, ys, 0, |ys|) {
        TreeIsFold(bop, ys, 0, |ys|, n);
      }
    }
    if AlwaysFolds(bop) {
      forall a, b, c ensures Regroups(bop, a, b, c) {
        var ys := [a, b, c];
        assert Tree(bop, ys, 0, |ys|, 1) == Fold(bop, ys, 0, |ys|);
        assert Tree(bop, ys, 1, 3, 1) == bop(Tree(bop, ys, 1, 2, 1), Tree(bop, ys, 2, 3, 1)) == bop(b, c);
        assert Fold(bop, ys, 0, 2) == bop(Fold(bop, ys, 0, 1), b) == bop(a, b);
      }
    }
  }

  // ---------------------------------------------------------------- what the recursion costs

  /** With this operation on zeros a fold counts its own applications. */
  function Count(a: nat, b: nat): nat { a + b + 1 }

  /** With this one it measures the longest chain of them. */
  function Later(a: nat, b: nat): nat { if a < b then b + 1 else a + 1 }

  predicate Zeros(ys: seq<nat>) { forall i :: 0 <= i < |ys| ==> ys[i] == 0 }

  lemma {:induction false} LoopCost(ys: seq<nat>, head: nat, tail: nat)
    requires Zeros(ys) && head < tail <= |ys|
    ensures Fold<nat>(Count, ys, head, tail) == tail - head - 1 == Fold<nat>(Later, ys, head, tail)
    decreases tail - head
  {
    if head + 1 < tail { LoopCost(ys, head, tail - 1); }
  }

  /** However the range is divided, the operation is applied once between any two elements. */
  lemma {:induction false} Applications(ys: seq<nat>, head: nat, tail: nat, n: nat)
    requires Zeros(ys) && head < tail <= |ys| && n >= 1
    ensures Tree<nat>(Count, ys, head, tail, n) == tail - head - 1
    decreases tail - head
  {
    if tail - head <= n {
      LoopCost(ys, head, tail);
    } else {
      var mid := head + (tail - head) / 2;
      Applications(ys, head, mid, n);
      Applications(ys, mid, tail, n);
    }
  }

  /** The longest chain is logarithmic in the number of chunks, besides the loop over one chunk. */
  lemma {:induction false} LogarithmicDepth(ys: seq<nat>, head: nat, tail: nat, n: nat, k: nat)
    requires Zeros(ys) && head < tail <= |ys| && n >= 1 && tail - head <= n * Pow2(k)
    ensures Tree<nat>(Later, ys, head, tail, n) <= k + n - 1
    decreases tail - head
  {
    if tail - head <= n {
      LoopCost(ys, head, tail);
    } else {
      assert k > 0 && n * Pow2(k) == 2 * (n * Pow2(k - 1));
      var mid := head + (tail - head) / 2;
      LogarithmicDepth(ys, head, mid, n, k - 1);
      LogarithmicDepth(ys, mid, tail, n, k - 1);
    }
  }
}
