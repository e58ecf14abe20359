/**
 The scan of a range of one type into a range of another.  The memory holds tagged cells, so what is proved
 for one cell type covers any input, projected and output type.
 */
module ScanTyped {
  import opened Programs
  import opened Scan
  import opened ScanCorrect
  import opened ParallelFold

  datatype Cell<S, T> = In(s: S) | Out(t: T) | Junk

  /** The operation on the projected values; anything else gives junk. */
  function Lifted<S, T>(bop: (T, T) -> T): (Cell<S, T>, Cell<S, T>) -> Cell<S, T> {
    (x: Cell<S, T>, y: Cell<S, T>) => if x.Out? && y.Out? then Out(bop(x.t, y.t)) else Junk
  }

  function Project<S, T>(proj: S -> T): Cell<S, T> -> Cell<S, T> {
    (x: Cell<S, T>) => if x.In? then Out(proj(x.s)) else Junk
  }

  function Tagged<S, T>(xs: seq<S>): (c: seq<Cell<S, T>>)
    ensures |c| == |xs| && forall i :: 0 <= i < |xs| ==> c[i] == In(xs[i])
  {
    seq(|xs|, i requires 0 <= i < |xs| => In(xs[i]))
  }

  function Outs<S, T>(ys: seq<T>): (c: seq<Cell<S, T>>)
    ensures |c| == |ys| && forall i :: 0 <= i < |ys| ==> c[i] == Out(ys[i])
  {
    seq(|ys|, i requires 0 <= i < |ys| => Out(ys[i]))
  }

  lemma LiftedAssociative<S(!new), T(!new)>(bop: (T, T) -> T)
    requires Associative(bop)
    ensures Associative(Lifted<S, T>(bop))
  {
    forall a, b, c ensures Regroups(Lifted<S, T>(bop), a, b, c) {
      if a.Out? && b.Out? && c.Out? { assert Regroups(bop, a.t, b.t, c.t); }
    }
  }

  lemma {:induction false} LiftedFold<S, T>(bop: (T, T) -> T, ys: seq<T>, lo: nat, hi: nat)
    requires lo < hi <= |ys|
    ensures Fold(Lifted<S, T>(bop), Outs(ys), lo, hi) == Out(Fold(bop, ys, lo, hi))
    decreases hi - lo
  {
    if hi > lo + 1 { LiftedFold<S, T>(bop, ys, lo, hi - 1); }
  }

  lemma LiftedPrefixes<S, T>(bop: (T, T) -> T, ys: seq<T>)
    ensures Prefixes(Lifted<S, T>(bop), Outs(ys)) == Outs(Prefixes(bop, ys))
  {
    var a, b := Prefixes(Lifted<S, T>(bop), Outs(ys)), Outs<S, T>(Prefixes(bop, ys));
    forall i | 0 <= i < |ys| ensures a[i] == b[i] { LiftedFold<S, T>(bop, ys, 0, i + 1); }
  }

  /**
   In every interleaving, for every oracle and chunk size, the output range ends up with the inclusive scan
   of the projected input, and the input is untouched.
   */
  lemma ScanAcrossTypes<S(!new), T(!new)>(bop: (T, T) -> T, proj: S -> T, xs: seq<S>, outs: seq<Cell<S, T>>,
                                          n: nat, ready: (nat, nat) -> bool, t: seq<Op>)
    requires Associative(bop) && n >= 1 && |outs| == |xs|
    requires Interleaves(Whole(Job(0, |xs|, |xs|, n, ready)), t)
    ensures var k := Algebra(Lifted<S, T>(bop), Project<S, T>(proj));
      RunTrace(k, t, Store(Tagged(xs) + outs, map[])).cells == Tagged(xs) + Outs(Prefixes(bop, Map(proj, xs)))
  {
    var k := Algebra(Lifted<S, T>(bop), Project<S, T>(proj));
    var j, c := Job(0, |xs|, |xs|, n, ready), Tagged<S, T>(xs) + outs;
    LiftedAssociative<S, T>(bop);
    ScanUnderEverySchedule(k, j, Store(c, map[]), t);
    var d, ys := RunTrace(k, t, Store(c, map[])).cells, Map(proj, xs);
    assert Projected(k, j, c) == Outs<S, T>(ys);
    LiftedPrefixes<S, T>(bop, ys);
    assert d == d[..|xs|] + d[|xs|..|xs| + |xs|];
    assert d[..|xs|] == Tagged<S, T>(xs);
  }
}
