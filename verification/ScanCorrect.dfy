/**
 What the two sweeps compute: std::inclusive_scan, section [inclusive.scan] of the ISO C++ standard,
 for every associative operation, every projection, every chunk size and every answer of the oracle.
 */
module ScanCorrect {
  import opened Programs
  import opened Scan

  predicate Regroups<T(==)>(bop: (T, T) -> T, a: T, b: T, c: T) {
    bop(bop(a, b), c) == bop(a, bop(b, c))
  }

  ghost predicate Associative<T(!new)>(bop: (T, T) -> T) {
    forall a, b, c {:trigger Regroups(bop, a, b, c)} :: Regroups(bop, a, b, c)
  }

  /** The left-to-right combination of xs[lo..hi). */
  function Fold<T>(bop: (T, T) -> T, xs: seq<T>, lo: nat, hi: nat): T
    requires lo < hi <= |xs|
    decreases hi - lo
  {
    if hi == lo + 1 then xs[lo] else bop(Fold(bop, xs, lo, hi - 1), xs[hi - 1])
  }

  lemma {:induction false} FoldJoins<T(!new)>(bop: (T, T) -> T, xs: seq<T>, lo: nat, m: nat, hi: nat)
    requires Associative(bop) && lo < m < hi <= |xs|
    ensures bop(Fold(bop, xs, lo, m), Fold(bop, xs, m, hi)) == Fold(bop, xs, lo, hi)
    decreases hi - m
  {
    if hi > m + 1 {
      FoldJoins(bop, xs, lo, m, hi - 1);
      assert Regroups(bop, Fold(bop, xs, lo, m), Fold(bop, xs, m, hi - 1), xs[hi - 1]);
    }
  }

  /** A job together with the projected values of its input before the scan starts. */
  datatype Inst<!T> = Inst(k: Algebra<T>, j: Job, xs: seq<T>) {
    predicate Fits(c: seq<T>) {
      Layout(j, |c|) && |xs| == j.len
    }

    function Sum(lo: nat, hi: nat): T
      requires lo < hi <= |xs|
    {
      Fold(k.bop, xs, lo, hi)
    }

    /** Input cell i still holds its value. */
    ghost predicate Intact(c: seq<T>, i: nat)
      requires Fits(c)
    {
      i < j.len && k.proj(c[j.inp + i]) == xs[i]
    }

    ghost predicate IntactOn(c: seq<T>, lo: nat, hi: nat)
      requires Fits(c)
    {
      forall i :: lo <= i < hi ==> Intact(c, i)
    }

    /** Output cell i holds the combination of inputs lo..i. */
    ghost predicate Holds(c: seq<T>, i: nat, lo: nat)
      requires Fits(c)
    {
      lo <= i < j.len && c[j.out + i] == Sum(lo, i + 1)
    }

    ghost predicate Done(c: seq<T>, lo: nat, hi: nat)
      requires Fits(c)
    {
      forall i :: lo <= i < hi ==> Holds(c, i, 0)
    }

    /** A folded subtree: each left child's last slot holds that child's own fold; leaf inputs survive. */
    ghost predicate Folded(c: seq<T>, ival: Interval, beg: nat, end: nat)
      requires Fits(c) && beg < end
      decreases end - beg
    {
      if end - beg <= j.n then IntactOn(c, beg, Last(ival, end))
      else
        var m := Split(beg, end);
        Holds(c, m - 1, beg) && Folded(c, LeftChild(ival), beg, m) && Folded(c, RightChild(ival), m, end)
    }

    /**
     A scanned subtree: everything before e is final, every partly scanned left child's last slot
     already holds its full prefix, and what lies to the right of it is folded.
     */
    ghost predicate Scanned(c: seq<T>, ival: Interval, beg: nat, end: nat, e: nat)
      requires Fits(c) && beg < end
      decreases end - beg
    {
      && beg < e <= end
      && Done(c, beg, e)
      && (e < end ==>
        && end - beg > j.n
        && var m := Split(beg, end);
           if e < m then
             && Holds(c, m - 1, 0)
             && Scanned(c, LeftChild(ival), beg, m, e)
             && Folded(c, RightChild(ival), m, end)
           else if e == m then Folded(c, RightChild(ival), m, end)
           else Scanned(c, RightChild(ival), m, end, e))
    }

    /** Cells agree except on the output range [lo, hi). */
    ghost predicate Same(c: seq<T>, d: seq<T>, lo: int, hi: int) {
      |c| == |d| && forall a :: 0 <= a < |c| && !(j.out + lo <= a < j.out + hi) ==> d[a] == c[a]
    }
  }

  lemma {:induction false} FoldedFrame<T>(x: Inst<T>, c: seq<T>, d: seq<T>, ival: Interval, beg: nat, end: nat,
                                          lo: int, hi: int)
    requires x.Fits(c) && x.Same(c, d, lo, hi) && beg < end <= x.j.len
    requires 0 <= lo <= hi <= x.j.len && (hi <= beg || Last(ival, end) <= lo)
    requires x.Folded(c, ival, beg, end)
    ensures x.Folded(d, ival, beg, end)
    decreases end - beg
  {
    if end - beg <= x.j.n {
      forall i | beg <= i < Last(ival, end) ensures x.Intact(d, i) {
        assert x.Intact(c, i);
      }
    } else {
      var m := Split(beg, end);
      FoldedFrame(x, c, d, LeftChild(ival), beg, m, lo, hi);
      FoldedFrame(x, c, d, RightChild(ival), m, end, lo, hi);
    }
  }

  lemma {:induction false} ScannedFrame<T>(x: Inst<T>, c: seq<T>, d: seq<T>, ival: Interval, beg: nat, end: nat,
                                           e: nat, lo: int, hi: int)
    requires x.Fits(c) && x.Same(c, d, lo, hi) && beg < end <= x.j.len
    requires 0 <= lo <= hi <= x.j.len && (hi <= beg || (Last(ival, end) <= lo && (e == end ==> end <= lo)))
    requires x.Scanned(c, ival, beg, end, e)
    ensures x.Scanned(d, ival, beg, end, e)
    decreases end - beg
  {
    forall i | beg <= i < e ensures x.Holds(d, i, 0) {
      assert x.Holds(c, i, 0);
    }
    if e < end {
      var m := Split(beg, end);
      if e < m {
        ScannedFrame(x, c, d, LeftChild(ival), beg, m, e, lo, hi);
        FoldedFrame(x, c, d, RightChild(ival), m, end, lo, hi);
      } else if e == m {
        FoldedFrame(x, c, d, RightChild(ival), m, end, lo, hi);
      } else {
        ScannedFrame(x, c, d, RightChild(ival), m, end, e, lo, hi);
      }
    }
  }

  // ---------------------------------------------------------------- leaves

  lemma {:induction false} FoldFromRuns<T>(x: Inst<T>, r: Reg, beg: nat, i: nat, end: nat, st: Store<T>)
    requires x.Fits(st.cells) && beg < i <= end <= x.j.len && x.IntactOn(st.cells, i, end)
    requires r in st.regs && st.regs[r] == x.Sum(beg, i)
    ensures var d := RunTrace(x.k, FoldFrom(x.j, r, i, end), st);
      d.cells == st.cells && r in d.regs && d.regs[r] == x.Sum(beg, end)
    decreases end - i
  {
    if i < end {
      assert x.Intact(st.cells, i);
      FoldFromRuns(x, r, beg, i + 1, end, Exec(x.k, Combine(r, x.j.inp + i, true), st));
    }
  }

  lemma FoldFromStep<T>(k: Algebra<T>, j: Job, r: Reg, i: nat, end: nat, st: Store<T>)
    requires i < end
    ensures RunTrace(k, FoldFrom(j, r, i, end), st) ==
      RunTrace(k, FoldFrom(j, r, i + 1, end), Exec(k, Combine(r, j.inp + i, true), st))
  {
    TraceStep(k, Combine(r, j.inp + i, true), FoldFrom(j, r, i + 1, end), st);
  }

  lemma CombineExec<T>(k: Algebra<T>, r: Reg, a: nat, st: Store<T>)
    requires a < |st.cells| && r in st.regs
    ensures Exec(k, Combine(r, a, true), st) == st.(regs := st.regs[r := k.bop(st.regs[r], k.proj(st.cells[a]))])
  {
  }

  lemma ScanFromStep<T>(k: Algebra<T>, j: Job, r: Reg, i: nat, end: nat, st: Store<T>)
    requires i < end
    ensures RunTrace(k, ScanFrom(j, r, i, end), st) ==
      RunTrace(k, ScanFrom(j, r, i + 1, end), Exec(k, Put(r, j.out + i), Exec(k, Combine(r, j.inp + i, true), st)))
  {
    var rest := ScanFrom(j, r, i + 1, end);
    var acc, put := Combine(r, j.inp + i, true), Put(r, j.out + i);
    TraceStep(k, put, rest, Exec(k, acc, st));
    TraceStep(k, acc, [put] + rest, st);
    assert [acc, put] + rest == [acc] + ([put] + rest);
  }

  lemma IntactFrame<T>(x: Inst<T>, c: seq<T>, d: seq<T>, p: nat, q: nat, lo: int, hi: int)
    requires x.Fits(c) && x.Same(c, d, lo, hi) && 0 <= lo <= hi <= x.j.len
    requires (q <= lo || hi <= p) && x.IntactOn(c, p, q)
    ensures x.IntactOn(d, p, q)
  {
    forall i | p <= i < q ensures x.Intact(d, i) {
      assert x.Intact(c, i);
    }
  }

  /** One turn of the loop: the accumulator and slot i become the prefix up to i. */
  lemma ScanTurn<T>(x: Inst<T>, r: Reg, i: nat, st: Store<T>)
    requires x.Fits(st.cells) && 0 < i < x.j.len && x.Intact(st.cells, i)
    requires r in st.regs && st.regs[r] == x.Sum(0, i)
    ensures var s2 := Exec(x.k, Put(r, x.j.out + i), Exec(x.k, Combine(r, x.j.inp + i, true), st));
      && x.Same(st.cells, s2.cells, i, i + 1) && x.Holds(s2.cells, i, 0)
      && r in s2.regs && s2.regs[r] == x.Sum(0, i + 1)
  {
    var s1 := Exec(x.k, Combine(r, x.j.inp + i, true), st);
    assert s1.cells == st.cells && s1.regs[r] == x.Sum(0, i + 1);
  }

  lemma ScanTail<T>(x: Inst<T>, i: nat, end: nat, c: seq<T>, c2: seq<T>, d: seq<T>)
    requires x.Fits(c) && 0 < i < end <= x.j.len && x.Same(c, c2, i, i + 1) && x.Holds(c2, i, 0)
    requires x.Same(c2, d, i + 1, end) && x.Done(d, i + 1, end)
    ensures x.Same(c, d, i, end) && x.Done(d, i, end)
  {
    SameTrans(x, c, c2, d, i, i + 1, i + 1, end);
    HoldsFrame(x, c2, d, i, 0, i + 1, end);
  }

  lemma ScanTurned<T>(x: Inst<T>, r: Reg, i: nat, end: nat, st: Store<T>) returns (s2: Store<T>)
    requires x.Fits(st.cells) && 0 < i < end <= x.j.len && x.IntactOn(st.cells, i, end)
    requires r in st.regs && st.regs[r] == x.Sum(0, i)
    ensures RunTrace(x.k, ScanFrom(x.j, r, i, end), st) == RunTrace(x.k, ScanFrom(x.j, r, i + 1, end), s2)
    ensures x.Same(st.cells, s2.cells, i, i + 1) && x.Holds(s2.cells, i, 0) && x.IntactOn(s2.cells, i + 1, end)
    ensures r in s2.regs && s2.regs[r] == x.Sum(0, i + 1)
  {
    assert x.Intact(st.cells, i);
    ScanFromStep(x.k, x.j, r, i, end, st);
    ScanTurn(x, r, i, st);
    s2 := Exec(x.k, Put(r, x.j.out + i), Exec(x.k, Combine(r, x.j.inp + i, true), st));
    IntactFrame(x, st.cells, s2.cells, i + 1, end, i, i + 1);
  }

  lemma {:induction false} ScanFromRuns<T>(x: Inst<T>, r: Reg, i: nat, end: nat, st: Store<T>)
    requires x.Fits(st.cells) && 0 < i <= end <= x.j.len && x.IntactOn(st.cells, i, end)
    requires r in st.regs && st.regs[r] == x.Sum(0, i)
    ensures var d := RunTrace(x.k, ScanFrom(x.j, r, i, end), st).cells;
      x.Same(st.cells, d, i, end) && x.Done(d, i, end)
    decreases end - i
  {
    if i < end {
      var s2 := ScanTurned(x, r, i, end, st);
      ScanFromRuns(x, r, i + 1, end, s2);
      ScanTail(x, i, end, st.cells, s2.cells, RunTrace(x.k, ScanFrom(x.j, r, i + 1, end), s2).cells);
    }
  }

  lemma MergeIntoRuns<T>(k: Algebra<T>, r: Reg, src: nat, dst: nat, st: Store<T>)
    requires src < |st.cells| && dst < |st.cells|
    ensures Run(k, MergeInto(r, src, dst), st).cells == st.cells[dst := k.bop(st.cells[src], st.cells[dst])]
  {
    var load, acc, put := Load(r, src, false), Combine(r, dst, false), Put(r, dst);
    var s1 := Exec(k, load, st);
    var s2 := Exec(k, acc, s1);
    TraceStep(k, put, [], s2);
    TraceStep(k, acc, [put] + [], s1);
    TraceStep(k, load, [acc] + ([put] + []), st);
    assert [load, acc, put] == [load] + ([acc] + ([put] + []));
  }

  lemma FoldLeafRuns<T>(k: Algebra<T>, j: Job, beg: nat, end: nat, st: Store<T>)
    requires Placed(j, Mid, beg, end)
    ensures var r := Leaf(beg);
      Run(k, RiseLeaf(j, Mid, Folding, beg, end), st) ==
      Exec(k, Put(r, j.out + end - 1), RunTrace(k, FoldFrom(j, r, beg + 1, end),
           Exec(k, Load(r, j.inp + beg, true), st)))
  {
    var r := Leaf(beg);
    var load, put, body := Load(r, j.inp + beg, true), Put(r, j.out + end - 1), FoldFrom(j, r, beg + 1, end);
    var s1 := Exec(k, load, st);
    TraceStep(k, put, [], RunTrace(k, body, s1));
    RunTraceConcat(k, body, [put] + [], s1);
    TraceStep(k, load, body + ([put] + []), st);
    assert [load] + body + [put] == [load] + (body + ([put] + []));
  }

  lemma FirstLoaded<T>(x: Inst<T>, beg: nat, st: Store<T>)
    requires x.Fits(st.cells) && beg < x.j.len && x.Intact(st.cells, beg)
    ensures var s1 := Exec(x.k, Load(Leaf(beg), x.j.inp + beg, true), st);
      s1.cells == st.cells && Leaf(beg) in s1.regs && s1.regs[Leaf(beg)] == x.Sum(beg, beg + 1)
  {
  }

  lemma PutCells<T>(k: Algebra<T>, r: Reg, a: nat, st: Store<T>)
    requires r in st.regs && a < |st.cells|
    ensures Exec(k, Put(r, a), st).cells == st.cells[a := st.regs[r]]
  {
  }

  lemma FoldLeafCells<T>(x: Inst<T>, beg: nat, end: nat, st: Store<T>)
    requires x.Fits(st.cells) && Placed(x.j, Mid, beg, end) && x.IntactOn(st.cells, beg, end)
    ensures Run(x.k, RiseLeaf(x.j, Mid, Folding, beg, end), st).cells == st.cells[x.j.out + end - 1 := x.Sum(beg, end)]
  {
    var r := Leaf(beg);
    assert x.Intact(st.cells, beg);
    FirstLoaded(x, beg, st);
    var s1 := Exec(x.k, Load(r, x.j.inp + beg, true), st);
    FoldFromRuns(x, r, beg, beg + 1, end, s1);
    var s2 := RunTrace(x.k, FoldFrom(x.j, r, beg + 1, end), s1);
    PutCells(x.k, r, x.j.out + end - 1, s2);
    FoldLeafRuns(x.k, x.j, beg, end, st);
  }

  lemma FoldLeafCorrect<T>(x: Inst<T>, beg: nat, end: nat, st: Store<T>)
    requires x.Fits(st.cells) && Placed(x.j, Mid, beg, end) && end - beg <= x.j.n && x.IntactOn(st.cells, beg, end)
    ensures var d := Run(x.k, RiseLeaf(x.j, Mid, Folding, beg, end), st).cells;
      x.Same(st.cells, d, end - 1, end) && x.Holds(d, end - 1, beg) && x.Folded(d, Mid, beg, end)
  {
    FoldLeafCells(x, beg, end, st);
    var d := st.cells[x.j.out + end - 1 := x.Sum(beg, end)];
    forall i | beg <= i < end - 1 ensures x.Intact(d, i) {
      assert x.Intact(st.cells, i);
    }
  }

  /** A leaf that continues from the final slot before it finishes [beg, last). */
  lemma ContinueRuns<T>(x: Inst<T>, beg: nat, last: nat, st: Store<T>)
    requires x.Fits(st.cells) && 1 <= beg <= last <= x.j.len
    requires x.Holds(st.cells, beg - 1, 0) && x.IntactOn(st.cells, beg, last)
    ensures var t := [Load(Leaf(beg), x.j.out + beg - 1, false)] + ScanFrom(x.j, Leaf(beg), beg, last);
      var d := RunTrace(x.k, t, st).cells;
      x.Same(st.cells, d, beg, last) && x.Done(d, beg, last)
  {
    var load := Load(Leaf(beg), x.j.out + beg - 1, false);
    var t := [load] + ScanFrom(x.j, Leaf(beg), beg, last);
    assert t[1..] == ScanFrom(x.j, Leaf(beg), beg, last);
    ScanFromRuns(x, Leaf(beg), beg, last, Exec(x.k, load, st));
  }

  lemma FirstLeafRuns<T>(x: Inst<T>, end: nat, st: Store<T>)
    requires x.Fits(st.cells) && 0 < end <= x.j.len && x.IntactOn(st.cells, 0, end)
    ensures var t := [Load(Leaf(0), x.j.inp, true), Put(Leaf(0), x.j.out)] + ScanFrom(x.j, Leaf(0), 1, end);
      var d := RunTrace(x.k, t, st).cells;
      x.Same(st.cells, d, 0, end) && x.Done(d, 0, end)
  {
    var load, put := Load(Leaf(0), x.j.inp, true), Put(Leaf(0), x.j.out);
    var rest := ScanFrom(x.j, Leaf(0), 1, end);
    var t := [load, put] + rest;
    assert t[1..] == [put] + rest && t[1..][1..] == rest;
    assert x.Intact(st.cells, 0);
    var s2 := Exec(x.k, put, Exec(x.k, load, st));
    forall q | 1 <= q < end ensures x.Intact(s2.cells, q) {
      assert x.Intact(st.cells, q);
    }
    ScanFromRuns(x, Leaf(0), 1, end, s2);
    var d := RunTrace(x.k, rest, s2).cells;
    assert x.Holds(s2.cells, 0, 0);
    assert x.Holds(d, 0, 0);
  }

  // ---------------------------------------------------------------- rise sweep

  /** What a rise sweep of [beg, end) may rely on. */
  ghost predicate RisePre<T>(x: Inst<T>, c: seq<T>, ival: Interval, sweep: Sweep, beg: nat, end: nat) {
    && x.Fits(c) && Placed(x.j, ival, beg, end) && Allowed(ival, sweep) && x.IntactOn(c, beg, end)
    && (sweep.Scanning? && beg >= 1 ==> x.Holds(c, beg - 1, 0))
  }

  /** What it leaves behind, which is what the fall sweep relies on. */
  ghost predicate RisePost<T>(x: Inst<T>, c: seq<T>, d: seq<T>, ival: Interval, sweep: Sweep, beg: nat, end: nat)
    requires x.Fits(c) && beg < end
  {
    && x.Same(c, d, beg, end)
    && if sweep.Folding? then x.Folded(d, ival, beg, end) && (ival.Mid? ==> x.Holds(d, end - 1, beg))
       else
         && x.Scanned(d, ival, beg, end, ScanEnd(x.j, beg, end))
         && (ival.Lhs? || ival.Mid? ==> x.Holds(d, end - 1, 0))
  }

  lemma RiseLeafCorrect<T>(x: Inst<T>, ival: Interval, sweep: Sweep, beg: nat, end: nat, st: Store<T>)
    requires RisePre(x, st.cells, ival, sweep, beg, end) && end - beg <= x.j.n
    ensures RisePost(x, st.cells, Run(x.k, RiseLeaf(x.j, ival, sweep, beg, end), st).cells, ival, sweep, beg, end)
  {
    if sweep.Folding? {
      if ival.Mid? { FoldLeafCorrect(x, beg, end, st); }
    } else if ival.Mid? || ival.Rhs? {
      ContinueRuns(x, beg, end, st);
    } else {
      FirstLeafRuns(x, end, st);
    }
  }

  /** The combining step: the last slot of an inner node becomes that node's own fold, or full prefix. */
  lemma LiftCorrect<T(!new)>(x: Inst<T>, lo: nat, ival: Interval, beg: nat, m: nat, end: nat, st: Store<T>)
    requires Associative(x.k.bop) && x.Fits(st.cells) && lo <= beg < m < end <= x.j.len
    requires ival.Lhs? || ival.Mid? ==> x.Holds(st.cells, m - 1, lo) && x.Holds(st.cells, end - 1, m)
    ensures var d := Run(x.k, Lift(x.j, ival, m, end), st).cells;
      x.Same(st.cells, d, Last(ival, end), end) && (ival.Lhs? || ival.Mid? ==> x.Holds(d, end - 1, lo))
  {
    if ival.Lhs? || ival.Mid? {
      MergeIntoRuns(x.k, Node(m), x.j.out + m - 1, x.j.out + end - 1, st);
      FoldJoins(x.k.bop, x.xs, lo, m, end);
    }
  }

  lemma SameTrans<T>(x: Inst<T>, c: seq<T>, d: seq<T>, e: seq<T>, a: int, b: int, lo: int, hi: int)
    requires x.Same(c, d, a, b) && x.Same(d, e, lo, hi)
    ensures forall p, q :: p <= a && p <= lo && b <= q && hi <= q ==> x.Same(c, e, p, q)
  {
  }

  lemma HoldsFrame<T>(x: Inst<T>, c: seq<T>, d: seq<T>, i: nat, from: nat, lo: int, hi: int)
    requires x.Fits(c) && x.Same(c, d, lo, hi) && !(lo <= i < hi) && x.Holds(c, i, from)
    ensures x.Holds(d, i, from)
  {
  }

  /** One level of a folding rise sweep: left half, right half, combining step. */
  lemma FoldedNode<T>(x: Inst<T>, d: seq<T>, ival: Interval, beg: nat, m: nat, end: nat)
    requires x.Fits(d) && beg < m < end && end - beg > x.j.n && m == Split(beg, end)
    requires x.Holds(d, m - 1, beg) && x.Folded(d, LeftChild(ival), beg, m) && x.Folded(d, RightChild(ival), m, end)
    ensures x.Folded(d, ival, beg, end)
  {
  }

  lemma ScannedNode<T>(x: Inst<T>, d: seq<T>, ival: Interval, beg: nat, m: nat, end: nat, e: nat)
    requires x.Fits(d) && beg < m < end && end - beg > x.j.n && m == Split(beg, end) && e <= m
    requires x.Holds(d, m - 1, 0) && x.Scanned(d, LeftChild(ival), beg, m, e) && x.Folded(d, RightChild(ival), m, end)
    ensures x.Scanned(d, ival, beg, end, e)
  {
  }

  /** What the right half writes leaves the left half folded. */
  lemma LeftStaysFolded<T>(x: Inst<T>, ival: Interval, beg: nat, m: nat, end: nat, c1: seq<T>, d: seq<T>)
    requires x.Fits(c1) && 0 <= beg < m < end <= x.j.len && x.Same(c1, d, m, end)
    requires x.Folded(c1, Mid, beg, m) && x.Holds(c1, m - 1, beg)
    ensures x.Folded(d, Mid, beg, m) && x.Holds(d, m - 1, beg)
  {
    FoldedFrame(x, c1, d, Mid, beg, m, m, end);
    HoldsFrame(x, c1, d, m - 1, beg, m, end);
  }

  lemma LeftStaysScanned<T>(x: Inst<T>, ival: Interval, beg: nat, m: nat, end: nat, e: nat, c1: seq<T>, d: seq<T>)
    requires x.Fits(c1) && 0 <= beg < m < end <= x.j.len && x.Same(c1, d, m, end)
    requires x.Scanned(c1, ival, beg, m, e) && x.Holds(c1, m - 1, 0)
    ensures x.Scanned(d, ival, beg, m, e) && x.Holds(d, m - 1, 0)
  {
    ScannedFrame(x, c1, d, ival, beg, m, e, m, end);
    HoldsFrame(x, c1, d, m - 1, 0, m, end);
  }

  lemma FoldForkCorrect<T>(x: Inst<T>, ival: Interval, beg: nat, m: nat, end: nat, c: seq<T>, c1: seq<T>, c2: seq<T>,
                           d: seq<T>)
    requires x.Fits(c) && Placed(x.j, ival, beg, end) && (ival.Mid? || ival.Rhs?) && end - beg > x.j.n
    requires beg < m < end && m == Split(beg, end)
    requires RisePost(x, c, c1, Mid, Folding, beg, m) && RisePost(x, c1, c2, ival, Folding, m, end)
    requires x.Same(c2, d, Last(ival, end), end) && x.Same(c1, d, m, end)
    ensures x.Folded(d, ival, beg, end)
  {
    LeftStaysFolded(x, ival, beg, m, end, c1, d);
    FoldedFrame(x, c2, d, ival, m, end, Last(ival, end), end);
    FoldedNode(x, d, ival, beg, m, end);
  }

  lemma ScanForkCorrect<T>(x: Inst<T>, ival: Interval, beg: nat, m: nat, end: nat, c: seq<T>, c1: seq<T>, c2: seq<T>,
                           d: seq<T>)
    requires x.Fits(c) && Placed(x.j, ival, beg, end) && Allowed(ival, Scanning) && end - beg > x.j.n
    requires beg < m < end && m == Split(beg, end)
    requires RisePost(x, c, c1, LeftChild(ival), Scanning, beg, m)
    requires RisePost(x, c1, c2, RightChild(ival), Folding, m, end)
    requires x.Same(c2, d, Last(ival, end), end) && x.Same(c1, d, m, end)
    ensures x.Scanned(d, ival, beg, end, ScanEnd(x.j, beg, m))
  {
    var e := ScanEnd(x.j, beg, m);
    ScanEndInside(x.j, beg, m);
    LeftStaysScanned(x, LeftChild(ival), beg, m, end, e, c1, d);
    FoldedFrame(x, c2, d, RightChild(ival), m, end, Last(ival, end), end);
    ScannedNode(x, d, ival, beg, m, end, e);
  }

  lemma RiseForkCorrect<T>(x: Inst<T>, ival: Interval, sweep: Sweep, beg: nat, m: nat, end: nat,
                           c: seq<T>, c1: seq<T>, c2: seq<T>, d: seq<T>)
    requires x.Fits(c) && Placed(x.j, ival, beg, end) && Allowed(ival, sweep) && end - beg > x.j.n
    requires beg < m < end && m == Split(beg, end)
    requires RisePost(x, c, c1, LeftChild(ival), sweep, beg, m)
    requires RisePost(x, c1, c2, RightChild(ival), Folding, m, end)
    requires sweep.Scanning? ==> ScanEnd(x.j, beg, end) == ScanEnd(x.j, beg, m)
    requires x.Same(c2, d, Last(ival, end), end)
    requires ival.Lhs? || ival.Mid? ==> x.Holds(d, end - 1, if sweep.Scanning? then 0 else beg)
    ensures RisePost(x, c, d, ival, sweep, beg, end)
  {
    SameTrans(x, c1, c2, d, m, end, Last(ival, end), end);
    assert x.Same(c, d, beg, end) by { SameTrans(x, c, c1, d, beg, m, m, end); }
    if sweep.Folding? {
      FoldForkCorrect(x, ival, beg, m, end, c, c1, c2, d);
    } else {
      ScanForkCorrect(x, ival, beg, m, end, c, c1, c2, d);
    }
  }

  lemma RiseUnfolds<T>(k: Algebra<T>, j: Job, ival: Interval, sweep: Sweep, beg: nat, end: nat, st: Store<T>)
    requires Placed(j, ival, beg, end) && Allowed(ival, sweep) && end - beg > j.n
    ensures var m := Split(beg, end);
      var s1 := Run(k, Rise(j, LeftChild(ival), sweep, beg, m), st);
      Run(k, Rise(j, ival, sweep, beg, end), st) ==
      if sweep.Scanning? && j.ready(beg, end) && ScanEnd(j, beg, m) == m
      then Run(k, Rise(j, RightChild(ival), Scanning, m, end), s1)
      else Run(k, Lift(j, ival, m, end), Run(k, Rise(j, RightChild(ival), Folding, m, end), s1))
  {
    var m := Split(beg, end);
    var left, right := Rise(j, LeftChild(ival), sweep, beg, m), Rise(j, RightChild(ival), Folding, m, end);
    assert Run(k, Par(left, right), st) == Run(k, right, Run(k, left, st));
  }

  lemma RightHalfPre<T>(x: Inst<T>, ival: Interval, sweep: Sweep, beg: nat, end: nat, c: seq<T>, c1: seq<T>)
    requires RisePre(x, c, ival, sweep, beg, end) && end - beg > x.j.n
    requires RisePost(x, c, c1, LeftChild(ival), sweep, beg, Split(beg, end))
    ensures RisePre(x, c1, RightChild(ival), Folding, Split(beg, end), end)
    ensures sweep.Scanning? ==> RisePre(x, c1, RightChild(ival), Scanning, Split(beg, end), end)
  {
    forall i | Split(beg, end) <= i < end ensures x.Intact(c1, i) {
      assert x.Intact(c, i);
    }
  }

  lemma RiseForkRuns<T(!new)>(x: Inst<T>, ival: Interval, sweep: Sweep, beg: nat, end: nat, c: seq<T>, c1: seq<T>,
                              s2: Store<T>)
    requires Associative(x.k.bop)
    requires x.Fits(c) && Placed(x.j, ival, beg, end) && Allowed(ival, sweep) && end - beg > x.j.n
    requires RisePost(x, c, c1, LeftChild(ival), sweep, beg, Split(beg, end))
    requires RisePost(x, c1, s2.cells, RightChild(ival), Folding, Split(beg, end), end)
    requires sweep.Scanning? ==> ScanEnd(x.j, beg, end) == ScanEnd(x.j, beg, Split(beg, end))
    ensures RisePost(x, c, Run(x.k, Lift(x.j, ival, Split(beg, end), end), s2).cells, ival, sweep, beg, end)
  {
    var m := Split(beg, end);
    var lo := if sweep.Scanning? then 0 else beg;
    HoldsFrame(x, c1, s2.cells, m - 1, lo, m, end);
    LiftCorrect(x, lo, ival, beg, m, end, s2);
    RiseForkCorrect(x, ival, sweep, beg, m, end, c, c1, s2.cells, Run(x.k, Lift(x.j, ival, m, end), s2).cells);
  }

  /** The rise sweep establishes the precondition of the fall sweep. */
  lemma {:induction false} RiseCorrect<T(!new)>(x: Inst<T>, ival: Interval, sweep: Sweep, beg: nat, end: nat,
                                                st: Store<T>)
    requires Associative(x.k.bop) && RisePre(x, st.cells, ival, sweep, beg, end)
    ensures RisePost(x, st.cells, Run(x.k, Rise(x.j, ival, sweep, beg, end), st).cells, ival, sweep, beg, end)
    decreases end - beg
  {
    if end - beg <= x.j.n {
      RiseLeafCorrect(x, ival, sweep, beg, end, st);
    } else {
      var m := Split(beg, end);
      RiseUnfolds(x.k, x.j, ival, sweep, beg, end, st);
      LeftHalfPre(x, ival, sweep, beg, end, st.cells);
      RiseCorrect(x, LeftChild(ival), sweep, beg, m, st);
      var s1 := Run(x.k, Rise(x.j, LeftChild(ival), sweep, beg, m), st);
      RightHalfPre(x, ival, sweep, beg, end, st.cells, s1.cells);
      if sweep.Scanning? && x.j.ready(beg, end) && ScanEnd(x.j, beg, m) == m {
        RiseCorrect(x, RightChild(ival), Scanning, m, end, s1);
        RiseFuse(x, ival, beg, end, st.cells, s1.cells,
                 Run(x.k, Rise(x.j, RightChild(ival), Scanning, m, end), s1).cells);
      } else {
        RiseCorrect(x, RightChild(ival), Folding, m, end, s1);
        var s2 := Run(x.k, Rise(x.j, RightChild(ival), Folding, m, end), s1);
        RiseForkRuns(x, ival, sweep, beg, end, st.cells, s1.cells, s2);
      }
    }
  }

  lemma LeftHalfPre<T>(x: Inst<T>, ival: Interval, sweep: Sweep, beg: nat, end: nat, c: seq<T>)
    requires RisePre(x, c, ival, sweep, beg, end) && end - beg > x.j.n
    ensures RisePre(x, c, LeftChild(ival), sweep, beg, Split(beg, end))
  {
  }

  /** A synchronously finished left half and a scanned right half fuse into one scan. */
  lemma RiseFuse<T>(x: Inst<T>, ival: Interval, beg: nat, end: nat, c: seq<T>, c1: seq<T>, d: seq<T>)
    requires RisePre(x, c, ival, Scanning, beg, end) && end - beg > x.j.n && x.j.ready(beg, end)
    requires var m := Split(beg, end);
      && ScanEnd(x.j, beg, m) == m
      && RisePost(x, c, c1, LeftChild(ival), Scanning, beg, m)
      && x.Same(c1, d, m, end)
      && RisePost(x, c1, d, RightChild(ival), Scanning, m, end)
    ensures RisePost(x, c, d, ival, Scanning, beg, end)
  {
    var m := Split(beg, end);
    var e := ScanEnd(x.j, m, end);
    assert ScanEnd(x.j, beg, end) == e;
    forall i | beg <= i < e ensures x.Holds(d, i, 0) {
      if i < m { assert x.Holds(c1, i, 0); }
    }
  }

  // ---------------------------------------------------------------- fall sweep

  /** What a fall sweep of an unscanned node relies on. */
  ghost predicate FallPre<T>(x: Inst<T>, c: seq<T>, ival: Interval, beg: nat, end: nat) {
    && x.Fits(c) && Placed(x.j, ival, beg, end) && (ival.Mid? || ival.Rhs?)
    && x.Holds(c, beg - 1, 0) && (ival.Mid? ==> x.Holds(c, end - 1, 0))
    && x.Folded(c, ival, beg, end)
  }

  ghost predicate FallPost<T>(x: Inst<T>, c: seq<T>, d: seq<T>, ival: Interval, beg: nat, end: nat)
    requires x.Fits(c) && beg < end
  {
    x.Same(c, d, beg, Last(ival, end)) && x.Done(d, beg, end)
  }

  lemma LeafFell<T>(x: Inst<T>, ival: Interval, beg: nat, end: nat, c: seq<T>, d: seq<T>)
    requires x.Fits(c) && beg < end <= x.j.len && (ival.Mid? || ival.Rhs?) && (ival.Mid? ==> x.Holds(c, end - 1, 0))
    requires x.Same(c, d, beg, Last(ival, end)) && x.Done(d, beg, Last(ival, end))
    ensures FallPost(x, c, d, ival, beg, end)
  {
    if ival.Mid? { HoldsFrame(x, c, d, end - 1, 0, beg, Last(ival, end)); }
  }

  lemma FallLeafCorrect<T>(x: Inst<T>, ival: Interval, beg: nat, end: nat, st: Store<T>)
    requires FallPre(x, st.cells, ival, beg, end) && end - beg <= x.j.n
    ensures FallPost(x, st.cells, Run(x.k, FallImpl(x.j, ival, beg, end), st).cells, ival, beg, end)
  {
    ContinueRuns(x, beg, Last(ival, end), st);
    LeafFell(x, ival, beg, end, st.cells, Run(x.k, FallImpl(x.j, ival, beg, end), st).cells);
  }

  lemma DoneFrame<T>(x: Inst<T>, c: seq<T>, d: seq<T>, p: nat, q: nat, lo: int, hi: int)
    requires x.Fits(c) && x.Same(c, d, lo, hi) && (q <= lo || hi <= p) && x.Done(c, p, q)
    ensures x.Done(d, p, q)
  {
    forall i | p <= i < q ensures x.Holds(d, i, 0) {
      assert x.Holds(c, i, 0);
    }
  }

  lemma DoneConcat<T>(x: Inst<T>, c: seq<T>, p: nat, q: nat, r: nat)
    requires x.Fits(c) && x.Done(c, p, q) && x.Done(c, q, r)
    ensures x.Done(c, p, r)
  {
    forall i | p <= i < r ensures x.Holds(c, i, 0) {
      if i < q { assert x.Holds(c, i, 0); }
    }
  }

  lemma PushSlot<T(!new)>(x: Inst<T>, beg: nat, m: nat, c: seq<T>, c1: seq<T>)
    requires Associative(x.k.bop) && x.Fits(c) && 1 <= beg < m <= x.j.len
    requires x.Holds(c, beg - 1, 0) && x.Holds(c, m - 1, beg)
    requires c1 == c[x.j.out + m - 1 := x.k.bop(c[x.j.out + beg - 1], c[x.j.out + m - 1])]
    ensures x.Same(c, c1, m - 1, m) && x.Holds(c1, m - 1, 0)
  {
    FoldJoins(x.k.bop, x.xs, 0, beg, m);
  }

  lemma PushCorrect<T>(x: Inst<T>, ival: Interval, beg: nat, end: nat, c: seq<T>, c1: seq<T>)
    requires FallPre(x, c, ival, beg, end) && end - beg > x.j.n
    requires x.Same(c, c1, Split(beg, end) - 1, Split(beg, end)) && x.Holds(c1, Split(beg, end) - 1, 0)
    ensures FallPre(x, c1, LeftChild(ival), beg, Split(beg, end))
    ensures x.Folded(c1, RightChild(ival), Split(beg, end), end)
    ensures ival.Mid? ==> x.Holds(c1, end - 1, 0)
  {
    var m := Split(beg, end);
    HoldsFrame(x, c, c1, beg - 1, 0, m - 1, m);
    if ival.Mid? { HoldsFrame(x, c, c1, end - 1, 0, m - 1, m); }
    FoldedFrame(x, c, c1, LeftChild(ival), beg, m, m - 1, m);
    FoldedFrame(x, c, c1, RightChild(ival), m, end, m - 1, m);
  }

  /** The left half leaves the right half's precondition alone. */
  lemma FallRightPre<T>(x: Inst<T>, ival: Interval, beg: nat, m: nat, end: nat, c1: seq<T>, c2: seq<T>)
    requires x.Fits(c1) && Placed(x.j, RightChild(ival), m, end) && beg < m && x.Same(c1, c2, beg, m - 1)
    requires x.Holds(c1, m - 1, 0) && x.Folded(c1, RightChild(ival), m, end)
    requires RightChild(ival).Mid? ==> x.Holds(c1, end - 1, 0)
    ensures FallPre(x, c2, RightChild(ival), m, end)
  {
    FoldedFrame(x, c1, c2, RightChild(ival), m, end, beg, m - 1);
  }

  lemma FallJoin<T>(x: Inst<T>, ival: Interval, beg: nat, m: nat, end: nat, c: seq<T>, c2: seq<T>, d: seq<T>)
    requires x.Fits(c) && beg < m < end && x.Same(c, c2, beg, m) && x.Done(c2, beg, m)
    requires FallPost(x, c2, d, RightChild(ival), m, end)
    ensures FallPost(x, c, d, ival, beg, end)
  {
    SameTrans(x, c, c2, d, beg, m, m, Last(ival, end));
    DoneFrame(x, c2, d, beg, m, m, Last(ival, end));
    DoneConcat(x, d, beg, m, end);
  }

  lemma SeqRuns<T>(k: Algebra<T>, a: Prog, b: Prog, c: Prog, st: Store<T>)
    ensures Run(k, Seq(a, Par(b, c)), st) == Run(k, c, Run(k, b, Run(k, a, st)))
  {
    assert Run(k, Par(b, c), Run(k, a, st)) == Run(k, c, Run(k, b, Run(k, a, st)));
  }

  /** The inner fall sweep of a node: push, left half, right half. */
  lemma FallImplUnfolds<T>(k: Algebra<T>, j: Job, ival: Interval, beg: nat, m: nat, end: nat,
                           st: Store<T>, s1: Store<T>, s2: Store<T>, s3: Store<T>)
    requires Placed(j, ival, beg, end) && (ival.Mid? || ival.Rhs?) && end - beg > j.n && m == Split(beg, end)
    requires s1 == Run(k, MergeInto(Node(m), j.out + beg - 1, j.out + m - 1), st)
    requires s2 == Run(k, FallImpl(j, LeftChild(ival), beg, m), s1)
    requires s3 == Run(k, FallImpl(j, RightChild(ival), m, end), s2)
    ensures Run(k, FallImpl(j, ival, beg, end), st) == s3
  {
    FallImplIs(j, ival, beg, m, end);
    SeqRuns(k, MergeInto(Node(m), j.out + beg - 1, j.out + m - 1),
            FallImpl(j, LeftChild(ival), beg, m), FallImpl(j, RightChild(ival), m, end), st);
  }

  /** The prefix is pushed down to the end of the left half. */
  ghost predicate Pushed<T>(x: Inst<T>, c: seq<T>, c1: seq<T>, m: nat)
    requires x.Fits(c)
  {
    m >= 1 && x.Same(c, c1, m - 1, m) && x.Holds(c1, m - 1, 0)
  }

  lemma FallStarts<T(!new)>(x: Inst<T>, ival: Interval, beg: nat, m: nat, end: nat, c: seq<T>, c1: seq<T>)
    requires Associative(x.k.bop) && FallPre(x, c, ival, beg, end) && end - beg > x.j.n && m == Split(beg, end)
    requires c1 == c[x.j.out + m - 1 := x.k.bop(c[x.j.out + beg - 1], c[x.j.out + m - 1])]
    ensures Pushed(x, c, c1, m) && FallPre(x, c1, Mid, beg, m)
  {
    PushSlot(x, beg, m, c, c1);
    PushCorrect(x, ival, beg, end, c, c1);
  }

  lemma FallGoesOn<T>(x: Inst<T>, ival: Interval, beg: nat, m: nat, end: nat, c: seq<T>, c1: seq<T>, c2: seq<T>)
    requires FallPre(x, c, ival, beg, end) && end - beg > x.j.n && m == Split(beg, end)
    requires Pushed(x, c, c1, m) && x.Same(c1, c2, beg, m - 1)
    ensures FallPre(x, c2, RightChild(ival), m, end)
  {
    PushCorrect(x, ival, beg, end, c, c1);
    FallRightPre(x, ival, beg, m, end, c1, c2);
  }

  lemma FallEnds<T>(x: Inst<T>, ival: Interval, beg: nat, m: nat, end: nat, c: seq<T>, c1: seq<T>, c2: seq<T>,
                    d: seq<T>)
    requires x.Fits(c) && beg < m < end && Pushed(x, c, c1, m)
    requires FallPost(x, c1, c2, Mid, beg, m) && FallPost(x, c2, d, RightChild(ival), m, end)
    ensures FallPost(x, c, d, ival, beg, end)
  {
    SameTrans(x, c, c1, c2, m - 1, m, beg, m - 1);
    FallJoin(x, ival, beg, m, end, c, c2, d);
  }

  lemma {:induction false} FallImplCorrect<T(!new)>(x: Inst<T>, ival: Interval, beg: nat, end: nat, st: Store<T>)
    requires Associative(x.k.bop) && FallPre(x, st.cells, ival, beg, end)
    ensures FallPost(x, st.cells, Run(x.k, FallImpl(x.j, ival, beg, end), st).cells, ival, beg, end)
    decreases end - beg, 1
  {
    if end - beg <= x.j.n {
      FallLeafCorrect(x, ival, beg, end, st);
    } else {
      var m := Split(beg, end);
      var s1, s2, s3 := FallNodeCorrect(x, ival, beg, m, end, st);
      FallImplUnfolds(x.k, x.j, ival, beg, m, end, st, s1, s2, s3);
    }
  }

  lemma FallNodeCorrect<T(!new)>(x: Inst<T>, ival: Interval, beg: nat, m: nat, end: nat, st: Store<T>)
    returns (s1: Store<T>, s2: Store<T>, s3: Store<T>)
    requires Associative(x.k.bop) && FallPre(x, st.cells, ival, beg, end) && end - beg > x.j.n && m == Split(beg, end)
    ensures s1 == Run(x.k, MergeInto(Node(m), x.j.out + beg - 1, x.j.out + m - 1), st)
    ensures s2 == Run(x.k, FallImpl(x.j, LeftChild(ival), beg, m), s1)
    ensures s3 == Run(x.k, FallImpl(x.j, RightChild(ival), m, end), s2)
    ensures FallPost(x, st.cells, s3.cells, ival, beg, end)
    decreases end - beg, 0
  {
    s1 := Run(x.k, MergeInto(Node(m), x.j.out + beg - 1, x.j.out + m - 1), st);
    MergeIntoRuns(x.k, Node(m), x.j.out + beg - 1, x.j.out + m - 1, st);
    FallStarts(x, ival, beg, m, end, st.cells, s1.cells);
    s2 := FallHalf(x, LeftChild(ival), beg, m, s1);
    FallGoesOn(x, ival, beg, m, end, st.cells, s1.cells, s2.cells);
    s3 := FallHalf(x, RightChild(ival), m, end, s2);
    FallEnds(x, ival, beg, m, end, st.cells, s1.cells, s2.cells, s3.cells);
  }

  lemma FallHalf<T(!new)>(x: Inst<T>, ival: Interval, beg: nat, end: nat, st: Store<T>) returns (d: Store<T>)
    requires Associative(x.k.bop) && FallPre(x, st.cells, ival, beg, end)
    ensures d == Run(x.k, FallImpl(x.j, ival, beg, end), st) && FallPost(x, st.cells, d.cells, ival, beg, end)
    decreases end - beg, 2
  {
    FallImplCorrect(x, ival, beg, end, st);
    d := Run(x.k, FallImpl(x.j, ival, beg, end), st);
  }

  lemma {:induction false} FallCorrect<T(!new)>(x: Inst<T>, ival: Interval, beg: nat, end: nat, e: nat, st: Store<T>)
    requires Associative(x.k.bop) && x.Fits(st.cells) && Placed(x.j, ival, beg, end) && beg < e < end
    requires x.Scanned(st.cells, ival, beg, end, e) && (ival.Lhs? || ival.Mid? ==> x.Holds(st.cells, end - 1, 0))
    ensures FallPost(x, st.cells, Run(x.k, Fall(x.j, ival, beg, end, e), st).cells, ival, beg, end)
    decreases end - beg
  {
    var m := Split(beg, end);
    var c := st.cells;
    if e < m {
      FallCorrect(x, LeftChild(ival), beg, m, e, st);
      var s2 := Run(x.k, Fall(x.j, LeftChild(ival), beg, m, e), st);
      FallRightPre(x, ival, beg, m, end, c, s2.cells);
      FallImplCorrect(x, RightChild(ival), m, end, s2);
      SameTrans(x, c, c, s2.cells, beg, m - 1, beg, m - 1);
      FallJoin(x, ival, beg, m, end, c, s2.cells, Run(x.k, FallImpl(x.j, RightChild(ival), m, end), s2).cells);
    } else {
      DoneFrame(x, c, c, beg, m, 0, 0);
      if e == m {
        assert x.Holds(c, m - 1, 0);
        FallRightPre(x, ival, beg, m, end, c, c);
        FallImplCorrect(x, RightChild(ival), m, end, st);
      } else {
        FallCorrect(x, RightChild(ival), m, end, e, st);
      }
      FallJoin(x, ival, beg, m, end, c, c, Run(x.k, Fall(x.j, ival, beg, end, e), st).cells);
    }
  }

  // ---------------------------------------------------------------- the scan

  /** std::inclusive_scan: position i combines xs[0..i] from left to right. */
  function Prefixes<T>(bop: (T, T) -> T, xs: seq<T>): seq<T> {
    seq(|xs|, i requires 0 <= i < |xs| => Fold(bop, xs, 0, i + 1))
  }

  function Projected<T>(k: Algebra<T>, j: Job, c: seq<T>): seq<T>
    requires Layout(j, |c|)
  {
    seq(j.len, i requires 0 <= i < j.len => k.proj(c[j.inp + i]))
  }

  /** The output range holds the prefixes of the projected input, and no other cell has changed. */
  ghost predicate InclusiveScan<T>(k: Algebra<T>, j: Job, c: seq<T>, d: seq<T>)
    requires Layout(j, |c|)
  {
    && |d| == |c|
    && d[j.out..j.out + j.len] == Prefixes(k.bop, Projected(k, j, c))
    && forall a :: 0 <= a < |c| && !(j.out <= a < j.out + j.len) ==> d[a] == c[a]
  }

  lemma SlotsMakeScan<T>(x: Inst<T>, c: seq<T>, d: seq<T>)
    requires x.Fits(c) && x.xs == Projected(x.k, x.j, c) && x.Same(c, d, 0, x.j.len) && x.Done(d, 0, x.j.len)
    ensures InclusiveScan(x.k, x.j, c, d)
  {
    var slots, prefixes := d[x.j.out..x.j.out + x.j.len], Prefixes(x.k.bop, x.xs);
    forall i | 0 <= i < x.j.len ensures slots[i] == prefixes[i] {
      assert x.Holds(d, i, 0);
    }
  }

  lemma WholeCorrect<T(!new)>(k: Algebra<T>, j: Job, st: Store<T>)
    requires Associative(k.bop) && Layout(j, |st.cells|)
    ensures InclusiveScan(k, j, st.cells, Run(k, Whole(j), st).cells)
  {
    var x := Inst(k, j, Projected(k, j, st.cells));
    var len := j.len;
    if len > 0 {
      assert x.IntactOn(st.cells, 0, len);
      RiseCorrect(x, All, Scanning, 0, len, st);
      ScanEndInside(j, 0, len);
      var e := ScanEnd(j, 0, len);
      var s1 := Run(k, Rise(j, All, Scanning, 0, len), st);
      var d := Run(k, Whole(j), st);
      if e != len {
        FallCorrect(x, All, 0, len, e, s1);
        assert d == Run(k, Fall(j, All, 0, len, e), s1);
        SameTrans(x, st.cells, s1.cells, d.cells, 0, len, 0, len);
      } else {
        assert d == Run(k, Block([]), s1) == s1;
      }
    }
    SlotsMakeScan(x, st.cells, Run(k, Whole(j), st).cells);
  }

  /** Every interleaving, under every answer of the oracle, computes the inclusive scan. */
  lemma ScanUnderEverySchedule<T(!new)>(k: Algebra<T>, j: Job, st: Store<T>, t: seq<Op>)
    requires Associative(k.bop) && Layout(j, |st.cells|) && Interleaves(Whole(j), t)
    ensures InclusiveScan(k, j, st.cells, RunTrace(k, t, st).cells)
  {
    WholeRaceFree(j, |st.cells|);
    RaceFreeIsDeterministic(k, Whole(j), t, st);
    WholeCorrect(k, j, st);
  }
}
