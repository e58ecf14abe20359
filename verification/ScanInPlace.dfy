/** The sweeps as they are written: recursion and loops that update the memory in place. */
module ScanInPlace {
  import opened Programs
  import opened Scan
  import opened ScanCorrect

  /** The leaf loop that accumulates and stores, shared by both sweeps. */
  method ScanLoop<T>(k: Algebra<T>, j: Job, ghost r: Reg, first: T, beg: nat, last: nat, a: array<T>,
                     ghost st: Store<T>)
    returns (ghost st': Store<T>)
    requires Layout(j, a.Length) && beg <= last <= j.len
    requires a[..] == st.cells && r in st.regs && st.regs[r] == first
    modifies a
    ensures st' == RunTrace(k, ScanFrom(j, r, beg, last), st) && a[..] == st'.cells
  {
    var acc, i := first, beg;
    st' := st;
    ghost var goal := RunTrace(k, ScanFrom(j, r, beg, last), st);
    while i != last
      invariant beg <= i <= last
      invariant a[..] == st'.cells && r in st'.regs && st'.regs[r] == acc
      invariant RunTrace(k, ScanFrom(j, r, i, last), st') == goal
    {
      acc, st' := TurnInPlace(k, j, r, i, last, acc, a, st', goal);
      i := i + 1;
    }
  }

  /** One turn of the loop. */
  method TurnInPlace<T>(k: Algebra<T>, j: Job, ghost r: Reg, i: nat, ghost last: nat, acc: T, a: array<T>,
                        ghost st: Store<T>, ghost goal: Store<T>)
    returns (acc': T, ghost st': Store<T>)
    requires Layout(j, a.Length) && i < last <= j.len && a[..] == st.cells && r in st.regs && st.regs[r] == acc
    requires RunTrace(k, ScanFrom(j, r, i, last), st) == goal
    modifies a
    ensures a[..] == st'.cells && r in st'.regs && st'.regs[r] == acc'
    ensures RunTrace(k, ScanFrom(j, r, i + 1, last), st') == goal
  {
    acc' := k.bop(acc, k.proj(a[j.inp + i]));
    st' := ScanStep(k, j, r, i, last, acc', st, goal);
    a[j.out + i] := acc';
  }

  /** The same turn on the store. */
  lemma ScanStep<T>(k: Algebra<T>, j: Job, r: Reg, i: nat, last: nat, acc: T, st: Store<T>, goal: Store<T>)
    returns (s2: Store<T>)
    requires Layout(j, |st.cells|) && i < last <= j.len && r in st.regs
    requires acc == k.bop(st.regs[r], k.proj(st.cells[j.inp + i]))
    requires RunTrace(k, ScanFrom(j, r, i, last), st) == goal
    ensures RunTrace(k, ScanFrom(j, r, i + 1, last), s2) == goal
    ensures s2.cells == st.cells[j.out + i := acc] && r in s2.regs && s2.regs[r] == acc
  {
    ScanFromStep(k, j, r, i, last, st);
    CombineExec(k, r, j.inp + i, st);
    s2 := Exec(k, Put(r, j.out + i), Exec(k, Combine(r, j.inp + i, true), st));
  }

  /** *dst = bop(*src, *dst). */
  method Merge<T>(k: Algebra<T>, ghost r: Reg, src: nat, dst: nat, a: array<T>, ghost st: Store<T>)
    returns (ghost st': Store<T>)
    requires src < a.Length && dst < a.Length && a[..] == st.cells
    modifies a
    ensures st' == Run(k, MergeInto(r, src, dst), st) && a[..] == st'.cells
  {
    MergeIntoRuns(k, r, src, dst, st);
    a[dst] := k.bop(a[src], a[dst]);
    st' := Run(k, MergeInto(r, src, dst), st);
  }

  /** The leaf loop that only accumulates. */
  method FoldLoop<T>(k: Algebra<T>, j: Job, ghost r: Reg, first: T, beg: nat, end: nat, a: array<T>, ghost st: Store<T>)
    returns (acc: T, ghost st': Store<T>)
    requires Layout(j, a.Length) && beg <= end <= j.len
    requires a[..] == st.cells && r in st.regs && st.regs[r] == first
    ensures st' == RunTrace(k, FoldFrom(j, r, beg, end), st)
    ensures st'.cells == a[..] && r in st'.regs && st'.regs[r] == acc
  {
    acc, st' := first, st;
    var i := beg;
    ghost var goal := RunTrace(k, FoldFrom(j, r, beg, end), st);
    while i != end
      invariant beg <= i <= end && a[..] == st'.cells && r in st'.regs && st'.regs[r] == acc
      invariant RunTrace(k, FoldFrom(j, r, i, end), st') == goal
    {
      FoldFromStep(k, j, r, i, end, st');
      CombineExec(k, r, j.inp + i, st');
      acc := k.bop(acc, k.proj(a[j.inp + i]));
      st' := Exec(k, Combine(r, j.inp + i, true), st');
      i := i + 1;
    }
  }

  method RiseSweepLeaf<T>(k: Algebra<T>, j: Job, ival: Interval, sweep: Sweep, beg: nat, end: nat,
                          a: array<T>, ghost st: Store<T>)
    returns (ghost st': Store<T>)
    requires Layout(j, a.Length) && Placed(j, ival, beg, end) && Allowed(ival, sweep) && a[..] == st.cells
    modifies a
    ensures st' == Run(k, RiseLeaf(j, ival, sweep, beg, end), st) && a[..] == st'.cells
  {
    ghost var r := Leaf(beg);
    if sweep.Folding? {
      st' := st;
      if ival.Mid? {
        FoldLeafRuns(k, j, beg, end, st);
        var acc, s2 := FoldLoop(k, j, r, k.proj(a[j.inp + beg]), beg + 1, end, a,
                                Exec(k, Load(r, j.inp + beg, true), st));
        a[j.out + end - 1] := acc;
        st' := Exec(k, Put(r, j.out + end - 1), s2);
      }
    } else if ival.Mid? || ival.Rhs? {
      ghost var load := Load(r, j.out + beg - 1, false);
      TraceStep(k, load, ScanFrom(j, r, beg, end), st);
      st' := ScanLoop(k, j, r, a[j.out + beg - 1], beg, end, a, Exec(k, load, st));
    } else {
      st' := FirstLeaf(k, j, end, a, st);
    }
  }

  /** The leaf with nothing to its left. */
  method FirstLeaf<T>(k: Algebra<T>, j: Job, end: nat, a: array<T>, ghost st: Store<T>)
    returns (ghost st': Store<T>)
    requires Layout(j, a.Length) && 0 < end <= j.len && a[..] == st.cells
    modifies a
    ensures st' == Run(k, RiseLeaf(j, Lhs, Scanning, 0, end), st) && a[..] == st'.cells
  {
    ghost var r := Leaf(0);
    ghost var load, put, rest := Load(r, j.inp, true), Put(r, j.out), ScanFrom(j, r, 1, end);
    ghost var s1 := Exec(k, load, st);
    TraceStep(k, put, rest, s1);
    TraceStep(k, load, [put] + rest, st);
    assert [load, put] + rest == [load] + ([put] + rest);
    var acc := k.proj(a[j.inp]);
    a[j.out] := acc;
    st' := ScanLoop(k, j, r, acc, 1, end, a, Exec(k, put, s1));
  }

  /** Returns one past the end of the scanned range, when scanning. */
  method RiseSweep<T>(k: Algebra<T>, j: Job, ival: Interval, sweep: Sweep, beg: nat, end: nat,
                      a: array<T>, ghost st: Store<T>)
    returns (e: nat, ghost st': Store<T>)
    requires Layout(j, a.Length) && Placed(j, ival, beg, end) && Allowed(ival, sweep) && a[..] == st.cells
    modifies a
    ensures st' == Run(k, Rise(j, ival, sweep, beg, end), st) && a[..] == st'.cells
    ensures sweep.Scanning? ==> e == ScanEnd(j, beg, end)
    decreases end - beg, 0
  {
    if end - beg <= j.n {
      e := end;
      st' := RiseSweepLeaf(k, j, ival, sweep, beg, end, a, st);
      return;
    }
    var m := Split(beg, end);
    RiseUnfolds(k, j, ival, sweep, beg, end, st);
    e, st' := RiseSweep(k, j, LeftChild(ival), sweep, beg, m, a, st);
    if sweep.Scanning? && j.ready(beg, end) && e == m {
      e, st' := RiseSweep(k, j, RightChild(ival), Scanning, m, end, a, st');
      return;
    }
    st' := RiseRight(k, j, ival, m, end, a, st');
  }

  /** The folding right half and the combining step after the join. */
  method RiseRight<T>(k: Algebra<T>, j: Job, ival: Interval, m: nat, end: nat, a: array<T>, ghost st: Store<T>)
    returns (ghost st': Store<T>)
    requires Layout(j, a.Length) && Placed(j, RightChild(ival), m, end) && a[..] == st.cells
    modifies a
    ensures st' == Run(k, Lift(j, ival, m, end), Run(k, Rise(j, RightChild(ival), Folding, m, end), st))
    ensures a[..] == st'.cells
    decreases end - m, 1
  {
    var _, s2 := RiseSweep(k, j, RightChild(ival), Folding, m, end, a, st);
    st' := s2;
    if ival.Lhs? || ival.Mid? {
      st' := Merge(k, Node(m), j.out + m - 1, j.out + end - 1, a, s2);
    }
  }

  method FallSweepImpl<T>(k: Algebra<T>, j: Job, ival: Interval, beg: nat, end: nat, a: array<T>, ghost st: Store<T>)
    returns (ghost st': Store<T>)
    requires Layout(j, a.Length) && Placed(j, ival, beg, end) && (ival.Mid? || ival.Rhs?) && a[..] == st.cells
    modifies a
    ensures st' == Run(k, FallImpl(j, ival, beg, end), st) && a[..] == st'.cells
    decreases end - beg
  {
    if end - beg <= j.n {
      ghost var load := Load(Leaf(beg), j.out + beg - 1, false);
      TraceStep(k, load, ScanFrom(j, Leaf(beg), beg, Last(ival, end)), st);
      st' := ScanLoop(k, j, Leaf(beg), a[j.out + beg - 1], beg, Last(ival, end), a, Exec(k, load, st));
      return;
    }
    var m := Split(beg, end);
    ghost var s1 := Merge(k, Node(m), j.out + beg - 1, j.out + m - 1, a, st);
    ghost var s2 := FallSweepImpl(k, j, LeftChild(ival), beg, m, a, s1);
    st' := FallSweepImpl(k, j, RightChild(ival), m, end, a, s2);
    FallImplUnfolds(k, j, ival, beg, m, end, st, s1, s2, st');
  }

  /** Loops where the right child is the same kind of interval, recurses where it is not. */
  method FallSweep<T>(k: Algebra<T>, j: Job, ival: Interval, first: nat, end: nat, e: nat, a: array<T>,
                      ghost st: Store<T>)
    returns (ghost st': Store<T>)
    requires Layout(j, a.Length) && Placed(j, ival, first, end) && first < e < end && a[..] == st.cells
    modifies a
    ensures st' == Run(k, Fall(j, ival, first, end, e), st) && a[..] == st'.cells
    decreases end - first
  {
    var beg := first;
    while true
      invariant first <= beg < e && Placed(j, ival, beg, end) && a[..] == st.cells
      invariant Run(k, Fall(j, ival, beg, end, e), st) == Run(k, Fall(j, ival, first, end, e), st)
      decreases end - beg
    {
      var m := Split(beg, end);
      if e < m {
        st' := FallSweep(k, j, LeftChild(ival), beg, m, e, a, st);
        st' := FallSweepImpl(k, j, RightChild(ival), m, end, a, st');
        return;
      } else if e == m {
        st' := FallSweepImpl(k, j, RightChild(ival), m, end, a, st);
        return;
      } else if RightChild(ival) != ival {
        st' := FallSweep(k, j, RightChild(ival), m, end, e, a, st);
        return;
      }
      beg := m;
    }
  }

  /** The scan of a range, in place or into another range. */
  method ParallelScan<T(!new)>(k: Algebra<T>, j: Job, a: array<T>)
    requires Associative(k.bop) && Layout(j, a.Length)
    modifies a
    ensures a[j.out..j.out + j.len] == Prefixes(k.bop, Projected(k, j, old(a[..])))
    ensures forall i :: 0 <= i < a.Length && !(j.out <= i < j.out + j.len) ==> a[i] == old(a[i])
  {
    ghost var st := Store(a[..], map[]);
    WholeCorrect(k, j, st);
    if j.len == 0 {
      return;
    }
    ScanEndInside(j, 0, j.len);
    var e, s1 := RiseSweep(k, j, All, Scanning, 0, j.len, a, st);
    ghost var s2 := s1;
    if e != j.len {
      s2 := FallSweep(k, j, All, 0, j.len, e, a, s1);
    }
    assert s2 == Run(k, Whole(j), st);
    assert a[j.out..j.out + j.len] == s2.cells[j.out..j.out + j.len];
  }
}
