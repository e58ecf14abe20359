/** What the two-sweep scan costs: how often it combines, and how long its longest chain of steps is. */
module ScanCost {
  import opened Programs
  import opened Scan
  import opened Powers

  function CombinesIn(ops: seq<Op>): nat {
    if ops == [] then 0 else (if ops[0].Combine? then 1 else 0) + CombinesIn(ops[1..])
  }

  /** How often the binary operator is applied. */
  function Combines(p: Prog): nat {
    match p
    case Block(ops) => CombinesIn(ops)
    case Seq(a, b) => Combines(a) + Combines(b)
    case Par(a, b) => Combines(a) + Combines(b)
  }

  /** The longest chain of steps that must follow one another. */
  function Span(p: Prog): nat {
    match p
    case Block(ops) => |ops|
    case Seq(a, b) => Span(a) + Span(b)
    case Par(a, b) => if Span(a) < Span(b) then Span(b) else Span(a)
  }

  lemma {:induction false} CombinesAppend(x: seq<Op>, y: seq<Op>)
    ensures CombinesIn(x + y) == CombinesIn(x) + CombinesIn(y)
  {
    if x == [] {
      assert x + y == y;
    } else {
      assert (x + y)[0] == x[0] && (x + y)[1..] == x[1..] + y;
      CombinesAppend(x[1..], y);
    }
  }

  lemma {:induction false} FoldFromCost(j: Job, r: Reg, i: nat, end: nat)
    requires i <= end
    ensures CombinesIn(FoldFrom(j, r, i, end)) == end - i && |FoldFrom(j, r, i, end)| == end - i
    decreases end - i
  {
    if i < end {
      FoldFromCost(j, r, i + 1, end);
      CombinesAppend([Combine(r, j.inp + i, true)], FoldFrom(j, r, i + 1, end));
    }
  }

  lemma {:induction false} ScanFromCost(j: Job, r: Reg, i: nat, end: nat)
    requires i <= end
    ensures CombinesIn(ScanFrom(j, r, i, end)) == end - i && |ScanFrom(j, r, i, end)| == 2 * (end - i)
    decreases end - i
  {
    if i < end {
      ScanFromCost(j, r, i + 1, end);
      CombinesAppend([Combine(r, j.inp + i, true), Put(r, j.out + i)], ScanFrom(j, r, i + 1, end));
    }
  }

  lemma MergeCost(r: Reg, src: nat, dst: nat)
    ensures Combines(MergeInto(r, src, dst)) == 1 && Span(MergeInto(r, src, dst)) == 3
  {
    var l, c, p := Load(r, src, false), Combine(r, dst, false), Put(r, dst);
    assert [l, c, p] == [l] + ([c] + [p]);
    CombinesAppend([l], [c] + [p]);
    CombinesAppend([c], [p]);
  }

  lemma LiftCost(j: Job, ival: Interval, m: nat, end: nat)
    requires 1 <= m < end
    ensures Combines(Lift(j, ival, m, end)) <= 1 && Span(Lift(j, ival, m, end)) <= 3
  {
    MergeCost(Node(m), j.out + m - 1, j.out + end - 1);
  }

  /** A chunk that is folded. */
  lemma FoldLeafCost(j: Job, ival: Interval, beg: nat, end: nat)
    requires Placed(j, ival, beg, end) && Allowed(ival, Folding)
    ensures Combines(RiseLeaf(j, ival, Folding, beg, end)) < end - beg
    ensures Span(RiseLeaf(j, ival, Folding, beg, end)) <= end - beg + 1
  {
    var r := Leaf(beg);
    var first, body := Load(r, j.inp + beg, true), FoldFrom(j, r, beg + 1, end);
    FoldFromCost(j, r, beg + 1, end);
    CombinesAppend([first] + body, [Put(r, j.out + end - 1)]);
    CombinesAppend([first], body);
  }

  /** A chunk that is scanned. */
  lemma ScanLeafCost(j: Job, ival: Interval, beg: nat, end: nat)
    requires Placed(j, ival, beg, end)
    ensures Combines(RiseLeaf(j, ival, Scanning, beg, end)) == end - beg - (if beg == 0 then 1 else 0)
    ensures Span(RiseLeaf(j, ival, Scanning, beg, end)) <= 2 * (end - beg) + 1
  {
    var r := Leaf(beg);
    ScanFromCost(j, r, beg, end);
    ScanFromCost(j, r, beg + 1, end);
    if beg == 0 {
      CombinesAppend([Load(r, j.inp + beg, true), Put(r, j.out + beg)], ScanFrom(j, r, beg + 1, end));
    } else {
      CombinesAppend([Load(r, j.out + beg - 1, false)], ScanFrom(j, r, beg, end));
    }
  }

  lemma RiseLeafCost(j: Job, ival: Interval, sweep: Sweep, beg: nat, end: nat)
    requires Placed(j, ival, beg, end) && Allowed(ival, sweep)
    ensures Combines(RiseLeaf(j, ival, sweep, beg, end)) <= end - beg
    ensures Span(RiseLeaf(j, ival, sweep, beg, end)) <= 2 * (end - beg) + 1
  {
    if sweep.Folding? { FoldLeafCost(j, ival, beg, end); } else { ScanLeafCost(j, ival, beg, end); }
  }

  // ---------------------------------------------------------------- work

  lemma {:induction false} RiseWork(j: Job, ival: Interval, sweep: Sweep, beg: nat, end: nat)
    requires Placed(j, ival, beg, end) && Allowed(ival, sweep)
    ensures Combines(Rise(j, ival, sweep, beg, end)) < 2 * (end - beg)
    decreases end - beg
  {
    if end - beg <= j.n {
      RiseLeafCost(j, ival, sweep, beg, end);
    } else {
      var m := Split(beg, end);
      RiseWork(j, LeftChild(ival), sweep, beg, m);
      if sweep.Scanning? && j.ready(beg, end) && ScanEnd(j, beg, m) == m {
        RiseWork(j, RightChild(ival), Scanning, m, end);
      } else {
        RiseWork(j, RightChild(ival), Folding, m, end);
        LiftCost(j, ival, m, end);
      }
    }
  }

  lemma {:induction false} FallImplWork(j: Job, ival: Interval, beg: nat, end: nat)
    requires Placed(j, ival, beg, end) && (ival.Mid? || ival.Rhs?)
    ensures Combines(FallImpl(j, ival, beg, end)) < 2 * (end - beg)
    decreases end - beg
  {
    if end - beg <= j.n {
      ScanFromCost(j, Leaf(beg), beg, Last(ival, end));
      CombinesAppend([Load(Leaf(beg), j.out + beg - 1, false)], ScanFrom(j, Leaf(beg), beg, Last(ival, end)));
    } else {
      var m := Split(beg, end);
      FallImplWork(j, LeftChild(ival), beg, m);
      FallImplWork(j, RightChild(ival), m, end);
      MergeCost(Node(m), j.out + beg - 1, j.out + m - 1);
    }
  }

  lemma {:induction false} FallWork(j: Job, ival: Interval, beg: nat, end: nat, e: nat)
    requires Placed(j, ival, beg, end) && beg < e < end
    ensures Combines(Fall(j, ival, beg, end, e)) < 2 * (end - beg)
    decreases end - beg
  {
    var m := Split(beg, end);
    if e <= m { FallImplWork(j, RightChild(ival), m, end); }
    if e < m { FallWork(j, LeftChild(ival), beg, m, e); }
    if e > m { FallWork(j, RightChild(ival), m, end, e); }
  }

  lemma {:induction false} OnePassWork(j: Job, ival: Interval, beg: nat, end: nat)
    requires Placed(j, ival, beg, end) && AllReady(j, beg, end)
    ensures Combines(Rise(j, ival, Scanning, beg, end)) == end - beg - (if beg == 0 then 1 else 0)
    decreases end - beg
  {
    if end - beg <= j.n {
      ScanLeafCost(j, ival, beg, end);
    } else {
      var m := Split(beg, end);
      OnePass(j, beg, m);
      OnePassWork(j, LeftChild(ival), beg, m);
      OnePassWork(j, RightChild(ival), m, end);
    }
  }

  /**
   The scan is work-efficient: whatever is stolen it combines fewer than four times per element, and if
   nothing is stolen it combines as often as a loop would.
   */
  lemma WorkEfficient(j: Job)
    requires j.n >= 1 && j.len > 0
    ensures Combines(Whole(j)) < 4 * j.len
    ensures AllReady(j, 0, j.len) ==> Combines(Whole(j)) == j.len - 1
  {
    ScanEndInside(j, 0, j.len);
    RiseWork(j, All, Scanning, 0, j.len);
    OnePass(j, 0, j.len);
    var e := ScanEnd(j, 0, j.len);
    if e != j.len { FallWork(j, All, 0, j.len, e); }
    if AllReady(j, 0, j.len) { OnePassWork(j, All, 0, j.len); }
  }

  // ---------------------------------------------------------------- span

  /** The halves of a range of at most n * 2^k elements have at most n * 2^(k - 1). */
  lemma Halves(n: nat, k: nat, beg: nat, end: nat)
    requires n >= 1 && n < end - beg <= n * Pow2(k)
    ensures k > 0
    ensures var m := Split(beg, end);
      m - beg <= n * Pow2(k - 1) && end - m <= n * Pow2(k - 1)
  {
    if k > 0 {
      assert n * Pow2(k) == 2 * (n * Pow2(k - 1));
    }
  }

  ghost predicate AllStolen(j: Job) { forall a: nat, b: nat :: !j.ready(a, b) }

  lemma {:induction false} RiseSpan(j: Job, ival: Interval, sweep: Sweep, beg: nat, end: nat, k: nat)
    requires Placed(j, ival, beg, end) && Allowed(ival, sweep) && (sweep.Scanning? ==> AllStolen(j))
    requires end - beg <= j.n * Pow2(k)
    ensures Span(Rise(j, ival, sweep, beg, end)) <= 3 * k + 2 * j.n + 1
    decreases end - beg
  {
    if end - beg <= j.n {
      RiseLeafCost(j, ival, sweep, beg, end);
    } else {
      var m := Split(beg, end);
      Halves(j.n, k, beg, end);
      RiseSpan(j, LeftChild(ival), sweep, beg, m, k - 1);
      RiseSpan(j, RightChild(ival), Folding, m, end, k - 1);
      LiftCost(j, ival, m, end);
    }
  }

  lemma {:induction false} FallImplSpan(j: Job, ival: Interval, beg: nat, end: nat, k: nat)
    requires Placed(j, ival, beg, end) && (ival.Mid? || ival.Rhs?) && end - beg <= j.n * Pow2(k)
    ensures Span(FallImpl(j, ival, beg, end)) <= 3 * k + 2 * j.n + 1
    decreases end - beg
  {
    if end - beg <= j.n {
      ScanFromCost(j, Leaf(beg), beg, Last(ival, end));
    } else {
      var m := Split(beg, end);
      Halves(j.n, k, beg, end);
      MergeCost(Node(m), j.out + beg - 1, j.out + m - 1);
      FallImplSpan(j, LeftChild(ival), beg, m, k - 1);
      FallImplSpan(j, RightChild(ival), m, end, k - 1);
    }
  }

  /** Place e is where the recursion splits some range. */
  predicate IsSplit(j: Job, beg: nat, end: nat, e: nat)
    requires j.n >= 1 && beg < end
    decreases end - beg
  {
    && end - beg > j.n
    && (e == Split(beg, end) || IsSplit(j, beg, Split(beg, end), e) || IsSplit(j, Split(beg, end), end, e))
  }

  lemma {:induction false} SplitInside(j: Job, beg: nat, end: nat, e: nat)
    requires j.n >= 1 && beg < end && IsSplit(j, beg, end, e)
    ensures beg < e < end
    decreases end - beg
  {
    var m := Split(beg, end);
    if IsSplit(j, beg, m, e) { SplitInside(j, beg, m, e); }
    if IsSplit(j, m, end, e) { SplitInside(j, m, end, e); }
  }

  lemma SplitSide(j: Job, beg: nat, end: nat, e: nat)
    requires j.n >= 1 && beg < end && IsSplit(j, beg, end, e)
    ensures end - beg > j.n
    ensures var m := Split(beg, end);
      (e < m ==> IsSplit(j, beg, m, e)) && (e > m ==> IsSplit(j, m, end, e))
  {
    var m := Split(beg, end);
    if IsSplit(j, beg, m, e) { SplitInside(j, beg, m, e); }
    if IsSplit(j, m, end, e) { SplitInside(j, m, end, e); }
  }

  lemma {:induction false} ScanEndSplits(j: Job, beg: nat, end: nat)
    requires j.n >= 1 && beg < end
    ensures ScanEnd(j, beg, end) == end || IsSplit(j, beg, end, ScanEnd(j, beg, end))
    decreases end - beg
  {
    if end - beg > j.n {
      ScanEndSplits(j, beg, Split(beg, end));
      ScanEndSplits(j, Split(beg, end), end);
    }
  }

  lemma {:induction false} FallSpan(j: Job, ival: Interval, beg: nat, end: nat, e: nat, k: nat)
    requires Placed(j, ival, beg, end) && beg < e < end && IsSplit(j, beg, end, e) && end - beg <= j.n * Pow2(k)
    ensures Span(Fall(j, ival, beg, end, e)) <= 3 * k + 2 * j.n + 1
    decreases end - beg
  {
    var m := Split(beg, end);
    Halves(j.n, k, beg, end);
    SplitSide(j, beg, end, e);
    if e > m {
      FallSpan(j, RightChild(ival), m, end, e, k - 1);
    } else {
      FallImplSpan(j, RightChild(ival), m, end, k - 1);
      if e < m { FallSpan(j, LeftChild(ival), beg, m, e, k - 1); }
    }
  }

  /**
   The scan is parallel: when every right half is stolen, its longest chain of steps is logarithmic in the
   number of chunks, besides the time for a chunk in each sweep.
   */
  lemma LogarithmicSpan(j: Job, k: nat)
    requires j.n >= 1 && AllStolen(j) && j.len <= j.n * Pow2(k)
    ensures Span(Whole(j)) <= 6 * k + 4 * j.n + 2
  {
    if j.len > 0 {
      ScanEndInside(j, 0, j.len);
      ScanEndSplits(j, 0, j.len);
      RiseSpan(j, All, Scanning, 0, j.len, k);
      var e := ScanEnd(j, 0, j.len);
      if e != j.len { FallSpan(j, All, 0, j.len, e, k); }
    }
  }
}
