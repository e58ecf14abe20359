/**
 The two-sweep parallel scan: the steps it takes, and what they compute.

 Memory is one flat sequence of cells.  The input range starts at `inp` and the output range at
 `out`; an in-place scan has `inp == out`, otherwise the ranges do not overlap.
 */
module Scan {
  import opened Programs

  /** Where a node sits: the whole range, its left end, its inside or its right end. */
  datatype Interval = All | Lhs | Mid | Rhs

  datatype Sweep = Scanning | Folding

  function LeftChild(ival: Interval): Interval {
    if ival.All? || ival.Lhs? then Lhs else Mid
  }

  function RightChild(ival: Interval): Interval {
    if ival.All? || ival.Rhs? then Rhs else Mid
  }

  /** `ready(beg, end)` answers whether the left child forked at that node finished synchronously. */
  datatype Job = Job(inp: nat, out: nat, len: nat, n: nat, ready: (nat, nat) -> bool)

  predicate Layout(j: Job, size: nat) {
    && j.n >= 1
    && j.inp + j.len <= size && j.out + j.len <= size
    && (j.inp == j.out || j.inp + j.len <= j.out || j.out + j.len <= j.inp)
  }

  predicate Placed(j: Job, ival: Interval, beg: nat, end: nat) {
    && j.n >= 1 && beg < end <= j.len
    && (ival.Mid? || ival.Rhs? ==> 1 <= beg)
    && (ival.All? || ival.Lhs? ==> beg == 0)
  }

  predicate Allowed(ival: Interval, sweep: Sweep) {
    sweep.Folding? ==> ival.Mid? || ival.Rhs?
  }

  function Split(beg: nat, end: nat): (m: nat)
    requires beg < end
    ensures beg <= m < end && (end - beg >= 2 ==> beg < m)
  {
    beg + (end - beg) / 2
  }

  // ---------------------------------------------------------------- the steps

  /** acc = bop(acc, proj(in[i])) for each i of [i, end). */
  function FoldFrom(j: Job, r: Reg, i: nat, end: nat): seq<Op>
    decreases end - i
  {
    if i >= end then [] else [Combine(r, j.inp + i, true)] + FoldFrom(j, r, i + 1, end)
  }

  /** acc = bop(acc, proj(in[i])); out[i] = acc for each i of [i, end). */
  function ScanFrom(j: Job, r: Reg, i: nat, end: nat): seq<Op>
    decreases end - i
  {
    if i >= end then [] else [Combine(r, j.inp + i, true), Put(r, j.out + i)] + ScanFrom(j, r, i + 1, end)
  }

  /** *dst = bop(*src, *dst). */
  function MergeInto(r: Reg, src: nat, dst: nat): Prog {
    Block([Load(r, src, false), Combine(r, dst, false), Put(r, dst)])
  }

  function RiseLeaf(j: Job, ival: Interval, sweep: Sweep, beg: nat, end: nat): Prog
    requires Placed(j, ival, beg, end) && Allowed(ival, sweep)
  {
    var r := Leaf(beg);
    if sweep.Folding? then
      if ival.Mid? then
        Block([Load(r, j.inp + beg, true)] + FoldFrom(j, r, beg + 1, end) + [Put(r, j.out + end - 1)])
      else Block([])
    else if ival.Mid? || ival.Rhs? then
      Block([Load(r, j.out + beg - 1, false)] + ScanFrom(j, r, beg, end))
    else
      Block([Load(r, j.inp + beg, true), Put(r, j.out + beg)] + ScanFrom(j, r, beg + 1, end))
  }

  /** One past the end of what the rise sweep of a scanning node has finished. */
  function ScanEnd(j: Job, beg: nat, end: nat): nat
    requires j.n >= 1 && beg < end
    decreases end - beg
  {
    if end - beg <= j.n then end
    else
      var m := Split(beg, end);
      var e := ScanEnd(j, beg, m);
      if j.ready(beg, end) && e == m then ScanEnd(j, m, end) else e
  }

  function Lift(j: Job, ival: Interval, m: nat, end: nat): Prog
    requires 1 <= m < end
  {
    if ival.Lhs? || ival.Mid? then MergeInto(Node(m), j.out + m - 1, j.out + end - 1) else Block([])
  }

  function Rise(j: Job, ival: Interval, sweep: Sweep, beg: nat, end: nat): Prog
    requires Placed(j, ival, beg, end) && Allowed(ival, sweep)
    decreases end - beg
  {
    if end - beg <= j.n then RiseLeaf(j, ival, sweep, beg, end)
    else
      var m := Split(beg, end);
      var left := Rise(j, LeftChild(ival), sweep, beg, m);
      if sweep.Scanning? && j.ready(beg, end) && ScanEnd(j, beg, m) == m then
        Seq(left, Rise(j, RightChild(ival), Scanning, m, end))
      else
        Seq(Par(left, Rise(j, RightChild(ival), Folding, m, end)), Lift(j, ival, m, end))
  }

  /** One past the last slot a fall sweep writes: an inner node's last slot is already final. */
  function Last(ival: Interval, end: nat): nat
    requires 1 <= end
  {
    if ival.Rhs? || ival.All? then end else end - 1
  }

  function FallImpl(j: Job, ival: Interval, beg: nat, end: nat): Prog
    requires Placed(j, ival, beg, end) && (ival.Mid? || ival.Rhs?)
    decreases end - beg
  {
    if end - beg <= j.n then
      Block([Load(Leaf(beg), j.out + beg - 1, false)] + ScanFrom(j, Leaf(beg), beg, Last(ival, end)))
    else
      var m := Split(beg, end);
      Seq(MergeInto(Node(m), j.out + beg - 1, j.out + m - 1),
          Par(FallImpl(j, LeftChild(ival), beg, m), FallImpl(j, RightChild(ival), m, end)))
  }

  function Fall(j: Job, ival: Interval, beg: nat, end: nat, e: nat): Prog
    requires Placed(j, ival, beg, end) && beg < e < end
    decreases end - beg
  {
    var m := Split(beg, end);
    if e < m then Par(Fall(j, LeftChild(ival), beg, m, e), FallImpl(j, RightChild(ival), m, end))
    else if e == m then FallImpl(j, RightChild(ival), m, end)
    else Fall(j, RightChild(ival), m, end, e)
  }

  function Whole(j: Job): Prog
    requires j.n >= 1
  {
    if j.len == 0 then Block([])
    else
      ScanEndInside(j, 0, j.len);
      var e := ScanEnd(j, 0, j.len);
      Seq(Rise(j, All, Scanning, 0, j.len), if e != j.len then Fall(j, All, 0, j.len, e) else Block([]))
  }

  /** [a, b) is one of the chunks that the recursion on [beg, end) ends in. */
  predicate IsLeaf(j: Job, beg: nat, end: nat, a: nat, b: nat)
    requires j.n >= 1 && beg < end
    decreases end - beg
  {
    if end - beg <= j.n then a == beg && b == end
    else IsLeaf(j, beg, Split(beg, end), a, b) || IsLeaf(j, Split(beg, end), end, a, b)
  }

  lemma {:induction false} LeafInside(j: Job, beg: nat, end: nat, a: nat, b: nat)
    requires j.n >= 1 && beg < end && IsLeaf(j, beg, end, a, b)
    ensures beg <= a < b <= end
    decreases end - beg
  {
    if end - beg > j.n {
      var m := Split(beg, end);
      if IsLeaf(j, beg, m, a, b) { LeafInside(j, beg, m, a, b); } else { LeafInside(j, m, end, a, b); }
    }
  }

  /** The scan end lies in the range, past its start, and never strictly inside a chunk. */
  lemma {:induction false} ScanEndInside(j: Job, beg: nat, end: nat)
    requires j.n >= 1 && beg < end
    ensures beg < ScanEnd(j, beg, end) <= end
    ensures end - beg <= j.n ==> ScanEnd(j, beg, end) == end
    ensures forall a: nat, b: nat :: IsLeaf(j, beg, end, a, b) ==> !(a < ScanEnd(j, beg, end) < b)
    decreases end - beg
  {
    var e := ScanEnd(j, beg, end);
    if end - beg > j.n {
      ScanEndInside(j, beg, Split(beg, end));
      ScanEndInside(j, Split(beg, end), end);
    }
    forall a: nat, b: nat | IsLeaf(j, beg, end, a, b) ensures !(a < e < b) {
      LeafInside(j, beg, end, a, b);
      if end - beg > j.n { LeafSide(j, beg, end, a, b); }
    }
  }

  lemma LeafSide(j: Job, beg: nat, end: nat, a: nat, b: nat)
    requires j.n >= 1 && end - beg > j.n && IsLeaf(j, beg, end, a, b)
    ensures var m := Split(beg, end);
      (IsLeaf(j, beg, m, a, b) && b <= m) || (IsLeaf(j, m, end, a, b) && m <= a)
  {
    var m := Split(beg, end);
    if IsLeaf(j, beg, m, a, b) { LeafInside(j, beg, m, a, b); } else { LeafInside(j, m, end, a, b); }
  }

  /** At every fork inside [beg, end) the left half was seen to be finished. */
  predicate AllReady(j: Job, beg: nat, end: nat)
    requires j.n >= 1 && beg < end
    decreases end - beg
  {
    end - beg <= j.n
    || (j.ready(beg, end) && AllReady(j, beg, Split(beg, end)) && AllReady(j, Split(beg, end), end))
  }

  /** One pass does it all exactly if nothing was stolen; then there is no second sweep. */
  lemma {:induction false} OnePass(j: Job, beg: nat, end: nat)
    requires j.n >= 1 && beg < end
    ensures ScanEnd(j, beg, end) == end <==> AllReady(j, beg, end)
    decreases end - beg
  {
    if end - beg > j.n {
      var m := Split(beg, end);
      OnePass(j, beg, m);
      OnePass(j, m, end);
      ScanEndInside(j, beg, m);
    }
  }

  /** If every left half was stolen only the first chunk is scanned on the way up. */
  lemma {:induction false} NeverReady(j: Job, beg: nat, end: nat)
    requires j.n >= 1 && beg < end && forall a: nat, b: nat :: !j.ready(a, b)
    ensures IsLeaf(j, beg, end, beg, ScanEnd(j, beg, end))
    decreases end - beg
  {
    if end - beg > j.n { NeverReady(j, beg, Split(beg, end)); }
  }

  // ---------------------------------------------------------------- race freedom

  /** What a rise sweep of [beg, end) touches; only a scanning node looks at the slot before it. */
  function RiseBox(j: Job, sweep: Sweep, beg: nat, end: nat): Box {
    Box((beg, end), (j.out + beg, j.out + end), (j.inp + beg, j.inp + end),
        (j.out + beg - (if sweep.Scanning? then 1 else 0), j.out + end))
  }

  /** What a fall sweep of [beg, end) touches: the slot before it, and slots before `Last`. */
  function FallBox(j: Job, ival: Interval, beg: nat, end: nat): Box
    requires 1 <= end
  {
    var last := Last(ival, end);
    Box((beg, end), (j.out + beg, j.out + last), (j.inp + beg, j.inp + last), (j.out + beg - 1, j.out + last))
  }

  lemma {:induction false} FoldFromInside(j: Job, r: Reg, i: nat, end: nat, b: Box)
    requires In(r.at, b.regs) && Within((j.inp + i, j.inp + end), b.projected)
    ensures Inside(Block(FoldFrom(j, r, i, end)), b)
    decreases end - i
  {
    if i < end { FoldFromInside(j, r, i + 1, end, b); }
  }

  lemma {:induction false} ScanFromInside(j: Job, r: Reg, i: nat, end: nat, b: Box)
    requires In(r.at, b.regs) && Within((j.inp + i, j.inp + end), b.projected)
    requires Within((j.out + i, j.out + end), b.puts)
    ensures Inside(Block(ScanFrom(j, r, i, end)), b)
    decreases end - i
  {
    if i < end { ScanFromInside(j, r, i + 1, end, b); }
  }

  lemma RiseLeafInside(j: Job, ival: Interval, sweep: Sweep, beg: nat, end: nat)
    requires Placed(j, ival, beg, end) && Allowed(ival, sweep)
    ensures Inside(RiseLeaf(j, ival, sweep, beg, end), RiseBox(j, sweep, beg, end))
  {
    var b := RiseBox(j, sweep, beg, end);
    FoldFromInside(j, Leaf(beg), beg + 1, end, b);
    ScanFromInside(j, Leaf(beg), beg + 1, end, b);
    ScanFromInside(j, Leaf(beg), beg, end, b);
  }

  /** A rise sweep stays inside its box, and the halves of each of its forks are independent. */
  lemma {:induction false} RiseRaceFree(j: Job, size: nat, ival: Interval, sweep: Sweep, beg: nat, end: nat)
    requires Layout(j, size) && Placed(j, ival, beg, end) && Allowed(ival, sweep)
    ensures RaceFree(Rise(j, ival, sweep, beg, end))
    ensures Inside(Rise(j, ival, sweep, beg, end), RiseBox(j, sweep, beg, end))
    decreases end - beg
  {
    if end - beg <= j.n {
      RiseLeafInside(j, ival, sweep, beg, end);
    } else {
      var m := Split(beg, end);
      var b, lb := RiseBox(j, sweep, beg, end), RiseBox(j, sweep, beg, m);
      var left := Rise(j, LeftChild(ival), sweep, beg, m);
      RiseRaceFree(j, size, LeftChild(ival), sweep, beg, m);
      Widen(left, lb, b);
      if sweep.Scanning? && j.ready(beg, end) && ScanEnd(j, beg, m) == m {
        RiseRaceFree(j, size, RightChild(ival), Scanning, m, end);
        Widen(Rise(j, RightChild(ival), Scanning, m, end), RiseBox(j, Scanning, m, end), b);
      } else {
        var right, rb := Rise(j, RightChild(ival), Folding, m, end), RiseBox(j, Folding, m, end);
        RiseRaceFree(j, size, RightChild(ival), Folding, m, end);
        Widen(right, rb, b);
        ForkSeparate(left, right, lb, rb);
        assert Inside(Par(left, right), b) && Inside(Lift(j, ival, m, end), b);
      }
    }
  }

  lemma FallImplIs(j: Job, ival: Interval, beg: nat, m: nat, end: nat)
    requires Placed(j, ival, beg, end) && (ival.Mid? || ival.Rhs?) && end - beg > j.n && m == Split(beg, end)
    ensures FallImpl(j, ival, beg, end) == Seq(MergeInto(Node(m), j.out + beg - 1, j.out + m - 1),
              Par(FallImpl(j, LeftChild(ival), beg, m), FallImpl(j, RightChild(ival), m, end)))
  {
  }

  lemma FallLeafInside(j: Job, ival: Interval, beg: nat, end: nat)
    requires Placed(j, ival, beg, end) && (ival.Mid? || ival.Rhs?) && end - beg <= j.n
    ensures Inside(FallImpl(j, ival, beg, end), FallBox(j, ival, beg, end)) && RaceFree(FallImpl(j, ival, beg, end))
  {
    ScanFromInside(j, Leaf(beg), beg, Last(ival, end), FallBox(j, ival, beg, end));
  }

  /** The halves of a node write apart from each other, and both inside the node. */
  lemma FallHalvesInside(j: Job, size: nat, ival: Interval, beg: nat, m: nat, end: nat, left: Prog, right: Prog)
    requires Layout(j, size) && Placed(j, ival, beg, end)
    requires (ival.Mid? || ival.Rhs?) && end - beg > j.n && m == Split(beg, end)
    requires RaceFree(left) && RaceFree(right)
    requires Inside(left, FallBox(j, LeftChild(ival), beg, m)) && Inside(right, FallBox(j, RightChild(ival), m, end))
    ensures RaceFree(Par(left, right)) && Inside(Par(left, right), FallBox(j, ival, beg, end))
  {
    var b := FallBox(j, ival, beg, end);
    var lb, rb := FallBox(j, LeftChild(ival), beg, m), FallBox(j, RightChild(ival), m, end);
    Widen(left, lb, b);
    Widen(right, rb, b);
    ForkSeparate(left, right, lb, rb);
  }

  lemma {:induction false} FallImplRaceFree(j: Job, size: nat, ival: Interval, beg: nat, end: nat)
    requires Layout(j, size) && Placed(j, ival, beg, end) && (ival.Mid? || ival.Rhs?)
    ensures RaceFree(FallImpl(j, ival, beg, end))
    ensures Inside(FallImpl(j, ival, beg, end), FallBox(j, ival, beg, end))
    decreases end - beg
  {
    if end - beg <= j.n {
      FallLeafInside(j, ival, beg, end);
    } else {
      var m := Split(beg, end);
      FallImplRaceFree(j, size, LeftChild(ival), beg, m);
      FallImplRaceFree(j, size, RightChild(ival), m, end);
      FallHalvesInside(j, size, ival, beg, m, end, FallImpl(j, LeftChild(ival), beg, m),
                       FallImpl(j, RightChild(ival), m, end));
      FallImplIs(j, ival, beg, m, end);
      assert Inside(MergeInto(Node(m), j.out + beg - 1, j.out + m - 1), FallBox(j, ival, beg, end));
    }
  }

  lemma {:induction false} FallRaceFree(j: Job, size: nat, ival: Interval, beg: nat, end: nat, e: nat)
    requires Layout(j, size) && Placed(j, ival, beg, end) && beg < e < end
    ensures RaceFree(Fall(j, ival, beg, end, e))
    ensures Inside(Fall(j, ival, beg, end, e), FallBox(j, ival, beg, end))
    decreases end - beg
  {
    var m := Split(beg, end);
    var b := FallBox(j, ival, beg, end);
    var lb, rb := FallBox(j, LeftChild(ival), beg, m), FallBox(j, RightChild(ival), m, end);
    if e <= m {
      var right := FallImpl(j, RightChild(ival), m, end);
      FallImplRaceFree(j, size, RightChild(ival), m, end);
      Widen(right, rb, b);
      if e < m {
        var left := Fall(j, LeftChild(ival), beg, m, e);
        FallRaceFree(j, size, LeftChild(ival), beg, m, e);
        Widen(left, lb, b);
        ForkSeparate(left, right, lb, rb);
      }
    } else {
      FallRaceFree(j, size, RightChild(ival), m, end, e);
      Widen(Fall(j, RightChild(ival), m, end, e), rb, b);
    }
  }

  /** The whole scan is race free, in place or not, for every answer of the oracle. */
  lemma WholeRaceFree(j: Job, size: nat)
    requires Layout(j, size)
    ensures RaceFree(Whole(j))
  {
    if j.len > 0 {
      ScanEndInside(j, 0, j.len);
      RiseRaceFree(j, size, All, Scanning, 0, j.len);
      if ScanEnd(j, 0, j.len) != j.len {
        FallRaceFree(j, size, All, 0, j.len, ScanEnd(j, 0, j.len));
      }
    }
  }
}
