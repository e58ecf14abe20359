/**
 Fork-join programs over a flat memory, and their interleavings.

 A task keeps an accumulator in a local variable (a register named after the task) and touches
 shared memory one cell at a time.  A program is a tree of such steps; `Par` is a fork whose two
 halves meet again at a join.  `Run` executes a program depth first, as one worker would;
 `Interleaves` says which step sequences any number of workers may produce.
 */
module Programs {

  /** The two function objects handed to an algorithm. */
  datatype Algebra<!T> = Algebra(bop: (T, T) -> T, proj: T -> T)

  /** Accumulator of the leaf that starts at `at`, or of the inner node that splits at `at`. */
  datatype Reg = Leaf(at: nat) | Node(at: nat)

  datatype Store<T> = Store(cells: seq<T>, regs: map<Reg, T>)

  datatype Op =
    | Load(reg: Reg, addr: nat, projected: bool)     // acc = [proj](*addr)
    | Combine(reg: Reg, addr: nat, projected: bool)  // acc = bop(acc, [proj](*addr))
    | Put(reg: Reg, addr: nat)                       // *addr = acc

  /** Straight-line code, sequencing, and a fork of two halves followed by a join. */
  datatype Prog = Block(ops: seq<Op>) | Seq(first: Prog, second: Prog) | Par(left: Prog, right: Prog)

  function Fetch<T>(k: Algebra<T>, v: T, projected: bool): T {
    if projected then k.proj(v) else v
  }

  function Exec<T>(k: Algebra<T>, op: Op, st: Store<T>): (st': Store<T>)
    ensures |st'.cells| == |st.cells|
  {
    match op
    case Load(r, a, p) =>
      if a < |st.cells| then st.(regs := st.regs[r := Fetch(k, st.cells[a], p)]) else st
    case Combine(r, a, p) =>
      if a < |st.cells| && r in st.regs
      then st.(regs := st.regs[r := k.bop(st.regs[r], Fetch(k, st.cells[a], p))]) else st
    case Put(r, a) =>
      if a < |st.cells| && r in st.regs then st.(cells := st.cells[a := st.regs[r]]) else st
  }

  function RunTrace<T>(k: Algebra<T>, t: seq<Op>, st: Store<T>): (st': Store<T>)
    ensures |st'.cells| == |st.cells|
  {
    if t == [] then st else RunTrace(k, t[1..], Exec(k, t[0], st))
  }

  function Run<T>(k: Algebra<T>, p: Prog, st: Store<T>): (st': Store<T>)
    ensures |st'.cells| == |st.cells|
  {
    match p
    case Block(ops) => RunTrace(k, ops, st)
    case Seq(a, b) => Run(k, b, Run(k, a, st))
    case Par(a, b) => Run(k, b, Run(k, a, st))
  }

  predicate Contains(p: Prog, o: Op) {
    match p
    case Block(ops) => o in ops
    case Seq(a, b) => Contains(a, o) || Contains(b, o)
    case Par(a, b) => Contains(a, o) || Contains(b, o)
  }

  /** `t` merges `a` and `b`, keeping the order of each. */
  ghost predicate Shuffle(a: seq<Op>, b: seq<Op>, t: seq<Op>)
    decreases |a| + |b|
  {
    if t == [] then a == [] && b == []
    else
      || (a != [] && a[0] == t[0] && Shuffle(a[1..], b, t[1..]))
      || (b != [] && b[0] == t[0] && Shuffle(a, b[1..], t[1..]))
  }

  /** `t` is the step sequence of some execution of `p` by any number of workers. */
  ghost predicate Interleaves(p: Prog, t: seq<Op>) {
    match p
    case Block(ops) => t == ops
    case Seq(a, b) => exists i: nat :: i <= |t| && Interleaves(a, t[..i]) && Interleaves(b, t[i..])
    case Par(a, b) => exists u, v :: Interleaves(a, u) && Interleaves(b, v) && Shuffle(u, v, t)
  }

  /** Different registers, and neither writes a cell the other reads or writes. */
  predicate Independent(x: Op, y: Op) {
    x.reg != y.reg && (x.Put? || y.Put? ==> x.addr != y.addr)
  }

  /** The two halves of every fork touch shared memory independently. */
  ghost predicate RaceFree(p: Prog) {
    match p
    case Block(_) => true
    case Seq(a, b) => RaceFree(a) && RaceFree(b)
    case Par(a, b) =>
      RaceFree(a) && RaceFree(b) && forall x, y :: Contains(a, x) && Contains(b, y) ==> Independent(x, y)
  }

  lemma RegsCommute<T>(m: map<Reg, T>, r: Reg, s: Reg, v: T, w: T)
    requires r != s
    ensures m[r := v][s := w] == m[s := w][r := v]
  {
  }

  lemma IndependentOpsCommute<T>(k: Algebra<T>, x: Op, y: Op, st: Store<T>)
    requires Independent(x, y)
    ensures Exec(k, x, Exec(k, y, st)) == Exec(k, y, Exec(k, x, st))
  {
    var sx, sy := Exec(k, x, st), Exec(k, y, st);
    if x.Put? && y.Put? {
      assert Exec(k, x, sy).cells == Exec(k, y, sx).cells;
    } else if x.Put? {
      assert Exec(k, x, sy).regs == Exec(k, y, sx).regs;
    } else if y.Put? {
      assert Exec(k, x, sy).regs == Exec(k, y, sx).regs;
    } else {
      if x.reg in sx.regs && y.reg in sy.regs {
        RegsCommute(st.regs, x.reg, y.reg, sx.regs[x.reg], sy.regs[y.reg]);
      }
    }
  }

  lemma {:induction false} OpCommutesWithTrace<T>(k: Algebra<T>, x: Op, t: seq<Op>, st: Store<T>)
    requires forall i :: 0 <= i < |t| ==> Independent(t[i], x)
    ensures RunTrace(k, t, Exec(k, x, st)) == Exec(k, x, RunTrace(k, t, st))
  {
    if t != [] {
      IndependentOpsCommute(k, t[0], x, st);
      OpCommutesWithTrace(k, x, t[1..], Exec(k, t[0], st));
    }
  }

  /** Any merge of two independent step sequences ends where running one after the other ends. */
  lemma {:induction false} ShuffleRuns<T>(k: Algebra<T>, a: seq<Op>, b: seq<Op>, t: seq<Op>, st: Store<T>)
    requires Shuffle(a, b, t)
    requires forall i, j :: 0 <= i < |a| && 0 <= j < |b| ==> Independent(a[i], b[j])
    ensures RunTrace(k, t, st) == RunTrace(k, b, RunTrace(k, a, st))
    decreases |t|
  {
    if t != [] {
      if a != [] && a[0] == t[0] && Shuffle(a[1..], b, t[1..]) {
        ShuffleRuns(k, a[1..], b, t[1..], Exec(k, a[0], st));
      } else {
        ShuffleRuns(k, a, b[1..], t[1..], Exec(k, b[0], st));
        OpCommutesWithTrace(k, b[0], a, st);
      }
    }
  }

  lemma {:induction false} RunTraceConcat<T>(k: Algebra<T>, a: seq<Op>, b: seq<Op>, st: Store<T>)
    ensures RunTrace(k, a + b, st) == RunTrace(k, b, RunTrace(k, a, st))
  {
    if a == [] {
      assert a + b == b;
    } else {
      assert (a + b)[1..] == a[1..] + b;
      RunTraceConcat(k, a[1..], b, Exec(k, a[0], st));
    }
  }

  lemma TraceStep<T>(k: Algebra<T>, o: Op, t: seq<Op>, st: Store<T>)
    ensures RunTrace(k, [o] + t, st) == RunTrace(k, t, Exec(k, o, st))
  {
    assert ([o] + t)[1..] == t;
  }

  lemma {:induction false} ShuffleMembers(a: seq<Op>, b: seq<Op>, t: seq<Op>)
    requires Shuffle(a, b, t)
    ensures forall x :: x in t ==> x in a || x in b
    decreases |t|
  {
    if t != [] {
      if a != [] && a[0] == t[0] && Shuffle(a[1..], b, t[1..]) {
        ShuffleMembers(a[1..], b, t[1..]);
      } else {
        ShuffleMembers(a, b[1..], t[1..]);
      }
    }
  }

  lemma {:induction false} InterleavingMembers(p: Prog, t: seq<Op>)
    requires Interleaves(p, t)
    ensures forall x :: x in t ==> Contains(p, x)
  {
    match p
    case Block(_) =>
    case Seq(a, b) =>
      var i: nat :| i <= |t| && Interleaves(a, t[..i]) && Interleaves(b, t[i..]);
      InterleavingMembers(a, t[..i]);
      InterleavingMembers(b, t[i..]);
      assert t == t[..i] + t[i..];
    case Par(a, b) =>
      var u, v :| Interleaves(a, u) && Interleaves(b, v) && Shuffle(u, v, t);
      InterleavingMembers(a, u);
      InterleavingMembers(b, v);
      ShuffleMembers(u, v, t);
  }

  /** A race-free program has one outcome: that of running it on a single worker. */
  lemma {:induction false} RaceFreeIsDeterministic<T>(k: Algebra<T>, p: Prog, t: seq<Op>, st: Store<T>)
    requires RaceFree(p) && Interleaves(p, t)
    ensures RunTrace(k, t, st) == Run(k, p, st)
  {
    match p
    case Block(_) =>
    case Seq(a, b) =>
      var i: nat :| i <= |t| && Interleaves(a, t[..i]) && Interleaves(b, t[i..]);
      assert t == t[..i] + t[i..];
      RunTraceConcat(k, t[..i], t[i..], st);
      RaceFreeIsDeterministic(k, a, t[..i], st);
      RaceFreeIsDeterministic(k, b, t[i..], Run(k, a, st));
    case Par(a, b) =>
      var u, v :| Interleaves(a, u) && Interleaves(b, v) && Shuffle(u, v, t);
      InterleavingMembers(a, u);
      InterleavingMembers(b, v);
      ShuffleRuns(k, u, v, t, st);
      RaceFreeIsDeterministic(k, a, u, st);
      RaceFreeIsDeterministic(k, b, v, Run(k, a, st));
  }

  /** Index ranges that bound what a program touches: its registers, writes and two kinds of reads. */
  datatype Box = Box(regs: (int, int), puts: (int, int), projected: (int, int), plain: (int, int))

  predicate In(x: int, range: (int, int)) {
    range.0 <= x < range.1
  }

  predicate OpInside(o: Op, b: Box) {
    && In(o.reg.at, b.regs)
    && In(o.addr, if o.Put? then b.puts else if o.projected then b.projected else b.plain)
  }

  predicate Inside(p: Prog, b: Box) {
    match p
    case Block(ops) => forall i :: 0 <= i < |ops| ==> OpInside(ops[i], b)
    case Seq(x, y) => Inside(x, b) && Inside(y, b)
    case Par(x, y) => Inside(x, b) && Inside(y, b)
  }

  predicate Within(inner: (int, int), outer: (int, int)) {
    outer.0 <= inner.0 && inner.1 <= outer.1
  }

  predicate Contained(a: Box, b: Box) {
    && Within(a.regs, b.regs) && Within(a.puts, b.puts)
    && Within(a.projected, b.projected) && Within(a.plain, b.plain)
  }

  predicate Apart(a: (int, int), b: (int, int)) {
    a.1 <= b.0 || b.1 <= a.0
  }

  /** No register in common, and no write range of one meets any range of the other. */
  predicate Separate(a: Box, b: Box) {
    && Apart(a.regs, b.regs) && Apart(a.puts, b.puts)
    && Apart(a.puts, b.projected) && Apart(a.puts, b.plain)
    && Apart(b.puts, a.projected) && Apart(b.puts, a.plain)
  }

  lemma {:induction false} Widen(p: Prog, a: Box, b: Box)
    requires Inside(p, a) && Contained(a, b)
    ensures Inside(p, b)
  {
    match p
    case Block(_) =>
    case Seq(x, y) => Widen(x, a, b); Widen(y, a, b);
    case Par(x, y) => Widen(x, a, b); Widen(y, a, b);
  }

  lemma {:induction false} InsideHolds(p: Prog, b: Box, o: Op)
    requires Inside(p, b) && Contains(p, o)
    ensures OpInside(o, b)
  {
    match p
    case Block(_) =>
    case Seq(x, y) => if Contains(x, o) { InsideHolds(x, b, o); } else { InsideHolds(y, b, o); }
    case Par(x, y) => if Contains(x, o) { InsideHolds(x, b, o); } else { InsideHolds(y, b, o); }
  }

  /** Two race-free halves bounded by separate boxes may be forked. */
  lemma ForkSeparate(x: Prog, y: Prog, a: Box, b: Box)
    requires RaceFree(x) && RaceFree(y) && Inside(x, a) && Inside(y, b) && Separate(a, b)
    ensures RaceFree(Par(x, y))
  {
    forall o, p | Contains(x, o) && Contains(y, p) ensures Independent(o, p) {
      InsideHolds(x, a, o);
      InsideHolds(y, b, p);
    }
  }
}
