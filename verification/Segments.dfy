/**
 What a segmented stack holds: the capacities of its stacklets, oldest first, and for each stacklet up
 to the top the sizes of the blocks on it.  One stacklet may be cached ahead of the top.
 */
module Segments {
  import opened Powers

  const PAGE: nat := 4096
  const META: nat := 48       // malloc_meta_data_size
  const HEADER: nat := 48     // sizeof(stacklet)
  const ALIGN: nat := 16      // k_new_align

  /** ext_size: the next multiple of the alignment. */
  function Ext(size: nat): (e: nat)
    ensures size <= e < size + ALIGN && e % ALIGN == 0
  {
    (size + (ALIGN - 1)) / ALIGN * ALIGN
  }

  lemma OfPage(x: int, k: int)
    requires x == 4096 * k
    ensures x % 4096 == 0
  {
  }

  lemma OfAlign(x: int, k: int)
    requires x == 16 * k
    ensures x % 16 == 0
  {
  }

  lemma Multiples(pages: nat, r: int)
    requires pages > 0 && r == pages * 4096 - 48
    ensures (r + 48) % 4096 == 0 && r % 16 == 0
  {
    OfPage(r + 48, pages);
    OfAlign(r, 256 * pages - 3);
  }

  /** round_up_to_page_size */
  function Request(size: nat): (r: nat)
    ensures size <= r < size + PAGE && (r + META) % PAGE == 0 && r % ALIGN == 0
  {
    var pages := (size + META + (PAGE - 1)) / PAGE;
    var r := pages * PAGE - META;
    Multiples(pages, r);
    r
  }

  /** The capacity of a stacklet requested for a given size. */
  function Capacity(size: nat): (c: nat)
    ensures size <= c < size + PAGE && c % ALIGN == 0
  {
    Request(size + HEADER) - HEADER
  }

  function Max(a: nat, b: nat): nat { if a < b then b else a }

  function Sum(s: seq<nat>): nat { if s == [] then 0 else Sum(s[..|s| - 1]) + s[|s| - 1] }

  datatype Chain = Chain(caps: seq<nat>, segs: seq<seq<nat>>)

  /** Capacities at least double. */
  predicate CapOk(caps: seq<nat>, i: nat)
    requires i < |caps|
  {
    0 < caps[i] && caps[i] % ALIGN == 0 && (i > 0 ==> caps[i] >= 2 * caps[i - 1])
  }

  /** The blocks fit; only the root may be without, and the first block elsewhere is not empty. */
  ghost predicate SegOk(cap: nat, seg: seq<nat>, root: bool) {
    && Sum(seg) <= cap && (forall j :: 0 <= j < |seg| ==> seg[j] % ALIGN == 0)
    && (!root ==> seg != [] && seg[0] > 0)
  }

  ghost predicate CapsOk(caps: seq<nat>) {
    forall i {:trigger CapOk(caps, i)} :: 0 <= i < |caps| ==> CapOk(caps, i)
  }

  ghost predicate SegsOk(caps: seq<nat>, segs: seq<seq<nat>>)
    requires |segs| <= |caps|
  {
    forall i {:trigger SegAt(caps, segs, i)} :: 0 <= i < |segs| ==> SegAt(caps, segs, i)
  }

  ghost predicate SegAt(caps: seq<nat>, segs: seq<seq<nat>>, i: nat)
    requires i < |segs| <= |caps|
  {
    SegOk(caps[i], segs[i], i == 0)
  }

  ghost predicate Ok(c: Chain) {
    0 < |c.segs| <= |c.caps| <= |c.segs| + 1 && CapsOk(c.caps) && SegsOk(c.caps, c.segs)
  }

  function Empty(): Chain { Chain([Capacity(1)], [[]]) }

  function PushBlock(c: Chain, e: nat): Chain
    requires 0 < |c.segs|
  {
    var top := |c.segs| - 1;
    c.(segs := c.segs[top := c.segs[top] + [e]])
  }

  /** The next stacklet becomes the top: the cached one if it is large enough, else a new one. */
  function Advance(c: Chain, e: nat): Chain
    requires 0 < |c.segs| <= |c.caps|
  {
    var n := |c.segs|;
    if |c.caps| > n && c.caps[n] >= e then c.(segs := c.segs + [[]])
    else Chain(c.caps[..n] + [Capacity(Max(2 * c.caps[n - 1], e))], c.segs + [[]])
  }

  function MakeRoom(c: Chain, e: nat): Chain
    requires 0 < |c.segs| <= |c.caps|
  {
    if c.caps[|c.segs| - 1] >= Sum(c.segs[|c.segs| - 1]) + e then c else Advance(c, e)
  }

  function Alloc(c: Chain, size: nat): Chain
    requires 0 < |c.segs| <= |c.caps|
  {
    PushBlock(MakeRoom(c, Ext(size)), Ext(size))
  }

  /** The blocks left when the newest is gone. */
  function DropSegs(segs: seq<seq<nat>>): seq<seq<nat>>
    requires segs != [] && segs[|segs| - 1] != []
  {
    var top := |segs| - 1;
    var seg := segs[top][..|segs[top]| - 1];
    if Sum(seg) == 0 && top > 0 then segs[..top] else segs[top := seg]
  }

  /** Free a cached stacklet that is too large for the top. */
  function Guard(caps: seq<nat>, top: nat): seq<nat>
    requires top < |caps|
  {
    if top + 1 < |caps| && caps[top + 1] > 8 * caps[top] then caps[..top + 1] else caps
  }

  function Dealloc(c: Chain): Chain
    requires 0 < |c.segs| <= |c.caps| && c.segs[|c.segs| - 1] != []
  {
    var top := |c.segs| - 1;
    var seg := c.segs[top][..|c.segs[top]| - 1];
    if Sum(seg) != 0 then c.(segs := DropSegs(c.segs))
    else if top > 0 then Chain(Guard(c.caps[..top + 1], top - 1), DropSegs(c.segs))
    else Chain(Guard(c.caps, 0), DropSegs(c.segs))
  }

  // ---------------------------------------------------------------- deallocation in steps

  function PopBlock(c: Chain): Chain
    requires 0 < |c.segs| && c.segs[|c.segs| - 1] != []
  {
    var top := |c.segs| - 1;
    c.(segs := c.segs[top := c.segs[top][..|c.segs[top]| - 1]])
  }

  /** The empty top becomes the cache of its predecessor; what was cached ahead of it is freed. */
  function Retreat(c: Chain): Chain
    requires 0 < |c.segs| <= |c.caps|
  {
    Chain(c.caps[..|c.segs|], c.segs[..|c.segs| - 1])
  }

  function Settle(c: Chain): Chain
    requires 0 < |c.segs| <= |c.caps|
  {
    c.(caps := Guard(c.caps, |c.segs| - 1))
  }

  lemma DeallocSteps(c: Chain)
    requires 0 < |c.segs| <= |c.caps| && c.segs[|c.segs| - 1] != []
    ensures var p, top := PopBlock(c), |c.segs| - 1;
      Dealloc(c) == if Sum(p.segs[top]) != 0 then p else Settle(if top > 0 then Retreat(p) else p)
  {
    var top := |c.segs| - 1;
    assert PopBlock(c).segs[..top] == c.segs[..top];
  }

  // ---------------------------------------------------------------- what every operation keeps

  lemma SumPush(s: seq<nat>, x: nat)
    ensures Sum(s + [x]) == Sum(s) + x
  {
    assert (s + [x])[..|s|] == s;
  }

  lemma CapsPush(caps: seq<nat>, x: nat)
    requires caps != [] && CapsOk(caps) && x % ALIGN == 0 && x >= 2 * caps[|caps| - 1]
    ensures CapsOk(caps + [x])
  {
    assert CapOk(caps, |caps| - 1);
    forall i | 0 <= i < |caps| ensures CapOk(caps + [x], i) { assert CapOk(caps, i); }
  }

  lemma CapsCut(caps: seq<nat>, n: nat)
    requires CapsOk(caps) && n <= |caps|
    ensures CapsOk(caps[..n])
  {
    forall i | 0 <= i < n ensures CapOk(caps[..n], i) { assert CapOk(caps, i); }
  }

  lemma SegPush(cap: nat, seg: seq<nat>, root: bool, e: nat)
    requires SegOk(cap, seg, root) || (seg == [] && e > 0)
    requires Sum(seg) + e <= cap && e % ALIGN == 0
    ensures SegOk(cap, seg + [e], root)
  {
    SumPush(seg, e);
  }

  /** Like Ok, but the top may still be without blocks. */
  ghost predicate RoomFor(c: Chain, e: nat) {
    && 0 < |c.segs| <= |c.caps| <= |c.segs| + 1 && CapsOk(c.caps)
    && var top := |c.segs| - 1;
    && (forall i {:trigger SegAt(c.caps, c.segs, i)} :: 0 <= i < top ==> SegAt(c.caps, c.segs, i))
    && (SegOk(c.caps[top], c.segs[top], top == 0) || (c.segs[top] == [] && e > 0))
    && Sum(c.segs[top]) + e <= c.caps[top]
  }

  lemma MakeRoomKeeps(c: Chain, e: nat)
    requires Ok(c) && e % ALIGN == 0
    ensures RoomFor(MakeRoom(c, e), e)
  {
    var n, c' := |c.segs|, MakeRoom(c, e);
    assert SegAt(c.caps, c.segs, n - 1);
    if |c'.segs| > n && c'.caps != c.caps {
      CapsCut(c.caps, n);
      CapsPush(c.caps[..n], Capacity(Max(2 * c.caps[n - 1], e)));
    }
    forall i | 0 <= i < n ensures SegAt(c'.caps, c'.segs, i) { assert SegAt(c.caps, c.segs, i); }
  }

  lemma PushKeeps(c: Chain, e: nat)
    requires RoomFor(c, e) && e % ALIGN == 0
    ensures Ok(PushBlock(c, e))
  {
    var top := |c.segs| - 1;
    SegPush(c.caps[top], c.segs[top], top == 0, e);
    var c' := PushBlock(c, e);
    forall i | 0 <= i < |c'.segs| ensures SegAt(c'.caps, c'.segs, i) {
      if i < top { assert SegAt(c.caps, c.segs, i); }
    }
  }

  lemma AllocKeeps(c: Chain, size: nat)
    requires Ok(c)
    ensures Ok(Alloc(c, size))
  {
    MakeRoomKeeps(c, Ext(size));
    PushKeeps(MakeRoom(c, Ext(size)), Ext(size));
  }

  lemma {:induction false} SumPrefix(s: seq<nat>, j: nat)
    requires j <= |s|
    ensures Sum(s[..j]) <= Sum(s)
  {
    if j < |s| {
      assert s[..|s| - 1][..j] == s[..j];
      SumPrefix(s[..|s| - 1], j);
    } else {
      assert s[..j] == s;
    }
  }

  lemma DropFirst(seg: seq<nat>)
    requires seg != [] && seg[0] > 0
    ensures Sum(seg[..|seg| - 1]) == 0 <==> |seg| == 1
  {
    if |seg| > 1 {
      SumPrefix(seg[..|seg| - 1], 1);
      assert seg[..|seg| - 1][..1] == [] + [seg[0]];
      SumPush([], seg[0]);
    }
  }

  lemma SegDrop(cap: nat, seg: seq<nat>, root: bool)
    requires SegOk(cap, seg, root) && seg != []
    ensures root || Sum(seg[..|seg| - 1]) != 0 ==> SegOk(cap, seg[..|seg| - 1], root)
  {
    SumPrefix(seg, |seg| - 1);
    if !root { DropFirst(seg); }
  }

  lemma DeallocKeeps(c: Chain)
    requires Ok(c) && c.segs[|c.segs| - 1] != []
    ensures Ok(Dealloc(c))
  {
    var top, c' := |c.segs| - 1, Dealloc(c);
    assert SegAt(c.caps, c.segs, top);
    SegDrop(c.caps[top], c.segs[top], top == 0);
    CapsCut(c.caps, |c'.caps|);
    assert c'.caps == c.caps[..|c'.caps|];
    forall i | 0 <= i < |c'.segs| ensures SegAt(c'.caps, c'.segs, i) {
      if i < top { assert SegAt(c.caps, c.segs, i); }
    }
  }

  /** A deallocation that empties a stacklet leaves at most a cache of eight times the new top. */
  lemma DeallocCache(c: Chain)
    requires Ok(c) && c.segs[|c.segs| - 1] != []
    requires Sum(c.segs[|c.segs| - 1][..|c.segs[|c.segs| - 1]| - 1]) == 0
    ensures var c', top := Dealloc(c), |Dealloc(c).segs| - 1;
      |c'.caps| > top + 1 ==> |c'.caps| == top + 2 && c'.caps[top + 1] <= 8 * c'.caps[top]
  {
  }

  lemma EmptyOk()
    ensures Ok(Empty())
  {
    assert CapOk(Empty().caps, 0);
  }

  // ---------------------------------------------------------------- balanced use

  lemma DropPushed(segs: seq<seq<nat>>, e: nat)
    requires segs != [] && (|segs| > 1 ==> segs[|segs| - 1] != [] && segs[|segs| - 1][0] > 0)
    ensures var top := |segs| - 1; DropSegs(segs[top := segs[top] + [e]]) == segs
    ensures DropSegs((segs + [[]])[|segs| := [] + [e]]) == segs
  {
    var top := |segs| - 1;
    assert (segs[top] + [e])[..|segs[top]|] == segs[top];
    assert segs[top := segs[top] + [e]][top := segs[top]] == segs;
    if top > 0 {
      SumPrefix(segs[top], 1);
      assert segs[top][..1] == [] + [segs[top][0]];
      SumPush([], segs[top][0]);
    }
    var more := (segs + [[]])[|segs| := [] + [e]];
    assert more[..|segs|] == segs && ([] + [e])[..0] == [];
  }

  /** Same blocks on the same stacklets: only the cache may differ. */
  ghost predicate SameBlocks(c: Chain, c': Chain) {
    Ok(c) && Ok(c') && c'.segs == c.segs && c'.caps[..|c.segs|] == c.caps[..|c.segs|]
  }

  lemma AllocCaps(c: Chain, size: nat)
    requires 0 < |c.segs| <= |c.caps|
    ensures var a, n := Alloc(c, size), |c.segs|; n <= |a.segs| && n <= |a.caps| && a.caps[..n] == c.caps[..n]
  {
  }

  lemma AllocSegs(c: Chain, size: nat)
    requires 0 < |c.segs| <= |c.caps| && (|c.segs| > 1 ==> c.segs[|c.segs| - 1] != [] && c.segs[|c.segs| - 1][0] > 0)
    ensures var a := Alloc(c, size);
      a.segs != [] && a.segs[|a.segs| - 1] != [] && DropSegs(a.segs) == c.segs
  {
    DropPushed(c.segs, Ext(size));
  }

  /** Deallocation undoes allocation: the same blocks, the same top, the same stacklets under it. */
  lemma RoundTrip(c: Chain, size: nat)
    requires Ok(c)
    ensures var a := Alloc(c, size);
      Ok(a) && a.segs[|a.segs| - 1] != [] && SameBlocks(c, Dealloc(a))
  {
    var a, n := Alloc(c, size), |c.segs|;
    assert SegAt(c.caps, c.segs, n - 1);
    AllocSegs(c, size);
    AllocCaps(c, size);
    AllocKeeps(c, size);
    DeallocKeeps(a);
    DeallocCaps(a, n);
  }

  lemma DeallocCaps(c: Chain, n: nat)
    requires 0 < |c.segs| <= |c.caps| && c.segs[|c.segs| - 1] != [] && n == |DropSegs(c.segs)|
    ensures n <= |Dealloc(c).caps| && Dealloc(c).caps[..n] == c.caps[..n] && Dealloc(c).segs == DropSegs(c.segs)
  {
  }

  lemma SameAfterDealloc(c: Chain, c': Chain)
    requires SameBlocks(c, c') && c.segs[|c.segs| - 1] != []
    ensures SameBlocks(Dealloc(c), Dealloc(c'))
  {
    DeallocKeeps(c);
    DeallocKeeps(c');
    var n := |Dealloc(c).segs|;
    assert Dealloc(c).caps[..n] == c.caps[..|c.segs|][..n];
    assert Dealloc(c').caps[..n] == c'.caps[..|c.segs|][..n];
  }

  /** Frames nested in the way of calls: allocate, use the stack inside, deallocate, go on. */
  datatype Use = Nil | Frame(size: nat, inside: Use, after: Use)

  /** Every balanced use of a stack leaves it with the same blocks, top and stack pointer as before. */
  function Run(c: Chain, u: Use): (r: Chain)
    requires Ok(c)
    ensures SameBlocks(c, r)
    decreases u
  {
    match u
    case Nil => c
    case Frame(size, inside, after) =>
      var a := Alloc(c, size);
      RoundTrip(c, size);
      var m := Run(a, inside);
      SameAfterDealloc(a, m);
      Run(Dealloc(m), after)
  }

  /** Where the newest block starts. */
  function Last(c: Chain): nat
    requires 0 < |c.segs| && c.segs[|c.segs| - 1] != []
  {
    var top := |c.segs| - 1;
    Start(c, top, |c.segs[top]| - 1)
  }

  /** The new block is the last one on the new top, and has the size asked for. */
  lemma NewBlock(c: Chain, e: nat)
    requires 0 < |c.segs|
    ensures var p, top := PushBlock(c, e), |c.segs| - 1;
      && |p.segs| == top + 1 && p.segs[top] != [] && p.segs[top][|p.segs[top]| - 1] == e
      && Last(p) == HEADER + Sum(c.segs[top])
  {
    var seg := c.segs[|c.segs| - 1];
    assert (seg + [e])[..|seg|] == seg;
  }

  lemma SameLast(c: Chain, c': Chain)
    requires 0 < |c.segs| && c.segs[|c.segs| - 1] != [] && c'.segs == c.segs
    ensures Last(c') == Last(c)
  {
  }

  lemma RunNil(c: Chain)
    requires Ok(c)
    ensures Run(c, Nil) == c
  {
  }

  lemma RunFrame(c: Chain, size: nat, inside: Use, a: Chain, m: Chain)
    requires Ok(c) && a == Alloc(c, size) && Ok(a) && m == Run(a, inside)
    ensures a.segs[|a.segs| - 1] != [] && SameBlocks(a, m) && SameBlocks(c, Dealloc(m))
    ensures Run(c, Frame(size, inside, Nil)) == Dealloc(m)
  {
    RoundTrip(c, size);
    SameAfterDealloc(a, m);
    RunNil(Dealloc(m));
  }

  lemma FrameFacts(c: Chain, size: nat, inside: Use)
    requires Ok(c)
    ensures var a := Alloc(c, size);
      && Ok(a) && a.segs[|a.segs| - 1] != []
      && var m := Run(a, inside);
      && SameBlocks(a, m) && Last(m) == Last(a) && |c.segs| <= |a.segs|
      && Run(c, Frame(size, inside, Nil)) == Dealloc(m) && SameBlocks(c, Dealloc(m))
  {
    var a := Alloc(c, size);
    RoundTrip(c, size);
    var m := Run(a, inside);
    RunFrame(c, size, inside, a, m);
    SameLast(a, m);
  }

  lemma FrameThenRest(c: Chain, u: Use)
    requires Ok(c) && u.Frame?
    ensures Run(c, u) == Run(Run(c, Frame(u.size, u.inside, Nil)), u.after)
  {
    FrameFacts(c, u.size, u.inside);
  }

  // ---------------------------------------------------------------- where a block goes

  predicate Fits(c: Chain, e: nat)
    requires 0 < |c.segs| <= |c.caps|
  {
    Sum(c.segs[|c.segs| - 1]) + e <= c.caps[|c.segs| - 1]
  }

  predicate CacheFits(c: Chain, e: nat) { |c.segs| < |c.caps| && c.caps[|c.segs|] >= e }

  /** A block that fits goes on the top stacklet, right after the others, and no stacklet comes or goes. */
  lemma FitsStays(c: Chain, size: nat)
    requires Ok(c) && Fits(c, Ext(size))
    ensures var a, top := Alloc(c, size), |c.segs| - 1;
      && a.caps == c.caps && |a.segs| == |c.segs| && a.segs[..top] == c.segs[..top]
      && a.segs[top] == c.segs[top] + [Ext(size)] && Last(a) == HEADER + Sum(c.segs[top])
  {
    NewBlock(c, Ext(size));
  }

  /**
   One that does not is the first block on the next stacklet: the cached one if it is large enough, and
   otherwise a new one of at least twice the capacity, and at most a page more than was needed.
   */
  lemma NextIsUsed(c: Chain, size: nat)
    requires Ok(c) && !Fits(c, Ext(size))
    ensures var a, n := Alloc(c, size), |c.segs|;
      && |a.segs| == n + 1 && a.segs[..n] == c.segs && a.segs[n] == [Ext(size)] && Last(a) == HEADER
      && (CacheFits(c, Ext(size)) ==> a.caps == c.caps)
      && (!CacheFits(c, Ext(size)) ==>
            && |a.caps| == n + 1 && a.caps[..n] == c.caps[..n]
            && Max(2 * c.caps[n - 1], Ext(size)) <= a.caps[n] < Max(2 * c.caps[n - 1], Ext(size)) + PAGE)
  {
    NewBlock(Advance(c, Ext(size)), Ext(size));
    assert [] + [Ext(size)] == [Ext(size)];
  }

  /** Exactly which stacklets a deallocation keeps. */
  lemma DeallocKeepsCaps(c: Chain)
    requires Ok(c) && c.segs[|c.segs| - 1] != []
    ensures var c', top := Dealloc(c), |c.segs| - 1;
      && |c'.caps| <= |c.caps| && c'.caps == c.caps[..|c'.caps|]
      && (Sum(c.segs[top][..|c.segs[top]| - 1]) != 0 ==> |c'.caps| == |c.caps| && |c'.segs| == |c.segs|)
      && (Sum(c.segs[top][..|c.segs[top]| - 1]) == 0 && top > 0 ==>
            |c'.segs| == top && |c'.caps| == if c.caps[top] <= 8 * c.caps[top - 1] then top + 1 else top)
      && (Sum(c.segs[top][..|c.segs[top]| - 1]) == 0 && top == 0 ==>
            |c'.segs| == 1 && |c'.caps| == if |c.caps| > 1 && c.caps[1] <= 8 * c.caps[0] then 2 else 1)
  {
  }

  /** No thrashing at the end of a stacklet: the next one stays cached and serves the same block again. */
  lemma CacheServesAgain(c: Chain, size: nat)
    requires Ok(c) && !Fits(c, Ext(size)) && Alloc(c, size).caps[|c.segs|] <= 8 * c.caps[|c.segs| - 1]
    ensures var a := Alloc(c, size);
      a.segs[|a.segs| - 1] != [] && Alloc(Dealloc(a), size) == a
  {
    var a, n := Alloc(c, size), |c.segs|;
    NextIsUsed(c, size);
    RoundTrip(c, size);
    AllocCaps(c, size);
    assert [Ext(size)][..0] == [];
    DeallocKeepsCaps(a);
    var d := Dealloc(a);
    assert d.segs == c.segs && d.caps == a.caps[..n + 1];
    assert a.caps[n - 1] == a.caps[..n][n - 1] == c.caps[..n][n - 1];
    AllocKeeps(c, size);
    assert SegAt(a.caps, a.segs, n);
    SumPush([], Ext(size));
    assert [] + [Ext(size)] == [Ext(size)];
    NextIsUsed(d, size);
    assert a.segs == a.segs[..n] + [a.segs[n]] && Alloc(d, size).segs == Alloc(d, size).segs[..n] + [a.segs[n]];
  }

  // ---------------------------------------------------------------- geometric growth

  /** Capacities at least double, so the chain is logarithmic in its largest stacklet. */
  lemma {:induction false} Geometric(c: Chain, i: nat)
    requires Ok(c) && i < |c.caps|
    ensures c.caps[i] >= Pow2(i) * c.caps[0]
  {
    if i > 0 {
      Geometric(c, i - 1);
      assert CapOk(c.caps, i);
      assert Pow2(i) * c.caps[0] == 2 * (Pow2(i - 1) * c.caps[0]);
    }
  }

  // ---------------------------------------------------------------- blocks

  /** Where block j of stacklet i starts, from the base of the stacklet. */
  function Start(c: Chain, i: nat, j: nat): nat
    requires i < |c.segs| && j <= |c.segs[i]|
  {
    HEADER + Sum(c.segs[i][..j])
  }

  lemma {:induction false} SumAligned(s: seq<nat>, j: nat)
    requires j <= |s| && forall k :: 0 <= k < |s| ==> s[k] % ALIGN == 0
    ensures Sum(s[..j]) % ALIGN == 0
  {
    if j > 0 {
      SumAligned(s, j - 1);
      assert s[..j][..j - 1] == s[..j - 1];
    }
  }

  /** Every live block is aligned and inside its stacklet. */
  lemma BlockInside(c: Chain, i: nat, j: nat)
    requires Ok(c) && i < |c.segs| && j < |c.segs[i]|
    ensures Start(c, i, j) % ALIGN == 0
    ensures HEADER <= Start(c, i, j) && Start(c, i, j) + c.segs[i][j] == Start(c, i, j + 1) <= HEADER + c.caps[i]
  {
    assert SegAt(c.caps, c.segs, i);
    SumAligned(c.segs[i], j);
    assert c.segs[i][..j + 1] == c.segs[i][..j] + [c.segs[i][j]];
    SumPush(c.segs[i][..j], c.segs[i][j]);
    SumPrefix(c.segs[i], j + 1);
  }

  /** Blocks on the same stacklet lie one after the other. */
  lemma {:induction false} BlocksDisjoint(c: Chain, i: nat, j: nat, k: nat)
    requires Ok(c) && i < |c.segs| && j < k < |c.segs[i]|
    ensures Start(c, i, j) + c.segs[i][j] <= Start(c, i, k)
  {
    BlockInside(c, i, j);
    SumPrefix(c.segs[i][..k], j + 1);
    assert c.segs[i][..k][..j + 1] == c.segs[i][..j + 1];
  }
}
