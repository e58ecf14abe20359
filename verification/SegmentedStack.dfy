/**
 The segmented stack in place: a doubly linked list of stacklets.  A pointer into a stacklet is its
 distance from the stacklet's base, which malloc aligns.
 */
module SegmentedStack {
  import opened Segments

  class Stacklet {
    var lo: nat
    var sp: nat
    var hi: nat
    var prev: Stacklet?
    var next: Stacklet?

    /** malloc(request) */
    constructor (request: nat)
      requires request >= HEADER
      ensures lo == HEADER && sp == HEADER && hi == request && prev == null && next == null
    {
      lo, sp, hi := HEADER, HEADER, request;
      prev, next := null, null;
    }
  }

  class Stack {
    var fib: Stacklet
    ghost var nodes: seq<Stacklet>      // the chain from the root, with the cached stacklet if there is one
    ghost var state: Chain              // its capacities, and the sizes of the live blocks
    ghost var held: set<Stacklet>       // allocated and not freed
    ghost var freed: set<Stacklet>

    ghost predicate NodeOk(i: nat)
      requires i < |nodes| == |state.caps|
      reads this, nodes[i]
    {
      && nodes[i].lo == HEADER && nodes[i].hi == HEADER + state.caps[i]
      && nodes[i].sp == HEADER + (if i < |state.segs| then Sum(state.segs[i]) else 0)
      && nodes[i].prev == (if i == 0 then null else nodes[i - 1])
      && nodes[i].next == (if i + 1 == |nodes| then null else nodes[i + 1])
    }

    /** Nothing but the chain is held, so nothing is leaked, and nothing held was freed. */
    ghost predicate Shape()
      reads this, nodes
    {
      && 0 < |state.segs| <= |state.caps| == |nodes| && fib == nodes[|state.segs| - 1]
      && (forall i {:trigger NodeOk(i)} :: 0 <= i < |nodes| ==> NodeOk(i))
      && (forall i, j :: 0 <= i < j < |nodes| ==> nodes[i] != nodes[j])
      && (forall x :: x in held ==> x in nodes) && (forall x :: x in nodes ==> x in held) && held !! freed
    }

    ghost predicate Valid()
      reads this, nodes
    {
      Shape() && Ok(state)
    }

    /** A stack with one empty stacklet. */
    constructor ()
      ensures Valid() && state == Empty() && fresh(held) && freed == {}
    {
      var root := new Stacklet(Request(1 + HEADER));
      fib := root;
      nodes, state, held, freed := [root], Empty(), {root}, {};
      new;
      EmptyOk();
      assert NodeOk(0);
    }

    /** std::free: only what is held can be freed, so nothing is freed twice. */
    method Free(x: Stacklet?)
      requires x != null ==> x in held
      modifies this`held, this`freed
      ensures held == old(held) - {x} && freed == old(freed) + (if x == null then {} else {x})
    {
      if x != null {
        held, freed := held - {x}, freed + {x};
      }
    }

    /** std::exchange(m_sp, m_sp + e) on the top stacklet. */
    method Bump(e: nat) returns (ptr: nat)
      requires Shape()
      modifies this`state, fib`sp
      ensures Shape() && state == PushBlock(old(state), e) && ptr == old(fib.sp) && fib.sp == ptr + e
      ensures ptr == HEADER + Sum(old(state.segs)[|old(state.segs)| - 1])
    {
      ghost var top := |state.segs| - 1;
      assert NodeOk(top);
      ptr := fib.sp;
      fib.sp := fib.sp + e;
      SumPush(state.segs[top], e);
      state := PushBlock(state, e);
      forall i | 0 <= i < |nodes| ensures NodeOk(i) { assert old(NodeOk(i)); }
    }

    /** The new block starts where the stack pointer was. */
    method Push(e: nat) returns (ptr: nat)
      requires Shape()
      modifies this`state, fib`sp
      ensures Shape() && state == PushBlock(old(state), e) && ptr == old(fib.sp) && fib.sp == ptr + e
      ensures state.segs[|state.segs| - 1] != [] && ptr == Last(state)
    {
      ghost var c := state;
      ptr := Bump(e);
      NewBlock(c, e);
    }

    /** The cached stacklet becomes the top. */
    method UseCache()
      requires Shape() && |nodes| > |state.segs| && fib.next != null
      modifies this`fib, this`state
      ensures Shape() && state == old(state).(segs := old(state.segs) + [[]])
    {
      ghost var top := |state.segs| - 1;
      assert NodeOk(top) && NodeOk(top + 1);
      fib := fib.next;
      state := state.(segs := state.segs + [[]]);
      forall i | 0 <= i < |nodes| ensures NodeOk(i) { assert old(NodeOk(i)); }
    }

    /** set_next(nullptr): a cached stacklet is freed. */
    method DropCache()
      requires Shape() && |nodes| <= |state.segs| + 1
      modifies this`nodes, this`state, this`held, this`freed, fib`next
      ensures Shape() && fib.next == null
      ensures var n := |old(state.segs)|;
        state == old(state).(caps := old(state.caps)[..n]) && nodes == old(nodes)[..n]
      ensures held <= old(held) && freed == old(freed) + (old(held) - held)
    {
      ghost var n := |state.segs|;
      assert NodeOk(n - 1);
      var old_next := fib.next;
      fib.next := null;
      Free(old_next);
      nodes, state := nodes[..n], state.(caps := state.caps[..n]);
      forall i | 0 <= i < n ensures NodeOk(i) { assert old(NodeOk(i)); }
    }

    /** A new stacklet becomes the top; a cached one that it replaces is freed. */
    method NextStacklet(size: nat)
      requires Shape() && |nodes| <= |state.segs| + 1
      modifies this, fib`next
      ensures Shape()
      ensures var n := |old(state.segs)|;
        && state == Chain(old(state.caps)[..n] + [Capacity(size)], old(state.segs) + [[]])
        && nodes[..n] == old(nodes)[..n] && fresh(nodes[n]) && fib == nodes[n]
        && freed == old(freed) + (old(held) - held)
    {
      var next := new Stacklet(Request(size + HEADER));
      DropCache();
      Attach(next, size);
    }

    /** Link a stacklet that malloc has just returned. */
    method Attach(next: Stacklet, size: nat)
      requires Shape() && |nodes| == |state.segs| && next !in nodes && next !in freed
      requires next.lo == HEADER == next.sp && next.hi == HEADER + Capacity(size) && next.next == null
      modifies this`fib, this`nodes, this`state, this`held, fib`next, next`prev
      ensures Shape() && fib == next
      ensures state == Chain(old(state.caps) + [Capacity(size)], old(state.segs) + [[]])
      ensures nodes == old(nodes) + [next] && held == old(held) + {next}
    {
      ghost var n := |state.segs|;
      assert NodeOk(n - 1);
      fib.next := next;
      next.prev := fib;
      nodes, held := nodes + [next], held + {next};
      state := Chain(state.caps + [Capacity(size)], state.segs + [[]]);
      fib := next;
      forall i | 0 <= i < n ensures NodeOk(i) { assert old(NodeOk(i)); }
    }
  
    /** There is a cached stacklet with room for e bytes. */
    predicate CacheServes(e: nat)
      reads this, fib, fib.next
    {
      fib.next != null && fib.next.hi - fib.next.lo >= e
    }

    /** If the top has no room for e bytes, the next stacklet becomes the top. */
    method Reserve(e: nat)
      requires Shape() && |nodes| <= |state.segs| + 1 && fib.sp <= fib.hi
      modifies this, fib`next
      ensures Shape() && state == MakeRoom(old(state), e)
      ensures var n := |old(state.segs)|; n <= |nodes| && nodes[..n] == old(nodes)[..n]
      ensures fib in old(nodes) || fresh(fib)
      ensures fresh(held - old(held)) && freed == old(freed) + (old(held) - held)
      ensures old(fib.hi - fib.sp >= e) ==> fib == old(fib) && held == old(held)
      ensures old(fib.hi - fib.sp < e && CacheServes(e)) ==> fib == old(fib.next) && held == old(held)
      ensures old(fib.hi - fib.sp < e && !CacheServes(e)) ==> fresh(fib)
      ensures old(fib.hi - fib.sp < e) ==> fib.sp == HEADER
    {
      ghost var n := |state.segs|;
      assert NodeOk(n - 1);
      if n < |nodes| { assert NodeOk(n); }
      if fib.hi - fib.sp < e {
        if fib.next != null && fib.next.hi - fib.next.lo >= e {
          UseCache();
        } else {
          var two := 2 * (fib.hi - fib.lo);
          NextStacklet(Max(two, e));
        }
        assert NodeOk(n);
      }
    }

    /**
     Allocate size bytes; the result is where the new block starts on the new top.  The top stays the top
     if it has room, else the cached stacklet is used if it has, and only else is a new one allocated.
     */
    method Allocate(size: nat) returns (ptr: nat)
      requires Valid()
      modifies this, nodes
      ensures Valid() && state == Alloc(old(state), size)
      ensures fib.sp == ptr + Ext(size)
      ensures old(fib.hi - fib.sp >= Ext(size)) ==> fib == old(fib) && ptr == old(fib.sp) && held == old(held)
      ensures old(fib.hi - fib.sp < Ext(size) && CacheServes(Ext(size))) ==>
        fib == old(fib.next) && ptr == HEADER && held == old(held)
      ensures old(fib.hi - fib.sp < Ext(size) && !CacheServes(Ext(size))) ==> fresh(fib) && ptr == HEADER
      ensures state.segs[|state.segs| - 1] != [] && ptr == Last(state)
      ensures var n := |old(state.segs)|; n <= |nodes| && nodes[..n] == old(nodes)[..n]
      ensures fresh(held - old(held)) && freed == old(freed) + (old(held) - held)
    {
      var e := Ext(size);
      AllocKeeps(state, size);
      assert NodeOk(|state.segs| - 1) && SegAt(state.caps, state.segs, |state.segs| - 1);
      Reserve(e);
      ptr := Push(e);
    }

    /** m_sp = ptr on the top stacklet: the newest block goes. */
    method Pop(ptr: nat)
      requires Shape() && state.segs[|state.segs| - 1] != []
      requires ptr == Last(state)
      modifies this`state, fib`sp
      ensures Shape()
      ensures var top := |old(state.segs)| - 1;
        state == old(state).(segs := old(state.segs)[top := old(state.segs)[top][..|old(state.segs)[top]| - 1]])
    {
      ghost var top := |state.segs| - 1;
      assert NodeOk(top);
      fib.sp := ptr;
      state := state.(segs := state.segs[top := state.segs[top][..|state.segs[top]| - 1]]);
      forall i | 0 <= i < |nodes| ensures NodeOk(i) { assert old(NodeOk(i)); }
    }

    /** The top is empty: it becomes the cache of its predecessor. */
    method MoveBack()
      requires Shape() && |nodes| <= |state.segs| + 1 && fib.prev != null && |state.segs| > 1
      requires Sum(state.segs[|state.segs| - 1]) == 0
      modifies this, fib`next
      ensures Shape() && state == Retreat(old(state)) && nodes == old(nodes)[..|old(state.segs)|]
      ensures held <= old(held) && freed == old(freed) + (old(held) - held)
    {
      DropCache();
      ghost var top := |state.segs| - 1;
      assert NodeOk(top);
      label dropped:
      fib := fib.prev;
      state := state.(segs := state.segs[..top]);
      forall i | 0 <= i < |nodes| ensures NodeOk(i) { assert old@dropped(NodeOk(i)); }
    }

    /** Guard against over-caching. */
    method FreeOversized()
      requires Shape() && |nodes| <= |state.segs| + 1
      modifies this, fib`next
      ensures Shape() && state == Settle(old(state)) && fib == old(fib)
      ensures fib.next != null ==> fib.next.hi - fib.next.lo <= 8 * (fib.hi - fib.lo)
      ensures |state.segs| <= |nodes| <= |old(nodes)| && nodes == old(nodes)[..|nodes|]
      ensures held <= old(held) && freed == old(freed) + (old(held) - held)
    {
      ghost var n := |state.segs|;
      assert NodeOk(n - 1);
      if n < |nodes| { assert NodeOk(n); }
      if fib.next != null && fib.next.hi - fib.next.lo > 8 * (fib.hi - fib.lo) {
        DropCache();
      }
    }

    /** Deallocate the newest block, which starts at ptr. */
    method Deallocate(ptr: nat)
      requires Valid() && state.segs[|state.segs| - 1] != []
      requires ptr == Last(state)
      modifies this, nodes
      ensures Valid() && state == Dealloc(old(state))
      ensures ptr != HEADER ==> fib == old(fib) && fib.sp == ptr && held == old(held)
      ensures ptr == HEADER ==> fib == if old(fib.prev) == null then old(fib) else old(fib.prev)
      ensures ptr == HEADER && fib.next != null ==> fib.next.hi - fib.next.lo <= 8 * (fib.hi - fib.lo)
      ensures |nodes| <= |old(nodes)| && nodes == old(nodes)[..|nodes|]
      ensures held <= old(held) && freed == old(freed) + (old(held) - held)
    {
      ghost var top := |state.segs| - 1;
      DeallocKeeps(state);
      DeallocSteps(state);
      if top > 0 { assert NodeOk(top - 1); }
      Pop(ptr);
      assert NodeOk(top);
      if fib.sp == fib.lo {
        if fib.prev != null {
          MoveBack();
        }
        FreeOversized();
      }
    }

    /** The destructor, at the root: everything that was ever allocated has been freed. */
    method Destroy()
      requires Valid() && fib.prev == null
      modifies this, nodes
      ensures held == {} && freed == old(freed) + old(held)
    {
      ghost var n := |state.segs|;
      assert NodeOk(n - 1);
      DropCache();
      Free(fib);
      assert forall x :: x in old(held) ==> x in freed;
    }
  }

  /** The top stacklet and its stack pointer are read off the blocks. */
  lemma TopIs(st: Stack)
    requires st.Valid()
    ensures st.fib == st.nodes[|st.state.segs| - 1] && st.fib.sp == HEADER + Sum(st.state.segs[|st.state.segs| - 1])
    ensures forall x :: x in st.nodes ==> x in st.held
    ensures forall x :: x in st.held ==> x in st.nodes
  {
    assert st.NodeOk(|st.state.segs| - 1);
  }

  lemma PrefixOfPrefix<T>(chain: seq<T>, after: seq<T>, last: seq<T>, m: nat, n: nat)
    requires n <= m <= |chain| && m <= |after| && after[..m] == chain[..m]
    requires n <= |last| <= |after| && last == after[..|last|]
    ensures last[..n] == chain[..n]
  {
    assert after[..n] == after[..m][..n] && chain[..n] == chain[..m][..n] && last[..n] == after[..|last|][..n];
  }

  /** The nested use and the end of a frame whose block starts at p. */
  method UseInside(st: Stack, p: nat, inside: Use, ghost n: nat)
    requires st.Valid() && st.state.segs[|st.state.segs| - 1] != [] && p == Last(st.state) && n <= |st.state.segs|
    requires n <= |Dealloc(Run(st.state, inside)).segs|
    modifies st, st.nodes
    ensures st.Valid() && st.state == Dealloc(Run(old(st.state), inside))
    ensures n <= |st.nodes| && st.nodes[..n] == old(st.nodes)[..n]
    ensures fresh(st.held - old(st.held))
    decreases inside, 1
  {
    ghost var m, chain := |st.state.segs|, st.nodes;
    UseStack(st, inside);
    TopIs(st);
    ghost var after := st.nodes;
    st.Deallocate(p);
    PrefixOfPrefix(chain, after, st.nodes, m, n);
  }

  /** One frame, with whatever is nested in it. */
  method UseFrame(st: Stack, size: nat, inside: Use)
    requires st.Valid()
    modifies st, st.nodes
    ensures st.Valid() && SameBlocks(old(st.state), st.state)
    ensures st.state == Run(old(st.state), Frame(size, inside, Nil))
    ensures var n := |old(st.state.segs)|; n <= |st.nodes| && st.nodes[..n] == old(st.nodes)[..n]
    ensures fresh(st.held - old(st.held))
    decreases inside, 2
  {
    ghost var n := |st.state.segs|;
    FrameFacts(st.state, size, inside);
    TopIs(st);
    var p := st.Allocate(size);
    TopIs(st);
    UseInside(st, p, inside, n);
  }

  /** Whatever a task nests on a stack, the stack comes back with the same top and stack pointer. */
  method UseStack(st: Stack, u: Use)
    requires st.Valid()
    modifies st, st.nodes
    ensures st.Valid() && SameBlocks(old(st.state), st.state) && st.state == Run(old(st.state), u)
    ensures var n := |old(st.state.segs)|; n <= |st.nodes| && st.nodes[..n] == old(st.nodes)[..n]
    ensures st.fib == old(st.fib) && st.fib.sp == old(st.fib.sp)
    ensures fresh(st.held - old(st.held))
    decreases u, 0
  {
    ghost var c, root := st.state, st.nodes[..|st.state.segs|];
    TopIs(st);
    if u.Frame? {
      FrameThenRest(c, u);
      UseFrame(st, u.size, u.inside);
      TopIs(st);
      UseStack(st, u.after);
      assert st.nodes[..|c.segs|] == root;
    }
    TopIs(st);
    assert st.fib == root[|c.segs| - 1];
  }
}
