/**
 What every work-stealing deque of the library promises, whichever implementation is chosen.

 An element is named by the position of its push in the history of pushes.  The owner takes the
 newest element, a thief takes the oldest; whoever took an element later returns its value.
 */
module DequeSpec {

  datatype Who = Owner | Thief(id: nat)

  /** The observable moments of an execution, each at its linearization point. */
  datatype Event<T> =
    | Quiet
    | Push(val: T)
    | TakeNewest               // a pop has secured its element
    | TakeOldest(thief: nat)   // a steal has secured its element
    | Return(who: Who, val: T) // a pop or a steal hands out a value
    | PopEmpty                 // a pop reports an empty deque

  datatype Delivery<T> = Delivery(who: Who, id: nat, val: T)

  datatype Deque<T> = Deque(
    log: seq<T>,                // every value pushed, in order
    stolen: seq<nat>,           // what thieves took, in order
    live: seq<nat>,             // what is in the deque, oldest first
    owed: map<Who, nat>,        // taken, value not yet handed out
    returned: seq<Delivery<T>>) // handed out, in order

  function Empty<T>(): Deque<T> { Deque([], [], [], map[], []) }

  ghost predicate Legal<T>(g: Deque<T>, e: Event<T>) {
    match e
    case Quiet => true
    case Push(_) => true
    case TakeNewest => g.live != [] && Owner !in g.owed
    case TakeOldest(t) => g.live != [] && Thief(t) !in g.owed
    case Return(w, v) => w in g.owed && g.owed[w] < |g.log| && v == g.log[g.owed[w]]
    case PopEmpty => g.live == []
  }

  ghost function Apply<T>(g: Deque<T>, e: Event<T>): Deque<T>
    requires Legal(g, e)
  {
    match e
    case Quiet => g
    case Push(v) => g.(log := g.log + [v], live := g.live + [|g.log|])
    case TakeNewest => g.(live := g.live[..|g.live| - 1], owed := g.owed[Owner := g.live[|g.live| - 1]])
    case TakeOldest(t) =>
      g.(live := g.live[1..], stolen := g.stolen + [g.live[0]], owed := g.owed[Thief(t) := g.live[0]])
    case Return(w, v) => g.(owed := g.owed - {w}, returned := g.returned + [Delivery(w, g.owed[w], v)])
    case PopEmpty => g
  }

  ghost predicate AllLegal<T>(g: Deque<T>, es: seq<Event<T>>)
    decreases |es|
  {
    es == [] || (Legal(g, es[0]) && AllLegal(Apply(g, es[0]), es[1..]))
  }

  ghost function ApplyAll<T>(g: Deque<T>, es: seq<Event<T>>): Deque<T>
    requires AllLegal(g, es)
    decreases |es|
  {
    if es == [] then g else ApplyAll(Apply(g, es[0]), es[1..])
  }

  lemma {:induction false} LegalAppend<T>(g: Deque<T>, x: seq<Event<T>>, y: seq<Event<T>>)
    requires AllLegal(g, x)
    ensures AllLegal(g, x + y) <==> AllLegal(ApplyAll(g, x), y)
    decreases |x|
  {
    if x == [] {
      assert x + y == y;
    } else {
      assert (x + y)[0] == x[0] && (x + y)[1..] == x[1..] + y;
      LegalAppend(Apply(g, x[0]), x[1..], y);
    }
  }

  ghost predicate Increasing(s: seq<nat>) {
    forall i, j :: 0 <= i < j < |s| ==> s[i] < s[j]
  }

  ghost predicate Handed<T>(g: Deque<T>, id: nat) {
    exists i :: 0 <= i < |g.returned| && g.returned[i].id == id
  }

  ghost predicate Held<T>(g: Deque<T>, id: nat) {
    exists w :: w in g.owed && g.owed[w] == id
  }

  /**
   Exactly-once delivery: each pushed element is in the deque, or taken by exactly one thread, or
   handed out exactly once with the value that was pushed.  Steals see push order.
   */
  ghost predicate ExactlyOnce<T>(g: Deque<T>) {
    && Increasing(g.stolen + g.live)
    && (forall i :: 0 <= i < |g.live| ==> g.live[i] < |g.log|)
    && (forall w :: w in g.owed ==> g.owed[w] < |g.log| && g.owed[w] !in g.live && !Handed(g, g.owed[w]))
    && (forall v, w :: v in g.owed && w in g.owed && g.owed[v] == g.owed[w] ==> v == w)
    && (forall i :: 0 <= i < |g.returned| ==>
          g.returned[i].id < |g.log| && g.returned[i].id !in g.live
          && g.returned[i].val == g.log[g.returned[i].id])
    && (forall i, j :: 0 <= i < j < |g.returned| ==> g.returned[i].id != g.returned[j].id)
    && NothingLost(g)
  }

  ghost predicate NothingLost<T>(g: Deque<T>) {
    forall id: nat :: id < |g.log| ==> id in g.live || Held(g, id) || Handed(g, id)
  }

  lemma PushKeeps<T>(g: Deque<T>, v: T)
    requires ExactlyOnce(g) && (forall i :: 0 <= i < |g.stolen| ==> g.stolen[i] < |g.log|)
    ensures ExactlyOnce(Apply(g, Push(v)))
  {
    var g' := Apply(g, Push(v));
    assert g'.stolen + g'.live == (g.stolen + g.live) + [|g.log|];
    forall i | 0 <= i < |g.stolen + g.live| ensures (g.stolen + g.live)[i] < |g.log| {}
    forall id: nat | id < |g'.log| ensures id in g'.live || Held(g', id) || Handed(g', id) {
      if id == |g.log| { assert g'.live[|g.live|] == id; }
      else if Held(g, id) { var w :| w in g.owed && g.owed[w] == id; assert Held(g', id); }
      else if id in g.live { var i :| 0 <= i < |g.live| && g.live[i] == id; assert g'.live[i] == id; }
    }
    forall w | w in g'.owed ensures !Handed(g', g'.owed[w]) && g'.owed[w] !in g'.live {
      assert !Handed(g, g.owed[w]);
    }
  }

  /** Removing one end of the deque leaves the other elements, in order, and only them. */
  lemma TakeKeeps<T>(g: Deque<T>, w: Who, id: nat, live: seq<nat>, stolen: seq<nat>)
    requires ExactlyOnce(g) && w !in g.owed && id in g.live && id !in live
    requires forall x :: x in g.live <==> x in live || x == id
    requires Increasing(stolen + live)
    ensures ExactlyOnce(g.(live := live, stolen := stolen, owed := g.owed[w := id]))
  {
    var g' := g.(live := live, stolen := stolen, owed := g.owed[w := id]);
    TakeLosesNothing(g, w, id, live, stolen);
    assert !Handed(g', id) by {
      forall i | 0 <= i < |g.returned| ensures g.returned[i].id != id {
        assert g.returned[i].id !in g.live;
      }
    }
    forall u | u in g'.owed ensures g'.owed[u] < |g'.log| && g'.owed[u] !in g'.live && !Handed(g', g'.owed[u]) {
      if u != w { assert !Handed(g, g.owed[u]); }
    }
    forall i | 0 <= i < |g'.live| ensures g'.live[i] < |g'.log| {
      assert g'.live[i] in live;
    }
  }

  lemma TakeLosesNothing<T>(g: Deque<T>, w: Who, id: nat, live: seq<nat>, stolen: seq<nat>)
    requires NothingLost(g) && w !in g.owed && forall x :: x in g.live <==> x in live || x == id
    ensures NothingLost(g.(live := live, stolen := stolen, owed := g.owed[w := id]))
  {
    var g' := g.(live := live, stolen := stolen, owed := g.owed[w := id]);
    assert g'.owed[w] == id;
    forall x: nat | x < |g'.log| ensures x in g'.live || Held(g', x) || Handed(g', x) {
      if Held(g, x) {
        var u :| u in g.owed && g.owed[u] == x;
        assert g'.owed[u] == x;
      }
    }
  }

  lemma ReturnLosesNothing<T>(g: Deque<T>, w: Who, v: T)
    requires NothingLost(g) && Legal(g, Return(w, v))
    ensures NothingLost(Apply(g, Return(w, v)))
  {
    var g', n := Apply(g, Return(w, v)), |g.returned|;
    assert g'.returned[n].id == g.owed[w];
    forall x: nat | x < |g'.log| ensures x in g'.live || Held(g', x) || Handed(g', x) {
      if Handed(g, x) {
        var i :| 0 <= i < n && g.returned[i].id == x;
        assert g'.returned[i].id == x;
      } else if Held(g, x) {
        var u :| u in g.owed && g.owed[u] == x;
        if u != w { assert g'.owed[u] == x; }
      }
    }
  }

  lemma OthersNotHanded<T>(g: Deque<T>, w: Who, v: T, u: Who)
    requires ExactlyOnce(g) && Legal(g, Return(w, v)) && u != w && u in g.owed
    ensures !Handed(Apply(g, Return(w, v)), g.owed[u])
  {
    assert g.owed[u] != g.owed[w] && !Handed(g, g.owed[u]);
  }

  lemma ReturnKeeps<T>(g: Deque<T>, w: Who, v: T)
    requires ExactlyOnce(g) && Legal(g, Return(w, v))
    ensures ExactlyOnce(Apply(g, Return(w, v)))
  {
    var g', n := Apply(g, Return(w, v)), |g.returned|;
    ReturnLosesNothing(g, w, v);
    assert forall i :: 0 <= i < n ==> g.returned[i].id != g.owed[w];
    assert forall i :: 0 <= i < n ==> g'.returned[i] == g.returned[i];
    forall u | u in g'.owed ensures !Handed(g', g'.owed[u]) { OthersNotHanded(g, w, v, u); }
  }

  ghost predicate Good<T>(g: Deque<T>) {
    ExactlyOnce(g) && forall i :: 0 <= i < |g.stolen| ==> g.stolen[i] < |g.log|
  }

  /** Every legal event keeps exactly-once delivery. */
  lemma LegalKeeps<T>(g: Deque<T>, e: Event<T>)
    requires Good(g) && Legal(g, e)
    ensures Good(Apply(g, e))
  {
    match e
    case Quiet =>
    case PopEmpty =>
    case Push(v) => PushKeeps(g, v);
    case Return(w, v) => ReturnKeeps(g, w, v);
    case TakeNewest =>
      var n := |g.live| - 1;
      var live := g.live[..n];
      assert g.stolen + live == (g.stolen + g.live)[..|g.stolen| + n];
      assert g.live == live + [g.live[n]];
      NotRepeated(g.stolen, g.live, n);
      TakeKeeps(g, Owner, g.live[n], live, g.stolen);
    case TakeOldest(t) =>
      var live, stolen := g.live[1..], g.stolen + [g.live[0]];
      assert stolen + live == g.stolen + g.live;
      assert g.live == [g.live[0]] + live;
      NotRepeated(g.stolen, g.live, 0);
      TakeKeeps(g, Thief(t), g.live[0], live, stolen);
  }

  lemma NotRepeated(stolen: seq<nat>, live: seq<nat>, n: nat)
    requires Increasing(stolen + live) && n < |live|
    ensures live[n] !in live[..n] && live[n] !in live[n + 1..]
  {
    forall i | 0 <= i < |live| && i != n ensures live[i] != live[n] {
      assert (stolen + live)[|stolen| + i] == live[i] && (stolen + live)[|stolen| + n] == live[n];
    }
  }

  /** Over a whole legal execution. */
  lemma {:induction false} AlwaysExactlyOnce<T>(g: Deque<T>, es: seq<Event<T>>)
    requires Good(g) && AllLegal(g, es)
    ensures Good(ApplyAll(g, es))
    decreases |es|
  {
    if es != [] {
      LegalKeeps(g, es[0]);
      AlwaysExactlyOnce(Apply(g, es[0]), es[1..]);
    }
  }

  /** A pop takes the newest element left, a steal the oldest; later steals take later pushes. */
  lemma TakesTheRightEnd<T>(g: Deque<T>, e: Event<T>)
    requires Good(g) && Legal(g, e) && (e.TakeNewest? || e.TakeOldest?)
    ensures forall x :: x in g.live ==>
      if e.TakeNewest? then x <= Apply(g, e).owed[Owner] else Apply(g, e).owed[Thief(e.thief)] <= x
    ensures e.TakeOldest? ==> forall x :: x in g.stolen ==> x < Apply(g, e).owed[Thief(e.thief)]
  {
    var all, k := g.stolen + g.live, |g.stolen|;
    forall x | x in g.live
      ensures if e.TakeNewest? then x <= g.live[|g.live| - 1] else g.live[0] <= x
    {
      var i :| 0 <= i < |g.live| && g.live[i] == x;
      assert all[k + i] == x && all[k] == g.live[0] && all[k + |g.live| - 1] == g.live[|g.live| - 1];
    }
    if e.TakeOldest? {
      forall x | x in g.stolen ensures x < g.live[0] {
        var i :| 0 <= i < k && g.stolen[i] == x;
        assert all[i] == x && all[k] == g.live[0];
      }
    }
  }

  // ---------------------------------------------------------------- calls and their answers

  /** The values whose push became visible. */
  function PushedIn<T>(es: seq<Event<T>>): seq<T> {
    if es == [] then [] else (if es[0].Push? then [es[0].val] else []) + PushedIn(es[1..])
  }

  predicate AnswersPop<T>(e: Event<T>) { e.PopEmpty? || (e.Return? && e.who == Owner) }

  /** How many pops were answered, with a value or without. */
  function PopsAnswered<T>(es: seq<Event<T>>): nat {
    if es == [] then 0 else (if AnswersPop(es[0]) then 1 else 0) + PopsAnswered(es[1..])
  }

  lemma LogStep<T>(g: Deque<T>, e: Event<T>)
    requires Legal(g, e)
    ensures Apply(g, e).log == g.log + if e.Push? then [e.val] else []
  {
  }

  lemma {:induction false} LogIsPushed<T>(g: Deque<T>, es: seq<Event<T>>)
    requires AllLegal(g, es)
    ensures ApplyAll(g, es).log == g.log + PushedIn(es)
    decreases |es|
  {
    if es != [] {
      LogStep(g, es[0]);
      LogIsPushed(Apply(g, es[0]), es[1..]);
    }
  }

  lemma Regrouped<T>(due: seq<T>, begins: seq<T>, visible: seq<T>, due1: seq<T>,
                     rest: seq<T>, more: seq<T>, due2: seq<T>)
    requires due + begins == visible + due1 && due1 + rest == more + due2
    ensures due + (begins + rest) == (visible + more) + due2
  {
    assert due + (begins + rest) == (due + begins) + rest == visible + (due1 + rest);
  }
}
