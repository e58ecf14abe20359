/**
 The multi-producer single-consumer list under concurrency: pushers retry a compare-and-swap on the
 head, the owner takes the whole list with one exchange and reverses it link by link.
 */
module SubmissionList {

  datatype Link = Null | At(node: nat)

  datatype Pusher =
    | Load(node: nat)              // about to load the head
    | Store(node: nat, stale: Link)   // about to write the node's next link
    | Cas(node: nat, stale: Link)

  datatype Owner = Idle | Reverse(last: Link, first: Link)

  datatype State = State(
    head: Link, next: map<nat, Link>,
    pushers: map<nat, Pusher>, owner: Owner,
    shared: seq<nat>,       // history: the list, newest first
    todo: seq<nat>,         // history: taken and not reversed yet
    turned: seq<nat>,       // history: reversed so far
    pushed: seq<nat>,       // history: every node in order of its successful compare-and-swap
    popped: seq<nat>)       // history: all results of try_pop_all, in order

  datatype Act =
    | Push(k: nat, node: nat)        // thread k starts to push a node
    | Go(k: nat, spurious: bool)     // it moves; a weak compare-and-swap may fail for no reason
    | PopAll
    | Turn                           // one round of the reversal, or its end

  /** Linked, being linked, or taken. */
  ghost predicate InUse(s: State, n: nat) {
    n in s.shared || n in s.todo || n in s.turned || exists k :: Holds(s, k, n)
  }

  predicate Holds(s: State, k: nat, n: nat) { k in s.pushers && s.pushers[k].node == n }

  function DoGo(s: State, k: nat, spurious: bool): State
    requires k in s.pushers
  {
    match s.pushers[k]
    case Load(n) => s.(pushers := s.pushers[k := Store(n, s.head)])
    case Store(n, stale) => s.(next := s.next[n := stale], pushers := s.pushers[k := Cas(n, stale)])
    case Cas(n, stale) =>
      if s.head == stale && !spurious then
        s.(head := At(n), pushers := s.pushers - {k}, shared := [n] + s.shared, pushed := s.pushed + [n])
      else s.(pushers := s.pushers[k := Store(n, s.head)])
  }

  function DoTurn(s: State): State {
    match s.owner
    case Idle => s
    case Reverse(Null, first) => s.(owner := Idle, popped := s.popped + s.turned, turned := [])
    case Reverse(At(tmp), first) =>
      if tmp in s.next && s.todo != [] then
        s.(owner := Reverse(s.next[tmp], At(tmp)), next := s.next[tmp := first],
           turned := [tmp] + s.turned, todo := s.todo[1..])
      else s
  }

  ghost function Step(s: State, a: Act): State {
    match a
    case Push(k, n) => if k in s.pushers || InUse(s, n) then s else s.(pushers := s.pushers[k := Load(n)])
    case Go(k, spurious) => if k in s.pushers then DoGo(s, k, spurious) else s
    case PopAll =>
      if s.owner.Idle? then s.(owner := Reverse(s.head, Null), head := Null, todo := s.shared, shared := []) else s
    case Turn => DoTurn(s)
  }

  // ---------------------------------------------------------------- chains of links

  /** Following the links from a start visits exactly these nodes. */
  predicate Path(next: map<nat, Link>, start: Link, nodes: seq<nat>)
    decreases |nodes|
  {
    if nodes == [] then start == Null
    else start == At(nodes[0]) && nodes[0] in next && Path(next, next[nodes[0]], nodes[1..])
  }

  predicate Distinct(xs: seq<nat>) { forall i, j :: 0 <= i < j < |xs| ==> xs[i] != xs[j] }

  function Reversed(xs: seq<nat>): seq<nat> { if xs == [] then [] else Reversed(xs[1..]) + [xs[0]] }

  lemma {:induction false} PathKept(next: map<nat, Link>, n: nat, l: Link, start: Link, nodes: seq<nat>)
    requires Path(next, start, nodes) && n !in nodes
    ensures Path(next[n := l], start, nodes)
    decreases |nodes|
  {
    if nodes != [] { PathKept(next, n, l, next[nodes[0]], nodes[1..]); }
  }

  /** Every list is acyclic and apart from the others, and nothing pushed is lost, repeated or reordered. */
  ghost predicate Inv(s: State) {
    && Path(s.next, s.head, s.shared)
    && (if s.owner.Idle? then s.todo == [] == s.turned
        else Path(s.next, s.owner.last, s.todo) && Path(s.next, s.owner.first, s.turned))
    && Distinct(s.shared + s.todo + s.turned)
    && (forall k :: k in s.pushers ==> s.pushers[k].node !in s.shared + s.todo + s.turned)
    && (forall i, j :: i in s.pushers && j in s.pushers && i != j ==> s.pushers[i].node != s.pushers[j].node)
    && (forall k :: k in s.pushers && s.pushers[k].Cas? ==>
          s.pushers[k].node in s.next && s.next[s.pushers[k].node] == s.pushers[k].stale)
    && s.pushed == s.popped + Reversed(s.todo) + s.turned + Reversed(s.shared)
  }

  ghost predicate Init(s: State) {
    && s.head == Null && s.pushers == map[] && s.owner.Idle?
    && s.shared == s.todo == s.turned == s.pushed == s.popped == []
  }

  lemma LoadKeeps(s: State, k: nat, p: Pusher)
    requires Inv(s) && k in s.pushers && p == Store(s.pushers[k].node, s.head)
    ensures Inv(s.(pushers := s.pushers[k := p]))
  {
  }

  lemma StoreKeeps(s: State, k: nat)
    requires Inv(s) && k in s.pushers && s.pushers[k].Store?
    ensures Inv(DoGo(s, k, false))
  {
    var n, stale := s.pushers[k].node, s.pushers[k].stale;
    assert n !in s.shared && n !in s.todo && n !in s.turned;
    PathKept(s.next, n, stale, s.head, s.shared);
    if s.owner.Reverse? {
      PathKept(s.next, n, stale, s.owner.last, s.todo);
      PathKept(s.next, n, stale, s.owner.first, s.turned);
    }
  }

  lemma CasKeeps(s: State, k: nat)
    requires Inv(s) && k in s.pushers && s.pushers[k].Cas? && s.head == s.pushers[k].stale
    ensures Inv(DoGo(s, k, false))
  {
    var s', n := DoGo(s, k, false), s.pushers[k].node;
    assert s'.shared[1..] == s.shared;
    assert s'.shared + s'.todo + s'.turned == [n] + (s.shared + s.todo + s.turned);
  }

  lemma PopKeeps(s: State)
    requires Inv(s) && s.owner.Idle?
    ensures Inv(s.(owner := Reverse(s.head, Null), head := Null, todo := s.shared, shared := []))
  {
    assert [] + s.shared + [] == s.shared + [] + [] == s.shared;
  }

  lemma Apart(x: seq<nat>, n: nat, y: seq<nat>, z: seq<nat>)
    requires Distinct(x + ([n] + y) + z)
    ensures n !in x && n !in y && n !in z
  {
    var all, a, b := x + ([n] + y) + z, |x|, |x| + 1 + |y|;
    assert all[a] == n;
    assert forall i :: 0 <= i < a ==> all[i] == x[i];
    assert forall i :: 0 <= i < |y| ==> all[a + 1 + i] == y[i];
    assert forall i :: 0 <= i < |z| ==> all[b + i] == z[i];
  }

  lemma TurnPaths(s: State, tmp: nat, rest: seq<nat>)
    requires Inv(s) && s.owner.Reverse? && s.todo == [tmp] + rest && s.todo[1..] == rest
    requires tmp !in s.shared && tmp !in rest && tmp !in s.turned
    ensures var s' := DoTurn(s);
      && Path(s'.next, s'.head, s'.shared) && s'.todo == rest && s'.turned == [tmp] + s.turned && s'.owner.Reverse?
      && Path(s'.next, s'.owner.last, s'.todo) && Path(s'.next, s'.owner.first, s'.turned)
  {
    var first := s.owner.first;
    PathKept(s.next, tmp, first, s.head, s.shared);
    PathKept(s.next, tmp, first, s.next[tmp], rest);
    PathKept(s.next, tmp, first, first, s.turned);
    assert ([tmp] + s.turned)[1..] == s.turned;
  }

  lemma TurnKeeps(s: State)
    requires Inv(s) && s.owner.Reverse? && s.owner.last.At?
    ensures Inv(DoTurn(s))
  {
    var s', tmp, rest := DoTurn(s), s.todo[0], s.todo[1..];
    assert s.todo == [tmp] + rest;
    Apart(s.shared, tmp, rest, s.turned);
    TurnPaths(s, tmp, rest);
    Rotated(s.shared, tmp, rest, s.turned);
    assert Reversed(s.todo) + s.turned == Reversed(rest) + s'.turned;
  }

  /** Moving one node from the front of one list to the front of the next repeats nothing. */
  lemma Rotated(x: seq<nat>, n: nat, y: seq<nat>, z: seq<nat>)
    requires Distinct(x + ([n] + y) + z)
    ensures Distinct(x + y + ([n] + z))
    ensures forall m :: m in x + y + ([n] + z) <==> m in x + ([n] + y) + z
  {
    var p, q := x + ([n] + y) + z, x + y + ([n] + z);
    var a, b := |x|, |x| + |y|;
    forall i, j | 0 <= i < j < |q| ensures q[i] != q[j] {
      assert q[i] == p[if i < a then i else if i < b then i + 1 else if i == b then a else i];
      assert q[j] == p[if j < a then j else if j < b then j + 1 else if j == b then a else j];
    }
  }

  lemma StepKeeps(s: State, a: Act)
    requires Inv(s)
    ensures Inv(Step(s, a))
  {
    match a
    case Push(k, n) => if !(k in s.pushers || InUse(s, n)) { PushKeeps(s, k, n); }
    case Go(k, spurious) =>
      if k in s.pushers {
        match s.pushers[k]
        case Load(_) => LoadKeeps(s, k, Store(s.pushers[k].node, s.head));
        case Store(_, _) => StoreKeeps(s, k);
        case Cas(_, stale) =>
          if s.head == stale && !spurious {
            CasKeeps(s, k);
          } else {
            LoadKeeps(s, k, Store(s.pushers[k].node, s.head));
          }
      }
    case PopAll => if s.owner.Idle? { PopKeeps(s); }
    case Turn =>
      if s.owner.Reverse? {
        if s.owner.last.At? { TurnKeeps(s); } else { EndKeeps(s); }
      }
  }

  lemma PushKeeps(s: State, k: nat, n: nat)
    requires Inv(s) && k !in s.pushers && !InUse(s, n)
    ensures Inv(s.(pushers := s.pushers[k := Load(n)]))
  {
    forall j | j in s.pushers ensures s.pushers[j].node != n { assert !Holds(s, j, n); }
  }

  lemma EndKeeps(s: State)
    requires Inv(s) && s.owner.Reverse? && s.owner.last.Null?
    ensures Inv(DoTurn(s)) && s.todo == []
  {
    assert s.todo == [];
    assert s.shared + [] + s.turned == s.shared + s.turned;
    assert s.shared + [] + [] == s.shared;
    assert Distinct(s.shared) by {
      forall i, j | 0 <= i < j < |s.shared| ensures s.shared[i] != s.shared[j] {
        assert (s.shared + s.turned)[i] == s.shared[i] && (s.shared + s.turned)[j] == s.shared[j];
      }
    }
  }

  ghost function Exec(s: State, acts: seq<Act>): State
    decreases |acts|
  {
    if acts == [] then s else Exec(Step(s, acts[0]), acts[1..])
  }

  lemma {:induction false} ExecKeeps(s: State, acts: seq<Act>)
    requires Inv(s)
    ensures Inv(Exec(s, acts))
    decreases |acts|
  {
    if acts != [] {
      StepKeeps(s, acts[0]);
      ExecKeeps(Step(s, acts[0]), acts[1..]);
    }
  }

  /**
   In every run: what has been pushed, in order of the successful compare-and-swaps, is what the calls
   to try_pop_all have returned, one after the other, and then what is still linked, oldest first.
   */
  lemma FifoExactlyOnce(s0: State, acts: seq<Act>)
    requires Init(s0)
    ensures var s := Exec(s0, acts);
      && s.pushed == s.popped + Reversed(s.todo) + s.turned + Reversed(s.shared)
      && Path(s.next, s.head, s.shared) && Distinct(s.shared)
      && (s.owner.Idle? ==> s.pushed == s.popped + Reversed(s.shared))
  {
    assert Inv(s0);
    ExecKeeps(s0, acts);
    var s := Exec(s0, acts);
    var all := s.shared + s.todo + s.turned;
    forall i, j | 0 <= i < j < |s.shared| ensures s.shared[i] != s.shared[j] {
      assert all[i] == s.shared[i] && all[j] == s.shared[j];
    }
  }

  /** The list that try_pop_all returns, followed link by link, is the batch it took, oldest first. */
  lemma ReversalReturns(s0: State, acts: seq<Act>)
    requires Init(s0) && Exec(s0, acts).owner.Reverse?
    ensures var s := Exec(s0, acts);
      && (s.owner.last.At? ==> s.todo != [] && |Step(s, Turn).todo| == |s.todo| - 1)
      && (s.owner.last.Null? ==>
            && Path(s.next, s.owner.first, s.turned) && Step(s, Turn).owner.Idle?
            && Step(s, Turn).popped == s.popped + s.turned)
  {
    assert Inv(s0);
    ExecKeeps(s0, acts);
  }

  // ---------------------------------------------------------------- no push is lost

  /** A push goes on holding its node until it has linked it. */
  lemma HeldOrLinked(s: State, a: Act, k: nat, n: nat)
    requires Holds(s, k, n)
    ensures Holds(Step(s, a), k, n) || n in Step(s, a).pushed
    ensures a == Go(k, false) && s.pushers[k].Cas? && s.head == s.pushers[k].stale ==>
      Step(s, a).shared == [n] + s.shared && k !in Step(s, a).pushers
  {
  }

  ghost function One(b: bool): nat { if b then 1 else 0 }

  ghost predicate Held(s: State, n: nat) { exists k :: Holds(s, k, n) }

  /** A push of node n begins. */
  ghost predicate Begins(s: State, a: Act, n: nat) {
    a.Push? && a.node == n && a.k !in s.pushers && !InUse(s, n)
  }

  /** How many pushes of node n begin. */
  ghost function BeginsIn(s: State, acts: seq<Act>, n: nat): nat
    decreases |acts|
  {
    if acts == [] then 0 else One(Begins(s, acts[0], n)) + BeginsIn(Step(s, acts[0]), acts[1..], n)
  }

  /** Neither begins nor ends a push of node n. */
  ghost predicate Irrelevant(s: State, a: Act, n: nat) {
    !Begins(s, a, n) && (a.Go? && a.k in s.pushers && s.pushers[a.k].node == n ==> a.k in Step(s, a).pushers)
  }

  lemma GoHolds(s: State, k: nat, spurious: bool, n: nat)
    requires k in s.pushers && Irrelevant(s, Go(k, spurious), n)
    ensures forall j :: Holds(s, j, n) <==> Holds(DoGo(s, k, spurious), j, n)
    ensures multiset(DoGo(s, k, spurious).pushed)[n] == multiset(s.pushed)[n]
  {
  }

  lemma OtherHolds(s: State, a: Act, n: nat)
    requires !a.Go? && Irrelevant(s, a, n)
    ensures forall j :: Holds(s, j, n) <==> Holds(Step(s, a), j, n)
    ensures Step(s, a).pushed == s.pushed
  {
  }

  lemma StillHeld(s: State, a: Act, n: nat)
    requires Irrelevant(s, a, n)
    ensures Held(s, n) <==> Held(Step(s, a), n)
    ensures multiset(Step(s, a).pushed)[n] == multiset(s.pushed)[n]
  {
    if a.Go? {
      if a.k in s.pushers { GoHolds(s, a.k, a.spurious, n); }
    } else {
      OtherHolds(s, a, n);
    }
  }

  lemma BeginHolds(s: State, k: nat, n: nat)
    requires k !in s.pushers && !InUse(s, n)
    ensures !Held(s, n) && Held(s.(pushers := s.pushers[k := Load(n)]), n)
  {
    assert forall j :: !Holds(s, j, n);
    assert Holds(s.(pushers := s.pushers[k := Load(n)]), k, n);
  }

  lemma LinkReleases(s: State, k: nat, n: nat, s': State)
    requires Inv(s) && Holds(s, k, n) && s'.pushers == s.pushers - {k}
    ensures Held(s, n) && !Held(s', n)
  {
    forall j ensures !Holds(s', j, n) {}
  }

  lemma StepLinks(s: State, a: Act, n: nat)
    requires Inv(s)
    ensures One(Held(s, n)) + multiset(s.pushed)[n] + One(Begins(s, a, n))
         == One(Held(Step(s, a), n)) + multiset(Step(s, a).pushed)[n]
  {
    if Begins(s, a, n) {
      BeginHolds(s, a.k, n);
    } else if Irrelevant(s, a, n) {
      StillHeld(s, a, n);
    } else {
      var s' := DoGo(s, a.k, a.spurious);
      assert Step(s, a) == s' && s'.pushed == s.pushed + [n] && s'.pushers == s.pushers - {a.k};
      LinkReleases(s, a.k, n, s');
    }
  }

  lemma {:induction false} RunLinks(s: State, acts: seq<Act>, n: nat)
    requires Inv(s)
    ensures One(Held(s, n)) + multiset(s.pushed)[n] + BeginsIn(s, acts, n)
         == One(Held(Exec(s, acts), n)) + multiset(Exec(s, acts).pushed)[n]
    decreases |acts|
  {
    if acts != [] {
      StepKeeps(s, acts[0]);
      StepLinks(s, acts[0], n);
      RunLinks(Step(s, acts[0]), acts[1..], n);
    }
  }

  /** In every run each push that began has linked its node exactly once, or is the one still holding it. */
  lemma EveryPushLinks(s0: State, acts: seq<Act>, n: nat)
    requires Init(s0)
    ensures BeginsIn(s0, acts, n) == multiset(Exec(s0, acts).pushed)[n] + One(Held(Exec(s0, acts), n))
  {
    RunLinks(s0, acts, n);
  }

  lemma ExecCons(s: State, a: Act, acts: seq<Act>)
    ensures Exec(s, [a] + acts) == Exec(Step(s, a), acts)
  {
    assert ([a] + acts)[1..] == acts;
  }

  /** A push that nobody disturbs links its node in three steps. */
  lemma LonePushLinks(s: State, k: nat, n: nat)
    requires k in s.pushers && s.pushers[k] == Load(n)
    ensures var s' := Exec(s, [Go(k, false), Go(k, false), Go(k, false)]);
      s' == s.(head := At(n), next := s.next[n := s.head], pushers := s.pushers - {k},
               shared := [n] + s.shared, pushed := s.pushed + [n])
  {
    var g := Go(k, false);
    var s1 := s.(pushers := s.pushers[k := Store(n, s.head)]);
    var s2 := s1.(next := s.next[n := s.head], pushers := s.pushers[k := Cas(n, s.head)]);
    assert Step(s, g) == s1 && Step(s1, g) == s2;
    assert s2.pushers - {k} == s.pushers - {k};
    ExecCons(s, g, [g, g]);
    ExecCons(s1, g, [g]);
    ExecCons(s2, g, []);
  }

  // ---------------------------------------------------------------- try_pop_all ends

  function Turns(n: nat): seq<Act> { if n == 0 then [] else [Turn] + Turns(n - 1) }

  lemma TurnMoves(s: State)
    requires Inv(s) && s.owner.Reverse? && s.todo != []
    ensures Step(s, Turn).owner.Reverse?
    ensures Step(s, Turn) == s.(owner := Step(s, Turn).owner, next := Step(s, Turn).next,
                                turned := [s.todo[0]] + s.turned, todo := s.todo[1..])
  {
  }

  lemma LastTurn(s: State)
    requires Inv(s) && s.owner.Reverse? && s.todo == []
    ensures Step(s, Turn) == s.(owner := Idle, popped := s.popped + s.turned, turned := [])
  {
  }

  /** The reversal is over, and has returned these nodes. */
  ghost predicate Ended(s: State, s': State, batch: seq<nat>) {
    && Inv(s') && s'.owner.Idle? && s'.popped == s.popped + batch
    && s'.head == s.head && s'.shared == s.shared && s'.pushers == s.pushers && s'.pushed == s.pushed
  }

  lemma {:induction false} TurnsFinish(s: State)
    requires Inv(s) && s.owner.Reverse?
    ensures Ended(s, Exec(s, Turns(|s.todo| + 1)), Reversed(s.todo) + s.turned)
    decreases |s.todo|
  {
    StepKeeps(s, Turn);
    ExecCons(s, Turn, Turns(|s.todo|));
    if s.todo != [] {
      TurnMoves(s);
      TurnsFinish(Step(s, Turn));
      assert Reversed(s.todo) + s.turned == Reversed(s.todo[1..]) + ([s.todo[0]] + s.turned);
    } else {
      LastTurn(s);
      assert Reversed([]) + s.turned == s.turned;
    }
  }

  /** try_pop_all takes everything that was linked when it exchanged the head, and returns it oldest first. */
  lemma PopAllReturns(s: State)
    requires Inv(s) && s.owner.Idle?
    ensures var s' := Exec(s, [PopAll] + Turns(|s.shared| + 1));
      && Inv(s') && s'.owner.Idle? && s'.head == Null && s'.shared == [] && s'.popped == s.popped + Reversed(s.shared)
      && s'.pushers == s.pushers && s'.pushed == s.pushed
  {
    StepKeeps(s, PopAll);
    ExecCons(s, PopAll, Turns(|s.shared| + 1));
    TurnsFinish(Step(s, PopAll));
    assert Reversed(s.shared) + [] == Reversed(s.shared);
  }
}
