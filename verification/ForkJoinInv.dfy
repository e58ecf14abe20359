/** What every reachable state of the fork-join protocol satisfies. */
module ForkJoinInv {
  import opened Options
  import opened ForkJoin

  predicate Live(s: State, t: nat) { t in s.tasks && !s.tasks[t].dead }

  predicate Stolen(s: State, t: nat) { t in s.tasks && s.tasks[t].thefts > 0 }

  /** The frame a worker is at. */
  function Cur(pc: Pc): Option<nat> {
    if pc.Idle? || pc.Release? then None else Some(pc.t)
  }

  // ---------------------------------------------------------------- chains

  /**
   The forking ancestors of x whose continuations are still to be had, oldest first: what the deque of
   the worker at x should hold.
   */
  function Handles(tasks: map<nat, Task>, x: nat): seq<nat> {
    if x in tasks && tasks[x].attached && tasks[x].parent < x then
      Handles(tasks, tasks[x].parent) + if tasks[x].kind.Forked? then [tasks[x].parent] else []
    else []
  }

  predicate AtOk(s: State, x: nat)
    requires x in s.tasks
  {
    match s.tasks[x].at
    case On(w) => w in s.workers && Cur(s.workers[w].pc) == Some(x)
    case Under(y) => y in s.tasks && s.tasks[y].parent == x && s.tasks[y].attached && !s.tasks[x].dead
    case Parked => Stolen(s, x) && !s.tasks[x].dead
    case Queued => x in s.queue && s.tasks[x].kind.Root? && !s.tasks[x].dead && !Stolen(s, x)
  }

  predicate TaskOk(s: State, x: nat)
    requires x in s.tasks
  {
    var T := s.tasks[x];
    && 0 < x < s.nextTask
    && (T.kind.Root? ==> !T.attached && T.under == None)
    && (!T.kind.Root? ==> Live(s, T.parent) && T.parent < x)
    && (T.kind.Called? ==> T.attached)
    && (T.attached ==> s.tasks[T.parent].at == Under(x))
    && (T.kind.Forked? && !T.attached ==> Stolen(s, T.parent))
    && AtOk(s, x)
    && (T.dead ==> T.kind.Forked? && T.at.On? && T.at.w in s.workers
                   && (s.workers[T.at.w].pc.Finish? || s.workers[T.at.w].pc.Register?))
    && (Stolen(s, x) ==> !T.dead && Handles(s.tasks, x) == [])
  }

  predicate PcOk(s: State, w: nat)
    requires w in s.workers
  {
    match s.workers[w].pc
    case Idle => true
    case Release(_) => true
    case Run(t) => Live(s, t)
    case Finish(c, p) => c in s.tasks && s.tasks[c].dead && s.tasks[c].kind.Forked? && s.tasks[c].parent == p
    case Register(c, p, _) =>
      c in s.tasks && s.tasks[c].dead && s.tasks[c].kind.Forked? && s.tasks[c].parent == p && !s.tasks[c].attached
    case Stole(t) => Live(s, t) && Stolen(s, t)
    case Last(t, _) => Live(s, t) && Stolen(s, t)
    case AtJoin(t) => Live(s, t) && Stolen(s, t)
    case JoinSub(t) => Live(s, t) && Stolen(s, t)
    case Take(t) => Live(s, t) && Stolen(s, t)
  }

  /** A worker's deque is the run of forking ancestors of the frame it is at. */
  predicate WorkerOk(s: State, w: nat)
    requires w in s.workers
  {
    var me := s.workers[w];
    && PcOk(s, w)
    && match Cur(me.pc)
       case None => me.deque == []
       case Some(t) => t in s.tasks && s.tasks[t].at == On(w) && me.deque == Handles(s.tasks, t)
  }

  ghost predicate Chains(s: State) {
    && (forall x {:trigger TaskOk(s, x)} :: x in s.tasks ==> TaskOk(s, x))
    && (forall w {:trigger WorkerOk(s, w)} :: w in s.workers ==> WorkerOk(s, w))
    && (forall r :: r in s.queue ==> r in s.tasks && s.tasks[r].at.Queued?)
    && s.nextTask > 0
  }

  // ---------------------------------------------------------------- counters

  /** The forked children of t that run apart from it and have not registered. */
  function Out(s: State, t: nat): set<nat> {
    set x | x in s.tasks && s.tasks[x].kind.Forked? && !s.tasks[x].attached && s.tasks[x].parent == t
  }

  predicate PcAt(s: State, t: nat, pc: Pc) {
    t in s.tasks && s.tasks[t].at.On? && s.tasks[t].at.w in s.workers && s.workers[s.tasks[t].at.w].pc == pc
  }

  /** Exclusively owned, control block about to be reset. */
  predicate Resetting(s: State, t: nat) {
    PcAt(s, t, Last(t, true)) || PcAt(s, t, Last(t, false)) || PcAt(s, t, Take(t))
  }

  predicate CounterOk(s: State, t: nat)
    requires t in s.tasks
  {
    var T, out := s.tasks[t], |Out(s, t)|;
    && out <= T.thefts <= MAX
    && (if T.at.Parked? then T.joins == out >= 1
        else if Resetting(s, t) then out == 0
        else T.joins == MAX - T.thefts + out)
    && T.steals == (if PcAt(s, t, Stole(t)) then T.thefts - 1 else T.thefts)
  }

  ghost predicate Counters(s: State) {
    forall t {:trigger CounterOk(s, t)} :: t in s.tasks ==> CounterOk(s, t)
  }

  // ---------------------------------------------------------------- stacks

  predicate Top(s: State, k: nat, t: nat) { k in s.stacks && s.stacks[k] == Some(t) }

  predicate Bare(s: State, k: nat) { k in s.stacks && s.stacks[k] == None }

  /** Each live frame is on top of its stack or directly below the frame of a live child. */
  predicate FrameOk(s: State, x: nat)
    requires x in s.tasks
  {
    var T := s.tasks[x];
    && (!T.dead ==>
          && T.stack in s.stacks
          && (T.under.Some? ==>
                T.under.value == T.parent && Live(s, T.parent) && s.tasks[T.parent].stack == T.stack
                && s.tasks[T.parent].over == Some(x))
          && (if T.over == None then Top(s, T.stack, x)
              else Live(s, T.over.value) && s.tasks[T.over.value].parent == x && s.tasks[T.over.value].under == Some(x)
                   && !s.tasks[T.over.value].kind.Root?))
    && (T.attached ==> (T.under == None <==> Stolen(s, T.parent)) && (T.under != None ==> T.under == Some(T.parent)))
  }

  /** What the worker's stack holds: the frame it runs on top, or nothing at all. */
  predicate StackOk(s: State, w: nat)
    requires w in s.workers
  {
    var me := s.workers[w];
    var k := me.tls;
    match me.pc
    case Idle => Bare(s, k)
    case Run(t) => if Stolen(s, t) then Bare(s, k) else Top(s, k, t)
    case Stole(_) => Bare(s, k)
    case Finish(c, p) =>
      && c in s.tasks
      && if s.tasks[c].under == None then Bare(s, k) else s.tasks[c].under == Some(p) && Top(s, k, p)
    case Register(_, p, same) => if same then Top(s, k, p) else Bare(s, k)
    case Last(t, same) => if same then Top(s, k, t) else Bare(s, k)
    case Release(same) => same || Bare(s, k)
    case AtJoin(_) => Bare(s, k)
    case JoinSub(_) => Bare(s, k)
    case Take(_) => Bare(s, k)
  }

  /** A worker between its losing decrement and its release no longer owns the stack it points at. */
  predicate Owns(s: State, w: nat) {
    w in s.workers && s.workers[w].pc != Release(true)
  }

  predicate TopOk(s: State, k: nat)
    requires k in s.stacks
  {
    k < s.nextStack && (s.stacks[k].Some? ==>
      var t := s.stacks[k].value;
      Live(s, t) && s.tasks[t].stack == k && s.tasks[t].over == None)
  }

  ghost predicate Frames(s: State) {
    && (forall x {:trigger FrameOk(s, x)} :: x in s.tasks ==> FrameOk(s, x))
    && (forall k {:trigger TopOk(s, k)} :: k in s.stacks ==> TopOk(s, k))
  }

  ghost predicate Owners(s: State) {
    && (forall w {:trigger StackOk(s, w)} :: w in s.workers ==> StackOk(s, w))
    && (forall v, w :: Owns(s, v) && Owns(s, w) && s.workers[v].tls == s.workers[w].tls ==> v == w)
  }

  // ---------------------------------------------------------------- sync_fork

  predicate ForkPending(s: State, t: nat) {
    t in s.tasks && s.tasks[t].at.Under? && s.tasks[t].at.x in s.tasks && s.tasks[s.tasks[t].at.x].kind.Forked?
  }

  /** Once resumed, an unchanged steal count means the last forked child is gone. */
  predicate ForkTold(s: State, t: nat)
    requires t in s.tasks
  {
    var T := s.tasks[t];
    && T.lastFork < s.nextTask
    && (T.lastFork in s.tasks ==> s.tasks[T.lastFork].kind.Forked? && s.tasks[T.lastFork].parent == t)
    && (ForkPending(s, t) ==> T.lastFork == T.at.x)
    && (if ForkPending(s, t) || PcAt(s, t, Stole(t)) then T.stealsPre == T.steals
        else T.stealsPre == T.steals ==> T.lastFork !in s.tasks)
  }

  ghost predicate SyncForks(s: State) {
    forall t {:trigger ForkTold(s, t)} :: t in s.tasks ==> ForkTold(s, t)
  }

  ghost predicate Inv(s: State) {
    Chains(s) && Counters(s) && Frames(s) && Owners(s) && SyncForks(s)
  }

  // ---------------------------------------------------------------- handles

  predicate SameLinks(m: map<nat, Task>, m': map<nat, Task>, y: nat) {
    && (y in m <==> y in m')
    && (y in m ==> m'[y].attached == m[y].attached && m'[y].parent == m[y].parent && m'[y].kind == m[y].kind)
  }

  /** A change at a frame that is nobody's attached parent is seen only there. */
  lemma {:induction false} HandlesSkip(m: map<nat, Task>, m': map<nat, Task>, d: nat, x: nat)
    requires forall y :: y != d ==> SameLinks(m, m', y)
    requires forall y :: y in m && m[y].attached ==> m[y].parent != d
    requires x != d
    ensures Handles(m', x) == Handles(m, x)
  {
    assert SameLinks(m, m', x);
    if x in m && m[x].attached && m[x].parent < x {
      HandlesSkip(m, m', d, m[x].parent);
    }
  }

  lemma {:induction false} HandlesSame(m: map<nat, Task>, m': map<nat, Task>, x: nat)
    requires forall y: nat :: y <= x ==> SameLinks(m, m', y)
    ensures Handles(m', x) == Handles(m, x)
  {
    assert SameLinks(m, m', x);
    if x in m && m[x].attached && m[x].parent < x {
      HandlesSame(m, m', m[x].parent);
    }
  }

  /** x is r or an ancestor of r on the same chain. */
  predicate OnChain(m: map<nat, Task>, x: nat, r: nat) {
    x == r || (r in m && m[r].attached && m[r].parent < r && OnChain(m, x, m[r].parent))
  }

  lemma {:induction false} ChainBelow(m: map<nat, Task>, x: nat, r: nat)
    requires OnChain(m, x, r)
    ensures x <= r
  {
    if x != r { ChainBelow(m, x, m[r].parent); }
  }

  /** A frame below the top of its chain has one successor, on the same chain. */
  lemma {:induction false} ChainUp(s: State, x: nat, r: nat)
    requires Chains(s) && r in s.tasks && OnChain(s.tasks, x, r) && x != r
    ensures x in s.tasks && s.tasks[x].at.Under? && OnChain(s.tasks, s.tasks[x].at.x, r) && x < s.tasks[x].at.x <= r
  {
    assert TaskOk(s, r);
    var p := s.tasks[r].parent;
    if x == p {
      assert s.tasks[x].at == Under(r);
    } else {
      ChainUp(s, x, p);
      ChainBelow(s.tasks, s.tasks[x].at.x, p);
    }
  }

  /** Two frames that workers are at never share a chain. */
  lemma {:induction false} ChainTop(s: State, x: nat, r: nat, q: nat)
    requires Chains(s) && r in s.tasks && q in s.tasks && !s.tasks[r].at.Under? && !s.tasks[q].at.Under?
    requires OnChain(s.tasks, x, r) && OnChain(s.tasks, x, q)
    ensures r == q
    decreases r - x
  {
    ChainBelow(s.tasks, x, r);
    if x != r {
      ChainUp(s, x, r);
      if x != q { ChainUp(s, x, q); }
      ChainTop(s, s.tasks[x].at.x, r, q);
    } else if x != q {
      ChainUp(s, x, q);
    }
  }

  /** The oldest handle forked the next frame of the chain and has only calls below it. */
  lemma {:induction false} HandlesFirst(s: State, r: nat)
    requires Chains(s) && r in s.tasks && Handles(s.tasks, r) != []
    ensures var t := Handles(s.tasks, r)[0];
      && Live(s, t) && s.tasks[t].at.Under? && Handles(s.tasks, t) == []
      && var x := s.tasks[t].at.x;
         x in s.tasks && s.tasks[x].kind.Forked? && s.tasks[x].attached && s.tasks[x].parent == t < x
         && OnChain(s.tasks, x, r)
  {
    assert TaskOk(s, r);
    var p := s.tasks[r].parent;
    assert TaskOk(s, p);
    if Handles(s.tasks, p) == [] {
      assert Handles(s.tasks, r)[0] == p;
    } else {
      HandlesFirst(s, p);
      assert Handles(s.tasks, r)[0] == Handles(s.tasks, p)[0];
    }
  }

  lemma {:induction false} HandlesCut(m: map<nat, Task>, x: nat, t: nat, r: nat, m': map<nat, Task>)
    requires x in m && m[x].attached && m[x].kind.Forked? && m[x].parent == t < x && Handles(m, t) == []
    requires forall y :: y != x ==> SameLinks(m, m', y)
    requires x in m' && !m'[x].attached
    ensures OnChain(m, x, r) ==> Handles(m, r) == [t] + Handles(m', r)
    ensures !OnChain(m, x, r) ==> Handles(m', r) == Handles(m, r)
  {
    if r == x {
      assert Handles(m, x) == [] + [t];
    } else {
      assert SameLinks(m, m', r);
      if r in m && m[r].attached && m[r].parent < r {
        HandlesCut(m, x, t, m[r].parent, m');
      }
    }
  }
}
