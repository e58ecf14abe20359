/** Whole runs of the fork-join protocol: what holds in every state any schedule can reach. */
module ForkJoinSafety {
  import opened Options
  import opened ForkJoin
  import opened ForkJoinInv
  import opened ForkJoinChains
  import opened ForkJoinCounters
  import opened ForkJoinStacks
  import opened ForkJoinSync

  lemma InitInv(s: State)
    requires Init(s)
    ensures Inv(s)
  {
    forall w | w in s.workers ensures WorkerOk(s, w) && StackOk(s, w) {}
    forall k | k in s.stacks ensures TopOk(s, k) {}
  }

  /** Outside the window between taking a handle and counting it, the steal count says who was stolen. */
  lemma StealsTell(s: State, w: nat)
    requires Inv(s) && w in s.workers && s.workers[w].pc.Run?
    ensures var t := s.workers[w].pc.t; t in s.tasks && (s.tasks[t].steals != 0 <==> Stolen(s, t))
  {
    assert WorkerOk(s, w) && CounterOk(s, s.workers[w].pc.t);
  }

  lemma SubmitInv(s: State)
    requires Inv(s)
    ensures Inv(DoSubmit(s))
  {
    SubmitChains(s);
    SubmitCounters(s);
    SubmitStacks(s);
    SubmitSync(s, DoSubmit(s));
  }

  lemma TakeRootInv(s: State, w: nat, r: nat)
    requires Inv(s) && w in s.workers
    ensures Inv(DoTakeRoot(s, w, r))
  {
    if s.workers[w].pc.Idle? && r in s.queue {
      assert s.tasks[r].at.Queued? && TaskOk(s, r) && CounterOk(s, r);
      TakeRootChains(s, w, r);
      TakeRootCounters(s, w, r);
      TakeRootStacks(s, w, r);
      TakeRootSync(s, DoTakeRoot(s, w, r), w, r);
    }
  }

  lemma CreateInv(s: State, w: nat, kind: Kind)
    requires Inv(s) && w in s.workers && !kind.Root?
    ensures Inv(DoCreate(s, w, kind))
  {
    if s.workers[w].pc.Run? {
      CreateStacks(s, w, kind);
      CreateChains(s, w, kind);
      CreateCounters(s, w, kind);
      CreateSync(s, DoCreate(s, w, kind), w, kind);
    }
  }

  lemma ReturnInv(s: State, w: nat)
    requires Inv(s) && w in s.workers
    ensures Inv(DoReturn(s, w))
  {
    if s.workers[w].pc.Run? {
      StealsTell(s, w);
      var c := s.workers[w].pc.t;
      if s.tasks[c].steals == 0 {
        ReturnChains(s, w);
        ReturnCounters(s, w);
        ReturnStacks(s, w);
        ReturnSync(s, DoReturn(s, w), w, c);
      }
    }
  }

  lemma JoinInv(s: State, w: nat)
    requires Inv(s) && w in s.workers
    ensures Inv(DoJoin(s, w))
  {
    if s.workers[w].pc.Run? {
      StealsTell(s, w);
      JoinChains(s, w);
      JoinCounters(s, w);
      JoinStacks(s, w);
      if DoJoin(s, w) != s {
        NotOn(s, w, Some(s.workers[w].pc.t));
        assert WorkerOk(s, w);
        JoinSync(s, DoJoin(s, w), w, s.workers[w].pc.t);
      }
    }
  }

  lemma StealInv(s: State, w: nat, v: nat)
    requires Inv(s) && w in s.workers && Bounded(DoSteal(s, w, v))
    ensures Inv(DoSteal(s, w, v))
  {
    if s.workers[w].pc.Idle? && v in s.workers && v != w && s.workers[v].deque != [] {
      StealChains(s, w, v);
      StealCounters(s, w, v);
      StealStacks(s, w, v);
      StealSync(s, DoSteal(s, w, v), w, v);
    }
  }

  // ---------------------------------------------------------------- the steps in between

  lemma StoleInv(s: State, w: nat)
    requires Inv(s) && w in s.workers && s.workers[w].pc.Stole?
    ensures Inv(DoGo(s, w))
  {
    StayChains(s, w);
    StoleCounters(s, w);
    StoleStacks(s, w);
    StoleSync(s, DoGo(s, w), w, s.workers[w].pc.t);
  }

  lemma FinishInv(s: State, w: nat)
    requires Inv(s) && w in s.workers && s.workers[w].pc.Finish?
    ensures Inv(DoGo(s, w))
  {
    FinishChains(s, w);
    FinishCounters(s, w);
    FinishStacks(s, DoGo(s, w), w, s.workers[w].pc.t, s.workers[w].pc.p);
    FinishSync(s, DoGo(s, w), w, s.workers[w].pc.t, s.workers[w].pc.p);
  }

  lemma RegisterInv(s: State, w: nat)
    requires Inv(s) && Bounded(s) && w in s.workers && s.workers[w].pc.Register?
    ensures Inv(DoGo(s, w))
  {
    RegisterIsLast(s, w);
    RegisterChains(s, w);
    RegisterCounters(s, w);
    var pc := s.workers[w].pc;
    RegisterStacks(s, DoGo(s, w), w, pc.t, pc.p, pc.same);
    RegisterSync(s, DoGo(s, w), w, pc.t, pc.p, pc.same);
  }

  lemma ResetInv(s: State, w: nat, t: nat, owned: bool)
    requires Inv(s) && w in s.workers
    requires
      if owned then s.workers[w].pc == Last(t, true)
      else s.workers[w].pc == Last(t, false) || s.workers[w].pc == Take(t)
    ensures Inv(TakeAndReset(s, w, t, owned))
  {
    ResetCounters(s, w, t, owned);
    ResetChains(s, w, t, owned);
    ResetStacks(s, TakeAndReset(s, w, t, owned), w, t, owned);
    ResetSync(s, TakeAndReset(s, w, t, owned), w, t, owned);
  }

  lemma ReleaseInv(s: State, w: nat)
    requires Inv(s) && w in s.workers && s.workers[w].pc.Release?
    ensures Inv(DoGo(s, w))
  {
    StayChains(s, w);
    ReleaseCounters(s, w);
    ReleaseStacks(s, w);
    ReleaseSync(s, DoGo(s, w), w, s.workers[w].pc.same);
  }

  lemma AtJoinInv(s: State, w: nat)
    requires Inv(s) && w in s.workers && s.workers[w].pc.AtJoin?
    ensures Inv(DoGo(s, w))
  {
    StayChains(s, w);
    AtJoinCounters(s, w);
    AtJoinStacks(s, w);
    NotOn(s, w, Some(s.workers[w].pc.t));
    assert WorkerOk(s, w);
    JoinSync(s, DoGo(s, w), w, s.workers[w].pc.t);
  }

  lemma JoinSubInv(s: State, w: nat)
    requires Inv(s) && w in s.workers && s.workers[w].pc.JoinSub?
    ensures Inv(DoGo(s, w))
  {
    JoinSubChains(s, w);
    JoinSubCounters(s, w);
    JoinSubStacks(s, DoGo(s, w), w, s.workers[w].pc.t);
    JoinSubSync(s, DoGo(s, w), w, s.workers[w].pc.t);
  }

  lemma GoInv(s: State, w: nat)
    requires Inv(s) && Bounded(s) && w in s.workers
    ensures Inv(DoGo(s, w))
  {
    match s.workers[w].pc
    case Idle =>
    case Run(_) =>
    case Stole(_) => StoleInv(s, w);
    case Finish(_, _) => FinishInv(s, w);
    case Register(_, _, _) => RegisterInv(s, w);
    case Last(t, same) => ResetInv(s, w, t, same);
    case Release(_) => ReleaseInv(s, w);
    case AtJoin(_) => AtJoinInv(s, w);
    case JoinSub(_) => JoinSubInv(s, w);
    case Take(t) => ResetInv(s, w, t, false);
  }

  lemma StepInv(s: State, a: Act)
    requires Inv(s) && Bounded(s) && Bounded(Step(s, a))
    ensures Inv(Step(s, a))
  {
    if a.Submit? {
      SubmitInv(s);
    } else if a.w in s.workers {
      match a
      case TakeRoot(w, r) => TakeRootInv(s, w, r);
      case Fork(w) => CreateInv(s, w, Forked);
      case Call(w) => CreateInv(s, w, Called);
      case Return(w) => ReturnInv(s, w);
      case Join(w) => JoinInv(s, w);
      case Steal(w, v) => StealInv(s, w, v);
      case Go(w) => GoInv(s, w);
    }
  }

  // ---------------------------------------------------------------- runs

  function Exec(s: State, acts: seq<Act>): State
    decreases |acts|
  {
    if acts == [] then s else Exec(Step(s, acts[0]), acts[1..])
  }

  /** No scope sees more than k steals during the run. */
  ghost predicate FewSteals(s: State, acts: seq<Act>, k: nat)
    decreases |acts|
  {
    AtMost(s, k) && (acts != [] ==> FewSteals(Step(s, acts[0]), acts[1..], k))
  }

  ghost predicate Reachable(s: State) {
    exists s0, acts :: Init(s0) && FewSteals(s0, acts, MAX - 1) && s == Exec(s0, acts)
  }

  lemma {:induction false} RunInv(s: State, acts: seq<Act>)
    requires Inv(s) && FewSteals(s, acts, MAX - 1)
    ensures Inv(Exec(s, acts)) && Bounded(Exec(s, acts))
    decreases |acts|
  {
    if acts != [] {
      assert FewSteals(Step(s, acts[0]), acts[1..], MAX - 1);
      StepInv(s, acts[0]);
      RunInv(Step(s, acts[0]), acts[1..]);
    }
  }

  /** Every state of every run with at most 65534 steals per scope satisfies the invariant. */
  lemma ReachableInv(s: State)
    requires Reachable(s)
    ensures Inv(s) && Bounded(s)
  {
    var s0, acts :| Init(s0) && FewSteals(s0, acts, MAX - 1) && s == Exec(s0, acts);
    InitInv(s0);
    RunInv(s0, acts);
  }

  // ---------------------------------------------------------------- join safety

  /** Worker w is past the join of t or passes it in its next step. */
  predicate Passes(s: State, w: nat, t: nat) {
    && w in s.workers && t in s.tasks
    && match s.workers[w].pc
       case Run(r) => r == t && s.tasks[t].steals == 0
       case Take(r) => r == t
       case Last(r, _) => r == t
       case _ => false
  }

  lemma PassesAlone(s: State, w: nat, t: nat)
    requires Inv(s) && Passes(s, w, t)
    ensures Childless(s, t) && !s.tasks[t].at.Parked?
    ensures forall v :: v in s.workers && Cur(s.workers[v].pc) == Some(t) ==> v == w
    ensures forall v :: v in s.workers ==> t !in s.workers[v].deque
  {
    assert WorkerOk(s, w) && CounterOk(s, t);
    forall v | v in s.workers && Cur(s.workers[v].pc) == Some(t) ensures v == w { assert WorkerOk(s, v); }
    NobodyOut(s, t);
    forall v | v in s.workers ensures t !in s.workers[v].deque {
      if t in s.workers[v].deque { HandleBelow(s, v, t); }
    }
  }

  /** Whoever passes a join is alone at the frame, and no child of the scope is left. */
  lemma JoinSafety(s: State, w: nat, t: nat)
    requires Reachable(s) && Passes(s, w, t)
    ensures Childless(s, t) && !s.tasks[t].at.Parked?
    ensures forall v :: v in s.workers && Cur(s.workers[v].pc) == Some(t) ==> v == w
    ensures forall v :: v in s.workers ==> t !in s.workers[v].deque
  {
    ReachableInv(s);
    PassesAlone(s, w, t);
  }

  lemma {:induction false} HandlesOnChain(s: State, h: nat, x: nat)
    requires Chains(s) && x in s.tasks && h in Handles(s.tasks, x)
    ensures h < x && OnChain(s.tasks, h, x) && Live(s, h) && s.tasks[h].at.Under?
  {
    assert TaskOk(s, x);
    var p := s.tasks[x].parent;
    if h in Handles(s.tasks, p) { HandlesOnChain(s, h, p); }
  }

  lemma HandleBelow(s: State, v: nat, h: nat)
    requires Chains(s) && v in s.workers && h in s.workers[v].deque
    ensures Cur(s.workers[v].pc).Some? && OnChain(s.tasks, h, s.workers[v].pc.t) && h < s.workers[v].pc.t
    ensures Live(s, h) && s.tasks[h].at.Under?
  {
    assert WorkerOk(s, v);
    HandlesOnChain(s, h, s.workers[v].pc.t);
  }

  /** The two reads of the counter at a join pass it exactly if every stolen-from child has registered. */
  lemma JoinDecides(s: State, w: nat, t: nat)
    requires Reachable(s) && w in s.workers && (s.workers[w].pc == AtJoin(t) || s.workers[w].pc == JoinSub(t))
    ensures t in s.tasks
    ensures DoGo(s, w).workers[w].pc == Take(t) <==> Out(s, t) == {}
    ensures DoGo(s, w).workers[w].pc != Take(t) && s.workers[w].pc.JoinSub? ==>
      DoGo(s, w).workers[w].pc == Idle && DoGo(s, w).tasks[t].at.Parked? && DoGo(s, w).tasks[t].joins == |Out(s, t)|
  {
    ReachableInv(s);
    assert WorkerOk(s, w) && CounterOk(s, t);
  }

  /** A decrement finds 1 exactly if the parent is suspended and this is its only outstanding child. */
  lemma LastChild(s: State, w: nat, c: nat, p: nat, same: bool)
    requires Reachable(s) && w in s.workers && s.workers[w].pc == Register(c, p, same)
    ensures p in s.tasks && c in Out(s, p)
    ensures DoGo(s, w).workers[w].pc == Last(p, same) <==> s.tasks[p].at.Parked? && Out(s, p) == {c}
  {
    ReachableInv(s);
    RegisterIsLast(s, w);
  }

  /** A suspended parent waits for someone: its resumption cannot be lost. */
  lemma ParkedIsAwaited(s: State, t: nat)
    requires Reachable(s) && t in s.tasks && s.tasks[t].at.Parked?
    ensures Out(s, t) != {} && s.tasks[t].joins == |Out(s, t)|
    ensures forall v :: v in s.workers ==> Cur(s.workers[v].pc) != Some(t) && t !in s.workers[v].deque
  {
    ReachableInv(s);
    assert CounterOk(s, t);
    forall v | v in s.workers ensures Cur(s.workers[v].pc) != Some(t) && t !in s.workers[v].deque {
      assert WorkerOk(s, v);
      if t in s.workers[v].deque { HandleBelow(s, v, t); }
    }
  }

  /** Only the last child's decrement ends a suspension. */
  lemma OnlyLastChildResumes(s: State, a: Act, t: nat)
    requires Reachable(s) && t in s.tasks && s.tasks[t].at.Parked?
    requires !(t in Step(s, a).tasks && Step(s, a).tasks[t].at.Parked?)
    ensures a.Go? && a.w in s.workers && s.workers[a.w].pc.Register? && s.workers[a.w].pc.p == t
    ensures Out(s, t) == {s.workers[a.w].pc.t} && Cur(Step(s, a).workers[a.w].pc) == Some(t)
  {
    ReachableInv(s);
    FreshTask(s);
    if !a.Submit? && a.w in s.workers {
      UnparkStep(s, a, t);
      LastChild(s, a.w, s.workers[a.w].pc.t, t, s.workers[a.w].pc.same);
    }
  }

  /** Only a registering child or a worker at t changes where t is. */
  lemma UnparkGo(s: State, w: nat, t: nat)
    requires Inv(s) && t in s.tasks && s.tasks[t].at.Parked? && w in s.workers
    requires !(t in DoGo(s, w).tasks && DoGo(s, w).tasks[t].at.Parked?)
    ensures s.workers[w].pc.Register? && s.workers[w].pc.p == t && s.tasks[t].joins == 1
  {
    assert WorkerOk(s, w) && TaskOk(s, t);
    if Cur(s.workers[w].pc).Some? { assert TaskOk(s, s.workers[w].pc.t); }
  }

  lemma UnparkReturn(s: State, w: nat, t: nat)
    requires Inv(s) && t in s.tasks && s.tasks[t].at.Parked? && w in s.workers
    ensures t in DoReturn(s, w).tasks && DoReturn(s, w).tasks[t].at.Parked?
  {
    assert WorkerOk(s, w) && TaskOk(s, t);
    if s.workers[w].pc.Run? {
      assert TaskOk(s, s.workers[w].pc.t);
      CoverOnly(s.tasks, s.tasks[s.workers[w].pc.t].under, None);
    }
  }

  lemma UnparkStep(s: State, a: Act, t: nat)
    requires Inv(s) && t in s.tasks && s.tasks[t].at.Parked? && !a.Submit? && a.w in s.workers
    requires !(t in Step(s, a).tasks && Step(s, a).tasks[t].at.Parked?)
    ensures a.Go? && s.workers[a.w].pc.Register? && s.workers[a.w].pc.p == t && s.tasks[t].joins == 1
  {
    var w := a.w;
    assert WorkerOk(s, w) && TaskOk(s, t);
    if a.Go? {
      UnparkGo(s, w, t);
    } else if a.Return? {
      UnparkReturn(s, w, t);
    } else if a.Steal? && a.victim in s.workers && s.workers[a.victim].deque != [] {
      HandleBelow(s, a.victim, s.workers[a.victim].deque[0]);
    }
  }

  lemma {:induction false} SomebodyIsAt(s: State, t: nat)
    requires Inv(s) && t in s.tasks && forall w :: w in s.workers ==> s.workers[w].pc.Idle?
    ensures s.queue != {}
    decreases s.nextTask - t
  {
    assert TaskOk(s, t);
    match s.tasks[t].at
    case On(w) =>
    case Under(x) =>
      assert TaskOk(s, x);
      SomebodyIsAt(s, x);
    case Parked =>
      assert CounterOk(s, t);
      var x :| x in Out(s, t);
      assert TaskOk(s, x);
      SomebodyIsAt(s, x);
    case Queued =>
  }

  /** No task is ever lost: when nothing is submitted and every worker is idle, every task has finished. */
  lemma NoTaskIsLost(s: State)
    requires Reachable(s) && s.queue == {} && forall w :: w in s.workers ==> s.workers[w].pc.Idle?
    ensures s.tasks == map[]
  {
    ReachableInv(s);
    if t :| t in s.tasks { SomebodyIsAt(s, t); }
  }

  // ---------------------------------------------------------------- deques

  /**
   Every deque is the run of forking ancestors of the frame its worker is at, oldest first; it is empty
   when the worker has nothing to resume; and the pop of a finished child gives its parent or nothing.
   */
  lemma DequeShape(s: State, w: nat)
    requires Reachable(s) && w in s.workers
    ensures var me := s.workers[w];
      && (Cur(me.pc) == None ==> me.deque == [])
      && (Cur(me.pc).Some? ==> me.deque == Handles(s.tasks, me.pc.t))
      && (forall h :: h in me.deque ==> Live(s, h) && OnChain(s.tasks, h, me.pc.t) && h < me.pc.t)
      && (me.pc.Finish? && me.deque != [] ==> me.deque[|me.deque| - 1] == me.pc.p)
      && (me.pc.Finish? && me.deque == [] ==> Stolen(s, me.pc.p))
  {
    ReachableInv(s);
    assert WorkerOk(s, w);
    forall h | h in s.workers[w].deque
      ensures Live(s, h) && OnChain(s.tasks, h, s.workers[w].pc.t) && h < s.workers[w].pc.t
    { HandleBelow(s, w, h); }
    if s.workers[w].pc.Finish? { assert TaskOk(s, s.workers[w].pc.t); }
  }

  /** No continuation is offered twice, nor offered while somebody is at it. */
  lemma HandlesDisjoint(s: State, v: nat, w: nat, h: nat)
    requires Reachable(s) && v in s.workers && w in s.workers && h in s.workers[v].deque
    ensures h in s.workers[w].deque ==> v == w
    ensures Cur(s.workers[w].pc) != Some(h)
  {
    ReachableInv(s);
    HandleBelow(s, v, h);
    assert WorkerOk(s, v) && WorkerOk(s, w);
    if h in s.workers[w].deque {
      HandleBelow(s, w, h);
      ChainTop(s, h, s.workers[v].pc.t, s.workers[w].pc.t);
    }
  }

  // ---------------------------------------------------------------- stacks

  /** No two owners; and whoever passes a join ends up owning the stack with the frame on top, alone. */
  lemma StackOwnership(s: State, w: nat, t: nat)
    requires Reachable(s) && Passes(s, w, t)
    ensures var s' := DoGo(s, w);
      && s'.workers[w].pc == Run(t) && s'.workers[w].tls == s'.tasks[t].stack && Top(s', s'.tasks[t].stack, t)
      && (forall v :: Owns(s', v) && s'.workers[v].tls == s'.tasks[t].stack ==> v == w)
  {
    ReachableInv(s);
    GoInv(s, w);
    var s' := DoGo(s, w);
    JoinSafety(s, w, t);
    assert WorkerOk(s, w) && StackOk(s', w) && CounterOk(s, t);
    assert TopOk(s', s'.workers[w].tls);
  }

  lemma OneOwner(s: State, v: nat, w: nat)
    requires Reachable(s) && Owns(s, v) && Owns(s, w) && v != w
    ensures s.workers[v].tls != s.workers[w].tls
  {
    ReachableInv(s);
  }

  /** Who a stack with frames on it belongs to. */
  datatype Holder = ByWorker(w: nat) | ByFrame(t: nat)

  predicate OwnsStack(s: State, w: nat, k: nat) { Owns(s, w) && s.workers[w].tls == k }

  /**
   A worker that points at it and has not given it up; failing that its top frame, which was stolen from
   whoever gave the stack up, or was submitted and waits to be taken.
   */
  ghost predicate Holds(s: State, k: nat, h: Holder) {
    match h
    case ByWorker(w) => OwnsStack(s, w, k)
    case ByFrame(t) =>
      && Top(s, k, t) && (Stolen(s, t) || (t in s.tasks && s.tasks[t].at.Queued?))
      && forall w :: !OwnsStack(s, w, k)
  }

  /** The top frame of a stack was stolen, or waits to be taken, or there is a worker on the stack. */
  lemma TopIsHeld(s: State, k: nat, t: nat)
    requires Inv(s) && Top(s, k, t) && !Stolen(s, t) && t in s.tasks && !s.tasks[t].at.Queued?
    ensures exists w :: OwnsStack(s, w, k)
  {
    assert TopOk(s, k) && TaskOk(s, t);
    if s.tasks[t].at.On? {
      var w := s.tasks[t].at.w;
      assert WorkerOk(s, w) && StackOk(s, w) && TopOk(s, s.workers[w].tls);
      assert OwnsStack(s, w, k);
    } else {
      var y := s.tasks[t].at.x;
      assert TaskOk(s, y) && FrameOk(s, y);
      var w := s.tasks[y].at.w;
      assert WorkerOk(s, w) && StackOk(s, w) && TopOk(s, s.workers[w].tls);
      assert OwnsStack(s, w, k);
    }
  }

  /** Every stack that holds a frame has exactly one owner. */
  lemma ExactlyOneOwner(s: State, k: nat)
    requires Reachable(s) && k in s.stacks && s.stacks[k].Some?
    ensures exists h :: Holds(s, k, h)
    ensures forall g, h :: Holds(s, k, g) && Holds(s, k, h) ==> g == h
  {
    ReachableInv(s);
    assert TopOk(s, k);
    var t := s.stacks[k].value;
    if Stolen(s, t) || s.tasks[t].at.Queued? {
      if w :| OwnsStack(s, w, k) { assert Holds(s, k, ByWorker(w)); } else { assert Holds(s, k, ByFrame(t)); }
    } else {
      TopIsHeld(s, k, t);
      var w :| OwnsStack(s, w, k);
      assert Holds(s, k, ByWorker(w));
    }
    forall g, h | Holds(s, k, g) && Holds(s, k, h) ensures g == h {
      if g.ByWorker? && h.ByWorker? { assert OwnsStack(s, g.w, k) && OwnsStack(s, h.w, k); }
      if g.ByWorker? { assert OwnsStack(s, g.w, k); }
      if h.ByWorker? { assert OwnsStack(s, h.w, k); }
    }
  }

  /** The losing decrement hands the parent's stack to the parent's frame at once. */
  lemma LosingGivesUp(s: State, w: nat, c: nat, p: nat, same: bool)
    requires Reachable(s) && w in s.workers && s.workers[w].pc == Register(c, p, same)
    ensures p in s.tasks && (same <==> s.workers[w].tls == s.tasks[p].stack)
    ensures same && DoGo(s, w).workers[w].pc.Release? ==> Holds(DoGo(s, w), s.tasks[p].stack, ByFrame(p))
  {
    ReachableInv(s);
    assert WorkerOk(s, w) && StackOk(s, w) && TaskOk(s, c);
    NotBare(s, p);
    if same { assert TopOk(s, s.workers[w].tls); }
    var s' := DoGo(s, w);
    if same && s'.workers[w].pc.Release? {
      forall v ensures !OwnsStack(s', v, s.tasks[p].stack) {
        if Owns(s', v) { assert v != w && Owns(s, v); }
      }
    }
  }

  /** An idle worker's stack is empty: nothing is left on it when resume returns. */
  lemma IdleIsEmpty(s: State, w: nat)
    requires Reachable(s) && w in s.workers && s.workers[w].pc.Idle?
    ensures s.workers[w].deque == [] && Bare(s, s.workers[w].tls)
    ensures forall x :: Live(s, x) ==> s.tasks[x].stack != s.workers[w].tls
  {
    ReachableInv(s);
    assert WorkerOk(s, w) && StackOk(s, w);
    forall x | Live(s, x) ensures s.tasks[x].stack != s.workers[w].tls { NotBare(s, x); }
  }

  // ---------------------------------------------------------------- sync_fork

  /** A parent that resumes after a fork and finds its steal count unchanged knows that the child is gone. */
  lemma SyncForkSound(s: State, w: nat, t: nat)
    requires Reachable(s) && w in s.workers && s.workers[w].pc == Run(t)
    ensures t in s.tasks && (s.tasks[t].steals == s.tasks[t].stealsPre ==> s.tasks[t].lastFork !in s.tasks)
  {
    ReachableInv(s);
    assert WorkerOk(s, w) && ForkTold(s, t);
  }
}
