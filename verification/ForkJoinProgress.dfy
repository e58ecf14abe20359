/** What each operation of the protocol achieves, and that every run can be completed. */
module ForkJoinProgress {
  import opened Options
  import opened ForkJoin
  import opened ForkJoinInv
  import opened ForkJoinChains
  import opened ForkJoinCounters
  import opened ForkJoinStacks
  import opened ForkJoinSync
  import opened ForkJoinSafety

  // ---------------------------------------------------------------- the answers of single operations

  /** A join passes at once exactly if nobody stole from the scope, and then no child is left. */
  lemma JoinAnswers(s: State, w: nat, t: nat)
    requires Reachable(s) && w in s.workers && s.workers[w].pc == Run(t)
    ensures w in Step(s, Join(w)).workers
    ensures var pc := Step(s, Join(w)).workers[w].pc;
      && (if Stolen(s, t) then pc == AtJoin(t) else pc == Run(t) && Childless(s, t))
  {
    ReachableInv(s);
    StealsTell(s, w);
    if !Stolen(s, t) { PassesAlone(s, w, t); }
  }

  /** A fork offers the parent as the newest handle of the deque and runs the child on top of the worker's stack. */
  lemma ForkOffers(s: State, w: nat, t: nat)
    requires Reachable(s) && w in s.workers && s.workers[w].pc == Run(t)
    ensures var s', c, me := Step(s, Fork(w)), s.nextTask, s.workers[w];
      && c !in s.tasks && c in s'.tasks && t in s'.tasks && s'.tasks.Keys == s.tasks.Keys + {c}
      && s'.workers == s.workers[w := Worker(Run(c), me.deque + [t], me.tls)]
      && s'.tasks[c].kind == Forked && s'.tasks[c].parent == t && Top(s', me.tls, c)
      && s'.tasks[t].lastFork == c && s'.tasks[t].stealsPre == s'.tasks[t].steals
  {
    ReachableInv(s);
    FreshTask(s);
    assert WorkerOk(s, w) && StackOk(s, w);
    CreateTasks(s, Step(s, Fork(w)), w, Forked, t, s.nextTask);
  }

  /** A call runs the child and offers nothing. */
  lemma CallRuns(s: State, w: nat, t: nat)
    requires Reachable(s) && w in s.workers && s.workers[w].pc == Run(t)
    ensures var s', c, me := Step(s, Call(w)), s.nextTask, s.workers[w];
      && c !in s.tasks && c in s'.tasks && s'.tasks.Keys == s.tasks.Keys + {c}
      && s'.workers == s.workers[w := Worker(Run(c), me.deque, me.tls)]
      && s'.tasks[c].kind == Called && s'.tasks[c].parent == t && Top(s', me.tls, c)
  {
    ReachableInv(s);
    FreshTask(s);
    assert WorkerOk(s, w) && StackOk(s, w);
    CreateTasks(s, Step(s, Call(w)), w, Called, t, s.nextTask);
  }

  /** A steal takes the oldest handle and nothing else, and is counted before the thief runs it. */
  lemma StealTakesOldest(s: State, w: nat, v: nat)
    requires Reachable(s) && w in s.workers && v in s.workers && v != w
    requires s.workers[w].pc.Idle? && s.workers[v].deque != []
    ensures var t, s1 := s.workers[v].deque[0], Step(s, Steal(w, v));
      var s2 := Step(s1, Go(w));
      && w in s1.workers && s1.workers[w].pc == Stole(t)
      && v in s1.workers && s1.workers[v].deque == s.workers[v].deque[1..]
      && w in s2.workers && s2.workers[w].pc == Run(t)
      && t in s.tasks && t in s2.tasks && s2.tasks[t].steals == s.tasks[t].steals + 1
  {
    ReachableInv(s);
    StealIsRobbed(s, w, v);
    assert CounterOk(s, s.workers[v].deque[0]);
  }

  /** An idle worker that finds a submission runs it on the stack it was allocated on. */
  lemma RootIsTaken(s: State, w: nat, r: nat)
    requires Reachable(s) && w in s.workers && s.workers[w].pc.Idle? && r in s.queue
    ensures var s' := Step(s, TakeRoot(w, r));
      && w in s'.workers && s'.workers[w].pc == Run(r) && s'.queue == s.queue - {r}
      && r in s'.tasks && s'.workers[w].tls == s'.tasks[r].stack && Top(s', s'.workers[w].tls, r)
  {
    ReachableInv(s);
    assert s.tasks[r].at.Queued? && TaskOk(s, r) && CounterOk(s, r);
    OnTop(s, r);
  }

  lemma SubmitQueues(s: State)
    requires Reachable(s)
    ensures var s', r := Step(s, Submit), s.nextTask;
      && r !in s.tasks && s'.queue == s.queue + {r} && r in s'.tasks && s'.tasks[r].kind.Root?
      && Top(s', s'.tasks[r].stack, r)
  {
    ReachableInv(s);
    FreshTask(s);
  }

  /** A task ends: a root frees its worker, a called one resumes its caller, a forked one goes on to pop. */
  lemma ReturnEnds(s: State, w: nat, c: nat)
    requires Reachable(s) && w in s.workers && s.workers[w].pc == Run(c) && !Stolen(s, c)
    ensures c in s.tasks
    ensures var s' := Step(s, Return(w));
      && w in s'.workers
      && match s.tasks[c].kind
         case Root => s'.workers[w].pc == Idle && s'.tasks.Keys == s.tasks.Keys - {c}
         case Called => s'.workers[w].pc == Run(s.tasks[c].parent) && s'.tasks.Keys == s.tasks.Keys - {c}
         case Forked => s'.workers[w].pc == Finish(c, s.tasks[c].parent) && c in s'.tasks && s'.tasks[c].dead
  {
    ReachableInv(s);
    StealsTell(s, w);
    assert WorkerOk(s, w) && TaskOk(s, c);
    if s.tasks[c].kind.Forked? {
      ReturnDies(s, Step(s, Return(w)), w, c);
    } else {
      ReturnLeaves(s, Step(s, Return(w)), w, c);
    }
  }

  /** A finished child resumes its parent with the handle it pops, or goes on to register. */
  lemma FinishPops(s: State, w: nat, c: nat, p: nat)
    requires Reachable(s) && w in s.workers && s.workers[w].pc == Finish(c, p)
    ensures var s', deque := Step(s, Go(w)), s.workers[w].deque;
      && w in s'.workers
      && if deque != [] then
           && s'.workers[w].pc == Run(p) && s'.workers[w].deque == deque[..|deque| - 1]
           && s'.tasks.Keys == s.tasks.Keys - {c}
           && p in s'.tasks && s'.tasks[p].steals == s'.tasks[p].stealsPre && s'.tasks[p].lastFork == c
         else s'.workers[w].pc.Register? && s'.workers[w].pc.t == c && s'.workers[w].pc.p == p
  {
    ReachableInv(s);
    assert WorkerOk(s, w) && TaskOk(s, c);
    if s.workers[w].deque != [] { assert ForkTold(s, p) && ForkPending(s, p); }
  }

  /** The resumer of a fork is told that the child has finished exactly if nobody stole in between. */
  lemma StolenForkIsTold(s: State, w: nat, t: nat)
    requires Reachable(s) && w in s.workers && s.workers[w].pc == Stole(t)
    ensures var s' := Step(s, Go(w));
      w in s'.workers && s'.workers[w].pc == Run(t) && t in s'.tasks && s'.tasks[t].steals != s'.tasks[t].stealsPre
  {
    ReachableInv(s);
    assert WorkerOk(s, w) && ForkTold(s, t) && CounterOk(s, t);
  }

  /** A registration counts, and ends in resuming the parent or in looking for other work. */
  lemma RegisterEnds(s: State, w: nat, c: nat, p: nat, same: bool)
    requires Reachable(s) && w in s.workers && s.workers[w].pc == Register(c, p, same)
    ensures var s' := Step(s, Go(w));
      && w in s'.workers && p in s'.tasks && Out(s', p) == Out(s, p) - {c} && c in Out(s, p)
      && (s'.workers[w].pc == Last(p, same)
          || (s'.workers[w].pc == Release(same) && Step(s', Go(w)).workers[w].pc == Idle))
  {
    ReachableInv(s);
    RegisterIsLast(s, w);
    RegisterCounts(s, Step(s, Go(w)), w, c, p, same);
  }

  lemma RegisterCounts(s: State, s': State, w: nat, c: nat, p: nat, same: bool)
    requires Chains(s) && w in s.workers && s.workers[w].pc == Register(c, p, same)
    requires s' == GoRegister(s, w, c, p, same)
    ensures w in s'.workers && p in s'.tasks && Out(s', p) == Out(s, p) - {c}
    ensures s'.workers[w].pc == Last(p, same) || s'.workers[w].pc == Release(same)
  {
    assert WorkerOk(s, w) && TaskOk(s, c);
    OutLoses(s, s', c, p);
  }

  /**
   A worker changes stacks only to resume a frame that lies on another one, or to give its stack up with the
   frame of a parent that it could not resume; then it gets an empty one that nobody had.
   */
  lemma StackStays(s: State, a: Act, w: nat)
    requires w in s.workers
    ensures w in Step(s, a).workers
    ensures var x, x' := s.workers[w], Step(s, a).workers[w];
      x'.tls != x.tls ==>
        || (x'.pc.Run? && x'.pc.t in s.tasks && x'.tls == s.tasks[x'.pc.t].stack)
        || (x.pc == Release(true) && x'.tls == s.nextStack && Step(s, a).stacks == s.stacks[s.nextStack := None])
    ensures Step(s, a).nextStack != s.nextStack ==>
      a.Submit? || (a.w in s.workers && s.workers[a.w].pc == Release(true))
  {
  }

  // ---------------------------------------------------------------- every run can be completed

  /** What a worker with something to do can do next without forking, calling or stealing. */
  function NextAct(s: State, w: nat): Act
    requires w in s.workers
  {
    match s.workers[w].pc
    case Run(t) => if t in s.tasks && s.tasks[t].steals == 0 then Return(w) else Join(w)
    case _ => Go(w)
  }

  /** How far a worker is from having nothing to do, tasks that finish on the way apart. */
  function Rank(s: State, w: nat): nat
    requires w in s.workers
  {
    match s.workers[w].pc
    case Idle => 0
    case Release(_) => 1
    case Register(_, _, _) => 2
    case Finish(_, _) => 3
    case Run(t) => if t in s.tasks && s.tasks[t].steals == 0 then 4 else 8
    case Last(_, _) => 5
    case Take(_) => 5
    case JoinSub(_) => 6
    case AtJoin(_) => 7
    case Stole(_) => 9
  }

  function Busy(s: State): set<nat> { set w | w in s.workers && !s.workers[w].pc.Idle? }

  /** A task finishes, or worker w comes closer to having nothing to do and all else stays. */
  ghost predicate Nearer(s: State, s': State, w: nat) {
    && s'.workers.Keys == s.workers.Keys && s'.queue == s.queue && w in s.workers
    && (forall v :: v in s.workers && v != w ==> s'.workers[v].pc == s.workers[v].pc)
    && (forall t :: t in s'.tasks ==> t in s.tasks && s'.tasks[t].thefts <= s.tasks[t].thefts)
    && ((exists c :: c in s.tasks && s'.tasks.Keys == s.tasks.Keys - {c})
        || (s'.tasks.Keys == s.tasks.Keys && Rank(s', w) < Rank(s, w)))
  }

  /** The other workers and the submissions are not touched by a return. */
  lemma ReturnFrame(s: State, w: nat)
    requires w in s.workers
    ensures var s' := DoReturn(s, w);
      && s'.workers.Keys == s.workers.Keys && s'.queue == s.queue
      && forall v :: v in s.workers && v != w ==> s'.workers[v].pc == s.workers[v].pc
  {
  }

  lemma ForkedNearer(s: State, s': State, w: nat, c: nat)
    requires Chains(s) && Returns(s, w, c) && s' == DoReturn(s, w) && s.tasks[c].kind.Forked?
    ensures Nearer(s, s', w)
  {
    ReturnFrame(s, w);
    ReturnDies(s, s', w, c);
  }

  lemma ReturnNearer(s: State, w: nat)
    requires Inv(s) && w in s.workers && s.workers[w].pc.Run? && NextAct(s, w) == Return(w)
    ensures Nearer(s, DoReturn(s, w), w)
  {
    var c, s' := s.workers[w].pc.t, DoReturn(s, w);
    StealsTell(s, w);
    ReturnFrame(s, w);
    if s.tasks[c].kind.Forked? {
      ForkedNearer(s, s', w, c);
    } else {
      ReturnLeaves(s, s', w, c);
      assert c in s.tasks && s'.tasks.Keys == s.tasks.Keys - {c};
    }
  }

  /** The steps that take a finished child away. */
  lemma ChildGoes(s: State, w: nat)
    requires Inv(s) && w in s.workers && (s.workers[w].pc.Finish? || s.workers[w].pc.Register?)
    ensures Nearer(s, DoGo(s, w), w)
  {
    var s', c, p := DoGo(s, w), s.workers[w].pc.t, s.workers[w].pc.p;
    assert WorkerOk(s, w) && TaskOk(s, c);
    if s.workers[w].pc.Register? || s.workers[w].deque != [] {
      assert s'.tasks.Keys == s.tasks.Keys - {c};
    } else {
      assert s'.tasks == s.tasks;
    }
  }

  lemma StoleNearer(s: State, w: nat)
    requires Inv(s) && w in s.workers && s.workers[w].pc.Stole?
    ensures Nearer(s, DoGo(s, w), w)
  {
    assert WorkerOk(s, w) && CounterOk(s, s.workers[w].pc.t);
  }

  lemma ResetNearer(s: State, w: nat)
    requires Inv(s) && w in s.workers && (s.workers[w].pc.Last? || s.workers[w].pc.Take?)
    ensures Nearer(s, DoGo(s, w), w)
  {
    assert WorkerOk(s, w);
  }

  lemma ReleaseNearer(s: State, w: nat)
    requires w in s.workers && s.workers[w].pc.Release?
    ensures Nearer(s, DoGo(s, w), w)
  {
  }

  lemma AtJoinNearer(s: State, s': State, w: nat, t: nat)
    requires t in s.tasks && w in s.workers && s.workers[w].pc == AtJoin(t) && s' == GoAtJoin(s, w, t)
    ensures Nearer(s, s', w)
  {
  }

  lemma JoinSubNearer(s: State, s': State, w: nat, t: nat)
    requires t in s.tasks && w in s.workers && s.workers[w].pc == JoinSub(t) && s' == GoJoinSub(s, w, t)
    ensures Nearer(s, s', w)
  {
    assert s'.tasks.Keys == s.tasks.Keys;
  }

  lemma GoNearer(s: State, w: nat)
    requires Inv(s) && w in s.workers && !s.workers[w].pc.Idle? && !s.workers[w].pc.Run?
    ensures Nearer(s, DoGo(s, w), w)
  {
    assert WorkerOk(s, w);
    match s.workers[w].pc
    case Finish(_, _) => ChildGoes(s, w);
    case Register(_, _, _) => ChildGoes(s, w);
    case Stole(_) => StoleNearer(s, w);
    case Last(_, _) => ResetNearer(s, w);
    case Take(_) => ResetNearer(s, w);
    case Release(_) => ReleaseNearer(s, w);
    case AtJoin(t) => AtJoinNearer(s, DoGo(s, w), w, t);
    case JoinSub(t) => JoinSubNearer(s, DoGo(s, w), w, t);
  }

  lemma RunNearer(s: State, w: nat)
    requires Inv(s) && w in s.workers && s.workers[w].pc.Run?
    ensures Nearer(s, Step(s, NextAct(s, w)), w)
  {
    assert WorkerOk(s, w);
    if s.tasks[s.workers[w].pc.t].steals == 0 { ReturnNearer(s, w); }
  }

  lemma StepNearer(s: State, w: nat)
    requires Inv(s) && Bounded(s) && w in Busy(s)
    ensures var s' := Step(s, NextAct(s, w)); Nearer(s, s', w) && Inv(s') && Bounded(s')
  {
    if s.workers[w].pc.Run? { RunNearer(s, w); } else { GoNearer(s, w); }
    assert Bounded(Step(s, NextAct(s, w)));
    StepInv(s, NextAct(s, w));
  }

  lemma OneLess(a: set<nat>, c: nat)
    requires c in a
    ensures |a - {c}| < |a|
  {
    assert a == (a - {c}) + {c};
  }

  lemma Prefixed(s: State, a: Act, more: seq<Act>)
    requires Bounded(s) && FewSteals(Step(s, a), more, MAX - 1)
    ensures FewSteals(s, [a] + more, MAX - 1) && Exec(s, [a] + more) == Exec(Step(s, a), more)
  {
    assert ([a] + more)[1..] == more;
  }

  /** The measure that a step of w lowers. */
  ghost predicate Closer(s: State, s': State, w: nat)
    requires w in s.workers
  {
    || |s'.tasks.Keys| < |s.tasks.Keys|
    || (|s'.tasks.Keys| == |s.tasks.Keys| && s'.queue == s.queue
        && (|Busy(s')| < |Busy(s)| || (|Busy(s')| == |Busy(s)| && w in Busy(s') && Rank(s', w) < Rank(s, w))))
  }

  lemma NearerIsCloser(s: State, s': State, w: nat)
    requires Nearer(s, s', w) && w in Busy(s)
    ensures Closer(s, s', w)
  {
    if c :| c in s.tasks && s'.tasks.Keys == s.tasks.Keys - {c} {
      OneLess(s.tasks.Keys, c);
    } else if s'.workers[w].pc.Idle? {
      assert Busy(s') == Busy(s) - {w};
      OneLess(Busy(s), w);
    } else {
      assert Busy(s') == Busy(s);
    }
  }

  /** Worker w goes on until a task finishes or it has nothing left to do; then somebody else does. */
  lemma {:induction false} Drive(s: State, w: nat) returns (acts: seq<Act>)
    requires Inv(s) && Bounded(s) && w in Busy(s)
    ensures FewSteals(s, acts, MAX - 1) && Exec(s, acts).tasks == map[]
    decreases |s.tasks.Keys|, |s.queue|, |Busy(s)|, Rank(s, w), 1
  {
    var a := NextAct(s, w);
    var s' := Step(s, a);
    StepNearer(s, w);
    NearerIsCloser(s, s', w);
    assert s'.workers.Keys != {};
    acts := AfterStep(s, s', w);
    Prefixed(s, a, acts);
    acts := [a] + acts;
  }

  lemma {:induction false} AfterStep(s: State, s': State, w: nat) returns (acts: seq<Act>)
    requires w in Busy(s) && Closer(s, s', w) && Inv(s') && Bounded(s') && s'.workers.Keys != {}
    ensures FewSteals(s', acts, MAX - 1) && Exec(s', acts).tasks == map[]
    decreases |s.tasks.Keys|, |s.queue|, |Busy(s)|, Rank(s, w), 0
  {
    if |s'.tasks.Keys| == |s.tasks.Keys| && |Busy(s')| == |Busy(s)| {
      acts := Drive(s', w);
    } else {
      acts := Complete(s');
    }
  }

  /** From every state of a run there is a way to finish every task: no deadlock, and nothing lost. */
  lemma {:induction false} Complete(s: State) returns (acts: seq<Act>)
    requires Inv(s) && Bounded(s) && s.workers.Keys != {}
    ensures FewSteals(s, acts, MAX - 1) && Exec(s, acts).tasks == map[]
    decreases |s.tasks.Keys|, |s.queue|, |Busy(s)|, 10, 0
  {
    if w :| w in Busy(s) {
      acts := Drive(s, w);
    } else if r :| r in s.queue {
      var w :| w in s.workers.Keys;
      assert w !in Busy(s);
      var s' := Step(s, TakeRoot(w, r));
      assert s.tasks[r].at.Queued? && TaskOk(s, r);
      TakeRootInv(s, w, r);
      assert s'.tasks.Keys == s.tasks.Keys && s'.queue == s.queue - {r};
      OneLess(s.queue, r);
      var more := Complete(s');
      Prefixed(s, TakeRoot(w, r), more);
      acts := [TakeRoot(w, r)] + more;
    } else {
      forall w | w in s.workers ensures s.workers[w].pc.Idle? { assert w !in Busy(s); }
      if t :| t in s.tasks { SomebodyIsAt(s, t); }
      acts := [];
    }
  }

  /** No deadlock: from every reachable state some actions of the workers finish every task. */
  lemma CanFinish(s: State)
    requires Reachable(s) && s.workers.Keys != {}
    ensures exists acts :: FewSteals(s, acts, MAX - 1) && Exec(s, acts).tasks == map[]
  {
    ReachableInv(s);
    var acts := Complete(s);
  }
}
