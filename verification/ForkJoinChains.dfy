/** Every step keeps the chains of frames, and with them the shape of every deque. */
module ForkJoinChains {
  import opened Options
  import opened ForkJoin
  import opened ForkJoinInv

  predicate Finishing(pc: Pc) { pc.Finish? || pc.Register? }

  /** Steps that move counters and one program counter, but no frame. */
  lemma SameFrames(s: State, s': State, w: nat)
    requires Chains(s) && s'.queue == s.queue && s'.nextTask == s.nextTask
    requires s'.tasks.Keys == s.tasks.Keys && s'.workers.Keys == s.workers.Keys && w in s.workers
    requires forall x :: x in s.tasks ==>
      && SameLinks(s.tasks, s'.tasks, x) && s'.tasks[x].under == s.tasks[x].under
      && s'.tasks[x].dead == s.tasks[x].dead && s'.tasks[x].at == s.tasks[x].at
      && s'.tasks[x].thefts == s.tasks[x].thefts
    requires forall v :: v in s.workers && v != w ==> s'.workers[v] == s.workers[v]
    requires s'.workers[w].deque == s.workers[w].deque && Cur(s'.workers[w].pc) == Cur(s.workers[w].pc)
    requires Finishing(s'.workers[w].pc) <==> Finishing(s.workers[w].pc)
    requires PcOk(s', w)
    ensures Chains(s')
  {
    forall x | x in s'.tasks ensures TaskOk(s', x) {
      assert TaskOk(s, x);
      HandlesSame(s.tasks, s'.tasks, x);
    }
    forall v | v in s'.workers ensures WorkerOk(s', v) {
      assert WorkerOk(s, v);
      if Cur(s.workers[v].pc).Some? { HandlesSame(s.tasks, s'.tasks, s.workers[v].pc.t); }
    }
  }

  lemma FreshTask(s: State)
    requires Chains(s)
    ensures s.nextTask !in s.tasks
  {
    forall x | x in s.tasks ensures x != s.nextTask { assert TaskOk(s, x); }
  }

  lemma SubmitChains(s: State)
    requires Chains(s)
    ensures Chains(DoSubmit(s))
  {
    var s', r := DoSubmit(s), s.nextTask;
    FreshTask(s);
    forall x | x in s'.tasks ensures TaskOk(s', x) {
      if x != r {
        assert TaskOk(s, x);
        HandlesSame(s.tasks, s'.tasks, x);
      }
    }
    forall w | w in s'.workers ensures WorkerOk(s', w) {
      assert WorkerOk(s, w);
      if Cur(s.workers[w].pc).Some? {
        assert TaskOk(s, s.workers[w].pc.t);
        HandlesSame(s.tasks, s'.tasks, s.workers[w].pc.t);
      }
    }
  }

  lemma TakeRootTask(s: State, w: nat, r: nat, x: nat)
    requires Chains(s) && w in s.workers && s.workers[w].pc.Idle? && r in s.queue && x in s.tasks
    ensures TaskOk(DoTakeRoot(s, w, r), x)
  {
    var s' := DoTakeRoot(s, w, r);
    assert TaskOk(s, x) && s.tasks[r].at.Queued?;
    HandlesSame(s.tasks, s'.tasks, x);
    if !s.tasks[x].kind.Root? { assert s.tasks[x].parent in s.tasks; }
  }

  lemma TakeRootChains(s: State, w: nat, r: nat)
    requires Chains(s) && w in s.workers && s.workers[w].pc.Idle? && r in s.queue
    ensures Chains(DoTakeRoot(s, w, r))
  {
    var s' := DoTakeRoot(s, w, r);
    assert s.tasks[r].at.Queued? && TaskOk(s, r);
    forall x | x in s'.tasks ensures TaskOk(s', x) { TakeRootTask(s, w, r, x); }
    forall v | v in s'.workers ensures WorkerOk(s', v) {
      assert WorkerOk(s, v);
      if v == w {
        HandlesSame(s.tasks, s'.tasks, r);
      } else if Cur(s.workers[v].pc).Some? {
        HandlesSame(s.tasks, s'.tasks, s.workers[v].pc.t);
      }
    }
  }

  // ---------------------------------------------------------------- fork and call

  /** What the chains see of a new frame c above t. */
  ghost predicate Created(s: State, s': State, w: nat, kind: Kind, t: nat, c: nat) {
    && w in s.workers && s.workers[w].pc == Run(t) && t in s.tasks && c == s.nextTask && s'.nextTask == c + 1
    && s'.queue == s.queue
    && s'.tasks.Keys == s.tasks.Keys + {c} && c !in s.tasks
    && w in s'.workers && s'.workers == s.workers[w := s'.workers[w]] && s'.workers[w].pc == Run(c)
    && s'.workers[w].deque == s.workers[w].deque + (if kind.Forked? then [t] else [])
    && s'.tasks[c].kind == kind && s'.tasks[c].parent == t && s'.tasks[c].at == On(w) && s'.tasks[c].attached
    && !s'.tasks[c].dead && s'.tasks[c].thefts == 0
    && (forall x :: x in s.tasks ==>
          && SameLinks(s.tasks, s'.tasks, x) && s'.tasks[x].under == s.tasks[x].under
          && s'.tasks[x].dead == s.tasks[x].dead && s'.tasks[x].thefts == s.tasks[x].thefts
          && s'.tasks[x].at == if x == t then Under(c) else s.tasks[x].at)
  }

  lemma CreateHandles(s: State, s': State, w: nat, kind: Kind, t: nat, c: nat, x: nat)
    requires Chains(s) && Created(s, s', w, kind, t, c) && x in s.tasks
    ensures Handles(s'.tasks, x) == Handles(s.tasks, x)
  {
    assert TaskOk(s, x);
    HandlesSame(s.tasks, s'.tasks, x);
  }

  lemma CreateTask(s: State, s': State, w: nat, kind: Kind, t: nat, c: nat, x: nat)
    requires Chains(s) && Created(s, s', w, kind, t, c) && !kind.Root? && x in s'.tasks
    ensures TaskOk(s', x)
  {
    assert WorkerOk(s, w) && TaskOk(s, t);
    if x != c {
      assert TaskOk(s, x);
      CreateHandles(s, s', w, kind, t, c, x);
    }
  }

  lemma CreateWorker(s: State, s': State, w: nat, kind: Kind, t: nat, c: nat, v: nat)
    requires Chains(s) && Created(s, s', w, kind, t, c) && !kind.Root? && v in s.workers
    ensures WorkerOk(s', v)
  {
    assert WorkerOk(s, w) && TaskOk(s, t) && WorkerOk(s, v);
    if v == w {
      CreateHandles(s, s', w, kind, t, c, t);
    } else if Cur(s.workers[v].pc).Some? {
      assert TaskOk(s, s.workers[v].pc.t);
      CreateHandles(s, s', w, kind, t, c, s.workers[v].pc.t);
    }
  }

  /** What fork and call do to every task. */
  lemma CreateTasks(s: State, s': State, w: nat, kind: Kind, t: nat, c: nat)
    requires w in s.workers && s.workers[w].pc == Run(t) && t in s.tasks && s.workers[w].tls in s.stacks
    requires c == s.nextTask && c !in s.tasks && s' == DoCreate(s, w, kind)
    ensures s'.tasks.Keys == s.tasks.Keys + {c}
    ensures var top := s.stacks[s.workers[w].tls];
      && s'.tasks[c] == NewTask(kind, t, s.workers[w].tls, top, On(w))
      && forall x :: x in s.tasks ==>
           s'.tasks[x] == s.tasks[x].(at := if x == t then Under(c) else s.tasks[x].at,
                                      over := if top == Some(x) then Some(c) else s.tasks[x].over,
                                      stealsPre := if x == t && kind.Forked? then s.tasks[x].steals
                                                   else s.tasks[x].stealsPre,
                                      lastFork := if x == t && kind.Forked? then c else s.tasks[x].lastFork)
  {
  }

  lemma CreateIsCreated(s: State, w: nat, kind: Kind)
    requires Chains(s) && w in s.workers && s.workers[w].pc.Run? && s.workers[w].tls in s.stacks
    requires !kind.Root?
    ensures Created(s, DoCreate(s, w, kind), w, kind, s.workers[w].pc.t, s.nextTask)
  {
    FreshTask(s);
    assert WorkerOk(s, w);
    CreateTasks(s, DoCreate(s, w, kind), w, kind, s.workers[w].pc.t, s.nextTask);
  }

  lemma CreateChains(s: State, w: nat, kind: Kind)
    requires Chains(s) && w in s.workers && s.workers[w].pc.Run? && s.workers[w].tls in s.stacks && !kind.Root?
    ensures Chains(DoCreate(s, w, kind))
  {
    var s', t, c := DoCreate(s, w, kind), s.workers[w].pc.t, s.nextTask;
    CreateIsCreated(s, w, kind);
    assert WorkerOk(s, w);
    forall x | x in s'.tasks ensures TaskOk(s', x) { CreateTask(s, s', w, kind, t, c, x); }
    forall v | v in s'.workers ensures WorkerOk(s', v) { CreateWorker(s, s', w, kind, t, c, v); }
  }

  // ---------------------------------------------------------------- return

  /** A frame that is on no chain below another and was not stolen has no children. */
  lemma NoChildren(s: State, c: nat)
    requires Chains(s) && c in s.tasks && !s.tasks[c].at.Under? && !Stolen(s, c)
    ensures Childless(s, c)
  {
    forall x | x in s.tasks && !s.tasks[x].kind.Root? ensures s.tasks[x].parent != c { assert TaskOk(s, x); }
  }

  /** A childless frame c leaves worker w, which turns to a frame that was below c or waits to be resumed. */
  ghost predicate Left(s: State, s': State, w: nat, c: nat, next: Option<nat>) {
    && w in s.workers && Cur(s.workers[w].pc) == Some(c) && c in s.tasks && s.tasks[c].at == On(w)
    && s'.tasks.Keys == s.tasks.Keys - {c} && s'.queue == s.queue && s'.nextTask == s.nextTask
    && s'.workers.Keys == s.workers.Keys && (forall v :: v in s.workers && v != w ==> s'.workers[v] == s.workers[v])
    && (forall x :: x in s'.tasks ==>
          && SameLinks(s.tasks, s'.tasks, x) && s'.tasks[x].under == s.tasks[x].under
          && s'.tasks[x].dead == s.tasks[x].dead && s'.tasks[x].thefts == s.tasks[x].thefts
          && s'.tasks[x].at == if next == Some(x) then On(w) else s.tasks[x].at)
    && Cur(s'.workers[w].pc) == next
    && (if s.tasks[c].attached then
          && next == Some(s.tasks[c].parent) && s'.workers[w].pc == Run(next.value)
          && s'.workers[w].deque == Handles(s.tasks, next.value)
        else
          && s'.workers[w].deque == []
          && (next.Some? ==> next.value in s'.tasks && s.tasks[next.value].at.Parked? && s'.workers[w].pc.Last?))
  }

  ghost predicate Childless(s: State, c: nat) {
    forall y :: y in s.tasks && !s.tasks[y].kind.Root? ==> s.tasks[y].parent != c
  }

  lemma LeavesHandles(s: State, s': State, w: nat, c: nat, next: Option<nat>, x: nat)
    requires Chains(s) && Childless(s, c) && Left(s, s', w, c, next) && x != c
    ensures Handles(s'.tasks, x) == Handles(s.tasks, x)
  {
    forall y | y in s.tasks && s.tasks[y].attached ensures s.tasks[y].parent != c { assert TaskOk(s, y); }
    HandlesSkip(s.tasks, s'.tasks, c, x);
  }

  lemma LeavesTask(s: State, s': State, w: nat, c: nat, next: Option<nat>, x: nat)
    requires Chains(s) && Childless(s, c) && Left(s, s', w, c, next) && x in s'.tasks
    ensures TaskOk(s', x)
  {
    assert TaskOk(s, c) && TaskOk(s, x);
    LeavesHandles(s, s', w, c, next, x);
  }

  lemma LeavesWorker(s: State, s': State, w: nat, c: nat, next: Option<nat>, v: nat)
    requires Chains(s) && Childless(s, c) && Left(s, s', w, c, next) && v in s.workers
    ensures WorkerOk(s', v)
  {
    assert TaskOk(s, c) && WorkerOk(s, v);
    if v == w {
      if next.Some? {
        assert TaskOk(s, next.value);
        LeavesHandles(s, s', w, c, next, next.value);
      }
    } else if Cur(s.workers[v].pc).Some? {
      var t := s.workers[v].pc.t;
      assert TaskOk(s, t) && t != c;
      LeavesHandles(s, s', w, c, next, t);
    }
  }

  lemma Leaves(s: State, s': State, w: nat, c: nat, next: Option<nat>)
    requires Chains(s) && Childless(s, c) && Left(s, s', w, c, next)
    ensures Chains(s')
  {
    assert TaskOk(s, c);
    forall x | x in s'.tasks ensures TaskOk(s', x) { LeavesTask(s, s', w, c, next, x); }
    forall v | v in s'.workers ensures WorkerOk(s', v) { LeavesWorker(s, s', w, c, next, v); }
  }

  /** A finished forked child stays, without a frame, until it has popped or registered. */
  lemma DiesTask(s: State, s': State, w: nat, c: nat, x: nat)
    requires Chains(s) && Died(s, s', w, c) && Childless(s, c) && x in s.tasks
    ensures TaskOk(s', x)
  {
    assert TaskOk(s, x) && TaskOk(s, c) && WorkerOk(s, w);
    HandlesSame(s.tasks, s'.tasks, x);
  }

  ghost predicate Died(s: State, s': State, w: nat, c: nat) {
    && w in s.workers && s.workers[w].pc == Run(c) && c in s.tasks && s.tasks[c].kind.Forked? && !Stolen(s, c)
    && s'.workers == s.workers[w := s.workers[w].(pc := Finish(c, s.tasks[c].parent))]
    && s'.tasks.Keys == s.tasks.Keys && s'.queue == s.queue && s'.nextTask == s.nextTask
    && (forall x :: x in s.tasks ==>
          && SameLinks(s.tasks, s'.tasks, x) && s'.tasks[x].under == s.tasks[x].under
          && s'.tasks[x].dead == (s.tasks[x].dead || x == c) && s'.tasks[x].thefts == s.tasks[x].thefts
          && s'.tasks[x].at == s.tasks[x].at)
  }

  lemma Dies(s: State, s': State, w: nat, c: nat)
    requires Chains(s) && Died(s, s', w, c) && Childless(s, c)
    ensures Chains(s')
  {
    forall x | x in s'.tasks ensures TaskOk(s', x) { DiesTask(s, s', w, c, x); }
    forall v | v in s'.workers ensures WorkerOk(s', v) {
      assert WorkerOk(s, v);
      if Cur(s.workers[v].pc).Some? { HandlesSame(s.tasks, s'.tasks, s.workers[v].pc.t); }
    }
  }

  /** Covering or uncovering a frame changes nothing else. */
  lemma CoverOnly(tasks: map<nat, Task>, top: Option<nat>, over: Option<nat>)
    ensures Cover(tasks, top, over).Keys == tasks.Keys
    ensures forall x :: x in tasks ==> Cover(tasks, top, over)[x] == tasks[x].(over := Cover(tasks, top, over)[x].over)
  {
  }

  predicate Returns(s: State, w: nat, c: nat) {
    w in s.workers && s.workers[w].pc == Run(c) && c in s.tasks && !Stolen(s, c) && s.tasks[c].steals == 0
  }

  lemma ReturnDies(s: State, s': State, w: nat, c: nat)
    requires Chains(s) && Returns(s, w, c) && s' == DoReturn(s, w) && s.tasks[c].kind.Forked?
    ensures Died(s, s', w, c) && s'.tasks == Cover(s.tasks, s.tasks[c].under, None)[c := s.tasks[c].(dead := true)]
  {
    CoverOnly(s.tasks, s.tasks[c].under, None);
  }

  lemma RootLeaves(s: State, s': State, w: nat, c: nat)
    requires Chains(s) && Returns(s, w, c) && s' == DoReturn(s, w) && s.tasks[c].kind.Root?
    ensures Left(s, s', w, c, None)
  {
    assert WorkerOk(s, w) && TaskOk(s, c);
    CoverOnly(s.tasks, s.tasks[c].under, None);
  }

  /** What the return of a called task does to the other tasks: its parent is what w is at. */
  lemma CalledTasks(s: State, s': State, w: nat, c: nat, p: nat)
    requires w in s.workers && s.workers[w].pc == Run(c) && c in s.tasks && s.tasks[c].steals == 0
    requires s.tasks[c].kind.Called? && s.tasks[c].parent == p && p in s.tasks && p != c && s' == DoReturn(s, w)
    ensures s'.tasks.Keys == s.tasks.Keys - {c} && s'.workers == s.workers[w := s.workers[w].(pc := Run(p))]
    ensures forall x :: x in s'.tasks ==>
      s'.tasks[x] == s.tasks[x].(over := s'.tasks[x].over, at := if x == p then On(w) else s.tasks[x].at)
  {
    CoverOnly(s.tasks, s.tasks[c].under, None);
  }

  lemma CalledLeaves(s: State, s': State, w: nat, c: nat, p: nat)
    requires Chains(s) && Returns(s, w, c) && s' == DoReturn(s, w) && s.tasks[c].kind.Called? && s.tasks[c].parent == p
    ensures Left(s, s', w, c, Some(p))
  {
    assert WorkerOk(s, w) && TaskOk(s, c);
    CalledTasks(s, s', w, c, p);
    assert s'.queue == s.queue && s'.nextTask == s.nextTask;
  }

  lemma ReturnLeaves(s: State, s': State, w: nat, c: nat)
    requires Chains(s) && Returns(s, w, c) && s' == DoReturn(s, w) && !s.tasks[c].kind.Forked?
    ensures Left(s, s', w, c, if s.tasks[c].kind.Root? then None else Some(s.tasks[c].parent))
  {
    if s.tasks[c].kind.Root? { RootLeaves(s, s', w, c); } else { CalledLeaves(s, s', w, c, s.tasks[c].parent); }
  }

  lemma ReturnChains(s: State, w: nat)
    requires Chains(s) && w in s.workers && s.workers[w].pc.Run? && !Stolen(s, s.workers[w].pc.t)
    requires s.workers[w].pc.t in s.tasks && s.tasks[s.workers[w].pc.t].steals == 0
    ensures Chains(DoReturn(s, w))
  {
    var s', c := DoReturn(s, w), s.workers[w].pc.t;
    assert WorkerOk(s, w);
    NoChildren(s, c);
    if s.tasks[c].kind.Forked? {
      ReturnDies(s, s', w, c);
      Dies(s, s', w, c);
    } else {
      ReturnLeaves(s, s', w, c);
      Leaves(s, s', w, c, if s.tasks[c].kind.Root? then None else Some(s.tasks[c].parent));
    }
  }

  // ---------------------------------------------------------------- a forked child finishes

  /** The dead have no children. */
  lemma DeadChildless(s: State, c: nat)
    requires Chains(s) && c in s.tasks && s.tasks[c].dead
    ensures Childless(s, c)
  {
    forall y | y in s.tasks && !s.tasks[y].kind.Root? ensures s.tasks[y].parent != c { assert TaskOk(s, y); }
  }

  lemma FinishChains(s: State, w: nat)
    requires Chains(s) && w in s.workers && s.workers[w].pc.Finish?
    ensures Chains(DoGo(s, w))
  {
    var s', c, p := DoGo(s, w), s.workers[w].pc.t, s.workers[w].pc.p;
    assert WorkerOk(s, w) && TaskOk(s, c);
    if s.workers[w].deque != [] {
      DeadChildless(s, c);
      Leaves(s, s', w, c, Some(p));
    } else {
      SameFrames(s, s', w);
    }
  }

  lemma RegisterChains(s: State, w: nat)
    requires Chains(s) && w in s.workers && s.workers[w].pc.Register?
    requires s.workers[w].pc.p in s.tasks && s.tasks[s.workers[w].pc.p].joins == 1 ==>
      s.tasks[s.workers[w].pc.p].at.Parked?
    ensures Chains(DoGo(s, w))
  {
    var s', c, p := DoGo(s, w), s.workers[w].pc.t, s.workers[w].pc.p;
    assert WorkerOk(s, w) && TaskOk(s, c);
    DeadChildless(s, c);
    Leaves(s, s', w, c, if s.tasks[p].joins == 1 then Some(p) else None);
  }

  // ---------------------------------------------------------------- join

  /** Resetting a frame that has no child on its own. */
  lemma ResetChains(s: State, w: nat, t: nat, owned: bool)
    requires Chains(s) && w in s.workers && Cur(s.workers[w].pc) == Some(t)
    requires s.workers[w].pc.Last? || s.workers[w].pc.Take?
    requires Out(s, t) == {}
    ensures Chains(TakeAndReset(s, w, t, owned))
  {
    var s' := TakeAndReset(s, w, t, owned);
    assert WorkerOk(s, w);
    forall x | x in s'.tasks ensures TaskOk(s', x) {
      assert TaskOk(s, x) && x !in Out(s, t);
      HandlesSame(s.tasks, s'.tasks, x);
    }
    forall v | v in s'.workers ensures WorkerOk(s', v) {
      assert WorkerOk(s, v);
      if Cur(s.workers[v].pc).Some? { HandlesSame(s.tasks, s'.tasks, s.workers[v].pc.t); }
    }
  }

  /** A frame suspends at its join and its worker goes to steal. */
  lemma ParkChains(s: State, s': State, w: nat, t: nat, joins: nat)
    requires Chains(s) && w in s.workers && s.workers[w].pc == JoinSub(t) && t in s.tasks
    requires s' == s.(workers := s.workers[w := s.workers[w].(pc := Idle)],
                      tasks := s.tasks[t := s.tasks[t].(joins := joins, at := Parked)])
    ensures Chains(s')
  {
    assert WorkerOk(s, w) && TaskOk(s, t);
    forall x | x in s'.tasks ensures TaskOk(s', x) {
      assert TaskOk(s, x);
      HandlesSame(s.tasks, s'.tasks, x);
    }
    forall v | v in s'.workers ensures WorkerOk(s', v) {
      assert WorkerOk(s, v);
      if Cur(s.workers[v].pc).Some? { HandlesSame(s.tasks, s'.tasks, s.workers[v].pc.t); }
    }
  }

  lemma JoinSubChains(s: State, w: nat)
    requires Chains(s) && w in s.workers && s.workers[w].pc.JoinSub?
    ensures Chains(DoGo(s, w))
  {
    var s', t := DoGo(s, w), s.workers[w].pc.t;
    assert WorkerOk(s, w);
    if s.tasks[t].steals == MAX - s.tasks[t].joins {
      SameFrames(s, s', w);
    } else {
      ParkChains(s, s', w, t, s'.tasks[t].joins);
    }
  }

  lemma JoinChains(s: State, w: nat)
    requires Chains(s) && w in s.workers
    requires s.workers[w].pc.Run? ==>
      s.workers[w].pc.t in s.tasks && (s.tasks[s.workers[w].pc.t].steals != 0 ==> Stolen(s, s.workers[w].pc.t))
    ensures Chains(DoJoin(s, w))
  {
    assert WorkerOk(s, w);
    SameFrames(s, DoJoin(s, w), w);
  }

  /** The steps that leave every frame where it is. */
  lemma StayChains(s: State, w: nat)
    requires Chains(s) && w in s.workers
    requires s.workers[w].pc.Stole? || s.workers[w].pc.Release? || s.workers[w].pc.AtJoin?
    ensures Chains(DoGo(s, w))
  {
    assert WorkerOk(s, w);
    SameFrames(s, DoGo(s, w), w);
  }

  // ---------------------------------------------------------------- steal

  /** The thief w takes t, the oldest handle of victim v, and t's child x goes on alone. */
  ghost predicate Robbed(s: State, s': State, w: nat, v: nat, t: nat, x: nat) {
    && w in s.workers && v in s.workers && v != w && s.workers[w].pc.Idle? && s.workers[v].deque != []
    && Cur(s.workers[v].pc).Some?
    && t == s.workers[v].deque[0] && Live(s, t) && s.tasks[t].at == Under(x) && Handles(s.tasks, t) == []
    && x in s.tasks && s.tasks[x].kind.Forked? && s.tasks[x].attached && s.tasks[x].parent == t < x
    && OnChain(s.tasks, x, s.workers[v].pc.t)
    && s' == s.(workers := s.workers[v := s.workers[v].(deque := s.workers[v].deque[1..])]
                                    [w := s.workers[w].(pc := Stole(t))],
                tasks := s.tasks[x := s.tasks[x].(attached := false)]
                                [t := s.tasks[t].(at := On(w), thefts := s.tasks[t].thefts + 1)])
  }

  lemma StealIsRobbed(s: State, w: nat, v: nat)
    requires Chains(s) && w in s.workers && v in s.workers && v != w
    requires s.workers[w].pc.Idle? && s.workers[v].deque != []
    ensures var t := s.workers[v].deque[0];
      t in s.tasks && s.tasks[t].at.Under? && Robbed(s, DoSteal(s, w, v), w, v, t, s.tasks[t].at.x)
  {
    assert WorkerOk(s, v);
    HandlesFirst(s, s.workers[v].pc.t);
  }

  lemma RobbedTask(s: State, s': State, w: nat, v: nat, t: nat, x: nat, y: nat)
    requires Chains(s) && Robbed(s, s', w, v, t, x) && y in s.tasks
    ensures TaskOk(s', y)
  {
    assert TaskOk(s, y) && TaskOk(s, x) && TaskOk(s, t) && WorkerOk(s, w);
    HandlesCut(s.tasks, x, t, y, s'.tasks);
    if y == t && OnChain(s.tasks, x, t) { ChainBelow(s.tasks, x, t); }
  }

  lemma RobbedWorker(s: State, s': State, w: nat, v: nat, t: nat, x: nat, u: nat)
    requires Chains(s) && Robbed(s, s', w, v, t, x) && u in s.workers
    ensures WorkerOk(s', u)
  {
    assert WorkerOk(s, u) && WorkerOk(s, v) && TaskOk(s, x);
    if u == w {
      if OnChain(s.tasks, x, t) { ChainBelow(s.tasks, x, t); }
      HandlesCut(s.tasks, x, t, t, s'.tasks);
    } else if Cur(s.workers[u].pc).Some? {
      var q := s.workers[u].pc.t;
      HandlesCut(s.tasks, x, t, q, s'.tasks);
      if OnChain(s.tasks, x, q) { ChainTop(s, x, s.workers[v].pc.t, q); }
    }
  }

  lemma StealChains(s: State, w: nat, v: nat)
    requires Chains(s) && w in s.workers && v in s.workers && v != w
    requires s.workers[w].pc.Idle? && s.workers[v].deque != []
    ensures Chains(DoSteal(s, w, v))
  {
    var s', t := DoSteal(s, w, v), s.workers[v].deque[0];
    StealIsRobbed(s, w, v);
    var x := s.tasks[t].at.x;
    forall y | y in s'.tasks ensures TaskOk(s', y) { RobbedTask(s, s', w, v, t, x, y); }
    forall u | u in s'.workers ensures WorkerOk(s', u) { RobbedWorker(s, s', w, v, t, x, u); }
  }
}
