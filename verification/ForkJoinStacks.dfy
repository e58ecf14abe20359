/** Every step keeps each stack with one owner and each worker on the right stack. */
module ForkJoinStacks {
  import opened Options
  import opened ForkJoin
  import opened ForkJoinInv
  import opened ForkJoinChains

  predicate SameFrame(T: Task, T': Task) {
    && T'.kind == T.kind && T'.parent == T.parent && T'.stack == T.stack && T'.under == T.under
    && T'.over == T.over && T'.dead == T.dead && (T'.attached ==> T.attached)
  }

  /** Frames and stacks stay, up to the removal of the dead and the addition of bare stacks. */
  ghost predicate SameStacks(s: State, s': State) {
    && s'.tasks.Keys <= s.tasks.Keys
    && (forall x :: x in s.tasks && !s.tasks[x].dead ==> x in s'.tasks)
    && (forall x :: x in s'.tasks ==> SameFrame(s.tasks[x], s'.tasks[x]))
    && (forall x :: x in s'.tasks && s'.tasks[x].attached ==>
          (Stolen(s', s.tasks[x].parent) <==> Stolen(s, s.tasks[x].parent)))
    && (forall k :: k in s.stacks ==> k in s'.stacks && s'.stacks[k] == s.stacks[k])
    && (forall k :: k in s'.stacks && k !in s.stacks ==> k < s'.nextStack && s'.stacks[k] == None)
    && s.nextStack <= s'.nextStack
  }

  lemma FramesKept(s: State, s': State)
    requires Chains(s) && Frames(s) && SameStacks(s, s')
    ensures Frames(s')
  {
    forall x | x in s'.tasks ensures FrameOk(s', x) { FrameKept(s, s', x); }
    forall k | k in s'.stacks ensures TopOk(s', k) {
      if k in s.stacks { assert TopOk(s, k); }
    }
  }

  lemma FrameKept(s: State, s': State, x: nat)
    requires Chains(s) && Frames(s) && SameStacks(s, s') && x in s'.tasks
    ensures FrameOk(s', x)
  {
    assert FrameOk(s, x) && TaskOk(s, x);
    assert SameFrame(s.tasks[x], s'.tasks[x]);
  }

  // ---------------------------------------------------------------- facts

  /** Above a live frame there is always a top. */
  lemma {:induction false} NotBare(s: State, x: nat)
    requires Chains(s) && Frames(s) && Live(s, x)
    ensures !Bare(s, s.tasks[x].stack)
    decreases s.nextTask - x
  {
    assert FrameOk(s, x) && TaskOk(s, x);
    if s.tasks[x].over.Some? {
      var y := s.tasks[x].over.value;
      assert FrameOk(s, y) && TaskOk(s, y);
      NotBare(s, y);
    }
  }

  lemma FreshStack(s: State)
    requires Frames(s)
    ensures s.nextStack !in s.stacks
  {
    forall k | k in s.stacks ensures k != s.nextStack { assert TopOk(s, k); }
  }

  lemma NobodyOut(s: State, t: nat)
    requires Chains(s) && t in s.tasks && !s.tasks[t].at.Under? && Out(s, t) == {}
    ensures Childless(s, t)
  {
    forall y | y in s.tasks && !s.tasks[y].kind.Root? ensures s.tasks[y].parent != t {
      assert TaskOk(s, y) && y !in Out(s, t);
    }
  }

  /** A frame with no child above it and none apart from it is on top. */
  lemma OnTop(s: State, t: nat)
    requires Chains(s) && Frames(s) && Live(s, t) && !s.tasks[t].at.Under? && Out(s, t) == {}
    ensures Top(s, s.tasks[t].stack, t)
  {
    assert FrameOk(s, t);
    NobodyOut(s, t);
  }

  /** A finished child still hides its parent or is still counted. */
  lemma Finisher(s: State, v: nat)
    requires Chains(s) && v in s.workers
    ensures var pc := s.workers[v].pc;
      pc.Finish? || pc.Register? ==> pc.p in s.tasks && (s.tasks[pc.p].at.Under? || pc.t in Out(s, pc.p))
  {
    assert WorkerOk(s, v);
    if s.workers[v].pc.Finish? || s.workers[v].pc.Register? { assert TaskOk(s, s.workers[v].pc.t); }
  }

  /** Nobody but a worker at t points at a stack with t on top, if t has no unregistered child. */
  lemma NobodyElse(s: State, t: nat, v: nat)
    requires Chains(s) && Owners(s) && t in s.tasks && !s.tasks[t].at.Under? && Out(s, t) == {}
    requires Top(s, s.tasks[t].stack, t) && Owns(s, v) && s.workers[v].tls == s.tasks[t].stack
    ensures s.tasks[t].at == On(v)
  {
    assert StackOk(s, v) && WorkerOk(s, v);
    Finisher(s, v);
  }

  /** What a worker's stack holds is read off its own step, its stack and the frame it is at. */
  lemma StackKept(s: State, s': State, v: nat)
    requires v in s.workers && v in s'.workers && StackOk(s, v)
    requires s'.workers[v].pc == s.workers[v].pc && s'.workers[v].tls == s.workers[v].tls
    requires var k := s.workers[v].tls; k in s.stacks ==> k in s'.stacks && s'.stacks[k] == s.stacks[k]
    requires match s.workers[v].pc
             case Run(t) => Stolen(s', t) <==> Stolen(s, t)
             case Finish(c, _) => c in s.tasks ==> c in s'.tasks && s'.tasks[c].under == s.tasks[c].under
             case _ => true
    ensures StackOk(s', v)
  {
  }

  /** Worker w moves; everyone else finds frames and stacks as they were. */
  lemma OwnersKept(s: State, s': State, w: nat)
    requires Chains(s) && Owners(s) && w in s.workers && s'.workers.Keys == s.workers.Keys
    requires forall v :: v in s.workers && v != w ==>
      s'.workers[v].pc == s.workers[v].pc && s'.workers[v].tls == s.workers[v].tls
    requires forall k :: k in s.stacks ==> k in s'.stacks && s'.stacks[k] == s.stacks[k]
    requires forall x :: x in s.tasks && s.tasks[x].at.On? && s.tasks[x].at.w != w ==>
      x in s'.tasks && s'.tasks[x].under == s.tasks[x].under && s'.tasks[x].thefts == s.tasks[x].thefts
    requires StackOk(s', w)
    requires Owns(s', w) ==> forall v :: Owns(s, v) && v != w ==> s.workers[v].tls != s'.workers[w].tls
    ensures Owners(s')
  {
    forall v | v in s'.workers ensures StackOk(s', v) {
      if v != w {
        assert WorkerOk(s, v) && StackOk(s, v);
        StackKept(s, s', v);
      }
    }
    forall v | v in s.workers && v != w ensures Owns(s', v) == Owns(s, v) {}
  }

  // ---------------------------------------------------------------- steps that move no frame

  lemma SubmitStacks(s: State)
    requires Chains(s) && Frames(s) && Owners(s)
    ensures Frames(DoSubmit(s)) && Owners(DoSubmit(s))
  {
    var s', r, k := DoSubmit(s), s.nextTask, s.nextStack;
    FreshTask(s);
    FreshStack(s);
    forall x | x in s'.tasks ensures FrameOk(s', x) {
      if x != r { assert FrameOk(s, x) && TaskOk(s, x); }
    }
    forall j | j in s'.stacks ensures TopOk(s', j) {
      if j != k { assert TopOk(s, j); }
    }
    forall v | v in s'.workers ensures StackOk(s', v) {
      assert StackOk(s, v) && WorkerOk(s, v);
      StackKept(s, s', v);
    }
    assert forall v :: Owns(s', v) == Owns(s, v);
  }

  lemma TakeRootStacks(s: State, w: nat, r: nat)
    requires Chains(s) && Frames(s) && Owners(s) && w in s.workers && s.workers[w].pc.Idle? && r in s.queue
    requires Out(s, r) == {}
    ensures Frames(DoTakeRoot(s, w, r)) && Owners(DoTakeRoot(s, w, r))
  {
    var s' := DoTakeRoot(s, w, r);
    assert s.tasks[r].at.Queued? && TaskOk(s, r);
    FramesKept(s, s');
    OnTop(s, r);
    forall v | Owns(s, v) && v != w ensures s.workers[v].tls != s'.workers[w].tls {
      if s.workers[v].tls == s.tasks[r].stack { NobodyElse(s, r, v); }
    }
    OwnersKept(s, s', w);
  }

  /** Frame t changes in what the stacks do not see, the dead in gone go, and w moves on. */
  lemma PlainStacks(s: State, s': State, w: nat, t: nat, T: Task, me: Worker, gone: set<nat>)
    requires Chains(s) && Frames(s) && Owners(s) && w in s.workers && t in s.tasks
    requires SameFrame(s.tasks[t], T) && T.attached == s.tasks[t].attached && T.thefts == s.tasks[t].thefts
    requires forall x :: x in gone ==> x in s.tasks && s.tasks[x].dead && s.tasks[x].at == On(w)
    requires s'.tasks == s.tasks[t := T] - gone && s'.workers == s.workers[w := me]
    requires s'.stacks == s.stacks && s'.nextStack == s.nextStack
    requires me.tls == s.workers[w].tls && Owns(s, w) && StackOk(s', w)
    ensures Frames(s') && Owners(s')
  {
    FramesKept(s, s') by {
      forall x | x in s'.tasks && s'.tasks[x].attached
        ensures Stolen(s', s.tasks[x].parent) <==> Stolen(s, s.tasks[x].parent)
      { assert TaskOk(s, x); }
    }
    OwnersKept(s, s', w);
  }

  lemma JoinStacks(s: State, w: nat)
    requires Chains(s) && Frames(s) && Owners(s) && w in s.workers
    requires s.workers[w].pc.Run? ==>
      s.workers[w].pc.t in s.tasks && (s.tasks[s.workers[w].pc.t].steals != 0 ==> Stolen(s, s.workers[w].pc.t))
    ensures Frames(DoJoin(s, w)) && Owners(DoJoin(s, w))
  {
    assert StackOk(s, w);
    var s' := DoJoin(s, w);
    if s' != s {
      var t := s.workers[w].pc.t;
      PlainStacks(s, s', w, t, s.tasks[t], s'.workers[w], {});
    }
  }

  lemma StoleStacks(s: State, w: nat)
    requires Chains(s) && Frames(s) && Owners(s) && w in s.workers && s.workers[w].pc.Stole?
    ensures Frames(DoGo(s, w)) && Owners(DoGo(s, w))
  {
    assert StackOk(s, w) && WorkerOk(s, w);
    var s', t := DoGo(s, w), s.workers[w].pc.t;
    PlainStacks(s, s', w, t, s'.tasks[t], s'.workers[w], {});
  }

  lemma AtJoinStacks(s: State, w: nat)
    requires Chains(s) && Frames(s) && Owners(s) && w in s.workers && s.workers[w].pc.AtJoin?
    ensures Frames(DoGo(s, w)) && Owners(DoGo(s, w))
  {
    assert StackOk(s, w) && WorkerOk(s, w);
    var s', t := DoGo(s, w), s.workers[w].pc.t;
    PlainStacks(s, s', w, t, s'.tasks[t], s'.workers[w], {});
  }

  lemma JoinSubStacks(s: State, s': State, w: nat, t: nat)
    requires Chains(s) && Frames(s) && Owners(s) && w in s.workers && s.workers[w].pc == JoinSub(t)
    requires s' == GoJoinSub(s, w, t)
    ensures Frames(s') && Owners(s')
  {
    assert StackOk(s, w) && WorkerOk(s, w);
    PlainStacks(s, s', w, t, s'.tasks[t], s'.workers[w], {});
  }

  lemma ReleaseStacks(s: State, w: nat)
    requires Chains(s) && Frames(s) && Owners(s) && w in s.workers && s.workers[w].pc.Release?
    ensures Frames(DoGo(s, w)) && Owners(DoGo(s, w))
  {
    var s', k := DoGo(s, w), s.nextStack;
    assert StackOk(s, w) && WorkerOk(s, w);
    FreshStack(s);
    FramesKept(s, s');
    forall v | Owns(s, v) && v != w ensures s.workers[v].tls != s'.workers[w].tls { assert StackOk(s, v); }
    OwnersKept(s, s', w);
  }

  // ---------------------------------------------------------------- a forked child finishes

  lemma FinishStacks(s: State, s': State, w: nat, c: nat, p: nat)
    requires Chains(s) && Frames(s) && Owners(s) && w in s.workers && s.workers[w].pc == Finish(c, p)
    requires s' == GoFinish(s, w, c, p)
    ensures Frames(s') && Owners(s')
  {
    assert StackOk(s, w) && WorkerOk(s, w) && TaskOk(s, c) && FrameOk(s, c);
    NotBare(s, p);
    assert TopOk(s, s.workers[w].tls);
    PlainStacks(s, s', w, p, s'.tasks[p], s'.workers[w], if s.workers[w].deque != [] then {c} else {});
  }

  lemma RegisterStacks(s: State, s': State, w: nat, c: nat, p: nat, same: bool)
    requires Chains(s) && Frames(s) && Owners(s) && w in s.workers && s.workers[w].pc == Register(c, p, same)
    requires s' == GoRegister(s, w, c, p, same)
    ensures Frames(s') && Owners(s')
  {
    assert StackOk(s, w) && WorkerOk(s, w) && TaskOk(s, c);
    PlainStacks(s, s', w, p, s'.tasks[p], s'.workers[w], {c});
  }

  /** Resetting a childless frame changes nothing the stacks see. */
  lemma ResetFrames(s: State, s': State, t: nat, T: Task)
    requires Chains(s) && Frames(s) && Live(s, t) && Childless(s, t)
    requires SameFrame(s.tasks[t], T) && T.attached == s.tasks[t].attached
    requires s'.tasks == s.tasks[t := T] && s'.stacks == s.stacks && s'.nextStack == s.nextStack
    ensures Frames(s')
  {
    FramesKept(s, s') by {
      forall x | x in s'.tasks && s'.tasks[x].attached
        ensures Stolen(s', s.tasks[x].parent) <==> Stolen(s, s.tasks[x].parent)
      { assert TaskOk(s, x); }
    }
  }

  lemma ResetStacks(s: State, s': State, w: nat, t: nat, owned: bool)
    requires Chains(s) && Frames(s) && Owners(s) && w in s.workers && Out(s, t) == {}
    requires
      if owned then s.workers[w].pc == Last(t, true)
      else s.workers[w].pc == Last(t, false) || s.workers[w].pc == Take(t)
    requires s' == TakeAndReset(s, w, t, owned)
    ensures Frames(s') && Owners(s')
  {
    assert StackOk(s, w) && WorkerOk(s, w) && TaskOk(s, t);
    NobodyOut(s, t);
    ResetFrames(s, s', t, s'.tasks[t]);
    OnTop(s, t);
    assert TopOk(s, s.workers[w].tls);
    forall v | Owns(s, v) && v != w ensures s.workers[v].tls != s'.workers[w].tls {
      if s.workers[v].tls == s.tasks[t].stack { NobodyElse(s, t, v); }
    }
    OwnersKept(s, s', w);
  }

  lemma StealFrames(s: State, s': State, w: nat, v: nat, t: nat, x: nat)
    requires Chains(s) && Frames(s) && Robbed(s, s', w, v, t, x)
    ensures Frames(s')
  {
    FramesKept(s, s') by {
      forall y | y in s'.tasks && s'.tasks[y].attached
        ensures Stolen(s', s.tasks[y].parent) <==> Stolen(s, s.tasks[y].parent)
      { assert TaskOk(s, y); }
    }
  }

  lemma StealStacks(s: State, w: nat, v: nat)
    requires Chains(s) && Frames(s) && Owners(s) && w in s.workers && v in s.workers && v != w
    requires s.workers[w].pc.Idle? && s.workers[v].deque != []
    ensures Frames(DoSteal(s, w, v)) && Owners(DoSteal(s, w, v))
  {
    var s', t := DoSteal(s, w, v), s.workers[v].deque[0];
    assert StackOk(s, w) && WorkerOk(s, w);
    StealIsRobbed(s, w, v);
    StealFrames(s, s', w, v, t, s.tasks[t].at.x);
    OwnersKept(s, s', w);
  }

  // ---------------------------------------------------------------- fork and call

  /** A new frame c goes on top of stack k, whose top was top. */
  ghost predicate Pushed(s: State, s': State, k: nat, top: Option<nat>, t: nat, c: nat) {
    && k in s.stacks && s.stacks[k] == top && (top == None || top == Some(t))
    && c !in s.tasks && s'.tasks.Keys == s.tasks.Keys + {c} && s'.stacks == s.stacks[k := Some(c)]
    && s'.nextStack == s.nextStack
    && Live(s, t) && (top == None <==> Stolen(s, t))
    && var C := s'.tasks[c];
    && !C.kind.Root? && C.parent == t && C.stack == k && C.under == top && C.over == None && !C.dead
    && (forall x :: x in s.tasks ==>
          && s'.tasks[x].kind == s.tasks[x].kind && s'.tasks[x].parent == s.tasks[x].parent
          && s'.tasks[x].stack == s.tasks[x].stack
          && s'.tasks[x].under == s.tasks[x].under && s'.tasks[x].dead == s.tasks[x].dead
          && s'.tasks[x].attached == s.tasks[x].attached && s'.tasks[x].thefts == s.tasks[x].thefts
          && s'.tasks[x].over == if top == Some(x) then Some(c) else s.tasks[x].over)
  }

  lemma PushedFrame(s: State, s': State, k: nat, top: Option<nat>, t: nat, c: nat, x: nat)
    requires Chains(s) && Frames(s) && Pushed(s, s', k, top, t, c) && x in s'.tasks
    ensures FrameOk(s', x)
  {
    assert TopOk(s, k);
    if x != c { assert FrameOk(s, x) && TaskOk(s, x); }
  }

  lemma PushedFrames(s: State, s': State, k: nat, top: Option<nat>, t: nat, c: nat)
    requires Chains(s) && Frames(s) && Pushed(s, s', k, top, t, c)
    ensures Frames(s')
  {
    forall x | x in s'.tasks ensures FrameOk(s', x) { PushedFrame(s, s', k, top, t, c, x); }
    forall j | j in s'.stacks ensures TopOk(s', j) { assert TopOk(s, j); }
  }

  /** Worker w changes what is on its own stack. */
  lemma OwnStack(s: State, s': State, w: nat, top: Option<nat>)
    requires Chains(s) && Owners(s) && Owns(s, w) && s'.workers.Keys == s.workers.Keys && s.workers[w].tls in s.stacks
    requires s'.workers[w].tls == s.workers[w].tls
    requires forall v :: v in s.workers && v != w ==>
      s'.workers[v].pc == s.workers[v].pc && s'.workers[v].tls == s.workers[v].tls
    requires s'.stacks == s.stacks[s.workers[w].tls := top]
    requires forall x :: x in s.tasks && s.tasks[x].at.On? && s.tasks[x].at.w != w ==>
      x in s'.tasks && s'.tasks[x].under == s.tasks[x].under && s'.tasks[x].thefts == s.tasks[x].thefts
    requires StackOk(s', w)
    ensures Owners(s')
  {
    forall v | v in s'.workers ensures StackOk(s', v) {
      if v != w {
        assert WorkerOk(s, v) && StackOk(s, v);
        if Owns(s, v) { StackKept(s, s', v); }
      }
    }
    forall v | v in s.workers && v != w ensures Owns(s', v) == Owns(s, v) {}
  }

  lemma CreateIsPushed(s: State, s': State, w: nat, kind: Kind, t: nat, c: nat)
    requires Chains(s) && Frames(s) && Owners(s) && w in s.workers && s.workers[w].pc == Run(t) && !kind.Root?
    requires c == s.nextTask && s' == DoCreate(s, w, kind)
    ensures var k := s.workers[w].tls; k in s.stacks && Pushed(s, s', k, s.stacks[k], t, c)
  {
    assert StackOk(s, w) && WorkerOk(s, w) && TaskOk(s, t);
    FreshTask(s);
    CreateTasks(s, s', w, kind, t, c);
  }

  lemma CreateStacks(s: State, w: nat, kind: Kind)
    requires Chains(s) && Frames(s) && Owners(s) && w in s.workers && s.workers[w].pc.Run? && !kind.Root?
    ensures s.workers[w].tls in s.stacks && Frames(DoCreate(s, w, kind)) && Owners(DoCreate(s, w, kind))
  {
    var s', k, t, c := DoCreate(s, w, kind), s.workers[w].tls, s.workers[w].pc.t, s.nextTask;
    CreateIsPushed(s, s', w, kind, t, c);
    PushedFrames(s, s', k, s.stacks[k], t, c);
    assert StackOk(s, w) && WorkerOk(s, w);
    OwnStack(s, s', w, Some(c));
  }

  // ---------------------------------------------------------------- return

  /** The top frame c of stack k is destroyed: its task goes, or stays without a frame. */
  ghost predicate Popped(s: State, s': State, k: nat, c: nat) {
    && Top(s, k, c) && c in s.tasks && s.tasks[c].stack == k
    && s.tasks.Keys - {c} <= s'.tasks.Keys <= s.tasks.Keys && s'.stacks == s.stacks[k := s.tasks[c].under]
    && s'.nextStack == s.nextStack
    && (forall x :: x in s'.tasks ==>
          && s'.tasks[x].kind == s.tasks[x].kind && s'.tasks[x].parent == s.tasks[x].parent
          && s'.tasks[x].stack == s.tasks[x].stack
          && s'.tasks[x].under == s.tasks[x].under && s'.tasks[x].dead == (x == c || s.tasks[x].dead)
          && s'.tasks[x].attached == s.tasks[x].attached && s'.tasks[x].thefts == s.tasks[x].thefts
          && (x != c ==> s'.tasks[x].over == if s.tasks[c].under == Some(x) then None else s.tasks[x].over))
  }

  lemma PoppedFrame(s: State, s': State, k: nat, c: nat, x: nat)
    requires Chains(s) && Frames(s) && Popped(s, s', k, c) && Childless(s, c) && x in s'.tasks
    ensures FrameOk(s', x)
  {
    assert TopOk(s, k) && FrameOk(s, c) && TaskOk(s, c) && FrameOk(s, x) && TaskOk(s, x);
  }

  lemma PoppedFrames(s: State, s': State, k: nat, c: nat)
    requires Chains(s) && Frames(s) && Popped(s, s', k, c) && Childless(s, c)
    ensures Frames(s')
  {
    assert TopOk(s, k) && FrameOk(s, c) && TaskOk(s, c);
    forall x | x in s'.tasks ensures FrameOk(s', x) { PoppedFrame(s, s', k, c, x); }
    forall j | j in s'.stacks ensures TopOk(s', j) { assert TopOk(s, j); }
  }

  /** Uncovering clears the mark of exactly the frame below. */
  lemma Uncovers(tasks: map<nat, Task>, under: Option<nat>)
    ensures forall x :: x in tasks ==>
      Cover(tasks, under, None)[x].over == if under == Some(x) then None else tasks[x].over
  {
  }

  /** Destroying c uncovers what is below it; c goes, or stays as dead, and its parent may be resumed. */
  lemma PopsTop(s: State, s': State, k: nat, c: nat, tasks: map<nat, Task>)
    requires Top(s, k, c) && c in s.tasks && s.tasks[c].stack == k && !s.tasks[c].dead
    requires tasks == Cover(s.tasks, s.tasks[c].under, None) && s'.stacks == s.stacks[k := s.tasks[c].under]
    requires s'.nextStack == s.nextStack && s.tasks.Keys - {c} <= s'.tasks.Keys <= s.tasks.Keys
    requires forall x :: x in s'.tasks && x != c ==> s'.tasks[x] == tasks[x].(at := s'.tasks[x].at)
    requires c in s'.tasks ==> s'.tasks[c] == s.tasks[c].(dead := true)
    ensures Popped(s, s', k, c)
  {
    CoverOnly(s.tasks, s.tasks[c].under, None);
    Uncovers(s.tasks, s.tasks[c].under);
  }

  lemma ReturnPops(s: State, s': State, w: nat, k: nat, c: nat)
    requires w in s.workers && s.workers[w].pc == Run(c) && k == s.workers[w].tls && Top(s, k, c) && c in s.tasks
    requires s.tasks[c].stack == k && s.tasks[c].steals == 0 && !s.tasks[c].dead && s' == DoReturn(s, w)
    requires s.tasks[c].kind.Called? ==> s.tasks[c].parent in s.tasks && s.tasks[c].parent != c
    ensures Popped(s, s', k, c)
  {
    var tasks, p := Cover(s.tasks, s.tasks[c].under, None), s.tasks[c].parent;
    CoverOnly(s.tasks, s.tasks[c].under, None);
    match s.tasks[c].kind
    case Root =>
      assert s'.tasks == tasks - {c};
      PopsTop(s, s', k, c, tasks);
    case Called =>
      assert s'.tasks == tasks[p := tasks[p].(at := On(w))] - {c};
      PopsTop(s, s', k, c, tasks);
    case Forked =>
      assert s'.tasks == tasks[c := s.tasks[c].(dead := true)];
      PopsTop(s, s', k, c, tasks);
  }

  lemma ReturnIsPopped(s: State, w: nat)
    requires Chains(s) && Frames(s) && Owners(s) && w in s.workers && s.workers[w].pc.Run?
    requires s.workers[w].pc.t in s.tasks && !Stolen(s, s.workers[w].pc.t) && s.tasks[s.workers[w].pc.t].steals == 0
    ensures Popped(s, DoReturn(s, w), s.workers[w].tls, s.workers[w].pc.t)
  {
    var c, k := s.workers[w].pc.t, s.workers[w].tls;
    assert StackOk(s, w) && WorkerOk(s, w) && TaskOk(s, c) && TopOk(s, k);
    ReturnPops(s, DoReturn(s, w), w, k, c);
  }

  lemma ReturnStacks(s: State, w: nat)
    requires Chains(s) && Frames(s) && Owners(s) && w in s.workers && s.workers[w].pc.Run?
    requires s.workers[w].pc.t in s.tasks && !Stolen(s, s.workers[w].pc.t) && s.tasks[s.workers[w].pc.t].steals == 0
    ensures Frames(DoReturn(s, w)) && Owners(DoReturn(s, w))
  {
    var s', k, c := DoReturn(s, w), s.workers[w].tls, s.workers[w].pc.t;
    assert StackOk(s, w) && WorkerOk(s, w) && TaskOk(s, c) && FrameOk(s, c);
    NoChildren(s, c);
    ReturnIsPopped(s, w);
    PoppedFrames(s, s', k, c);
    OwnStack(s, s', w, s.tasks[c].under);
  }
}
