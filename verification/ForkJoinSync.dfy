/** Every step keeps what an unchanged steal count tells the resumer of a fork. */
module ForkJoinSync {
  import opened Options
  import opened ForkJoin
  import opened ForkJoinInv
  import opened ForkJoinChains
  import opened ForkJoinStacks

  /** Tasks keep their kind and parent; new ones get new names. */
  ghost predicate SameKin(s: State, s': State) {
    && s.nextTask <= s'.nextTask
    && (forall x :: x in s'.tasks && x < s.nextTask ==>
          x in s.tasks && s'.tasks[x].kind == s.tasks[x].kind && s'.tasks[x].parent == s.tasks[x].parent)
  }

  predicate SameForks(s: State, s': State, t: nat) {
    && t in s.tasks && t in s'.tasks && s'.tasks[t].lastFork == s.tasks[t].lastFork
    && s'.tasks[t].stealsPre == s.tasks[t].stealsPre && s'.tasks[t].steals == s.tasks[t].steals
  }

  predicate Pending(s: State, t: nat) { ForkPending(s, t) || PcAt(s, t, Stole(t)) }

  /** Frames that are not the business of worker w. */
  lemma ToldOther(s: State, s': State, w: nat, t: nat)
    requires Chains(s) && Chains(s') && SameKin(s, s') && SameForks(s, s', t) && ForkTold(s, t)
    requires s'.tasks[t].at == s.tasks[t].at != On(w) && s'.workers.Keys == s.workers.Keys
    requires forall v :: v in s.workers && v != w ==> s'.workers[v].pc == s.workers[v].pc
    ensures ForkTold(s', t)
  {
    assert TaskOk(s, t) && TaskOk(s', t);
    if s.tasks[t].at.Under? { assert TaskOk(s, s.tasks[t].at.x); }
  }

  /** Frames that are resumed or suspended, but by nothing a fork waits for. */
  lemma ToldPlain(s: State, s': State, t: nat)
    requires SameKin(s, s') && SameForks(s, s', t) && ForkTold(s, t) && !Pending(s, t) && !Pending(s', t)
    ensures ForkTold(s', t)
  {
  }

  /** Worker w moves at t; all others are untouched. */
  ghost predicate Elsewhere(s: State, s': State, w: nat, t: nat) {
    && s'.workers.Keys == s.workers.Keys && SameKin(s, s')
    && (forall v :: v in s.workers && v != w ==> s'.workers[v].pc == s.workers[v].pc)
    && (forall x :: x in s'.tasks && x != t && x < s.nextTask ==>
          SameForks(s, s', x) && s'.tasks[x].at == s.tasks[x].at && s.tasks[x].at != On(w))
  }

  /** It is enough to look at the frame worker w is at and at new ones. */
  lemma ToldAll(s: State, s': State, w: nat, t: nat)
    requires Chains(s) && Chains(s') && SyncForks(s) && Elsewhere(s, s', w, t)
    requires t in s'.tasks ==> ForkTold(s', t)
    requires forall x :: x in s'.tasks && x >= s.nextTask ==>
      s'.tasks[x].lastFork == 0 && s'.tasks[x].steals == s'.tasks[x].stealsPre && !s'.tasks[x].at.Under?
    ensures SyncForks(s')
  {
    forall x | x in s'.tasks ensures ForkTold(s', x) {
      if x >= s.nextTask {
        forall y | y in s'.tasks ensures y != 0 { assert TaskOk(s', y); }
      } else if x != t {
        assert ForkTold(s, x);
        ToldOther(s, s', w, x);
      }
    }
  }

  lemma NotOn(s: State, w: nat, t: Option<nat>)
    requires Chains(s) && w in s.workers && Cur(s.workers[w].pc) == t
    ensures forall x :: x in s.tasks && Some(x) != t ==> s.tasks[x].at != On(w)
    ensures forall x :: x in s.tasks ==> x < s.nextTask
  {
    forall x | x in s.tasks ensures Some(x) != t ==> s.tasks[x].at != On(w) { assert TaskOk(s, x); }
    forall x | x in s.tasks ensures x < s.nextTask { assert TaskOk(s, x); }
  }

  lemma SubmitSync(s: State, s': State)
    requires Chains(s) && Chains(s') && SyncForks(s) && s' == DoSubmit(s)
    ensures SyncForks(s')
  {
    forall x | x in s'.tasks ensures ForkTold(s', x) {
      if x == s.nextTask {
        forall y | y in s'.tasks ensures y != 0 { assert TaskOk(s', y); }
      } else {
        assert ForkTold(s, x) && TaskOk(s, x) && TaskOk(s', x);
        if s.tasks[x].at.Under? { assert TaskOk(s, s.tasks[x].at.x); }
      }
    }
  }

  lemma TakeRootSync(s: State, s': State, w: nat, r: nat)
    requires Chains(s) && Chains(s') && SyncForks(s) && w in s.workers && s.workers[w].pc.Idle? && r in s.queue
    requires s' == DoTakeRoot(s, w, r)
    ensures SyncForks(s')
  {
    NotOn(s, w, None);
    assert ForkTold(s, r) && TaskOk(s, r);
    ToldPlain(s, s', r);
    ToldAll(s, s', w, r);
  }

  lemma CreateElsewhere(s: State, s': State, w: nat, kind: Kind)
    requires Chains(s) && w in s.workers && s.workers[w].pc.Run?
    requires s.workers[w].tls in s.stacks && !kind.Root? && s' == DoCreate(s, w, kind)
    ensures Elsewhere(s, s', w, s.workers[w].pc.t)
  {
    FreshTask(s);
    NotOn(s, w, Some(s.workers[w].pc.t));
    assert WorkerOk(s, w);
    CreateTasks(s, s', w, kind, s.workers[w].pc.t, s.nextTask);
    assert s'.workers.Keys == s.workers.Keys && s'.nextTask == s.nextTask + 1;
  }

  lemma CreateTold(s: State, s': State, w: nat, kind: Kind, t: nat)
    requires Chains(s) && SyncForks(s) && w in s.workers && s.workers[w].pc == Run(t)
    requires s.workers[w].tls in s.stacks && !kind.Root? && s' == DoCreate(s, w, kind)
    ensures t in s'.tasks && ForkTold(s', t)
  {
    FreshTask(s);
    assert WorkerOk(s, w) && ForkTold(s, t);
  }

  lemma CreateSync(s: State, s': State, w: nat, kind: Kind)
    requires Chains(s) && Chains(s') && SyncForks(s) && w in s.workers && s.workers[w].pc.Run?
    requires s.workers[w].tls in s.stacks && !kind.Root? && s' == DoCreate(s, w, kind)
    ensures SyncForks(s')
  {
    var t := s.workers[w].pc.t;
    CreateElsewhere(s, s', w, kind);
    CreateTold(s, s', w, kind, t);
    NotOn(s, w, Some(t));
    ToldAll(s, s', w, t);
  }

  lemma ReturnElsewhere(s: State, s': State, w: nat, c: nat, t: nat)
    requires Chains(s) && w in s.workers && s.workers[w].pc == Run(c) && c in s.tasks && s' == DoReturn(s, w)
    requires t == if s.tasks[c].kind.Called? then s.tasks[c].parent else c
    requires s.tasks[c].steals == 0
    ensures Elsewhere(s, s', w, t)
  {
    NotOn(s, w, Some(c));
    assert WorkerOk(s, w) && TaskOk(s, c);
    if s.tasks[c].kind.Called? { CalledTasks(s, s', w, c, t); } else { CoverOnly(s.tasks, s.tasks[c].under, None); }
  }

  lemma ReturnTold(s: State, s': State, w: nat, c: nat, t: nat)
    requires Chains(s) && Chains(s') && SyncForks(s)
    requires w in s.workers && s.workers[w].pc == Run(c) && c in s.tasks && s' == DoReturn(s, w)
    requires t == if s.tasks[c].kind.Called? then s.tasks[c].parent else c
    requires t in s'.tasks
    ensures ForkTold(s', t)
  {
    assert WorkerOk(s, w) && TaskOk(s, c) && ForkTold(s, c) && ForkTold(s, t);
  }

  lemma ReturnSync(s: State, s': State, w: nat, c: nat)
    requires Chains(s) && Chains(s') && SyncForks(s)
    requires w in s.workers && s.workers[w].pc == Run(c) && c in s.tasks && s' == DoReturn(s, w)
    requires s.tasks[c].steals == 0
    ensures SyncForks(s')
  {
    var t := if s.tasks[c].kind.Called? then s.tasks[c].parent else c;
    NotOn(s, w, Some(c));
    ReturnElsewhere(s, s', w, c, t);
    if t in s'.tasks { ReturnTold(s, s', w, c, t); }
    ToldAll(s, s', w, t);
  }

  lemma FinishSync(s: State, s': State, w: nat, c: nat, p: nat)
    requires Chains(s) && Chains(s') && SyncForks(s) && w in s.workers && s.workers[w].pc == Finish(c, p)
    requires s' == GoFinish(s, w, c, p)
    ensures SyncForks(s')
  {
    NotOn(s, w, Some(c));
    assert WorkerOk(s, w) && TaskOk(s, c) && ForkTold(s, c) && ForkTold(s, p);
    if s.workers[w].deque != [] {
      assert ForkPending(s, p);
      ToldAll(s, s', w, p);
    } else {
      assert s'.tasks == s.tasks;
      ToldAll(s, s', w, c);
    }
  }

  lemma RegisterSync(s: State, s': State, w: nat, c: nat, p: nat, same: bool)
    requires Chains(s) && Chains(s') && SyncForks(s) && w in s.workers && s.workers[w].pc == Register(c, p, same)
    requires p in s.tasks && s.tasks[p].joins == 1 ==> s.tasks[p].at.Parked?
    requires s' == GoRegister(s, w, c, p, same)
    ensures SyncForks(s')
  {
    NotOn(s, w, Some(c));
    assert WorkerOk(s, w) && TaskOk(s, c) && ForkTold(s, p);
    if s.tasks[p].joins != 1 { ToldOther(s, s', w, p); }
    ToldAll(s, s', w, p);
  }

  lemma ResetSync(s: State, s': State, w: nat, t: nat, owned: bool)
    requires Chains(s) && Chains(s') && SyncForks(s) && w in s.workers && Cur(s.workers[w].pc) == Some(t)
    requires Out(s, t) == {} && s' == TakeAndReset(s, w, t, owned)
    ensures SyncForks(s')
  {
    NotOn(s, w, Some(t));
    assert WorkerOk(s, w) && ForkTold(s, t);
    NobodyOut(s, t);
    ToldAll(s, s', w, t);
  }

  lemma StoleSync(s: State, s': State, w: nat, t: nat)
    requires Chains(s) && Chains(s') && SyncForks(s) && w in s.workers && s.workers[w].pc == Stole(t)
    requires s' == GoStole(s, w, t)
    ensures SyncForks(s')
  {
    NotOn(s, w, Some(t));
    assert WorkerOk(s, w) && ForkTold(s, t);
    ToldAll(s, s', w, t);
  }

  /** Worker w moves at t towards, at or past a join. */
  lemma JoinSync(s: State, s': State, w: nat, t: nat)
    requires Chains(s) && Chains(s') && SyncForks(s) && w in s.workers && Cur(s.workers[w].pc) == Some(t)
    requires t in s.tasks && t in s'.tasks && !s.workers[w].pc.Stole?
    requires !s'.tasks[t].at.Under? && Elsewhere(s, s', w, t)
    requires SameForks(s, s', t) && !PcAt(s', t, Stole(t)) && s'.tasks.Keys == s.tasks.Keys
    ensures SyncForks(s')
  {
    NotOn(s, w, Some(t));
    assert WorkerOk(s, w) && ForkTold(s, t);
    ToldPlain(s, s', t);
    ToldAll(s, s', w, t);
  }

  lemma JoinSubSync(s: State, s': State, w: nat, t: nat)
    requires Chains(s) && Chains(s') && SyncForks(s) && w in s.workers && s.workers[w].pc == JoinSub(t)
    requires s' == GoJoinSub(s, w, t)
    ensures SyncForks(s')
  {
    NotOn(s, w, Some(t));
    assert WorkerOk(s, w);
    assert s'.tasks == s.tasks[t := s'.tasks[t]];
    JoinSync(s, s', w, t);
  }

  lemma ReleaseSync(s: State, s': State, w: nat, same: bool)
    requires Chains(s) && Chains(s') && SyncForks(s) && w in s.workers && s.workers[w].pc == Release(same)
    requires s' == GoRelease(s, w, same)
    ensures SyncForks(s')
  {
    NotOn(s, w, None);
    ToldAll(s, s', w, s.nextTask);
  }

  lemma StealSync(s: State, s': State, w: nat, v: nat)
    requires Chains(s) && Chains(s') && SyncForks(s) && w in s.workers && v in s.workers && v != w
    requires s.workers[w].pc.Idle? && s.workers[v].deque != [] && s' == DoSteal(s, w, v)
    ensures SyncForks(s')
  {
    var t := s.workers[v].deque[0];
    NotOn(s, w, None);
    StealIsRobbed(s, w, v);
    assert ForkTold(s, t);
    ToldAll(s, s', w, t);
  }
}
