/** Every step keeps the meaning of the 16-bit join counter. */
module ForkJoinCounters {
  import opened Options
  import opened ForkJoin
  import opened ForkJoinInv
  import opened ForkJoinChains

  ghost predicate AtMost(s: State, k: nat) {
    forall t :: t in s.tasks ==> s.tasks[t].thefts <= k
  }

  /** The bound the protocol needs of each fork-join scope. */
  ghost predicate Bounded(s: State) { AtMost(s, MAX - 1) }

  predicate SameCounts(s: State, s': State, t: nat) {
    && t in s.tasks && t in s'.tasks
    && s'.tasks[t].joins == s.tasks[t].joins && s'.tasks[t].steals == s.tasks[t].steals
    && s'.tasks[t].thefts == s.tasks[t].thefts
  }

  /** A frame whose worker is at none of the steps that the counter's reading depends on. */
  predicate Plain(s: State, t: nat) {
    t in s.tasks && !s.tasks[t].at.Parked? && !Resetting(s, t) && !PcAt(s, t, Stole(t))
  }

  lemma PlainKept(s: State, s': State, t: nat)
    requires SameCounts(s, s', t) && CounterOk(s, t) && Out(s', t) == Out(s, t)
    requires Plain(s, t) && Plain(s', t)
    ensures CounterOk(s', t)
  {
  }

  /** Frames that are not the business of worker w. */
  lemma OtherKept(s: State, s': State, w: nat, t: nat)
    requires SameCounts(s, s', t) && CounterOk(s, t) && Out(s', t) == Out(s, t)
    requires s'.tasks[t].at == s.tasks[t].at != On(w)
    requires forall v :: v != w ==> (v in s'.workers <==> v in s.workers)
    requires forall v :: v in s.workers && v in s'.workers && v != w ==> s'.workers[v].pc == s.workers[v].pc
    ensures CounterOk(s', t)
  {
    var at := s.tasks[t].at;
    assert at.On? && at.w in s.workers ==> s'.workers[at.w].pc == s.workers[at.w].pc;
  }

  lemma NotAt(s: State, w: nat, t: nat)
    requires Chains(s) && t in s.tasks && w in s.workers && Cur(s.workers[w].pc) != Some(t)
    ensures s.tasks[t].at != On(w)
  {
    assert TaskOk(s, t);
  }

  lemma FreshCounter(s: State, s': State, c: nat)
    requires Chains(s) && c !in s.tasks && c in s'.tasks && s'.tasks.Keys == s.tasks.Keys + {c}
    requires forall x :: x in s.tasks ==> SameLinks(s.tasks, s'.tasks, x)
    requires s'.tasks[c].kind.Root? || s'.tasks[c].attached
    ensures Out(s', c) == {}
    ensures forall t :: t in s.tasks ==> Out(s', t) == Out(s, t)
  {
    forall x | x in s.tasks ensures !s.tasks[x].kind.Root? ==> s.tasks[x].parent != c { assert TaskOk(s, x); }
    assert forall x :: x in s.tasks ==> SameLinks(s.tasks, s'.tasks, x);
  }

  lemma SubmitCounters(s: State)
    requires Chains(s) && Counters(s)
    ensures Counters(DoSubmit(s))
  {
    var s', r := DoSubmit(s), s.nextTask;
    FreshTask(s);
    FreshCounter(s, s', r);
    forall t | t in s'.tasks ensures CounterOk(s', t) {
      if t != r {
        assert CounterOk(s, t);
        assert SameCounts(s, s', t);
        assert Plain(s, t) == Plain(s', t);
      }
    }
  }

  lemma TakeRootCounters(s: State, w: nat, r: nat)
    requires Chains(s) && Counters(s) && w in s.workers && s.workers[w].pc.Idle? && r in s.queue
    ensures Counters(DoTakeRoot(s, w, r))
  {
    var s' := DoTakeRoot(s, w, r);
    assert TaskOk(s, r) && s.tasks[r].at.Queued?;
    forall t | t in s'.tasks ensures CounterOk(s', t) {
      assert CounterOk(s, t);
      assert Out(s', t) == Out(s, t);
      if t == r { PlainKept(s, s', t); } else { NotAt(s, w, t); OtherKept(s, s', w, t); }
    }
  }

  lemma CreatedCounter(s: State, s': State, w: nat, kind: Kind, t: nat, c: nat, x: nat)
    requires Chains(s) && Counters(s) && Created(s, s', w, kind, t, c) && x in s.tasks && SameCounts(s, s', x)
    requires Out(s', x) == Out(s, x)
    ensures CounterOk(s', x)
  {
    assert WorkerOk(s, w) && CounterOk(s, x);
    if x == t {
      PlainKept(s, s', t);
    } else {
      NotAt(s, w, x);
      OtherKept(s, s', w, x);
    }
  }

  lemma CreateCounters(s: State, w: nat, kind: Kind)
    requires Chains(s) && Counters(s)
    requires w in s.workers && s.workers[w].pc.Run? && s.workers[w].tls in s.stacks && !kind.Root?
    ensures Counters(DoCreate(s, w, kind))
  {
    var s', t, c := DoCreate(s, w, kind), s.workers[w].pc.t, s.nextTask;
    CreateIsCreated(s, w, kind);
    FreshCounter(s, s', c);
    forall x | x in s'.tasks ensures CounterOk(s', x) {
      if x != c { CreatedCounter(s, s', w, kind, t, c, x); }
    }
  }

  // ---------------------------------------------------------------- leaving frames

  /** c leaves, or only dies; its parent, if it was below c, becomes what w runs. */
  lemma LeaveCounters(s: State, s': State, w: nat, c: nat)
    requires Chains(s) && Counters(s) && w in s.workers && Cur(s.workers[w].pc) == Some(c) && c in s.tasks
    requires s'.workers.Keys == s.workers.Keys
    requires forall v :: v in s.workers && v != w ==> s'.workers[v].pc == s.workers[v].pc
    requires s'.tasks.Keys == s.tasks.Keys - {c} && !(s.tasks[c].kind.Forked? && !s.tasks[c].attached)
    requires forall x :: x in s'.tasks ==> SameCounts(s, s', x) && SameLinks(s.tasks, s'.tasks, x)
    requires forall x :: x in s'.tasks ==>
      s'.tasks[x].at == s.tasks[x].at || (s.tasks[x].at.Under? && s'.workers[w].pc == Run(x) && s'.tasks[x].at == On(w))
    ensures Counters(s')
  {
    forall x | x in s'.tasks ensures CounterOk(s', x) {
      assert CounterOk(s, x);
      assert Out(s', x) == Out(s, x) by {
        forall y | y in Out(s, x) ensures y in Out(s', x) { assert y in s'.tasks; }
      }
      NotAt(s, w, x);
      if s'.tasks[x].at == s.tasks[x].at { OtherKept(s, s', w, x); } else { PlainKept(s, s', x); }
    }
  }

  lemma OutKept(s: State, s': State, t: nat)
    requires s'.tasks.Keys == s.tasks.Keys && forall x :: x in s.tasks ==> SameLinks(s.tasks, s'.tasks, x)
    ensures Out(s', t) == Out(s, t)
  {
    forall x | x in s.tasks ensures x in Out(s', t) <==> x in Out(s, t) { assert SameLinks(s.tasks, s'.tasks, x); }
  }

  /** A forked child is destroyed and stays to be counted. */
  lemma DiesCounters(s: State, s': State, w: nat, c: nat)
    requires Chains(s) && Counters(s) && Died(s, s', w, c) && forall x :: x in s.tasks ==> SameCounts(s, s', x)
    ensures Counters(s')
  {
    assert WorkerOk(s, w);
    forall x | x in s'.tasks ensures CounterOk(s', x) {
      assert CounterOk(s, x) && SameCounts(s, s', x);
      OutKept(s, s', x);
      if x == c { PlainKept(s, s', x); } else { NotAt(s, w, x); OtherKept(s, s', w, x); }
    }
  }

  lemma ReturnCounts(s: State, s': State, w: nat, c: nat)
    requires w in s.workers && s.workers[w].pc == Run(c) && s' == DoReturn(s, w)
    ensures forall x :: x in s.tasks && x in s'.tasks ==> SameCounts(s, s', x)
  {
    if c in s.tasks { CoverOnly(s.tasks, s.tasks[c].under, None); }
  }

  lemma ReturnCounters(s: State, w: nat)
    requires Chains(s) && Counters(s) && w in s.workers && s.workers[w].pc.Run? && !Stolen(s, s.workers[w].pc.t)
    requires s.workers[w].pc.t in s.tasks && s.tasks[s.workers[w].pc.t].steals == 0
    ensures Counters(DoReturn(s, w))
  {
    var s', c := DoReturn(s, w), s.workers[w].pc.t;
    assert WorkerOk(s, w) && TaskOk(s, c);
    ReturnCounts(s, s', w, c);
    if s.tasks[c].kind.Forked? {
      ReturnDies(s, s', w, c);
      DiesCounters(s, s', w, c);
    } else {
      ReturnLeaves(s, s', w, c);
      LeaveCounters(s, s', w, c);
    }
  }

  lemma FinishCounters(s: State, w: nat)
    requires Chains(s) && Counters(s) && w in s.workers && s.workers[w].pc.Finish?
    ensures Counters(DoGo(s, w))
  {
    var s', c := DoGo(s, w), s.workers[w].pc.t;
    assert WorkerOk(s, w) && TaskOk(s, c);
    if s.workers[w].deque != [] {
      LeaveCounters(s, s', w, c);
    } else {
      SamePlace(s, s', w, c);
    }
  }

  /** Only w's program counter moves, at a frame whose counter it does not touch. */
  lemma SamePlace(s: State, s': State, w: nat, c: nat)
    requires Chains(s) && Counters(s) && w in s.workers && Cur(s.workers[w].pc) == Some(c) && c in s.tasks
    requires s'.tasks == s.tasks && s'.workers.Keys == s.workers.Keys
    requires forall v :: v in s.workers && v != w ==> s'.workers[v].pc == s.workers[v].pc
    requires CounterOk(s', c) || (Plain(s, c) && Plain(s', c))
    ensures Counters(s')
  {
    forall x | x in s'.tasks ensures CounterOk(s', x) {
      assert CounterOk(s, x);
      assert Out(s', x) == Out(s, x);
      if x == c {
        if Plain(s, c) && Plain(s', c) { PlainKept(s, s', c); }
      } else {
        NotAt(s, w, x);
        OtherKept(s, s', w, x);
      }
    }
  }

  lemma JoinCounters(s: State, w: nat)
    requires Chains(s) && Counters(s) && w in s.workers
    ensures Counters(DoJoin(s, w))
  {
    var s' := DoJoin(s, w);
    if s' != s {
      assert WorkerOk(s, w);
      SamePlace(s, s', w, s.workers[w].pc.t);
    }
  }

  lemma AtJoinCounters(s: State, w: nat)
    requires Chains(s) && Counters(s) && w in s.workers && s.workers[w].pc.AtJoin?
    ensures Counters(DoGo(s, w))
  {
    var s', t := DoGo(s, w), s.workers[w].pc.t;
    assert WorkerOk(s, w) && CounterOk(s, t);
    assert Out(s', t) == Out(s, t);
    SamePlace(s, s', w, t);
  }

  lemma ReleaseCounters(s: State, w: nat)
    requires Chains(s) && Counters(s) && w in s.workers && s.workers[w].pc.Release?
    ensures Counters(DoGo(s, w))
  {
    var s' := DoGo(s, w);
    forall x | x in s'.tasks ensures CounterOk(s', x) {
      assert CounterOk(s, x);
      assert Out(s', x) == Out(s, x);
      NotAt(s, w, x);
      OtherKept(s, s', w, x);
    }
  }

  // ---------------------------------------------------------------- steps on one counter

  /** Worker w moves at t, and only t's counter changes. */
  lemma OneCounter(s: State, s': State, w: nat, t: nat)
    requires Chains(s) && Counters(s) && w in s.workers && Cur(s.workers[w].pc) == Some(t) && t in s.tasks
    requires s'.tasks.Keys == s.tasks.Keys && s'.workers.Keys == s.workers.Keys
    requires forall v :: v in s.workers && v != w ==> s'.workers[v].pc == s.workers[v].pc
    requires forall x :: x in s.tasks ==> SameLinks(s.tasks, s'.tasks, x)
    requires forall x :: x in s.tasks && x != t ==> s'.tasks[x] == s.tasks[x]
    requires Out(s', t) == Out(s, t) ==> CounterOk(s', t)
    ensures Counters(s')
  {
    forall x | x in s'.tasks ensures CounterOk(s', x) {
      assert CounterOk(s, x);
      assert Out(s', x) == Out(s, x) by {
        forall y | y in s.tasks ensures SameLinks(s.tasks, s'.tasks, y) {}
      }
      if x != t {
        NotAt(s, w, x);
        OtherKept(s, s', w, x);
      }
    }
  }

  lemma StoleCounters(s: State, w: nat)
    requires Chains(s) && Counters(s) && w in s.workers && s.workers[w].pc.Stole?
    ensures Counters(DoGo(s, w))
  {
    var s', t := DoGo(s, w), s.workers[w].pc.t;
    assert WorkerOk(s, w) && CounterOk(s, t);
    OneCounter(s, s', w, t);
  }

  lemma JoinSubCounter(s: State, s': State, w: nat, t: nat)
    requires Chains(s) && t in s.tasks && CounterOk(s, t) && w in s.workers && s.workers[w].pc == JoinSub(t)
    requires s' == GoJoinSub(s, w, t) && Out(s', t) == Out(s, t)
    ensures CounterOk(s', t)
  {
    assert WorkerOk(s, w);
  }

  lemma JoinSubCounters(s: State, w: nat)
    requires Chains(s) && Counters(s) && w in s.workers && s.workers[w].pc.JoinSub?
    ensures Counters(DoGo(s, w))
  {
    var s', t := DoGo(s, w), s.workers[w].pc.t;
    assert WorkerOk(s, w) && CounterOk(s, t);
    if Out(s', t) == Out(s, t) { JoinSubCounter(s, s', w, t); }
    OneCounter(s, s', w, t);
  }

  lemma ResetCounters(s: State, w: nat, t: nat, owned: bool)
    requires Chains(s) && Counters(s) && w in s.workers && Cur(s.workers[w].pc) == Some(t)
    requires s.workers[w].pc.Last? || s.workers[w].pc.Take?
    ensures Out(s, t) == {} && Counters(TakeAndReset(s, w, t, owned))
  {
    var s' := TakeAndReset(s, w, t, owned);
    assert WorkerOk(s, w) && CounterOk(s, t);
    OneCounter(s, s', w, t);
  }

  /** While the parent has not suspended its counter is far from the value the last child looks for. */
  lemma RegisterIsLast(s: State, w: nat)
    requires Chains(s) && Counters(s) && Bounded(s) && w in s.workers && s.workers[w].pc.Register?
    ensures var c, p := s.workers[w].pc.t, s.workers[w].pc.p;
      && p in s.tasks && c in Out(s, p) && p != c && |Out(s, p) - {c}| == |Out(s, p)| - 1
      && (s.tasks[p].joins == 1 <==> s.tasks[p].at.Parked? && Out(s, p) == {c})
      && s.tasks[p].joins > 0 && !Resetting(s, p)
  {
    var c, p := s.workers[w].pc.t, s.workers[w].pc.p;
    assert WorkerOk(s, w) && TaskOk(s, c) && CounterOk(s, p);
    assert Out(s, p) == {c} + (Out(s, p) - {c});
    assert |Out(s, p)| == 1 ==> Out(s, p) - {c} == {};
  }

  lemma RegisterCounter(s: State, w: nat, s': State, c: nat, p: nat)
    requires Chains(s) && Counters(s) && Bounded(s) && w in s.workers && s.workers[w].pc.Register?
    requires s' == DoGo(s, w) && c == s.workers[w].pc.t && p == s.workers[w].pc.p
    requires p in s'.tasks
    requires Out(s', p) == Out(s, p) - {c}
    ensures CounterOk(s', p)
  {
    RegisterIsLast(s, w);
    assert CounterOk(s, p);
    NotAt(s, w, p);
  }

  lemma OutLoses(s: State, s': State, c: nat, t: nat)
    requires s'.tasks.Keys == s.tasks.Keys - {c} && forall x :: x in s'.tasks ==> SameLinks(s.tasks, s'.tasks, x)
    ensures Out(s', t) == Out(s, t) - {c}
  {
    forall x | x in s'.tasks ensures x in Out(s', t) <==> x in Out(s, t) { assert SameLinks(s.tasks, s'.tasks, x); }
  }

  lemma RegisterOthers(s: State, s': State, w: nat, c: nat, p: nat, x: nat)
    requires Chains(s) && Counters(s) && w in s.workers
    requires Cur(s.workers[w].pc) == Some(c) && c in s.tasks && s.tasks[c].parent == p
    requires s'.tasks.Keys == s.tasks.Keys - {c} && s'.workers.Keys == s.workers.Keys
    requires forall y :: y in s'.tasks ==> SameLinks(s.tasks, s'.tasks, y)
    requires forall v :: v in s.workers && v != w ==> s'.workers[v].pc == s.workers[v].pc
    requires x in s'.tasks && x != p && s'.tasks[x] == s.tasks[x]
    ensures CounterOk(s', x)
  {
    assert CounterOk(s, x);
    OutLoses(s, s', c, x);
    assert c !in Out(s, x);
    NotAt(s, w, x);
    OtherKept(s, s', w, x);
  }

  lemma RegisterCounters(s: State, w: nat)
    requires Chains(s) && Counters(s) && Bounded(s) && w in s.workers && s.workers[w].pc.Register?
    ensures Counters(DoGo(s, w))
  {
    var s', c, p := DoGo(s, w), s.workers[w].pc.t, s.workers[w].pc.p;
    assert WorkerOk(s, w) && TaskOk(s, c);
    OutLoses(s, s', c, p);
    forall x | x in s'.tasks ensures CounterOk(s', x) {
      if x == p { RegisterCounter(s, w, s', c, p); } else { RegisterOthers(s, s', w, c, p, x); }
    }
  }

  // ---------------------------------------------------------------- steal

  lemma RobbedOut(s: State, s': State, w: nat, v: nat, t: nat, x: nat, y: nat)
    requires Robbed(s, s', w, v, t, x)
    ensures Out(s', y) == if y == t then Out(s, t) + {x} else Out(s, y)
    ensures x !in Out(s, t)
  {
  }

  lemma StealCounters(s: State, w: nat, v: nat)
    requires Chains(s) && Counters(s) && w in s.workers && v in s.workers && v != w
    requires s.workers[w].pc.Idle? && s.workers[v].deque != [] && Bounded(DoSteal(s, w, v))
    ensures Counters(DoSteal(s, w, v))
  {
    var s', t := DoSteal(s, w, v), s.workers[v].deque[0];
    StealIsRobbed(s, w, v);
    var x := s.tasks[t].at.x;
    forall y | y in s'.tasks ensures CounterOk(s', y) {
      assert CounterOk(s, y);
      RobbedOut(s, s', w, v, t, x, y);
      NotAt(s, w, y);
      if y != t { OtherKept(s, s', w, y); }
    }
  }
}
