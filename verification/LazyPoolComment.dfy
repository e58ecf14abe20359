/**
 The invariant as the comments of the pool state it, "with an active worker every domain has a thief or
 no sleeper".  It holds in a domain whenever no wake-up is under way there, but between the first worker
 becoming active and its notifications a domain can be asleep, in every pool of two workers or more.
 */
module LazyPoolComment {
  import opened LazyPool
  import opened LazyPoolCounts
  import opened LazyPoolWake
  import opened LazyPoolSafety

  ghost predicate CommentedIn(s: State, d: nat)
    requires d < |s.doms|
  {
    s.active > 0 ==>
      s.doms[d].thief >= 1 || forall w :: w in s.workers && s.workers[w].dom == d ==> !s.workers[w].pc.Blocked?
  }

  ghost predicate AsCommented(s: State) {
    forall d {:trigger CommentedIn(s, d)} :: 0 <= d < |s.doms| ==> CommentedIn(s, d)
  }

  /** Wherever no notification and no return to the thieves is under way, the comment is right. */
  lemma CommentHoldsAtRest(s: State, d: nat)
    requires Reachable(s) && !s.stop && d < |s.doms| && !Obliged(s, d) && !WakePending(s, d)
    ensures CommentedIn(s, d)
  {
    forall w | s.active > 0 && s.doms[d].thief == 0 && w in s.workers && s.workers[w].dom == d
      ensures !s.workers[w].pc.Blocked?
    { WakeInvariant(s, w); }
  }

  // ---------------------------------------------------------------- runs of one pool

  ghost predicate From(s0: State, s: State) {
    exists acts :: NeverWraps(s0, acts) && s == Exec(s0, acts)
  }

  lemma {:induction false} ExecSnoc(s: State, acts: seq<Act>, a: Act)
    requires NeverWraps(s, acts) && NoWrap(Step(Exec(s, acts), a))
    ensures NeverWraps(s, acts + [a]) && Exec(s, acts + [a]) == Step(Exec(s, acts), a)
    decreases |acts|
  {
    if acts == [] {
      assert acts + [a] == [a] && [a][1..] == [];
      assert NeverWraps(Step(s, a), []);
    } else {
      assert (acts + [a])[0] == acts[0] && (acts + [a])[1..] == acts[1..] + [a];
      ExecSnoc(Step(s, acts[0]), acts[1..], a);
    }
  }

  lemma FromStep(s0: State, s: State, a: Act)
    requires From(s0, s) && NoWrap(Step(s, a))
    ensures From(s0, Step(s, a))
  {
    var acts :| NeverWraps(s0, acts) && s == Exec(s0, acts);
    ExecSnoc(s0, acts, a);
  }

  lemma FromStart(s0: State)
    requires NoWrap(s0)
    ensures From(s0, s0)
  {
    assert NeverWraps(s0, []) && Exec(s0, []) == s0;
  }

  lemma {:induction false} ExecKeys(s: State, acts: seq<Act>)
    ensures Exec(s, acts).workers.Keys == s.workers.Keys
    decreases |acts|
  {
    if acts != [] {
      StepKeys(s, acts[0]);
      ExecKeys(Step(s, acts[0]), acts[1..]);
    }
  }

  ghost predicate AlwaysCommented(s0: State) {
    forall s :: From(s0, s) && !s.stop ==> AsCommented(s)
  }

  // ---------------------------------------------------------------- one worker

  lemma AloneIsCommented(s: State)
    requires Counts(s) && |s.workers| <= 1
    ensures AsCommented(s)
  {
    forall d | 0 <= d < |s.doms| ensures CommentedIn(s, d) {
      if s.active > 0 {
        var u :| u in Those(s.workers, Active);
        forall w | w in s.workers ensures w == u { SubsetCount({u, w}, s.workers.Keys); }
      }
    }
  }

  // ---------------------------------------------------------------- two workers

  /** Worker a gets a submission and rises, worker b finds nothing and falls asleep; the others do not move. */
  datatype Scene = Scene(a: nat, b: nat, atA: Pc, list: nat, atB: Pc, thiefA: nat, thiefB: nat, waiting: nat,
                         active: nat)

  predicate Others(s: State, c: Scene) {
    forall w :: w in s.workers && w != c.a && w != c.b ==> s.workers[w].pc.Wake?
  }

  predicate Shows(s: State, c: Scene) {
    && c.a != c.b && c.a in s.workers && c.b in s.workers && s.workers[c.a].dom < |s.doms|
    && s.workers[c.b].dom < |s.doms|
    && Others(s, c) && !s.stop && s.active == c.active
    && var x, y := s.workers[c.a], s.workers[c.b];
    && x.pc == c.atA && x.list == c.list && !IsWaiter(c.atA) && y.pc == c.atB && y.list == 0
    && (IsWaiter(c.atB) ==> y.key == 0 && y.mark == 0)
    && s.doms[y.dom].word == c.waiting <= 1 && s.doms[y.dom].bumps == 0
    && s.doms[x.dom].thief == c.thiefA + (if x.dom == y.dom then c.thiefB else 0)
    && s.doms[y.dom].thief == c.thiefB + (if x.dom == y.dom then c.thiefA else 0)
    && (x.dom != y.dom && c.atA != Rise && !c.atA.Scan? ==> s.doms[x.dom].word == 0)
  }

  lemma ShownNoWrap(s: State, c: Scene)
    requires Shows(s, c)
    ensures NoWrap(s)
  {
  }

  lemma Shown(s0: State, s: State, a: Act, c: Scene)
    requires From(s0, s) && Shows(Step(s, a), c)
    ensures From(s0, Step(s, a))
  {
    ShownNoWrap(Step(s, a), c);
    FromStep(s0, s, a);
  }

  lemma Pushed(s: State, c: Scene)
    requires Shows(s, c) && c.atA == Wake && c.list == 0
    ensures Shows(Step(s, Push(c.a)), c.(list := 1))
  {
  }

  /** A step of a that touches no counter. */
  lemma Fetches(s: State, c: Scene)
    requires Shows(s, c) && c.atA == Fetch && c.list == 1
    ensures Shows(Step(s, Go(c.a)), c.(atA := Drop, list := 0))
  {
  }

  lemma AWakes(s: State, c: Scene)
    requires Shows(s, c) && c.atA == Wake && c.thiefA == 0 && c.thiefB <= 1
    ensures Shows(Step(s, Go(c.a)), c.(atA := Fetch, thiefA := 1))
  {
  }

  /** As the last thief of its domain a notifies, but nobody waits there yet. */
  lemma Drops(s: State, c: Scene)
    requires Shows(s, c) && c.atA == Drop && c.thiefA == 1 && c.thiefB == 1
    ensures var next := if s.workers[c.a].dom == s.workers[c.b].dom then Rise else NotifyBump;
      Shows(Step(s, Go(c.a)), c.(atA := next, thiefA := 0))
    ensures Step(s, Go(c.a)).workers[c.a].dom == s.workers[c.a].dom
    ensures Step(s, Go(c.a)).workers[c.b].dom == s.workers[c.b].dom
  {
  }

  lemma ANotifies(s: State, c: Scene)
    requires Shows(s, c) && c.atA == NotifyBump && s.workers[c.a].dom != s.workers[c.b].dom
    ensures Shows(Step(s, Go(c.a)), c.(atA := Rise))
  {
  }

  lemma Rises(s: State, c: Scene)
    requires Shows(s, c) && c.atA == Rise && c.active == 0
    ensures Shows(Step(s, Go(c.a)), c.(atA := Scan(0), active := 1))
  {
  }

  /** The steps of b that touch no counter. */
  function Plain(pc: Pc): Pc {
    match pc
    case Fetch => TrySteal
    case TrySteal => Prepare
    case Recheck => CheckStop
    case CheckStop => Leave
    case LastThief => Wait
    case Wait => Blocked
    case _ => pc
  }

  lemma Goes(s: State, c: Scene)
    requires Shows(s, c) && c.active == 0
    requires c.atB.Fetch? || c.atB.TrySteal? || c.atB.Recheck? || c.atB.CheckStop? || c.atB.LastThief? || c.atB.Wait?
    ensures Shows(Step(s, Go(c.b)), c.(atB := Plain(c.atB)))
  {
  }

  lemma BWakes(s: State, c: Scene)
    requires Shows(s, c) && c.atB == Wake && c.thiefB == 0 && c.thiefA <= 1
    ensures Shows(Step(s, Go(c.b)), c.(atB := Fetch, thiefB := 1))
  {
  }

  lemma Prepares(s: State, c: Scene)
    requires Shows(s, c) && c.atB == Prepare && c.waiting == 0
    ensures Shows(Step(s, Go(c.b)), c.(atB := Recheck, waiting := 1))
  {
  }

  lemma Departs(s: State, c: Scene)
    requires Shows(s, c) && c.atB == Leave && c.thiefB == 1 && c.thiefA == 0
    ensures Shows(Step(s, Go(c.b)), c.(atB := LastThief, thiefB := 0))
  {
  }

  // ---------------------------------------------------------------- the run

  lemma Submitted(s0: State, a: nat, b: nat) returns (s: State)
    requires Init(s0) && a in s0.workers && b in s0.workers && a != b
    ensures From(s0, s) && Shows(s, Scene(a, b, Drop, 0, Wake, 1, 0, 0, 0))
  {
    var c := Scene(a, b, Wake, 0, Wake, 0, 0, 0, 0);
    assert Shows(s0, c);
    ShownNoWrap(s0, c);
    FromStart(s0);
    Pushed(s0, c);
    Shown(s0, s0, Push(a), c.(list := 1));
    var s1 := Step(s0, Push(a));
    AWakes(s1, c.(list := 1));
    Shown(s0, s1, Go(a), c.(list := 1, atA := Fetch, thiefA := 1));
    var s2 := Step(s1, Go(a));
    Fetches(s2, c.(list := 1, atA := Fetch, thiefA := 1));
    s := Step(s2, Go(a));
    Shown(s0, s2, Go(a), Scene(a, b, Drop, 0, Wake, 1, 0, 0, 0));
  }

  lemma Moved(s0: State, s: State, c: Scene) returns (s': State)
    requires From(s0, s) && Shows(s, c) && c.active == 0
    requires c.atB.Fetch? || c.atB.TrySteal? || c.atB.Recheck? || c.atB.CheckStop? || c.atB.LastThief? || c.atB.Wait?
    ensures From(s0, s') && Shows(s', c.(atB := Plain(c.atB)))
  {
    Goes(s, c);
    Shown(s0, s, Go(c.b), c.(atB := Plain(c.atB)));
    s' := Step(s, Go(c.b));
  }

  lemma Prepared(s0: State, s: State, c: Scene) returns (s': State)
    requires From(s0, s) && Shows(s, c) && c.atB == Prepare && c.waiting == 0
    ensures From(s0, s') && Shows(s', c.(atB := Recheck, waiting := 1))
  {
    Prepares(s, c);
    Shown(s0, s, Go(c.b), c.(atB := Recheck, waiting := 1));
    s' := Step(s, Go(c.b));
  }

  lemma Woke(s0: State, s: State, c: Scene) returns (s': State)
    requires From(s0, s) && Shows(s, c) && c.atB == Wake && c.thiefB == 0 && c.thiefA <= 1
    ensures From(s0, s') && Shows(s', c.(atB := Fetch, thiefB := 1))
  {
    BWakes(s, c);
    Shown(s0, s, Go(c.b), c.(atB := Fetch, thiefB := 1));
    s' := Step(s, Go(c.b));
  }

  lemma Departed(s0: State, s: State, c: Scene) returns (s': State)
    requires From(s0, s) && Shows(s, c) && c.atB == Leave && c.thiefB == 1 && c.thiefA == 0
    ensures From(s0, s') && Shows(s', c.(atB := LastThief, thiefB := 0))
  {
    Departs(s, c);
    Shown(s0, s, Go(c.b), c.(atB := LastThief, thiefB := 0));
    s' := Step(s, Go(c.b));
  }

  lemma Rose(s0: State, s: State, c: Scene) returns (s': State)
    requires From(s0, s) && Shows(s, c) && c.atA == Rise && c.active == 0
    ensures From(s0, s') && Shows(s', c.(atA := Scan(0), active := 1))
  {
    Rises(s, c);
    Shown(s0, s, Go(c.a), c.(atA := Scan(0), active := 1));
    s' := Step(s, Go(c.a));
  }

  lemma Looked(s0: State, s: State, a: nat, b: nat) returns (s': State)
    requires From(s0, s) && Shows(s, Scene(a, b, Drop, 0, Wake, 1, 0, 0, 0))
    ensures From(s0, s') && Shows(s', Scene(a, b, Drop, 0, TrySteal, 1, 1, 0, 0))
  {
    s' := Woke(s0, s, Scene(a, b, Drop, 0, Wake, 1, 0, 0, 0));
    s' := Moved(s0, s', Scene(a, b, Drop, 0, Fetch, 1, 1, 0, 0));
  }

  lemma Registered(s0: State, s: State, a: nat, b: nat) returns (s': State)
    requires From(s0, s) && Shows(s, Scene(a, b, Drop, 0, TrySteal, 1, 1, 0, 0))
    ensures From(s0, s') && Shows(s', Scene(a, b, Drop, 0, Recheck, 1, 1, 1, 0))
  {
    s' := Moved(s0, s, Scene(a, b, Drop, 0, TrySteal, 1, 1, 0, 0));
    s' := Prepared(s0, s', Scene(a, b, Drop, 0, Prepare, 1, 1, 0, 0));
  }

  lemma Checked(s0: State, s: State, a: nat, b: nat) returns (s': State)
    requires From(s0, s) && Shows(s, Scene(a, b, Drop, 0, Recheck, 1, 1, 1, 0))
    ensures From(s0, s') && Shows(s', Scene(a, b, Drop, 0, Leave, 1, 1, 1, 0))
  {
    s' := Moved(s0, s, Scene(a, b, Drop, 0, Recheck, 1, 1, 1, 0));
    s' := Moved(s0, s', Scene(a, b, Drop, 0, CheckStop, 1, 1, 1, 0));
  }

  lemma FoundNothing(s0: State, s: State, a: nat, b: nat) returns (s': State)
    requires From(s0, s) && Shows(s, Scene(a, b, Drop, 0, Wake, 1, 0, 0, 0))
    ensures From(s0, s') && Shows(s', Scene(a, b, Drop, 0, Leave, 1, 1, 1, 0))
  {
    s' := Looked(s0, s, a, b);
    s' := Registered(s0, s', a, b);
    s' := Checked(s0, s', a, b);
  }

  lemma Dropped(s0: State, s: State, a: nat, b: nat) returns (s': State)
    requires From(s0, s) && Shows(s, Scene(a, b, Drop, 0, Leave, 1, 1, 1, 0))
    ensures From(s0, s') && Shows(s', Scene(a, b, Rise, 0, Leave, 0, 1, 1, 0))
  {
    var c := Scene(a, b, Drop, 0, Leave, 1, 1, 1, 0);
    Drops(s, c);
    s' := Step(s, Go(a));
    if s.workers[a].dom == s.workers[b].dom {
      Shown(s0, s, Go(a), c.(atA := Rise, thiefA := 0));
    } else {
      Shown(s0, s, Go(a), c.(atA := NotifyBump, thiefA := 0));
      ANotifies(s', c.(atA := NotifyBump, thiefA := 0));
      Shown(s0, s', Go(a), c.(atA := Rise, thiefA := 0));
      s' := Step(s', Go(a));
    }
  }

  lemma Slept(s0: State, s: State, a: nat, b: nat) returns (s': State)
    requires From(s0, s) && Shows(s, Scene(a, b, Rise, 0, Leave, 0, 1, 1, 0))
    ensures From(s0, s') && Shows(s', Scene(a, b, Rise, 0, Wait, 0, 0, 1, 0))
  {
    s' := Departed(s0, s, Scene(a, b, Rise, 0, Leave, 0, 1, 1, 0));
    s' := Moved(s0, s', Scene(a, b, Rise, 0, LastThief, 0, 0, 1, 0));
  }

  lemma Rested(s0: State, s: State, a: nat, b: nat) returns (s': State)
    requires From(s0, s) && Shows(s, Scene(a, b, Rise, 0, Wait, 0, 0, 1, 0))
    ensures From(s0, s') && Shows(s', Scene(a, b, Scan(0), 0, Blocked, 0, 0, 1, 1))
  {
    s' := Moved(s0, s, Scene(a, b, Rise, 0, Wait, 0, 0, 1, 0));
    s' := Rose(s0, s', Scene(a, b, Rise, 0, Blocked, 0, 0, 1, 0));
  }

  /** In every pool with two workers a run reaches a state that the comment denies. */
  lemma CommentIsNotKept(s0: State, a: nat, b: nat) returns (s: State)
    requires Init(s0) && a in s0.workers && b in s0.workers && a != b
    ensures From(s0, s) && !s.stop && !AsCommented(s)
  {
    s := Submitted(s0, a, b);
    s := FoundNothing(s0, s, a, b);
    s := Dropped(s0, s, a, b);
    s := Slept(s0, s, a, b);
    s := Rested(s0, s, a, b);
    assert !CommentedIn(s, s.workers[b].dom);
  }

  /** The comment holds in every state before stop if and only if the pool has at most one worker. */
  lemma CommentIsForOneWorker(s0: State)
    requires Init(s0)
    ensures AlwaysCommented(s0) <==> |s0.workers| <= 1
  {
    if |s0.workers| <= 1 {
      forall s | From(s0, s) && !s.stop ensures AsCommented(s) {
        var acts :| NeverWraps(s0, acts) && s == Exec(s0, acts);
        InitInv(s0);
        RunInv(s0, acts);
        ExecKeys(s0, acts);
        SameSize(s0.workers, s.workers);
        AloneIsCommented(s);
      }
    } else {
      assert |s0.workers.Keys| == |s0.workers|;
      var a :| a in s0.workers.Keys;
      CountWithout(s0.workers.Keys, a);
      var b :| b in s0.workers.Keys - {a};
      var s := CommentIsNotKept(s0, a, b);
    }
  }
}
