/** Whole runs of the lazy pool: the wake invariant, and no submission or shutdown slept through. */
module LazyPoolSafety {
  import opened EventCount
  import opened LazyPool
  import opened LazyPoolCounts
  import opened LazyPoolWake

  /** Past the second look at its submissions and on the way to sleep. */
  predicate Committed(pc: Pc) { pc.CheckStop? || Departing(pc) }

  /** Past the look at stop as well. */
  predicate Departing(pc: Pc) { pc.Leave? || pc.LastThief? || pc.Wait? || pc.Blocked? }

  predicate SubBumps(s: State, k: nat, d: nat) { k in s.subs && s.subs[k] == Submitter(d, false) }

  ghost predicate SubComing(s: State, d: nat) { exists k :: SubBumps(s, k, d) }

  ghost predicate SubWaking(s: State, d: nat) { exists k :: SubWakes(s, k, d) }

  /** Either a bump is still to come, or the worker is behind and nobody but the waker keeps it asleep. */
  predicate Promised(s: State, w: nat, coming: bool, waking: bool)
    requires w in s.workers && s.workers[w].dom < |s.doms|
  {
    coming || (s.workers[w].mark != s.doms[s.workers[w].dom].bumps && (s.workers[w].pc.Blocked? ==> waking))
  }

  ghost predicate ListOk(s: State, w: nat)
    requires w in s.workers
  {
    var x := s.workers[w];
    x.dom < |s.doms| && (x.list > 0 && Committed(x.pc) ==> Promised(s, w, SubComing(s, x.dom), SubWaking(s, x.dom)))
  }

  predicate KillComing(s: State, d: nat) {
    (s.killer.KillBump? && s.killer.i <= d) || (s.killer.KillWake? && s.killer.i < d)
  }

  predicate ToldToStop(s: State, w: nat)
    requires w in s.workers
  {
    var x := s.workers[w];
    && x.dom < |s.doms|
    && (s.stop && Departing(x.pc) ==> Promised(s, w, KillComing(s, x.dom), s.killer == KillWake(x.dom)))
  }

  ghost predicate Inv(s: State) {
    && Counts(s) && StopOk(s) && Covers(s)
    && (forall k :: k in s.subs ==> k < s.nextSub)
    && (forall w {:trigger ListOk(s, w)} :: w in s.workers ==> ListOk(s, w))
    && (forall w {:trigger ToldToStop(s, w)} :: w in s.workers ==> ToldToStop(s, w))
  }

  // ---------------------------------------------------------------- how a worker gets to sleep

  /** A worker on its way to sleep keeps its mark, and blocks only on the current epoch. */
  predicate Drifts(x: Worker, x': Worker, bumps: nat, stop: bool) {
    && x'.dom == x.dom
    && (Committed(x'.pc) ==>
          if Committed(x.pc) then x'.mark == x.mark && (x'.pc.Blocked? ==> x.pc.Blocked? || x.mark == bumps)
          else x'.list == 0 && x'.pc.CheckStop?)
    && (Departing(x'.pc) ==> Departing(x.pc) || (x.pc.CheckStop? && !stop))
  }

  lemma NextDrifts(s: State, v: nat)
    requires Counts(s) && NoWrap(s) && v in s.workers && s.workers[v].dom < |s.doms|
    ensures Drifts(s.workers[v], Next(s, v), s.doms[s.workers[v].dom].bumps, s.stop)
    ensures Next(s, v).list <= s.workers[v].list
  {
    if s.workers[v].pc.Wait? { Tells(s, v); }
  }

  lemma StepDrifts(s: State, a: Act, w: nat)
    requires Counts(s) && NoWrap(s) && w in s.workers
    ensures s.workers[w].dom < |s.doms| && w in Step(s, a).workers
    ensures Drifts(s.workers[w], Step(s, a).workers[w], s.doms[s.workers[w].dom].bumps, s.stop)
    ensures a == Push(w) || Step(s, a).workers[w].list <= s.workers[w].list
  {
    assert KeyOk(s, w);
    if !a.Go? {
      PassiveStep(s, a, w);
    } else if a.w in s.workers && s.workers[a.w].dom < |s.doms| {
      if a.w == w { NextDrifts(s, w); } else { OtherWorker(s, a.w, w); }
    }
  }

  lemma StepBumps(s: State, a: Act, d: nat)
    requires d < |s.doms|
    ensures |Step(s, a).doms| == |s.doms| && Step(s, a).doms[d].bumps >= s.doms[d].bumps
  {
  }

  // ---------------------------------------------------------------- submissions

  /** What a step does to the submitters. */
  lemma StepSubs(s: State, a: Act, k: nat)
    requires k in s.subs && k != s.nextSub && a != SubGo(k)
    ensures k in Step(s, a).subs && Step(s, a).subs[k] == s.subs[k]
  {
  }

  /** A submitter's bump leaves every waiter of the domain behind, and it stays to wake the blocked ones. */
  lemma SubBumpTells(s: State, k: nat, w: nat)
    requires Counts(s) && k in s.subs && !s.subs[k].waking && w in s.workers && s.workers[w].dom == s.subs[k].dom
    requires IsWaiter(s.workers[w].pc)
    ensures var s', d := Step(s, SubGo(k)), s.subs[k].dom;
      d < |s'.doms| && s.workers[w].mark < s'.doms[d].bumps && SubWakes(s', k, d)
  {
    var d := s.subs[k].dom;
    assert KeyOk(s, w) && DomOk(s, d);
    HalvesIndependent(s.doms[d].bumps, Count(s.workers, WaiterIn(d)));
    CountAtMost(s.workers, WaiterIn(d));
    assert In(WaiterIn(d), s.workers[w]);
  }

  lemma SubWakesAll(s: State, k: nat, w: nat)
    requires Counts(s) && w in s.workers && SubWakes(s, k, s.workers[w].dom)
    ensures w in Step(s, SubGo(k)).workers && !Step(s, SubGo(k)).workers[w].pc.Blocked?
  {
  }

  lemma StepList(s: State, a: Act, w: nat)
    requires Inv(s) && NoWrap(s) && w in s.workers
    ensures w in Step(s, a).workers && ListOk(Step(s, a), w)
  {
    var s' := Step(s, a);
    assert KeyOk(s, w) && ListOk(s, w);
    StepDrifts(s, a, w);
    var x, x', d := s.workers[w], s'.workers[w], s.workers[w].dom;
    StepBumps(s, a, d);
    if x'.list > 0 && Committed(x'.pc) {
      if x.list == 0 {
        assert SubBumps(s', s.nextSub, d);
      } else if SubComing(s, d) {
        var k :| SubBumps(s, k, d);
        if a == SubGo(k) {
          SubBumpTells(s, k, w);
        } else {
          StepSubs(s, a, k);
          assert SubBumps(s', k, d);
        }
      } else if x'.pc.Blocked? {
        var k :| SubWakes(s, k, d);
        SubWakesAll(s, k, w);
        if a != SubGo(k) {
          StepSubs(s, a, k);
          assert SubWakes(s', k, d);
        }
      }
    }
  }

  // ---------------------------------------------------------------- shutdown

  lemma KillBumpTells(s: State, w: nat)
    requires Counts(s) && w in s.workers && IsWaiter(s.workers[w].pc) && s.killer == KillBump(s.workers[w].dom)
    ensures var s', d := Step(s, KillGo), s.workers[w].dom;
      d < |s'.doms| && s.workers[w].mark < s'.doms[d].bumps && s'.killer == KillWake(d)
  {
    var d := s.workers[w].dom;
    assert KeyOk(s, w) && DomOk(s, d);
    HalvesIndependent(s.doms[d].bumps, Count(s.workers, WaiterIn(d)));
    CountAtMost(s.workers, WaiterIn(d));
    assert In(WaiterIn(d), s.workers[w]);
  }

  lemma KillWakesAll(s: State, w: nat)
    requires w in s.workers
    ensures w in Step(s, KillGo).workers
    ensures s.killer == KillWake(s.workers[w].dom) ==> !Step(s, KillGo).workers[w].pc.Blocked?
  {
  }

  lemma StepTold(s: State, a: Act, w: nat)
    requires Inv(s) && NoWrap(s) && w in s.workers
    ensures w in Step(s, a).workers && ToldToStop(Step(s, a), w)
  {
    var s' := Step(s, a);
    assert KeyOk(s, w) && ToldToStop(s, w);
    StepDrifts(s, a, w);
    StepBumps(s, a, s.workers[w].dom);
    KillerMoves(s, a);
    KillWakesAll(s, w);
    if s.stop && IsWaiter(s.workers[w].pc) && s.killer == KillBump(s.workers[w].dom) { KillBumpTells(s, w); }
  }

  // ---------------------------------------------------------------- runs

  lemma StepNames(s: State, a: Act)
    requires forall k :: k in s.subs ==> k < s.nextSub
    ensures forall k :: k in Step(s, a).subs ==> k < Step(s, a).nextSub
  {
    assert Step(s, a).nextSub >= s.nextSub;
  }

  lemma StepInv(s: State, a: Act)
    requires Inv(s) && NoWrap(s)
    ensures Inv(Step(s, a))
  {
    var s' := Step(s, a);
    StepNames(s, a);
    StepCounts(s, a);
    StepStop(s, a);
    StepCovers(s, a);
    StepKeys(s, a);
    forall w | w in s'.workers ensures ListOk(s', w) { StepList(s, a, w); }
    forall w | w in s'.workers ensures ToldToStop(s', w) { StepTold(s, a, w); }
  }

  lemma InitInv(s: State)
    requires Init(s)
    ensures Inv(s)
  {
    InitCounts(s);
    forall d | 0 <= d < |s.doms| ensures Covered(s, d) {}
    forall w | w in s.workers ensures ListOk(s, w) && ToldToStop(s, w) {}
  }

  ghost function Exec(s: State, acts: seq<Act>): State
    decreases |acts|
  {
    if acts == [] then s else Exec(Step(s, acts[0]), acts[1..])
  }

  /** During the run nobody stays between prepare and wait for 2^32 notifications of its domain. */
  ghost predicate NeverWraps(s: State, acts: seq<Act>)
    decreases |acts|
  {
    NoWrap(s) && (acts != [] ==> NeverWraps(Step(s, acts[0]), acts[1..]))
  }

  ghost predicate Reachable(s: State) {
    exists s0, acts :: Init(s0) && NeverWraps(s0, acts) && s == Exec(s0, acts)
  }

  lemma {:induction false} RunInv(s: State, acts: seq<Act>)
    requires Inv(s) && NeverWraps(s, acts)
    ensures Inv(Exec(s, acts)) && NoWrap(Exec(s, acts))
    decreases |acts|
  {
    if acts != [] {
      StepInv(s, acts[0]);
      RunInv(Step(s, acts[0]), acts[1..]);
    }
  }

  lemma ReachableInv(s: State)
    requires Reachable(s)
    ensures Inv(s) && NoWrap(s)
  {
    var s0, acts :| Init(s0) && NeverWraps(s0, acts) && s == Exec(s0, acts);
    InitInv(s0);
    RunInv(s0, acts);
  }

  /**
   Before stop, with an active worker, a domain without thieves has no sleeper, or a worker that
   returns by itself, or one that must still notify it, or a notification that must still wake one.
   */
  lemma WakeInvariant(s: State, w: nat)
    requires Reachable(s) && !s.stop && s.active > 0 && w in s.workers
    requires s.workers[w].dom < |s.doms| && s.doms[s.workers[w].dom].thief == 0
    ensures var d := s.workers[w].dom;
      && (FreshIn(s, w, d) ==> Obliged(s, d))
      && (s.workers[w].pc.Blocked? ==> Obliged(s, d) || WakePending(s, d))
  {
    ReachableInv(s);
    var d := s.workers[w].dom;
    assert Covered(s, d);
    if FreshIn(s, w, d) { assert !NoneFresh(s, d); }
    if StaleIn(s, w, d) { assert !NoneStale(s, d); }
  }

  /** A worker blocked on a non-empty list has a submitter in the middle of its notify_all. */
  lemma NoLostSubmission(s: State, w: nat)
    requires Reachable(s) && w in s.workers && s.workers[w].pc.Blocked? && s.workers[w].list > 0
    ensures SubComing(s, s.workers[w].dom) || SubWaking(s, s.workers[w].dom)
  {
    ReachableInv(s);
    assert ListOk(s, w);
  }

  /** Once the destructor has notified a domain nobody there is blocked, and every wait returns. */
  lemma NoLostStop(s: State, w: nat)
    requires Reachable(s) && s.stop && w in s.workers && s.killer.KillBump? && s.killer.i > s.workers[w].dom
    ensures !s.workers[w].pc.Blocked?
    ensures s.workers[w].pc.Wait? ==> Step(s, Go(w)).workers[w].pc.Woken?
  {
    ReachableInv(s);
    assert ToldToStop(s, w) && KeyOk(s, w);
    if IsWaiter(s.workers[w].pc) { Tells(s, w); }
  }

  /** Whatever has happened, a wait blocks exactly if its domain was notified a multiple of 2^32 times meanwhile. */
  lemma BlocksExactly(s: State, w: nat)
    requires Counts(s) && w in s.workers && s.workers[w].pc.Wait?
    ensures var d := s.workers[w].dom;
      && d < |s.doms| && s.workers[w].mark <= s.doms[d].bumps
      && (Step(s, Go(w)).workers[w].pc.Blocked? <==> (s.doms[d].bumps - s.workers[w].mark) % U32 == 0)
  {
    assert KeyOk(s, w);
    var d := s.workers[w].dom;
    assert DomOk(s, d);
    HalvesIndependent(s.doms[d].bumps, Count(s.workers, WaiterIn(d)));
    KeyTells(s.workers[w].mark, s.doms[d].bumps);
  }

  /** The counters are what their names say, and the two halves of each event count are exact. */
  lemma CountersExact(s: State, d: nat)
    requires Reachable(s) && d < |s.doms|
    ensures s.doms[d].thief == Count(s.workers, ThiefIn(d)) && s.active == Count(s.workers, Active)
    ensures Waiters(s.doms[d].word) == Count(s.workers, WaiterIn(d)) && Epoch(s.doms[d].word) == s.doms[d].bumps % U32
  {
    ReachableInv(s);
    assert DomOk(s, d);
    HalvesIndependent(s.doms[d].bumps, Count(s.workers, WaiterIn(d)));
  }
}
