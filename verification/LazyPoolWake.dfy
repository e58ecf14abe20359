/**
 The wake invariant of the lazy pool, made inductive: in-flight notifications and woken workers that
 have not been counted yet stand in for thieves.
 */
module LazyPoolWake {
  import opened EventCount
  import opened LazyPool
  import opened LazyPoolCounts

  /** Committed to sleep on the current epoch. */
  predicate FreshIn(s: State, w: nat, d: nat)
    requires d < |s.doms|
  {
    w in s.workers && s.workers[w].dom == d && (s.workers[w].pc.Wait? || s.workers[w].pc.Blocked?)
    && s.workers[w].mark == s.doms[d].bumps
  }

  /** Blocked on an older epoch. */
  predicate StaleIn(s: State, w: nat, d: nat)
    requires d < |s.doms|
  {
    w in s.workers && s.workers[w].dom == d && s.workers[w].pc.Blocked? && s.workers[w].mark != s.doms[d].bumps
  }

  /** Re-enters the domain as a thief without anybody's help. */
  predicate Returns(s: State, w: nat, d: nat)
    requires d < |s.doms|
  {
    && w in s.workers && s.workers[w].dom == d
    && match s.workers[w].pc
       case Wake => true
       case LastThief => true
       case CancelWake => true
       case Woken => true
       case Wait => s.workers[w].mark != s.doms[d].bumps
       case _ => false
  }

  /** Must still look at the domain and bump its epoch if it has no thief. */
  predicate Notifies(s: State, w: nat, d: nat) {
    && w in s.workers
    && match s.workers[w].pc
       case NotifyBump => s.workers[w].dom == d
       case Scan(i) => i <= d
       case ScanBump(i) => i <= d
       case ScanWake(i) => i < d
       case _ => false
  }

  predicate Obliges(s: State, w: nat, d: nat)
    requires d < |s.doms|
  {
    Returns(s, w, d) || Notifies(s, w, d)
  }

  /** Has bumped the epoch and must still wake a waiter. */
  predicate Wakes(s: State, w: nat, d: nat) {
    w in s.workers && ((s.workers[w].pc.NotifyWake? && s.workers[w].dom == d) || s.workers[w].pc == ScanWake(d))
  }

  predicate SubWakes(s: State, k: nat, d: nat) { k in s.subs && s.subs[k] == Submitter(d, true) }

  ghost predicate WakePending(s: State, d: nat) {
    (exists w :: Wakes(s, w, d)) || (exists k :: SubWakes(s, k, d))
  }

  ghost predicate Obliged(s: State, d: nat)
    requires d < |s.doms|
  {
    exists w :: Obliges(s, w, d)
  }

  ghost predicate NoneFresh(s: State, d: nat)
    requires d < |s.doms|
  {
    forall w :: !FreshIn(s, w, d)
  }

  ghost predicate NoneStale(s: State, d: nat)
    requires d < |s.doms|
  {
    forall w :: !StaleIn(s, w, d)
  }

  /** With an active worker a domain has a thief, or no sleeper, or a sleeper's wake-up is under way. */
  ghost predicate Covered(s: State, d: nat)
    requires d < |s.doms|
  {
    s.stop || s.active == 0 || s.doms[d].thief > 0 || Obliged(s, d)
    || (NoneFresh(s, d) && (NoneStale(s, d) || WakePending(s, d)))
  }

  predicate Stopping(pc: Pc) { pc.CancelStop? || pc.StopBump? || pc.StopWake? || pc.StopLeave? || pc.Done? }

  /** Nobody leaves for good before stop is set. */
  ghost predicate StopOk(s: State) {
    && (s.stop <==> !s.killer.Alive?)
    && forall w :: w in s.workers && Stopping(s.workers[w].pc) ==> s.stop
  }

  ghost predicate Covers(s: State) {
    forall d {:trigger Covered(s, d)} :: 0 <= d < |s.doms| ==> Covered(s, d)
  }

  // ---------------------------------------------------------------- one worker moves

  /** What keeps domain d covered when worker v alone changes. */
  lemma Keep(s: State, s': State, v: nat, x: Worker, d: nat)
    requires d < |s.doms| == |s'.doms| && Covered(s, d) && v in s.workers
    requires s'.workers == s.workers[v := x] && s'.subs == s.subs && s'.stop == s.stop
    requires s'.doms[d].bumps == s.doms[d].bumps
    requires s.active == 0 ==> s'.active == 0
    requires s.doms[d].thief > 0 ==> s'.doms[d].thief > 0
    requires Obliges(s, v, d) ==> Obliges(s', v, d)
    requires FreshIn(s', v, d) ==> FreshIn(s, v, d)
    requires StaleIn(s', v, d) ==> StaleIn(s, v, d)
    requires Wakes(s, v, d) ==> Wakes(s', v, d)
    ensures Covered(s', d)
  {
    if Obliged(s, d) {
      var w :| Obliges(s, w, d);
      assert Obliges(s', w, d);
    }
    if NoneFresh(s, d) {
      forall w ensures !FreshIn(s', w, d) { assert !FreshIn(s, w, d); }
      if NoneStale(s, d) {
        forall w ensures !StaleIn(s', w, d) { assert !StaleIn(s, w, d); }
      }
    }
    if WakePending(s, d) {
      if w :| Wakes(s, w, d) {
        assert Wakes(s', w, d);
      } else {
        var k :| SubWakes(s, k, d);
        assert SubWakes(s', k, d);
      }
    }
  }

  /** After a bump nobody is fresh; without waiters nobody sleeps. */
  lemma Bumped(s: State, s': State, d: nat)
    requires Counts(s) && d < |s.doms| == |s'.doms| && s'.doms[d].bumps == s.doms[d].bumps + 1
    requires s'.workers.Keys == s.workers.Keys
    requires forall w :: w in s'.workers && (s'.workers[w].pc.Wait? || s'.workers[w].pc.Blocked?) ==>
      s'.workers[w] == s.workers[w]
    requires Waiters(s.doms[d].word) != 0 ==> WakePending(s', d)
    ensures Covered(s', d)
  {
    forall w ensures !FreshIn(s', w, d) {
      if w in s.workers { assert KeyOk(s, w); }
    }
    if Waiters(s.doms[d].word) == 0 {
      assert DomOk(s, d);
      HalvesIndependent(s.doms[d].bumps, Count(s.workers, WaiterIn(d)));
      CountAtMost(s.workers, WaiterIn(d));
      forall w ensures !StaleIn(s', w, d) {
        if w in s.workers {
          assert In(WaiterIn(d), s.workers[w]) == (s.workers[w].dom == d && IsWaiter(s.workers[w].pc));
        }
      }
    }
  }

  // ---------------------------------------------------------------- steps of a worker

  /** The steps that neither notify nor sleep. */
  predicate Quiet(pc: Pc) {
    pc.Fetch? || pc.TrySteal? || pc.Prepare? || pc.Recheck? || pc.CancelWork? || pc.CheckStop?
    || pc.CancelWake? || pc.Woken? || pc.Blocked? || pc.NotifyWake? || pc.ScanWake?
  }

  lemma QuietCovered(s: State, w: nat, d: nat)
    requires w in s.workers && s.workers[w].dom < |s.doms| && d < |s.doms| && Covered(s, d) && Quiet(s.workers[w].pc)
    ensures Covered(DoGo(s, w), d)
  {
    Keep(s, DoGo(s, w), w, DoGo(s, w).workers[w], d);
  }

  /** Joining or leaving the thieves. */
  lemma ThiefCovered(s: State, w: nat, d: nat)
    requires Counts(s) && w in s.workers && s.workers[w].dom < |s.doms| && d < |s.doms| && Covered(s, d)
    requires s.workers[w].pc.Wake? || s.workers[w].pc.Leave? || s.workers[w].pc.Drop?
    ensures Covered(DoGo(s, w), d)
  {
    var s' := DoGo(s, w);
    Included(s, w, s.workers[w].dom);
    if d != s.workers[w].dom {
      Keep(s, s', w, s'.workers[w], d);
    } else if s'.doms[d].thief == 0 {
      assert Obliges(s', w, d);
    }
  }

  lemma LastThiefCovered(s: State, w: nat, d: nat)
    requires w in s.workers && s.workers[w].dom < |s.doms| && d < |s.doms|
    requires Covered(s, d) && s.workers[w].pc.LastThief?
    ensures Covered(DoGo(s, w), d)
  {
    var s' := DoGo(s, w);
    if s.active > 0 { Keep(s, s', w, s'.workers[w], d); }
  }

  /** Only a worker whose key is the current epoch blocks. */
  lemma WaitCovered(s: State, w: nat, d: nat)
    requires Counts(s) && NoWrap(s) && w in s.workers && d < |s.doms| && Covered(s, d) && s.workers[w].pc.Wait?
    ensures s.workers[w].dom < |s.doms| && Covered(DoGo(s, w), d)
  {
    assert KeyOk(s, w);
    Tells(s, w);
    Keep(s, DoGo(s, w), w, DoGo(s, w).workers[w], d);
  }

  /** Without wrap-around the epoch tells whether it has been bumped. */
  lemma Tells(s: State, w: nat)
    requires Counts(s) && NoWrap(s) && w in s.workers && IsWaiter(s.workers[w].pc)
    ensures var d := s.workers[w].dom;
      d < |s.doms| && (Epoch(s.doms[d].word) == s.workers[w].key <==> s.doms[d].bumps == s.workers[w].mark)
  {
    assert KeyOk(s, w);
    var d := s.workers[w].dom;
    assert DomOk(s, d);
    HalvesIndependent(s.doms[d].bumps, Count(s.workers, WaiterIn(d)));
    KeyTells(s.workers[w].mark, s.doms[d].bumps);
  }

  lemma NotifyCovered(s: State, w: nat, d: nat)
    requires Counts(s) && w in s.workers && s.workers[w].dom < |s.doms| && d < |s.doms| && Covered(s, d)
    requires s.workers[w].pc.NotifyBump?
    ensures Covered(DoGo(s, w), d)
  {
    var s' := DoGo(s, w);
    if d != s.workers[w].dom {
      Keep(s, s', w, s'.workers[w], d);
    } else {
      if Waiters(s.doms[d].word) != 0 { assert Wakes(s', w, d); }
      Bumped(s, s', d);
    }
  }

  lemma ActiveCovered(s: State, w: nat, d: nat)
    requires Counts(s) && w in s.workers && s.workers[w].dom < |s.doms| && d < |s.doms| && Covered(s, d)
    requires s.workers[w].pc.Rise? || s.workers[w].pc.Work?
    ensures Covered(DoGo(s, w), d)
  {
    var s' := DoGo(s, w);
    Included(s, w, d);
    if s.active == 0 {
      assert Obliges(s', w, d);
    } else {
      Keep(s, s', w, s'.workers[w], d);
    }
  }

  lemma ScanCovered(s: State, w: nat, d: nat)
    requires w in s.workers && s.workers[w].dom < |s.doms| && d < |s.doms| && Covered(s, d) && s.workers[w].pc.Scan?
    ensures Covered(DoGo(s, w), d)
  {
    var s' := DoGo(s, w);
    if s.doms[d].thief == 0 { Keep(s, s', w, s'.workers[w], d); }
  }

  lemma ScanBumpCovered(s: State, w: nat, d: nat)
    requires Counts(s) && w in s.workers && s.workers[w].dom < |s.doms| && d < |s.doms| && Covered(s, d)
    requires s.workers[w].pc.ScanBump?
    ensures Covered(DoGo(s, w), d)
  {
    var s', i := DoGo(s, w), s.workers[w].pc.i;
    if i != d {
      Keep(s, s', w, s'.workers[w], d);
    } else {
      if Waiters(s.doms[d].word) != 0 { assert Wakes(s', w, d); }
      Bumped(s, s', d);
    }
  }

  lemma GoCovered(s: State, w: nat, d: nat)
    requires Counts(s) && NoWrap(s) && StopOk(s) && w in s.workers
    requires s.workers[w].dom < |s.doms| && d < |s.doms| && Covered(s, d)
    ensures Covered(DoGo(s, w), d)
  {
    match s.workers[w].pc
    case Wake => ThiefCovered(s, w, d);
    case Leave => ThiefCovered(s, w, d);
    case Drop => ThiefCovered(s, w, d);
    case LastThief => LastThiefCovered(s, w, d);
    case Wait => WaitCovered(s, w, d);
    case NotifyBump => NotifyCovered(s, w, d);
    case Rise => ActiveCovered(s, w, d);
    case Work => ActiveCovered(s, w, d);
    case Scan(_) => ScanCovered(s, w, d);
    case ScanBump(_) => ScanBumpCovered(s, w, d);
    case CancelStop =>
    case StopBump =>
    case StopWake =>
    case StopLeave =>
    case Done =>
    case _ => QuietCovered(s, w, d);
  }

  // ---------------------------------------------------------------- waking

  /** Waking blocked workers only turns stale ones into returning ones. */
  lemma Roused(s: State, s': State, d: nat, e: nat, woken: set<nat>)
    requires d < |s.doms| && Covered(s, d) && s' == Rouse(s, e, woken)
    ensures Covered(s', d)
  {
    if Obliged(s, d) {
      var w :| Obliges(s, w, d);
      assert Obliges(s', w, d);
    }
    if NoneFresh(s, d) {
      forall w ensures !FreshIn(s', w, d) { assert !FreshIn(s, w, d); }
      if NoneStale(s, d) {
        forall w ensures !StaleIn(s', w, d) { assert !StaleIn(s, w, d); }
      }
    }
    if WakePending(s, d) {
      if w :| Wakes(s, w, d) {
        assert Wakes(s', w, d);
      } else {
        var k :| SubWakes(s, k, d);
        assert SubWakes(s', k, d);
      }
    }
  }

  /** A wake-up reaches a stale worker of the domain if there is one. */
  lemma WakeReaches(s: State, d: nat, woken: set<nat>)
    requires Counts(s) && NoWrap(s) && d < |s.doms| && MayWake(s, d, woken) && !NoneStale(s, d)
    ensures Obliged(Rouse(s, d, woken), d)
  {
    var w :| StaleIn(s, w, d);
    Tells(s, w);
    assert Eligible(s, w, d);
    var u :| u in woken && Eligible(s, u, d);
    Tells(s, u);
    assert Obliges(Rouse(s, d, woken), u, d);
  }

  lemma RouseNoneStale(s: State, d: nat, e: nat, woken: set<nat>)
    requires d < |s.doms| && NoneStale(s, d)
    ensures NoneStale(Rouse(s, e, woken), d)
  {
    forall w ensures !StaleIn(Rouse(s, e, woken), w, d) { assert !StaleIn(s, w, d); }
  }

  /** The waker w moves on after its wake-up. */
  lemma AfterWake(s: State, s': State, w: nat, pc: Pc, d: nat)
    requires d < |s.doms| && w in s.workers && Covered(s, d) && s' == To(s, w, pc) && (pc.Rise? || pc.Scan?)
    requires s.workers[w].pc.NotifyWake? || s.workers[w].pc.ScanWake?
    requires Wakes(s, w, d) ==> NoneStale(s, d) || Obliged(s, d)
    requires s.workers[w].pc.ScanWake? ==> pc == Scan(s.workers[w].pc.i + 1)
    ensures Covered(s', d)
  {
    if !Wakes(s, w, d) {
      Keep(s, s', w, s'.workers[w], d);
    } else if Obliged(s, d) {
      var u :| Obliges(s, u, d);
      assert u != w && Obliges(s', u, d);
    } else if NoneFresh(s, d) {
      forall u ensures !FreshIn(s', u, d) { assert !FreshIn(s, u, d); }
      forall u ensures !StaleIn(s', u, d) { assert !StaleIn(s, u, d); }
    }
  }

  lemma WakeCovered(s: State, w: nat, woken: set<nat>, d: nat)
    requires Counts(s) && NoWrap(s) && w in s.workers && d < |s.doms| && Covered(s, d)
    ensures Covered(DoWakeOne(s, w, woken), d)
  {
    var s' := DoWakeOne(s, w, woken);
    if s' != s {
      var pc := s.workers[w].pc;
      var e := if pc.NotifyWake? then s.workers[w].dom else pc.i;
      var r := Rouse(s, e, woken);
      Roused(s, r, d, e, woken);
      if e == d {
        if NoneStale(s, d) { RouseNoneStale(s, d, e, woken); } else { WakeReaches(s, d, woken); }
      }
      AfterWake(r, s', w, if pc.NotifyWake? then Rise else Scan(pc.i + 1), d);
    }
  }

  // ---------------------------------------------------------------- submitters and the destructor

  lemma SpuriousCovered(s: State, w: nat, d: nat)
    requires w in s.workers && s.workers[w].pc.Blocked? && d < |s.doms| && Covered(s, d)
    ensures Covered(To(s, w, Wait), d)
  {
    Keep(s, To(s, w, Wait), w, s.workers[w].(pc := Wait), d);
  }

  lemma PushCovered(s: State, w: nat, d: nat)
    requires w in s.workers && d < |s.doms| && Covered(s, d) && s.nextSub !in s.subs
    ensures Covered(DoPush(s, w), d)
  {
    var s' := DoPush(s, w);
    var r := s.(workers := s'.workers);
    Keep(s, r, w, r.workers[w], d);
    MoreSubs(r, s', d);
  }

  /** Threads that are not workers matter only as pending wake-ups. */
  lemma MoreSubs(s: State, s': State, d: nat)
    requires d < |s.doms| == |s'.doms| && Covered(s, d) && s'.workers == s.workers && s'.doms[d] == s.doms[d]
    requires s'.active == s.active && s'.stop == s.stop && forall k :: SubWakes(s, k, d) ==> SubWakes(s', k, d)
    ensures Covered(s', d)
  {
    if Obliged(s, d) {
      var w :| Obliges(s, w, d);
      assert Obliges(s', w, d);
    }
    if NoneFresh(s, d) {
      forall w ensures !FreshIn(s', w, d) { assert !FreshIn(s, w, d); }
      if NoneStale(s, d) {
        forall w ensures !StaleIn(s', w, d) { assert !StaleIn(s, w, d); }
      }
    }
    if w :| Wakes(s, w, d) { assert Wakes(s', w, d); }
  }

  lemma SubCovered(s: State, k: nat, d: nat)
    requires Counts(s) && k in s.subs && d < |s.doms| && Covered(s, d)
    ensures Covered(DoSub(s, k), d)
  {
    var s', e := DoSub(s, k), s.subs[k].dom;
    if s.subs[k].waking {
      var r := Rouse(s, e, s.workers.Keys);
      Roused(s, r, d, e, s.workers.Keys);
      if e != d {
        MoreSubs(r, s', d);
      } else {
        forall w ensures !StaleIn(s', w, d) {}
        if Obliged(r, d) {
          var w :| Obliges(r, w, d);
          assert Obliges(s', w, d);
        } else if NoneFresh(r, d) {
          forall w ensures !FreshIn(s', w, d) { assert !FreshIn(r, w, d); }
        }
      }
    } else if e != d {
      MoreSubs(s, s', d);
    } else {
      if Waiters(s.doms[d].word) != 0 { assert SubWakes(s', k, d); }
      Bumped(s, s', d);
    }
  }

  lemma FoundCovered(s: State, w: nat, d: nat)
    requires w in s.workers && s.workers[w].pc.TrySteal? && d < |s.doms| && Covered(s, d)
    ensures Covered(To(s, w, Drop), d)
  {
    Keep(s, To(s, w, Drop), w, s.workers[w].(pc := Drop), d);
  }

  lemma WorkerCovered(s: State, a: Act, d: nat)
    requires Counts(s) && NoWrap(s) && StopOk(s) && d < |s.doms| && Covered(s, d)
    requires a.Go? || a.Found? || a.WakeOne? || a.Spurious?
    ensures |Step(s, a).doms| == |s.doms| && Covered(Step(s, a), d)
  {
    match a
    case Go(w) => if w in s.workers && s.workers[w].dom < |s.doms| { GoCovered(s, w, d); }
    case Found(w) => if w in s.workers && s.workers[w].pc.TrySteal? { FoundCovered(s, w, d); }
    case WakeOne(w, woken) => if w in s.workers { WakeCovered(s, w, woken, d); }
    case Spurious(w) => if w in s.workers && s.workers[w].pc.Blocked? { SpuriousCovered(s, w, d); }
  }

  lemma OutsiderCovered(s: State, a: Act, d: nat)
    requires Counts(s) && StopOk(s) && d < |s.doms| && Covered(s, d) && s.nextSub !in s.subs
    requires a.Push? || a.SubGo? || a.Kill? || a.KillGo?
    ensures |Step(s, a).doms| == |s.doms| && Covered(Step(s, a), d)
  {
    match a
    case Push(w) => if w in s.workers { PushCovered(s, w, d); }
    case SubGo(k) => if k in s.subs { SubCovered(s, k, d); }
    case Kill =>
    case KillGo =>
  }

  lemma StepDoms(s: State, a: Act)
    ensures |Step(s, a).doms| == |s.doms|
  {
  }

  lemma StepCovers(s: State, a: Act)
    requires Counts(s) && NoWrap(s) && StopOk(s) && Covers(s) && s.nextSub !in s.subs
    ensures Covers(Step(s, a))
  {
    StepDoms(s, a);
    forall d | 0 <= d < |s.doms| ensures Covered(Step(s, a), d) {
      assert Covered(s, d);
      if a.Go? || a.Found? || a.WakeOne? || a.Spurious? { WorkerCovered(s, a, d); } else { OutsiderCovered(s, a, d); }
    }
  }

  // ---------------------------------------------------------------- stop

  /** The only thing that other threads do to a worker is to wake it. */
  lemma OtherWorker(s: State, v: nat, w: nat)
    requires v in s.workers && w in s.workers && s.workers[v].dom < |s.doms| && v != w
    ensures var x, x' := s.workers[w], DoGo(s, v).workers[w]; x' == x || (x.pc.Blocked? && x' == x.(pc := Wait))
  {
  }

  /** Moves on with something other than going to sleep. */
  predicate MovesOn(x: Worker, x': Worker) {
    x' == x.(pc := x'.pc) && (x'.pc.Drop? || x'.pc.Rise? || x'.pc.Scan?)
  }

  lemma PassiveStep(s: State, a: Act, w: nat)
    requires w in s.workers && !a.Go?
    ensures w in Step(s, a).workers
    ensures var x, x' := s.workers[w], Step(s, a).workers[w];
      || x' == x || (x.pc.Blocked? && x' == x.(pc := Wait)) || MovesOn(x, x')
      || (a == Push(w) && x' == x.(list := x.list + 1))
  {
  }

  lemma NextStop(s: State, w: nat)
    requires w in s.workers && s.workers[w].dom < |s.doms|
    ensures Stopping(Next(s, w).pc) ==> Stopping(s.workers[w].pc) || s.stop
  {
  }

  lemma GoStop(s: State, w: nat)
    requires StopOk(s) && w in s.workers && s.workers[w].dom < |s.doms|
    ensures StopOk(DoGo(s, w))
  {
    var s' := DoGo(s, w);
    NextStop(s, w);
    forall v | v in s'.workers && Stopping(s'.workers[v].pc) ensures s.stop {
      if v != w { OtherWorker(s, w, v); }
    }
  }

  lemma StepStop(s: State, a: Act)
    requires StopOk(s)
    ensures StopOk(Step(s, a))
  {
    var s' := Step(s, a);
    if a.Go? {
      if a.w in s.workers && s.workers[a.w].dom < |s.doms| { GoStop(s, a.w); }
    } else {
      StepKeys(s, a);
      KillerMoves(s, a);
      forall v | v in s'.workers && Stopping(s'.workers[v].pc) ensures s'.stop { PassiveStep(s, a, v); }
    }
  }

  lemma StepKeys(s: State, a: Act)
    ensures Step(s, a).workers.Keys == s.workers.Keys
  {
  }

  lemma KillerMoves(s: State, a: Act)
    requires StopOk(s)
    ensures var s' := Step(s, a);
      && (a != Kill && a != KillGo ==> s'.killer == s.killer && s'.stop == s.stop)
      && (a == Kill ==> s'.stop && (if s.stop then s'.killer == s.killer else s'.killer == KillBump(0)))
      && (a == KillGo ==> s'.stop == s.stop)
  {
  }
}
