/** The counters of the lazy pool count what they should, in every step of every thread. */
module LazyPoolCounts {
  import opened EventCount
  import opened LazyPool

  predicate IsThief(pc: Pc) {
    match pc
    case Fetch => true case TrySteal => true case Prepare => true case Recheck => true case CancelWork => true
    case CheckStop => true case CancelStop => true case StopBump => true case StopWake => true case StopLeave => true
    case Leave => true case Drop => true
    case _ => false
  }

  predicate IsWaiter(pc: Pc) {
    match pc
    case Recheck => true case CancelWork => true case CheckStop => true case CancelStop => true case Leave => true
    case LastThief => true case CancelWake => true case Wait => true case Blocked => true case Woken => true
    case _ => false
  }

  predicate IsActive(pc: Pc) { pc.Scan? || pc.ScanBump? || pc.ScanWake? || pc.Work? }

  /** The groups of workers that the counters count. */
  datatype Group = ThiefIn(d: nat) | WaiterIn(d: nat) | Active

  predicate In(g: Group, x: Worker) {
    match g
    case ThiefIn(d) => x.dom == d && IsThief(x.pc)
    case WaiterIn(d) => x.dom == d && IsWaiter(x.pc)
    case Active => IsActive(x.pc)
  }

  function Those(ws: map<nat, Worker>, g: Group): set<nat> { set w | w in ws && In(g, ws[w]) }

  function Count(ws: map<nat, Worker>, g: Group): nat { |Those(ws, g)| }

  lemma SubsetCount(a: set<nat>, b: set<nat>)
    requires a <= b
    ensures |a| <= |b|
  {
    assert b == a + (b - a);
  }

  lemma CountAtMost(ws: map<nat, Worker>, g: Group)
    ensures Count(ws, g) <= |ws|
    ensures forall w :: w in ws && In(g, ws[w]) ==> Count(ws, g) >= 1
  {
    SubsetCount(Those(ws, g), ws.Keys);
    forall w | w in ws && In(g, ws[w]) ensures Count(ws, g) >= 1 { SubsetCount({w}, Those(ws, g)); }
  }

  function One(b: bool): nat { if b then 1 else 0 }

  lemma CountWithout(a: set<nat>, w: nat)
    ensures |a| == |a - {w}| + One(w in a)
  {
    assert a == (a - {w}) + if w in a then {w} else {};
  }

  /** One worker changes. */
  lemma CountMove(ws: map<nat, Worker>, w: nat, x: Worker, g: Group)
    requires w in ws
    ensures Count(ws[w := x], g) + One(In(g, ws[w])) == Count(ws, g) + One(In(g, x))
  {
    var ws' := ws[w := x];
    CountWithout(Those(ws, g), w);
    CountWithout(Those(ws', g), w);
    OthersSame(ws, ws', w, g);
  }

  lemma OthersSame(ws: map<nat, Worker>, ws': map<nat, Worker>, w: nat, g: Group)
    requires ws'.Keys == ws.Keys && forall v :: v in ws && v != w ==> ws'[v] == ws[v]
    ensures Those(ws', g) - {w} == Those(ws, g) - {w}
  {
  }

  // ---------------------------------------------------------------- the counters

  predicate DomOk(s: State, d: nat)
    requires d < |s.doms|
  {
    && s.doms[d].thief == Count(s.workers, ThiefIn(d))
    && Count(s.workers, WaiterIn(d)) < U32 && s.doms[d].word == Pack(s.doms[d].bumps, Count(s.workers, WaiterIn(d)))
  }

  predicate KeyOk(s: State, w: nat)
    requires w in s.workers
  {
    var x := s.workers[w];
    x.dom < |s.doms| && (IsWaiter(x.pc) ==> x.mark <= s.doms[x.dom].bumps && x.key == x.mark % U32)
  }

  ghost predicate Counts(s: State) {
    && |s.workers| < U32
    && (forall w {:trigger KeyOk(s, w)} :: w in s.workers ==> KeyOk(s, w))
    && (forall d {:trigger DomOk(s, d)} :: 0 <= d < |s.doms| ==> DomOk(s, d))
    && s.active == Count(s.workers, Active)
    && (forall k :: k in s.subs ==> s.subs[k].dom < |s.doms|)
  }

  /** No worker sleeps through 2^32 notifications. */
  ghost predicate NoWrap(s: State) {
    forall w :: w in s.workers && IsWaiter(s.workers[w].pc) && s.workers[w].dom < |s.doms| ==>
      s.doms[s.workers[w].dom].bumps - s.workers[w].mark < U32
  }

  lemma InitCounts(s: State)
    requires Init(s)
    ensures Counts(s)
  {
    forall d | 0 <= d < |s.doms| ensures DomOk(s, d) {
      assert Those(s.workers, ThiefIn(d)) == {} == Those(s.workers, WaiterIn(d));
    }
    assert Those(s.workers, Active) == {};
    forall w | w in s.workers ensures KeyOk(s, w) {}
  }

  predicate DomFits(s: State, s': State, w: nat, x: Worker, e: nat)
    requires e < |s.doms| && e < |s'.doms| && w in s.workers
  {
    && s'.doms[e].bumps >= s.doms[e].bumps
    && s'.doms[e].thief + One(In(ThiefIn(e), s.workers[w])) == s.doms[e].thief + One(In(ThiefIn(e), x))
    && var n := Count(s.workers, WaiterIn(e)) + One(In(WaiterIn(e), x)) - One(In(WaiterIn(e), s.workers[w]));
       0 <= n < U32 ==> s'.doms[e].word == Pack(s'.doms[e].bumps, n)
  }

  /** How the change of one worker and the counters fit together. */
  ghost predicate Fits(s: State, s': State, w: nat, x: Worker) {
    && w in s.workers && s'.workers == s.workers[w := x] && x.dom == s.workers[w].dom < |s.doms|
    && |s'.doms| == |s.doms| && s'.subs == s.subs
    && s'.active + One(IsActive(s.workers[w].pc)) == s.active + One(IsActive(x.pc))
    && (forall e {:trigger DomFits(s, s', w, x, e)} :: 0 <= e < |s.doms| ==> DomFits(s, s', w, x, e))
    && (IsWaiter(x.pc) ==>
          if IsWaiter(s.workers[w].pc) then x.key == s.workers[w].key && x.mark == s.workers[w].mark
          else x.mark == s.doms[x.dom].bumps && x.key == x.mark % U32)
  }

  lemma SameSize(ws: map<nat, Worker>, ws': map<nat, Worker>)
    requires ws'.Keys == ws.Keys
    ensures |ws'| == |ws|
  {
    assert |ws'.Keys| == |ws'| && |ws.Keys| == |ws|;
  }

  lemma FitsDom(s: State, s': State, w: nat, x: Worker, e: nat)
    requires Counts(s) && Fits(s, s', w, x) && e < |s.doms|
    ensures DomOk(s', e)
  {
    assert DomOk(s, e) && DomFits(s, s', w, x, e);
    CountMove(s.workers, w, x, ThiefIn(e));
    CountMove(s.workers, w, x, WaiterIn(e));
    CountAtMost(s'.workers, WaiterIn(e));
    SameSize(s.workers, s'.workers);
  }

  lemma FitsCounts(s: State, s': State, w: nat, x: Worker)
    requires Counts(s) && Fits(s, s', w, x)
    ensures Counts(s')
  {
    forall e | 0 <= e < |s'.doms| ensures DomOk(s', e) { FitsDom(s, s', w, x, e); }
    CountMove(s.workers, w, x, Active);
    forall v | v in s'.workers ensures KeyOk(s', v) {
      assert KeyOk(s, v) && DomFits(s, s', w, x, s.workers[v].dom);
    }
    SameSize(s.workers, s'.workers);
  }

  /** What a worker may rely on: the counters include it, and do not wrap. */
  lemma Included(s: State, w: nat, d: nat)
    requires Counts(s) && w in s.workers && d < |s.doms|
    ensures var x := s.workers[w];
      && x.dom < |s.doms| && s.active < U32 && s.doms[d].thief < U32 && DomOk(s, d)
      && (IsActive(x.pc) ==> s.active >= 1)
      && (IsThief(x.pc) && x.dom == d ==> s.doms[d].thief >= 1)
      && (IsWaiter(x.pc) && x.dom == d ==> Count(s.workers, WaiterIn(d)) >= 1)
  {
    assert DomOk(s, d) && KeyOk(s, w);
    CountAtMost(s.workers, ThiefIn(d));
    CountAtMost(s.workers, WaiterIn(d));
    CountAtMost(s.workers, Active);
  }

  // ---------------------------------------------------------------- steps

  /** Domain d becomes D; all others stay. */
  lemma OneDom(s: State, s': State, w: nat, x: Worker, d: nat, D: Dom)
    requires Counts(s) && w in s.workers && d < |s.doms| && s'.doms == s.doms[d := D]
    requires DomFits(s, s', w, x, d) && x.dom == d == s.workers[w].dom
    ensures forall e {:trigger DomFits(s, s', w, x, e)} :: 0 <= e < |s.doms| ==> DomFits(s, s', w, x, e)
  {
    forall e | 0 <= e < |s.doms| ensures DomFits(s, s', w, x, e) {
      if e != d { assert DomOk(s, e); }
    }
  }

  lemma ThiefCounts(s: State, w: nat, x: Worker)
    requires Counts(s) && w in s.workers && x == s.workers[w].(pc := x.pc) && x.dom < |s.doms|
    requires IsThief(x.pc) == !IsThief(s.workers[w].pc)
    requires IsWaiter(x.pc) == IsWaiter(s.workers[w].pc) && IsActive(x.pc) == IsActive(s.workers[w].pc)
    ensures var n := FetchAdd(s.doms[x.dom].thief, if IsThief(x.pc) then 1 else U64 - 1);
      Counts(SetThief(s, x.dom, n).(workers := s.workers[w := x]))
  {
    var d := x.dom;
    var n := FetchAdd(s.doms[d].thief, if IsThief(x.pc) then 1 else U64 - 1);
    var s' := SetThief(s, d, n).(workers := s.workers[w := x]);
    Included(s, w, d);
    OneDom(s, s', w, x, d, s'.doms[d]);
    FitsCounts(s, s', w, x);
  }

  lemma CancelCounts(s: State, w: nat, x: Worker)
    requires Counts(s) && w in s.workers && x == s.workers[w].(pc := x.pc) && x.dom < |s.doms|
    requires IsWaiter(s.workers[w].pc) && !IsWaiter(x.pc)
    requires IsThief(x.pc) == IsThief(s.workers[w].pc) && IsActive(x.pc) == IsActive(s.workers[w].pc)
    ensures Counts(SetWord(s, x.dom, SUB_WAITER).(workers := s.workers[w := x]))
  {
    var d := x.dom;
    var s' := SetWord(s, d, SUB_WAITER).(workers := s.workers[w := x]);
    Included(s, w, d);
    HalvesIndependent(s.doms[d].bumps, Count(s.workers, WaiterIn(d)));
    OneDom(s, s', w, x, d, s'.doms[d]);
    FitsCounts(s, s', w, x);
  }

  lemma PrepareCounts(s: State, w: nat, x: Worker)
    requires Counts(s) && w in s.workers && s.workers[w].dom < |s.doms| && s.workers[w].pc.Prepare?
    requires var D := s.doms[s.workers[w].dom]; x == s.workers[w].(pc := Recheck, key := Epoch(D.word), mark := D.bumps)
    ensures Counts(SetWord(s, x.dom, ADD_WAITER).(workers := s.workers[w := x]))
  {
    var d := x.dom;
    var s' := SetWord(s, d, ADD_WAITER).(workers := s.workers[w := x]);
    Included(s, w, d);
    HalvesIndependent(s.doms[d].bumps, Count(s.workers, WaiterIn(d)));
    OneDom(s, s', w, x, d, s'.doms[d]);
    FitsCounts(s, s', w, x);
  }

  lemma ActiveCounts(s: State, w: nat, x: Worker)
    requires Counts(s) && w in s.workers && x == s.workers[w].(pc := x.pc)
    requires IsActive(x.pc) == !IsActive(s.workers[w].pc)
    requires IsWaiter(x.pc) == IsWaiter(s.workers[w].pc) && IsThief(x.pc) == IsThief(s.workers[w].pc)
    ensures Counts(s.(workers := s.workers[w := x],
                      active := FetchAdd(s.active, if IsActive(x.pc) then 1 else U64 - 1)))
  {
    var s' := s.(workers := s.workers[w := x], active := FetchAdd(s.active, if IsActive(x.pc) then 1 else U64 - 1));
    assert KeyOk(s, w);
    Included(s, w, x.dom);
    OneDom(s, s', w, x, x.dom, s.doms[x.dom]);
    FitsCounts(s, s', w, x);
  }

  /** A step that changes no counter and keeps the worker's classes. */
  lemma PlainCounts(s: State, s': State, w: nat, x: Worker)
    requires Counts(s) && w in s.workers && s' == s.(workers := s.workers[w := x])
    requires var y := s.workers[w];
      && x.dom == y.dom && IsThief(x.pc) == IsThief(y.pc) && IsWaiter(x.pc) == IsWaiter(y.pc)
      && IsActive(x.pc) == IsActive(y.pc)
      && (IsWaiter(x.pc) ==> x.key == y.key && x.mark == y.mark)
    ensures Counts(s')
  {
    assert KeyOk(s, w);
    Included(s, w, x.dom);
    OneDom(s, s', w, x, x.dom, s.doms[x.dom]);
    FitsCounts(s, s', w, x);
  }

  predicate Cancels(pc: Pc) { pc.CancelWork? || pc.CancelStop? || pc.CancelWake? || pc.Woken? }

  predicate Plain(pc: Pc) {
    pc.Fetch? || pc.TrySteal? || pc.Recheck? || pc.CheckStop? || pc.LastThief? || pc.Wait? || pc.Scan?
    || pc.ScanBump? || pc.Blocked? || pc.NotifyWake? || pc.ScanWake? || pc.Done?
  }

  lemma GoPlain(s: State, w: nat)
    requires Counts(s) && w in s.workers && s.workers[w].dom < |s.doms|
    requires Plain(s.workers[w].pc) && Shared(s, w) == s
    ensures Counts(DoGo(s, w))
  {
    PlainCounts(s, DoGo(s, w), w, DoGo(s, w).workers[w]);
  }

  lemma GoCancel(s: State, w: nat)
    requires Counts(s) && w in s.workers && s.workers[w].dom < |s.doms| && Cancels(s.workers[w].pc)
    ensures Counts(DoGo(s, w))
  {
    CancelCounts(s, w, DoGo(s, w).workers[w]);
  }

  lemma GoThief(s: State, w: nat)
    requires Counts(s) && w in s.workers && s.workers[w].dom < |s.doms|
    requires s.workers[w].pc.Wake? || s.workers[w].pc.StopLeave? || s.workers[w].pc.Leave? || s.workers[w].pc.Drop?
    ensures Counts(DoGo(s, w))
  {
    ThiefCounts(s, w, DoGo(s, w).workers[w]);
  }

  lemma GoBump(s: State, w: nat, d: nat)
    requires Counts(s) && w in s.workers && s.workers[w].dom < |s.doms| && d < |s.doms|
    requires
      || s.workers[w].pc == ScanBump(d)
      || (d == s.workers[w].dom && (s.workers[w].pc.StopBump? || s.workers[w].pc.NotifyBump?))
    ensures Counts(DoGo(s, w))
  {
    BumpOnly(s, d);
    PlainCounts(Bump(s, d), DoGo(s, w), w, DoGo(s, w).workers[w]);
  }

  lemma GoCounts(s: State, w: nat)
    requires Counts(s) && w in s.workers && s.workers[w].dom < |s.doms|
    ensures Counts(DoGo(s, w))
  {
    var d := s.workers[w].dom;
    match s.workers[w].pc
    case Wake => GoThief(s, w);
    case StopLeave => GoThief(s, w);
    case Leave => GoThief(s, w);
    case Drop => GoThief(s, w);
    case CancelWork => GoCancel(s, w);
    case CancelStop => GoCancel(s, w);
    case CancelWake => GoCancel(s, w);
    case Woken => GoCancel(s, w);
    case Prepare => PrepareCounts(s, w, DoGo(s, w).workers[w]);
    case StopBump => GoBump(s, w, d);
    case NotifyBump => GoBump(s, w, d);
    case ScanBump(i) => if i < |s.doms| { GoBump(s, w, i); } else { GoPlain(s, w); }
    case Rise => ActiveCounts(s, w, DoGo(s, w).workers[w]);
    case Work => ActiveCounts(s, w, DoGo(s, w).workers[w]);
    case StopWake =>
      RouseCounts(s, d, s.workers.Keys);
      PlainCounts(Rouse(s, d, s.workers.Keys), DoGo(s, w), w, DoGo(s, w).workers[w]);
    case _ => GoPlain(s, w);
  }

  lemma SameGroup(ws: map<nat, Worker>, ws': map<nat, Worker>, g: Group)
    requires ws'.Keys == ws.Keys && forall w :: w in ws ==> In(g, ws'[w]) == In(g, ws[w])
    ensures Those(ws', g) == Those(ws, g)
  {
  }

  lemma RouseOne(s: State, d: nat, woken: set<nat>, g: Group)
    ensures Count(Rouse(s, d, woken).workers, g) == Count(s.workers, g)
  {
    SameGroup(s.workers, Rouse(s, d, woken).workers, g);
  }

  /** Waking workers up changes no count: they still have to deregister. */
  lemma RouseCounts(s: State, d: nat, woken: set<nat>)
    requires Counts(s)
    ensures Counts(Rouse(s, d, woken))
  {
    var s' := Rouse(s, d, woken);
    SameSize(s.workers, s'.workers);
    forall v | v in s'.workers ensures KeyOk(s', v) { assert KeyOk(s, v); }
    forall e | 0 <= e < |s'.doms| ensures DomOk(s', e) {
      assert DomOk(s, e);
      RouseOne(s, d, woken, ThiefIn(e));
      RouseOne(s, d, woken, WaiterIn(e));
    }
    RouseOne(s, d, woken, Active);
  }

  lemma BumpOnly(s: State, d: nat)
    requires Counts(s) && d < |s.doms|
    ensures Counts(Bump(s, d))
  {
    var s' := Bump(s, d);
    assert DomOk(s, d);
    HalvesIndependent(s.doms[d].bumps, Count(s.workers, WaiterIn(d)));
    forall v | v in s'.workers ensures KeyOk(s', v) { assert KeyOk(s, v); }
    forall e | 0 <= e < |s'.doms| ensures DomOk(s', e) { assert DomOk(s, e); }
  }

  /** Only the threads that hold no counter change. */
  lemma SameCounts(s: State, s': State)
    requires Counts(s) && s'.workers == s.workers && s'.doms == s.doms && s'.active == s.active
    requires forall k :: k in s'.subs ==> s'.subs[k].dom < |s.doms|
    ensures Counts(s')
  {
    forall v | v in s'.workers ensures KeyOk(s', v) { assert KeyOk(s, v); }
    forall e | 0 <= e < |s'.doms| ensures DomOk(s', e) { assert DomOk(s, e); }
  }

  lemma WakeCounts(s: State, w: nat, woken: set<nat>)
    requires Counts(s) && w in s.workers
    ensures Counts(DoWakeOne(s, w, woken))
  {
    var s' := DoWakeOne(s, w, woken);
    if s' != s {
      var d := if s.workers[w].pc.NotifyWake? then s.workers[w].dom else s.workers[w].pc.i;
      RouseCounts(s, d, woken);
      PlainCounts(Rouse(s, d, woken), s', w, s'.workers[w]);
    }
  }

  lemma PushCounts(s: State, w: nat)
    requires Counts(s) && w in s.workers
    ensures Counts(DoPush(s, w))
  {
    var s' := DoPush(s, w);
    assert KeyOk(s, w);
    PlainCounts(s, s.(workers := s'.workers), w, s'.workers[w]);
    SameCounts(s.(workers := s'.workers), s');
  }

  lemma SubCounts(s: State, k: nat)
    requires Counts(s) && k in s.subs
    ensures Counts(DoSub(s, k))
  {
    var d := s.subs[k].dom;
    RouseCounts(s, d, s.workers.Keys);
    BumpOnly(s, d);
    SameCounts(if s.subs[k].waking then Rouse(s, d, s.workers.Keys) else Bump(s, d), DoSub(s, k));
  }

  lemma KillCounts(s: State)
    requires Counts(s)
    ensures Counts(DoKill(s))
  {
    if s.killer.KillBump? && s.killer.i < |s.doms| {
      BumpOnly(s, s.killer.i);
      SameCounts(Bump(s, s.killer.i), DoKill(s));
    }
    if s.killer.KillWake? {
      RouseCounts(s, s.killer.i, s.workers.Keys);
      SameCounts(Rouse(s, s.killer.i, s.workers.Keys), DoKill(s));
    }
  }

  lemma StepCounts(s: State, a: Act)
    requires Counts(s)
    ensures Counts(Step(s, a))
  {
    match a
    case Go(w) => if w in s.workers && s.workers[w].dom < |s.doms| { GoCounts(s, w); }
    case Found(w) =>
      if w in s.workers && s.workers[w].pc.TrySteal? { PlainCounts(s, Step(s, a), w, s.workers[w].(pc := Drop)); }
    case WakeOne(w, woken) => if w in s.workers { WakeCounts(s, w, woken); }
    case Spurious(w) =>
      if w in s.workers && s.workers[w].pc.Blocked? { PlainCounts(s, Step(s, a), w, s.workers[w].(pc := Wait)); }
    case Push(w) => if w in s.workers { PushCounts(s, w); }
    case SubGo(k) => if k in s.subs { SubCounts(s, k); }
    case Kill => SameCounts(s, Step(s, a));
    case KillGo => KillCounts(s);
  }
}
