/**
 The lazy pool: workers that sleep on the event count of their domain when they find no work.  Every
 atomic access is one step.  Submitters and the destructor are threads of their own.

 Fields marked "history" are written but never read by a step.
 */
module LazyPool {
  import opened EventCount

  datatype Pc =
    // the event loop
    | Wake                // about to count itself as a thief
    | Fetch               // about to look at its submissions
    | TrySteal
    | Prepare             // about to register as a waiter
    | Recheck             // about to look at its submissions again
    | CancelWork          // found some: about to cancel the wait
    | CheckStop
    | CancelStop | StopBump | StopWake | StopLeave | Done
    | Leave               // about to stop being a thief
    | LastThief           // was the last one: about to look for active workers
    | CancelWake          // there are some: about to cancel the wait
    | Wait                // about to compare the epoch with its key
    | Blocked
    | Woken               // about to deregister as a waiter
    // thief_work_sleep
    | Drop                // about to stop being a thief
    | NotifyBump | NotifyWake
    | Rise                // about to count itself as active
    | Scan(i: nat) | ScanBump(i: nat) | ScanWake(i: nat)
    | Work

  datatype Worker = Worker(
    dom: nat, pc: Pc, list: nat,   // list: how many submissions wait in its private list
    key: nat,                      // the epoch that prepare_wait returned
    mark: nat)                     // history: how often the epoch had been bumped then

  datatype Dom = Dom(
    thief: nat, word: nat,
    bumps: nat)                    // history: how often the epoch has been bumped

  /** A thread in notify_all after a push: bumping the epoch, or waking the waiters. */
  datatype Submitter = Submitter(dom: nat, waking: bool)

  datatype Killer = Alive | KillBump(i: nat) | KillWake(i: nat)

  datatype State = State(
    workers: map<nat, Worker>, doms: seq<Dom>, active: nat, stop: bool,
    subs: map<nat, Submitter>, nextSub: nat, killer: Killer)

  datatype Act =
    | Go(w: nat)
    | Found(w: nat)                      // try_steal succeeds
    | WakeOne(w: nat, woken: set<nat>)   // notify_one wakes these
    | Spurious(w: nat)                   // a blocked thread wakes up by itself
    | Push(w: nat)
    | SubGo(k: nat)
    | Kill
    | KillGo

  ghost predicate Init(s: State) {
    && (forall w :: w in s.workers ==> s.workers[w].dom < |s.doms| && s.workers[w].pc.Wake? && s.workers[w].list == 0)
    && (forall d :: 0 <= d < |s.doms| ==> s.doms[d] == Dom(0, 0, 0))
    && s.active == 0 && !s.stop && s.subs == map[] && s.killer.Alive? && |s.workers| < U32
  }

  function To(s: State, w: nat, pc: Pc): State
    requires w in s.workers
  {
    s.(workers := s.workers[w := s.workers[w].(pc := pc)])
  }

  function SetThief(s: State, d: nat, x: nat): State
    requires d < |s.doms|
  {
    s.(doms := s.doms[d := s.doms[d].(thief := x)])
  }

  function SetWord(s: State, d: nat, x: nat): State
    requires d < |s.doms|
  {
    s.(doms := s.doms[d := s.doms[d].(word := FetchAdd(s.doms[d].word, x))])
  }

  /** The first half of notify_one and notify_all. */
  function Bump(s: State, d: nat): State
    requires d < |s.doms|
  {
    s.(doms := s.doms[d := s.doms[d].(word := FetchAdd(s.doms[d].word, ADD_EPOCH), bumps := s.doms[d].bumps + 1)])
  }

  /** Blocked workers of domain d wake up and compare the epoch again. */
  function Rouse(s: State, d: nat, woken: set<nat>): State {
    s.(workers := map w | w in s.workers ::
      if w in woken && s.workers[w].dom == d && s.workers[w].pc.Blocked? then s.workers[w].(pc := Wait)
      else s.workers[w])
  }

  /** notify_one wakes at least one thread that blocked on an older epoch, if there is one. */
  ghost predicate Eligible(s: State, w: nat, d: nat) {
    && w in s.workers && s.workers[w].dom == d && s.workers[w].pc.Blocked? && d < |s.doms|
    && s.workers[w].key != Epoch(s.doms[d].word)
  }

  ghost predicate MayWake(s: State, d: nat, woken: set<nat>) {
    (exists w :: Eligible(s, w, d)) ==> (exists w :: w in woken && Eligible(s, w, d))
  }

  /** What the next step of worker w does to the shared variables. */
  function Shared(s: State, w: nat): (r: State)
    requires w in s.workers && s.workers[w].dom < |s.doms|
    ensures r == s.(workers := r.workers, doms := r.doms, active := r.active)
    ensures |r.doms| == |s.doms| && r.workers.Keys == s.workers.Keys
    ensures forall d :: 0 <= d < |s.doms| ==> r.doms[d].bumps >= s.doms[d].bumps
  {
    var d := s.workers[w].dom;
    match s.workers[w].pc
    case Wake => SetThief(s, d, FetchAdd(s.doms[d].thief, 1))
    case Prepare => SetWord(s, d, ADD_WAITER)
    case CancelWork => SetWord(s, d, SUB_WAITER)
    case CancelStop => SetWord(s, d, SUB_WAITER)
    case StopBump => Bump(s, d)
    case StopWake => Rouse(s, d, s.workers.Keys)
    case StopLeave => SetThief(s, d, FetchAdd(s.doms[d].thief, U64 - 1))
    case Leave => SetThief(s, d, FetchAdd(s.doms[d].thief, U64 - 1))
    case CancelWake => SetWord(s, d, SUB_WAITER)
    case Woken => SetWord(s, d, SUB_WAITER)
    case Drop => SetThief(s, d, FetchAdd(s.doms[d].thief, U64 - 1))
    case NotifyBump => Bump(s, d)
    case Rise => s.(active := FetchAdd(s.active, 1))
    case ScanBump(i) => if i < |s.doms| then Bump(s, i) else s
    case Work => s.(active := FetchAdd(s.active, U64 - 1))
    case _ => s
  }

  /** What it makes of the values it read, and where it goes on. */
  function Next(s: State, w: nat): Worker
    requires w in s.workers && s.workers[w].dom < |s.doms|
  {
    var me := s.workers[w];
    var D := s.doms[me.dom];
    match me.pc
    case Wake => me.(pc := Fetch)
    case Fetch => if me.list > 0 then me.(pc := Drop, list := 0) else me.(pc := TrySteal)
    case TrySteal => me.(pc := Prepare)
    case Prepare => me.(pc := Recheck, key := Epoch(D.word), mark := D.bumps)
    case Recheck => if me.list > 0 then me.(pc := CancelWork, list := 0) else me.(pc := CheckStop)
    case CancelWork => me.(pc := Drop)
    case CheckStop => me.(pc := if s.stop then CancelStop else Leave)
    case CancelStop => me.(pc := StopBump)
    case StopBump => me.(pc := if Waiters(D.word) != 0 then StopWake else StopLeave)
    case StopWake => me.(pc := StopLeave)
    case StopLeave => me.(pc := Done)
    case Leave => me.(pc := if D.thief == 1 then LastThief else Wait)
    case LastThief => me.(pc := if s.active > 0 then CancelWake else Wait)
    case CancelWake => me.(pc := Wake)
    case Wait => me.(pc := if Epoch(D.word) != me.key then Woken else Blocked)
    case Woken => me.(pc := Wake)
    case Drop => me.(pc := if D.thief == 1 then NotifyBump else Rise)
    case NotifyBump => me.(pc := if Waiters(D.word) != 0 then NotifyWake else Rise)
    case Rise => me.(pc := if s.active == 0 then Scan(0) else Work)
    case Scan(i) => me.(pc := if i >= |s.doms| then Work else if s.doms[i].thief == 0 then ScanBump(i) else Scan(i + 1))
    case ScanBump(i) =>
      me.(pc := if i < |s.doms| && Waiters(s.doms[i].word) != 0 then ScanWake(i) else Scan(i + 1))
    case Work => me.(pc := Wake)
    case _ => me
  }

  /** The steps of worker w that need no choice. */
  function DoGo(s: State, w: nat): State
    requires w in s.workers && s.workers[w].dom < |s.doms|
  {
    var r := Shared(s, w);
    r.(workers := r.workers[w := Next(s, w)])
  }

  ghost function DoWakeOne(s: State, w: nat, woken: set<nat>): State
    requires w in s.workers
  {
    var me := s.workers[w];
    match me.pc
    case NotifyWake => if MayWake(s, me.dom, woken) then To(Rouse(s, me.dom, woken), w, Rise) else s
    case ScanWake(i) => if MayWake(s, i, woken) then To(Rouse(s, i, woken), w, Scan(i + 1)) else s
    case _ => s
  }

  /** worker_context::schedule: push, then notify_all on the worker's domain. */
  function DoPush(s: State, w: nat): State
    requires w in s.workers
  {
    s.(workers := s.workers[w := s.workers[w].(list := s.workers[w].list + 1)],
       subs := s.subs[s.nextSub := Submitter(s.workers[w].dom, false)], nextSub := s.nextSub + 1)
  }

  function DoSub(s: State, k: nat): State
    requires k in s.subs && s.subs[k].dom < |s.doms|
  {
    var d := s.subs[k].dom;
    if s.subs[k].waking then Rouse(s, d, s.workers.Keys).(subs := s.subs - {k})
    else if Waiters(s.doms[d].word) != 0 then Bump(s, d).(subs := s.subs[k := Submitter(d, true)])
    else Bump(s, d).(subs := s.subs - {k})
  }

  /** The destructor: set stop, then notify_all on every domain. */
  function DoKill(s: State): State {
    match s.killer
    case Alive => s
    case KillBump(i) =>
      if i < |s.doms| then
        Bump(s, i).(killer := if Waiters(s.doms[i].word) != 0 then KillWake(i) else KillBump(i + 1))
      else s
    case KillWake(i) => Rouse(s, i, s.workers.Keys).(killer := KillBump(i + 1))
  }

  ghost function Step(s: State, a: Act): State {
    match a
    case Go(w) => if w in s.workers && s.workers[w].dom < |s.doms| then DoGo(s, w) else s
    case Found(w) => if w in s.workers && s.workers[w].pc.TrySteal? then To(s, w, Drop) else s
    case WakeOne(w, woken) => if w in s.workers then DoWakeOne(s, w, woken) else s
    case Spurious(w) => if w in s.workers && s.workers[w].pc.Blocked? then To(s, w, Wait) else s
    case Push(w) => if w in s.workers then DoPush(s, w) else s
    case SubGo(k) => if k in s.subs && s.subs[k].dom < |s.doms| then DoSub(s, k) else s
    case Kill => if s.killer.Alive? then s.(stop := true, killer := KillBump(0)) else s
    case KillGo => DoKill(s)
  }
}
