/** What becomes of the work in a lazy pool: batches are handed over whole, run, and every submission can be reached. */
module LazyPoolWork {
  import opened EventCount
  import opened LazyPool
  import opened LazyPoolCounts
  import opened LazyPoolWake
  import opened LazyPoolSafety

  // ---------------------------------------------------------------- batches

  /** From the moment it holds a batch or a stolen task to the end of running it. */
  predicate OnTrack(pc: Pc) {
    match pc
    case CancelWork => true
    case Drop => true
    case NotifyBump => true
    case NotifyWake => true
    case Rise => true
    case Scan(_) => true
    case ScanBump(_) => true
    case ScanWake(_) => true
    case Work => true
    case _ => false
  }

  lemma Stays(s: State, a: Act, w: nat)
    requires w in s.workers
    ensures w in Step(s, a).workers && Step(s, a).workers[w].dom == s.workers[w].dom
    ensures |Step(s, a).doms| == |s.doms|
  {
  }

  /** The submissions that a step takes from w's list into a batch to run. */
  ghost function Handed(s: State, a: Act, w: nat): nat
    requires w in s.workers
  {
    Stays(s, a, w);
    if a == Go(w) && !OnTrack(s.workers[w].pc) && OnTrack(Step(s, a).workers[w].pc) then s.workers[w].list else 0
  }

  function Pushed(a: Act, w: nat): nat { if a == Push(w) then 1 else 0 }

  lemma OwnHands(s: State, w: nat)
    requires w in s.workers && s.workers[w].dom < |s.doms|
    ensures var x, x' := s.workers[w], Next(s, w);
      && (x'.list < x.list ==> x'.list == 0 && (x'.pc == Drop || x'.pc == CancelWork))
      && x'.list + (if !OnTrack(x.pc) && OnTrack(x'.pc) then x.list else 0) == x.list
      && (OnTrack(x.pc) && !x.pc.Work? ==> OnTrack(x'.pc))
      && (x.pc.CancelWork? ==> x'.pc.Drop?)
      && (x.pc.Work? ==> x'.pc.Wake?)
  {
  }

  predicate Left(x: Worker, x': Worker) {
    x'.list == x.list && (x'.pc == x.pc || (x.pc.Blocked? && x'.pc.Wait?))
  }

  lemma OtherGoes(s: State, v: nat, w: nat)
    requires w in s.workers && v != w
    ensures w in Step(s, Go(v)).workers && Left(s.workers[w], Step(s, Go(v)).workers[w])
  {
  }

  lemma WakerLeaves(s: State, v: nat, woken: set<nat>, w: nat)
    requires w in s.workers
    ensures var s' := Step(s, WakeOne(v, woken));
      && w in s'.workers && s'.workers[w].list == s.workers[w].list
      && (Left(s.workers[w], s'.workers[w])
          || (OnTrack(s.workers[w].pc) && !s.workers[w].pc.Work? && OnTrack(s'.workers[w].pc)))
      && (s.workers[w].pc.CancelWork? ==> s'.workers[w].pc == s.workers[w].pc)
  {
  }

  lemma OutsideLeaves(s: State, a: Act, w: nat)
    requires w in s.workers && !a.Go? && !a.WakeOne? && a != Found(w)
    ensures var s' := Step(s, a);
      && w in s'.workers && s'.workers[w].list == s.workers[w].list + Pushed(a, w)
      && (s'.workers[w].pc == s.workers[w].pc || (s.workers[w].pc.Blocked? && s'.workers[w].pc.Wait?))
  {
  }

  /**
   A list shrinks only when the whole of it becomes the batch of its worker, which then cannot leave the way
   to running it.
   */
  lemma BatchIsTaken(s: State, a: Act, w: nat)
    requires w in s.workers
    ensures w in Step(s, a).workers
    ensures var x, x' := s.workers[w], Step(s, a).workers[w];
      && (x'.list < x.list ==> x'.list == 0 && (x'.pc == Drop || x'.pc == CancelWork))
      && x'.list + Handed(s, a, w) == x.list + Pushed(a, w)
      && (OnTrack(x.pc) && x'.pc != x.pc ==> if x.pc.Work? then x'.pc.Wake? else OnTrack(x'.pc))
      && (x.pc.CancelWork? && x'.pc != x.pc ==> x'.pc.Drop?)
  {
    if a == Go(w) {
      if s.workers[w].dom < |s.doms| { OwnHands(s, w); }
    } else if a.Go? {
      OtherGoes(s, a.w, w);
    } else if a.WakeOne? {
      WakerLeaves(s, a.w, a.woken, w);
    } else if a != Found(w) {
      OutsideLeaves(s, a, w);
    }
  }

  ghost function Pushes(acts: seq<Act>, w: nat): nat {
    if acts == [] then 0 else Pushed(acts[0], w) + Pushes(acts[1..], w)
  }

  ghost function HandedIn(s: State, acts: seq<Act>, w: nat): nat
    requires w in s.workers
    decreases |acts|
  {
    Stays(s, if acts == [] then Kill else acts[0], w);
    if acts == [] then 0 else Handed(s, acts[0], w) + HandedIn(Step(s, acts[0]), acts[1..], w)
  }

  /** How often w gets hold of a batch or a stolen task. */
  ghost function Starts(s: State, acts: seq<Act>, w: nat): nat
    requires w in s.workers
    decreases |acts|
  {
    Stays(s, if acts == [] then Kill else acts[0], w);
    if acts == [] then 0
    else
      One(!OnTrack(s.workers[w].pc) && OnTrack(Step(s, acts[0]).workers[w].pc)) + Starts(Step(s, acts[0]), acts[1..], w)
  }

  /** How often w has run one. */
  ghost function Finishes(s: State, acts: seq<Act>, w: nat): nat
    requires w in s.workers
    decreases |acts|
  {
    Stays(s, if acts == [] then Kill else acts[0], w);
    if acts == [] then 0
    else
      One(s.workers[w].pc.Work? && !Step(s, acts[0]).workers[w].pc.Work?) + Finishes(Step(s, acts[0]), acts[1..], w)
  }

  /**
   In every run what was pushed to a worker is still listed or was handed over to be run, and the worker has
   run everything it got hold of but what it is at.
   */
  lemma {:induction false} NothingIsDropped(s: State, acts: seq<Act>, w: nat)
    requires w in s.workers
    ensures w in Exec(s, acts).workers
    ensures Exec(s, acts).workers[w].list + HandedIn(s, acts, w) == s.workers[w].list + Pushes(acts, w)
    ensures Finishes(s, acts, w) + One(OnTrack(Exec(s, acts).workers[w].pc))
         == One(OnTrack(s.workers[w].pc)) + Starts(s, acts, w)
    decreases |acts|
  {
    if acts != [] {
      BatchIsTaken(s, acts[0], w);
      NothingIsDropped(Step(s, acts[0]), acts[1..], w);
    }
  }

  // ---------------------------------------------------------------- a worker by itself

  /** The next step of worker w; where notify_one has a choice it wakes everybody. */
  ghost function OwnAct(s: State, w: nat): Act
    requires w in s.workers
  {
    if s.workers[w].pc.NotifyWake? || s.workers[w].pc.ScanWake? then WakeOne(w, s.workers.Keys) else Go(w)
  }

  /** Own steps to the work in hand. */
  function TrackLeft(n: nat, pc: Pc): nat {
    match pc
    case Scan(i) => if i < n then 3 * (n - i) + 1 else 1
    case ScanBump(i) => if i < n then 3 * (n - i) else 3
    case ScanWake(i) => if i < n then 3 * (n - i) - 1 else 2
    case Rise => 3 * n + 2
    case NotifyWake => 3 * n + 3
    case NotifyBump => 3 * n + 4
    case Drop => 3 * n + 5
    case CancelWork => 3 * n + 6
    case _ => 0
  }

  /** Own steps until its submissions are a batch at work. */
  function WorkLeft(n: nat, x: Worker): nat {
    if x.list == 0 then TrackLeft(n, x.pc)
    else
      3 * n + 7 + match x.pc
      case Fetch => 0
      case Recheck => 0
      case Wake => 1
      case Prepare => 1
      case Woken => 2
      case CancelWake => 2
      case TrySteal => 2
      case Wait => 3
      case LastThief => 4
      case Leave => 5
      case CheckStop => 6
      case pc => 2 + TrackLeft(n, pc)
  }

  /** Own steps until it has left the event loop, once stop is set. */
  function ExitLeft(n: nat, x: Worker): nat {
    (if x.list > 0 && !x.pc.Done? then 3 * n + 30 else 0) +
    match x.pc
    case Done => 0
    case StopLeave => 1
    case StopWake => 2
    case StopBump => 3
    case CancelStop => 4
    case CheckStop => 5
    case Recheck => 6
    case Prepare => 7
    case TrySteal => 8
    case Fetch => 9
    case Wake => 10
    case Woken => 11
    case CancelWake => 11
    case Wait => 12
    case LastThief => 13
    case Leave => 14
    case pc => 11 + TrackLeft(n, pc)
  }

  /** It need not block: it is not about to compare its key with an equal epoch. */
  predicate Free(s: State, w: nat) {
    && w in s.workers && s.workers[w].dom < |s.doms| && !s.workers[w].pc.Blocked?
    && (Committed(s.workers[w].pc) ==> Epoch(s.doms[s.workers[w].dom].word) != s.workers[w].key)
  }

  /** The same once stop is set: a worker that has yet to look at stop will not sleep at all. */
  predicate FreeToExit(s: State, w: nat) {
    && w in s.workers && s.workers[w].dom < |s.doms| && !s.workers[w].pc.Blocked? && s.stop
    && (Departing(s.workers[w].pc) ==> Epoch(s.doms[s.workers[w].dom].word) != s.workers[w].key)
  }

  predicate Unserved(s: State, w: nat)
    requires w in s.workers
  {
    && !s.stop && !Stopping(s.workers[w].pc)
    && if s.workers[w].list == 0 then OnTrack(s.workers[w].pc) && !s.workers[w].pc.Work? else true
  }

  predicate Served(s: State, w: nat) {
    w in s.workers && s.workers[w].list == 0 && s.workers[w].pc.Work?
  }

  lemma OwnWakes(s: State, w: nat)
    requires w in s.workers && s.workers[w].dom < |s.doms| && (s.workers[w].pc.NotifyWake? || s.workers[w].pc.ScanWake?)
    ensures var s' := Step(s, OwnAct(s, w));
      && w in s'.workers && |s'.doms| == |s.doms| && s'.stop == s.stop
      && s'.workers[w] == s.workers[w].(pc := if s.workers[w].pc.NotifyWake? then Rise else Scan(s.workers[w].pc.i + 1))
  {
  }

  lemma OwnMoves(s: State, w: nat)
    requires w in s.workers && s.workers[w].dom < |s.doms| && !s.workers[w].pc.NotifyWake? && !s.workers[w].pc.ScanWake?
    ensures var s' := Step(s, OwnAct(s, w));
      && w in s'.workers && |s'.doms| == |s.doms| && s'.stop == s.stop && s'.workers[w] == Next(s, w)
      && (Departing(Next(s, w).pc) ==>
            Epoch(s'.doms[s.workers[w].dom].word) == Epoch(s.doms[s.workers[w].dom].word))
  {
  }

  lemma NextServes(s: State, w: nat)
    requires Free(s, w) && Unserved(s, w) && !s.workers[w].pc.NotifyWake? && !s.workers[w].pc.ScanWake?
    ensures var x, x', n := s.workers[w], Next(s, w), |s.doms|;
      && WorkLeft(n, x') < WorkLeft(n, x)
      && (Committed(x'.pc) ==> Committed(x.pc) && Departing(x'.pc) && x'.key == x.key && !x'.pc.Blocked?)
      && !Stopping(x'.pc) && !x'.pc.Blocked?
      && (x'.list == 0 ==> OnTrack(x'.pc))
  {
  }

  lemma OwnServes(s: State, w: nat)
    requires Free(s, w) && Unserved(s, w)
    ensures var s' := Step(s, OwnAct(s, w));
      && Free(s', w) && (Served(s', w) || Unserved(s', w))
      && WorkLeft(|s'.doms|, s'.workers[w]) < WorkLeft(|s.doms|, s.workers[w])
  {
    if s.workers[w].pc.NotifyWake? || s.workers[w].pc.ScanWake? {
      OwnWakes(s, w);
    } else {
      OwnMoves(s, w);
      NextServes(s, w);
    }
  }

  /** On the way to sleep or out. */
  predicate Resting(pc: Pc) { IsWaiter(pc) || Stopping(pc) }

  lemma NextExitLeft(s: State, w: nat)
    requires FreeToExit(s, w) && !s.workers[w].pc.Done? && !s.workers[w].pc.NotifyWake? && !s.workers[w].pc.ScanWake?
    ensures ExitLeft(|s.doms|, Next(s, w)) < ExitLeft(|s.doms|, s.workers[w])
  {
    if Resting(s.workers[w].pc) { RestingExits(s, w); }
  }

  lemma RestingExits(s: State, w: nat)
    requires FreeToExit(s, w) && !s.workers[w].pc.Done? && Resting(s.workers[w].pc)
    ensures ExitLeft(|s.doms|, Next(s, w)) < ExitLeft(|s.doms|, s.workers[w])
  {
  }

  lemma NextStaysFree(s: State, w: nat)
    requires FreeToExit(s, w) && !s.workers[w].pc.NotifyWake? && !s.workers[w].pc.ScanWake?
    ensures var x, x' := s.workers[w], Next(s, w);
      !x'.pc.Blocked? && (Departing(x'.pc) ==> Departing(x.pc) && x'.key == x.key)
  {
  }

  lemma OwnExits(s: State, w: nat)
    requires FreeToExit(s, w) && !s.workers[w].pc.Done?
    ensures var s' := Step(s, OwnAct(s, w));
      && FreeToExit(s', w) && ExitLeft(|s'.doms|, s'.workers[w]) < ExitLeft(|s.doms|, s.workers[w])
  {
    if s.workers[w].pc.NotifyWake? || s.workers[w].pc.ScanWake? {
      OwnWakes(s, w);
    } else {
      OwnMoves(s, w);
      NextExitLeft(s, w);
      NextStaysFree(s, w);
    }
  }

  // ---------------------------------------------------------------- whole runs of one worker

  /** A step of worker w itself, or of a thread that is in the middle of a notify_all. */
  predicate Helps(a: Act, w: nat) {
    match a
    case Go(v) => v == w
    case WakeOne(v, _) => v == w
    case SubGo(_) => true
    case KillGo => true
    case _ => false
  }

  predicate AllHelp(acts: seq<Act>, w: nat) { forall i :: 0 <= i < |acts| ==> Helps(acts[i], w) }

  lemma First(s: State, a: Act, acts: seq<Act>, w: nat)
    requires Helps(a, w) && AllHelp(acts, w)
    ensures Exec(s, [a] + acts) == Exec(Step(s, a), acts) && AllHelp([a] + acts, w)
  {
    assert ([a] + acts)[1..] == acts;
  }

  lemma {:induction false} Serves(s: State, w: nat) returns (acts: seq<Act>)
    requires Free(s, w) && (Served(s, w) || Unserved(s, w))
    ensures AllHelp(acts, w) && Served(Exec(s, acts), w)
    decreases WorkLeft(|s.doms|, s.workers[w])
  {
    if Served(s, w) {
      acts := [];
    } else {
      OwnServes(s, w);
      var rest := Serves(Step(s, OwnAct(s, w)), w);
      First(s, OwnAct(s, w), rest, w);
      acts := [OwnAct(s, w)] + rest;
    }
  }

  lemma {:induction false} Exits(s: State, w: nat) returns (acts: seq<Act>)
    requires FreeToExit(s, w)
    ensures AllHelp(acts, w) && w in Exec(s, acts).workers && Exec(s, acts).workers[w].pc.Done?
    decreases ExitLeft(|s.doms|, s.workers[w])
  {
    if s.workers[w].pc.Done? {
      acts := [];
    } else {
      OwnExits(s, w);
      var rest := Exits(Step(s, OwnAct(s, w)), w);
      First(s, OwnAct(s, w), rest, w);
      acts := [OwnAct(s, w)] + rest;
    }
  }

  // ---------------------------------------------------------------- every submission can be run

  lemma KeyDiffers(s: State, w: nat)
    requires Counts(s) && w in s.workers && IsWaiter(s.workers[w].pc) && s.workers[w].dom < |s.doms|
    requires 0 < s.doms[s.workers[w].dom].bumps - s.workers[w].mark < U32
    ensures Epoch(s.doms[s.workers[w].dom].word) != s.workers[w].key
  {
    assert KeyOk(s, w);
    var d := s.workers[w].dom;
    assert DomOk(s, d);
    HalvesIndependent(s.doms[d].bumps, Count(s.workers, WaiterIn(d)));
    KeyTells(s.workers[w].mark, s.doms[d].bumps);
  }

  /** A blocked worker is not one notification short of 2^32. */
  predicate Room(s: State, w: nat)
    requires w in s.workers && s.workers[w].dom < |s.doms|
  {
    s.workers[w].pc.Blocked? ==> s.doms[s.workers[w].dom].bumps + 1 - s.workers[w].mark < U32
  }

  lemma SubGoLeaves(s: State, k: nat, w: nat)
    requires w in s.workers && k in s.subs && s.workers[w].dom == s.subs[k].dom < |s.doms|
    ensures var s', d := Step(s, SubGo(k)), s.workers[w].dom;
      && w in s'.workers && |s'.doms| == |s.doms| && s'.stop == s.stop
      && s'.workers[w] == (if s.subs[k].waking && s.workers[w].pc.Blocked? then s.workers[w].(pc := Wait)
                           else s.workers[w])
      && s'.doms[d].bumps == s.doms[d].bumps + (if s.subs[k].waking then 0 else 1)
      && (s.subs[k].waking ==> s'.doms == s.doms)
  {
  }

  /** The submitter in the middle of its notify_all frees the worker. */
  lemma WakingFrees(s: State, k: nat, w: nat)
    requires Counts(s) && w in s.workers && s.workers[w].dom < |s.doms| && s.workers[w].pc.Blocked?
    requires SubWakes(s, k, s.workers[w].dom)
    requires 0 < s.doms[s.workers[w].dom].bumps - s.workers[w].mark < U32
    ensures var s' := Step(s, SubGo(k));
      Free(s', w) && s'.stop == s.stop && s'.workers[w] == s.workers[w].(pc := Wait)
  {
    SubGoLeaves(s, k, w);
    KeyDiffers(s, w);
  }

  lemma ComingFrees(s: State, k: nat, w: nat) returns (acts: seq<Act>)
    requires Counts(s) && w in s.workers && s.workers[w].dom < |s.doms| && Committed(s.workers[w].pc)
    requires SubBumps(s, k, s.workers[w].dom) && s.doms[s.workers[w].dom].bumps + 1 - s.workers[w].mark < U32
    ensures AllHelp(acts, w)
    ensures var s' := Exec(s, acts);
      && Free(s', w) && s'.stop == s.stop && s'.workers[w].list == s.workers[w].list && Committed(s'.workers[w].pc)
  {
    SubGoLeaves(s, k, w);
    SubBumpTells(s, k, w);
    StepCounts(s, SubGo(k));
    var s1 := Step(s, SubGo(k));
    First(s1, SubGo(k), [], w);
    First(s, SubGo(k), [], w);
    if s.workers[w].pc.Blocked? {
      WakingFrees(s1, k, w);
      First(s, SubGo(k), [SubGo(k)] + [], w);
      acts := [SubGo(k)] + ([SubGo(k)] + []);
    } else {
      KeyDiffers(s1, w);
      acts := [SubGo(k)] + [];
    }
  }

  /** With submissions listed, a worker on its way to sleep is free already or freed by a submitter. */
  lemma SubmitterFrees(s: State, w: nat) returns (acts: seq<Act>)
    requires Inv(s) && NoWrap(s) && w in s.workers && s.workers[w].dom < |s.doms| && s.workers[w].list > 0 && Room(s, w)
    ensures AllHelp(acts, w)
    ensures var s' := Exec(s, acts);
      && Free(s', w) && s'.stop == s.stop && s'.workers[w].list == s.workers[w].list
      && (Stopping(s'.workers[w].pc) ==> Stopping(s.workers[w].pc))
  {
    var x, d := s.workers[w], s.workers[w].dom;
    acts := [];
    assert Exec(s, []) == s;
    if Committed(x.pc) {
      assert ListOk(s, w) && KeyOk(s, w);
      Tells(s, w);
      if x.mark != s.doms[d].bumps && !x.pc.Blocked? {
        KeyDiffers(s, w);
      } else if SubComing(s, d) {
        var k :| SubBumps(s, k, d);
        acts := ComingFrees(s, k, w);
      } else {
        var k :| SubWakes(s, k, d);
        WakingFrees(s, k, w);
        First(s, SubGo(k), [], w);
        acts := [SubGo(k)] + [];
      }
    }
  }

  lemma {:induction false} ExecAppend(s: State, x: seq<Act>, y: seq<Act>, w: nat)
    requires AllHelp(x, w) && AllHelp(y, w)
    ensures Exec(s, x + y) == Exec(Exec(s, x), y) && AllHelp(x + y, w)
    decreases |x|
  {
    if x == [] {
      assert x + y == y;
    } else {
      assert (x + y)[0] == x[0] && (x + y)[1..] == x[1..] + y;
      ExecAppend(Step(s, x[0]), x[1..], y, w);
    }
  }

  /**
   No submission is lost: from every reachable state before stop, the steps of a worker with listed submissions
   and of the submitters under way suffice to make them all a batch that it is running.
   */
  lemma EverySubmissionCanRun(s: State, w: nat)
    requires Reachable(s) && !s.stop && w in s.workers && s.workers[w].list > 0
    requires s.workers[w].dom < |s.doms| && Room(s, w)
    ensures exists acts :: AllHelp(acts, w) && Served(Exec(s, acts), w)
  {
    ReachableInv(s);
    var acts := SubmitterFrees(s, w);
    var more := Serves(Exec(s, acts), w);
    ExecAppend(s, acts, more, w);
    assert AllHelp(acts + more, w);
  }

  // ---------------------------------------------------------------- every worker can leave

  function KillerLeft(d: nat, k: Killer): nat {
    match k
    case KillBump(i) => if i <= d then 2 * (d - i) else 0
    case KillWake(i) => if i < d then 2 * (d - i) - 1 else 0
    case Alive => 0
  }

  /** The destructor moves on; nothing changes for a worker of a domain that it has not reached. */
  lemma KillerPasses(s: State, w: nat)
    requires w in s.workers && s.workers[w].dom < |s.doms| && KillComing(s, s.workers[w].dom)
    requires s.killer != KillBump(s.workers[w].dom)
    ensures var s', d := Step(s, KillGo), s.workers[w].dom;
      && w in s'.workers && s'.workers[w] == s.workers[w] && |s'.doms| == |s.doms| && s'.doms[d] == s.doms[d]
      && s'.stop == s.stop && KillComing(s', d) && KillerLeft(d, s'.killer) < KillerLeft(d, s.killer)
  {
  }

  lemma {:induction false} KillerArrives(s: State, w: nat) returns (acts: seq<Act>)
    requires Counts(s) && w in s.workers && s.workers[w].dom < |s.doms| && KillComing(s, s.workers[w].dom)
    ensures AllHelp(acts, w)
    ensures var s', d := Exec(s, acts), s.workers[w].dom;
      && Counts(s') && w in s'.workers && s'.workers[w] == s.workers[w] && d < |s'.doms| && s'.doms[d] == s.doms[d]
      && s'.stop == s.stop && s'.killer == KillBump(d)
    decreases KillerLeft(s.workers[w].dom, s.killer)
  {
    if s.killer == KillBump(s.workers[w].dom) {
      acts := [];
    } else {
      KillerPasses(s, w);
      StepCounts(s, KillGo);
      var rest := KillerArrives(Step(s, KillGo), w);
      First(s, KillGo, rest, w);
      acts := [KillGo] + rest;
    }
  }

  lemma KillWakeFrees(s: State, w: nat)
    requires Counts(s) && s.stop && w in s.workers && s.workers[w].dom < |s.doms| && Departing(s.workers[w].pc)
    requires s.killer == KillWake(s.workers[w].dom)
    requires 0 < s.doms[s.workers[w].dom].bumps - s.workers[w].mark < U32
    ensures FreeToExit(Step(s, KillGo), w)
  {
    KeyDiffers(s, w);
  }

  lemma KillBumpMoves(s: State, w: nat)
    requires w in s.workers && s.workers[w].dom < |s.doms| && s.killer == KillBump(s.workers[w].dom)
    ensures var s', d := Step(s, KillGo), s.workers[w].dom;
      && w in s'.workers && s'.workers[w] == s.workers[w] && |s'.doms| == |s.doms|
      && s'.doms[d].bumps == s.doms[d].bumps + 1 && s'.stop == s.stop
  {
  }

  lemma KillBumpFrees(s: State, w: nat) returns (acts: seq<Act>)
    requires Counts(s) && s.stop && w in s.workers && s.workers[w].dom < |s.doms| && Departing(s.workers[w].pc)
    requires s.killer == KillBump(s.workers[w].dom) && s.doms[s.workers[w].dom].bumps + 1 - s.workers[w].mark < U32
    ensures AllHelp(acts, w) && FreeToExit(Exec(s, acts), w)
  {
    KillBumpMoves(s, w);
    KillBumpTells(s, w);
    StepCounts(s, KillGo);
    var s1 := Step(s, KillGo);
    KillWakeFrees(s1, w);
    First(s1, KillGo, [], w);
    First(s, KillGo, [KillGo] + [], w);
    acts := [KillGo] + ([KillGo] + []);
  }

  lemma KillerFrees(s: State, w: nat) returns (acts: seq<Act>)
    requires Inv(s) && NoWrap(s) && s.stop && w in s.workers && s.workers[w].dom < |s.doms| && Room(s, w)
    ensures AllHelp(acts, w) && FreeToExit(Exec(s, acts), w)
  {
    var x, d := s.workers[w], s.workers[w].dom;
    acts := [];
    assert Exec(s, []) == s;
    if Departing(x.pc) {
      assert ToldToStop(s, w) && KeyOk(s, w);
      if x.mark != s.doms[d].bumps && !x.pc.Blocked? {
        KeyDiffers(s, w);
      } else if KillComing(s, d) {
        var go := KillerArrives(s, w);
        var more := KillBumpFrees(Exec(s, go), w);
        ExecAppend(s, go, more, w);
        acts := go + more;
      } else {
        KillWakeFrees(s, w);
        First(s, KillGo, [], w);
        acts := [KillGo] + [];
      }
    }
  }

  /** From every reachable state after stop, a worker and the destructor suffice for the worker to leave its loop. */
  lemma EveryWorkerCanLeave(s: State, w: nat)
    requires Reachable(s) && s.stop && w in s.workers && s.workers[w].dom < |s.doms| && Room(s, w)
    ensures exists acts :: AllHelp(acts, w) && w in Exec(s, acts).workers && Exec(s, acts).workers[w].pc.Done?
  {
    ReachableInv(s);
    var acts := KillerFrees(s, w);
    var more := Exits(Exec(s, acts), w);
    ExecAppend(s, acts, more, w);
    assert AllHelp(acts + more, w);
  }
}
