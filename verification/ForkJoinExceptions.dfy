/**
 Fork-join and exceptions together: a worker captures an exception into the frame it runs or into the
 parent of that frame, step by step and while all others go on, and does nothing else meanwhile.
 */
module ForkJoinExceptions {
  import opened Options
  import opened ForkJoin
  import opened ForkJoinInv
  import opened ForkJoinChains
  import opened ForkJoinCounters
  import opened ForkJoinSafety
  import Ex = FrameExceptions

  datatype Joint<E> = Joint(
    fj: State,
    frames: map<nat, Ex.State<E>>,   // what has been captured into which frame
    busy: map<nat, nat>)             // the workers inside capture_exception, and the frame they capture into

  datatype Move<E> =
    | Do(act: Act)
    | Stash(w: nat, e: E)       // stash_exception: into the frame the worker runs
    | Unhandled(w: nat, e: E)   // unhandled_exception of a child: into its parent
    | Capture(w: nat)
    | Rethrow(w: nat)           // unsafe_rethrow_if_exception, past a join

  function Of<E>(s: Joint<E>, t: nat): Ex.State<E> { if t in s.frames then s.frames[t] else Ex.Fresh() }

  predicate Free<E>(s: Joint<E>, a: Act) { a.Submit? || a.w !in s.busy }

  function Begin<E>(s: Joint<E>, w: nat, f: nat, e: E): Joint<E> {
    s.(frames := s.frames[f := Ex.Step(Of(s, f), Ex.Throw(w, e))], busy := s.busy[w := f])
  }

  predicate Running<E>(s: Joint<E>, w: nat) {
    w in s.fj.workers && w !in s.busy && s.fj.workers[w].pc.Run? && s.fj.workers[w].pc.t in s.fj.tasks
  }

  function Step<E>(s: Joint<E>, m: Move<E>): Joint<E> {
    match m
    case Do(a) => if Free(s, a) then s.(fj := ForkJoin.Step(s.fj, a)) else s
    case Stash(w, e) => if Running(s, w) then Begin(s, w, s.fj.workers[w].pc.t, e) else s
    case Unhandled(w, e) =>
      if Running(s, w) && !s.fj.tasks[s.fj.workers[w].pc.t].kind.Root? then
        Begin(s, w, s.fj.tasks[s.fj.workers[w].pc.t].parent, e)
      else s
    case Capture(w) =>
      if w in s.busy then
        var x := Ex.Step(Of(s, s.busy[w]), Ex.Go(w));
        s.(frames := s.frames[s.busy[w] := x], busy := if w in x.running then s.busy else s.busy - {w})
      else s
    case Rethrow(w) =>
      if Running(s, w) && s.fj.tasks[s.fj.workers[w].pc.t].steals == 0 then
        s.(frames := s.frames[s.fj.workers[w].pc.t := Ex.Rethrow(Of(s, s.fj.workers[w].pc.t)).1])
      else s
  }

  // ---------------------------------------------------------------- invariant

  /** A busy worker runs the frame it captures into, or a child of it. */
  predicate BusyOk<E>(s: Joint<E>, w: nat)
    requires w in s.busy
  {
    && w in s.fj.workers && s.fj.workers[w].pc.Run? && w in Of(s, s.busy[w]).running
    && var c := s.fj.workers[w].pc.t;
       c in s.fj.tasks && (s.busy[w] == c || (!s.fj.tasks[c].kind.Root? && s.fj.tasks[c].parent == s.busy[w]))
  }

  /** Every capture in flight is some busy worker's. */
  ghost predicate FrameOk<E>(s: Joint<E>, f: nat) {
    Ex.Inv(Of(s, f)) && forall w :: w in Of(s, f).running ==> w in s.busy && s.busy[w] == f
  }

  ghost predicate Captures<E>(s: Joint<E>) {
    && (forall w {:trigger BusyOk(s, w)} :: w in s.busy ==> BusyOk(s, w))
    && (forall f {:trigger FrameOk(s, f)} :: FrameOk(s, f))
  }

  ghost predicate JointInv<E>(s: Joint<E>) { ForkJoinInv.Inv(s.fj) && Bounded(s.fj) && Captures(s) }

  // ---------------------------------------------------------------- fork-join steps

  predicate Kin(m: map<nat, Task>, m': map<nat, Task>, x: nat) {
    x in m && x in m' ==> m'[x].kind == m[x].kind && m'[x].parent == m[x].parent
  }

  lemma GoKin(s: State, w: nat, x: nat)
    requires w in s.workers
    ensures Kin(s.tasks, DoGo(s, w).tasks, x)
  {
  }

  lemma ReturnKin(s: State, w: nat, x: nat)
    requires w in s.workers
    ensures Kin(s.tasks, DoReturn(s, w).tasks, x)
  {
    if s.workers[w].pc.Run? && s.workers[w].pc.t in s.tasks {
      CoverOnly(s.tasks, s.tasks[s.workers[w].pc.t].under, None);
    }
  }

  lemma CreateKin(s: State, w: nat, kind: Kind, x: nat)
    requires w in s.workers && x != s.nextTask
    ensures Kin(s.tasks, DoCreate(s, w, kind).tasks, x)
  {
  }

  /** Tasks keep their kind and their parent. */
  lemma SameKin(s: State, a: Act, x: nat)
    requires x != s.nextTask
    ensures Kin(s.tasks, ForkJoin.Step(s, a).tasks, x)
  {
    if !a.Submit? && a.w in s.workers {
      match a
      case Go(w) => GoKin(s, w, x);
      case Return(w) => ReturnKin(s, w, x);
      case Fork(w) => CreateKin(s, w, Forked, x);
      case Call(w) => CreateKin(s, w, Called, x);
      case _ =>
    }
  }

  /** A step of one worker leaves the others' program counters alone. */
  lemma SamePc(s: State, a: Act, w: nat)
    requires w in s.workers && (a.Submit? || a.w != w)
    ensures w in ForkJoin.Step(s, a).workers && ForkJoin.Step(s, a).workers[w].pc == s.workers[w].pc
  {
  }

  lemma DoKeeps<E>(s: Joint<E>, a: Act)
    requires JointInv(s) && Free(s, a) && Bounded(ForkJoin.Step(s.fj, a))
    ensures JointInv(s.(fj := ForkJoin.Step(s.fj, a)))
  {
    var fj := ForkJoin.Step(s.fj, a);
    var s' := s.(fj := fj);
    StepInv(s.fj, a);
    forall w | w in s'.busy ensures BusyOk(s', w) {
      assert BusyOk(s, w);
      SamePc(s.fj, a, w);
      assert WorkerOk(fj, w);
      FreshTask(s.fj);
      SameKin(s.fj, a, s.fj.workers[w].pc.t);
    }
    forall f ensures FrameOk(s', f) { assert FrameOk(s, f); }
  }

  // ---------------------------------------------------------------- captures

  lemma BeginKeeps<E>(s: Joint<E>, w: nat, f: nat, e: E)
    requires Captures(s) && Running(s, w)
    requires var c := s.fj.workers[w].pc.t; f == c || (!s.fj.tasks[c].kind.Root? && f == s.fj.tasks[c].parent)
    ensures Captures(Begin(s, w, f, e))
  {
    var s' := Begin(s, w, f, e);
    assert FrameOk(s, f);
    Ex.StepKeeps(Of(s, f), Ex.Throw(w, e));
    forall v | v in s'.busy ensures BusyOk(s', v) {
      if v != w { assert BusyOk(s, v); }
    }
    forall g ensures FrameOk(s', g) { assert FrameOk(s, g); }
  }

  lemma CaptureKeeps<E>(s: Joint<E>, w: nat)
    requires Captures(s) && w in s.busy
    ensures Captures(Step(s, Capture(w)))
  {
    var s', f := Step(s, Capture(w)), s.busy[w];
    assert FrameOk(s, f) && BusyOk(s, w);
    Ex.StepKeeps(Of(s, f), Ex.Go(w));
    forall v | v in s'.busy ensures BusyOk(s', v) { assert BusyOk(s, v); }
    forall g ensures FrameOk(s', g) { assert FrameOk(s, g); }
  }

  /** A frame that is passing its join has no capture in flight. */
  lemma NothingInFlight<E>(s: Joint<E>, w: nat, t: nat)
    requires JointInv(s) && w !in s.busy && Passes(s.fj, w, t)
    ensures Of(s, t).running.Keys == {}
  {
    assert FrameOk(s, t) && WorkerOk(s.fj, w);
    PassesAlone(s.fj, w, t);
    forall u | u in s.busy ensures s.busy[u] != t { assert BusyOk(s, u); }
  }

  lemma RethrowKeeps<E>(s: Joint<E>, w: nat)
    requires JointInv(s)
    ensures JointInv(Step(s, Rethrow(w)))
  {
    var s' := Step(s, Rethrow(w));
    if Running(s, w) && s.fj.tasks[s.fj.workers[w].pc.t].steals == 0 {
      var t := s.fj.workers[w].pc.t;
      NothingInFlight(s, w, t);
      assert FrameOk(s, t);
      Ex.RethrowsFirst(Of(s, t));
      forall v | v in s'.busy ensures BusyOk(s', v) { assert BusyOk(s, v); }
      forall g ensures FrameOk(s', g) { assert FrameOk(s, g); }
    }
  }

  lemma StepKeeps<E>(s: Joint<E>, m: Move<E>)
    requires JointInv(s) && Bounded(Step(s, m).fj)
    ensures JointInv(Step(s, m))
  {
    match m
    case Do(a) => if Free(s, a) { DoKeeps(s, a); }
    case Stash(w, e) => if Running(s, w) { BeginKeeps(s, w, s.fj.workers[w].pc.t, e); }
    case Unhandled(w, e) =>
      if Running(s, w) && !s.fj.tasks[s.fj.workers[w].pc.t].kind.Root? {
        BeginKeeps(s, w, s.fj.tasks[s.fj.workers[w].pc.t].parent, e);
      }
    case Capture(w) => if w in s.busy { CaptureKeeps(s, w); }
    case Rethrow(w) => RethrowKeeps(s, w);
  }

  // ---------------------------------------------------------------- runs

  function Exec<E>(s: Joint<E>, moves: seq<Move<E>>): Joint<E>
    decreases |moves|
  {
    if moves == [] then s else Exec(Step(s, moves[0]), moves[1..])
  }

  ghost predicate FewSteals<E>(s: Joint<E>, moves: seq<Move<E>>)
    decreases |moves|
  {
    Bounded(s.fj) && (moves != [] ==> FewSteals(Step(s, moves[0]), moves[1..]))
  }

  ghost predicate Init<E>(s: Joint<E>) { ForkJoin.Init(s.fj) && s.frames == map[] && s.busy == map[] }

  lemma {:induction false} RunInv<E>(s: Joint<E>, moves: seq<Move<E>>)
    requires JointInv(s) && FewSteals(s, moves)
    ensures JointInv(Exec(s, moves))
    decreases |moves|
  {
    if moves != [] {
      assert FewSteals(Step(s, moves[0]), moves[1..]);
      StepKeeps(s, moves[0]);
      RunInv(Step(s, moves[0]), moves[1..]);
    }
  }

  /**
   In every run with at most 65534 steals per scope: a worker that passes the join of t finds no capture
   into t in flight, rethrows exactly if something was captured, and then what was captured first, and
   leaves the frame clean.
   */
  lemma JoinRethrows<E>(s0: Joint<E>, moves: seq<Move<E>>, w: nat, t: nat)
    requires Init(s0) && FewSteals(s0, moves)
    requires var s := Exec(s0, moves); w !in s.busy && Passes(s.fj, w, t)
    ensures var x := Of(Exec(s0, moves), t);
      && x.running.Keys == {} && (Ex.Rethrow(x).0 == None <==> x.captured == [])
      && (x.captured != [] ==> Ex.Rethrow(x).0 == Some(x.captured[0])) && Ex.Clean(Ex.Rethrow(x).1)
    ensures var s := Exec(s0, moves);
      w in s.fj.workers && (s.fj.workers[w].pc == Run(t) ==> Ex.Clean(Of(Step(s, Rethrow(w)), t)))
  {
    InitInv(s0.fj);
    forall f ensures FrameOk(s0, f) {}
    RunInv(s0, moves);
    var s := Exec(s0, moves);
    NothingInFlight(s, w, t);
    assert FrameOk(s, t);
    Ex.RethrowsFirst(Of(s, t));
  }

  // ---------------------------------------------------------------- no exception is lost

  /** The move rethrows out of frame f. */
  predicate Rethrows<E>(s: Joint<E>, m: Move<E>, f: nat) {
    m.Rethrow? && Running(s, m.w) && s.fj.workers[m.w].pc.t == f && s.fj.tasks[f].steals == 0
  }

  predicate NoRethrow<E>(s: Joint<E>, moves: seq<Move<E>>, f: nat)
    decreases |moves|
  {
    moves == [] || (!Rethrows(s, moves[0], f) && NoRethrow(Step(s, moves[0]), moves[1..], f))
  }

  predicate Into<E(==)>(s: Joint<E>, f: nat, w: nat, e: E) { Ex.Holds(Of(s, f), w, e) }

  lemma StaysInto<E>(s: Joint<E>, m: Move<E>, f: nat, w: nat, e: E)
    requires Into(s, f, w, e) && !Rethrows(s, m, f)
    ensures Into(Step(s, m), f, w, e)
  {
    if m.Capture? && m.w in s.busy && s.busy[m.w] == f && m.w in Of(s, f).running {
      Ex.GoHolds(Of(s, f), m.w, w, e);
    }
  }

  lemma {:induction false} RunInto<E>(s: Joint<E>, moves: seq<Move<E>>, f: nat, w: nat, e: E)
    requires Into(s, f, w, e) && NoRethrow(s, moves, f)
    ensures Into(Exec(s, moves), f, w, e)
    decreases |moves|
  {
    if moves != [] {
      StaysInto(s, moves[0], f, w, e);
      RunInto(Step(s, moves[0]), moves[1..], f, w, e);
    }
  }

  /** A child's exception goes into its parent, a stashed one into the frame itself. */
  function Target<E>(s: Joint<E>, m: Move<E>): nat
    requires (m.Stash? || m.Unhandled?) && Running(s, m.w)
  {
    var t := s.fj.workers[m.w].pc.t;
    if m.Stash? then t else s.fj.tasks[t].parent
  }

  lemma ThrowBegins<E>(s: Joint<E>, m: Move<E>)
    requires Captures(s) && (m.Stash? || m.Unhandled?) && Running(s, m.w)
    requires m.Unhandled? ==> !s.fj.tasks[s.fj.workers[m.w].pc.t].kind.Root?
    ensures Into(Step(s, m), Target(s, m), m.w, m.e)
  {
    assert FrameOk(s, Target(s, m));
  }

  /**
   No exception is lost.  In every run with at most 65534 steals per scope, whose states satisfy JointInv
   (RunInv): an exception that escapes a child, or is stashed, is among those captured when a worker next
   passes the join of the frame it was meant for, and that worker throws.
   */
  lemma EveryExceptionArrives<E>(s: Joint<E>, m: Move<E>, moves: seq<Move<E>>, v: nat)
    requires JointInv(s) && (m.Stash? || m.Unhandled?) && Running(s, m.w)
    requires m.Unhandled? ==> !s.fj.tasks[s.fj.workers[m.w].pc.t].kind.Root?
    requires FewSteals(Step(s, m), moves) && NoRethrow(Step(s, m), moves, Target(s, m))
    requires var s' := Exec(Step(s, m), moves); v !in s'.busy && Passes(s'.fj, v, Target(s, m))
    ensures var x := Of(Exec(Step(s, m), moves), Target(s, m));
      m.e in x.captured && Ex.Rethrow(x).0 == Some(x.captured[0])
  {
    var s1, f := Step(s, m), Target(s, m);
    ThrowBegins(s, m);
    StepKeeps(s, m);
    RunInv(s1, moves);
    RunInto(s1, moves, f, m.w, m.e);
    var s' := Exec(s1, moves);
    NothingInFlight(s', v, f);
    assert FrameOk(s', f);
    Ex.RethrowsFirst(Of(s', f));
  }
}
