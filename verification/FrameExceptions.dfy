/**
 Exceptions in a frame: any number of children and stashes capture concurrently, each in two steps;
 whoever joins owns the frame alone and rethrows.
 */
module FrameExceptions {
  import opened Options

  datatype Capture<E> =
    | Flag(e: E)        // about to exchange the flag
    | Construct(e: E)   // found it clear: about to construct the exception pointer

  datatype State<E> = State(
    except: bool, eptr: Option<E>,
    running: map<nat, Capture<E>>,
    captured: seq<E>)              // history: what was captured since the last join, in order of the exchange

  datatype Act<E> = Throw(id: nat, e: E) | Go(id: nat) | Join

  function DoGo<E>(s: State<E>, id: nat): State<E>
    requires id in s.running
  {
    match s.running[id]
    case Flag(e) =>
      s.(except := true, captured := s.captured + [e],
         running := if s.except then s.running - {id} else s.running[id := Construct(e)])
    case Construct(e) => s.(eptr := Some(e), running := s.running - {id})
  }

  /** unsafe_rethrow_if_exception, when no child is left: what is thrown, and the frame afterwards. */
  function Rethrow<E>(s: State<E>): (Option<E>, State<E>) {
    if s.except then (s.eptr, s.(except := false, eptr := None, captured := [])) else (None, s)
  }

  function Step<E>(s: State<E>, a: Act<E>): State<E> {
    match a
    case Throw(id, e) => if id in s.running then s else s.(running := s.running[id := Flag(e)])
    case Go(id) => if id in s.running then DoGo(s, id) else s
    case Join => if s.running.Keys == {} then Rethrow(s).1 else s
  }

  predicate Clean<E>(s: State<E>) { !s.except && s.eptr.None? && s.running.Keys == {} && |s.captured| == 0 }

  function Fresh<E>(): (s: State<E>)
    ensures Clean(s) && Inv(s)
  {
    State(false, None, map[], [])
  }

  predicate Constructs<E>(s: State<E>, id: nat) { id in s.running && s.running[id].Construct? }

  /** The first to exchange the flag owns the pointer: it is constructing it or has done so. */
  ghost predicate Inv<E>(s: State<E>) {
    && (s.except <==> s.captured != [])
    && (!s.except ==> s.eptr == None && forall id :: !Constructs(s, id))
    && (s.except ==> s.eptr == None || s.eptr == Some(s.captured[0]))
    && (s.except && s.eptr == None ==> exists id :: Constructs(s, id))
    && (s.eptr != None ==> forall id :: !Constructs(s, id))
    && (forall i, j :: Constructs(s, i) && Constructs(s, j) ==> i == j)
    && (forall id :: Constructs(s, id) ==> s.except && s.running[id].e == s.captured[0])
  }

  lemma GoKeeps<E>(s: State<E>, id: nat)
    requires Inv(s) && id in s.running
    ensures Inv(DoGo(s, id))
  {
    var s' := DoGo(s, id);
    forall i | i != id ensures Constructs(s', i) == Constructs(s, i) {}
    if s.running[id].Flag? {
      if !s.except {
        assert Constructs(s', id);
      } else if s.eptr == None {
        var k :| Constructs(s, k);
        assert k != id && Constructs(s', k);
      }
    } else {
      assert Constructs(s, id);
    }
  }

  lemma StepKeeps<E>(s: State<E>, a: Act<E>)
    requires Inv(s)
    ensures Inv(Step(s, a))
  {
    var s' := Step(s, a);
    if a.Go? && a.id in s.running {
      GoKeeps(s, a.id);
    } else if a.Throw? {
      forall i ensures Constructs(s', i) == Constructs(s, i) {}
    } else if a.Join? {
      forall i ensures s.running.Keys == {} ==> !Constructs(s, i) {}
    }
  }

  function Exec<E>(s: State<E>, acts: seq<Act<E>>): State<E>
    decreases |acts|
  {
    if acts == [] then s else Exec(Step(s, acts[0]), acts[1..])
  }

  lemma {:induction false} ExecKeeps<E>(s: State<E>, acts: seq<Act<E>>)
    requires Inv(s)
    ensures Inv(Exec(s, acts))
    decreases |acts|
  {
    if acts != [] {
      StepKeeps(s, acts[0]);
      ExecKeeps(Step(s, acts[0]), acts[1..]);
    }
  }

  /** Whoever finds no capture in flight rethrows the first captured, if any, and leaves the frame clean. */
  lemma RethrowsFirst<E>(s: State<E>)
    requires Inv(s) && s.running.Keys == {}
    ensures Rethrow(s).0 == None <==> s.captured == []
    ensures s.captured != [] ==> Rethrow(s).0 == Some(s.captured[0])
    ensures Clean(Rethrow(s).1) && Inv(Rethrow(s).1)
  {
    assert forall id :: !Constructs(s, id);
  }

  /**
   However captures interleave over however many scopes: the join throws exactly if something was
   captured since the last join, it throws what was captured first, and it leaves the frame clean.
   */
  lemma FirstIsRethrown<E>(s0: State<E>, acts: seq<Act<E>>)
    requires Clean(s0) && Exec(s0, acts).running.Keys == {}
    ensures var s := Exec(s0, acts);
      && (Rethrow(s).0 == None <==> s.captured == [])
      && (s.captured != [] ==> Rethrow(s).0 == Some(s.captured[0]))
      && Clean(Rethrow(s).1)
  {
    ExecKeeps(s0, acts);
    RethrowsFirst(Exec(s0, acts));
  }

  // ---------------------------------------------------------------- no exception is lost

  /** e is captured into the frame, or thread id is about to. */
  predicate Holds<E(==)>(s: State<E>, id: nat, e: E) {
    (id in s.running && s.running[id] == Flag(e)) || e in s.captured
  }

  predicate NoJoin<E(==)>(acts: seq<Act<E>>) { Join !in acts }

  lemma GoHolds<E>(s: State<E>, v: nat, id: nat, e: E)
    requires v in s.running && Holds(s, id, e)
    ensures Holds(DoGo(s, v), id, e)
  {
    assert e in s.captured ==> e in DoGo(s, v).captured;
    if s.running[v] == Flag(e) { assert DoGo(s, v).captured == s.captured + [e]; }
  }

  lemma {:induction false} StaysHeld<E>(s: State<E>, id: nat, e: E, acts: seq<Act<E>>)
    requires Holds(s, id, e) && NoJoin(acts)
    ensures Holds(Exec(s, acts), id, e)
    decreases |acts|
  {
    if acts != [] {
      if acts[0].Go? && acts[0].id in s.running { GoHolds(s, acts[0].id, id, e); }
      StaysHeld(Step(s, acts[0]), id, e, acts[1..]);
    }
  }

  /** What is thrown into a frame is among what the next join accounts for, and that join throws. */
  lemma ThrowIsRethrown<E>(s: State<E>, id: nat, e: E, acts: seq<Act<E>>)
    requires Inv(s) && id !in s.running && NoJoin(acts)
    requires Exec(Step(s, Throw(id, e)), acts).running.Keys == {}
    ensures var s' := Exec(Step(s, Throw(id, e)), acts);
      e in s'.captured && Rethrow(s').0 == Some(s'.captured[0])
  {
    var s1 := Step(s, Throw(id, e));
    StepKeeps(s, Throw(id, e));
    ExecKeeps(s1, acts);
    StaysHeld(s1, id, e, acts);
    RethrowsFirst(Exec(s1, acts));
  }

  /** A capture ends in two steps, whatever the others do: nobody waits. */
  lemma CaptureEnds<E>(s: State<E>, id: nat)
    requires id in s.running
    ensures id !in Step(s, Go(id)).running || (s.running[id].Flag? && Constructs(Step(s, Go(id)), id))
    ensures id !in Step(Step(s, Go(id)), Go(id)).running
  {
  }
}
