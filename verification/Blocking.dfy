/** The spin-lock deque: the owner waits for the lock, a thief only tries it. */
module Blocking {
  import opened DequeSpec
  import opened Ring

  datatype OwnerPc<T> =
    | Idle
    | PushLock(val: T)    // spinning
    | PushStore(val: T)   // holds the lock: resizes if full, writes the slot
    | PushBottom(val: T)  // about to store bottom + 1
    | PopTest             // about to test for emptiness without the lock
    | PopLock
    | PopBody             // holds the lock: about to store bottom - 1 or give up
    | PopRead(index: nat)
    | Unlock

  datatype ThiefPc<T> =
    | TestBottom(top: nat)        // has loaded top, without the lock
    | TryLock
    | Locked                      // holds the lock: about to read the slot or give up
    | Advance(top: nat, val: T)   // about to store top + 1
    | UnlockWon(val: T)
    | UnlockEmpty

  datatype Holder = Nobody | By(who: Who)

  /** `holder` records who set the flag; no step reads it. */
  datatype State<T> = State(
    flag: bool, holder: Holder, top: nat, bottom: nat, ring: seq<T>, owner: OwnerPc<T>, thieves: map<nat, ThiefPc<T>>)

  datatype Act<T> = StartPush(val: T) | StartPop | Go | Steal(thief: nat)

  function Init<T>(ring: seq<T>): State<T> {
    State(false, Nobody, 0, 0, ring, Idle, map[])
  }

  function At<T>(s: State<T>, i: nat): T
    requires |s.ring| > 0
  {
    s.ring[i % |s.ring|]
  }

  function Begin<T>(s: State<T>, a: Act<T>): State<T>
    requires a.StartPush? || a.StartPop?
  {
    if !s.owner.Idle? then s else s.(owner := if a.StartPush? then PushLock(a.val) else PopTest)
  }

  function Room<T>(s: State<T>): (r: seq<T>)
    requires |s.ring| > 0
    ensures |r| > 0
  {
    if |s.ring| < s.bottom - s.top + 1 then
      CopyRange(s.ring, seq(2 * |s.ring|, _ => s.ring[0]), s.top, s.bottom)
    else s.ring
  }

  function OwnerGo<T>(s: State<T>): (State<T>, Event<T>)
    requires |s.ring| > 0
  {
    match s.owner
    case Idle => (s, Quiet)
    case PushLock(v) => (if s.flag then s else s.(flag := true, holder := By(Owner), owner := PushStore(v)), Quiet)
    case PushStore(v) =>
      var ring := Room(s);
      (s.(ring := ring[s.bottom % |ring| := v], owner := PushBottom(v)), Quiet)
    case PushBottom(v) => (s.(bottom := s.bottom + 1, owner := Unlock), Push(v))
    case PopTest => if s.top >= s.bottom then (s.(owner := Idle), PopEmpty) else (s.(owner := PopLock), Quiet)
    case PopLock => (if s.flag then s else s.(flag := true, holder := By(Owner), owner := PopBody), Quiet)
    case PopBody =>
      if s.top + 1 <= s.bottom then (s.(bottom := s.bottom - 1, owner := PopRead(s.bottom - 1)), TakeNewest)
      else (s.(owner := Unlock), PopEmpty)
    case PopRead(i) => (s.(owner := Unlock), Return(Owner, At(s, i)))
    case Unlock => (s.(flag := false, holder := Nobody, owner := Idle), Quiet)
  }

  function ThiefGo<T>(s: State<T>, t: nat): (State<T>, Event<T>)
    requires |s.ring| > 0
  {
    if t !in s.thieves then (s.(thieves := s.thieves[t := TestBottom(s.top)]), Quiet)
    else
      match s.thieves[t]
      case TestBottom(top) =>
        (s.(thieves := if top >= s.bottom then s.thieves - {t} else s.thieves[t := TryLock]), Quiet)
      case TryLock =>
        if s.flag then (s.(thieves := s.thieves - {t}), Quiet)
        else (s.(flag := true, holder := By(Thief(t)), thieves := s.thieves[t := Locked]), Quiet)
      case Locked =>
        (s.(thieves := s.thieves[t := if s.top < s.bottom then Advance(s.top, At(s, s.top)) else UnlockEmpty]), Quiet)
      case Advance(top, v) => (s.(top := top + 1, thieves := s.thieves[t := UnlockWon(v)]), TakeOldest(t))
      case UnlockWon(v) => (s.(flag := false, holder := Nobody, thieves := s.thieves - {t}), Return(Thief(t), v))
      case UnlockEmpty => (s.(flag := false, holder := Nobody, thieves := s.thieves - {t}), Quiet)
  }

  function Step<T>(s: State<T>, a: Act<T>): (State<T>, Event<T>)
    requires |s.ring| > 0
  {
    match a
    case Go => OwnerGo(s)
    case Steal(t) => ThiefGo(s, t)
    case _ => (Begin(s, a), Quiet)
  }

  // ---------------------------------------------------------------- invariant

  predicate OwnerLocks<T>(pc: OwnerPc<T>) {
    pc.PushStore? || pc.PushBottom? || pc.PopBody? || pc.PopRead? || pc.Unlock?
  }

  predicate ThiefLocks<T>(pc: ThiefPc<T>) {
    pc.Locked? || pc.Advance? || pc.UnlockWon? || pc.UnlockEmpty?
  }

  /** The flag is set exactly while someone, and only one, is inside. */
  ghost predicate Exclusive<T>(s: State<T>) {
    && (s.flag <==> s.holder != Nobody)
    && (OwnerLocks(s.owner) <==> s.holder == By(Owner))
    && (forall t :: (t in s.thieves && ThiefLocks(s.thieves[t])) <==> s.holder == By(Thief(t)))
  }

  ghost predicate Backs<T>(s: State<T>, g: Deque<T>)
    requires |s.ring| > 0
  {
    forall k :: 0 <= k < |g.live| ==> g.live[k] < |g.log| && At(s, s.top + k) == g.log[g.live[k]]
  }

  ghost predicate OwnerOk<T>(s: State<T>, g: Deque<T>)
    requires |s.ring| > 0
  {
    match s.owner
    case PushBottom(v) => |g.live| < |s.ring| && At(s, s.bottom) == v && Owner !in g.owed
    case PopRead(i) => Owner in g.owed && g.owed[Owner] < |g.log| && At(s, i) == g.log[g.owed[Owner]]
    case _ => Owner !in g.owed
  }

  ghost predicate ThievesOk<T>(s: State<T>, g: Deque<T>) {
    forall t ::
      && (Thief(t) in g.owed ==> t in s.thieves && s.thieves[t].UnlockWon?)
      && (t in s.thieves && s.thieves[t].UnlockWon? ==>
            Thief(t) in g.owed && g.owed[Thief(t)] < |g.log| && s.thieves[t].val == g.log[g.owed[Thief(t)]])
      && (t in s.thieves && s.thieves[t].TestBottom? ==> s.thieves[t].top <= s.top)
      && (t in s.thieves && s.thieves[t].Advance? ==>
            s.thieves[t].top == s.top && g.live != [] && g.live[0] < |g.log| && s.thieves[t].val == g.log[g.live[0]])
  }

  ghost predicate Inv<T>(s: State<T>, g: Deque<T>) {
    && |s.ring| > 0 && s.bottom == s.top + |g.live| && |g.live| <= |s.ring|
    && Exclusive(s) && Backs(s, g) && OwnerOk(s, g) && ThievesOk(s, g)
  }

  ghost predicate Simulates<T>(g: Deque<T>, next: (State<T>, Event<T>)) {
    Legal(g, next.1) && Inv(next.0, Apply(g, next.1))
  }

  lemma RoomBacks<T>(s: State<T>, g: Deque<T>)
    requires |s.ring| > 0 && s.bottom == s.top + |g.live| && |g.live| <= |s.ring| && Backs(s, g)
    ensures var s' := s.(ring := Room(s)); Backs(s', g) && |g.live| < |s'.ring|
  {
    var s' := s.(ring := Room(s));
    forall k | 0 <= k < |g.live| ensures At(s', s'.top + k) == g.log[g.live[k]] {
      assert At(s, s.top + k) == g.log[g.live[k]];
      if |s.ring| < |g.live| + 1 {
        CopyKeeps(s.ring, seq(2 * |s.ring|, _ => s.ring[0]), s.top, s.bottom, s.top + k);
      }
    }
  }

  lemma StoreBacks<T>(s: State<T>, g: Deque<T>, v: T)
    requires |g.live| < |s.ring| && s.bottom == s.top + |g.live| && Backs(s, g)
    ensures Backs(s.(ring := s.ring[s.bottom % |s.ring| := v]), g)
  {
    var s' := s.(ring := s.ring[s.bottom % |s.ring| := v]);
    forall k | 0 <= k < |g.live| ensures At(s', s'.top + k) == g.log[g.live[k]] {
      assert At(s, s.top + k) == g.log[g.live[k]];
      DistinctSlots(s.top + k, s.bottom, |s.ring|);
    }
  }

  lemma PushStores<T>(s: State<T>, g: Deque<T>)
    requires Inv(s, g) && s.owner.PushStore?
    ensures Simulates(g, OwnerGo(s))
  {
    RoomBacks(s, g);
    StoreBacks(s.(ring := Room(s)), g, s.owner.val);
  }

  lemma PushPublishes<T>(s: State<T>, g: Deque<T>)
    requires Inv(s, g) && s.owner.PushBottom?
    ensures Simulates(g, OwnerGo(s))
  {
    var s', g' := OwnerGo(s).0, Apply(g, Push(s.owner.val));
    forall k | 0 <= k < |g'.live| ensures g'.live[k] < |g'.log| && At(s', s'.top + k) == g'.log[g'.live[k]] {
      if k < |g.live| { assert At(s, s.top + k) == g.log[g.live[k]]; }
    }
  }

  lemma PopTakes<T>(s: State<T>, g: Deque<T>)
    requires Inv(s, g) && s.owner.PopBody? && s.top < s.bottom
    ensures Simulates(g, OwnerGo(s))
  {
    var s', g' := OwnerGo(s).0, Apply(g, TakeNewest);
    assert At(s, s.top + (|g.live| - 1)) == g.log[g.live[|g.live| - 1]];
    forall k | 0 <= k < |g'.live| ensures g'.live[k] < |g'.log| && At(s', s'.top + k) == g'.log[g'.live[k]] {
      assert At(s, s.top + k) == g.log[g.live[k]];
    }
  }

  lemma OwnerWaits<T>(s: State<T>, g: Deque<T>)
    requires Inv(s, g) && (s.owner.PushLock? || s.owner.PopTest? || s.owner.PopLock?)
    ensures Simulates(g, OwnerGo(s))
  {
  }

  lemma OwnerLeaves<T>(s: State<T>, g: Deque<T>)
    requires Inv(s, g) && (s.owner.PopRead? || s.owner.Unlock? || (s.owner.PopBody? && s.top >= s.bottom))
    ensures Simulates(g, OwnerGo(s))
  {
  }

  lemma OwnerKeeps<T>(s: State<T>, g: Deque<T>)
    requires Inv(s, g)
    ensures Simulates(g, OwnerGo(s))
  {
    match s.owner
    case Idle =>
    case PushLock(_) => OwnerWaits(s, g);
    case PushStore(_) => PushStores(s, g);
    case PushBottom(_) => PushPublishes(s, g);
    case PopTest => OwnerWaits(s, g);
    case PopLock => OwnerWaits(s, g);
    case PopBody => if s.top < s.bottom { PopTakes(s, g); } else { OwnerLeaves(s, g); }
    case PopRead(_) => OwnerLeaves(s, g);
    case Unlock => OwnerLeaves(s, g);
  }

  lemma ThiefAdvances<T>(s: State<T>, g: Deque<T>, t: nat)
    requires Inv(s, g) && t in s.thieves && s.thieves[t].Advance?
    ensures Simulates(g, ThiefGo(s, t))
  {
    assert s.holder == By(Thief(t));
    var s', g' := ThiefGo(s, t).0, Apply(g, TakeOldest(t));
    forall k | 0 <= k < |g'.live| ensures g'.live[k] < |g'.log| && At(s', s'.top + k) == g'.log[g'.live[k]] {
      assert At(s, s.top + (k + 1)) == g.log[g.live[k + 1]];
    }
    assert ThievesOk(s', g');
  }

  lemma ThiefUnlocks<T>(s: State<T>, g: Deque<T>, t: nat)
    requires Inv(s, g) && t in s.thieves && s.thieves[t].UnlockWon?
    ensures Simulates(g, ThiefGo(s, t))
  {
    assert s.holder == By(Thief(t));
    var s', g' := ThiefGo(s, t).0, Apply(g, Return(Thief(t), s.thieves[t].val));
    assert Exclusive(s');
    assert ThievesOk(s', g');
  }

  lemma ThiefLooks<T>(s: State<T>, g: Deque<T>, t: nat)
    requires Inv(s, g) && t in s.thieves && s.thieves[t].Locked?
    ensures Simulates(g, ThiefGo(s, t))
  {
    assert s.top < s.bottom ==> At(s, s.top + 0) == g.log[g.live[0]];
  }

  lemma ThiefGivesUp<T>(s: State<T>, g: Deque<T>, t: nat)
    requires Inv(s, g) && t in s.thieves && s.thieves[t].UnlockEmpty?
    ensures Simulates(g, ThiefGo(s, t))
  {
    assert s.holder == By(Thief(t));
  }

  lemma ThiefKeeps<T>(s: State<T>, g: Deque<T>, t: nat)
    requires Inv(s, g)
    ensures Simulates(g, ThiefGo(s, t))
  {
    if t in s.thieves && s.thieves[t].Advance? {
      ThiefAdvances(s, g, t);
    } else if t in s.thieves && s.thieves[t].UnlockWon? {
      ThiefUnlocks(s, g, t);
    } else if t in s.thieves && s.thieves[t].Locked? {
      ThiefLooks(s, g, t);
    } else if t in s.thieves && s.thieves[t].UnlockEmpty? {
      ThiefGivesUp(s, g, t);
    } else if t in s.thieves && s.thieves[t].TryLock? {
      ThiefTries(s, g, t);
    } else {
      ThiefTests(s, g, t);
    }
  }

  lemma ThiefTests<T>(s: State<T>, g: Deque<T>, t: nat)
    requires Inv(s, g) && (t in s.thieves ==> s.thieves[t].TestBottom?)
    ensures Simulates(g, ThiefGo(s, t))
  {
  }

  lemma ThiefTries<T>(s: State<T>, g: Deque<T>, t: nat)
    requires Inv(s, g) && t in s.thieves && s.thieves[t].TryLock?
    ensures Simulates(g, ThiefGo(s, t))
  {
  }

  // ---------------------------------------------------------------- whole executions

  function Exec<T>(s: State<T>, acts: seq<Act<T>>): (State<T>, seq<Event<T>>)
    requires |s.ring| > 0
    decreases |acts|
  {
    if acts == [] then (s, [])
    else
      var (s1, e) := Step(s, acts[0]);
      var (s2, es) := Exec(s1, acts[1..]);
      (s2, [e] + es)
  }

  lemma StepKeeps<T>(s: State<T>, g: Deque<T>, a: Act<T>)
    requires Inv(s, g)
    ensures Simulates(g, Step(s, a))
  {
    match a
    case Go => OwnerKeeps(s, g);
    case Steal(t) => ThiefKeeps(s, g, t);
    case _ =>
  }

  lemma {:induction false} ExecKeeps<T>(s: State<T>, g: Deque<T>, acts: seq<Act<T>>)
    requires Inv(s, g)
    ensures var (s', es) := Exec(s, acts); AllLegal(g, es) && Inv(s', ApplyAll(g, es))
    decreases |acts|
  {
    if acts != [] {
      StepKeeps(s, g, acts[0]);
      var (s1, e) := Step(s, acts[0]);
      ExecKeeps(s1, Apply(g, e), acts[1..]);
      var (s2, es) := Exec(s1, acts[1..]);
      assert ([e] + es)[1..] == es;
    }
  }

  /** Exactly-once delivery; the unlocked emptiness test of pop is never wrong. */
  lemma BlockingExactlyOnce<T>(ring: seq<T>, acts: seq<Act<T>>)
    requires |ring| > 0
    ensures AllLegal(Empty(), Exec(Init(ring), acts).1)
    ensures Good(ApplyAll(Empty(), Exec(Init(ring), acts).1))
  {
    ExecKeeps(Init(ring), Empty(), acts);
    AlwaysExactlyOnce(Empty(), Exec(Init(ring), acts).1);
  }

  // ---------------------------------------------------------------- every call is answered

  /** The value of the push under way, until it is visible. */
  function DuePush<T>(pc: OwnerPc<T>): seq<T> {
    match pc
    case PushLock(v) => [v]
    case PushStore(v) => [v]
    case PushBottom(v) => [v]
    case _ => []
  }

  /** A pop under way, until it is answered. */
  function DuePop<T>(pc: OwnerPc<T>): nat {
    match pc
    case PopTest => 1
    case PopLock => 1
    case PopBody => 1
    case PopRead(_) => 1
    case _ => 0
  }

  /** The values whose push began, in order. */
  function PushesBegun<T>(s: State<T>, acts: seq<Act<T>>): seq<T>
    requires |s.ring| > 0
    decreases |acts|
  {
    if acts == [] then []
    else
      (if acts[0].StartPush? && s.owner.Idle? then [acts[0].val] else []) + PushesBegun(Step(s, acts[0]).0, acts[1..])
  }

  function PopsBegun<T>(s: State<T>, acts: seq<Act<T>>): nat
    requires |s.ring| > 0
    decreases |acts|
  {
    if acts == [] then 0
    else
      (if acts[0].StartPop? && s.owner.Idle? then 1 else 0) + PopsBegun(Step(s, acts[0]).0, acts[1..])
  }

  lemma StepAccounts<T>(s: State<T>, a: Act<T>)
    requires |s.ring| > 0
    ensures var (s', e) := Step(s, a);
      && DuePush(s.owner) + (if a.StartPush? && s.owner.Idle? then [a.val] else [])
         == (if e.Push? then [e.val] else []) + DuePush(s'.owner)
      && DuePop(s.owner) + (if a.StartPop? && s.owner.Idle? then 1 else 0)
         == (if AnswersPop(e) then 1 else 0) + DuePop(s'.owner)
  {
  }

  lemma {:induction false} RunAccounts<T>(s: State<T>, acts: seq<Act<T>>)
    requires |s.ring| > 0
    ensures var (s', es) := Exec(s, acts);
      && DuePush(s.owner) + PushesBegun(s, acts) == PushedIn(es) + DuePush(s'.owner)
      && DuePop(s.owner) + PopsBegun(s, acts) == PopsAnswered(es) + DuePop(s'.owner)
    decreases |acts|
  {
    if acts != [] {
      var a := acts[0];
      var (s1, e) := Step(s, a);
      StepAccounts(s, a);
      RunAccounts(s1, acts[1..]);
      var (s2, es) := Exec(s1, acts[1..]);
      assert ([e] + es)[0] == e && ([e] + es)[1..] == es;
      Regrouped(DuePush(s.owner), if a.StartPush? && s.owner.Idle? then [a.val] else [],
                if e.Push? then [e.val] else [], DuePush(s1.owner),
                PushesBegun(s1, acts[1..]), PushedIn(es), DuePush(s2.owner));
    }
  }

  /** In every run the log holds every value whose push began but the one under way, and every pop is answered. */
  lemma EveryCallIsAnswered<T>(ring: seq<T>, acts: seq<Act<T>>)
    requires |ring| > 0
    ensures AllLegal(Empty(), Exec(Init(ring), acts).1)
    ensures var (s, es) := Exec(Init(ring), acts);
      && ApplyAll(Empty(), es).log + DuePush(s.owner) == PushesBegun(Init(ring), acts)
      && PopsAnswered(es) + DuePop(s.owner) == PopsBegun(Init(ring), acts)
  {
    BlockingExactlyOnce(ring, acts);
    RunAccounts(Init(ring), acts);
    var (s, es) := Exec(Init(ring), acts);
    LogIsPushed(Empty(), es);
    assert [] + PushesBegun(Init(ring), acts) == PushesBegun(Init(ring), acts) && [] + PushedIn(es) == PushedIn(es);
  }

  function OwnerLeft<T>(pc: OwnerPc<T>): nat {
    match pc
    case Idle => 0
    case Unlock => 1
    case PushBottom(_) => 2
    case PushStore(_) => 3
    case PushLock(_) => 4
    case PopRead(_) => 2
    case PopBody => 3
    case PopLock => 4
    case PopTest => 5
  }

  /** The owner waits only for a thief that is inside. */
  lemma OwnerGetsOn<T>(s: State<T>, g: Deque<T>)
    requires Inv(s, g) && !s.owner.Idle?
    ensures
      || OwnerLeft(OwnerGo(s).0.owner) < OwnerLeft(s.owner)
      || (exists t :: t in s.thieves && ThiefLocks(s.thieves[t]) && s.holder == By(Thief(t)))
  {
    if s.flag && !OwnerLocks(s.owner) {
      var t := s.holder.who.id;
      assert t in s.thieves && ThiefLocks(s.thieves[t]) && s.holder == By(Thief(t));
    }
  }

  function ThiefLeft<T>(pc: ThiefPc<T>): nat {
    match pc
    case TestBottom(_) => 5
    case TryLock => 4
    case Locked => 3
    case Advance(_, _) => 2
    case UnlockWon(_) => 1
    case UnlockEmpty => 1
  }

  /**
   A steal goes on until it ends, the lock is free afterwards if it was inside, and it ends without a
   value only if the deque is empty or somebody else is inside.
   */
  lemma StealEnds<T>(s: State<T>, g: Deque<T>, t: nat)
    requires Inv(s, g)
    ensures var (s', e) := ThiefGo(s, t);
      && (t !in s.thieves ==> t in s'.thieves)
      && (t in s.thieves && t in s'.thieves ==> ThiefLeft(s'.thieves[t]) < ThiefLeft(s.thieves[t]))
      && (t in s.thieves && t in s'.thieves && s'.thieves[t].UnlockEmpty? ==> g.live == [])
      && (t in s.thieves && t !in s'.thieves ==>
            && (ThiefLocks(s.thieves[t]) ==> !s'.flag)
            && match s.thieves[t]
               case UnlockWon(_) => e == Return(Thief(t), g.log[g.owed[Thief(t)]])
               case TestBottom(_) => g.live == []
               case TryLock => s.flag
               case UnlockEmpty => true
               case _ => false)
  {
  }

  /** A thief that nobody disturbs takes the oldest element and returns its value. */
  lemma StealAlone<T>(s: State<T>, g: Deque<T>, t: nat)
    requires Inv(s, g) && s.owner.Idle? && !s.flag && t !in s.thieves && g.live != []
    ensures g.live[0] < |g.log|
    ensures var s1 := ThiefGo(s, t).0;
      && |s1.ring| > 0
      && var s2 := ThiefGo(s1, t).0;
      && |s2.ring| > 0
      && var s3 := ThiefGo(s2, t).0;
      && |s3.ring| > 0
      && var s4 := ThiefGo(s3, t).0;
      && |s4.ring| > 0
      && var (s5, e5) := ThiefGo(s4, t);
      && |s5.ring| > 0 && e5 == TakeOldest(t) && ThiefGo(s5, t).1 == Return(Thief(t), g.log[g.live[0]])
  {
    assert At(s, s.top + 0) == g.log[g.live[0]];
  }

  /** A steal that ends with an empty answer, after its unlocked test or under the lock, found the deque empty. */
  lemma StealEmptyIsRight<T>(ring: seq<T>, acts: seq<Act<T>>, t: nat)
    requires |ring| > 0 && t in Exec(Init(ring), acts).0.thieves && |Exec(Init(ring), acts).0.ring| > 0
    ensures AllLegal(Empty(), Exec(Init(ring), acts).1)
    ensures var (s, es) := Exec(Init(ring), acts);
      var thieves := ThiefGo(s, t).0.thieves;
      (s.thieves[t].TestBottom? && t !in thieves) || (s.thieves[t].Locked? && t in thieves && thieves[t].UnlockEmpty?)
      ==> ApplyAll(Empty(), es).live == []
  {
    ExecKeeps(Init(ring), Empty(), acts);
    var (s, es) := Exec(Init(ring), acts);
    StealEnds(s, ApplyAll(Empty(), es), t);
  }

  /** A push doubles the buffer exactly if the deque fills it. */
  lemma GrowsIffFull<T>(s: State<T>, g: Deque<T>)
    requires Inv(s, g) && s.owner.PushStore?
    ensures |OwnerGo(s).0.ring| == if |g.live| == |s.ring| then 2 * |s.ring| else |s.ring|
  {
  }
}
