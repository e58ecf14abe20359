/**
 The Chase-Lev work-stealing deque: one owner, any number of thieves, every atomic access a step.

 Element i lives in slot i % capacity of the current buffer.  Buffers that were replaced are kept,
 for a thief may still read from one.
 */
module ChaseLev {
  import opened DequeSpec
  import opened Ring

  datatype OwnerPc<T> =
    | Idle
    | PushFit(val: T, top: nat)  // has loaded top, decides whether to resize
    | PushStore(val: T)          // about to write the slot
    | PushPublish(val: T)        // about to store bottom + 1
    | PopTop                     // has stored bottom - 1, about to load top
    | PopCas(top: nat)           // last element: about to compete for it
    | PopRestore                 // found nothing: about to put bottom back
    | PopLast                    // won the last element: about to put bottom back
    | PopRead(index: nat)        // about to read the slot it took

  datatype ThiefPc<T> =
    | Bottom(top: nat)           // has loaded top
    | Buf(top: nat)              // has seen top < bottom, about to load the buffer pointer
    | Slot(top: nat, buf: nat)   // about to read the slot
    | Cas(top: nat, val: T)      // about to compete with the value in hand
    | Won(val: T)

  datatype State<T> = State(
    top: nat, bottom: int, buf: nat, bufs: seq<seq<T>>, owner: OwnerPc<T>, thieves: map<nat, ThiefPc<T>>)

  datatype Act<T> = StartPush(val: T) | StartPop | Go | Steal(thief: nat)

  predicate Shaped<T>(s: State<T>) {
    s.buf < |s.bufs| && forall p :: 0 <= p < |s.bufs| ==> |s.bufs[p]| > 0
  }

  function Init<T>(ring: seq<T>): State<T> {
    State(0, 0, 0, [ring], Idle, map[])
  }

  function At<T>(s: State<T>, p: nat, i: nat): T
    requires Shaped(s) && p < |s.bufs|
  {
    s.bufs[p][i % |s.bufs[p]|]
  }

  /** A buffer of twice the capacity, its other cells arbitrary. */
  function Bigger<T>(ring: seq<T>, bot: nat, top: nat): (r: seq<T>)
    requires |ring| > 0
    ensures |r| == 2 * |ring|
  {
    CopyRange(ring, seq(2 * |ring|, _ => ring[0]), top, bot)
  }

  function Begin<T>(s: State<T>, a: Act<T>): State<T>
    requires a.StartPush? || a.StartPop?
  {
    if !s.owner.Idle? then s
    else if a.StartPush? then s.(owner := PushFit(a.val, s.top))
    else s.(bottom := s.bottom - 1, owner := PopTop)
  }

  function OwnerGo<T>(s: State<T>): (State<T>, Event<T>)
    requires Shaped(s)
  {
    match s.owner
    case Idle => (s, Quiet)
    case PushFit(v, top) =>
      if s.bottom >= 0 && |s.bufs[s.buf]| < s.bottom - top + 1 then
        (s.(bufs := s.bufs + [Bigger(s.bufs[s.buf], s.bottom, top)], buf := |s.bufs|, owner := PushStore(v)), Quiet)
      else (s.(owner := PushStore(v)), Quiet)
    case PushStore(v) =>
      var ring := s.bufs[s.buf];
      (s.(bufs := s.bufs[s.buf := ring[s.bottom % |ring| := v]], owner := PushPublish(v)), Quiet)
    case PushPublish(v) => (s.(bottom := s.bottom + 1, owner := Idle), Push(v))
    case PopTop =>
      if s.top < s.bottom then (s.(owner := PopRead(s.bottom)), TakeNewest)
      else if s.top == s.bottom then (s.(owner := PopCas(s.top)), Quiet)
      else (s.(owner := PopRestore), PopEmpty)
    case PopCas(top) =>
      if s.top == top then (s.(top := top + 1, owner := PopLast), TakeNewest)
      else (s.(owner := PopRestore), PopEmpty)
    case PopRestore => (s.(bottom := s.bottom + 1, owner := Idle), Quiet)
    case PopLast => if s.bottom < 0 then (s, Quiet) else (s.(bottom := s.bottom + 1, owner := PopRead(s.bottom)), Quiet)
    case PopRead(i) => (s.(owner := Idle), Return(Owner, At(s, s.buf, i)))
  }

  /** One step of a thief; a thief outside the map is between steals. */
  function ThiefGo<T>(s: State<T>, t: nat): (State<T>, Event<T>)
    requires Shaped(s)
  {
    if t !in s.thieves then (s.(thieves := s.thieves[t := Bottom(s.top)]), Quiet)
    else
      match s.thieves[t]
      case Bottom(top) =>
        (s.(thieves := if top < s.bottom then s.thieves[t := Buf(top)] else s.thieves - {t}), Quiet)
      case Buf(top) => (s.(thieves := s.thieves[t := Slot(top, s.buf)]), Quiet)
      case Slot(top, p) =>
        if p < |s.bufs| then (s.(thieves := s.thieves[t := Cas(top, At(s, p, top))]), Quiet) else (s, Quiet)
      case Cas(top, v) =>
        if s.top == top then (s.(top := top + 1, thieves := s.thieves[t := Won(v)]), TakeOldest(t))
        else (s.(thieves := s.thieves - {t}), Quiet)
      case Won(v) => (s.(thieves := s.thieves - {t}), Return(Thief(t), v))
  }

  function Step<T>(s: State<T>, a: Act<T>): (State<T>, Event<T>)
    requires Shaped(s)
  {
    match a
    case Go => OwnerGo(s)
    case Steal(t) => ThiefGo(s, t)
    case _ => (Begin(s, a), Quiet)
  }

  // ---------------------------------------------------------------- invariant

  /** Buffer p holds, at indices from top on, what the deque holds. */
  ghost predicate Backs<T>(s: State<T>, g: Deque<T>, p: nat, n: nat)
    requires Shaped(s) && p < |s.bufs|
  {
    && n <= |g.live|
    && forall k :: 0 <= k < n ==> g.live[k] < |g.log| && At(s, p, s.top + k) == g.log[g.live[k]]
  }

  /** A thief that has seen top < bottom will win only the oldest element, with the right value. */
  ghost predicate ThiefOk<T>(s: State<T>, g: Deque<T>, t: nat)
    requires Shaped(s) && t in s.thieves
  {
    match s.thieves[t]
    case Bottom(top) => top <= s.top
    case Buf(top) => top <= s.top && (top == s.top ==> g.live != [])
    case Slot(top, p) => top <= s.top && p < |s.bufs| && (top == s.top ==> Backs(s, g, p, 1))
    case Cas(top, v) =>
      top <= s.top && (top == s.top ==> g.live != [] && g.live[0] < |g.log| && v == g.log[g.live[0]])
    case Won(v) => Thief(t) in g.owed && g.owed[Thief(t)] < |g.log| && v == g.log[g.owed[Thief(t)]]
  }

  ghost predicate ThievesOk<T>(s: State<T>, g: Deque<T>)
    requires Shaped(s)
  {
    && (forall t :: t in s.thieves ==> ThiefOk(s, g, t))
    && (forall t :: Thief(t) in g.owed ==> t in s.thieves && s.thieves[t].Won?)
  }

  /** The owner holds index i and its slot. */
  ghost predicate Holds<T>(s: State<T>, g: Deque<T>, i: nat)
    requires Shaped(s)
  {
    Owner in g.owed && g.owed[Owner] < |g.log| && At(s, s.buf, i) == g.log[g.owed[Owner]]
  }

  ghost predicate OwnerOk<T>(s: State<T>, g: Deque<T>)
    requires Shaped(s)
  {
    var n := |g.live|;
    match s.owner
    case Idle => s.bottom == s.top + n && Owner !in g.owed
    case PushFit(_, top) =>
      s.bottom == s.top + n && Owner !in g.owed && top <= s.top && s.bottom - top <= |s.bufs[s.buf]|
    case PushStore(_) => s.bottom == s.top + n && Owner !in g.owed && n < |s.bufs[s.buf]|
    case PushPublish(v) =>
      && s.bottom == s.top + n && Owner !in g.owed && n < |s.bufs[s.buf]|
      && At(s, s.buf, s.top + n) == v
    case PopTop => s.bottom + 1 == s.top + n && Owner !in g.owed
    case PopCas(top) => s.bottom + 1 == s.top + n && Owner !in g.owed && top == s.bottom && top <= s.top
    case PopRestore => s.bottom + 1 == s.top && n == 0 && Owner !in g.owed
    case PopLast => 1 <= s.top && s.bottom + 1 == s.top && n == 0 && Holds(s, g, s.top - 1)
    case PopRead(i) => s.bottom == s.top + n && Holds(s, g, i)
  }

  ghost predicate Inv<T>(s: State<T>, g: Deque<T>) {
    && Shaped(s) && |g.live| <= |s.bufs[s.buf]|
    && Backs(s, g, s.buf, |g.live|) && ThievesOk(s, g) && OwnerOk(s, g)
  }

  ghost predicate Simulates<T>(g: Deque<T>, next: (State<T>, Event<T>)) {
    Legal(g, next.1) && Inv(next.0, Apply(g, next.1))
  }

  // ---------------------------------------------------------------- owner

  /** Owner steps that leave top, the buffers and the old elements alone leave the thieves alone. */
  lemma ThievesFrame<T>(s: State<T>, g: Deque<T>, s': State<T>, g': Deque<T>)
    requires Shaped(s) && ThievesOk(s, g) && Shaped(s') && s'.thieves == s.thieves && s'.top == s.top
    requires |s.bufs| <= |s'.bufs| && forall p :: 0 <= p < |s.bufs| ==> s'.bufs[p] == s.bufs[p]
    requires g.log <= g'.log
    requires g.live != [] ==> g'.live != [] && g'.live[0] == g.live[0]
    requires forall t :: Thief(t) in g'.owed <==> Thief(t) in g.owed
    requires forall t :: Thief(t) in g.owed ==> g'.owed[Thief(t)] == g.owed[Thief(t)]
    ensures ThievesOk(s', g')
  {
  }

  lemma PushGrows<T>(s: State<T>, g: Deque<T>)
    requires Inv(s, g) && s.owner.PushFit?
    ensures Simulates(g, OwnerGo(s))
  {
    var top, ring := s.owner.top, s.bufs[s.buf];
    var s' := OwnerGo(s).0;
    if |ring| < s.bottom - top + 1 {
      var start := seq(2 * |ring|, _ => ring[0]);
      forall k | 0 <= k < |g.live| ensures At(s', s'.buf, s.top + k) == g.log[g.live[k]] {
        assert At(s, s.buf, s.top + k) == g.log[g.live[k]];
        CopyKeeps(ring, start, top, s.bottom, s.top + k);
      }
    }
    ThievesFrame(s, g, s', g);
  }

  /** Writing the next free slot disturbs no live element and no thief that can still win. */
  lemma PushStores<T>(s: State<T>, g: Deque<T>)
    requires Inv(s, g) && s.owner.PushStore?
    ensures Simulates(g, OwnerGo(s))
  {
    var ring, n := s.bufs[s.buf], |g.live|;
    var s' := OwnerGo(s).0;
    forall k | 0 <= k < n ensures At(s', s'.buf, s.top + k) == g.log[g.live[k]] {
      assert At(s, s.buf, s.top + k) == g.log[g.live[k]];
      DistinctSlots(s.top + k, s.top + n, |ring|);
    }
    forall t | t in s'.thieves ensures ThiefOk(s', g, t) {
      assert ThiefOk(s, g, t);
    }
  }

  lemma PushPublishes<T>(s: State<T>, g: Deque<T>)
    requires Inv(s, g) && s.owner.PushPublish?
    ensures Simulates(g, OwnerGo(s))
  {
    var s', g' := OwnerGo(s).0, Apply(g, Push(s.owner.val));
    forall k | 0 <= k < |g'.live| ensures g'.live[k] < |g'.log| && At(s', s'.buf, s.top + k) == g'.log[g'.live[k]] {
      if k < |g.live| { assert At(s, s.buf, s.top + k) == g.log[g.live[k]]; }
    }
    ThievesFrame(s, g, s', g');
  }

  /** The element the owner takes is the last of those the buffer backs. */
  lemma PopTakes<T>(s: State<T>, g: Deque<T>)
    requires Inv(s, g) && s.owner.PopTop? && s.top < s.bottom
    ensures Simulates(g, OwnerGo(s))
  {
    var s', g' := OwnerGo(s).0, Apply(g, TakeNewest);
    var n := |g.live| - 1;
    assert At(s, s.buf, s.top + n) == g.log[g.live[n]];
    forall k | 0 <= k < n ensures g'.live[k] < |g'.log| && At(s', s'.buf, s.top + k) == g'.log[g'.live[k]] {
      assert At(s, s.buf, s.top + k) == g.log[g.live[k]];
    }
    ThievesFrame(s, g, s', g');
  }

  /** Winning the last element leaves every thief behind. */
  lemma PopWinsLast<T>(s: State<T>, g: Deque<T>)
    requires Inv(s, g) && s.owner.PopCas? && s.top == s.owner.top
    ensures Simulates(g, OwnerGo(s))
  {
    var s', g' := OwnerGo(s).0, Apply(g, TakeNewest);
    assert |g.live| == 1;
    assert At(s, s.buf, s.top + 0) == g.log[g.live[0]];
    forall t | t in s'.thieves ensures ThiefOk(s', g', t) {
      assert ThiefOk(s, g, t);
    }
  }

  lemma PopReads<T>(s: State<T>, g: Deque<T>)
    requires Inv(s, g) && s.owner.PopRead?
    ensures Simulates(g, OwnerGo(s))
  {
    var e := Return(Owner, At(s, s.buf, s.owner.index));
    ThievesFrame(s, g, s.(owner := Idle), Apply(g, e));
  }

  lemma OwnerKeeps<T>(s: State<T>, g: Deque<T>)
    requires Inv(s, g)
    ensures Simulates(g, OwnerGo(s))
  {
    match s.owner
    case PushFit(_, _) => PushGrows(s, g);
    case PushStore(_) => PushStores(s, g);
    case PushPublish(_) => PushPublishes(s, g);
    case PopRead(_) => PopReads(s, g);
    case PopTop => if s.top < s.bottom { PopTakes(s, g); } else { ThievesFrame(s, g, OwnerGo(s).0, g); }
    case PopCas(top) => if s.top == top { PopWinsLast(s, g); } else { ThievesFrame(s, g, OwnerGo(s).0, g); }
    case _ => ThievesFrame(s, g, OwnerGo(s).0, g);
  }

  lemma BeginKeeps<T>(s: State<T>, g: Deque<T>, a: Act<T>)
    requires Inv(s, g) && (a.StartPush? || a.StartPop?)
    ensures Inv(Begin(s, a), g)
  {
    ThievesFrame(s, g, Begin(s, a), g);
  }

  // ---------------------------------------------------------------- thieves

  /** A thief's step that only moves its own program counter. */
  lemma ThiefMoves<T>(s: State<T>, g: Deque<T>, t: nat, s': State<T>)
    requires Inv(s, g) && (t in s.thieves ==> !s.thieves[t].Won?)
    requires s'.(thieves := s.thieves) == s && s'.thieves - {t} == s.thieves - {t}
    requires t in s'.thieves ==> ThiefOk(s', g, t)
    ensures Inv(s', g)
  {
    forall u | u in s'.thieves ensures ThiefOk(s', g, u) {
      if u != t {
        assert u in s.thieves - {t} && s.thieves[u] == (s.thieves - {t})[u] == (s'.thieves - {t})[u] == s'.thieves[u];
        assert ThiefOk(s, g, u);
      }
    }
    forall u | Thief(u) in g.owed ensures u in s'.thieves && s'.thieves[u].Won? {
      assert u in s.thieves - {t} && s.thieves[u] == (s.thieves - {t})[u] == (s'.thieves - {t})[u];
    }
  }

  /** The exchange succeeds only for a thief that read the slot of the oldest element. */
  lemma ThiefWins<T>(s: State<T>, g: Deque<T>, t: nat)
    requires Inv(s, g) && t in s.thieves && s.thieves[t].Cas? && s.thieves[t].top == s.top
    ensures Simulates(g, ThiefGo(s, t))
  {
    assert ThiefOk(s, g, t);
    var s', g' := ThiefGo(s, t).0, Apply(g, TakeOldest(t));
    forall k | 0 <= k < |g'.live| ensures g'.live[k] < |g'.log| && At(s', s'.buf, s'.top + k) == g'.log[g'.live[k]] {
      assert At(s, s.buf, s.top + (k + 1)) == g.log[g.live[k + 1]];
    }
    forall u | u in s'.thieves ensures ThiefOk(s', g', u) {
      if u != t { assert ThiefOk(s, g, u); }
    }
  }

  lemma ThiefReturns<T>(s: State<T>, g: Deque<T>, t: nat)
    requires Inv(s, g) && t in s.thieves && s.thieves[t].Won?
    ensures Simulates(g, ThiefGo(s, t))
  {
    assert ThiefOk(s, g, t);
    var s', g' := ThiefGo(s, t).0, Apply(g, Return(Thief(t), s.thieves[t].val));
    forall u | u in s'.thieves ensures ThiefOk(s', g', u) {
      assert ThiefOk(s, g, u);
    }
  }

  lemma ThiefKeeps<T>(s: State<T>, g: Deque<T>, t: nat)
    requires Inv(s, g)
    ensures Simulates(g, ThiefGo(s, t))
  {
    if t in s.thieves {
      assert ThiefOk(s, g, t);
      if s.thieves[t].Won? {
        ThiefReturns(s, g, t);
      } else if s.thieves[t].Cas? && s.thieves[t].top == s.top {
        ThiefWins(s, g, t);
      } else {
        ThiefMoves(s, g, t, ThiefGo(s, t).0);
      }
    } else {
      ThiefMoves(s, g, t, ThiefGo(s, t).0);
    }
  }

  // ---------------------------------------------------------------- whole executions

  lemma StepShaped<T>(s: State<T>, a: Act<T>)
    requires Shaped(s)
    ensures Shaped(Step(s, a).0)
  {
  }

  function Exec<T>(s: State<T>, acts: seq<Act<T>>): (State<T>, seq<Event<T>>)
    requires Shaped(s)
    decreases |acts|
  {
    if acts == [] then (s, [])
    else
      var (s1, e) := Step(s, acts[0]);
      StepShaped(s, acts[0]);
      var (s2, es) := Exec(s1, acts[1..]);
      (s2, [e] + es)
  }

  lemma {:induction false} ExecKeeps<T>(s: State<T>, g: Deque<T>, acts: seq<Act<T>>)
    requires Inv(s, g)
    ensures var (s', es) := Exec(s, acts); AllLegal(g, es) && Inv(s', ApplyAll(g, es))
    decreases |acts|
  {
    if acts != [] {
      match acts[0] {
        case Go => OwnerKeeps(s, g);
        case Steal(t) => ThiefKeeps(s, g, t);
        case _ => BeginKeeps(s, g, acts[0]);
      }
      var (s1, e) := Step(s, acts[0]);
      ExecKeeps(s1, Apply(g, e), acts[1..]);
      var (s2, es) := Exec(s1, acts[1..]);
      assert ([e] + es)[1..] == es;
    }
  }

  /** Exactly-once delivery in every interleaving, resizes and last-element races included. */
  lemma ChaseLevExactlyOnce<T>(ring: seq<T>, acts: seq<Act<T>>)
    requires |ring| > 0
    ensures AllLegal(Empty(), Exec(Init(ring), acts).1)
    ensures Good(ApplyAll(Empty(), Exec(Init(ring), acts).1))
  {
    assert Inv(Init(ring), Empty());
    ExecKeeps(Init(ring), Empty(), acts);
    AlwaysExactlyOnce(Empty(), Exec(Init(ring), acts).1);
  }

  // ---------------------------------------------------------------- every call is answered

  /** The value of the push under way, until it is visible. */
  function DuePush<T>(pc: OwnerPc<T>): seq<T> {
    match pc
    case PushFit(v, _) => [v]
    case PushStore(v) => [v]
    case PushPublish(v) => [v]
    case _ => []
  }

  /** A pop under way, until it is answered. */
  function DuePop<T>(pc: OwnerPc<T>): nat {
    match pc
    case PopTop => 1
    case PopCas(_) => 1
    case PopLast => 1
    case PopRead(_) => 1
    case _ => 0
  }

  /** The values whose push began, in order. */
  function PushesBegun<T>(s: State<T>, acts: seq<Act<T>>): seq<T>
    requires Shaped(s)
    decreases |acts|
  {
    if acts == [] then []
    else
      StepShaped(s, acts[0]);
      (if acts[0].StartPush? && s.owner.Idle? then [acts[0].val] else []) + PushesBegun(Step(s, acts[0]).0, acts[1..])
  }

  function PopsBegun<T>(s: State<T>, acts: seq<Act<T>>): nat
    requires Shaped(s)
    decreases |acts|
  {
    if acts == [] then 0
    else
      StepShaped(s, acts[0]);
      (if acts[0].StartPop? && s.owner.Idle? then 1 else 0) + PopsBegun(Step(s, acts[0]).0, acts[1..])
  }

  lemma StepAccounts<T>(s: State<T>, a: Act<T>)
    requires Shaped(s)
    ensures var (s', e) := Step(s, a);
      && DuePush(s.owner) + (if a.StartPush? && s.owner.Idle? then [a.val] else [])
         == (if e.Push? then [e.val] else []) + DuePush(s'.owner)
      && DuePop(s.owner) + (if a.StartPop? && s.owner.Idle? then 1 else 0)
         == (if AnswersPop(e) then 1 else 0) + DuePop(s'.owner)
  {
  }

  lemma {:induction false} RunAccounts<T>(s: State<T>, acts: seq<Act<T>>)
    requires Shaped(s)
    ensures var (s', es) := Exec(s, acts);
      && DuePush(s.owner) + PushesBegun(s, acts) == PushedIn(es) + DuePush(s'.owner)
      && DuePop(s.owner) + PopsBegun(s, acts) == PopsAnswered(es) + DuePop(s'.owner)
    decreases |acts|
  {
    if acts != [] {
      StepShaped(s, acts[0]);
      var a := acts[0];
      var (s1, e) := Step(s, a);
      StepAccounts(s, a);
      RunAccounts(s1, acts[1..]);
      var (s2, es) := Exec(s1, acts[1..]);
      assert ([e] + es)[0] == e && ([e] + es)[1..] == es;
      Regrouped(DuePush(s.owner), if a.StartPush? && s.owner.Idle? then [a.val] else [],
                if e.Push? then [e.val] else [], DuePush(s1.owner),
                PushesBegun(s1, acts[1..]), PushedIn(es), DuePush(s2.owner));
    }
  }

  /** In every run the log holds every value whose push began but the one under way, and every pop is answered. */
  lemma EveryCallIsAnswered<T>(ring: seq<T>, acts: seq<Act<T>>)
    requires |ring| > 0
    ensures AllLegal(Empty(), Exec(Init(ring), acts).1)
    ensures var (s, es) := Exec(Init(ring), acts);
      && ApplyAll(Empty(), es).log + DuePush(s.owner) == PushesBegun(Init(ring), acts)
      && PopsAnswered(es) + DuePop(s.owner) == PopsBegun(Init(ring), acts)
  {
    ChaseLevExactlyOnce(ring, acts);
    RunAccounts(Init(ring), acts);
    var (s, es) := Exec(Init(ring), acts);
    LogIsPushed(Empty(), es);
    assert [] + PushesBegun(Init(ring), acts) == PushesBegun(Init(ring), acts) && [] + PushedIn(es) == PushedIn(es);
  }

  /** Steps that the owner still needs, at most. */
  function OwnerLeft<T>(pc: OwnerPc<T>): nat {
    match pc
    case Idle => 0
    case PushFit(_, _) => 3
    case PushStore(_) => 2
    case PushPublish(_) => 1
    case PopTop => 5
    case PopCas(_) => 4
    case PopLast => 3
    case PopRead(_) => 2
    case PopRestore => 1
  }

  /** The owner never waits: each of its steps brings its call closer to its end. */
  lemma OwnerGetsOn<T>(s: State<T>, g: Deque<T>)
    requires Inv(s, g) && !s.owner.Idle?
    ensures OwnerLeft(OwnerGo(s).0.owner) < OwnerLeft(s.owner)
  {
  }

  function ThiefLeft<T>(pc: ThiefPc<T>): nat {
    match pc
    case Bottom(_) => 5
    case Buf(_) => 4
    case Slot(_, _) => 3
    case Cas(_, _) => 2
    case Won(_) => 1
  }

  /**
   A steal goes on until it ends, and it ends without a value only if the deque is empty or the owner is
   popping its only element, or if somebody else has taken the element since.
   */
  lemma StealEnds<T>(s: State<T>, g: Deque<T>, t: nat)
    requires Inv(s, g)
    ensures var (s', e) := ThiefGo(s, t);
      && (t !in s.thieves ==> t in s'.thieves)
      && (t in s.thieves && t in s'.thieves ==> ThiefLeft(s'.thieves[t]) < ThiefLeft(s.thieves[t]))
      && (t in s.thieves && t !in s'.thieves ==>
            || (s.thieves[t].Won? && e == Return(Thief(t), g.log[g.owed[Thief(t)]]))
            || (s.thieves[t].Bottom? && (g.live == [] || (|g.live| == 1 && (s.owner.PopTop? || s.owner.PopCas?))))
            || (s.thieves[t].Cas? && s.thieves[t].top < s.top))
  {
    if t in s.thieves { assert ThiefOk(s, g, t); }
  }

  /** A thief that nobody disturbs takes the oldest element and returns its value. */
  lemma StealAlone<T>(s: State<T>, g: Deque<T>, t: nat)
    requires Inv(s, g) && s.owner.Idle? && t !in s.thieves && g.live != []
    ensures g.live[0] < |g.log|
    ensures var s1 := ThiefGo(s, t).0;
      && Shaped(s1)
      && var s2 := ThiefGo(s1, t).0;
      && Shaped(s2)
      && var s3 := ThiefGo(s2, t).0;
      && Shaped(s3)
      && var s4 := ThiefGo(s3, t).0;
      && Shaped(s4)
      && var (s5, e5) := ThiefGo(s4, t);
      && Shaped(s5) && e5 == TakeOldest(t) && ThiefGo(s5, t).1 == Return(Thief(t), g.log[g.live[0]])
  {
    assert At(s, s.buf, s.top + 0) == g.log[g.live[0]];
  }

  /** A steal that ends with an empty answer found the deque empty, or the owner popping its only element. */
  lemma StealEmptyIsRight<T>(ring: seq<T>, acts: seq<Act<T>>, t: nat)
    requires |ring| > 0 && Shaped(Exec(Init(ring), acts).0) && t in Exec(Init(ring), acts).0.thieves
    ensures AllLegal(Empty(), Exec(Init(ring), acts).1)
    ensures var (s, es) := Exec(Init(ring), acts);
      var g := ApplyAll(Empty(), es);
      s.thieves[t].Bottom? && t !in ThiefGo(s, t).0.thieves ==>
        g.live == [] || (|g.live| == 1 && (s.owner.PopTop? || s.owner.PopCas?))
  {
    assert Inv(Init(ring), Empty());
    ExecKeeps(Init(ring), Empty(), acts);
    var (s, es) := Exec(Init(ring), acts);
    StealEnds(s, ApplyAll(Empty(), es), t);
  }

  /** A push doubles the buffer exactly if the deque filled it when the push began. */
  lemma GrowsIffFull<T>(s: State<T>, g: Deque<T>)
    requires Inv(s, g) && s.owner.PushFit?
    ensures var (s', cap) := (OwnerGo(s).0, |s.bufs[s.buf]|);
      && Shaped(s') && s'.bufs[..|s.bufs|] == s.bufs
      && if s.bottom - s.owner.top == cap then |s'.bufs[s'.buf]| == 2 * cap && |s'.bufs| == |s.bufs| + 1
         else s'.buf == s.buf && s'.bufs == s.bufs
  {
  }
}
