/** What becomes of the calls on a Lace deque: every one is answered, and a steal that finds nothing asks to share. */
module LaceCalls {
  import opened DequeSpec
  import opened Lace
  import opened LaceCapacity

  // ---------------------------------------------------------------- every call is answered

  /** The value of the push under way, until it is visible. */
  function DuePush<T>(pc: OwnerPc<T>): seq<T> {
    match pc
    case PushReset(v) => [v]
    case PushCheck(v) => [v]
    case PushEnd(v) => [v]
    case Grow(FinishPush(v)) => [v]
    case GrowFlag(FinishPush(v)) => [v]
    case GrowUnask(FinishPush(v)) => [v]
    case _ => []
  }

  /** A pop under way, until it is answered. */
  function DuePop<T>(pc: OwnerPc<T>): nat {
    match pc
    case FastRead => 1
    case ColdRead => 1
    case ShrinkLoad => 1
    case ShrinkSub(_, _) => 1
    case ShrinkFresh(_, _) => 1
    case ShrinkFix(_, _) => 1
    case MarkStolen => 1
    case ColdTake => 1
    case Wild => 1
    case _ => 0
  }

  /** The values whose push began, in order. */
  function PushesBegun<T>(s: State<T>, acts: seq<Act<T>>): seq<T>
    requires |s.slots| > 0
    decreases |acts|
  {
    if acts == [] then []
    else
      StepKeepsSize(s, acts[0]);
      (if acts[0].StartPush? && s.owner.Idle? then [acts[0].val] else []) + PushesBegun(Step(s, acts[0]).0, acts[1..])
  }

  function PopsBegun<T>(s: State<T>, acts: seq<Act<T>>): nat
    requires |s.slots| > 0
    decreases |acts|
  {
    if acts == [] then 0
    else
      StepKeepsSize(s, acts[0]);
      (if acts[0].StartPop? && s.owner.Idle? then 1 else 0) + PopsBegun(Step(s, acts[0]).0, acts[1..])
  }

  /** A step from one place to another that begins, makes visible and answers just this. */
  ghost predicate Accounts<T>(pc: OwnerPc<T>, begun: seq<T>, pops: nat, pc': OwnerPc<T>, e: Event<T>) {
    && DuePush(pc) + begun == (if e.Push? then [e.val] else []) + DuePush(pc')
    && DuePop(pc) + pops == (if AnswersPop(e) then 1 else 0) + DuePop(pc')
  }

  lemma PushAccounts<T>(s: State<T>)
    requires |s.slots| > 0
    requires s.owner.Idle? || s.owner.PushReset? || s.owner.PushPublish? || s.owner.PushAsk? || s.owner.PushUnask?
          || s.owner.PushCheck? || s.owner.PushEnd? || s.owner.PushEndShared?
    ensures Accounts(s.owner, [], 0, OwnerGo(s).0.owner, OwnerGo(s).1)
  {
  }

  lemma GrowAccounts<T>(s: State<T>)
    requires |s.slots| > 0 && (s.owner.Grow? || s.owner.GrowFlag? || s.owner.GrowUnask?)
    ensures Accounts(s.owner, [], 0, OwnerGo(s).0.owner, OwnerGo(s).1)
  {
  }

  lemma PopAccounts<T>(s: State<T>)
    requires |s.slots| > 0
    requires s.owner.FastRead? || s.owner.ColdRead? || s.owner.PopCheck? || s.owner.MarkStolen? || s.owner.ColdTake?
          || s.owner.Wild?
    ensures Accounts(s.owner, [], 0, OwnerGo(s).0.owner, OwnerGo(s).1)
  {
  }

  lemma ShrinkAccounts<T>(s: State<T>)
    requires |s.slots| > 0
    requires s.owner.ShrinkLoad? || s.owner.ShrinkSub? || s.owner.ShrinkFresh? || s.owner.ShrinkFix?
    ensures Accounts(s.owner, [], 0, OwnerGo(s).0.owner, OwnerGo(s).1)
  {
  }

  lemma StealAccounts<T>(s: State<T>, t: nat)
    requires |s.slots| > 0
    ensures Accounts(s.owner, [], 0, ThiefGo(s, t).0.owner, ThiefGo(s, t).1)
  {
    assert ThiefGo(s, t).0.owner == s.owner;
    assert !ThiefGo(s, t).1.Push? && !AnswersPop(ThiefGo(s, t).1);
  }

  lemma StepAccounts<T>(s: State<T>, a: Act<T>)
    requires |s.slots| > 0
    ensures var (s', e) := Step(s, a);
      Accounts(s.owner, if a.StartPush? && s.owner.Idle? then [a.val] else [],
               if a.StartPop? && s.owner.Idle? then 1 else 0, s'.owner, e)
  {
    match a
    case StartPush(_) =>
    case StartPop =>
    case Steal(t) => StealAccounts(s, t);
    case Go =>
      if s.owner.Grow? || s.owner.GrowFlag? || s.owner.GrowUnask? {
        GrowAccounts(s);
      } else if s.owner.ShrinkLoad? || s.owner.ShrinkSub? || s.owner.ShrinkFresh? || s.owner.ShrinkFix? {
        ShrinkAccounts(s);
      } else if s.owner.FastRead? || s.owner.ColdRead? || s.owner.PopCheck? || s.owner.MarkStolen?
             || s.owner.ColdTake? || s.owner.Wild? {
        PopAccounts(s);
      } else {
        PushAccounts(s);
      }
  }

  lemma {:induction false} RunAccounts<T>(s: State<T>, acts: seq<Act<T>>)
    requires |s.slots| > 0
    ensures var (s', es) := Exec(s, acts);
      && DuePush(s.owner) + PushesBegun(s, acts) == PushedIn(es) + DuePush(s'.owner)
      && DuePop(s.owner) + PopsBegun(s, acts) == PopsAnswered(es) + DuePop(s'.owner)
    decreases |acts|
  {
    if acts != [] {
      StepKeepsSize(s, acts[0]);
      var a := acts[0];
      var (s1, e) := Step(s, a);
      StepAccounts(s, a);
      RunAccounts(s1, acts[1..]);
      var (s2, es) := Exec(s1, acts[1..]);
      assert ([e] + es)[0] == e && ([e] + es)[1..] == es;
      Regrouped(DuePush(s.owner), if a.StartPush? && s.owner.Idle? then [a.val] else [],
                if e.Push? then [e.val] else [], DuePush(s1.owner),
                PushesBegun(s1, acts[1..]), PushedIn(es), DuePush(s2.owner));
    }
  }

  /** In every run the log holds every value whose push began but the one under way, and every pop is answered. */
  lemma EveryCallIsAnswered<T>(slots: seq<T>, acts: seq<Act<T>>)
    requires 0 < |slots| <= U31 && Below(Init(slots), acts, |slots|)
    ensures AllLegal(Empty(), Exec(Init(slots), acts).1)
    ensures var (s, es) := Exec(Init(slots), acts);
      && ApplyAll(Empty(), es).log + DuePush(s.owner) == PushesBegun(Init(slots), acts)
      && PopsAnswered(es) + DuePop(s.owner) == PopsBegun(Init(slots), acts)
  {
    RunsLegally(slots, acts);
    RunAccounts(Init(slots), acts);
    var (s, es) := Exec(Init(slots), acts);
    LogIsPushed(Empty(), es);
    assert [] + PushesBegun(Init(slots), acts) == PushesBegun(Init(slots), acts) && [] + PushedIn(es) == PushedIn(es);
  }

  /** Steps that the owner still needs, at most. */
  function OwnerLeft<T>(pc: OwnerPc<T>): nat {
    match pc
    case Idle => 0
    case Wild => 0
    case PushEnd(_) => 1
    case PushEndShared => 1
    case PushUnask => 2
    case PushAsk => 3
    case PushPublish => 4
    case PushReset(_) => 5
    case GrowUnask(_) => 2
    case GrowFlag(_) => 3
    case Grow(_) => 4
    case PushCheck(_) => 5
    case PopCheck => 5
    case FastRead => 6
    case ColdRead => 6
    case MarkStolen => 1
    case ColdTake => 7
    case ShrinkFix(_, _) => 8
    case ShrinkFresh(_, _) => 9
    case ShrinkSub(_, _) => 10
    case ShrinkLoad => 11
  }

  /** What getting on needs of the state: no read outside the array, and an element under a cold take. */
  predicate CanGo<T>(s: State<T>) {
    && !s.owner.Idle? && !s.owner.Wild?
    && (s.owner.FastRead? ==> s.bottom < |s.slots|)
    && (s.owner.ColdTake? ==> 0 < s.bottom)
  }

  lemma PushGetsOn<T>(s: State<T>)
    requires |s.slots| > 0 && CanGo(s)
    requires s.owner.PushReset? || s.owner.PushPublish? || s.owner.PushAsk? || s.owner.PushUnask?
          || s.owner.PushCheck? || s.owner.PushEnd? || s.owner.PushEndShared?
          || s.owner.Grow? || s.owner.GrowFlag? || s.owner.GrowUnask?
    ensures OwnerLeft(OwnerGo(s).0.owner) < OwnerLeft(s.owner)
  {
  }

  lemma PopGetsOn<T>(s: State<T>)
    requires |s.slots| > 0 && CanGo(s)
    requires s.owner.FastRead? || s.owner.ColdRead? || s.owner.PopCheck? || s.owner.MarkStolen? || s.owner.ColdTake?
          || s.owner.ShrinkLoad? || s.owner.ShrinkSub? || s.owner.ShrinkFresh? || s.owner.ShrinkFix?
    ensures OwnerLeft(OwnerGo(s).0.owner) < OwnerLeft(s.owner)
  {
  }

  /** The owner never waits: each of its steps brings its call closer to its end. */
  lemma OwnerGetsOn<T>(s: State<T>, g: Deque<T>)
    requires Inv(s, g) && !s.owner.Idle?
    ensures OwnerLeft(OwnerGo(s).0.owner) < OwnerLeft(s.owner)
  {
    assert CanGo(s);
    if s.owner.FastRead? || s.owner.ColdRead? || s.owner.PopCheck? || s.owner.MarkStolen? || s.owner.ColdTake?
    || s.owner.ShrinkLoad? || s.owner.ShrinkSub? || s.owner.ShrinkFresh? || s.owner.ShrinkFix? {
      PopGetsOn(s);
    } else {
      PushGetsOn(s);
    }
  }

  function ThiefLeft(pc: ThiefPc): nat {
    match pc
    case Load => 3
    case Ask => 1
    case Cas(_) => 2
    case Read(_) => 1
  }

  /**
   A steal goes on until it ends.  It competes exactly if it finds something shared; it ends without a
   value only after it has asked the owner to share, or if the word has changed since it looked.
   */
  lemma StealEnds<T>(s: State<T>, t: nat)
    requires |s.slots| > 0
    ensures var (s', e) := ThiefGo(s, t);
      && (t !in s.thieves && !s.allstolen ==> t in s'.thieves && s'.thieves[t] == Load)
      && (t in s.thieves && s.thieves[t].Load? ==>
            t in s'.thieves && s'.thieves[t] == if Ahead(SplitOf(s.word), Top(s.word)) then Cas(s.word) else Ask)
      && (t in s.thieves && t in s'.thieves ==> ThiefLeft(s'.thieves[t]) < ThiefLeft(s.thieves[t]))
      && (t in s.thieves && t !in s'.thieves ==>
            || (s.thieves[t].Read? && e.Return? && e.who == Thief(t))
            || (s.thieves[t].Ask? && s'.splitreq)
            || (s.thieves[t].Cas? && s.thieves[t].seen != s.word))
  {
  }

  // ---------------------------------------------------------------- a request is honoured

  function Tries<T>(t: nat): seq<Act<T>> { [Steal(t), Steal(t), Steal(t)] }

  /** A steal that finds nothing shared leaves nothing but its request. */
  lemma AsksInVain<T>(s: State<T>, g: Deque<T>, t: nat)
    requires Inv(s, g) && FlagOk(s)
    requires s.owner.Idle? && !s.oAllstolen && t !in s.thieves && SplitOf(s.word) <= |g.stolen|
    ensures Exec(s, Tries(t)).0 == s.(splitreq := true)
  {
    EmptyFor(s, g);
    var s1 := s.(thieves := s.thieves[t := Load]);
    var s2 := s.(thieves := s.thieves[t := Load][t := Ask]);
    assert s.thieves[t := Load][t := Ask] - {t} == s.thieves;
    ExecCons(s2, Steal(t), []);
    ExecCons(s1, Steal(t), [Steal(t)]);
    ExecCons(s, Steal(t), [Steal(t), Steal(t)]);
  }

  /** The private part and its share: half of it, rounded up. */
  function Share<T>(s: State<T>): nat
    requires s.osplit <= s.bottom
  {
    (s.bottom - s.osplit + 1) / 2
  }

  function Shared<T>(s: State<T>, v: T): State<T>
    requires s.osplit <= s.bottom < |s.slots|
  {
    s.(slots := s.slots[s.bottom := v], word := U64(s.word + Share(s) * B32), osplit := s.osplit + Share(s),
       oAllstolen := false, allstolen := false, splitreq := false, bottom := s.bottom + 1)
  }

  function Asked<T>(v: T): seq<Act<T>> { [StartPush(v), Go, Go, Go, Go, Go] }

  /** From the check to the end of a push that finds a request. */
  lemma GrowAtPush<T>(s: State<T>, v: T)
    requires |s.slots| > 0 && s.owner == PushCheck(v) && s.splitreq && s.osplit < s.bottom <= U31
    ensures Exec(s, [Go, Go]).0 == s.(word := U64(s.word + Share(s) * B32), osplit := s.osplit + Share(s),
                                      oAllstolen := false, owner := GrowFlag(FinishPush(v)))
  {
    var after := FinishPush(v);
    var s1 := s.(owner := Grow(after));
    assert Step(s, Go).0 == s1;
    GrowComputes(s1, after);
    assert Step(s1, Go).0 == DoGrow(s1, after);
    ExecCons(s1, Go, []);
    ExecCons(s, Go, [Go]);
  }

  lemma UnaskEnds<T>(s: State<T>, v: T)
    requires |s.slots| > 0 && s.owner == GrowUnask(FinishPush(v))
    ensures Exec(s, [Go, Go]).0 == s.(splitreq := false, bottom := s.bottom + 1, owner := Idle)
  {
    var s1 := s.(splitreq := false, owner := PushEnd(v));
    assert Step(s, Go).0 == s1;
    ExecCons(s1, Go, []);
    ExecCons(s, Go, [Go]);
  }

  lemma GrowFinishes<T>(s: State<T>, v: T)
    requires |s.slots| > 0 && s.owner == GrowFlag(FinishPush(v))
    ensures Exec(s, [Go, Go, Go]).0 == s.(allstolen := false, splitreq := false, bottom := s.bottom + 1, owner := Idle)
  {
    var s1 := s.(allstolen := false, owner := GrowUnask(FinishPush(v)));
    assert Step(s, Go).0 == s1;
    UnaskEnds(s1, v);
    ExecCons(s, Go, [Go, Go]);
  }

  lemma GrowRuns<T>(s: State<T>, v: T)
    requires |s.slots| > 0 && s.owner == PushCheck(v) && s.splitreq && s.osplit < s.bottom <= U31
    ensures Exec(s, [Go, Go] + [Go, Go, Go]).0 == s.(
      word := U64(s.word + Share(s) * B32), osplit := s.osplit + Share(s), oAllstolen := false,
      allstolen := false, splitreq := false, bottom := s.bottom + 1, owner := Idle)
  {
    GrowAtPush(s, v);
    var s1 := Exec(s, [Go, Go]).0;
    GrowFinishes(s1, v);
    Then(s, [Go, Go], s1, [Go, Go, Go], Exec(s1, [Go, Go, Go]).0);
  }

  /** A push that finds a request shares half of the private part, and honours the request. */
  lemma PushShares<T>(s: State<T>, v: T)
    requires s.owner.Idle? && !s.oAllstolen && s.splitreq && s.osplit < s.bottom < |s.slots| <= U31
    ensures Exec(s, Asked(v)).0 == Shared(s, v)
  {
    Small(s.bottom, |s.slots|);
    var s1 := s.(slots := s.slots[s.bottom := v], owner := PushCheck(v));
    assert Step(s, StartPush(v)).0 == s1;
    GrowRuns(s1, v);
    ExecCons(s, StartPush(v), [Go, Go] + [Go, Go, Go]);
    assert [StartPush(v)] + ([Go, Go] + [Go, Go, Go]) == Asked(v);
  }

  /** A thief that finds something shared and is not disturbed takes the oldest element and returns its value. */
  lemma StealAlone<T>(s: State<T>, g: Deque<T>, t: nat)
    requires Inv(s, g) && t !in s.thieves && !s.allstolen && |g.stolen| < SplitOf(s.word) < |g.stolen| + U31
    ensures g.live != [] && g.live[0] < |g.log|
    ensures var s1 := ThiefGo(s, t).0;
      && |s1.slots| > 0
      && var s2 := ThiefGo(s1, t).0;
      && |s2.slots| > 0
      && var (s3, e3) := ThiefGo(s2, t);
      && |s3.slots| > 0 && e3 == TakeOldest(t) && ThiefGo(s3, t).1 == Return(Thief(t), g.log[g.live[0]])
  {
    NotAhead(SplitOf(s.word), Top(s.word));
    SplitBelowKept(s, g);
    assert Kept(g)[|g.stolen|] == g.live[0];
    Small(|g.stolen|, |s.slots|);
  }

  lemma FirstEvent<T>(s: State<T>, a: Act<T>, acts: seq<Act<T>>)
    requires |s.slots| > 0
    ensures |Step(s, a).0.slots| > 0
    ensures Exec(s, [a] + acts).1 == [Step(s, a).1] + Exec(Step(s, a).0, acts).1
  {
    StepKeepsSize(s, a);
    assert ([a] + acts)[1..] == acts;
  }

  /** A whole steal. */
  function Steals<T>(t: nat): seq<Act<T>> { [Steal(t), Steal(t), Steal(t), Steal(t)] }

  lemma StealRuns<T>(s: State<T>, g: Deque<T>, t: nat)
    requires Inv(s, g) && t !in s.thieves && !s.allstolen && |g.stolen| < SplitOf(s.word) < |g.stolen| + U31
    ensures g.live != [] && g.live[0] < |g.log|
    ensures Exec(s, Steals(t)).1 == [Quiet, Quiet, TakeOldest(t), Return(Thief(t), g.log[g.live[0]])]
  {
    StealAlone(s, g, t);
    var s1, s2 := ThiefGo(s, t).0, ThiefGo(ThiefGo(s, t).0, t).0;
    var s3 := ThiefGo(s2, t).0;
    FirstEvent(s3, Steal(t), []);
    FirstEvent(s2, Steal(t), [Steal(t)]);
    FirstEvent(s1, Steal(t), [Steal(t), Steal(t)]);
    FirstEvent(s, Steal(t), [Steal(t), Steal(t), Steal(t)]);
    assert [Quiet] + ([Quiet] + ([TakeOldest(t)] + [Return(Thief(t), g.log[g.live[0]])]))
        == [Quiet, Quiet, TakeOldest(t), Return(Thief(t), g.log[g.live[0]])];
  }

  /** The owner has pushed before and has private elements, nothing is shared, and t is between steals. */
  predicate NothingShared<T>(s: State<T>, t: nat) {
    && s.owner.Idle? && !s.oAllstolen && t !in s.thieves
    && SplitOf(s.word) <= Top(s.word) && s.osplit < s.bottom < |s.slots|
  }

  lemma AskedBelow<T>(s: State<T>, v: T, k: nat)
    requires |s.slots| > 0 && s.bottom < k
    ensures Below(s, Asked(v), k)
  {
    assert [StartPush(v)] + [Go, Go, Go, Go, Go] == Asked(v);
    OnePush(s, v, [Go, Go, Go, Go, Go], k);
  }

  lemma InTurn<T>(s: State<T>, x: seq<Act<T>>, s1: State<T>, y: seq<Act<T>>, s2: State<T>, k: nat)
    requires |s.slots| > 0 && Exec(s, x).0 == s1 && Below(s, x, k)
    requires |s1.slots| > 0 && Exec(s1, y).0 == s2 && Below(s1, y, k)
    ensures Exec(s, x + y).0 == s2 && Below(s, x + y, k)
  {
    Append(s, x, y, k);
  }

  lemma TriesThenAsked<T>(s: State<T>, g: Deque<T>, t: nat, v: T)
    requires Inv(s, g) && FlagOk(s) && NothingShared(s, t)
    ensures Exec(s, Tries(t) + Asked(v)).0 == Shared(s, v)
    ensures Below(s, Tries(t) + Asked(v), |s.slots|)
  {
    AsksInVain(s, g, t);
    NoPush(s, Tries(t), |s.slots|);
    AskedAfter(s, Tries(t), v);
  }

  lemma SharedIgnoresRequest<T>(s: State<T>, v: T)
    requires s.osplit <= s.bottom < |s.slots|
    ensures Shared(s.(splitreq := true), v) == Shared(s, v)
  {
  }

  lemma AskedAfter<T>(s: State<T>, x: seq<Act<T>>, v: T)
    requires 0 < |s.slots| <= U31 && s.owner.Idle? && !s.oAllstolen && s.osplit < s.bottom < |s.slots|
    requires Exec(s, x).0 == s.(splitreq := true) && Below(s, x, |s.slots|)
    ensures Exec(s, x + Asked(v)).0 == Shared(s, v)
    ensures Below(s, x + Asked(v), |s.slots|)
  {
    var s1 := s.(splitreq := true);
    PushShares(s1, v);
    AskedBelow(s1, v, |s.slots|);
    SharedIgnoresRequest(s, v);
    InTurn(s, x, s1, Asked(v), Shared(s1, v), |s.slots|);
  }

  /** After the push the split is above top, and the oldest value is the one that was oldest before. */
  lemma SharedOffersOldest<T>(s: State<T>, g: Deque<T>, v: T, g': Deque<T>)
    requires Inv(s, g) && s.owner.Idle? && !s.oAllstolen
    requires SplitOf(s.word) <= |g.stolen| && s.osplit < s.bottom < |s.slots|
    requires Inv(Shared(s, v), g')
    ensures |g'.stolen| == |g.stolen| < SplitOf(Shared(s, v).word) < U31
    ensures g.live != [] && g.live[0] < |g.log|
    ensures g'.live != [] && g'.live[0] < |g'.log| && g'.log[g'.live[0]] == g.log[g.live[0]]
  {
    var w := RaiseWord(s.word, Share(s));
    assert SplitOf(w) == s.osplit + Share(s);
    assert Kept(g)[|g.stolen|] == g.live[0];
    SplitBelowKept(Shared(s, v), g');
    assert Kept(g')[|g'.stolen|] == g'.live[0];
  }

  /**
   A request is honoured.  In every run: when nothing is shared but the owner has private elements, a steal
   in vain and then a push leave something shared, and the next steal takes the oldest element.
   */
  lemma VainStealIsHonoured<T>(slots: seq<T>, acts: seq<Act<T>>, t: nat, v: T)
    requires 0 < |slots| <= U31 && Below(Init(slots), acts, |slots|)
    requires NothingShared(Exec(Init(slots), acts).0, t)
    ensures AllLegal(Empty(), Exec(Init(slots), acts).1)
    ensures var (s, es) := Exec(Init(slots), acts);
      var g := ApplyAll(Empty(), es);
      && |s.slots| > 0
      && var s' := Exec(s, Tries(t) + Asked(v)).0;
      && s'.owner.Idle? && Top(s'.word) < SplitOf(s'.word) && |s'.slots| > 0
      && g.live != [] && g.live[0] < |g.log|
      && Exec(s', Steals(t)).1 == [Quiet, Quiet, TakeOldest(t), Return(Thief(t), g.log[g.live[0]])]
  {
    InitOk(slots);
    ExecKeeps(Init(slots), Empty(), acts);
    ExecFlag(Init(slots), Empty(), acts);
    var (s, es) := Exec(Init(slots), acts);
    HonouredFrom(s, ApplyAll(Empty(), es), t, v);
  }

  lemma HonouredFrom<T>(s: State<T>, g: Deque<T>, t: nat, v: T)
    requires Inv(s, g) && FlagOk(s) && NothingShared(s, t)
    ensures g.live != [] && g.live[0] < |g.log|
    ensures var s' := Exec(s, Tries(t) + Asked(v)).0;
      && s'.owner.Idle? && Top(s'.word) < SplitOf(s'.word) && |s'.slots| > 0
      && Exec(s', Steals(t)).1 == [Quiet, Quiet, TakeOldest(t), Return(Thief(t), g.log[g.live[0]])]
  {
    TriesThenAsked(s, g, t, v);
    ExecKeeps(s, g, Tries(t) + Asked(v));
    var g' := ApplyAll(g, Exec(s, Tries(t) + Asked(v)).1);
    SharedOffersOldest(s, g, v, g');
    StealRuns(Shared(s, v), g', t);
  }

  // ---------------------------------------------------------------- requests met by other calls

  lemma GrowAtPop<T>(s: State<T>)
    requires |s.slots| > 0 && s.owner == PopCheck && s.splitreq && s.osplit < s.bottom <= U31
    ensures Exec(s, [Go, Go]).0 == s.(word := U64(s.word + Share(s) * B32), osplit := s.osplit + Share(s),
                                      oAllstolen := false, owner := GrowFlag(FinishPop))
  {
    var s1 := s.(owner := Grow(FinishPop));
    assert Step(s, Go).0 == s1;
    GrowComputes(s1, FinishPop);
    assert Step(s1, Go).0 == DoGrow(s1, FinishPop);
    ExecCons(s1, Go, []);
    ExecCons(s, Go, [Go]);
  }

  lemma GrowReturns<T>(s: State<T>)
    requires |s.slots| > 0 && s.owner == GrowFlag(FinishPop)
    ensures Exec(s, [Go, Go]).0 == s.(allstolen := false, splitreq := false, owner := Idle)
  {
    var s1 := s.(allstolen := false, owner := GrowUnask(FinishPop));
    assert Step(s, Go).0 == s1;
    ExecCons(s1, Go, []);
    ExecCons(s, Go, [Go]);
  }

  /** What grow_shared makes of the state when a pop ends with it. */
  function Grown<T>(s: State<T>): State<T>
    requires s.osplit <= s.bottom
  {
    s.(word := U64(s.word + Share(s) * B32), osplit := s.osplit + Share(s), oAllstolen := false,
       allstolen := false, splitreq := false, owner := Idle)
  }

  lemma PopReads<T>(s: State<T>)
    requires s.owner.Idle? && s.osplit < s.bottom <= |s.slots|
    ensures Exec(s, [StartPop, Go]).0 == s.(bottom := s.bottom - 1, owner := PopCheck)
  {
    var s1 := s.(bottom := s.bottom - 1, owner := FastRead);
    assert Step(s, StartPop).0 == s1;
    ExecCons(s1, Go, []);
    ExecCons(s, StartPop, [Go]);
  }

  lemma PopGrows<T>(s: State<T>)
    requires |s.slots| > 0 && s.owner == PopCheck && s.splitreq && s.osplit < s.bottom <= U31
    ensures Exec(s, [Go, Go] + [Go, Go]).0 == Grown(s)
  {
    GrowAtPop(s);
    var s1 := Exec(s, [Go, Go]).0;
    GrowReturns(s1);
    Then(s, [Go, Go], s1, [Go, Go], Grown(s));
  }

  /** A pop that finds a request and leaves private elements shares half of them, and honours the request. */
  lemma PopShares<T>(s: State<T>)
    requires s.owner.Idle? && s.splitreq && s.osplit + 1 < s.bottom <= |s.slots| <= U31
    ensures Exec(s, [StartPop, Go] + ([Go, Go] + [Go, Go])).0 == Grown(s.(bottom := s.bottom - 1, owner := PopCheck))
  {
    var s1 := s.(bottom := s.bottom - 1, owner := PopCheck);
    PopReads(s);
    PopGrows(s1);
    Then(s, [StartPop, Go], s1, [Go, Go] + [Go, Go], Grown(s1));
  }

  /** The end of a push that has published its slot: a request is honoured by the slot itself. */
  lemma PublishEnds<T>(s: State<T>)
    requires |s.slots| > 0 && s.owner == PushAsk && s.bottom < U31
    ensures Exec(s, if s.splitreq then [Go, Go, Go] else [Go, Go]).0 == s.(
      splitreq := false, osplit := s.bottom + 1, oAllstolen := false, bottom := s.bottom + 1, owner := Idle)
  {
    Small(s.bottom, B32);
    var s2 := s.(splitreq := false, osplit := s.bottom + 1, oAllstolen := false, owner := PushEndShared);
    ExecCons(s2, Go, []);
    if s.splitreq {
      var s1 := s.(owner := PushUnask);
      assert Step(s, Go).0 == s1 && Step(s1, Go).0 == s2;
      ExecCons(s1, Go, [Go]);
      ExecCons(s, Go, [Go, Go]);
    } else {
      assert Step(s, Go).0 == s2;
      ExecCons(s, Go, [Go]);
    }
  }

  lemma Publishes<T>(s: State<T>, v: T)
    requires s.owner.Idle? && s.oAllstolen && s.bottom < |s.slots| <= U31
    ensures Exec(s, [StartPush(v), Go, Go]).0 == s.(
      slots := s.slots[s.bottom := v], word := Pack(s.bottom, s.bottom + 1), allstolen := false, owner := PushAsk)
  {
    Small(s.bottom, B32);
    Small(s.bottom + 1, B32);
    Small(s.bottom, |s.slots|);
    var s1 := s.(slots := s.slots[s.bottom := v], owner := PushReset(v));
    var s2 := s1.(word := Pack(s.bottom, s.bottom + 1), owner := PushPublish);
    assert Step(s, StartPush(v)).0 == s1 && Step(s1, Go).0 == s2;
    ExecCons(s2, Go, []);
    ExecCons(s1, Go, [Go]);
    ExecCons(s, StartPush(v), [Go, Go]);
  }

  /** A push into an all-stolen deque shares its element at once, and leaves no request behind. */
  lemma FirstPushShares<T>(s: State<T>, v: T)
    requires s.owner.Idle? && s.oAllstolen && s.bottom < |s.slots| <= U31
    ensures Exec(s, [StartPush(v), Go, Go] + (if s.splitreq then [Go, Go, Go] else [Go, Go])).0 == s.(
      slots := s.slots[s.bottom := v], word := Pack(s.bottom, s.bottom + 1), allstolen := false, splitreq := false,
      osplit := s.bottom + 1, oAllstolen := false, bottom := s.bottom + 1)
  {
    Publishes(s, v);
    var s1 := Exec(s, [StartPush(v), Go, Go]).0;
    PublishEnds(s1);
    var rest := if s.splitreq then [Go, Go, Go] else [Go, Go];
    Then(s, [StartPush(v), Go, Go], s1, rest, Exec(s1, rest).0);
  }

  // ---------------------------------------------------------------- how much comes back

  function Halved<T>(s: State<T>, g: Deque<T>): State<T> {
    var split := |g.stolen| + |g.live| / 2;
    s.(word := Pack(|g.stolen|, split), osplit := split, owner := ColdTake)
  }

  lemma HalfIsOffered<T>(s: State<T>, g: Deque<T>)
    requires Inv(s, g) && s.owner.ShrinkLoad? && g.live != []
    ensures ShrinkFirst(s) == s.(owner := ShrinkSub(s.osplit, |g.stolen| + |g.live| / 2))
    ensures s.osplit == |g.stolen| + |g.live| && s.word == Pack(|g.stolen|, s.osplit)
  {
    Halfway(|g.stolen|, s.osplit);
    WordParts(s.word);
  }

  lemma HalfIsTaken<T>(s: State<T>, split: nat, newSplit: nat)
    requires |s.slots| > 0 && s.owner == ShrinkSub(split, newSplit) && SplitOf(s.word) == split < B32
    requires Top(s.word) <= newSplit < split
    ensures Exec(s, [Go, Go]).0 == s.(word := Pack(Top(s.word), newSplit), osplit := newSplit, owner := ColdTake)
  {
    var w := LowerWord(s, split, newSplit);
    WordParts(w);
    var s1 := s.(word := w, owner := ShrinkFresh(split, newSplit));
    var s2 := s1.(osplit := newSplit, owner := ColdTake);
    assert Step(s, Go).0 == s1 && Step(s1, Go).0 == s2;
    ExecCons(s1, Go, []);
    ExecCons(s, Go, [Go]);
  }

  /** A pop that finds no private element and is not disturbed takes back half of the shared part, rounded up. */
  lemma ShrinkTakesHalf<T>(s: State<T>, g: Deque<T>)
    requires Inv(s, g) && s.owner.ShrinkLoad? && g.live != []
    ensures Exec(s, [Go, Go, Go]).0 == Halved(s, g)
  {
    HalfIsOffered(s, g);
    var s1 := ShrinkFirst(s);
    HalfIsTaken(s1, s.osplit, |g.stolen| + |g.live| / 2);
    ExecCons(s, Go, [Go, Go]);
  }
}
