/**
 What becomes of a Lace deque when a push starts at or above the capacity: the bound that exactly-once
 delivery asks for is exact, for every capacity.
 */
module LaceCapacity {
  import opened DequeSpec
  import opened Lace

  // ---------------------------------------------------------------- runs in pieces

  lemma ExecCons<T>(s: State<T>, a: Act<T>, acts: seq<Act<T>>)
    requires |s.slots| > 0
    ensures |Step(s, a).0.slots| > 0
    ensures Exec(s, [a] + acts).0 == Exec(Step(s, a).0, acts).0
    ensures acts == [] ==> Exec(s, [a]).0 == Step(s, a).0
  {
    StepKeepsSize(s, a);
    assert ([a] + acts)[1..] == acts;
    if acts == [] { assert [a] + acts == [a]; }
  }

  lemma {:induction false} ExecKeepsSize<T>(s: State<T>, acts: seq<Act<T>>)
    requires |s.slots| > 0
    ensures |Exec(s, acts).0.slots| == |s.slots|
    decreases |acts|
  {
    if acts != [] {
      StepKeepsSize(s, acts[0]);
      ExecKeepsSize(Step(s, acts[0]).0, acts[1..]);
    }
  }

  lemma {:induction false} Append<T>(s: State<T>, x: seq<Act<T>>, y: seq<Act<T>>, k: nat)
    requires |s.slots| > 0
    ensures |Exec(s, x).0.slots| == |s.slots|
    ensures Exec(s, x + y).0 == Exec(Exec(s, x).0, y).0
    ensures Exec(s, x + y).1 == Exec(s, x).1 + Exec(Exec(s, x).0, y).1
    ensures Below(s, x, k) && Below(Exec(s, x).0, y, k) ==> Below(s, x + y, k)
    decreases |x|
  {
    ExecKeepsSize(s, x);
    if x == [] {
      assert x + y == y;
    } else {
      assert (x + y)[0] == x[0] && (x + y)[1..] == x[1..] + y;
      StepKeepsSize(s, x[0]);
      Append(Step(s, x[0]).0, x[1..], y, k);
    }
  }

  lemma {:induction false} BelowMore<T>(s: State<T>, acts: seq<Act<T>>, j: nat, k: nat)
    requires |s.slots| > 0 && Below(s, acts, j) && j <= k
    ensures Below(s, acts, k)
    decreases |acts|
  {
    if acts != [] {
      StepKeepsSize(s, acts[0]);
      BelowMore(Step(s, acts[0]).0, acts[1..], j, k);
    }
  }

  /** Only the first action is a push. */
  lemma OnePush<T>(s: State<T>, v: T, rest: seq<Act<T>>, k: nat)
    requires |s.slots| > 0 && s.bottom < k && forall i :: 0 <= i < |rest| ==> !rest[i].StartPush?
    ensures Below(s, [StartPush(v)] + rest, k)
  {
    var acts := [StartPush(v)] + rest;
    assert acts[0] == StartPush(v) && acts[1..] == rest;
    StepKeepsSize(s, acts[0]);
    NoPush(Step(s, acts[0]).0, rest, k);
  }

  lemma {:induction false} NoPush<T>(s: State<T>, acts: seq<Act<T>>, k: nat)
    requires |s.slots| > 0 && forall i :: 0 <= i < |acts| ==> !acts[i].StartPush?
    ensures Below(s, acts, k)
    decreases |acts|
  {
    if acts != [] {
      StepKeepsSize(s, acts[0]);
      NoPush(Step(s, acts[0]).0, acts[1..], k);
    }
  }

  // ---------------------------------------------------------------- a push at the capacity

  /** The owner finishes a push that started at `bottom` and pops at once. */
  lemma PopAfterPushEnd<T>(s: State<T>, v: T)
    requires |s.slots| > 0 && s.owner == PushEnd(v) && s.osplit <= s.bottom && |s.slots| <= s.bottom
    ensures Exec(s, [Go, StartPop, Go]).0.owner.Wild?
  {
    var s3 := s.(bottom := s.bottom + 1, owner := Idle);
    var s4 := s3.(bottom := s.bottom, owner := FastRead);
    assert Step(s, Go).0 == s3 && Step(s3, StartPop).0 == s4 && Step(s4, Go).0 == s4.(owner := Wild);
    ExecCons(s4, Go, []);
    ExecCons(s3, StartPop, [Go]);
    ExecCons(s, Go, [StartPop, Go]);
  }

  /** The steps of a push up to its last one: it may share on the way. */
  function PushPrefix<T>(s: State<T>, v: T): seq<Act<T>> {
    if !s.splitreq then [StartPush(v), Go]
    else if U32(s.bottom) <= U32(s.osplit) then [StartPush(v), Go, Go]
    else [StartPush(v), Go, Go, Go, Go]
  }

  /** The owner is about to push at or above the capacity, and the deque is not all stolen. */
  ghost predicate AtCapacity<T>(s: State<T>) {
    s.owner.Idle? && !s.oAllstolen && 0 < |s.slots| <= s.bottom <= U31 && s.osplit <= s.bottom
  }

  function Begun<T>(s: State<T>, v: T): State<T>
    requires |s.slots| > 0
  {
    s.(slots := s.slots[U32(s.bottom) % |s.slots| := v], owner := PushCheck(v))
  }

  lemma QuietPushLeavesArray<T>(s: State<T>, v: T)
    requires AtCapacity(s) && !s.splitreq
    ensures Exec(s, [StartPush(v)] + ([Go] + [Go, StartPop, Go])).0.owner.Wild?
  {
    var end := [Go, StartPop, Go];
    PopAfterPushEnd(Begun(s, v).(owner := PushEnd(v)), v);
    ExecCons(Begun(s, v), Go, end);
    ExecCons(s, StartPush(v), [Go] + end);
  }

  lemma GrowStays<T>(s: State<T>, after: After<T>)
    requires s.bottom == s.osplit
    ensures DoGrow(s, after) == s.(owner := Resume(after))
  {
  }

  lemma FullPushLeavesArray<T>(s: State<T>, v: T, end: seq<Act<T>>)
    requires AtCapacity(s) && s.splitreq && s.bottom == s.osplit && end == [Go, StartPop, Go]
    ensures Exec(s, [StartPush(v)] + ([Go] + ([Go] + end))).0.owner.Wild?
  {
    var s1 := Begun(s, v);
    var s2 := s1.(owner := Grow(FinishPush(v)));
    var s3 := s1.(owner := PushEnd(v));
    PopAfterPushEnd(s3, v);
    GrowStays(s2, FinishPush(v));
    assert OwnerGo(s2).0 == s3;
    ExecCons(s2, Go, end);
    assert OwnerGo(s1).0 == s2;
    ExecCons(s1, Go, [Go] + end);
    ExecCons(s, StartPush(v), [Go] + ([Go] + end));
  }

  lemma SharedPushLeavesArray<T>(s: State<T>, v: T, end: seq<Act<T>>)
    requires |s.slots| > 0 && s.owner == GrowFlag(FinishPush(v))
    requires Exec(s.(allstolen := false, splitreq := false, owner := PushEnd(v)), end).0.owner.Wild?
    ensures Exec(s, [Go] + ([Go] + end)).0.owner.Wild?
  {
    ExecCons(s.(allstolen := false, owner := GrowUnask(FinishPush(v))), Go, end);
    ExecCons(s, Go, [Go] + end);
  }

  lemma SharingPushLeavesArray<T>(s: State<T>, v: T)
    requires AtCapacity(s) && s.splitreq && s.osplit < s.bottom
    ensures Exec(s, [StartPush(v)] + ([Go] + ([Go] + ([Go] + ([Go] + [Go, StartPop, Go]))))).0.owner.Wild?
  {
    var end := [Go, StartPop, Go];
    var s2 := Begun(s, v).(owner := Grow(FinishPush(v)));
    GrowComputes(s2, FinishPush(v));
    var s3 := DoGrow(s2, FinishPush(v));
    PopAfterPushEnd(s3.(allstolen := false, splitreq := false, owner := PushEnd(v)), v);
    SharedPushLeavesArray(s3, v, end);
    SharingSteps(s, v, [Go] + ([Go] + end));
  }

  lemma SharingSteps<T>(s: State<T>, v: T, rest: seq<Act<T>>)
    requires AtCapacity(s) && s.splitreq
    requires Exec(DoGrow(Begun(s, v).(owner := Grow(FinishPush(v))), FinishPush(v)), rest).0.owner.Wild?
    ensures Exec(s, [StartPush(v)] + ([Go] + ([Go] + rest))).0.owner.Wild?
  {
    ExecCons(Begun(s, v).(owner := Grow(FinishPush(v))), Go, rest);
    ExecCons(Begun(s, v), Go, [Go] + rest);
    ExecCons(s, StartPush(v), [Go] + ([Go] + rest));
  }

  /**
   If a push starts at the capacity with something still in the deque, the pop after it reads one past
   the array, for the fast path does not mask.
   */
  lemma PushAtCapacityLeavesArray<T>(s: State<T>, g: Deque<T>, v: T)
    requires Inv(s, g) && s.owner.Idle? && !s.oAllstolen && s.bottom == |s.slots|
    ensures Exec(s, PushPrefix(s, v) + [Go, StartPop, Go]).0.owner.Wild?
  {
    var end := [Go, StartPop, Go];
    Small(s.bottom, B32);
    Small(s.osplit, B32);
    if !s.splitreq {
      QuietPushLeavesArray(s, v);
      assert PushPrefix(s, v) + end == [StartPush(v)] + ([Go] + end);
    } else if s.bottom == s.osplit {
      FullPushLeavesArray(s, v, end);
      assert PushPrefix(s, v) + end == [StartPush(v)] + ([Go] + ([Go] + end));
    } else {
      SharingPushLeavesArray(s, v);
      assert PushPrefix(s, v) + end == [StartPush(v)] + ([Go] + ([Go] + ([Go] + ([Go] + end))));
    }
  }

  lemma PushWraps<T>(s: State<T>, v: T)
    requires s.owner.Idle? && 0 < |s.slots| <= U31 && s.bottom == |s.slots|
    ensures var (s', e) := Step(s, StartPush(v));
      e == Quiet && s'.thieves == s.thieves && |s'.slots| > 0 && s'.slots[0] == v
  {
    Small(s.bottom, B32);
    assert s.bottom % |s.slots| == 0;
  }

  lemma OwedIsRead<T>(s: State<T>, g: Deque<T>, t: nat)
    requires ThievesOk(s, g) && t in s.thieves && s.thieves[t].Read?
    ensures Thief(t) in g.owed && s.thieves[t].index < |g.stolen| && g.owed[Thief(t)] == g.stolen[s.thieves[t].index]
  {
  }

  /**
   With everything stolen, a push at the capacity overwrites the slot that a thief which has won it may
   still have to read: the thief then returns the wrong value.
   */
  lemma PushAtCapacityClobbers<T>(s: State<T>, g: Deque<T>, v: T, t: nat)
    requires Inv(s, g) && s.owner.Idle? && s.oAllstolen && s.bottom == |s.slots|
    requires t in s.thieves && s.thieves[t] == Read(0) && v != s.slots[0]
    ensures var (s', e) := Step(s, StartPush(v));
      e == Quiet && |s'.slots| > 0 && ThiefGo(s', t).1 == Return(Thief(t), v) && !Legal(g, ThiefGo(s', t).1)
  {
    PushWraps(s, v);
    OwedIsRead(s, g, t);
    assert Kept(g)[0] == g.stolen[0];
    var s' := Step(s, StartPush(v)).0;
    assert 0 % |s'.slots| == 0;
    assert ThiefGo(s', t).1 == Return(Thief(t), v);
  }

  // ---------------------------------------------------------------- such states are reached

  /** The owner alone has pushed j elements; all but the first are private. */
  predicate Filled<T>(s: State<T>, n: nat, j: nat) {
    && |s.slots| == n && s.owner.Idle? && !s.oAllstolen && !s.splitreq
    && s.bottom == j && s.osplit == 1 && s.thieves == map[]
  }

  function FirstPush<T>(v: T): seq<Act<T>> { [StartPush(v)] + [Go, Go, Go, Go] }

  function NextPush<T>(v: T): seq<Act<T>> { [StartPush(v)] + [Go, Go] }

  lemma FirstFills<T>(slots: seq<T>, v: T)
    requires 0 < |slots| <= U31
    ensures Filled(Exec(Init(slots), FirstPush(v)).0, |slots|, 1) && Below(Init(slots), FirstPush(v), 1)
  {
    var s0 := Init(slots);
    var s1 := Step(s0, StartPush(v)).0;
    var s2 := Step(s1, Go).0;
    var s3 := Step(s2, Go).0;
    var s4 := Step(s3, Go).0;
    assert s1.owner == PushReset(v) && s2.owner == PushPublish && s3.owner == PushAsk && s4.owner == PushEndShared;
    ExecCons(s4, Go, []);
    ExecCons(s3, Go, [Go]);
    ExecCons(s2, Go, [Go, Go]);
    ExecCons(s1, Go, [Go, Go, Go]);
    ExecCons(s0, StartPush(v), [Go, Go, Go, Go]);
    OnePush(s0, v, [Go, Go, Go, Go], 1);
  }

  lemma NextFills<T>(s: State<T>, v: T, n: nat, j: nat)
    requires 0 < n && Filled(s, n, j)
    ensures Filled(Exec(s, NextPush(v)).0, n, j + 1) && Below(s, NextPush(v), j + 1)
  {
    var s1 := Begun(s, v);
    var s2 := s1.(owner := PushEnd(v));
    ExecCons(s2, Go, []);
    ExecCons(s1, Go, [Go]);
    ExecCons(s, StartPush(v), [Go, Go]);
    OnePush(s, v, [Go, Go], j + 1);
  }

  function Fill<T>(v: T, j: nat): seq<Act<T>>
    requires j > 0
  {
    if j == 1 then FirstPush(v) else Fill(v, j - 1) + NextPush(v)
  }

  lemma {:induction false} Fills<T>(slots: seq<T>, v: T, j: nat)
    requires 0 < |slots| <= U31 && j > 0
    ensures Filled(Exec(Init(slots), Fill(v, j)).0, |slots|, j) && Below(Init(slots), Fill(v, j), j)
  {
    if j == 1 {
      FirstFills(slots, v);
    } else {
      Fills(slots, v, j - 1);
      var s := Exec(Init(slots), Fill(v, j - 1)).0;
      NextFills(s, v, |slots|, j - 1);
      BelowMore(Init(slots), Fill(v, j - 1), j - 1, j);
      Append(Init(slots), Fill(v, j - 1), NextPush(v), j);
    }
  }

  /** For every capacity a run below it ends with elements left and the next push at the capacity. */
  lemma CapacityIsReached<T>(slots: seq<T>, v: T)
    requires 0 < |slots| <= U31
    ensures var acts := Fill(v, |slots|);
      && Below(Init(slots), acts, |slots|)
      && var s := Exec(Init(slots), acts).0; s.owner.Idle? && !s.oAllstolen && s.bottom == |s.slots|
  {
    Fills(slots, v, |slots|);
  }

  function Overrun<T>(v: T, n: nat): seq<Act<T>>
    requires n > 0
  {
    Fill(v, n) + ([StartPush(v)] + ([Go] + [Go, StartPop, Go]))
  }

  lemma Overruns<T>(slots: seq<T>, v: T)
    requires 0 < |slots| <= U31
    ensures var acts := Overrun(v, |slots|);
      Below(Init(slots), acts, |slots| + 1) && Exec(Init(slots), acts).0.owner.Wild?
  {
    var n := |slots|;
    Fills(slots, v, n);
    var s := Exec(Init(slots), Fill(v, n)).0;
    var more := [Go] + [Go, StartPop, Go];
    QuietPushLeavesArray(s, v);
    OnePush(s, v, more, n + 1);
    BelowMore(Init(slots), Fill(v, n), n, n + 1);
    Append(Init(slots), Fill(v, n), [StartPush(v)] + more, n + 1);
  }

  // ---------------------------------------------------------------- all stolen at the capacity

  /** Everything was stolen one by one; thief 0 has won slot 0 and has not read it. */
  function Drained<T>(slots: seq<T>, j: nat): State<T> {
    State(slots, Pack(j, j), true, false, j, j, true, Idle, map[0 := Read(0)])
  }

  /** One element, index j, is shared; or a thief has just won it. */
  function Offered<T>(slots: seq<T>, j: nat, stolen: bool, thieves: map<nat, ThiefPc>): State<T> {
    State(slots, Pack(if stolen then j + 1 else j, j + 1), false, false, j + 1, j + 1, false, Idle, thieves)
  }

  lemma Offers<T>(s: State<T>, v: T, j: nat)
    requires j < |s.slots| <= U31 && s.owner.Idle? && s.oAllstolen && s.bottom == j && !s.splitreq
    ensures Exec(s, FirstPush(v)).0 == Offered(s.slots[j := v], j, false, s.thieves)
  {
    Small(j, B32);
    Small(j + 1, B32);
    Small(j, |s.slots|);
    var s1 := s.(slots := s.slots[j := v], owner := PushReset(v));
    var s2 := s1.(word := Pack(j, j + 1), owner := PushPublish);
    var s3 := s2.(allstolen := false, owner := PushAsk);
    var s4 := s3.(osplit := j + 1, oAllstolen := false, owner := PushEndShared);
    ExecCons(s4, Go, []);
    ExecCons(s3, Go, [Go]);
    ExecCons(s2, Go, [Go, Go]);
    ExecCons(s1, Go, [Go, Go, Go]);
    ExecCons(s, StartPush(v), [Go, Go, Go, Go]);
  }

  lemma Robs<T>(slots: seq<T>, j: nat, thieves: map<nat, ThiefPc>, t: nat)
    requires j < |slots| <= U31 && t !in thieves
    ensures Exec(Offered(slots, j, false, thieves), [Steal(t), Steal(t), Steal(t)]).0
         == Offered(slots, j, true, thieves[t := Read(j)])
  {
    var s := Offered(slots, j, false, thieves);
    WordArith(j, j + 1, 0);
    Small(1, B32);
    Small(j + 1, B32);
    var s1 := s.(thieves := thieves[t := Load]);
    var s2 := s1.(thieves := thieves[t := Load][t := Cas(s.word)]);
    ExecCons(s2, Steal(t), []);
    ExecCons(s1, Steal(t), [Steal(t)]);
    ExecCons(s, Steal(t), [Steal(t), Steal(t)]);
    assert thieves[t := Load][t := Cas(s.word)][t := Read(j)] == thieves[t := Read(j)];
  }

  lemma Empties<T>(slots: seq<T>, j: nat)
    requires j < |slots| <= U31
    ensures Exec(Offered(slots, j, true, map[0 := Read(0)]), [StartPop, Go, Go]).0 == Drained(slots, j + 1)
  {
    var s := Offered(slots, j, true, map[0 := Read(0)]);
    WordArith(j + 1, j + 1, 0);
    var s1 := s.(owner := ShrinkLoad);
    var s2 := s.(owner := MarkStolen);
    ExecCons(s2, Go, []);
    ExecCons(s1, Go, [Go]);
    ExecCons(s, StartPop, [Go, Go]);
  }

  /** The first j slots hold x. */
  function Xs<T>(slots: seq<T>, x: T, j: nat): seq<T> {
    seq(|slots|, i requires 0 <= i < |slots| => if i < j then x else slots[i])
  }

  function Leave<T>(): seq<Act<T>> { [StartPop, Go, Go] }

  function FirstRound<T>(x: T): seq<Act<T>> {
    FirstPush(x) + ([Steal(0), Steal(0), Steal(0)] + Leave())
  }

  function NextRound<T>(x: T): seq<Act<T>> {
    FirstPush(x) + ([Steal(1), Steal(1), Steal(1)] + ([Steal(1)] + Leave()))
  }

  lemma FirstDrains<T>(slots: seq<T>, x: T)
    requires 0 < |slots| <= U31
    ensures Exec(Init(slots), FirstRound(x)).0 == Drained(slots[0 := x], 1) && Below(Init(slots), FirstRound(x), 1)
  {
    var s0, slots' := Init(slots), slots[0 := x];
    var s1 := Offered(slots', 0, false, map[]);
    var s2 := Offered(slots', 0, true, map[0 := Read(0)]);
    Offers(s0, x, 0);
    Robs(slots', 0, map[], 0);
    assert map[][0 := Read(0)] == map[0 := Read(0)];
    Empties(slots', 0);
    var rest := [Steal(0), Steal(0), Steal(0)] + Leave();
    Append(s1, [Steal(0), Steal(0), Steal(0)], Leave(), 1);
    Append(s0, FirstPush(x), rest, 1);
    OnePush(s0, x, [Go, Go, Go, Go], 1);
    NoPush(s1, rest, 1);
  }

  lemma Returned<T>(slots: seq<T>, j: nat)
    requires j < |slots| <= U31
    ensures Exec(Offered(slots, j, true, map[0 := Read(0)][1 := Read(j)]), [Steal(1)]).0
         == Offered(slots, j, true, map[0 := Read(0)])
  {
    var th := map[0 := Read(0)][1 := Read(j)];
    ExecCons(Offered(slots, j, true, th), Steal(1), []);
    assert th - {1} == map[0 := Read(0)];
  }

  lemma Then<T>(s: State<T>, a: seq<Act<T>>, s1: State<T>, b: seq<Act<T>>, s2: State<T>)
    requires |s.slots| > 0 && Exec(s, a).0 == s1 && |s1.slots| > 0 && Exec(s1, b).0 == s2
    ensures Exec(s, a + b).0 == s2
  {
    Append(s, a, b, 0);
  }

  lemma StolenThenEmpty<T>(slots: seq<T>, j: nat)
    requires j < |slots| <= U31
    ensures Exec(Offered(slots, j, false, map[0 := Read(0)]), [Steal(1), Steal(1), Steal(1)] + ([Steal(1)] + Leave())).0
         == Drained(slots, j + 1)
  {
    var th := map[0 := Read(0)];
    var s2 := Offered(slots, j, true, th[1 := Read(j)]);
    Returned(slots, j);
    Empties(slots, j);
    Then(s2, [Steal(1)], Offered(slots, j, true, th), Leave(), Drained(slots, j + 1));
    Robs(slots, j, th, 1);
    Then(Offered(slots, j, false, th), [Steal(1), Steal(1), Steal(1)], s2, [Steal(1)] + Leave(), Drained(slots, j + 1));
  }

  lemma NextRoundBelow<T>(s: State<T>, x: T, k: nat)
    requires |s.slots| > 0 && s.bottom < k
    ensures Below(s, NextRound(x), k)
  {
    var rest := [Go, Go, Go, Go] + ([Steal(1), Steal(1), Steal(1)] + ([Steal(1)] + Leave()));
    assert NextRound(x) == [StartPush(x)] + rest;
    OnePush(s, x, rest, k);
  }

  lemma NextDrains<T>(slots: seq<T>, x: T, j: nat)
    requires j < |slots| <= U31
    ensures Exec(Drained(slots, j), NextRound(x)).0 == Drained(slots[j := x], j + 1)
    ensures Below(Drained(slots, j), NextRound(x), j + 1)
  {
    var s, slots' := Drained(slots, j), slots[j := x];
    Offers(s, x, j);
    StolenThenEmpty(slots', j);
    Then(s, FirstPush(x), Offered(slots', j, false, map[0 := Read(0)]),
         [Steal(1), Steal(1), Steal(1)] + ([Steal(1)] + Leave()), Drained(slots', j + 1));
    NextRoundBelow(s, x, j + 1);
  }

  function Drain<T>(x: T, j: nat): seq<Act<T>>
    requires j > 0
  {
    if j == 1 then FirstRound(x) else Drain(x, j - 1) + NextRound(x)
  }

  lemma {:induction false} Drains<T>(slots: seq<T>, x: T, j: nat)
    requires 0 < j <= |slots| <= U31
    ensures Exec(Init(slots), Drain(x, j)).0 == Drained(Xs(slots, x, j), j) && Below(Init(slots), Drain(x, j), j)
  {
    if j == 1 {
      FirstDrains(slots, x);
      assert Xs(slots, x, 1) == slots[0 := x];
    } else {
      Drains(slots, x, j - 1);
      NextDrains(Xs(slots, x, j - 1), x, j - 1);
      assert Xs(slots, x, j - 1)[j - 1 := x] == Xs(slots, x, j);
      BelowMore(Init(slots), Drain(x, j - 1), j - 1, j);
      Append(Init(slots), Drain(x, j - 1), NextRound(x), j);
    }
  }

  function Clobber<T>(x: T, y: T, n: nat): seq<Act<T>>
    requires n > 0
  {
    Drain(x, n) + [StartPush(y), Steal(0)]
  }

  lemma ReturnsWrong<T>(s: State<T>, g: Deque<T>, y: T)
    requires Inv(s, g) && s.owner.Idle? && s.oAllstolen && s.bottom == |s.slots|
    requires 0 in s.thieves && s.thieves[0] == Read(0) && y != s.slots[0]
    ensures !AllLegal(g, Exec(s, [StartPush(y), Steal(0)]).1)
  {
    PushAtCapacityClobbers(s, g, y, 0);
    TwoSteps(s, StartPush(y), Steal(0));
    var es := Exec(s, [StartPush(y), Steal(0)]).1;
    assert es[0] == Quiet && es[1..][0] == es[1];
  }

  lemma WrongAfter<T>(s0: State<T>, start: seq<Act<T>>, s: State<T>, y: T)
    requires Inv(s0, Empty()) && Below(s0, start, |s0.slots|) && s == Exec(s0, start).0
    requires |s.slots| > 0 && s.owner.Idle? && s.oAllstolen && s.bottom == |s.slots|
    requires 0 in s.thieves && s.thieves[0] == Read(0) && y != s.slots[0]
    ensures !AllLegal(Empty(), Exec(s0, start + [StartPush(y), Steal(0)]).1)
  {
    ExecKeeps(s0, Empty(), start);
    var es := Exec(s0, start).1;
    ReturnsWrong(s, ApplyAll(Empty(), es), y);
    LegalAppend(Empty(), es, Exec(s, [StartPush(y), Steal(0)]).1);
    Append(s0, start, [StartPush(y), Steal(0)], 0);
  }

  lemma ClobberBelow<T>(s0: State<T>, start: seq<Act<T>>, s: State<T>, y: T, k: nat)
    requires |s0.slots| > 0 && Below(s0, start, k) && s == Exec(s0, start).0 && |s.slots| > 0 && s.bottom == k
    ensures Below(s0, start + [StartPush(y), Steal(0)], k + 1)
  {
    assert [StartPush(y)] + [Steal(0)] == [StartPush(y), Steal(0)];
    OnePush(s, y, [Steal(0)], k + 1);
    BelowMore(s0, start, k, k + 1);
    Append(s0, start, [StartPush(y), Steal(0)], k + 1);
  }

  /** For every capacity a run below it leaves a thief that the next push makes return the wrong value. */
  lemma Clobbers<T>(slots: seq<T>, x: T, y: T)
    requires 0 < |slots| <= U31 && x != y
    ensures var acts := Clobber(x, y, |slots|);
      Below(Init(slots), acts, |slots| + 1) && !AllLegal(Empty(), Exec(Init(slots), acts).1)
  {
    var n := |slots|;
    var s := Drained(Xs(slots, x, n), n);
    Drains(slots, x, n);
    InitOk(slots);
    WrongAfter(Init(slots), Drain(x, n), s, y);
    ClobberBelow(Init(slots), Drain(x, n), s, y, n);
  }

  lemma TwoSteps<T>(s: State<T>, a: Act<T>, b: Act<T>)
    requires |s.slots| > 0
    ensures |Step(s, a).0.slots| > 0
    ensures Exec(s, [a, b]).1 == [Step(s, a).1, Step(Step(s, a).0, b).1]
  {
    StepKeepsSize(s, a);
    StepKeepsSize(Step(s, a).0, b);
    assert [a, b][1..] == [b] && [b][1..] == [];
    assert Exec(Step(s, a).0, [b]).1 == [Step(Step(s, a).0, b).1] + [];
  }

  // ---------------------------------------------------------------- the bound is exact

  /** No run whose pushes start below k reads outside the array. */
  ghost predicate StaysInside<T(!new)>(slots: seq<T>, k: nat)
    requires |slots| > 0
  {
    forall acts :: Below(Init(slots), acts, k) ==> !Exec(Init(slots), acts).0.owner.Wild?
  }

  /** Every run whose pushes start below k delivers exactly once. */
  ghost predicate Delivers<T(!new)>(slots: seq<T>, k: nat)
    requires |slots| > 0
  {
    forall acts :: Below(Init(slots), acts, k) ==> AllLegal(Empty(), Exec(Init(slots), acts).1)
  }

  lemma AtMostCapacity<T(!new)>(slots: seq<T>, k: nat)
    requires 0 < |slots| <= U31 && k <= |slots|
    ensures StaysInside(slots, k) && Delivers(slots, k)
  {
    forall acts | Below(Init(slots), acts, k)
      ensures AllLegal(Empty(), Exec(Init(slots), acts).1) && !Exec(Init(slots), acts).0.owner.Wild?
    {
      BelowMore(Init(slots), acts, k, |slots|);
      RunsLegally(slots, acts);
    }
  }

  /** Pushes may start anywhere below k without a read outside the array, if and only if k is at most the capacity. */
  lemma ExactForArray<T(!new)>(slots: seq<T>, k: nat)
    requires 0 < |slots| <= U31
    ensures StaysInside(slots, k) <==> k <= |slots|
  {
    if k <= |slots| {
      AtMostCapacity(slots, k);
    } else {
      Overruns(slots, slots[0]);
      BelowMore(Init(slots), Overrun(slots[0], |slots|), |slots| + 1, k);
    }
  }

  /** The same bound is exact for delivery, as soon as there are two values to tell apart. */
  lemma ExactForDelivery<T(!new)>(slots: seq<T>, k: nat, x: T, y: T)
    requires 0 < |slots| <= U31 && x != y
    ensures Delivers(slots, k) <==> k <= |slots|
  {
    if k <= |slots| {
      AtMostCapacity(slots, k);
    } else {
      Clobbers(slots, x, y);
      BelowMore(Init(slots), Clobber(x, y, |slots|), |slots| + 1, k);
    }
  }

  /** Both promises together hold if and only if every push starts below the capacity. */
  lemma ExactCapacity<T(!new)>(slots: seq<T>, k: nat)
    requires 0 < |slots| <= U31
    ensures StaysInside(slots, k) && Delivers(slots, k) <==> k <= |slots|
  {
    ExactForArray(slots, k);
    if k <= |slots| { AtMostCapacity(slots, k); }
  }
}
