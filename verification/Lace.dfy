/**
 The Lace work-stealing deque: one owner, any number of thieves, every atomic access a step.

 Indices below `top` were stolen, [top, split) is shared, [split, bottom) is private to the owner.
 `top` and `split` live in one 64-bit word.
 */
module Lace {
  import opened DequeSpec

  const U31: nat := 0x8000_0000
  const B32: nat := 0x1_0000_0000
  const B64: nat := 0x1_0000_0000_0000_0000

  function U32(x: int): nat { x % B32 }
  function U64(x: int): nat { x % B64 }

  function Pack(top: nat, split: nat): nat { top + split * B32 }
  function Top(word: nat): nat { word % B32 }
  function SplitOf(word: nat): nat { word / B32 }

  /** static_cast<int32_t>(split - top) > 0 */
  predicate Ahead(split: nat, top: nat) { 0 < U32(split - top) < U31 }

  /** Where the owner continues after grow_shared. */
  datatype After<T> = FinishPush(val: T) | FinishPop

  datatype OwnerPc<T> =
    | Idle
    | PushReset(val: T)      // all stolen: about to publish (bottom, bottom + 1)
    | PushPublish            // about to clear m_allstolen
    | PushAsk                // about to load m_splitreq
    | PushUnask              // about to clear m_splitreq
    | PushCheck(val: T)      // not all stolen: about to load m_splitreq
    | PushEnd(val: T)        // about to ++bottom with a private slot
    | PushEndShared          // about to ++bottom with a published slot
    | FastRead               // about to read m_array[bottom], unmasked
    | ColdRead               // about to read m_array[mask_index(bottom)]
    | PopCheck               // about to load m_splitreq
    | ShrinkLoad             // about to load m_top_split
    | ShrinkSub(split: nat, newSplit: nat)
    | ShrinkFresh(split: nat, newSplit: nat)
    | ShrinkFix(newSplit: nat, corrected: nat)
    | MarkStolen             // about to set m_allstolen
    | ColdTake               // about to --bottom after a shrink
    | Grow(after: After<T>)
    | GrowFlag(after: After<T>)
    | GrowUnask(after: After<T>)
    | Wild                   // read outside the array

  datatype ThiefPc = Load | Cas(seen: nat) | Ask | Read(index: nat)

  datatype State<T> = State(
    slots: seq<T>, word: nat, allstolen: bool, splitreq: bool, // shared
    bottom: nat, osplit: nat, oAllstolen: bool,               // m_worker
    owner: OwnerPc<T>, thieves: map<nat, ThiefPc>)

  datatype Act<T> = StartPush(val: T) | StartPop | Go | Steal(thief: nat)

  function Init<T>(slots: seq<T>): State<T> {
    State(slots, Pack(0, 0), true, false, 0, 0, true, Idle, map[])
  }

  /** The first access of push: the slot is written through the mask. */
  function DoPush<T>(s: State<T>, v: T): State<T>
    requires |s.slots| > 0
  {
    s.(slots := s.slots[U32(s.bottom) % |s.slots| := v], owner := if s.oAllstolen then PushReset(v) else PushCheck(v))
  }

  function DoPop<T>(s: State<T>): (State<T>, Event<T>) {
    if s.bottom > s.osplit then (s.(bottom := s.bottom - 1, owner := FastRead), TakeNewest)
    else if s.oAllstolen then (s, PopEmpty)
    else (s.(owner := ShrinkLoad), Quiet)
  }

  function Resume<T>(after: After<T>): OwnerPc<T> {
    match after
    case FinishPush(v) => PushEnd(v)
    case FinishPop => Idle
  }

  function DoGrow<T>(s: State<T>, after: After<T>): State<T> {
    var split, bot := U32(s.osplit), U32(s.bottom);
    if bot <= split then s.(owner := Resume(after))
    else
      var diff := U32(bot - split + 1) / 2;
      s.(word := U64(s.word + diff * B32), osplit := U32(split + diff), oAllstolen := false, owner := GrowFlag(after))
  }

  /** shrink_shared: offer half of the shared part back to the owner, look again, repair or give up. */
  function ShrinkFirst<T>(s: State<T>): State<T> {
    var top, split := Top(s.word), SplitOf(s.word);
    if top != split then s.(owner := ShrinkSub(split, U32(top + U32(split - top) / 2)))
    else s.(owner := MarkStolen)
  }

  function ShrinkLower<T>(s: State<T>, split: nat, newSplit: nat): State<T> {
    s.(word := U64(s.word - U32(split - newSplit) * B32), owner := ShrinkFresh(split, newSplit))
  }

  function ShrinkLook<T>(s: State<T>, split: nat, newSplit: nat): State<T> {
    var now := Top(s.word);
    if now == split then s.(owner := MarkStolen)
    else if now > newSplit then s.(owner := ShrinkFix(newSplit, U32((now + split) / 2)))
    else s.(osplit := newSplit, owner := ColdTake)
  }

  function ShrinkRaise<T>(s: State<T>, newSplit: nat, corrected: nat): State<T> {
    s.(word := U64(s.word + U32(corrected - newSplit) * B32), osplit := corrected, owner := ColdTake)
  }

  /** One step of the owner inside push, pop, shrink_shared or grow_shared. */
  function OwnerGo<T>(s: State<T>): (State<T>, Event<T>)
    requires |s.slots| > 0
  {
    match s.owner
    case Idle => (s, Quiet)
    case Wild => (s, Quiet)
    case PushReset(v) =>
      var bot := U32(s.bottom);
      (s.(word := Pack(bot, U32(bot + 1)), owner := PushPublish), Push(v))
    case PushPublish => (s.(allstolen := false, owner := PushAsk), Quiet)
    case PushAsk =>
      if s.splitreq then (s.(owner := PushUnask), Quiet)
      else (s.(osplit := U32(s.bottom) + 1, oAllstolen := false, owner := PushEndShared), Quiet)
    case PushUnask =>
      (s.(splitreq := false, osplit := U32(s.bottom) + 1, oAllstolen := false, owner := PushEndShared), Quiet)
    case PushCheck(v) => (s.(owner := if s.splitreq then Grow(FinishPush(v)) else PushEnd(v)), Quiet)
    case PushEnd(v) => (s.(bottom := s.bottom + 1, owner := Idle), Push(v))
    case PushEndShared => (s.(bottom := s.bottom + 1, owner := Idle), Quiet)
    case FastRead =>
      if s.bottom < |s.slots| then (s.(owner := PopCheck), Return(Owner, s.slots[s.bottom]))
      else (s.(owner := Wild), Quiet)
    case ColdRead => (s.(owner := PopCheck), Return(Owner, s.slots[s.bottom % |s.slots|]))
    case PopCheck => (s.(owner := if s.splitreq then Grow(FinishPop) else Idle), Quiet)
    case MarkStolen => (s.(allstolen := true, oAllstolen := true, owner := Idle), PopEmpty)
    case ColdTake => if s.bottom == 0 then (s, Quiet) else (s.(bottom := s.bottom - 1, owner := ColdRead), TakeNewest)
    case Grow(after) => (DoGrow(s, after), Quiet)
    case GrowFlag(after) => (s.(allstolen := false, owner := GrowUnask(after)), Quiet)
    case GrowUnask(after) => (s.(splitreq := false, owner := Resume(after)), Quiet)
    case ShrinkLoad => (ShrinkFirst(s), Quiet)
    case ShrinkSub(split, newSplit) => (ShrinkLower(s, split, newSplit), Quiet)
    case ShrinkFresh(split, newSplit) => (ShrinkLook(s, split, newSplit), Quiet)
    case ShrinkFix(newSplit, corrected) => (ShrinkRaise(s, newSplit, corrected), Quiet)
  }

  /** One step of a thief; a thief outside the map is between steals. */
  function ThiefGo<T>(s: State<T>, t: nat): (State<T>, Event<T>)
    requires |s.slots| > 0
  {
    if t !in s.thieves then
      (if s.allstolen then s else s.(thieves := s.thieves[t := Load]), Quiet)
    else
      match s.thieves[t]
      case Load =>
        (s.(thieves := s.thieves[t := if Ahead(SplitOf(s.word), Top(s.word)) then Cas(s.word) else Ask]), Quiet)
      case Ask => (s.(splitreq := true, thieves := s.thieves - {t}), Quiet)
      case Cas(seen) =>
        if s.word == seen then
          (s.(word := Pack(U32(Top(seen) + 1), SplitOf(seen)), thieves := s.thieves[t := Read(Top(seen))]),
           TakeOldest(t))
        else (s.(thieves := s.thieves - {t}), Quiet)
      case Read(i) => (s.(thieves := s.thieves - {t}), Return(Thief(t), s.slots[i % |s.slots|]))
  }

  function Step<T>(s: State<T>, a: Act<T>): (State<T>, Event<T>)
    requires |s.slots| > 0
  {
    match a
    case StartPush(v) => if s.owner.Idle? then (DoPush(s, v), Quiet) else (s, Quiet)
    case StartPop => if s.owner.Idle? then DoPop(s) else (s, Quiet)
    case Go => OwnerGo(s)
    case Steal(t) => ThiefGo(s, t)
  }

  // ---------------------------------------------------------------- invariant

  ghost function Kept<T>(g: Deque<T>): seq<nat> { g.stolen + g.live }

  /** Every index not popped holds the value pushed there, stolen ones included. */
  ghost predicate SlotsHold<T>(s: State<T>, g: Deque<T>) {
    && |Kept(g)| <= |s.slots|
    && forall i :: 0 <= i < |Kept(g)| ==> Kept(g)[i] < |g.log| && s.slots[i] == g.log[Kept(g)[i]]
  }

  ghost predicate ThievesOk<T>(s: State<T>, g: Deque<T>) {
    forall t: nat ::
      && (Thief(t) in g.owed <==> t in s.thieves && s.thieves[t].Read?)
      && (t in s.thieves && s.thieves[t].Read? ==>
            s.thieves[t].index < |g.stolen| && g.owed[Thief(t)] == g.stolen[s.thieves[t].index])
      && (t in s.thieves && s.thieves[t].Cas? ==> Ahead(SplitOf(s.thieves[t].seen), Top(s.thieves[t].seen)))
  }

  /** Between operations; also while the owner only decides what to do next. */
  ghost predicate Settled<T>(s: State<T>, g: Deque<T>) {
    && Owner !in g.owed
    && |Kept(g)| == s.bottom
    && if s.oAllstolen then |g.stolen| == s.bottom == s.osplit && SplitOf(s.word) <= s.bottom
       else SplitOf(s.word) == s.osplit && |g.stolen| <= s.osplit <= s.bottom
  }

  ghost predicate Written<T>(s: State<T>, v: T) {
    s.bottom < |s.slots| && s.slots[s.bottom] == v
  }

  ghost predicate AfterOk<T>(s: State<T>, after: After<T>) {
    after.FinishPush? ==> Written(s, after.val)
  }

  ghost predicate OwnerOk<T>(s: State<T>, g: Deque<T>) {
    match s.owner
    case Idle => Settled(s, g)
    case PushReset(v) => Settled(s, g) && s.oAllstolen && Written(s, v)
    case PushPublish => Publishing(s, g)
    case PushAsk => Publishing(s, g)
    case PushUnask => Publishing(s, g)
    case PushCheck(v) => Settled(s, g) && !s.oAllstolen && Written(s, v)
    case PushEnd(v) => Settled(s, g) && !s.oAllstolen && Written(s, v)
    case PushEndShared =>
      && Owner !in g.owed && |Kept(g)| == s.bottom + 1 && !s.oAllstolen
      && SplitOf(s.word) == s.osplit == s.bottom + 1
    case FastRead => Taking(s, g)
    case ColdRead => Taking(s, g)
    case PopCheck => Settled(s, g) && !s.oAllstolen
    case ShrinkLoad => Settled(s, g) && !s.oAllstolen && s.bottom == s.osplit
    case ShrinkSub(split, newSplit) =>
      Settled(s, g) && !s.oAllstolen && s.bottom == s.osplit == split && newSplit < split
    case ShrinkFresh(split, newSplit) =>
      && Owner !in g.owed && |Kept(g)| == s.bottom == s.osplit == split && !s.oAllstolen
      && SplitOf(s.word) == newSplit < split
    case ShrinkFix(newSplit, corrected) =>
      && Owner !in g.owed && |Kept(g)| == s.bottom == s.osplit && !s.oAllstolen
      && SplitOf(s.word) == newSplit < |g.stolen| < s.bottom && corrected == (|g.stolen| + s.bottom) / 2
    case MarkStolen =>
      && Owner !in g.owed && |Kept(g)| == s.bottom == s.osplit == |g.stolen| && !s.oAllstolen
      && SplitOf(s.word) <= |g.stolen|
    case ColdTake => Settled(s, g) && !s.oAllstolen && s.osplit < s.bottom
    case Grow(after) => Settled(s, g) && !s.oAllstolen && AfterOk(s, after)
    case GrowFlag(after) => Settled(s, g) && !s.oAllstolen && AfterOk(s, after)
    case GrowUnask(after) => Settled(s, g) && !s.oAllstolen && AfterOk(s, after)
    case Wild => false
  }

  /** A push into an all-stolen deque has published its slot but not yet counted it. */
  ghost predicate Publishing<T>(s: State<T>, g: Deque<T>) {
    && Owner !in g.owed && |Kept(g)| == s.bottom + 1 && s.oAllstolen && s.osplit == s.bottom <= |g.stolen|
    && SplitOf(s.word) == s.bottom + 1
  }

  /** A pop has secured slot `bottom`. */
  ghost predicate Taking<T>(s: State<T>, g: Deque<T>) {
    && Owner in g.owed && |Kept(g)| == s.bottom < |s.slots|
    && g.owed[Owner] < |g.log| && s.slots[s.bottom] == g.log[g.owed[Owner]]
    && !s.oAllstolen && SplitOf(s.word) == s.osplit && |g.stolen| <= s.osplit <= s.bottom
  }

  /** The word's halves are the number stolen and a split no larger than the capacity. */
  ghost predicate Inv<T>(s: State<T>, g: Deque<T>) {
    && 0 < |s.slots| <= U31
    && Top(s.word) == |g.stolen| && SplitOf(s.word) <= |s.slots|
    && SlotsHold(s, g) && ThievesOk(s, g) && OwnerOk(s, g)
  }

  /** What a step must preserve: its event is allowed, and the state still represents the deque. */
  ghost predicate Simulates<T>(g: Deque<T>, next: (State<T>, Event<T>)) {
    Legal(g, next.1) && Inv(next.0, Apply(g, next.1))
  }

  lemma WordArith(top: nat, split: nat, x: nat)
    requires top < B32 && split < B32 && x < B32
    ensures Top(Pack(top, split)) == top && SplitOf(Pack(top, split)) == split
    ensures split + x < B32 ==> U64(Pack(top, split) + x * B32) == Pack(top, split + x)
    ensures x <= split ==> U64(Pack(top, split) - x * B32) == Pack(top, split - x)
  {
  }

  lemma WordParts(w: nat)
    ensures w == Pack(Top(w), SplitOf(w))
  {
  }

  /** Steps of the owner leave every thief's claim alone. */
  lemma ThievesFrame<T>(s: State<T>, g: Deque<T>, s': State<T>, g': Deque<T>)
    requires ThievesOk(s, g) && s'.thieves == s.thieves && g'.stolen == g.stolen
    requires forall t: nat :: Thief(t) in g'.owed <==> Thief(t) in g.owed
    requires forall t: nat :: Thief(t) in g.owed ==> g'.owed[Thief(t)] == g.owed[Thief(t)]
    ensures ThievesOk(s', g')
  {
  }

  /** A remainder below the divisor is the number itself. */
  lemma SmallRemainder(x: int, m: int, q: int, r: int)
    requires 0 <= x < m && x == q * m + r && 0 <= r < m
    ensures q == 0 && r == x
  {
    assert q >= 1 ==> (q - 1) * m >= 0;
    assert q <= -1 ==> (-1 - q) * m >= 0;
  }

  lemma Small(x: int, m: int)
    requires 0 <= x < m <= B32
    ensures x % m == x && U32(x) == x
  {
    SmallRemainder(x, m, x / m, x % m);
  }

  lemma PushStarts<T>(s: State<T>, g: Deque<T>, v: T)
    requires Inv(s, g) && s.owner.Idle? && s.bottom < |s.slots|
    ensures Simulates(g, Step(s, StartPush(v)))
  {
    Small(s.bottom, |s.slots|);
    var s' := s.(slots := s.slots[s.bottom := v], owner := if s.oAllstolen then PushReset(v) else PushCheck(v));
    assert DoPush(s, v) == s';
    assert SlotsHold(s', g);
    ThievesFrame(s, g, s', g);
    assert Settled(s', g) && Written(s', v);
  }

  lemma PopStarts<T>(s: State<T>, g: Deque<T>)
    requires Inv(s, g) && s.owner.Idle?
    ensures Simulates(g, Step(s, StartPop))
  {
    if s.bottom > s.osplit {
      TakeNewestSlots(s, g);
    }
  }

  /** The newest element sits just below bottom. */
  lemma TakeNewestSlots<T>(s: State<T>, g: Deque<T>)
    requires SlotsHold(s, g) && |g.live| > 0 && Owner !in g.owed
    ensures Legal(g, TakeNewest)
    ensures var g' := Apply(g, TakeNewest); var n := |Kept(g')|;
      && SlotsHold(s, g') && n + 1 == |Kept(g)| && n < |s.slots|
      && g'.owed[Owner] < |g.log| && s.slots[n] == g.log[g'.owed[Owner]]
  {
    var g' := Apply(g, TakeNewest);
    assert Kept(g') == Kept(g)[..|Kept(g)| - 1];
    assert Kept(g)[|Kept(g)| - 1] == g.live[|g.live| - 1];
  }

  lemma PushSlots<T>(s: State<T>, g: Deque<T>, v: T)
    requires SlotsHold(s, g) && |Kept(g)| < |s.slots| && s.slots[|Kept(g)|] == v
    ensures var g' := Apply(g, Push(v)); SlotsHold(s, g') && |Kept(g')| == |Kept(g)| + 1
  {
    var g' := Apply(g, Push(v));
    assert Kept(g') == Kept(g) + [|g.log|];
  }

  /** A new word whose top half is unchanged: only the owner's part needs a new proof. */
  lemma WithWord<T>(s: State<T>, g: Deque<T>, w: nat, s': State<T>)
    requires Inv(s, g) && s'.slots == s.slots && s'.thieves == s.thieves && s'.word == w
    requires Top(w) == Top(s.word) && SplitOf(w) <= |s.slots| && OwnerOk(s', g)
    ensures Inv(s', g)
  {
    ThievesFrame(s, g, s', g);
  }

  lemma PushResets<T>(s: State<T>, g: Deque<T>, w: nat)
    requires Inv(s, g) && s.owner.PushReset? && Top(w) == s.bottom && SplitOf(w) == s.bottom + 1
    ensures Inv(s.(word := w, owner := PushPublish), Apply(g, Push(s.owner.val)))
  {
    var s', g' := s.(word := w, owner := PushPublish), Apply(g, Push(s.owner.val));
    PushSlots(s, g, s.owner.val);
    ThievesFrame(s, g, s', g');
    assert Publishing(s', g');
  }

  lemma PushSteps<T>(s: State<T>, g: Deque<T>)
    requires Inv(s, g)
    requires s.owner.PushReset? || s.owner.PushPublish? || s.owner.PushAsk? || s.owner.PushUnask?
    ensures Simulates(g, OwnerGo(s))
  {
    Small(s.bottom, B32);
    if s.owner.PushReset? {
      Small(s.bottom + 1, B32);
      WordArith(s.bottom, s.bottom + 1, 0);
      PushResets(s, g, Pack(s.bottom, s.bottom + 1));
    } else {
      ThievesFrame(s, g, OwnerGo(s).0, g);
    }
  }

  lemma PushEndSteps<T>(s: State<T>, g: Deque<T>)
    requires Inv(s, g) && (s.owner.PushCheck? || s.owner.PushEnd? || s.owner.PushEndShared?)
    ensures Simulates(g, OwnerGo(s))
  {
    if s.owner.PushEnd? { PushSlots(s, g, s.owner.val); }
  }

  lemma ReadSteps<T>(s: State<T>, g: Deque<T>)
    requires Inv(s, g) && (s.owner.FastRead? || s.owner.ColdRead?)
    ensures Simulates(g, OwnerGo(s))
  {
    Small(s.bottom, |s.slots|);
    var e := Return(Owner, s.slots[s.bottom]);
    var s', g' := s.(owner := PopCheck), Apply(g, e);
    assert OwnerGo(s) == (s', e);
    assert Kept(g') == Kept(g);
    ThievesFrame(s, g, s', g');
    assert Settled(s', g');
  }

  lemma ColdTakes<T>(s: State<T>, g: Deque<T>)
    requires Inv(s, g) && s.owner.ColdTake?
    ensures Simulates(g, (s.(bottom := s.bottom - 1, owner := ColdRead), TakeNewest))
  {
    TakeNewestSlots(s, g);
    var s', g' := s.(bottom := s.bottom - 1, owner := ColdRead), Apply(g, TakeNewest);
    ThievesFrame(s, g, s', g');
    assert Taking(s', g');
  }

  lemma PopSteps<T>(s: State<T>, g: Deque<T>)
    requires Inv(s, g) && (s.owner.PopCheck? || s.owner.MarkStolen?)
    ensures Simulates(g, OwnerGo(s))
  {
    ThievesFrame(s, g, OwnerGo(s).0, g);
  }

  lemma Halfway(top: nat, split: nat)
    requires top <= split < B32
    ensures U32(top + U32(split - top) / 2) == top + (split - top) / 2
  {
  }

  lemma ShrinkBegun<T>(s: State<T>, g: Deque<T>, pc: OwnerPc<T>)
    requires Inv(s, g) && s.owner.ShrinkLoad?
    requires if |g.stolen| == s.osplit then pc == MarkStolen
             else pc.ShrinkSub? && pc.split == s.osplit && pc.newSplit < s.osplit
    ensures Inv(s.(owner := pc), g)
  {
    WithWord(s, g, s.word, s.(owner := pc));
  }

  lemma ShrinkStarts<T>(s: State<T>, g: Deque<T>)
    requires Inv(s, g) && s.owner.ShrinkLoad?
    ensures Inv(ShrinkFirst(s), g)
  {
    Halfway(|g.stolen|, s.osplit);
    ShrinkBegun(s, g, ShrinkFirst(s).owner);
  }

  /** Taking x from the split half of a word. */
  lemma LowerWord<T>(s: State<T>, split: nat, newSplit: nat) returns (w: nat)
    requires SplitOf(s.word) == split < B32 && newSplit <= split
    ensures Top(w) == Top(s.word) && SplitOf(w) == newSplit
    ensures ShrinkLower(s, split, newSplit) == s.(word := w, owner := ShrinkFresh(split, newSplit))
  {
    var top, x := Top(s.word), split - newSplit;
    WordParts(s.word);
    WordArith(top, split, x);
    WordArith(top, newSplit, 0);
    Small(x, B32);
    w := Pack(top, newSplit);
  }

  /** Adding x to it. */
  lemma RaiseWord(word: nat, x: nat) returns (w: nat)
    requires SplitOf(word) + x < B32
    ensures Top(w) == Top(word) && SplitOf(w) == SplitOf(word) + x && U64(word + x * B32) == w
  {
    var top, split := Top(word), SplitOf(word);
    WordParts(word);
    WordArith(top, split, x);
    WordArith(top, split + x, 0);
    w := Pack(top, split + x);
  }

  lemma ShrinkSubs<T>(s: State<T>, g: Deque<T>)
    requires Inv(s, g) && s.owner.ShrinkSub?
    ensures Inv(ShrinkLower(s, s.owner.split, s.owner.newSplit), g)
  {
    var w := LowerWord(s, s.owner.split, s.owner.newSplit);
    ShrinkSubbed(s, g, w);
  }

  lemma ShrinkSubbed<T>(s: State<T>, g: Deque<T>, w: nat)
    requires Inv(s, g) && s.owner.ShrinkSub? && Top(w) == Top(s.word) && SplitOf(w) == s.owner.newSplit
    ensures Inv(s.(word := w, owner := ShrinkFresh(s.owner.split, s.owner.newSplit)), g)
  {
    WithWord(s, g, w, s.(word := w, owner := ShrinkFresh(s.owner.split, s.owner.newSplit)));
  }

  /** The second look at top finds nothing left, too much taken, or a split that still holds. */
  lemma ShrinkLooked<T>(s: State<T>, g: Deque<T>, pc: OwnerPc<T>, osplit: nat)
    requires Inv(s, g) && s.owner.ShrinkFresh?
    requires var top, split, newSplit := |g.stolen|, s.owner.split, s.owner.newSplit;
      || (top == split && pc == MarkStolen && osplit == s.osplit)
      || (newSplit < top < split && pc == ShrinkFix(newSplit, (top + split) / 2) && osplit == s.osplit)
      || (top <= newSplit && pc == ColdTake && osplit == newSplit)
    ensures Inv(s.(osplit := osplit, owner := pc), g)
  {
    WithWord(s, g, s.word, s.(osplit := osplit, owner := pc));
  }

  lemma ShrinkLooks<T>(s: State<T>, g: Deque<T>)
    requires Inv(s, g) && s.owner.ShrinkFresh?
    ensures Inv(ShrinkLook(s, s.owner.split, s.owner.newSplit), g)
  {
    var s' := ShrinkLook(s, s.owner.split, s.owner.newSplit);
    assert |g.stolen| <= |Kept(g)|;
    Small((Top(s.word) + s.owner.split) / 2, B32);
    ShrinkLooked(s, g, s'.owner, s'.osplit);
  }

  lemma ShrinkRepairs<T>(s: State<T>, g: Deque<T>)
    requires Inv(s, g) && s.owner.ShrinkFix?
    ensures Inv(ShrinkRaise(s, s.owner.newSplit, s.owner.corrected), g)
  {
    var x := s.owner.corrected - s.owner.newSplit;
    var w := RaiseWord(s.word, x);
    Small(x, B32);
    ShrinkRepaired(s, g, w);
  }

  lemma ShrinkRepaired<T>(s: State<T>, g: Deque<T>, w: nat)
    requires Inv(s, g) && s.owner.ShrinkFix? && Top(w) == Top(s.word) && SplitOf(w) == s.owner.corrected
    ensures Inv(s.(word := w, osplit := s.owner.corrected, owner := ColdTake), g)
  {
    WithWord(s, g, w, s.(word := w, osplit := s.owner.corrected, owner := ColdTake));
  }

  lemma GrowShared<T>(s: State<T>, g: Deque<T>, w: nat, osplit: nat)
    requires Inv(s, g) && s.owner.Grow? && Top(w) == Top(s.word) && SplitOf(w) == osplit
    requires s.osplit <= osplit <= s.bottom
    ensures Inv(s.(word := w, osplit := osplit, oAllstolen := false, owner := GrowFlag(s.owner.after)), g)
  {
    WithWord(s, g, w, s.(word := w, osplit := osplit, oAllstolen := false, owner := GrowFlag(s.owner.after)));
  }

  lemma GrowShares<T>(s: State<T>, g: Deque<T>)
    requires Inv(s, g) && s.owner.Grow? && s.osplit < s.bottom
    ensures Inv(DoGrow(s, s.owner.after), g)
  {
    var x := (s.bottom - s.osplit + 1) / 2;
    var w := RaiseWord(s.word, x);
    GrowShared(s, g, w, s.osplit + x);
    GrowComputes(s, s.owner.after);
  }

  lemma GrowComputes<T>(s: State<T>, after: After<T>)
    requires s.osplit < s.bottom <= U31
    ensures var x := (s.bottom - s.osplit + 1) / 2;
      DoGrow(s, after) ==
      s.(word := U64(s.word + x * B32), osplit := s.osplit + x, oAllstolen := false, owner := GrowFlag(after))
  {
    Small(s.bottom, B32);
    Small(s.osplit, B32);
    Small(s.bottom - s.osplit + 1, B32);
    Small(s.osplit + (s.bottom - s.osplit + 1) / 2, B32);
  }

  lemma GrowSteps<T>(s: State<T>, g: Deque<T>)
    requires Inv(s, g) && s.owner.Grow?
    ensures Inv(DoGrow(s, s.owner.after), g)
  {
    if s.osplit < s.bottom {
      GrowShares(s, g);
    } else {
      var s' := s.(owner := Resume(s.owner.after));
      assert DoGrow(s, s.owner.after) == s' by {
        Small(s.bottom, B32);
        Small(s.osplit, B32);
      }
      ThievesFrame(s, g, s', g);
      assert Settled(s', g);
    }
  }

  lemma GrowEnds<T>(s: State<T>, g: Deque<T>)
    requires Inv(s, g) && (s.owner.GrowFlag? || s.owner.GrowUnask?)
    ensures Simulates(g, OwnerGo(s))
  {
    ThievesFrame(s, g, OwnerGo(s).0, g);
  }

  lemma PushKeepsInv<T>(s: State<T>, g: Deque<T>)
    requires Inv(s, g)
    requires s.owner.PushReset? || s.owner.PushPublish? || s.owner.PushAsk? || s.owner.PushUnask?
          || s.owner.PushCheck? || s.owner.PushEnd? || s.owner.PushEndShared?
    ensures Simulates(g, OwnerGo(s))
  {
    if s.owner.PushCheck? || s.owner.PushEnd? || s.owner.PushEndShared? {
      PushEndSteps(s, g);
    } else {
      PushSteps(s, g);
    }
  }

  lemma ShrinkKeepsInv<T>(s: State<T>, g: Deque<T>)
    requires Inv(s, g)
    requires s.owner.ShrinkLoad? || s.owner.ShrinkSub? || s.owner.ShrinkFresh? || s.owner.ShrinkFix?
    ensures Simulates(g, OwnerGo(s))
  {
    match s.owner
    case ShrinkLoad => ShrinkStarts(s, g);
    case ShrinkSub(_, _) => ShrinkSubs(s, g);
    case ShrinkFresh(_, _) => ShrinkLooks(s, g);
    case ShrinkFix(_, _) => ShrinkRepairs(s, g);
  }

  lemma PopKeepsInv<T>(s: State<T>, g: Deque<T>)
    requires Inv(s, g)
    requires s.owner.FastRead? || s.owner.ColdRead? || s.owner.PopCheck? || s.owner.MarkStolen? || s.owner.ColdTake?
    ensures Simulates(g, OwnerGo(s))
  {
    match s.owner
    case FastRead => ReadSteps(s, g);
    case ColdRead => ReadSteps(s, g);
    case ColdTake =>
      assert OwnerGo(s) == (s.(bottom := s.bottom - 1, owner := ColdRead), TakeNewest);
      ColdTakes(s, g);
    case _ => PopSteps(s, g);
  }

  lemma OwnerKeeps<T>(s: State<T>, g: Deque<T>)
    requires Inv(s, g)
    ensures Simulates(g, OwnerGo(s))
  {
    if s.owner.Grow? {
      GrowSteps(s, g);
    } else if s.owner.GrowFlag? || s.owner.GrowUnask? {
      GrowEnds(s, g);
    } else if s.owner.ShrinkLoad? || s.owner.ShrinkSub? || s.owner.ShrinkFresh? || s.owner.ShrinkFix? {
      ShrinkKeepsInv(s, g);
    } else if s.owner.FastRead? || s.owner.ColdRead? || s.owner.PopCheck? || s.owner.MarkStolen? || s.owner.ColdTake? {
      PopKeepsInv(s, g);
    } else if !s.owner.Idle? {
      PushKeepsInv(s, g);
    }
  }

  lemma AheadMeansBelow(split: nat, top: nat)
    requires split <= U31 && top <= U31 && Ahead(split, top)
    ensures top < split
  {
  }

  /** Steps of a thief that leave the word alone leave the owner's view alone. */
  lemma OwnerFrame<T>(s: State<T>, g: Deque<T>, s': State<T>, g': Deque<T>)
    requires OwnerOk(s, g) && s'.(thieves := s.thieves, splitreq := s.splitreq) == s
    requires g'.stolen == g.stolen && g'.live == g.live && g'.log == g.log
    requires (Owner in g'.owed <==> Owner in g.owed) && (Owner in g.owed ==> g'.owed[Owner] == g.owed[Owner])
    ensures OwnerOk(s', g')
  {
  }

  /** A steal of a shared slot keeps the owner's view: split, bottom and what it still holds. */
  lemma OwnerAfterSteal<T>(s: State<T>, g: Deque<T>, s': State<T>, g': Deque<T>)
    requires OwnerOk(s, g) && SplitOf(s'.word) == SplitOf(s.word) && |g.stolen| < SplitOf(s.word)
    requires s'.(thieves := s.thieves, word := s.word) == s
    requires |g'.stolen| == |g.stolen| + 1 && Kept(g') == Kept(g) && g'.log == g.log
    requires (Owner in g'.owed <==> Owner in g.owed) && (Owner in g.owed ==> g'.owed[Owner] == g.owed[Owner])
    ensures OwnerOk(s', g')
  {
  }

  lemma SplitBelowKept<T>(s: State<T>, g: Deque<T>)
    requires OwnerOk(s, g) && |g.stolen| < SplitOf(s.word)
    ensures SplitOf(s.word) <= |Kept(g)|
  {
  }

  lemma ThievesAfterSteal<T>(s: State<T>, g: Deque<T>, s': State<T>, g': Deque<T>, t: nat)
    requires ThievesOk(s, g) && |g.live| > 0 && Thief(t) !in g.owed
    requires s'.thieves == s.thieves[t := Read(|g.stolen|)] && g' == Apply(g, TakeOldest(t))
    ensures ThievesOk(s', g')
  {
  }

  /** A winning compare-exchange found the word it had read, so the slot at top was shared. */
  lemma CasKeeps<T>(s: State<T>, g: Deque<T>, t: nat)
    requires Inv(s, g) && t in s.thieves && s.thieves[t] == Cas(s.word)
    ensures Simulates(g, ThiefGo(s, t))
  {
    var top, split := Top(s.word), SplitOf(s.word);
    assert top <= |Kept(g)| <= |s.slots|;
    AheadMeansBelow(split, top);
    Small(top + 1, B32);
    WordArith(top + 1, split, 0);
    SplitBelowKept(s, g);
    assert |g.live| > 0;
    var s', g' := s.(word := Pack(top + 1, split), thieves := s.thieves[t := Read(top)]), Apply(g, TakeOldest(t));
    assert ThiefGo(s, t) == (s', TakeOldest(t));
    assert Kept(g') == Kept(g);
    ThievesAfterSteal(s, g, s', g', t);
    OwnerAfterSteal(s, g, s', g');
  }

  lemma ReadKeeps<T>(s: State<T>, g: Deque<T>, t: nat)
    requires Inv(s, g) && t in s.thieves && s.thieves[t].Read?
    ensures Simulates(g, ThiefGo(s, t))
  {
    var i := s.thieves[t].index;
    assert Kept(g)[i] == g.stolen[i];
    Small(i, |s.slots|);
    var e := Return(Thief(t), s.slots[i]);
    var s', g' := s.(thieves := s.thieves - {t}), Apply(g, e);
    assert ThiefGo(s, t) == (s', e);
    assert Kept(g') == Kept(g);
    assert ThievesOk(s', g');
    OwnerFrame(s, g, s', g');
  }

  /** The other steps of a thief: flag and word loads, a lost exchange, a request. */
  lemma ThiefMoves<T>(s: State<T>, g: Deque<T>, t: nat, pc: ThiefPc, leaves: bool, req: bool)
    requires Inv(s, g) && (t in s.thieves ==> !s.thieves[t].Read?) && !pc.Read?
    requires pc.Cas? ==> Ahead(SplitOf(pc.seen), Top(pc.seen))
    ensures Inv(s.(thieves := if leaves then s.thieves - {t} else s.thieves[t := pc], splitreq := req), g)
  {
    var s' := s.(thieves := if leaves then s.thieves - {t} else s.thieves[t := pc], splitreq := req);
    assert ThievesOk(s', g);
    OwnerFrame(s, g, s', g);
  }

  lemma ThiefKeeps<T>(s: State<T>, g: Deque<T>, t: nat)
    requires Inv(s, g)
    ensures Simulates(g, ThiefGo(s, t))
  {
    if t !in s.thieves {
      if !s.allstolen { ThiefMoves(s, g, t, Load, false, s.splitreq); }
    } else {
      match s.thieves[t]
      case Load =>
        ThiefMoves(s, g, t, if Ahead(SplitOf(s.word), Top(s.word)) then Cas(s.word) else Ask, false, s.splitreq);
      case Ask => ThiefMoves(s, g, t, Load, true, true);
      case Cas(seen) =>
        if s.word == seen { CasKeeps(s, g, t); } else { ThiefMoves(s, g, t, Load, true, s.splitreq); }
      case Read(_) => ReadKeeps(s, g, t);
    }
  }

  // ---------------------------------------------------------------- whole executions

  function Exec<T>(s: State<T>, acts: seq<Act<T>>): (State<T>, seq<Event<T>>)
    requires |s.slots| > 0
    decreases |acts|
  {
    if acts == [] then (s, [])
    else
      var (s1, e) := Step(s, acts[0]);
      StepKeepsSize(s, acts[0]);
      var (s2, es) := Exec(s1, acts[1..]);
      (s2, [e] + es)
  }

  lemma StepKeepsSize<T>(s: State<T>, a: Act<T>)
    requires |s.slots| > 0
    ensures |Step(s, a).0.slots| == |s.slots|
  {
  }

  /** No push starts at an index that is not below k. */
  ghost predicate Below<T>(s: State<T>, acts: seq<Act<T>>, k: nat)
    requires |s.slots| > 0
    decreases |acts|
  {
    acts == [] ||
    (StepKeepsSize(s, acts[0]);
     && (acts[0].StartPush? && s.owner.Idle? ==> s.bottom < k)
     && Below(Step(s, acts[0]).0, acts[1..], k))
  }

  lemma StepKeeps<T>(s: State<T>, g: Deque<T>, a: Act<T>)
    requires Inv(s, g) && (a.StartPush? && s.owner.Idle? ==> s.bottom < |s.slots|)
    ensures Simulates(g, Step(s, a))
  {
    match a
    case StartPush(v) => if s.owner.Idle? { PushStarts(s, g, v); }
    case StartPop => if s.owner.Idle? { PopStarts(s, g); }
    case Go => OwnerKeeps(s, g);
    case Steal(t) => ThiefKeeps(s, g, t);
  }

  lemma {:induction false} ExecKeeps<T>(s: State<T>, g: Deque<T>, acts: seq<Act<T>>)
    requires Inv(s, g) && Below(s, acts, |s.slots|)
    ensures var (s', es) := Exec(s, acts); AllLegal(g, es) && Inv(s', ApplyAll(g, es))
    decreases |acts|
  {
    if acts != [] {
      StepKeeps(s, g, acts[0]);
      StepKeepsSize(s, acts[0]);
      var (s1, e) := Step(s, acts[0]);
      ExecKeeps(s1, Apply(g, e), acts[1..]);
      var (s2, es) := Exec(s1, acts[1..]);
      assert ([e] + es)[1..] == es;
    }
  }

  lemma InitOk<T>(slots: seq<T>)
    requires 0 < |slots| <= U31
    ensures Inv(Init(slots), Empty())
  {
  }

  lemma ShrinkView<T>(s: State<T>, g: Deque<T>)
    requires Inv(s, g)
    ensures s.owner.MarkStolen? ==> g.live == []
    ensures s.owner.ColdTake? ==>
      s.word == Pack(|g.stolen|, s.osplit) && |g.stolen| <= s.osplit < s.bottom == |g.stolen| + |g.live|
  {
    WordParts(s.word);
  }

  lemma RunsLegally<T>(slots: seq<T>, acts: seq<Act<T>>)
    requires 0 < |slots| <= U31 && Below(Init(slots), acts, |slots|)
    ensures AllLegal(Empty(), Exec(Init(slots), acts).1) && !Exec(Init(slots), acts).0.owner.Wild?
  {
    InitOk(slots);
    ExecKeeps(Init(slots), Empty(), acts);
  }

  /** Exactly-once delivery, in every interleaving that stays below the capacity. */
  lemma LaceExactlyOnce<T>(slots: seq<T>, acts: seq<Act<T>>)
    requires 0 < |slots| <= U31 && Below(Init(slots), acts, |slots|)
    ensures var (s, es) := Exec(Init(slots), acts);
      AllLegal(Empty(), es) && Good(ApplyAll(Empty(), es)) && !s.owner.Wild?
  {
    RunsLegally(slots, acts);
    AlwaysExactlyOnce(Empty(), Exec(Init(slots), acts).1);
  }

  /**
   shrink_shared under interference: it reports all stolen only when nothing is left, and otherwise
   leaves top <= split == osplit < bottom, so the owner has a private element to take.
   */
  lemma ShrinkOutcome<T>(slots: seq<T>, acts: seq<Act<T>>)
    requires 0 < |slots| <= U31 && Below(Init(slots), acts, |slots|)
    ensures var (s, es) := Exec(Init(slots), acts);
      && AllLegal(Empty(), es)
      && var g := ApplyAll(Empty(), es);
         && (s.owner.MarkStolen? ==> g.live == [])
         && (s.owner.ColdTake? ==>
               && s.word == Pack(|g.stolen|, s.osplit)
               && |g.stolen| <= s.osplit < s.bottom == |g.stolen| + |g.live|)
  {
    InitOk(slots);
    ExecKeeps(Init(slots), Empty(), acts);
    var (s, es) := Exec(Init(slots), acts);
    ShrinkView(s, ApplyAll(Empty(), es));
  }

  lemma SubTakes<T>(s: State<T>, g: Deque<T>)
    requires Inv(s, g) && s.owner.ShrinkSub?
    ensures var s' := ShrinkLower(s, s.owner.split, s.owner.newSplit);
      Top(s'.word) == Top(s.word) && SplitOf(s'.word) == SplitOf(s.word) - (s.owner.split - s.owner.newSplit)
  {
    ShrinkSubs(s, g);
  }

  lemma FixAdds<T>(s: State<T>, g: Deque<T>)
    requires Inv(s, g) && s.owner.ShrinkFix?
    ensures var s' := ShrinkRaise(s, s.owner.newSplit, s.owner.corrected);
      Top(s'.word) == Top(s.word) && SplitOf(s'.word) == SplitOf(s.word) + (s.owner.corrected - s.owner.newSplit)
  {
    ShrinkRepairs(s, g);
  }

  lemma GrowAdds<T>(s: State<T>, g: Deque<T>)
    requires Inv(s, g) && s.owner.Grow?
    ensures var s' := DoGrow(s, s.owner.after);
      Top(s'.word) == Top(s.word) && SplitOf(s'.word) == SplitOf(s.word) + (s'.osplit - s.osplit)
  {
    GrowSteps(s, g);
  }

  /** What a packed step of the owner does to the two halves. */
  lemma PackedStep<T>(s: State<T>, g: Deque<T>)
    requires Inv(s, g)
    ensures var s' := OwnerGo(s).0;
      && (s.owner.ShrinkSub? || s.owner.ShrinkFix? || s.owner.Grow? ==> Top(s'.word) == Top(s.word))
      && (s.owner.ShrinkSub? ==> SplitOf(s'.word) == SplitOf(s.word) - (s.owner.split - s.owner.newSplit))
      && (s.owner.ShrinkFix? ==> SplitOf(s'.word) == SplitOf(s.word) + (s.owner.corrected - s.owner.newSplit))
      && (s.owner.Grow? ==> SplitOf(s'.word) == SplitOf(s.word) + (s'.osplit - s.osplit))
  {
    match s.owner
    case ShrinkSub(_, _) => SubTakes(s, g);
    case ShrinkFix(_, _) => FixAdds(s, g);
    case Grow(_) => GrowAdds(s, g);
    case _ =>
  }

  /**
   In every run the owner's fetch_sub and fetch_add take from or add to the split half exactly what they
   mean to, and leave the top half as the thieves have it.
   */
  lemma HalvesStayApart<T>(slots: seq<T>, acts: seq<Act<T>>)
    requires 0 < |slots| <= U31 && Below(Init(slots), acts, |slots|)
    ensures var s := Exec(Init(slots), acts).0;
      && |s.slots| > 0
      && var s' := OwnerGo(s).0;
      && (s.owner.ShrinkSub? || s.owner.ShrinkFix? || s.owner.Grow? ==> Top(s'.word) == Top(s.word))
      && (s.owner.ShrinkSub? ==> SplitOf(s'.word) == SplitOf(s.word) - (s.owner.split - s.owner.newSplit))
      && (s.owner.ShrinkFix? ==> SplitOf(s'.word) == SplitOf(s.word) + (s.owner.corrected - s.owner.newSplit))
      && (s.owner.Grow? ==> SplitOf(s'.word) == SplitOf(s.word) + (s'.osplit - s.osplit))
  {
    InitOk(slots);
    ExecKeeps(Init(slots), Empty(), acts);
    PackedStep(Exec(Init(slots), acts).0, ApplyAll(Empty(), Exec(Init(slots), acts).1));
  }

  // ---------------------------------------------------------------- steals that find nothing

  /** The shared flag is up only while the owner knows that all is stolen and has not published since. */
  predicate FlagOk<T>(s: State<T>) {
    s.allstolen ==> s.oAllstolen && !s.owner.PushAsk? && !s.owner.PushUnask?
  }

  lemma FlagKeeps<T>(s: State<T>, g: Deque<T>, a: Act<T>)
    requires Inv(s, g) && FlagOk(s)
    ensures FlagOk(Step(s, a).0)
  {
  }

  lemma {:induction false} ExecFlag<T>(s: State<T>, g: Deque<T>, acts: seq<Act<T>>)
    requires Inv(s, g) && FlagOk(s) && Below(s, acts, |s.slots|)
    ensures FlagOk(Exec(s, acts).0)
    decreases |acts|
  {
    if acts != [] {
      StepKeeps(s, g, acts[0]);
      StepKeepsSize(s, acts[0]);
      FlagKeeps(s, g, acts[0]);
      var (s1, e) := Step(s, acts[0]);
      ExecFlag(s1, Apply(g, e), acts[1..]);
    }
  }

  lemma NotAhead(split: nat, top: nat)
    requires split <= U31 && top <= U31
    ensures Ahead(split, top) <==> top < split < top + U31
  {
  }

  lemma EmptyFor<T>(s: State<T>, g: Deque<T>)
    requires Inv(s, g) && FlagOk(s)
    ensures s.allstolen ==> g.live == [] || (|g.live| == 1 && s.owner.PushPublish?)
    ensures Ahead(SplitOf(s.word), Top(s.word)) <==> |g.stolen| < SplitOf(s.word) < |g.stolen| + U31
  {
    NotAhead(SplitOf(s.word), Top(s.word));
  }

  lemma StealDecides<T>(s: State<T>, g: Deque<T>, t: nat)
    requires Inv(s, g) && FlagOk(s)
    ensures var s' := ThiefGo(s, t).0;
      && (t !in s.thieves && t !in s'.thieves ==> g.live == [] || (|g.live| == 1 && s.owner.PushPublish?))
      && (t in s.thieves && s.thieves[t].Load? ==>
            && t in s'.thieves
            && s'.thieves[t] == if |g.stolen| < SplitOf(s.word) < |g.stolen| + U31 then Cas(s.word) else Ask)
      && (t in s.thieves && s.thieves[t].Ask? ==> s'.splitreq)
  {
    EmptyFor(s, g);
  }

  /**
   The answers of a steal.  One that gives up at the flag does so while the deque is empty or its only element
   is being published; one that looks at the word goes on exactly if something is shared, short of 2^31
   shared elements; and one that found nothing shared asks the owner to share before it reports.
   */
  lemma StealEmptyIsRight<T>(slots: seq<T>, acts: seq<Act<T>>, t: nat)
    requires 0 < |slots| <= U31 && Below(Init(slots), acts, |slots|)
    ensures AllLegal(Empty(), Exec(Init(slots), acts).1)
    ensures var s, g := Exec(Init(slots), acts).0, ApplyAll(Empty(), Exec(Init(slots), acts).1);
      && |s.slots| > 0
      && var s' := ThiefGo(s, t).0;
      && (t !in s.thieves && t !in s'.thieves ==> g.live == [] || (|g.live| == 1 && s.owner.PushPublish?))
      && (t in s.thieves && s.thieves[t].Load? ==>
            && t in s'.thieves
            && s'.thieves[t] == if |g.stolen| < SplitOf(s.word) < |g.stolen| + U31 then Cas(s.word) else Ask)
      && (t in s.thieves && s.thieves[t].Ask? ==> s'.splitreq)
  {
    InitOk(slots);
    ExecKeeps(Init(slots), Empty(), acts);
    ExecFlag(Init(slots), Empty(), acts);
    var (s, es) := Exec(Init(slots), acts);
    StealDecides(s, ApplyAll(Empty(), es), t);
  }
}
