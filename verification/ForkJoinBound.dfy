/** 65534 steals per scope is the exact limit of the 16-bit join counter. */
module ForkJoinBound {
  import opened Options
  import opened ForkJoin
  import opened ForkJoinInv
  import opened ForkJoinCounters
  import opened ForkJoinSafety

  predicate SameFrame(s: State, v: nat, w: nat)
    requires v in s.workers && w in s.workers
  {
    Cur(s.workers[v].pc).Some? && Cur(s.workers[v].pc) == Cur(s.workers[w].pc)
  }

  /** No frame is resumed by two workers. */
  ghost predicate Exclusive(s: State) {
    forall v, w :: v in s.workers && w in s.workers && SameFrame(s, v, w) ==> v == w
  }

  /** Every run with at most k steals per scope resumes each frame once. */
  ghost predicate SafeUpTo(k: nat) {
    forall s, acts :: Init(s) && FewSteals(s, acts, k) ==> Exclusive(Exec(s, acts))
  }

  // ---------------------------------------------------------------- runs in pieces

  lemma {:induction false} Append(s: State, x: seq<Act>, y: seq<Act>, k: nat)
    ensures Exec(s, x + y) == Exec(Exec(s, x), y)
    ensures FewSteals(s, x, k) && FewSteals(Exec(s, x), y, k) ==> FewSteals(s, x + y, k)
    decreases |x|
  {
    if x == [] {
      assert x + y == y;
    } else {
      assert (x + y)[0] == x[0] && (x + y)[1..] == x[1..] + y;
      Append(Step(s, x[0]), x[1..], y, k);
    }
  }

  lemma {:induction false} Monotone(s: State, acts: seq<Act>, j: nat, k: nat)
    requires FewSteals(s, acts, j) && j <= k
    ensures FewSteals(s, acts, k)
    decreases |acts|
  {
    if acts != [] { Monotone(Step(s, acts[0]), acts[1..], j, k); }
  }

  // ---------------------------------------------------------------- a run with many steals

  /** Only t and c exist, and none has seen more than 65535 steals. */
  predicate Only(s: State, t: nat, c: nat) {
    && t in s.tasks && t < c < s.nextTask && s.tasks[t].thefts <= MAX
    && forall x :: x in s.tasks ==> x == t || (x == c && s.tasks[c].thefts == 0)
  }

  predicate Pair(s: State, a: nat, b: nat) {
    && a != b && a in s.workers && b in s.workers
    && s.workers[a].tls in s.stacks && s.workers[b].tls in s.stacks && s.workers[b].deque == []
  }

  /** Worker a runs t, whose scope has seen j steals and j registrations; b is idle. */
  predicate Stage(s: State, t: nat, a: nat, b: nat, j: nat) {
    && Pair(s, a, b) && t in s.tasks && t < s.nextTask && j < MAX && (forall x :: x in s.tasks ==> x == t)
    && s.workers[a].pc == Run(t) && s.workers[b].pc == Idle && s.workers[a].deque == []
    && s.tasks[t].joins == MAX - j && s.tasks[t].steals == j == s.tasks[t].thefts
  }

  predicate Forking(s: State, t: nat, c: nat, a: nat, b: nat, j: nat) {
    && Pair(s, a, b) && Only(s, t, c) && j < MAX && c in s.tasks
    && s.workers[a].pc == Run(c) && s.workers[b].pc == Idle && s.workers[a].deque == [t]
    && s.tasks[t].joins == MAX - j && s.tasks[t].steals == j == s.tasks[t].thefts
    && s.tasks[c].kind.Forked? && s.tasks[c].parent == t && s.tasks[c].steals == 0
  }

  /** b has t; pc is what a and b are about to do, steals whether the steal is counted. */
  predicate Apart(s: State, t: nat, c: nat, a: nat, b: nat, j: nat, atA: Pc, atB: Pc, steals: nat) {
    && Pair(s, a, b) && Only(s, t, c) && j < MAX && c in s.tasks
    && s.workers[a].pc == atA && s.workers[b].pc == atB && s.workers[a].deque == []
    && s.tasks[t].joins == MAX - j && s.tasks[t].steals == steals && s.tasks[t].thefts == j + 1
    && s.tasks[c].kind.Forked? && s.tasks[c].parent == t && s.tasks[c].steals == 0
  }

  lemma ForkStep(s: State, t: nat, a: nat, b: nat, j: nat)
    requires Stage(s, t, a, b, j)
    ensures Forking(Step(s, Fork(a)), t, s.nextTask, a, b, j)
  {
  }

  lemma StealStep(s: State, t: nat, c: nat, a: nat, b: nat, j: nat)
    requires Forking(s, t, c, a, b, j)
    ensures Apart(Step(s, Steal(b, a)), t, c, a, b, j, Run(c), Stole(t), j)
  {
  }

  lemma CountStep(s: State, t: nat, c: nat, a: nat, b: nat, j: nat)
    requires Apart(s, t, c, a, b, j, Run(c), Stole(t), j)
    ensures Apart(Step(s, Go(b)), t, c, a, b, j, Run(c), Run(t), j + 1)
  {
  }

  lemma ReturnStep(s: State, t: nat, c: nat, a: nat, b: nat, j: nat)
    requires Apart(s, t, c, a, b, j, Run(c), Run(t), j + 1)
    ensures Apart(Step(s, Return(a)), t, c, a, b, j, Finish(c, t), Run(t), j + 1)
  {
  }

  lemma PopStep(s: State, t: nat, c: nat, a: nat, b: nat, j: nat)
    requires Apart(s, t, c, a, b, j, Finish(c, t), Run(t), j + 1)
    ensures exists same :: Apart(Step(s, Go(a)), t, c, a, b, j, Register(c, t, same), Run(t), j + 1)
  {
    var same := s.tasks[t].stack == s.workers[a].tls;
    assert Apart(Step(s, Go(a)), t, c, a, b, j, Register(c, t, same), Run(t), j + 1);
  }

  lemma RegisterSteps(s: State, t: nat, c: nat, a: nat, b: nat, j: nat, same: bool)
    requires Apart(s, t, c, a, b, j, Register(c, t, same), Run(t), j + 1) && j < MAX - 1
    ensures Stage(Step(Step(s, Go(a)), Go(a)), t, b, a, j + 1)
    ensures AtMost(Step(s, Go(a)), MAX)
  {
    var s1 := Step(s, Go(a));
    assert s1.workers[a].pc == Release(same);
  }

  /** After 65534 registrations the next decrement finds 1 while b is running the parent. */
  lemma FalseLast(s: State, t: nat, c: nat, a: nat, b: nat, same: bool)
    requires Apart(s, t, c, a, b, MAX - 1, Register(c, t, same), Run(t), MAX)
    ensures !Exclusive(Step(s, Go(a))) && AtMost(Step(s, Go(a)), MAX)
  {
    var s' := Step(s, Go(a));
    assert a in s'.workers && b in s'.workers && Cur(s'.workers[a].pc) == Some(t) == Cur(s'.workers[b].pc);
  }

  /** a's child is destroyed and about to register. */
  ghost predicate Counting(s: State, t: nat, c: nat, a: nat, b: nat, j: nat) {
    exists same :: Apart(s, t, c, a, b, j, Register(c, t, same), Run(t), j + 1)
  }

  lemma Two(s: State, x: Act, y: Act, k: nat)
    ensures Exec(s, [x, y]) == Step(Step(s, x), y)
    ensures AtMost(s, k) && AtMost(Step(s, x), k) && AtMost(Step(Step(s, x), y), k) ==> FewSteals(s, [x, y], k)
  {
    assert [x, y][1..] == [y] && [y][1..] == [];
    assert Exec(Step(s, x), [y]) == Exec(Step(Step(s, x), y), []);
    assert AtMost(Step(Step(s, x), y), k) ==> FewSteals(Step(Step(s, x), y), [], k);
  }

  lemma One(s: State, x: Act, k: nat)
    ensures Exec(s, [x]) == Step(s, x)
    ensures AtMost(s, k) && AtMost(Step(s, x), k) ==> FewSteals(s, [x], k)
  {
    assert [x][1..] == [];
    assert AtMost(Step(s, x), k) ==> FewSteals(Step(s, x), [], k);
  }

  function Half(a: nat, b: nat): seq<Act> { [Fork(a), Steal(b, a)] + ([Go(b), Return(a)] + [Go(a)]) }

  lemma StolenAway(s: State, t: nat, a: nat, b: nat, j: nat) returns (s2: State)
    requires Stage(s, t, a, b, j)
    ensures s2 == Exec(s, [Fork(a), Steal(b, a)]) && FewSteals(s, [Fork(a), Steal(b, a)], MAX)
    ensures Apart(s2, t, s.nextTask, a, b, j, Run(s.nextTask), Stole(t), j)
  {
    ForkStep(s, t, a, b, j);
    var s1 := Step(s, Fork(a));
    StealStep(s1, t, s.nextTask, a, b, j);
    s2 := Step(s1, Steal(b, a));
    Two(s, Fork(a), Steal(b, a), MAX);
  }

  lemma FinishedApart(s2: State, t: nat, c: nat, a: nat, b: nat, j: nat)
    requires Apart(s2, t, c, a, b, j, Run(c), Stole(t), j)
    ensures Counting(Exec(s2, [Go(b), Return(a)] + [Go(a)]), t, c, a, b, j)
    ensures FewSteals(s2, [Go(b), Return(a)] + [Go(a)], MAX)
  {
    CountStep(s2, t, c, a, b, j);
    var s3 := Step(s2, Go(b));
    ReturnStep(s3, t, c, a, b, j);
    var s4 := Step(s3, Return(a));
    PopStep(s4, t, c, a, b, j);
    Two(s2, Go(b), Return(a), MAX);
    One(s4, Go(a), MAX);
    Append(s2, [Go(b), Return(a)], [Go(a)], MAX);
  }

  lemma HalfRound(s: State, t: nat, a: nat, b: nat, j: nat)
    requires Stage(s, t, a, b, j)
    ensures Counting(Exec(s, Half(a, b)), t, s.nextTask, a, b, j) && FewSteals(s, Half(a, b), MAX)
  {
    var s2 := StolenAway(s, t, a, b, j);
    FinishedApart(s2, t, s.nextTask, a, b, j);
    Append(s, [Fork(a), Steal(b, a)], [Go(b), Return(a)] + [Go(a)], MAX);
  }

  lemma Round(s: State, t: nat, a: nat, b: nat, j: nat) returns (acts: seq<Act>, s': State)
    requires Stage(s, t, a, b, j) && j < MAX - 1
    ensures FewSteals(s, acts, MAX) && s' == Exec(s, acts) && Stage(s', t, b, a, j + 1)
  {
    var c, s1 := s.nextTask, Exec(s, Half(a, b));
    HalfRound(s, t, a, b, j);
    var same :| Apart(s1, t, c, a, b, j, Register(c, t, same), Run(t), j + 1);
    Two(s1, Go(a), Go(a), MAX);
    RegisterSteps(s1, t, c, a, b, j, same);
    Append(s, Half(a, b), [Go(a), Go(a)], MAX);
    acts := Half(a, b) + [Go(a), Go(a)];
    s' := Exec(s, acts);
  }

  lemma FalseRound(s: State, t: nat, a: nat, b: nat) returns (acts: seq<Act>)
    requires Stage(s, t, a, b, MAX - 1)
    ensures FewSteals(s, acts, MAX) && !Exclusive(Exec(s, acts))
  {
    var c, s1 := s.nextTask, Exec(s, Half(a, b));
    HalfRound(s, t, a, b, MAX - 1);
    var same :| Apart(s1, t, c, a, b, MAX - 1, Register(c, t, same), Run(t), MAX);
    One(s1, Go(a), MAX);
    FalseLast(s1, t, c, a, b, same);
    Append(s, Half(a, b), [Go(a)], MAX);
    acts := Half(a, b) + [Go(a)];
  }

  /** n more rounds, the two workers taking turns. */
  lemma {:induction false} ManyRounds(s: State, t: nat, a: nat, b: nat, j: nat, n: nat)
    returns (acts: seq<Act>, s': State, x: nat, y: nat)
    requires Stage(s, t, a, b, j) && j + n <= MAX - 1
    ensures FewSteals(s, acts, MAX) && s' == Exec(s, acts) && Stage(s', t, x, y, j + n)
    decreases n
  {
    if n == 0 {
      acts, s', x, y := [], s, a, b;
    } else {
      var first, s1 := Round(s, t, a, b, j);
      var more, s2, x', y' := ManyRounds(s1, t, b, a, j + 1, n - 1);
      Append(s, first, more, MAX);
      acts, s', x, y := first + more, s2, x', y';
    }
  }

  /** Two idle workers, each with a bare stack. */
  function TwoWorkers(): State {
    State(map[0 := Worker(Idle, [], 0), 1 := Worker(Idle, [], 1)], map[], map[0 := None, 1 := None], {}, 1, 2)
  }

  lemma Starting()
    ensures Init(TwoWorkers()) && FewSteals(TwoWorkers(), [Submit, TakeRoot(0, 1)], MAX)
    ensures Stage(Exec(TwoWorkers(), [Submit, TakeRoot(0, 1)]), 1, 0, 1, 0)
  {
    var s := TwoWorkers();
    var s1 := Step(s, Submit);
    var s2 := Step(s1, TakeRoot(0, 1));
    assert Stage(s2, 1, 0, 1, 0);
    Two(s, Submit, TakeRoot(0, 1), MAX);
  }

  /** With 65535 steals in one scope two workers can end up resuming the same frame. */
  lemma TooManySteals() returns (acts: seq<Act>)
    ensures FewSteals(TwoWorkers(), acts, MAX) && !Exclusive(Exec(TwoWorkers(), acts))
  {
    var s, begin := TwoWorkers(), [Submit, TakeRoot(0, 1)];
    Starting();
    var s1 := Exec(s, begin);
    var middle, s2, a, b := ManyRounds(s1, 1, 0, 1, 0, MAX - 1);
    var end := FalseRound(s2, 1, a, b);
    Append(s1, middle, end, MAX);
    Append(s, begin, middle + end, MAX);
    acts := begin + (middle + end);
  }

  lemma InvExclusive(s: State)
    requires Inv(s)
    ensures Exclusive(s)
  {
    forall v, w | v in s.workers && w in s.workers && SameFrame(s, v, w) ensures v == w
    { assert WorkerOk(s, v) && WorkerOk(s, w); }
  }

  /** The protocol is safe for a given number of steals per scope exactly up to 65534. */
  lemma ExactBound(k: nat)
    ensures SafeUpTo(k) <==> k <= MAX - 1
  {
    if k <= MAX - 1 {
      forall s, acts | Init(s) && FewSteals(s, acts, k) ensures Exclusive(Exec(s, acts)) {
        Monotone(s, acts, k, MAX - 1);
        InitInv(s);
        RunInv(s, acts);
        InvExclusive(Exec(s, acts));
      }
    } else {
      Starting();
      var acts := TooManySteals();
      Monotone(TwoWorkers(), acts, MAX, k);
    }
  }
}
