/**
 Fork-join on segmented stacks: every stack is a chain of stacklets, every frame remembers the stacklet that
 was on top when it was allocated, and the protocol compares stacklets.
 */
module ForkJoinStacklets {
  import opened Options
  import opened ForkJoin
  import opened ForkJoinInv
  import opened ForkJoinChains
  import opened ForkJoinCounters
  import opened ForkJoinStacks
  import opened ForkJoinSafety
  import Segments

  type Blocks = seq<seq<nat>>

  datatype Layer = Layer(
    fj: State,
    chains: map<nat, Segments.Chain>,   // what each stack holds
    blocks: map<nat, Blocks>)           // what it held just after a frame was allocated

  /** A step of the protocol with the size of the frame it allocates, if it does. */
  datatype Move = Move(act: Act, size: nat)

  predicate Usable(c: Segments.Chain) { 0 < |c.segs| <= |c.caps| }

  predicate HasBlock(c: Segments.Chain) { Usable(c) && c.segs[|c.segs| - 1] != [] }

  predicate Creates(s: State, a: Act) {
    && (a.Fork? || a.Call?) && a.w in s.workers && s.workers[a.w].pc.Run? && s.workers[a.w].pc.t in s.tasks
    && s.workers[a.w].tls in s.stacks
  }

  predicate Leaves(s: State, a: Act) {
    && a.Return? && a.w in s.workers && s.workers[a.w].pc.Run? && s.workers[a.w].pc.t in s.tasks
    && s.tasks[s.workers[a.w].pc.t].steals == 0
  }

  function Allocated(l: Layer, k: nat, c: Segments.Chain, x: nat, size: nat): Layer
    requires Usable(c)
  {
    var c' := Segments.Alloc(c, size);
    l.(chains := l.chains[k := c'], blocks := l.blocks[x := c'.segs])
  }

  function Step(l: Layer, m: Move): Layer {
    var s, s', a := l.fj, ForkJoin.Step(l.fj, m.act), m.act;
    var l' := l.(fj := s');
    if a.Submit? then Allocated(l', s.nextStack, Segments.Empty(), s.nextTask, m.size)
    else if Creates(s, a) then
      var k := s.workers[a.w].tls;
      if k in l.chains && Usable(l.chains[k]) then Allocated(l', k, l.chains[k], s.nextTask, m.size) else l'
    else if Leaves(s, a) then
      var k := s.workers[a.w].tls;
      if k in l.chains && HasBlock(l.chains[k]) then l'.(chains := l.chains[k := Segments.Dealloc(l.chains[k])]) else l'
    else if s'.nextStack > s.nextStack then l'.(chains := l.chains[s.nextStack := Segments.Empty()])
    else l'
  }

  /** frame::stacklet() and stack::top(): a stack and the position of a stacklet on it. */
  function StackletOf(l: Layer, x: nat): (nat, nat)
    requires x in l.fj.tasks && x in l.blocks
  {
    (l.fj.tasks[x].stack, |l.blocks[x]|)
  }

  function TopStacklet(l: Layer, k: nat): (nat, nat)
    requires k in l.chains
  {
    (k, |l.chains[k].segs|)
  }

  // ---------------------------------------------------------------- invariant

  ghost predicate ChainOk(l: Layer, k: nat)
    requires k in l.fj.stacks
  {
    && k in l.chains && Segments.Ok(l.chains[k])
    && match l.fj.stacks[k]
       case None => l.chains[k].segs == [[]]
       case Some(t) => t in l.blocks && l.chains[k].segs == l.blocks[t]
  }

  /** Without its newest block a frame's stack is as its predecessor on the stack found it, or empty. */
  ghost predicate BlocksOk(l: Layer, x: nat)
    requires x in l.fj.tasks
  {
    && x in l.blocks && l.blocks[x] != [] && l.blocks[x][|l.blocks[x]| - 1] != []
    && match l.fj.tasks[x].under
       case None => Segments.DropSegs(l.blocks[x]) == [[]]
       case Some(p) => p in l.blocks && Segments.DropSegs(l.blocks[x]) == l.blocks[p]
  }

  ghost predicate Built(l: Layer) {
    && (forall k {:trigger ChainOk(l, k)} :: k in l.fj.stacks ==> ChainOk(l, k))
    && (forall x {:trigger BlocksOk(l, x)} :: Live(l.fj, x) ==> BlocksOk(l, x))
  }

  ghost predicate LayerInv(l: Layer) { Inv(l.fj) && Bounded(l.fj) && Built(l) }

  // ---------------------------------------------------------------- steps that move no frame

  /** No frame comes, goes or moves; at most a bare stack comes. */
  ghost predicate KeepsFrames(s: State, s': State) {
    && (forall x :: Live(s', x) ==> Live(s, x) && s'.tasks[x].under == s.tasks[x].under)
    && (forall k :: k in s'.stacks ==>
          if k in s.stacks then s'.stacks[k] == s.stacks[k]
          else k == s.nextStack < s'.nextStack && s'.stacks[k] == None)
  }

  lemma QuietKeeps(l: Layer, l': Layer)
    requires Built(l) && KeepsFrames(l.fj, l'.fj) && l'.blocks == l.blocks
    requires l'.chains ==
      if l'.fj.nextStack > l.fj.nextStack then l.chains[l.fj.nextStack := Segments.Empty()] else l.chains
    requires l.fj.nextStack !in l.fj.stacks
    ensures Built(l')
  {
    Segments.EmptyOk();
    forall k | k in l'.fj.stacks ensures ChainOk(l', k) {
      if k in l.fj.stacks { assert ChainOk(l, k); }
    }
    forall x | Live(l'.fj, x) ensures BlocksOk(l', x) { assert BlocksOk(l, x); }
  }

  lemma GoKeepsFrames(s: State, w: nat)
    requires Inv(s) && w in s.workers
    ensures KeepsFrames(s, DoGo(s, w))
  {
    FreshStack(s);
    assert WorkerOk(s, w);
  }

  lemma QuietStep(s: State, a: Act)
    requires Inv(s) && !a.Submit? && !Creates(s, a) && !Leaves(s, a)
    ensures KeepsFrames(s, ForkJoin.Step(s, a))
  {
    if a.w in s.workers {
      if a.Go? { GoKeepsFrames(s, a.w); }
      if a.TakeRoot? && a.r in s.queue { assert s.tasks[a.r].at.Queued?; }
    }
  }

  // ---------------------------------------------------------------- allocation and deallocation

  lemma SubmitBuilds(l: Layer, size: nat)
    requires LayerInv(l)
    ensures Built(Step(l, Move(Submit, size)))
  {
    var l', s, c := Step(l, Move(Submit, size)), l.fj, Segments.Empty();
    Segments.EmptyOk();
    Segments.RoundTrip(c, size);
    Segments.AllocSegs(c, size);
    FreshTask(s);
    FreshStack(s);
    forall k | k in l'.fj.stacks ensures ChainOk(l', k) {
      if k != s.nextStack { assert ChainOk(l, k) && TopOk(s, k); }
    }
    forall x | Live(l'.fj, x) ensures BlocksOk(l', x) {
      if x != s.nextTask { assert BlocksOk(l, x) && FrameOk(s, x); }
    }
  }

  /** Allocation puts a block on top of what is there. */
  lemma AllocBuilds(c: Segments.Chain, size: nat)
    requires Segments.Ok(c)
    ensures var a := Segments.Alloc(c, size);
      && Segments.Ok(a) && a.segs != [] && a.segs[|a.segs| - 1] != [] && Segments.DropSegs(a.segs) == c.segs
  {
    assert Segments.SegAt(c.caps, c.segs, |c.segs| - 1);
    Segments.AllocSegs(c, size);
    Segments.AllocKeeps(c, size);
  }

  lemma PushedBuilds(l: Layer, l': Layer, k: nat, t: nat, c: nat, size: nat)
    requires LayerInv(l) && k in l.fj.stacks && Pushed(l.fj, l'.fj, k, l.fj.stacks[k], t, c) && ChainOk(l, k)
    requires l' == Allocated(l.(fj := l'.fj), k, l.chains[k], c, size)
    ensures Built(l')
  {
    var s := l.fj;
    AllocBuilds(l.chains[k], size);
    forall j | j in l'.fj.stacks ensures ChainOk(l', j) {
      if j != k { assert ChainOk(l, j) && TopOk(s, j); }
    }
    forall x | Live(l'.fj, x) ensures BlocksOk(l', x) {
      if x != c { assert BlocksOk(l, x) && FrameOk(s, x); } else { assert TopOk(s, k); }
    }
  }

  lemma CreateBuilds(l: Layer, m: Move)
    requires LayerInv(l) && Creates(l.fj, m.act)
    ensures Built(Step(l, m))
  {
    var s, w := l.fj, m.act.w;
    var k, t, kind := s.workers[w].tls, s.workers[w].pc.t, if m.act.Fork? then Forked else Called;
    assert ChainOk(l, k);
    CreateIsPushed(s, DoCreate(s, w, kind), w, kind, t, s.nextTask);
    PushedBuilds(l, Step(l, m), k, t, s.nextTask, m.size);
  }

  lemma PoppedBuilds(l: Layer, l': Layer, k: nat, c: nat)
    requires LayerInv(l) && Popped(l.fj, l'.fj, k, c) && Live(l.fj, c) && Childless(l.fj, c)
    requires k in l.chains && HasBlock(l.chains[k])
    requires l' == l.(fj := l'.fj, chains := l.chains[k := Segments.Dealloc(l.chains[k])])
    ensures Built(l')
  {
    var s := l.fj;
    assert ChainOk(l, k) && BlocksOk(l, c);
    Segments.DeallocKeeps(l.chains[k]);
    Segments.DeallocCaps(l.chains[k], |Segments.DropSegs(l.chains[k].segs)|);
    forall j | j in l'.fj.stacks ensures ChainOk(l', j) { assert ChainOk(l, j); }
    forall x | Live(l'.fj, x) ensures BlocksOk(l', x) { assert BlocksOk(l, x); }
  }

  lemma ReturnBuilds(l: Layer, m: Move)
    requires LayerInv(l) && Leaves(l.fj, m.act)
    ensures Built(Step(l, m))
  {
    var s, w := l.fj, m.act.w;
    var k, c := s.workers[w].tls, s.workers[w].pc.t;
    StealsTell(s, w);
    ReturnIsPopped(s, w);
    assert WorkerOk(s, w) && ChainOk(l, k) && BlocksOk(l, c);
    NoChildren(s, c);
    PoppedBuilds(l, Step(l, m), k, c);
  }

  lemma StepKeeps(l: Layer, m: Move)
    requires LayerInv(l) && Bounded(Step(l, m).fj)
    ensures LayerInv(Step(l, m))
  {
    StepInv(l.fj, m.act);
    if m.act.Submit? {
      SubmitBuilds(l, m.size);
    } else if Creates(l.fj, m.act) {
      CreateBuilds(l, m);
    } else if Leaves(l.fj, m.act) {
      ReturnBuilds(l, m);
    } else {
      QuietStep(l.fj, m.act);
      FreshStack(l.fj);
      QuietKeeps(l, Step(l, m));
    }
  }

  // ---------------------------------------------------------------- runs

  function Exec(l: Layer, moves: seq<Move>): Layer
    decreases |moves|
  {
    if moves == [] then l else Exec(Step(l, moves[0]), moves[1..])
  }

  ghost predicate FewSteals(l: Layer, moves: seq<Move>)
    decreases |moves|
  {
    Bounded(l.fj) && (moves != [] ==> FewSteals(Step(l, moves[0]), moves[1..]))
  }

  /** Idle workers on empty stacks. */
  ghost predicate Init(l: Layer) {
    && ForkJoin.Init(l.fj) && l.chains.Keys == l.fj.stacks.Keys
    && forall k :: k in l.chains ==> l.chains[k] == Segments.Empty()
  }

  ghost predicate Reachable(l: Layer) {
    exists l0, moves :: Init(l0) && FewSteals(l0, moves) && l == Exec(l0, moves)
  }

  lemma {:induction false} RunInv(l: Layer, moves: seq<Move>)
    requires LayerInv(l) && FewSteals(l, moves)
    ensures LayerInv(Exec(l, moves))
    decreases |moves|
  {
    if moves != [] {
      assert FewSteals(Step(l, moves[0]), moves[1..]);
      StepKeeps(l, moves[0]);
      RunInv(Step(l, moves[0]), moves[1..]);
    }
  }

  lemma ReachableInv(l: Layer)
    requires Reachable(l)
    ensures LayerInv(l)
  {
    var l0, moves :| Init(l0) && FewSteals(l0, moves) && l == Exec(l0, moves);
    InitInv(l0.fj);
    Segments.EmptyOk();
    forall k | k in l0.fj.stacks ensures ChainOk(l0, k) {}
    RunInv(l0, moves);
  }

  /**
   When a finished child has found its parent stolen, the parent's stacklet is the top of the worker's stack
   exactly if the worker is on the parent's stack: comparing stacklets decides as comparing stacks would.
   */
  lemma StackletsTell(l: Layer, w: nat, c: nat, p: nat)
    requires Reachable(l) && w in l.fj.workers && l.fj.workers[w].pc == Finish(c, p) && l.fj.workers[w].deque == []
    ensures p in l.fj.tasks && p in l.blocks && l.fj.workers[w].tls in l.chains
    ensures StackletOf(l, p) == TopStacklet(l, l.fj.workers[w].tls) <==> l.fj.tasks[p].stack == l.fj.workers[w].tls
    ensures DoGo(l.fj, w).workers[w].pc == Register(c, p, StackletOf(l, p) == TopStacklet(l, l.fj.workers[w].tls))
  {
    ReachableInv(l);
    var s, k := l.fj, l.fj.workers[w].tls;
    assert WorkerOk(s, w) && StackOk(s, w) && TaskOk(s, c);
    assert BlocksOk(l, p) && ChainOk(l, k);
    NotBare(s, p);
  }

  /** Whoever passes a join takes a stack by its top stacklet: the one the frame remembers. */
  lemma ResumesOnTop(l: Layer, w: nat, t: nat)
    requires Reachable(l) && Passes(l.fj, w, t)
    ensures t in l.blocks && l.fj.tasks[t].stack in l.chains
    ensures StackletOf(l, t) == TopStacklet(l, l.fj.tasks[t].stack)
    ensures l.chains[l.fj.tasks[t].stack].segs == l.blocks[t]
  {
    ReachableInv(l);
    var s := l.fj;
    assert WorkerOk(s, w) && CounterOk(s, t);
    OnTop(s, t);
    assert BlocksOk(l, t) && ChainOk(l, s.tasks[t].stack);
  }

  /** A worker without a frame to go back to has an empty stack, block for block. */
  lemma IdleOnEmpty(l: Layer, w: nat)
    requires Reachable(l) && w in l.fj.workers && l.fj.workers[w].pc.Idle?
    ensures l.fj.workers[w].tls in l.chains && l.chains[l.fj.workers[w].tls].segs == [[]]
  {
    ReachableInv(l);
    assert StackOk(l.fj, w) && ChainOk(l, l.fj.workers[w].tls);
  }
}
