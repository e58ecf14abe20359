/**
 Fork-join with continuation stealing: workers, their deques, frames with a 16-bit join counter,
 and the stacks the frames live on.  Every access to a shared counter or deque is one step.

 There is no explicit rescheduling.  Fields marked "history" are never read by a step except to
 update other history; they name what the proofs talk about.
 */
module ForkJoin {
  import opened Options

  const MAX: nat := 65535
  const U16: nat := 65536

  datatype Kind = Root | Forked | Called

  /** History: who holds a frame. */
  datatype Where =
    | On(w: nat)      // the frame a worker is at
    | Under(x: nat)   // below its child x on the same chain of frames
    | Parked          // suspended at its join
    | Queued          // submitted

  datatype Task = Task(
    kind: Kind, parent: nat,
    stack: nat, under: Option<nat>,       // its stack, and the frame its deallocation uncovers
    joins: nat, steals: nat,         // m_join, m_steal
    stealsPre: nat,                  // steal count saved by the last fork
    thefts: nat,                     // history: steals in this scope, unbounded
    at: Where,                       // history
    attached: bool,                  // history: parent's continuation not stolen since this was created
    dead: bool,                      // history: destroyed, completion not registered yet
    over: Option<nat>,                    // history: the frame directly above on the same stack
    lastFork: nat)                   // history: the last forked child, 0 if none

  datatype Pc =
    | Idle
    | Run(t: nat)
    | Stole(t: nat)                            // has taken t from a deque, about to count the steal
    | Finish(t: nat, p: nat)                   // forked child destroyed, about to pop
    | Register(t: nat, p: nat, same: bool)     // parent was stolen, about to decrement its counter
    | Last(t: nat, same: bool)                 // last child: about to take the stack, reset, resume
    | Release(same: bool)                      // not last: about to give the stack up if it is the parent's
    | AtJoin(t: nat)                           // steals happened, about to load the join counter
    | JoinSub(t: nat)                          // about to announce the join
    | Take(t: nat)                             // joined: about to take the stack and reset

  datatype Worker = Worker(pc: Pc, deque: seq<nat>, tls: nat)

  datatype State = State(
    workers: map<nat, Worker>,
    tasks: map<nat, Task>,
    stacks: map<nat, Option<nat>>,   // the top frame of each stack
    queue: set<nat>,            // submitted roots
    nextTask: nat, nextStack: nat)

  datatype Act =
    | Submit
    | TakeRoot(w: nat, r: nat)
    | Fork(w: nat)
    | Call(w: nat)
    | Return(w: nat)
    | Join(w: nat)
    | Steal(w: nat, victim: nat)
    | Go(w: nat)

  /** Any number of idle workers, each with an empty deque and an empty stack of its own. */
  ghost predicate Init(s: State) {
    && s.tasks == map[] && s.queue == {} && s.nextTask == 1
    && (forall k :: k in s.stacks ==> k < s.nextStack && s.stacks[k] == None)
    && (forall w :: w in s.workers ==>
          s.workers[w].pc.Idle? && s.workers[w].deque == [] && s.workers[w].tls in s.stacks)
    && (forall v, w :: v in s.workers && w in s.workers && v != w ==> s.workers[v].tls != s.workers[w].tls)
  }

  function NewTask(kind: Kind, parent: nat, stack: nat, under: Option<nat>, at: Where): Task {
    Task(kind, parent, stack, under, MAX, 0, 0, 0, at, !kind.Root?, false, None, 0)
  }

  /** A root task is created with its frame first on a stack of its own. */
  function DoSubmit(s: State): State {
    var r, k := s.nextTask, s.nextStack;
    s.(tasks := s.tasks[r := NewTask(Root, 0, k, None, Queued)], stacks := s.stacks[k := Some(r)],
       queue := s.queue + {r}, nextTask := r + 1, nextStack := k + 1)
  }

  /** A worker resumes a submitted task and takes the stack it is on. */
  function DoTakeRoot(s: State, w: nat, r: nat): State
    requires w in s.workers
  {
    var me := s.workers[w];
    if me.pc.Idle? && r in s.queue && r in s.tasks then
      s.(workers := s.workers[w := me.(pc := Run(r), tls := s.tasks[r].stack)],
         queue := s.queue - {r}, tasks := s.tasks[r := s.tasks[r].(at := On(w))])
    else s
  }

  /** History: the frame on top of a stack gets a frame above it. */
  function Cover(tasks: map<nat, Task>, top: Option<nat>, over: Option<nat>): map<nat, Task> {
    if top.Some? && top.value in tasks then tasks[top.value := tasks[top.value].(over := over)] else tasks
  }

  /** A child frame is allocated on the worker's stack and runs at once; a fork pushes the parent first. */
  function DoCreate(s: State, w: nat, kind: Kind): State
    requires w in s.workers
  {
    var me := s.workers[w];
    if me.pc.Run? && me.pc.t in s.tasks && me.tls in s.stacks then
      var t, c, top := me.pc.t, s.nextTask, s.stacks[me.tls];
      var T := s.tasks[t].(at := Under(c));
      var T' := if kind.Forked? then T.(stealsPre := T.steals, lastFork := c) else T;
      s.(workers := s.workers[w := me.(pc := Run(c), deque := if kind.Forked? then me.deque + [t] else me.deque)],
         tasks := Cover(s.tasks[t := T'], top, Some(c))[c := NewTask(kind, t, me.tls, top, On(w))],
         stacks := s.stacks[me.tls := Some(c)], nextTask := c + 1)
    else s
  }

  /** Final suspend: the frame is destroyed; a task must have joined what it forked. */
  function DoReturn(s: State, w: nat): State
    requires w in s.workers
  {
    var me := s.workers[w];
    if me.pc.Run? && me.pc.t in s.tasks && s.tasks[me.pc.t].steals == 0 then
      var c := me.pc.t;
      var C := s.tasks[c];
      var tasks, p := Cover(s.tasks, C.under, None), C.parent;
      var s1 := s.(stacks := s.stacks[me.tls := C.under]);
      match C.kind
      case Root => s1.(workers := s.workers[w := me.(pc := Idle)], tasks := tasks - {c})
      case Called =>
        if p in tasks then
          s1.(workers := s.workers[w := me.(pc := Run(p))], tasks := tasks[p := tasks[p].(at := On(w))] - {c})
        else s
      case Forked => s1.(workers := s.workers[w := me.(pc := Finish(c, p))], tasks := tasks[c := C.(dead := true)])
    else s
  }

  /** await_ready: without steals the join passes at once. */
  function DoJoin(s: State, w: nat): State
    requires w in s.workers
  {
    var me := s.workers[w];
    if me.pc.Run? && me.pc.t in s.tasks && s.tasks[me.pc.t].steals != 0 then
      s.(workers := s.workers[w := me.(pc := AtJoin(me.pc.t))])
    else s
  }

  /** History: the child above t is on its own from now on. */
  function Detach(tasks: map<nat, Task>, at: Where): map<nat, Task> {
    if at.Under? && at.x in tasks then tasks[at.x := tasks[at.x].(attached := false)] else tasks
  }

  /** A thief takes the oldest handle of a victim's deque. */
  function DoSteal(s: State, w: nat, v: nat): State
    requires w in s.workers
  {
    var me := s.workers[w];
    if me.pc.Idle? && v in s.workers && v != w && s.workers[v].deque != [] && s.workers[v].deque[0] in s.tasks then
      var t := s.workers[v].deque[0];
      var T := s.tasks[t];
      s.(workers := s.workers[v := s.workers[v].(deque := s.workers[v].deque[1..])][w := me.(pc := Stole(t))],
         tasks := Detach(s.tasks, T.at)[t := T.(at := On(w), thefts := T.thefts + 1)])
    else s
  }

  /** frame->fetch_add_steal() */
  function GoStole(s: State, w: nat, t: nat): State
    requires w in s.workers
  {
    if t in s.tasks then
      s.(workers := s.workers[w := s.workers[w].(pc := Run(t))],
         tasks := s.tasks[t := s.tasks[t].(steals := (s.tasks[t].steals + 1) % U16)])
    else s
  }

  /** The pop at a forked child's final suspend. */
  function GoFinish(s: State, w: nat, c: nat, p: nat): State
    requires w in s.workers
  {
    var me := s.workers[w];
    if p !in s.tasks then s
    else if me.deque != [] then
      s.(workers := s.workers[w := me.(pc := Run(p), deque := me.deque[..|me.deque| - 1])],
         tasks := s.tasks[p := s.tasks[p].(at := On(w))] - {c})
    else s.(workers := s.workers[w := me.(pc := Register(c, p, s.tasks[p].stack == me.tls))])
  }

  /** parent->fetch_sub_joins(1) == 1 */
  function GoRegister(s: State, w: nat, c: nat, p: nat, same: bool): State
    requires w in s.workers
  {
    var me := s.workers[w];
    if p in s.tasks then
      var P := s.tasks[p];
      var P' := P.(joins := (P.joins - 1) % U16);
      if P.joins == 1 then
        s.(workers := s.workers[w := me.(pc := Last(p, same))], tasks := s.tasks[p := P'.(at := On(w))] - {c})
      else
        s.(workers := s.workers[w := me.(pc := Release(same))], tasks := s.tasks[p := P'] - {c})
    else s
  }

  /** Take the stack that holds t's frame, unless already owned, and reset the control block. */
  function TakeAndReset(s: State, w: nat, t: nat, owned: bool): State
    requires w in s.workers
  {
    var me := s.workers[w];
    if t in s.tasks then
      s.(workers := s.workers[w := me.(pc := Run(t), tls := if owned then me.tls else s.tasks[t].stack)],
         tasks := s.tasks[t := s.tasks[t].(joins := MAX, steals := 0, thefts := 0)])
    else s
  }

  function GoRelease(s: State, w: nat, same: bool): State
    requires w in s.workers
  {
    var me, k := s.workers[w], s.nextStack;
    if same then
      s.(workers := s.workers[w := me.(pc := Idle, tls := k)], stacks := s.stacks[k := None], nextStack := k + 1)
    else s.(workers := s.workers[w := me.(pc := Idle)])
  }

  /** joined = MAX - load_joins(); ready if steals == joined */
  function GoAtJoin(s: State, w: nat, t: nat): State
    requires w in s.workers
  {
    if t in s.tasks then
      s.(workers := s.workers[w := s.workers[w].(pc :=
        if s.tasks[t].steals == MAX - s.tasks[t].joins then Take(t) else JoinSub(t))])
    else s
  }

  /** joined = fetch_sub_joins(MAX - steals); wins if steals == MAX - joined */
  function GoJoinSub(s: State, w: nat, t: nat): State
    requires w in s.workers
  {
    var me := s.workers[w];
    if t in s.tasks then
      var T := s.tasks[t];
      var T' := T.(joins := (T.joins - (MAX - T.steals)) % U16);
      if T.steals == MAX - T.joins then
        s.(workers := s.workers[w := me.(pc := Take(t))], tasks := s.tasks[t := T'])
      else s.(workers := s.workers[w := me.(pc := Idle)], tasks := s.tasks[t := T'.(at := Parked)])
    else s
  }

  function DoGo(s: State, w: nat): State
    requires w in s.workers
  {
    match s.workers[w].pc
    case Idle => s
    case Run(_) => s
    case Stole(t) => GoStole(s, w, t)
    case Finish(c, p) => GoFinish(s, w, c, p)
    case Register(c, p, same) => GoRegister(s, w, c, p, same)
    case Last(t, same) => TakeAndReset(s, w, t, same)
    case Release(same) => GoRelease(s, w, same)
    case AtJoin(t) => GoAtJoin(s, w, t)
    case JoinSub(t) => GoJoinSub(s, w, t)
    case Take(t) => TakeAndReset(s, w, t, false)
  }

  function Step(s: State, a: Act): State {
    if a.Submit? then DoSubmit(s)
    else if a.w !in s.workers then s
    else
      match a
      case TakeRoot(w, r) => DoTakeRoot(s, w, r)
      case Fork(w) => DoCreate(s, w, Forked)
      case Call(w) => DoCreate(s, w, Called)
      case Return(w) => DoReturn(s, w)
      case Join(w) => DoJoin(s, w)
      case Steal(w, v) => DoSteal(s, w, v)
      case Go(w) => DoGo(s, w)
  }
}
