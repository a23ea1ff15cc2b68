/** The threads of the server as one transition system: any number of loops and of other
    threads, interleaved at every queue push, eventfd write, poll and task.
    Loop `i` is owned by thread `i`; loop 0 is the base loop, which owns the connection table. */
module Reactor {
  import opened Basics
  import opened Poller
  import opened States

  type ThreadId = nat
  type LoopId = nat
  type ConnId = nat

  const BASE: LoopId := 0
  const EVENTFD_MAX: nat := 0xffff_ffff_ffff_fffe

  datatype Message = Message(from: ThreadId, text: string)

  /** A queued functor, with the connection it captures. */
  datatype Task =
    | Establish(c: ConnId)
    | Deliver(c: ConnId, msg: Message)
    | Unlist(c: ConnId)
    | Destroy(c: ConnId)
    | HalfClose(c: ConnId)
    | Other(id: nat)

  /** What a thread has begun: a push under the queue's mutex, then the eventfd write. */
  datatype Op = Idle | Push(target: LoopId, task: Task) | Wake(target: LoopId)

  datatype Phase = Fresh | Top | Polling | Dispatching | Running | Exited

  datatype Loop = Loop(
    phase: Phase,
    pending: seq<Task>,         // pendingFunctors_
    batch: seq<Task>,           // what the last swap took and has not run yet
    executed: seq<Task>,        // every task run so far
    queued: seq<Task>,          // every task ever pushed
    eventfd: nat,
    quit: bool,
    active: seq<ConnId>,        // the channel being dispatched, then those still to come
    channels: map<Fd, ConnId>,  // the poller's table
    interest: map<Fd, ConnId>,  // the kernel's epoll set
    signalled: bool,            // another thread has pushed to this loop, or asked it to quit
    early: bool)                // entered with tasks only its own thread had queued

  /** `setting` is a connection that the thread has found Connected and is about to shut down. */
  datatype Thread = Thread(op: Op, holds: set<ConnId>, setting: Option<ConnId>)

  datatype Conn = Conn(
    owner: LoopId, fd: Fd, state: State,
    destroyed: bool,            // connectDestroyed has run
    gone: bool,                 // the last reference was dropped and the descriptor closed
    issued: seq<Message>,       // sends attempted since connectEstablished
    accepted: seq<Message>)     // messages sendInLoop took

  datatype Sys = Sys(loops: seq<Loop>, threads: seq<Thread>, conns: seq<Conn>, table: set<ConnId>)
  {
    function WithLoop(l: LoopId, loop: Loop): Sys
      requires l < |loops|
    {
      this.(loops := loops[l := loop])
    }

    function WithOp(t: ThreadId, op: Op): Sys
      requires t < |threads|
    {
      this.(threads := threads[t := threads[t].(op := op)])
    }

    function WithConn(c: ConnId, conn: Conn): Sys
      requires c < |conns|
    {
      this.(conns := conns[c := conn])
    }
  }

  datatype Step =
    | EnterLoop(l: LoopId)
    | CheckQuit(l: LoopId)
    | PollReturns(l: LoopId, ready: seq<ConnId>)
    | ReadEventfd(l: LoopId)
    | CloseEvent(l: LoopId)
    | EndEvent(l: LoopId)
    | Swap(l: LoopId)
    | RunTask(l: LoopId)
    | EndBatch(l: LoopId)
    | Accept(owner: LoopId, fd: Fd)
    | Send(t: ThreadId, c: ConnId, text: string)
    | CheckShutdown(t: ThreadId, c: ConnId)
    | SetShutdown(t: ThreadId)
    | Queue(t: ThreadId, l: LoopId, id: nat)
    | Quit(t: ThreadId, l: LoopId)
    | DoPush(t: ThreadId)
    | DoWake(t: ThreadId)
    | Acquire(t: ThreadId, c: ConnId)
    | Release(t: ThreadId, c: ConnId)
    | Destruct(c: ConnId)

  function Outstanding(loop: Loop): seq<Task> {
    loop.batch + loop.pending
  }

  predicate Mentions(task: Task, c: ConnId) {
    !task.Other? && task.c == c
  }

  /** Some strong reference exists: the table, a queued or half-queued functor, or a thread. */
  ghost predicate Held(s: Sys, c: ConnId) {
    || c in s.table
    || (exists l, i :: 0 <= l < |s.loops| && 0 <= i < |Outstanding(s.loops[l])|
                       && Mentions(Outstanding(s.loops[l])[i], c))
    || (exists t :: 0 <= t < |s.threads|
                    && (c in s.threads[t].holds || (s.threads[t].op.Push? && Mentions(s.threads[t].op.task, c))))
  }

  /** The thread runs user code: not inside a queue operation, poll, or the loop's own control. */
  predicate MayAct(s: Sys, t: ThreadId) {
    && t < |s.threads| && s.threads[t].op.Idle? && s.threads[t].setting.None?
    && (t < |s.loops| ==> s.loops[t].phase in {Fresh, Dispatching, Running, Exited})
  }

  predicate AtPhase(s: Sys, l: LoopId, phase: Phase) {
    && l < |s.loops| <= |s.threads| && s.loops[l].phase == phase
    && s.threads[l].op.Idle? && s.threads[l].setting.None?
  }

  /** Between the check and the set of shutdown. */
  predicate Setting(s: Sys, t: ThreadId) {
    && t < |s.threads| && s.threads[t].op.Idle?
    && s.threads[t].setting.Some? && s.threads[t].setting.value < |s.conns|
  }

  predicate Live(state: State) {
    state == Connected || state == Disconnecting
  }

  /** The kernel's set of loop `l` holds the connection's channel. */
  predicate Watched(s: Sys, l: LoopId, c: ConnId)
    requires l < |s.loops|
  {
    && c < |s.conns| && s.conns[c].fd in s.loops[l].interest && s.loops[l].interest[s.conns[c].fd] == c
  }

  ghost predicate Enabled(s: Sys, step: Step) {
    match step
    case EnterLoop(l) => AtPhase(s, l, Fresh)
    case CheckQuit(l) => AtPhase(s, l, Top)
    case PollReturns(l, ready) =>
      && AtPhase(s, l, Polling)
      && (forall i :: 0 <= i < |ready| ==> Watched(s, l, ready[i]))
      && (forall i, j :: 0 <= i < j < |ready| ==> ready[i] != ready[j])
    case ReadEventfd(l) => AtPhase(s, l, Dispatching)
    // A connection closes only while it is live: this is the kernel's rule that a hang-up without
    // plain input carries nothing to read, so that no event closes a connection twice.
    case CloseEvent(l) =>
      && AtPhase(s, l, Dispatching) && s.loops[l].active != []
      && s.loops[l].active[0] < |s.conns| && Live(s.conns[s.loops[l].active[0]].state)
    case EndEvent(l) => AtPhase(s, l, Dispatching) && s.loops[l].active != []
    case Swap(l) => AtPhase(s, l, Dispatching) && s.loops[l].active == []
    case RunTask(l) => AtPhase(s, l, Running) && s.loops[l].batch != []
    case EndBatch(l) => AtPhase(s, l, Running) && s.loops[l].batch == []
    case Accept(owner, fd) =>
      && AtPhase(s, BASE, Dispatching) && owner < |s.loops|
      && (forall c :: 0 <= c < |s.conns| && s.conns[c].fd == fd ==> s.conns[c].gone)
    case Send(t, c, text) => MayAct(s, t) && c < |s.conns| && c in s.threads[t].holds
    case CheckShutdown(t, c) => MayAct(s, t) && c < |s.conns| && c in s.threads[t].holds
    case SetShutdown(t) => Setting(s, t) && s.conns[s.threads[t].setting.value].state != Disconnected
    case Queue(t, l, id) => MayAct(s, t) && l < |s.loops|
    case Quit(t, l) => MayAct(s, t) && l < |s.loops|
    case DoPush(t) => t < |s.threads| && s.threads[t].op.Push? && s.threads[t].op.target < |s.loops|
    case DoWake(t) => t < |s.threads| && s.threads[t].op.Wake? && s.threads[t].op.target < |s.loops|
    case Acquire(t, c) => MayAct(s, t) && c < |s.conns| && Held(s, c)
    case Release(t, c) => MayAct(s, t)
    case Destruct(c) => c < |s.conns| && !s.conns[c].gone && !Held(s, c)
  }

  /** The loop's own control steps: they change one loop and nothing else. */
  predicate Control(step: Step) {
    step.EnterLoop? || step.CheckQuit? || step.PollReturns? || step.ReadEventfd?
    || step.EndEvent? || step.Swap? || step.EndBatch?
  }

  function Turn(p: Loop, step: Step): Loop
    requires Control(step) && (step.EndEvent? ==> p.active != [])
  {
    match step
    case EnterLoop(_) => p.(phase := Top, quit := false, early := p.pending != [] && !p.signalled)
    case CheckQuit(_) => p.(phase := if p.quit then Exited else Polling)
    case PollReturns(_, ready) => p.(phase := Dispatching, active := ready)
    case ReadEventfd(_) => p.(eventfd := 0)
    case EndEvent(_) => p.(active := p.active[1..])
    case Swap(_) => p.(phase := Running, batch := p.pending, pending := [], early := false)
    case EndBatch(_) => p.(phase := Top)
  }

  function Apply(s: Sys, step: Step): Sys
    requires Enabled(s, step)
  {
    if Control(step) then s.WithLoop(step.l, Turn(s.loops[step.l], step)) else Act(s, step)
  }

  function Act(s: Sys, step: Step): Sys
    requires Enabled(s, step) && !Control(step)
  {
    match step
    case CloseEvent(l) => Close(s, l, s.loops[l].active[0])
    case RunTask(l) =>
      var p := s.loops[l];
      RunOne(s.WithLoop(l, p.(batch := p.batch[1..], executed := p.executed + [p.batch[0]])), l, p.batch[0])
    case Accept(owner, fd) =>
      var c := |s.conns|;
      var s1 := s.(conns := s.conns + [Conn(owner, fd, Connecting, false, false, [], [])], table := s.table + {c});
      if owner == BASE then Connect(s1, c) else s1.WithOp(BASE, Push(owner, Establish(c)))
    case Send(t, c, text) => SendTo(s, t, c, Message(t, text))
    case CheckShutdown(t, c) =>
      if s.conns[c].state != Connected then s
      else s.(threads := s.threads[t := s.threads[t].(setting := Some(c))])
    case SetShutdown(t) => Halve(s, t)
    case Queue(t, l, id) => s.WithOp(t, Push(l, Other(id)))
    case Quit(t, l) =>
      var s1 := s.WithLoop(l, s.loops[l].(quit := true, signalled := s.loops[l].signalled || t != l));
      if t == l then s1 else s1.WithOp(t, Wake(l))
    case DoPush(t) =>
      var l, task := s.threads[t].op.target, s.threads[t].op.task;
      var p := s.loops[l];
      var wake := t != l || p.phase == Running;
      s.WithLoop(l, p.(pending := p.pending + [task], queued := p.queued + [task], signalled := p.signalled || t != l))
       .WithOp(t, if wake then Wake(l) else Idle)
    case DoWake(t) =>
      var l := s.threads[t].op.target;
      var n := s.loops[l].eventfd;
      s.WithLoop(l, s.loops[l].(eventfd := if n < EVENTFD_MAX then n + 1 else n)).WithOp(t, Idle)
    case Acquire(t, c) => s.(threads := s.threads[t := s.threads[t].(holds := s.threads[t].holds + {c})])
    case Release(t, c) => s.(threads := s.threads[t := s.threads[t].(holds := s.threads[t].holds - {c})])
    case Destruct(c) => s.WithConn(c, s.conns[c].(gone := true))
  }

  /** The second half of shutdown: the state is set, and the rest runs on the owner loop. */
  function Halve(s: Sys, t: ThreadId): Sys
    requires Setting(s, t)
  {
    var c := s.threads[t].setting.value;
    var k := s.conns[c];
    var th := s.threads[t].(setting := None);
    s.WithConn(c, k.(state := Disconnecting))
     .(threads := s.threads[t := if t == k.owner then th else th.(op := Push(k.owner, HalfClose(c)))])
  }

  /** connectEstablished: the connection is watched from here on. */
  function Connect(s: Sys, c: ConnId): Sys
    requires c < |s.conns|
  {
    var k := s.conns[c];
    if k.owner >= |s.loops| then s
    else
      var p := s.loops[k.owner];
      s.WithConn(c, k.(state := Connected))
       .WithLoop(k.owner, p.(channels := p.channels[k.fd := c], interest := p.interest[k.fd := c]))
  }

  /** handleClose, with the runInLoop to the base loop that its close callback performs. */
  function Close(s: Sys, l: LoopId, c: ConnId): Sys
    requires l < |s.loops| <= |s.threads| && c < |s.conns|
  {
    var k, p := s.conns[c], s.loops[l];
    var s1 := s.WithConn(c, k.(state := Disconnected)).WithLoop(l, p.(interest := p.interest - {k.fd}));
    if l == BASE then RemoveConnection(s1, c) else s1.WithOp(l, Push(BASE, Unlist(c)))
  }

  /** On the base loop: drop the table's reference and hand the last task to the owner. */
  function RemoveConnection(s: Sys, c: ConnId): Sys
    requires 0 < |s.threads| && c < |s.conns|
  {
    s.(table := s.table - {c}).WithOp(BASE, Push(s.conns[c].owner, Destroy(c)))
  }

  /** send, up to the push: the state is read once, without a lock. */
  function SendTo(s: Sys, t: ThreadId, c: ConnId, msg: Message): Sys
    requires t < |s.threads| && c < |s.conns|
  {
    var k := s.conns[c];
    if k.state == Connecting then s
    else if k.state != Connected then s.WithConn(c, k.(issued := k.issued + [msg]))
    else if t == k.owner then s.WithConn(c, k.(issued := k.issued + [msg], accepted := k.accepted + [msg]))
    else s.WithConn(c, k.(issued := k.issued + [msg])).WithOp(t, Push(k.owner, Deliver(c, msg)))
  }

  /** One functor, on its loop's thread. */
  function RunOne(s: Sys, l: LoopId, task: Task): Sys
    requires l < |s.loops| <= |s.threads|
  {
    if task.Other? || task.c >= |s.conns| then s
    else
      var c, k := task.c, s.conns[task.c];
      match task
      case Establish(_) => Connect(s, c)
      case Deliver(_, msg) => if k.state == Connected then s.WithConn(c, k.(accepted := k.accepted + [msg])) else s
      case Unlist(_) => RemoveConnection(s, c)
      case Destroy(_) =>
        var p := s.loops[l];
        s.WithConn(c, k.(destroyed := true, state := if k.state == Connected then Disconnected else k.state))
         .WithLoop(l, p.(channels := p.channels - {k.fd}, interest := p.interest - {k.fd}))
      case HalfClose(_) => s
      case Other(_) => s
  }

  ghost predicate Init(s: Sys) {
    && 0 < |s.loops| <= |s.threads|
    && s.conns == [] && s.table == {}
    && (forall l :: 0 <= l < |s.loops| ==>
          s.loops[l] == Loop(Fresh, [], [], [], [], 0, false, [], map[], map[], false, false))
    && (forall t :: 0 <= t < |s.threads| ==> s.threads[t] == Thread(Idle, {}, None))
  }

  ghost predicate Next(s: Sys, s': Sys) {
    exists step :: Enabled(s, step) && s' == Apply(s, step)
  }

  ghost predicate Moves(tr: seq<Sys>, i: nat)
    requires i + 1 < |tr|
  {
    Next(tr[i], tr[i + 1])
  }

  ghost predicate Run(tr: seq<Sys>) {
    tr != [] && Init(tr[0]) && forall i :: 0 <= i < |tr| - 1 ==> Moves(tr, i)
  }
}
