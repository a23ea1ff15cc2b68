/** What holds in every state every interleaving can reach. */
module ReactorInvariant {
  import opened Basics
  import opened Poller
  import opened Reactor
  import opened States

  // ----- The invariant, part by part

  /** A queued task sits on the loop it is meant for and captures an object that exists. */
  ghost predicate TaskOk(s: Sys, l: LoopId, task: Task) {
    task.Other? ||
    (&& task.c < |s.conns| && !s.conns[task.c].gone
     && match task
        case Establish(c) => s.conns[c].owner == l && l != BASE
        case Deliver(c, msg) => s.conns[c].owner == l && msg.from != l && msg.from < |s.threads|
        case Unlist(c) => l == BASE && s.conns[c].owner != BASE
        case Destroy(c) => s.conns[c].owner == l
        case HalfClose(c) => s.conns[c].owner == l
        case Other(_) => true)
  }

  predicate Producer(s: Sys, t: ThreadId, task: Task) {
    match task
    case Establish(c) => t == BASE
    case Deliver(c, msg) => msg.from == t
    case Unlist(c) => c < |s.conns| && s.conns[c].owner == t
    case Destroy(c) => t == BASE
    case HalfClose(c) => true
    case Other(_) => true
  }

  ghost predicate ThreadOk(s: Sys, t: ThreadId)
    requires t < |s.threads|
  {
    var th := s.threads[t];
    && (forall c :: c in th.holds ==> c < |s.conns| && !s.conns[c].gone)
    && (!th.op.Idle? ==> th.op.target < |s.loops|)
    && (!th.op.Idle? && t < |s.loops| ==> s.loops[t].phase in {Fresh, Dispatching, Running, Exited})
    && (th.op.Push? ==> TaskOk(s, th.op.target, th.op.task) && Producer(s, t, th.op.task))
    && (th.op.Wake? && th.op.target == t ==> t < |s.loops| && s.loops[t].phase == Running)
    && (th.setting.Some? ==>
          && th.op.Idle? && th.setting.value in th.holds
          && s.conns[th.setting.value].state != Connecting
          && (t < |s.loops| ==> s.loops[t].phase in {Fresh, Dispatching, Running, Exited}))
  }

  /** Exactly once, in order: what ran, what the batch still holds and what is pending make up
      the push history. */
  ghost predicate QueueOk(s: Sys, l: LoopId)
    requires l < |s.loops|
  {
    var p := s.loops[l];
    && p.executed + p.batch + p.pending == p.queued
    && (p.phase != Running ==> p.batch == [])
    && (p.phase != Dispatching ==> p.active == [])
    && (forall i :: 0 <= i < |Outstanding(p)| ==> TaskOk(s, l, Outstanding(p)[i]))
  }

  /** The eventfd is readable, or a thread is about to write it. */
  ghost predicate Signalled(s: Sys, l: LoopId)
    requires l < |s.loops|
  {
    s.loops[l].eventfd > 0 || exists t :: 0 <= t < |s.threads| && s.threads[t].op == Wake(l)
  }

  ghost predicate WakeOk(s: Sys, l: LoopId)
    requires l < |s.loops|
  {
    var p := s.loops[l];
    && (p.early ==> p.phase in {Top, Polling, Dispatching, Exited} && p.pending != [])
    && (p.early && p.phase in {Top, Polling} ==> (Signalled(s, l) <==> p.signalled))
    && (p.phase == Fresh ==> (Signalled(s, l) <==> p.signalled))
    && (p.phase in {Top, Polling, Running} && p.pending != [] && !p.early ==> Signalled(s, l))
    && (p.phase == Polling && p.quit ==> Signalled(s, l))
  }

  /** How many copies of a task are queued on `l` or being pushed there by `t`. */
  function Copies(s: Sys, t: ThreadId, l: LoopId, task: Task): nat
    requires t < |s.threads| && l < |s.loops|
  {
    multiset(Outstanding(s.loops[l]))[task] + if s.threads[t].op == Push(l, task) then 1 else 0
  }

  /** The chain of custody: the table, then a task for the base loop, then one for the owner. */
  ghost predicate CustodyOk(s: Sys, c: ConnId)
    requires c < |s.conns| && s.conns[c].owner < |s.loops| <= |s.threads| && 0 < |s.loops|
  {
    var k := s.conns[c];
    var establish := Copies(s, BASE, k.owner, Establish(c));
    var unlist := Copies(s, k.owner, BASE, Unlist(c));
    var destroy := Copies(s, BASE, k.owner, Destroy(c));
    && (k.gone ==> k.destroyed)
    && establish == (if k.state == Connecting then 1 else 0)
    && if k.state != Disconnected then c in s.table && unlist == 0 && destroy == 0 && !k.destroyed
       else if k.destroyed then c !in s.table && unlist == 0 && destroy == 0
       else if c in s.table then unlist == 1 && destroy == 0
       else unlist == 0 && destroy == 1
  }

  /** The poller's table and the kernel's set hold exactly the connections they should. */
  ghost predicate ListedOk(s: Sys, c: ConnId)
    requires c < |s.conns| && s.conns[c].owner < |s.loops|
  {
    var k := s.conns[c];
    var p := s.loops[k.owner];
    && (k.state != Connecting && !k.destroyed ==> k.fd in p.channels && p.channels[k.fd] == c)
    && (Live(k.state) ==> k.fd in p.interest && p.interest[k.fd] == c)
  }

  ghost predicate PollerOk(s: Sys, l: LoopId)
    requires l < |s.loops|
  {
    var p := s.loops[l];
    && (forall fd :: fd in p.channels ==>
          var c := p.channels[fd];
          && c < |s.conns| && s.conns[c].owner == l && s.conns[c].fd == fd
          && s.conns[c].state != Connecting && !s.conns[c].destroyed)
    && (forall fd :: fd in p.interest ==>
          var c := p.interest[fd];
          c < |s.conns| && s.conns[c].owner == l && s.conns[c].fd == fd && Live(s.conns[c].state))
  }

  /** Every channel of the round that is still to be dispatched belongs to a watched connection;
      the one being dispatched may have closed, but is not destroyed. */
  ghost predicate ActiveOk(s: Sys, l: LoopId)
    requires l < |s.loops|
  {
    var a := s.loops[l].active;
    && (forall i :: 0 <= i < |a| ==> a[i] < |s.conns| && s.conns[a[i]].owner == l && !s.conns[a[i]].destroyed)
    && (forall i :: 0 < i < |a| ==> Live(s.conns[a[i]].state))
    && (forall i, j :: 0 <= i < j < |a| ==> a[i] != a[j])
  }

  function From(ms: seq<Message>, t: ThreadId): seq<Message> {
    if ms == [] then []
    else From(ms[..|ms| - 1], t) + if ms[|ms| - 1].from == t then [ms[|ms| - 1]] else []
  }

  /** The messages of thread `t` to `c` among the tasks. */
  function Queued(tasks: seq<Task>, c: ConnId, t: ThreadId): seq<Message> {
    if tasks == [] then [] else Carried(tasks[0], c, t) + Queued(tasks[1..], c, t)
  }

  function Carried(task: Task, c: ConnId, t: ThreadId): seq<Message> {
    if task.Deliver? && task.c == c && task.msg.from == t then [task.msg] else []
  }

  function InPush(op: Op, c: ConnId): seq<Message> {
    if op.Push? && op.task.Deliver? && op.task.c == c then [op.task.msg] else []
  }

  /** The messages of `t` to `c` that were sent and have not reached sendInLoop, oldest first. */
  function InFlight(s: Sys, c: ConnId, t: ThreadId): seq<Message>
    requires c < |s.conns| && s.conns[c].owner < |s.loops| && t < |s.threads|
  {
    Queued(Outstanding(s.loops[s.conns[c].owner]), c, t) + InPush(s.threads[t].op, c)
  }

  ghost predicate OrderOk(s: Sys, c: ConnId, t: ThreadId)
    requires c < |s.conns| && s.conns[c].owner < |s.loops| && t < |s.threads|
  {
    var k := s.conns[c];
    && From(k.accepted, t) <= From(k.issued, t)
    && (k.state == Connecting ==> k.issued == k.accepted == [] && InFlight(s, c, t) == [])
    && (k.state == Connected ==> From(k.accepted, t) + InFlight(s, c, t) == From(k.issued, t))
  }

  ghost predicate Shape(s: Sys) {
    && 0 < |s.loops| <= |s.threads|
    && (forall c :: 0 <= c < |s.conns| ==> s.conns[c].owner < |s.loops|)
    && (forall c :: c in s.table ==> c < |s.conns| && !s.conns[c].gone)
    && (forall c, d :: 0 <= c < d < |s.conns| && !s.conns[c].gone && !s.conns[d].gone ==>
          s.conns[c].fd != s.conns[d].fd)
  }

  ghost predicate Inv(s: Sys) {
    && Shape(s)
    && (forall t :: 0 <= t < |s.threads| ==> ThreadOk(s, t))
    && (forall l :: 0 <= l < |s.loops| ==> QueueOk(s, l) && WakeOk(s, l) && PollerOk(s, l) && ActiveOk(s, l))
    && (forall c :: 0 <= c < |s.conns| ==> CustodyOk(s, c) && ListedOk(s, c))
    && (forall c, t :: 0 <= c < |s.conns| && 0 <= t < |s.threads| ==> OrderOk(s, c, t))
  }

  // ----- Small facts

  lemma SomeoneHolds(s: Sys, c: ConnId)
    requires Inv(s) && c < |s.conns| && !s.conns[c].destroyed
    ensures Held(s, c)
  {
    var k := s.conns[c];
    assert CustodyOk(s, c);
    if c !in s.table {
      var tasks := Outstanding(s.loops[k.owner]);
      if s.threads[BASE].op != Push(k.owner, Destroy(c)) {
        assert Destroy(c) in multiset(tasks);
        var i :| 0 <= i < |tasks| && tasks[i] == Destroy(c);
        assert Mentions(tasks[i], c);
      }
    }
  }

  lemma {:induction false} QueuedConcat(a: seq<Task>, b: seq<Task>, c: ConnId, t: ThreadId)
    ensures Queued(a + b, c, t) == Queued(a, c, t) + Queued(b, c, t)
  {
    if a == [] {
      assert a + b == b;
    } else {
      QueuedConcat(a[1..], b, c, t);
      assert a == [a[0]] + a[1..] && a + b == [a[0]] + (a[1..] + b);
      QueuedHead(a[0], a[1..], c, t);
      QueuedHead(a[0], a[1..] + b, c, t);
      Associative(Carried(a[0], c, t), Queued(a[1..], c, t), Queued(b, c, t));
    }
  }

  lemma QueuedHead(task: Task, rest: seq<Task>, c: ConnId, t: ThreadId)
    ensures Queued([task] + rest, c, t) == Carried(task, c, t) + Queued(rest, c, t)
  {
    assert ([task] + rest)[1..] == rest;
  }

  lemma Associative(a: seq<Message>, b: seq<Message>, c: seq<Message>)
    ensures a + b + c == a + (b + c)
  {
  }

  lemma HeldExists(s: Sys, c: ConnId)
    requires Inv(s) && Held(s, c)
    ensures c < |s.conns| && !s.conns[c].gone
  {
    if l, i :| 0 <= l < |s.loops| && 0 <= i < |Outstanding(s.loops[l])| && Mentions(Outstanding(s.loops[l])[i], c) {
      assert QueueOk(s, l);
    } else if t :| 0 <= t < |s.threads|
                   && (c in s.threads[t].holds || (s.threads[t].op.Push? && Mentions(s.threads[t].op.task, c))) {
      assert ThreadOk(s, t);
    }
  }

  /** The task at the head of a batch is well placed. */
  lemma HeadOk(s: Sys, l: LoopId)
    requires Inv(s) && l < |s.loops| && s.loops[l].batch != []
    ensures TaskOk(s, l, s.loops[l].batch[0]) && s.loops[l].phase == Running
  {
    assert QueueOk(s, l) && Outstanding(s.loops[l])[0] == s.loops[l].batch[0];
  }

  /** What any step leaves alone: sizes, owners and descriptors; and only objects that nothing
      refers to go away. */
  ghost predicate Grows(s: Sys, s': Sys) {
    && |s'.loops| == |s.loops| && |s'.threads| == |s.threads| && |s.conns| <= |s'.conns|
    && forall c :: 0 <= c < |s.conns| ==>
         && s'.conns[c].owner == s.conns[c].owner && s'.conns[c].fd == s.conns[c].fd
         && s.conns[c].state.Rank() <= s'.conns[c].state.Rank()
         && (s.conns[c].destroyed ==> s'.conns[c].destroyed)
         && (s.conns[c].gone ==> s'.conns[c].gone)
         && (s'.conns[c].gone ==> s.conns[c].gone || !Held(s, c))
         && s.conns[c].issued <= s'.conns[c].issued && s.conns[c].accepted <= s'.conns[c].accepted
  }

  lemma StepGrows(s: Sys, step: Step)
    requires Inv(s) && Enabled(s, step)
    ensures Grows(s, Apply(s, step))
  {
    if step.RunTask? {
      TaskGrows(s, step.l);
    } else if step.CloseEvent? {
      CloseEffect(s, step.l);
    } else if Control(step) {
      assert Apply(s, step).conns == s.conns;
    } else {
      UserGrows(s, step);
    }
  }

  lemma UserGrows(s: Sys, step: Step)
    requires Inv(s) && Enabled(s, step) && !Control(step) && !step.RunTask? && !step.CloseEvent?
    ensures Grows(s, Apply(s, step))
  {
    if step.Send? {
      SendGrows(s, step.t, step.c, Message(step.t, step.text));
    } else if step.SetShutdown? || step.Accept? {
      MoreGrows(s, step);
    } else if step.Destruct? {
      GoneGrows(s, step.c);
    } else {
      assert Apply(s, step).conns == s.conns;
    }
  }

  lemma SendGrows(s: Sys, t: ThreadId, c: ConnId, msg: Message)
    requires t < |s.threads| && c < |s.conns|
    ensures Grows(s, SendTo(s, t, c, msg))
  {
  }

  lemma MoreGrows(s: Sys, step: Step)
    requires Shape(s) && Enabled(s, step) && (step.SetShutdown? || step.Accept?)
    requires step.SetShutdown? ==> ThreadOk(s, step.t)
    ensures Grows(s, Apply(s, step))
  {
  }

  lemma GoneGrows(s: Sys, c: ConnId)
    requires Enabled(s, Destruct(c))
    ensures Grows(s, Apply(s, Destruct(c)))
  {
  }

  lemma TaskGrows(s: Sys, l: LoopId)
    requires Inv(s) && Enabled(s, RunTask(l))
    ensures Grows(s, Apply(s, RunTask(l)))
  {
    RunEffect(s, l);
    HeadCounts(s, l);
    var head := s.loops[l].batch[0];
    assert head.Establish? ==> CustodyOk(s, head.c);
    GrowsThroughTask(s, Apply(s, RunTask(l)), l);
  }

  lemma GrowsThroughTask(s: Sys, s': Sys, l: LoopId)
    requires Runs(s, s', l)
    requires s.loops[l].batch[0].Establish? ==> s.conns[s.loops[l].batch[0].c].state == Connecting
    ensures Grows(s, s')
  {
  }

  lemma HeadCounts(s: Sys, l: LoopId)
    requires l < |s.loops| && s.loops[l].batch != []
    ensures multiset(Outstanding(s.loops[l]))[s.loops[l].batch[0]] > 0
  {
    var p := s.loops[l];
    assert Outstanding(p)[0] == p.batch[0];
    assert p.batch[0] in multiset(Outstanding(p));
  }

  /** Steps of user code that leave the loops and the connections alone. */
  predicate Quiet(step: Step) {
    step.Queue? || step.Acquire? || step.Release? || step.CheckShutdown?
  }

  /** Every step but a task, a close and an accept: no table changes, and a connection at most
      starts its half-close. */
  ghost predicate Mild(s: Sys, s': Sys) {
    && Grows(s, s') && |s'.conns| == |s.conns| && s'.table == s.table
    && (forall l :: 0 <= l < |s.loops| ==>
          s'.loops[l].channels == s.loops[l].channels && s'.loops[l].interest == s.loops[l].interest)
    && (forall c :: 0 <= c < |s.conns| ==>
          && s'.conns[c].destroyed == s.conns[c].destroyed
          && (s'.conns[c].state == s.conns[c].state
              || (s.conns[c].state == Connected && s'.conns[c].state == Disconnecting)))
  }

  /** The three tasks that carry a connection through its life. */
  predicate Carries(task: Task, c: ConnId) {
    task == Establish(c) || task == Unlist(c) || task == Destroy(c)
  }

  predicate CarriesAny(op: Op) {
    op.Push? && (op.task.Establish? || op.task.Unlist? || op.task.Destroy?)
  }

  /** Mild, and moreover no queue changes and no thread takes up or lets go of a carrying task. */
  ghost predicate Calm(s: Sys, s': Sys) {
    && Mild(s, s')
    && (forall l :: 0 <= l < |s.loops| ==> Outstanding(s'.loops[l]) == Outstanding(s.loops[l]))
    && (forall t :: 0 <= t < |s.threads| && s'.threads[t].op != s.threads[t].op ==>
          !CarriesAny(s.threads[t].op) && !CarriesAny(s'.threads[t].op))
  }

  lemma MildStep(s: Sys, step: Step)
    requires Inv(s) && Enabled(s, step) && !step.RunTask? && !step.CloseEvent? && !step.Accept?
    ensures Mild(s, Apply(s, step))
    ensures !step.DoPush? ==> Calm(s, Apply(s, step))
  {
    if Control(step) {
      ControlIsCalm(s, step);
    } else if Quiet(step) {
      QuietIsCalm(s, step);
    } else if !step.DoPush? {
      UserIsCalm(s, step);
    } else {
      StepGrows(s, step);
    }
  }

  lemma ControlIsCalm(s: Sys, step: Step)
    requires Inv(s) && Enabled(s, step) && Control(step)
    ensures Calm(s, Apply(s, step))
  {
    var p := s.loops[step.l];
    assert QueueOk(s, step.l);
    TurnIsCalm(p, step);
    assert Apply(s, step) == s.WithLoop(step.l, Turn(p, step));
    LoopIsCalm(s, step.l, Turn(p, step));
  }

  lemma LoopIsCalm(s: Sys, l: LoopId, p: Loop)
    requires l < |s.loops| && Outstanding(p) == Outstanding(s.loops[l])
    requires p.channels == s.loops[l].channels && p.interest == s.loops[l].interest
    ensures Calm(s, s.WithLoop(l, p))
  {
  }

  lemma TurnIsCalm(p: Loop, step: Step)
    requires Control(step) && (step.EndEvent? ==> p.active != []) && (step.Swap? ==> p.batch == [])
    ensures var p' := Turn(p, step);
            Outstanding(p') == Outstanding(p) && p'.channels == p.channels && p'.interest == p.interest
  {
  }

  lemma QuietIsCalm(s: Sys, step: Step)
    requires Inv(s) && Enabled(s, step) && Quiet(step)
    ensures Calm(s, Apply(s, step))
  {
    StepGrows(s, step);
    var s' := Apply(s, step);
    assert s'.conns == s.conns && s'.loops == s.loops && s'.table == s.table;
  }

  lemma UserIsCalm(s: Sys, step: Step)
    requires Inv(s) && Enabled(s, step) && !Control(step) && !Quiet(step)
    requires !step.RunTask? && !step.CloseEvent? && !step.Accept? && !step.DoPush?
    ensures Calm(s, Apply(s, step))
  {
    StepGrows(s, step);
    if step.Quit? || step.DoWake? {
      SignalIsCalm(s, step);
    } else {
      var s' := Apply(s, step);
      assert s'.table == s.table && s'.loops == s.loops;
      if step.SetShutdown? {
        assert ThreadOk(s, step.t);
      }
    }
  }

  lemma SignalIsCalm(s: Sys, step: Step)
    requires Enabled(s, step) && (step.Quit? || step.DoWake?) && Grows(s, Apply(s, step))
    ensures Calm(s, Apply(s, step))
  {
    var s' := Apply(s, step);
    assert s'.table == s.table && s'.conns == s.conns;
  }

  // ----- The three steps that move a connection along, as relations

  /** handleClose, with what its close callback hands to the base loop. */
  ghost predicate Closes(s: Sys, s': Sys, l: LoopId) {
    && l < |s.loops| <= |s.threads| && s.loops[l].active != [] && s.loops[l].active[0] < |s.conns|
    && var c := s.loops[l].active[0];
    && s.conns[c].owner == l && Live(s.conns[c].state) && s.threads[l].op == Idle
    && s'.conns == s.conns[c := s.conns[c].(state := Disconnected)]
    && s'.loops == s.loops[l := s.loops[l].(interest := s.loops[l].interest - {s.conns[c].fd})]
    && s'.table == (if l == BASE then s.table - {c} else s.table)
    && s'.threads == s.threads[l := s.threads[l].(op := if l == BASE then Push(l, Destroy(c))
                                                        else Push(BASE, Unlist(c)))]
  }

  lemma CloseEffect(s: Sys, l: LoopId)
    requires Inv(s) && Enabled(s, CloseEvent(l))
    ensures Closes(s, Apply(s, CloseEvent(l)), l)
  {
    assert ActiveOk(s, l);
  }

  /** One task of the batch. */
  ghost predicate Runs(s: Sys, s': Sys, l: LoopId) {
    && l < |s.loops| <= |s.threads| && s.loops[l].batch != [] && s.threads[l].op == Idle
    && |s'.loops| == |s.loops| && |s'.conns| == |s.conns|
    && var head, p, p' := s.loops[l].batch[0], s.loops[l], s'.loops[l];
    && TaskOk(s, l, head) && p.phase == Running
    && s'.loops == s.loops[l := p.(batch := p.batch[1..], executed := p.executed + [head],
                                   channels := p'.channels, interest := p'.interest)]
    && match head
       case Establish(c) =>
         && s'.conns == s.conns[c := s.conns[c].(state := Connected)] && s'.threads == s.threads && s'.table == s.table
         && p'.channels == p.channels[s.conns[c].fd := c] && p'.interest == p.interest[s.conns[c].fd := c]
       case Deliver(c, msg) =>
         && s'.conns == (if s.conns[c].state != Connected then s.conns
                         else s.conns[c := s.conns[c].(accepted := s.conns[c].accepted + [msg])])
         && s'.threads == s.threads && s'.table == s.table
         && p'.channels == p.channels && p'.interest == p.interest
       case Unlist(c) =>
         && s'.conns == s.conns && s'.table == s.table - {c}
         && s'.threads == s.threads[l := s.threads[l].(op := Push(s.conns[c].owner, Destroy(c)))]
         && p'.channels == p.channels && p'.interest == p.interest
       case Destroy(c) =>
         && s'.conns == s.conns[c := s.conns[c].(destroyed := true,
                                  state := if s.conns[c].state == Connected then Disconnected else s.conns[c].state)]
         && s'.threads == s.threads && s'.table == s.table
         && p'.channels == p.channels - {s.conns[c].fd} && p'.interest == p.interest - {s.conns[c].fd}
       case HalfClose(_) =>
         && s'.conns == s.conns && s'.threads == s.threads && s'.table == s.table
         && p'.channels == p.channels && p'.interest == p.interest
       case Other(_) =>
         && s'.conns == s.conns && s'.threads == s.threads && s'.table == s.table
         && p'.channels == p.channels && p'.interest == p.interest
  }

  lemma RunEffect(s: Sys, l: LoopId)
    requires Inv(s) && Enabled(s, RunTask(l))
    ensures Runs(s, Apply(s, RunTask(l)), l)
  {
    HeadOk(s, l);
  }

  lemma TaskStays(s: Sys, s': Sys, l: LoopId, task: Task)
    requires Grows(s, s') && TaskOk(s, l, task)
    requires !task.Other? ==> Held(s, task.c)
    ensures TaskOk(s', l, task)
  {
  }

  lemma ShapeStays(s: Sys, s': Sys)
    requires Shape(s) && Grows(s, s') && |s'.conns| == |s.conns| && s'.table <= s.table
    ensures Shape(s')
  {
  }

  lemma ShapeKept(s: Sys, step: Step)
    requires Inv(s) && Enabled(s, step)
    ensures Shape(Apply(s, step))
  {
    StepGrows(s, step);
    if step.Accept? {
      ShapeAfterAccept(s, step.owner, step.fd);
    } else {
      ShapeStays(s, Apply(s, step));
    }
  }

  lemma ShapeAfterAccept(s: Sys, owner: LoopId, fd: Fd)
    requires Inv(s) && Enabled(s, Accept(owner, fd))
    ensures Shape(Apply(s, Accept(owner, fd)))
  {
  }

  // ----- Threads

  lemma ThreadStays(s: Sys, s': Sys, t: ThreadId)
    requires Inv(s) && Grows(s, s') && t < |s.threads|
    requires s'.threads[t] == s.threads[t]
    requires (!s.threads[t].op.Idle? || s.threads[t].setting.Some?) && t < |s.loops| ==>
               s'.loops[t].phase == s.loops[t].phase
    ensures ThreadOk(s', t)
  {
    assert ThreadOk(s, t);
    var op := s.threads[t].op;
    if op.Push? {
      TaskStays(s, s', op.target, op.task);
    }
  }

  lemma ThreadKept(s: Sys, step: Step, t: ThreadId)
    requires Inv(s) && Enabled(s, step) && t < |s.threads|
    ensures var s' := Apply(s, step); |s'.threads| == |s.threads| && ThreadOk(s', t)
  {
    var s' := Apply(s, step);
    StepGrows(s, step);
    if Control(step) {
      ThreadStays(s, s', t);
    } else if Quiet(step) {
      ThreadAfterQuiet(s, step, t);
    } else if step.RunTask? {
      ThreadAfterTask(s, step.l, t);
    } else if step.CloseEvent? {
      ThreadAfterClose(s, step.l, t);
    } else if step.Accept? {
      ThreadAfterAccept(s, step.owner, step.fd, t);
    } else if step.Destruct? {
      ThreadStays(s, s', t);
    } else {
      ThreadAfterUser(s, step, t);
    }
  }

  lemma ThreadAfterUser(s: Sys, step: Step, t: ThreadId)
    requires Inv(s) && Enabled(s, step) && t < |s.threads| && Grows(s, Apply(s, step))
    requires step.Send? || step.Quit? || step.DoPush? || step.DoWake? || step.SetShutdown?
    ensures ThreadOk(Apply(s, step), t)
  {
    if step.Send? {
      ThreadAfterSend(s, step.t, step.c, step.text, t);
    } else if step.Quit? || step.DoPush? || step.DoWake? {
      ThreadAfterQueueOp(s, step, step.t, t);
    } else {
      ThreadAfterShutdown(s, step.t, t);
    }
  }

  lemma ThreadAfterShutdown(s: Sys, t': ThreadId, t: ThreadId)
    requires Inv(s) && Enabled(s, SetShutdown(t')) && t < |s.threads|
    ensures ThreadOk(Apply(s, SetShutdown(t')), t)
  {
    StepGrows(s, SetShutdown(t'));
    if t == t' {
      assert ThreadOk(s, t);
    } else {
      ThreadStays(s, Apply(s, SetShutdown(t')), t);
    }
  }

  lemma ThreadAfterQuiet(s: Sys, step: Step, t: ThreadId)
    requires Inv(s) && Enabled(s, step) && Quiet(step) && t < |s.threads|
    ensures ThreadOk(Apply(s, step), t)
  {
    StepGrows(s, step);
    assert ThreadOk(s, t);
    if step.Acquire? {
      HeldExists(s, step.c);
    }
    if step.t != t {
      ThreadStays(s, Apply(s, step), t);
    }
  }

  lemma ThreadAfterQueueOp(s: Sys, step: Step, t': ThreadId, t: ThreadId)
    requires Inv(s) && Enabled(s, step) && t < |s.threads|
    requires (step.Quit? || step.DoPush? || step.DoWake?) && step.t == t'
    ensures ThreadOk(Apply(s, step), t)
  {
    StepGrows(s, step);
    if t == t' {
      assert ThreadOk(s, t);
    } else {
      ThreadStays(s, Apply(s, step), t);
    }
  }

  lemma ThreadAfterTask(s: Sys, l: LoopId, t: ThreadId)
    requires Inv(s) && Enabled(s, RunTask(l)) && t < |s.threads|
    ensures ThreadOk(Apply(s, RunTask(l)), t)
  {
    var s' := Apply(s, RunTask(l));
    StepGrows(s, RunTask(l));
    HeadOk(s, l);
    var task := s.loops[l].batch[0];
    if task.Unlist? && t == BASE {
      assert ThreadOk(s, t);
    } else {
      ThreadStays(s, s', t);
    }
  }

  lemma ThreadAfterClose(s: Sys, l: LoopId, t: ThreadId)
    requires Inv(s) && Enabled(s, CloseEvent(l)) && t < |s.threads|
    ensures ThreadOk(Apply(s, CloseEvent(l)), t)
  {
    var s' := Apply(s, CloseEvent(l));
    StepGrows(s, CloseEvent(l));
    if t == l {
      assert ThreadOk(s, t) && ActiveOk(s, l);
      assert CustodyOk(s, s.loops[l].active[0]);
    } else {
      ThreadStays(s, s', t);
    }
  }

  lemma ThreadAfterAccept(s: Sys, owner: LoopId, fd: Fd, t: ThreadId)
    requires Inv(s) && Enabled(s, Accept(owner, fd)) && t < |s.threads|
    ensures ThreadOk(Apply(s, Accept(owner, fd)), t)
  {
    var s' := Apply(s, Accept(owner, fd));
    StepGrows(s, Accept(owner, fd));
    if t == BASE {
      assert ThreadOk(s, t);
    } else {
      ThreadStays(s, s', t);
    }
  }

  lemma ThreadAfterSend(s: Sys, t': ThreadId, c: ConnId, text: string, t: ThreadId)
    requires Inv(s) && Enabled(s, Send(t', c, text)) && t < |s.threads|
    ensures ThreadOk(Apply(s, Send(t', c, text)), t)
  {
    var s' := Apply(s, Send(t', c, text));
    StepGrows(s, Send(t', c, text));
    if t == t' {
      assert ThreadOk(s, t);
    } else {
      ThreadStays(s, s', t);
    }
  }

  // ----- Queues

  lemma QueueStays(s: Sys, s': Sys, l: LoopId)
    requires Inv(s) && Grows(s, s') && l < |s.loops| && QueueOk(s, l)
    requires forall i :: 0 <= i < |Outstanding(s'.loops[l])| ==> Outstanding(s'.loops[l])[i] in Outstanding(s.loops[l])
    ensures forall i :: 0 <= i < |Outstanding(s'.loops[l])| ==> TaskOk(s', l, Outstanding(s'.loops[l])[i])
  {
    forall i | 0 <= i < |Outstanding(s'.loops[l])|
      ensures TaskOk(s', l, Outstanding(s'.loops[l])[i])
    {
      var task := Outstanding(s'.loops[l])[i];
      var j :| 0 <= j < |Outstanding(s.loops[l])| && Outstanding(s.loops[l])[j] == task;
      assert !task.Other? ==> Mentions(task, task.c);
      TaskStays(s, s', l, task);
    }
  }

  lemma QueueKept(s: Sys, step: Step, l: LoopId)
    requires Inv(s) && Enabled(s, step) && l < |s.loops|
    ensures var s' := Apply(s, step); |s'.loops| == |s.loops| && QueueOk(s', l)
  {
    if Control(step) {
      QueueAfterControl(s, step, l);
    } else if step.DoPush? {
      QueueAfterPush(s, step.t, l);
    } else if step.RunTask? {
      QueueAfterTask(s, step.l, l);
    } else {
      QueueAfterUser(s, step, l);
    }
  }

  lemma QueueAfterUser(s: Sys, step: Step, l: LoopId)
    requires Inv(s) && Enabled(s, step) && l < |s.loops|
    requires !Control(step) && !step.DoPush? && !step.RunTask?
    ensures var s' := Apply(s, step); |s'.loops| == |s.loops| && QueueOk(s', l)
  {
    StepGrows(s, step);
    assert QueueOk(s, l);
    QueueStays(s, Apply(s, step), l);
  }

  lemma QueueAfterControl(s: Sys, step: Step, l: LoopId)
    requires Inv(s) && Enabled(s, step) && Control(step) && l < |s.loops|
    ensures QueueOk(Apply(s, step), l)
  {
    StepGrows(s, step);
    assert QueueOk(s, l);
    QueueStays(s, Apply(s, step), l);
  }

  lemma QueueAfterPush(s: Sys, t: ThreadId, l: LoopId)
    requires Inv(s) && Enabled(s, DoPush(t)) && l < |s.loops|
    ensures QueueOk(Apply(s, DoPush(t)), l)
  {
    var s' := Apply(s, DoPush(t));
    StepGrows(s, DoPush(t));
    assert QueueOk(s, l) && ThreadOk(s, t);
    var op := s.threads[t].op;
    if op.target == l {
      assert Outstanding(s'.loops[l]) == Outstanding(s.loops[l]) + [op.task];
      TaskStays(s, s', l, op.task);
      QueueStays(s, s'.(loops := s'.loops[l := s.loops[l]]), l);
    } else {
      QueueStays(s, s', l);
    }
  }

  lemma QueueAfterTask(s: Sys, l': LoopId, l: LoopId)
    requires Inv(s) && Enabled(s, RunTask(l')) && l < |s.loops|
    ensures QueueOk(Apply(s, RunTask(l')), l)
  {
    var s' := Apply(s, RunTask(l'));
    StepGrows(s, RunTask(l'));
    RunEffect(s, l');
    assert QueueOk(s, l);
    if l == l' {
      assert Outstanding(s'.loops[l]) == Outstanding(s.loops[l])[1..];
    }
    QueueStays(s, s', l);
  }

  // ----- Wake-ups

  lemma SameSignals(s: Sys, s': Sys, l: LoopId)
    requires |s'.loops| == |s.loops| && |s'.threads| == |s.threads| && l < |s.loops|
    requires forall u :: 0 <= u < |s.threads| ==> (s'.threads[u].op == Wake(l) <==> s.threads[u].op == Wake(l))
    requires s'.loops[l].eventfd == s.loops[l].eventfd
    ensures Signalled(s', l) <==> Signalled(s, l)
  {
  }

  lemma WakeKept(s: Sys, step: Step, l: LoopId)
    requires Inv(s) && Enabled(s, step) && l < |s.loops|
    ensures var s' := Apply(s, step); |s'.loops| == |s.loops| && WakeOk(s', l)
  {
    if Control(step) {
      WakeAfterControl(s, step, l);
    } else if step.DoPush? {
      WakeAfterPush(s, step.t, l);
    } else if step.DoWake? {
      WakeAfterWake(s, step.t, l);
    } else if step.Quit? {
      WakeAfterQuit(s, step.t, step.l, l);
    } else if step.RunTask? {
      WakeAfterTask(s, step.l, l);
    } else {
      WakeAfterUser(s, step, l);
    }
  }

  lemma WakeAfterUser(s: Sys, step: Step, l: LoopId)
    requires Inv(s) && Enabled(s, step) && l < |s.loops| && !Control(step)
    requires !step.DoPush? && !step.DoWake? && !step.Quit? && !step.RunTask?
    ensures var s' := Apply(s, step); |s'.loops| == |s.loops| && WakeOk(s', l)
  {
    assert WakeOk(s, l);
    SameSignals(s, Apply(s, step), l);
  }

  lemma WakeAfterControl(s: Sys, step: Step, l: LoopId)
    requires Inv(s) && Enabled(s, step) && Control(step) && l < |s.loops|
    ensures WakeOk(Apply(s, step), l)
  {
    assert WakeOk(s, l);
    if !(step.ReadEventfd? && step.l == l) {
      SameSignals(s, Apply(s, step), l);
    }
  }

  lemma WakeAfterTask(s: Sys, l': LoopId, l: LoopId)
    requires Inv(s) && Enabled(s, RunTask(l')) && l < |s.loops|
    ensures WakeOk(Apply(s, RunTask(l')), l)
  {
    assert WakeOk(s, l);
    HeadOk(s, l');
    SameSignals(s, Apply(s, RunTask(l')), l);
  }

  lemma WakeAfterPush(s: Sys, t: ThreadId, l: LoopId)
    requires Inv(s) && Enabled(s, DoPush(t)) && l < |s.loops|
    ensures WakeOk(Apply(s, DoPush(t)), l)
  {
    assert WakeOk(s, l) && ThreadOk(s, t);
    var s' := Apply(s, DoPush(t));
    if s.threads[t].op.target == l && s'.threads[t].op == Wake(l) {
      assert Signalled(s', l);
    } else {
      SameSignals(s, s', l);
    }
  }

  lemma WakeAfterWake(s: Sys, t: ThreadId, l: LoopId)
    requires Inv(s) && Enabled(s, DoWake(t)) && l < |s.loops|
    ensures WakeOk(Apply(s, DoWake(t)), l)
  {
    assert WakeOk(s, l);
    var s' := Apply(s, DoWake(t));
    if s.threads[t].op.target == l {
      assert Signalled(s, l) && Signalled(s', l);
    } else {
      SameSignals(s, s', l);
    }
  }

  lemma WakeAfterQuit(s: Sys, t: ThreadId, l': LoopId, l: LoopId)
    requires Inv(s) && Enabled(s, Quit(t, l')) && l < |s.loops|
    ensures WakeOk(Apply(s, Quit(t, l')), l)
  {
    assert WakeOk(s, l);
    var s' := Apply(s, Quit(t, l'));
    if l == l' && t != l {
      assert s'.threads[t].op == Wake(l) && Signalled(s', l);
    } else {
      SameSignals(s, s', l);
    }
  }

  // ----- Poller tables

  lemma PollerStays(s: Sys, s': Sys, l: LoopId)
    requires l < |s.loops| && PollerOk(s, l) && Mild(s, s')
    ensures PollerOk(s', l)
  {
  }

  lemma PollerKept(s: Sys, step: Step, l: LoopId)
    requires Inv(s) && Enabled(s, step) && l < |s.loops|
    ensures var s' := Apply(s, step); |s'.loops| == |s.loops| && PollerOk(s', l)
  {
    if step.RunTask? {
      PollerAfterTask(s, step.l, l);
    } else if step.CloseEvent? {
      PollerAfterClose(s, step.l, l);
    } else if step.Accept? {
      PollerAfterAccept(s, step.owner, step.fd, l);
    } else {
      MildStep(s, step);
      PollerStays(s, Apply(s, step), l);
    }
  }

  lemma PollerAfterAccept(s: Sys, owner: LoopId, fd: Fd, l: LoopId)
    requires Inv(s) && Enabled(s, Accept(owner, fd)) && l < |s.loops|
    ensures PollerOk(Apply(s, Accept(owner, fd)), l)
  {
    assert PollerOk(s, l);
  }

  lemma PollerAfterClose(s: Sys, l': LoopId, l: LoopId)
    requires Inv(s) && Enabled(s, CloseEvent(l')) && l < |s.loops|
    ensures PollerOk(Apply(s, CloseEvent(l')), l)
  {
    CloseEffect(s, l');
    assert PollerOk(s, l) && ListedOk(s, s.loops[l'].active[0]);
    PollerThroughClose(s, Apply(s, CloseEvent(l')), l', l);
  }

  lemma PollerThroughClose(s: Sys, s': Sys, l': LoopId, l: LoopId)
    requires Closes(s, s', l') && l < |s.loops| && PollerOk(s, l)
    requires Live(s.conns[s.loops[l'].active[0]].state) && ListedOk(s, s.loops[l'].active[0])
    ensures PollerOk(s', l)
  {
  }

  lemma PollerAfterTask(s: Sys, l': LoopId, l: LoopId)
    requires Inv(s) && Enabled(s, RunTask(l')) && l < |s.loops|
    ensures PollerOk(Apply(s, RunTask(l')), l)
  {
    RunEffect(s, l');
    HeadCounts(s, l');
    var head := s.loops[l'].batch[0];
    assert head.Establish? ==> CustodyOk(s, head.c);
    assert head.Destroy? ==> CustodyOk(s, head.c) && ListedOk(s, head.c);
    assert PollerOk(s, l);
    PollerThroughTask(s, Apply(s, RunTask(l')), l', l);
  }

  lemma PollerThroughTask(s: Sys, s': Sys, l': LoopId, l: LoopId)
    requires Runs(s, s', l') && l < |s.loops| && PollerOk(s, l)
    requires var head := s.loops[l'].batch[0];
             && (head.Establish? ==> s.conns[head.c].state == Connecting && !s.conns[head.c].destroyed)
             && (head.Destroy? ==> ListedOk(s, head.c) && !s.conns[head.c].destroyed)
    ensures PollerOk(s', l)
  {
  }

  // ----- The round of active channels

  lemma ActiveStays(s: Sys, s': Sys, l: LoopId)
    requires Shape(s) && l < |s.loops| && ActiveOk(s, l) && Mild(s, s')
    requires s'.loops[l].active == s.loops[l].active
    ensures ActiveOk(s', l)
  {
  }

  lemma ActiveKept(s: Sys, step: Step, l: LoopId)
    requires Inv(s) && Enabled(s, step) && l < |s.loops|
    ensures var s' := Apply(s, step); |s'.loops| == |s.loops| && ActiveOk(s', l)
  {
    if Control(step) {
      ActiveAfterControl(s, step, l);
    } else if step.CloseEvent? {
      ActiveAfterClose(s, step.l, l);
    } else if step.RunTask? {
      ActiveAfterTask(s, step.l, l);
    } else if step.Accept? {
      ActiveAfterAccept(s, step.owner, step.fd, l);
    } else {
      ActiveAfterMild(s, step, l);
    }
  }

  lemma ActiveAfterMild(s: Sys, step: Step, l: LoopId)
    requires Inv(s) && Enabled(s, step) && l < |s.loops|
    requires !Control(step) && !step.RunTask? && !step.CloseEvent? && !step.Accept?
    ensures var s' := Apply(s, step); |s'.loops| == |s.loops| && ActiveOk(s', l)
  {
    MildStep(s, step);
    assert ActiveOk(s, l);
    ActiveStays(s, Apply(s, step), l);
  }

  lemma ActiveAfterControl(s: Sys, step: Step, l: LoopId)
    requires Inv(s) && Enabled(s, step) && Control(step) && l < |s.loops|
    ensures ActiveOk(Apply(s, step), l)
  {
    assert ActiveOk(s, l);
    if step.PollReturns? && step.l == l {
      ActiveAfterPoll(s, l, step.ready);
    }
  }

  lemma ActiveAfterClose(s: Sys, l': LoopId, l: LoopId)
    requires Inv(s) && Enabled(s, CloseEvent(l')) && l < |s.loops|
    ensures ActiveOk(Apply(s, CloseEvent(l')), l)
  {
    CloseEffect(s, l');
    assert ActiveOk(s, l) && ActiveOk(s, l');
  }

  lemma ActiveAfterAccept(s: Sys, owner: LoopId, fd: Fd, l: LoopId)
    requires Inv(s) && Enabled(s, Accept(owner, fd)) && l < |s.loops|
    ensures ActiveOk(Apply(s, Accept(owner, fd)), l)
  {
    assert ActiveOk(s, l);
  }

  lemma ActiveAfterTask(s: Sys, l': LoopId, l: LoopId)
    requires Inv(s) && Enabled(s, RunTask(l')) && l < |s.loops|
    ensures ActiveOk(Apply(s, RunTask(l')), l)
  {
    RunEffect(s, l');
    assert ActiveOk(s, l) && QueueOk(s, l');
    ActiveThroughTask(s, Apply(s, RunTask(l')), l', l);
  }

  lemma ActiveThroughTask(s: Sys, s': Sys, l': LoopId, l: LoopId)
    requires Runs(s, s', l') && l < |s.loops| && ActiveOk(s, l) && s.loops[l'].active == []
    ensures ActiveOk(s', l)
  {
  }

  lemma ActiveAfterPoll(s: Sys, l: LoopId, ready: seq<ConnId>)
    requires Inv(s) && Enabled(s, PollReturns(l, ready))
    ensures ActiveOk(Apply(s, PollReturns(l, ready)), l)
  {
    assert PollerOk(s, l);
    forall i | 0 <= i < |ready|
      ensures s.conns[ready[i]].owner == l && Live(s.conns[ready[i]].state) && !s.conns[ready[i]].destroyed
    {
      assert Watched(s, l, ready[i]) && CustodyOk(s, ready[i]);
    }
  }

  lemma ListedStays(s: Sys, s': Sys, c: ConnId)
    requires Shape(s) && c < |s.conns| && ListedOk(s, c) && Mild(s, s')
    ensures ListedOk(s', c)
  {
  }

  lemma ListedKept(s: Sys, step: Step, c: ConnId)
    requires Inv(s) && Enabled(s, step) && c < |Apply(s, step).conns| && Shape(Apply(s, step))
    ensures ListedOk(Apply(s, step), c)
  {
    if step.RunTask? {
      ListedAfterTask(s, step.l, c);
    } else if step.CloseEvent? {
      ListedAfterClose(s, step.l, c);
    } else if step.Accept? {
      ListedAfterAccept(s, step.owner, step.fd, c);
    } else {
      MildStep(s, step);
      ListedStays(s, Apply(s, step), c);
    }
  }

  lemma ListedAfterClose(s: Sys, l: LoopId, c: ConnId)
    requires Inv(s) && Enabled(s, CloseEvent(l)) && c < |s.conns|
    ensures |Apply(s, CloseEvent(l)).conns| == |s.conns| && |Apply(s, CloseEvent(l)).loops| == |s.loops|
    ensures ListedOk(Apply(s, CloseEvent(l)), c)
  {
    CloseEffect(s, l);
    assert ListedOk(s, c) && ListedOk(s, s.loops[l].active[0]);
    ListedThroughClose(s, Apply(s, CloseEvent(l)), l, c);
  }

  lemma ListedThroughClose(s: Sys, s': Sys, l: LoopId, c: ConnId)
    requires Closes(s, s', l) && c < |s.conns| && s.conns[c].owner < |s.loops|
    requires ListedOk(s, c) && Live(s.conns[s.loops[l].active[0]].state) && ListedOk(s, s.loops[l].active[0])
    ensures ListedOk(s', c)
  {
  }

  lemma ListedAfterAccept(s: Sys, owner: LoopId, fd: Fd, c: ConnId)
    requires Inv(s) && Enabled(s, Accept(owner, fd)) && c <= |s.conns|
    ensures |Apply(s, Accept(owner, fd)).conns| == |s.conns| + 1 && |Apply(s, Accept(owner, fd)).loops| == |s.loops|
    ensures Apply(s, Accept(owner, fd)).conns[c].owner < |s.loops| && ListedOk(Apply(s, Accept(owner, fd)), c)
  {
    if c < |s.conns| {
      assert ListedOk(s, c) && CustodyOk(s, c);
      ListedOfOthers(s, owner, fd, c);
    }
  }

  lemma ListedOfOthers(s: Sys, owner: LoopId, fd: Fd, c: ConnId)
    requires Shape(s) && Enabled(s, Accept(owner, fd)) && c < |s.conns| && ListedOk(s, c)
    requires s.conns[c].gone ==> s.conns[c].destroyed && !Live(s.conns[c].state)
    ensures s.conns[c] == Apply(s, Accept(owner, fd)).conns[c] && |Apply(s, Accept(owner, fd)).loops| == |s.loops|
    ensures ListedOk(Apply(s, Accept(owner, fd)), c)
  {
    assert s.conns[c].fd == fd ==> s.conns[c].gone;
  }

  lemma ListedAfterTask(s: Sys, l: LoopId, c: ConnId)
    requires Inv(s) && Enabled(s, RunTask(l)) && c < |s.conns|
    ensures |Apply(s, RunTask(l)).conns| == |s.conns| && |Apply(s, RunTask(l)).loops| == |s.loops|
    ensures ListedOk(Apply(s, RunTask(l)), c)
  {
    RunEffect(s, l);
    HeadCounts(s, l);
    var head := s.loops[l].batch[0];
    assert !head.Other? ==> CustodyOk(s, head.c) && ListedOk(s, head.c);
    assert ListedOk(s, c) && CustodyOk(s, c);
    ListedThroughTask(s, Apply(s, RunTask(l)), l, c);
  }

  lemma ListedThroughTask(s: Sys, s': Sys, l: LoopId, c: ConnId)
    requires Shape(s) && Runs(s, s', l) && c < |s.conns| && ListedOk(s, c)
    requires s.conns[c].gone ==> s.conns[c].destroyed
    requires s.conns[c].destroyed ==> s.conns[c].state == Disconnected
    requires s.loops[l].batch[0].Destroy? ==> s.conns[s.loops[l].batch[0].c].state == Disconnected
    ensures ListedOk(s', c)
  {
  }

  // ----- Custody

  lemma CustodyStays(s: Sys, s': Sys, c: ConnId)
    requires Shape(s) && Calm(s, s') && c < |s.conns| && CustodyOk(s, c)
    requires s'.conns[c].gone ==> s.conns[c].gone || s.conns[c].destroyed
    ensures CustodyOk(s', c)
  {
  }

  lemma CustodyKept(s: Sys, step: Step, c: ConnId)
    requires Inv(s) && Enabled(s, step) && c < |Apply(s, step).conns| && Shape(Apply(s, step))
    ensures CustodyOk(Apply(s, step), c)
  {
    if step.RunTask? {
      CustodyAfterTask(s, step.l, c);
    } else if step.CloseEvent? {
      CustodyAfterClose(s, step.l, c);
    } else if step.Accept? {
      CustodyAfterAccept(s, step.owner, step.fd, c);
    } else if step.DoPush? {
      CustodyAfterPush(s, step.t, c);
    } else {
      CustodyElse(s, step, c);
    }
  }

  lemma CustodyElse(s: Sys, step: Step, c: ConnId)
    requires Inv(s) && Enabled(s, step) && c < |s.conns|
    requires !step.RunTask? && !step.CloseEvent? && !step.Accept? && !step.DoPush?
    ensures Mild(s, Apply(s, step)) && CustodyOk(Apply(s, step), c)
  {
    MildStep(s, step);
    assert CustodyOk(s, c);
    if step.Destruct? && !s.conns[c].destroyed {
      SomeoneHolds(s, c);
    }
    CustodyStays(s, Apply(s, step), c);
  }

  /** The push that thread `t` has begun. */
  ghost predicate Pushes(s: Sys, s': Sys, t: ThreadId) {
    && |s'.loops| == |s.loops| && |s'.threads| == |s.threads| && s'.conns == s.conns && s'.table == s.table
    && t < |s.threads| && s.threads[t].op.Push? && s.threads[t].op.target < |s.loops|
    && var op := s.threads[t].op;
    && (forall k :: 0 <= k < |s.loops| ==>
          Outstanding(s'.loops[k]) == Outstanding(s.loops[k]) + if k == op.target then [op.task] else [])
    && (forall u :: 0 <= u < |s.threads| && u != t ==> s'.threads[u].op == s.threads[u].op)
    && !s'.threads[t].op.Push?
  }

  lemma PushEffect(s: Sys, t: ThreadId)
    requires Enabled(s, DoPush(t))
    ensures Pushes(s, Apply(s, DoPush(t)), t)
  {
    var op, s' := s.threads[t].op, Apply(s, DoPush(t));
    assert Outstanding(s'.loops[op.target]) == Outstanding(s.loops[op.target]) + [op.task];
  }

  lemma CustodyAfterPush(s: Sys, t: ThreadId, c: ConnId)
    requires Inv(s) && Enabled(s, DoPush(t)) && c < |s.conns|
    ensures Mild(s, Apply(s, DoPush(t))) && CustodyOk(Apply(s, DoPush(t)), c)
  {
    MildStep(s, DoPush(t));
    assert CustodyOk(s, c) && ThreadOk(s, t);
    PushEffect(s, t);
    CustodyThroughPush(s, Apply(s, DoPush(t)), t, c);
  }

  lemma CustodyThroughPush(s: Sys, s': Sys, t: ThreadId, c: ConnId)
    requires Shape(s) && Pushes(s, s', t) && c < |s.conns| && CustodyOk(s, c) && Producer(s, t, s.threads[t].op.task)
    ensures CustodyOk(s', c)
  {
    CopiesThroughPush(s, s', t, BASE, s.conns[c].owner, Establish(c));
    CopiesThroughPush(s, s', t, s.conns[c].owner, BASE, Unlist(c));
    CopiesThroughPush(s, s', t, BASE, s.conns[c].owner, Destroy(c));
  }

  /** A push moves its task from the thread to the queue: the copies stay as many. */
  lemma CopiesThroughPush(s: Sys, s': Sys, t: ThreadId, producer: ThreadId, l: LoopId, task: Task)
    requires Pushes(s, s', t) && producer < |s.threads| && l < |s.loops|
    requires s.threads[t].op == Push(l, task) ==> t == producer
    ensures Copies(s', producer, l, task) == Copies(s, producer, l, task)
  {
    var out := Outstanding(s.loops[l]);
    assert multiset(out + [s.threads[t].op.task]) == multiset(out) + multiset{s.threads[t].op.task};
    assert multiset(out + []) == multiset(out);
  }

  lemma CustodyAfterClose(s: Sys, l: LoopId, c: ConnId)
    requires Inv(s) && Enabled(s, CloseEvent(l)) && c < |s.conns|
    ensures Shape(Apply(s, CloseEvent(l))) && |Apply(s, CloseEvent(l)).conns| == |s.conns|
    ensures CustodyOk(Apply(s, CloseEvent(l)), c)
  {
    ShapeKept(s, CloseEvent(l));
    CloseEffect(s, l);
    assert CustodyOk(s, c);
    CustodyThroughClose(s, Apply(s, CloseEvent(l)), l, c);
  }

  lemma CustodyThroughClose(s: Sys, s': Sys, l: LoopId, c: ConnId)
    requires Shape(s) && Closes(s, s', l) && c < |s.conns| && CustodyOk(s, c)
    ensures CustodyOk(s', c)
  {
    assert forall k :: 0 <= k < |s.loops| ==> Outstanding(s'.loops[k]) == Outstanding(s.loops[k]);
    if c == s.loops[l].active[0] {
      CustodyOfClosed(s, s', l);
    } else {
      var owner := s.conns[c].owner;
      CopiesOnSameQueue(s, s', BASE, owner, Establish(c));
      CopiesOnSameQueue(s, s', owner, BASE, Unlist(c));
      CopiesOnSameQueue(s, s', BASE, owner, Destroy(c));
    }
  }

  lemma CustodyOfClosed(s: Sys, s': Sys, l: LoopId)
    requires Shape(s) && Closes(s, s', l) && CustodyOk(s, s.loops[l].active[0])
    requires forall k :: 0 <= k < |s.loops| ==> Outstanding(s'.loops[k]) == Outstanding(s.loops[k])
    ensures CustodyOk(s', s.loops[l].active[0])
  {
    var c := s.loops[l].active[0];
    var owner := s.conns[c].owner;
    CopiesOnSameQueue(s, s', BASE, owner, Establish(c));
    CopiesOnSameQueue(s, s', owner, BASE, Unlist(c));
    CopiesOnSameQueue(s, s', BASE, owner, Destroy(c));
  }

  lemma CopiesOnSameQueue(s: Sys, s': Sys, t: ThreadId, l: LoopId, task: Task)
    requires t < |s.threads| == |s'.threads| && l < |s.loops| == |s'.loops|
    requires Outstanding(s'.loops[l]) == Outstanding(s.loops[l])
    ensures Copies(s', t, l, task) + (if s.threads[t].op == Push(l, task) then 1 else 0)
         == Copies(s, t, l, task) + (if s'.threads[t].op == Push(l, task) then 1 else 0)
  {
  }

  /** A new connection enters the table, and its first task goes to its owner. */
  ghost predicate Accepts(s: Sys, s': Sys, owner: LoopId) {
    && 0 < |s.loops| <= |s.threads| && owner < |s.loops| && s.threads[BASE].op == Idle
    && |s'.loops| == |s.loops| && |s'.conns| == |s.conns| + 1
    && (forall c :: 0 <= c < |s.conns| ==> s'.conns[c] == s.conns[c])
    && s'.conns[|s.conns|].owner == owner && !s'.conns[|s.conns|].destroyed && !s'.conns[|s.conns|].gone
    && s'.table == s.table + {|s.conns|}
    && (forall l :: 0 <= l < |s.loops| ==> Outstanding(s'.loops[l]) == Outstanding(s.loops[l]))
    && if owner == BASE then s'.conns[|s.conns|].state == Connected && s'.threads == s.threads
       else s'.conns[|s.conns|].state == Connecting
            && s'.threads == s.threads[BASE := s.threads[BASE].(op := Push(owner, Establish(|s.conns|)))]
  }

  lemma AcceptEffect(s: Sys, owner: LoopId, fd: Fd)
    requires Inv(s) && Enabled(s, Accept(owner, fd))
    ensures Accepts(s, Apply(s, Accept(owner, fd)), owner)
  {
  }

  lemma CustodyAfterAccept(s: Sys, owner: LoopId, fd: Fd, c: ConnId)
    requires Inv(s) && Enabled(s, Accept(owner, fd)) && c <= |s.conns|
    ensures Shape(Apply(s, Accept(owner, fd))) && |Apply(s, Accept(owner, fd)).conns| == |s.conns| + 1
    ensures CustodyOk(Apply(s, Accept(owner, fd)), c)
  {
    ShapeKept(s, Accept(owner, fd));
    AcceptEffect(s, owner, fd);
    var s' := Apply(s, Accept(owner, fd));
    if c < |s.conns| {
      assert CustodyOk(s, c);
      CustodyOfOthers(s, s', owner, c);
    } else {
      NothingMentions(s, c, owner);
      NothingMentions(s, c, BASE);
      CustodyOfNew(s, s', owner);
    }
  }

  lemma CustodyOfOthers(s: Sys, s': Sys, owner: LoopId, c: ConnId)
    requires Shape(s) && Accepts(s, s', owner) && c < |s.conns| && CustodyOk(s, c)
    ensures CustodyOk(s', c)
  {
    var k := s.conns[c];
    CopiesOnSameQueue(s, s', BASE, k.owner, Establish(c));
    CopiesOnSameQueue(s, s', k.owner, BASE, Unlist(c));
    CopiesOnSameQueue(s, s', BASE, k.owner, Destroy(c));
  }

  lemma CustodyOfNew(s: Sys, s': Sys, owner: LoopId)
    requires Accepts(s, s', owner)
    requires forall l, task :: (l == owner || l == BASE) && Carries(task, |s.conns|) ==>
               multiset(Outstanding(s.loops[l]))[task] == 0
               && forall t :: 0 <= t < |s.threads| ==> s.threads[t].op != Push(l, task)
    ensures CustodyOk(s', |s.conns|)
  {
    var c := |s.conns|;
    assert Carries(Establish(c), c) && Carries(Unlist(c), c) && Carries(Destroy(c), c);
  }

  /** No queue knows a connection that does not exist yet. */
  lemma NothingMentions(s: Sys, c: ConnId, l: LoopId)
    requires Inv(s) && c >= |s.conns| && l < |s.loops|
    ensures forall task :: Carries(task, c) ==> multiset(Outstanding(s.loops[l]))[task] == 0
    ensures forall t, task :: 0 <= t < |s.threads| && Carries(task, c) ==> s.threads[t].op != Push(l, task)
  {
    assert QueueOk(s, l);
    forall task | Carries(task, c)
      ensures multiset(Outstanding(s.loops[l]))[task] == 0
    {
      assert task in Outstanding(s.loops[l]) ==> TaskOk(s, l, task);
    }
    forall t, task | 0 <= t < |s.threads| && Carries(task, c)
      ensures s.threads[t].op != Push(l, task)
    {
      assert ThreadOk(s, t);
    }
  }

  lemma CustodyAfterTask(s: Sys, l: LoopId, c: ConnId)
    requires Inv(s) && Enabled(s, RunTask(l)) && c < |s.conns|
    ensures Shape(Apply(s, RunTask(l))) && |Apply(s, RunTask(l)).conns| == |s.conns|
    ensures CustodyOk(Apply(s, RunTask(l)), c)
  {
    ShapeKept(s, RunTask(l));
    RunEffect(s, l);
    assert CustodyOk(s, c);
    CustodyThroughTask(s, Apply(s, RunTask(l)), l, c);
  }

  lemma PopCount(tasks: seq<Task>, head: Task, rest: seq<Task>, task: Task)
    requires |tasks| > 0 && tasks[0] == head && tasks[1..] == rest
    ensures multiset(tasks)[task] == multiset(rest)[task] + if task == head then 1 else 0
  {
    assert tasks == [head] + rest;
  }

  /** A task leaves the queue, and unlisting a connection takes up its last task. */
  lemma CopiesThroughTask(s: Sys, s': Sys, l: LoopId, producer: ThreadId, k: LoopId, task: Task)
    requires Runs(s, s', l) && producer < |s.threads| && k < |s.loops|
    ensures var head := s.loops[l].batch[0];
            Copies(s', producer, k, task) == Copies(s, producer, k, task)
              - (if k == l && task == head then 1 else 0)
              + (if producer == l && head.Unlist? && k == s.conns[head.c].owner && task == Destroy(head.c)
                 then 1 else 0)
  {
    var head := s.loops[l].batch[0];
    if k == l {
      PopCount(Outstanding(s.loops[l]), head, Outstanding(s'.loops[l]), task);
    }
  }

  lemma CustodyThroughTask(s: Sys, s': Sys, l: LoopId, c: ConnId)
    requires Shape(s) && Runs(s, s', l) && c < |s.conns| && CustodyOk(s, c)
    ensures CustodyOk(s', c)
  {
    if Mentions(s.loops[l].batch[0], c) {
      CustodyThroughOwnTask(s, s', l, c);
    } else {
      var owner := s.conns[c].owner;
      CopiesThroughTask(s, s', l, BASE, owner, Establish(c));
      CopiesThroughTask(s, s', l, owner, BASE, Unlist(c));
      CopiesThroughTask(s, s', l, BASE, owner, Destroy(c));
    }
  }

  lemma CustodyThroughOwnTask(s: Sys, s': Sys, l: LoopId, c: ConnId)
    requires Shape(s) && Runs(s, s', l) && c < |s.conns| && CustodyOk(s, c) && Mentions(s.loops[l].batch[0], c)
    ensures CustodyOk(s', c)
  {
    var owner := s.conns[c].owner;
    CopiesThroughTask(s, s', l, BASE, owner, Establish(c));
    CopiesThroughTask(s, s', l, owner, BASE, Unlist(c));
    CopiesThroughTask(s, s', l, BASE, owner, Destroy(c));
  }

  // ----- Delivery order

  lemma OrderStays(s: Sys, s': Sys, c: ConnId, t: ThreadId)
    requires Shape(s) && Calm(s, s') && c < |s.conns| && t < |s.threads| && OrderOk(s, c, t)
    requires s'.conns[c].issued == s.conns[c].issued && s'.conns[c].accepted == s.conns[c].accepted
    requires InPush(s'.threads[t].op, c) == InPush(s.threads[t].op, c)
    ensures OrderOk(s', c, t)
  {
    PrefixFromEquation(s, c, t);
  }

  lemma PrefixFromEquation(s: Sys, c: ConnId, t: ThreadId)
    requires c < |s.conns| && s.conns[c].owner < |s.loops| && t < |s.threads| && OrderOk(s, c, t)
    ensures From(s.conns[c].accepted, t) <= From(s.conns[c].issued, t)
  {
  }

  lemma FromAppend(ms: seq<Message>, m: Message, t: ThreadId)
    ensures From(ms + [m], t) == From(ms, t) + if m.from == t then [m] else []
  {
    assert (ms + [m])[..|ms|] == ms;
  }

  /** No queued message satisfies what no queued task satisfies. */
  lemma {:induction false} QueuedNone(tasks: seq<Task>, c: ConnId, t: ThreadId)
    requires forall i :: 0 <= i < |tasks| && tasks[i].Deliver? && tasks[i].c == c ==> tasks[i].msg.from != t
    ensures Queued(tasks, c, t) == []
  {
    if tasks != [] {
      QueuedNone(tasks[1..], c, t);
    }
  }

  lemma OrderKept(s: Sys, step: Step, c: ConnId, t: ThreadId)
    requires Inv(s) && Enabled(s, step) && c < |Apply(s, step).conns| && t < |s.threads|
    requires Shape(Apply(s, step)) && |Apply(s, step).threads| == |s.threads|
    ensures OrderOk(Apply(s, step), c, t)
  {
    if step.RunTask? {
      OrderAfterTask(s, step.l, c, t);
    } else if step.CloseEvent? {
      OrderAfterClose(s, step.l, c, t);
    } else if step.Accept? {
      OrderAfterAccept(s, step.owner, step.fd, c, t);
    } else if step.DoPush? {
      OrderAfterPush(s, step.t, c, t);
    } else if step.Send? {
      OrderAfterSend(s, step.t, step.c, step.text, c, t);
    } else {
      MildStep(s, step);
      assert OrderOk(s, c, t);
      OrderElse(s, step, c, t);
    }
  }

  lemma OrderElse(s: Sys, step: Step, c: ConnId, t: ThreadId)
    requires Inv(s) && Enabled(s, step) && c < |s.conns| && t < |s.threads| && Calm(s, Apply(s, step))
    requires !step.RunTask? && !step.CloseEvent? && !step.Accept? && !step.DoPush? && !step.Send?
    ensures OrderOk(Apply(s, step), c, t)
  {
    assert OrderOk(s, c, t);
    NothingSent(s, step, c, t);
    OrderStays(s, Apply(s, step), c, t);
  }

  lemma NothingSent(s: Sys, step: Step, c: ConnId, t: ThreadId)
    requires Enabled(s, step) && c < |s.conns| && t < |s.threads|
    requires !step.RunTask? && !step.CloseEvent? && !step.Accept? && !step.DoPush? && !step.Send?
    ensures var s' := Apply(s, step);
            && |s'.conns| == |s.conns| && |s'.threads| == |s.threads|
            && s'.conns[c].issued == s.conns[c].issued && s'.conns[c].accepted == s.conns[c].accepted
            && InPush(s'.threads[t].op, c) == InPush(s.threads[t].op, c)
  {
  }

  lemma OrderAfterClose(s: Sys, l: LoopId, c: ConnId, t: ThreadId)
    requires Inv(s) && Enabled(s, CloseEvent(l)) && c < |s.conns| && t < |s.threads|
    ensures var s' := Apply(s, CloseEvent(l));
            && |s'.loops| == |s.loops| && |s'.conns| == |s.conns| && |s'.threads| == |s.threads|
            && s'.conns[c].owner == s.conns[c].owner && s.conns[c].owner < |s.loops| && OrderOk(s', c, t)
  {
    CloseEffect(s, l);
    assert OrderOk(s, c, t);
    OrderThroughClose(s, Apply(s, CloseEvent(l)), l, c, t);
  }

  lemma OrderThroughClose(s: Sys, s': Sys, l: LoopId, c: ConnId, t: ThreadId)
    requires Shape(s) && Closes(s, s', l) && c < |s.conns| && t < |s.threads| && OrderOk(s, c, t)
    ensures OrderOk(s', c, t)
  {
    assert Outstanding(s'.loops[s.conns[c].owner]) == Outstanding(s.loops[s.conns[c].owner]);
  }

  lemma OrderAfterAccept(s: Sys, owner: LoopId, fd: Fd, c: ConnId, t: ThreadId)
    requires Inv(s) && Enabled(s, Accept(owner, fd)) && c <= |s.conns| && t < |s.threads|
    requires var s' := Apply(s, Accept(owner, fd));
             Shape(s') && |s'.conns| == |s.conns| + 1 && |s'.threads| == |s.threads|
    ensures OrderOk(Apply(s, Accept(owner, fd)), c, t)
  {
    AcceptEffect(s, owner, fd);
    var s' := Apply(s, Accept(owner, fd));
    if c < |s.conns| {
      assert OrderOk(s, c, t);
      OrderOfOthers(s, s', owner, c, t);
    } else {
      assert QueueOk(s, owner);
      QueuedNone(Outstanding(s.loops[owner]), c, t);
      assert ThreadOk(s, t);
    }
  }

  lemma OrderOfOthers(s: Sys, s': Sys, owner: LoopId, c: ConnId, t: ThreadId)
    requires Shape(s) && Accepts(s, s', owner) && c < |s.conns| && t < |s.threads| && OrderOk(s, c, t)
    ensures OrderOk(s', c, t)
  {
  }

  lemma OrderAfterPush(s: Sys, t': ThreadId, c: ConnId, t: ThreadId)
    requires Inv(s) && Enabled(s, DoPush(t')) && c < |s.conns| && t < |s.threads|
    ensures var s' := Apply(s, DoPush(t'));
            && |s'.loops| == |s.loops| && |s'.conns| == |s.conns| && |s'.threads| == |s.threads|
            && s'.conns[c].owner < |s.loops| && OrderOk(s', c, t)
  {
    assert OrderOk(s, c, t) && ThreadOk(s, t');
    var s' := Apply(s, DoPush(t'));
    var op := s.threads[t'].op;
    var out := Outstanding(s.loops[op.target]);
    assert Outstanding(s'.loops[op.target]) == out + [op.task];
    QueuedConcat(out, [op.task], c, t);
    assert Queued([op.task], c, t) == Carried(op.task, c, t) by {
      assert [op.task][1..] == [];
    }
    InFlightThroughPush(s, s', t', c, t);
  }

  lemma InFlightThroughPush(s: Sys, s': Sys, t': ThreadId, c: ConnId, t: ThreadId)
    requires Shape(s) && c < |s.conns| && t < |s.threads| && t' < |s.threads|
    requires |s'.loops| == |s.loops| && |s'.threads| == |s.threads| && s'.conns == s.conns
    requires s.threads[t'].op.Push? && s.threads[t'].op.target < |s.loops| && !s'.threads[t'].op.Push?
    requires var op := s.threads[t'].op;
             && TaskOk(s, op.target, op.task) && Producer(s, t', op.task)
             && (forall l :: 0 <= l < |s.loops| && l != op.target ==>
                   Outstanding(s'.loops[l]) == Outstanding(s.loops[l]))
             && (forall u :: 0 <= u < |s.threads| && u != t' ==> s'.threads[u].op == s.threads[u].op)
             && Queued(Outstanding(s'.loops[op.target]), c, t)
                == Queued(Outstanding(s.loops[op.target]), c, t) + Carried(op.task, c, t)
    ensures InFlight(s', c, t) == InFlight(s, c, t)
  {
    var op, own := s.threads[t'].op, s.conns[c].owner;
    assert t == t' ==> InPush(s'.threads[t].op, c) == [];
    if own != op.target {
      assert InPush(op, c) == [];
    } else if t == t' {
      assert InPush(op, c) == Carried(op.task, c, t);
    } else {
      assert Carried(op.task, c, t) == [];
    }
  }

  /** A loop's own thread never queues a message to one of its connections. */
  lemma OwnerSendsDirectly(s: Sys, c: ConnId)
    requires Inv(s) && c < |s.conns|
    ensures Queued(Outstanding(s.loops[s.conns[c].owner]), c, s.conns[c].owner) == []
  {
    var l := s.conns[c].owner;
    assert QueueOk(s, l);
    forall i | 0 <= i < |Outstanding(s.loops[l])|
      ensures TaskOk(s, l, Outstanding(s.loops[l])[i])
    {
    }
    QueuedNone(Outstanding(s.loops[l]), c, l);
  }

  lemma SendEffect(s: Sys, t: ThreadId, c: ConnId, text: string)
    requires Enabled(s, Send(t, c, text))
    ensures Apply(s, Send(t, c, text)) == SendTo(s, t, c, Message(t, text))
  {
  }

  lemma OrderAfterSend(s: Sys, t': ThreadId, c': ConnId, text: string, c: ConnId, t: ThreadId)
    requires Inv(s) && Enabled(s, Send(t', c', text)) && c < |s.conns| && t < |s.threads|
    requires var s' := Apply(s, Send(t', c', text));
             |s'.conns| == |s.conns| && |s'.threads| == |s.threads| && Shape(s')
    ensures OrderOk(Apply(s, Send(t', c', text)), c, t)
  {
    assert OrderOk(s, c, t);
    OwnerSendsDirectly(s, c');
    SendEffect(s, t', c', text);
    OrderThroughSend(s, t', c', Message(t', text), c, t);
  }

  lemma OrderThroughSend(s: Sys, t': ThreadId, c': ConnId, m: Message, c: ConnId, t: ThreadId)
    requires Shape(s) && t' < |s.threads| && s.threads[t'].op == Idle && c' < |s.conns| && m.from == t'
    requires c < |s.conns| && t < |s.threads| && OrderOk(s, c, t)
    requires t' == s.conns[c'].owner ==> Queued(Outstanding(s.loops[t']), c', t') == []
    ensures OrderOk(SendTo(s, t', c', m), c, t)
  {
    if c == c' {
      OrderThroughOwnSend(s, m, c, t);
    } else {
      var s' := SendTo(s, t', c', m);
      assert s'.loops == s.loops;
      assert s'.conns[c] == s.conns[c] && InFlight(s', c, t) == InFlight(s, c, t);
    }
  }

  lemma OrderThroughOwnSend(s: Sys, m: Message, c: ConnId, t: ThreadId)
    requires Shape(s) && m.from < |s.threads| && s.threads[m.from].op == Idle
    requires c < |s.conns| && t < |s.threads| && OrderOk(s, c, t)
    requires m.from == s.conns[c].owner ==> Queued(Outstanding(s.loops[m.from]), c, m.from) == []
    ensures OrderOk(SendTo(s, m.from, c, m), c, t)
  {
    var k := s.conns[c];
    var more := if m.from == t then [m] else [];
    FromAppend(k.issued, m, t);
    FromAppend(k.accepted, m, t);
    InFlightThroughSend(s, m, c, t);
    if k.state == Connected {
      OneMore(From(k.accepted, t), InFlight(s, c, t), From(k.issued, t), more, m.from == k.owner);
    }
  }

  lemma InFlightThroughSend(s: Sys, m: Message, c: ConnId, t: ThreadId)
    requires Shape(s) && m.from < |s.threads| && s.threads[m.from].op == Idle && c < |s.conns| && t < |s.threads|
    ensures var s', k := SendTo(s, m.from, c, m), s.conns[c];
            && |s'.loops| == |s.loops| && |s'.conns| == |s.conns| && |s'.threads| == |s.threads|
            && s'.conns[c].owner == k.owner
            && InFlight(s', c, t)
               == InFlight(s, c, t) + if t == m.from && k.state == Connected && t != k.owner then [m] else []
  {
    assert SendTo(s, m.from, c, m).loops == s.loops;
  }

  /** Accepted and in flight make up the issued: one more message joins either of the two. */
  lemma OneMore(accepted: seq<Message>, flight: seq<Message>, issued: seq<Message>, more: seq<Message>, direct: bool)
    requires accepted + flight == issued && (direct && more != [] ==> flight == [])
    ensures if direct then (accepted + more) + flight == issued + more && accepted + more <= issued + more
            else accepted + (flight + more) == issued + more && accepted <= issued + more
  {
  }

  lemma OrderAfterTask(s: Sys, l: LoopId, c: ConnId, t: ThreadId)
    requires Inv(s) && Enabled(s, RunTask(l)) && c < |s.conns| && t < |s.threads|
    ensures var s' := Apply(s, RunTask(l));
            && |s'.loops| == |s.loops| && |s'.conns| == |s.conns| && |s'.threads| == |s.threads|
            && s'.conns[c].owner == s.conns[c].owner && s.conns[c].owner < |s.loops| && OrderOk(s', c, t)
  {
    RunEffect(s, l);
    HeadCounts(s, l);
    assert OrderOk(s, c, t) && CustodyOk(s, c);
    OrderThroughTask(s, Apply(s, RunTask(l)), l, c, t);
  }

  lemma OrderThroughTask(s: Sys, s': Sys, l: LoopId, c: ConnId, t: ThreadId)
    requires Shape(s) && Runs(s, s', l) && c < |s.conns| && t < |s.threads| && OrderOk(s, c, t)
    requires s.loops[l].batch[0] == Establish(c) ==> s.conns[c].state == Connecting
    ensures s'.conns[c].owner == s.conns[c].owner && OrderOk(s', c, t)
  {
    var head := s.loops[l].batch[0];
    if l != s.conns[c].owner {
      OrderElsewhere(s, s', l, c, t);
    } else {
      if head.Deliver? && head.c == c {
        OrderThroughDelivery(s, s', c, t);
      } else {
        InFlightThroughOther(s, s', c, t);
        SameMessages(s, s', l, c);
        OrderUnmoved(s, s', c, t);
      }
    }
  }

  lemma InFlightThroughOther(s: Sys, s': Sys, c: ConnId, t: ThreadId)
    requires Shape(s) && c < |s.conns| && t < |s.threads| && Runs(s, s', s.conns[c].owner)
    requires var head := s.loops[s.conns[c].owner].batch[0]; !(head.Deliver? && head.c == c)
    ensures s'.conns[c].owner == s.conns[c].owner && |s'.threads| == |s.threads|
    ensures InFlight(s', c, t) == InFlight(s, c, t)
  {
    var l := s.conns[c].owner;
    assert Outstanding(s.loops[l]) == [s.loops[l].batch[0]] + Outstanding(s'.loops[l]);
    QueuedHead(s.loops[l].batch[0], Outstanding(s'.loops[l]), c, t);
    assert InPush(s'.threads[t].op, c) == InPush(s.threads[t].op, c);
  }

  /** A task other than a delivery takes no message, and moves a connection forward. */
  lemma SameMessages(s: Sys, s': Sys, l: LoopId, c: ConnId)
    requires Runs(s, s', l) && c < |s.conns|
    requires !(s.loops[l].batch[0].Deliver? && s.loops[l].batch[0].c == c)
    requires s.loops[l].batch[0] == Establish(c) ==> s.conns[c].state == Connecting
    ensures s'.conns[c].issued == s.conns[c].issued && s'.conns[c].accepted == s.conns[c].accepted
    ensures s'.conns[c].state == s.conns[c].state || s'.conns[c].state == Disconnected
            || (s.conns[c].state == Connecting && s'.conns[c].state == Connected)
  {
  }

  lemma OrderUnmoved(s: Sys, s': Sys, c: ConnId, t: ThreadId)
    requires c < |s.conns| == |s'.conns| && t < |s.threads| == |s'.threads|
    requires s.conns[c].owner == s'.conns[c].owner < |s.loops| == |s'.loops|
    requires OrderOk(s, c, t) && InFlight(s', c, t) == InFlight(s, c, t)
    requires s'.conns[c].issued == s.conns[c].issued && s'.conns[c].accepted == s.conns[c].accepted
    requires s'.conns[c].state == s.conns[c].state || s'.conns[c].state == Disconnected
             || (s.conns[c].state == Connecting && s'.conns[c].state == Connected)
    ensures OrderOk(s', c, t)
  {
  }

  lemma OrderElsewhere(s: Sys, s': Sys, l: LoopId, c: ConnId, t: ThreadId)
    requires Shape(s) && Runs(s, s', l) && c < |s.conns| && t < |s.threads| && OrderOk(s, c, t)
    requires l != s.conns[c].owner
    ensures s'.conns[c].owner == s.conns[c].owner && OrderOk(s', c, t)
  {
    assert s'.conns[c] == s.conns[c] && InFlight(s', c, t) == InFlight(s, c, t);
  }

  /** The oldest message in flight reaches sendInLoop: taken when connected, lost otherwise. */
  lemma OrderThroughDelivery(s: Sys, s': Sys, c: ConnId, t: ThreadId)
    requires Shape(s) && c < |s.conns| && t < |s.threads| && OrderOk(s, c, t)
    requires Runs(s, s', s.conns[c].owner)
    requires var head := s.loops[s.conns[c].owner].batch[0]; head.Deliver? && head.c == c
    ensures s'.conns[c].owner == s.conns[c].owner && OrderOk(s', c, t)
  {
    var l, k := s.conns[c].owner, s.conns[c];
    var msg := s.loops[l].batch[0].msg;
    InFlightThroughDelivery(s, s', c, t);
    FromAppend(k.accepted, msg, t);
    Associative(From(k.accepted, t), Carried(s.loops[l].batch[0], c, t), InFlight(s', c, t));
  }

  lemma InFlightThroughDelivery(s: Sys, s': Sys, c: ConnId, t: ThreadId)
    requires Shape(s) && c < |s.conns| && t < |s.threads| && Runs(s, s', s.conns[c].owner)
    requires var head := s.loops[s.conns[c].owner].batch[0]; head.Deliver? && head.c == c
    ensures s'.conns[c].owner == s.conns[c].owner && |s'.threads| == |s.threads|
    ensures InFlight(s, c, t) == Carried(s.loops[s.conns[c].owner].batch[0], c, t) + InFlight(s', c, t)
  {
    var l := s.conns[c].owner;
    assert Outstanding(s.loops[l]) == [s.loops[l].batch[0]] + Outstanding(s'.loops[l]);
    QueuedHead(s.loops[l].batch[0], Outstanding(s'.loops[l]), c, t);
    Associative(Carried(s.loops[l].batch[0], c, t), Queued(Outstanding(s'.loops[l]), c, t), InPush(s.threads[t].op, c));
  }

  // ----- The whole invariant, over every step and every run

  lemma InvKept(s: Sys, step: Step)
    requires Inv(s) && Enabled(s, step)
    ensures Inv(Apply(s, step))
  {
    var s' := Apply(s, step);
    ShapeKept(s, step);
    StepGrows(s, step);
    forall t | 0 <= t < |s'.threads| ensures ThreadOk(s', t) {
      ThreadKept(s, step, t);
    }
    forall l | 0 <= l < |s'.loops| ensures QueueOk(s', l) && WakeOk(s', l) && PollerOk(s', l) && ActiveOk(s', l) {
      QueueKept(s, step, l);
      WakeKept(s, step, l);
      PollerKept(s, step, l);
      ActiveKept(s, step, l);
    }
    forall c | 0 <= c < |s'.conns| ensures CustodyOk(s', c) && ListedOk(s', c) {
      CustodyKept(s, step, c);
      ListedKept(s, step, c);
    }
    forall c, t | 0 <= c < |s'.conns| && 0 <= t < |s'.threads| ensures OrderOk(s', c, t) {
      OrderKept(s, step, c, t);
    }
  }

  lemma InitInv(s: Sys)
    requires Init(s)
    ensures Inv(s)
  {
  }

  lemma {:induction false} RunInv(tr: seq<Sys>, i: nat)
    requires Run(tr) && i < |tr|
    ensures Inv(tr[i])
  {
    if i == 0 {
      InitInv(tr[0]);
    } else {
      RunInv(tr, i - 1);
      assert Moves(tr, i - 1);
      var step :| Enabled(tr[i - 1], step) && tr[i] == Apply(tr[i - 1], step);
      InvKept(tr[i - 1], step);
    }
  }
}
