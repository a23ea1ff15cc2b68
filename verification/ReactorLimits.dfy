/** Where the reactor promises less than it seems to: the runs that show it, and the exact
    conditions. */
module ReactorLimits {
  import opened Basics
  import opened Poller
  import opened Reactor
  import opened ReactorInvariant
  import opened ReactorTheorems
  import opened States

  // ----- Runs, step by step

  function Last(tr: seq<Sys>): Sys
    requires tr != []
  {
    tr[|tr| - 1]
  }

  lemma Extend(tr: seq<Sys>, step: Step) returns (tr': seq<Sys>)
    requires Run(tr) && Enabled(Last(tr), step)
    ensures Run(tr') && Last(tr') == Apply(Last(tr), step)
  {
    tr' := tr + [Apply(Last(tr), step)];
    assert Next(Last(tr), Apply(Last(tr), step));
    forall i | 0 <= i < |tr'| - 1
      ensures Moves(tr', i)
    {
      if i < |tr| - 1 {
        assert Moves(tr, i) && tr'[i + 1] == tr[i + 1];
      }
    }
  }

  const IDLE := Thread(Idle, {}, None)
  const FRESH := Loop(Fresh, [], [], [], [], 0, false, [], map[], map[], false, false)
  const UP := Conn(BASE, 5, Connected, false, false, [], [])
  const ACCEPTED := FRESH.(phase := Dispatching, channels := map[5 := 0], interest := map[5 := 0])

  /** The base loop has accepted one connection and keeps it; the other loop has not started. */
  lemma OneConnection() returns (tr: seq<Sys>)
    ensures Run(tr)
    ensures Last(tr) == Sys([ACCEPTED, FRESH], [IDLE, IDLE], [UP], {0})
  {
    tr := [Sys([FRESH, FRESH], [IDLE, IDLE], [], {})];
    tr := Extend(tr, EnterLoop(BASE));
    assert Last(tr).loops == [FRESH.(phase := Top), FRESH];
    tr := Extend(tr, CheckQuit(BASE));
    assert Last(tr).loops == [FRESH.(phase := Polling), FRESH];
    tr := Extend(tr, PollReturns(BASE, []));
    assert Last(tr).loops == [FRESH.(phase := Dispatching), FRESH];
    tr := Extend(tr, Accept(BASE, 5));
    assert Last(tr).loops == [ACCEPTED, FRESH] && Last(tr).table == {0};
  }

  const CHECKING := [IDLE, Thread(Idle, {0}, Some(0))]

  /** The base loop goes round and polls its connection. */
  lemma NextRound(before: seq<Sys>, threads: seq<Thread>) returns (tr: seq<Sys>)
    requires Run(before) && Last(before) == Sys([ACCEPTED, FRESH], threads, [UP], {0})
    requires |threads| == 2 && threads[0] == IDLE
    ensures Run(tr) && Last(tr) == Sys([ACCEPTED.(active := [0]), FRESH], threads, [UP], {0})
  {
    tr := Extend(before, Swap(BASE));
    assert Last(tr).loops == [ACCEPTED.(phase := Running), FRESH];
    tr := Extend(tr, EndBatch(BASE));
    assert Last(tr).loops == [ACCEPTED.(phase := Top), FRESH];
    tr := Extend(tr, CheckQuit(BASE));
    assert Last(tr).loops == [ACCEPTED.(phase := Polling), FRESH] && Last(tr).threads[0] == IDLE;
    tr := Extend(tr, PollReturns(BASE, [0]));
    assert Last(tr).loops == [ACCEPTED.(active := [0]), FRESH];
  }

  // ----- Order across senders

  /** No message for `c` waits on its loop, and no thread is about to push one there. */
  ghost predicate NoneInFlight(s: Sys, c: ConnId)
    requires c < |s.conns| && s.conns[c].owner < |s.loops|
  {
    var l := s.conns[c].owner;
    && (forall i :: 0 <= i < |Outstanding(s.loops[l])| ==> !CarriesMessage(Outstanding(s.loops[l])[i], c))
    && (forall t :: 0 <= t < |s.threads| ==> !(s.threads[t].op.Push? && CarriesMessage(s.threads[t].op.task, c)))
  }

  predicate CarriesMessage(task: Task, c: ConnId) {
    task.Deliver? && task.c == c
  }

  /** Everything ever sent, or accepted, came from a thread that exists. */
  ghost predicate IssuersExist(s: Sys) {
    && (forall c, i :: 0 <= c < |s.conns| && 0 <= i < |s.conns[c].issued| ==>
          s.conns[c].issued[i].from < |s.threads|)
    && (forall c, i :: 0 <= c < |s.conns| && 0 <= i < |s.conns[c].accepted| ==>
          s.conns[c].accepted[i].from < |s.threads|)
  }

  lemma StepIssues(s: Sys, step: Step)
    requires Inv(s) && Enabled(s, step) && IssuersExist(s)
    ensures IssuersExist(Apply(s, step))
  {
    if step.RunTask? {
      RunEffect(s, step.l);
      TaskIssues(s, Apply(s, step), step.l);
    } else if step.CloseEvent? {
      CloseEffect(s, step.l);
    } else if step.Send? {
      SendIssues(s, step.t, step.c, Message(step.t, step.text));
    } else if step.Accept? {
      AcceptIssues(s, step.owner, step.fd);
    } else {
      NothingIssued(s, step);
    }
  }

  lemma SendIssues(s: Sys, t: ThreadId, c: ConnId, msg: Message)
    requires IssuersExist(s) && t < |s.threads| && c < |s.conns| && msg.from == t
    ensures IssuersExist(SendTo(s, t, c, msg))
  {
  }

  lemma AcceptIssues(s: Sys, owner: LoopId, fd: Fd)
    requires IssuersExist(s) && Enabled(s, Accept(owner, fd))
    ensures IssuersExist(Apply(s, Accept(owner, fd)))
  {
  }

  lemma NothingIssued(s: Sys, step: Step)
    requires Enabled(s, step) && !step.RunTask? && !step.CloseEvent? && !step.Send? && !step.Accept?
    ensures var s' := Apply(s, step);
            && |s'.conns| == |s.conns| && |s'.threads| == |s.threads|
            && forall c :: 0 <= c < |s.conns| ==>
                 s'.conns[c].issued == s.conns[c].issued && s'.conns[c].accepted == s.conns[c].accepted
  {
  }

  lemma TaskIssues(s: Sys, s': Sys, l: LoopId)
    requires Runs(s, s', l) && IssuersExist(s)
    ensures IssuersExist(s')
  {
  }

  lemma {:induction false} RunIssues(tr: seq<Sys>, i: nat)
    requires Run(tr) && i < |tr|
    ensures IssuersExist(tr[i])
  {
    if i > 0 {
      RunIssues(tr, i - 1);
      RunInv(tr, i - 1);
      assert Moves(tr, i - 1);
      var step :| Enabled(tr[i - 1], step) && tr[i] == Apply(tr[i - 1], step);
      StepIssues(tr[i - 1], step);
    }
  }

  lemma {:induction false} QueuedSome(tasks: seq<Task>, c: ConnId, t: ThreadId)
    ensures Queued(tasks, c, t) == [] <==>
              forall i :: 0 <= i < |tasks| && CarriesMessage(tasks[i], c) ==> tasks[i].msg.from != t
  {
    if tasks != [] {
      QueuedSome(tasks[1..], c, t);
      assert forall i :: 0 < i < |tasks| ==> tasks[i] == tasks[1..][i - 1];
    }
  }

  /** Nothing waits in the state exactly when, thread by thread, nothing is in flight. */
  lemma NoneInFlightMeans(s: Sys, c: ConnId)
    requires Inv(s) && c < |s.conns|
    ensures s.conns[c].owner < |s.loops|
    ensures NoneInFlight(s, c) <==> forall t :: 0 <= t < |s.threads| ==> InFlight(s, c, t) == []
  {
    var l := s.conns[c].owner;
    var tasks := Outstanding(s.loops[l]);
    assert QueueOk(s, l);
    forall t | 0 <= t < |s.threads|
      ensures Queued(tasks, c, t) == [] <==>
                forall i :: 0 <= i < |tasks| && CarriesMessage(tasks[i], c) ==> tasks[i].msg.from != t
    {
      QueuedSome(tasks, c, t);
    }
    if forall t :: 0 <= t < |s.threads| ==> InFlight(s, c, t) == [] {
      forall i | 0 <= i < |tasks|
        ensures !CarriesMessage(tasks[i], c)
      {
        assert TaskOk(s, l, tasks[i]);
        assert CarriesMessage(tasks[i], c) ==> InFlight(s, c, tasks[i].msg.from) == [];
      }
      assert forall t :: 0 <= t < |s.threads| ==> InFlight(s, c, t) == [] ==> InPush(s.threads[t].op, c) == [];
    }
  }

  lemma {:induction false} FromCount(ms: seq<Message>, m: Message, t: ThreadId)
    ensures multiset(From(ms, t))[m] == if m.from == t then multiset(ms)[m] else 0
  {
    if ms != [] {
      var n := |ms| - 1;
      assert ms == ms[..n] + [ms[n]];
      FromCount(ms[..n], m, t);
    }
  }

  /** The same messages, in any order, are as many from every thread. */
  lemma SameFromEach(a: seq<Message>, b: seq<Message>, t: ThreadId)
    requires multiset(a) == multiset(b)
    ensures |From(a, t)| == |From(b, t)|
  {
    forall m ensures multiset(From(a, t))[m] == multiset(From(b, t))[m] {
      FromCount(a, m, t);
      FromCount(b, m, t);
    }
    assert multiset(From(a, t)) == multiset(From(b, t));
    assert |multiset(From(a, t))| == |From(a, t)| && |multiset(From(b, t))| == |From(b, t)|;
  }

  lemma SameFromAll(a: seq<Message>, b: seq<Message>, threads: nat)
    requires forall t :: 0 <= t < threads ==> From(a, t) == From(b, t)
    requires forall m :: m in a || m in b ==> m.from < threads
    ensures multiset(a) == multiset(b)
  {
    forall m ensures multiset(a)[m] == multiset(b)[m] {
      FromCount(a, m, m.from);
      FromCount(b, m, m.from);
      assert m.from >= threads ==> m !in a && m !in b;
    }
  }

  /** All that was sent has been accepted, in whatever order, exactly when nothing waits. */
  lemma AllAccepted(tr: seq<Sys>, i: nat, c: ConnId)
    requires Run(tr) && i < |tr| && c < |tr[i].conns| && tr[i].conns[c].state == Connected
    ensures tr[i].conns[c].owner < |tr[i].loops|
    ensures multiset(tr[i].conns[c].accepted) == multiset(tr[i].conns[c].issued) <==> NoneInFlight(tr[i], c)
  {
    var s, k := tr[i], tr[i].conns[c];
    RunInv(tr, i);
    RunIssues(tr, i);
    NoneInFlightMeans(s, c);
    assert forall t :: 0 <= t < |s.threads| ==> OrderOk(s, c, t);
    if multiset(k.accepted) == multiset(k.issued) {
      forall t | 0 <= t < |s.threads|
        ensures InFlight(s, c, t) == []
      {
        assert OrderOk(s, c, t);
        SameFromEach(k.accepted, k.issued, t);
      }
    }
    if NoneInFlight(s, c) {
      forall t | 0 <= t < |s.threads|
        ensures From(k.accepted, t) == From(k.issued, t)
      {
        assert OrderOk(s, c, t) && InFlight(s, c, t) == [];
      }
      SameFromAll(k.accepted, k.issued, |s.threads|);
    }
  }

  /** What follows an initial part that holds all the messages of a thread is not from it. */
  lemma {:induction false} FromTail(a: seq<Message>, b: seq<Message>, t: ThreadId)
    requires a <= b && From(a, t) == From(b, t)
    ensures forall i :: |a| <= i < |b| ==> b[i].from != t
    decreases |b|
  {
    if |a| < |b| {
      FromPrefix(a, b[..|b| - 1], t);
      FromTail(a, b[..|b| - 1], t);
    }
  }

  /** Across senders there is no order of issue: when the owner sends to its own connection, the
      messages are still accepted in the order in which they were sent if and only if no message
      for it waits on the loop and no thread is about to push one.  Any that waits is overtaken. */
  lemma OvertakesWhenInFlight(tr: seq<Sys>, i: nat, c: ConnId, text: string)
    requires Run(tr) && i < |tr| && c < |tr[i].conns|
    requires Enabled(tr[i], Send(tr[i].conns[c].owner, c, text))
    requires tr[i].conns[c].state == Connected && tr[i].conns[c].accepted <= tr[i].conns[c].issued
    ensures var s' := Apply(tr[i], Send(tr[i].conns[c].owner, c, text));
            && c < |s'.conns| && tr[i].conns[c].owner < |tr[i].loops|
            && (s'.conns[c].accepted <= s'.conns[c].issued <==> NoneInFlight(tr[i], c))
  {
    var s, k, t := tr[i], tr[i].conns[c], tr[i].conns[c].owner;
    AllAccepted(tr, i, c);
    assert |multiset(k.accepted)| == |k.accepted| && |multiset(k.issued)| == |k.issued|;
    RunInv(tr, i);
    assert OrderOk(s, c, t);
    OwnerSendsDirectly(s, c);
    assert From(k.accepted, t) == From(k.issued, t);
    var m := Message(t, text);
    if k.accepted != k.issued {
      FromTail(k.accepted, k.issued, t);
      assert (k.accepted + [m])[|k.accepted|] == m;
      assert (k.issued + [m])[|k.accepted|] == k.issued[|k.accepted|];
    }
  }

  /** The owner and another thread both hold the connection. */
  lemma BothHold() returns (tr: seq<Sys>)
    ensures Run(tr) && Last(tr).loops == [ACCEPTED, FRESH] && Last(tr).conns == [UP]
    ensures Last(tr).threads == [IDLE.(holds := {0}), IDLE.(holds := {0})]
  {
    tr := OneConnection();
    assert {} + {0} == {0};
    tr := Extend(tr, Acquire(1, 0));
    assert Last(tr).threads == [IDLE, IDLE.(holds := {0})];
    tr := Extend(tr, Acquire(0, 0));
    assert Last(tr).threads == [IDLE.(holds := {0}), IDLE.(holds := {0})];
  }

  /** The witness: another thread sends and pushes, then the owner sends, and is accepted first. */
  lemma Overtaking() returns (tr: seq<Sys>)
    ensures Run(tr) && Last(tr).conns != []
    ensures var k := Last(tr).conns[0];
            && k.state == Connected && k.issued == [Message(1, "first"), Message(0, "second")]
            && k.accepted == [Message(0, "second")]
  {
    tr := BothHold();
    tr := Extend(tr, Send(1, 0, "first"));
    assert Last(tr).threads[1].op == Push(0, Deliver(0, Message(1, "first")));
    tr := Extend(tr, DoPush(1));
    assert Last(tr).conns[0].issued == [Message(1, "first")] && Last(tr).threads[0] == IDLE.(holds := {0});
    tr := Extend(tr, Send(0, 0, "second"));
  }

  // ----- Closing again

  /** An event closes the connection of its channel when it is down already: a hang-up that still had
      the end of the stream to read. */
  ghost predicate Recloses(s: Sys, s': Sys, l: LoopId) {
    && AtPhase(s, l, Dispatching) && s.loops[l].active != [] && s.loops[l].active[0] < |s.conns|
    && s.conns[s.loops[l].active[0]].state == Disconnected
    && s' == Close(s, l, s.loops[l].active[0])
  }

  ghost predicate ReclosesSome(s: Sys, s': Sys) {
    exists l :: Recloses(s, s', l)
  }

  ghost predicate ReclosesAt(tr: seq<Sys>, i: nat)
    requires i + 1 < |tr|
  {
    ReclosesSome(tr[i], tr[i + 1])
  }

  ghost predicate UnruledMoves(tr: seq<Sys>, i: nat)
    requires i + 1 < |tr|
  {
    Next(tr[i], tr[i + 1]) || ReclosesAt(tr, i)
  }

  /** A run in which events may close connections again. */
  ghost predicate UnruledRun(tr: seq<Sys>) {
    tr != [] && Init(tr[0]) && forall i :: 0 <= i < |tr| - 1 ==> UnruledMoves(tr, i)
  }

  /** How many hand-overs of a connection to its clean-up are under way. */
  function HandOvers(s: Sys, c: ConnId): nat
    requires c < |s.conns| && s.conns[c].owner < |s.loops| <= |s.threads|
  {
    Copies(s, s.conns[c].owner, BASE, Unlist(c)) + Copies(s, BASE, s.conns[c].owner, Destroy(c))
  }

  ghost predicate HandedOverOnce(s: Sys) {
    && 0 < |s.loops| <= |s.threads|
    && forall c :: 0 <= c < |s.conns| ==> s.conns[c].owner < |s.loops| && HandOvers(s, c) <= 1
  }

  ghost predicate OnceTo(tr: seq<Sys>, n: nat)
    requires n < |tr|
  {
    forall i :: 0 <= i <= n ==> HandedOverOnce(tr[i])
  }

  ghost predicate NoneRecloses(tr: seq<Sys>, n: nat)
    requires n < |tr|
  {
    forall i :: 0 <= i < n ==> !ReclosesAt(tr, i)
  }

  lemma NotAgainIsRun(tr: seq<Sys>, n: nat)
    requires UnruledRun(tr) && n < |tr| && NoneRecloses(tr, n)
    ensures Run(tr[..n + 1])
  {
    var run := tr[..n + 1];
    forall i | 0 <= i < n
      ensures Moves(run, i)
    {
      assert UnruledMoves(tr, i) && !ReclosesAt(tr, i);
    }
  }

  lemma InvHandsOverOnce(s: Sys)
    requires Inv(s)
    ensures HandedOverOnce(s)
  {
    forall c | 0 <= c < |s.conns|
      ensures HandOvers(s, c) <= 1
    {
      assert CustodyOk(s, c);
    }
  }

  lemma RecloseHandsOverTwice(s: Sys, s': Sys, l: LoopId)
    requires Inv(s) && Recloses(s, s', l)
    ensures !HandedOverOnce(s')
  {
    var c := s.loops[l].active[0];
    assert ActiveOk(s, l) && CustodyOk(s, c);
    assert s'.conns[c].owner == l && HandOvers(s, c) == 1;
    CopiesOnSameQueue(s, s', l, BASE, Unlist(c));
    CopiesOnSameQueue(s, s', BASE, l, Destroy(c));
  }

  /** Over any run, second closes included, every connection is handed to its clean-up at most once at
      a time if and only if no event closes a connection that is down already.  Up to there the run is
      one of those the promises speak of. */
  lemma {:induction false} HandedOverOnceExactly(tr: seq<Sys>, n: nat)
    requires UnruledRun(tr) && n < |tr|
    ensures OnceTo(tr, n) <==> NoneRecloses(tr, n)
    ensures NoneRecloses(tr, n) ==> Run(tr[..n + 1])
  {
    if NoneRecloses(tr, n) {
      NotAgainIsRun(tr, n);
      forall i | 0 <= i <= n
        ensures HandedOverOnce(tr[i])
      {
        RunInv(tr[..n + 1], i);
        InvHandsOverOnce(tr[i]);
      }
    } else if NoneRecloses(tr, n - 1) {
      NotAgainIsRun(tr, n - 1);
      RunInv(tr[..n], n - 1);
      var l :| Recloses(tr[n - 1], tr[n], l);
      RecloseHandsOverTwice(tr[n - 1], tr[n], l);
    } else {
      HandedOverOnceExactly(tr, n - 1);
    }
  }

  lemma Onward(tr: seq<Sys>, s: Sys) returns (tr': seq<Sys>)
    requires UnruledRun(tr) && (Next(Last(tr), s) || ReclosesSome(Last(tr), s))
    ensures UnruledRun(tr') && tr' == tr + [s]
  {
    tr' := tr + [s];
    forall i | 0 <= i < |tr'| - 1
      ensures UnruledMoves(tr', i)
    {
      if i < |tr| - 1 {
        assert UnruledMoves(tr, i) && tr'[i] == tr[i] && tr'[i + 1] == tr[i + 1];
      }
    }
  }

  lemma Onwards(tr: seq<Sys>, step: Step) returns (tr': seq<Sys>)
    requires UnruledRun(tr) && Enabled(Last(tr), step)
    ensures UnruledRun(tr') && tr' == tr + [Apply(Last(tr), step)]
  {
    assert Next(Last(tr), Apply(Last(tr), step));
    tr' := Onward(tr, Apply(Last(tr), step));
  }

  const DOWN := UP.(state := Disconnected)
  const PUSHING := [IDLE.(op := Push(BASE, Destroy(0))), IDLE]

  function Queueing(tasks: seq<Task>): Loop {
    ACCEPTED.(active := [0], interest := map[], pending := tasks, queued := tasks)
  }

  lemma ClosedOnBase(s: Sys)
    requires s == Sys([ACCEPTED.(active := [0]), FRESH], [IDLE, IDLE], [UP], {0})
    ensures Enabled(s, CloseEvent(BASE))
    ensures Apply(s, CloseEvent(BASE)) == Sys([Queueing([]), FRESH], PUSHING, [DOWN], {})
  {
    var d := Apply(s, CloseEvent(BASE));
    assert ACCEPTED.interest - {5} == map[] && {0} - {0} == {};
    assert d.loops[0] == Queueing([]) && d.loops == [Queueing([]), FRESH];
    assert d.threads == PUSHING && d.conns == [DOWN];
  }

  lemma PushedOnBase(s: Sys, tasks: seq<Task>)
    requires s == Sys([Queueing(tasks), FRESH], PUSHING, [DOWN], {})
    ensures Enabled(s, DoPush(BASE))
    ensures Apply(s, DoPush(BASE)) == Sys([Queueing(tasks + [Destroy(0)]), FRESH], [IDLE, IDLE], [DOWN], {})
  {
    var d := Apply(s, DoPush(BASE));
    assert d.loops[0] == Queueing(tasks + [Destroy(0)]) && d.threads[0] == IDLE;
    assert d.loops == [Queueing(tasks + [Destroy(0)]), FRESH] && d.threads == [IDLE, IDLE];
  }

  /** The connection has closed, and its clean-up is queued. */
  lemma ClosedAndQueued() returns (tr: seq<Sys>)
    ensures UnruledRun(tr) && Last(tr) == Sys([Queueing([Destroy(0)]), FRESH], [IDLE, IDLE], [DOWN], {})
  {
    tr := OneConnection();
    tr := NextRound(tr, [IDLE, IDLE]);
    ClosedOnBase(Last(tr));
    tr := Extend(tr, CloseEvent(BASE));
    PushedOnBase(Last(tr), []);
    assert [] + [Destroy(0)] == [Destroy(0)];
    tr := Extend(tr, DoPush(BASE));
    assert forall i :: 0 <= i < |tr| - 1 ==> Moves(tr, i) ==> UnruledMoves(tr, i);
  }

  /** It closes again within the same event, and a second clean-up is queued. */
  lemma ClosedAgain() returns (tr: seq<Sys>)
    ensures UnruledRun(tr)
    ensures Last(tr) == Sys([Queueing([Destroy(0), Destroy(0)]), FRESH], [IDLE, IDLE], [DOWN], {})
  {
    tr := ClosedAndQueued();
    var s := Close(Last(tr), BASE, 0);
    assert Recloses(Last(tr), s, BASE);
    tr := Onward(tr, s);
    assert s == Sys([Queueing([Destroy(0)]), FRESH], PUSHING, [DOWN], {}) by {
      var none: map<Fd, ConnId> := map[];
      assert none - {5} == map[];
      assert s.conns == [DOWN] && s.threads == PUSHING && s.loops == [Queueing([Destroy(0)]), FRESH];
    }
    PushedOnBase(s, [Destroy(0)]);
    tr := Onwards(tr, DoPush(BASE));
    assert [Destroy(0)] + [Destroy(0)] == [Destroy(0), Destroy(0)];
  }

  lemma TwoToRun() returns (tr: seq<Sys>)
    ensures UnruledRun(tr) && |Last(tr).loops| == 2 && Last(tr).threads == [IDLE, IDLE] && Last(tr).conns == [DOWN]
    ensures Last(tr).loops[0].phase == Running && Last(tr).loops[0].batch == [Destroy(0), Destroy(0)]
  {
    tr := ClosedAgain();
    tr := Onwards(tr, EndEvent(BASE));
    assert Last(tr).loops[0] == Queueing([Destroy(0), Destroy(0)]).(active := []);
    tr := Onwards(tr, Swap(BASE));
  }

  /** The witness: the clean-up of a connection that closed twice in one event runs twice. */
  lemma DestroyedTwice() returns (tr: seq<Sys>)
    ensures UnruledRun(tr) && |tr| > 2
    ensures Destroying(tr[|tr| - 3], tr[|tr| - 2], BASE, 0) && Destroying(tr[|tr| - 2], tr[|tr| - 1], BASE, 0)
  {
    tr := TwoToRun();
    var n := |tr|;
    tr := Onwards(tr, RunTask(BASE));
    assert Last(tr).loops[0].batch == [Destroy(0)] && Last(tr).loops[0].phase == Running;
    assert Last(tr).threads == [IDLE, IDLE] && |Last(tr).conns| == 1;
    tr := Onwards(tr, RunTask(BASE));
    assert tr[n - 1].loops[0].batch[0] == Destroy(0) && tr[n].loops[0].batch[0] == Destroy(0);
  }

  // ----- A whole life, and the descriptor used again

  const CLEANING := FRESH.(phase := Running, channels := map[5 := 0], batch := [Destroy(0)], queued := [Destroy(0)])

  /** The connection has closed while another thread held it; its clean-up is the loop's next task. */
  lemma ClosedWhileHeld() returns (tr: seq<Sys>)
    ensures Run(tr) && |Last(tr).loops| == 2 && Last(tr).conns == [DOWN] && Last(tr).table == {}
    ensures Last(tr).threads == [IDLE, IDLE.(holds := {0})]
    ensures Last(tr).loops[0] == CLEANING && Last(tr).loops[1] == FRESH
  {
    tr := OneConnection();
    assert {} + {0} == {0};
    tr := Extend(tr, Acquire(1, 0));
    assert Last(tr).threads == [IDLE, IDLE.(holds := {0})];
    tr := NextRound(tr, [IDLE, IDLE.(holds := {0})]);
    tr := Extend(tr, CloseEvent(BASE));
    assert ACCEPTED.interest - {5} == map[] && {0} - {0} == {};
    assert Last(tr).loops == [Queueing([]), FRESH] && Last(tr).conns == [DOWN];
    assert Last(tr).threads == [IDLE.(op := Push(BASE, Destroy(0))), IDLE.(holds := {0})];
    tr := QueuedAndSwapped(tr);
  }

  lemma QueuedAndSwapped(before: seq<Sys>) returns (tr: seq<Sys>)
    requires Run(before) && Last(before).loops == [Queueing([]), FRESH] && Last(before).table == {}
    requires Last(before).conns == [DOWN]
    requires Last(before).threads == [IDLE.(op := Push(BASE, Destroy(0))), IDLE.(holds := {0})]
    ensures Run(tr) && |Last(tr).loops| == 2 && Last(tr).conns == [DOWN] && Last(tr).table == {}
    ensures Last(tr).threads == [IDLE, IDLE.(holds := {0})]
    ensures Last(tr).loops[0] == CLEANING && Last(tr).loops[1] == FRESH
  {
    tr := Extend(before, DoPush(BASE));
    assert [] + [Destroy(0)] == [Destroy(0)];
    assert Last(tr).loops[0] == Queueing([Destroy(0)]) && Last(tr).threads == [IDLE, IDLE.(holds := {0})];
    tr := Extend(tr, EndEvent(BASE));
    assert Last(tr).loops[0] == Queueing([Destroy(0)]).(active := []);
    tr := Extend(tr, Swap(BASE));
  }

  const OVER := DOWN.(destroyed := true)
  const EMPTIED := FRESH.(phase := Running, executed := [Destroy(0)], queued := [Destroy(0)])

  /** Its clean-up has run, and the other thread has let go of it. */
  lemma CleanedAndReleased() returns (tr: seq<Sys>)
    ensures Run(tr) && Last(tr) == Sys([EMPTIED, FRESH], [IDLE, IDLE], [OVER], {})
  {
    tr := ClosedWhileHeld();
    tr := Extend(tr, RunTask(BASE));
    var none: map<Fd, ConnId> := map[];
    assert ACCEPTED.channels - {5} == none && none - {5} == none;
    assert Last(tr).loops[0] == EMPTIED && Last(tr).loops == [EMPTIED, FRESH] && Last(tr).conns == [OVER];
    tr := Extend(tr, Release(1, 0));
    assert {0} - {0} == {};
    assert Last(tr).threads == [IDLE, IDLE];
  }

  lemma NobodyHolds(s: Sys)
    requires s == Sys([EMPTIED, FRESH], [IDLE, IDLE], [OVER], {})
    ensures !Held(s, 0)
  {
    assert forall l :: 0 <= l < 2 ==> Outstanding(s.loops[l]) == [];
  }

  /** The witness that all of it can happen: a connection is accepted, held, closed, cleaned up and
      let go of; its descriptor is closed, and the next connection gets it. */
  lemma DescriptorUsedAgain() returns (tr: seq<Sys>)
    ensures Run(tr) && |Last(tr).conns| == 2
    ensures var first, second := Last(tr).conns[0], Last(tr).conns[1];
            first.gone && second.state == Connected && second.fd == first.fd
  {
    tr := CleanedAndReleased();
    NobodyHolds(Last(tr));
    tr := Extend(tr, Destruct(0));
    assert Last(tr) == Sys([EMPTIED, FRESH], [IDLE, IDLE], [OVER.(gone := true)], {});
    tr := Extend(tr, EndBatch(BASE));
    assert Last(tr).loops == [EMPTIED.(phase := Top), FRESH];
    tr := Extend(tr, CheckQuit(BASE));
    assert Last(tr).loops == [EMPTIED.(phase := Polling), FRESH];
    tr := Extend(tr, PollReturns(BASE, []));
    assert Last(tr).loops == [EMPTIED.(phase := Dispatching), FRESH] && Last(tr).conns == [OVER.(gone := true)];
    tr := Extend(tr, Accept(BASE, 5));
  }

  // ----- The check and the set of shutdown

  /** A thread has found a connection Connected, and sets the state after it has closed. */
  ghost predicate LateSet(s: Sys, s': Sys, t: ThreadId) {
    && Setting(s, t) && s.conns[s.threads[t].setting.value].state == Disconnected
    && s' == Halve(s, t)
  }

  ghost predicate LateBetween(s: Sys, s': Sys) {
    exists t :: LateSet(s, s', t)
  }

  ghost predicate LateMoves(tr: seq<Sys>, i: nat)
    requires i + 1 < |tr|
  {
    LateBetween(tr[i], tr[i + 1])
  }

  ghost predicate RacyMoves(tr: seq<Sys>, i: nat)
    requires i + 1 < |tr|
  {
    Next(tr[i], tr[i + 1]) || LateMoves(tr, i)
  }

  /** A run in which shutdown may be late too. */
  ghost predicate RacyRun(tr: seq<Sys>) {
    tr != [] && Init(tr[0]) && forall i :: 0 <= i < |tr| - 1 ==> RacyMoves(tr, i)
  }

  /** No connection's state goes back. */
  ghost predicate Forward(s: Sys, s': Sys) {
    && |s.conns| <= |s'.conns|
    && forall c :: 0 <= c < |s.conns| ==> s.conns[c].state.Rank() <= s'.conns[c].state.Rank()
  }

  ghost predicate ForwardTo(tr: seq<Sys>, n: nat)
    requires n < |tr|
  {
    forall i :: 0 <= i < n ==> ForwardAt(tr, i)
  }

  ghost predicate ForwardAt(tr: seq<Sys>, i: nat)
    requires i + 1 < |tr|
  {
    Forward(tr[i], tr[i + 1])
  }

  lemma LateGoesBack(s: Sys, s': Sys, t: ThreadId)
    requires LateSet(s, s', t)
    ensures !Forward(s, s')
  {
    var c := s.threads[t].setting.value;
    assert s'.conns[c].state.Rank() < s.conns[c].state.Rank();
  }

  ghost predicate NoneLate(tr: seq<Sys>, n: nat)
    requires n < |tr|
  {
    forall i :: 0 <= i < n ==> !LateMoves(tr, i)
  }

  lemma NotLateIsRun(tr: seq<Sys>, n: nat)
    requires RacyRun(tr) && n < |tr| && NoneLate(tr, n)
    ensures Run(tr[..n + 1])
  {
    var run := tr[..n + 1];
    forall i | 0 <= i < n
      ensures Moves(run, i)
    {
      assert RacyMoves(tr, i) && !LateMoves(tr, i);
    }
  }

  /** Over any run, shutdowns from any thread included, states never go back if and only if no
      shutdown that found its connection Connected sets the state after the connection has closed. */
  lemma {:induction false} StatesGoBackExactly(tr: seq<Sys>, n: nat)
    requires RacyRun(tr) && n < |tr|
    ensures ForwardTo(tr, n) <==> NoneLate(tr, n)
  {
    if n > 0 {
      StatesGoBackExactly(tr, n - 1);
      assert RacyMoves(tr, n - 1);
      if NoneLate(tr, n - 1) {
        if LateMoves(tr, n - 1) {
          var t :| LateSet(tr[n - 1], tr[n], t);
          LateGoesBack(tr[n - 1], tr[n], t);
          assert !ForwardAt(tr, n - 1);
        } else {
          NotLateIsRun(tr, n);
          RunGrows(tr[..n + 1], n - 1, n);
          assert ForwardAt(tr, n - 1);
        }
      }
    }
  }

  /** Another thread has found the connection Connected, and the loop is about to close it. */
  lemma Checked() returns (tr: seq<Sys>)
    ensures Run(tr) && |Last(tr).loops| == 2 && Last(tr).loops[0] == ACCEPTED.(active := [0])
    ensures Last(tr).threads == CHECKING && Last(tr).conns == [UP]
  {
    tr := OneConnection();
    assert {} + {0} == {0};
    tr := Extend(tr, Acquire(1, 0));
    assert Last(tr).threads == [IDLE, IDLE.(holds := {0})];
    tr := Extend(tr, CheckShutdown(1, 0));
    assert Last(tr) == Sys([ACCEPTED, FRESH], CHECKING, [UP], {0});
    tr := NextRound(tr, CHECKING);
  }

  /** The witness: another thread checks, the connection closes, and the thread sets. */
  lemma LateShutdown() returns (tr: seq<Sys>, s: Sys)
    ensures Run(tr) && LateSet(Last(tr), s, 1) && !Forward(Last(tr), s)
  {
    tr := Checked();
    tr := Extend(tr, CloseEvent(BASE));
    assert Last(tr).threads[1] == Thread(Idle, {0}, Some(0)) && Last(tr).conns[0].state == Disconnected;
    s := Halve(Last(tr), 1);
    LateGoesBack(Last(tr), s, 1);
  }

  // ----- Shutdown on the owner loop

  ghost predicate OwnerSetting(s: Sys, t: ThreadId)
    requires t < |s.threads|
  {
    Setting(s, t) && s.conns[s.threads[t].setting.value].owner == t ==>
      Live(s.conns[s.threads[t].setting.value].state)
  }

  lemma OwnerSettingKept(s: Sys, step: Step, t: ThreadId)
    requires Inv(s) && Enabled(s, step) && t < |s.threads| && OwnerSetting(s, t)
    ensures |Apply(s, step).threads| == |s.threads| && OwnerSetting(Apply(s, step), t)
  {
    assert ThreadOk(s, t);
    if step.RunTask? {
      RunEffect(s, step.l);
    } else if step.CloseEvent? {
      CloseEffect(s, step.l);
    } else if step.Accept? {
      StepGrows(s, step);
    } else {
      OwnerSettingMild(s, step, t);
    }
  }

  lemma OwnerSettingMild(s: Sys, step: Step, t: ThreadId)
    requires Inv(s) && Enabled(s, step) && t < |s.threads| && OwnerSetting(s, t)
    requires !step.RunTask? && !step.CloseEvent? && !step.Accept?
    ensures |Apply(s, step).threads| == |s.threads| && OwnerSetting(Apply(s, step), t)
  {
    MildStep(s, step);
    assert ThreadOk(s, t);
    SettingStays(s, Apply(s, step), t);
  }

  lemma SettingStays(s: Sys, s': Sys, t: ThreadId)
    requires Mild(s, s') && t < |s.threads| && OwnerSetting(s, t)
    requires s'.threads[t].setting == s.threads[t].setting || s'.threads[t].setting.None?
             || (s'.threads[t].setting.value < |s'.conns| && Live(s'.conns[s'.threads[t].setting.value].state))
    requires Setting(s', t) && s'.threads[t].setting == s.threads[t].setting ==> Setting(s, t)
    ensures OwnerSetting(s', t)
  {
  }

  /** The owner is never late: no other thread closes its connections. */
  lemma {:induction false} OwnerIsNeverLate(tr: seq<Sys>, i: nat, t: ThreadId)
    requires Run(tr) && i < |tr| && t < |tr[i].threads|
    ensures OwnerSetting(tr[i], t)
  {
    if i > 0 {
      RunInv(tr, i - 1);
      assert Moves(tr, i - 1);
      var step :| Enabled(tr[i - 1], step) && tr[i] == Apply(tr[i - 1], step);
      StepGrows(tr[i - 1], step);
      OwnerIsNeverLate(tr, i - 1, t);
      OwnerSettingKept(tr[i - 1], step, t);
    }
  }

  ghost predicate OwnersOnly(s: Sys) {
    forall t :: 0 <= t < |s.threads| && Setting(s, t) ==> s.conns[s.threads[t].setting.value].owner == t
  }

  /** As every caller in the repository does: when only owners shut down, no state goes back. */
  lemma {:induction false} OwnerShutdownIsSafe(tr: seq<Sys>, n: nat)
    requires RacyRun(tr) && n < |tr| && forall i :: 0 <= i < |tr| ==> OwnersOnly(tr[i])
    ensures NoneLate(tr, n) && ForwardTo(tr, n)
  {
    StatesGoBackExactly(tr, n);
    if n > 0 {
      OwnerShutdownIsSafe(tr, n - 1);
      NotLateIsRun(tr, n - 1);
      if LateMoves(tr, n - 1) {
        var t :| LateSet(tr[n - 1], tr[n], t);
        OwnerIsNeverLate(tr[..n], n - 1, t);
      }
    }
  }
}
