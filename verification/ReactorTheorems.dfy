/** The promises of the reactor, stated over whole runs. */
module ReactorTheorems {
  import opened Basics
  import opened Poller
  import opened Reactor
  import opened ReactorInvariant
  import opened States

  /** What time cannot undo. */
  ghost predicate Later(s: Sys, s': Sys) {
    && |s.loops| == |s'.loops| && |s.threads| == |s'.threads| && |s.conns| <= |s'.conns|
    && forall c :: 0 <= c < |s.conns| ==>
         var k, k' := s.conns[c], s'.conns[c];
         && k.owner == k'.owner && k.fd == k'.fd && k.state.Rank() <= k'.state.Rank()
         && (k.destroyed ==> k'.destroyed) && (k.gone ==> k'.gone)
         && k.accepted <= k'.accepted && k.issued <= k'.issued
  }

  lemma LaterOn(a: Sys, b: Sys, c: Sys)
    requires Later(a, b) && Later(b, c)
    ensures Later(a, c)
  {
  }

  lemma MoveIsLater(s: Sys, s': Sys)
    requires Inv(s) && Next(s, s')
    ensures Later(s, s')
  {
    var step :| Enabled(s, step) && s' == Apply(s, step);
    StepGrows(s, step);
  }

  /** Owners never change, states only move forward, and nothing sent or accepted is taken back. */
  lemma {:induction false} RunGrows(tr: seq<Sys>, i: nat, j: nat)
    requires Run(tr) && i <= j < |tr|
    ensures Later(tr[i], tr[j])
  {
    if i < j {
      RunGrows(tr, i, j - 1);
      RunInv(tr, j - 1);
      assert Moves(tr, j - 1);
      MoveIsLater(tr[j - 1], tr[j]);
      LaterOn(tr[i], tr[j - 1], tr[j]);
    }
  }

  // ----- Delivery

  /** Per-sender order with prefix loss: at every moment of every run, what a connection has
      accepted from a thread is an initial part of what that thread has sent it, then or ever. */
  lemma SenderOrder(tr: seq<Sys>, i: nat, j: nat, c: ConnId, t: ThreadId)
    requires Run(tr) && i <= j < |tr| && c < |tr[i].conns| && t < |tr[i].threads|
    ensures |tr[i].conns| <= |tr[j].conns|
    ensures From(tr[i].conns[c].accepted, t) <= From(tr[j].conns[c].issued, t)
  {
    RunInv(tr, i);
    RunGrows(tr, i, j);
    assert OrderOk(tr[i], c, t);
    FromPrefix(tr[i].conns[c].issued, tr[j].conns[c].issued, t);
  }

  lemma {:induction false} FromPrefix(a: seq<Message>, b: seq<Message>, t: ThreadId)
    requires a <= b
    ensures From(a, t) <= From(b, t)
    decreases |b|
  {
    if |a| < |b| {
      FromPrefix(a, b[..|b| - 1], t);
    } else {
      assert a == b;
    }
  }

  /** While a connection stays connected nothing is lost: what was sent and not yet accepted is
      exactly what still waits, in order, in its loop's queue or in the sender's hands. */
  lemma NothingLostWhileConnected(tr: seq<Sys>, i: nat, c: ConnId, t: ThreadId)
    requires Run(tr) && i < |tr| && c < |tr[i].conns| && t < |tr[i].threads|
    requires tr[i].conns[c].state == Connected
    ensures tr[i].conns[c].owner < |tr[i].loops|
    ensures From(tr[i].conns[c].issued, t) == From(tr[i].conns[c].accepted, t) + InFlight(tr[i], c, t)
  {
    RunInv(tr, i);
    assert OrderOk(tr[i], c, t);
  }

  /** Every functor pushed to a loop runs at most once, in push order, and none is skipped. */
  lemma ExactlyOnce(tr: seq<Sys>, i: nat, l: LoopId)
    requires Run(tr) && i < |tr| && l < |tr[i].loops|
    ensures var p := tr[i].loops[l];
            p.executed + p.batch + p.pending == p.queued && (p.phase == Exited ==> p.executed + p.pending == p.queued)
  {
    RunInv(tr, i);
    assert QueueOk(tr[i], l);
    var p := tr[i].loops[l];
    assert p.batch == [] ==> p.executed + p.batch == p.executed;
  }

  // ----- Wake-ups

  /** A loop that is in poll, or about to enter it, with work waiting. */
  ghost predicate Asleep(s: Sys, l: LoopId)
    requires l < |s.loops|
  {
    && s.loops[l].phase == Polling
    && (s.loops[l].pending != [] || s.loops[l].quit)
    && !Signalled(s, l)
  }

  /** No wake-up is lost, with any number of producers and of functors that queue functors: a loop
      sleeps on work, or on a request to quit, if and only if it entered with tasks that only its own
      thread had queued and no other thread has pushed to it, or asked it to quit, since. */
  lemma NoLostWakeup(tr: seq<Sys>, i: nat, l: LoopId)
    requires Run(tr) && i < |tr| && l < |tr[i].loops|
    ensures var p := tr[i].loops[l];
            Asleep(tr[i], l) <==> p.phase == Polling && p.early && !p.signalled
  {
    RunInv(tr, i);
    assert WakeOk(tr[i], l);
  }

  /** Exactly when the guarantee fails: on entry to `loop()`, work waits unsignalled if and only if
      there is work and no other thread has queued any, or asked to quit. */
  lemma EarlyWork(tr: seq<Sys>, i: nat, l: LoopId)
    requires Run(tr) && i < |tr| && Enabled(tr[i], EnterLoop(l))
    ensures var s' := Apply(tr[i], EnterLoop(l));
            && |s'.loops| == |tr[i].loops|
            && (s'.loops[l].pending != [] && !Signalled(s', l)
                <==> tr[i].loops[l].pending != [] && !tr[i].loops[l].signalled)
            && (s'.loops[l].early <==> tr[i].loops[l].pending != [] && !tr[i].loops[l].signalled)
  {
    RunInv(tr, i);
    assert WakeOk(tr[i], l);
    SameSignals(tr[i], Apply(tr[i], EnterLoop(l)), l);
  }

  /** The witness: a thread queues a functor to itself, enters its loop, and sleeps on it. */
  lemma EarlyTaskSleeps() returns (tr: seq<Sys>)
    ensures Run(tr) && |tr[|tr| - 1].loops| == 1 && Asleep(tr[|tr| - 1], 0)
  {
    var p0 := Loop(Fresh, [], [], [], [], 0, false, [], map[], map[], false, false);
    var p2 := p0.(pending := [Other(7)], queued := [Other(7)]);
    var idle, pushing := [Thread(Idle, {}, None)], [Thread(Push(0, Other(7)), {}, None)];
    var s0, s1, s2 := Sys([p0], idle, [], {}), Sys([p0], pushing, [], {}), Sys([p2], idle, [], {});
    var s3 := s2.(loops := [p2.(phase := Top, early := true)]);
    var s4 := s2.(loops := [p2.(phase := Polling, early := true)]);
    tr := [s0, s1, s2, s3, s4];
    assert Next(s0, s1) by { assert s1 == Apply(s0, Queue(0, 0, 7)); }
    assert Next(s1, s2) by { SelfPush(s1, s2); }
    assert Next(s2, s3) by { assert s3 == Apply(s2, EnterLoop(0)); }
    assert Next(s3, s4) by { assert s4 == Apply(s3, CheckQuit(0)); }
  }

  lemma SelfPush(s: Sys, s': Sys)
    requires |s.loops| == |s.threads| == 1 && s.threads[0].op.Push? && s.threads[0].op.target == 0
    requires s.loops[0].phase == Fresh && s.loops[0].pending == s.loops[0].queued == [] && !s.loops[0].signalled
    requires var task := s.threads[0].op.task;
             && s' == s.(loops := [s.loops[0].(pending := [task], queued := [task])],
                         threads := [s.threads[0].(op := Idle)])
    ensures Next(s, s')
  {
    var d := Apply(s, DoPush(0));
    assert d.loops[0] == s'.loops[0] && d.threads[0] == s'.threads[0];
    assert d.loops == s'.loops && d.threads == s'.threads;
  }

  // ----- Custody

  /** From accept to the end of connectDestroyed some strong reference keeps a connection alive;
      its descriptor is closed only afterwards, when neither the poller nor the kernel lists it. */
  lemma ChainOfCustody(tr: seq<Sys>, i: nat, c: ConnId)
    requires Run(tr) && i < |tr| && c < |tr[i].conns|
    ensures !tr[i].conns[c].destroyed ==> Held(tr[i], c) && !tr[i].conns[c].gone
    ensures tr[i].conns[c].gone ==>
              forall l, fd :: 0 <= l < |tr[i].loops| ==>
                && (fd in tr[i].loops[l].channels ==> tr[i].loops[l].channels[fd] != c)
                && (fd in tr[i].loops[l].interest ==> tr[i].loops[l].interest[fd] != c)
  {
    RunInv(tr, i);
    assert CustodyOk(tr[i], c);
    if !tr[i].conns[c].destroyed {
      SomeoneHolds(tr[i], c);
    } else {
      forall l, fd | 0 <= l < |tr[i].loops|
        ensures fd in tr[i].loops[l].channels ==> tr[i].loops[l].channels[fd] != c
        ensures fd in tr[i].loops[l].interest ==> tr[i].loops[l].interest[fd] != c
      {
        assert PollerOk(tr[i], l);
      }
    }
  }

  /** A reference in use never dangles: whatever a thread, a functor or the table refers to exists. */
  lemma NoDanglingReference(tr: seq<Sys>, i: nat, c: ConnId)
    requires Run(tr) && i < |tr| && Held(tr[i], c)
    ensures c < |tr[i].conns| && !tr[i].conns[c].gone
  {
    RunInv(tr, i);
    HeldExists(tr[i], c);
  }

  ghost predicate Destroying(s: Sys, s': Sys, l: LoopId, c: ConnId) {
    Enabled(s, RunTask(l)) && s.loops[l].batch[0] == Destroy(c) && s' == Apply(s, RunTask(l))
  }

  /** connectDestroyed runs on the owner loop after handleClose, outside the round of active
      channels, when the connection is out of the table; the entry it erases is its own. */
  lemma DestroyedInOrder(tr: seq<Sys>, i: nat, l: LoopId, c: ConnId)
    requires Run(tr) && i + 1 < |tr| && Destroying(tr[i], tr[i + 1], l, c)
    ensures c < |tr[i].conns| && c < |tr[i + 1].conns|
    ensures var k := tr[i].conns[c];
            && k.owner == l && k.state == Disconnected && !k.destroyed && !k.gone && c !in tr[i].table
            && tr[i].loops[l].active == []
            && k.fd in tr[i].loops[l].channels && tr[i].loops[l].channels[k.fd] == c
            && k.fd !in tr[i].loops[l].interest
    ensures tr[i + 1].conns[c].destroyed
  {
    RunInv(tr, i);
    RunEffect(tr[i], l);
    DestroyReady(tr[i], l, c);
  }

  lemma DestroyReady(s: Sys, l: LoopId, c: ConnId)
    requires Inv(s) && Enabled(s, RunTask(l)) && s.loops[l].batch[0] == Destroy(c)
    ensures c < |s.conns|
    ensures var k := s.conns[c];
            && k.owner == l && k.state == Disconnected && !k.destroyed && !k.gone && c !in s.table
            && s.loops[l].active == []
            && k.fd in s.loops[l].channels && s.loops[l].channels[k.fd] == c
            && k.fd !in s.loops[l].interest
  {
    HeadOk(s, l);
    HeadCounts(s, l);
    assert QueueOk(s, l) && CustodyOk(s, c) && ListedOk(s, c) && PollerOk(s, l);
    assert forall d :: 0 <= d < |s.conns| && Live(s.conns[d].state) ==> CustodyOk(s, d);
  }

  /** ... and at most once, under the kernel's rule that the guard of `CloseEvent` states. */
  lemma DestroyedOnce(tr: seq<Sys>, i: nat, j: nat, l: LoopId, l': LoopId, c: ConnId)
    requires Run(tr) && i < j && j + 1 < |tr| && Destroying(tr[i], tr[i + 1], l, c)
    ensures !Destroying(tr[j], tr[j + 1], l', c)
  {
    DestroyedInOrder(tr, i, l, c);
    RunGrows(tr, i + 1, j);
    if Destroying(tr[j], tr[j + 1], l', c) {
      DestroyedInOrder(tr, j, l', c);
    }
  }

  /** The raw channel pointers of a round stay good until they are dispatched: each belongs to a
      connection of this loop that is not destroyed and, until its turn, still watched. */
  lemma ActiveChannelsAlive(tr: seq<Sys>, i: nat, l: LoopId, n: nat)
    requires Run(tr) && i < |tr| && l < |tr[i].loops| && n < |tr[i].loops[l].active|
    ensures var c := tr[i].loops[l].active[n];
            && c < |tr[i].conns| && tr[i].conns[c].owner == l
            && !tr[i].conns[c].destroyed && !tr[i].conns[c].gone
            && (n > 0 ==> Watched(tr[i], l, c))
  {
    RunInv(tr, i);
    assert ActiveOk(tr[i], l);
    var c := tr[i].loops[l].active[n];
    assert CustodyOk(tr[i], c) && ListedOk(tr[i], c);
  }

  /** Registering and deregistering are legal epoll_ctl calls in every run: a connection that is
      established, by a task or at once on the base loop, has a descriptor unknown to its poller; a
      closing one is listed under its own; a destroyed one still owns its entry and is unwatched. */
  lemma RegistrationLegal(tr: seq<Sys>, i: nat, l: LoopId)
    requires Run(tr) && i < |tr| && l < |tr[i].loops|
    ensures Enabled(tr[i], RunTask(l)) && tr[i].loops[l].batch[0].Establish? ==>
              var c := tr[i].loops[l].batch[0].c;
              && c < |tr[i].conns|
              && tr[i].conns[c].fd !in tr[i].loops[l].channels && tr[i].conns[c].fd !in tr[i].loops[l].interest
    ensures forall fd :: Enabled(tr[i], Accept(l, fd)) ==>
              fd !in tr[i].loops[l].channels && fd !in tr[i].loops[l].interest
    ensures Enabled(tr[i], CloseEvent(l)) ==> Watched(tr[i], l, tr[i].loops[l].active[0])
    ensures Enabled(tr[i], RunTask(l)) && tr[i].loops[l].batch[0].Destroy? ==>
              var c := tr[i].loops[l].batch[0].c;
              && c < |tr[i].conns| && tr[i].conns[c].fd in tr[i].loops[l].channels
              && tr[i].loops[l].channels[tr[i].conns[c].fd] == c && tr[i].conns[c].fd !in tr[i].loops[l].interest
  {
    RunInv(tr, i);
    assert PollerOk(tr[i], l) && ActiveOk(tr[i], l);
    if Enabled(tr[i], CloseEvent(l)) {
      assert ListedOk(tr[i], tr[i].loops[l].active[0]);
    }
    if Enabled(tr[i], RunTask(l)) {
      if tr[i].loops[l].batch[0].Establish? {
        EstablishFresh(tr[i], l);
      } else if tr[i].loops[l].batch[0].Destroy? {
        DestroyReady(tr[i], l, tr[i].loops[l].batch[0].c);
      }
    }
    forall fd | Enabled(tr[i], Accept(l, fd))
      ensures fd !in tr[i].loops[l].channels && fd !in tr[i].loops[l].interest
    {
      DescriptorFresh(tr[i], l, fd);
    }
  }

  /** The kernel hands out a descriptor again only when no poller lists it any more. */
  lemma DescriptorFresh(s: Sys, l: LoopId, fd: Fd)
    requires Inv(s) && l < |s.loops|
    requires forall c :: 0 <= c < |s.conns| && s.conns[c].fd == fd ==> s.conns[c].gone
    ensures fd !in s.loops[l].channels && fd !in s.loops[l].interest
  {
    assert PollerOk(s, l);
    GoneIsOver(s);
  }

  lemma GoneIsOver(s: Sys)
    requires Inv(s)
    ensures forall d :: 0 <= d < |s.conns| && s.conns[d].gone ==> s.conns[d].destroyed && !Live(s.conns[d].state)
  {
    forall d | 0 <= d < |s.conns|
      ensures s.conns[d].gone ==> s.conns[d].destroyed && !Live(s.conns[d].state)
    {
      assert CustodyOk(s, d);
    }
  }

  lemma EstablishFresh(s: Sys, l: LoopId)
    requires Inv(s) && Enabled(s, RunTask(l)) && s.loops[l].batch[0].Establish?
    ensures var c := s.loops[l].batch[0].c;
            c < |s.conns| && s.conns[c].fd !in s.loops[l].channels && s.conns[c].fd !in s.loops[l].interest
  {
    HeadOk(s, l);
    HeadCounts(s, l);
    assert PollerOk(s, l);
    GoneIsOver(s);
    assert s.conns[s.loops[l].batch[0].c].state == Connecting by {
      assert CustodyOk(s, s.loops[l].batch[0].c);
    }
  }
}
