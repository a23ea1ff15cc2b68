/** What every step of the reactor carries on: a push that was begun arrives, a request to quit is
    obeyed, and the eventfd counts what other threads wrote. */
module ReactorProgress {
  import opened Loops
  import opened Reactor
  import opened ReactorInvariant
  import opened ReactorTheorems
  import opened States

  // ----- Pushes arrive

  /** What thread `t` was pushing is still in its hands, or in the history of its queue. */
  ghost predicate Arriving(s: Sys, t: ThreadId, l: LoopId, task: Task) {
    && t < |s.threads| && l < |s.loops|
    && (s.threads[t].op == Push(l, task) || task in s.loops[l].queued)
  }

  lemma QueuedGrows(s: Sys, step: Step, l: LoopId)
    requires Enabled(s, step) && l < |s.loops|
    ensures |Apply(s, step).loops| == |s.loops| && s.loops[l].queued <= Apply(s, step).loops[l].queued
  {
    StepsAgree(s, step, l);
    var p' := Apply(s, step).loops[l];
    assert Bare(p').queued == p'.queued == LoopAfter(s, step, l).queued;
  }

  /** Only its own push takes a task out of a thread's hands, and puts it into the queue. */
  lemma PushHeld(s: Sys, step: Step, t: ThreadId)
    requires Inv(s) && Enabled(s, step) && t < |s.threads| && s.threads[t].op.Push?
    ensures |Apply(s, step).threads| == |s.threads|
    ensures step != DoPush(t) ==> Apply(s, step).threads[t].op == s.threads[t].op
  {
    if step.RunTask? {
      RunEffect(s, step.l);
    } else if step.CloseEvent? {
      CloseEffect(s, step.l);
    }
  }

  lemma ArrivingOn(s: Sys, step: Step, t: ThreadId, l: LoopId, task: Task)
    requires Inv(s) && Enabled(s, step) && Arriving(s, t, l, task)
    ensures Arriving(Apply(s, step), t, l, task)
  {
    QueuedGrows(s, step, l);
    StepGrows(s, step);
    if task in s.loops[l].queued {
      var i :| 0 <= i < |s.loops[l].queued| && s.loops[l].queued[i] == task;
      assert Apply(s, step).loops[l].queued[i] == task;
    } else {
      PushHeld(s, step, t);
      if step == DoPush(t) {
        StepsAgree(s, step, l);
        var queued := Apply(s, step).loops[l].queued;
        assert queued == s.loops[l].queued + [task] && queued[|queued| - 1] == task;
      }
    }
  }

  /** Whatever a thread has begun to push is, at every later moment, still in its hands or in the
      history of the queue it was meant for, from which every task is executed in its turn. */
  lemma {:induction false} PushArrives(tr: seq<Sys>, i: nat, j: nat, t: ThreadId)
    requires Run(tr) && i <= j < |tr| && t < |tr[i].threads| && tr[i].threads[t].op.Push?
    ensures Arriving(tr[j], t, tr[i].threads[t].op.target, tr[i].threads[t].op.task)
  {
    var op := tr[i].threads[t].op;
    if i == j {
      RunInv(tr, i);
      assert ThreadOk(tr[i], t);
    } else {
      PushArrives(tr, i, j - 1, t);
      RunInv(tr, j - 1);
      assert Moves(tr, j - 1);
      var step :| Enabled(tr[j - 1], step) && tr[j] == Apply(tr[j - 1], step);
      ArrivingOn(tr[j - 1], step, t, op.target, op.task);
    }
  }

  /** A shutdown from another thread sets the state at once and hands the rest to the owner loop. */
  lemma HalfCloseArrives(tr: seq<Sys>, i: nat, j: nat, t: ThreadId)
    requires Run(tr) && i < j < |tr| && Enabled(tr[i], SetShutdown(t)) && tr[i + 1] == Apply(tr[i], SetShutdown(t))
    ensures var c := tr[i].threads[t].setting.value;
            && c < |tr[i + 1].conns| && tr[i + 1].conns[c].state == Disconnecting
            && (t != tr[i].conns[c].owner ==> Arriving(tr[j], t, tr[i].conns[c].owner, HalfClose(c)))
  {
    if t != tr[i].conns[tr[i].threads[t].setting.value].owner {
      PushArrives(tr, i + 1, j, t);
    }
  }

  // ----- Requests to quit

  lemma QuitStays(s: Sys, step: Step, l: LoopId)
    requires Enabled(s, step) && l < |s.loops| && s.loops[l].quit && s.loops[l].phase != Fresh
    ensures |Apply(s, step).loops| == |s.loops|
    ensures Apply(s, step).loops[l].quit && Apply(s, step).loops[l].phase != Fresh
    ensures s.loops[l].phase in {Top, Exited} ==> Apply(s, step).loops[l].phase in {Top, Exited}
  {
    StepsAgree(s, step, l);
    var p', q := Apply(s, step).loops[l], LoopAfter(s, step, l);
    assert Bare(p').quit == p'.quit == q.quit && Bare(p').phase == p'.phase == q.phase;
  }

  /** A request to quit made after `loop()` was entered is never forgotten, and from the next top of
      the loop on it enters poll no more. */
  lemma {:induction false} QuitIsObeyed(tr: seq<Sys>, t: ThreadId, l: LoopId, i: nat, j: nat)
    requires Run(tr) && i < j < |tr| && Enabled(tr[i], Quit(t, l)) && tr[i + 1] == Apply(tr[i], Quit(t, l))
    requires tr[i].loops[l].phase != Fresh
    ensures l < |tr[j].loops| && l < |tr[j - 1].loops| && tr[j].loops[l].quit && tr[j].loops[l].phase != Fresh
    ensures i + 1 < j && tr[j - 1].loops[l].phase in {Top, Exited} ==> tr[j].loops[l].phase in {Top, Exited}
  {
    if j > i + 1 {
      QuitIsObeyed(tr, t, l, i, j - 1);
      assert Moves(tr, j - 1);
      var step :| Enabled(tr[j - 1], step) && tr[j] == Apply(tr[j - 1], step);
      QuitStays(tr[j - 1], step, l);
    }
  }

  // ----- The eventfd

  /** Only a wake-up raises the counter, and reading it clears it. */
  lemma EventfdStep(s: Sys, step: Step, l: LoopId)
    requires Enabled(s, step) && l < |s.loops|
    ensures |Apply(s, step).loops| == |s.loops|
    ensures var n, n' := s.loops[l].eventfd, Apply(s, step).loops[l].eventfd;
            && (n' > n <==> step.DoWake? && s.threads[step.t].op.target == l && n < EVENTFD_MAX)
            && (n' < n ==> step == ReadEventfd(l)) && (step == ReadEventfd(l) ==> n' == 0)
            && (n <= EVENTFD_MAX ==> n' <= EVENTFD_MAX)
  {
    StepsAgree(s, step, l);
    assert Bare(Apply(s, step).loops[l]).eventfd == Apply(s, step).loops[l].eventfd;
    assert Bare(LoopAfter(s, step, l)).eventfd == LoopAfter(s, step, l).eventfd;
  }

  ghost predicate Wakes(s: Sys, s': Sys, l: LoopId) {
    exists t: ThreadId :: Enabled(s, DoWake(t)) && s.threads[t].op.target == l && s' == Apply(s, DoWake(t))
  }

  ghost predicate WakesAt(tr: seq<Sys>, k: nat, l: LoopId)
    requires k + 1 < |tr|
  {
    Wakes(tr[k], tr[k + 1], l)
  }

  /** The counter never passes its limit, and a loop's poll is never woken for nothing: a counter that
      was zero and is not any more was written by a thread in between. */
  lemma {:induction false} NoSpuriousWakeup(tr: seq<Sys>, l: LoopId, i: nat, j: nat)
    requires Run(tr) && i <= j < |tr| && l < |tr[i].loops|
    ensures l < |tr[j].loops| && tr[j].loops[l].eventfd <= EVENTFD_MAX
    ensures tr[i].loops[l].eventfd == 0 < tr[j].loops[l].eventfd ==> exists k :: i <= k < j && WakesAt(tr, k, l)
  {
    if j > 0 {
      var k := if i < j then i else j - 1;
      RunGrows(tr, k, i);
      NoSpuriousWakeup(tr, l, k, j - 1);
      assert Moves(tr, j - 1);
      var step :| Enabled(tr[j - 1], step) && tr[j] == Apply(tr[j - 1], step);
      EventfdStep(tr[j - 1], step, l);
      if i < j && tr[i].loops[l].eventfd == tr[j - 1].loops[l].eventfd == 0 < tr[j].loops[l].eventfd {
        assert Wakes(tr[j - 1], tr[j], l);
        assert WakesAt(tr, j - 1, l);
      }
    }
  }
}
