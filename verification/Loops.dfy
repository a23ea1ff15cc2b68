/** One event loop as its owner runs it.  `Others` stands at every point where other threads may
    push, wake or ask to quit; each step that changes the loop is a step of the transition system. */
module Loops {
  import opened Reactor

  /** The loop after a push to its queue, by its own thread or another. */
  function Pushed(p: Loop, task: Task, foreign: bool): Loop {
    p.(pending := p.pending + [task], queued := p.queued + [task], signalled := p.signalled || foreign)
  }

  /** The loop after one eventfd write; the counter saturates. */
  function Woken(p: Loop): Loop {
    p.(eventfd := if p.eventfd < EVENTFD_MAX then p.eventfd + 1 else p.eventfd)
  }

  function Quitting(p: Loop, foreign: bool): Loop {
    p.(quit := true, signalled := p.signalled || foreign)
  }

  function Popped(p: Loop): Loop
    requires p.batch != []
  {
    p.(batch := p.batch[1..], executed := p.executed + [p.batch[0]])
  }

  /** A loop without what its poller lists. */
  function Bare(p: Loop): Loop {
    p.(channels := map[], interest := map[])
  }

  /** What a step of any thread does to the queue, the batch, the history, the counter and the
      flags of loop `l`: the loop's own control step, or one of the operations of the class below. */
  ghost function LoopAfter(s: Sys, step: Step, l: LoopId): Loop
    requires Enabled(s, step) && l < |s.loops|
  {
    var p := s.loops[l];
    if Control(step) then if step.l == l then Turn(p, step) else p
    else
      match step
      case RunTask(k) => if k == l then Popped(p) else p
      case Quit(t, k) => if k == l then Quitting(p, t != l) else p
      case DoPush(t) => if s.threads[t].op.target == l then Pushed(p, s.threads[t].op.task, t != l) else p
      case DoWake(t) => if s.threads[t].op.target == l then Woken(p) else p
      case _ => p
  }

  /** The operations of the class are all that happens to a loop, whatever step any thread takes. */
  lemma {:induction false} StepsAgree(s: Sys, step: Step, l: LoopId)
    requires Enabled(s, step) && l < |s.loops|
    ensures |Apply(s, step).loops| == |s.loops|
    ensures Bare(Apply(s, step).loops[l]) == Bare(LoopAfter(s, step, l))
  {
    if step.RunTask? {
      TaskAgrees(s, step.l, l);
    }
  }

  lemma TaskAgrees(s: Sys, l: LoopId, k: LoopId)
    requires Enabled(s, RunTask(l)) && k < |s.loops|
    ensures var s' := Apply(s, RunTask(l));
            && |s'.loops| == |s.loops|
            && Bare(s'.loops[k]) == Bare(if k == l then Popped(s.loops[l]) else s.loops[k])
  {
  }

  class EventLoop {
    const id: LoopId
    var quit: bool
    var callingPendingFunctors: bool
    var pendingFunctors: seq<Task>
    var activeChannels: seq<ConnId>
    var wakeupFd: nat                // the eventfd's counter
    var wakers: nat                  // threads between their push, or quit, and the eventfd write
    ghost var phase: Phase
    ghost var functors: seq<Task>    // what is left of the swapped batch
    ghost var executed: seq<Task>
    ghost var queued: seq<Task>
    ghost var signalled: bool
    ghost var early: bool
    ghost var polls: nat                // polls made
    ghost var polled: seq<ConnId>       // every channel a poll has reported
    ghost var dispatched: seq<ConnId>   // those handled, in order

    ghost function View(): Loop
      reads this
    {
      Loop(phase, pendingFunctors, functors, executed, queued, wakeupFd, quit, activeChannels,
           map[], map[], signalled, early)
    }

    ghost predicate Awake()
      reads this
    {
      wakeupFd > 0 || wakers > 0
    }

    ghost predicate Valid()
      reads this
    {
      && executed + functors + pendingFunctors == queued
      && (phase == Running ==> callingPendingFunctors)
      && (callingPendingFunctors ==> phase in {Dispatching, Running})
      && (phase != Running ==> functors == [])
      && dispatched + activeChannels == polled && (phase != Dispatching ==> activeChannels == [])
      && (early ==> phase in {Top, Polling, Dispatching, Exited})
      && (phase == Fresh ==> (Awake() <==> signalled))
      && (phase in {Top, Polling, Running} && pendingFunctors != [] && !early ==> Awake())
      && (phase == Polling && quit ==> Awake())
    }

    /** What other threads leave alone: they only add tasks and signals. */
    twostate predicate Undisturbed()
      reads this
    {
      && phase == old(phase) && callingPendingFunctors == old(callingPendingFunctors)
      && functors == old(functors) && executed == old(executed) && activeChannels == old(activeChannels)
      && NoPoll()
      && early == old(early) && old(queued) <= queued && (old(quit) ==> quit) && (old(Awake()) ==> Awake())
    }

    twostate predicate NoPoll()
      reads this
    {
      polls == old(polls) && polled == old(polled) && dispatched == old(dispatched)
    }

    constructor (id: LoopId)
      ensures Valid() && View() == Loop(Fresh, [], [], [], [], 0, false, [], map[], map[], false, false)
    {
      this.id := id;
      quit, callingPendingFunctors, pendingFunctors, activeChannels, wakeupFd := false, false, [], [], 0;
      phase, functors, executed, queued, signalled, early, wakers := Fresh, [], [], [], false, false, 0;
      polls, polled, dispatched := 0, [], [];
    }

    // ----- Queueing

    /** The critical section of queueInLoop.  The caller owes the wake-up from here on, unless the
        owner pushes outside its functors. */
    method PushBack(cb: Task, foreign: bool)
      requires Valid()
      requires foreign || phase in {Fresh, Dispatching, Running, Exited}
      modifies this`pendingFunctors, this`queued, this`signalled, this`wakers
      ensures Valid() && View() == Pushed(old(View()), cb, foreign) && pendingFunctors == old(pendingFunctors) + [cb]
      ensures wakers == old(wakers) + if foreign || callingPendingFunctors then 1 else 0
    {
      pendingFunctors := pendingFunctors + [cb];
      queued := queued + [cb];
      signalled := signalled || foreign;
      if foreign || callingPendingFunctors {
        wakers := wakers + 1;
      }
      assert queued == executed + functors + pendingFunctors;
    }

    method Wakeup()
      requires Valid() && wakers > 0
      modifies this`wakeupFd, this`wakers
      ensures Valid() && View() == Woken(old(View())) && wakers == old(wakers) - 1
      ensures wakeupFd == if old(wakeupFd) < EVENTFD_MAX then old(wakeupFd) + 1 else old(wakeupFd)
    {
      if wakeupFd < EVENTFD_MAX {
        wakeupFd := wakeupFd + 1;
      }
      wakers := wakers - 1;
    }

    /** Any number of steps of other threads; the last `mine` wake-ups are not theirs to do. */
    method Others(mine: nat)
      requires Valid() && mine <= wakers
      modifies this`pendingFunctors, this`queued, this`signalled, this`wakers, this`wakeupFd, this`quit
      ensures Valid() && Undisturbed() && mine <= wakers
    {
      var steps: nat :| true;
      for i := 0 to steps
        invariant Valid() && Undisturbed() && mine <= wakers
      {
        if
        case true =>
          var task: Task := *;
          PushBack(task, true);
        case true =>
          Quit(true);
        case mine < wakers =>
          Wakeup();
      }
    }

    /** quit, up to the wake-up that another thread owes from here on. */
    method Quit(foreign: bool)
      requires Valid() && (foreign || phase in {Fresh, Dispatching, Running, Exited})
      modifies this`quit, this`signalled, this`wakers
      ensures Valid() && View() == Quitting(old(View()), foreign) && quit
      ensures wakers == old(wakers) + if foreign then 1 else 0
    {
      quit := true;
      signalled := signalled || foreign;
      if foreign {
        wakers := wakers + 1;
      }
    }

    /** queueInLoop, on any thread. */
    method QueueInLoop(cb: Task, foreign: bool)
      requires Valid()
      requires foreign || phase in {Fresh, Dispatching, Running, Exited}
      modifies this`pendingFunctors, this`queued, this`signalled, this`wakers, this`wakeupFd, this`quit
      ensures Valid() && Undisturbed() && old(queued) + [cb] <= queued
      ensures foreign || old(callingPendingFunctors) ==> wakeupFd > 0
    {
      PushBack(cb, foreign);
      Others(if foreign || callingPendingFunctors then 1 else 0);
      if foreign || callingPendingFunctors {
        Wakeup();
      }
    }

    /** quit, on any thread: another thread wakes the loop, which may be in poll. */
    method RequestQuit(foreign: bool)
      requires Valid() && (foreign || phase in {Fresh, Dispatching, Running, Exited})
      modifies this`pendingFunctors, this`queued, this`signalled, this`wakers, this`wakeupFd, this`quit
      ensures Valid() && Undisturbed() && quit && (foreign ==> wakeupFd > 0)
    {
      Quit(foreign);
      Others(if foreign then 1 else 0);
      if foreign {
        Wakeup();
      }
    }

    /** A callback on the owner's thread, whatever it does: it may queue functors, and quit. */
    method Callback()
      requires Valid() && phase in {Dispatching, Running}
      modifies this`pendingFunctors, this`queued, this`signalled, this`wakers, this`wakeupFd, this`quit
      ensures Valid() && Undisturbed()
    {
      var actions: nat :| true;
      for i := 0 to actions
        invariant Valid() && Undisturbed()
      {
        Others(0);
        if
        case true =>
          var task: Task := *;
          QueueInLoop(task, false);
        case true =>
          RequestQuit(false);
      }
    }

    // ----- One turn

    method EnterLoop()
      requires Valid() && phase == Fresh
      modifies this`quit, this`phase, this`early
      ensures Valid() && View() == Turn(old(View()), Step.EnterLoop(id))
      ensures phase == Top && !quit && (early <==> pendingFunctors != [] && !Awake())
    {
      quit := false;
      phase, early := Top, pendingFunctors != [] && !signalled;
    }

    /** epoll_wait: other threads act while it blocks. */
    method Poll()
      requires Valid() && phase == Polling
      modifies this
      ensures Valid() && phase == Dispatching && executed == old(executed) && old(queued) <= queued
      ensures early == old(early) && !callingPendingFunctors
      ensures polls == old(polls) + 1 && polled == old(polled) + activeChannels && dispatched == old(dispatched)
    {
      Others(0);
      var ready: seq<ConnId> := *;
      ghost var before := View();
      activeChannels, phase := ready, Dispatching;
      polls, polled := polls + 1, polled + ready;
      assert View() == Turn(before, PollReturns(id, ready));
    }

    /** The ready channels in order, the wake-up channel among them. */
    method HandleEvents()
      requires Valid() && phase == Dispatching && !callingPendingFunctors
      modifies this
      ensures Valid() && phase == Dispatching && activeChannels == []
      ensures executed == old(executed) && old(queued) <= queued
      ensures dispatched == old(dispatched) + old(activeChannels) && polls == old(polls) && polled == old(polled)
    {
      while activeChannels != []
        invariant Valid() && phase == Dispatching && executed == old(executed) && old(queued) <= queued
        invariant !callingPendingFunctors && polls == old(polls) && polled == old(polled)
        decreases |activeChannels|
      {
        if * {
          HandleWakeup();
        }
        HandleEvent();
      }
      assert dispatched == polled;
      if * {
        HandleWakeup();
      }
    }

    method HandleEvent()
      requires Valid() && phase == Dispatching && !callingPendingFunctors && activeChannels != []
      modifies this
      ensures Valid() && phase == Dispatching && !callingPendingFunctors && activeChannels == old(activeChannels)[1..]
      ensures executed == old(executed) && old(queued) <= queued
      ensures dispatched == old(dispatched) + [old(activeChannels)[0]] && polls == old(polls) && polled == old(polled)
    {
      Callback();
      assert activeChannels == [activeChannels[0]] + activeChannels[1..];
      dispatched, activeChannels := dispatched + [activeChannels[0]], activeChannels[1..];
    }

    method HandleWakeup()
      requires Valid() && phase == Dispatching
      modifies this`wakeupFd
      ensures Valid() && View() == Turn(old(View()), ReadEventfd(id)) && wakeupFd == 0
    {
      wakeupFd := 0;
    }

    method Swap() returns (batch: seq<Task>)
      requires Valid() && phase == Dispatching && callingPendingFunctors && activeChannels == []
      modifies this`pendingFunctors, this`functors, this`phase, this`early
      ensures Valid() && View() == Turn(old(View()), Step.Swap(id))
      ensures batch == functors == old(pendingFunctors) && pendingFunctors == []
    {
      batch := pendingFunctors;
      pendingFunctors, functors, phase, early := [], pendingFunctors, Running, false;
      assert executed + functors + [] == queued;
    }

    method Begin(f: Task)
      requires Valid() && phase == Running && functors != [] && f == functors[0]
      modifies this`functors, this`executed
      ensures Valid() && View() == Popped(old(View()))
    {
      assert executed + functors == executed + [f] + functors[1..];
      functors, executed := functors[1..], executed + [f];
    }

    /** Swaps the queue out and runs it in order, outside the lock; what is queued meanwhile, by
        the functors themselves or by others, waits for the next turn. */
    method DoPendingFunctors()
      requires Valid() && phase == Dispatching && activeChannels == []
      modifies this
      ensures Valid() && phase == Top && old(queued) <= executed <= queued
      ensures NoPoll()
    {
      callingPendingFunctors := true;
      Others(0);
      var batch := Swap();
      RunFunctors(batch);
      callingPendingFunctors, phase := false, Top;
    }

    method RunFunctors(batch: seq<Task>)
      requires Valid() && phase == Running && functors == batch && activeChannels == [] && !early
      modifies this
      ensures Valid() && phase == Running && functors == [] && activeChannels == [] && !early
      ensures executed == old(executed) + batch && old(queued) <= queued && NoPoll()
    {
      for i := 0 to |batch|
        invariant Valid() && phase == Running && functors == batch[i..] && executed == old(executed) + batch[..i]
        invariant activeChannels == [] && !early && old(queued) <= queued && NoPoll()
      {
        Begin(batch[i]);
        assert batch[..i + 1] == batch[..i] + [batch[i]];
        Callback();
      }
      assert batch[..|batch|] == batch;
    }

    /** One turn: unless asked to quit, it polls once, handles every channel reported, in order, and
        runs every task that was queued before it began; the loop ends only when asked to. */
    method Iterate() returns (again: bool)
      requires Valid() && phase == Top
      modifies this
      ensures Valid() && old(queued) <= queued
      ensures if again then phase == Top && old(queued) <= executed else phase == Exited && executed == old(executed)
      ensures (!again ==> quit) && (old(quit) ==> !again)
      ensures polls == old(polls) + (if again then 1 else 0) && old(polled) <= polled && dispatched == polled
      ensures !again ==> polled == old(polled)
    {
      Others(0);
      again := !quit;
      if !again {
        phase := Exited;
        return;
      }
      phase := Polling;
      Poll();
      HandleEvents();
      DoPendingFunctors();
    }
  }
}
