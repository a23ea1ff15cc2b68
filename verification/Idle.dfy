/** The idle watch of one connection: a chain of one-shot timers, each armed by the one before,
    that ends when the connection is gone or is kicked.  Times are integer nanoseconds. */
module Idle {

  datatype Event =
    | Input(now: int)                        // the message callback ran
    | Expire(read: int, now: int, armed: int) // the timer callback: found due at `read`, idle taken
                                              // at `now`, and any new timer counted from `armed`
    | Gone                                   // shut down or closed

  datatype Watch = Watch(
    timeout: int,
    connected: bool,
    lastActive: int,
    timers: seq<int>,   // when the outstanding timers of this connection expire
    clock: int,
    kicked: bool,
    inputs: nat,        // message callbacks run
    rearms: nat,        // timers armed by a timer
    seen: int,          // lastActive when the outstanding timer was armed
    seenInputs: nat,    // inputs when it was armed
    slack: int) {       // from the clock reading behind its delay to the one behind its deadline

    predicate Can(e: Event) {
      match e
      case Input(now) => clock <= now
      case Expire(read, now, armed) => timers != [] && timers[0] <= read <= now <= armed && clock <= read
      case Gone => true
    }

    function Armed(delay: int, now: int, at: int): Watch {
      this.(timers := timers + [at + delay], clock := at, seen := lastActive, seenInputs := inputs, slack := at - now)
    }

    function Do(e: Event): Watch
      requires Can(e)
    {
      match e
      case Input(now) => this.(lastActive := now, clock := now, inputs := inputs + 1)
      case Expire(_, now, armed) =>
        var fired := this.(timers := timers[1..], clock := now);
        var idle := now - lastActive;
        if !connected then fired
        else if idle >= timeout then fired.(connected := false, kicked := true)
        else fired.Armed(timeout - idle, now, armed).(rearms := rearms + 1)
      case Gone => this.(connected := false)
    }

    ghost predicate Good() {
      && lastActive <= clock && |timers| <= 1 && slack >= 0
      && (timers != [] ==> timers[0] == seen + timeout + slack && seen <= lastActive && timeout > 0)
      && (connected && timeout > 0 ==> |timers| == 1)
      && (kicked ==> !connected && timeout > 0)
      && rearms <= seenInputs <= inputs
      && (inputs == seenInputs ==> lastActive == seen)
    }

    lemma DoKeeps(e: Event)
      requires Good() && Can(e)
      ensures Do(e).Good()
    {
    }
  }

  /** A session is made at `made` and, when a timeout is set, its first timer armed at `at`. */
  function Started(timeout: int, made: int, at: int): Watch {
    var w := Watch(timeout, true, made, [], at, false, 0, 0, made, 0, at - made);
    if timeout > 0 then w.Armed(timeout, made, at) else w
  }

  function After(start: Watch, es: seq<Event>): Watch {
    if es == [] then start
    else
      var w, e := After(start, es[..|es| - 1]), es[|es| - 1];
      if w.Can(e) then w.Do(e) else w
  }

  ghost predicate Run(start: Watch, es: seq<Event>) {
    && (exists timeout, made, at :: made <= at && start == Started(timeout, made, at))
    && forall i :: 0 <= i < |es| ==> Possible(start, es, i)
  }

  ghost predicate Possible(start: Watch, es: seq<Event>, i: nat)
    requires i < |es|
  {
    After(start, es[..i]).Can(es[i])
  }

  lemma AfterStep(start: Watch, es: seq<Event>, j: nat)
    requires Run(start, es) && j < |es|
    ensures After(start, es[..j]).Can(es[j])
    ensures After(start, es[..j + 1]) == After(start, es[..j]).Do(es[j])
  {
    assert Possible(start, es, j) && es[..j + 1][..j] == es[..j];
  }

  /** In every run: a connected client has exactly one timer outstanding; it is due no earlier than
      the timeout after the input it was armed on; and no more timers are armed than inputs came. */
  lemma {:induction false} RunGood(start: Watch, es: seq<Event>, j: nat)
    requires Run(start, es) && j <= |es|
    ensures After(start, es[..j]).Good() && After(start, es[..j]).timeout == start.timeout
  {
    if j > 0 {
      RunGood(start, es, j - 1);
      AfterStep(start, es, j - 1);
      After(start, es[..j - 1]).DoKeeps(es[j - 1]);
    }
  }

  lemma OneTimerBoundedRearms(start: Watch, es: seq<Event>, j: nat)
    requires Run(start, es) && j <= |es|
    ensures var w := After(start, es[..j]);
            && (w.connected && start.timeout > 0 ==> |w.timers| == 1)
            && w.rearms <= w.inputs && |w.timers| <= 1
            && (w.timers != [] && w.inputs == w.seenInputs ==> w.timers[0] >= w.lastActive + start.timeout)
  {
    RunGood(start, es, j);
  }

  ghost predicate Kicks(start: Watch, es: seq<Event>, j: nat)
    requires j < |es|
  {
    !After(start, es[..j]).kicked && After(start, es[..j + 1]).kicked
  }

  lemma {:induction false} InputsBefore(start: Watch, es: seq<Event>, i: nat, j: nat)
    requires Run(start, es) && i < j <= |es| && es[i].Input?
    ensures es[i].now <= After(start, es[..j]).lastActive <= After(start, es[..j]).clock
    decreases j
  {
    AfterStep(start, es, j - 1);
    RunGood(start, es, j - 1);
    InputStep(After(start, es[..j - 1]), es[j - 1]);
    if i < j - 1 {
      InputsBefore(start, es, i, j - 1);
    }
  }

  lemma InputStep(w: Watch, e: Event)
    requires w.Good() && w.Can(e)
    ensures w.lastActive <= w.Do(e).lastActive <= w.Do(e).clock && (e.Input? ==> w.Do(e).lastActive == e.now)
  {
  }

  /** A kick comes only from a timer, and only when no input at all came for the whole timeout. */
  lemma KickMeansIdle(start: Watch, es: seq<Event>, i: nat, j: nat)
    requires Run(start, es) && i < j < |es| && Kicks(start, es, j)
    ensures es[j].Expire? && start.timeout > 0
    ensures es[i].Input? ==> es[i].now + start.timeout <= es[j].now
  {
    AfterStep(start, es, j);
    RunGood(start, es, j);
    if es[i].Input? {
      InputsBefore(start, es, i, j);
    }
  }

  /** A client that is gone, or was kicked, is neither kicked nor given a timer any more. */
  lemma {:induction false} GoneStays(start: Watch, es: seq<Event>, i: nat, j: nat)
    requires Run(start, es) && i <= j <= |es| && !After(start, es[..i]).connected
    ensures var v, w := After(start, es[..i]), After(start, es[..j]);
            && !w.connected && w.kicked == v.kicked && w.rearms == v.rearms && |w.timers| <= |v.timers|
    decreases j
  {
    if i < j {
      GoneStays(start, es, i, j - 1);
      AfterStep(start, es, j - 1);
      GoneStep(After(start, es[..j - 1]), es[j - 1]);
    }
  }

  lemma GoneStep(w: Watch, e: Event)
    requires w.Can(e)
    ensures !w.connected ==>
              var v := w.Do(e); !v.connected && v.kicked == w.kicked && v.rearms == w.rearms && |v.timers| <= |w.timers|
    ensures e.Gone? ==> !w.Do(e).connected
  {
  }

  ghost predicate Silent(es: seq<Event>, i: nat, j: nat)
    requires i <= j <= |es|
  {
    forall k :: i <= k < j ==> !es[k].Input?
  }

  /** On silence the outstanding timer stays the one armed at the last input. */
  lemma {:induction false} SilenceKeeps(start: Watch, es: seq<Event>, i: nat, j: nat)
    requires Run(start, es) && i <= j <= |es| && Silent(es, i, j)
    requires (i == 0 || es[i - 1].Expire?) && After(start, es[..j]).connected
    ensures After(start, es[..j]).inputs == After(start, es[..j]).seenInputs
    decreases j
  {
    if j > 0 {
      AfterStep(start, es, j - 1);
      RunGood(start, es, j - 1);
      if i < j {
        SilenceKeeps(start, es, i, j - 1);
      }
    }
  }

  /** A client that stays silent from one expiry (or from the start) to the next is kicked at that
      next one: the chain never renews itself on silence. */
  lemma SilentIsKicked(start: Watch, es: seq<Event>, i: nat, j: nat)
    requires Run(start, es) && i <= j < |es| && es[j].Expire? && Silent(es, i, j)
    requires i == 0 || es[i - 1].Expire?
    requires After(start, es[..j]).connected
    ensures Kicks(start, es, j)
  {
    RunGood(start, es, j);
    AfterStep(start, es, j);
    SilenceKeeps(start, es, i, j);
  }

  // ----- The handlers

  class IdleWatch {
    const idleTimeout: int
    var connected: bool
    var lastActive: int     // Session::lastActive
    var timers: seq<int>    // this connection's entries in the loop's timer queue
    var clock: int
    var kicked: bool
    ghost var inputs: nat
    ghost var rearms: nat
    ghost var seen: int
    ghost var seenInputs: nat
    ghost var slack: int

    ghost function View(): Watch
      reads this
    {
      Watch(idleTimeout, connected, lastActive, timers, clock, kicked, inputs, rearms, seen, seenInputs, slack)
    }

    ghost predicate Valid()
      reads this
    {
      View().Good()
    }

    method Now() returns (now: int)
      modifies this`clock
      ensures now == clock >= old(clock)
    {
      var passed: nat :| true;
      clock := clock + passed;
      now := clock;
    }

    /** runAfter: the deadline counts from a reading of the clock of its own. */
    method ArmIdleTimer(delay: int, ghost now: int)
      requires now <= clock
      modifies this`timers, this`clock, this`seen, this`seenInputs, this`slack
      ensures clock >= old(clock) && View() == old(View()).Armed(delay, now, clock)
    {
      var at := Now();
      timers := timers + [at + delay];
      seen, seenInputs, slack := lastActive, inputs, at - now;
    }

    /** onConnection, for a connection that has just come up. */
    constructor (idleTimeout: int, made: int)
      ensures Valid() && made <= clock && View() == Started(idleTimeout, made, clock)
    {
      this.idleTimeout := idleTimeout;
      connected, lastActive, timers, clock, kicked := true, made, [], made, false;
      inputs, rearms, seen, seenInputs, slack := 0, 0, made, 0, 0;
      new;
      if idleTimeout > 0 {
        ArmIdleTimer(idleTimeout, made);
      }
    }

    method OnMessage() returns (ghost e: Event)
      requires Valid()
      modifies this
      ensures Valid() && old(View()).Can(e) && e.Input? && View() == old(View()).Do(e)
      ensures lastActive == clock >= old(clock) && timers == old(timers) && connected == old(connected)
    {
      var now := Now();
      e := Input(now);
      lastActive, inputs := now, inputs + 1;
    }

    /** The timer queue runs this connection's timer, which it found due; `kick` asks the chat server
        to say farewell and half-close. */
    method OnTimer() returns (kick: bool, ghost e: Event)
      requires Valid() && timers != [] && timers[0] <= clock
      modifies this
      ensures Valid() && old(View()).Can(e) && e.Expire? && View() == old(View()).Do(e)
      ensures kick <==> !old(kicked) && kicked
      ensures !old(connected) ==> !kick && !connected && timers == old(timers[1..])
      ensures old(connected) ==> kick == !connected && (if kick then timers == [] else |timers| == 1)
    {
      kick := false;
      ghost var read := clock;
      timers := timers[1..];
      var now := Now();
      e := Expire(read, now, now);
      if !connected {
        return;
      }
      var idle := now - lastActive;
      if idle >= idleTimeout {
        connected, kicked, kick := false, true, true; // the chat server says farewell and half-closes
      } else {
        ArmIdleTimer(idleTimeout - idle, now);
        rearms := rearms + 1;
        e := Expire(read, now, clock);
      }
    }

    method OnGone()
      requires Valid()
      modifies this`connected
      ensures Valid() && View() == old(View()).Do(Gone) && !connected
    {
      connected := false;
    }
  }
}
