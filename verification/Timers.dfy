/** The timers of one loop: a min-heap that must agree with a single one-shot timerfd.
    Times are integer nanoseconds of the monotonic clock. */
module Timers {
  import opened Basics

  const MIN_DELAY: int := 1000 // an all-zero it_value would disarm the timerfd

  datatype Timer = Timer(id: nat, when: int)

  // ----- The order of callbacks, as a run of events

  datatype Event =
    | Add(timer: Timer)           // enters the heap
    | Due(timer: Timer, now: int) // taken off the top of the heap because it is due
    | Fire(timer: Timer, at: int) // its callback starts

  /** The heap, the expired timers still to run, and the callbacks run so far with their start. */
  datatype Queue = Queue(heap: set<Timer>, due: seq<Timer>, ran: seq<Event>, clock: int)

  ghost predicate Earliest(heap: set<Timer>, t: Timer) {
    t in heap && forall u :: u in heap ==> t.when <= u.when
  }

  ghost predicate Known(q: Queue, t: Timer) {
    t in q.heap || t in q.due || Ran(q.ran, t)
  }

  ghost predicate Can(q: Queue, e: Event) {
    match e
    case Add(t) => !Known(q, t)
    case Due(t, now) => Earliest(q.heap, t) && t.when <= now && q.clock <= now
    case Fire(t, at) => q.due != [] && q.due[0] == t && q.clock <= at
  }

  function Do(q: Queue, e: Event): Queue {
    match e
    case Add(t) => q.(heap := q.heap + {t})
    case Due(t, now) => q.(heap := q.heap - {t}, due := q.due + [t], clock := now)
    case Fire(t, at) => q.(due := if q.due == [] then [] else q.due[1..], ran := q.ran + [e], clock := at)
  }

  ghost function After(start: int, es: seq<Event>): Queue {
    if es == [] then Queue({}, [], [], start) else Do(After(start, es[..|es| - 1]), es[|es| - 1])
  }

  ghost predicate CanAt(start: int, es: seq<Event>, i: nat)
    requires i < |es|
  {
    Can(After(start, es[..i]), es[i])
  }

  ghost predicate Trace(start: int, es: seq<Event>) {
    forall i :: 0 <= i < |es| ==> CanAt(start, es, i)
  }

  lemma KnownAfter(q: Queue, e: Event, t: Timer)
    requires Can(q, e) && Known(Do(q, e), t)
    ensures Known(q, t) || t == e.timer
  {
    var q' := Do(q, e);
    if i :| 0 <= i < |q'.ran| && q'.ran[i].timer == t && i < |q.ran| {
      assert q.ran[i].timer == t;
    }
  }

  lemma RanStays(q: Queue, e: Event, t: Timer)
    requires Ran(q.ran, t) || (e.Fire? && e.timer == t)
    ensures Ran(Do(q, e).ran, t)
  {
    var q' := Do(q, e);
    if i :| 0 <= i < |q.ran| && q.ran[i].timer == t {
      assert q'.ran[i].timer == t;
    } else {
      assert q'.ran[|q.ran|].timer == t;
    }
  }

  /** The run leads to this queue, and every event in it was possible. */
  ghost predicate LeadsTo(start: int, es: seq<Event>, q: Queue) {
    Trace(start, es) && After(start, es) == q
  }

  lemma LeadsOn(start: int, es: seq<Event>, q: Queue, e: Event)
    requires LeadsTo(start, es, q) && Can(q, e)
    ensures LeadsTo(start, es + [e], Do(q, e))
  {
    var longer := es + [e];
    assert longer[..|es|] == es;
    forall i | 0 <= i < |longer|
      ensures CanAt(start, longer, i)
    {
      if i < |es| {
        assert CanAt(start, es, i) && longer[..i] == es[..i];
      }
    }
  }

  /** Ids from `n` on are unused. */
  ghost predicate Numbered(q: Queue, n: nat) {
    forall t :: Known(q, t) ==> t.id < n
  }

  lemma NumberedOn(q: Queue, e: Event, n: nat, m: nat)
    requires Numbered(q, n) && Can(q, e) && n <= m && e.timer.id < m
    ensures Numbered(Do(q, e), m)
  {
    forall t | Known(Do(q, e), t)
      ensures t.id < m
    {
      KnownAfter(q, e, t);
    }
  }

  lemma AfterStep(start: int, es: seq<Event>, j: nat)
    requires Trace(start, es) && 0 < j <= |es|
    ensures Can(After(start, es[..j - 1]), es[j - 1])
    ensures After(start, es[..j]) == Do(After(start, es[..j - 1]), es[j - 1])
  {
    assert CanAt(start, es, j - 1);
    assert es[..j][..j - 1] == es[..j - 1] && es[..j][j - 1] == es[j - 1];
  }

  /** Callbacks scheduled so far, in the order in which they run. */
  ghost function Scheduled(q: Queue): seq<Timer> {
    seq(|q.ran|, i requires 0 <= i < |q.ran| => q.ran[i].timer) + q.due
  }

  ghost predicate Precedes(order: seq<Timer>, a: Timer, b: Timer) {
    exists i :: 0 <= i < |order| && order[i] == a && b !in order[..i + 1]
  }

  /** `a` comes first: both wait, or `a` is scheduled and `b` is not scheduled before it. */
  ghost predicate FirstComes(q: Queue, a: Timer, b: Timer) {
    || (a in q.heap && b in q.heap && a !in Scheduled(q) && b !in Scheduled(q))
    || Precedes(Scheduled(q), a, b)
  }

  lemma FirstStays(q: Queue, e: Event, a: Timer, b: Timer)
    requires Can(q, e) && a.when < b.when && FirstComes(q, a, b)
    ensures FirstComes(Do(q, e), a, b)
  {
    var q' := Do(q, e);
    var order, order' := Scheduled(q), Scheduled(q');
    match e {
      case Add(t) =>
        assert order' == order;
      case Due(t, now) =>
        assert order' == order + [t];
        if a !in order && t == a {
          assert order'[|order|] == a && b !in order'[..|order| + 1];
        } else if i :| 0 <= i < |order| && order[i] == a && b !in order[..i + 1] {
          assert order'[..i + 1] == order[..i + 1];
        }
      case Fire(t, at) =>
        assert order' == order;
    }
  }

  ghost predicate Ran(ran: seq<Event>, t: Timer) {
    exists i :: 0 <= i < |ran| && ran[i].timer == t
  }

  ghost predicate QueueInv(q: Queue) {
    && (forall t :: t in q.due ==> t !in q.heap && t.when <= q.clock)
    && (forall i :: 0 <= i < |q.ran| ==>
          q.ran[i].Fire? && q.ran[i].timer.when <= q.ran[i].at <= q.clock && q.ran[i].timer !in q.heap)
    && (forall i, j :: 0 <= i < j < |q.ran| ==> q.ran[i].at <= q.ran[j].at)
  }

  /** No callback ever starts before its time, and they start in the order of the log. */
  lemma {:induction false} TraceInv(start: int, es: seq<Event>, i: nat)
    requires Trace(start, es) && i <= |es|
    ensures QueueInv(After(start, es[..i]))
  {
    if i > 0 {
      TraceInv(start, es, i - 1);
      AfterStep(start, es, i);
      var q := After(start, es[..i - 1]);
      var q' := Do(q, es[i - 1]);
      if es[i - 1].Due? {
        assert forall t :: t in q'.due ==> t in q.due || t == es[i - 1].timer;
      } else if es[i - 1].Fire? {
        assert forall t :: t in q'.due ==> t in q.due;
        assert es[i - 1].timer in q.due;
      }
    }
  }

  /** A callback that has started has left the heap for good. */
  lemma RanIsGone(start: int, es: seq<Event>, t: Timer)
    requires Trace(start, es) && Ran(After(start, es).ran, t)
    ensures t !in After(start, es).heap
  {
    assert es[..|es|] == es;
    TraceInv(start, es, |es|);
  }

  lemma HeapIsUnscheduled(q: Queue, t: Timer)
    requires QueueInv(q) && t in q.heap
    ensures t !in Scheduled(q)
  {
    forall i | 0 <= i < |Scheduled(q)|
      ensures Scheduled(q)[i] != t
    {
      assert i >= |q.ran| ==> Scheduled(q)[i] == q.due[i - |q.ran|];
    }
  }

  lemma {:induction false} FirstComesLater(start: int, es: seq<Event>, i: nat, j: nat, a: Timer, b: Timer)
    requires Trace(start, es) && i <= j <= |es| && a.when < b.when
    requires a in After(start, es[..i]).heap && b in After(start, es[..i]).heap
    ensures FirstComes(After(start, es[..j]), a, b)
    decreases j
  {
    if j == i {
      TraceInv(start, es, i);
      HeapIsUnscheduled(After(start, es[..i]), a);
      HeapIsUnscheduled(After(start, es[..i]), b);
    } else {
      FirstComesLater(start, es, i, j - 1, a, b);
      AfterStep(start, es, j);
      FirstStays(After(start, es[..j - 1]), es[j - 1], a, b);
    }
  }

  /** Whatever callbacks add meanwhile, of two timers that were in the heap together the one due
      earlier runs earlier: once the later one has started, so has the earlier, before it. */
  lemma EarlierRunsFirst(start: int, es: seq<Event>, i: nat, j: nat, a: Timer, b: Timer, y: nat)
    requires Trace(start, es) && i <= j <= |es| && a.when < b.when
    requires a in After(start, es[..i]).heap && b in After(start, es[..i]).heap
    requires y < |After(start, es[..j]).ran| && After(start, es[..j]).ran[y].timer == b
    ensures exists x :: 0 <= x < y && After(start, es[..j]).ran[x].timer == a
  {
    FirstComesLater(start, es, i, j, a, b);
    var q := After(start, es[..j]);
    var order := Scheduled(q);
    assert order[y] == b;
    var x :| 0 <= x < |order| && order[x] == a && b !in order[..x + 1];
    assert forall k :: 0 <= k <= x ==> order[k] in order[..x + 1];
    assert q.ran[x].timer == a;
  }

  /** The earliest deadline in a non-empty heap. */
  ghost predicate FirstDeadline(heap: set<Timer>, when: int) {
    exists t :: Earliest(heap, t) && t.when == when
  }

  lemma FirstDeadlineAfterAdd(heap: set<Timer>, when: int, timer: Timer)
    requires heap != {} ==> FirstDeadline(heap, when)
    ensures FirstDeadline(heap + {timer}, if heap == {} || timer.when < when then timer.when else when)
  {
    if heap == {} || timer.when < when {
      assert Earliest(heap + {timer}, timer);
    } else {
      var t :| Earliest(heap, t) && t.when == when;
      assert Earliest(heap + {timer}, t);
    }
  }

  lemma FirstDeadlineUnique(heap: set<Timer>, when: int, top: Timer)
    requires FirstDeadline(heap, when) && Earliest(heap, top)
    ensures when == top.when
  {
  }

  // ----- The timer queue itself

  class TimerQueue {
    var timers: set<Timer>      // the heap; ids tell equal deadlines apart
    var deadline: Option<int>   // when the timerfd expires, or expired with its count unread
    var clock: int              // the monotonic clock at its last reading
    var nextId: nat
    ghost const start: int
    ghost var log: seq<Event>
    ghost var q: Queue          // what the log leads to
    ghost var armedFor: int     // the deadline it was last set for
    ghost var calledAt: int     // when the call that last set the timerfd began
    ghost var armedAt: int      // when the timerfd was set
    ghost var lag: int          // how long after reading the clock, within that call

    ghost predicate Recorded()
      reads this`log, this`q
    {
      LeadsTo(start, log, q)
    }

    /** The fields are what the events so far have made of them. */
    ghost predicate Current()
      reads this`timers, this`q, this`nextId, this`clock
    {
      q.heap == timers && q.clock <= clock && Numbered(q, nextId)
    }

    /** A non-empty heap has the timerfd set, for its top: never before it, and after it at most by
        the minimal delay or the time the system call itself took. */
    ghost predicate Armed()
      reads this`timers, this`armedFor, this`calledAt, this`armedAt, this`lag, this`deadline, this`clock
    {
      timers != {} ==> FirstDeadline(timers, armedFor) && SetFor(armedFor)
    }

    ghost predicate SetFor(when: int)
      reads this`calledAt, this`armedAt, this`lag, this`deadline, this`clock
    {
      && 0 <= lag <= armedAt - calledAt && armedAt <= clock
      && deadline == Some(Max(when + lag, armedAt + MIN_DELAY)) && when <= deadline.value
    }

    /** The timerfd has just been set for `when`: it expires a microsecond from now at the earliest, not
        before `when`, and no later than that or than `when` plus the time passed since `since`. */
    ghost predicate JustSet(when: int, since: int)
      reads this`deadline, this`clock
    {
      && deadline.Some? && clock + 1000 <= deadline.value
      && when <= deadline.value <= Max(when + (clock - since), clock + 1000)
    }

    ghost predicate Valid()
      reads this
    {
      Recorded() && Current() && q.due == [] && Armed()
    }

    constructor (now: int)
      ensures Valid() && timers == {}
    {
      timers, deadline, clock, nextId := {}, None, now, 0;
      start, log, armedFor, calledAt, armedAt, lag := now, [], now, now, now, 0;
      q := Queue({}, [], [], now);
    }

    ghost method Record(e: Event)
      requires Recorded() && Can(q, e)
      modifies this`log, this`q
      ensures Recorded() && log == old(log) + [e] && q == Do(old(q), e)
    {
      LeadsOn(start, log, q, e);
      log, q := log + [e], Do(q, e);
    }

    /** Reads the monotonic clock: any time not before the last reading. */
    method Now() returns (now: int)
      modifies this`clock
      ensures now == clock >= old(clock)
    {
      var passed: nat :| true;
      clock := clock + passed;
      now := clock;
    }

    method Top() returns (top: Timer)
      requires timers != {}
      ensures Earliest(timers, top)
    {
      top :| top in timers;
      var rest := timers - {top};
      while rest != {}
        invariant top in timers && rest <= timers
        invariant forall u :: u in timers && u !in rest ==> top.when <= u.when
        decreases |rest|
      {
        var u :| u in rest;
        if u.when < top.when {
          top := u;
        }
        rest := rest - {u};
      }
    }

    /** Sets the relative one-shot timer; the kernel counts from its own, later, reading. */
    method ResetTimerfd(when: int)
      modifies this`clock, this`deadline, this`armedFor, this`calledAt, this`armedAt, this`lag
      ensures clock >= old(clock) && armedFor == when && calledAt == old(clock) && SetFor(when)
      ensures JustSet(when, old(clock))
    {
      calledAt := clock;
      var now := Now();
      var ns := Max(when - now, MIN_DELAY);
      var at := Now();
      deadline := Some(at + ns);
      armedFor, armedAt, lag := when, at, at - now;
    }

    /** Adds a timer; an earlier one than the present top moves the timerfd forward. */
    method AddTimer(when: int) returns (timer: Timer)
      requires Recorded() && Current()
      modifies this
      ensures Recorded() && Current() && (old(Armed()) ==> Armed())
      ensures timers == old(timers) + {timer} && timer !in old(timers) && timer.when == when
      ensures log == old(log) + [Add(timer)] && clock >= old(clock)
      ensures q.due == old(q).due && q.ran == old(q).ran
      ensures if forall t :: t in old(timers) ==> when < t.when then JustSet(when, old(clock))
              else deadline == old(deadline)
    {
      timer := Timer(nextId, when);
      var earliest := IsEarliest(timer);
      Push(timer);
      if earliest {
        ResetTimerfd(when);
      }
    }

    /** Whether a timer would become the top; if not, the heap's first deadline stays. */
    method IsEarliest(timer: Timer) returns (earliest: bool)
      ensures earliest <==> forall t :: t in timers ==> timer.when < t.when
      ensures earliest ==> FirstDeadline(timers + {timer}, timer.when)
      ensures !earliest ==>
                timers != {} && (FirstDeadline(timers, armedFor) ==> FirstDeadline(timers + {timer}, armedFor))
    {
      earliest := timers == {};
      if timers == {} {
        FirstDeadlineAfterAdd(timers, timer.when, timer);
      } else {
        var top := Top();
        earliest := timer.when < top.when;
        assert FirstDeadline(timers, top.when);
        FirstDeadlineAfterAdd(timers, top.when, timer);
        if FirstDeadline(timers, armedFor) {
          FirstDeadlineUnique(timers, armedFor, top);
        }
      }
    }

    method Push(timer: Timer)
      requires Recorded() && Current() && timer.id == nextId
      modifies this`timers, this`nextId, this`log, this`q
      ensures Recorded() && Current()
      ensures timer !in old(timers) && timers == old(timers) + {timer} && log == old(log) + [Add(timer)]
      ensures q.due == old(q).due && q.ran == old(q).ran
    {
      NumberedOn(q, Add(timer), nextId, nextId + 1);
      Record(Add(timer));
      timers := timers + {timer};
      nextId := nextId + 1;
    }

    /** The timerfd is as it was, or was set to expire later than `now`. */
    twostate predicate NotBefore(now: int)
      reads this`deadline
    {
      deadline == old(deadline) || (deadline.Some? && deadline.value > now)
    }

    /** A timer callback, whatever it does: it may add timers. */
    method Callback()
      requires Recorded() && Current()
      modifies this
      ensures Recorded() && Current() && old(log) <= log && clock >= old(clock) && NotBefore(old(clock))
      ensures q.due == old(q).due && q.ran == old(q).ran && old(timers) <= timers
    {
      var adds: nat :| true;
      for i := 0 to adds
        invariant Recorded() && Current() && old(log) <= log && clock >= old(clock) && NotBefore(old(clock))
        invariant q.due == old(q).due && q.ran == old(q).ran && old(timers) <= timers
      {
        var when: int := *;
        var _ := AddTimer(when);
      }
    }

    /** The timerfd is readable: everything due by now runs, and the timerfd is set again. */
    method HandleRead() returns (now: int)
      requires Valid()
      modifies this
      ensures Valid() && old(log) <= log && now >= old(clock)
      ensures forall t :: t in old(timers) && t.when > now ==> t in timers
      ensures forall t :: t in old(timers) && t.when <= now ==> t !in timers && Ran(q.ran, t)
      ensures timers != {} ==> FirstDeadline(timers, armedFor) && JustSet(armedFor, now)
      ensures deadline.Some? ==> deadline.value > old(clock)
    {
      if deadline.Some? && deadline.value <= clock {
        deadline := None; // the expiry count is read away
      }
      now := Now();
      var expired := TakeDue(now);
      RunAll(expired);
      Rearm();
    }

    /** Points the timerfd at the present top, whatever the callbacks did to it. */
    method Rearm()
      modifies this`clock, this`deadline, this`armedFor, this`calledAt, this`armedAt, this`lag
      ensures Armed() && clock >= old(clock)
      ensures if timers != {} then FirstDeadline(timers, armedFor) && JustSet(armedFor, old(clock))
              else deadline == old(deadline)
    {
      if timers != {} {
        var top := Top();
        assert FirstDeadline(timers, top.when);
        ResetTimerfd(top.when);
      }
    }

    method TakeDue(now: int) returns (expired: seq<Timer>)
      requires Recorded() && Current() && q.due == [] && clock == now
      modifies this`timers, this`log, this`q
      ensures Recorded() && Current() && q.due == expired && q.ran == old(q).ran && old(log) <= log
      ensures timers <= old(timers) && (forall t :: t in timers ==> t.when > now)
      ensures forall t :: t in old(timers) && t !in timers ==> t in expired && t.when <= now
    {
      expired := [];
      while timers != {}
        invariant Recorded() && Current() && q.due == expired && q.ran == old(q).ran && old(log) <= log
        invariant timers <= old(timers)
        invariant forall t :: t in old(timers) && t !in timers ==> t in expired && t.when <= now
        decreases timers
      {
        var top := Top();
        if top.when > now {
          break;
        }
        assert Known(q, top);
        NumberedOn(q, Due(top, now), nextId, nextId);
        Record(Due(top, now));
        timers := timers - {top};
        expired := expired + [top];
      }
    }

    method RunAll(expired: seq<Timer>)
      requires Recorded() && Current() && q.due == expired
      modifies this
      ensures Recorded() && Current() && q.due == [] && old(log) <= log && clock >= old(clock)
      ensures NotBefore(old(clock))
      ensures old(timers) <= timers && (forall t :: t in expired ==> Ran(q.ran, t) && t !in timers)
    {
      for i := 0 to |expired|
        invariant Recorded() && Current() && q.due == expired[i..]
        invariant old(log) <= log && clock >= old(clock) && old(timers) <= timers && NotBefore(old(clock))
        invariant forall k :: 0 <= k < i ==> Ran(q.ran, expired[k])
      {
        Start(expired[i]);
        Callback();
      }
      forall t | t in expired
        ensures Ran(q.ran, t) && t !in timers
      {
        RanIsGone(start, log, t);
      }
    }

    method Start(timer: Timer)
      requires Recorded() && Current() && q.due != [] && q.due[0] == timer
      modifies this`clock, this`log, this`q
      ensures Recorded() && Current() && q.due == old(q).due[1..] && old(log) <= log && clock >= old(clock)
      ensures Ran(q.ran, timer) && forall t :: Ran(old(q).ran, t) ==> Ran(q.ran, t)
    {
      var at := Now();
      ghost var before, e := q, Fire(timer, at);
      assert Known(q, timer);
      NumberedOn(q, e, nextId, nextId);
      Record(e);
      forall t | Ran(before.ran, t) || t == timer
        ensures Ran(q.ran, t)
      {
        RanStays(before, e, t);
      }
    }
  }
}
