/** The mutexes of the server: one for the room table, one for each loop's task queue.  Each
    operation is the list of its lock calls, as the code makes them; threads run any operations. */
module Locks {
  import opened Basics

  datatype Lock = Room | Queue(l: nat)

  /** `Use` touches what the mutex guards: the room table with the nicknames, or a task queue. */
  datatype Action = Acquire(lock: Lock) | Use(lock: Lock) | Release(lock: Lock)

  datatype Operation =
    | Push(l: nat)                  // queueInLoop from a handler or a functor
    | Swap(l: nat)                  // doPendingFunctors, which holds nothing while it runs functors
    | RoomCall                      // setNick, join, leave, members
    | Broadcast(owners: seq<nat>)   // the loops of the members on other threads

  function Pushes(owners: seq<nat>): seq<Action> {
    if owners == [] then []
    else [Acquire(Queue(owners[0])), Use(Queue(owners[0])), Release(Queue(owners[0]))] + Pushes(owners[1..])
  }

  function Script(op: Operation): seq<Action> {
    match op
    case Push(l) => Pushes([l])
    case Swap(l) => Pushes([l])
    case RoomCall => [Acquire(Room), Use(Room), Release(Room)]
    case Broadcast(owners) => [Acquire(Room), Use(Room)] + Pushes(owners) + [Release(Room)]
  }

  /** What a thread holds, and the lock calls it still has to make. */
  datatype Thread = Thread(room: bool, queue: Option<nat>, todo: seq<Action>)

  type State = seq<Thread>

  predicate Holds(th: Thread, lock: Lock) {
    match lock
    case Room => th.room
    case Queue(l) => th.queue == Some(l)
  }

  predicate Unheld(s: State, lock: Lock) {
    forall t :: 0 <= t < |s| ==> !Holds(s[t], lock)
  }

  datatype Step = Begin(t: nat, op: Operation) | Go(t: nat)

  predicate Enabled(s: State, step: Step) {
    && step.t < |s|
    && match step
       case Begin(t, _) => s[t].todo == []
       case Go(t) => s[t].todo != [] && (s[t].todo[0].Acquire? ==> Unheld(s, s[t].todo[0].lock))
  }

  function Next(th: Thread): Thread
    requires th.todo != []
  {
    var rest := th.todo[1..];
    match th.todo[0]
    case Acquire(lock) => if lock.Room? then Thread(true, th.queue, rest) else Thread(th.room, Some(lock.l), rest)
    case Use(_) => Thread(th.room, th.queue, rest)
    case Release(lock) => if lock.Room? then Thread(false, th.queue, rest) else Thread(th.room, None, rest)
  }

  function Apply(s: State, step: Step): State
    requires Enabled(s, step)
  {
    match step
    case Begin(t, op) => s[t := s[t].(todo := Script(op))]
    case Go(t) => s[t := Next(s[t])]
  }

  /** The calls to come fit what is held: the room's mutex is taken with nothing held, a queue's
      with no queue's held, each is given back by its holder, and nothing is kept at the end. */
  predicate Fits(room: bool, queue: Option<nat>, todo: seq<Action>)
    decreases |todo|
  {
    if todo == [] then !room && queue.None?
    else
      match todo[0]
      case Acquire(lock) =>
        if lock.Room? then !room && queue.None? && Fits(true, None, todo[1..])
        else queue.None? && Fits(room, Some(lock.l), todo[1..])
      case Use(lock) => (if lock.Room? then room else queue == Some(lock.l)) && Fits(room, queue, todo[1..])
      case Release(lock) =>
        if lock.Room? then room && queue.None? && Fits(false, None, todo[1..])
        else queue == Some(lock.l) && Fits(room, None, todo[1..])
  }

  lemma {:induction false} PushesFit(room: bool, owners: seq<nat>, rest: seq<Action>)
    requires Fits(room, None, rest)
    ensures Fits(room, None, Pushes(owners) + rest)
  {
    if owners == [] {
      assert Pushes(owners) + rest == rest;
    } else {
      var l := owners[0];
      PushesFit(room, owners[1..], rest);
      var tail := Pushes(owners[1..]) + rest;
      assert Pushes(owners) + rest == [Acquire(Queue(l)), Use(Queue(l)), Release(Queue(l))] + tail;
      assert ([Acquire(Queue(l)), Use(Queue(l)), Release(Queue(l))] + tail)[1..]
          == [Use(Queue(l)), Release(Queue(l))] + tail;
      assert ([Use(Queue(l)), Release(Queue(l))] + tail)[1..] == [Release(Queue(l))] + tail;
      assert ([Release(Queue(l))] + tail)[1..] == tail;
    }
  }

  /** Every operation of the code makes its lock calls in that order. */
  lemma ScriptFits(op: Operation)
    ensures Fits(false, None, Script(op))
  {
    if op.Push? || op.Swap? {
      PushesFit(false, [op.l], []);
      assert Pushes([op.l]) + [] == Pushes([op.l]);
    } else if op.RoomCall? {
      assert Script(op)[1..] == [Use(Room), Release(Room)] && [Use(Room), Release(Room)][1..] == [Release(Room)];
      assert [Release(Room)][1..] == [];
    } else {
      assert [Release(Room)][1..] == [];
      PushesFit(true, op.owners, [Release(Room)]);
      assert Script(op)[1..] == [Use(Room)] + (Pushes(op.owners) + [Release(Room)]);
      assert ([Use(Room)] + (Pushes(op.owners) + [Release(Room)]))[1..] == Pushes(op.owners) + [Release(Room)];
    }
  }

  lemma {:induction false} PushesUse(owners: seq<nat>, lock: Lock)
    ensures Use(lock) in Pushes(owners) <==> lock.Queue? && lock.l in owners
    ensures Release(Room) !in Pushes(owners)
  {
    if owners != [] {
      PushesUse(owners[1..], lock);
      assert owners == [owners[0]] + owners[1..];
    }
  }

  /** What each operation touches: every call on the rooms the room table, a broadcast the queue of
      each of its members' loops too, and it gives the room's mutex back only at its end. */
  lemma ScriptUses(op: Operation, lock: Lock)
    ensures Use(lock) in Script(op) <==>
              match op
              case Push(l) => lock == Queue(l)
              case Swap(l) => lock == Queue(l)
              case RoomCall => lock == Room
              case Broadcast(owners) => lock == Room || lock.l in owners
    ensures op.Broadcast? ==>
              && Script(op)[0] == Acquire(Room)
              && forall k :: 0 <= k < |Script(op)| && Script(op)[k] == Release(Room) ==> k == |Script(op)| - 1
  {
    if op.Push? || op.Swap? {
      PushesUse([op.l], lock);
      assert lock == Queue(op.l) <==> lock.Queue? && lock.l in [op.l];
    } else if op.Broadcast? {
      PushesUse(op.owners, lock);
      var script, n := Script(op), |Pushes(op.owners)|;
      assert script == [Acquire(Room), Use(Room)] + Pushes(op.owners) + [Release(Room)];
      assert forall k :: 0 <= k < n ==> script[k + 2] == Pushes(op.owners)[k];
      assert forall k :: 2 <= k < n + 2 ==> script[k] == Pushes(op.owners)[k - 2];
    }
  }

  ghost predicate Inv(s: State) {
    && (forall t, u, lock :: 0 <= t < |s| && 0 <= u < |s| && Holds(s[t], lock) && Holds(s[u], lock) ==> t == u)
    && (forall t :: 0 <= t < |s| ==> Fits(s[t].room, s[t].queue, s[t].todo))
  }

  ghost predicate Init(s: State) {
    forall t :: 0 <= t < |s| ==> s[t] == Thread(false, None, [])
  }

  ghost predicate Moves(tr: seq<State>, i: nat)
    requires i + 1 < |tr|
  {
    exists step :: Enabled(tr[i], step) && tr[i + 1] == Apply(tr[i], step)
  }

  ghost predicate Run(tr: seq<State>) {
    tr != [] && Init(tr[0]) && forall i :: 0 <= i < |tr| - 1 ==> Moves(tr, i)
  }

  lemma InvKept(s: State, step: Step)
    requires Inv(s) && Enabled(s, step)
    ensures Inv(Apply(s, step))
  {
    if step.Begin? {
      ScriptFits(step.op);
    } else {
      var th := s[step.t];
      forall lock | Holds(Next(th), lock)
        ensures Holds(th, lock) || th.todo[0] == Acquire(lock)
      {
        assert th.todo[0].lock == if th.todo[0].lock.Room? then Room else Queue(th.todo[0].lock.l);
      }
    }
  }

  lemma {:induction false} RunInv(tr: seq<State>, i: nat)
    requires Run(tr) && i < |tr|
    ensures Inv(tr[i])
  {
    if i > 0 {
      RunInv(tr, i - 1);
      assert Moves(tr, i - 1);
      var step :| Enabled(tr[i - 1], step) && tr[i] == Apply(tr[i - 1], step);
      InvKept(tr[i - 1], step);
    }
  }

  /** No data race: whatever a mutex guards is touched by its holder only, hence by one thread at a
      time, in every reachable state. */
  lemma NoRace(tr: seq<State>, i: nat, t: nat, u: nat, lock: Lock)
    requires Run(tr) && i < |tr| && t < |tr[i]| && u < |tr[i]|
    requires tr[i][t].todo != [] && tr[i][t].todo[0] == Use(lock)
    ensures Holds(tr[i][t], lock)
    ensures tr[i][u].todo != [] && tr[i][u].todo[0] == Use(lock) ==> u == t
  {
    RunInv(tr, i);
    assert Fits(tr[i][t].room, tr[i][t].queue, tr[i][t].todo);
    assert Fits(tr[i][u].room, tr[i][u].queue, tr[i][u].todo);
    assert tr[i][u].todo != [] && tr[i][u].todo[0] == Use(lock) ==> Holds(tr[i][u], lock);
    assert Holds(tr[i][t], lock);
  }

  /** Whoever holds a mutex can go on, or waits for a queue's mutex whose holder can. */
  lemma HoldersProgress(tr: seq<State>, i: nat, t: nat, lock: Lock)
    requires Run(tr) && i < |tr| && t < |tr[i]| && Holds(tr[i][t], lock)
    ensures tr[i][t].todo != []
    ensures Enabled(tr[i], Go(t))
         || exists u :: 0 <= u < |tr[i]| && tr[i][t].todo[0].Acquire? && Holds(tr[i][u], tr[i][t].todo[0].lock)
                        && Enabled(tr[i], Go(u))
  {
    var s := tr[i];
    RunInv(tr, i);
    assert Fits(s[t].room, s[t].queue, s[t].todo);
    if !Enabled(s, Go(t)) {
      var wanted := s[t].todo[0].lock;
      var u :| 0 <= u < |s| && Holds(s[u], wanted);
      assert Fits(s[u].room, s[u].queue, s[u].todo);
      assert Enabled(s, Go(u));
    }
  }

  /** No deadlock: in every reachable state, while any thread still has a lock call to make, some
      thread can make its next one. */
  lemma NoDeadlock(tr: seq<State>, i: nat, t: nat)
    requires Run(tr) && i < |tr| && t < |tr[i]| && tr[i][t].todo != []
    ensures exists u :: 0 <= u < |tr[i]| && Enabled(tr[i], Go(u))
  {
    var s := tr[i];
    if !Enabled(s, Go(t)) {
      var u :| 0 <= u < |s| && Holds(s[u], s[t].todo[0].lock);
      HoldersProgress(tr, i, u, s[t].todo[0].lock);
    } else {
      assert Enabled(s, Go(t));
    }
  }
}
