/** The chat layer on a connection: its steps come from the callbacks of the connection's life. */
module Lifecycle {
  import Links
  import opened Codec
  import opened Rooms

  /** The callback in which a handler takes a step; sends and half-closes come from the idle timer
      as well. */
  function Cause(m: Move): seq<Links.Call> {
    match m
    case Open(_) => [Links.Up]
    case Touch(_) => [Links.Message]
    case Join(_) => [Links.Message]
    case Rename(_) => [Links.Message]
    case Leave => [Links.Down]
    case Send(_, _) => []
    case Quit => []
  }

  function Causes(ts: seq<Turn>, c: ConnId): seq<Links.Call> {
    if ts == [] then []
    else
      var before, last := Causes(ts[..|ts| - 1], c), ts[|ts| - 1];
      if last.0 == c then before + Cause(last.1) else before
  }

  lemma CausesOf(t: Turn, c: ConnId)
    ensures Causes([t], c) == if t.0 == c then Cause(t.1) else []
  {
    var none: seq<Turn> := [];
    assert [t][..0] == none;
  }

  lemma {:induction false} CausesConcat(a: seq<Turn>, b: seq<Turn>, c: ConnId)
    ensures Causes(a + b, c) == Causes(a, c) + Causes(b, c)
  {
    if b == [] {
      assert a + b == a;
    } else {
      assert (a + b)[..|a + b| - 1] == a + b[..|b| - 1];
      CausesConcat(a, b[..|b| - 1], c);
    }
  }

  /** The steps happen in the callbacks, in their order; only a message callback makes several. */
  ghost predicate Drawn(causes: seq<Links.Call>, calls: seq<Links.Call>, at: seq<nat>) {
    && |at| == |causes|
    && (forall i :: 0 <= i < |at| ==> at[i] < |calls| && calls[at[i]] == causes[i])
    && (forall i, j :: 0 <= i < j < |at| ==> at[i] <= at[j] && (causes[i] != Links.Message ==> at[i] < at[j]))
  }

  /** The steps of `c` in a run of the rooms are those of one life of a connection. */
  ghost predicate Lives(ts: seq<Turn>, c: ConnId, ls: seq<Links.Life>) {
    Links.Run(ls) && exists at :: Drawn(Causes(ts, c), Links.Calls(ls), at)
  }

  /** The rooms and one life: the connection opens its session, leaves, and others and it go on. */
  ghost predicate Leaving(before: seq<Turn>, after: seq<Turn>, c: ConnId, ls: seq<Links.Life>) {
    var ts := before + [(c, Leave)] + after;
    AllClean(ts) && Lives(ts, c, ls) && c in After(before).session
  }

  ghost predicate IsOut(before: seq<Turn>, after: seq<Turn>, c: ConnId) {
    forall r :: c !in After(before + [(c, Leave)] + after).Members(r)
  }

  /** Whatever runs of the rooms this life takes part in, after its close callback it is in no room. */
  ghost predicate StaysOut(ls: seq<Links.Life>, c: ConnId) {
    forall before, after :: Leaving(before, after, c, ls) ==> IsOut(before, after, c)
  }

  lemma CausesAround(before: seq<Turn>, mid: seq<Turn>, t: Turn, tail: seq<Turn>, c: ConnId)
    requires t.0 == c
    ensures Causes(before + [(c, Leave)] + mid + [t] + tail, c)
         == Causes(before, c) + [Links.Down] + Causes(mid, c) + Cause(t.1) + Causes(tail, c)
  {
    CausesConcat(before + [(c, Leave)] + mid + [t], tail, c);
    CausesConcat(before + [(c, Leave)] + mid, [t], c);
    CausesConcat(before + [(c, Leave)], mid, c);
    CausesConcat(before, [(c, Leave)], c);
    CausesOf((c, Leave), c);
    CausesOf(t, c);
  }

  /** A turn that comes after the leave comes from a later callback. */
  lemma CauseAfterDown(before: seq<Turn>, after: seq<Turn>, c: ConnId, calls: seq<Links.Call>, at: seq<nat>, k: nat)
      returns (i: nat, j: nat)
    requires Drawn(Causes(before + [(c, Leave)] + after, c), calls, at)
    requires k < |after| && after[k].0 == c && Cause(after[k].1) != []
    ensures i < j < |calls| && calls[i] == Links.Down && [calls[j]] == Cause(after[k].1)
  {
    var mid, tail := after[..k], after[k + 1..];
    assert before + [(c, Leave)] + after == before + [(c, Leave)] + mid + [after[k]] + tail;
    CausesAround(before, mid, after[k], tail, c);
    i, j := DrawnApart(Causes(before, c), Causes(mid, c), Cause(after[k].1)[0], Causes(tail, c), calls, at);
  }

  lemma DrawnApart(a: seq<Links.Call>, b: seq<Links.Call>, call: Links.Call, d: seq<Links.Call>,
                   calls: seq<Links.Call>, at: seq<nat>) returns (i: nat, j: nat)
    requires Drawn(a + [Links.Down] + b + [call] + d, calls, at)
    ensures i < j < |calls| && calls[i] == Links.Down && calls[j] == call
  {
    var causes, m, n := a + [Links.Down] + b + [call] + d, |a|, |a| + 1 + |b|;
    assert causes[m] == Links.Down && causes[n] == call;
    assert calls[at[m]] == causes[m] && calls[at[n]] == causes[n];
    i, j := at[m], at[n];
  }

  /** When no message follows the close, the connection neither joins nor opens again. */
  lemma QuietStaysOut(ls: seq<Links.Life>, before: seq<Turn>, after: seq<Turn>, c: ConnId)
    requires Leaving(before, after, c, ls) && !Links.SpeaksLate(Links.Calls(ls))
    ensures IsOut(before, after, c)
  {
    Links.SpeaksLateExactly(ls);
    var calls := Links.Calls(ls);
    var at :| Drawn(Causes(before + [(c, Leave)] + after, c), calls, at);
    forall k | 0 <= k < |after|
      ensures !Returns(after[k], c)
    {
      if Returns(after[k], c) {
        var i, j := CauseAfterDown(before, after, c, calls, at, k);
      }
    }
    forall r ensures c !in After(before + [(c, Leave)] + after).Members(r) {
      OutUntilReturn(before, after, c, r);
    }
  }

  /** When one does, its callback may join a room again. */
  lemma LateComesBack(ls: seq<Links.Life>, c: ConnId)
    requires Links.Run(ls) && Links.SpeaksLate(Links.Calls(ls))
    ensures !StaysOut(ls, c)
  {
    Links.SpeaksLateExactly(ls);
    var calls := Links.Calls(ls);
    var i, j :| 0 <= i < j < |calls| && calls[i] == Links.Down && calls[j] == Links.Message;
    var before: seq<Turn>, after: seq<Turn> := [(c, Open(0))], [(c, Join("r"))];
    assert Drawn([Links.Up, Links.Down, Links.Message], calls, [0, i, j]);
    ReturnLives(ls, c, [0, i, j]);
    assert Leaving(before, after, c, ls) && !IsOut(before, after, c);
  }

  lemma ReturnLives(ls: seq<Links.Life>, c: ConnId, at: seq<nat>)
    requires Links.Run(ls) && Drawn([Links.Up, Links.Down, Links.Message], Links.Calls(ls), at)
    ensures Leaving([(c, Open(0))], [(c, Join("r"))], c, ls)
    ensures !IsOut([(c, Open(0))], [(c, Join("r"))], c)
  {
    var before: seq<Turn>, after: seq<Turn> := [(c, Open(0))], [(c, Join("r"))];
    assert before + [(c, Leave)] + after == [(c, Open(0)), (c, Leave), (c, Join("r"))];
    ReturnCauses(c, "r");
    OpenHasSession(c);
    ReturnStays(c, "r");
  }

  lemma OpenHasSession(c: ConnId)
    ensures c in After([(c, Open(0))]).session
  {
    var none: seq<Turn> := [];
    AfterOne(none, c, Open(0));
    assert none + [(c, Open(0))] == [(c, Open(0))];
  }

  /** A connection that has closed is in no room for the rest of every run its life takes part in,
      whatever the others do, if and only if its read callback never finds bytes once it is down. */
  lemma ClosedIsOut(ls: seq<Links.Life>, c: ConnId)
    requires Links.Run(ls)
    ensures StaysOut(ls, c) <==> !Links.SpeaksLate(Links.Calls(ls))
    ensures StaysOut(ls, c) <==> forall i :: 0 <= i < |ls| - 1 ==> !Links.ReadsLateAt(ls, i)
  {
    Links.SpeaksLateExactly(ls);
    if Links.SpeaksLate(Links.Calls(ls)) {
      LateComesBack(ls, c);
    } else {
      forall before, after | Leaving(before, after, c, ls)
        ensures IsOut(before, after, c)
      {
        QuietStaysOut(ls, before, after, c);
      }
    }
  }

  /** Under the kernel's rule it always stays out. */
  lemma RuledStaysOut(ls: seq<Links.Life>, c: ConnId)
    requires Links.Run(ls) && Links.Ruled(ls)
    ensures StaysOut(ls, c)
  {
    Links.RuledNeverHungReads(ls, |ls| - 1);
    Links.CallsInOrder(ls);
    Links.InOrderNotLate(Links.Calls(ls));
    ClosedIsOut(ls, c);
  }

  /** The witness for a kernel that breaks the rule: a life that speaks after its close joins again. */
  lemma ClosedComesBack(born: Links.Life, c: ConnId, r: string) returns (ls: seq<Links.Life>, ts: seq<Turn>)
    requires Links.Born(born) && born.link.sock.inbox == "" && r != "" && LineFree(r)
    ensures AllClean(ts) && Lives(ts, c, ls) && ts == [(c, Open(0)), (c, Leave), (c, Join(r))]
    ensures c in After(ts).Members(r)
  {
    ls := Links.SpeaksAfterClose(born);
    ts := [(c, Open(0)), (c, Leave), (c, Join(r))];
    ReturnCauses(c, r);
    assert Drawn(Causes(ts, c), Links.Calls(ls), [0, 1, 2]);
    ReturnStays(c, r);
  }

  lemma ReturnCauses(c: ConnId, r: string)
    ensures Causes([(c, Open(0)), (c, Leave), (c, Join(r))], c) == [Links.Up, Links.Down, Links.Message]
  {
    var open, leave, join: seq<Turn> := [(c, Open(0))], [(c, Leave)], [(c, Join(r))];
    CausesOf(open[0], c);
    CausesOf(leave[0], c);
    CausesOf(join[0], c);
    CausesConcat(open, leave, c);
    CausesConcat(open + leave, join, c);
    assert open + leave + join == [(c, Open(0)), (c, Leave), (c, Join(r))];
  }

  lemma ReturnStays(c: ConnId, r: string)
    requires r != ""
    ensures c in After([(c, Open(0)), (c, Leave), (c, Join(r))]).Members(r)
  {
    var none: seq<Turn>, open: seq<Turn> := [], [(c, Open(0))];
    AfterOne(none, c, Open(0));
    assert none + [(c, Open(0))] == open;
    AfterOne(open, c, Leave);
    AfterOne(open + [(c, Leave)], c, Join(r));
    assert open + [(c, Leave)] + [(c, Join(r))] == [(c, Open(0)), (c, Leave), (c, Join(r))];
    JoinMember(EMPTY.Opened(c, 0).Left(c), r, c);
  }

  lemma JoinMember(h: Hall, r: string, c: ConnId)
    requires c in h.session
    ensures c in h.Joined(r, c).Members(r)
  {
  }
}
