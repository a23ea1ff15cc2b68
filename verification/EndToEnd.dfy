/** From one client's keyboard to another client's screen: the chat layer, the threads, the write
    path of the receiving connection, and the line protocol together. */
module EndToEnd {
  import Links
  import Rooms
  import opened Basics
  import opened Codec
  import opened Reactor
  import opened ReactorInvariant
  import opened ReactorTheorems
  import opened ReactorLimits
  import opened States

  function Texts(ms: seq<Message>): seq<string> {
    seq(|ms|, i requires 0 <= i < |ms| => ms[i].text)
  }

  // ----- The whole server: the threads, the life of one connection, and the turns of the chat layer

  datatype Whole = Whole(sys: Sys, life: Links.Life, ts: seq<Rooms.Turn>)

  /** What the turns of one thread, that is of the connections it owns, told a connection, in order. */
  function ToldBy(heard: seq<(Rooms.ConnId, string)>, s: Sys, t: ThreadId): seq<string> {
    if heard == [] then []
    else
      var last := heard[|heard| - 1];
      ToldBy(heard[..|heard| - 1], s, t)
      + if last.0 < |s.conns| && s.conns[last.0].owner == t then [last.1] else []
  }

  function Told(w: Whole, c: ConnId, t: ThreadId): seq<string> {
    ToldBy(Rooms.Heard(w.ts, c), w.sys, t)
  }

  /** A handler sends what its turns told, in that order: this is the next message of thread `t`. */
  ghost predicate Says(w: Whole, t: ThreadId, c: ConnId, text: string)
    requires c < |w.sys.conns|
  {
    var n := |From(w.sys.conns[c].issued, t)|;
    n < |Told(w, c, t)| && text == Told(w, c, t)[n]
  }

  /** A handler takes a turn on behalf of a connection. */
  ghost predicate TakesTurn(a: Whole, b: Whole, d: Rooms.ConnId, m: Rooms.Move) {
    d < |a.sys.conns| && Rooms.Clean(m) && b == a.(ts := a.ts + [(d, m)])
  }

  function Accepted(s: Sys, c: ConnId): seq<Message> {
    if c < |s.conns| then s.conns[c].accepted else []
  }

  /** sendInLoop took the message on both sides. */
  ghost predicate Takes(a: Whole, b: Whole, c: ConnId, m: Message, op: Links.Op) {
    && Accepted(b.sys, c) == Accepted(a.sys, c) + [m]
    && op.Send? && op.msg == m.text && a.life.link.state == Connected
    && a.life.Enabled(op) && b.life == a.life.Apply(op)
  }

  /** A step of the threads; one that accepts a message on this connection is a step of its life. */
  ghost predicate Threads(a: Whole, b: Whole, c: ConnId, step: Step) {
    && Enabled(a.sys, step) && b.sys == Apply(a.sys, step) && b.ts == a.ts
    && (step.Send? ==> Says(a, step.t, step.c, step.text))
    && ((Accepted(b.sys, c) == Accepted(a.sys, c) && b.life == a.life) || exists m, op :: Takes(a, b, c, m, op))
  }

  /** A step of the connection's life that takes no message. */
  ghost predicate Proceeds(a: Whole, b: Whole, op: Links.Op) {
    && a.life.Enabled(op) && b == a.(life := a.life.Apply(op))
    && (op.Send? ==> a.life.link.state != Connected)
  }

  ghost predicate WholeStep(a: Whole, b: Whole, c: ConnId) {
    || (exists d, m :: TakesTurn(a, b, d, m))
    || (exists step :: Threads(a, b, c, step))
    || (exists op :: Proceeds(a, b, op))
  }

  ghost predicate WholeMove(ws: seq<Whole>, i: nat, c: ConnId)
    requires i + 1 < |ws|
  {
    WholeStep(ws[i], ws[i + 1], c)
  }

  ghost predicate WholeRun(ws: seq<Whole>, c: ConnId) {
    && ws != [] && Init(ws[0].sys) && Links.Born(ws[0].life) && ws[0].ts == []
    && forall i :: 0 <= i < |ws| - 1 ==> WholeMove(ws, i, c)
  }

  // ----- What the threads send is what the turns told, thread by thread, in order

  ghost predicate ActorsExist(heard: seq<(Rooms.ConnId, string)>, s: Sys) {
    forall i :: 0 <= i < |heard| ==> heard[i].0 < |s.conns|
  }

  ghost predicate Voiced(w: Whole, c: ConnId, t: ThreadId)
    requires c < |w.sys.conns|
  {
    Texts(From(w.sys.conns[c].issued, t)) <= Told(w, c, t)
  }

  ghost predicate Chats(w: Whole) {
    && Inv(w.sys) && IssuersExist(w.sys) && Rooms.AllClean(w.ts)
    && (forall c :: ActorsExist(Rooms.Heard(w.ts, c), w.sys))
    && (forall c, t :: 0 <= c < |w.sys.conns| && 0 <= t ==> Voiced(w, c, t))
  }

  lemma {:induction false} ToldBySame(heard: seq<(Rooms.ConnId, string)>, s: Sys, s': Sys, t: ThreadId)
    requires ActorsExist(heard, s) && Grows(s, s')
    ensures ToldBy(heard, s', t) == ToldBy(heard, s, t)
  {
    if heard != [] {
      ToldBySame(heard[..|heard| - 1], s, s', t);
    }
  }

  lemma ToldByMore(heard: seq<(Rooms.ConnId, string)>, more: seq<(Rooms.ConnId, string)>, s: Sys, t: ThreadId)
    requires |more| <= 1
    ensures ToldBy(heard, s, t) <= ToldBy(heard + more, s, t)
  {
    if more == [] {
      assert heard + more == heard;
    } else {
      assert (heard + more)[..|heard|] == heard;
    }
  }

  lemma TurnKeeps(a: Whole, b: Whole, d: Rooms.ConnId, m: Rooms.Move)
    requires Chats(a) && TakesTurn(a, b, d, m)
    ensures Chats(b)
  {
    forall c ensures ActorsExist(Rooms.Heard(b.ts, c), b.sys) {
      Rooms.HeardOne(a.ts, (d, m), c);
      assert ActorsExist(Rooms.Heard(a.ts, c), a.sys);
    }
    forall c, t | 0 <= c < |b.sys.conns| && 0 <= t
      ensures Voiced(b, c, t)
    {
      assert Voiced(a, c, t);
      Rooms.HeardOne(a.ts, (d, m), c);
      ToldByMore(Rooms.Heard(a.ts, c), Rooms.Heard(b.ts, c)[|Rooms.Heard(a.ts, c)|..], a.sys, t);
    }
  }

  /** What one step of the threads adds to what was sent. */
  lemma IssuedOne(s: Sys, step: Step, c: ConnId)
    requires Inv(s) && Enabled(s, step) && c < |Apply(s, step).conns|
    ensures c >= |s.conns| ==> Apply(s, step).conns[c].issued == []
    ensures c < |s.conns| ==>
              var k, k' := s.conns[c], Apply(s, step).conns[c];
              || k'.issued == k.issued
              || (step.Send? && step.c == c && k'.issued == k.issued + [Message(step.t, step.text)])
  {
    if step.RunTask? {
      RunEffect(s, step.l);
    } else if step.CloseEvent? {
      CloseEffect(s, step.l);
    } else if !step.Send? && !step.Accept? {
      NothingIssued(s, step);
    }
  }

  lemma VoicedOn(a: Whole, b: Whole, step: Step, c: ConnId, t: ThreadId)
    requires Chats(a) && Enabled(a.sys, step) && b.sys == Apply(a.sys, step) && b.ts == a.ts
    requires step.Send? ==> Says(a, step.t, step.c, step.text)
    requires c < |b.sys.conns| && Grows(a.sys, b.sys)
    ensures Voiced(b, c, t)
  {
    IssuedOne(a.sys, step, c);
    assert ActorsExist(Rooms.Heard(a.ts, c), a.sys);
    ToldBySame(Rooms.Heard(a.ts, c), a.sys, b.sys, t);
    if c < |a.sys.conns| {
      assert Voiced(a, c, t);
      if b.sys.conns[c].issued != a.sys.conns[c].issued {
        FromAppend(a.sys.conns[c].issued, Message(step.t, step.text), t);
      }
    }
  }

  lemma ThreadsKeep(a: Whole, b: Whole, c: ConnId, step: Step)
    requires Chats(a) && Threads(a, b, c, step)
    ensures Chats(b)
  {
    InvKept(a.sys, step);
    StepGrows(a.sys, step);
    StepIssues(a.sys, step);
    forall d ensures ActorsExist(Rooms.Heard(b.ts, d), b.sys) {
      assert ActorsExist(Rooms.Heard(a.ts, d), a.sys);
    }
    forall d, t | 0 <= d < |b.sys.conns| && 0 <= t
      ensures Voiced(b, d, t)
    {
      VoicedOn(a, b, step, d, t);
    }
  }

  lemma WholeStepKeeps(a: Whole, b: Whole, c: ConnId)
    requires Chats(a) && WholeStep(a, b, c)
    ensures Chats(b) && Later(a.sys, b.sys)
  {
    if d, m :| TakesTurn(a, b, d, m) {
      TurnKeeps(a, b, d, m);
    } else if step :| Threads(a, b, c, step) {
      ThreadsKeep(a, b, c, step);
      assert Next(a.sys, b.sys);
      MoveIsLater(a.sys, b.sys);
    } else {
      var op :| Proceeds(a, b, op);
      forall d, t | 0 <= d < |b.sys.conns| && 0 <= t
        ensures Voiced(b, d, t)
      {
        assert Voiced(a, d, t);
      }
    }
  }

  /** In every run of the whole server: what a thread has sent a connection is, in order, the first
      messages that the turns of that thread told it; nothing sent or accepted is taken back. */
  lemma {:induction false} RunChats(ws: seq<Whole>, c: ConnId, i: nat, j: nat)
    requires WholeRun(ws, c) && i <= j < |ws|
    ensures Chats(ws[i]) && Chats(ws[j]) && Later(ws[i].sys, ws[j].sys)
  {
    if j == 0 {
      InitInv(ws[0].sys);
    } else {
      RunChats(ws, c, if i < j then i else j - 1, j - 1);
      assert WholeMove(ws, j - 1, c);
      WholeStepKeeps(ws[j - 1], ws[j], c);
      LaterOn(ws[if i < j then i else j - 1].sys, ws[j - 1].sys, ws[j].sys);
    }
  }

  // ----- Every accepted message is one line

  lemma {:induction false} FromHolds(a: seq<Message>, m: Message)
    requires m in a
    ensures m in From(a, m.from)
  {
    if a[|a| - 1] != m {
      assert a == a[..|a| - 1] + [a[|a| - 1]];
      FromHolds(a[..|a| - 1], m);
    }
  }

  lemma {:induction false} ToldByFramed(heard: seq<(Rooms.ConnId, string)>, s: Sys, t: ThreadId)
    requires forall i :: 0 <= i < |heard| ==> Framed(heard[i].1)
    ensures AllFramed(ToldBy(heard, s, t))
  {
    if heard != [] {
      ToldByFramed(heard[..|heard| - 1], s, t);
    }
  }

  /** What is accepted from a thread is, in order, the first of what its turns told the connection. */
  lemma AcceptedFrom(w: Whole, c: ConnId, t: ThreadId)
    requires Chats(w) && c < |w.sys.conns| && t < |w.sys.threads|
    ensures Texts(From(w.sys.conns[c].accepted, t)) <= Told(w, c, t)
  {
    assert OrderOk(w.sys, c, t) && Voiced(w, c, t);
  }

  /** Nothing is accepted that the chat layer did not tell, and so every accepted message is one line. */
  lemma AcceptedLines(w: Whole, c: ConnId)
    requires Chats(w) && c < |w.sys.conns|
    ensures AllFramed(Texts(w.sys.conns[c].accepted))
  {
    var k := w.sys.conns[c];
    forall n | 0 <= n < |k.accepted|
      ensures Framed(Texts(k.accepted)[n])
    {
      var m := k.accepted[n];
      AcceptedFrom(w, c, m.from);
      FromHolds(k.accepted, m);
      var i :| 0 <= i < |From(k.accepted, m.from)| && From(k.accepted, m.from)[i] == m;
      assert Texts(From(k.accepted, m.from))[i] == Told(w, c, m.from)[i];
      Rooms.HeardIsSaid(w.ts, c);
      ToldByFramed(Rooms.Heard(w.ts, c), w.sys, m.from);
    }
  }

  // ----- What is written: the messages the owner loop accepts

  lemma ProceedsKeeps(l: Links.Life, op: Links.Op)
    requires l.Good() && l.Enabled(op) && (op.Send? ==> l.link.state != Connected)
    ensures l.Apply(op).Good() && l.Apply(op).link.accepted == l.link.accepted
  {
    Links.StepKeeps(l, op);
  }

  ghost predicate Same(a: Whole, c: ConnId) {
    a.life.Good() && a.life.link.accepted == Flatten(Texts(Accepted(a.sys, c)))
  }

  lemma TakesKeeps(a: Whole, b: Whole, c: ConnId, m: Message, op: Links.Op)
    requires Same(a, c) && Takes(a, b, c, m, op)
    ensures Same(b, c)
  {
    Links.StepKeeps(a.life, op);
    assert Texts(Accepted(b.sys, c)) == Texts(Accepted(a.sys, c)) + [m.text];
    FlattenOne(Texts(Accepted(a.sys, c)), m.text);
  }

  lemma SameKept(a: Whole, b: Whole, c: ConnId)
    requires Same(a, c) && WholeStep(a, b, c)
    ensures Same(b, c)
  {
    if d, m :| TakesTurn(a, b, d, m) {
    } else if step :| Threads(a, b, c, step) {
      if m, op :| Takes(a, b, c, m, op) {
        TakesKeeps(a, b, c, m, op);
      }
    } else {
      var op :| Proceeds(a, b, op);
      ProceedsKeeps(a.life, op);
    }
  }

  /** The bytes the connection took are the messages the loop accepted, one after the other. */
  lemma {:induction false} SameAccepted(ws: seq<Whole>, c: ConnId, i: nat)
    requires WholeRun(ws, c) && i < |ws|
    ensures Same(ws[i], c)
  {
    if i == 0 {
      Links.BornGood(ws[0].life);
    } else {
      SameAccepted(ws, c, i - 1);
      assert WholeMove(ws, i - 1, c);
      SameKept(ws[i - 1], ws[i], c);
    }
  }

  // ----- What is read

  /** What a client has received, cut into any chunks, decodes to the first messages its connection
      accepted, in order, whole and once each, followed by a beginning of the next one at most; and
      among them those of any one thread are, in order, the first messages that the turns of that
      thread told this client, by then or ever. */
  lemma ClientSees(ws: seq<Whole>, i: nat, j: nat, c: ConnId, t: ThreadId, chunks: seq<string>)
    requires WholeRun(ws, c) && i <= j < |ws| && c < |ws[i].sys.conns| && t < |ws[i].sys.threads|
    requires Flatten(chunks) <= ws[i].life.link.sock.sent
    ensures var d, accepted := Feed("", chunks), ws[i].sys.conns[c].accepted;
            && |d.lines| <= |accepted| && |ws[i].sys.conns| <= |ws[j].sys.conns|
            && d.lines == Bodies(Texts(accepted[..|d.lines|]))
            && (if |d.lines| == |accepted| then d.rest == "" else d.rest <= Body(accepted[|d.lines|].text))
            && From(accepted[..|d.lines|], t) <= From(ws[j].sys.conns[c].issued, t)
            && Texts(From(accepted[..|d.lines|], t)) <= Told(ws[j], c, t)
  {
    var accepted, d := ws[i].sys.conns[c].accepted, Feed("", chunks);
    SameAccepted(ws, c, i);
    RunChats(ws, c, i, j);
    AcceptedLines(ws[i], c);
    ReceivedDecodes(accepted, ws[i].life.link, chunks);
    var seen := accepted[..|d.lines|];
    FromPrefix(seen, accepted, t);
    SentLater(ws[i].sys, ws[j].sys, c, t);
    assert Voiced(ws[j], c, t);
    assert Texts(From(seen, t)) <= Texts(From(ws[j].sys.conns[c].issued, t));
  }

  lemma SentLater(s: Sys, s': Sys, c: ConnId, t: ThreadId)
    requires Inv(s) && Later(s, s') && c < |s.conns| && t < |s.threads|
    ensures From(s.conns[c].accepted, t) <= From(s'.conns[c].issued, t)
  {
    assert OrderOk(s, c, t);
    FromPrefix(s.conns[c].issued, s'.conns[c].issued, t);
  }

  lemma ReceivedDecodes(accepted: seq<Message>, link: Links.Link, chunks: seq<string>)
    requires AllFramed(Texts(accepted))
    requires link.Good() && link.accepted == Flatten(Texts(accepted))
    requires Flatten(chunks) <= link.sock.sent
    ensures var d := Feed("", chunks);
            && |d.lines| <= |accepted|
            && d.lines == Bodies(Texts(accepted[..|d.lines|]))
            && (if |d.lines| == |accepted| then d.rest == "" else d.rest <= Body(accepted[|d.lines|].text))
  {
    FedDecodes(Texts(accepted), chunks, link.sock.sent, link.output);
    var n := |Feed("", chunks).lines|;
    assert Bodies(Texts(accepted))[..n] == Bodies(Texts(accepted[..n]));
  }

  lemma FedDecodes(texts: seq<string>, chunks: seq<string>, sent: string, output: string)
    requires AllFramed(texts) && Flatten(texts) == sent + output && Flatten(chunks) <= sent
    ensures DecodesTo(Flatten(chunks), texts) && Feed("", chunks) == Decode(Flatten(chunks))
  {
    assert "" + Flatten(chunks) == Flatten(chunks);
    ChunkInvariant("", chunks);
    assert Flatten(chunks) <= sent <= Flatten(texts);
    PrefixDecodes(texts, Flatten(chunks));
  }
}
