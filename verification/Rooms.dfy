/** The room table and the sessions it must agree with, as values, over every interleaving of
    the steps that the handlers of different connections take on their threads. */
module Rooms {
  import opened Codec

  type ConnId = nat

  datatype Session = Session(nick: string, room: string, lastActive: int)

  /** One message to each of some connections. */
  function Told(said: map<ConnId, seq<string>>, to: set<ConnId>, msg: string): map<ConnId, seq<string>> {
    map c | c in said :: if c in to then said[c] + [msg] else said[c]
  }

  lemma ToldOneMore(said: map<ConnId, seq<string>>, to: set<ConnId>, c: ConnId, msg: string)
    requires c in said && c !in to
    ensures var told := Told(said, to, msg); told[c := told[c] + [msg]] == Told(said, to + {c}, msg)
  {
  }

  /** Rooms, sessions and what each connection was sent, as values. */
  datatype Hall = Hall(
    rooms: map<string, set<ConnId>>,
    session: map<ConnId, Session>,    // every connection's context
    left: set<ConnId>,                // gone through leave since their last join
    said: map<ConnId, seq<string>>,   // messages sent to each connection
    quits: set<ConnId>) {             // connections shut down by the chat layer

    function Members(r: string): set<ConnId> {
      if r in rooms then rooms[r] else {}
    }

    function Erased(r: string, c: ConnId): Hall {
      if r == "" then this else this.(rooms := rooms[r := Members(r) - {c}])
    }

    function Joined(r: string, c: ConnId): Hall
      requires c in session
    {
      var out := Erased(session[c].room, c);
      out.(rooms := out.rooms[r := out.Members(r) + {c}], session := session[c := session[c].(room := r)],
           left := left - {c})
    }

    function Left(c: ConnId): Hall {
      if c !in session then this else Erased(session[c].room, c).(left := left + {c})
    }

    function Renamed(c: ConnId, name: string): Hall
      requires c in session
    {
      this.(session := session[c := session[c].(nick := name)])
    }

    function Touched(c: ConnId, now: int): Hall
      requires c in session
    {
      this.(session := session[c := session[c].(lastActive := now)])
    }

    function Opened(c: ConnId, now: int): Hall {
      this.(session := session[c := Session("", "", now)], said := said[c := []])
    }

    function Sent(to: set<ConnId>, msg: string): Hall {
      this.(said := Told(said, to, msg))
    }

    ghost predicate Shaped() {
      && session.Keys == said.Keys && left <= session.Keys
      && forall r :: r in rooms ==> rooms[r] <= session.Keys
    }

    /** The table and the sessions tell the same story: the members of a room are exactly the
        connections whose session names it and which have not left. */
    ghost predicate Agrees() {
      && Shaped()
      && Members("") == {}
      && forall r, c :: r != "" ==> (c in Members(r) <==> c in session && session[c].room == r && c !in left)
    }

    /** No stored name can break a line, and every message sent is one line. */
    ghost predicate Clear() {
      && (forall c :: c in session ==> LineFree(session[c].room) && LineFree(session[c].nick))
      && (forall c :: c in said ==> AllFramed(said[c]))
    }

    ghost predicate Good() {
      Agrees() && Clear()
    }

    /** What any number of steps for other connections leave to connection `me`. */
    ghost predicate Spares(next: Hall, me: ConnId) {
      && session.Keys <= next.session.Keys
      && (forall c :: c in said ==> c in next.said && said[c] <= next.said[c])
      && (me in session ==> next.session[me] == session[me])
      && (me in left <==> me in next.left) && (me in quits <==> me in next.quits)
      && (me in session ==> forall r :: me in Members(r) <==> me in next.Members(r))
    }
  }

  lemma AtMostOneRoom(h: Hall, c: ConnId, r: string, r': string)
    requires h.Agrees() && c in h.Members(r) && c in h.Members(r')
    ensures r == r' && r != ""
  {
  }

  /** Membership after a join: in the new room, in no other; nobody else moves. */
  lemma JoinMoves(h: Hall, r: string, c: ConnId, r': string)
    requires h.Agrees() && c in h.session && r != ""
    ensures h.Joined(r, c).Members(r') == if r' == r then h.Members(r) + {c} else h.Members(r') - {c}
  {
    assert r' != "" && c in h.Members(r') ==> h.session[c].room == r';
  }

  /** Joining keeps table and sessions in agreement exactly when the room has a name. */
  lemma JoinAgrees(h: Hall, r: string, c: ConnId)
    requires h.Agrees() && c in h.session
    ensures h.Joined(r, c).Agrees() <==> r != ""
  {
    var j := h.Joined(r, c);
    assert r == "" ==> c in j.Members("");
    if r != "" {
      forall r', d | r' != ""
        ensures d in j.Members(r') <==> d in j.session && j.session[d].room == r' && d !in j.left
      {
        JoinMoves(h, r, c, r');
      }
      JoinMoves(h, r, c, "");
      assert j.session.Keys == h.session.Keys + {c};
    }
  }

  /** The reason for the empty-name check: only a nameless room cannot be left again. */
  lemma LeaveUndoesJoin(h: Hall, r: string, c: ConnId)
    requires h.Agrees() && c in h.session
    ensures c in h.Joined(r, c).Left(c).Members(r) <==> r == ""
  {
  }

  lemma LeaveKeeps(h: Hall, c: ConnId)
    requires h.Good()
    ensures h.Left(c).Good()
  {
    var l := h.Left(c);
    assert forall r :: r in l.rooms ==> l.rooms[r] <= h.Members(r);
    forall r, d | r != ""
      ensures d in l.Members(r) <==> d in l.session && l.session[d].room == r && d !in l.left
    {
      assert d in h.Members(r) <==> d in h.session && h.session[d].room == r && d !in h.left;
    }
  }

  lemma JoinKeeps(h: Hall, r: string, c: ConnId)
    requires h.Good() && c in h.session && r != "" && LineFree(r)
    ensures h.Joined(r, c).Good()
  {
    JoinAgrees(h, r, c);
  }

  lemma RenameKeeps(h: Hall, c: ConnId, name: string)
    requires h.Good() && c in h.session && LineFree(name)
    ensures h.Renamed(c, name).Good()
  {
    var n := h.Renamed(c, name);
    assert n.session.Keys == h.session.Keys + {c};
    assert forall r :: n.Members(r) == h.Members(r);
  }

  lemma TouchKeeps(h: Hall, c: ConnId, now: int)
    requires h.Good() && c in h.session
    ensures h.Touched(c, now).Good()
  {
    assert h.Touched(c, now).session.Keys == h.session.Keys + {c};
    assert forall r :: h.Touched(c, now).Members(r) == h.Members(r);
  }

  lemma OpenKeeps(h: Hall, c: ConnId, now: int)
    requires h.Good() && c !in h.session
    ensures h.Opened(c, now).Good()
  {
    var o := h.Opened(c, now);
    assert forall r :: o.Members(r) == h.Members(r) && c !in h.Members(r);
    assert o.session.Keys == o.said.Keys == h.session.Keys + {c};
    assert AllFramed([]);
  }

  lemma SentKeeps(h: Hall, to: set<ConnId>, msg: string)
    requires h.Good() && Framed(msg)
    ensures h.Sent(to, msg).Good()
  {
    var s := h.Sent(to, msg);
    assert s.said.Keys == h.said.Keys;
    assert s.Agrees() by {
      assert forall r :: s.Members(r) == h.Members(r);
    }
    forall c | c in s.said
      ensures AllFramed(s.said[c])
    {
      FramedOn(h.said[c], msg);
    }
  }

  lemma FramedOn(ms: seq<string>, msg: string)
    requires AllFramed(ms) && Framed(msg)
    ensures AllFramed(ms + [msg])
  {
  }

  /** A broadcast reaches each connection whose session names the room and which has not left,
      once, and no other. */
  lemma BroadcastReaches(h: Hall, r: string, msg: string, c: ConnId)
    requires h.Agrees() && c in h.session && r != ""
    ensures c in h.said && c in h.Sent(h.Members(r), msg).said
    ensures h.Sent(h.Members(r), msg).said[c]
         == if h.session[c].room == r && c !in h.left then h.said[c] + [msg] else h.said[c]
  {
  }

  lemma SparesOn(a: Hall, b: Hall, c: Hall, me: ConnId)
    requires a.Shaped() && b.Shaped() && c.Shaped() && a.Spares(b, me) && b.Spares(c, me)
    ensures a.Spares(c, me)
  {
  }

  /** One critical section, or one send, on behalf of a connection. */
  datatype Move =
    | Open(now: int)
    | Touch(now: int)
    | Join(room: string)
    | Leave
    | Rename(name: string)
    | Send(to: set<ConnId>, text: string)
    | Quit

  /** What a handler has at hand when it takes the step: a session, or none yet. */
  predicate Can(h: Hall, c: ConnId, m: Move) {
    match m
    case Open(_) => c !in h.session
    case Touch(_) => c in h.session
    case Join(_) => c in h.session
    case Rename(_) => c in h.session
    case Leave => true
    case Send(_, _) => true
    case Quit => true
  }

  /** Names that cannot break a line, rooms that have a name, messages that are one line. */
  predicate Clean(m: Move) {
    && (m.Join? ==> m.room != "" && LineFree(m.room))
    && (m.Rename? ==> LineFree(m.name))
    && (m.Send? ==> Framed(m.text))
  }

  function Do(h: Hall, c: ConnId, m: Move): Hall {
    if !Can(h, c, m) then h
    else
      match m
      case Open(now) => h.Opened(c, now)
      case Touch(now) => h.Touched(c, now)
      case Join(r) => h.Joined(r, c)
      case Leave => h.Left(c)
      case Rename(name) => h.Renamed(c, name)
      case Send(to, text) => h.Sent(to, text)
      case Quit => h.(quits := h.quits + {c})
  }

  lemma MoveKeeps(h: Hall, c: ConnId, m: Move)
    requires h.Good() && Clean(m)
    ensures Do(h, c, m).Good()
  {
    if !Can(h, c, m) {
    } else if m.Open? {
      OpenKeeps(h, c, m.now);
    } else if m.Touch? {
      TouchKeeps(h, c, m.now);
    } else if m.Join? {
      JoinKeeps(h, m.room, c);
    } else if m.Leave? {
      LeaveKeeps(h, c);
    } else if m.Rename? {
      RenameKeeps(h, c, m.name);
    } else if m.Send? {
      SentKeeps(h, m.to, m.text);
    } else {
      assert forall r :: Do(h, c, m).Members(r) == h.Members(r);
    }
  }

  lemma JoinSpares(h: Hall, r: string, c: ConnId, me: ConnId)
    requires h.Good() && c in h.session && r != "" && c != me
    ensures h.Spares(h.Joined(r, c), me)
  {
    forall r' ensures me in h.Members(r') <==> me in h.Joined(r, c).Members(r') {
      JoinMoves(h, r, c, r');
    }
  }

  lemma SendSpares(h: Hall, to: set<ConnId>, text: string, me: ConnId)
    ensures h.Spares(h.Sent(to, text), me)
  {
    assert forall r :: h.Sent(to, text).Members(r) == h.Members(r);
  }

  /** Each step of one connection spares every other. */
  lemma MoveSpares(h: Hall, c: ConnId, m: Move, me: ConnId)
    requires h.Good() && Clean(m) && c != me
    ensures h.Spares(Do(h, c, m), me)
  {
    if Can(h, c, m) && m.Join? {
      JoinSpares(h, m.room, c, me);
    } else if m.Send? {
      SendSpares(h, m.to, m.text, me);
    }
  }

  // ----- Runs: any interleaving of the steps of any connections

  type Turn = (ConnId, Move)

  const EMPTY := Hall(map[], map[], {}, map[], {})

  function After(ts: seq<Turn>): Hall {
    if ts == [] then EMPTY else Do(After(ts[..|ts| - 1]), ts[|ts| - 1].0, ts[|ts| - 1].1)
  }

  lemma AfterOne(ts: seq<Turn>, c: ConnId, m: Move)
    ensures After(ts + [(c, m)]) == Do(After(ts), c, m)
  {
    assert (ts + [(c, m)])[..|ts|] == ts;
  }

  /** What a connection was told so far, and on whose behalf. */
  function Heard(ts: seq<Turn>, c: ConnId): seq<(ConnId, string)> {
    if ts == [] then []
    else
      var before, t := ts[..|ts| - 1], ts[|ts| - 1];
      Heard(before, c)
      + if t.1.Send? && c in t.1.to && c in After(before).said then [(t.0, t.1.text)] else []
  }

  function Words(heard: seq<(ConnId, string)>): seq<string> {
    seq(|heard|, i requires 0 <= i < |heard| => heard[i].1)
  }

  lemma HeardOne(ts: seq<Turn>, t: Turn, c: ConnId)
    ensures Heard(ts, c) <= Heard(ts + [t], c)
    ensures Heard(ts + [t], c)
         == Heard(ts, c) + if t.1.Send? && c in t.1.to && c in After(ts).said then [(t.0, t.1.text)] else []
  {
    assert (ts + [t])[..|ts|] == ts;
  }

  ghost predicate AllClean(ts: seq<Turn>) {
    forall i :: 0 <= i < |ts| ==> Clean(ts[i].1)
  }

  ghost predicate NotBy(ts: seq<Turn>, c: ConnId) {
    forall i :: 0 <= i < |ts| ==> ts[i].0 != c
  }

  function Own(ts: seq<Turn>, c: ConnId): seq<Turn> {
    if ts == [] then []
    else
      var before, last := Own(ts[..|ts| - 1], c), ts[|ts| - 1];
      if last.0 == c then before + [last] else before
  }

  /** In every run the rooms agree with the sessions, no name can break a line, and every message
      sent is one line, provided every step taken is clean, as those of the handlers are. */
  lemma {:induction false} RunKeeps(ts: seq<Turn>)
    requires AllClean(ts)
    ensures After(ts).Good()
  {
    if ts != [] {
      RunKeeps(ts[..|ts| - 1]);
      MoveKeeps(After(ts[..|ts| - 1]), ts[|ts| - 1].0, ts[|ts| - 1].1);
    }
  }

  /** That is what the connection was sent, message by message. */
  lemma {:induction false} HeardIsSaid(ts: seq<Turn>, c: ConnId)
    requires AllClean(ts)
    ensures c in After(ts).said ==> Words(Heard(ts, c)) == After(ts).said[c]
    ensures c !in After(ts).said ==> Heard(ts, c) == []
    ensures forall i :: 0 <= i < |Heard(ts, c)| ==> Framed(Heard(ts, c)[i].1)
  {
    if ts != [] {
      var before, t := ts[..|ts| - 1], ts[|ts| - 1];
      HeardIsSaid(before, c);
      RunKeeps(before);
      assert ts == before + [t];
      HeardOne(before, t, c);
      AfterOne(before, t.0, t.1);
      SaidOne(After(before), t, c, Heard(before, c));
    }
  }

  lemma SaidOne(h: Hall, t: Turn, c: ConnId, heard: seq<(ConnId, string)>)
    requires h.Good() && Clean(t.1)
    requires if c in h.said then Words(heard) == h.said[c] else heard == []
    ensures var next := Do(h, t.0, t.1);
            var longer := heard + if t.1.Send? && c in t.1.to && c in h.said then [(t.0, t.1.text)] else [];
            if c in next.said then Words(longer) == next.said[c] else longer == []
  {
    if t.1.Send? && c in t.1.to && c in h.said {
      assert Words(heard + [(t.0, t.1.text)]) == Words(heard) + [t.1.text];
    } else {
      assert heard + [] == heard;
    }
  }

  /** Whatever others do leaves a connection where it was, under its name. */
  lemma {:induction false} OthersSpare(ts: seq<Turn>, others: seq<Turn>, me: ConnId)
    requires AllClean(ts + others) && NotBy(others, me)
    ensures After(ts).Good() && After(ts + others).Good() && After(ts).Spares(After(ts + others), me)
    decreases |others|
  {
    RunKeeps(ts + others);
    assert AllClean(ts) by {
      assert forall i :: 0 <= i < |ts| ==> ts[i] == (ts + others)[i];
    }
    RunKeeps(ts);
    if others == [] {
      assert ts + others == ts;
    } else {
      var n := |others| - 1;
      var t := others[n];
      var before := ts + others[..n];
      assert ts + others == before + [t];
      OthersSpare(ts, others[..n], me);
      AfterOne(before, t.0, t.1);
      assert (ts + others)[|before|] == t;
      MoveSpares(After(before), t.0, t.1, me);
      SparesOn(After(ts), After(before), After(ts + others), me);
    }
  }

  ghost predicate SamePlace(a: Hall, b: Hall, c: ConnId)
    requires a.Shaped() && b.Shaped()
  {
    && (c in a.session <==> c in b.session) && (c in a.left <==> c in b.left)
    && (c in a.session ==> a.session[c] == b.session[c])
  }

  lemma PlaceDecidesRooms(a: Hall, b: Hall, c: ConnId, r: string)
    requires a.Good() && b.Good() && SamePlace(a, b, c)
    ensures c in a.Members(r) <==> c in b.Members(r)
  {
    assert c !in a.Members("") && c !in b.Members("");
  }

  lemma {:induction false} OwnClean(ts: seq<Turn>, c: ConnId)
    requires AllClean(ts)
    ensures AllClean(Own(ts, c))
  {
    if ts != [] {
      OwnClean(ts[..|ts| - 1], c);
    }
  }

  /** Where a connection is, and under which name, is decided by its own steps alone, however
      the steps of all the others fall between them. */
  lemma {:induction false} OwnStepsDecide(ts: seq<Turn>, c: ConnId)
    requires AllClean(ts)
    ensures After(ts).Good() && After(Own(ts, c)).Good() && SamePlace(After(ts), After(Own(ts, c)), c)
    ensures forall r :: c in After(ts).Members(r) <==> c in After(Own(ts, c)).Members(r)
  {
    OwnClean(ts, c);
    RunKeeps(ts);
    RunKeeps(Own(ts, c));
    if ts != [] {
      var before, last := ts[..|ts| - 1], ts[|ts| - 1];
      OwnStepsDecide(before, c);
      if last.0 == c {
        assert Own(ts, c)[..|Own(ts, c)| - 1] == Own(before, c);
        SameMove(After(before), After(Own(before, c)), c, last.1);
      } else {
        OthersMove(After(before), last.0, last.1, c);
      }
    }
    forall r ensures c in After(ts).Members(r) <==> c in After(Own(ts, c)).Members(r) {
      PlaceDecidesRooms(After(ts), After(Own(ts, c)), c, r);
    }
  }

  lemma OthersMove(h: Hall, d: ConnId, m: Move, c: ConnId)
    requires h.Good() && Clean(m) && d != c
    ensures Do(h, d, m).Shaped() && SamePlace(h, Do(h, d, m), c)
  {
    MoveKeeps(h, d, m);
    MoveSpares(h, d, m, c);
  }

  lemma SameMove(a: Hall, b: Hall, c: ConnId, m: Move)
    requires a.Good() && b.Good() && Clean(m) && SamePlace(a, b, c)
    ensures Do(a, c, m).Shaped() && Do(b, c, m).Shaped() && SamePlace(Do(a, c, m), Do(b, c, m), c)
  {
    MoveKeeps(a, c, m);
    MoveKeeps(b, c, m);
  }

  predicate Returns(t: Turn, c: ConnId) {
    t.0 == c && (t.1.Join? || t.1.Open?)
  }

  /** Once it has left, a connection that neither joins nor opens again is in no room. */
  lemma {:induction false} OutUntilReturn(before: seq<Turn>, after: seq<Turn>, c: ConnId, r: string)
    requires AllClean(before + [(c, Leave)] + after) && c in After(before).session
    requires forall i :: 0 <= i < |after| ==> !Returns(after[i], c)
    ensures var h := After(before + [(c, Leave)] + after); c in h.session && c in h.left && c !in h.Members(r)
    decreases |after|
  {
    var ts := before + [(c, Leave)] + after;
    RunKeeps(ts);
    if after == [] {
      assert ts[..|ts| - 1] == before;
    } else {
      var shorter, last := after[..|after| - 1], after[|after| - 1];
      assert ts[..|ts| - 1] == before + [(c, Leave)] + shorter;
      assert ts[|ts| - 1] == last;
      OutUntilReturn(before, shorter, c, r);
      RunKeeps(ts[..|ts| - 1]);
      if last.0 != c {
        MoveSpares(After(ts[..|ts| - 1]), last.0, last.1, c);
      }
    }
  }
}
