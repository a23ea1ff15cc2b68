/** The chat handlers.  Each RoomManager call is one critical section of its mutex and each send is
    one call; `Meanwhile` marks where other threads may act for other connections.  The server keeps
    the turns taken so far: what holds in every run of turns holds here. */
module ChatServer {
  import opened Basics
  import opened ByteBuffer
  import opened Codec
  import opened Rooms

  const WELCOME := "欢迎！用 /nick <名> 设昵称，"
                   + "/join <房间> 进房，/who 看在线，/quit 退出。"
  const NICK_SET := "昵称已设为 "
  const NO_ROOM_NAME := "房间名不能为空。"
  const SYSTEM := "系统"
  const HAS_JOINED := " 加入了房间"
  const ONLINE := "在线: "
  const JOIN_FIRST := "请先 /join 一个房间再发言。"
  const FAREWELL := "⏱ 空闲超时，断开连接。"

  datatype Command =
    | SetNick(name: string)
    | JoinRoom(name: string)
    | NamelessRoom
    | Who
    | Bye
    | Say(text: string)

  function Parse(line: string): Command {
    if "/nick " <= line then SetNick(line[6..])
    else if "/join " <= line then (if line[6..] == "" then NamelessRoom else JoinRoom(line[6..]))
    else if line == "/who" then Who
    else if line == "/quit" then Bye
    else Say(line)
  }

  /** What a client types to give a command. */
  function Typed(cmd: Command): string {
    match cmd
    case SetNick(name) => "/nick " + name
    case JoinRoom(name) => "/join " + name
    case NamelessRoom => "/join "
    case Who => "/who"
    case Bye => "/quit"
    case Say(text) => text
  }

  /** Reading a line and typing it again are inverse, but for a room name that is missing and for text
      that is itself a command. */
  lemma ParseTyped(line: string, cmd: Command)
    ensures Typed(Parse(line)) == line
    ensures Parse(Typed(cmd)) == cmd
       <==> && (cmd.JoinRoom? ==> cmd.name != "")
            && (cmd.Say? ==> !("/nick " <= cmd.text) && !("/join " <= cmd.text)
                             && cmd.text != "/who" && cmd.text != "/quit")
  {
    if |line| >= 6 {
      assert line == line[..6] + line[6..];
    }
    if cmd.SetNick? || cmd.JoinRoom? {
      var nick, join := "/nick " + cmd.name, "/join " + cmd.name;
      assert nick[..6] == "/nick " && join[..6] == "/join " && nick[6..] == join[6..] == cmd.name;
      assert join[1] == 'j' && "/nick "[1] == 'n';
    } else if cmd.NamelessRoom? {
      assert "/join "[6..] == "" && "/join "[1] == 'j' && "/nick "[1] == 'n';
    }
  }

  function Line(body: string): string {
    body + "\n"
  }

  lemma LineIsFramed(body: string)
    requires LineFree(body)
    ensures Framed(Line(body))
  {
    assert Line(body)[..|body|] == body;
  }

  lemma TextsAreLineFree()
    ensures LineFree(WELCOME) && LineFree(NICK_SET) && LineFree(NO_ROOM_NAME) && LineFree(SYSTEM)
    ensures LineFree(HAS_JOINED) && LineFree(ONLINE) && LineFree(JOIN_FIRST) && LineFree(FAREWELL)
  {
  }

  /** The names of some connections, each followed by a blank. */
  function Listing(order: seq<ConnId>, session: map<ConnId, Session>): string
    requires forall i :: 0 <= i < |order| ==> order[i] in session
  {
    if order == [] then "" else session[order[0]].nick + " " + Listing(order[1..], session)
  }

  /** The turn with which a command begins, when it changes the session. */
  function Entry(c: ConnId, cmd: Command): seq<Turn> {
    match cmd
    case SetNick(name) => [(c, Rename(name))]
    case JoinRoom(name) => [(c, Join(name))]
    case _ => []
  }

  /** The turn with which it ends. */
  function Answer(h: Hall, c: ConnId, cmd: Command, list: string): Move
    requires c in h.session
  {
    var s := h.session[c];
    match cmd
    case SetNick(name) => Send({c}, Line(NICK_SET + name))
    case JoinRoom(name) => Send(h.Members(name), FormatBroadcast(name, SYSTEM, s.nick + HAS_JOINED))
    case NamelessRoom => Send({c}, Line(NO_ROOM_NAME))
    case Who => Send({c}, Line(ONLINE + list))
    case Bye => Quit
    case Say(text) =>
      if s.room == "" then Send({c}, Line(JOIN_FIRST))
      else Send(h.Members(s.room), FormatBroadcast(s.room, s.nick, text))
  }

  /** The members of a room in some order, each once. */
  ghost predicate Roll(h: Hall, r: string, order: seq<ConnId>) {
    && (forall i, j :: 0 <= i < j < |order| ==> order[i] != order[j])
    && (forall c :: c in order <==> c in h.Members(r))
    && (forall i :: 0 <= i < |order| ==> order[i] in h.session)
  }

  /** The nicknames of the members, each member once, in some order. */
  ghost predicate Named(h: Hall, r: string, order: seq<ConnId>, names: seq<string>) {
    && Roll(h, r, order) && |names| == |order|
    && forall i :: 0 <= i < |order| ==> names[i] == h.session[order[i]].nick
  }

  ghost predicate Lists(h: Hall, r: string, list: string) {
    exists order :: Roll(h, r, order) && list == Listing(order, h.session)
  }

  /** A command adds its turns to the log; other threads may take turns between the part that
      changes the session or reads the room and the part that sends. */
  ghost predicate Between(log: seq<Turn>, others: seq<Turn>, log': seq<Turn>, c: ConnId, cmd: Command, list: string) {
    var a, mid := After(log), log + Entry(c, cmd) + others;
    && c in a.session && c in After(mid).session
    && NotBy(others, c) && (cmd.SetNick? || cmd.JoinRoom? || cmd.Who? || others == [])
    && (cmd.Who? ==> Lists(a, a.session[c].room, list))
    && log' == mid + [(c, Answer(After(mid), c, cmd, list))]
  }

  ghost predicate Handled(log: seq<Turn>, log': seq<Turn>, c: ConnId, cmd: Command) {
    exists others, list :: Between(log, others, log', c, cmd, list)
  }

  /** A new session is greeted; other threads may take turns in between. */
  ghost predicate Greets(log: seq<Turn>, others: seq<Turn>, log': seq<Turn>, c: ConnId, now: int) {
    NotBy(others, c) && log' == log + [(c, Open(now))] + others + [(c, Send({c}, Line(WELCOME)))]
  }

  ghost predicate Greeted(log: seq<Turn>, log': seq<Turn>, c: ConnId, now: int) {
    exists others :: Greets(log, others, log', c, now)
  }

  ghost predicate Kicks(log: seq<Turn>, others: seq<Turn>, log': seq<Turn>, c: ConnId) {
    NotBy(others, c) && log' == log + [(c, Send({c}, Line(FAREWELL)))] + others + [(c, Quit)]
  }

  ghost predicate Kicked(log: seq<Turn>, log': seq<Turn>, c: ConnId) {
    exists others :: Kicks(log, others, log', c)
  }

  /** Line after line: each is handled in turn, and other threads may act before each. */
  ghost predicate Dialogue(log: seq<Turn>, log': seq<Turn>, c: ConnId, lines: seq<string>)
    decreases |lines|, 1
  {
    if lines == [] then log' == log
    else exists mid, others :: Exchange(log, mid, others, log', c, lines)
  }

  ghost predicate Exchange(log: seq<Turn>, mid: seq<Turn>, others: seq<Turn>, log': seq<Turn>, c: ConnId,
                           lines: seq<string>)
    requires lines != []
    decreases |lines|, 0
  {
    var n := |lines| - 1;
    Dialogue(log, mid, c, lines[..n]) && NotBy(others, c) && Handled(mid + others, log', c, Parse(lines[n]))
  }

  // ----- What a handled command means

  lemma Prefix(log: seq<Turn>, log': seq<Turn>)
    requires AllClean(log') && log <= log'
    ensures AllClean(log) && After(log).Good() && After(log').Good()
  {
    assert forall i :: 0 <= i < |log| ==> log[i] == log'[i];
    RunKeeps(log);
    RunKeeps(log');
  }

  /** What a client typed in a room reaches everyone there, the client included, once, under the
      client's name, and nobody else. */
  lemma SayReaches(log: seq<Turn>, log': seq<Turn>, c: ConnId, text: string, d: ConnId)
    requires AllClean(log') && Handled(log, log', c, Say(text))
    requires c in After(log).session && After(log).session[c].room != "" && d in After(log).session
    ensures var a, b := After(log), After(log');
            && d in a.said && d in b.said && b.session == a.session && b.rooms == a.rooms
            && var s := a.session[c];
               b.said[d] == if a.session[d].room == s.room && d !in a.left
                            then a.said[d] + [FormatBroadcast(s.room, s.nick, text)] else a.said[d]
  {
    var others, list :| Between(log, others, log', c, Say(text), list);
    var a := After(log);
    assert log + [] + [] == log;
    AfterOne(log, c, Answer(a, c, Say(text), list));
    Prefix(log, log');
    BroadcastReaches(a, a.session[c].room, FormatBroadcast(a.session[c].room, a.session[c].nick, text), d);
  }

  /** A newcomer is in the room under its name, and the announcement is the last that everyone in the
      room is told, the newcomer too, and nobody else is told it. */
  lemma JoinAnnounced(log: seq<Turn>, log': seq<Turn>, c: ConnId, r: string)
    requires AllClean(log') && r != "" && Handled(log, log', c, JoinRoom(r))
    ensures var a, b := After(log), After(log');
            && c in a.session && c in a.said && c in b.said && c in b.Members(r)
            && c in b.session && b.session[c] == a.session[c].(room := r)
            && a.said[c] <= b.said[c] && |a.said[c]| < |b.said[c]|
    ensures var b, m := After(log'), After(log'[..|log'| - 1]);
            forall d :: d in m.said ==>
              && d in b.said && (d in b.Members(r) <==> d in m.Members(r))
              && b.said[d] == m.said[d] + if d in b.Members(r)
                    then [FormatBroadcast(r, "系统", After(log).session[c].nick + " 加入了房间")] else []
  {
    var others, list :| Between(log, others, log', c, JoinRoom(r), list);
    var mid := log + [(c, Join(r))] + others;
    Prefix(mid, log');
    JoinedMeanwhile(log, others, c, r);
    assert log'[..|log'| - 1] == mid;
    AfterOne(mid, c, Answer(After(mid), c, JoinRoom(r), list));
    assert SYSTEM == "系统" && HAS_JOINED == " 加入了房间";
    AnnouncedTo(After(mid), r, FormatBroadcast(r, SYSTEM, After(log).session[c].nick + HAS_JOINED));
  }

  /** After a join, and whatever others do next, the connection is in the room under its name. */
  lemma JoinedMeanwhile(log: seq<Turn>, others: seq<Turn>, c: ConnId, r: string)
    requires AllClean(log + [(c, Join(r))] + others) && r != "" && NotBy(others, c) && c in After(log).session
    ensures var a, m := After(log), After(log + [(c, Join(r))] + others);
            && c in a.said && c in m.said && a.said[c] <= m.said[c] && c in m.Members(r)
            && c in m.session && m.session[c] == a.session[c].(room := r)
  {
    var entered := log + [(c, Join(r))];
    Prefix(log, entered + others);
    Prefix(entered, entered + others);
    AfterOne(log, c, Join(r));
    OthersSpare(entered, others, c);
    JoinMoves(After(log), r, c, r);
  }

  lemma AnnouncedTo(h: Hall, r: string, msg: string)
    ensures var s := h.Sent(h.Members(r), msg);
            && s.said.Keys == h.said.Keys && s.Members(r) == h.Members(r)
            && forall d :: d in h.said ==> s.said[d] == if d in s.Members(r) then h.said[d] + [msg] else h.said[d]
  {
  }

  // ----- What the client itself is told

  lemma ToldLast(log: seq<Turn>, d: ConnId, c: ConnId, text: string)
    requires c in After(log).said
    ensures var a, b := After(log), After(log + [(d, Send({c}, text))]);
            && b == a.(said := b.said) && b.said.Keys == a.said.Keys
            && (forall e :: e in a.said ==> b.said[e] == if e == c then a.said[e] + [text] else a.said[e])
  {
    AfterOne(log, d, Send({c}, text));
  }

  /** A new client has a blank session, and the last it was told is the welcome. */
  lemma WelcomeTold(log: seq<Turn>, log': seq<Turn>, c: ConnId, now: int)
    requires AllClean(log') && Greeted(log, log', c, now) && c !in After(log).session
    ensures var b := After(log');
            && c in b.session && b.session[c] == Session("", "", now)
            && c in b.said && b.said[c] != [] && b.said[c][|b.said[c]| - 1] == WELCOME + "\n"
  {
    var others :| Greets(log, others, log', c, now);
    var began := log + [(c, Open(now))];
    Prefix(log, log');
    Prefix(began, log');
    Prefix(began + others, log');
    AfterOne(log, c, Open(now));
    OthersSpare(began, others, c);
    ToldLast(began + others, c, c, Line(WELCOME));
  }

  /** A client that takes a name is told so. */
  lemma NickTold(log: seq<Turn>, log': seq<Turn>, c: ConnId, name: string)
    requires AllClean(log') && Handled(log, log', c, SetNick(name))
    ensures var b := After(log');
            && c in b.session && b.session[c].nick == name
            && c in b.said && b.said[c] != [] && b.said[c][|b.said[c]| - 1] == "昵称已设为 " + name + "\n"
  {
    HandledFollows(log, log', c, SetNick(name));
    var others, list :| Between(log, others, log', c, SetNick(name), list);
    var mid := log + [(c, Rename(name))] + others;
    Prefix(mid, log');
    ToldLast(mid, c, c, Line(NICK_SET + name));
  }

  /** /who is answered with the nicknames of the members of the client's room, each once. */
  lemma WhoTold(log: seq<Turn>, log': seq<Turn>, c: ConnId)
    requires AllClean(log') && Handled(log, log', c, Who)
    ensures var a, b := After(log), After(log');
            && c in a.session && c in b.said && b.said[c] != []
            && exists order :: Roll(a, a.session[c].room, order)
                               && b.said[c][|b.said[c]| - 1] == "在线: " + Listing(order, a.session) + "\n"
  {
    var others, list :| Between(log, others, log', c, Who, list);
    var a := After(log);
    var mid := log + [] + others;
    Prefix(mid, log');
    ToldLast(mid, c, c, Line(ONLINE + list));
    assert Lists(a, a.session[c].room, list);
    var order :| Roll(a, a.session[c].room, order) && list == Listing(order, a.session);
  }

  /** Without a room to join, or to speak in, the client alone is told so, and nothing else changes. */
  lemma HintTold(log: seq<Turn>, log': seq<Turn>, c: ConnId, cmd: Command)
    requires AllClean(log') && Handled(log, log', c, cmd)
    requires cmd.NamelessRoom? || (cmd.Say? && After(log).session[c].room == "")
    ensures var a, b := After(log), After(log');
            && c in a.said && b == a.(said := b.said) && b.said.Keys == a.said.Keys
            && (forall d :: d in a.said && d != c ==> b.said[d] == a.said[d])
            && b.said[c] == a.said[c] + [if cmd.NamelessRoom? then "房间名不能为空。\n"
                                         else "请先 /join 一个房间再发言。\n"]
  {
    var others, list :| Between(log, others, log', c, cmd, list);
    assert log + [] + [] == log;
    Prefix(log, log');
    assert Line(NO_ROOM_NAME) == "房间名不能为空。\n";
    assert Line(JOIN_FIRST) == "请先 /join 一个房间再发言。\n";
    ToldLast(log, c, c, if cmd.NamelessRoom? then Line(NO_ROOM_NAME) else Line(JOIN_FIRST));
  }

  /** /quit half-closes the client, and nothing else. */
  lemma QuitTold(log: seq<Turn>, log': seq<Turn>, c: ConnId)
    requires Handled(log, log', c, Bye)
    ensures After(log') == After(log).(quits := After(log').quits) && After(log').quits == After(log).quits + {c}
  {
    var others, list :| Between(log, others, log', c, Bye, list);
    assert log + [] + [] == log;
    AfterOne(log, c, Quit);
  }

  /** A kicked client is told farewell next, and is half-closed. */
  lemma KickTold(log: seq<Turn>, log': seq<Turn>, c: ConnId)
    requires AllClean(log') && Kicked(log, log', c) && c in After(log).session
    ensures var a, b := After(log), After(log');
            && c in b.quits && c in a.said && c in b.said && |b.said[c]| > |a.said[c]|
            && b.said[c][|a.said[c]|] == FAREWELL + "\n"
  {
    var others :| Kicks(log, others, log', c);
    var told := log + [(c, Send({c}, Line(FAREWELL)))];
    Prefix(log, log');
    Prefix(told, log');
    Prefix(told + others, log');
    ToldLast(log, c, c, Line(FAREWELL));
    OthersSpare(told, others, c);
    AfterOne(told + others, c, Quit);
  }

  /** What lines make of a session. */
  function Follow(s: Session, lines: seq<string>): Session {
    if lines == [] then s
    else
      var t, cmd := Follow(s, lines[..|lines| - 1]), Parse(lines[|lines| - 1]);
      if cmd.SetNick? then t.(nick := cmd.name) else if cmd.JoinRoom? then t.(room := cmd.name) else t
  }

  lemma EntryFollows(log: seq<Turn>, c: ConnId, cmd: Command)
    requires c in After(log).session
    ensures c in After(log + Entry(c, cmd)).session
    ensures var s := After(log).session[c];
            After(log + Entry(c, cmd)).session[c] == if cmd.SetNick? then s.(nick := cmd.name)
                                                     else if cmd.JoinRoom? then s.(room := cmd.name)
                                                     else s
  {
    if Entry(c, cmd) == [] {
      assert log + Entry(c, cmd) == log;
    } else {
      AfterOne(log, c, Entry(c, cmd)[0].1);
    }
  }

  lemma AnswerFollows(log: seq<Turn>, c: ConnId, cmd: Command, list: string)
    requires c in After(log).session
    ensures After(log + [(c, Answer(After(log), c, cmd, list))]).session == After(log).session
  {
    AfterOne(log, c, Answer(After(log), c, cmd, list));
  }

  lemma HandledFollows(log: seq<Turn>, log': seq<Turn>, c: ConnId, cmd: Command)
    requires AllClean(log') && Handled(log, log', c, cmd)
    ensures log <= log' && c in After(log).session && c in After(log').session
    ensures var s := After(log).session[c];
            After(log').session[c] == if cmd.SetNick? then s.(nick := cmd.name)
                                      else if cmd.JoinRoom? then s.(room := cmd.name)
                                      else s
  {
    var others, list :| Between(log, others, log', c, cmd, list);
    var entered := log + Entry(c, cmd);
    var mid := entered + others;
    EntryFollows(log, c, cmd);
    Prefix(mid, log');
    OthersSpare(entered, others, c);
    AnswerFollows(mid, c, cmd, list);
  }

  /** Whatever other threads do meanwhile, a client's room and name after a batch of lines are
      what the lines alone make of its session. */
  lemma {:induction false} DialogueFollows(log: seq<Turn>, log': seq<Turn>, c: ConnId, lines: seq<string>)
    requires AllClean(log') && Dialogue(log, log', c, lines) && c in After(log).session
    ensures log <= log' && c in After(log').session
    ensures After(log').session[c] == Follow(After(log).session[c], lines)
    decreases |lines|
  {
    if lines != [] {
      var n := |lines| - 1;
      var mid, others :| Exchange(log, mid, others, log', c, lines);
      HandledFollows(mid + others, log', c, Parse(lines[n]));
      Prefix(mid + others, log');
      Prefix(mid, log');
      DialogueFollows(log, mid, c, lines[..n]);
      OthersSpare(mid, others, c);
    }
  }

  predicate CleanCommand(cmd: Command) {
    && (cmd.SetNick? ==> LineFree(cmd.name))
    && (cmd.JoinRoom? ==> LineFree(cmd.name) && cmd.name != "")
    && (cmd.Say? ==> LineFree(cmd.text))
  }

  lemma ParseClean(line: string)
    requires LineFree(line)
    ensures CleanCommand(Parse(line))
  {
  }

  lemma {:induction false} ListingClean(order: seq<ConnId>, session: map<ConnId, Session>)
    requires forall i :: 0 <= i < |order| ==> order[i] in session && LineFree(session[order[i]].nick)
    ensures LineFree(Listing(order, session))
  {
    if order != [] {
      ListingClean(order[1..], session);
    }
  }

  lemma {:induction false} ListingSnoc(order: seq<ConnId>, c: ConnId, session: map<ConnId, Session>)
    requires c in session && forall i :: 0 <= i < |order| ==> order[i] in session
    ensures Listing(order + [c], session) == Listing(order, session) + session[c].nick + " "
  {
    if order == [] {
      assert [c][1..] == [];
    } else {
      ListingSnoc(order[1..], c, session);
      assert (order + [c])[1..] == order[1..] + [c];
    }
  }

  /** The turns of the handlers are clean: nothing they store can break a line, and whatever they
      send, to whomever, after whatever other threads did, is one line. */
  lemma AnswerClean(h: Hall, c: ConnId, cmd: Command, list: string)
    requires h.Good() && c in h.session && LineFree(list) && CleanCommand(cmd)
    ensures AllClean(Entry(c, cmd)) && Clean(Answer(h, c, cmd, list))
  {
    TextsAreLineFree();
    var s := h.session[c];
    if cmd.SetNick? {
      LineIsFramed(NICK_SET + cmd.name);
    } else if cmd.JoinRoom? {
      FormatIsFramed(cmd.name, SYSTEM, s.nick + HAS_JOINED);
    } else if cmd.NamelessRoom? {
      LineIsFramed(NO_ROOM_NAME);
    } else if cmd.Who? {
      LineIsFramed(ONLINE + list);
    } else if cmd.Bye? {
    } else if s.room == "" {
      LineIsFramed(JOIN_FIRST);
    } else {
      FormatIsFramed(s.room, s.nick, cmd.text);
    }
  }

  /** What the chat layer uses of the connections: their contexts, `send` and `shutdown`. */
  class Connections {
    var context: map<ConnId, Session>
    ghost var said: map<ConnId, seq<string>>
    ghost var quits: set<ConnId>

    constructor ()
      ensures context == map[] && said == map[] && quits == {}
    {
      context, said, quits := map[], map[], {};
    }

    method SetContext(c: ConnId, s: Session)
      modifies this`context
      ensures context == old(context)[c := s]
    {
      context := context[c := s];
    }

    method Send(c: ConnId, msg: string)
      requires c in said
      modifies this`said
      ensures said == old(said)[c := old(said)[c] + [msg]]
    {
      said := said[c := said[c] + [msg]];
    }

    method Shutdown(c: ConnId)
      modifies this`quits
      ensures quits == old(quits) + {c}
    {
      quits := quits + {c};
    }
  }

  class RoomManager {
    const conns: Connections
    var rooms: map<string, set<ConnId>>
    ghost var left: set<ConnId>

    ghost function View(): Hall
      reads this, conns
    {
      Hall(rooms, conns.context, left, conns.said, conns.quits)
    }

    constructor (conns: Connections)
      requires conns.context == map[] && conns.said == map[] && conns.quits == {}
      ensures this.conns == conns && View() == EMPTY
    {
      this.conns := conns;
      rooms, left := map[], {};
    }

    method SetNick(c: ConnId, name: string)
      requires c in conns.context
      modifies conns`context
      ensures View() == old(View()).Renamed(c, name)
    {
      conns.SetContext(c, conns.context[c].(nick := name));
    }

    method Join(room: string, c: ConnId)
      requires c in conns.context
      modifies this`rooms, this`left, conns`context
      ensures View() == old(View()).Joined(room, c)
    {
      if conns.context[c].room != "" {
        Erase(conns.context[c].room, c);
      }
      conns.SetContext(c, conns.context[c].(room := room));
      rooms := rooms[room := (if room in rooms then rooms[room] else {}) + {c}];
      left := left - {c};
    }

    /** rooms_[room].erase: the subscript creates the entry when it is missing. */
    method Erase(room: string, c: ConnId)
      requires room != ""
      modifies this`rooms
      ensures View() == old(View()).Erased(room, c)
    {
      rooms := rooms[room := (if room in rooms then rooms[room] else {}) - {c}];
    }

    method Leave(c: ConnId)
      modifies this`rooms, this`left
      ensures View() == old(View()).Left(c)
    {
      if c in conns.context {
        if conns.context[c].room != "" {
          Erase(conns.context[c].room, c);
        }
        left := left + {c};
      }
    }

    /** Under the lock, one send to each member, in the set's own order. */
    method Broadcast(room: string, line: string)
      requires View().Shaped()
      modifies conns`said
      ensures View() == old(View()).Sent(old(View()).Members(room), line)
    {
      ghost var before, done := conns.said, {};
      if room in rooms {
        var todo := rooms[room];
        while todo != {}
          invariant todo <= rooms[room] && done == rooms[room] - todo
          invariant conns.said == Told(before, done, line)
          decreases todo
        {
          var c :| c in todo;
          ToldOneMore(before, done, c, line);
          conns.Send(c, line);
          todo, done := todo - {c}, done + {c};
        }
        assert done == rooms[room];
      }
      assert conns.said == Told(before, View().Members(room), line);
    }

    /** The nicknames of the members, each once, in the set's own order. */
    method Members(room: string) returns (names: seq<string>)
      requires View().Shaped()
      ensures exists order :: Named(View(), room, order, names)
    {
      names := [];
      ghost var order: seq<ConnId> := [];
      if room !in rooms {
        assert Named(View(), room, order, names);
        return;
      }
      var todo := rooms[room];
      while todo != {}
        invariant |names| == |order| && (forall i, j :: 0 <= i < j < |order| ==> order[i] != order[j])
        invariant forall c :: c in order <==> c in rooms[room] && c !in todo
        invariant forall i :: 0 <= i < |order| ==> order[i] in conns.context && names[i] == conns.context[order[i]].nick
        invariant todo <= rooms[room]
        decreases todo
      {
        var c :| c in todo;
        names, order := names + [conns.context[c].nick], order + [c];
        todo := todo - {c};
      }
      assert Named(View(), room, order, names);
    }
  }

  class ChatServer {
    const conns: Connections
    const rooms: RoomManager
    const idleTimeout: int
    ghost var log: seq<Turn>

    /** The state is what the turns taken so far make of an empty hall, and all of them are clean. */
    ghost predicate Valid()
      reads this, conns, rooms
    {
      rooms.conns == conns && View() == After(log) && AllClean(log)
    }

    ghost function View(): Hall
      reads conns, rooms, rooms.conns
    {
      rooms.View()
    }

    constructor (idleTimeout: int)
      ensures Valid() && log == [] && fresh(conns) && fresh(rooms) && this.idleTimeout == idleTimeout
    {
      var cs := new Connections();
      var rm := new RoomManager(cs);
      conns, rooms, log, this.idleTimeout := cs, rm, [], idleTimeout;
    }

    // ----- One turn each

    ghost method Record(before: Hall, c: ConnId, m: Move)
      requires rooms.conns == conns && before == After(log) && AllClean(log) && Clean(m) && View() == Do(before, c, m)
      modifies this`log
      ensures Valid() && log == old(log) + [(c, m)]
    {
      AfterOne(log, c, m);
      log := log + [(c, m)];
    }

    /** conn->send, to one connection. */
    method Tell(c: ConnId, msg: string)
      requires Valid() && c in conns.context && Framed(msg)
      modifies this`log, conns`said
      ensures Valid() && log == old(log) + [(c, Send({c}, msg))]
    {
      ghost var h := View();
      RunKeeps(log);
      conns.Send(c, msg);
      assert conns.said == Told(old(conns.said), {c}, msg);
      Record(h, c, Send({c}, msg));
    }

    method Broadcast(c: ConnId, room: string, msg: string)
      requires Valid() && Framed(msg)
      modifies this`log, conns`said
      ensures Valid() && log == old(log) + [(c, Send(old(View()).Members(room), msg))]
    {
      ghost var h := View();
      RunKeeps(log);
      rooms.Broadcast(room, msg);
      Record(h, c, Send(h.Members(room), msg));
    }

    method TakeNick(c: ConnId, name: string)
      requires Valid() && c in conns.context && LineFree(name)
      modifies this`log, conns`context
      ensures Valid() && log == old(log) + [(c, Rename(name))]
    {
      ghost var h := View();
      rooms.SetNick(c, name);
      Record(h, c, Rename(name));
    }

    method EnterRoom(c: ConnId, room: string)
      requires Valid() && c in conns.context && LineFree(room) && room != ""
      modifies this`log, conns`context, rooms
      ensures Valid() && log == old(log) + [(c, Join(room))]
    {
      ghost var h := View();
      rooms.Join(room, c);
      Record(h, c, Join(room));
    }

    method LeaveRoom(c: ConnId)
      requires Valid()
      modifies this`log, rooms
      ensures Valid() && log == old(log) + [(c, Leave)]
    {
      ghost var h := View();
      rooms.Leave(c);
      Record(h, c, Leave);
    }

    method HangUp(c: ConnId)
      requires Valid()
      modifies this`log, conns`quits
      ensures Valid() && log == old(log) + [(c, Quit)]
    {
      ghost var h := View();
      conns.Shutdown(c);
      Record(h, c, Quit);
    }

    method Refresh(c: ConnId, now: int)
      requires Valid() && c in conns.context
      modifies this`log, conns`context
      ensures Valid() && log == old(log) + [(c, Touch(now))] && c in conns.context
      ensures conns.context[c] == old(conns.context)[c].(lastActive := now)
    {
      ghost var h := View();
      conns.SetContext(c, conns.context[c].(lastActive := now));
      Record(h, c, Touch(now));
    }

    method NewSession(c: ConnId, now: int)
      requires Valid() && c !in conns.context
      modifies this`log, conns`context, conns`said
      ensures Valid() && log == old(log) + [(c, Open(now))] && c in conns.context
    {
      ghost var h := View();
      conns.SetContext(c, Session("", "", now));
      conns.said := conns.said[c := []];
      Record(h, c, Open(now));
    }

    // ----- Other threads

    /** One turn of another connection's handler, on its own thread. */
    method Step(c: ConnId, now: int)
      requires Valid()
      modifies this`log, conns, rooms
      ensures Valid() && |log| == |old(log)| + 1 && old(log) <= log && log[|old(log)|].0 == c
    {
      var name: string, text: string := *, *;
      if
      case c !in conns.context => NewSession(c, now);
      case c in conns.context => Refresh(c, now);
      case c in conns.context && name != "" && LineFree(name) => EnterRoom(c, name);
      case c in conns.context && LineFree(name) => TakeNick(c, name);
      case c in conns.context && Framed(text) => Tell(c, text);
      case Framed(text) => Broadcast(c, name, text);
      case true => LeaveRoom(c);
      case true => HangUp(c);
    }

    /** Any number of turns of other connections. */
    method Meanwhile(me: ConnId) returns (ghost others: seq<Turn>)
      requires Valid() && me in conns.context
      modifies this`log, conns, rooms
      ensures Valid() && log == old(log) + others && NotBy(others, me)
      ensures me in conns.context && conns.context[me] == old(conns.context[me])
    {
      others := [];
      ghost var start := log;
      var n: nat :| true;
      for i := 0 to n
        invariant Valid() && log == start + others && NotBy(others, me)
      {
        var c: ConnId, now: int := *, *;
        if c != me {
          Step(c, now);
          others := others + [log[|log| - 1]];
        }
      }
      OthersSpare(start, others, me);
    }

    // ----- The handlers

    /** The connection callback: established, or closed.  A new connection's idle timer, if any, is
        armed with the delay returned. */
    method OnConnection(c: ConnId, connected: bool, now: int) returns (idle: Option<int>)
      requires Valid() && (connected ==> c !in conns.context)
      modifies this`log, conns, rooms
      ensures Valid()
      ensures if connected then Greeted(old(log), log, c, now) else log == old(log) + [(c, Leave)]
      ensures idle == if connected && idleTimeout > 0 then Some(idleTimeout) else None
    {
      idle := None;
      if connected {
        ghost var start := log;
        NewSession(c, now);
        ghost var others := Meanwhile(c);
        TextsAreLineFree();
        LineIsFramed(WELCOME);
        Tell(c, WELCOME + "\n");
        assert Greets(start, others, log, c, now);
        if idleTimeout > 0 {
          idle := Some(idleTimeout);
        }
      } else {
        LeaveRoom(c);
      }
    }

    /** What the idle timer does to a client that was silent too long. */
    method Kick(c: ConnId)
      requires Valid() && c in conns.context
      modifies this`log, conns, rooms
      ensures Valid() && Kicked(old(log), log, c)
    {
      ghost var start := log;
      TextsAreLineFree();
      LineIsFramed(FAREWELL);
      Tell(c, FAREWELL + "\n");
      ghost var others := Meanwhile(c);
      HangUp(c);
      assert Kicks(start, others, log, c);
    }

    method OnNick(c: ConnId, name: string)
      requires Valid() && c in conns.context && LineFree(name)
      modifies this`log, conns, rooms
      ensures Valid() && Handled(old(log), log, c, SetNick(name))
    {
      ghost var start := log;
      TakeNick(c, name);
      ghost var others := Meanwhile(c);
      RunKeeps(log);
      AnswerClean(View(), c, SetNick(name), "");
      Tell(c, NICK_SET + name + "\n");
      assert Between(start, others, log, c, SetNick(name), "");
    }

    method OnJoin(c: ConnId, room: string)
      requires Valid() && c in conns.context && LineFree(room) && room != ""
      modifies this`log, conns, rooms
      ensures Valid() && Handled(old(log), log, c, JoinRoom(room))
    {
      ghost var start := log;
      EnterRoom(c, room);
      ghost var others := Meanwhile(c);
      RunKeeps(log);
      AnswerClean(View(), c, JoinRoom(room), "");
      Broadcast(c, room, FormatBroadcast(room, SYSTEM, conns.context[c].nick + HAS_JOINED));
      assert Between(start, others, log, c, JoinRoom(room), "");
    }

    method OnWho(c: ConnId)
      requires Valid() && c in conns.context
      modifies this`log, conns, rooms
      ensures Valid() && Handled(old(log), log, c, Who)
    {
      ghost var start := log;
      var list := Roster(conns.context[c].room);
      ghost var others := Meanwhile(c);
      RunKeeps(log);
      AnswerClean(View(), c, Who, list);
      assert Line(ONLINE + list) == ONLINE + list + "\n";
      Tell(c, ONLINE + list + "\n");
      assert start + [] == start;
      assert Between(start, others, log, c, Who, list);
    }

    method Roster(room: string) returns (list: string)
      requires Valid()
      ensures Lists(View(), room, list) && LineFree(list)
    {
      RunKeeps(log);
      var names := rooms.Members(room);
      ghost var order :| Named(View(), room, order, names);
      list := "";
      for i := 0 to |names|
        invariant list == Listing(order[..i], conns.context)
      {
        assert order[..i + 1] == order[..i] + [order[i]];
        ListingSnoc(order[..i], order[i], conns.context);
        list := list + (names[i] + " ");
      }
      assert order[..|names|] == order;
      assert Roll(View(), room, order);
      ListingClean(order, conns.context);
    }

    method OnSay(c: ConnId, text: string)
      requires Valid() && c in conns.context && LineFree(text)
      modifies this`log, conns`said
      ensures Valid() && Handled(old(log), log, c, Say(text))
    {
      ghost var start := log;
      RunKeeps(log);
      AnswerClean(View(), c, Say(text), "");
      var session := conns.context[c];
      if session.room == "" {
        Tell(c, JOIN_FIRST + "\n");
      } else {
        Broadcast(c, session.room, FormatBroadcast(session.room, session.nick, text));
      }
      assert start + [] + [] == start;
      assert Between(start, [], log, c, Say(text), "");
    }

    method OnOther(c: ConnId, cmd: Command)
      requires Valid() && c in conns.context && (cmd.NamelessRoom? || cmd.Bye?)
      modifies this`log, conns`said, conns`quits
      ensures Valid() && Handled(old(log), log, c, cmd)
    {
      ghost var start := log;
      RunKeeps(log);
      AnswerClean(View(), c, cmd, "");
      if cmd.Bye? {
        HangUp(c);
      } else {
        Tell(c, NO_ROOM_NAME + "\n");
      }
      assert start + [] + [] == start;
      assert Between(start, [], log, c, cmd, "");
    }

    method OnLine(c: ConnId, line: string)
      requires Valid() && c in conns.context && LineFree(line)
      modifies this`log, conns, rooms
      ensures Valid() && Handled(old(log), log, c, Parse(line))
    {
      ParseClean(line);
      if "/nick " <= line {
        OnNick(c, line[6..]);
      } else if "/join " <= line {
        if line[6..] == "" {
          OnOther(c, NamelessRoom);
        } else {
          OnJoin(c, line[6..]);
        }
      } else if line == "/who" {
        OnWho(c);
      } else if line == "/quit" {
        OnOther(c, Bye);
      } else {
        OnSay(c, line);
      }
    }

    /** The message callback: every complete line in the input buffer, in order. */
    method OnMessage(c: ConnId, buf: Buffer, now: int)
      requires Valid() && c in conns.context && buf.Valid()
      modifies buf, this`log, conns, rooms
      ensures Valid() && buf.Valid()
      ensures var d, start := Decode(old(buf.Contents())), old(log) + [(c, Touch(now))];
              && buf.Contents() == d.rest
              && Dialogue(start, log, c, d.lines)
              && c in View().session
              && View().session[c] == Follow(old(View()).session[c].(lastActive := now), d.lines)
    {
      Refresh(c, now);
      OnInput(c, buf);
    }

    method OnInput(c: ConnId, buf: Buffer)
      requires Valid() && c in conns.context && buf.Valid()
      modifies buf, this`log, conns, rooms
      ensures Valid() && buf.Valid()
      ensures var d := Decode(old(buf.Contents()));
              && buf.Contents() == d.rest && Dialogue(old(log), log, c, d.lines)
              && c in View().session && View().session[c] == Follow(old(conns.context)[c], d.lines)
    {
      var lines := DrainLines(buf);
      OnLines(c, lines);
    }

    method DrainLines(buf: Buffer) returns (lines: seq<string>)
      requires buf.Valid()
      modifies buf
      ensures buf.Valid() && lines == Decode(old(buf.Contents())).lines
      ensures buf.Contents() == Decode(old(buf.Contents())).rest && forall l :: l in lines ==> LineFree(l)
    {
      DecodeSound(buf.Contents());
      lines := TakeLines(buf);
    }

    method OnLines(c: ConnId, lines: seq<string>)
      requires Valid() && c in conns.context && forall l :: l in lines ==> LineFree(l)
      modifies this`log, conns, rooms
      ensures Valid() && Dialogue(old(log), log, c, lines)
      ensures c in View().session && View().session[c] == Follow(old(View()).session[c], lines)
    {
      ghost var start := log;
      for i := 0 to |lines|
        invariant Valid() && c in conns.context && Dialogue(start, log, c, lines[..i])
      {
        ghost var mid := log;
        ghost var others := Meanwhile(c);
        ghost var before := log;
        OnLine(c, lines[i]);
        assert lines[..i + 1][..i] == lines[..i];
        assert Exchange(start, mid, others, log, c, lines[..i + 1]);
        HandledFollows(before, log, c, Parse(lines[i]));
      }
      assert lines[..|lines|] == lines;
      DialogueFollows(start, log, c, lines);
    }
  }
}
