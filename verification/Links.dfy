/** The life of one connection, as values: everything its fields, its two buffers, its channel and
    the kernel hold, and every step of it, its environment and the dispatch of its events. */
module Links {
  import opened Poller
  import opened States

  /** The write calls of one event: the whole output is offered first; each further call, in
      edge-triggered mode only, offers what the one before left over; it ends with `rest`. */
  ghost predicate Offers(fd: Fd, calls: seq<WriteCall>, output: string, rest: string, et: bool) {
    && calls != [] && calls[0].data == output && rest == calls[|calls| - 1].Left()
    && (forall k :: 0 <= k < |calls| ==> calls[k].fd == fd && calls[k].answer.Count() <= |calls[k].data|)
    && (forall k :: 0 < k < |calls| ==> et && Follows(calls, k))
  }

  ghost predicate Follows(calls: seq<WriteCall>, k: nat)
    requires 0 < k < |calls|
  {
    calls[k - 1].answer.Count() > 0 && calls[k].data == calls[k - 1].Left() != ""
  }

  /** It goes on as long as the source does: in edge-triggered mode, while bytes are taken and left. */
  ghost predicate OffersAll(fd: Fd, calls: seq<WriteCall>, output: string, rest: string, et: bool) {
    Offers(fd, calls, output, rest, et) && (et ==> rest == "" || calls[|calls| - 1].answer.Count() == 0)
  }

  lemma OffersOn(fd: Fd, calls: seq<WriteCall>, call: WriteCall, output: string, et: bool)
    requires calls != [] ==> Offers(fd, calls, output, call.data, et) && et && call.data != ""
    requires calls != [] ==> calls[|calls| - 1].answer.Count() > 0
    requires calls == [] ==> call.data == output
    requires call.fd == fd && call.answer.Count() <= |call.data|
    ensures Offers(fd, calls + [call], output, call.Left(), et)
  {
    var longer := calls + [call];
    forall k | 0 < k < |longer|
      ensures et && Follows(longer, k)
    {
      if k < |calls| {
        assert Follows(calls, k);
      }
    }
  }

  /** The loop so far: no call yet, or some calls, and whether it goes on. */
  ghost predicate Underway(fd: Fd, calls: seq<WriteCall>, output: string, rest: string, et: bool, again: bool) {
    if calls == [] then again && rest == output
    else
      var taken := calls[|calls| - 1].answer.Count();
      Offers(fd, calls, output, rest, et) && (again <==> et && taken > 0 && rest != "")
  }

  lemma UnderwayOn(fd: Fd, calls: seq<WriteCall>, answer: WriteAnswer, output: string, left: string, et: bool,
                   again: bool)
    requires Underway(fd, calls, output, left, et, true) && answer.Count() <= |left|
    requires var rest := left[answer.Count()..]; again <==> et && answer.Count() > 0 && rest != ""
    ensures Underway(fd, calls + [WriteCall(fd, left, answer)], output, left[answer.Count()..], et, again)
  {
    OffersOn(fd, calls, WriteCall(fd, left, answer), output, et);
  }

  lemma UnderwayEnds(fd: Fd, calls: seq<WriteCall>, output: string, rest: string, et: bool)
    requires Underway(fd, calls, output, rest, et, false)
    ensures OffersAll(fd, calls, output, rest, et)
  {
  }

  /** Output gets shorter whenever the first call takes bytes, and level-triggered mode makes one. */
  lemma {:induction false} OffersShorten(fd: Fd, calls: seq<WriteCall>, output: string, rest: string, et: bool)
    requires Offers(fd, calls, output, rest, et)
    ensures |rest| <= |output| - calls[0].answer.Count()
    ensures !et ==> |calls| == 1
    decreases |calls|
  {
    var n := |calls| - 1;
    if n > 0 {
      var before := calls[..n];
      forall k | 0 < k < n
        ensures Follows(before, k)
      {
        assert Follows(calls, k);
      }
      assert Follows(calls, n);
      OffersShorten(fd, before, output, calls[n - 1].Left(), et);
    }
  }

  datatype Callback = CloseCb | ErrorCb | ReadCb | WriteCb {
    function Rank(): nat {
      match this case CloseCb => 0 case ErrorCb => 1 case ReadCb => 2 case WriteCb => 3
    }
  }

  predicate HangsUp(r: Ready) {
    r.hup && !r.input
  }

  predicate Readable(r: Ready) {
    r.input || r.pri || r.rdhup
  }

  predicate Due(cb: Callback, r: Ready) {
    match cb
    case CloseCb => HangsUp(r)
    case ErrorCb => r.err
    case ReadCb => Readable(r)
    case WriteCb => r.output
  }

  /** Which callbacks one event runs, in order. */
  function Dispatch(r: Ready): seq<Callback> {
    (if HangsUp(r) then [CloseCb] else []) + AfterClose(r)
  }

  function AfterClose(r: Ready): seq<Callback> {
    (if r.err then [ErrorCb] else []) + AfterError(r)
  }

  function AfterError(r: Ready): seq<Callback> {
    (if Readable(r) then [ReadCb] else []) + AfterRead(r)
  }

  function AfterRead(r: Ready): seq<Callback> {
    if r.output then [WriteCb] else []
  }

  datatype Link = Link(
    et: bool, state: State, mask: Mask, index: Index, output: string, input: string,
    sock: Sock, room: bool, edge: bool,
    accepted: string, // every byte sendInLoop took responsibility for
    received: string, // every byte read from the kernel
    consumed: string, // every byte the message callback took out
    closes: nat,      // close callbacks run
    shuts: nat)       // SHUT_WR issued
  {
    /** No byte is lost, repeated or reordered on either path, and SHUT_WR comes after the last. */
    ghost predicate Conserves() {
      && accepted == sock.sent + output
      && received == consumed + input
      && (sock.shut ==> output == "") && shuts == (if sock.shut then 1 else 0)
    }

    ghost predicate Live() {
      state == Connected || state == Disconnecting
    }

    /** Room is awaited exactly when output is left over. */
    ghost predicate Coupled() {
      mask == Mask(true, output != "", et)
    }

    ghost predicate Good() {
      && Conserves() && (index != Added ==> !edge)
      && match state
         case Connecting => index == New && mask == NONE && accepted == received == "" && closes == 0 && !sock.shut
         case Connected => index == Added && Coupled() && closes == 0 && !sock.shut
         case Disconnecting => index != Deleted && Coupled() && closes == 0 && (sock.shut <==> output == "")
         case Disconnected => mask == NONE
    }

    /** Nothing was read, closed or deregistered in between. */
    ghost predicate SameInflow(other: Link) {
      && received == other.received && closes == other.closes && index == other.index
      && sock.inbox == other.sock.inbox && sock.ending == other.sock.ending
      && (other.Live() ==> Live())
    }

    /** Nothing was read, taken or closed in between. */
    ghost predicate SameStream(other: Link) {
      && received == other.received && closes == other.closes
      && sock.inbox == other.sock.inbox && sock.ending == other.sock.ending
    }

    /** One round of the read loop; `more` says that the kernel had bytes. */
    ghost predicate ReadsOnce(next: Link, more: bool) {
      && next.received + next.sock.inbox == received + sock.inbox
      && next.sock.ending == sock.ending
      && (more <==> sock.inbox != "")
      && (if more then |next.sock.inbox| < |sock.inbox| else next.sock.inbox == "")
      && next.closes == closes + (if !more && sock.ending == Finished then 1 else 0)
    }

    /** Left-over output that no event will ever flush: edge-triggered, watched for room that is
        there, and no edge to report it. */
    ghost predicate Stalled() {
      et && Live() && index == Added && mask.writing && room && !edge
    }

    // ----- What each operation makes of the link

    /** connectEstablished, up to the connection callback. */
    function Established(): Link {
      this.(state := Connected, mask := Mask(true, false, et), index := Added, edge := false)
    }

    predicate Direct() {
      state == Connected && output == "" && !mask.writing
    }

    /** sendInLoop; `answer` is the kernel's when the message is written directly. */
    function Sends(msg: string, answer: WriteAnswer, left: bool): Link
      requires Direct() ==> answer.Possible(msg, room, left)
    {
      if state != Connected then this
      else
        var n := if Direct() then answer.Count() else 0;
        var tried := this.(accepted := accepted + msg, sock := sock.(sent := sock.sent + msg[..n]),
                           room := if Direct() then left else room);
        if n == |msg| then tried else tried.Keeps(msg[n..])
    }

    /** What was not written joins the output; write interest goes on if it was off. */
    function Keeps(rest: string): Link {
      this.(output := output + rest, mask := mask.(writing := true), edge := edge || (!mask.writing && room))
    }

    function Shuts(): Link {
      this.(sock := sock.(shut := true), shuts := shuts + 1)
    }

    /** shutdown on the owner loop. */
    function HalfCloses(): Link {
      if state != Connected then this
      else
        var k := this.(state := Disconnecting);
        if mask.writing then k else k.Shuts()
    }

    /** One round of the write loop, up to the reaction to an emptied buffer. */
    function Wrote(answer: WriteAnswer, left: bool): Link
      requires answer.Possible(output, room, left)
    {
      this.(output := output[answer.Count()..], room := left,
            sock := sock.(sent := sock.sent + output[..answer.Count()]))
    }

    /** The buffer ran empty: interest off, and a pending half-close done. */
    function Emptied(): Link {
      var k := this.(mask := mask.(writing := false), edge := false);
      if state == Disconnecting then k.Shuts() else k
    }

    /** One round of the write loop. */
    function Flushed(answer: WriteAnswer, left: bool): Link
      requires mask.writing ==> answer.Possible(output, room, left)
    {
      if !mask.writing then this
      else
        var w := Wrote(answer, left);
        if answer.Count() > 0 && w.output == "" then w.Emptied() else w
    }

    function Receives(bytes: string): Link
      requires bytes <= sock.inbox
    {
      this.(received := received + bytes, input := input + bytes, sock := sock.(inbox := sock.inbox[|bytes|..]))
    }

    function Consumes(n: nat): Link
      requires n <= |input|
    {
      this.(consumed := consumed + input[..n], input := input[n..])
    }

    /** handleClose. */
    function Closed(): Link {
      this.(state := Disconnected, closes := closes + 1, mask := NONE, edge := false,
            index := Updated(index, NONE))
    }

    /** connectDestroyed. */
    function Destroyed(): Link {
      this.(state := if state == Connected then Disconnected else state,
            mask := if state == Connected then NONE else mask, index := New, edge := false)
    }

    /** epoll_wait takes the descriptor off its ready list. */
    function Reported(): Link {
      this.(edge := false)
    }

    /** The peer drained the socket: there is room, which is an edge for whoever watches. */
    function Drained(): Link {
      this.(room := true, edge := edge || (index == Added && mask.writing))
    }

    function Arrived(bytes: string, ending: Ending): Link {
      this.(sock := sock.(inbox := sock.inbox + bytes, ending := ending))
    }

    // ----- What every step keeps

    /** States move forward, bytes handed over stay handed over, and once SHUT_WR was issued
        nothing is written or accepted any more. */
    ghost predicate Leads(next: Link) {
      && et == next.et
      && state.Rank() <= next.state.Rank()
      && sock.sent <= next.sock.sent && accepted <= next.accepted
      && received <= next.received && consumed <= next.consumed
      && closes <= next.closes && shuts <= next.shuts
      && (sock.shut ==> next.sock.shut && next.sock.sent == sock.sent && next.accepted == accepted)
    }
  }

  lemma LeadsOn(a: Link, b: Link, c: Link)
    requires a.Leads(b) && b.Leads(c)
    ensures a.Leads(c)
  {
  }

  // ----- The steps of a life

  datatype Op =
    | Establish
    | Send(msg: string, answer: WriteAnswer, left: bool)
    | HalfClose
    | Report(r: Ready)                          // epoll_wait reports the descriptor
    | RunClose                                  // the close callback of the event
    | RunError
    | Read(bytes: string)                       // one round of the read loop: bytes, ...
    | ReadEnd                                   // ... the end of the peer's stream, ...
    | ReadNothing                               // ... or neither
    | Consume(n: nat)                           // the message callback takes input
    | Return                                    // the message callback ends
    | Flush(answer: WriteAnswer, left: bool)    // one round of the write loop
    | PeerReads
    | PeerSends(bytes: string, ending: Ending)
    | Destroy

  /** A connection, the event being dispatched with its callbacks still to run, and whether the
      message callback is running. */
  datatype Life = Life(link: Link, event: Ready, todo: seq<Callback>, calling: bool) {

    predicate Idle() {
      todo == [] && !calling
    }

    predicate At(cb: Callback) {
      todo != [] && todo[0] == cb && !calling
    }

    /** The callback at hand is done. */
    function Done(l: Link): Life
      requires todo != []
    {
      Life(l, event, todo[1..], false)
    }

    /** The callback at hand loops in edge-triggered mode and is done in level-triggered mode. */
    function Round(l: Link): Life
      requires todo != []
    {
      if link.et then Life(l, event, todo, false) else Done(l)
    }

    predicate Enabled(op: Op) {
      match op
      case Establish => Idle() && link.state == Connecting
      case Send(msg, answer, left) => link.Direct() ==> answer.Possible(msg, link.room, left)
      case HalfClose => true
      case Report(r) => Idle() && link.index == Added && r.output == (link.mask.writing && link.room)
      case RunClose => At(CloseCb)
      case RunError => At(ErrorCb)
      case Read(bytes) => At(ReadCb) && bytes != "" && bytes <= link.sock.inbox
      case ReadEnd => At(ReadCb) && link.sock.inbox == "" && link.sock.ending == Finished
      case ReadNothing => At(ReadCb) && link.sock.inbox == "" && link.sock.ending != Finished
      case Consume(n) => calling && n <= |link.input|
      case Return => calling && todo != []
      case Flush(answer, left) => At(WriteCb) && (link.mask.writing ==> answer.Possible(link.output, link.room, left))
      case PeerReads => true
      case PeerSends(_, _) => true
      case Destroy => Idle()
    }

    function Apply(op: Op): Life
      requires Enabled(op)
    {
      match op
      case Establish => this.(link := link.Established())
      case Send(msg, answer, left) => this.(link := link.Sends(msg, answer, left))
      case HalfClose => this.(link := link.HalfCloses())
      case Report(r) => Life(link.Reported(), r, Dispatch(r), false)
      case RunClose => Done(link.Closed())
      case RunError => Done(link)
      case Read(bytes) => this.(link := link.Receives(bytes), calling := true)
      case ReadEnd => Done(link.Closed())
      case ReadNothing => Done(link)
      case Consume(n) => this.(link := link.Consumes(n))
      case Return => Round(link)
      case Flush(answer, left) =>
        var w := link.Flushed(answer, left);
        if answer.Count() > 0 && w.mask.writing then Round(w) else Done(w)
      case PeerReads => this.(link := link.Drained())
      case PeerSends(bytes, ending) => this.(link := link.Arrived(bytes, ending))
      case Destroy => this.(link := link.Destroyed())
    }

    /** The callbacks left are the event's, close before error before read before write. */
    ghost predicate Tail() {
      && (forall i :: 0 <= i < |todo| ==> Due(todo[i], event))
      && (forall i, j :: 0 <= i < j < |todo| ==> todo[i].Rank() < todo[j].Rank())
    }

    /** No dispatch outlives its connection's registration, and the message callback runs only
        inside the read callback. */
    ghost predicate Good() {
      && link.Good() && Tail()
      && (calling ==> todo != [] && todo[0] == ReadCb)
      && (todo != [] ==> link.state != Connecting && link.index != New)
      && (todo == [] ==> !calling)
    }
  }

  ghost predicate Born(l: Life) {
    var k := l.link;
    && l.todo == [] && !l.calling
    && k.state == Connecting && k.index == New && k.mask == NONE && k.closes == 0 && !k.edge
    && k.output == k.input == k.accepted == k.received == k.consumed == k.sock.sent == "" && !k.sock.shut
    && k.shuts == 0 && l.event == Ready(false, false, false, false, false, false)
  }

  ghost predicate Step(a: Life, b: Life) {
    exists op :: a.Enabled(op) && b == a.Apply(op)
  }

  ghost predicate Steps(ls: seq<Life>, i: nat)
    requires i + 1 < |ls|
  {
    Step(ls[i], ls[i + 1])
  }

  ghost predicate Path(ls: seq<Life>) {
    ls != [] && forall i :: 0 <= i < |ls| - 1 ==> Steps(ls, i)
  }

  /** A whole life, from the constructor on. */
  ghost predicate Run(ls: seq<Life>) {
    Path(ls) && Born(ls[0])
  }

  ghost predicate Joins(ls: seq<Life>, a: Life, b: Life) {
    Path(ls) && ls[0] == a && ls[|ls| - 1] == b
  }

  /** Some steps lead from `a` to `b`. */
  ghost predicate Reaches(a: Life, b: Life) {
    exists ls :: Joins(ls, a, b)
  }

  lemma Takes(a: Life, op: Op)
    requires a.Enabled(op)
    ensures Step(a, a.Apply(op))
  {
  }

  lemma Stays(a: Life)
    ensures Reaches(a, a)
  {
    assert Joins([a], a, a);
  }

  lemma ReachesBy(a: Life, op: Op)
    requires a.Enabled(op)
    ensures Reaches(a, a.Apply(op))
  {
    var ls := [a, a.Apply(op)];
    assert Step(a, a.Apply(op));
    assert Joins(ls, a, a.Apply(op));
  }

  lemma ReachesOn(a: Life, b: Life, c: Life)
    requires Reaches(a, b) && Reaches(b, c)
    ensures Reaches(a, c)
  {
    var p :| Joins(p, a, b);
    var q :| Joins(q, b, c);
    var ls := p + q[1..];
    forall i | 0 <= i < |ls| - 1
      ensures Steps(ls, i)
    {
      if i < |p| - 1 {
        assert Steps(p, i) && Step(p[i], p[i + 1]);
      } else {
        var k := i - (|p| - 1);
        assert Steps(q, k) && Step(q[k], q[k + 1]);
        assert ls[i] == q[k] && ls[i + 1] == q[k + 1];
      }
    }
    assert Joins(ls, a, c);
  }

  // ----- One step keeps the invariant

  lemma SendKeeps(k: Link, msg: string, answer: WriteAnswer, left: bool)
    requires k.Good() && (k.Direct() ==> answer.Possible(msg, k.room, left))
    ensures k.Sends(msg, answer, left).Good() && k.Leads(k.Sends(msg, answer, left))
  {
    if k.state == Connected {
      var n := if k.Direct() then answer.Count() else 0;
      assert msg == msg[..n] + msg[n..];
      assert k.sock.sent + k.output + msg == k.sock.sent + msg[..n] + (k.output + msg[n..]) by {
        assert k.output == "" || n == 0;
      }
      assert n == |msg| ==> k.output + msg[n..] == k.output;
    }
  }

  /** Sending takes the whole message or nothing, and touches nothing that comes in. */
  lemma SendsOut(k: Link, msg: string, answer: WriteAnswer, left: bool)
    requires k.Direct() ==> answer.Possible(msg, k.room, left)
    ensures k.Sends(msg, answer, left).SameInflow(k)
    ensures k.Sends(msg, answer, left).accepted == if k.state == Connected then k.accepted + msg else k.accepted
  {
  }

  lemma ConsumesSplit(k: Link, taken: string, rest: string)
    requires k.input == taken + rest
    ensures k.Consumes(|taken|) == k.(consumed := k.consumed + taken, input := rest)
  {
  }

  lemma FlushKeeps(k: Link, answer: WriteAnswer, left: bool)
    requires k.Good() && k.index != New && (k.mask.writing ==> answer.Possible(k.output, k.room, left))
    ensures k.Flushed(answer, left).Good() && k.Leads(k.Flushed(answer, left))
    ensures k.mask.writing && answer.Count() > 0 ==> |k.Flushed(answer, left).output| < |k.output|
  {
    if k.mask.writing {
      var n := answer.Count();
      assert k.output == k.output[..n] + k.output[n..];
      assert k.sock.sent + k.output == k.sock.sent + k.output[..n] + k.output[n..];
    }
  }

  /** One round takes from the output what the kernel took, and leaves interest on exactly when
      bytes are left. */
  lemma FlushLeaves(k: Link, answer: WriteAnswer, left: bool)
    requires k.Good() && k.mask.writing && answer.Possible(k.output, k.room, left)
    ensures var m := k.Flushed(answer, left);
            && m.output == k.output[answer.Count()..] && m.SameStream(k)
            && (m.mask.writing <==> m.output != "")
  {
  }

  lemma ReadKeeps(k: Link, bytes: string, n: nat)
    requires k.Good() && k.state != Connecting
    ensures bytes <= k.sock.inbox ==>
              && k.Receives(bytes).Good() && k.Leads(k.Receives(bytes))
              && k.Receives(bytes).received + k.Receives(bytes).sock.inbox == k.received + k.sock.inbox
    ensures n <= |k.input| ==> k.Consumes(n).Good() && k.Leads(k.Consumes(n))
  {
    assert k.consumed + k.input + bytes == k.consumed + (k.input + bytes);
    if bytes <= k.sock.inbox {
      assert k.sock.inbox == bytes + k.sock.inbox[|bytes|..];
      assert k.received + bytes + k.sock.inbox[|bytes|..] == k.received + (bytes + k.sock.inbox[|bytes|..]);
    }
    if n <= |k.input| {
      assert k.input == k.input[..n] + k.input[n..];
      assert k.consumed + k.input == k.consumed + k.input[..n] + k.input[n..];
    }
  }

  /** The operations that write nothing and read nothing. */
  lemma ControlKeeps(k: Link)
    requires k.Good()
    ensures k.state == Connecting ==> k.Established().Good() && k.Leads(k.Established())
    ensures k.HalfCloses().Good() && k.Leads(k.HalfCloses())
    ensures k.state != Connecting ==> k.Closed().Good() && k.Leads(k.Closed())
    ensures k.Destroyed().Good() && k.Leads(k.Destroyed())
  {
  }

  lemma EnvironmentKeeps(k: Link, bytes: string, ending: Ending)
    requires k.Good()
    ensures k.Reported().Good() && k.Leads(k.Reported())
    ensures k.Drained().Good() && k.Leads(k.Drained())
    ensures k.Arrived(bytes, ending).Good() && k.Leads(k.Arrived(bytes, ending))
  {
  }

  /** One more callback of the event is done, or the loop of one goes on. */
  lemma CallbackKeeps(l: Life, k: Link)
    requires l.Good() && l.todo != [] && k.Good() && k.state != Connecting && k.index != New
    ensures l.Done(k).Good() && (!l.calling || l.todo[0] == ReadCb ==> l.Round(k).Good())
  {
  }

  lemma DispatchTail(r: Ready)
    ensures forall i :: 0 <= i < |Dispatch(r)| ==> Due(Dispatch(r)[i], r)
    ensures forall i, j :: 0 <= i < j < |Dispatch(r)| ==> Dispatch(r)[i].Rank() < Dispatch(r)[j].Rank()
    ensures HangsUp(r) ==> Dispatch(r)[0] == CloseCb
    ensures r.output ==> Dispatch(r) != [] && Dispatch(r)[|Dispatch(r)| - 1] == WriteCb
  {
  }

  /** Which callbacks an event runs, and in which order: a close first, an error before a read, a
      write last, each at most once. */
  lemma DispatchExactly(r: Ready)
    ensures CloseCb in Dispatch(r) <==> r.hup && !r.input
    ensures ErrorCb in Dispatch(r) <==> r.err
    ensures ReadCb in Dispatch(r) <==> r.input || r.pri || r.rdhup
    ensures WriteCb in Dispatch(r) <==> r.output
    ensures var d := Dispatch(r);
            && (CloseCb in d ==> d[0] == CloseCb) && (WriteCb in d ==> d[|d| - 1] == WriteCb)
            && (forall i, j :: 0 <= i < |d| && 0 <= j < |d| && d[i] == ErrorCb && d[j] == ReadCb ==> i < j)
            && (forall i, j :: 0 <= i < j < |d| ==> d[i] != d[j])
  {
  }

  lemma DispatchParts(r: Ready)
    ensures if HangsUp(r) then Dispatch(r) == [CloseCb] + AfterClose(r) && Dispatch(r)[1..] == AfterClose(r)
            else Dispatch(r) == AfterClose(r)
    ensures if r.err then AfterClose(r) == [ErrorCb] + AfterError(r) && AfterClose(r)[1..] == AfterError(r)
            else AfterClose(r) == AfterError(r)
    ensures if Readable(r) then AfterError(r) == [ReadCb] + AfterRead(r) && AfterError(r)[1..] == AfterRead(r)
            else AfterError(r) == AfterRead(r)
    ensures r.output ==> AfterRead(r)[1..] == []
  {
  }

  /** Output that the write callback finds is watched for room, and SHUT_WR has not been issued. */
  lemma Flushable(l: Life)
    requires l.Good() && l.At(WriteCb) && l.link.mask.writing
    ensures l.link.index == Added && l.link.mask.reading && !l.link.sock.shut && l.link.output != ""
  {
  }

  lemma {:induction false} ReadOpKeeps(l: Life, op: Op)
    requires l.Good() && l.Enabled(op) && (op.Read? || op.ReadEnd? || op.ReadNothing? || op.Consume? || op.Return?)
    ensures l.Apply(op).Good() && l.link.Leads(l.Apply(op).link)
  {
    if op.Read? {
      ReadKeeps(l.link, op.bytes, 0);
    } else if op.Consume? {
      ReadKeeps(l.link, "", op.n);
    } else if op.ReadEnd? {
      ControlKeeps(l.link);
      CallbackKeeps(l, l.link.Closed());
    } else {
      CallbackKeeps(l, l.link);
    }
  }

  lemma {:induction false} EventOpKeeps(l: Life, op: Op)
    requires l.Good() && l.Enabled(op) && (op.Report? || op.RunClose? || op.RunError? || op.Flush?)
    ensures l.Apply(op).Good() && l.link.Leads(l.Apply(op).link)
  {
    if op.Report? {
      EnvironmentKeeps(l.link, "", Open);
      DispatchTail(op.r);
    } else if op.RunClose? {
      ControlKeeps(l.link);
      CallbackKeeps(l, l.link.Closed());
    } else if op.RunError? {
      CallbackKeeps(l, l.link);
    } else {
      FlushKeeps(l.link, op.answer, op.left);
      CallbackKeeps(l, l.link.Flushed(op.answer, op.left));
    }
  }

  /** Every step of a life keeps the invariant, and leads on. */
  lemma {:induction false} StepKeeps(l: Life, op: Op)
    requires l.Good() && l.Enabled(op)
    ensures l.Apply(op).Good() && l.link.Leads(l.Apply(op).link)
  {
    if op.Read? || op.ReadEnd? || op.ReadNothing? || op.Consume? || op.Return? {
      ReadOpKeeps(l, op);
    } else if op.Report? || op.RunClose? || op.RunError? || op.Flush? {
      EventOpKeeps(l, op);
    } else {
      OtherOpKeeps(l, op);
    }
  }

  lemma {:induction false} OtherOpKeeps(l: Life, op: Op)
    requires l.Good() && l.Enabled(op)
    requires op.Establish? || op.Send? || op.HalfClose? || op.PeerReads? || op.PeerSends? || op.Destroy?
    ensures l.Apply(op).Good() && l.link.Leads(l.Apply(op).link)
  {
    if op.Send? {
      SendKeeps(l.link, op.msg, op.answer, op.left);
    } else if op.PeerSends? {
      EnvironmentKeeps(l.link, op.bytes, op.ending);
    } else if op.PeerReads? {
      EnvironmentKeeps(l.link, "", Open);
    } else {
      ControlKeeps(l.link);
    }
  }

  lemma Goes(l: Life, op: Op)
    requires l.Good() && l.Enabled(op)
    ensures l.Apply(op).Good() && Reaches(l, l.Apply(op))
  {
    StepKeeps(l, op);
    ReachesBy(l, op);
  }

  lemma GoesSend(l: Life, msg: string, answer: WriteAnswer, left: bool)
    requires l.Good() && (l.link.Direct() ==> answer.Possible(msg, l.link.room, left))
    ensures var b := l.(link := l.link.Sends(msg, answer, left)); b.Good() && Reaches(l, b)
  {
    Goes(l, Send(msg, answer, left));
  }

  // ----- Whole lives

  /** The step taken at `i`. */
  lemma StepOf(ls: seq<Life>, i: nat) returns (op: Op)
    requires Path(ls) && i + 1 < |ls|
    ensures ls[i].Enabled(op) && ls[i + 1] == ls[i].Apply(op)
  {
    assert Steps(ls, i);
    op :| ls[i].Enabled(op) && ls[i + 1] == ls[i].Apply(op);
  }

  lemma BornGood(l: Life)
    requires Born(l)
    ensures l.Good()
  {
  }

  lemma {:induction false} RunGood(ls: seq<Life>, i: nat, j: nat)
    requires Run(ls) && i <= j < |ls|
    ensures ls[i].Good() && ls[j].Good() && ls[i].link.Leads(ls[j].link)
  {
    if j == 0 {
      BornGood(ls[0]);
    } else {
      RunGood(ls, if i < j then i else j - 1, j - 1);
      var op := StepOf(ls, j - 1);
      StepKeeps(ls[j - 1], op);
      LeadsOn(ls[if i < j then i else j - 1].link, ls[j - 1].link, ls[j].link);
    }
  }

  /** Flush, then half-close, lose no tail, whatever happens in between: SHUT_WR is issued at most
      once; while a half-close is pending bytes are left over and room is awaited; once it was
      issued every byte accepted before it has been written, and nothing is written or accepted
      ever after. */
  lemma HalfCloseAfterFlush(ls: seq<Life>, i: nat, j: nat)
    requires Run(ls) && i <= j < |ls|
    ensures var k, m := ls[i].link, ls[j].link;
            && k.shuts <= 1 && m.shuts <= 1 && (k.sock.shut <==> k.shuts == 1)
            && k.accepted == k.sock.sent + k.output && k.accepted <= m.sock.sent + m.output
            && (k.state == Disconnecting ==> if k.shuts == 1 then k.output == "" else k.output != "" && k.mask.writing)
            && (k.shuts == 1 ==>
                  && k.sock.sent == k.accepted && k.state.Rank() >= Disconnecting.Rank()
                  && m.sock.sent == k.sock.sent && m.accepted == k.accepted)
  {
    RunGood(ls, i, j);
    assert ls[i].link.sock.sent + "" == ls[i].link.sock.sent;
  }

  /** The owner's half-close takes effect at once: from then on no byte is accepted, and whenever
      nothing is left over, until the connection is down, SHUT_WR has been issued. */
  lemma {:induction false} HalfCloseTakesEffect(ls: seq<Life>, i: nat, j: nat)
    requires Run(ls) && i < j < |ls| && ls[i].link.state == Connected
    requires ls[i + 1] == ls[i].Apply(HalfClose)
    ensures ls[i + 1].link.state == Disconnecting && ls[i + 1].link.output == ls[i].link.output
    ensures ls[j].link.accepted == ls[i].link.accepted
    ensures ls[j].link.state != Disconnected && ls[j].link.output == "" ==> ls[j].link.sock.shut
  {
    RunGood(ls, i, i);
    RunGood(ls, i + 1, j);
    if j > i + 1 {
      HalfCloseTakesEffect(ls, i, j - 1);
      RunGood(ls, i + 1, j - 1);
      var op := StepOf(ls, j - 1);
      NothingAcceptedLater(ls[j - 1], op);
    }
  }

  lemma NothingAcceptedLater(l: Life, op: Op)
    requires l.Good() && l.Enabled(op) && l.link.state.Rank() >= Disconnecting.Rank()
    ensures l.Apply(op).link.accepted == l.link.accepted
  {
  }

  // ----- How often a connection closes

  /** The read callback of an event that has hung up already meets the end of the stream. */
  ghost predicate DoubleClose(a: Life, b: Life) {
    && a.At(ReadCb) && HangsUp(a.event)
    && a.link.sock.inbox == "" && a.link.sock.ending == Finished && b.todo == a.todo[1..]
  }

  ghost predicate DoubleCloses(ls: seq<Life>, i: nat)
    requires i + 1 < |ls|
  {
    DoubleClose(ls[i], ls[i + 1])
  }

  ghost predicate NoneDoubleCloses(ls: seq<Life>, j: nat)
    requires j < |ls|
  {
    forall i :: 0 <= i < j ==> !DoubleCloses(ls, i)
  }

  /** So far at most one close; after it nothing is watched, and nothing more will close or, but
      for an event that hung up, read. */
  ghost predicate ClosedOnce(l: Life) {
    var k := l.link;
    && k.closes <= 1
    && (k.closes == 1 ==> k.state == Disconnected && k.index != Added
                          && CloseCb !in l.todo && (ReadCb in l.todo ==> HangsUp(l.event)))
    && (k.closes == 0 ==> (k.state == Disconnected ==> k.index == New)
                          && (HangsUp(l.event) && l.todo != [] ==> l.todo[0] == CloseCb))
  }

  lemma TailOrder(l: Life)
    requires l.Tail() && l.todo != []
    ensures forall cb :: cb in l.todo[1..] ==> l.todo[0].Rank() < cb.Rank()
    ensures CloseCb in l.todo ==> l.todo[0] == CloseCb
    ensures ReadCb in l.todo ==> Readable(l.event)
    ensures forall cb :: cb in l.todo <==> cb == l.todo[0] || cb in l.todo[1..]
  {
    assert l.todo == [l.todo[0]] + l.todo[1..];
  }

  lemma {:induction false} CloseStep(l: Life, op: Op)
    requires l.Good() && ClosedOnce(l) && l.Enabled(op)
    ensures var b := l.Apply(op);
            if DoubleClose(l, b) then b.link.closes == 2 else ClosedOnce(b)
  {
    if op.RunClose? || op.ReadEnd? {
      CloseOpStep(l, op);
    } else if l.todo != [] {
      TailOrder(l);
      NoCloseStep(l, op);
    } else {
      IdleStep(l, op);
    }
  }

  lemma {:induction false} CloseOpStep(l: Life, op: Op)
    requires l.Good() && ClosedOnce(l) && l.Enabled(op) && (op.RunClose? || op.ReadEnd?)
    ensures var b := l.Apply(op);
            if DoubleClose(l, b) then b.link.closes == 2 else ClosedOnce(b)
  {
    TailOrder(l);
  }

  lemma {:induction false} NoCloseStep(l: Life, op: Op)
    requires l.Good() && ClosedOnce(l) && l.Enabled(op) && !op.RunClose? && !op.ReadEnd? && l.todo != []
    requires forall cb :: cb in l.todo <==> cb == l.todo[0] || cb in l.todo[1..]
    ensures !DoubleClose(l, l.Apply(op)) && ClosedOnce(l.Apply(op))
  {
    if HangsUp(l.event) && l.link.closes == 0 {
      assert l.todo[0] == CloseCb;
    }
  }

  lemma {:induction false} IdleStep(l: Life, op: Op)
    requires l.Good() && ClosedOnce(l) && l.Enabled(op) && l.todo == []
    ensures !DoubleClose(l, l.Apply(op)) && ClosedOnce(l.Apply(op))
  {
  }

  lemma {:induction false} ClosesBefore(ls: seq<Life>, j: nat)
    requires Run(ls) && j < |ls| && NoneDoubleCloses(ls, j)
    ensures ls[j].Good() && ClosedOnce(ls[j])
  {
    RunGood(ls, j, j);
    if j > 0 {
      ClosesBefore(ls, j - 1);
      assert !DoubleCloses(ls, j - 1);
      var op := StepOf(ls, j - 1);
      CloseStep(ls[j - 1], op);
    }
  }

  /** The close callback runs at most once in a connection's life if and only if no event that has
      hung up goes on to read the end of the stream. */
  lemma {:induction false} ClosesAtMostOnce(ls: seq<Life>, j: nat)
    requires Run(ls) && j < |ls|
    ensures ls[j].link.closes <= 1 <==> NoneDoubleCloses(ls, j)
  {
    RunGood(ls, j, j);
    if j > 0 {
      ClosesAtMostOnce(ls, j - 1);
      RunGood(ls, j - 1, j);
      if NoneDoubleCloses(ls, j - 1) {
        ClosesBefore(ls, j - 1);
        var op := StepOf(ls, j - 1);
        CloseStep(ls[j - 1], op);
        assert DoubleCloses(ls, j - 1) <==> DoubleClose(ls[j - 1], ls[j]);
      }
    }
  }

  /** Such an event hung up without plain input, yet carried urgent input or the peer's shutdown, and
      its connection closes once more. */
  lemma DoubleCloseEvent(a: Life, op: Op)
    requires a.Good() && a.Enabled(op) && DoubleClose(a, a.Apply(op))
    ensures HangsUp(a.event) && Readable(a.event) && (a.event.pri || a.event.rdhup)
    ensures a.Apply(op).link.closes == a.link.closes + 1
  {
    TailOrder(a);
  }

  /** The connection closes in this step. */
  ghost predicate Closing(a: Life, b: Life) {
    b.link.closes > a.link.closes
  }

  ghost predicate ClosesLive(ls: seq<Life>, i: nat)
    requires i + 1 < |ls|
  {
    Closing(ls[i], ls[i + 1]) ==> ls[i].link.Live()
  }

  lemma {:induction false} CloseLive(l: Life, op: Op)
    requires l.Good() && ClosedOnce(l) && l.Enabled(op)
    ensures DoubleClose(l, l.Apply(op)) <==> Closing(l, l.Apply(op)) && !l.link.Live()
  {
    if op.RunClose? || op.ReadEnd? {
      TailOrder(l);
    } else {
      NotClosing(l, op);
    }
  }

  lemma {:induction false} NotClosing(l: Life, op: Op)
    requires l.Enabled(op) && !op.RunClose? && !op.ReadEnd?
    ensures !Closing(l, l.Apply(op)) && !DoubleClose(l, l.Apply(op))
  {
  }

  /** The same said of the connection that closes: it is live at every close if and only if no event
      that has hung up goes on to read the end of the stream. */
  lemma {:induction false} LiveAtEveryClose(ls: seq<Life>, j: nat)
    requires Run(ls) && j < |ls|
    ensures NoneDoubleCloses(ls, j) <==> forall i :: 0 <= i < j ==> ClosesLive(ls, i)
  {
    if j > 0 {
      LiveAtEveryClose(ls, j - 1);
      if NoneDoubleCloses(ls, j - 1) {
        ClosesBefore(ls, j - 1);
        var op := StepOf(ls, j - 1);
        CloseLive(ls[j - 1], op);
        assert DoubleCloses(ls, j - 1) <==> !ClosesLive(ls, j - 1);
      }
    }
  }

  lemma LongerRun(ls: seq<Life>, next: Life) returns (longer: seq<Life>)
    requires Run(ls) && Step(ls[|ls| - 1], next)
    ensures longer == ls + [next] && Run(longer)
  {
    longer := ls + [next];
    forall i | 0 <= i < |longer| - 1
      ensures Steps(longer, i)
    {
      if i < |ls| - 1 {
        assert Steps(ls, i);
      }
    }
  }

  const HANGUP := Ready(false, true, false, false, false, true)

  lemma HangupDispatch()
    ensures Dispatch(HANGUP) == [CloseCb, ReadCb]
  {
  }

  /** A connection comes up, the peer sends and perhaps ends, and a hang-up is reported together
      with urgent input: the close callback has run and the read callback is next. */
  lemma HungUp(born: Life, bytes: string, ending: Ending) returns (ls: seq<Life>)
    requires Born(born)
    ensures Run(ls) && |ls| == 5 && ls[0] == born
    ensures ls[1] == born.(link := born.link.Established())
    ensures ls[2] == ls[1].(link := ls[1].link.Arrived(bytes, ending))
    ensures ls[3] == Life(ls[2].link.Reported(), HANGUP, [CloseCb, ReadCb], false)
    ensures ls[4] == Life(ls[3].link.Closed(), HANGUP, [ReadCb], false)
  {
    HangupDispatch();
    var up := born.(link := born.link.Established());
    assert Step(born, up) by { Takes(born, Establish); }
    var sent := up.(link := up.link.Arrived(bytes, ending));
    assert Step(up, sent) by { Takes(up, PeerSends(bytes, ending)); }
    var reported := Life(sent.link.Reported(), HANGUP, [CloseCb, ReadCb], false);
    assert Step(sent, reported) by { Takes(sent, Report(HANGUP)); }
    var closed := Life(reported.link.Closed(), HANGUP, [ReadCb], false);
    assert Step(reported, closed) by {
      assert reported.todo[1..] == [ReadCb];
      Takes(reported, RunClose);
    }
    ls := LongerRun([born], up);
    ls := LongerRun(ls, sent);
    ls := LongerRun(ls, reported);
    ls := LongerRun(ls, closed);
  }

  /** The witness: a hang-up reported together with urgent input, at the end of the stream. */
  lemma ClosesTwice(born: Life) returns (ls: seq<Life>)
    requires Born(born) && born.link.sock.inbox == ""
    ensures Run(ls) && ls[|ls| - 1].link.closes == 2
  {
    ls := HungUp(born, "", Finished);
    var closed := ls[4];
    Takes(closed, ReadEnd);
    ls := LongerRun(ls, closed.Apply(ReadEnd));
  }

  // ----- The callbacks that the upper layer sees

  datatype Call = Up | Message | Down

  ghost predicate Newly(call: Call, before: seq<Call>, after: seq<Call>) {
    exists k :: |before| <= k < |after| && after[k] == call
  }

  lemma NewlyOn(call: Call, a: seq<Call>, b: seq<Call>, c: seq<Call>, d: seq<Call>)
    requires a <= b <= c <= d && Newly(call, b, c)
    ensures Newly(call, a, d)
  {
    var k :| |b| <= k < |c| && c[k] == call;
    assert d[k] == call;
  }

  /** The connection callback with the connection up, the message callback, the connection callback
      with the connection down: from the close, or from a clean-up that comes before it. */
  function CallOf(a: Life, b: Life): seq<Call> {
    if b.link.closes > a.link.closes || (a.link.state == Connected && b.link.state == Disconnected) then [Down]
    else if b.calling && !a.calling then [Message]
    else if a.link.state == Connecting && b.link.state == Connected then [Up]
    else []
  }

  function Calls(ls: seq<Life>): seq<Call> {
    if |ls| < 2 then [] else Calls(ls[..|ls| - 1]) + CallOf(ls[|ls| - 2], ls[|ls| - 1])
  }

  /** First up, then messages, then down, once, and nothing after it. */
  ghost predicate InOrder(cs: seq<Call>) {
    && (cs != [] ==> cs[0] == Up)
    && (forall i :: 0 < i < |cs| ==> cs[i] != Up)
    && (forall i :: 0 <= i < |cs| - 1 ==> cs[i] != Down)
  }

  /** The read callback of an event that has hung up finds bytes, or the end of the stream. */
  ghost predicate HungRead(a: Life, b: Life) {
    a.At(ReadCb) && HangsUp(a.event) && (b.calling || DoubleClose(a, b))
  }

  ghost predicate HungReads(ls: seq<Life>, i: nat)
    requires i + 1 < |ls|
  {
    HungRead(ls[i], ls[i + 1])
  }

  ghost predicate NoneHungReads(ls: seq<Life>, j: nat)
    requires j < |ls|
  {
    forall i :: 0 <= i < j ==> !HungReads(ls, i)
  }

  ghost predicate CallsAt(l: Life, cs: seq<Call>) {
    && ClosedOnce(l) && InOrder(cs)
    && (l.link.closes == 1 ==> !l.calling)
    && (cs == [] <==> l.link.state == Connecting)
    && (cs != [] ==> (cs[|cs| - 1] == Down <==> l.link.state == Disconnected))
  }

  /** The steps that call nothing up. */
  lemma {:induction false} CallsNothing(l: Life, op: Op)
    requires l.Good() && l.Enabled(op)
    requires !op.Establish? && !op.Read? && !op.RunClose? && !op.ReadEnd? && !op.Destroy?
    ensures var b := l.Apply(op);
            && CallOf(l, b) == [] && b.link.closes == l.link.closes && (b.calling ==> l.calling)
            && (b.link.state == Connecting <==> l.link.state == Connecting)
            && (b.link.state == Disconnected <==> l.link.state == Disconnected)
  {
  }

  lemma {:induction false} CallStep(l: Life, op: Op, cs: seq<Call>)
    requires l.Good() && l.Enabled(op) && CallsAt(l, cs)
    ensures var b := l.Apply(op);
            if HungRead(l, b) then !InOrder(cs + CallOf(l, b)) else CallsAt(b, cs + CallOf(l, b))
  {
    CloseStep(l, op);
    if op.Establish? || op.Read? || op.RunClose? || op.ReadEnd? || op.Destroy? {
      assert op.Establish? || op.Destroy? || l.todo[0] in l.todo;
      assert cs != [] ==> (cs + CallOf(l, l.Apply(op)))[|cs| - 1] == cs[|cs| - 1];
    } else {
      CallsNothing(l, op);
      assert cs + [] == cs;
    }
  }

  lemma InOrderPrefix(a: seq<Call>, b: seq<Call>)
    requires InOrder(a + b)
    ensures InOrder(a)
  {
    assert forall i :: 0 <= i < |a| ==> a[i] == (a + b)[i];
  }

  lemma ShorterRun(ls: seq<Life>)
    requires Run(ls) && |ls| > 1
    ensures Run(ls[..|ls| - 1])
  {
    var shorter := ls[..|ls| - 1];
    forall i | 0 <= i < |shorter| - 1
      ensures Steps(shorter, i)
    {
      assert Steps(ls, i);
    }
  }

  /** The upper layer sees a connection come up, speak, and go down once and for all, if and only
      if no event that has hung up goes on to read. */
  lemma {:induction false} CallsInOrder(ls: seq<Life>)
    requires Run(ls)
    ensures InOrder(Calls(ls)) <==> NoneHungReads(ls, |ls| - 1)
    ensures NoneHungReads(ls, |ls| - 1) ==> ls[|ls| - 1].Good() && CallsAt(ls[|ls| - 1], Calls(ls))
    decreases |ls|
  {
    var n := |ls|;
    RunGood(ls, n - 1, n - 1);
    if n > 1 {
      ShorterRun(ls);
      HungReadsOn(ls);
      CallsInOrder(ls[..n - 1]);
      var op := StepOf(ls, n - 2);
      var cs := Calls(ls[..n - 1]);
      assert Calls(ls) == cs + CallOf(ls[n - 2], ls[n - 1]);
      CallsOn(ls[n - 2], op, cs);
    }
  }

  lemma {:induction false} CallsOn(l: Life, op: Op, cs: seq<Call>)
    requires l.Enabled(op) && (InOrder(cs) ==> l.Good() && CallsAt(l, cs))
    ensures var b := l.Apply(op);
            && (InOrder(cs + CallOf(l, b)) <==> InOrder(cs) && !HungRead(l, b))
            && (InOrder(cs) && !HungRead(l, b) ==> CallsAt(b, cs + CallOf(l, b)))
  {
    if InOrder(cs) {
      CallStep(l, op, cs);
    } else if InOrder(cs + CallOf(l, l.Apply(op))) {
      InOrderPrefix(cs, CallOf(l, l.Apply(op)));
    }
  }

  lemma HungReadsOn(ls: seq<Life>)
    requires |ls| > 1
    ensures var n := |ls|;
            NoneHungReads(ls, n - 1) <==> NoneHungReads(ls[..n - 1], n - 2) && !HungRead(ls[n - 2], ls[n - 1])
  {
    var n, shorter := |ls|, ls[..|ls| - 1];
    assert forall i :: 0 <= i < n - 2 ==> (HungReads(shorter, i) <==> HungReads(ls, i));
    assert HungReads(ls, n - 2) <==> HungRead(ls[n - 2], ls[n - 1]);
  }

  lemma {:induction false} QuietStep(l: Life, op: Op)
    requires l.Good() && l.Enabled(op) && ClosedOnce(l) && l.link.closes == 1 && !l.calling
    requires !HungRead(l, l.Apply(op))
    ensures var k, m := l.link, l.Apply(op).link;
            && m.received == k.received && m.consumed == k.consumed && m.closes == k.closes && m.accepted == k.accepted
            && m.state == Disconnected
  {
    assert l.todo != [] ==> l.todo[0] in l.todo;
  }

  lemma RunPrefix(ls: seq<Life>, j: nat)
    requires Run(ls) && j < |ls|
    ensures Run(ls[..j + 1]) && (NoneHungReads(ls, j) ==> NoneHungReads(ls[..j + 1], j))
  {
    var shorter := ls[..j + 1];
    forall i | 0 <= i < j
      ensures Steps(shorter, i) && (HungReads(shorter, i) <==> HungReads(ls, i))
    {
      assert Steps(ls, i);
    }
  }

  /** Then, too, nothing is read, and no message callback runs or takes input, once the close
      callback has run. */
  lemma {:induction false} QuietAfterClose(ls: seq<Life>, i: nat, j: nat)
    requires Run(ls) && i <= j < |ls| && NoneHungReads(ls, j) && ls[i].link.closes > 0
    ensures var k, m := ls[i].link, ls[j].link;
            && m.received == k.received && m.consumed == k.consumed && m.closes == k.closes == 1
            && m.state == Disconnected && m.accepted == k.accepted && !ls[j].calling
  {
    CalledAt(ls, j);
    if i < j {
      QuietAfterClose(ls, i, j - 1);
      CalledAt(ls, j - 1);
      var op := StepOf(ls, j - 1);
      assert !HungReads(ls, j - 1);
      QuietStep(ls[j - 1], op);
    }
  }

  lemma CalledAt(ls: seq<Life>, j: nat)
    requires Run(ls) && j < |ls| && NoneHungReads(ls, j)
    ensures ls[j].Good() && ClosedOnce(ls[j]) && (ls[j].link.closes == 1 ==> !ls[j].calling)
    ensures ls[j].link.closes == 1 ==> ls[j].link.state == Disconnected
  {
    RunPrefix(ls, j);
    CallsInOrder(ls[..j + 1]);
    assert CallsAt(ls[j], Calls(ls[..j + 1]));
  }

  // ----- Messages after the close

  ghost predicate UpFirst(cs: seq<Call>) {
    (cs != [] ==> cs[0] == Up) && forall i :: 0 < i < |cs| ==> cs[i] != Up
  }

  /** A message callback runs after the connection went down. */
  ghost predicate SpeaksLate(cs: seq<Call>) {
    exists i, j :: 0 <= i < j < |cs| && cs[i] == Down && cs[j] == Message
  }

  /** The read callback of a connection that is down finds bytes. */
  ghost predicate ReadsLate(a: Life, b: Life) {
    a.At(ReadCb) && a.link.state == Disconnected && b.calling
  }

  ghost predicate ReadsLateAt(ls: seq<Life>, i: nat)
    requires i + 1 < |ls|
  {
    ReadsLate(ls[i], ls[i + 1])
  }

  ghost predicate CallsFit(l: Life, cs: seq<Call>) {
    && UpFirst(cs) && (cs == [] <==> l.link.state == Connecting) && (Down in cs <==> l.link.state == Disconnected)
  }

  /** What one step reports, in any life. */
  lemma {:induction false} CallInState(l: Life, op: Op)
    requires l.Good() && l.Enabled(op)
    ensures var b, call := l.Apply(op), CallOf(l, l.Apply(op));
            && (call == [] || call == [Up] || call == [Message] || call == [Down])
            && (call == [Up] ==> l.link.state == Connecting)
            && (call == [] ==> (b.link.state == Connecting <==> l.link.state == Connecting))
            && (call == [Message] || call == [Down] ==> l.link.state != Connecting)
            && (call != [] ==> b.link.state != Connecting)
            && (b.link.state == Disconnected <==> l.link.state == Disconnected || call == [Down])
            && (call == [Message] && l.link.state == Disconnected <==> ReadsLate(l, b))
  {
    if !op.Establish? && !op.Read? && !op.RunClose? && !op.ReadEnd? && !op.Destroy? {
      CallsNothing(l, op);
      assert !(l.At(ReadCb) && l.Apply(op).calling);
    }
  }

  lemma {:induction false} LateStep(l: Life, op: Op, cs: seq<Call>)
    requires l.Good() && l.Enabled(op) && CallsFit(l, cs)
    ensures var b := l.Apply(op);
            && CallsFit(b, cs + CallOf(l, b))
            && (SpeaksLate(cs + CallOf(l, b)) <==> SpeaksLate(cs) || ReadsLate(l, b))
  {
    CallInState(l, op);
    var call := CallOf(l, l.Apply(op));
    if call == [] {
      assert cs + call == cs;
    } else {
      LateAppend(cs, call[0]);
    }
  }

  lemma LateAppend(cs: seq<Call>, call: Call)
    ensures Down in cs + [call] <==> Down in cs || call == Down
    ensures SpeaksLate(cs + [call]) <==> SpeaksLate(cs) || (Down in cs && call == Message)
    ensures UpFirst(cs) && (call == Up <==> cs == []) ==> UpFirst(cs + [call])
  {
    var longer := cs + [call];
    assert longer[|cs|] == call && forall k :: 0 <= k < |cs| ==> longer[k] == cs[k];
    if SpeaksLate(cs) {
      var i, j :| 0 <= i < j < |cs| && cs[i] == Down && cs[j] == Message;
      assert longer[i] == Down && longer[j] == Message;
    }
    if Down in cs && call == Message {
      var i :| 0 <= i < |cs| && cs[i] == Down;
      assert longer[i] == Down && longer[|cs|] == Message;
    }
  }

  /** In any life the upper layer sees the connection come up first, and once; a message callback
      runs after it went down if and only if the read callback of a connection that is down finds
      bytes. */
  lemma {:induction false} SpeaksLateExactly(ls: seq<Life>)
    requires Run(ls)
    ensures ls[|ls| - 1].Good() && CallsFit(ls[|ls| - 1], Calls(ls))
    ensures SpeaksLate(Calls(ls)) <==> exists i :: 0 <= i < |ls| - 1 && ReadsLateAt(ls, i)
    decreases |ls|
  {
    var n := |ls|;
    RunGood(ls, n - 1, n - 1);
    if n > 1 {
      ShorterRun(ls);
      SpeaksLateExactly(ls[..n - 1]);
      SpeaksLateOn(ls);
      ReadsLateOn(ls);
    }
  }

  lemma SpeaksLateOn(ls: seq<Life>)
    requires Run(ls) && |ls| > 1
    requires var shorter := ls[..|ls| - 1]; shorter[|ls| - 2].Good() && CallsFit(shorter[|ls| - 2], Calls(shorter))
    ensures CallsFit(ls[|ls| - 1], Calls(ls))
    ensures SpeaksLate(Calls(ls)) <==> SpeaksLate(Calls(ls[..|ls| - 1])) || ReadsLate(ls[|ls| - 2], ls[|ls| - 1])
  {
    var n := |ls|;
    var op := StepOf(ls, n - 2);
    LateStep(ls[n - 2], op, Calls(ls[..n - 1]));
  }

  lemma ReadsLateOn(ls: seq<Life>)
    requires |ls| > 1
    ensures var n, shorter := |ls|, ls[..|ls| - 1];
            (exists i :: 0 <= i < n - 1 && ReadsLateAt(ls, i))
            <==> (exists i :: 0 <= i < n - 2 && ReadsLateAt(shorter, i)) || ReadsLate(ls[n - 2], ls[n - 1])
  {
    var n, shorter := |ls|, ls[..|ls| - 1];
    assert forall i :: 0 <= i < n - 2 ==> (ReadsLateAt(shorter, i) <==> ReadsLateAt(ls, i));
    assert ReadsLateAt(ls, n - 2) <==> ReadsLate(ls[n - 2], ls[n - 1]);
  }

  lemma InOrderNotLate(cs: seq<Call>)
    requires InOrder(cs)
    ensures !SpeaksLate(cs)
  {
  }

  /** The kernel's rule: an event that hangs up without plain input carries nothing to read. */
  ghost predicate Ruled(ls: seq<Life>) {
    forall i :: 0 <= i < |ls| ==> !(HangsUp(ls[i].event) && Readable(ls[i].event))
  }

  lemma RuledNeverHungReads(ls: seq<Life>, j: nat)
    requires Run(ls) && Ruled(ls) && j < |ls|
    ensures NoneHungReads(ls, j) && NoneDoubleCloses(ls, j)
  {
    forall i | 0 <= i < j
      ensures !HungReads(ls, i) && !DoubleCloses(ls, i)
    {
      RunGood(ls, i, i);
      if ls[i].At(ReadCb) {
        TailOrder(ls[i]);
      }
    }
  }

  /** The witness for a kernel that breaks the rule: the message callback runs after the close. */
  lemma SpeaksAfterClose(born: Life) returns (ls: seq<Life>)
    requires Born(born) && born.link.sock.inbox == ""
    ensures Run(ls) && Calls(ls) == [Up, Down, Message]
  {
    var hung := HungUp(born, "x", Open);
    var closed := hung[4];
    Takes(closed, Read("x"));
    ls := LongerRun(hung, closed.Apply(Read("x")));
    assert CallOf(closed, closed.Apply(Read("x"))) == [Message];
    CallsLonger(hung, closed.Apply(Read("x")));
    CallsOfHungUp(hung);
  }

  lemma CallsOfHungUp(ls: seq<Life>)
    requires |ls| == 5 && CallOf(ls[0], ls[1]) == [Up] && CallOf(ls[1], ls[2]) == CallOf(ls[2], ls[3]) == []
    requires CallOf(ls[3], ls[4]) == [Down]
    ensures Calls(ls) == [Up, Down]
  {
    CallsLonger([ls[0]], ls[1]);
    CallsLonger(ls[..2], ls[2]);
    CallsLonger(ls[..3], ls[3]);
    CallsLonger(ls[..4], ls[4]);
    assert [ls[0]] + [ls[1]] == ls[..2] && ls[..2] + [ls[2]] == ls[..3] && ls[..3] + [ls[3]] == ls[..4];
    assert ls[..4] + [ls[4]] == ls;
  }

  lemma CallsLonger(ls: seq<Life>, next: Life)
    requires ls != []
    ensures Calls(ls + [next]) == Calls(ls) + CallOf(ls[|ls| - 1], next)
  {
    assert (ls + [next])[..|ls|] == ls;
  }

  // ----- Left-over output in edge-triggered mode

  /** Left-over output is flushed by an event at hand, by an edge that is up, or by the edge that
      room will raise. */
  ghost predicate Steady(l: Life) {
    l.link.Stalled() ==> WriteCb in l.todo
  }

  /** The write callback ends with all of the output left over although the kernel has room: the write
      failed, and not for want of room, with no edge raised meanwhile. */
  ghost predicate FaultStep(a: Life, b: Life) {
    && a.At(WriteCb) && a.link.Stalled()
    && b.todo == a.todo[1..] && b.link.room && |b.link.output| == |a.link.output|
  }

  /** What changes the link without taking a callback off the event never strands output. */
  lemma {:induction false} StallsNever(k: Link, msg: string, answer: WriteAnswer, left: bool)
    requires k.Good()
    ensures (k.Direct() ==> answer.Possible(msg, k.room, left)) && k.Sends(msg, answer, left).Stalled() ==> k.Stalled()
    ensures k.HalfCloses().Stalled() ==> k.Stalled()
    ensures !k.Drained().Stalled() && !k.Established().Stalled() && !k.Destroyed().Stalled() && !k.Closed().Stalled()
  {
  }

  /** A round of the write loop leaves output stranded only when it failed for another reason. */
  lemma {:induction false} FlushStalls(k: Link, answer: WriteAnswer, left: bool)
    requires k.Good() && (k.mask.writing ==> answer.Possible(k.output, k.room, left))
    ensures k.Flushed(answer, left).Stalled() <==> k.Stalled() && answer.Fault?
    ensures answer.Fault? && k.Stalled() ==> k.Flushed(answer, left) == k
  {
    if k.mask.writing && answer.Fault? {
      assert k.sock.sent + k.output[..0] == k.sock.sent && k.output[0..] == k.output;
    }
  }

  lemma {:induction false} PopSteady(l: Life, k: Link)
    requires l.Good() && Steady(l) && l.todo != [] && l.todo[0] != WriteCb
    requires k.Stalled() ==> l.link.Stalled()
    ensures Steady(l.Done(k)) && Steady(l.Round(k))
  {
    TailOrder(l);
  }

  lemma {:induction false} FlushSteady(l: Life, op: Op)
    requires l.Good() && Steady(l) && op.Flush? && l.Enabled(op)
    ensures Steady(l.Apply(op)) <==> !(op.answer.Fault? && l.link.Stalled())
    ensures FaultStep(l, l.Apply(op)) <==> op.answer.Fault? && l.link.Stalled()
  {
    TailOrder(l);
    FlushStalls(l.link, op.answer, op.left);
    if l.todo[1..] != [] {
      assert l.todo[1..][0] in l.todo[1..] && l.todo[1..][0].Rank() > WriteCb.Rank();
    }
  }

  /** Exactly one step can strand output: a write that fails for another reason than a full kernel
      while the kernel has room and no edge has come up. */
  lemma {:induction false} StallsExactly(l: Life, op: Op)
    requires l.Good() && Steady(l) && l.Enabled(op)
    ensures Steady(l.Apply(op)) <==> !FaultStep(l, l.Apply(op))
    ensures FaultStep(l, l.Apply(op)) <==> op.Flush? && op.answer.Fault? && l.link.Stalled()
  {
    if op.Flush? {
      FlushSteady(l, op);
    } else if op.Report? {
      DispatchTail(op.r);
    } else if op.Send? {
      StallsNever(l.link, op.msg, op.answer, op.left);
    } else {
      StallsNever(l.link, "", Full, false);
      if l.todo != [] && l.todo[0] != WriteCb {
        PopSteady(l, l.link);
        PopSteady(l, l.link.Closed());
      }
    }
  }

  /** The witness: a message half taken, room again, and the next write fails for no want of it. */
  lemma Strands(born: Life) returns (ls: seq<Life>)
    requires Born(born) && born.link.et && born.link.room
    ensures Run(ls) && ls[|ls| - 1].link.Stalled() && !Steady(ls[|ls| - 1])
  {
    var r := Ready(false, false, false, true, false, false);
    Takes(born, Establish);
    var up := born.Apply(Establish);
    Takes(up, Send("ab", Took(1), false));
    var half := up.Apply(Send("ab", Took(1), false));
    Takes(half, PeerReads);
    var room := half.Apply(PeerReads);
    Takes(room, Report(r));
    var reported := room.Apply(Report(r));
    Takes(reported, Flush(Fault, true));
    ls := [born, up, half, room, reported, reported.Apply(Flush(Fault, true))];
  }

  ghost predicate Faults(ls: seq<Life>, i: nat)
    requires i + 1 < |ls|
  {
    FaultStep(ls[i], ls[i + 1])
  }

  /** Over a whole life no output is ever stranded if and only if no such write happens. */
  lemma {:induction false} NeverStalls(ls: seq<Life>, j: nat)
    requires Run(ls) && j < |ls|
    ensures (forall i :: 0 <= i <= j ==> Steady(ls[i])) <==> (forall i :: 0 <= i < j ==> !Faults(ls, i))
  {
    if j > 0 {
      NeverStalls(ls, j - 1);
      RunGood(ls, j - 1, j - 1);
      var op := StepOf(ls, j - 1);
      if Steady(ls[j - 1]) {
        StallsExactly(ls[j - 1], op);
        assert Faults(ls, j - 1) <==> FaultStep(ls[j - 1], ls[j]);
      }
    }
  }
}
