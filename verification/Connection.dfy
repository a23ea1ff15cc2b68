/** One connection on its owner loop: the write path, the half-close, and the life cycle.  Each
    operation is a sequence of steps of a life, so what holds over every life holds here. */
module Connection {
  import opened ByteBuffer
  import opened Links
  import opened Poller
  import opened States

  const NO_EVENT := Ready(false, false, false, false, false, false)

  /** What the poller and the kernel keep for all other descriptors. */
  datatype Rest = Rest(channels: map<Fd, Channel>, interest: map<Fd, (Mask, Channel)>, socks: map<Fd, Sock>,
                       roomy: set<Fd>, edges: set<Fd>)

  /** The write call of a send: the whole message at once, when nothing is queued or awaited. */
  function Direct(v: Link, fd: Fd, msg: string, answer: WriteAnswer): seq<WriteCall> {
    if v.state == Connected && v.output == "" && !v.mask.writing then [WriteCall(fd, msg, answer)] else []
  }

  /** The read callback has run: bytes that waited were taken, all of them in edge-triggered mode, and
      the end of the stream was met where it was due. */
  ghost predicate Reads(v: Link, w: Link) {
    && w.received + w.sock.inbox == v.received + v.sock.inbox
    && (v.sock.inbox != "" ==> |w.sock.inbox| < |v.sock.inbox|) && (v.et ==> w.sock.inbox == "")
    && (v.sock.ending == Finished && (v.et || v.sock.inbox == "") ==> w.closes > v.closes)
  }

  /** A hang-up, and then the reading: what both did between them. */
  lemma HungUpThenRead(r: Ready, v: Link, u: Link, w: Link, a: seq<Call>, b: seq<Call>, c: seq<Call>)
    requires a <= b <= c && u.closes <= w.closes && u == if HangsUp(r) then v.Closed() else v
    requires r.hup && !r.input ==> b == a + [Down]
    requires r.input || r.pri || r.rdhup ==> Reads(u, w)
    requires (r.input || r.pri || r.rdhup) && u.sock.inbox != "" ==> Newly(Message, b, c)
    ensures r.hup && !r.input ==> w.closes > v.closes && Newly(Down, a, c)
    ensures r.input || r.pri || r.rdhup ==> Reads(v, w)
    ensures (r.input || r.pri || r.rdhup) && v.sock.inbox != "" ==> Newly(Message, a, c)
  {
    if r.hup && !r.input {
      assert b[|a|] == Down;
      NewlyOn(Down, a, a, b, c);
    }
    if (r.input || r.pri || r.rdhup) && v.sock.inbox != "" {
      NewlyOn(Message, a, b, c, c);
    }
  }

  class TcpConnection {
    const et: bool
    const channel: Channel
    const poller: EPollPoller
    const kernel: Kernel
    const inputBuffer: Buffer
    const outputBuffer: Buffer
    var state: State
    ghost var accepted: string
    ghost var received: string
    ghost var consumed: string
    ghost var closes: nat
    ghost var shuts: nat
    ghost var calls: seq<Call>   // the callbacks run

    ghost function Frame(): set<object>
      reads this, inputBuffer, outputBuffer
    {
      {this, channel, poller, kernel, inputBuffer, inputBuffer.buf, outputBuffer, outputBuffer.buf}
    }

    ghost predicate Wired()
      reads Frame(), poller.channels.Values
    {
      && poller == channel.poller && kernel == poller.kernel
      && poller.Tracks(channel)
      && inputBuffer.Valid() && outputBuffer.Valid()
      && inputBuffer != outputBuffer && inputBuffer.buf != outputBuffer.buf
      && channel.fd in kernel.socks
    }

    ghost function View(): Link
      requires Wired()
      reads Frame(), poller.channels.Values
    {
      Link(et, state, channel.events, channel.index, outputBuffer.Contents(), inputBuffer.Contents(),
           kernel.socks[channel.fd], channel.fd in kernel.roomy, channel.fd in kernel.edges,
           accepted, received, consumed, closes, shuts)
    }

    ghost function Others(): Rest
      reads poller, kernel
    {
      var fd := channel.fd;
      Rest(poller.channels - {fd}, kernel.interest - {fd}, kernel.socks - {fd}, kernel.roomy - {fd},
           kernel.edges - {fd})
    }

    ghost predicate Valid()
      reads Frame(), poller.channels.Values
    {
      Wired() && View().Good()
    }

    /** The connection is at this point of its life. */
    ghost predicate Fits(l: Life)
      requires Wired()
      reads Frame(), poller.channels.Values
    {
      l.link == View() && l.Good()
    }

    /** The frame of every operation: other descriptors are untouched, arrays may be replaced. */
    twostate predicate Kept()
      reads Frame()
    {
      && Others() == old(Others()) && old(kernel.writes) <= kernel.writes && old(calls) <= calls
      && (inputBuffer.buf == old(inputBuffer.buf) || fresh(inputBuffer.buf))
      && (outputBuffer.buf == old(outputBuffer.buf) || fresh(outputBuffer.buf))
    }

    constructor (poller: EPollPoller, fd: Fd, et: bool)
      requires poller.Valid() && fd !in poller.channels
      requires fd in poller.kernel.socks && poller.kernel.socks[fd] == Sock("", false, "", Open)
      requires fd !in poller.kernel.edges
      ensures Wired() && Fits(Life(View(), NO_EVENT, [], false)) && Born(Life(View(), NO_EVENT, [], false))
      ensures this.poller == poller && this.et == et && channel.fd == fd
      ensures fresh(Frame() - {poller, poller.kernel})
    {
      var ch := new Channel(poller, fd);
      var inbuf := new Buffer(1024);
      var outbuf := new Buffer(1024);
      this.et, this.poller, this.kernel, channel := et, poller, poller.kernel, ch;
      inputBuffer, outputBuffer := inbuf, outbuf;
      state, closes, shuts, calls := Connecting, 0, 0, [];
      accepted, received, consumed := "", "", "";
      new;
      BornGood(Life(View(), NO_EVENT, [], false));
    }

    // ----- The primitive operations on the connection's parts

    method Write(data: string) returns (answer: WriteAnswer)
      requires Wired() && !View().sock.shut
      modifies kernel`socks, kernel`roomy, kernel`writes
      ensures Wired() && Kept() && answer.Possible(data, old(View()).room, View().room)
      ensures var sock := old(View()).sock;
              View() == old(View()).(sock := sock.(sent := sock.sent + data[..answer.Count()]), room := View().room)
      ensures kernel.writes == old(kernel.writes) + [WriteCall(channel.fd, data, answer)]
    {
      answer := kernel.Write(channel.fd, data);
    }

    method Readv() returns (answer: ReadAnswer)
      requires Wired()
      modifies this`received, kernel`socks, inputBuffer, inputBuffer.buf
      ensures Wired() && Kept()
      ensures var v := old(View());
              && (answer.Data? <==> v.sock.inbox != "")
              && (answer.Data? ==> answer.bytes != "" && answer.bytes <= v.sock.inbox)
              && (!answer.Data? ==> (answer.Eof? <==> v.sock.ending.Finished?))
              && View() == if answer.Data? then v.Receives(answer.bytes) else v
    {
      answer := ReadBytes();
      if answer.Data? {
        received := received + answer.bytes;
      }
    }

    method ReadBytes() returns (answer: ReadAnswer)
      requires Wired()
      modifies kernel`socks, inputBuffer, inputBuffer.buf
      ensures Wired() && Kept()
      ensures var v := old(View());
              && (answer.Data? <==> v.sock.inbox != "")
              && (answer.Data? ==> answer.bytes != "" && answer.bytes <= v.sock.inbox)
              && (!answer.Data? ==> (answer.Eof? <==> v.sock.ending.Finished?))
              && View() == if answer.Data? then v.Receives(answer.bytes).(received := v.received) else v
    {
      answer := kernel.Readv(channel.fd, inputBuffer.ReadCapacity());
      var _ := inputBuffer.ReadFd(answer);
    }

    method AppendOutput(data: string)
      requires Wired()
      modifies outputBuffer, outputBuffer.buf
      ensures Wired() && Kept() && View() == old(View()).(output := old(View()).output + data)
    {
      outputBuffer.Append(data);
    }

    method RetrieveOutput(n: nat)
      requires Wired()
      modifies outputBuffer
      ensures Wired() && Kept()
      ensures var output := old(View()).output;
              View() == old(View()).(output := if n < |output| then output[n..] else "")
    {
      outputBuffer.Retrieve(n);
    }

    method EnableWriting()
      requires Wired() && View().index == Added
      modifies channel`events, channel`index, poller, kernel`interest, kernel`edges
      ensures Wired() && Kept()
      ensures var v := old(View());
              View() == v.(mask := v.mask.(writing := true), edge := v.edge || v.room)
    {
      channel.EnableWriting();
    }

    method DisableWriting()
      requires Wired() && View().index == Added && View().mask.reading
      modifies channel`events, channel`index, poller, kernel`interest, kernel`edges
      ensures Wired() && Kept()
      ensures var v := old(View());
              View() == v.(mask := v.mask.(writing := false), edge := false)
    {
      channel.DisableWriting();
    }

    method DisableAll()
      requires Wired()
      modifies channel`events, channel`index, poller, kernel`interest, kernel`edges
      ensures Wired() && Kept()
      ensures View() == old(View()).(mask := NONE, index := Updated(old(View()).index, NONE), edge := false)
    {
      channel.DisableAll();
    }

    method ShutdownWrite()
      requires Wired() && !View().sock.shut
      modifies this`shuts, kernel`socks
      ensures Wired() && Kept() && View() == old(View()).Shuts()
    {
      kernel.ShutdownWrite(channel.fd);
      shuts := shuts + 1;
    }

    // ----- The operations of the source

    /** Accepts the whole message or nothing, by the state it finds on the owner loop; what the
        kernel does not take at once waits in the output buffer with write interest on. */
    method SendInLoop(msg: string, ghost at: Life) returns (ghost answer: WriteAnswer)
      requires Wired() && Fits(at)
      modifies Frame() - {inputBuffer, inputBuffer.buf}
      ensures Wired() && Kept() && Fits(at.(link := View())) && Reaches(at, at.(link := View()))
      ensures old(View()).Direct() ==> answer.Possible(msg, old(View()).room, View().room)
      ensures View() == old(View()).Sends(msg, answer, View().room)
      ensures accepted == if old(state) == Connected then old(accepted) + msg else old(accepted)
      ensures kernel.writes == old(kernel.writes) + Direct(old(View()), channel.fd, msg, answer) && calls == old(calls)
    {
      answer := SendOrDrop(msg);
      SendsOut(at.link, msg, answer, View().room);
      GoesSend(at, msg, answer, View().room);
    }

    method SendOrDrop(msg: string) returns (ghost answer: WriteAnswer)
      requires Valid()
      modifies Frame() - {inputBuffer, inputBuffer.buf}
      ensures Wired() && Kept()
      ensures old(View()).Direct() ==> answer.Possible(msg, old(View()).room, View().room)
      ensures View() == old(View()).Sends(msg, answer, View().room)
      ensures kernel.writes == old(kernel.writes) + Direct(old(View()), channel.fd, msg, answer) && calls == old(calls)
    {
      answer := Took(0);
      if state == Connected {
        answer := SendConnected(msg);
      }
    }

    method SendConnected(msg: string) returns (ghost answer: WriteAnswer)
      requires Valid() && state == Connected
      modifies Frame() - {inputBuffer, inputBuffer.buf}
      ensures Wired() && Kept()
      ensures old(View()).Direct() ==> answer.Possible(msg, old(View()).room, View().room)
      ensures View() == old(View()).Sends(msg, answer, View().room)
      ensures kernel.writes == old(kernel.writes) + Direct(old(View()), channel.fd, msg, answer) && calls == old(calls)
    {
      var nwrote;
      nwrote, answer := TakeOn(msg);
      if nwrote < |msg| {
        KeepRest(msg[nwrote..]);
      }
    }

    method TakeOn(msg: string) returns (nwrote: nat, ghost answer: WriteAnswer)
      requires Valid() && state == Connected
      modifies kernel`socks, kernel`roomy, kernel`writes, this`accepted
      ensures Wired() && Kept() && nwrote <= |msg|
      ensures var v := old(View());
              && nwrote == (if v.Direct() then answer.Count() else 0)
              && (if v.Direct() then answer.Possible(msg, v.room, View().room) else View().room == v.room)
              && View() == v.(sock := v.sock.(sent := v.sock.sent + msg[..nwrote]), room := View().room,
                              accepted := v.accepted + msg)
      ensures kernel.writes == old(kernel.writes) + Direct(old(View()), channel.fd, msg, answer)
    {
      nwrote, answer := TryWrite(msg);
      accepted := accepted + msg;
    }

    /** Nothing queued and no interest in room: try the kernel directly, errors counting as no bytes. */
    method TryWrite(msg: string) returns (nwrote: nat, ghost answer: WriteAnswer)
      requires Valid() && state == Connected
      modifies kernel`socks, kernel`roomy, kernel`writes
      ensures Wired() && Kept() && nwrote <= |msg|
      ensures var v := old(View());
              && nwrote == (if v.Direct() then answer.Count() else 0)
              && (if v.Direct() then answer.Possible(msg, v.room, View().room) else View().room == v.room)
              && View() == v.(sock := v.sock.(sent := v.sock.sent + msg[..nwrote]), room := View().room)
      ensures kernel.writes == old(kernel.writes) + Direct(old(View()), channel.fd, msg, answer)
    {
      nwrote, answer := 0, Took(0);
      var queued := outputBuffer.ReadableBytes();
      if !channel.events.writing && queued == 0 {
        var result := Write(msg);
        answer := result;
        if result.Took? {
          nwrote := result.n;
        }
      } else {
        assert View().sock.sent + msg[..0] == View().sock.sent;
      }
    }

    method KeepRest(rest: string)
      requires Wired() && View().index == Added
      modifies channel`events, channel`index, poller, kernel`interest, kernel`edges, outputBuffer, outputBuffer.buf
      ensures Wired() && Kept() && View() == old(View()).Keeps(rest)
    {
      AppendOutput(rest);
      if !channel.events.writing {
        EnableWriting();
      }
    }

    /** Flushes left-over output: one write in level-triggered mode, until the buffer is empty or
        a write takes nothing in edge-triggered mode. */
    method HandleWrite(ghost at: Life) returns (ghost last: WriteAnswer)
      requires Wired() && Fits(at) && at.At(WriteCb)
      modifies Frame() - {inputBuffer, inputBuffer.buf}
      ensures Wired() && Kept() && Fits(at.Done(View())) && Reaches(at, at.Done(View()))
      ensures et && View().mask.writing ==> last.Fault? || !View().room
      ensures var calls := kernel.writes[|old(kernel.writes)|..];
              if old(View()).mask.writing
              then OffersAll(channel.fd, calls, old(View()).output, View().output, et)
                   && last == calls[|calls| - 1].answer && (!et ==> |calls| == 1)
                   && |View().output| <= |old(View()).output| - calls[0].answer.Count()
              else calls == [] && View() == old(View())
      ensures View().SameStream(old(View()))
    {
      last := Took(0);
      if !channel.events.writing {
        Goes(at, Flush(last, false));
        return;
      }
      last := FlushAll(at);
      OffersShorten(channel.fd, kernel.writes[|old(kernel.writes)|..], at.link.output, View().output, et);
    }

    method FlushAll(ghost at: Life) returns (ghost last: WriteAnswer)
      requires Wired() && Fits(at) && at.At(WriteCb) && View().mask.writing
      modifies Frame() - {inputBuffer, inputBuffer.buf}
      ensures Wired() && Kept() && Fits(at.Done(View())) && Reaches(at, at.Done(View()))
      ensures et && View().mask.writing ==> last.Fault? || !View().room
      ensures View().SameStream(old(View()))
      ensures var calls := kernel.writes[|old(kernel.writes)|..];
              OffersAll(channel.fd, calls, old(View()).output, View().output, et) && last == calls[|calls| - 1].answer
    {
      ghost var now, output, n := at, View().output, |kernel.writes|;
      Stays(at);
      var again := true;
      last := Took(0);
      while again
        invariant Wired() && Kept() && now.link == View() && now.Good() && n <= |kernel.writes|
        invariant Flushing(at, now, n, output, again, last) && View().SameStream(at.link)
        invariant !again && et && View().mask.writing ==> last.Fault? || !View().room
        decreases again, |View().output|
      {
        again, last, now := FlushNext(at, now, n, output, last);
      }
      UnderwayEnds(channel.fd, kernel.writes[n..], output, View().output, et);
    }

    /** How far the loop is: the life so far, and the write calls from the `n`th on. */
    ghost predicate Flushing(at: Life, now: Life, n: nat, output: string, again: bool, last: WriteAnswer)
      requires Wired() && n <= |kernel.writes|
      reads Frame(), poller.channels.Values
    {
      var calls := kernel.writes[n..];
      && Reaches(at, now) && at.At(WriteCb)
      && (if again then now == at.(link := View()) && View().mask.writing else now == at.Done(View()))
      && Underway(channel.fd, calls, output, View().output, et, again)
      && (calls != [] ==> last == calls[|calls| - 1].answer)
    }

    method FlushNext(ghost at: Life, ghost now: Life, ghost n: nat, ghost output: string, ghost before: WriteAnswer)
      returns (again: bool, answer: WriteAnswer, ghost next: Life)
      requires Wired() && Fits(now) && n <= |kernel.writes| && Flushing(at, now, n, output, true, before)
      modifies Frame() - {inputBuffer, inputBuffer.buf}
      ensures Wired() && Kept() && next.link == View() && next.Good() && View().SameStream(old(View()))
      ensures Flushing(at, next, n, output, again, answer)
      ensures if again then |View().output| < |old(View()).output|
              else et && View().mask.writing ==> answer.Fault? || !View().room
    {
      ghost var left, calls := View().output, kernel.writes[n..];
      again, answer, next := FlushRound(now);
      UnderwayOn(channel.fd, calls, answer, output, left, et, again);
      assert kernel.writes[n..] == calls + [WriteCall(channel.fd, left, answer)];
      ReachesOn(at, now, next);
    }

    /** One round of the loop, as a step of the life; `again` asks for another. */
    method FlushRound(ghost now: Life) returns (again: bool, answer: WriteAnswer, ghost next: Life)
      requires Wired() && Fits(now) && now.At(WriteCb) && View().mask.writing
      modifies Frame() - {inputBuffer, inputBuffer.buf}
      ensures Wired() && Kept() && next.link == View() && next.Good() && Reaches(now, next)
      ensures next == if again then now.(link := View()) else now.Done(View())
      ensures kernel.writes == old(kernel.writes) + [WriteCall(channel.fd, old(View()).output, answer)]
      ensures answer.Count() <= |old(View()).output| && View().output == old(View()).output[answer.Count()..]
      ensures View().SameStream(old(View())) && old(View()).output != ""
      ensures again <==> et && answer.Count() > 0 && View().output != ""
      ensures if again then View().mask.writing && |View().output| < |old(View()).output|
              else et && View().mask.writing ==> answer.Fault? || !View().room
    {
      ghost var u := View();
      Flushable(now);
      answer := FlushOnce(now);
      again := et && answer.Count() > 0 && channel.events.writing;
      FlushLeaves(u, answer, View().room);
      Goes(now, Flush(answer, View().room));
      next := now.Apply(Flush(answer, View().room));
    }

    /** One round of the write loop; an emptied buffer completes a pending half-close. */
    method FlushOnce(ghost at: Life) returns (answer: WriteAnswer)
      requires Wired() && Fits(at) && at.At(WriteCb) && View().mask.writing
      modifies Frame() - {inputBuffer, inputBuffer.buf}
      ensures Wired() && Kept() && answer.Possible(old(View()).output, old(View()).room, View().room)
      ensures View() == old(View()).Flushed(answer, View().room)
      ensures kernel.writes == old(kernel.writes) + [WriteCall(channel.fd, old(View()).output, answer)]
    {
      Flushable(at);
      answer := WriteQueued();
      if answer.Count() > 0 {
        FinishIfEmpty();
      }
    }

    method FinishIfEmpty()
      requires Wired() && View().index == Added && View().mask.reading && View().mask.writing && !View().sock.shut
      modifies this`shuts, channel`events, channel`index, poller, kernel`interest, kernel`edges, kernel`socks
      ensures Wired() && Kept() && View() == if old(View()).output == "" then old(View()).Emptied() else old(View())
    {
      var left := outputBuffer.ReadableBytes();
      if left == 0 {
        FinishFlush();
      }
    }

    method WriteQueued() returns (answer: WriteAnswer)
      requires Valid() && View().mask.writing
      modifies kernel`socks, kernel`roomy, kernel`writes, outputBuffer
      ensures Wired() && Kept() && answer.Possible(old(View()).output, old(View()).room, View().room)
      ensures View() == old(View()).Wrote(answer, View().room)
      ensures kernel.writes == old(kernel.writes) + [WriteCall(channel.fd, old(View()).output, answer)]
    {
      ghost var v := View();
      answer := Write(outputBuffer.buf[outputBuffer.reader..outputBuffer.writer]);
      if answer.Count() > 0 {
        RetrieveOutput(answer.Count());
        assert v.output[|v.output|..] == "";
      } else {
        assert v.output[0..] == v.output;
      }
    }

    /** The buffer ran empty: stop watching for room, and complete a half-close that waited. */
    method FinishFlush()
      requires Wired() && View().index == Added && View().mask.reading && View().mask.writing && !View().sock.shut
      modifies this`shuts, channel`events, channel`index, poller, kernel`interest, kernel`edges, kernel`socks
      ensures Wired() && Kept() && View() == old(View()).Emptied()
    {
      DisableWriting();
      if state == Disconnecting {
        ShutdownInLoop();
      }
    }

    /** Issues SHUT_WR unless output is left over, in which case HandleWrite will come back here. */
    method ShutdownInLoop()
      requires Wired() && (View().mask.writing || !View().sock.shut)
      modifies this`shuts, kernel`socks
      ensures Wired() && Kept() && View() == if old(View()).mask.writing then old(View()) else old(View()).Shuts()
    {
      if !channel.events.writing {
        ShutdownWrite();
      }
    }

    /** Half-close requested on the owner loop. */
    method Shutdown(ghost at: Life)
      requires Wired() && Fits(at)
      modifies this`state, this`shuts, kernel`socks
      ensures Wired() && Kept() && View() == old(View()).HalfCloses()
      ensures Fits(at.(link := View())) && Reaches(at, at.(link := View()))
      ensures old(state) == Connected ==>
                && state == Disconnecting && View().output == old(View()).output && accepted == old(accepted)
                && (View().sock.shut <==> View().output == "")
      ensures old(state) != Connected ==> View() == old(View())
    {
      if state == Connected {
        state := Disconnecting;
        ShutdownInLoop();
      }
      Goes(at, HalfClose);
    }

    /** The message callback, or the connection callback of a connection that has come up. */
    method Callback(ghost at: Life, message: bool)
      requires Wired() && Fits(at) && (message ==> at.calling)
      modifies Frame()
      ensures Wired() && Kept() && Fits(at.(link := View())) && Reaches(at, at.(link := View()))
      ensures View().SameInflow(old(View()))
      ensures calls == old(calls) + [if message then Message else Up]
    {
      calls := calls + [if message then Message else Up];
      Actions(at, message);
    }

    /** What user code does: it sends, half-closes and, inside the message callback, takes input. */
    method Actions(ghost at: Life, message: bool)
      requires Wired() && Fits(at) && (message ==> at.calling)
      modifies Frame()
      ensures Wired() && Kept() && Fits(at.(link := View())) && Reaches(at, at.(link := View()))
      ensures View().SameInflow(old(View())) && calls == old(calls)
    {
      var actions: nat :| true;
      Stays(at);
      for i := 0 to actions
        invariant Wired() && Kept() && Fits(at.(link := View())) && Reaches(at, at.(link := View()))
        invariant View().SameInflow(at.link) && calls == old(calls)
      {
        ghost var now := at.(link := View());
        Act(now, message);
        ReachesOn(at, now, at.(link := View()));
      }
    }

    /** The connection callback of a connection that is down: whatever it sends is dropped, and a
        half-close does nothing. */
    method DownCallback()
      requires Valid() && state == Disconnected
      modifies Frame() - {inputBuffer, inputBuffer.buf}
      ensures Wired() && Kept() && View() == old(View()) && calls == old(calls) + [Down]
    {
      ghost var at := Life(View(), NO_EVENT, [], false);
      calls := calls + [Down];
      var actions: nat :| true;
      for i := 0 to actions
        invariant Wired() && Kept() && Fits(at) && calls == old(calls) + [Down]
      {
        if
        case true =>
          var msg: string := *;
          ghost var _ := SendInLoop(msg, at);
        case true =>
          Shutdown(at);
      }
    }

    method Act(ghost at: Life, message: bool)
      requires Wired() && Fits(at) && (message ==> at.calling)
      modifies Frame()
      ensures Wired() && Kept() && Fits(at.(link := View())) && Reaches(at, at.(link := View()))
      ensures View().SameInflow(old(View())) && calls == old(calls)
    {
      if
      case true =>
        var msg: string := *;
        SendSomething(msg, at);
      case true =>
        Shutdown(at);
      case message =>
        TakeInput(at);
    }

    method SendSomething(msg: string, ghost at: Life)
      requires Wired() && Fits(at)
      modifies Frame() - {inputBuffer, inputBuffer.buf}
      ensures Wired() && Kept() && Fits(at.(link := View())) && Reaches(at, at.(link := View()))
      ensures View().SameInflow(old(View())) && calls == old(calls)
    {
      ghost var v := View();
      ghost var answer := SendInLoop(msg, at);
      SendsOut(v, msg, answer, View().room);
    }

    method TakeInput(ghost at: Life)
      requires Wired() && Fits(at) && at.calling
      modifies this`consumed, inputBuffer
      ensures Wired() && Kept() && Fits(at.(link := View())) && Reaches(at, at.(link := View()))
      ensures View().SameInflow(old(View()))
    {
      var len: nat := *;
      var available := inputBuffer.ReadableBytes();
      if len <= available {
        RetrieveInput(len);
        Goes(at, Consume(len));
      } else {
        Stays(at);
      }
    }

    method RetrieveInput(len: nat)
      requires Wired() && len <= |View().input|
      modifies this`consumed, inputBuffer
      ensures Wired() && Kept() && View() == old(View()).Consumes(len)
    {
      ghost var v := View();
      var taken, rest := TakeOut(len);
      consumed := consumed + taken;
      ConsumesSplit(v, taken, rest);
    }

    method TakeOut(len: nat) returns (taken: string, ghost rest: string)
      requires Wired() && len <= |View().input|
      modifies inputBuffer
      ensures Wired() && Kept() && |taken| == len
      ensures taken + rest == old(View()).input && View() == old(View()).(input := rest)
    {
      taken := inputBuffer.RetrieveAsString(len);
      rest := inputBuffer.Contents();
    }

    /** Reads once, or in edge-triggered mode until the kernel has nothing left; the end of the
        peer's stream closes the connection. */
    method HandleRead(ghost at: Life)
      requires Wired() && Fits(at) && at.At(ReadCb)
      modifies Frame()
      ensures Wired() && Kept() && Fits(at.Done(View())) && Reaches(at, at.Done(View()))
      ensures var v, w := old(View()), View();
              && w.received + w.sock.inbox == v.received + v.sock.inbox
              && (et ==> w.sock.inbox == "")
              && (v.sock.inbox != "" ==> |w.sock.inbox| < |v.sock.inbox|)
              && w.closes == v.closes + (if v.sock.ending == Finished && (et || v.sock.inbox == "") then 1 else 0)
              && (v.sock.inbox != "" ==> |calls| > |old(calls)| && calls[|old(calls)|] == Message)
    {
      ghost var v, now := View(), at;
      Stays(at);
      var again := true;
      while again
        invariant Wired() && Kept() && Fits(now) && Reaches(at, now)
        invariant now == if again then at.(link := View()) else at.Done(View())
        invariant received + View().sock.inbox == v.received + v.sock.inbox && View().sock.ending == v.sock.ending
        invariant again ==> closes == v.closes
        invariant |calls| > |old(calls)| ==> v.sock.inbox != "" ==> calls[|old(calls)|] == Message
        invariant v.sock.inbox != "" && |calls| == |old(calls)| ==> again && View().sock.inbox == v.sock.inbox
        invariant if again && (!et || View().sock.inbox == v.sock.inbox) then View().sock.inbox == v.sock.inbox
                  else v.sock.inbox != "" ==> |View().sock.inbox| < |v.sock.inbox|
        invariant !again ==>
                    && (et ==> View().sock.inbox == "")
                    && closes == v.closes + (if v.sock.ending == Finished && (et || v.sock.inbox == "") then 1 else 0)
        decreases again, |View().sock.inbox|
      {
        ghost var before := now;
        var more := ReadOnce(now);
        again := more && et;
        now := if again then at.(link := View()) else at.Done(View());
        ReachesOn(at, before, now);
      }
    }

    /** One round of the read loop; `more` says that the kernel had bytes. */
    method ReadOnce(ghost at: Life) returns (more: bool)
      requires Wired() && Fits(at) && at.At(ReadCb)
      modifies Frame()
      ensures Wired() && Kept()
      ensures var after := if more then at.Round(View()) else at.Done(View()); Fits(after) && Reaches(at, after)
      ensures old(View()).ReadsOnce(View(), more)
      ensures more ==> calls == old(calls) + [Message]
    {
      var answer := Readv();
      more := answer.Data?;
      if more {
        ReadData(at, answer.bytes);
      } else {
        ReadNone(at, answer.Eof?);
      }
    }

    /** The end of the peer's stream, or nothing for now: drained, or an error that is only logged. */
    method ReadNone(ghost at: Life, eof: bool)
      requires Wired() && Fits(at) && at.At(ReadCb)
      requires View().sock.inbox == "" && (eof <==> View().sock.ending == Finished)
      modifies Frame() - {inputBuffer, inputBuffer.buf}
      ensures Wired() && Kept() && View() == if eof then old(View()).Closed() else old(View())
      ensures Fits(at.Done(View())) && Reaches(at, at.Done(View()))
      ensures at.link.ReadsOnce(View(), false)
    {
      if eof {
        HandleClose();
        Goes(at, ReadEnd);
      } else {
        Goes(at, ReadNothing);
      }
    }

    method ReadData(ghost at: Life, ghost bytes: string)
      requires Wired() && at.Good() && at.At(ReadCb) && bytes != "" && bytes <= at.link.sock.inbox
      requires View() == at.link.Receives(bytes)
      modifies Frame()
      ensures Wired() && Kept() && Fits(at.Round(View())) && Reaches(at, at.Round(View()))
      ensures at.link.ReadsOnce(View(), true) && calls == old(calls) + [Message]
    {
      ReadKeeps(at.link, bytes, 0);
      ghost var inside := at.Apply(Read(bytes));
      Goes(at, Read(bytes));
      Callback(inside, true);
      ghost var done := inside.(link := View());
      Goes(done, Return);
      ReachesOn(at, inside, done);
      ReachesOn(at, done, done.Apply(Return));
    }

    /** The peer is gone: the channel leaves the poller and the upper layers are told. */
    method HandleClose()
      requires Valid() && state != Connecting
      modifies Frame() - {inputBuffer, inputBuffer.buf}
      ensures Wired() && Kept() && View() == old(View()).Closed()
      ensures state == Disconnected && channel.events == NONE && closes == old(closes) + 1
      ensures View().output == old(View()).output && calls == old(calls) + [Down]
    {
      ControlKeeps(View());
      ghost var closed := View().Closed();
      GoDown();
      closes := closes + 1;
      assert View() == closed;
      DownCallback();
    }

    method GoDown()
      requires Valid() && state != Connecting
      modifies this`state, channel`events, channel`index, poller, kernel`interest, kernel`edges
      ensures Wired() && Kept()
      ensures var v := old(View());
              View() == v.(state := Disconnected, mask := NONE, index := Updated(v.index, NONE), edge := false)
    {
      state := Disconnected;
      DisableAll();
    }

    /** One reported event, its callbacks in dispatch order: a hang-up without plain input closes; any
        input is read; and what is left over was offered to the kernel. */
    method HandleEvent(r: Ready)
      requires Wired() && Fits(Life(View(), r, Dispatch(r), false))
      modifies Frame()
      ensures Wired() && Kept() && Fits(Life(View(), r, [], false))
      ensures Reaches(Life(old(View()), r, Dispatch(r), false), Life(View(), r, [], false))
      ensures r.hup && !r.input ==> closes > old(closes) && Newly(Down, old(calls), calls)
      ensures r.input || r.pri || r.rdhup ==> Reads(old(View()), View())
      ensures (r.input || r.pri || r.rdhup) && old(View()).sock.inbox != "" ==> Newly(Message, old(calls), calls)
      ensures r.output && View().mask.writing ==> Offered(old(kernel.writes))
    {
      ghost var start := Life(View(), r, Dispatch(r), false);
      ghost var a, v := calls, View();
      HandleHangup(r);
      ghost var b, u := calls, View();
      ghost var read := Life(View(), r, AfterError(r), false);
      HandleReadWrite(r);
      ReachesOn(start, read, Life(View(), r, [], false));
      HungUpThenRead(r, v, u, View(), a, b, calls);
    }

    /** The last write call offered everything that was left, and what it left is left over now. */
    ghost predicate Offered(before: seq<WriteCall>)
      requires Wired()
      reads Frame(), poller.channels.Values
    {
      && |kernel.writes| > |before|
      && var call := kernel.writes[|kernel.writes| - 1];
         call.fd == channel.fd && View().output == call.Left()
    }

    method HandleReadWrite(r: Ready)
      requires Wired() && Fits(Life(View(), r, AfterError(r), false))
      modifies Frame()
      ensures Wired() && Kept() && Fits(Life(View(), r, [], false))
      ensures Reaches(Life(old(View()), r, AfterError(r), false), Life(View(), r, [], false))
      ensures r.input || r.pri || r.rdhup ==> Reads(old(View()), View())
      ensures (r.input || r.pri || r.rdhup) && old(View()).sock.inbox != "" ==> Newly(Message, old(calls), calls)
      ensures old(closes) <= closes && (r.output && View().mask.writing ==> Offered(old(kernel.writes)))
    {
      ghost var read, v, a := Life(View(), r, AfterError(r), false), View(), calls;
      HandleReadable(r);
      ghost var write, u, b := Life(View(), r, AfterRead(r), false), View(), calls;
      HandleWritable(r);
      ReachesOn(read, write, Life(View(), r, [], false));
      if (r.input || r.pri || r.rdhup) && v.sock.inbox != "" {
        NewlyOn(Message, a, a, b, calls);
      }
    }

    method HandleReadable(r: Ready)
      requires Wired() && Fits(Life(View(), r, AfterError(r), false))
      modifies Frame()
      ensures Wired() && Kept() && Fits(Life(View(), r, AfterRead(r), false))
      ensures Reaches(Life(old(View()), r, AfterError(r), false), Life(View(), r, AfterRead(r), false))
      ensures old(closes) <= closes && (r.input || r.pri || r.rdhup ==> Reads(old(View()), View()))
      ensures (r.input || r.pri || r.rdhup) && old(View()).sock.inbox != "" ==> Newly(Message, old(calls), calls)
    {
      ghost var read := Life(View(), r, AfterError(r), false);
      DispatchParts(r);
      if Readable(r) {
        ReadInput(read);
      } else {
        Stays(read);
      }
    }

    method ReadInput(ghost at: Life)
      requires Wired() && Fits(at) && at.At(ReadCb)
      modifies Frame()
      ensures Wired() && Kept() && Fits(at.Done(View())) && Reaches(at, at.Done(View()))
      ensures old(closes) <= closes && Reads(old(View()), View())
      ensures old(View()).sock.inbox != "" ==> Newly(Message, old(calls), calls)
    {
      HandleRead(at);
    }

    method HandleWritable(r: Ready)
      requires Wired() && Fits(Life(View(), r, AfterRead(r), false))
      modifies Frame() - {inputBuffer, inputBuffer.buf}
      ensures Wired() && Kept() && Fits(Life(View(), r, [], false))
      ensures Reaches(Life(old(View()), r, AfterRead(r), false), Life(View(), r, [], false))
      ensures View().SameStream(old(View()))
      ensures r.output && View().mask.writing ==> Offered(old(kernel.writes))
    {
      ghost var write := Life(View(), r, AfterRead(r), false);
      DispatchParts(r);
      if r.output {
        ghost var _ := HandleWrite(write);
      } else {
        Stays(write);
      }
    }

    /** The first part of the dispatch: a hang-up without input closes, an error is only logged. */
    method HandleHangup(r: Ready)
      requires Wired() && Fits(Life(View(), r, Dispatch(r), false))
      modifies Frame() - {inputBuffer, inputBuffer.buf}
      ensures Wired() && Kept() && View() == if HangsUp(r) then old(View()).Closed() else old(View())
      ensures r.hup && !r.input ==> closes == old(closes) + 1 && calls == old(calls) + [Down]
      ensures Fits(Life(View(), r, AfterError(r), false))
      ensures Reaches(Life(old(View()), r, Dispatch(r), false), Life(View(), r, AfterError(r), false))
    {
      ghost var start := Life(View(), r, Dispatch(r), false);
      DispatchParts(r);
      if HangsUp(r) {
        HandleClose();
        Goes(start, RunClose);
      } else {
        Stays(start);
      }
      ghost var error := Life(View(), r, AfterClose(r), false);
      if r.err {
        Goes(error, RunError);
      } else {
        Stays(error);
      }
      ReachesOn(start, error, Life(View(), r, AfterError(r), false));
    }

    /** One turn of the loop for this connection: epoll_wait takes it off the ready list, reports
        whether there is room now, and the event is dispatched. */
    method Turn(r: Ready, ghost at: Life) returns (ghost e: Ready)
      requires Wired() && Fits(at) && at.Idle() && View().index == Added
      modifies Frame()
      ensures Wired() && Kept() && Fits(Life(View(), e, [], false)) && Reaches(at, Life(View(), e, [], false))
      ensures e == r.(output := old(View()).mask.writing && old(View()).room)
      ensures e.hup && !e.input ==> closes > old(closes) && Newly(Down, old(calls), calls)
      ensures e.input || e.pri || e.rdhup ==> Reads(old(View()), View())
      ensures (e.input || e.pri || e.rdhup) && old(View()).sock.inbox != "" ==> Newly(Message, old(calls), calls)
      ensures e.output && View().mask.writing ==> Offered(old(kernel.writes))
    {
      var event := PollReports(r, at);
      e := event;
      ghost var reported := Life(View(), event, Dispatch(event), false);
      HandleEvent(event);
      ReachesOn(at, reported, Life(View(), e, [], false));
    }

    method PollReports(r: Ready, ghost at: Life) returns (e: Ready)
      requires Wired() && Fits(at) && at.Idle() && View().index == Added
      modifies kernel`edges
      ensures Wired() && Kept() && View() == old(View()).Reported()
      ensures e == r.(output := old(View()).mask.writing && old(View()).room)
      ensures var reported := Life(View(), e, Dispatch(e), false); Fits(reported) && Reaches(at, reported)
    {
      var output := kernel.Report(channel.fd);
      e := r.(output := output);
      Goes(at, Report(e));
    }

    /** The peer drains the socket. */
    method PeerReads(ghost at: Life)
      requires Wired() && Fits(at)
      modifies kernel`roomy, kernel`edges
      ensures Wired() && Kept() && Fits(at.(link := View())) && Reaches(at, at.(link := View()))
    {
      kernel.MakeRoom(channel.fd);
      Goes(at, Op.PeerReads);
    }

    method PeerSends(bytes: string, ending: Ending, ghost at: Life)
      requires Wired() && Fits(at)
      modifies kernel`socks
      ensures Wired() && Kept() && Fits(at.(link := View())) && Reaches(at, at.(link := View()))
    {
      kernel.Arrive(channel.fd, bytes, ending);
      Goes(at, Op.PeerSends(bytes, ending));
    }

    method ConnectEstablished(ghost at: Life)
      requires Wired() && Fits(at) && at.Idle() && state == Connecting
      modifies Frame()
      ensures Wired() && Kept() && Fits(at.(link := View())) && Reaches(at, at.(link := View()))
      ensures channel.fd in kernel.interest && View().Live() && calls == old(calls) + [Up]
    {
      state := Connected;
      StartReading();
      ghost var up := at.Apply(Establish);
      Goes(at, Establish);
      Callback(up, false); // the connection callback may send
      ReachesOn(at, up, up.(link := View()));
    }

    method StartReading()
      requires Wired() && View().index == New && View().mask == NONE
      modifies channel`events, channel`index, poller, kernel`interest, kernel`edges
      ensures Wired() && Kept()
      ensures View() == old(View()).(mask := Mask(true, false, et), index := Added, edge := false)
    {
      if et {
        channel.EnableET();
      }
      channel.EnableReading();
    }

    /** Final clean-up, in any state: afterwards neither the poller nor the kernel knows the
        descriptor. */
    method ConnectDestroyed(ghost at: Life)
      requires Wired() && Fits(at) && at.Idle()
      modifies Frame() - {inputBuffer, inputBuffer.buf}
      ensures Wired() && Kept() && View() == old(View()).Destroyed()
      ensures Fits(at.(link := View())) && Reaches(at, at.(link := View()))
      ensures channel.fd !in poller.channels && channel.fd !in kernel.interest
      ensures state == if old(state) == Connected then Disconnected else old(state)
      ensures calls == old(calls) + if old(state) == Connected then [Down] else []
    {
      TearDown();
      Goes(at, Destroy);
    }

    method TearDown()
      requires Valid()
      modifies Frame() - {inputBuffer, inputBuffer.buf}
      ensures Wired() && Kept() && View() == old(View()).Destroyed()
      ensures channel.fd !in poller.channels && channel.fd !in kernel.interest
      ensures calls == old(calls) + if old(state) == Connected then [Down] else []
    {
      if state == Connected {
        GoDown();
        DownCallback();
      }
      RemoveChannel();
    }

    method RemoveChannel()
      requires Wired() && (View().index != Added ==> !View().edge)
      modifies channel`index, poller, kernel`interest, kernel`edges
      ensures Wired() && Kept() && View() == old(View()).(index := New, edge := false)
      ensures channel.fd !in poller.channels && channel.fd !in kernel.interest
    {
      poller.RemoveChannel(channel);
    }

    // ----- Any life at all

    /** Any one operation: of the owner loop, or of the environment. */
    method Anything(ghost at: Life) returns (ghost after: Life)
      requires Wired() && Fits(at) && at.Idle()
      modifies Frame()
      ensures Wired() && Kept() && Fits(after) && after.Idle() && Reaches(at, after)
    {
      after := at;
      if
      case state == Connecting =>
        ConnectEstablished(at);
        after := at.(link := View());
      case channel.index == Added =>
        var r: Ready := *;
        ghost var e := Turn(r, at);
        after := Life(View(), e, [], false);
      case true =>
        Actions(at, false);
        after := at.(link := View());
      case true =>
        PeerReads(at);
        after := at.(link := View());
      case true =>
        var bytes: string, ending: Ending := *, *;
        PeerSends(bytes, ending, at);
        after := at.(link := View());
      case true =>
        ConnectDestroyed(at);
        after := at.(link := View());
    }

    /** A connection made and used in any way is a life from its birth on: what is proved of every
        run of lives holds of it at every point. */
    static method Lifetime(poller: EPollPoller, fd: Fd, et: bool) returns (ghost born: Life, ghost last: Life)
      requires poller.Valid() && fd !in poller.channels && fd !in poller.kernel.edges
      requires fd in poller.kernel.socks && poller.kernel.socks[fd] == Sock("", false, "", Open)
      modifies poller, poller.kernel
      ensures Born(born) && Reaches(born, last)
    {
      var c := new TcpConnection(poller, fd, et);
      born := Life(c.View(), NO_EVENT, [], false);
      last := born;
      Stays(born);
      var operations: nat :| true;
      for i := 0 to operations
        invariant c.Wired() && c.poller == poller && c.kernel == poller.kernel
        invariant fresh(c.Frame() - {poller, poller.kernel})
        invariant c.Fits(last) && last.Idle() && Reaches(born, last)
      {
        ghost var now := last;
        last := c.Anything(now);
        ReachesOn(born, now, last);
      }
    }
  }
}
