/** One loop's epoll instance: the kernel's interest list, and the user-space poller and
    channels that must agree with it. */
module Poller {
  import opened ByteBuffer

  type Fd = int

  /** A channel's `events_` word: the read pair EPOLLIN|EPOLLPRI, EPOLLOUT, EPOLLET. */
  datatype Mask = Mask(reading: bool, writing: bool, edge: bool)

  const NONE := Mask(false, false, false)

  /** A channel's `revents_` word. */
  datatype Ready = Ready(input: bool, pri: bool, rdhup: bool, output: bool, err: bool, hup: bool)

  datatype Index = New | Added | Deleted

  /** The status after one update: what was listed stays listed unless its mask is empty, and
      anything else is listed from here on, whatever its mask. */
  function Updated(index: Index, mask: Mask): Index {
    if index == Added && mask == NONE then Deleted else Added
  }

  /** Disabling everything takes a descriptor off the kernel's list exactly when it was on it;
      a second time puts it back, with an empty mask. */
  lemma DisableUnlists(index: Index)
    ensures Updated(index, NONE) == Deleted <==> index == Added
    ensures Updated(Updated(index, NONE), NONE) == Deleted <==> index != Added
  {
  }

  /** What one non-blocking write answers: bytes taken, no room, or another error. */
  datatype WriteAnswer = Took(n: nat) | Full | Fault {
    function Count(): nat {
      if Took? then n else 0
    }

    /** The answers the kernel may give for `data` when the send buffer had room or not, and what
        room it leaves: less than all means there is none, another error changes nothing. */
    predicate Possible(data: string, room: bool, left: bool) {
      && (left ==> room)
      && match this
         case Took(n) => n <= |data| && (n < |data| ==> !left)
         case Full => !left
         case Fault => left == room
    }
  }

  /** One write call on a descriptor, with the answer the kernel gave. */
  datatype WriteCall = WriteCall(fd: Fd, data: string, answer: WriteAnswer) {
    function Left(): string {
      if answer.Count() <= |data| then data[answer.Count()..] else ""
    }
  }

  datatype Ending = Open | Finished | Broken

  /** A connected socket as the kernel holds it: bytes it took for sending, whether its write
      side is shut, bytes that wait to be read, and what a read meets after them. */
  datatype Sock = Sock(sent: string, shut: bool, inbox: string, ending: Ending)

  /** The kernel, as a nondeterministic environment.  The preconditions of `Ctl*`, `Write` and
      `ShutdownWrite` are the legality rules of the system calls. */
  class Kernel {
    var interest: map<Fd, (Mask, Channel)> // epoll set: mask and data.ptr per descriptor
    var socks: map<Fd, Sock>
    var roomy: set<Fd>                     // send buffers that would take bytes now
    var edges: set<Fd>                     // write edges raised and not yet reported
    ghost var writes: seq<WriteCall>       // every write call so far

    /** A change of mask raises an edge when the watched condition already holds. */
    static function EdgesAfter(edges: set<Fd>, roomy: set<Fd>, fd: Fd, mask: Mask): set<Fd> {
      if !mask.writing then edges - {fd} else if fd in roomy then edges + {fd} else edges
    }

    method CtlAdd(fd: Fd, mask: Mask, ptr: Channel)
      requires fd !in interest
      modifies this`interest, this`edges
      ensures interest == old(interest)[fd := (mask, ptr)]
      ensures edges == EdgesAfter(old(edges), roomy, fd, mask)
    {
      interest := interest[fd := (mask, ptr)];
      edges := EdgesAfter(edges, roomy, fd, mask);
    }

    method CtlMod(fd: Fd, mask: Mask, ptr: Channel)
      requires fd in interest
      modifies this`interest, this`edges
      ensures interest == old(interest)[fd := (mask, ptr)]
      ensures edges == EdgesAfter(old(edges), roomy, fd, mask)
    {
      interest := interest[fd := (mask, ptr)];
      edges := EdgesAfter(edges, roomy, fd, mask);
    }

    method CtlDel(fd: Fd)
      requires fd in interest
      modifies this`interest, this`edges
      ensures interest == old(interest) - {fd}
      ensures edges == old(edges) - {fd}
    {
      interest := interest - {fd};
      edges := edges - {fd};
    }

    /** A non-blocking write takes any prefix, or fails. */
    method Write(fd: Fd, data: string) returns (answer: WriteAnswer)
      requires fd in socks && !socks[fd].shut
      modifies this`socks, this`roomy, this`writes
      ensures answer.Possible(data, fd in old(roomy), fd in roomy)
      ensures writes == old(writes) + [WriteCall(fd, data, answer)]
      ensures socks == old(socks)[fd := old(socks)[fd].(sent := old(socks)[fd].sent + data[..answer.Count()])]
      ensures roomy - {fd} == old(roomy) - {fd}
    {
      if {
        case true =>
          answer := Fault;
        case true =>
          answer := Full;
          roomy := roomy - {fd};
        case true =>
          var n: nat :| n <= |data|;
          answer := Took(n);
          var full: bool := *;
          if full || n < |data| {
            roomy := roomy - {fd};
          }
      }
      var sock := socks[fd];
      socks := socks[fd := sock.(sent := sock.sent + data[..answer.Count()])];
      writes := writes + [WriteCall(fd, data, answer)];
    }

    method ShutdownWrite(fd: Fd)
      requires fd in socks && !socks[fd].shut
      modifies this`socks
      ensures socks == old(socks)[fd := old(socks)[fd].(shut := true)]
    {
      socks := socks[fd := socks[fd].(shut := true)];
    }

    /** A scatter read hands over some of the waiting bytes, or says why there are none. */
    method Readv(fd: Fd, capacity: nat) returns (answer: ReadAnswer)
      requires fd in socks && capacity > 0
      modifies this`socks
      ensures var sock := old(socks)[fd];
              && (answer.Data? <==> sock.inbox != "")
              && (answer.Data? ==> 0 < |answer.bytes| <= capacity && answer.bytes <= sock.inbox)
              && (!answer.Data? ==> (answer.Eof? <==> sock.ending.Finished?))
              && (!answer.Data? ==> (answer.Again? <==> sock.ending.Open?))
              && socks == if answer.Data?
                          then old(socks)[fd := sock.(inbox := sock.inbox[|answer.bytes|..])]
                          else old(socks)
    {
      var sock := socks[fd];
      if sock.inbox == "" {
        answer := match sock.ending case Open => Again case Finished => Eof case Broken => Fail;
      } else {
        var n :| 0 < n <= capacity && n <= |sock.inbox|;
        answer := Data(sock.inbox[..n]);
        socks := socks[fd := sock.(inbox := sock.inbox[n..])];
      }
    }

    /** The peer reads: the send buffer gets room, which is an edge for whoever watches. */
    method MakeRoom(fd: Fd)
      modifies this`roomy, this`edges
      ensures roomy == old(roomy) + {fd}
      ensures edges == if fd in interest && interest[fd].0.writing then old(edges) + {fd} else old(edges)
    {
      roomy := roomy + {fd};
      if fd in interest && interest[fd].0.writing {
        edges := edges + {fd};
      }
    }

    /** The peer sends, and may end its stream. */
    method Arrive(fd: Fd, bytes: string, ending: Ending)
      requires fd in socks
      modifies this`socks
      ensures var sock := old(socks)[fd];
              socks == old(socks)[fd := sock.(inbox := sock.inbox + bytes, ending := ending)]
    {
      var sock := socks[fd];
      socks := socks[fd := sock.(inbox := sock.inbox + bytes, ending := ending)];
    }

    /** epoll_wait takes the descriptor off the ready list and reports its present readiness. */
    method Report(fd: Fd) returns (output: bool)
      requires fd in interest
      modifies this`edges
      ensures edges == old(edges) - {fd}
      ensures output == (interest[fd].0.writing && fd in roomy)
    {
      edges := edges - {fd};
      output := interest[fd].0.writing && fd in roomy;
    }
  }

  /** A descriptor's watched events, with the poller's bookkeeping.  It does not own the fd. */
  class Channel {
    const fd: Fd
    const poller: EPollPoller
    var events: Mask
    var revents: Ready
    var index: Index

    constructor (poller: EPollPoller, fd: Fd)
      ensures this.fd == fd && this.poller == poller && events == NONE && index == New
    {
      this.fd, this.poller := fd, poller;
      events, index := NONE, New;
      revents := Ready(false, false, false, false, false, false);
    }

    /** Set before the first registration; the following update carries it. */
    method EnableET()
      requires poller.Tracks(this) && index == New
      modifies this`events
      ensures events == old(events).(edge := true) && poller.Tracks(this)
    {
      events := events.(edge := true);
    }

    method EnableReading()
      requires poller.Tracks(this)
      modifies this`events, this`index, poller, poller.kernel`interest, poller.kernel`edges
      ensures poller.Tracks(this) && poller.Followed(this)
      ensures events == old(events).(reading := true)
    {
      events := events.(reading := true);
      poller.UpdateChannel(this);
    }

    method EnableWriting()
      requires poller.Tracks(this)
      modifies this`events, this`index, poller, poller.kernel`interest, poller.kernel`edges
      ensures poller.Tracks(this) && poller.Followed(this)
      ensures events == old(events).(writing := true)
    {
      events := events.(writing := true);
      poller.UpdateChannel(this);
    }

    method DisableWriting()
      requires poller.Tracks(this)
      modifies this`events, this`index, poller, poller.kernel`interest, poller.kernel`edges
      ensures poller.Tracks(this) && poller.Followed(this)
      ensures events == old(events).(writing := false)
    {
      events := events.(writing := false);
      poller.UpdateChannel(this);
    }

    method DisableAll()
      requires poller.Tracks(this)
      modifies this`events, this`index, poller, poller.kernel`interest, poller.kernel`edges
      ensures poller.Tracks(this) && poller.Followed(this)
      ensures events == NONE
    {
      events := NONE;
      poller.UpdateChannel(this);
    }
  }

  class EPollPoller {
    const kernel: Kernel
    var channels: map<Fd, Channel>
    var capacity: nat // size of the epoll_wait output array

    constructor (kernel: Kernel)
      requires kernel.interest == map[]
      ensures this.kernel == kernel && channels == map[] && capacity == 16 && Valid()
    {
      this.kernel, channels, capacity := kernel, map[], 16;
    }

    /** The user-space status of a listed channel agrees with the kernel's interest list. */
    ghost predicate Mirrors(ch: Channel)
      reads kernel, ch
    {
      && ch.index != New
      && (ch.index == Added <==> ch.fd in kernel.interest)
      && (ch.index == Added ==> kernel.interest[ch.fd] == (ch.events, ch))
    }

    ghost predicate Valid()
      reads this, kernel, channels.Values
    {
      && capacity > 0
      && (forall fd :: fd in channels ==> channels[fd].fd == fd && channels[fd].poller == this && Mirrors(channels[fd]))
      && kernel.interest.Keys <= channels.Keys
    }

    /** `ch` is listed under its descriptor, or is new and its descriptor is free. */
    ghost predicate Tracks(ch: Channel)
      reads this, kernel, ch, channels.Values
    {
      && Valid()
      && ch.poller == this
      && (ch.index == New ==> ch.fd !in channels)
      && (ch.index != New ==> ch.fd in channels && channels[ch.fd] == ch)
    }

    /** As Tracks, while `ch` has changed its mask and the kernel has not heard of it yet. */
    ghost predicate TracksStale(ch: Channel)
      reads this, kernel, ch, channels.Values
    {
      && capacity > 0
      && ch.poller == this
      && (forall fd :: fd in channels && fd != ch.fd ==>
            channels[fd].fd == fd && channels[fd].poller == this && Mirrors(channels[fd]))
      && kernel.interest.Keys <= channels.Keys
      && (ch.index == New ==> ch.fd !in channels)
      && (ch.index != New ==> ch.fd in channels && channels[ch.fd] == ch)
      && (ch.index == Added <==> ch.fd in kernel.interest)
    }

    /** What one update does: the three-way rule on the old status and the new mask. */
    twostate predicate Followed(ch: Channel)
      reads this, kernel, ch
    {
      && ch.index == Updated(old(ch.index), ch.events)
      && channels == (if old(ch.index) == Added then old(channels) else old(channels)[ch.fd := ch])
      && kernel.interest == (if ch.index == Deleted then old(kernel.interest) - {ch.fd}
                             else old(kernel.interest)[ch.fd := (ch.events, ch)])
      && kernel.edges == Kernel.EdgesAfter(old(kernel.edges), kernel.roomy, ch.fd, ch.events)
      && capacity == old(capacity)
    }

    method UpdateChannel(ch: Channel)
      requires TracksStale(ch)
      modifies ch`index, this`channels, kernel`interest, kernel`edges
      ensures Tracks(ch) && Followed(ch)
    {
      if ch.index != Added {
        channels := channels[ch.fd := ch];
        ch.index := Added;
        kernel.CtlAdd(ch.fd, ch.events, ch);
      } else if ch.events == NONE {
        kernel.CtlDel(ch.fd);
        ch.index := Deleted;
      } else {
        kernel.CtlMod(ch.fd, ch.events, ch);
      }
      assert ch.fd in channels && channels[ch.fd] == ch;
    }

    /** Erases the entry under the channel's descriptor; that entry is always the channel's own. */
    method RemoveChannel(ch: Channel)
      requires Tracks(ch)
      modifies ch`index, this`channels, kernel`interest, kernel`edges
      ensures Tracks(ch) && ch.index == New
      ensures channels == old(channels) - {ch.fd}
      ensures kernel.interest == old(kernel.interest) - {ch.fd}
      ensures forall fd :: fd in old(channels) && old(channels)[fd] != ch ==> fd in channels
      ensures kernel.edges == if old(ch.index) == Added then old(kernel.edges) - {ch.fd} else old(kernel.edges)
    {
      channels := channels - {ch.fd};
      if ch.index == Added {
        kernel.CtlDel(ch.fd);
      }
      ch.index := New;
    }

    /** Turns what epoll_wait put into the output array into active channels, in order. */
    method Poll(events: seq<(Fd, Ready)>) returns (active: seq<Channel>)
      requires Valid() && |events| <= capacity
      requires forall i :: 0 <= i < |events| ==> events[i].0 in kernel.interest
      requires forall i, j :: 0 <= i < j < |events| ==> events[i].0 != events[j].0
      modifies this`capacity, set fd | fd in channels :: channels[fd]
      ensures Valid() && channels == old(channels)
      ensures |active| == |events|
      ensures forall i :: 0 <= i < |events| ==>
                && active[i].fd == events[i].0 && active[i].revents == events[i].1
                && events[i].0 in channels && active[i] == channels[events[i].0] && active[i].index == Added
      ensures forall fd :: fd in channels ==>
                channels[fd].events == old(channels[fd].events) && channels[fd].index == old(channels[fd].index)
      ensures capacity == if |events| == old(capacity) then 2 * old(capacity) else old(capacity)
    {
      active := [];
      for i := 0 to |events|
        invariant Valid() && channels == old(channels) && capacity == old(capacity)
        invariant |active| == i
        invariant forall k :: 0 <= k < i ==>
                    && events[k].0 in channels && active[k] == channels[events[k].0]
                    && active[k].fd == events[k].0 && active[k].revents == events[k].1
                    && active[k].index == Added
        invariant forall fd :: fd in channels ==>
                    channels[fd].events == old(channels[fd].events) && channels[fd].index == old(channels[fd].index)
      {
        var fd := events[i].0;
        var ch := kernel.interest[fd].1;
        assert fd in kernel.interest.Keys;
        assert Mirrors(channels[fd]);
        ch.revents := events[i].1;
        active := active + [ch];
      }
      if |events| == capacity {
        capacity := 2 * capacity;
      }
    }
  }
}
