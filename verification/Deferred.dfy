/** shutdown called from other threads: the state is set there, and the half that touches the socket
    is handed to the owner loop and runs later, whatever happened in between. */
module Deferred {
  import opened Links
  import opened Poller
  import opened States

  /** A connection's life, the threads that found it Connected and are about to set the state, and
      the halves handed over and not run yet. */
  datatype Shared = Shared(life: Life, asking: nat, owed: nat) {

    function With(k: Link): Life {
      life.(link := k)
    }

    predicate Enabled(act: Act) {
      match act
      case Own(op) => life.Enabled(op)
      case Check => true
      case Set => asking > 0
      case Pay => owed > 0 && life.Idle()
    }

    function Apply(act: Act): Shared
      requires Enabled(act)
    {
      match act
      case Own(op) => this.(life := life.Apply(op))
      case Check => if life.link.state == Connected then this.(asking := asking + 1) else this
      case Set => Shared(With(life.link.(state := Disconnecting)), asking - 1, owed + 1)
      case Pay => Shared(With(if life.link.mask.writing then life.link else life.link.Shuts()), asking, owed - 1)
    }

    /** SHUT_WR is counted; once it was issued room is not awaited and nothing is accepted. */
    ghost predicate Counted() {
      && (life.link.shuts > 0 <==> life.link.sock.shut)
      && (life.link.sock.shut ==> !life.link.mask.writing)
      && (life.link.sock.shut || owed > 0 ==> life.link.state.Rank() >= Disconnecting.Rank())
      && (asking > 0 ==> life.link.state != Connecting)
    }
  }

  datatype Act = Own(op: Op) | Check | Set | Pay

  ghost predicate Step(a: Shared, b: Shared) {
    exists act :: a.Enabled(act) && b == a.Apply(act)
  }

  ghost predicate Steps(ss: seq<Shared>, i: nat)
    requires i + 1 < |ss|
  {
    Step(ss[i], ss[i + 1])
  }

  ghost predicate Run(ss: seq<Shared>) {
    && ss != [] && Born(ss[0].life) && ss[0].asking == ss[0].owed == 0
    && forall i :: 0 <= i < |ss| - 1 ==> Steps(ss, i)
  }

  /** A half that was handed over runs when SHUT_WR has been issued already. */
  ghost predicate PaidTwice(a: Shared, b: Shared) {
    a.Enabled(Pay) && a.life.link.sock.shut && b == a.Apply(Pay)
  }

  ghost predicate PaysTwice(ss: seq<Shared>, i: nat)
    requires i + 1 < |ss|
  {
    PaidTwice(ss[i], ss[i + 1])
  }

  ghost predicate NonePaysTwice(ss: seq<Shared>, j: nat)
    requires j < |ss|
  {
    forall i :: 0 <= i < j ==> !PaysTwice(ss, i)
  }

  /** The owner's own operations, and the environment's, issue SHUT_WR at most once between them. */
  lemma OwnKeeps(s: Shared, op: Op)
    requires s.Counted() && s.life.Enabled(op)
    ensures var b := s.Apply(Own(op));
            && b.Counted() && s.life.link.shuts <= b.life.link.shuts
            && (b.life.link.shuts == s.life.link.shuts
                || (!s.life.link.sock.shut && b.life.link.shuts == s.life.link.shuts + 1))
  {
    if !(op.Send? || op.HalfClose? || op.Flush?) {
      OthersIssueNone(s.life, op);
    }
  }

  lemma OthersIssueNone(l: Life, op: Op)
    requires l.Enabled(op) && !op.Send? && !op.HalfClose? && !op.Flush?
    ensures var k, m := l.link, l.Apply(op).link;
            && m.shuts == k.shuts && m.sock.shut == k.sock.shut
            && (op.Establish? || (m.mask.writing ==> k.mask.writing))
            && k.state.Rank() <= m.state.Rank() && (op.Establish? ==> k.state == Connecting)
  {
  }

  lemma StepCounts(a: Shared, b: Shared)
    requires a.Counted() && Step(a, b)
    ensures b.Counted() && a.life.link.shuts <= b.life.link.shuts
    ensures a.life.link.shuts == 1 ==> (b.life.link.shuts == 1 <==> !PaidTwice(a, b))
    ensures a.life.link.shuts == 0 ==> b.life.link.shuts <= 1 && !PaidTwice(a, b)
  {
    var act :| a.Enabled(act) && b == a.Apply(act);
    if act.Own? {
      OwnKeeps(a, act.op);
    }
  }

  lemma BornCounts(s: Shared)
    requires Born(s.life) && s.asking == s.owed == 0
    ensures s.Counted() && s.life.link.shuts == 0
  {
  }

  lemma StepAt(ss: seq<Shared>, i: nat)
    requires Run(ss) && i + 1 < |ss| && ss[i].Counted()
    ensures ss[i + 1].Counted() && ss[i].life.link.shuts <= ss[i + 1].life.link.shuts
    ensures ss[i].life.link.shuts == 1 ==> (ss[i + 1].life.link.shuts == 1 <==> !PaysTwice(ss, i))
    ensures ss[i].life.link.shuts == 0 ==> ss[i + 1].life.link.shuts <= 1 && !PaysTwice(ss, i)
  {
    assert Steps(ss, i);
    StepCounts(ss[i], ss[i + 1]);
  }

  lemma {:induction false} CountedAt(ss: seq<Shared>, j: nat)
    requires Run(ss) && j < |ss|
    ensures ss[j].Counted()
  {
    if j == 0 {
      BornCounts(ss[0]);
    } else {
      CountedAt(ss, j - 1);
      StepAt(ss, j - 1);
    }
  }

  /** With shutdowns from any thread SHUT_WR is issued at most once if and only if no half that was
      handed over runs after it. */
  lemma {:induction false} ShutsOnceExactly(ss: seq<Shared>, j: nat)
    requires Run(ss) && j < |ss|
    ensures ss[j].life.link.shuts <= 1 <==> NonePaysTwice(ss, j)
  {
    if j == 0 {
      BornCounts(ss[0]);
    } else {
      ShutsOnceExactly(ss, j - 1);
      CountedAt(ss, j - 1);
      StepAt(ss, j - 1);
    }
  }

  lemma Longer(ss: seq<Shared>, act: Act) returns (longer: seq<Shared>)
    requires Run(ss) && ss[|ss| - 1].Enabled(act)
    ensures Run(longer) && longer == ss + [ss[|ss| - 1].Apply(act)]
  {
    longer := ss + [ss[|ss| - 1].Apply(act)];
    assert Step(ss[|ss| - 1], longer[|ss|]);
    forall i | 0 <= i < |longer| - 1
      ensures Steps(longer, i)
    {
      if i < |ss| - 1 {
        assert Steps(ss, i);
      }
    }
  }

  const WRITABLE := Ready(false, false, false, true, false, false)

  /** A byte is left over and another thread shuts the connection down. */
  lemma AskedWithOutput(born: Life) returns (ss: seq<Shared>)
    requires Born(born)
    ensures Run(ss)
    ensures var s := ss[|ss| - 1];
            && s.asking == 0 && s.owed == 1 && s.life.Idle() && s.life.link.state == Disconnecting
            && s.life.link.index == Added && s.life.link.mask.writing && s.life.link.output == "a"
            && !s.life.link.sock.shut && s.life.link.shuts == 0
  {
    ss := Longer([Shared(born, 0, 0)], Own(Establish));
    ss := Longer(ss, Own(Send("a", Full, false)));
    ss := Longer(ss, Check);
    ss := Longer(ss, Set);
  }

  /** The witness: one shutdown from another thread; the write loop empties the buffer and issues
      SHUT_WR, and the half that was handed over issues it again. */
  lemma ShutsTwice(born: Life) returns (ss: seq<Shared>)
    requires Born(born)
    ensures Run(ss) && ss[|ss| - 1].life.link.shuts == 2 && ss[|ss| - 1].owed == 0
  {
    ss := AskedWithOutput(born);
    ss := Longer(ss, Own(PeerReads));
    ss := Longer(ss, Own(Report(WRITABLE)));
    assert Dispatch(WRITABLE) == [WriteCb];
    ss := Longer(ss, Own(Flush(Took(1), true)));
    ss := Longer(ss, Pay);
  }
}
