/** The connection table of the base loop: keyed by a name made from a counter, so that erasing
    by name removes exactly the connection that closed. */
module Server {
  import opened Basics
  import opened Reactor

  function Digit(d: nat): char
    requires d < 10
  {
    '0' + d as char
  }

  /** std::to_string. */
  function Decimal(n: nat): (s: string)
    ensures s != ""
  {
    if n < 10 then [Digit(n)] else Decimal(n / 10) + [Digit(n % 10)]
  }

  lemma TenTimes(n: nat)
    ensures n == 10 * (n / 10) + n % 10
  {
  }

  lemma DecimalOn(n: nat)
    requires n >= 10
    ensures Decimal(n) == Decimal(n / 10) + [Digit(n % 10)]
  {
  }

  lemma {:induction false} DecimalInjective(m: nat, n: nat)
    requires Decimal(m) == Decimal(n)
    ensures m == n
  {
    if m >= 10 && n >= 10 {
      var s := Decimal(m);
      DecimalOn(m);
      DecimalOn(n);
      assert s[|s| - 1] == Digit(m % 10) == Digit(n % 10);
      assert Decimal(m / 10) == s[..|s| - 1] == Decimal(n / 10);
      DecimalInjective(m / 10, n / 10);
      TenTimes(m);
      TenTimes(n);
    } else if m >= 10 {
      DecimalOn(m);
    } else if n >= 10 {
      DecimalOn(n);
    }
  }

  /** What a decimal numeral denotes. */
  function Value(s: string): int {
    if s == "" then 0 else 10 * Value(s[..|s| - 1]) + (s[|s| - 1] as int - '0' as int)
  }

  lemma ValueOn(s: string, digit: char)
    ensures Value(s + [digit]) == 10 * Value(s) + (digit as int - '0' as int)
  {
    assert (s + [digit])[..|s|] == s;
  }

  /** The numeral of a number denotes it, and has no leading zero. */
  lemma {:induction false} DecimalDenotes(n: nat)
    ensures Value(Decimal(n)) == n && (Decimal(n)[0] == '0' ==> n == 0)
  {
    if n >= 10 {
      var m, d := n / 10, n % 10;
      DecimalDenotes(m);
      DecimalOn(n);
      ValueOn(Decimal(m), Digit(d));
      TenTimes(n);
    } else {
      ValueOn("", Digit(n));
      assert "" + [Digit(n)] == [Digit(n)];
    }
  }

  function NameOf(server: string, c: ConnId): string {
    server + "#" + Decimal(c + 1)
  }

  lemma NamesDiffer(server: string, c: ConnId, d: ConnId)
    requires NameOf(server, c) == NameOf(server, d)
    ensures c == d
  {
    var head := server + "#";
    assert NameOf(server, c)[|head|..] == Decimal(c + 1) && NameOf(server, d)[|head|..] == Decimal(d + 1);
    DecimalInjective(c + 1, d + 1);
  }

  class TcpServer {
    const name: string
    const ioLoops: seq<LoopId>           // the pool's loops, none in the single-thread set-up
    var connections: map<string, ConnId>
    var nextConnId: nat
    var nextLoop: nat

    ghost predicate Valid()
      reads this
    {
      && nextConnId > 0 && (ioLoops != [] ==> nextLoop < |ioLoops|)
      && forall key :: key in connections ==> connections[key] < nextConnId - 1 && key == NameOf(name, connections[key])
    }

    /** The connections the table refers to. */
    ghost function Table(): set<ConnId>
      reads this
    {
      connections.Values
    }

    constructor (name: string, ioLoops: seq<LoopId>)
      ensures Valid() && Table() == {} && nextConnId == 1
    {
      this.name, this.ioLoops, connections, nextConnId, nextLoop := name, ioLoops, map[], 1, 0;
    }

    /** getNextLoop: round robin over the pool, or the base loop. */
    method GetNextLoop() returns (l: LoopId)
      requires Valid()
      modifies this`nextLoop
      ensures Valid() && if ioLoops == [] then l == BASE && nextLoop == old(nextLoop)
                         else l == ioLoops[old(nextLoop)] && nextLoop == (old(nextLoop) + 1) % |ioLoops|
    {
      l := BASE;
      if ioLoops != [] {
        l := ioLoops[nextLoop];
        nextLoop := (nextLoop + 1) % |ioLoops|;
      }
    }

    /** A new connection takes the next number, a name no other has, or ever had, and the next
        loop; `push` is the task handed over when that loop has another thread. */
    method NewConnection() returns (c: ConnId, owner: LoopId, push: Option<Task>)
      requires Valid()
      modifies this
      ensures Valid() && c == old(nextConnId) - 1 && nextConnId == old(nextConnId) + 1
      ensures c !in old(Table()) && Table() == old(Table()) + {c} && old(connections.Keys) < connections.Keys
      ensures owner == if ioLoops == [] then BASE else ioLoops[old(nextLoop)]
      ensures push == if owner == BASE then None else Some(Establish(c))
    {
      c := nextConnId - 1;
      owner := GetNextLoop();
      push := if owner == BASE then None else Some(Establish(c));
      var connName := NameOf(name, c);
      assert connName !in connections by {
        if connName in connections {
          NamesDiffer(name, c, connections[connName]);
        }
      }
      nextConnId := nextConnId + 1;
      connections := connections[connName := c];
      assert connName in connections;
      assert forall key :: key in old(connections) ==> key in connections && connections[key] == old(connections)[key];
    }

    /** The part of removeConnection that runs on the base loop; `push` always goes through the
        owner's queue, never at once. */
    method EraseConnection(c: ConnId) returns (push: Task)
      requires Valid()
      modifies this`connections
      ensures Valid() && Table() == old(Table()) - {c} && push == Destroy(c)
    {
      push := Destroy(c);
      var connName := NameOf(name, c);
      connections := connections - {connName};
      forall d | d in old(Table()) && d != c
        ensures d in Table()
      {
        var key :| key in old(connections) && old(connections)[key] == d;
        if key == connName {
          NamesDiffer(name, c, d);
        }
        assert key in connections;
      }
    }
  }

  /** The class does what the transition system does: the same connections enter and leave the
      table, and the base thread takes up the same hand-overs. */
  lemma TableAgrees(s: Sys, step: Step, l: LoopId, c: ConnId)
    requires Enabled(s, step) && c < |s.conns| && 0 < |s.loops| <= |s.threads|
    ensures step.Accept? ==>
              var s' := Apply(s, step);
              && s'.table == s.table + {|s.conns|} && |s'.conns| == |s.conns| + 1 && |s'.threads| == |s.threads|
              && s'.threads[BASE].op == if step.owner == BASE then s.threads[BASE].op
                                        else Push(step.owner, Establish(|s.conns|))
    ensures (step == RunTask(BASE) && s.loops[BASE].batch[0] == Unlist(c))
            || (step == CloseEvent(BASE) && s.loops[BASE].active[0] == c) ==>
              var s' := Apply(s, step);
              && s'.table == s.table - {c} && |s'.threads| == |s.threads|
              && s'.threads[BASE].op == Push(s.conns[c].owner, Destroy(c))
  {
  }
}
