/** The line protocol: a message is a run of bytes closed by a newline. */
module Codec {
  import opened Basics
  import opened ByteBuffer

  datatype Decoded = Decoded(lines: seq<string>, rest: string)

  predicate LineFree(s: string) {
    forall i :: 0 <= i < |s| ==> s[i] != '\n'
  }

  ghost predicate WellFormed(d: Decoded) {
    LineFree(d.rest) && forall l :: l in d.lines ==> LineFree(l)
  }

  /** The stream that carries the given lines and then an unfinished one. */
  ghost function Encode(d: Decoded): string
    decreases |d.lines|
  {
    if d.lines == [] then d.rest
    else d.lines[0] + "\n" + Encode(Decoded(d.lines[1..], d.rest))
  }

  /** The first newline of a stream is at `at`. */
  ghost predicate IsEol(s: string, at: int) {
    0 <= at < |s| && s[at] == '\n' && LineFree(s[..at])
  }

  lemma {:induction false} EolExists(s: string)
    ensures LineFree(s) || exists at :: IsEol(s, at)
  {
    if s != "" {
      var n := |s| - 1;
      EolExists(s[..n]);
      if !LineFree(s[..n]) {
        var at :| IsEol(s[..n], at);
        assert s[..at] == s[..n][..at];
        assert IsEol(s, at);
      } else if s[n] == '\n' {
        assert IsEol(s, n);
      }
    }
  }

  /** What findEOL looks for, or -1. */
  ghost function EolAt(s: string): (at: int)
    ensures at == -1 ==> LineFree(s)
    ensures at != -1 ==> IsEol(s, at)
  {
    EolExists(s);
    if exists at :: IsEol(s, at) then var at :| IsEol(s, at); at else -1
  }

  lemma EolUnique(s: string, at: int)
    requires IsEol(s, at)
    ensures EolAt(s) == at
  {
    var other := EolAt(s);
    assert other != -1;
    assert forall k :: 0 <= k < at ==> s[..at][k] == s[k];
    assert forall k :: 0 <= k < other ==> s[..other][k] == s[k];
  }

  /** What the decoder makes of a stream: its lines in order, and the unfinished tail. */
  ghost function Decode(s: string): Decoded {
    var at := EolAt(s);
    if at == -1 then Decoded([], s)
    else
      var more := Decode(s[at + 1..]);
      Decoded([s[..at]] + more.lines, more.rest)
  }

  lemma CutEol(s: string, at: nat)
    requires IsEol(s, at)
    ensures s == s[..at] + "\n" + s[at + 1..]
  {
  }

  lemma Rejoin(s: string, at: nat, more: Decoded)
    requires IsEol(s, at) && WellFormed(more) && Encode(more) == s[at + 1..]
    ensures var d := Decoded([s[..at]] + more.lines, more.rest); WellFormed(d) && Encode(d) == s
  {
    CutEol(s, at);
    assert ([s[..at]] + more.lines)[1..] == more.lines;
  }

  /** Decoding loses nothing and invents nothing. */
  lemma {:induction false} DecodeSound(s: string)
    ensures WellFormed(Decode(s)) && Encode(Decode(s)) == s
    decreases |s|
  {
    var at := EolAt(s);
    if at != -1 {
      DecodeSound(s[at + 1..]);
      Rejoin(s, at, Decode(s[at + 1..]));
    }
  }

  /** Well-formed pieces are read back exactly: together with DecodeSound, Decode and Encode
      are inverse bijections between streams and well-formed pieces. */
  lemma {:induction false} DecodeComplete(d: Decoded)
    requires WellFormed(d)
    ensures Decode(Encode(d)) == d
    decreases |d.lines|
  {
    if d.lines != [] {
      var tail := Decoded(d.lines[1..], d.rest);
      var s := Encode(d);
      DecodeComplete(tail);
      FirstEol(d.lines[0], Encode(tail));
      assert d.lines == [d.lines[0]] + tail.lines;
    } else {
      var at := EolAt(d.rest);
    }
  }

  lemma FirstEol(line: string, more: string)
    requires LineFree(line)
    ensures EolAt(line + "\n" + more) == |line|
    ensures (line + "\n" + more)[..|line|] == line && (line + "\n" + more)[|line| + 1..] == more
  {
    var s := line + "\n" + more;
    assert s[..|line|] == line;
    EolUnique(s, |line|);
  }

  lemma {:induction false} EncodeConcat(a: seq<string>, d: Decoded)
    ensures Encode(Decoded(a + d.lines, d.rest)) == Encode(Decoded(a, "")) + Encode(d)
    decreases |a|
  {
    if a == [] {
      assert a + d.lines == d.lines;
    } else {
      EncodeConcat(a[1..], d);
      assert (a + d.lines)[1..] == a[1..] + d.lines;
    }
  }

  lemma {:induction false} EncodeRest(a: seq<string>, rest: string)
    ensures Encode(Decoded(a, rest)) == Encode(Decoded(a, "")) + rest
  {
    EncodeConcat(a, Decoded([], rest));
    assert a + [] == a;
  }

  lemma EncodeSnoc(a: seq<string>, line: string, rest: string)
    ensures Encode(Decoded(a + [line], rest)) == Encode(Decoded(a, line + "\n" + rest))
  {
    EncodeConcat(a, Decoded([line], rest));
    EncodeRest(a, line + "\n" + rest);
    assert [line][1..] == [];
  }

  /** Decoding may stop anywhere in the stream and resume on the tail it left. */
  lemma DecodeResumes(a: string, b: string)
    ensures var d := Decode(a);
            var e := Decode(d.rest + b);
            Decode(a + b) == Decoded(d.lines + e.lines, e.rest)
  {
    var d := Decode(a);
    DecodeSound(a);
    var e := Decode(d.rest + b);
    DecodeSound(d.rest + b);
    EncodeResumes(d, e, a, b);
    DecodeComplete(Decoded(d.lines + e.lines, e.rest));
  }

  lemma EncodeResumes(d: Decoded, e: Decoded, a: string, b: string)
    requires WellFormed(d) && WellFormed(e) && Encode(d) == a && Encode(e) == d.rest + b
    ensures var whole := Decoded(d.lines + e.lines, e.rest); WellFormed(whole) && Encode(whole) == a + b
  {
    var head := Encode(Decoded(d.lines, ""));
    EncodeConcat(d.lines, e);
    assert a == head + d.rest by {
      EncodeRest(d.lines, d.rest);
      assert d == Decoded(d.lines, d.rest);
    }
    Regroup(head, d.rest, b);
  }

  lemma Regroup(a: string, b: string, c: string)
    ensures a + (b + c) == a + b + c
  {
  }

  /** The lines handed out by one takeLines per arriving chunk, starting with `kept` undecoded. */
  ghost function Feed(kept: string, chunks: seq<string>): Decoded
    decreases |chunks|
  {
    if chunks == [] then Decoded([], kept)
    else
      var d := Decode(kept + chunks[0]);
      var more := Feed(d.rest, chunks[1..]);
      Decoded(d.lines + more.lines, more.rest)
  }

  /** However the kernel cuts the stream into reads, level or edge triggered, the decoder
      yields the same lines and keeps the same tail as one call on the whole stream. */
  lemma {:induction false} ChunkInvariant(kept: string, chunks: seq<string>)
    requires LineFree(kept)
    ensures Feed(kept, chunks) == Decode(kept + Flatten(chunks))
    decreases |chunks|
  {
    if chunks == [] {
      assert kept + "" == kept && EolAt(kept) == -1;
    } else {
      var first, later := kept + chunks[0], Flatten(chunks[1..]);
      var rest := Decode(first).rest;
      assert LineFree(rest) by { DecodeSound(first); }
      ChunkInvariant(rest, chunks[1..]);
      var more := Decode(rest + later);
      assert Feed(kept, chunks) == Decoded(Decode(first).lines + more.lines, more.rest) by {
        FeedStep(kept, chunks, more);
      }
      assert Decode(first + later) == Decoded(Decode(first).lines + more.lines, more.rest) by {
        DecodeResumes(first, later);
      }
      assert kept + Flatten(chunks) == first + later;
    }
  }

  lemma FeedStep(kept: string, chunks: seq<string>, more: Decoded)
    requires chunks != [] && Feed(Decode(kept + chunks[0]).rest, chunks[1..]) == more
    ensures Feed(kept, chunks) == Decoded(Decode(kept + chunks[0]).lines + more.lines, more.rest)
  {
  }

  /** The lines taken so far, and what is left of the whole. */
  ghost predicate Split(all: string, lines: seq<string>, rest: string) {
    (forall l :: l in lines ==> LineFree(l)) && Encode(Decoded(lines, rest)) == all
  }

  lemma SplitOn(all: string, lines: seq<string>, line: string, rest: string)
    requires Split(all, lines, line + "\n" + rest) && LineFree(line)
    ensures Split(all, lines + [line], rest)
  {
    EncodeSnoc(lines, line, rest);
  }

  lemma SplitDone(all: string, lines: seq<string>, rest: string)
    requires Split(all, lines, rest) && LineFree(rest)
    ensures Decoded(lines, rest) == Decode(all)
  {
    DecodeComplete(Decoded(lines, rest));
  }

  /** The bytes up to a newline, which is eaten. */
  method TakeLine(buf: Buffer, eol: nat) returns (line: string)
    requires buf.Valid() && IsEol(buf.Contents(), eol)
    modifies buf
    ensures buf.Valid() && buf.buf == old(buf.buf) && buf.peak == old(buf.peak)
    ensures LineFree(line) && old(buf.Contents()) == line + "\n" + buf.Contents()
  {
    ghost var before := buf.Contents();
    CutEol(before, eol);
    line := buf.RetrieveAsString(eol);
    assert line == before[..eol] && buf.Contents() == before[eol..];
    buf.Retrieve(1);
    assert buf.Contents() == before[eol + 1..];
  }

  method TakeLines(buf: Buffer) returns (lines: seq<string>)
    requires buf.Valid()
    modifies buf
    ensures buf.Valid() && buf.buf == old(buf.buf) && buf.peak == old(buf.peak)
    ensures Decoded(lines, buf.Contents()) == Decode(old(buf.Contents()))
  {
    lines := [];
    ghost var all := buf.Contents();
    var eol := buf.FindEOL();
    while eol != -1
      invariant buf.Valid() && buf.buf == old(buf.buf) && buf.peak == old(buf.peak)
      invariant if eol == -1 then LineFree(buf.Contents()) else IsEol(buf.Contents(), eol)
      invariant Split(all, lines, buf.Contents())
      decreases |buf.Contents()|
    {
      var line := TakeLine(buf, eol);
      SplitOn(all, lines, line, buf.Contents());
      lines := lines + [line];
      eol := buf.FindEOL();
    }
    SplitDone(all, lines, buf.Contents());
  }

  function FormatBroadcast(room: string, nick: string, text: string): string {
    "[" + room + "] " + nick + ": " + text + "\n"
  }

  /** A message with exactly one newline, its last byte. */
  predicate Framed(m: string) {
    m != "" && m[|m| - 1] == '\n' && LineFree(m[..|m| - 1])
  }

  ghost predicate AllFramed(ms: seq<string>) {
    forall i :: 0 <= i < |ms| ==> Framed(ms[i])
  }

  ghost function Body(m: string): string {
    if m == "" then "" else m[..|m| - 1]
  }

  ghost function Bodies(ms: seq<string>): seq<string> {
    seq(|ms|, i requires 0 <= i < |ms| => Body(ms[i]))
  }

  lemma FormatIsFramed(room: string, nick: string, text: string)
    requires LineFree(room) && LineFree(nick) && LineFree(text)
    ensures Framed(FormatBroadcast(room, nick, text))
  {
    var body := "[" + room + "] " + nick + ": " + text;
    assert FormatBroadcast(room, nick, text) == body + "\n";
    assert (body + "\n")[..|body|] == body;
  }

  lemma CutAt(a: string, b: string, a': string, b': string, mark: char)
    requires mark !in a && mark !in a' && a + [mark] + b == a' + [mark] + b'
    ensures a == a' && b == b'
  {
    var s := a + [mark] + b;
    assert s[|a|] == mark && s[|a'|] == mark;
    assert forall i :: 0 <= i < |a| ==> s[i] == a[i] != mark;
    assert forall i :: 0 <= i < |a'| ==> s[i] == a'[i] != mark;
    assert a == s[..|a|] && a' == s[..|a'|] && b == s[|a| + 1..] && b' == s[|a'| + 1..];
  }

  /** A broadcast can be taken apart again: the room, up to the bracket, then the nick, up to the
      colon, then the text. */
  lemma FormatReadsBack(room: string, nick: string, text: string, room': string, nick': string, text': string)
    requires ']' !in room && ']' !in room' && ':' !in nick && ':' !in nick'
    requires FormatBroadcast(room, nick, text) == FormatBroadcast(room', nick', text')
    ensures room == room' && nick == nick' && text == text'
    ensures FormatBroadcast("lobby", "ann", "hi") == "[lobby] ann: hi\n"
  {
    var m := FormatBroadcast(room, nick, text);
    var rest, rest' := " " + nick + ": " + text + "\n", " " + nick' + ": " + text' + "\n";
    assert m[1..] == room + [']'] + rest == room' + [']'] + rest';
    CutAt(room, rest, room', rest', ']');
    var said, said' := " " + text + "\n", " " + text' + "\n";
    assert rest[1..] == nick + [':'] + said == nick' + [':'] + said';
    CutAt(nick, said, nick', said', ':');
    assert text == said[1..|said| - 1] && text' == said'[1..|said'| - 1];
  }

  lemma DecodeFirst(body: string, more: string)
    requires LineFree(body)
    ensures var tail := Decode(more);
            Decode(body + "\n" + more) == Decoded([body] + tail.lines, tail.rest)
  {
    FirstEol(body, more);
  }

  /** What a receiver holds after reading `w` out of the framed messages `ms`. */
  ghost predicate DecodesTo(w: string, ms: seq<string>) {
    Begins(Decode(w), ms)
  }

  /** The lines are an initial run of the bodies, the rest the beginning of the next one. */
  ghost predicate Begins(d: Decoded, ms: seq<string>) {
    && d.lines <= Bodies(ms)
    && (|d.lines| == |ms| ==> d.rest == "")
    && (|d.lines| < |ms| ==> d.rest <= Body(ms[|d.lines|]))
  }

  /** A receiver that has read only part of a stream of framed messages decodes an initial
      run of exactly those messages, then the beginning of the next one. */
  lemma {:induction false} PrefixDecodes(ms: seq<string>, w: string)
    requires AllFramed(ms)
    requires w <= Flatten(ms)
    ensures DecodesTo(w, ms)
    decreases |ms|
  {
    if ms == [] {
      assert w == "";
    } else {
      var m, body, later := ms[0], Body(ms[0]), Flatten(ms[1..]);
      assert m == body + "\n";
      assert Flatten(ms) == m + later;
      if |w| < |m| {
        assert w <= body && w == body[..|w|];
        assert EolAt(w) == -1;
      } else {
        var more := w[|m|..];
        assert w == body + "\n" + more;
        assert more <= later;
        DecodeFirst(body, more);
        PrefixDecodes(ms[1..], more);
        BeginsCons(m, ms[1..], Decode(more));
        assert ms == [m] + ms[1..];
      }
    }
  }

  lemma BeginsCons(m: string, ms: seq<string>, d: Decoded)
    requires Begins(d, ms)
    ensures Begins(Decoded([Body(m)] + d.lines, d.rest), [m] + ms)
  {
    assert Bodies([m] + ms) == [Body(m)] + Bodies(ms);
    assert |d.lines| < |ms| ==> ([m] + ms)[|d.lines| + 1] == ms[|d.lines|];
  }
}
