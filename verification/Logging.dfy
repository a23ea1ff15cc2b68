/** The double-buffered logger.  Every section under the mutex, and every write of one buffer
    to the file, is one method; callers and the back-end thread may take them in any order, so
    what `Valid` says holds in every interleaving. */
module Logging {
  import opened Basics

  const SIZE: nat := 64 * 1024

  /** The lines of a row of buffers, oldest first. */
  ghost function Join(rows: seq<seq<string>>): seq<string> {
    if rows == [] then [] else rows[0] + Join(rows[1..])
  }

  lemma {:induction false} JoinAppend(rows: seq<seq<string>>, row: seq<string>)
    ensures Join(rows + [row]) == Join(rows) + row
  {
    if rows == [] {
      assert [row][1..] == [];
    } else {
      JoinAppend(rows[1..], row);
      assert (rows + [row])[1..] == rows[1..] + [row];
    }
  }

  /** One more line in the last row is one more line at the end. */
  lemma JoinLonger(rows: seq<seq<string>>, row: seq<string>, line: string)
    ensures Join(rows + [row + [line]]) == Join(rows + [row]) + [line]
  {
    JoinAppend(rows, row);
    JoinAppend(rows, row + [line]);
  }

  /** One contiguous block with a write offset; `lines` are the whole lines it holds. */
  class LogBuffer {
    const data: array<char>
    var cur: nat
    ghost var lines: seq<string>

    ghost predicate Valid()
      reads this, data
    {
      data.Length == SIZE && cur <= SIZE && data[..cur] == Flatten(lines)
    }

    ghost predicate Holds(what: seq<string>)
      reads this, data
    {
      Valid() && lines == what
    }

    constructor ()
      ensures Valid() && fresh(data) && lines == [] && cur == 0
    {
      data := new char[SIZE];
      cur, lines := 0, [];
    }

    method Append(line: string)
      requires Valid() && cur + |line| <= SIZE
      modifies this, data
      ensures Valid() && lines == old(lines) + [line] && cur == old(cur) + |line|
    {
      forall i | 0 <= i < |line| {
        data[cur + i] := line[i];
      }
      assert data[..cur + |line|] == old(data[..cur]) + line;
      FlattenOne(lines, line);
      cur := cur + |line|;
      lines := lines + [line];
    }

    method Text(ghost what: seq<string>) returns (s: string)
      requires Holds(what)
      ensures s == Flatten(what) && |s| == cur
    {
      s := data[..cur];
    }

    method Reset()
      modifies this
      requires Valid()
      ensures Valid() && lines == [] && cur == 0
    {
      cur, lines := 0, [];
    }
  }

  datatype Stage = NotStarted | Waiting | Writing | Finished

  /** The logger as values: `rows` are the lines of the batch, of the queue and of the current
      buffer, one row a buffer; the first `batch` rows are the batch, the first `written` of
      those are in the file. */
  datatype Account = Account(
    stage: Stage, running: bool, stopping: bool, batch: nat, written: nat, rows: seq<seq<string>>,
    file: string, flushed: seq<string>, appended: seq<string>, mark: nat) {

    ghost predicate Shaped() {
      && written <= batch < |rows|
      && (stage != Writing ==> batch == 0)
    }

    /** Nothing is lost, repeated, reordered or torn: the file, then what is left of the batch, the
        queue and the current buffer hold exactly the appended lines. */
    ghost predicate Conserves()
      requires Shaped()
    {
      flushed + Join(rows[written..]) == appended && file == Flatten(flushed)
    }

    /** Once the back end has seen the stop request, what was appended before it is on its way. */
    ghost predicate Stops()
      requires Shaped()
    {
      && mark <= |appended|
      && (stopping && stage == Writing ==> !running && mark <= |flushed| + |Join(rows[written..batch])|)
      && (stage == Finished ==> !running && mark <= |flushed|)
      && (stage == Waiting ==> !stopping)
      && (stage == NotStarted ==> !running)
    }

    ghost predicate Valid() {
      Shaped() && Conserves() && Stops()
    }

    ghost function Started(): Account {
      this.(running := true, stopping := false, stage := Waiting)
    }

    /** The critical section of a stop that finds the logger running. */
    ghost function Stopped(): Account {
      this.(running := false, mark := |appended|)
    }

    ghost function Put(line: string): Account
      requires Shaped()
    {
      this.(rows := rows[..|rows| - 1] + [rows[|rows| - 1] + [line]], appended := appended + [line])
    }

    ghost function Rotated(): Account {
      this.(rows := rows + [[]])
    }

    ghost function Taken(): Account {
      Rotated().(stage := Writing, batch := |rows|, written := 0, stopping := !running)
    }

    ghost function Wrote(): Account
      requires Shaped() && written < batch
    {
      this.(file := file + Flatten(rows[written]), flushed := flushed + rows[written], written := written + 1)
    }

    ghost function Recycled(): Account
      requires Shaped() && written == batch
    {
      this.(rows := rows[batch..], batch := 0, written := 0, stage := if stopping then Finished else Waiting)
    }

    lemma {:induction false} PutKeeps(line: string)
      requires Valid()
      ensures Put(line).Valid()
    {
      var last := |rows| - 1;
      JoinLonger(rows[written..last], rows[last], line);
      assert rows[written..] == rows[written..last] + [rows[last]];
      assert Put(line).rows[written..] == rows[written..last] + [rows[last] + [line]];
      assert Put(line).rows[written..batch] == rows[written..batch];
    }

    lemma {:induction false} RotatedKeeps()
      requires Valid()
      ensures Rotated().Valid()
    {
      JoinAppend(rows[written..], []);
      assert Rotated().rows[written..] == rows[written..] + [[]];
      assert Rotated().rows[written..batch] == rows[written..batch];
    }

    lemma {:induction false} TakenKeeps()
      requires Valid() && stage == Waiting
      ensures Taken().Valid()
    {
      RotatedKeeps();
      assert Rotated().rows[0..|rows|] == rows[written..];
    }

    lemma {:induction false} WroteKeeps()
      requires Valid() && stage == Writing && written < batch
      ensures Wrote().Valid()
    {
      FlattenConcat(flushed, rows[written]);
      assert rows[written..][1..] == rows[written + 1..];
      assert rows[written..batch][1..] == rows[written + 1..batch];
    }

    lemma {:induction false} RecycledKeeps()
      requires Valid() && stage == Writing && written == batch
      ensures Recycled().Valid()
    {
      assert rows[batch..][0..] == rows[written..];
    }

    /** One critical section, or the write of one buffer, by any thread. */
    ghost predicate Step(after: Account) {
      || (!running && (stage == NotStarted || stage == Finished) && after == Started())
      || (running && after == Stopped())
      || (Shaped() && exists line :: after == Put(line))
      || after == Rotated()
      || (stage == Waiting && after == Taken())
      || (Shaped() && stage == Writing && written < batch && after == Wrote())
      || (Shaped() && stage == Writing && written == batch && after == Recycled())
    }

    lemma {:induction false} StepKeeps(after: Account)
      requires Valid() && Step(after)
      ensures after.Valid() && appended <= after.appended && mark <= after.mark
    {
      if Shaped() && exists line :: after == Put(line) {
        var line :| after == Put(line);
        PutKeeps(line);
      } else if after == Rotated() {
        RotatedKeeps();
      } else if stage == Waiting && after == Taken() {
        TakenKeeps();
      } else if stage == Writing && written < batch && after == Wrote() {
        WroteKeeps();
      } else if stage == Writing && written == batch && after == Recycled() {
        RecycledKeeps();
      }
    }
  }

  const BLANK := Account(NotStarted, false, false, 0, 0, [[]], "", [], [], 0)

  ghost predicate Steps(run: seq<Account>, i: nat)
    requires i + 1 < |run|
  {
    run[i].Step(run[i + 1])
  }

  ghost predicate Run(run: seq<Account>) {
    run != [] && run[0] == BLANK && forall i :: 0 <= i < |run| - 1 ==> Steps(run, i)
  }

  lemma BlankIsValid()
    ensures BLANK.Valid()
  {
    assert BLANK.rows[0..] == [[]] && Join([[]]) == [] + Join([[]][1..]);
  }

  lemma {:induction false} RunGrows(run: seq<Account>, i: nat, j: nat)
    requires Run(run) && i <= j < |run|
    ensures run[j].Valid() && run[i].appended <= run[j].appended && run[i].mark <= run[j].mark
  {
    if j == 0 {
      BlankIsValid();
    } else {
      RunGrows(run, if i < j then i else j - 1, j - 1);
      assert Steps(run, j - 1);
      run[j - 1].StepKeeps(run[j]);
    }
  }

  /** In every interleaving the file holds a run of whole lines, in lock order, from the first
      line on; what it misses is still in the batch, the queue or the current buffer. */
  lemma FileIsPrefix(run: seq<Account>, j: nat)
    requires Run(run) && j < |run|
    ensures run[j].file == Flatten(run[j].flushed) && run[j].flushed <= run[j].appended
    ensures run[j].written <= |run[j].rows|
    ensures run[j].appended == run[j].flushed + Join(run[j].rows[run[j].written..])
  {
    RunGrows(run, j, j);
  }

  /** stop joins the back end, which has then finished: all that was appended before stop's
      critical section is in the file. */
  lemma StopLosesNothing(run: seq<Account>, i: nat, j: nat)
    requires Run(run) && i < j < |run|
    requires run[i].running && run[i + 1] == run[i].Stopped()
    requires run[j].stage == Finished
    ensures run[i].appended <= run[j].flushed && run[j].file == Flatten(run[j].flushed)
  {
    RunGrows(run, i + 1, j);
  }

  /** The logger is started again. */
  ghost predicate Starts(run: seq<Account>, k: nat)
    requires k + 1 < |run|
  {
    !run[k].running && run[k + 1].running
  }

  /** The back end takes a batch. */
  ghost predicate Takes(run: seq<Account>, k: nat)
    requires k + 1 < |run|
  {
    run[k].stage == Waiting && run[k + 1].stage == Writing
  }

  ghost predicate TakesBetween(run: seq<Account>, i: nat, j: nat)
    requires j < |run|
  {
    exists k :: i <= k < j && Takes(run, k)
  }

  lemma StopStep(a: Account, b: Account)
    requires a.Valid() && a.Step(b) && !a.running && !b.running
    ensures a.stage == Waiting && b.stage == Writing ==> b.stopping
    ensures a.stopping && a.stage == Writing ==> b.stopping && b.stage in {Writing, Finished}
    ensures a.stage == Finished ==> b.stage == Finished
  {
  }

  /** stop ends the back end: from stop's critical section on, until a new start, the logger does not
      run, and once the back end has taken a batch it never waits for another, but finishes. */
  lemma {:induction false} StopEndsBackEnd(run: seq<Account>, i: nat, j: nat)
    requires Run(run) && i < j < |run| && run[i].running && run[i + 1] == run[i].Stopped()
    requires forall k :: i < k < j ==> !Starts(run, k)
    ensures !run[j].running
    ensures TakesBetween(run, i + 1, j) ==>
              run[j].stage == Finished || (run[j].stage == Writing && run[j].stopping)
  {
    if j > i + 1 {
      StopEndsBackEnd(run, i, j - 1);
      RunGrows(run, j - 1, j - 1);
      assert Steps(run, j - 1) && !Starts(run, j - 1);
      StopStep(run[j - 1], run[j]);
      if TakesBetween(run, i + 1, j) && !TakesBetween(run, i + 1, j - 1) {
        var k :| i + 1 <= k < j && Takes(run, k);
        assert k == j - 1;
      }
    }
  }

  /** No buffer, and no block, has two places; all of them belong to the logger. */
  ghost predicate Distinct(row: seq<LogBuffer>, repr: set<object>) {
    && (forall i :: 0 <= i < |row| ==> row[i] in repr && row[i].data in repr)
    && (forall i, j :: 0 <= i < j < |row| ==> row[i] != row[j] && row[i].data != row[j].data)
  }

  ghost predicate Apart(b: LogBuffer, row: seq<LogBuffer>) {
    forall i :: 0 <= i < |row| ==> row[i] != b && row[i].data != b.data
  }

  lemma DistinctWith(row: seq<LogBuffer>, b: LogBuffer, repr: set<object>)
    requires Distinct(row, repr) && Apart(b, row)
    ensures Distinct(row + [b], repr + {b, b.data})
  {
  }

  /** The last buffer of the batch is apart from the queue and the current one. */
  lemma DistinctFrom(row: seq<LogBuffer>, n: nat, repr: set<object>)
    requires Distinct(row, repr) && 0 < n <= |row|
    ensures Distinct(row[n..], repr) && Apart(row[n - 1], row[n..])
  {
  }

  class AsyncLogger {
    var running: bool
    var current: LogBuffer
    var next: LogBuffer?             // the spare
    var full: seq<LogBuffer>         // buffersToWrite_
    var toWrite: seq<LogBuffer>      // the back end's batch
    var written: nat                 // how many of the batch are in the file
    var stopping: bool
    var stage: Stage                 // where the back end is
    var file: string
    ghost var flushed: seq<string>   // the lines the file holds
    ghost var appended: seq<string>  // every line appended, in lock order
    ghost var mark: nat              // lines appended before stop's critical section
    ghost var row: seq<LogBuffer>    // the batch, the queue, the current buffer
    ghost var rows: seq<seq<string>> // what they hold
    ghost var repr: set<object>

    ghost function View(): Account
      reads this
    {
      Account(stage, running, stopping, |toWrite|, written, rows, file, flushed, appended, mark)
    }

    /** Ownership moves and is never shared; the spare is empty. */
    ghost predicate Owned()
      reads this, repr
    {
      && this !in repr
      && row == toWrite + full + [current]
      && Distinct(row, repr)
      && |rows| == |row| && (forall i :: 0 <= i < |row| ==> row[i].Holds(rows[i]))
      && (next != null ==> next in repr && next.data in repr && Apart(next, row) && next.Holds([]) && next.cur == 0)
    }

    ghost predicate Valid()
      reads this, repr
    {
      Owned() && View().Valid()
    }

    constructor ()
      ensures Valid() && fresh(repr)
      ensures View() == BLANK
    {
      var a := new LogBuffer();
      var b := new LogBuffer();
      current, next, full, toWrite, written := a, b, [], [], 0;
      running, stopping, stage, file := false, false, NotStarted, "";
      flushed, appended, mark, row, rows := [], [], 0, [a], [[]];
      repr := {a, a.data, b, b.data};
      new;
      BlankIsValid();
      assert View() == BLANK;
      assert Owned();
    }

    /** The spare or, when the back end has not given one back yet, a new buffer. */
    method TakeSpare() returns (b: LogBuffer)
      requires Owned()
      modifies this`next, this`repr
      ensures Owned() && next == null && old(repr) <= repr && fresh(repr - old(repr))
      ensures Distinct(row + [b], repr) && b.Holds([]) && b.cur == 0
      ensures if old(next) == null then fresh(b) else b == old(next)
    {
      if next == null {
        b := new LogBuffer();
      } else {
        b := next;
      }
      DistinctWith(row, b, repr);
      next, repr := null, repr + {b, b.data};
    }

    /** Puts the current buffer on the queue and goes on with the spare. */
    method Rotate()
      requires Owned()
      modifies this`current, this`next, this`full, this`row, this`rows, this`repr
      ensures Owned() && fresh(repr - old(repr)) && View() == old(View()).Rotated()
      ensures full == old(full) + [old(current)] && next == null && current.cur == 0 && current.lines == []
      ensures if old(next) == null then fresh(current) else current == old(next)
    {
      var spare := TakeSpare();
      full := full + [current];
      current := spare;
      row, rows := row + [spare], rows + [[]];
    }

    method Put(line: string)
      requires Owned() && View().Shaped() && current.cur + |line| <= SIZE
      modifies this`rows, this`appended, repr
      ensures Owned() && repr == old(repr) && View() == old(View()).Put(line)
      ensures current.lines == old(current.lines) + [line] && appended == old(appended) + [line]
    {
      assert row[|row| - 1] == current;
      current.Append(line);
      rows := rows[..|rows| - 1] + [rows[|rows| - 1] + [line]];
      appended := appended + [line];
    }

    /** Any thread appends one line, whole. */
    method Append(line: string)
      requires Valid() && |line| <= SIZE
      modifies this, repr
      ensures Valid() && fresh(repr - old(repr))
      ensures View() == if |line| <= SIZE - old(current.cur) then old(View()).Put(line)
                        else old(View()).Rotated().Put(line)
      ensures appended == old(appended) + [line]
      ensures if |line| <= SIZE - old(current.cur)
              then full == old(full) && current == old(current) && current.lines == old(current.lines) + [line]
              else full == old(full) + [old(current)] && current.lines == [line]
    {
      if SIZE - current.cur < |line| {
        View().RotatedKeeps();
        Rotate();
      }
      View().PutKeeps(line);
      Put(line);
    }

    method Start()
      requires Valid() && !running && (stage == NotStarted || stage == Finished)
      modifies this`running, this`stopping, this`stage
      ensures Valid() && View() == old(View()).Started() && running && !stopping && stage == Waiting
    {
      running, stopping, stage := true, false, Waiting;
    }

    /** The critical section of stop.  Only the call that finds the logger running will wait. */
    method RequestStop() returns (waits: bool)
      requires Valid()
      modifies this`running, this`mark
      ensures Valid() && waits == old(running) && !running
      ensures View() == if waits then old(View()).Stopped() else old(View())
    {
      waits := running;
      if running {
        running := false;
        mark := |appended|;
      }
    }

    /** The back end's first section: everything so far becomes the batch. */
    method TakeBatch()
      requires Valid() && stage == Waiting
      modifies this, repr
      ensures Valid() && fresh(repr - old(repr)) && View() == old(View()).Taken()
      ensures toWrite == old(full) + [old(current)] && full == [] && current.lines == []
      ensures stage == Writing && written == 0 && stopping == !running
    {
      View().TakenKeeps();
      Rotate();
      Swap();
      stopping := !running;
      stage := Writing;
    }

    method Swap()
      requires Owned() && toWrite == []
      modifies this`toWrite, this`full
      ensures Owned() && toWrite == old(full) && full == []
      ensures View() == old(View()).(batch := |old(full)|)
    {
      toWrite, full := full, toWrite;
      assert row == toWrite + full + [current];
    }

    /** Writes one buffer of the batch, outside the lock. */
    method WriteOne()
      requires Valid() && stage == Writing && written < |toWrite|
      modifies this`file, this`written, this`flushed
      ensures Valid() && View() == old(View()).Wrote() && written == old(written) + 1
      ensures flushed == old(flushed) + toWrite[old(written)].lines
    {
      View().WroteKeeps();
      Write();
    }

    method Write()
      requires Owned() && View().Shaped() && written < |toWrite|
      modifies this`file, this`written, this`flushed
      ensures Owned() && View() == old(View()).Wrote()
    {
      var b := toWrite[written];
      assert row[written] == b;
      var text := b.Text(rows[written]);
      if b.cur > 0 {
        file := file + text;
      }
      flushed := flushed + rows[written];
      written := written + 1;
    }

    /** The back end's second section: a written buffer becomes the spare; the round ends. */
    method Recycle()
      requires Valid() && stage == Writing && written == |toWrite| > 0
      modifies this, repr
      ensures Valid() && repr == old(repr) && View() == old(View()).Recycled()
      ensures next == if old(next) == null then old(toWrite[|toWrite| - 1]) else old(next)
      ensures toWrite == [] && stage == if stopping then Finished else Waiting
    {
      View().RecycledKeeps();
      var last := Drop();
      if next == null {
        GiveBack(last);
      }
    }

    /** The batch is done with; its last buffer is handed over. */
    method Drop() returns (last: LogBuffer)
      requires Owned() && stage == Writing && written == |toWrite| > 0
      modifies this`toWrite, this`written, this`row, this`rows, this`stage
      ensures Owned() && last == old(toWrite[|toWrite| - 1]) && next == old(next)
      ensures last in repr && last.data in repr && Apart(last, row) && last.Valid()
      ensures View() == old(View()).Recycled()
    {
      var n := |toWrite|;
      last := toWrite[n - 1];
      assert row[n - 1] == last;
      DistinctFrom(row, n, repr);
      assert row[n..] == full + [current];
      row, rows, toWrite, written := row[n..], rows[n..], [], 0;
      stage := if stopping then Finished else Waiting;
    }

    method GiveBack(b: LogBuffer)
      requires Owned() && b in repr && b.data in repr && Apart(b, row) && b.Valid()
      modifies this`next, repr
      ensures Owned() && next == b && repr == old(repr) && View() == old(View())
    {
      b.Reset();
      next := b;
    }
  }
}
