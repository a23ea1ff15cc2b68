/** The connection buffer: one byte array cut into a prependable, a readable and a writable
    region by two indices.  The class keeps its array exactly as the source does (growth,
    or an overlapping move to the front); its contract is that of a plain byte sequence. */
module ByteBuffer {
  import opened Basics

  const PREPEND: nat := 8          // kPrepend
  const EXTRA_BUFFER: nat := 65536 // sizeof(extrabuf)

  /** What one `readv` answers. */
  datatype ReadAnswer = Data(bytes: string) | Eof | Again | Fail

  class Buffer {
    var buf: array<char>
    var reader: nat
    var writer: nat
    ghost const initial: nat
    ghost var peak: nat // the largest readable size so far

    ghost predicate Valid()
      reads this, buf
    {
      && PREPEND <= reader <= writer <= buf.Length
      && writer - reader <= peak
      && buf.Length <= Max(PREPEND + initial, 2 * peak + PREPEND - 1)
    }

    ghost function Contents(): string
      requires Valid()
      reads this, buf
    {
      buf[reader..writer]
    }

    constructor (initial: nat)
      ensures Valid() && fresh(buf)
      ensures Contents() == "" && peak == 0 && this.initial == initial
    {
      buf := new char[PREPEND + initial];
      reader, writer := PREPEND, PREPEND;
      this.initial, peak := initial, 0;
    }

    method ReadableBytes() returns (n: nat)
      requires Valid()
      ensures n == |Contents()|
    {
      n := writer - reader;
    }

    method RetrieveAll()
      requires Valid()
      modifies this
      ensures Valid() && buf == old(buf) && peak == old(peak)
      ensures Contents() == ""
    {
      reader, writer := PREPEND, PREPEND;
    }

    /** Drops `len` bytes from the front, or everything when there are fewer. */
    method Retrieve(len: nat)
      requires Valid()
      modifies this
      ensures Valid() && buf == old(buf) && peak == old(peak)
      ensures Contents() == if len < |old(Contents())| then old(Contents())[len..] else ""
    {
      if len < writer - reader {
        reader := reader + len;
      } else {
        RetrieveAll();
      }
    }

    method RetrieveAsString(len: nat) returns (s: string)
      requires Valid() && len <= |Contents()|
      modifies this
      ensures Valid() && buf == old(buf) && peak == old(peak)
      ensures s + Contents() == old(Contents()) && |s| == len
    {
      s := buf[reader..reader + len];
      Retrieve(len);
    }

    /** The offset of the first newline in the readable region, or -1. */
    method FindEOL() returns (at: int)
      requires Valid()
      ensures -1 <= at < |Contents()|
      ensures at == -1 ==> '\n' !in Contents()
      ensures at != -1 ==> Contents()[at] == '\n' && '\n' !in Contents()[..at]
    {
      for i := 0 to writer - reader
        invariant '\n' !in buf[reader..reader + i]
      {
        if buf[reader + i] == '\n' {
          assert Contents()[..i] == buf[reader..reader + i];
          return i;
        }
      }
      at := -1;
    }

    /** Moves the readable bytes down to the prepend mark, first byte first, inside one array. */
    method MoveToFront()
      requires Valid()
      modifies this, buf
      ensures Valid() && buf == old(buf) && peak == old(peak)
      ensures Contents() == old(Contents()) && reader == PREPEND
    {
      var readable := writer - reader;
      for i := 0 to readable
        modifies buf
        invariant buf[PREPEND..PREPEND + i] == old(buf[reader..reader + i])
        invariant forall k :: reader + i <= k < writer ==> buf[k] == old(buf[k])
      {
        buf[PREPEND + i] := buf[reader + i];
      }
      reader := PREPEND;
      writer := reader + readable;
    }

    /** Enlarges the array to `size`, keeping what it held. */
    method Resize(size: nat)
      requires buf.Length <= size
      modifies this`buf
      ensures fresh(buf) && buf.Length == size
      ensures buf[..old(buf.Length)] == old(buf[..])
    {
      var grown := new char[size];
      forall i | 0 <= i < buf.Length {
        grown[i] := buf[i];
      }
      buf := grown;
    }

    /** Makes room for `len` more bytes: a move when the free space suffices, else growth. */
    method EnsureWritable(len: nat)
      requires Valid()
      modifies this, buf
      ensures Valid() && (buf == old(buf) || fresh(buf))
      ensures buf == old(buf) <==> len <= old(buf.Length - writer) || len + PREPEND <= old(buf.Length - writer + reader)
      ensures writer + len <= buf.Length && Contents() == old(Contents())
      ensures peak == Max(old(peak), |Contents()| + len)
    {
      peak := Max(peak, writer - reader + len);
      if buf.Length - writer < len {
        if buf.Length - writer + reader < len + PREPEND {
          ghost var before := buf;
          Resize(writer + len);
          assert buf != before && old(buf[..])[reader..writer] == old(buf[reader..writer]);
        } else {
          MoveToFront();
        }
      }
    }

    /** Copies `data` into the array from `at` on. */
    method Store(at: nat, data: string)
      requires at + |data| <= buf.Length
      modifies buf
      ensures buf[..at] == old(buf[..at]) && buf[at..at + |data|] == data
    {
      for i := 0 to |data|
        invariant buf[..at] == old(buf[..at]) && buf[at..at + i] == data[..i]
      {
        buf[at + i] := data[i];
      }
    }

    /** Writes `data` into the writable region, which has room for it. */
    method Fill(data: string)
      requires Valid() && writer + |data| <= buf.Length
      modifies this`writer, this`peak, buf
      ensures Valid() && Contents() == old(Contents()) + data && peak == Max(old(peak), |Contents()|)
    {
      ghost var before, mark := Contents(), writer;
      Store(writer, data);
      writer := writer + |data|;
      peak := Max(peak, writer - reader);
      assert buf[reader..mark] == before by {
        assert buf[reader..mark] == buf[..mark][reader..];
      }
      assert Contents() == buf[reader..mark] + buf[mark..writer];
    }

    method Append(data: string)
      requires Valid()
      modifies this, buf
      ensures Valid() && (buf == old(buf) || fresh(buf))
      ensures Contents() == old(Contents()) + data
      ensures peak == Max(old(peak), |Contents()|)
    {
      EnsureWritable(|data|);
      Fill(data);
    }

    /** How much one scatter read can return: the second vector joins only a small first one. */
    function ReadCapacity(): (n: nat)
      requires Valid()
      reads this, buf
      ensures n >= EXTRA_BUFFER
    {
      var writable := buf.Length - writer;
      if writable < EXTRA_BUFFER then writable + EXTRA_BUFFER else writable
    }

    /** One `readv` whose answer the kernel chose: bytes fill the writable region first, the
        overflow comes back through the stack buffer and is appended. */
    method ReadFd(answer: ReadAnswer) returns (n: int)
      requires Valid()
      requires answer.Data? ==> 0 < |answer.bytes| <= ReadCapacity()
      modifies this, buf
      ensures Valid() && (buf == old(buf) || fresh(buf))
      ensures Contents() == old(Contents()) + if answer.Data? then answer.bytes else ""
      ensures peak == Max(old(peak), |Contents()|)
      ensures n == match answer case Data(bytes) => |bytes| case Eof => 0 case _ => -1
    {
      match answer {
        case Again => n := -1;
        case Fail => n := -1;
        case Eof => n := 0;
        case Data(bytes) =>
          n := |bytes|;
          var writable := buf.Length - writer;
          var direct := if n <= writable then n else writable;
          Fill(bytes[..direct]);
          if n > writable {
            Append(bytes[direct..]);
          }
          assert bytes == bytes[..direct] + bytes[direct..];
      }
    }
  }
}
