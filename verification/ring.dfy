/**
 The ring buffer of a pipe (src/kernel/syscall/sys_io.c, fd_table.c): reads and writes of
 any length, one byte at a time around a fixed array, are the operations of a byte queue.
 */
module Ring {
  import opened Kernel

  class PipeRing {
    const data: array<byte>
    var readPos: nat
    var writePos: nat
    var count: nat

    ghost predicate Valid()
      reads this
    {
      && data.Length == PIPE_BUF && count <= PIPE_BUF
      && readPos < PIPE_BUF && writePos == (readPos + count) % PIPE_BUF
    }

    /** The queued bytes, oldest first. */
    ghost function Contents(): (s: seq<byte>)
      requires Valid()
      reads this, data
      ensures |s| == count
    {
      seq(count,
          j requires 0 <= j < count reads this, data requires data.Length == PIPE_BUF => data[(readPos + j) % PIPE_BUF])
    }

    constructor ()
      ensures Valid() && fresh(data) && Contents() == []
    {
      data := new byte[PIPE_BUF](_ => 0);
      readPos, writePos, count := 0, 0, 0;
    }

    /** pipe_alloc and pipe_release: positions and count back to zero. */
    method Reset()
      requires Valid()
      modifies this
      ensures Valid() && Contents() == []
    {
      readPos, writePos, count := 0, 0, 0;
    }

    /** One round of the write loop. */
    method PutByte(b: byte)
      requires Valid() && count < PIPE_BUF
      modifies this, data
      ensures Valid() && readPos == old(readPos) && Contents() == old(Contents()) + [b]
    {
      data[writePos] := b;
      writePos := (writePos + 1) % PIPE_BUF;
      count := count + 1;
    }

    /** One round of the read loop, the count being settled later. */
    method TakeByte() returns (b: byte)
      requires Valid() && count > 0
      modifies this
      ensures Valid() && old(Contents()) == [b] + Contents()
    {
      b := data[readPos];
      readPos := (readPos + 1) % PIPE_BUF;
      count := count - 1;
    }

    /** The write loop, until the data or the room is used up. */
    method Write(buf: seq<byte>) returns (written: nat)
      requires Valid()
      modifies this, data
      ensures Valid() && written <= |buf|
      ensures written == if |buf| <= PIPE_BUF - old(count) then |buf| else PIPE_BUF - old(count)
      ensures Contents() == old(Contents()) + buf[..written]
    {
      written := 0;
      while written < |buf| && count < PIPE_BUF
        invariant Valid() && written <= |buf| && count == old(count) + written
        invariant Contents() == old(Contents()) + buf[..written]
      {
        PutByte(buf[written]);
        written := written + 1;
        assert buf[..written] == buf[..written - 1] + [buf[written - 1]];
      }
    }

    /** The read loop: as many bytes as are there, at most `want`. */
    method Read(want: nat) returns (bytes: seq<byte>)
      requires Valid()
      modifies this
      ensures Valid() && |bytes| == if old(count) < want then old(count) else want
      ensures old(Contents()) == bytes + Contents()
    {
      var n := if count < want then count else want;
      bytes := [];
      while |bytes| < n
        invariant Valid() && |bytes| <= n && count == old(count) - |bytes|
        invariant old(Contents()) == bytes + Contents()
      {
        ghost var rest := Contents();
        var b := TakeByte();
        assert bytes + rest == (bytes + [b]) + Contents();
        bytes := bytes + [b];
      }
    }
  }
}
