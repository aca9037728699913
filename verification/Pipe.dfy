/** The in-memory duplex pipe between a flow and its client: two bounded byte queues. The
    flow's end is polled; the client's end acts by itself, whenever it likes. */
module Pipe {
  import opened Net
  import opened Tcp

  datatype WritePoll = Wrote(count: nat) | WriteFailed | WritePending
  datatype ReadPoll = Read(bytes: seq<u8>) | ReadFailed | ReadPending

  class Duplex {
    var outward: seq<u8>            // written by the flow, not yet read by the client
    var inward: seq<u8>             // written by the client, not yet read by the flow
    var eof: bool                   // the client has finished writing
    var shut: bool                  // the flow has finished writing
    ghost var written: seq<u8>      // everything the flow has written
    ghost var taken: seq<u8>        // everything the client has read
    ghost var clientWrote: seq<u8>  // everything the client has written
    ghost var read: seq<u8>         // everything the flow has read
    ghost var writeBlocked: bool    // the last write poll was pending
    ghost var shutBlocked: bool     // the last shutdown poll was pending
    ghost var readBlocked: bool     // the last read poll was pending
    ghost var broken: bool          // the last poll found the pipe unusable

    ghost predicate Valid()
      reads this
    {
      && written == taken + outward
      && clientWrote == read + inward
      && |outward| <= BUFFER_SIZE
      && |inward| <= BUFFER_SIZE
    }

    /** Nothing has gone through in either direction. */
    ghost predicate Untouched()
      reads this
    {
      written == [] && read == [] && clientWrote == [] && !eof
    }

    constructor ()
      ensures Valid() && Untouched() && !shut
    {
      outward, inward, eof, shut := [], [], false, false;
      written, taken, clientWrote, read := [], [], [], [];
      writeBlocked, shutBlocked, readBlocked, broken := false, false, false, false;
    }

    /** The client reads some of what waits for it, writes some more unless it has finished,
        and may finish. */
    method ClientActs()
      requires Valid()
      modifies `outward, `inward, `eof, `taken, `clientWrote
      ensures Valid()
      ensures old(taken) <= taken && old(clientWrote) <= clientWrote
      ensures old(eof) ==> eof && inward == old(inward) && clientWrote == old(clientWrote)
    {
      var amount: nat :| amount <= |outward|;
      outward, taken := outward[amount..], taken + outward[..amount];
      var bytes: seq<u8> := *;
      if !eof && |inward| + |bytes| <= BUFFER_SIZE {
        inward, clientWrote := inward + bytes, clientWrote + bytes;
      }
      var finishes: bool := *;
      eof := eof || finishes;
    }

    /** A write may be accepted in part, refused for now, or fail because the client is gone. */
    method PollWrite(data: seq<u8>) returns (r: WritePoll)
      requires Valid() && data != [] && !shut
      modifies `outward, `inward, `eof, `taken, `clientWrote, `written, `writeBlocked, `broken
      ensures Valid()
      ensures old(taken) <= taken && old(clientWrote) <= clientWrote
      ensures old(eof) ==> eof && inward == old(inward)
      ensures r.Wrote? ==> r.count <= |data| && written == old(written) + data[..r.count]
      ensures !r.Wrote? ==> written == old(written)
      ensures writeBlocked <==> r.WritePending?
      ensures broken <==> r.WriteFailed? || r == Wrote(0)
    {
      ClientActs();
      var count: nat :| count <= |data| && |outward| + count <= BUFFER_SIZE;
      var fails, accepts: bool := *, *;
      if fails {
        r := WriteFailed;
      } else if accepts {
        r := Wrote(count);
        outward, written := outward + data[..count], written + data[..count];
      } else {
        r := WritePending;
      }
      writeBlocked, broken := r.WritePending?, r.WriteFailed? || r == Wrote(0);
    }

    /** `Wrote(0)` stands for a finished shutdown. */
    method PollShutdown() returns (r: WritePoll)
      requires Valid() && !shut
      modifies `outward, `inward, `eof, `taken, `clientWrote, `shut, `shutBlocked, `broken
      ensures Valid()
      ensures old(taken) <= taken && old(clientWrote) <= clientWrote
      ensures old(eof) ==> eof && inward == old(inward)
      ensures shut <==> r.Wrote?
      ensures shutBlocked <==> r.WritePending?
      ensures broken <==> r.WriteFailed?
    {
      ClientActs();
      r := *;
      shut := r.Wrote?;
      shutBlocked, broken := r.WritePending?, r.WriteFailed?;
    }

    /** Reading nothing into a nonempty buffer means end of file: the client has finished and
        everything it wrote has been read. */
    method PollRead(limit: nat) returns (r: ReadPoll)
      requires Valid() && limit > 0
      modifies `outward, `inward, `eof, `taken, `clientWrote, `read, `readBlocked, `broken
      ensures Valid()
      ensures old(taken) <= taken && old(clientWrote) <= clientWrote
      ensures r.Read? ==> |r.bytes| <= limit && read == old(read) + r.bytes
      ensures r.Read? && r.bytes == [] ==> eof && inward == []
      ensures !r.Read? ==> read == old(read)
      ensures old(eof) ==> eof && |inward| <= |old(inward)|
      ensures readBlocked <==> r.ReadPending?
      ensures broken <==> r.ReadFailed?
    {
      ClientActs();
      var count: nat :| count <= limit && count <= |inward|;
      var fails: bool := *;
      if fails {
        r := ReadFailed;
      } else if count > 0 || (eof && inward == []) {
        r := Read(inward[..count]);
        read, inward := read + inward[..count], inward[count..];
      } else {
        r := ReadPending;
      }
      readBlocked, broken := r.ReadPending?, r.ReadFailed?;
    }
  }
}
