/** Client connections (src/clientconnection.C): reading chunks into blocks and writing the
    printed replies with partial writes.
 */
module ClientConnections {
  import opened MessageBlocks

  /** What one non-blocking write does: how many bytes it takes, and if none, why. */
  datatype Reason = WantRead | WantWrite | Closed

  datatype Write = Write(accepts: nat, reason: Reason)

  datatype Status = Idle | PollIn | PollOut | Shut

  function StatusOf(r: Reason): Status {
    match r
    case WantRead => PollIn
    case WantWrite => PollOut
    case Closed => Shut
  }

  const NOT_READY := Write(0, WantWrite)

  function Joined(queue: seq<string>): string {
    if queue == [] then "" else queue[0] + Joined(queue[1..])
  }

  lemma {:induction false} JoinedSnoc(queue: seq<string>, raw: string)
    ensures Joined(queue + [raw]) == Joined(queue) + raw
  {
    if queue == [] {
      assert queue + [raw] == [raw] && [raw][1..] == [];
    } else {
      JoinedSnoc(queue[1..], raw);
      assert (queue + [raw])[1..] == queue[1..] + [raw];
    }
  }

  class ClientConnection {
    var message: MessageBlock?
    var writeMsg: string
    var writeProgress: nat
    var writeQueue: seq<string>
    ghost var wire: string        // every byte the socket has taken
    ghost var sent: string        // every byte handed to sendMessageBlock

    /** Nothing is lost, repeated or reordered: the bytes on the wire, the rest of the message
        being written and the queue are together what was sent. */
    ghost predicate Valid()
      reads this
    {
      && (writeMsg == "" ==> writeProgress == 0)
      && (writeMsg != "" ==> writeProgress < |writeMsg|)
      && (forall i :: 0 <= i < |writeQueue| ==> writeQueue[i] != "")
      && wire + Pending() == sent
    }

    /** The block being received; none is the same as one that has received nothing. */
    ghost function Reading(): Parser
      requires message != null ==> message.Valid()
      reads this, message
    {
      if message == null then FRESH else message.State()
    }

    ghost function Pending(): string
      requires writeProgress <= |writeMsg|
      reads this
    {
      writeMsg[writeProgress..] + Joined(writeQueue)
    }

    constructor ()
      ensures Valid() && wire == "" && sent == "" && message == null
    {
      message, writeMsg, writeProgress, writeQueue := null, "", 0, [];
      wire, sent := "", "";
    }

    method SendMessageBlock(raw: string)
      requires Valid()
      modifies this`writeQueue, this`sent
      ensures Valid() && sent == old(sent) + raw && wire == old(wire)
    {
      if raw != "" {
        JoinedSnoc(writeQueue, raw);
        writeQueue := writeQueue + [raw];
      }
      sent := sent + raw;
      assert old(wire) + (old(Pending()) + raw) == old(sent) + raw;
    }

    /** Writes until everything is written or the socket takes nothing. `socket` lists what the
        successive writes do; a list that runs out stands for a socket that is not ready. */
    method WriteData(socket: seq<Write>) returns (status: Status, ghost writes: nat)
      requires Valid()
      modifies this`writeMsg, this`writeProgress, this`writeQueue, this`wire
      ensures Valid() && old(wire) <= wire <= sent
      ensures status == Idle <==> wire == sent
      ensures writes <= |socket| && (forall j :: 0 <= j < writes ==> socket[j].accepts > 0)
      ensures |old(wire)| + writes <= |wire|
      ensures status != Idle ==>
                var last := if writes < |socket| then socket[writes] else NOT_READY;
                && last.accepts == 0
                && (status == PollOut <==> last.reason == WantWrite)
                && (status == PollIn <==> last.reason == WantRead)
                && (status == Shut <==> last.reason == Closed)
    {
      var i := 0;
      writes := 0;
      while true
        invariant 0 <= i <= |socket| && Valid() && old(wire) <= wire
        invariant writes == i && (forall j :: 0 <= j < i ==> socket[j].accepts > 0) && |old(wire)| + i <= |wire|
        decreases |Pending()|
      {
        if writeMsg == "" {
          if writeQueue == [] {
            assert Pending() == "";
            status := Idle;
            return;
          }
          assert Joined(writeQueue) == writeQueue[0] + Joined(writeQueue[1..]);
          ghost var before := Pending();
          writeMsg, writeQueue := writeQueue[0], writeQueue[1..];
          assert writeMsg[0..] == writeMsg && Pending() == before;
        }
        var remain := |writeMsg| - writeProgress;
        var w := if i < |socket| then socket[i] else NOT_READY;
        var processed := if w.accepts < remain then w.accepts else remain;
        if processed == 0 {
          assert Pending()[0] == writeMsg[writeProgress];
          status := StatusOf(w.reason);
          return;
        }
        Advance(processed);
        i := i + 1;
        writes := i;
      }
    }

    /** The socket took some bytes of the current message. */
    method Advance(processed: nat)
      requires Valid() && 0 < processed <= |writeMsg| - writeProgress
      modifies this`writeMsg, this`writeProgress, this`wire
      ensures Valid() && wire == old(wire + writeMsg[writeProgress..writeProgress + processed])
      ensures |Pending()| == |old(Pending())| - processed
    {
      ghost var rest := writeMsg[writeProgress..];
      wire := wire + rest[..processed];
      writeProgress := writeProgress + processed;
      assert writeMsg[writeProgress..] == rest[processed..];
      if writeProgress == |writeMsg| {
        writeProgress := 0;
        writeMsg := "";
      }
      assert rest == rest[..processed] + rest[processed..];
      assert old(wire) + rest[..processed] + (rest[processed..] + Joined(writeQueue)) == old(wire) + (rest + Joined(writeQueue));
    }

    /** Feeds the chunks that the socket delivers to the current block, handling each block as
        it completes; a broken block ends the connection, and nothing more is read. */
    method ReadData(chunks: seq<string>) returns (blocks: seq<Block>, ok: bool)
      requires message != null ==> message.Valid()
      requires forall i :: 0 <= i < |chunks| ==> chunks[i] != ""
      modifies this`message, message
      ensures blocks == Parse(old(Reading()), Concat(chunks)).blocks
      ensures ok <==> Parse(old(Reading()), Concat(chunks)).end.Open?
      ensures ok ==> (message != null ==> message.Valid()) && Parse(old(Reading()), Concat(chunks)).end == Open(Reading())
    {
      blocks, ok := [], true;
      for i := 0 to |chunks|
        invariant ok && (message != null ==> message.Valid() && (message == old(message) || fresh(message)))
        invariant Stream(blocks, Open(Reading())) == ParseChunks(old(Reading()), chunks[..i])
      {
        assert chunks[..i + 1][..i] == chunks[..i];
        var more;
        more, ok := ReadChunk(chunks[i]);
        blocks := blocks + more;
        if !ok {
          BrokenStays(old(Reading()), chunks, i + 1);
          return;
        }
      }
      assert chunks[..|chunks|] == chunks;
      ChunksDoNotMatter(old(Reading()), chunks);
    }

    method ReadChunk(chunk: string) returns (blocks: seq<Block>, ok: bool)
      requires message != null ==> message.Valid()
      modifies this`message, message
      ensures blocks == Parse(old(Reading()), chunk).blocks
      ensures ok <==> Parse(old(Reading()), chunk).end.Open?
      ensures ok ==> (message != null ==> message.Valid()) && Parse(old(Reading()), chunk).end == Open(Reading())
      ensures message != null ==> message == old(message) || fresh(message)
    {
      blocks := [];
      var rest := chunk;
      while rest != ""
        invariant message != null ==> message.Valid() && (message == old(message) || fresh(message))
        invariant Parse(old(Reading()), chunk) == Prepend(blocks, Parse(Reading(), rest))
        decreases |rest|
      {
        if message == null {
          message := new MessageBlock();
        }
        FeedParse(Reading(), rest);
        var res := message.AddBytes(rest);
        if res < 0 {
          return blocks, false;
        }
        if res > 0 {
          var block := Block(message.message, message.messageId, message.headers, message.content);
          PrependOne(blocks, block, Parse(FRESH, rest[res..]));
          blocks := blocks + [block];
          message, rest := null, rest[res..];
        } else {
          rest := "";
        }
      }
      ok := true;
    }
  }

  function Prepend(blocks: seq<Block>, s: Stream): Stream {
    Stream(blocks + s.blocks, s.end)
  }

  lemma PrependOne(blocks: seq<Block>, block: Block, s: Stream)
    ensures Prepend(blocks, Cons(block, s)) == Prepend(blocks + [block], s)
  {
    assert blocks + ([block] + s.blocks) == blocks + [block] + s.blocks;
  }

  /** After a failure the chunks that follow change nothing but the unread bytes. */
  lemma {:induction false} BrokenStays(p: Parser, chunks: seq<string>, i: nat)
    requires i <= |chunks| && ParseChunks(p, chunks[..i]).end.Broken?
    ensures Parse(p, Concat(chunks)).blocks == ParseChunks(p, chunks[..i]).blocks
    ensures Parse(p, Concat(chunks)).end.Broken?
    decreases |chunks| - i
  {
    if i == |chunks| {
      assert chunks[..i] == chunks;
      ChunksDoNotMatter(p, chunks);
    } else {
      assert chunks[..i + 1][..i] == chunks[..i];
      BrokenStays(p, chunks, i + 1);
    }
  }

  /** The whole way: blocks printed and sent on one side, however the socket cuts the writes and
      the reads, arrive in order and unchanged on the other. `wire` is what has been written so
      far of what was sent, and `chunks` how it was read. */
  lemma EndToEnd(bs: seq<Block>, orders: seq<seq<string>>, wire: string, sent: string, chunks: seq<string>)
    requires |bs| == |orders| && forall i :: 0 <= i < |bs| ==> OrderOf(orders[i], bs[i].headers) && WellFormed(bs[i])
    requires sent == Raws(bs, orders) && wire <= sent && Concat(chunks) == wire
    ensures Parse(FRESH, Concat(chunks)).end.Open?
    ensures Parse(FRESH, Concat(chunks)).blocks <= bs
    ensures wire == sent ==> Parse(FRESH, Concat(chunks)) == Stream(bs, Open(FRESH))
  {
    assert wire + sent[|wire|..] == sent;
    PrefixParses(bs, orders, chunks, sent[|wire|..]);
    ChunksDoNotMatter(FRESH, chunks);
  }
}
