// The packets a host makes of one file: START with the name, 100-byte IN packets, a short END
// (host.c, JOB_FILE_UPLOAD_SEND).
module Uploads {
  import opened Types
  import opened Framing

  function Piece(src: Byte, dst: Byte, bytes: Bytes): Packet {
    Packet(src, dst, if |bytes| < PAYLOAD_MAX then PKT_FILE_UPLOAD_END else PKT_FILE_UPLOAD_IN, bytes)
  }

  // The packets for the part of the file still to be read.
  function Chunks(src: Byte, dst: Byte, content: Bytes): (ps: seq<Packet>)
    ensures ps != []
  {
    if |content| < PAYLOAD_MAX then [Piece(src, dst, content)]
    else [Piece(src, dst, content[..PAYLOAD_MAX])] + Chunks(src, dst, content[PAYLOAD_MAX..])
  }

  function StartPacket(src: Byte, dst: Byte, name: Bytes): Packet {
    Packet(src, dst, PKT_FILE_UPLOAD_START, name)
  }

  function Block(src: Byte, dst: Byte, name: Bytes, content: Bytes): seq<Packet> {
    [StartPacket(src, dst, name)] + Chunks(src, dst, content)
  }

  function Payloads(ps: seq<Packet>): Bytes {
    if ps == [] then [] else ps[0].payload + Payloads(ps[1..])
  }

  // The type bytes on the wire are 4 for IN and 3 for END.
  ghost predicate InThenEnd(ps: seq<Packet>, src: Byte, dst: Byte) {
    && ps != []
    && (forall i :: 0 <= i < |ps| ==> ps[i].src == src && ps[i].dst == dst)
    && (forall i :: 0 <= i < |ps| - 1 ==> ps[i].ptype == 4 && |ps[i].payload| == 100)
    && ps[|ps| - 1].ptype == 3 && |ps[|ps| - 1].payload| < 100
  }

  // Every IN is full, the END is short, nothing of the file is lost, and the file needs
  // floor(size / 100) + 1 packets after its START.
  lemma {:induction false} ChunksCoverFile(src: Byte, dst: Byte, content: Bytes)
    ensures var ps := Chunks(src, dst, content);
      && InThenEnd(ps, src, dst)
      && Payloads(ps) == content
      && |ps| == |content| / 100 + 1
      && |ps[|ps| - 1].payload| == |content| % 100
  {
    if |content| >= PAYLOAD_MAX {
      var rest := Chunks(src, dst, content[PAYLOAD_MAX..]);
      ChunksCoverFile(src, dst, content[PAYLOAD_MAX..]);
      var ps := Chunks(src, dst, content);
      assert ps[1..] == rest;
      assert forall i :: 0 < i < |ps| ==> ps[i] == rest[i - 1];
      assert content[..PAYLOAD_MAX] + content[PAYLOAD_MAX..] == content;
    } else {
      assert Chunks(src, dst, content)[1..] == [];
      assert content + [] == content;
    }
  }

  // On the wire a file is its name under type 2, full blocks under type 4 and the rest under type 3.
  lemma BlockOnWire(src: Byte, dst: Byte, name: Bytes, content: Bytes)
    ensures var ps := Block(src, dst, name, content);
      && |ps| >= 2 && ps[0] == Packet(src, dst, 2, name) && InThenEnd(ps[1..], src, dst)
      && Payloads(ps[1..]) == content
  {
    ChunksCoverFile(src, dst, content);
    assert Block(src, dst, name, content)[1..] == Chunks(src, dst, content);
  }

  // These packets are the only such sequence: any IN* END run carrying the file is this one.
  lemma {:induction false} ChunksUnique(src: Byte, dst: Byte, ps: seq<Packet>)
    requires InThenEnd(ps, src, dst)
    ensures ps == Chunks(src, dst, Payloads(ps))
  {
    var rest := ps[1..];
    if |ps| == 1 {
      assert Payloads(rest) == [];
      assert Payloads(ps) == ps[0].payload;
    } else {
      assert forall i :: 0 <= i < |rest| ==> rest[i] == ps[i + 1];
      ChunksUnique(src, dst, rest);
      assert Payloads(ps)[..PAYLOAD_MAX] == ps[0].payload;
      assert Payloads(ps)[PAYLOAD_MAX..] == Payloads(rest);
    }
  }

  lemma ChunksSized(src: Byte, dst: Byte, content: Bytes)
    ensures AllSized(Chunks(src, dst, content))
  {
    ChunksCoverFile(src, dst, content);
    var ps := Chunks(src, dst, content);
    forall i | 0 <= i < |ps|
      ensures Sized(ps[i])
    {
      assert i == |ps| - 1 || |ps[i].payload| == PAYLOAD_MAX;
    }
  }

  // The packets a run of writes and reads writes, in order.
  function WritesOf(ops: seq<PipeOp>): seq<Packet> {
    if ops == [] then [] else (if ops[0].Write? then [ops[0].packet] else []) + WritesOf(ops[1..])
  }

  // Full packets, with at most one shorter one behind them, are never written behind a short one.
  lemma {:induction false} ShortOneLast(q: seq<Packet>, ps: seq<Packet>, ops: seq<PipeOp>)
    requires forall i :: 0 <= i < |ps| - 1 ==> Full(ps[i])
    requires WritesOf(ops) <= ps && (WritesOf(ops) != [] ==> forall i :: 0 <= i < |q| ==> Full(q[i]))
    ensures NeverBehindShort(q, ops)
    decreases |ops|
  {
    if ops != [] {
      var later := WritesOf(ops[1..]);
      match ops[0]
      case Write(p) =>
        assert WritesOf(ops)[0] == p == ps[0] && WritesOf(ops)[1..] == later;
        assert later <= ps[1..];
        assert later != [] ==> Full(p);
        ShortOneLast(q + [p], ps[1..], ops[1..]);
      case Read =>
        assert later == WritesOf(ops);
        ShortOneLast(QueueStep(q, Read), ps, ops[1..]);
    }
  }

  lemma {:induction false} WritesSized(ops: seq<PipeOp>)
    requires AllSized(WritesOf(ops))
    ensures SizedOps(ops)
  {
    if ops != [] {
      var later := WritesOf(ops[1..]);
      forall i | 0 <= i < |later|
        ensures Sized(later[i])
      {
        assert later[i] == WritesOf(ops)[if ops[0].Write? then i + 1 else i];
      }
      WritesSized(ops[1..]);
      forall i | 0 <= i < |ops| && ops[i].Write?
        ensures Sized(ops[i].packet)
      {
        assert if i > 0 then ops[i] == ops[1..][i - 1] else ops[i].packet == WritesOf(ops)[0];
      }
    }
  }

  // The IN packets and the END of a file may pile up unread in a pipe: however their writes are
  // interleaved with reads, behind whatever full packets are unread already, every packet is read
  // back as it was written.
  lemma FileTailMayPileUp(src: Byte, dst: Byte, content: Bytes, q: seq<Packet>, ops: seq<PipeOp>, got: seq<Packet>)
    requires forall i :: 0 <= i < |q| ==> Full(q[i])
    requires WritesOf(ops) <= Chunks(src, dst, content)
    ensures AllSized(q) && SizedOps(ops)
    ensures Disciplined(q, ops) && Tracks(Stream(q), q, ops)
    ensures MayYield(Stream(q), ops, got) <==> got == QueueReads(q, ops)
  {
    var ps := Chunks(src, dst, content);
    ChunksCoverFile(src, dst, content);
    ChunksSized(src, dst, content);
    assert forall i :: 0 <= i < |WritesOf(ops)| ==> WritesOf(ops)[i] == ps[i];
    WritesSized(ops);
    ShortOneLast(q, ps, ops);
    NeverBehindShortSuffices(q, ops);
    RefinesQueueIff(q, ops);
    ReadsDecodeExactly(q, ops, got);
  }

  // A whole transfer may not: its START is always shorter than a read, so an IN or END written
  // behind an unread START is torn apart.
  lemma WholeTransferMayNotPileUp(src: Byte, dst: Byte, name: Bytes, content: Bytes)
    requires |name| < PAYLOAD_MAX
    ensures AllSized(Block(src, dst, name, content))
    ensures var ps := Block(src, dst, name, content);
      !Disciplined(ps, Reads(|ps|)) && !Tracks(Stream(ps), ps, Reads(|ps|))
  {
    var ps := Block(src, dst, name, content);
    ChunksSized(src, dst, content);
    assert forall i :: 0 < i < |ps| ==> ps[i] == Chunks(src, dst, content)[i - 1];
    PiledUp(ps);
    assert !Full(ps[0]);
    RefinesQueueIff(ps, Reads(|ps|));
  }
}
