// Packets over a byte pipe (packet.c, PIPE branches): a 4-byte header and 0 to 100 payload bytes
// go out in one write; a read takes up to 104 bytes and knows nothing of packet boundaries.
module Framing {
  import opened Types

  const HEADER := 4
  const MSG_MAX := PAYLOAD_MAX + HEADER

  predicate Sized(p: Packet) {
    |p.payload| <= PAYLOAD_MAX
  }

  predicate AllSized(ps: seq<Packet>) {
    forall i :: 0 <= i < |ps| ==> Sized(ps[i])
  }

  // A packet whose encoding fills a whole read.
  predicate Full(p: Packet) {
    |p.payload| == PAYLOAD_MAX
  }

  function Encode(p: Packet): (b: Bytes)
    requires Sized(p)
    ensures |b| == |p.payload| + HEADER
  {
    [p.src, p.dst, p.ptype, |p.payload|] + p.payload
  }

  // The pipe contents after writing `ps` one after the other.
  function Stream(ps: seq<Packet>): Bytes
    requires AllSized(ps)
  {
    if ps == [] then [] else Encode(ps[0]) + Stream(ps[1..])
  }

  // One read of a non-empty pipe may hand out `p`: header and length come from the first four
  // bytes; payload bytes beyond what the read delivered are whatever the stack held.
  ghost predicate Decodes(bytes: Bytes, p: Packet) {
    && |bytes| >= HEADER
    && p.src == bytes[0] && p.dst == bytes[1] && p.ptype == bytes[2] && |p.payload| == bytes[3]
    && forall i :: 0 <= i < |p.payload| && HEADER + i < Min(|bytes|, MSG_MAX) ==> p.payload[i] == bytes[HEADER + i]
  }

  function AfterRead(bytes: Bytes): Bytes {
    bytes[Min(|bytes|, MSG_MAX)..]
  }

  // ---- The code ----

  // A non-blocking pipe.
  class Pipe {
    var bytes: Bytes

    constructor ()
      ensures bytes == []
    {
      bytes := [];
    }

    method Write(msg: array<Byte>, n: nat)
      requires n <= msg.Length
      modifies this
      ensures bytes == old(bytes) + msg[..n]
    {
      bytes := bytes + msg[..n];
    }

    method Read(msg: array<Byte>, count: nat) returns (n: int)
      requires count <= msg.Length
      modifies this, msg
      ensures old(bytes) == [] ==> n == -1 && bytes == [] && msg[..] == old(msg[..])
      ensures old(bytes) != [] ==>
        n == Min(|old(bytes)|, count) && bytes == old(bytes)[n..] && msg[..n] == old(bytes)[..n]
    {
      if bytes == [] {
        return -1;
      }
      n := Min(|bytes|, count);
      forall i | 0 <= i < n {
        msg[i] := bytes[i];
      }
      assert msg[..n] == bytes[..n];
      bytes := bytes[n..];
    }
  }

  // `struct packet`
  class PacketStruct {
    var src: Byte
    var dst: Byte
    var ptype: Byte
    var length: int
    const payload: array<Byte>

    // A packet as received: its length can be negative.
    ghost predicate Valid()
      reads this
    {
      payload.Length == PAYLOAD_MAX && length <= PAYLOAD_MAX
    }

    // The payload of a packet of negative length is empty.
    function Value(): Packet
      requires Valid()
      reads this, payload
    {
      Packet(src, dst, ptype, payload[..Max(length, 0)])
    }

    constructor ()
      ensures Valid() && length == 0 && fresh(payload)
    {
      src, dst, ptype, length := 0, 0, 0, 0;
      payload := new Byte[PAYLOAD_MAX];
    }

    // Takes over what was read.
    method Fill(msg: array<Byte>)
      requires Valid() && msg.Length == MSG_MAX && msg[3] <= PAYLOAD_MAX && msg != payload
      modifies this, payload
      ensures Valid() && length == msg[3]
      ensures Value() == Packet(msg[0], msg[1], msg[2], msg[HEADER..HEADER + Max(msg[3], 0)])
    {
      src := msg[0];
      dst := msg[1];
      ptype := msg[2];
      length := msg[3];
      for i := 0 to Max(length, 0)
        modifies payload
        invariant payload[..i] == msg[HEADER..HEADER + i]
      {
        payload[i] := msg[i + HEADER];
      }
    }
  }

  // packet_send: appends exactly the packet's encoding to the pipe; of a packet of negative length, as a
  // bad read can make one, only a part of the header.
  method PacketSend(pipe: Pipe, p: PacketStruct)
    requires p.Valid() && p.length + HEADER >= 0
    modifies pipe
    ensures pipe.bytes == old(pipe.bytes)
         + if p.length >= 0 then Encode(p.Value()) else [p.src, p.dst, p.ptype, p.length][..p.length + HEADER]
  {
    var msg := new Byte[MSG_MAX];
    msg[0] := p.src;
    msg[1] := p.dst;
    msg[2] := p.ptype;
    msg[3] := p.length;
    for i := 0 to Max(p.length, 0)
      modifies msg
      invariant msg[..HEADER + i] == [p.src, p.dst, p.ptype, p.length] + p.payload[..i]
    {
      msg[i + HEADER] := p.payload[i];
    }
    if p.length >= 0 {
      assert msg[..p.length + HEADER] == Encode(p.Value());
    } else {
      assert msg[..HEADER] == [p.src, p.dst, p.ptype, p.length];
      assert msg[..p.length + HEADER] == msg[..HEADER][..p.length + HEADER];
    }
    pipe.Write(msg, p.length + HEADER);
  }

  // packet_recv and switch_packet_recv: one read of up to 104 bytes, whatever it holds. `stack` is
  // the local array after the read: what the read did not fill is undetermined. A length byte above 100
  // makes the C code leave its arrays; here the packet is left alone then.
  method PacketRecv(pipe: Pipe, p: PacketStruct) returns (n: int, inBounds: bool, ghost stack: Bytes)
    requires p.Valid()
    modifies pipe, p, p.payload
    ensures p.Valid() && (n <= 0 <==> old(pipe.bytes) == [])
    ensures n <= 0 || !inBounds ==> p.Value() == old(p.Value()) && p.length == old(p.length)
    ensures pipe.bytes == AfterRead(old(pipe.bytes))
    ensures n > 0 ==>
      && n == Min(|old(pipe.bytes)|, MSG_MAX) && |stack| == MSG_MAX && stack[..n] == old(pipe.bytes)[..n]
      && (inBounds <==> stack[3] <= PAYLOAD_MAX)
      && (inBounds ==>
            && p.length == stack[3]
            && p.Value() == Packet(stack[0], stack[1], stack[2], stack[HEADER..HEADER + Max(stack[3], 0)]))
    ensures n >= HEADER ==>
      && (inBounds <==> old(pipe.bytes)[3] <= PAYLOAD_MAX)
      && (inBounds && p.length >= 0 ==> Decodes(old(pipe.bytes), p.Value()))
  {
    var msg := new Byte[MSG_MAX];
    hide Decodes;
    n := pipe.Read(msg, MSG_MAX);
    stack := msg[..];
    inBounds := msg[3] <= PAYLOAD_MAX;
    if n > 0 {
      ghost var head := msg[..n];
      assert head == old(pipe.bytes)[..n] == stack[..n];
      assert n >= HEADER ==> msg[3] == head[3];
      if inBounds {
        p.Fill(msg);
        if n >= HEADER && p.length >= 0 {
          CopiedPayload(old(pipe.bytes), msg[..], p.Value());
        }
      }
    }
  }

  lemma CopiedPayload(bytes: Bytes, msg: Bytes, p: Packet)
    requires |msg| == MSG_MAX && |bytes| >= HEADER && msg[..Min(|bytes|, MSG_MAX)] == bytes[..Min(|bytes|, MSG_MAX)]
    requires Sized(p) && p.src == msg[0] && p.dst == msg[1] && p.ptype == msg[2] && |p.payload| == msg[3]
    requires p.payload == msg[HEADER..HEADER + |p.payload|]
    ensures Decodes(bytes, p)
  {
    var n := Min(|bytes|, MSG_MAX);
    assert forall i :: 0 <= i < n ==> msg[i] == msg[..n][i] == bytes[..n][i] == bytes[i];
    assert forall i :: 0 <= i < |p.payload| ==> p.payload[i] == msg[HEADER + i];
  }

  // ---- When is the byte pipe a message queue? ----

  // The oldest packet is always decoded right, because its encoding lies within the first 104
  // bytes; no other decoding is possible.
  lemma HeadDecodes(ps: seq<Packet>, p: Packet)
    requires AllSized(ps) && ps != []
    ensures Decodes(Stream(ps), p) <==> p == ps[0]
  {
    var code := Encode(ps[0]);
    var bytes := Stream(ps);
    assert forall i :: 0 <= i < |code| ==> bytes[i] == code[i];
    assert forall i :: 0 <= i < |ps[0].payload| ==> code[HEADER + i] == ps[0].payload[i];
    if Decodes(bytes, p) {
      assert p.payload == ps[0].payload;
    }
  }

  // Exact condition for one read to leave the other packets intact.
  lemma ReadKeepsFraming(ps: seq<Packet>)
    requires AllSized(ps) && ps != []
    ensures AfterRead(Stream(ps)) == Stream(ps[1..]) <==> Full(ps[0]) || |ps| == 1
  {
    var code := Encode(ps[0]);
    if |ps| > 1 {
      assert |Stream(ps[1..])| >= |Encode(ps[1])| >= HEADER;
      if Full(ps[0]) {
        assert Min(|Stream(ps)|, MSG_MAX) == |code|;
        assert Stream(ps)[|code|..] == Stream(ps[1..]);
      }
    } else {
      assert ps[1..] == [];
    }
  }

  datatype PipeOp = Write(packet: Packet) | Read

  predicate SizedOps(ops: seq<PipeOp>) {
    forall i :: 0 <= i < |ops| && ops[i].Write? ==> Sized(ops[i].packet)
  }

  function ByteStep(bytes: Bytes, op: PipeOp): Bytes
    requires op.Write? ==> Sized(op.packet)
  {
    match op
    case Write(p) => bytes + Encode(p)
    case Read => AfterRead(bytes)
  }

  function QueueStep(q: seq<Packet>, op: PipeOp): seq<Packet> {
    match op
    case Write(p) => q + [p]
    case Read => if q == [] then [] else q[1..]
  }

  // At every moment of the run the pipe holds exactly the encodings of the unread packets.
  ghost predicate Tracks(bytes: Bytes, q: seq<Packet>, ops: seq<PipeOp>)
    requires AllSized(q) && SizedOps(ops)
    decreases |ops|
  {
    bytes == Stream(q) && (ops == [] || Tracks(ByteStep(bytes, ops[0]), QueueStep(q, ops[0]), ops[1..]))
  }

  // Whenever a read happens, the oldest unread packet is full-size or the only one.
  ghost predicate Disciplined(q: seq<Packet>, ops: seq<PipeOp>)
    decreases |ops|
  {
    ops == [] || ((ops[0].Read? ==> |q| <= 1 || Full(q[0])) && Disciplined(QueueStep(q, ops[0]), ops[1..]))
  }

  // No packet is ever written behind an unread packet shorter than a whole read.
  ghost predicate NeverBehindShort(q: seq<Packet>, ops: seq<PipeOp>)
    decreases |ops|
  {
    ops == [] || ((ops[0].Write? ==> forall i :: 0 <= i < |q| ==> Full(q[i]))
                  && NeverBehindShort(QueueStep(q, ops[0]), ops[1..]))
  }

  lemma {:induction false} StreamAppend(ps: seq<Packet>, p: Packet)
    requires AllSized(ps) && Sized(p)
    ensures AllSized(ps + [p]) && Stream(ps + [p]) == Stream(ps) + Encode(p)
  {
    if ps == [] {
      assert ps + [p] == [p] && [p][1..] == [];
      assert Stream([]) == [];
      assert Encode(p) + [] == Encode(p);
    } else {
      assert (ps + [p])[0] == ps[0] && (ps + [p])[1..] == ps[1..] + [p];
      StreamAppend(ps[1..], p);
      assert Encode(ps[0]) + (Stream(ps[1..]) + Encode(p)) == (Encode(ps[0]) + Stream(ps[1..])) + Encode(p);
    }
  }

  // The byte pipe refines a message queue in exactly the disciplined runs.
  lemma {:induction false} RefinesQueueIff(q: seq<Packet>, ops: seq<PipeOp>)
    requires AllSized(q) && SizedOps(ops)
    ensures Tracks(Stream(q), q, ops) <==> Disciplined(q, ops)
    decreases |ops|
  {
    if ops != [] {
      var q' := QueueStep(q, ops[0]);
      assert SizedOps(ops[1..]) && AllSized(q');
      match ops[0]
      case Write(p) =>
        StreamAppend(q, p);
        RefinesQueueIff(q', ops[1..]);
      case Read =>
        if q == [] {
          assert AfterRead([]) == [];
          RefinesQueueIff(q', ops[1..]);
        } else {
          ReadKeepsFraming(q);
          if AfterRead(Stream(q)) == Stream(q') {
            RefinesQueueIff(q', ops[1..]);
          }
        }
    }
  }

  // The packets handed out by the reads of a run: for the queue, and as a possible outcome of
  // the byte pipe (a read of an empty pipe returns nothing).
  function QueueReads(q: seq<Packet>, ops: seq<PipeOp>): seq<Packet>
    decreases |ops|
  {
    if ops == [] then []
    else (if ops[0].Read? && q != [] then [q[0]] else []) + QueueReads(QueueStep(q, ops[0]), ops[1..])
  }

  ghost predicate MayYield(bytes: Bytes, ops: seq<PipeOp>, got: seq<Packet>)
    requires SizedOps(ops)
    decreases |ops|
  {
    if ops == [] then got == []
    else if ops[0].Read? && bytes != [] then
      got != [] && Decodes(bytes, got[0]) && MayYield(AfterRead(bytes), ops[1..], got[1..])
    else MayYield(ByteStep(bytes, ops[0]), ops[1..], got)
  }

  // In a disciplined run the reads hand out exactly the written packets, in order.
  lemma {:induction false} ReadsDecodeExactly(q: seq<Packet>, ops: seq<PipeOp>, got: seq<Packet>)
    requires AllSized(q) && SizedOps(ops) && Disciplined(q, ops)
    ensures MayYield(Stream(q), ops, got) <==> got == QueueReads(q, ops)
    decreases |ops|
  {
    if ops != [] {
      var q' := QueueStep(q, ops[0]);
      assert SizedOps(ops[1..]) && AllSized(q');
      match ops[0]
      case Write(p) =>
        StreamAppend(q, p);
        ReadsDecodeExactly(q', ops[1..], got);
      case Read =>
        if q == [] {
          assert AfterRead([]) == [];
          ReadsDecodeExactly(q', ops[1..], got);
        } else {
          ReadKeepsFraming(q);
          if got != [] {
            HeadDecodes(q, got[0]);
            ReadsDecodeExactly(q', ops[1..], got[1..]);
            assert got == [got[0]] + got[1..];
          }
        }
    }
  }

  // A writer that never writes behind a short unread packet keeps every run disciplined.
  lemma {:induction false} NeverBehindShortSuffices(q: seq<Packet>, ops: seq<PipeOp>)
    requires forall i :: 0 <= i < |q| - 1 ==> Full(q[i])
    requires NeverBehindShort(q, ops)
    ensures Disciplined(q, ops)
    decreases |ops|
  {
    if ops != [] {
      NeverBehindShortSuffices(QueueStep(q, ops[0]), ops[1..]);
    }
  }

  // Packets piled up unread are all read back right if and only if all but the last are full.
  function Reads(n: nat): seq<PipeOp> {
    seq(n, _ => Read)
  }

  lemma {:induction false} PiledUp(ps: seq<Packet>)
    requires AllSized(ps)
    ensures Disciplined(ps, Reads(|ps|)) <==> forall i :: 0 <= i < |ps| - 1 ==> Full(ps[i])
  {
    if ps != [] {
      PiledUp(ps[1..]);
      assert Reads(|ps|)[1..] == Reads(|ps[1..]|);
      assert forall i :: 0 < i < |ps| ==> ps[i] == ps[1..][i - 1];
      assert forall i :: 0 <= i < |ps[1..]| ==> ps[1..][i] == ps[i + 1];
    }
  }

  // Two pings in a row before the reader comes round: the first is delivered, the second is lost.
  lemma BackToBackPingsMerge(p: Packet, q: Packet)
    requires |p.payload| == 0 && |q.payload| == 0
    ensures Decodes(Stream([p, q]), p) && AfterRead(Stream([p, q])) == []
  {
    HeadDecodes([p, q], p);
    assert [p, q][1..] == [q] && [q][1..] == [];
    assert Stream([]) == [] && |Stream([q])| == HEADER;
    assert |Stream([p, q])| == 8;
  }
}
