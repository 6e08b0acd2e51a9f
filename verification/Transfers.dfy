// Whole file transfers: what a sender's packet stream consists of and what a receiver's upload
// buffer makes of it.
module Transfers {
  import opened Types
  import opened Commands
  import opened FileBuffer
  import opened Uploads
  import opened Hosts
  import opened HostLogs

  // ---- The sender ----

  function DestOf(u: Unit): Byte {
    match u case Transfer(dst, _, _) => dst case Single(p) => p.dst
  }

  function GoesTo(d: Byte): Unit -> bool {
    (u: Unit) => DestOf(u) == d
  }

  predicate IsTransfer(u: Unit) {
    u.Transfer?
  }

  // The files a host has undertaken to send to `d`.
  function TransfersTo(units: seq<Unit>, d: Byte): seq<Unit> {
    Filter(Filter(units, GoesTo(d)), IsTransfer)
  }

  lemma AllTransfers(units: seq<Unit>, d: Byte)
    ensures forall i :: 0 <= i < |TransfersTo(units, d)| ==> TransfersTo(units, d)[i].Transfer?
  {
    var ts := TransfersTo(units, d);
    forall i | 0 <= i < |ts|
      ensures ts[i].Transfer?
    {
      FilterMember(Filter(units, GoesTo(d)), IsTransfer, ts[i]);
    }
  }

  lemma UnitPacketsUniform(id: Byte, u: Unit)
    requires GoodUnit(id, u)
    ensures forall i :: 0 <= i < |UnitPackets(id, u)| ==>
      var p := UnitPackets(id, u)[i]; p.src == id && p.dst == DestOf(u) && (IsFilePacket(p) <==> IsTransfer(u))
  {
    if u.Transfer? {
      BlockSource(id, u.dst, u.name, u.content);
    }
  }

  // Picking out one destination's packets never splits a transfer: what is left is the
  // concatenation of the whole units for that destination.
  lemma {:induction false} DestinationKeepsUnits(id: Byte, units: seq<Unit>, d: Byte)
    requires forall i :: 0 <= i < |units| ==> GoodUnit(id, units[i])
    ensures Filter(AllPackets(id, units), Between(id, d)) == AllPackets(id, Filter(units, GoesTo(d)))
  {
    if units != [] {
      var ps := UnitPackets(id, units[0]);
      UnitPacketsUniform(id, units[0]);
      FilterConcat(ps, AllPackets(id, units[1..]), Between(id, d));
      DestinationKeepsUnits(id, units[1..], d);
      if DestOf(units[0]) == d {
        FilterAll(ps, Between(id, d));
        var kept := Filter(units[1..], GoesTo(d));
        assert ([units[0]] + kept)[1..] == kept;
      } else {
        FilterNone(ps, Between(id, d));
        assert Filter(units, GoesTo(d)) == Filter(units[1..], GoesTo(d));
      }
    }
  }

  lemma {:induction false} FilesAreTransfers(id: Byte, units: seq<Unit>)
    requires forall i :: 0 <= i < |units| ==> GoodUnit(id, units[i])
    ensures FilePacketsOf(AllPackets(id, units)) == AllPackets(id, Filter(units, IsTransfer))
  {
    if units != [] {
      var ps := UnitPackets(id, units[0]);
      UnitPacketsUniform(id, units[0]);
      FilterConcat(ps, AllPackets(id, units[1..]), IsFilePacket);
      FilesAreTransfers(id, units[1..]);
      if units[0].Transfer? {
        FilterAll(ps, IsFilePacket);
        var kept := Filter(units[1..], IsTransfer);
        assert ([units[0]] + kept)[1..] == kept;
      } else {
        FilterNone(ps, IsFilePacket);
        assert Filter(units, IsTransfer) == Filter(units[1..], IsTransfer);
      }
    }
  }

  // The file packets a host has undertaken to send to `d` are its transfers to `d`, whole and in
  // order; those already sent are a prefix of them.
  lemma SentFilesArePrefix(l: Logged, d: Byte)
    requires LogInv(l)
    ensures FilePacketsOf(Filter(l.sent, Between(l.h.id, d))) <= AllPackets(l.h.id, TransfersTo(l.units, d))
  {
    var id := l.h.id;
    var units := Filter(l.units, GoesTo(d));
    DestinationKeepsUnits(id, l.units, d);
    forall i | 0 <= i < |units|
      ensures GoodUnit(id, units[i])
    {
      FilterMember(l.units, GoesTo(d), units[i]);
    }
    FilesAreTransfers(id, units);
    FilterPrefix(l.sent, AllPackets(id, l.units), Between(id, d));
    FilterPrefix(Filter(l.sent, Between(id, d)), AllPackets(id, units), IsFilePacket);
  }

  // Asking b for a file makes b do exactly what its own manager's command to upload that file to
  // the asking host would: the request b accepts is the one the download command queued.
  lemma DownloadIsUploadByPeer(a: Host, b: Host, name: Bytes)
    requires IsWord(name) && 0 <= b.id
    ensures var request := OnCommand(a, Download(b.id, name)).0.jobs[|a.jobs|].packet;
      request.src == a.id && OnPacket(b, request) == OnCommand(b, Upload(a.id, name)).0
  {
    NoTerminator(name);
  }

  // ---- The receiver ----

  // The payload bytes that arrived since the last START or the last END that was written out.
  function Collected(events: seq<FileEvent>): Bytes {
    if events == [] then []
    else
      var e := events[|events| - 1];
      if e.packet.ptype == PKT_FILE_UPLOAD_START || Drains(e) then []
      else Collected(events[..|events| - 1]) + e.packet.payload
  }

  // Whatever the order of START, IN and END jobs, the buffer holds the first 1000 bytes of them.
  lemma {:induction false} BufferHoldsFirst1000(events: seq<FileEvent>)
    ensures Replay(NOTHING, events).bytes == Take(Collected(events), 1000)
  {
    if events != [] {
      var before, e := events[..|events| - 1], events[|events| - 1];
      BufferHoldsFirst1000(before);
      assert events == before + [e];
      ReplayConcat(NOTHING, before, [e]);
      assert [e][1..] == [];
      assert Replay(Replay(NOTHING, before), [e]) == ReplayOne(Replay(NOTHING, before), e);
      OfferTwice(Collected(before), e.packet.payload);
    }
  }

  predicate IsEnd(e: FileEvent) {
    e.packet.ptype == PKT_FILE_UPLOAD_END
  }

  function Ends(events: seq<FileEvent>): seq<FileEvent> {
    Filter(events, IsEnd)
  }

  // An END event wrote this content to the file "./directory/name", or nothing when there was no directory
  // or the file did not open.
  predicate WritesFile(e: FileEvent, name: Bytes, content: Bytes) {
    if e.dir.Some? && e.writable then
      e.file.Some? && IsPathOf(e.file.value.path, e.dir.value, name) && e.file.value.content == content
    else e.file == None
  }

  // The END event of transfer `t` wrote the first 1000 bytes of the source under the name of the transfer.
  predicate Delivers(e: FileEvent, t: Unit)
    requires t.Transfer?
  {
    WritesFile(e, CString(t.name), Take(t.content, 1000))
  }

  lemma WrittenAsNamed(u: Buffer, e: FileEvent)
    requires e.file == Written(u, e) && IsEnd(e)
    ensures WritesFile(e, CString(u.name), Offer(u.bytes, e.packet.payload))
  {
    if Drains(e) {
      PathText(e.dir.value, CString(u.name));
    }
  }

  // The END of a transfer, when `done` bytes have come in before.
  lemma EndReceived(u: Buffer, e: FileEvent, src: Byte, dst: Byte, done: Bytes, content: Bytes)
    requires |content| < PAYLOAD_MAX && e.packet == Piece(src, dst, content)
    requires u.bytes == Take(done, MAX_FILE_BUFFER) && e.file == Written(u, e)
    ensures Ends([e]) == [e] && Delivers(e, Transfer(dst, u.name, done + content))
  {
    OfferTwice(done, content);
    WrittenAsNamed(u, e);
    assert [e][1..] == [] && IsEnd([e][0]);
    assert Ends([e]) == [e] + Ends([e][1..]);
  }

  lemma InReceived(u: Buffer, e: FileEvent, src: Byte, dst: Byte, done: Bytes, piece: Bytes)
    requires |piece| == PAYLOAD_MAX && e.packet == Piece(src, dst, piece)
    requires u.bytes == Take(done, MAX_FILE_BUFFER)
    ensures ReplayOne(u, e) == Buffer(u.name, Take(done + piece, MAX_FILE_BUFFER)) && !IsEnd(e)
  {
    OfferTwice(done, piece);
  }

  // The part of a transfer after its START.
  lemma {:induction false} ChunksReceived(u: Buffer, events: seq<FileEvent>, src: Byte, dst: Byte, done: Bytes,
        content: Bytes)
    requires EventPackets(events) == Chunks(src, dst, content)
    requires u.bytes == Take(done, MAX_FILE_BUFFER) && AllWritten(u, events)
    ensures events != [] && Ends(events) == [events[|events| - 1]]
    ensures Delivers(events[|events| - 1], Transfer(dst, u.name, done + content))
    decreases |content|
  {
    hide ReplayOne, Written, Delivers, IsEnd, Take, Piece;
    var e, later := events[0], events[1..];
    assert e.packet == EventPackets(events)[0];
    assert EventPackets(later) == EventPackets(events)[1..];
    if |content| < PAYLOAD_MAX {
      assert events == [e];
      EndReceived(u, e, src, dst, done, content);
    } else {
      var piece, rest := content[..PAYLOAD_MAX], content[PAYLOAD_MAX..];
      InReceived(u, e, src, dst, done, piece);
      ChunksReceived(ReplayOne(u, e), later, src, dst, done + piece, rest);
      assert Ends(events) == Ends(later);
      assert (done + piece) + rest == done + content;
    }
  }

  lemma TransferReceived(u: Buffer, events: seq<FileEvent>, id: Byte, t: Unit)
    requires t.Transfer? && EventPackets(events) == UnitPackets(id, t) && AllWritten(u, events)
    ensures events != [] && Ends(events) == [events[|events| - 1]]
    ensures Delivers(events[|events| - 1], t)
  {
    var e := events[0];
    assert e.packet == EventPackets(events)[0] == StartPacket(id, t.dst, t.name);
    assert EventPackets(events[1..]) == EventPackets(events)[1..] == Chunks(id, t.dst, t.content);
    ChunksReceived(ReplayOne(u, e), events[1..], id, t.dst, [], t.content);
    assert [] + t.content == t.content;
  }

  // ---- Any number of senders ----

  // The name in the last START, whoever sent it.
  function LastStarted(events: seq<FileEvent>): Bytes {
    if events == [] then []
    else
      var e := events[|events| - 1];
      if e.packet.ptype == PKT_FILE_UPLOAD_START then e.packet.payload else LastStarted(events[..|events| - 1])
  }

  lemma {:induction false} BufferHoldsLastName(events: seq<FileEvent>)
    ensures Replay(NOTHING, events).name == LastStarted(events)
  {
    if events != [] {
      var before, e := events[..|events| - 1], events[|events| - 1];
      BufferHoldsLastName(before);
      assert events == before + [e];
      ReplayConcat(NOTHING, before, [e]);
      assert [e][1..] == [];
      assert Replay(Replay(NOTHING, before), [e]) == ReplayOne(Replay(NOTHING, before), e);
    }
  }

  // What any END writes, however the packets of different senders are mixed: the name of the last START
  // and the first 1000 bytes that came in since the last START or the last END that was written out.
  lemma EveryEndWrites(l: Logged, k: nat)
    requires LogInv(l) && k < |l.events| && IsEnd(l.events[k])
    ensures var before, e := l.events[..k], l.events[k];
      WritesFile(e, CString(LastStarted(before)), Take(Collected(before) + e.packet.payload, 1000))
  {
    var before, e := l.events[..k], l.events[k];
    assert AllWritten(NOTHING, l.events);
    hide LogInv;
    assert l.events == before + l.events[k..];
    ReplayConcat(NOTHING, before, l.events[k..]);
    BufferHoldsFirst1000(before);
    BufferHoldsLastName(before);
    OfferTwice(Collected(before), e.packet.payload);
    WrittenAsNamed(Replay(NOTHING, before), e);
  }

  // If the file packets a host has accepted from some START to some END are one transfer, whole and
  // without another sender's packets in between, that END delivers it.
  lemma UninterruptedDelivers(l: Logged, i: nat, j: nat, src: Byte, t: Unit)
    requires LogInv(l) && t.Transfer? && i < j <= |l.events|
    requires j <= |FilePacketsOf(l.accepted)| && FilePacketsOf(l.accepted)[i..j] == UnitPackets(src, t)
    ensures Ends(l.events[i..j]) == [l.events[j - 1]] && Delivers(l.events[j - 1], t)
  {
    var before, mine, later := l.events[..i], l.events[i..j], l.events[j..];
    assert FilesInOrder(l) && AllWritten(NOTHING, l.events);
    hide *;
    PacketsBetween(l, i, j);
    assert l.events == before + (mine + later);
    ReplayConcat(NOTHING, before, mine + later);
    ReplayConcat(Replay(NOTHING, before), mine, later);
    TransferReceived(Replay(NOTHING, before), mine, src, t);
  }

  lemma PacketsBetween(l: Logged, i: nat, j: nat)
    requires FilesInOrder(l) && i <= j <= |l.events|
    ensures j <= |FilePacketsOf(l.accepted)| && EventPackets(l.events[i..j]) == FilePacketsOf(l.accepted)[i..j]
  {
    hide FilePacketsOf, Pending;
    assert EventPackets(l.events[i..j]) == EventPackets(l.events)[i..j];
  }

  // ---- Whose transfer it is ----

  predicate IsStartPacket(p: Packet) {
    p.ptype == PKT_FILE_UPLOAD_START
  }

  predicate IsEndPacket(p: Packet) {
    p.ptype == PKT_FILE_UPLOAD_END
  }

  function EndsIn(ps: seq<Packet>): nat {
    |Filter(ps, IsEndPacket)|
  }

  // From number a on, these packets are a START and everything up to the first END after it.
  predicate StartToEnd(ps: seq<Packet>, a: nat, b: nat) {
    && a < b <= |ps| && IsStartPacket(ps[a]) && IsEndPacket(ps[b - 1])
    && forall i :: a <= i < b - 1 ==> !IsEndPacket(ps[i])
  }

  // A START first, an END last, and no other.
  predicate OneBlock(ps: seq<Packet>) {
    && |ps| >= 2 && IsStartPacket(ps[0]) && IsEndPacket(ps[|ps| - 1])
    && (forall i :: 0 < i < |ps| ==> !IsStartPacket(ps[i])) && (forall i :: 0 <= i < |ps| - 1 ==> !IsEndPacket(ps[i]))
  }

  lemma TransferIsBlock(id: Byte, t: Unit)
    requires t.Transfer?
    ensures OneBlock(UnitPackets(id, t))
  {
    ChunksCoverFile(id, t.dst, t.content);
    var chunks := Chunks(id, t.dst, t.content);
    assert UnitPackets(id, t) == [StartPacket(id, t.dst, t.name)] + chunks;
    hide UnitPackets, Block, Chunks, Payloads;
    ChunksAreBlock(StartPacket(id, t.dst, t.name), chunks, id, t.dst);
  }

  // Whole transfers are like that.
  lemma TransferIsStartToEnd(id: Byte, t: Unit)
    requires t.Transfer?
    ensures StartToEnd(UnitPackets(id, t), 0, |UnitPackets(id, t)|)
  {
    TransferIsBlock(id, t);
    hide UnitPackets, IsStartPacket, IsEndPacket;
  }

  lemma ChunksAreBlock(start: Packet, chunks: seq<Packet>, src: Byte, dst: Byte)
    requires IsStartPacket(start) && InThenEnd(chunks, src, dst)
    ensures OneBlock([start] + chunks)
  {
    var ps := [start] + chunks;
    assert forall i :: 0 < i < |ps| ==> ps[i] == chunks[i - 1];
  }

  lemma BlockHasOneEnd(ps: seq<Packet>)
    requires OneBlock(ps)
    ensures EndsIn(ps) == 1
  {
    var front, last := ps[..|ps| - 1], ps[|ps| - 1..];
    assert ps == front + last;
    FilterConcat(front, last, IsEndPacket);
    FilterNone(front, IsEndPacket);
    FilterAll(last, IsEndPacket);
  }

  lemma AtFirstBlock(first: seq<Packet>, later: seq<Packet>, ps: seq<Packet>, b: nat)
    requires OneBlock(first) && ps <= first + later && StartToEnd(ps, 0, b)
    ensures 0 < b <= |ps| && ps[0..b] == first
  {
    assert forall i :: 0 <= i < |first| && i < |ps| ==> ps[i] == first[i];
    hide IsStartPacket, IsEndPacket;
  }

  lemma PastFirstBlock(first: seq<Packet>, later: seq<Packet>, ps: seq<Packet>, a: nat, b: nat)
    requires OneBlock(first) && ps <= first + later && StartToEnd(ps, a, b) && a > 0
    ensures |first| <= a < b <= |ps| && ps[|first|..] <= later && StartToEnd(ps[|first|..], a - |first|, b - |first|)
    ensures ps[..a] == first + ps[|first|..][..a - |first|]
    ensures ps[a..b] == ps[|first|..][a - |first|..b - |first|]
  {
    assert forall i :: 0 <= i < |first| && i < |ps| ==> ps[i] == first[i];
    hide IsStartPacket, IsEndPacket;
    var rest := ps[|first|..];
    assert forall i :: 0 <= i < |rest| ==> rest[i] == ps[|first| + i];
  }

  // In a sequence of whole transfers, cut off anywhere, what reaches from a START to the first END after it
  // is one transfer: the one whose number is the number of ENDs before.
  lemma {:induction false} StartToEndIsTransfer(id: Byte, ts: seq<Unit>, ps: seq<Packet>, a: nat, b: nat)
    requires forall i :: 0 <= i < |ts| ==> ts[i].Transfer?
    requires ps <= AllPackets(id, ts) && StartToEnd(ps, a, b)
    ensures EndsIn(ps[..a]) < |ts| && ps[a..b] == UnitPackets(id, ts[EndsIn(ps[..a])])
    decreases |ts|
  {
    hide *;
    SomeTransfer(id, ts, ps, a, b);
    var first, later := UnitPackets(id, ts[0]), AllPackets(id, ts[1..]);
    TransferIsBlock(id, ts[0]);
    if a == 0 {
      AtFirstBlock(first, later, ps, b);
      NoEndsYet(ps);
    } else {
      PastFirstBlock(first, later, ps, a, b);
      var n := |first|;
      var before := ps[n..][..a - n];
      StartToEndIsTransfer(id, ts[1..], ps[n..], a - n, b - n);
      BlockHasOneEnd(first);
      EndsAdd(first, before);
      assert EndsIn(ps[..a]) == EndsIn(before) + 1 && ts[1..][EndsIn(before)] == ts[EndsIn(before) + 1];
    }
  }

  lemma SomeTransfer(id: Byte, ts: seq<Unit>, ps: seq<Packet>, a: nat, b: nat)
    requires ps <= AllPackets(id, ts) && StartToEnd(ps, a, b)
    ensures ts != [] && AllPackets(id, ts) == UnitPackets(id, ts[0]) + AllPackets(id, ts[1..]) && a < b <= |ps|
  {
    hide UnitPackets;
  }

  lemma NoEndsYet(ps: seq<Packet>)
    ensures EndsIn(ps[..0]) == 0
  {
  }

  lemma EndsAdd(a: seq<Packet>, b: seq<Packet>)
    ensures EndsIn(a + b) == EndsIn(a) + EndsIn(b)
  {
    FilterConcat(a, b, IsEndPacket);
  }

  // Two senders whose STARTs come before the rest of the first one's file: that file is written under
  // the other's name.
  lemma OverlapMixes(u: Buffer, events: seq<FileEvent>, a: Byte, b: Byte, dst: Byte, nameA: Bytes, nameB: Bytes,
                     content: Bytes)
    requires AllWritten(u, events)
    requires EventPackets(events) == [StartPacket(a, dst, nameA), StartPacket(b, dst, nameB)] + Chunks(a, dst, content)
    ensures Ends(events) == [events[|events| - 1]]
    ensures Delivers(events[|events| - 1], Transfer(dst, nameB, content))
  {
    var rest := events[2..];
    assert events[0].packet == EventPackets(events)[0] && events[1].packet == EventPackets(events)[1];
    assert EventPackets(rest) == EventPackets(events)[2..] == Chunks(a, dst, content);
    assert events[1..][0] == events[1] && events[1..][1..] == rest;
    ChunksReceived(ReplayOne(ReplayOne(u, events[0]), events[1]), rest, a, dst, [], content);
    assert [] + content == content;
    assert Ends(events[1..]) == Ends(rest) && Ends(events) == Ends(events[1..]);
  }

  // An unfinished transfer has no END.
  lemma NoEndYet(events: seq<FileEvent>, id: Byte, t: Unit)
    requires t.Transfer? && EventPackets(events) < UnitPackets(id, t)
    ensures Ends(events) == []
  {
    ChunksCoverFile(id, t.dst, t.content);
    var ps := Chunks(id, t.dst, t.content);
    forall i | 0 <= i < |events|
      ensures !IsEnd(events[i])
    {
      assert events[i].packet == EventPackets(events)[i] == UnitPackets(id, t)[i];
      assert i > 0 ==> UnitPackets(id, t)[i] == ps[i - 1];
    }
    FilterNone(events, IsEnd);
  }

  lemma ShorterPrefix(a: seq<Packet>, first: seq<Packet>, later: seq<Packet>)
    requires a <= first + later && |a| < |first|
    ensures a < first
  {
    assert (first + later)[..|a|] == first[..|a|];
  }

  // Cutting the events of a prefix of a packet stream where the first unit ends.
  lemma CutEvents(u: Buffer, events: seq<FileEvent>, first: seq<Packet>, later: seq<Packet>)
    requires EventPackets(events) <= first + later && |first| <= |events| && AllWritten(u, events)
    ensures var mine := events[..|first|];
      && EventPackets(mine) == first && AllWritten(u, mine)
      && EventPackets(events[|first|..]) <= later && AllWritten(Replay(u, mine), events[|first|..])
      && Ends(events) == Ends(mine) + Ends(events[|first|..])
  {
    var mine, rest := events[..|first|], events[|first|..];
    assert events == mine + rest;
    ReplayConcat(u, mine, rest);
    FilterConcat(mine, rest, IsEnd);
    assert EventPackets(mine) == EventPackets(events)[..|first|] == (first + later)[..|first|];
    assert EventPackets(rest) == EventPackets(events)[|first|..];
    assert (first + later)[|first|..] == later;
  }

  // Whatever prefix of a sequence of transfers has been processed, the i-th END belongs to the
  // i-th transfer and delivers it.
  lemma {:induction false} EveryEndDelivers(u: Buffer, events: seq<FileEvent>, id: Byte, ts: seq<Unit>)
    requires forall i :: 0 <= i < |ts| ==> ts[i].Transfer?
    requires EventPackets(events) <= AllPackets(id, ts) && AllWritten(u, events)
    ensures |Ends(events)| <= |ts|
    ensures forall i :: 0 <= i < |Ends(events)| ==> Delivers(Ends(events)[i], ts[i])
    decreases |ts|
  {
    if ts == [] {
      assert events == [];
    } else {
      var first, later := UnitPackets(id, ts[0]), AllPackets(id, ts[1..]);
      hide AllWritten, Replay, EventPackets, UnitPackets, Filter, Delivers, IsEnd, AllPackets;
      if |events| < |first| {
        ShorterPrefix(EventPackets(events), first, later);
        NoEndYet(events, id, ts[0]);
      } else {
        CutEvents(u, events, first, later);
        var mine := events[..|first|];
        TransferReceived(u, mine, id, ts[0]);
        EveryEndDelivers(Replay(u, mine), events[|first|..], id, ts[1..]);
      }
    }
  }
}
