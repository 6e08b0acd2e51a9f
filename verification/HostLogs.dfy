// A host together with what it has sent, accepted and done so far, and what every step keeps.
module HostLogs {
  import opened Types
  import opened Commands
  import opened FileBuffer
  import opened Uploads
  import opened Hosts

  // What a host undertakes to send in one go: a whole file or a single packet.
  datatype Unit = Transfer(dst: Byte, name: Bytes, content: Bytes) | Single(packet: Packet)

  // One executed START, IN or END job.
  datatype FileEvent = FileEvent(packet: Packet, dir: Option<Bytes>, writable: bool, file: Option<File>)

  // What happened at a host, in order: commands executed, packets accepted, jobs executed, replies written.
  datatype Note = Did(c: Command) | Got(p: Packet) | Ran(job: Job, disk: Disk) | Told(r: Reply)

  datatype Logged = Logged(h: Host, units: seq<Unit>, sent: seq<Packet>, accepted: seq<Packet>,
                           events: seq<FileEvent>, notes: seq<Note>)

  datatype HostStep = DoCommand(c: Command) | TakePacket(p: Packet) | RunJob(disk: Disk)

  // A host with nothing in its logs.
  function Unlogged(h: Host): Logged {
    Logged(h, [], [], [], [], [])
  }

  function UnitPackets(id: Byte, u: Unit): seq<Packet> {
    match u
    case Transfer(dst, name, content) => Block(id, dst, name, content)
    case Single(p) => [p]
  }

  function AllPackets(id: Byte, units: seq<Unit>): seq<Packet> {
    if units == [] then [] else UnitPackets(id, units[0]) + AllPackets(id, units[1..])
  }

  // The packets waiting in send jobs, and the file packets waiting in receive jobs.
  function ToSend(j: Job): seq<Packet> {
    match j case SendPacket(p) => [p] case _ => []
  }

  function ToFile(j: Job): seq<Packet> {
    match j case FileStart(p) => [p] case FileIn(p) => [p] case FileEnd(p) => [p] case _ => []
  }

  function Pending(jobs: seq<Job>, part: Job -> seq<Packet>): seq<Packet> {
    if jobs == [] then [] else part(jobs[0]) + Pending(jobs[1..], part)
  }

  function UnitsOfCommand(h: Host, c: Command): seq<Unit> {
    match c
    case Ping(dst) => [Single(Packet(h.id, ToChar(dst), PKT_PING_REQ, []))]
    case Download(dst, name) => [Single(Packet(h.id, ToChar(dst), PKT_FILE_DOWNLOAD_REQ, name))]
    case _ => []
  }

  function UnitsOfJob(h: Host, j: Job, disk: Disk): seq<Unit> {
    match j
    case PingSendReply(p) => [Single(Packet(h.id, p.src, PKT_PING_REPLY, []))]
    case FileSend(dst, name) =>
      var content := Source(h.dir, name, disk);
      if content.Some? then [Transfer(ToChar(dst), name, content.value)] else []
    case _ => []
  }

  function EventsOfJob(h: Host, j: Job, disk: Disk): seq<FileEvent> {
    if ToFile(j) == [] then [] else [FileEvent(ToFile(j)[0], h.dir, disk.writable, Execute(h, j, disk).1.file)]
  }

  function ReplyNotes(r: Option<Reply>): seq<Note> {
    if r.Some? then [Told(r.value)] else []
  }

  function NewNotes(h: Host, s: HostStep): seq<Note> {
    match s
    case DoCommand(c) => [Did(c)] + ReplyNotes(OnCommand(h, c).1)
    case TakePacket(p) => if p.dst == h.id then [Got(p)] else []
    case RunJob(disk) => if h.jobs == [] then [] else [Ran(h.jobs[0], disk)] + ReplyNotes(OnJob(h, disk).1.reply)
  }

  function AfterJob(l: Logged, disk: Disk): Logged {
    if l.h.jobs == [] then l
    else
      var j := l.h.jobs[0];
      Logged(OnJob(l.h, disk).0, l.units + UnitsOfJob(l.h, j, disk), l.sent + ToSend(j), l.accepted,
             l.events + EventsOfJob(l.h, j, disk), l.notes + NewNotes(l.h, RunJob(disk)))
  }

  function After(l: Logged, s: HostStep): Logged {
    match s
    case DoCommand(c) =>
      l.(h := OnCommand(l.h, c).0, units := l.units + UnitsOfCommand(l.h, c), notes := l.notes + NewNotes(l.h, s))
    case TakePacket(p) =>
      l.(h := OnPacket(l.h, p), accepted := if p.dst == l.h.id then l.accepted + [p] else l.accepted,
         notes := l.notes + NewNotes(l.h, s))
    case RunJob(disk) => AfterJob(l, disk)
  }

  ghost predicate InitialLog(l: Logged, id: Byte) {
    InitialHost(l.h, id) && l.units == [] && l.sent == [] && l.accepted == [] && l.events == [] && l.notes == []
  }

  // ---- The upload buffer, replayed from the events ----

  datatype Buffer = Buffer(name: Bytes, bytes: Bytes)

  function Drains(e: FileEvent): bool {
    e.packet.ptype == PKT_FILE_UPLOAD_END && e.dir.Some? && e.writable
  }

  function Replay(u: Buffer, events: seq<FileEvent>): Buffer
    decreases |events|
  {
    if events == [] then u else Replay(ReplayOne(u, events[0]), events[1..])
  }

  function ReplayOne(u: Buffer, e: FileEvent): Buffer {
    if e.packet.ptype == PKT_FILE_UPLOAD_START then Buffer(e.packet.payload, [])
    else if Drains(e) then u.(bytes := [])
    else u.(bytes := Offer(u.bytes, e.packet.payload))
  }

  // The file an event should write.
  function Written(u: Buffer, e: FileEvent): Option<File> {
    if Drains(e) then Some(File(Path(e.dir.value, CString(u.name)), Offer(u.bytes, e.packet.payload))) else None
  }

  ghost predicate AllWritten(u: Buffer, events: seq<FileEvent>)
    decreases |events|
  {
    events == [] || (events[0].file == Written(u, events[0]) && AllWritten(ReplayOne(u, events[0]), events[1..]))
  }

  function EventPackets(events: seq<FileEvent>): (ps: seq<Packet>)
    ensures |ps| == |events| && forall i :: 0 <= i < |ps| ==> ps[i] == events[i].packet
  {
    seq(|events|, i requires 0 <= i < |events| => events[i].packet)
  }

  const NOTHING := Buffer([], [])

  // ---- Ping bookkeeping ----

  function Count(ps: seq<Packet>, src: Byte, dst: Byte, ptype: Byte): nat {
    if ps == [] then 0
    else
      (if ps[0].src == src && ps[0].dst == dst && ps[0].ptype == ptype then 1 else 0)
      + Count(ps[1..], src, dst, ptype)
  }

  // Ping requests of `s` whose reply job has not run yet.
  function ReplyJobs(jobs: seq<Job>, s: Byte): nat {
    if jobs == [] then 0
    else (if jobs[0].PingSendReply? && jobs[0].packet.src == s then 1 else 0) + ReplyJobs(jobs[1..], s)
  }

  // ---- The invariant ----

  function FilePacketsOf(ps: seq<Packet>): seq<Packet> {
    Filter(ps, IsFilePacket)
  }

  // Jobs made from received packets carry the packet type they are named after.
  predicate GoodJob(id: Byte, j: Job) {
    match j
    case SendPacket(p) => p.src == id
    case PingSendReply(p) => p.dst == id
    case FileStart(p) => p.ptype == PKT_FILE_UPLOAD_START
    case FileIn(p) => p.ptype == PKT_FILE_UPLOAD_IN
    case FileEnd(p) => p.ptype == PKT_FILE_UPLOAD_END
    case _ => true
  }

  ghost predicate GoodJobs(h: Host) {
    forall i :: 0 <= i < |h.jobs| ==> GoodJob(h.id, h.jobs[i])
  }

  // Nothing undertaken is lost, duplicated or reordered on its way through the job queue.
  ghost predicate SendsInOrder(l: Logged) {
    l.sent + Pending(l.h.jobs, ToSend) == AllPackets(l.h.id, l.units)
  }

  // Neither is any received file packet.
  ghost predicate FilesInOrder(l: Logged) {
    FilePacketsOf(l.accepted) == EventPackets(l.events) + Pending(l.h.jobs, ToFile)
  }

  // The buffer is what the events make of it, and so is every file written.
  ghost predicate BufferReplays(l: Logged) {
    Buffer(l.h.fileName, l.h.fileBytes) == Replay(NOTHING, l.events) && AllWritten(NOTHING, l.events)
  }

  // Every accepted ping request is waiting for its reply job or has had its reply undertaken.
  ghost predicate PingsAnswered(l: Logged) {
    forall s: Byte :: Count(l.accepted, s, l.h.id, PKT_PING_REQ)
                      == ReplyJobs(l.h.jobs, s) + Count(AllPackets(l.h.id, l.units), l.h.id, s, PKT_PING_REPLY)
  }

  // A single packet is a ping or a download request, and everything goes out under the host's id.
  ghost predicate GoodUnits(l: Logged) {
    forall i :: 0 <= i < |l.units| ==> GoodUnit(l.h.id, l.units[i])
  }

  predicate GoodUnit(id: Byte, u: Unit) {
    u.Single? ==> u.packet.src == id && !IsFilePacket(u.packet)
  }

  ghost predicate LogInv(l: Logged) {
    GoodJobs(l.h) && GoodUnits(l) && SendsInOrder(l) && FilesInOrder(l) && BufferReplays(l) && PingsAnswered(l)
  }

  // ---- Everything distributes over appending ----

  lemma {:induction false} PendingConcat(a: seq<Job>, b: seq<Job>, part: Job -> seq<Packet>)
    ensures Pending(a + b, part) == Pending(a, part) + Pending(b, part)
  {
    if a == [] {
      assert a + b == b;
    } else {
      assert (a + b)[0] == a[0] && (a + b)[1..] == a[1..] + b;
      PendingConcat(a[1..], b, part);
    }
  }

  lemma {:induction false} AllPacketsConcat(id: Byte, a: seq<Unit>, b: seq<Unit>)
    ensures AllPackets(id, a + b) == AllPackets(id, a) + AllPackets(id, b)
  {
    if a == [] {
      assert a + b == b;
    } else {
      assert (a + b)[0] == a[0] && (a + b)[1..] == a[1..] + b;
      AllPacketsConcat(id, a[1..], b);
    }
  }

  lemma {:induction false} CountConcat(a: seq<Packet>, b: seq<Packet>, src: Byte, dst: Byte, ptype: Byte)
    ensures Count(a + b, src, dst, ptype) == Count(a, src, dst, ptype) + Count(b, src, dst, ptype)
  {
    if a == [] {
      assert a + b == b;
    } else {
      assert (a + b)[0] == a[0] && (a + b)[1..] == a[1..] + b;
      CountConcat(a[1..], b, src, dst, ptype);
    }
  }

  lemma {:induction false} CountedMember(ps: seq<Packet>, src: Byte, dst: Byte, ptype: Byte) returns (i: nat)
    requires Count(ps, src, dst, ptype) > 0
    ensures i < |ps| && ps[i].src == src && ps[i].dst == dst && ps[i].ptype == ptype
  {
    if ps[0].src == src && ps[0].dst == dst && ps[0].ptype == ptype {
      i := 0;
    } else {
      var k := CountedMember(ps[1..], src, dst, ptype);
      i := k + 1;
    }
  }

  lemma {:induction false} ReplyJobsConcat(a: seq<Job>, b: seq<Job>, s: Byte)
    ensures ReplyJobs(a + b, s) == ReplyJobs(a, s) + ReplyJobs(b, s)
  {
    if a == [] {
      assert a + b == b;
    } else {
      assert (a + b)[0] == a[0] && (a + b)[1..] == a[1..] + b;
      ReplyJobsConcat(a[1..], b, s);
    }
  }

  lemma {:induction false} ReplayConcat(u: Buffer, a: seq<FileEvent>, b: seq<FileEvent>)
    ensures Replay(u, a + b) == Replay(Replay(u, a), b)
    ensures AllWritten(u, a + b) <==> AllWritten(u, a) && AllWritten(Replay(u, a), b)
    decreases |a|
  {
    if a == [] {
      assert a + b == b;
    } else {
      assert (a + b)[0] == a[0] && (a + b)[1..] == a[1..] + b;
      ReplayConcat(ReplayOne(u, a[0]), a[1..], b);
    }
  }

  lemma {:induction false} SendJobsPending(ps: seq<Packet>)
    ensures Pending(SendJobs(ps), ToSend) == ps
    ensures Pending(SendJobs(ps), ToFile) == []
    ensures forall s: Byte :: ReplyJobs(SendJobs(ps), s) == 0
  {
    if ps != [] {
      assert SendJobs(ps)[1..] == SendJobs(ps[1..]);
      SendJobsPending(ps[1..]);
    }
  }

  // ---- What a step does to the queue ----

  function Kept(l: Logged, s: HostStep): seq<Job> {
    if s.RunJob? && l.h.jobs != [] then l.h.jobs[1..] else l.h.jobs
  }

  function Added(l: Logged, s: HostStep): seq<Job> {
    match s
    case DoCommand(Ping(dst)) => [SendPacket(Packet(l.h.id, ToChar(dst), PKT_PING_REQ, [])), PingWait(PING_TIMER)]
    case DoCommand(Upload(dst, name)) => [FileSend(dst, name)]
    case DoCommand(Download(dst, name)) => [SendPacket(Packet(l.h.id, ToChar(dst), PKT_FILE_DOWNLOAD_REQ, name))]
    case DoCommand(_) => []
    case TakePacket(p) => if p.dst == l.h.id then JobsFor(p) else []
    case RunJob(disk) => if l.h.jobs == [] then [] else AddedByJob(l.h, l.h.jobs[0], disk)
  }

  function AddedByJob(h: Host, j: Job, disk: Disk): seq<Job> {
    match j
    case PingSendReply(p) => [SendPacket(Packet(h.id, p.src, PKT_PING_REPLY, []))]
    case PingWait(timer) => if !h.pingSeen && timer > 1 then [PingWait(timer - 1)] else []
    case FileSend(dst, name) => SendJobs(FilePackets(h, dst, name, disk))
    case _ => []
  }

  // The units a step undertakes, and what it sends, accepts and records.
  function NewUnits(l: Logged, s: HostStep): seq<Unit> {
    match s
    case DoCommand(c) => UnitsOfCommand(l.h, c)
    case TakePacket(_) => []
    case RunJob(disk) => if l.h.jobs == [] then [] else UnitsOfJob(l.h, l.h.jobs[0], disk)
  }

  function Runs(l: Logged, s: HostStep): seq<Job> {
    if s.RunJob? && l.h.jobs != [] then [l.h.jobs[0]] else []
  }

  function NewlySent(l: Logged, s: HostStep): seq<Packet> {
    if Runs(l, s) == [] then [] else ToSend(Runs(l, s)[0])
  }

  function NewlyAccepted(l: Logged, s: HostStep): seq<Packet> {
    if s.TakePacket? && s.p.dst == l.h.id then [s.p] else []
  }

  function NewEvents(l: Logged, s: HostStep): seq<FileEvent> {
    if Runs(l, s) == [] then [] else EventsOfJob(l.h, Runs(l, s)[0], s.disk)
  }

  lemma QueueShape(l: Logged, s: HostStep)
    ensures l.h.jobs == Runs(l, s) + Kept(l, s)
    ensures After(l, s).h.jobs == Kept(l, s) + Added(l, s)
    ensures After(l, s).h.id == l.h.id
  {
  }

  lemma LogShape(l: Logged, s: HostStep)
    ensures After(l, s).units == l.units + NewUnits(l, s)
    ensures After(l, s).sent == l.sent + NewlySent(l, s)
    ensures After(l, s).accepted == l.accepted + NewlyAccepted(l, s)
    ensures After(l, s).events == l.events + NewEvents(l, s)
  {
  }

  lemma PendingShort(a: Job, b: Job, part: Job -> seq<Packet>)
    ensures Pending([], part) == [] && Pending([a], part) == part(a) && Pending([a, b], part) == part(a) + part(b)
  {
    assert [a][1..] == [] && [b][1..] == [] && [a, b][1..] == [b];
    assert part(a) + [] == part(a) && part(b) + [] == part(b);
    assert Pending([b], part) == part(b);
  }

  lemma RegroupPackets(a: seq<Packet>, b: seq<Packet>, c: seq<Packet>, d: seq<Packet>)
    ensures (a + b) + (c + d) == (a + (b + c)) + d
  {
  }

  lemma BlockSource(src: Byte, dst: Byte, name: Bytes, content: Bytes)
    ensures forall i :: 0 <= i < |Block(src, dst, name, content)| ==>
      var p := Block(src, dst, name, content)[i]; p.src == src && p.dst == dst && IsFilePacket(p)
  {
    ChunksCoverFile(src, dst, content);
    var ps := Chunks(src, dst, content);
    assert forall i :: 0 < i < |ps| + 1 ==> Block(src, dst, name, content)[i] == ps[i - 1];
  }

  lemma AddedGoodJobs(l: Logged, s: HostStep)
    requires GoodJobs(l.h)
    ensures forall i :: 0 <= i < |Added(l, s)| ==> GoodJob(l.h.id, Added(l, s)[i])
  {
    if s.RunJob? && l.h.jobs != [] && l.h.jobs[0].FileSend? {
      var job := l.h.jobs[0];
      var content := Source(l.h.dir, job.name, s.disk);
      if content.Some? {
        BlockSource(l.h.id, ToChar(job.dst), job.name, content.value);
      }
    }
  }

  lemma KeepsGoodJobs(l: Logged, s: HostStep)
    requires GoodJobs(l.h)
    ensures GoodJobs(After(l, s).h)
  {
    hide After, Added, Kept, Runs, GoodJob;
    QueueShape(l, s);
    AddedGoodJobs(l, s);
    GoodQueue(l.h.id, Runs(l, s), Kept(l, s), Added(l, s));
  }

  lemma GoodQueue(id: Byte, ran: seq<Job>, kept: seq<Job>, added: seq<Job>)
    requires forall i :: 0 <= i < |ran + kept| ==> GoodJob(id, (ran + kept)[i])
    requires forall i :: 0 <= i < |added| ==> GoodJob(id, added[i])
    ensures forall i :: 0 <= i < |kept + added| ==> GoodJob(id, (kept + added)[i])
  {
    hide GoodJob;
    forall i | 0 <= i < |kept|
      ensures GoodJob(id, kept[i])
    {
      assert kept[i] == (ran + kept)[i + |ran|];
    }
  }

  lemma SingleUnit(id: Byte, u: Unit)
    ensures AllPackets(id, [u]) == UnitPackets(id, u)
  {
    assert [u][1..] == [] && UnitPackets(id, u) + [] == UnitPackets(id, u);
  }

  // What a step adds to the queue is what it undertakes to send; only received packets add
  // receive jobs.
  lemma AddedSends(l: Logged, s: HostStep)
    ensures Pending(Added(l, s), ToSend) == AllPackets(l.h.id, NewUnits(l, s))
  {
    var added, units := Added(l, s), NewUnits(l, s);
    if |units| == 1 {
      SingleUnit(l.h.id, units[0]);
    }
    if s.RunJob? && l.h.jobs != [] && l.h.jobs[0].FileSend? {
      SendJobsPending(FilePackets(l.h, l.h.jobs[0].dst, l.h.jobs[0].name, s.disk));
    } else if |added| == 1 {
      PendingShort(added[0], added[0], ToSend);
    } else if |added| == 2 {
      PendingShort(added[0], added[1], ToSend);
    }
  }

  lemma AddedNoFiles(l: Logged, s: HostStep)
    requires !s.TakePacket?
    ensures Pending(Added(l, s), ToFile) == []
  {
    var added := Added(l, s);
    if s.RunJob? && l.h.jobs != [] && l.h.jobs[0].FileSend? {
      SendJobsPending(FilePackets(l.h, l.h.jobs[0].dst, l.h.jobs[0].name, s.disk));
    } else if |added| == 1 {
      PendingShort(added[0], added[0], ToFile);
    } else if |added| == 2 {
      PendingShort(added[0], added[1], ToFile);
    }
  }

  lemma SentIsRun(l: Logged, s: HostStep)
    ensures Pending(Runs(l, s), ToSend) == NewlySent(l, s)
    ensures Pending(Runs(l, s), ToFile) == EventPackets(NewEvents(l, s))
  {
    if Runs(l, s) != [] {
      PendingShort(Runs(l, s)[0], Runs(l, s)[0], ToSend);
      PendingShort(Runs(l, s)[0], Runs(l, s)[0], ToFile);
    }
  }

  lemma KeepsSends(l: Logged, s: HostStep)
    requires SendsInOrder(l)
    ensures SendsInOrder(After(l, s))
  {
    hide After, Added, NewUnits, AllPackets, Pending, NewlySent, Kept, Runs, NewEvents, NewlyAccepted;
    QueueShape(l, s);
    LogShape(l, s);
    AddedSends(l, s);
    SentIsRun(l, s);
    PendingConcat(Runs(l, s), Kept(l, s), ToSend);
    PendingConcat(Kept(l, s), Added(l, s), ToSend);
    AllPacketsConcat(l.h.id, l.units, NewUnits(l, s));
    RegroupPackets(l.sent, NewlySent(l, s), Pending(Kept(l, s), ToSend), Pending(Added(l, s), ToSend));
  }

  // A received packet adds a receive job exactly when it is a file packet.
  lemma AddedFiles(l: Logged, s: HostStep)
    ensures Pending(Added(l, s), ToFile) == FilePacketsOf(NewlyAccepted(l, s))
  {
    if s.TakePacket? && s.p.dst == l.h.id {
      var jobs := JobsFor(s.p);
      assert [s.p][1..] == [];
      assert Filter([s.p], IsFilePacket) == if IsFilePacket(s.p) then [s.p] else [];
      if jobs != [] {
        PendingShort(jobs[0], jobs[0], ToFile);
        assert jobs == [jobs[0]];
        assert Pending(jobs, ToFile) == ToFile(jobs[0]);
      }
    } else if !s.TakePacket? {
      AddedNoFiles(l, s);
    }
  }

  lemma KeepsFiles(l: Logged, s: HostStep)
    requires FilesInOrder(l)
    ensures FilesInOrder(After(l, s))
  {
    hide After, Added, NewUnits, Pending, NewlySent, NewlyAccepted, NewEvents, Kept, Runs, Filter;
    QueueShape(l, s);
    LogShape(l, s);
    AddedFiles(l, s);
    SentIsRun(l, s);
    PendingConcat(Runs(l, s), Kept(l, s), ToFile);
    PendingConcat(Kept(l, s), Added(l, s), ToFile);
    FilterConcat(l.accepted, NewlyAccepted(l, s), IsFilePacket);
    assert EventPackets(l.events + NewEvents(l, s)) == EventPackets(l.events) + EventPackets(NewEvents(l, s));
    RegroupPackets(EventPackets(l.events), EventPackets(NewEvents(l, s)), Pending(Kept(l, s), ToFile),
      Pending(Added(l, s), ToFile));
  }

  // Running a START, IN or END job treats the buffer as its event says.
  lemma JobReplays(h: Host, j: Job, disk: Disk)
    requires GoodJob(h.id, j)
    ensures var u := Buffer(h.fileName, h.fileBytes);
      var (h', effect) := Execute(h, j, disk);
      var events := EventsOfJob(h, j, disk);
      Buffer(h'.fileName, h'.fileBytes) == Replay(u, events) && AllWritten(u, events)
  {
  }

  lemma KeepsBuffer(l: Logged, s: HostStep)
    requires BufferReplays(l) && GoodJobs(l.h)
    ensures BufferReplays(After(l, s))
  {
    if s.RunJob? && l.h.jobs != [] {
      JobReplays(l.h, l.h.jobs[0], s.disk);
      ReplayConcat(NOTHING, l.events, EventsOfJob(l.h, l.h.jobs[0], s.disk));
      JobIgnoresQueue(l.h, l.h.jobs[0], s.disk);
    }
  }

  // Only the queue itself depends on what else is queued.
  lemma JobIgnoresQueue(h: Host, j: Job, disk: Disk)
    requires h.jobs != []
    ensures var rest := h.(jobs := h.jobs[1..]);
      && Execute(rest, j, disk).1 == Execute(h, j, disk).1
      && Execute(rest, j, disk).0.fileName == Execute(h, j, disk).0.fileName
      && Execute(rest, j, disk).0.fileBytes == Execute(h, j, disk).0.fileBytes
  {
  }

  lemma BlockHasNoPings(src: Byte, dst: Byte, name: Bytes, content: Bytes, s: Byte)
    ensures Count(Block(src, dst, name, content), src, s, PKT_PING_REPLY) == 0
  {
    BlockSource(src, dst, name, content);
    NoneCounted(Block(src, dst, name, content), src, s, PKT_PING_REPLY);
  }

  lemma {:induction false} NoneCounted(ps: seq<Packet>, src: Byte, dst: Byte, ptype: Byte)
    requires forall i :: 0 <= i < |ps| ==> ps[i].ptype != ptype || ps[i].src != src || ps[i].dst != dst
    ensures Count(ps, src, dst, ptype) == 0
  {
    if ps != [] {
      NoneCounted(ps[1..], src, dst, ptype);
    }
  }

  // The replies a step undertakes are those of the reply job it runs ...
  lemma UndertakenReplies(l: Logged, s: HostStep, from: Byte)
    requires GoodJobs(l.h)
    ensures Count(AllPackets(l.h.id, NewUnits(l, s)), l.h.id, from, PKT_PING_REPLY) == ReplyJobs(Runs(l, s), from)
  {
    var units := NewUnits(l, s);
    if |units| == 1 {
      SingleUnit(l.h.id, units[0]);
      if units[0].Transfer? {
        BlockHasNoPings(l.h.id, units[0].dst, units[0].name, units[0].content, from);
      }
    }
  }

  // ... and the reply jobs it adds are those of the ping requests it accepts.
  lemma AddedReplies(l: Logged, s: HostStep, from: Byte)
    ensures ReplyJobs(Added(l, s), from) == Count(NewlyAccepted(l, s), from, l.h.id, PKT_PING_REQ)
  {
    var added := Added(l, s);
    if s.RunJob? && l.h.jobs != [] && l.h.jobs[0].FileSend? {
      SendJobsPending(FilePackets(l.h, l.h.jobs[0].dst, l.h.jobs[0].name, s.disk));
    } else if |added| == 2 {
      assert added[1..] == [added[1]] && [added[1]][1..] == [];
      assert ReplyJobs(added[1..], from) == 0;
    } else if |added| == 1 {
      assert added[1..] == [];
    }
  }

  lemma KeepsPings(l: Logged, s: HostStep)
    requires PingsAnswered(l) && GoodJobs(l.h)
    ensures PingsAnswered(After(l, s))
  {
    hide After, Added, NewUnits, NewlyAccepted, Kept, Runs, AllPackets, NewEvents, NewlySent;
    QueueShape(l, s);
    LogShape(l, s);
    var id := l.h.id;
    forall from: Byte
      ensures Count(After(l, s).accepted, from, id, PKT_PING_REQ)
           == ReplyJobs(After(l, s).h.jobs, from) + Count(AllPackets(id, After(l, s).units), id, from, PKT_PING_REPLY)
    {
      UndertakenReplies(l, s, from);
      AddedReplies(l, s, from);
      ReplyJobsConcat(Runs(l, s), Kept(l, s), from);
      ReplyJobsConcat(Kept(l, s), Added(l, s), from);
      AllPacketsConcat(id, l.units, NewUnits(l, s));
      CountConcat(AllPackets(id, l.units), AllPackets(id, NewUnits(l, s)), id, from, PKT_PING_REPLY);
      CountConcat(l.accepted, NewlyAccepted(l, s), from, id, PKT_PING_REQ);
    }
  }

  lemma KeepsGoodUnits(l: Logged, s: HostStep)
    requires GoodUnits(l) && GoodJobs(l.h)
    ensures GoodUnits(After(l, s))
  {
    LogShape(l, s);
    assert forall i :: 0 <= i < |NewUnits(l, s)| ==> GoodUnit(l.h.id, NewUnits(l, s)[i]);
  }

  lemma LogInvKept(l: Logged, s: HostStep)
    requires LogInv(l)
    ensures LogInv(After(l, s))
  {
    hide After, GoodJobs, GoodUnits, SendsInOrder, FilesInOrder, BufferReplays, PingsAnswered;
    KeepsGoodJobs(l, s);
    KeepsGoodUnits(l, s);
    KeepsSends(l, s);
    KeepsFiles(l, s);
    KeepsBuffer(l, s);
    KeepsPings(l, s);
  }

  lemma LogInvInitially(l: Logged, id: Byte)
    requires InitialLog(l, id)
    ensures LogInv(l)
  {
  }

  function Run(l: Logged, steps: seq<HostStep>): Logged
    decreases |steps|
  {
    if steps == [] then l else Run(After(l, steps[0]), steps[1..])
  }

  lemma {:induction false} RunKeepsLogInv(l: Logged, steps: seq<HostStep>)
    requires LogInv(l)
    ensures LogInv(Run(l, steps))
    decreases |steps|
  {
    if steps != [] {
      LogInvKept(l, steps[0]);
      RunKeepsLogInv(After(l, steps[0]), steps[1..]);
    }
  }

  // In every run of a host from its start, whatever commands and packets arrive and whatever the
  // disk does.
  lemma EveryRun(l: Logged, id: Byte, steps: seq<HostStep>)
    requires InitialLog(l, id)
    ensures LogInv(Run(l, steps))
  {
    LogInvInitially(l, id);
    RunKeepsLogInv(l, steps);
  }
}
