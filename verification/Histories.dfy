// A host's queue, what it sends and what it writes, told from its history alone: which commands it
// has executed, which packets it has accepted and which jobs it has executed, in order.
module Histories {
  import opened Types
  import opened Commands
  import opened Uploads
  import opened Hosts
  import opened HostLogs
  import opened Transfers
  import opened Pings

  // What every note contributes, given what happened before it.
  function Gather<T>(notes: seq<Note>, part: (seq<Note>, Note) -> seq<T>): seq<T> {
    if notes == [] then []
    else
      var k := |notes| - 1;
      Gather(notes[..k], part) + part(notes[..k], notes[k])
  }

  lemma GatherOne<T>(notes: seq<Note>, n: Note, part: (seq<Note>, Note) -> seq<T>)
    ensures Gather(notes + [n], part) == Gather(notes, part) + part(notes, n)
  {
    var more := notes + [n];
    assert more[..|notes|] == notes && more[|notes|] == n;
  }

  // ---- The queue ----

  // The jobs that something that happened, after `before`, puts into the queue. The numbers are the
  // packet types on the wire and the ticks a ping waits for.
  function Adds(id: Byte, before: seq<Note>, n: Note): seq<Job> {
    match n
    case Did(Ping(dst)) => [SendPacket(Packet(id, ToChar(dst), 0, [])), PingWait(10)]
    case Did(Upload(dst, name)) => [FileSend(dst, name)]
    case Did(Download(dst, name)) => [SendPacket(Packet(id, ToChar(dst), 5, name))]
    case Got(p) =>
      if p.ptype == 0 then [PingSendReply(p)]
      else if p.ptype == 2 then [FileStart(p)]
      else if p.ptype == 3 then [FileEnd(p)]
      else if p.ptype == 4 then [FileIn(p)]
      else if p.ptype == 5 then [FileSend(p.src, CString(p.payload))]
      else []
    case Ran(PingSendReply(p), _) => [SendPacket(Packet(id, p.src, 1, []))]
    case Ran(PingWait(timer), _) =>
      if ReplySinceLastPing(before) || timer <= 1 then [] else [PingWait(timer - 1)]
    case Ran(FileSend(dst, name), disk) => SendJobs(FileOnWire(id, dst, name, Source(LastDir(before), name, disk)))
    case _ => []
  }

  function FileOnWire(id: Byte, dst: int, name: Bytes, content: Option<Bytes>): seq<Packet> {
    if content.Some? then Block(id, ToChar(dst), name, content.value) else []
  }

  function Queued(id: Byte, notes: seq<Note>): seq<Job> {
    Gather(notes, (before, n) => Adds(id, before, n))
  }

  function RanJobs(notes: seq<Note>): seq<Job> {
    Gather(notes, JobRun)
  }

  function JobRun(before: seq<Note>, n: Note): seq<Job> {
    if n.Ran? then [n.job] else []
  }

  // ---- What it undertakes to send ----

  // An executed upload job undertakes a transfer of the file "./directory/name", with the directory set by
  // then, if there is one and the file opens; otherwise nothing.
  function UploadDone(before: seq<Note>, n: Note): seq<Unit> {
    match n
    case Ran(FileSend(dst, name), disk) =>
      var content := Source(LastDir(before), name, disk);
      if content.Some? then [Transfer(ToChar(dst), name, content.value)] else []
    case _ => []
  }

  function Undertakes(id: Byte, before: seq<Note>, n: Note): seq<Unit> {
    match n
    case Did(Ping(dst)) => [Single(Packet(id, ToChar(dst), 0, []))]
    case Did(Download(dst, name)) => [Single(Packet(id, ToChar(dst), 5, name))]
    case Ran(PingSendReply(p), _) => [Single(Packet(id, p.src, 1, []))]
    case _ => UploadDone(before, n)
  }

  function Undertaken(id: Byte, notes: seq<Note>): seq<Unit> {
    Gather(notes, (before, n) => Undertakes(id, before, n))
  }

  // ---- What it sends and accepts ----

  function Sends(before: seq<Note>, n: Note): seq<Packet> {
    match n
    case Ran(SendPacket(p), _) => [p]
    case _ => []
  }

  function Accepts(before: seq<Note>, n: Note): seq<Packet> {
    if n.Got? then [n.p] else []
  }

  // ---- What it does with file packets ----

  // A START, IN or END job executed: the packet, the directory set by then, and whether a file opens.
  datatype Receipt = Receipt(packet: Packet, dir: Option<Bytes>, writable: bool)

  function Receives(before: seq<Note>, n: Note): seq<Receipt> {
    match n
    case Ran(FileStart(p), disk) => [Receipt(p, LastDir(before), disk.writable)]
    case Ran(FileIn(p), disk) => [Receipt(p, LastDir(before), disk.writable)]
    case Ran(FileEnd(p), disk) => [Receipt(p, LastDir(before), disk.writable)]
    case _ => []
  }

  function Receipts(events: seq<FileEvent>): (rs: seq<Receipt>)
    ensures |rs| == |events|
  {
    seq(|events|, i requires 0 <= i < |events| => Receipt(events[i].packet, events[i].dir, events[i].writable))
  }

  // ---- The invariant ----

  // Every job ever put into the queue is executed or still waits, in order, and nothing else is.
  ghost predicate QueueIsHistory(l: Logged) {
    RanJobs(l.notes) + l.h.jobs == Queued(l.h.id, l.notes)
  }

  ghost predicate HistoryInv(l: Logged) {
    && TrailInv(Trail(l.h, l.notes)) && QueueIsHistory(l)
    && l.units == Undertaken(l.h.id, l.notes) && Receipts(l.events) == Gather(l.notes, Receives)
    && l.sent == Gather(l.notes, Sends) && l.accepted == Gather(l.notes, Accepts)
  }

  lemma OneMore(id: Byte, notes: seq<Note>, n: Note)
    ensures Queued(id, notes + [n]) == Queued(id, notes) + Adds(id, notes, n)
    ensures RanJobs(notes + [n]) == RanJobs(notes) + JobRun(notes, n)
    ensures Undertaken(id, notes + [n]) == Undertaken(id, notes) + Undertakes(id, notes, n)
    ensures Gather(notes + [n], Receives) == Gather(notes, Receives) + Receives(notes, n)
    ensures Gather(notes + [n], Sends) == Gather(notes, Sends) + Sends(notes, n)
    ensures Gather(notes + [n], Accepts) == Gather(notes, Accepts) + Accepts(notes, n)
  {
    hide Adds, Undertakes, Receives, JobRun, Sends, Accepts, Gather;
    GatherOne(notes, n, (b, m) => Adds(id, b, m));
    GatherOne(notes, n, JobRun);
    GatherOne(notes, n, (b, m) => Undertakes(id, b, m));
    GatherOne(notes, n, Receives);
    GatherOne(notes, n, Sends);
    GatherOne(notes, n, Accepts);
  }

  // A reply to the manager adds nothing.
  lemma AndReply(id: Byte, notes: seq<Note>, n: Note, r: Option<Reply>)
    ensures var more := notes + ([n] + ReplyNotes(r));
      && Queued(id, more) == Queued(id, notes) + Adds(id, notes, n)
      && RanJobs(more) == RanJobs(notes) + JobRun(notes, n)
      && Undertaken(id, more) == Undertaken(id, notes) + Undertakes(id, notes, n)
      && Gather(more, Receives) == Gather(notes, Receives) + Receives(notes, n)
      && Gather(more, Sends) == Gather(notes, Sends) + Sends(notes, n)
      && Gather(more, Accepts) == Gather(notes, Accepts) + Accepts(notes, n)
  {
    hide *;
    OneMore(id, notes, n);
    OneNoteAndReply(notes, n, r);
    if r.Some? {
      OneMore(id, notes + [n], Told(r.value));
      ToldAddsNothing(id, notes + [n], r.value);
    }
  }

  lemma ToldAddsNothing(id: Byte, before: seq<Note>, r: Reply)
    ensures Adds(id, before, Told(r)) == [] && Undertakes(id, before, Told(r)) == []
    ensures JobRun(before, Told(r)) == [] && Receives(before, Told(r)) == []
    ensures Sends(before, Told(r)) == [] && Accepts(before, Told(r)) == []
  {
  }

  lemma OneNoteAndReply(notes: seq<Note>, n: Note, r: Option<Reply>)
    ensures notes + ([n] + ReplyNotes(r)) == if r.Some? then (notes + [n]) + [Told(r.value)] else notes + [n]
  {
  }

  lemma TrailGoesOn(l: Logged, s: HostStep)
    ensures Trail(After(l, s).h, After(l, s).notes) == Noted(Trail(l.h, l.notes), s)
  {
    assert l.notes + [] == l.notes;
  }

  // While a ping waits for its reply, the flag says whether one has come since the latest ping command.
  lemma WaitingFlag(t: Trail)
    requires TrailInv(t) && t.h.jobs != [] && t.h.jobs[0].PingWait?
    ensures t.h.pingSeen <==> ReplySinceLastPing(t.notes)
  {
    assert t.h.jobs == [t.h.jobs[0]] + t.h.jobs[1..];
    WaitsAdd([t.h.jobs[0]], t.h.jobs[1..]);
    OneNote(Told(PingAcked), t.h.jobs[0]);
  }

  // The one thing a step makes happen, if any, besides a reply to the manager.
  function Happens(l: Logged, s: HostStep): Option<Note> {
    match s
    case DoCommand(c) => Some(Did(c))
    case TakePacket(p) => if p.dst == l.h.id then Some(Got(p)) else None
    case RunJob(disk) => if l.h.jobs == [] then None else Some(Ran(l.h.jobs[0], disk))
  }

  lemma StepNotes(l: Logged, s: HostStep) returns (r: Option<Reply>)
    ensures var n := Happens(l, s);
      After(l, s).notes == if n.Some? then l.notes + ([n.value] + ReplyNotes(r)) else l.notes
  {
    r := match s case DoCommand(c) => OnCommand(l.h, c).1 case TakePacket(_) => None
         case RunJob(disk) => OnJob(l.h, disk).1.reply;
    if s.TakePacket? {
      assert [Got(s.p)] + [] == [Got(s.p)];
    }
    assert l.notes + [] == l.notes;
  }

  // What a step does to the queue and the logs is what the history says of the thing that happened.
  lemma AddedAsTold(l: Logged, s: HostStep)
    requires TrailInv(Trail(l.h, l.notes))
    ensures var n := Happens(l, s);
      if n.None? then
        && Added(l, s) == [] && NewUnits(l, s) == [] && NewEvents(l, s) == [] && Runs(l, s) == []
        && NewlySent(l, s) == [] && NewlyAccepted(l, s) == []
      else
        && Added(l, s) == Adds(l.h.id, l.notes, n.value)
        && NewUnits(l, s) == Undertakes(l.h.id, l.notes, n.value)
        && Receipts(NewEvents(l, s)) == Receives(l.notes, n.value)
        && Runs(l, s) == JobRun(l.notes, n.value)
        && NewlySent(l, s) == Sends(l.notes, n.value) && NewlyAccepted(l, s) == Accepts(l.notes, n.value)
  {
    hide AnswersTrue, StatesTrue, PingCommands, PingAnswers, WaitJobs, FlagRight, Block;
    if s.RunJob? && l.h.jobs != [] && l.h.jobs[0].PingWait? {
      WaitingFlag(Trail(l.h, l.notes));
    }
    assert l.h.dir == LastDir(l.notes);
  }

  lemma ReceiptsAdd(a: seq<FileEvent>, b: seq<FileEvent>)
    ensures Receipts(a + b) == Receipts(a) + Receipts(b)
  {
  }

  lemma Requeue(ran: seq<Job>, runs: seq<Job>, kept: seq<Job>, added: seq<Job>)
    ensures (ran + runs) + (kept + added) == (ran + (runs + kept)) + added
  {
  }

  lemma QueueGoesOn(l: Logged, s: HostStep)
    requires TrailInv(Trail(l.h, l.notes)) && QueueIsHistory(l)
    ensures QueueIsHistory(After(l, s))
  {
    hide After, Queued, RanJobs, Adds, Added, Kept, Runs, TrailInv, NewUnits, NewEvents, Undertaken, Happens,
      Gather, Sends, Accepts, Receives, NewlySent, NewlyAccepted;
    AddedAsTold(l, s);
    QueueShape(l, s);
    var r := StepNotes(l, s);
    var n := Happens(l, s);
    if n.Some? {
      AndReply(l.h.id, l.notes, n.value, r);
    }
    Requeue(RanJobs(l.notes), Runs(l, s), Kept(l, s), Added(l, s));
  }

  lemma LogsGoOn(l: Logged, s: HostStep)
    requires HistoryInv(l)
    ensures After(l, s).units == Undertaken(l.h.id, After(l, s).notes)
    ensures Receipts(After(l, s).events) == Gather(After(l, s).notes, Receives)
    ensures After(l, s).sent == Gather(After(l, s).notes, Sends)
    ensures After(l, s).accepted == Gather(After(l, s).notes, Accepts)
  {
    hide After, Queued, RanJobs, Adds, Added, Runs, TrailInv, NewUnits, NewEvents, Undertaken, Happens,
      Gather, Sends, Accepts, Receives, NewlySent, NewlyAccepted;
    AddedAsTold(l, s);
    LogShape(l, s);
    ReceiptsAdd(l.events, NewEvents(l, s));
    var r := StepNotes(l, s);
    var n := Happens(l, s);
    if n.Some? {
      AndReply(l.h.id, l.notes, n.value, r);
    }
  }

  lemma HistoryKept(l: Logged, s: HostStep)
    requires HistoryInv(l)
    ensures HistoryInv(After(l, s))
  {
    hide After, TrailInv, QueueIsHistory;
    TrailGoesOn(l, s);
    TrailInvKept(Trail(l.h, l.notes), s);
    QueueGoesOn(l, s);
    LogsGoOn(l, s);
    QueueShape(l, s);
  }

  lemma HistoryInitially(l: Logged, id: Byte)
    requires InitialLog(l, id)
    ensures HistoryInv(l)
  {
  }

  lemma {:induction false} RunKeepsHistory(l: Logged, steps: seq<HostStep>)
    requires HistoryInv(l)
    ensures HistoryInv(Run(l, steps))
    decreases |steps|
  {
    if steps != [] {
      HistoryKept(l, steps[0]);
      RunKeepsHistory(After(l, steps[0]), steps[1..]);
    }
  }

  // In every run of a host from its start: the jobs executed and then those waiting are exactly the jobs
  // its history has put into the queue, in order; and what it has undertaken to send, has sent and accepted
  // and has done with file packets is what its history says.
  lemma EveryHistory(l: Logged, id: Byte, steps: seq<HostStep>)
    requires InitialLog(l, id)
    ensures var l' := Run(l, steps);
      && RanJobs(l'.notes) + l'.h.jobs == Queued(id, l'.notes)
      && l'.units == Undertaken(id, l'.notes) && Receipts(l'.events) == Gather(l'.notes, Receives)
      && l'.sent == Gather(l'.notes, Sends) && l'.accepted == Gather(l'.notes, Accepts)
  {
    hide Run, TrailInv;
    HistoryInitially(l, id);
    RunKeepsHistory(l, steps);
    RunKeepsId(l, steps);
  }

  lemma {:induction false} RunKeepsId(l: Logged, steps: seq<HostStep>)
    ensures Run(l, steps).h.id == l.h.id
    decreases |steps|
  {
    if steps != [] {
      QueueShape(l, steps[0]);
      RunKeepsId(After(l, steps[0]), steps[1..]);
    }
  }

  // ---- Where jobs and transfers come from ----

  lemma {:induction false} GatherFilter<T>(notes: seq<Note>, part: (seq<Note>, Note) -> seq<T>, keep: T -> bool,
                                           kept: (seq<Note>, Note) -> seq<T>)
    requires forall before, n :: Filter(part(before, n), keep) == kept(before, n)
    ensures Filter(Gather(notes, part), keep) == Gather(notes, kept)
  {
    if notes != [] {
      var k := |notes| - 1;
      GatherFilter(notes[..k], part, keep, kept);
      FilterConcat(Gather(notes[..k], part), part(notes[..k], notes[k]), keep);
    }
  }

  predicate IsUpload(j: Job) {
    j.FileSend?
  }

  // Who asks a host for a file: its manager with an upload command, or a download request it accepts.
  function UploadAsked(before: seq<Note>, n: Note): seq<Job> {
    match n
    case Did(Upload(dst, name)) => [FileSend(dst, name)]
    case Got(p) => if p.ptype == 5 then [FileSend(p.src, CString(p.payload))] else []
    case _ => []
  }

  predicate IsReplyJob(j: Job) {
    j.PingSendReply?
  }

  function ReplyAsked(before: seq<Note>, n: Note): seq<Job> {
    if n.Got? && n.p.ptype == 0 then [PingSendReply(n.p)] else []
  }

  lemma FilterOne<T>(x: T, keep: T -> bool)
    ensures Filter([x], keep) == if keep(x) then [x] else []
  {
    assert [x][1..] == [];
  }

  lemma UploadJobsAdded(id: Byte, before: seq<Note>, n: Note)
    ensures Filter(Adds(id, before, n), IsUpload) == UploadAsked(before, n)
    ensures Filter(Adds(id, before, n), IsReplyJob) == ReplyAsked(before, n)
  {
    var added := Adds(id, before, n);
    if n.Ran? && n.job.FileSend? {
      FilterNone(added, IsUpload);
      FilterNone(added, IsReplyJob);
    } else if |added| == 1 {
      assert added == [added[0]];
      FilterOne(added[0], IsUpload);
      FilterOne(added[0], IsReplyJob);
    } else if |added| == 2 {
      FilterNone(added, IsUpload);
      FilterNone(added, IsReplyJob);
    }
  }

  lemma TransfersUndertaken(id: Byte, before: seq<Note>, n: Note)
    ensures Filter(Undertakes(id, before, n), IsTransfer) == UploadDone(before, n)
  {
    var units := Undertakes(id, before, n);
    if units != [] {
      assert units == [units[0]];
      FilterOne(units[0], IsTransfer);
    }
  }

  // In every run of a host: the upload jobs executed and then those waiting are exactly those its upload
  // commands and the download requests it has accepted have asked for, in order, with the same destination
  // and name; the transfers it has undertaken are exactly those of executed upload jobs that found a
  // directory and the file; and each accepted ping request has one reply job, in order.
  lemma UploadsAreAsked(l: Logged, id: Byte, steps: seq<HostStep>)
    requires InitialLog(l, id)
    ensures var l' := Run(l, steps);
      && Filter(RanJobs(l'.notes), IsUpload) + Filter(l'.h.jobs, IsUpload) == Gather(l'.notes, UploadAsked)
      && Filter(l'.units, IsTransfer) == Gather(l'.notes, UploadDone)
      && Filter(RanJobs(l'.notes), IsReplyJob) + Filter(l'.h.jobs, IsReplyJob) == Gather(l'.notes, ReplyAsked)
  {
    EveryHistory(l, id, steps);
    var l' := Run(l, steps);
    AskedFor(l', id);
  }

  lemma AskedFor(l: Logged, id: Byte)
    requires RanJobs(l.notes) + l.h.jobs == Queued(id, l.notes) && l.units == Undertaken(id, l.notes)
    ensures Filter(RanJobs(l.notes), IsUpload) + Filter(l.h.jobs, IsUpload) == Gather(l.notes, UploadAsked)
    ensures Filter(l.units, IsTransfer) == Gather(l.notes, UploadDone)
    ensures Filter(RanJobs(l.notes), IsReplyJob) + Filter(l.h.jobs, IsReplyJob) == Gather(l.notes, ReplyAsked)
  {
    hide Gather, Adds, Undertakes, UploadAsked, UploadDone, ReplyAsked, RanJobs, Filter, IsUpload, IsReplyJob,
      IsTransfer;
    forall before, n
      ensures Filter(Adds(id, before, n), IsUpload) == UploadAsked(before, n)
      ensures Filter(Adds(id, before, n), IsReplyJob) == ReplyAsked(before, n)
      ensures Filter(Undertakes(id, before, n), IsTransfer) == UploadDone(before, n)
    {
      UploadJobsAdded(id, before, n);
      TransfersUndertaken(id, before, n);
    }
    GatherFilter(l.notes, (before, n) => Adds(id, before, n), IsUpload, UploadAsked);
    GatherFilter(l.notes, (before, n) => Adds(id, before, n), IsReplyJob, ReplyAsked);
    GatherFilter(l.notes, (before, n) => Undertakes(id, before, n), IsTransfer, UploadDone);
    FilterConcat(RanJobs(l.notes), l.h.jobs, IsUpload);
    FilterConcat(RanJobs(l.notes), l.h.jobs, IsReplyJob);
  }
}
