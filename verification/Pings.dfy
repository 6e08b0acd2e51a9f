// Pinging as the manager sees it: every ping command is answered once, after finitely many turns
// of the host's loop, and what an answer means.
module Pings {
  import opened Types
  import opened Commands
  import opened Hosts
  import opened HostLogs

  // ---- Bookkeeping ----

  // A host and what happened at it.
  datatype Trail = Trail(h: Host, notes: seq<Note>)

  function StepHost(h: Host, s: HostStep): Host {
    match s
    case DoCommand(c) => OnCommand(h, c).0
    case TakePacket(p) => OnPacket(h, p)
    case RunJob(disk) => OnJob(h, disk).0
  }

  function Noted(t: Trail, s: HostStep): Trail {
    Trail(StepHost(t.h, s), t.notes + NewNotes(t.h, s))
  }

  predicate IsPingCommand(n: Note) {
    n.Did? && n.c.Ping?
  }

  predicate IsPingAnswer(n: Note) {
    n.Told? && (n.r.PingAcked? || n.r.PingTimedOut?)
  }

  predicate IsWait(j: Job) {
    j.PingWait?
  }

  function PingCommands(notes: seq<Note>): nat {
    |Filter(notes, IsPingCommand)|
  }

  function PingAnswers(notes: seq<Note>): nat {
    |Filter(notes, IsPingAnswer)|
  }

  function WaitJobs(jobs: seq<Job>): nat {
    |Filter(jobs, IsWait)|
  }

  // Has a ping reply been accepted since the latest ping command?
  predicate ReplySinceLastPing(notes: seq<Note>) {
    notes != [] &&
    var last := notes[|notes| - 1];
    if IsPingCommand(last) then false
    else (last.Got? && last.p.ptype == PKT_PING_REPLY) || ReplySinceLastPing(notes[..|notes| - 1])
  }

  // Each answer says whether a reply had come in by then.
  ghost predicate AnswersTrue(notes: seq<Note>) {
    forall i :: 0 <= i < |notes| && IsPingAnswer(notes[i]) ==>
      (notes[i].r.PingAcked? <==> ReplySinceLastPing(notes[..i]))
  }

  // The directory of the latest 'm' command.
  function LastDir(notes: seq<Note>): Option<Bytes> {
    if notes == [] then None
    else
      var last := notes[|notes| - 1];
      if last.Did? && last.c.SetDir? then Some(last.c.dir) else LastDir(notes[..|notes| - 1])
  }

  // Each state reply gives the directory set by then and the host's own id.
  ghost predicate StatesTrue(notes: seq<Note>, id: Byte) {
    forall i :: 0 <= i < |notes| && notes[i].Told? && notes[i].r.HostState? ==>
      notes[i].r == HostState(LastDir(notes[..i]), id)
  }

  ghost predicate TrailInv(t: Trail) {
    && PingCommands(t.notes) == PingAnswers(t.notes) + WaitJobs(t.h.jobs)
    && FlagRight(t.h.pingSeen, t.notes)
    && AnswersTrue(t.notes)
    && t.h.dir == LastDir(t.notes) && StatesTrue(t.notes, t.h.id)
  }

  lemma OneNote(n: Note, j: Job)
    ensures PingCommands([n]) == (if IsPingCommand(n) then 1 else 0)
    ensures PingAnswers([n]) == (if IsPingAnswer(n) then 1 else 0)
    ensures WaitJobs([j]) == (if IsWait(j) then 1 else 0)
  {
    assert [n][1..] == [] && [j][1..] == [];
    assert Filter([n], IsPingCommand) == (if IsPingCommand(n) then [n] else []) + Filter([], IsPingCommand);
    assert Filter([n], IsPingAnswer) == (if IsPingAnswer(n) then [n] else []) + Filter([], IsPingAnswer);
    assert Filter([j], IsWait) == (if IsWait(j) then [j] else []) + Filter([], IsWait);
  }

  lemma NotesAdd(a: seq<Note>, b: seq<Note>)
    ensures PingCommands(a + b) == PingCommands(a) + PingCommands(b)
    ensures PingAnswers(a + b) == PingAnswers(a) + PingAnswers(b)
  {
    FilterConcat(a, b, IsPingCommand);
    FilterConcat(a, b, IsPingAnswer);
  }

  lemma WaitsAdd(a: seq<Job>, b: seq<Job>)
    ensures WaitJobs(a + b) == WaitJobs(a) + WaitJobs(b)
  {
    FilterConcat(a, b, IsWait);
  }

  lemma WaitsOfJobs(h: Host, s: HostStep)
    ensures var l := Unlogged(h);
      && StepHost(h, s).jobs == Kept(l, s) + Added(l, s)
      && WaitJobs(h.jobs) == WaitJobs(Runs(l, s)) + WaitJobs(Kept(l, s))
      && WaitJobs(StepHost(h, s).jobs) == WaitJobs(Kept(l, s)) + WaitJobs(Added(l, s))
  {
    var l := Unlogged(h);
    QueueShape(l, s);
    hide Added, Kept, Runs;
    WaitsAdd(Runs(l, s), Kept(l, s));
    WaitsAdd(Kept(l, s), Added(l, s));
  }

  // Waiting jobs added and run balance the ping commands executed and answered.
  lemma StepBalances(h: Host, s: HostStep)
    ensures WaitJobs(StepHost(h, s).jobs) + PingAnswers(NewNotes(h, s))
      == WaitJobs(h.jobs) + PingCommands(NewNotes(h, s))
  {
    var l := Unlogged(h);
    WaitsOfJobs(h, s);
    var added, ran, notes := Added(l, s), Runs(l, s), NewNotes(h, s);
    if s.DoCommand? {
      NotesAdd([Did(s.c)], ReplyNotes(OnCommand(h, s.c).1));
      OneNote(Did(s.c), PingWait(0));
      OneNote(Told(HostState(h.dir, h.id)), PingWait(0));
      if s.c.Ping? {
        WaitsAdd([added[0]], [added[1]]);
        assert added == [added[0]] + [added[1]];
        OneNote(Did(s.c), added[0]);
        OneNote(Did(s.c), added[1]);
      } else if added != [] {
        OneNote(Did(s.c), added[0]);
      }
    } else if s.TakePacket? {
      OneNote(Got(s.p), PingWait(0));
      if added != [] {
        OneNote(Got(s.p), added[0]);
      }
    } else if ran != [] {
      JobBalances(h, s.disk);
      var told := ReplyNotes(OnJob(h, s.disk).1.reply);
      NotesAdd([Ran(h.jobs[0], s.disk)], told);
      OneNote(Ran(h.jobs[0], s.disk), h.jobs[0]);
      if told != [] {
        OneNote(told[0], h.jobs[0]);
      }
    }
  }

  lemma JobBalances(h: Host, disk: Disk)
    requires h.jobs != []
    ensures WaitJobs(AddedByJob(h, h.jobs[0], disk)) + PingAnswers(ReplyNotes(OnJob(h, disk).1.reply))
      == WaitJobs([h.jobs[0]])
  {
    var job := h.jobs[0];
    var added := AddedByJob(h, job, disk);
    OneNote(Told(PingAcked), job);
    OneNote(Told(PingTimedOut), job);
    if job.FileSend? {
      FilterNone(added, IsWait);
    } else if added != [] {
      OneNote(Told(PingAcked), added[0]);
    }
  }

  lemma ReplyAfterOne(notes: seq<Note>, n: Note)
    ensures ReplySinceLastPing(notes + [n])
        <==> !IsPingCommand(n) && ((n.Got? && n.p.ptype == PKT_PING_REPLY) || ReplySinceLastPing(notes))
  {
    assert (notes + [n])[..|notes|] == notes;
  }

  lemma TruthAfterOne(notes: seq<Note>, n: Note)
    requires AnswersTrue(notes)
    requires IsPingAnswer(n) ==> (n.r.PingAcked? <==> ReplySinceLastPing(notes))
    ensures AnswersTrue(notes + [n])
  {
    var more := notes + [n];
    forall i | 0 <= i < |more| && IsPingAnswer(more[i])
      ensures more[i].r.PingAcked? <==> ReplySinceLastPing(more[..i])
    {
      assert more[..i] == notes[..i];
    }
  }

  // Ping commands executed = answers written + waiting jobs, in every run; the flag always tells
  // whether a reply came in since the latest ping command, and every answer tells just that; every
  // state reply gives the directory commanded last.
  lemma TrailInvKept(t: Trail, s: HostStep)
    requires TrailInv(t)
    ensures TrailInv(Noted(t, s))
  {
    StepBalances(t.h, s);
    NotesAdd(t.notes, NewNotes(t.h, s));
    FlagKept(t, s);
    TruthKept(t, s);
    StateKept(t, s);
  }

  lemma DirAfterOne(notes: seq<Note>, id: Byte, n: Note)
    requires StatesTrue(notes, id)
    requires n.Told? && n.r.HostState? ==> n.r == HostState(LastDir(notes), id)
    ensures LastDir(notes + [n]) == if n.Did? && n.c.SetDir? then Some(n.c.dir) else LastDir(notes)
    ensures StatesTrue(notes + [n], id)
  {
    var more := notes + [n];
    assert more[..|notes|] == notes;
    forall i | 0 <= i < |more| && more[i].Told? && more[i].r.HostState?
      ensures more[i].r == HostState(LastDir(more[..i]), id)
    {
      assert more[..i] == notes[..i];
    }
  }

  lemma StateKept(t: Trail, s: HostStep)
    requires t.h.dir == LastDir(t.notes) && StatesTrue(t.notes, t.h.id)
    ensures Noted(t, s).h.dir == LastDir(Noted(t, s).notes) && StatesTrue(Noted(t, s).notes, Noted(t, s).h.id)
  {
    var notes, id := NewNotes(t.h, s), t.h.id;
    hide StatesTrue, LastDir, FilePackets, Path, JobsFor;
    if |notes| == 1 {
      DirAfterOne(t.notes, id, notes[0]);
      assert notes == [notes[0]];
    } else if |notes| == 2 {
      DirAfterOne(t.notes, id, notes[0]);
      DirAfterOne(t.notes + [notes[0]], id, notes[1]);
      assert t.notes + notes == (t.notes + [notes[0]]) + [notes[1]];
    } else {
      assert t.notes + notes == t.notes;
    }
  }

  // A note other than a ping command or an accepted packet says nothing about replies.
  lemma ReplyAfterTwo(notes: seq<Note>, first: Note, more: seq<Note>)
    requires forall i :: 0 <= i < |more| ==> more[i].Told?
    requires |more| <= 1
    ensures ReplySinceLastPing(notes + ([first] + more)) == ReplySinceLastPing(notes + [first])
    ensures ReplySinceLastPing(notes + more) == ReplySinceLastPing(notes)
  {
    if |more| == 1 {
      ReplyAfterOne(notes + [first], more[0]);
      ReplyAfterOne(notes, more[0]);
      assert more == [more[0]];
      assert notes + ([first] + more) == (notes + [first]) + [more[0]];
    } else {
      assert [first] + more == [first] && notes + more == notes;
    }
  }

  // The flag says whether a reply came in since the latest ping command, if there was one.
  ghost predicate FlagRight(seen: bool, notes: seq<Note>) {
    PingCommands(notes) > 0 ==> (seen <==> ReplySinceLastPing(notes))
  }

  lemma FlagAfterTold(seen: bool, notes: seq<Note>, told: seq<Note>)
    requires |told| <= 1 && forall i :: 0 <= i < |told| ==> told[i].Told?
    ensures FlagRight(seen, notes + told) <==> FlagRight(seen, notes)
  {
    ReplyAfterTwo(notes, Told(PingAcked), told);
    NotesAdd(notes, told);
    if told != [] {
      OneNote(told[0], PingWait(0));
      assert told == [told[0]];
    }
  }

  lemma FlagAfterOne(seen: bool, notes: seq<Note>, n: Note)
    requires FlagRight(seen, notes) && !n.Told?
    ensures FlagRight(!IsPingCommand(n) && (seen || (n.Got? && n.p.ptype == PKT_PING_REPLY)), notes + [n])
  {
    ReplyAfterOne(notes, n);
    NotesAdd(notes, [n]);
    OneNote(n, PingWait(0));
  }

  lemma FlagKept(t: Trail, s: HostStep)
    requires FlagRight(t.h.pingSeen, t.notes)
    ensures FlagRight(Noted(t, s).h.pingSeen, Noted(t, s).notes)
  {
    hide FlagRight;
    match s
    case DoCommand(c) =>
      var told := ReplyNotes(OnCommand(t.h, c).1);
      FlagAfterOne(t.h.pingSeen, t.notes, Did(c));
      FlagAfterTold(StepHost(t.h, s).pingSeen, t.notes + [Did(c)], told);
      assert t.notes + ([Did(c)] + told) == (t.notes + [Did(c)]) + told;
    case TakePacket(p) =>
      FlagAfterOne(t.h.pingSeen, t.notes, Got(p));
      assert t.notes + [] == t.notes;
    case RunJob(disk) =>
      if t.h.jobs == [] {
        assert t.notes + [] == t.notes;
      } else {
        var ran, told := Ran(t.h.jobs[0], disk), ReplyNotes(OnJob(t.h, disk).1.reply);
        FlagAfterOne(t.h.pingSeen, t.notes, ran);
        FlagAfterTold(t.h.pingSeen, t.notes + [ran], told);
        assert t.notes + ([ran] + told) == (t.notes + [ran]) + told;
      }
  }

  lemma TruthKept(t: Trail, s: HostStep)
    requires TrailInv(t)
    ensures AnswersTrue(Noted(t, s).notes)
  {
    var notes := NewNotes(t.h, s);
    if s.RunJob? && t.h.jobs != [] && t.h.jobs[0].PingWait? {
      WaitsAdd([t.h.jobs[0]], t.h.jobs[1..]);
      OneNote(Told(PingAcked), t.h.jobs[0]);
      assert t.h.jobs == [t.h.jobs[0]] + t.h.jobs[1..];
    }
    if |notes| == 1 {
      TruthAfterOne(t.notes, notes[0]);
      assert notes == [notes[0]];
    } else if |notes| == 2 {
      ReplyAfterOne(t.notes, notes[0]);
      TruthAfterOne(t.notes, notes[0]);
      TruthAfterOne(t.notes + [notes[0]], notes[1]);
      assert t.notes + notes == (t.notes + [notes[0]]) + [notes[1]];
    } else {
      assert t.notes + notes == t.notes;
    }
  }

  function RunTrail(t: Trail, steps: seq<HostStep>): Trail
    decreases |steps|
  {
    if steps == [] then t else RunTrail(Noted(t, steps[0]), steps[1..])
  }

  lemma {:induction false} RunKeepsTrailInv(t: Trail, steps: seq<HostStep>)
    requires TrailInv(t)
    ensures TrailInv(RunTrail(t, steps))
    decreases |steps|
  {
    if steps != [] {
      TrailInvKept(t, steps[0]);
      RunKeepsTrailInv(Noted(t, steps[0]), steps[1..]);
    }
  }

  // In every run of a host from its start: ping commands executed = answers written + waiting
  // jobs, "Ping acked!" was written exactly when a reply had come in since the latest ping command,
  // and every state reply gave the directory commanded last.
  lemma EveryTrail(h: Host, id: Byte, steps: seq<HostStep>)
    requires InitialHost(h, id)
    ensures var t := RunTrail(Trail(h, []), steps);
      && PingCommands(t.notes) == PingAnswers(t.notes) + WaitJobs(t.h.jobs)
      && AnswersTrue(t.notes) && StatesTrue(t.notes, t.h.id)
  {
    RunKeepsTrailInv(Trail(h, []), steps);
  }

  // ---- Termination ----

  lemma {:induction false} PacketsOnlyAppend(h: Host, ps: seq<Packet>)
    ensures h.jobs <= OnPackets(h, ps).jobs
    decreases |ps|
  {
    if ps != [] {
      PacketsOnlyAppend(OnPacket(h, ps[0]), ps[1..]);
    }
  }

  // Commands and packets only ever add jobs behind those already queued.
  lemma BeforeJobOnlyAppends(h: Host, t: Turn)
    ensures h.jobs <= BeforeJob(h, t).jobs
  {
    var h' := if t.command.Some? then OnCommand(h, t.command.value).0 else h;
    PacketsOnlyAppend(h', t.packets);
    assert h.jobs <= h'.jobs;
  }

  predicate IsAnswer(r: Option<Reply>) {
    r == Some(PingAcked) || r == Some(PingTimedOut)
  }

  // One turn moves a waiting job one place forward; at the head it is answered, or goes to the end
  // of the queue with one tick less.
  lemma TurnMovesWait(h: Host, t: Turn, i: nat, timer: int)
    requires i < |h.jobs| && h.jobs[i] == PingWait(timer)
    ensures var (h', effect) := OnTurn(h, t);
      if i > 0 then i - 1 < |h'.jobs| && h'.jobs[i - 1] == PingWait(timer)
      else if BeforeJob(h, t).pingSeen then effect.reply == Some(PingAcked)
      else if timer <= 1 then effect.reply == Some(PingTimedOut)
      else effect.reply == None && h'.jobs != [] && h'.jobs[|h'.jobs| - 1] == PingWait(timer - 1)
  {
    BeforeJobOnlyAppends(h, t);
    var b := BeforeJob(h, t);
    assert b.jobs[i] == h.jobs[i] && b.jobs[0] == h.jobs[0];
    hide BeforeJob;
    var l := Unlogged(b);
    QueueShape(l, RunJob(t.disk));
    hide Added;
    assert Kept(l, RunJob(t.disk)) == b.jobs[1..];
  }

  ghost predicate IsHostRun(run: nat -> Host, turns: nat -> Turn) {
    forall n: nat :: run(n + 1) == OnTurn(run(n), turns(n)).0
  }

  // Whatever commands and packets arrive, a waiting job is answered after finitely many turns; it
  // is executed at the turns listed in `at`, each time with one tick less, so at most `timer` times.
  lemma WaitIsAnswered(run: nat -> Host, turns: nat -> Turn, start: nat, i: nat, timer: int)
    returns (at: seq<nat>)
    requires IsHostRun(run, turns) && timer >= 1
    requires i < |run(start).jobs| && run(start).jobs[i] == PingWait(timer)
    ensures 1 <= |at| <= timer
    ensures forall k :: 0 <= k < |at| ==>
      start <= at[k] && run(at[k]).jobs != [] && run(at[k]).jobs[0] == PingWait(timer - k)
    ensures forall j, k :: 0 <= j < k < |at| ==> at[j] < at[k]
    ensures IsAnswer(OnTurn(run(at[|at| - 1]), turns(at[|at| - 1])).1.reply)
    decreases timer, i
  {
    TurnMovesWait(run(start), turns(start), i, timer);
    hide OnTurn;
    assert run(start + 1) == OnTurn(run(start), turns(start)).0;
    if i > 0 {
      at := WaitIsAnswered(run, turns, start + 1, i - 1, timer);
    } else if IsAnswer(OnTurn(run(start), turns(start)).1.reply) {
      at := [start];
    } else {
      var later := WaitIsAnswered(run, turns, start + 1, |run(start + 1).jobs| - 1, timer - 1);
      at := [start] + later;
      forall k | 0 <= k < |at|
        ensures start <= at[k] && run(at[k]).jobs != [] && run(at[k]).jobs[0] == PingWait(timer - k)
        ensures k > 0 ==> at[k] == later[k - 1] > start
      {
      }
    }
  }

  // Every ping command leads to an answer to the manager: its waiting job is executed at the turns
  // `at`, with one tick less each time, so at most ten times, and answers at the last.
  lemma PingIsAnswered(run: nat -> Host, turns: nat -> Turn, n: nat, dst: int)
    returns (at: seq<nat>)
    requires IsHostRun(run, turns) && turns(n).command == Some(Ping(dst))
    ensures 1 <= |at| <= 10 && n < at[0]
    ensures forall k :: 0 <= k < |at| ==> run(at[k]).jobs != [] && run(at[k]).jobs[0] == PingWait(10 - k)
    ensures forall j, k :: 0 <= j < k < |at| ==> at[j] < at[k]
    ensures IsAnswer(OnTurn(run(at[|at| - 1]), turns(at[|at| - 1])).1.reply)
  {
    WaitIsQueued(run(n), turns(n), dst);
    hide OnTurn;
    assert run(n + 1) == OnTurn(run(n), turns(n)).0;
    at := WaitIsAnswered(run, turns, n + 1, |run(n).jobs|, 10);
  }

  lemma WaitIsQueued(h: Host, t: Turn, dst: int)
    requires t.command == Some(Ping(dst))
    ensures var h' := OnTurn(h, t).0;
      |h.jobs| < |h'.jobs| && h'.jobs[|h.jobs|] == PingWait(10)
  {
    var asked := OnCommand(h, Ping(dst)).0;
    PacketsOnlyAppend(asked, t.packets);
    var b, i := BeforeJob(h, t), |h.jobs| + 1;
    assert b == OnPackets(asked, t.packets) && asked.jobs[i] == PingWait(10) && b.jobs[i] == asked.jobs[i];
    hide OnPackets, BeforeJob, OnCommand;
    JobKeepsRest(b, t.disk);
  }

  lemma JobKeepsRest(h: Host, disk: Disk)
    requires h.jobs != []
    ensures h.jobs[1..] <= OnJob(h, disk).0.jobs
  {
    var l := Unlogged(h);
    QueueShape(l, RunJob(disk));
    hide Added;
    assert Kept(l, RunJob(disk)) == h.jobs[1..];
  }

  // ---- The order within a turn ----

  // A command is executed before the ports are read: a reply read in the same turn counts for the new ping.
  // And the job comes last: with an empty queue, the request goes out in the turn of the command, and a
  // request read in a turn has its reply queued in that turn.
  lemma TurnOrder(h: Host, dst: int, p: Packet, disk: Disk)
    requires h.jobs == [] && p.dst == h.id
    ensures var (h', effect) := OnTurn(h, Turn(Some(Ping(dst)), [p], disk));
      && effect.sent == Some(Packet(h.id, ToChar(dst), 0, []))
      && (h'.pingSeen <==> p.ptype == 1)
    ensures p.ptype == 0 ==>
      OnTurn(h, Turn(None, [p], disk)).0.jobs == [SendPacket(Packet(h.id, p.src, 1, []))]
  {
    var asked := OnCommand(h, Ping(dst)).0;
    assert [p][1..] == [];
    assert OnPackets(asked, [p]) == OnPacket(asked, p) && OnPackets(h, [p]) == OnPacket(h, p);
  }
}
