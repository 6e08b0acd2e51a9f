// What passes between the manager and its hosts: every command arrives as issued, every reply is read as
// written, and each answer the manager reads is to the question it asked.
module Questions {
  import opened Types
  import opened Commands
  import opened Hosts
  import opened HostLogs
  import opened Pings
  import opened Histories
  import opened Manager

  // ---- What was issued, executed, answered and read ----

  function IssuedTo(steps: seq<LabStep>, h: Id): seq<Commands.Command> {
    if steps == [] then []
    else
      var k := |steps| - 1;
      IssuedTo(steps[..k], h) + IssuedBy(steps[k], h)
  }

  function IssuedBy(step: LabStep, h: Id): seq<Commands.Command> {
    if step.Issue? && step.host == h then [step.c] else []
  }

  // The replies of host h that the manager reads in the first i steps.
  ghost function ReadFrom(states: seq<Lab>, steps: seq<LabStep>, i: nat, h: Id): seq<Reply>
    requires IsLabRun(states, steps) && i <= |steps|
  {
    if i == 0 then [] else ReadFrom(states, steps, i - 1, h) + ReadBy(states[i - 1], steps[i - 1], h)
  }

  function ReadBy(lab: Lab, step: LabStep, h: Id): seq<Reply> {
    if step == ReadReply && lab.man.Awaiting? && lab.man.host == h && Queue(lab.replies, h) != []
    then [Queue(lab.replies, h)[0]] else []
  }

  function CommandDone(before: seq<Note>, n: Note): seq<Commands.Command> {
    if n.Did? then [n.c] else []
  }

  function ReplyTold(before: seq<Note>, n: Note): seq<Reply> {
    if n.Told? then [n.r] else []
  }

  function Executed(notes: seq<Note>): seq<Commands.Command> {
    Gather(notes, CommandDone)
  }

  function Answers(notes: seq<Note>): seq<Reply> {
    Gather(notes, ReplyTold)
  }

  function ReplyIn(l: Logged, s: HostStep): Option<Reply> {
    match s
    case DoCommand(c) => OnCommand(l.h, c).1
    case TakePacket(_) => None
    case RunJob(disk) => OnJob(l.h, disk).1.reply
  }

  function AsSeq<T>(x: Option<T>): seq<T> {
    if x.Some? then [x.value] else []
  }

  lemma NotesInOrder(notes: seq<Note>, n: Note)
    ensures Executed(notes + [n]) == Executed(notes) + CommandDone(notes, n)
    ensures Answers(notes + [n]) == Answers(notes) + ReplyTold(notes, n)
  {
    GatherOne(notes, n, CommandDone);
    GatherOne(notes, n, ReplyTold);
  }

  // The notes of a step: at most one thing that happened, then at most one reply.
  lemma StepNoted(l: Logged, s: HostStep)
    ensures var n, r := Happens(l, s), ReplyIn(l, s);
      && (n.Some? ==> !n.value.Told? && (n.value.Did? <==> s.DoCommand?) && (s.DoCommand? ==> n.value.c == s.c))
      && (n.None? ==> !s.DoCommand? && r.None?)
      && After(l, s).notes == l.notes + AsSeq(n) + ReplyNotes(r)
  {
    if s.RunJob? && l.h.jobs != [] {
      assert NewNotes(l.h, s) == [Ran(l.h.jobs[0], s.disk)] + ReplyNotes(OnJob(l.h, s.disk).1.reply);
    }
    assert l.notes + [] == l.notes;
  }

  lemma StepTells(l: Logged, s: HostStep)
    ensures Executed(After(l, s).notes) == Executed(l.notes) + if s.DoCommand? then [s.c] else []
    ensures Answers(After(l, s).notes) == Answers(l.notes) + AsSeq(ReplyIn(l, s))
  {
    StepNoted(l, s);
    var n, r := Happens(l, s), ReplyIn(l, s);
    hide After, Happens, ReplyIn, Gather;
    if n.Some? {
      NotesInOrder(l.notes, n.value);
    }
    var once := l.notes + AsSeq(n);
    if r.Some? {
      NotesInOrder(once, Told(r.value));
    }
    assert once + [] == once && l.notes + [] == l.notes;
    assert Executed(l.notes) + [] == Executed(l.notes) && Answers(l.notes) + [] == Answers(l.notes);
    assert Executed(once) + [] == Executed(once) && Answers(once) + [] == Answers(once);
  }

  // What host h does in a step, if anything.
  function HostPart(lab: Lab, step: LabStep, h: Id): Option<HostStep>
    requires CanStep(lab, step)
  {
    match step
    case Execute(x) => if x == h then Some(DoCommand(Queue(lab.commands, h)[0])) else None
    case Packet(x, p) => if x == h then Some(TakePacket(p)) else None
    case Work(x, disk) => if x == h then Some(RunJob(disk)) else None
    case _ => None
  }

  function CommandBy(s: Option<HostStep>): seq<Commands.Command> {
    if s.Some? && s.value.DoCommand? then [s.value.c] else []
  }

  function ReplyBy(lab: Lab, s: Option<HostStep>, h: Id): seq<Reply>
    requires h in lab.hosts
  {
    if s.Some? then AsSeq(ReplyIn(lab.hosts[h], s.value)) else []
  }

  lemma HostAfter(lab: Lab, step: LabStep, h: Id)
    requires CanStep(lab, step) && h in lab.hosts
    ensures h in LabNext(lab, step).hosts
    ensures var s := HostPart(lab, step, h);
      LabNext(lab, step).hosts[h] == if s.Some? then After(lab.hosts[h], s.value) else lab.hosts[h]
  {
  }

  // Commands wait in order ...
  lemma CommandsAfter(lab: Lab, step: LabStep, h: Id)
    requires CanStep(lab, step) && h in lab.hosts
    ensures CommandBy(HostPart(lab, step, h)) + Queue(LabNext(lab, step).commands, h)
         == Queue(lab.commands, h) + IssuedBy(step, h)
  {
    var cs := Queue(lab.commands, h);
    assert cs + [] == cs && [] + cs == cs;
    hide OnCommand, OnJob, HostLogs.After;
  }

  // ... and so do replies.
  lemma RepliesAfter(lab: Lab, step: LabStep, h: Id)
    requires CanStep(lab, step) && h in lab.hosts
    ensures ReadBy(lab, step, h) + Queue(LabNext(lab, step).replies, h)
         == Queue(lab.replies, h) + ReplyBy(lab, HostPart(lab, step, h), h)
  {
    hide OnCommand, OnJob, HostLogs.After;
    var rs := Queue(lab.replies, h);
    assert rs + [] == rs && [] + rs == rs;
    match step
    case ReadReply =>
    case Execute(x) => ToldAfter(lab, x, OnCommand(lab.hosts[x].h, Queue(lab.commands, x)[0]).1, h);
    case Work(x, disk) => ToldAfter(lab, x, OnJob(lab.hosts[x].h, disk).1.reply, h);
    case _ =>
  }

  lemma ToldAfter(lab: Lab, x: Id, r: Option<Reply>, h: Id)
    ensures Queue(Manager.Told(lab, x, r), h) == Queue(lab.replies, h) + if x == h then AsSeq(r) else []
  {
    assert Queue(lab.replies, h) + [] == Queue(lab.replies, h);
  }

  // In every run: the commands issued to a host are those it has executed and then those on their way to it,
  // as issued and in order; the replies it has written are those the manager has read and then those on
  // their way back.
  lemma {:induction false} NothingLostBetween(states: seq<Lab>, steps: seq<LabStep>, i: nat, h: Id)
    requires IsLabRun(states, steps) && i <= |steps| && h in states[0].hosts
    ensures h in states[i].hosts
    ensures IssuedTo(steps[..i], h) == Executed(states[i].hosts[h].notes) + Queue(states[i].commands, h)
    ensures Answers(states[i].hosts[h].notes) == ReadFrom(states, steps, i, h) + Queue(states[i].replies, h)
  {
    hide LabNext, CanStep, HostPart, ReadBy, IssuedBy, CommandBy, ReplyBy, Executed, Answers, Queue;
    if i == 0 {
      NothingYet(states, steps, h);
    } else {
      NothingLostBetween(states, steps, i - 1, h);
      var lab, lab', step := states[i - 1], states[i], steps[i - 1];
      assert CanStep(lab, step) && lab' == LabNext(lab, step);
      CommandsAfter(lab, step, h);
      RepliesAfter(lab, step, h);
      HostTells(lab, step, h);
      assert steps[..i][..i - 1] == steps[..i - 1] && steps[..i][i - 1] == step;
      var s := HostPart(lab, step, h);
      Regroup(Executed(lab.hosts[h].notes), CommandBy(s), Queue(lab'.commands, h), Queue(lab.commands, h),
              IssuedBy(step, h));
      Regroup(ReadFrom(states, steps, i - 1, h), ReadBy(lab, step, h), Queue(lab'.replies, h), Queue(lab.replies, h),
              ReplyBy(lab, s, h));
    }
  }

  lemma HostTells(lab: Lab, step: LabStep, h: Id)
    requires CanStep(lab, step) && h in lab.hosts
    ensures h in LabNext(lab, step).hosts
    ensures var s, notes, notes' := HostPart(lab, step, h), lab.hosts[h].notes, LabNext(lab, step).hosts[h].notes;
      Executed(notes') == Executed(notes) + CommandBy(s) && Answers(notes') == Answers(notes) + ReplyBy(lab, s, h)
  {
    HostAfter(lab, step, h);
    var s := HostPart(lab, step, h);
    hide LabNext, CanStep, HostPart, Executed, Answers, HostLogs.After, ReplyIn;
    if s.Some? {
      StepTells(lab.hosts[h], s.value);
    } else {
      var notes := lab.hosts[h].notes;
      assert Executed(notes) + [] == Executed(notes) && Answers(notes) + [] == Answers(notes);
    }
  }

  lemma NothingYet(states: seq<Lab>, steps: seq<LabStep>, h: Id)
    requires IsLabRun(states, steps) && h in states[0].hosts
    ensures IssuedTo(steps[..0], h) == Executed(states[0].hosts[h].notes) + Queue(states[0].commands, h)
    ensures Answers(states[0].hosts[h].notes) == ReadFrom(states, steps, 0, h) + Queue(states[0].replies, h)
  {
    assert InitialLog(states[0].hosts[h], h);
  }

  lemma Regroup<T>(done: seq<T>, now: seq<T>, left: seq<T>, queue: seq<T>, more: seq<T>)
    requires now + left == queue + more
    ensures (done + now) + left == (done + queue) + more
    ensures done + [] == done
  {
    assert (done + now) + left == done + (now + left);
    assert (done + queue) + more == done + (queue + more);
  }

  // ---- Which question an answer is to ----

  // At no moment has a host given more answers than it has been asked questions.
  ghost predicate NeverAhead(notes: seq<Note>) {
    forall i :: 0 <= i <= |notes| ==> |Answers(notes[..i])| <= BlockingIn(Executed(notes[..i]))
  }

  // An answer to a ping is given by a waiting job.
  predicate GivenByWaits(notes: seq<Note>) {
    forall i :: 0 <= i < |notes| && IsPingAnswer(notes[i]) ==> i > 0 && notes[i - 1].Ran? && notes[i - 1].job.PingWait?
  }

  ghost predicate AskInv(l: Logged) {
    && HistoryInv(l) && NeverAhead(l.notes) && GivenByWaits(l.notes)
    && BlockingIn(Executed(l.notes)) == |Answers(l.notes)| + WaitJobs(l.h.jobs)
  }

  lemma StepAsks(l: Logged, s: HostStep)
    requires BlockingIn(Executed(l.notes)) == |Answers(l.notes)| + WaitJobs(l.h.jobs)
    ensures BlockingIn(Executed(After(l, s).notes)) == |Answers(After(l, s).notes)| + WaitJobs(After(l, s).h.jobs)
  {
    StepTells(l, s);
    match s
    case DoCommand(c) =>
      CommandWaits(l.h, c);
      OneCommand(c);
      BlockingAdd(Executed(l.notes), [c]);
    case TakePacket(p) =>
      PacketWaits(l.h, p);
      assert Executed(l.notes) + [] == Executed(l.notes);
    case RunJob(disk) =>
      JobWaits(l.h, disk);
      assert Executed(l.notes) + [] == Executed(l.notes);
  }

  lemma AheadOne(notes: seq<Note>, n: Note)
    requires NeverAhead(notes) && |Answers(notes + [n])| <= BlockingIn(Executed(notes + [n]))
    ensures NeverAhead(notes + [n])
  {
    var more := notes + [n];
    hide Answers, Executed, BlockingIn;
    forall i | 0 <= i <= |more|
      ensures |Answers(more[..i])| <= BlockingIn(Executed(more[..i]))
    {
      assert if i <= |notes| then more[..i] == notes[..i] else more[..i] == more;
    }
  }

  lemma NoAnswerYet(notes: seq<Note>, n: Note)
    requires !n.Told? && |Answers(notes)| <= BlockingIn(Executed(notes))
    ensures |Answers(notes + [n])| <= BlockingIn(Executed(notes + [n]))
  {
    NotesInOrder(notes, n);
    BlockingAdd(Executed(notes), CommandDone(notes, n));
  }

  lemma AheadKept(l: Logged, s: HostStep)
    requires NeverAhead(l.notes) && |Answers(After(l, s).notes)| <= BlockingIn(Executed(After(l, s).notes))
    ensures NeverAhead(After(l, s).notes)
  {
    StepNoted(l, s);
    var n, r := Happens(l, s), ReplyIn(l, s);
    hide HostLogs.After, Happens, ReplyIn, NeverAhead, Answers, Executed, BlockingIn;
    var once := l.notes + AsSeq(n);
    if n.Some? {
      AllOfThem(l.notes);
      NoAnswerYet(l.notes, n.value);
      AheadOne(l.notes, n.value);
    } else {
      assert once == l.notes;
    }
    if r.Some? {
      AheadOne(once, Told(r.value));
    } else {
      assert once + [] == once;
    }
  }

  lemma AllOfThem(notes: seq<Note>)
    requires NeverAhead(notes)
    ensures |Answers(notes)| <= BlockingIn(Executed(notes))
  {
    assert notes[..|notes|] == notes;
  }

  lemma WaitsGive(l: Logged, s: HostStep)
    requires GivenByWaits(l.notes)
    ensures GivenByWaits(After(l, s).notes)
  {
    StepNoted(l, s);
    var n, r := Happens(l, s), ReplyIn(l, s);
    assert r.Some? && !r.value.HostState? ==> s.RunJob? && l.h.jobs != [] && l.h.jobs[0].PingWait?;
    var notes := l.notes + AsSeq(n) + ReplyNotes(r);
    hide HostLogs.After, NewNotes;
    forall i | 0 <= i < |notes| && IsPingAnswer(notes[i])
      ensures i > 0 && notes[i - 1].Ran? && notes[i - 1].job.PingWait?
    {
      if i < |l.notes| {
        assert notes[i] == l.notes[i] && (i > 0 ==> notes[i - 1] == l.notes[i - 1]);
      }
    }
  }

  lemma AskKept(l: Logged, s: HostStep)
    requires AskInv(l)
    ensures AskInv(After(l, s))
  {
    hide HostLogs.After, HistoryInv, NeverAhead, GivenByWaits, Answers, Executed, BlockingIn, WaitJobs;
    HistoryKept(l, s);
    StepAsks(l, s);
    AheadKept(l, s);
    WaitsGive(l, s);
  }

  lemma AskInitially(l: Logged, id: Byte)
    requires InitialLog(l, id)
    ensures AskInv(l)
  {
  }

  lemma {:induction false} EveryHostAsked(states: seq<Lab>, steps: seq<LabStep>, i: nat, h: Id)
    requires IsLabRun(states, steps) && i <= |steps| && h in states[0].hosts
    ensures h in states[i].hosts && AskInv(states[i].hosts[h])
  {
    hide AskInv, LabNext, CanStep, HostPart;
    if i == 0 {
      AskInitially(states[0].hosts[h], h);
    } else {
      EveryHostAsked(states, steps, i - 1, h);
      HostAfter(states[i - 1], steps[i - 1], h);
      var s := HostPart(states[i - 1], steps[i - 1], h);
      if s.Some? {
        AskKept(states[i - 1].hosts[h], s.value);
      }
    }
  }

  lemma ManagerAfter(lab: Lab, step: LabStep)
    requires CanStep(lab, step)
    ensures step.Issue? ==> lab.man == Ready && step.host in lab.hosts
    ensures LabNext(lab, step).man == if step.Issue? && Blocks(step.c) then Awaiting(step.host, KindOf(step.c))
                                      else if step.Issue? || step.ReadReply? then Ready else lab.man
  {
    hide HostLogs.After, OnCommand, OnJob;
  }

  // While the manager waits for host h, the last command issued to h is the question.
  lemma {:induction false} LastIsQuestion(states: seq<Lab>, steps: seq<LabStep>, i: nat)
    requires IsLabRun(states, steps) && i <= |steps| && states[i].man.Awaiting?
    ensures var issued := IssuedTo(steps[..i], states[i].man.host);
      && issued != [] && Blocks(issued[|issued| - 1])
      && KindOf(issued[|issued| - 1]) == states[i].man.kind && states[i].man.host in states[0].hosts
  {
    hide CanStep, LabNext;
    var step := steps[i - 1];
    assert states[0].man == Ready && CanStep(states[i - 1], step) && states[i] == LabNext(states[i - 1], step);
    ManagerAfter(states[i - 1], step);
    assert steps[..i][..i - 1] == steps[..i - 1] && steps[..i][i - 1] == step;
    SameHostsAlways(states, steps, i - 1);
    if !step.Issue? {
      LastIsQuestion(states, steps, i - 1);
      assert IssuedTo(steps[..i - 1], states[i].man.host) + [] == IssuedTo(steps[..i - 1], states[i].man.host);
    }
  }

  lemma {:induction false} SameHostsAlways(states: seq<Lab>, steps: seq<LabStep>, i: nat)
    requires IsLabRun(states, steps) && i <= |steps|
    ensures states[i].hosts.Keys == states[0].hosts.Keys
  {
    if i > 0 {
      SameHostsAlways(states, steps, i - 1);
      assert CanStep(states[i - 1], steps[i - 1]) && states[i] == LabNext(states[i - 1], steps[i - 1]);
      hide HostLogs.After, OnCommand, OnJob;
    }
  }

  // ---- Reading history backwards ----

  // The last note that contributes anything, when each contributes at most one thing.
  lemma {:induction false} LastOf<T>(notes: seq<Note>, part: (seq<Note>, Note) -> seq<T>) returns (k: nat)
    requires Gather(notes, part) != [] && forall before, n :: |part(before, n)| <= 1
    ensures k < |notes| && Gather(notes[..k], part) + part(notes[..k], notes[k]) == Gather(notes, part)
    ensures |part(notes[..k], notes[k])| == 1
    ensures forall j :: k < j < |notes| ==> part(notes[..j], notes[j]) == []
  {
    var last := |notes| - 1;
    if part(notes[..last], notes[last]) != [] {
      k := last;
    } else {
      var front := notes[..last];
      k := LastOf(front, part);
      assert front[..k] == notes[..k];
      forall j | k < j < |notes|
        ensures part(notes[..j], notes[j]) == []
      {
        assert j < last ==> front[..j] == notes[..j] && front[j] == notes[j];
      }
    }
  }

  lemma {:induction false} GatherGrows<T>(notes: seq<Note>, i: nat, part: (seq<Note>, Note) -> seq<T>)
    requires i <= |notes|
    ensures Gather(notes[..i], part) <= Gather(notes, part)
  {
    if i < |notes| {
      var front := notes[..|notes| - 1];
      GatherGrows(front, i, part);
      assert front[..i] == notes[..i];
    } else {
      assert notes[..i] == notes;
    }
  }

  // The directory set last among these commands.
  function LastSet(cs: seq<Commands.Command>): Option<Bytes> {
    if cs == [] then None
    else if cs[|cs| - 1].SetDir? then Some(cs[|cs| - 1].dir) else LastSet(cs[..|cs| - 1])
  }

  lemma {:induction false} DirFromCommands(notes: seq<Note>)
    ensures LastDir(notes) == LastSet(Executed(notes))
  {
    if notes != [] {
      var front, last := notes[..|notes| - 1], notes[|notes| - 1];
      DirFromCommands(front);
      assert notes == front + [last];
      NotesInOrder(front, last);
      assert Executed(front) + [] == Executed(front);
      assert last.Did? ==> (Executed(front) + [last.c])[..|Executed(front)|] == Executed(front);
    }
  }

  // Since the ping command at place k, the last one.
  lemma {:induction false} SincePing(notes: seq<Note>, k: nat)
    requires k < |notes| && IsPingCommand(notes[k]) && forall j :: k < j < |notes| ==> !notes[j].Did?
    ensures ReplySinceLastPing(notes) <==> exists j :: k < j < |notes| && notes[j].Got? && notes[j].p.ptype == 1
  {
    var front, last := notes[..|notes| - 1], notes[|notes| - 1];
    if k < |front| {
      SincePing(front, k);
      assert forall j :: 0 <= j < |front| ==> front[j] == notes[j];
    }
  }

  // ---- The answer is to the question ----

  predicate IsPingRequest(u: Unit) {
    u.Single? && u.packet.ptype == 0
  }

  // The ping requests that these commands ask host h for.
  function PingsAsked(h: Id, cs: seq<Commands.Command>): seq<Unit> {
    if cs == [] then []
    else
      var k := |cs| - 1;
      PingsAsked(h, cs[..k]) + if cs[k].Ping? then [Single(Types.Packet(h, ToChar(cs[k].dst), 0, []))] else []
  }

  lemma {:induction false} RequestsFromCommands(h: Id, notes: seq<Note>)
    ensures Filter(Undertaken(h, notes), IsPingRequest) == PingsAsked(h, Executed(notes))
  {
    if notes != [] {
      var front, last := notes[..|notes| - 1], notes[|notes| - 1];
      RequestsFromCommands(h, front);
      assert notes == front + [last];
      OneMore(h, front, last);
      NotesInOrder(front, last);
      FilterConcat(Undertaken(h, front), Undertakes(h, front, last), IsPingRequest);
      UndertakenPings(h, front, last);
      assert Executed(front) + [] == Executed(front);
      assert last.Did? ==> (Executed(front) + [last.c])[..|Executed(front)|] == Executed(front);
    }
  }

  lemma UndertakenPings(h: Id, before: seq<Note>, n: Note)
    ensures Filter(Undertakes(h, before, n), IsPingRequest)
         == if n.Did? && n.c.Ping? then [Single(Types.Packet(h, ToChar(n.c.dst), 0, []))] else []
  {
    var units := Undertakes(h, before, n);
    if units != [] {
      assert units == [units[0]];
      FilterOne(units[0], IsPingRequest);
    }
  }

  // The answer r, written at place m of a host's history, is to the command q executed at place k.
  ghost predicate AnswersTo(h: Id, notes: seq<Note>, issued: seq<Commands.Command>, q: Commands.Command, r: Reply,
                           k: nat, m: nat)
  {
    && k < m < |notes| && notes[k] == Did(q) && notes[m] == HostLogs.Told(r)
    && (forall j :: k < j < |notes| ==> !notes[j].Did?)
    && match q
       case ShowState => r == HostState(LastSet(issued), h)
       case Ping(dst) =>
         && (r == PingAcked || r == PingTimedOut) && notes[m - 1].Ran? && notes[m - 1].job.PingWait?
         && (r == PingAcked <==> exists j :: k < j < m && notes[j].Got? && notes[j].p.ptype == 1)
       case _ => false
  }

  lemma QuestionLeft(done: seq<Commands.Command>, left: seq<Commands.Command>)
    ensures left != [] && Blocks((done + left)[|done + left| - 1]) ==> BlockingIn(left) > 0
  {
    if left != [] {
      var front, last := left[..|left| - 1], left[|left| - 1];
      assert left == front + [last];
      BlockingAdd(front, [last]);
      OneCommand(last);
    }
  }

  // In every run: whenever the manager reads a reply, all it has issued to that host has been executed, and the
  // reply is the answer to the last command. A state reply gives the directory last set by a command to that
  // host; an answer to a ping is given by a job that waits for the reply, and says whether a ping reply has been
  // accepted since that very command. The ping requests the host has undertaken are those of the ping commands
  // issued to it, so the last one goes where the manager said.
  lemma AnswerIsToQuestion(states: seq<Lab>, steps: seq<LabStep>, i: nat) returns (k: nat, m: nat)
    requires IsLabRun(states, steps) && i < |steps| && steps[i] == ReadReply
    ensures states[i].man.Awaiting? && states[i].man.host in states[i].hosts
    ensures var h, issued := states[i].man.host, IssuedTo(steps[..i], states[i].man.host);
      && Queue(states[i].replies, h) != [] && issued != [] && Executed(states[i].hosts[h].notes) == issued
      && AnswersTo(h, states[i].hosts[h].notes, issued, issued[|issued| - 1], Queue(states[i].replies, h)[0], k, m)
      && Filter(states[i].hosts[h].units, IsPingRequest) == PingsAsked(h, issued)
  {
    hide *;
    ReadAtLast(states, steps, i);
    var h := states[i].man.host;
    LastIsQuestion(states, steps, i);
    ReplyFitsQuestion(states, steps, i);
    NothingLostBetween(states, steps, i, h);
    EveryHostAsked(states, steps, i, h);
    var l := states[i].hosts[h];
    QuestionLeft(Executed(l.notes), Queue(states[i].commands, h));
    NothingLeft(Executed(l.notes), Queue(states[i].commands, h));
    k, m := AnswerAt(l, h, ReadFrom(states, steps, i, h), Queue(states[i].replies, h)[0]);
  }

  // When the manager reads its reply, that is all that is outstanding.
  lemma ReadAtLast(states: seq<Lab>, steps: seq<LabStep>, i: nat)
    requires IsLabRun(states, steps) && i < |steps| && steps[i] == ReadReply
    ensures i < |states|
    ensures var h := states[i].man.host;
      && states[i].man.Awaiting? && h in states[i].hosts && states[i].hosts[h].h.id == h
      && BlockingIn(Queue(states[i].commands, h)) == 0 && WaitJobs(states[i].hosts[h].h.jobs) == 0
      && Queue(states[i].replies, h) != [] && Queue(states[i].replies, h) == [Queue(states[i].replies, h)[0]]
  {
    assert CanStep(states[i], ReadReply);
    LabRunInv(states, steps, i);
    hide BlockingIn, WaitJobs, LabNext;
    assert HostInStep(states[i], states[i].man.host);
  }

  lemma NothingLeft(done: seq<Commands.Command>, left: seq<Commands.Command>)
    ensures left == [] ==> done + left == done
  {
  }

  // The last command, and that no command comes after it.
  lemma LastCommandAt(notes: seq<Note>) returns (k: nat)
    requires Executed(notes) != []
    ensures k < |notes| && notes[k] == Did(Executed(notes)[|Executed(notes)| - 1])
    ensures forall j :: k < j < |notes| ==> !notes[j].Did?
    ensures Executed(notes[..k]) == Executed(notes)[..|Executed(notes)| - 1]
  {
    k := LastOf(notes, CommandDone);
    assert Executed(notes) == Executed(notes[..k]) + [notes[k].c];
    forall j | k < j < |notes|
      ensures !notes[j].Did?
    {
      assert CommandDone(notes[..j], notes[j]) == [];
    }
  }

  lemma LastAnswerAt(notes: seq<Note>, read: seq<Reply>, r: Reply) returns (m: nat)
    requires Answers(notes) == read + [r]
    ensures m < |notes| && notes[m] == HostLogs.Told(r) && Answers(notes[..m]) == read
  {
    m := LastOf(notes, ReplyTold);
    var before := Answers(notes[..m]);
    assert read + [r] == before + [notes[m].r];
    assert read == (read + [r])[..|read|] == before && r == (read + [r])[|read|] == notes[m].r;
  }

  // As many answers as questions: the last question comes before the last answer.
  lemma QuestionFirst(notes: seq<Note>, read: seq<Reply>, r: Reply, k: nat, m: nat)
    requires NeverAhead(notes) && k < |notes| && m < |notes| && notes[m] == HostLogs.Told(r) && notes[k].Did?
    requires Answers(notes) == read + [r] && Answers(notes[..m]) == read
    requires Executed(notes) == Executed(notes[..k]) + [notes[k].c] && Blocks(notes[k].c)
    requires BlockingIn(Executed(notes)) == |Answers(notes)|
    ensures k < m
  {
    if m < k {
      assert |Answers(notes[..m + 1])| <= BlockingIn(Executed(notes[..m + 1]));
      assert notes[..m + 1] == notes[..m] + [notes[m]];
      NotesInOrder(notes[..m], notes[m]);
      var front := notes[..k];
      assert front[..m + 1] == notes[..m + 1];
      GatherGrows(front, m + 1, CommandDone);
      BlockingGrows(Executed(notes[..m + 1]), Executed(front));
      BlockingAdd(Executed(front), [notes[k].c]);
      OneCommand(notes[k].c);
      assert false;
    }
  }

  lemma BlockingGrows(a: seq<Commands.Command>, b: seq<Commands.Command>)
    requires a <= b
    ensures BlockingIn(a) <= BlockingIn(b)
  {
    assert b == a + b[|a|..];
    BlockingAdd(a, b[|a|..]);
  }

  // Nothing was executed after the last command.
  lemma ExecutedBy(notes: seq<Note>, k: nat, m: nat)
    requires k < m <= |notes| && notes[k].Did? && Executed(notes) == Executed(notes[..k]) + [notes[k].c]
    ensures Executed(notes[..m]) == Executed(notes)
  {
    assert notes[..k + 1] == notes[..k] + [notes[k]];
    NotesInOrder(notes[..k], notes[k]);
    GatherGrows(notes, m, CommandDone);
    var front := notes[..m];
    assert front[..k + 1] == notes[..k + 1];
    GatherGrows(front, k + 1, CommandDone);
  }

  lemma TrailOf(l: Logged)
    requires HistoryInv(l)
    ensures AnswersTrue(l.notes) && StatesTrue(l.notes, l.h.id) && l.units == Undertaken(l.h.id, l.notes)
  {
    hide AnswersTrue, StatesTrue, QueueIsHistory;
  }

  // What the last answer says.
  lemma AnswerSays(h: Id, notes: seq<Note>, k: nat, m: nat)
    requires AnswersTrue(notes) && StatesTrue(notes, h) && GivenByWaits(notes)
    requires k < m < |notes| && notes[k].Did? && notes[m].Told? && Blocks(notes[k].c)
    requires KindOf(notes[k].c) == ReplyKind(notes[m].r) && forall j :: k < j < |notes| ==> !notes[j].Did?
    requires Executed(notes) == Executed(notes[..k]) + [notes[k].c]
    ensures AnswersTo(h, notes, Executed(notes), notes[k].c, notes[m].r, k, m)
  {
    if notes[k].c.ShowState? {
      ExecutedBy(notes, k, m);
      DirFromCommands(notes[..m]);
    } else {
      var before := notes[..m];
      SincePing(before, k);
      assert forall j :: 0 <= j < m ==> before[j] == notes[j];
    }
  }

  lemma AnswerAt(l: Logged, h: Id, read: seq<Reply>, r: Reply) returns (k: nat, m: nat)
    requires AskInv(l) && l.h.id == h && WaitJobs(l.h.jobs) == 0 && Answers(l.notes) == read + [r]
    requires Executed(l.notes) != [] && Blocks(Executed(l.notes)[|Executed(l.notes)| - 1])
    requires KindOf(Executed(l.notes)[|Executed(l.notes)| - 1]) == ReplyKind(r)
    ensures AnswersTo(h, l.notes, Executed(l.notes), Executed(l.notes)[|Executed(l.notes)| - 1], r, k, m)
    ensures Filter(l.units, IsPingRequest) == PingsAsked(h, Executed(l.notes))
  {
    hide HistoryInv, NeverAhead, GivenByWaits, AnswersTo, Executed, Answers, BlockingIn, WaitJobs, Undertaken, Filter;
    var notes := l.notes;
    k := LastCommandAt(notes);
    m := LastAnswerAt(notes, read, r);
    TrailOf(l);
    QuestionFirst(notes, read, r, k, m);
    AnswerSays(h, notes, k, m);
    RequestsFromCommands(h, notes);
  }

  // ---- The manager is never stuck ----

  // Whatever hosts there are, a run can start.
  lemma SomeLab(hosts: set<Id>) returns (lab: Lab)
    ensures LabStarts(lab) && lab.hosts.Keys == hosts && IsLabRun([lab], [])
  {
    lab := Lab(Ready, map[], map[], map h: Id | h in hosts :: Unlogged(Host(h, None, [], false, [], [])));
  }

  ghost predicate LabCan(lab: Lab, steps: seq<LabStep>)
    decreases |steps|
  {
    steps == [] || (CanStep(lab, steps[0]) && LabCan(LabNext(lab, steps[0]), steps[1..]))
  }

  ghost function LabGo(lab: Lab, steps: seq<LabStep>): Lab
    requires LabCan(lab, steps)
    decreases |steps|
  {
    if steps == [] then lab else LabGo(LabNext(lab, steps[0]), steps[1..])
  }

  // Steps of host h alone.
  predicate OnlyWorks(steps: seq<LabStep>, h: Id) {
    forall i :: 0 <= i < |steps| ==> (steps[i].Execute? || steps[i].Work?) && steps[i].host == h
  }

  lemma OneLabStep(lab: Lab, step: LabStep, rest: seq<LabStep>)
    requires CanStep(lab, step) && LabCan(LabNext(lab, step), rest)
    ensures LabCan(lab, [step] + rest) && LabGo(lab, [step] + rest) == LabGo(LabNext(lab, step), rest)
  {
    assert ([step] + rest)[0] == step && ([step] + rest)[1..] == rest;
  }

  lemma {:induction false} SomeWait(jobs: seq<Job>) returns (i: nat)
    requires WaitJobs(jobs) > 0
    ensures i < |jobs| && jobs[i].PingWait?
  {
    if jobs[0].PingWait? {
      i := 0;
    } else {
      assert jobs == [jobs[0]] + jobs[1..];
      WaitsAdd([jobs[0]], jobs[1..]);
      OneNote(HostLogs.Told(PingAcked), jobs[0]);
      var k := SomeWait(jobs[1..]);
      i := k + 1;
    }
  }

  // Executing a job moves a waiting job forward; at the head it answers or goes to the end with a tick less.
  lemma WorkMovesWait(l: Logged, disk: Disk, i: nat)
    requires i < |l.h.jobs| && l.h.jobs[i].PingWait?
    ensures var l', timer := After(l, RunJob(disk)), l.h.jobs[i].timer;
      && (i > 0 ==> i - 1 < |l'.h.jobs| && l'.h.jobs[i - 1] == PingWait(timer))
      && (i == 0 ==>
            || OnJob(l.h, disk).1.reply.Some?
            || (timer > 1 && l'.h.jobs != [] && l'.h.jobs[|l'.h.jobs| - 1] == PingWait(timer - 1)))
  {
    QueueShape(l, RunJob(disk));
    hide HostLogs.After, Added;
    assert Kept(l, RunJob(disk)) == l.h.jobs[1..];
    if i == 0 {
      LastWait(l, disk);
    }
  }

  lemma LastWait(l: Logged, disk: Disk)
    requires l.h.jobs != [] && l.h.jobs[0].PingWait?
    ensures OnJob(l.h, disk).1.reply.Some?
         || (l.h.jobs[0].timer > 1 && Added(l, RunJob(disk)) == [PingWait(l.h.jobs[0].timer - 1)])
  {
  }

  lemma WorkLeaves(lab: Lab, h: Id, disk: Disk)
    requires h in lab.hosts && lab.man.Awaiting? && lab.man.host == h && Queue(lab.commands, h) == []
    ensures CanStep(lab, Work(h, disk))
    ensures var lab' := LabNext(lab, Work(h, disk));
      && lab'.man == lab.man && Queue(lab'.commands, h) == [] && h in lab'.hosts
      && lab'.hosts[h] == After(lab.hosts[h], RunJob(disk))
      && (OnJob(lab.hosts[h].h, disk).1.reply.Some? ==> CanStep(lab', ReadReply))
  {
    hide HostLogs.After, OnJob;
  }

  // The waiting job at place i answers in the end.
  lemma {:induction false} WaitAnswers(lab: Lab, h: Id, i: nat) returns (steps: seq<LabStep>)
    requires h in lab.hosts && lab.man.Awaiting? && lab.man.host == h && Queue(lab.commands, h) == []
    requires i < |lab.hosts[h].h.jobs| && lab.hosts[h].h.jobs[i].PingWait?
    ensures OnlyWorks(steps, h) && LabCan(lab, steps) && CanStep(LabGo(lab, steps), ReadReply)
    decreases Max(1, lab.hosts[h].h.jobs[i].timer), i
  {
    var disk := Disk(map[], false);
    var step, lab' := Work(h, disk), LabNext(lab, Work(h, disk));
    WorkLeaves(lab, h, disk);
    WorkMovesWait(lab.hosts[h], disk, i);
    hide LabNext, HostLogs.After, OnJob, CanStep, Queue;
    var rest: seq<LabStep> := [];
    if i > 0 {
      rest := WaitAnswers(lab', h, i - 1);
    } else if !OnJob(lab.hosts[h].h, disk).1.reply.Some? {
      rest := WaitAnswers(lab', h, |lab'.hosts[h].h.jobs| - 1);
    }
    steps := [step] + rest;
    OneLabStep(lab, step, rest);
  }

  lemma ExecuteLeaves(lab: Lab, h: Id)
    requires LabInv(lab) && lab.man.Awaiting? && lab.man.host == h && Queue(lab.commands, h) != []
    ensures CanStep(lab, Execute(h))
    ensures var lab' := LabNext(lab, Execute(h));
      LabInv(lab') && lab'.man == lab.man && Queue(lab'.commands, h) == Queue(lab.commands, h)[1..]
  {
    hide LabInv, HostLogs.After, OnCommand;
    InvHost(lab);
    LabInvKept(lab, Execute(h));
  }

  lemma InvHost(lab: Lab)
    requires LabInv(lab) && lab.man.Awaiting?
    ensures lab.man.host in lab.hosts && Outstanding(lab, lab.man.host) == 1
  {
    assert HostInStep(lab, lab.man.host);
  }

  lemma WaitLeft(lab: Lab) returns (i: nat)
    requires LabInv(lab) && lab.man.Awaiting?
    requires Queue(lab.replies, lab.man.host) == [] && Queue(lab.commands, lab.man.host) == []
    ensures lab.man.host in lab.hosts && i < |lab.hosts[lab.man.host].h.jobs|
    ensures lab.hosts[lab.man.host].h.jobs[i].PingWait?
  {
    InvHost(lab);
    i := SomeWait(lab.hosts[lab.man.host].h.jobs);
  }

  lemma AnswerThere(lab: Lab)
    requires LabInv(lab) && lab.man.Awaiting? && Queue(lab.replies, lab.man.host) != []
    ensures OnlyWorks([], lab.man.host) && LabCan(lab, []) && CanStep(LabGo(lab, []), ReadReply)
  {
  }

  lemma OneMoreWorks(step: LabStep, rest: seq<LabStep>, h: Id)
    requires OnlyWorks(rest, h) && (step.Execute? || step.Work?) && step.host == h
    ensures OnlyWorks([step] + rest, h)
  {
  }

  lemma {:induction false} AnswerComes(lab: Lab) returns (steps: seq<LabStep>)
    requires LabInv(lab) && lab.man.Awaiting?
    ensures OnlyWorks(steps, lab.man.host) && LabCan(lab, steps) && CanStep(LabGo(lab, steps), ReadReply)
    decreases |Queue(lab.commands, lab.man.host)|
  {
    hide *;
    var h := lab.man.host;
    if Queue(lab.replies, h) != [] {
      AnswerThere(lab);
      steps := [];
    } else if Queue(lab.commands, h) != [] {
      ExecuteLeaves(lab, h);
      var rest := AnswerComes(LabNext(lab, Execute(h)));
      steps := [Execute(h)] + rest;
      OneMoreWorks(Execute(h), rest, h);
      OneLabStep(lab, Execute(h), rest);
    } else {
      var i := WaitLeft(lab);
      steps := WaitAnswers(lab, h, i);
    }
  }

  // In every run: a manager that is not waiting may issue any command to any host; one that waits gets an
  // answer once that host alone has executed enough of its commands and jobs, whatever else happens or not.
  lemma NeverStuck(states: seq<Lab>, steps: seq<LabStep>, i: nat) returns (more: seq<LabStep>)
    requires IsLabRun(states, steps) && i <= |steps|
    ensures states[i].man == Ready ==> forall h: Id, c :: h in states[i].hosts ==> CanStep(states[i], Issue(h, c))
    ensures states[i].man.Awaiting? ==>
      OnlyWorks(more, states[i].man.host) && LabCan(states[i], more) && CanStep(LabGo(states[i], more), ReadReply)
  {
    LabRunInv(states, steps, i);
    more := [];
    if states[i].man.Awaiting? {
      hide LabInv, CanStep;
      more := AnswerComes(states[i]);
    }
  }
}
