// The manager and its hosts in lock-step (man.c): a state or ping request blocks the manager until
// the host it asked has replied.
module Manager {
  import opened Types
  import opened Commands
  import opened Hosts
  import opened HostLogs
  import opened Pings

  datatype Kind = OfState | OfPing

  datatype ManState = Ready | Awaiting(host: Id, kind: Kind)

  // Commands on their way to each host and replies on their way back, oldest first.
  datatype Lab = Lab(man: ManState, commands: map<Id, seq<Commands.Command>>, replies: map<Id, seq<Reply>>,
                     hosts: map<Id, Logged>)

  datatype LabStep =
    | Issue(host: Id, c: Commands.Command)    // the manager sends a command to its current host
    | ReadReply                               // the blocked manager reads the reply
    | Execute(host: Id)                       // a host executes the oldest command
    | Packet(host: Id, p: Types.Packet)       // a host reads a packet
    | Work(host: Id, disk: Disk)              // a host executes its oldest job

  function Queue<T>(m: map<Id, seq<T>>, h: Id): seq<T> {
    if h in m then m[h] else []
  }

  predicate Blocks(c: Commands.Command) {
    c.ShowState? || c.Ping?
  }

  function KindOf(c: Commands.Command): Kind {
    if c.ShowState? then OfState else OfPing
  }

  function ReplyKind(r: Reply): Kind {
    if r.HostState? then OfState else OfPing
  }

  predicate CanStep(lab: Lab, step: LabStep) {
    match step
    case Issue(h, c) => lab.man == Ready && h in lab.hosts
    case ReadReply => lab.man.Awaiting? && Queue(lab.replies, lab.man.host) != []
    case Execute(h) => h in lab.hosts && Queue(lab.commands, h) != []
    case Packet(h, _) => h in lab.hosts
    case Work(h, _) => h in lab.hosts
  }

  function Told(lab: Lab, h: Id, r: Option<Reply>): map<Id, seq<Reply>> {
    if r.Some? then lab.replies[h := Queue(lab.replies, h) + [r.value]] else lab.replies
  }

  function LabNext(lab: Lab, step: LabStep): Lab
    requires CanStep(lab, step)
  {
    match step
    case Issue(h, c) =>
      lab.(man := if Blocks(c) then Awaiting(h, KindOf(c)) else Ready,
           commands := lab.commands[h := Queue(lab.commands, h) + [c]])
    case ReadReply =>
      var h := lab.man.host;
      lab.(man := Ready, replies := lab.replies[h := Queue(lab.replies, h)[1..]])
    case Execute(h) =>
      var c := Queue(lab.commands, h)[0];
      lab.(commands := lab.commands[h := Queue(lab.commands, h)[1..]],
           replies := Told(lab, h, OnCommand(lab.hosts[h].h, c).1),
           hosts := lab.hosts[h := After(lab.hosts[h], DoCommand(c))])
    case Packet(h, p) => lab.(hosts := lab.hosts[h := After(lab.hosts[h], TakePacket(p))])
    case Work(h, disk) =>
      lab.(replies := Told(lab, h, OnJob(lab.hosts[h].h, disk).1.reply),
           hosts := lab.hosts[h := After(lab.hosts[h], RunJob(disk))])
  }

  ghost predicate LabStarts(lab: Lab) {
    && lab.man == Ready && lab.commands == map[] && lab.replies == map[]
    && forall h: Id :: h in lab.hosts ==> InitialLog(lab.hosts[h], h)
  }

  // ---- The invariant, host by host ----

  predicate IsBlocking(c: Commands.Command) {
    Blocks(c)
  }

  function BlockingIn(cs: seq<Commands.Command>): nat {
    |Filter(cs, IsBlocking)|
  }

  // Questions to host h that the manager has not got the answer to yet.
  function Outstanding(lab: Lab, h: Id): nat
    requires h in lab.hosts
  {
    BlockingIn(Queue(lab.commands, h)) + WaitJobs(lab.hosts[h].h.jobs) + |Queue(lab.replies, h)|
  }

  function Expected(man: ManState, h: Id): nat {
    if man.Awaiting? && man.host == h then 1 else 0
  }

  // Everything outstanding is of the kind the manager is waiting for.
  ghost predicate OfKind(lab: Lab, h: Id, kind: Kind)
    requires h in lab.hosts
  {
    && (forall i :: 0 <= i < |Queue(lab.commands, h)| && Blocks(Queue(lab.commands, h)[i]) ==>
          KindOf(Queue(lab.commands, h)[i]) == kind)
    && (WaitJobs(lab.hosts[h].h.jobs) > 0 ==> kind == OfPing)
    && (forall i :: 0 <= i < |Queue(lab.replies, h)| ==>
          && ReplyKind(Queue(lab.replies, h)[i]) == kind
          && (Queue(lab.replies, h)[i].HostState? ==> Queue(lab.replies, h)[i].id == h))
  }

  ghost predicate HostInStep(lab: Lab, h: Id)
    requires h in lab.hosts
  {
    && lab.hosts[h].h.id == h
    && Outstanding(lab, h) == Expected(lab.man, h)
    && (lab.man.Awaiting? && lab.man.host == h ==> OfKind(lab, h, lab.man.kind))
  }

  ghost predicate LabInv(lab: Lab) {
    && (lab.man.Awaiting? ==> lab.man.host in lab.hosts)
    && forall h: Id :: h in lab.hosts ==> HostInStep(lab, h)
  }

  lemma OneCommand(c: Commands.Command)
    ensures BlockingIn([c]) == if Blocks(c) then 1 else 0
  {
    assert [c][1..] == [];
    assert Filter([c], IsBlocking) == (if IsBlocking(c) then [c] else []) + Filter([], IsBlocking);
  }

  lemma BlockingAdd(a: seq<Commands.Command>, b: seq<Commands.Command>)
    ensures BlockingIn(a + b) == BlockingIn(a) + BlockingIn(b)
  {
    FilterConcat(a, b, IsBlocking);
  }

  lemma {:induction false} NoneBlocking(cs: seq<Commands.Command>)
    requires BlockingIn(cs) == 0
    ensures forall i :: 0 <= i < |cs| ==> !Blocks(cs[i])
  {
    if cs != [] {
      NoneBlocking(cs[1..]);
    }
  }

  lemma IssueInStep(lab: Lab, h: Id, c: Commands.Command)
    requires LabInv(lab) && CanStep(lab, Issue(h, c))
    ensures HostInStep(LabNext(lab, Issue(h, c)), h)
  {
    assert HostInStep(lab, h);
    OneCommand(c);
    BlockingAdd(Queue(lab.commands, h), [c]);
    NoneBlocking(Queue(lab.commands, h));
  }

  lemma ExecuteInStep(lab: Lab, h: Id)
    requires LabInv(lab) && CanStep(lab, Execute(h))
    ensures HostInStep(LabNext(lab, Execute(h)), h)
  {
    assert HostInStep(lab, h);
    var cs := Queue(lab.commands, h);
    assert cs == [cs[0]] + cs[1..];
    BlockingAdd([cs[0]], cs[1..]);
    OneCommand(cs[0]);
    CommandWaits(lab.hosts[h].h, cs[0]);
  }

  // A command leaves behind as many waiting jobs and replies as it blocks the manager.
  lemma CommandWaits(h: Host, c: Commands.Command)
    ensures var (h', reply) := OnCommand(h, c);
      && WaitJobs(h'.jobs) == WaitJobs(h.jobs) + (if c.Ping? then 1 else 0)
      && (reply.Some? <==> c.ShowState?) && (reply.Some? ==> ReplyKind(reply.value) == OfState)
      && h'.id == h.id
  {
    var s := DoCommand(c);
    StepBalances(h, s);
    OneNote(Did(c), PingWait(0));
    if c.ShowState? {
      OneNote(HostLogs.Told(HostState(h.dir, h.id)), PingWait(0));
      NotesAdd([Did(c)], [HostLogs.Told(HostState(h.dir, h.id))]);
    } else {
      assert NewNotes(h, s) == [Did(c)];
    }
  }

  lemma PacketWaits(h: Host, p: Types.Packet)
    ensures WaitJobs(OnPacket(h, p).jobs) == WaitJobs(h.jobs) && OnPacket(h, p).id == h.id
  {
    StepBalances(h, TakePacket(p));
    OneNote(Got(p), PingWait(0));
  }

  lemma JobWaits(h: Host, disk: Disk)
    ensures var (h', effect) := OnJob(h, disk);
      && WaitJobs(h'.jobs) + (if effect.reply.Some? then 1 else 0) == WaitJobs(h.jobs)
      && (effect.reply.Some? ==> ReplyKind(effect.reply.value) == OfPing)
      && h'.id == h.id
  {
    var s := RunJob(disk);
    StepBalances(h, s);
    if h.jobs != [] {
      var told := ReplyNotes(OnJob(h, disk).1.reply);
      NotesAdd([Ran(h.jobs[0], disk)], told);
      OneNote(Ran(h.jobs[0], disk), PingWait(0));
      if told != [] {
        OneNote(told[0], PingWait(0));
      }
    }
  }

  lemma WorkInStep(lab: Lab, h: Id, disk: Disk)
    requires LabInv(lab) && CanStep(lab, Work(h, disk))
    ensures HostInStep(LabNext(lab, Work(h, disk)), h)
  {
    assert HostInStep(lab, h);
    JobWaits(lab.hosts[h].h, disk);
  }

  lemma OthersInStep(lab: Lab, step: LabStep, h: Id)
    requires LabInv(lab) && CanStep(lab, step) && h in lab.hosts
    requires if step.ReadReply? then lab.man.host != h else step.host != h
    ensures h in LabNext(lab, step).hosts && HostInStep(LabNext(lab, step), h)
  {
    assert HostInStep(lab, h);
  }

  lemma LabInvKept(lab: Lab, step: LabStep)
    requires LabInv(lab) && CanStep(lab, step)
    ensures LabInv(LabNext(lab, step))
  {
    var lab' := LabNext(lab, step);
    forall h: Id | h in lab'.hosts
      ensures HostInStep(lab', h)
    {
      if if step.ReadReply? then lab.man.host != h else step.host != h {
        OthersInStep(lab, step, h);
      } else {
        assert HostInStep(lab, h);
        match step
        case Issue(_, c) => IssueInStep(lab, h, c);
        case ReadReply =>
        case Execute(_) => ExecuteInStep(lab, h);
        case Packet(_, p) => PacketWaits(lab.hosts[h].h, p);
        case Work(_, disk) => WorkInStep(lab, h, disk);
      }
    }
  }

  ghost predicate IsLabRun(states: seq<Lab>, steps: seq<LabStep>) {
    && |states| == |steps| + 1 && LabStarts(states[0])
    && forall i :: 0 <= i < |steps| ==> CanStep(states[i], steps[i]) && states[i + 1] == LabNext(states[i], steps[i])
  }

  lemma {:induction false} LabRunInv(states: seq<Lab>, steps: seq<LabStep>, i: nat)
    requires IsLabRun(states, steps) && i <= |steps|
    ensures LabInv(states[i])
  {
    if i > 0 {
      LabRunInv(states, steps, i - 1);
      LabInvKept(states[i - 1], steps[i - 1]);
    }
  }

  // At every moment of every run at most one question is outstanding in the whole system, at the
  // host the manager waits for, as a command, a waiting job or an unread reply.
  lemma OneQuestionAtATime(states: seq<Lab>, steps: seq<LabStep>, i: nat, h: Id)
    requires IsLabRun(states, steps) && i <= |steps| && h in states[i].hosts
    ensures Outstanding(states[i], h) == (if states[i].man.Awaiting? && states[i].man.host == h then 1 else 0)
  {
    LabRunInv(states, steps, i);
    assert HostInStep(states[i], h);
  }

  // The reply the manager reads answers the question it asked, and a state reply is the state of
  // the host it asked.
  lemma ReplyFitsQuestion(states: seq<Lab>, steps: seq<LabStep>, i: nat)
    requires IsLabRun(states, steps) && i < |steps| && steps[i] == ReadReply
    ensures var h := states[i].man.host;
      && Queue(states[i].replies, h) != []
      && var r := Queue(states[i].replies, h)[0];
         ReplyKind(r) == states[i].man.kind && (r.HostState? ==> r.id == h)
         && Queue(states[i + 1].replies, h) == []
  {
    LabRunInv(states, steps, i);
    assert CanStep(states[i], steps[i]);
    assert HostInStep(states[i], states[i].man.host);
  }
}
