// The whole simulator: hosts running host_main, switches running switch_main, and the links
// between them, interleaved arbitrarily. End-to-end theorems for a star.
module Simulator {
  import opened Types
  import opened Commands
  import opened Hosts
  import opened HostLogs
  import opened Transfers
  import opened Switches
  import opened Trees
  import opened Network
  import opened Learning
  import opened Star

  datatype System = System(net: Net, hosts: map<Id, Logged>)

  datatype SysStep =
    | Command(host: Id, c: Commands.Command)   // a host executes a manager command
    | Receive(host: Id, port: nat)             // a host reads a port
    | Job(host: Id, disk: Disk)                // a host executes its oldest job
    | Serve(switch: Id, port: nat)             // a switch serves a port

  // Host ids in commands are the table range.
  predicate Addressed(c: Commands.Command) {
    match c
    case Ping(dst) => 0 <= dst < TABLE_SIZE
    case Upload(dst, _) => 0 <= dst < TABLE_SIZE
    case Download(dst, _) => 0 <= dst < TABLE_SIZE
    case _ => true
  }

  // What the step is for the network.
  function NetStep(sys: System, step: SysStep): Step {
    match step
    case Command(_, _) => Idle
    case Receive(h, k) => Take(h, k)
    case Job(h, _) =>
      if h in sys.hosts && sys.hosts[h].h.jobs != [] && sys.hosts[h].h.jobs[0].SendPacket?
      then Send(h, sys.hosts[h].h.jobs[0].packet) else Idle
    case Serve(u, k) => Forward(u, k)
  }

  // What it is for the host that takes it.
  function HostPart(g: Topology, sys: System, step: SysStep): HostStep
    requires !step.Serve? && Enabled(g, sys.net, NetStep(sys, step))
  {
    match step
    case Command(_, c) => DoCommand(c)
    case Receive(h, k) => TakePacket(On(sys.net.links, g.ports[h][k], h)[0])
    case Job(_, disk) => RunJob(disk)
  }

  predicate Possible(g: Topology, sys: System, step: SysStep) {
    && Enabled(g, sys.net, NetStep(sys, step))
    && (!step.Serve? ==> step.host in sys.hosts)
    && (step.Command? ==> Addressed(step.c))
  }

  function Then(g: Topology, sys: System, step: SysStep): System
    requires Possible(g, sys, step)
  {
    System(Next(g, sys.net, NetStep(sys, step)),
           if step.Serve? then sys.hosts
           else sys.hosts[step.host := After(sys.hosts[step.host], HostPart(g, sys, step))])
  }

  ghost predicate Starts(g: Topology, sys: System) {
    && Initial(g, sys.net)
    && (forall h: Id :: h in sys.hosts <==> IsHost(g, h))
    && forall h: Id :: h in sys.hosts ==> InitialLog(sys.hosts[h], h)
  }

  // ---- The invariant ----

  // Everything a host will still send has an address in the table range.
  predicate RoutableJob(j: Hosts.Job) {
    match j
    case SendPacket(p) => Routable(p)
    case PingSendReply(p) => 0 <= p.src < TABLE_SIZE
    case FileSend(dst, _) => 0 <= dst < TABLE_SIZE
    case _ => true
  }

  ghost predicate RoutableJobs(jobs: seq<Hosts.Job>) {
    forall i :: 0 <= i < |jobs| ==> RoutableJob(jobs[i])
  }

  ghost predicate AcceptedOk(g: Topology, accepted: seq<Packet>, h: Id) {
    forall p :: p in accepted ==> FromHost(g, p) && p.dst == h
  }

  ghost predicate HostOk(g: Topology, sys: System, h: Id)
    requires h in sys.hosts
  {
    var l := sys.hosts[h];
    && l.h.id == h && LogInv(l) && RoutableJobs(l.h.jobs) && AcceptedOk(g, l.accepted, h)
    && l.sent == Log(sys.net.sent, h) && l.accepted == Log(sys.net.accepted, h)
  }

  ghost predicate HostsOk(g: Topology, sys: System) {
    && (forall h: Id :: h in sys.hosts <==> IsHost(g, h))
    && forall h: Id :: h in sys.hosts ==> HostOk(g, sys, h)
  }

  ghost predicate SysInv(g: Topology, c: Id, sys: System) {
    StarInv(g, sys.net, c) && HostsOk(g, sys)
  }

  lemma SysInvInitially(g: Topology, c: Id, sys: System)
    requires IsStar(g, c) && Starts(g, sys)
    ensures SysInv(g, c, sys)
  {
    StarInvInitially(g, sys.net, c);
    HostsOkInitially(g, sys);
  }

  lemma HostsOkInitially(g: Topology, sys: System)
    requires Starts(g, sys)
    ensures HostsOk(g, sys)
  {
    forall h: Id | h in sys.hosts
      ensures HostOk(g, sys, h)
    {
      LogInvInitially(sys.hosts[h], h);
    }
  }

  lemma HostFacts(g: Topology, sys: System, h: Id)
    requires HostsOk(g, sys) && h in sys.hosts
    ensures HostOk(g, sys, h) && IsHost(g, h)
    ensures sys.hosts[h].h.id == h && LogInv(sys.hosts[h])
    ensures RoutableJobs(sys.hosts[h].h.jobs) && GoodJobs(sys.hosts[h].h)
    ensures AcceptedOk(g, sys.hosts[h].accepted, h)
    ensures sys.hosts[h].sent == Log(sys.net.sent, h) && sys.hosts[h].accepted == Log(sys.net.accepted, h)
  {
    hide SendsInOrder, FilesInOrder, BufferReplays, PingsAnswered, GoodUnits, RoutableJobs, GoodJobs;
    assert HostOk(g, sys, h);
  }

  lemma OldestJobRuns(g: Topology, sys: System, h: Id, disk: Disk)
    requires HostsOk(g, sys) && h in sys.hosts
    ensures Possible(g, sys, Job(h, disk))
  {
    hide HostsOk, HostOk, LogInv, AcceptedOk;
    HostFacts(g, sys, h);
    var jobs := sys.hosts[h].h.jobs;
    if jobs != [] {
      assert RoutableJob(jobs[0]) && GoodJob(sys.hosts[h].h.id, jobs[0]);
    }
  }

  lemma AddedRoutable(l: Logged, s: HostStep)
    requires RoutableJobs(l.h.jobs)
    requires s.DoCommand? ==> Addressed(s.c)
    requires s.TakePacket? ==> 0 <= s.p.src < TABLE_SIZE
    ensures RoutableJobs(Added(l, s))
  {
    var added := Added(l, s);
    if s.RunJob? && l.h.jobs != [] && l.h.jobs[0].FileSend? {
      var job := l.h.jobs[0];
      assert RoutableJob(job) && added == SendJobs(FilePackets(l.h, job.dst, job.name, s.disk));
      var content := Source(l.h.dir, job.name, s.disk);
      if content.Some? {
        BlockSource(l.h.id, ToChar(job.dst), job.name, content.value);
      }
    } else if s.RunJob? && l.h.jobs != [] {
      assert RoutableJob(l.h.jobs[0]);
    }
  }

  lemma JobsStayRoutable(l: Logged, s: HostStep)
    requires RoutableJobs(l.h.jobs)
    requires s.DoCommand? ==> Addressed(s.c)
    requires s.TakePacket? ==> 0 <= s.p.src < TABLE_SIZE
    ensures RoutableJobs(After(l, s).h.jobs)
  {
    AddedRoutable(l, s);
    QueueShape(l, s);
    hide After, Added, Kept, Runs, RoutableJobs;
    RoutableQueue(Runs(l, s), Kept(l, s), Added(l, s));
  }

  lemma RoutableQueue(ran: seq<Hosts.Job>, kept: seq<Hosts.Job>, added: seq<Hosts.Job>)
    requires RoutableJobs(ran + kept) && RoutableJobs(added)
    ensures RoutableJobs(kept + added)
  {
    hide RoutableJob;
    forall i | 0 <= i < |kept|
      ensures RoutableJob(kept[i])
    {
      assert kept[i] == (ran + kept)[i + |ran|];
    }
  }

  // ---- Every step keeps the invariant ----

  // The network sees nothing but its own steps.
  lemma NetPart(g: Topology, c: Id, sys: System, step: SysStep)
    requires SysInv(g, c, sys) && Possible(g, sys, step)
    ensures StarInv(g, Then(g, sys, step).net, c)
  {
    hide HostsOk, NetInv, AllFlow, IsStar;
    StarInvKept(g, sys.net, c, NetStep(sys, step));
  }

  // Hosts other than the one that takes the step are not affected.
  lemma OtherHost(g: Topology, sys: System, step: SysStep, h: Id)
    requires HostsOk(g, sys) && Possible(g, sys, step) && h in sys.hosts && (step.Serve? || step.host != h)
    ensures h in Then(g, sys, step).hosts && HostOk(g, Then(g, sys, step), h)
  {
    hide LogInv, AcceptedOk, RoutableJobs, After, HostsOk;
    HostFacts(g, sys, h);
  }

  // The host that takes the step: its log and the network's agree on what it sent and accepted.
  lemma LogsAgree(g: Topology, sys: System, step: SysStep)
    requires Possible(g, sys, step) && !step.Serve?
    requires sys.hosts[step.host].h.id == step.host
    requires sys.hosts[step.host].sent == Log(sys.net.sent, step.host)
    requires sys.hosts[step.host].accepted == Log(sys.net.accepted, step.host)
    ensures var l, h := sys.hosts[step.host], step.host;
      var s := HostPart(g, sys, step);
      && Log(Then(g, sys, step).net.sent, h) == l.sent + NewlySent(l, s)
      && Log(Then(g, sys, step).net.accepted, h) == l.accepted + NewlyAccepted(l, s)
  {
    var l := sys.hosts[step.host];
    assert l.sent + [] == l.sent && l.accepted + [] == l.accepted;
  }

  // What it reads was written by a host.
  lemma ReadIsFromHost(g: Topology, n: Net, h: Id, k: nat)
    requires PacketsOk(g, n) && Enabled(g, n, Take(h, k))
    ensures FromHost(g, On(n.links, g.ports[h][k], h)[0])
  {
    var from := g.ports[h][k];
    var p := On(n.links, from, h)[0];
    assert p in On(n.links, from, h) && PacketOk(g, n, from, h, p);
  }

  lemma AcceptedStaysOk(g: Topology, l: Logged, s: HostStep)
    requires 0 <= l.h.id < TABLE_SIZE && AcceptedOk(g, l.accepted, l.h.id)
    requires s.TakePacket? ==> FromHost(g, s.p)
    ensures AcceptedOk(g, l.accepted + NewlyAccepted(l, s), l.h.id)
  {
  }

  lemma ActingHost(g: Topology, sys: System, step: SysStep)
    requires PacketsOk(g, sys.net) && HostsOk(g, sys) && Possible(g, sys, step) && !step.Serve?
    ensures HostOk(g, Then(g, sys, step), step.host)
  {
    var h, l, s := step.host, sys.hosts[step.host], HostPart(g, sys, step);
    if step.Receive? {
      ReadIsFromHost(g, sys.net, h, step.port);
    }
    hide PacketsOk, HostsOk, Next, LogInv, RoutableJobs, AcceptedOk, After, Enabled, NewlyAccepted, NewlySent, Log,
      NetStep;
    HostFacts(g, sys, h);
    LogsAgree(g, sys, step);
    LogInvKept(l, s);
    JobsStayRoutable(l, s);
    AcceptedStaysOk(g, l, s);
    LogShape(l, s);
    QueueShape(l, s);
  }

  lemma EachHostStaysOk(g: Topology, sys: System, step: SysStep, h: Id)
    requires PacketsOk(g, sys.net) && HostsOk(g, sys) && Possible(g, sys, step) && h in Then(g, sys, step).hosts
    ensures HostOk(g, Then(g, sys, step), h)
  {
    hide PacketsOk, HostsOk, HostOk, Next, Enabled, NetStep, After, HostPart;
    if step.Serve? || step.host != h {
      OtherHost(g, sys, step, h);
    } else {
      ActingHost(g, sys, step);
    }
  }

  lemma SameHosts(g: Topology, sys: System, step: SysStep)
    requires Possible(g, sys, step)
    ensures Then(g, sys, step).hosts.Keys == sys.hosts.Keys
  {
    hide Enabled, Next, After, NetStep;
  }

  lemma HostsStayOk(g: Topology, sys: System, step: SysStep)
    requires PacketsOk(g, sys.net) && HostsOk(g, sys) && Possible(g, sys, step)
    ensures HostsOk(g, Then(g, sys, step))
  {
    hide PacketsOk, HostOk, Possible, Then, IsHost;
    SameHosts(g, sys, step);
    forall h: Id | h in Then(g, sys, step).hosts
      ensures HostOk(g, Then(g, sys, step), h)
    {
      EachHostStaysOk(g, sys, step, h);
    }
  }

  lemma SysInvKept(g: Topology, c: Id, sys: System, step: SysStep)
    requires SysInv(g, c, sys) && Possible(g, sys, step)
    ensures SysInv(g, c, Then(g, sys, step))
  {
    hide HostsOk, Flow, EntriesOk, PacketsOk, IsStar, TablesFit, AllFlow, Rooted;
    HostsStayOk(g, sys, step);
    NetPart(g, c, sys, step);
  }

  // ---- Runs of the whole system ----

  ghost predicate IsSysRun(g: Topology, states: seq<System>, steps: seq<SysStep>) {
    && |states| == |steps| + 1 && Starts(g, states[0])
    && forall i :: 0 <= i < |steps| ==>
         Possible(g, states[i], steps[i]) && states[i + 1] == Then(g, states[i], steps[i])
  }

  ghost predicate Occurs(g: Topology, sys: System) {
    exists states, steps :: IsSysRun(g, states, steps) && states[|steps|] == sys
  }

  lemma {:induction false} RunKeepsSysInv(g: Topology, c: Id, states: seq<System>, steps: seq<SysStep>, i: nat)
    requires IsStar(g, c) && IsSysRun(g, states, steps) && i <= |steps|
    ensures SysInv(g, c, states[i])
  {
    hide IsStar, SysInv, Possible, Then, Starts;
    if i == 0 {
      SysInvInitially(g, c, states[0]);
    } else {
      RunKeepsSysInv(g, c, states, steps, i - 1);
      SysInvKept(g, c, states[i - 1], steps[i - 1]);
    }
  }

  lemma OccursInv(g: Topology, c: Id, sys: System)
    requires IsStar(g, c) && Occurs(g, sys)
    ensures SysInv(g, c, sys)
  {
    hide IsStar, SysInv;
    var states, steps :| IsSysRun(g, states, steps) && states[|steps|] == sys;
    RunKeepsSysInv(g, c, states, steps, |steps|);
  }

  // A continuation of the system from any state, and where it ends.
  ghost predicate CanGo(g: Topology, sys: System, steps: seq<SysStep>)
    decreases |steps|
  {
    steps == [] || (Possible(g, sys, steps[0]) && CanGo(g, Then(g, sys, steps[0]), steps[1..]))
  }

  ghost function GoOn(g: Topology, sys: System, steps: seq<SysStep>): System
    requires CanGo(g, sys, steps)
    decreases |steps|
  {
    if steps == [] then sys else GoOn(g, Then(g, sys, steps[0]), steps[1..])
  }

  // What host h tells its manager in a step, and the file it writes.
  function ReplyOf(sys: System, step: SysStep, h: Id): Option<Reply>
    requires h in sys.hosts
  {
    if step.Command? && step.host == h then OnCommand(sys.hosts[h].h, step.c).1
    else if step.Job? && step.host == h then OnJob(sys.hosts[h].h, step.disk).1.reply
    else None
  }

  function FileOf(sys: System, step: SysStep, h: Id): Option<File>
    requires h in sys.hosts
  {
    if step.Job? && step.host == h then OnJob(sys.hosts[h].h, step.disk).1.file else None
  }

  lemma OneGo(g: Topology, sys: System, step: SysStep, rest: seq<SysStep>)
    requires Possible(g, sys, step) && CanGo(g, Then(g, sys, step), rest)
    ensures CanGo(g, sys, [step] + rest)
    ensures GoOn(g, sys, [step] + rest) == GoOn(g, Then(g, sys, step), rest)
  {
    assert ([step] + rest)[0] == step && ([step] + rest)[1..] == rest;
  }

  lemma {:induction false} GoConcat(g: Topology, sys: System, a: seq<SysStep>, b: seq<SysStep>)
    requires CanGo(g, sys, a) && CanGo(g, GoOn(g, sys, a), b)
    ensures CanGo(g, sys, a + b) && GoOn(g, sys, a + b) == GoOn(g, GoOn(g, sys, a), b)
    decreases |a|
  {
    hide Possible, Then;
    if a == [] {
      assert a + b == b;
    } else {
      GoConcat(g, Then(g, sys, a[0]), a[1..], b);
      assert a + b == [a[0]] + (a[1..] + b);
      OneGo(g, sys, a[0], a[1..] + b);
    }
  }

  // ---- Any tree of full hosts ----

  ghost predicate TreeInv(r: Rooting, g: Topology, sys: System) {
    NetInv(r, g, sys.net) && HostsOk(g, sys)
  }

  lemma TreeInvInitially(r: Rooting, g: Topology, sys: System)
    requires Rooted(r, g) && Starts(g, sys)
    ensures TreeInv(r, g, sys)
  {
    InvInitially(r, g, sys.net);
    HostsOkInitially(g, sys);
  }

  lemma TreeInvKept(r: Rooting, g: Topology, sys: System, step: SysStep)
    requires TreeInv(r, g, sys) && Possible(g, sys, step)
    ensures TreeInv(r, g, Then(g, sys, step))
  {
    hide HostsOk, EntriesOk, PacketsOk, TablesFit, Rooted;
    HostsStayOk(g, sys, step);
    InvKept(r, g, sys.net, NetStep(sys, step));
  }

  lemma {:induction false} GoKeepsTreeInv(r: Rooting, g: Topology, sys: System, steps: seq<SysStep>)
    requires TreeInv(r, g, sys) && CanGo(g, sys, steps)
    ensures TreeInv(r, g, GoOn(g, sys, steps))
    decreases |steps|
  {
    hide TreeInv, Possible, Then;
    if steps != [] {
      TreeInvKept(r, g, sys, steps[0]);
      GoKeepsTreeInv(r, g, Then(g, sys, steps[0]), steps[1..]);
    }
  }

  lemma {:induction false} RunKeepsTreeInv(r: Rooting, g: Topology, states: seq<System>, steps: seq<SysStep>, i: nat)
    requires Rooted(r, g) && IsSysRun(g, states, steps) && i <= |steps|
    ensures TreeInv(r, g, states[i])
  {
    hide Rooted, TreeInv, Possible, Then, Starts;
    if i == 0 {
      TreeInvInitially(r, g, states[0]);
    } else {
      RunKeepsTreeInv(r, g, states, steps, i - 1);
      TreeInvKept(r, g, states[i - 1], steps[i - 1]);
    }
  }

  lemma OccursInTree(g: Topology, root: Id, sys: System)
    requires IsTree(g) && root in g.ports && Occurs(g, sys)
    ensures TreeInv(RootedAt(g, root), g, sys)
  {
    TreeHasRooting(g, root);
    hide IsTree, TreeInv, Rooted, RootedAt;
    var states, steps :| IsSysRun(g, states, steps) && states[|steps|] == sys;
    RunKeepsTreeInv(RootedAt(g, root), g, states, steps, |steps|);
  }

  // In every state that occurs in any tree of hosts and switches, no host has an oldest job that
  // it cannot execute.
  lemma JobsNeverBlocked(g: Topology, sys: System, h: Id, disk: Disk)
    requires IsTree(g) && Occurs(g, sys) && IsHost(g, h)
    ensures Possible(g, sys, Job(h, disk))
  {
    OccursInTree(g, h, sys);
    hide IsTree, RootedAt, NetInv, Occurs;
    OldestJobRuns(g, sys, h, disk);
  }

  // ---- Files arrive ----

  // No host but s has undertaken to send files to d.
  ghost predicate OnlySender(g: Topology, sys: System, s: Id, d: Id) {
    forall h: Id :: h in sys.hosts && h != s ==> TransfersTo(sys.hosts[h].units, d) == []
  }

  // The files d has received from h are a prefix of those h has undertaken to send it.
  lemma ReceivedFilesArePrefix(g: Topology, c: Id, sys: System, h: Id, d: Id)
    requires SysInv(g, c, sys) && h in sys.hosts && d in sys.hosts
    ensures FilePacketsOf(Part(sys.hosts[d].accepted, h, d)) <= AllPackets(h, TransfersTo(sys.hosts[h].units, d))
  {
    var sent, accepted := Part(sys.hosts[h].sent, h, d), Part(sys.hosts[d].accepted, h, d);
    assert accepted <= sent by {
      hide HostOk, NetInv, IsStar;
      HostFacts(g, sys, h);
      HostFacts(g, sys, d);
      assert Flow(sys.net, c, h, d);
    }
    assert LogInv(sys.hosts[h]) && sys.hosts[h].h.id == h by {
      hide StarInv, HostOk;
      HostFacts(g, sys, h);
    }
    hide SysInv, LogInv, Part, FilePacketsOf, TransfersTo, AllPackets;
    FilterPrefix(accepted, sent, IsFilePacket);
    PartAndFiles(accepted, sent, sys.hosts[h].sent, h, d);
    SentFilesArePrefix(sys.hosts[h], d);
  }

  lemma PartAndFiles(a: seq<Packet>, b: seq<Packet>, sent: seq<Packet>, h: Id, d: Id)
    requires b == Part(sent, h, d)
    ensures b == Filter(sent, Between(h, d))
    ensures FilePacketsOf(a) == Filter(a, IsFilePacket) && FilePacketsOf(b) == Filter(b, IsFilePacket)
  {
  }

  lemma {:induction false} FilterWithin(ps: seq<Packet>, s: Id, d: Id)
    requires forall i :: 0 <= i < |ps| && IsFilePacket(ps[i]) ==> ps[i].src == s && ps[i].dst == d
    ensures FilePacketsOf(ps) == FilePacketsOf(Part(ps, s, d))
  {
    if ps != [] {
      FilterWithin(ps[1..], s, d);
      var rest := Part(ps[1..], s, d);
      if ps[0].src == s && ps[0].dst == d {
        assert Part(ps, s, d) == [ps[0]] + rest;
        assert ([ps[0]] + rest)[0] == ps[0] && ([ps[0]] + rest)[1..] == rest;
      } else {
        assert Part(ps, s, d) == rest;
        assert FilePacketsOf(ps) == FilePacketsOf(ps[1..]);
      }
    }
  }

  // With one sender, every file packet d has accepted comes from it.
  lemma FilesFromSender(g: Topology, c: Id, sys: System, s: Id, d: Id, p: Packet)
    requires SysInv(g, c, sys) && s in sys.hosts && d in sys.hosts && OnlySender(g, sys, s, d)
    requires p in sys.hosts[d].accepted && IsFilePacket(p)
    ensures p.src == s && p.dst == d
  {
    var accepted := sys.hosts[d].accepted;
    assert FromHost(g, p) && p.dst == d && p.src in sys.hosts by {
      hide StarInv, HostOk;
      HostFacts(g, sys, d);
    }
    if p.src != s {
      var h: Id := p.src;
      ReceivedFilesArePrefix(g, c, sys, h, d);
      hide SysInv;
      FilterMember(accepted, Between(h, d), p);
      FilterMember(Part(accepted, h, d), IsFilePacket, p);
      assert false;
    }
  }

  // In every run of a star, if only s sends files to d: the i-th END job d executes belongs to the
  // i-th transfer s undertook to d. With a directory set and the file opening, it writes that
  // transfer's name and exactly the first 1000 bytes of its source; otherwise it writes nothing.
  lemma TransfersAreDelivered(g: Topology, c: Id, sys: System, s: Id, d: Id)
    requires IsStar(g, c) && Occurs(g, sys) && IsHost(g, s) && IsHost(g, d) && OnlySender(g, sys, s, d)
    ensures s in sys.hosts && d in sys.hosts
    ensures var ends, transfers := Ends(sys.hosts[d].events), TransfersTo(sys.hosts[s].units, d);
      && |ends| <= |transfers|
      && forall i :: 0 <= i < |ends| ==> transfers[i].Transfer? && Delivers(ends[i], transfers[i])
  {
    OccursInv(g, c, sys);
    assert s in sys.hosts && d in sys.hosts by {
      hide StarInv, HostOk;
      assert HostsOk(g, sys);
    }
    SenderDelivers(g, c, sys, s, d);
  }

  lemma SenderDelivers(g: Topology, c: Id, sys: System, s: Id, d: Id)
    requires SysInv(g, c, sys) && s in sys.hosts && d in sys.hosts && OnlySender(g, sys, s, d)
    ensures var ends, transfers := Ends(sys.hosts[d].events), TransfersTo(sys.hosts[s].units, d);
      && |ends| <= |transfers|
      && forall i :: 0 <= i < |ends| ==> transfers[i].Transfer? && Delivers(ends[i], transfers[i])
  {
    var l, transfers := sys.hosts[d], TransfersTo(sys.hosts[s].units, d);
    assert FilesInOrder(l) && BufferReplays(l) by {
      hide StarInv, HostOk;
      HostFacts(g, sys, d);
    }
    forall i | 0 <= i < |l.accepted| && IsFilePacket(l.accepted[i])
      ensures l.accepted[i].src == s && l.accepted[i].dst == d
    {
      FilesFromSender(g, c, sys, s, d, l.accepted[i]);
    }
    ReceivedFilesArePrefix(g, c, sys, s, d);
    hide SysInv, OnlySender;
    FilterWithin(l.accepted, s, d);
    AllTransfers(sys.hosts[s].units, d);
    hide Delivers, AllPackets, TransfersTo, FilePacketsOf, Part;
    EveryEndDelivers(NOTHING, l.events, s, transfers);
  }

  // ---- Any number of senders ----

  lemma FilesOfPart(ps: seq<Packet>, s: Id, d: Id)
    ensures Part(FilePacketsOf(ps), s, d) == FilePacketsOf(Part(ps, s, d))
  {
    FiltersCommute(ps, IsFilePacket, Between(s, d));
  }

  // Where the part of file packets number i to j, all from s, is among those from s.
  lemma PartOfRun(files: seq<Packet>, i: nat, j: nat, s: Id, d: Id)
    requires i <= j <= |files| && forall k :: i <= k < j ==> files[k].src == s && files[k].dst == d
    ensures var a := |Part(files[..i], s, d)|;
      && a + (j - i) <= |Part(files, s, d)| && Part(files, s, d)[a..a + (j - i)] == files[i..j]
      && Part(files, s, d)[..a] == Part(files[..i], s, d)
  {
    var before, mine, later := files[..i], files[i..j], files[j..];
    assert files == before + (mine + later);
    FilterConcat(before, mine + later, Between(s, d));
    FilterConcat(mine, later, Between(s, d));
    FilterAll(mine, Between(s, d));
  }

  lemma RunShape(files: seq<Packet>, i: nat, j: nat, ps: seq<Packet>, a: nat)
    requires StartToEnd(files, i, j) && a + (j - i) <= |ps| && ps[a..a + (j - i)] == files[i..j]
    ensures StartToEnd(ps, a, a + (j - i))
  {
    assert forall k :: i <= k < j ==> ps[a + (k - i)] == ps[a..a + (j - i)][k - i] == files[i..j][k - i] == files[k];
    assert forall k :: a <= k < a + (j - i) ==> ps[k] == files[k - a + i];
  }

  // In every run of a star, with any number of senders: if all file packets d accepts from a START of s to
  // the first END after it come from s, that END delivers the transfer of s to d whose number is the number
  // of ENDs d has accepted from s before.
  lemma UninterruptedTransfers(g: Topology, c: Id, sys: System, s: Id, d: Id, i: nat, j: nat)
    requires IsStar(g, c) && Occurs(g, sys) && s in sys.hosts && d in sys.hosts
    requires var files := FilePacketsOf(sys.hosts[d].accepted);
      StartToEnd(files, i, j) && forall k :: i <= k < j ==> files[k].src == s
    requires j <= |sys.hosts[d].events|
    ensures var ts, n := TransfersTo(sys.hosts[s].units, d),
                         EndsIn(Part(FilePacketsOf(sys.hosts[d].accepted)[..i], s, d));
      n < |ts| && ts[n].Transfer? && Delivers(sys.hosts[d].events[j - 1], ts[n])
  {
    hide SysInv, LogInv, AcceptedOk, TransfersTo, FilePacketsOf, Part, StartToEnd, Delivers, AllPackets, UnitPackets,
      EndsIn, Occurs, IsStar;
    OccursInv(g, c, sys);
    HostParts(g, c, sys, d);
    var l, ts := sys.hosts[d], TransfersTo(sys.hosts[s].units, d);
    var files := FilePacketsOf(l.accepted);
    ReceivedFilesArePrefix(g, c, sys, s, d);
    FilesOfPart(l.accepted, s, d);
    StartBeforeEnd(files, i, j);
    ForItself(l.accepted, g, d, i, j);
    PartOfRun(files, i, j, s, d);
    var ps, a := Part(files, s, d), |Part(files[..i], s, d)|;
    RunShape(files, i, j, ps, a);
    AllTransfers(sys.hosts[s].units, d);
    StartToEndIsTransfer(s, ts, ps, a, a + (j - i));
    UninterruptedDelivers(l, i, j, s, ts[EndsIn(ps[..a])]);
  }

  lemma HostParts(g: Topology, c: Id, sys: System, d: Id)
    requires SysInv(g, c, sys) && d in sys.hosts
    ensures LogInv(sys.hosts[d]) && AcceptedOk(g, sys.hosts[d].accepted, d)
  {
    hide StarInv, HostOk;
    HostFacts(g, sys, d);
  }

  lemma StartBeforeEnd(ps: seq<Packet>, a: nat, b: nat)
    requires StartToEnd(ps, a, b)
    ensures a < b <= |ps|
  {
  }

  lemma ForItself(accepted: seq<Packet>, g: Topology, d: Id, i: nat, j: nat)
    requires AcceptedOk(g, accepted, d) && i <= j <= |FilePacketsOf(accepted)|
    ensures forall k :: i <= k < j ==> FilePacketsOf(accepted)[k].dst == d
  {
    var files := FilePacketsOf(accepted);
    forall k | i <= k < j
      ensures files[k].dst == d
    {
      FilterMember(accepted, IsFilePacket, files[k]);
    }
  }

  // ---- Pings ----

  lemma {:induction false} CountPart(ps: seq<Packet>, s: Id, d: Id, ptype: Byte)
    ensures Count(Part(ps, s, d), s, d, ptype) == Count(ps, s, d, ptype)
  {
    if ps != [] {
      CountPart(ps[1..], s, d, ptype);
      var rest := Part(ps[1..], s, d);
      if ps[0].src == s && ps[0].dst == d {
        assert Part(ps, s, d) == [ps[0]] + rest && ([ps[0]] + rest)[1..] == rest;
      } else {
        assert Part(ps, s, d) == rest;
      }
    }
  }

  // Packets of one type from s to d: sent = accepted + on the way.
  lemma CountFlow(n: Net, c: Id, s: Id, d: Id, ptype: Byte)
    requires Flow(n, c, s, d)
    ensures Count(Log(n.sent, s), s, d, ptype)
         == Count(Log(n.accepted, d), s, d, ptype) + Count(On(n.links, c, d), s, d, ptype)
           + Count(On(n.links, s, c), s, d, ptype)
  {
    var a, down, up := Part(Log(n.accepted, d), s, d), Part(On(n.links, c, d), s, d), Part(On(n.links, s, c), s, d);
    CountConcat(a + down, up, s, d, ptype);
    CountConcat(a, down, s, d, ptype);
    CountPart(Log(n.sent, s), s, d, ptype);
    CountPart(Log(n.accepted, d), s, d, ptype);
    CountPart(On(n.links, c, d), s, d, ptype);
    CountPart(On(n.links, s, c), s, d, ptype);
  }

  // Accepted requests are waiting for their reply job, or their reply is waiting to be sent, or
  // has been sent.
  lemma RequestsAccounted(l: Logged, s: Id)
    requires LogInv(l)
    ensures Count(l.accepted, s, l.h.id, PKT_PING_REQ)
         == ReplyJobs(l.h.jobs, s) + Count(Pending(l.h.jobs, ToSend), l.h.id, s, PKT_PING_REPLY)
            + Count(l.sent, l.h.id, s, PKT_PING_REPLY)
  {
    hide GoodJobs, GoodUnits, FilesInOrder, BufferReplays;
    CountConcat(l.sent, Pending(l.h.jobs, ToSend), l.h.id, s, PKT_PING_REPLY);
  }

  lemma PingsBalance(g: Topology, c: Id, sys: System, s: Id, d: Id)
    requires SysInv(g, c, sys) && IsHost(g, s) && IsHost(g, d)
    ensures s in sys.hosts && d in sys.hosts
    ensures Count(sys.hosts[s].sent, s, d, PKT_PING_REQ)
         == Count(On(sys.net.links, s, c), s, d, PKT_PING_REQ) + Count(On(sys.net.links, c, d), s, d, PKT_PING_REQ)
          + ReplyJobs(sys.hosts[d].h.jobs, s) + Count(Pending(sys.hosts[d].h.jobs, ToSend), d, s, PKT_PING_REPLY)
          + Count(On(sys.net.links, d, c), d, s, PKT_PING_REPLY) + Count(On(sys.net.links, c, s), d, s, PKT_PING_REPLY)
          + Count(sys.hosts[s].accepted, d, s, PKT_PING_REPLY)
  {
    assert s in sys.hosts && d in sys.hosts && Flow(sys.net, c, s, d) && Flow(sys.net, c, d, s) by {
      hide HostOk, NetInv, IsStar, Flow;
      assert HostsOk(g, sys);
    }
    hide StarInv, HostOk, IsStar, Flow, LogInv, AcceptedOk;
    HostFacts(g, sys, s);
    HostFacts(g, sys, d);
    CountFlow(sys.net, c, s, d, PKT_PING_REQ);
    CountFlow(sys.net, c, d, s, PKT_PING_REPLY);
    RequestsAccounted(sys.hosts[d], s);
  }

  // Conservation of pings in every run of a star: each ping request s sent to d is on one of the
  // two links, or a reply job at d, or its reply is queued at d, on one of the two links back, or
  // accepted by s.
  lemma PingsAreConserved(g: Topology, c: Id, sys: System, s: Id, d: Id)
    requires IsStar(g, c) && Occurs(g, sys) && IsHost(g, s) && IsHost(g, d)
    ensures s in sys.hosts && d in sys.hosts
    ensures Count(sys.hosts[s].sent, s, d, PKT_PING_REQ)
         == Count(On(sys.net.links, s, c), s, d, PKT_PING_REQ) + Count(On(sys.net.links, c, d), s, d, PKT_PING_REQ)
          + ReplyJobs(sys.hosts[d].h.jobs, s) + Count(Pending(sys.hosts[d].h.jobs, ToSend), d, s, PKT_PING_REPLY)
          + Count(On(sys.net.links, d, c), d, s, PKT_PING_REPLY) + Count(On(sys.net.links, c, s), d, s, PKT_PING_REPLY)
          + Count(sys.hosts[s].accepted, d, s, PKT_PING_REPLY)
  {
    OccursInv(g, c, sys);
    PingsBalance(g, c, sys, s, d);
  }
}
