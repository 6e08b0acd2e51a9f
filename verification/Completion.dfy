// In a star whose processes keep running, every file that is sent is also received.
module Completion {
  import opened Types
  import opened Hosts
  import opened HostLogs
  import opened Uploads
  import opened Transfers
  import opened Switches
  import opened Trees
  import opened Network
  import opened Learning
  import opened Delivery
  import opened Copies
  import opened Star
  import opened Simulator
  import opened Liveness

  // ---- The queue drains ----

  // The first k jobs of host h get executed: the packets among them are sent, the received ones
  // processed.
  lemma {:induction false} QueueDrains(g: Topology, run: nat -> System, steps: nat -> SysStep, t: nat, h: Id, k: nat)
    returns (t': nat)
    requires IsFairSysRun(g, run, steps) && IsHost(g, h) && k <= |LogAt(g, run, steps, t, h).h.jobs|
    ensures t <= t'
    ensures var l, l' := LogAt(g, run, steps, t, h), LogAt(g, run, steps, t', h);
      && l.sent + Pending(l.h.jobs[..k], ToSend) == l'.sent
      && EventPackets(l.events) + Pending(l.h.jobs[..k], ToFile) == EventPackets(l'.events)
    decreases k
  {
    hide IsFairSysRun, LogAt, ToSend, ToFile, AddedByJob;
    var l := LogAt(g, run, steps, t, h);
    if k == 0 {
      t' := t;
      assert l.h.jobs[..0] == [];
    } else {
      var t1 := NextJob(g, run, steps, t, h);
      var l1 := LogAt(g, run, steps, t1, h);
      JobDone(g, run, steps, t1, h);
      var l2 := LogAt(g, run, steps, t1 + 1, h);
      t' := QueueDrains(g, run, steps, t1 + 1, h, k - 1);
      assert l.h.jobs[..k][0] == l1.h.jobs[0] && l.h.jobs[..k][1..] == l2.h.jobs[..k - 1];
    }
  }

  lemma AllOfIt(jobs: seq<Hosts.Job>)
    ensures jobs[..|jobs|] == jobs
  {
  }

  // All that host h has undertaken to send is eventually sent.
  lemma EverythingIsSent(g: Topology, run: nat -> System, steps: nat -> SysStep, t: nat, h: Id) returns (t': nat)
    requires IsFairSysRun(g, run, steps) && IsHost(g, h) && LogInv(LogAt(g, run, steps, t, h))
    ensures t <= t'
    ensures AllPackets(h, LogAt(g, run, steps, t, h).units) == LogAt(g, run, steps, t', h).sent
  {
    hide IsFairSysRun, LogAt, FilesInOrder, GoodJobs, GoodUnits, BufferReplays, PingsAnswered;
    var jobs := LogAt(g, run, steps, t, h).h.jobs;
    IdAt(g, run, steps, t, h);
    AllOfIt(jobs);
    t' := QueueDrains(g, run, steps, t, h, |jobs|);
  }

  // All file packets host h has accepted are eventually processed.
  lemma EverythingIsProcessed(g: Topology, run: nat -> System, steps: nat -> SysStep, t: nat, h: Id) returns (t': nat)
    requires IsFairSysRun(g, run, steps) && IsHost(g, h) && LogInv(LogAt(g, run, steps, t, h))
    ensures t <= t'
    ensures FilePacketsOf(LogAt(g, run, steps, t, h).accepted) == EventPackets(LogAt(g, run, steps, t', h).events)
  {
    hide IsFairSysRun, LogAt, SendsInOrder, GoodJobs, GoodUnits, BufferReplays, PingsAnswered;
    var jobs := LogAt(g, run, steps, t, h).h.jobs;
    AllOfIt(jobs);
    t' := QueueDrains(g, run, steps, t, h, |jobs|);
  }

  // ---- The links drain ----

  lemma StarHasLeaves(g: Topology, c: Id)
    requires IsStar(g, c)
    ensures LeafHosts(g) && Rooted(HungAtSwitch(g, c), g)
  {
    StarIsRooted(g, c);
  }

  lemma {:induction false} FairStarInv(g: Topology, c: Id, run: nat -> Net, steps: nat -> Step, t: nat)
    requires IsStar(g, c) && IsFairRun(g, run, steps)
    ensures StarInv(g, run(t), c)
  {
    hide IsStar, StarInv;
    if t == 0 {
      StarInvInitially(g, run(0), c);
    } else {
      FairStarInv(g, c, run, steps, t - 1);
      FairStep(g, run, steps, t - 1);
      StarInvKept(g, run(t - 1), c, steps(t - 1));
    }
  }

  // Logs only grow.
  lemma {:induction false} LogsGrow(g: Topology, run: nat -> Net, steps: nat -> Step, t: nat, t': nat, h: Id)
    requires IsFairRun(g, run, steps) && t <= t'
    ensures Log(run(t).sent, h) <= Log(run(t').sent, h) && Log(run(t).accepted, h) <= Log(run(t').accepted, h)
    decreases t'
  {
    if t < t' {
      LogsGrow(g, run, steps, t, t' - 1, h);
      FairStep(g, run, steps, t' - 1);
      hide IsFairRun;
      LogsGrowOnce(g, run(t' - 1), steps(t' - 1), h);
    }
  }

  lemma LogsGrowOnce(g: Topology, n: Net, step: Step, h: Id)
    requires Enabled(g, n, step)
    ensures Log(n.sent, h) <= Log(Next(g, n, step).sent, h) && Log(n.accepted, h) <= Log(Next(g, n, step).accepted, h)
  {
  }

  // While d has not accepted all that s has sent it, one of those packets is on its way.
  lemma NextOnItsWay(g: Topology, n: Net, c: Id, s: Id, d: Id) returns (spot: Spot, p: Packet)
    requires StarInv(g, n, c) && IsHost(g, s) && IsHost(g, d)
    requires |Part(Log(n.accepted, d), s, d)| < |Part(Log(n.sent, s), s, d)|
    ensures Heading(g, n, spot, p) && p.src == s && p.dst == d && spot.w in g.ports
  {
    StarFlow(g, n, c, s, d);
    hide StarInv, Heading, Log, On, Flow;
    var down := SomewhereBetween(n, c, s, d);
    var from, w := if down then c else s, if down then d else c;
    var i := PartMember(On(n.links, from, w), s, d);
    spot, p := At(from, w, i), On(n.links, from, w)[i];
    HeadingHere(g, n, c, s, d, down, i);
  }

  lemma StarFlow(g: Topology, n: Net, c: Id, s: Id, d: Id)
    requires StarInv(g, n, c) && IsHost(g, s) && IsHost(g, d)
    ensures Flow(n, c, s, d) && IsStar(g, c)
  {
  }

  lemma SomewhereBetween(n: Net, c: Id, s: Id, d: Id) returns (down: bool)
    requires Flow(n, c, s, d) && |Part(Log(n.accepted, d), s, d)| < |Part(Log(n.sent, s), s, d)|
    ensures Part(On(n.links, if down then c else s, if down then d else c), s, d) != []
  {
    hide Part, On, Log;
    down := Part(On(n.links, c, d), s, d) != [];
  }

  lemma PartMember(q: seq<Packet>, s: Id, d: Id) returns (i: nat)
    requires Part(q, s, d) != []
    ensures i < |q| && q[i].src == s && q[i].dst == d
  {
    var p := Part(q, s, d)[0];
    FilterMember(q, Between(s, d), p);
    i :| 0 <= i < |q| && q[i] == p;
  }

  lemma HeadingHere(g: Topology, n: Net, c: Id, s: Id, d: Id, down: bool, i: nat)
    requires IsStar(g, c) && IsHost(g, s) && IsHost(g, d)
    requires var q := On(n.links, if down then c else s, if down then d else c); i < |q| && q[i].dst == d
    ensures var from, w := if down then c else s, if down then d else c;
      Heading(g, n, At(from, w, i), On(n.links, from, w)[i]) && w in g.ports
  {
  }

  lemma SentGetsAccepted(g: Topology, c: Id, run: nat -> Net, steps: nat -> Step, t: nat, s: Id, d: Id, total: nat)
    returns (t': nat)
    requires IsStar(g, c) && IsFairRun(g, run, steps) && IsHost(g, s) && IsHost(g, d)
    requires total <= |Part(Log(run(t).sent, s), s, d)|
    ensures t <= t' && total <= |Part(Log(run(t').accepted, d), s, d)|
    decreases total - |Part(Log(run(t).accepted, d), s, d)|
  {
    hide IsStar, IsFairRun, StarInv, LeafHosts, Part;
    if |Part(Log(run(t).accepted, d), s, d)| >= total {
      t' := t;
    } else {
      FairStarInv(g, c, run, steps, t);
      StarHasLeaves(g, c);
      var spot, p := NextOnItsWay(g, run(t), c, s, d);
      var t1 := HeadingArrives(HungAtSwitch(g, c), g, run, steps, t, spot, p);
      LogsGrow(g, run, steps, t, t1, d);
      LogsGrow(g, run, steps, t, t1 + 1, s);
      PartGrows(Log(run(t).accepted, d), Log(run(t1).accepted, d), p, s, d);
      PartPrefix(Log(run(t).sent, s), Log(run(t1 + 1).sent, s), s, d);
      t' := SentGetsAccepted(g, c, run, steps, t1 + 1, s, d, total);
    }
  }

  lemma PartPrefix(a: seq<Packet>, b: seq<Packet>, s: Id, d: Id)
    requires a <= b
    ensures Part(a, s, d) <= Part(b, s, d)
  {
    FilterPrefix(a, b, Between(s, d));
  }

  lemma PartGrows(a: seq<Packet>, b: seq<Packet>, p: Packet, s: Id, d: Id)
    requires a <= b && p.src == s && p.dst == d
    ensures |Part(b + [p], s, d)| > |Part(a, s, d)|
  {
    PartPrefix(a, b, s, d);
    PartOne(p, s, d);
    PartMoves(b, [p], s, d);
  }

  // All that s has sent to d by moment t is eventually accepted by d.
  lemma EverythingArrives(g: Topology, c: Id, run: nat -> Net, steps: nat -> Step, t: nat, s: Id, d: Id)
    returns (t': nat)
    requires IsStar(g, c) && IsFairRun(g, run, steps) && IsHost(g, s) && IsHost(g, d)
    ensures t <= t' && Part(Log(run(t).sent, s), s, d) <= Part(Log(run(t').accepted, d), s, d)
  {
    t' := SentGetsAccepted(g, c, run, steps, t, s, d, |Part(Log(run(t).sent, s), s, d)|);
    LogsGrow(g, run, steps, t, t', s);
    PartPrefix(Log(run(t).sent, s), Log(run(t').sent, s), s, d);
    FairStarInv(g, c, run, steps, t');
    assert Flow(run(t'), c, s, d);
  }

  // ---- Every transfer completes ----

  predicate IsEndPacket(p: Packet) {
    p.ptype == PKT_FILE_UPLOAD_END
  }

  lemma {:induction false} EndsAreEndPackets(events: seq<FileEvent>)
    ensures |Ends(events)| == |Filter(EventPackets(events), IsEndPacket)|
  {
    if events != [] {
      var ps := EventPackets(events);
      assert ps[1..] == EventPackets(events[1..]) && ps[0] == events[0].packet;
      EndsAreEndPackets(events[1..]);
    }
  }

  lemma OneEndPerBlock(src: Byte, dst: Byte, name: Bytes, content: Bytes)
    ensures |Filter(Block(src, dst, name, content), IsEndPacket)| == 1
  {
    ChunksCoverFile(src, dst, content);
    var ps := Chunks(src, dst, content);
    var block, last := Block(src, dst, name, content), ps[|ps| - 1];
    var front := block[..|ps|];
    assert block == front + [last] && [last][1..] == [];
    FilterConcat(front, [last], IsEndPacket);
    FilterNone(front, IsEndPacket);
    assert Filter([last], IsEndPacket) == [last] + Filter([last][1..], IsEndPacket);
  }

  lemma {:induction false} OneEndPerTransfer(id: Byte, ts: seq<Unit>)
    requires forall i :: 0 <= i < |ts| ==> ts[i].Transfer?
    ensures |Filter(AllPackets(id, ts), IsEndPacket)| == |ts|
  {
    if ts != [] {
      OneEndPerTransfer(id, ts[1..]);
      OneEndPerBlock(id, ts[0].dst, ts[0].name, ts[0].content);
      FilterConcat(UnitPackets(id, ts[0]), AllPackets(id, ts[1..]), IsEndPacket);
    }
  }

  lemma {:induction false} UnitsGrow(g: Topology, run: nat -> System, steps: nat -> SysStep, t: nat, t': nat, h: Id)
    requires IsFairSysRun(g, run, steps) && IsHost(g, h) && t <= t'
    ensures LogAt(g, run, steps, t, h).units <= LogAt(g, run, steps, t', h).units
    decreases t'
  {
    if t < t' {
      UnitsGrow(g, run, steps, t, t' - 1, h);
      SysStepAt(g, run, steps, t' - 1);
      Present(g, run, steps, t' - 1, h);
      hide IsFairSysRun, Possible, Then;
      HostGoesOn(g, run(t' - 1), steps(t' - 1), h);
    }
  }

  lemma TransfersGrow(a: seq<Unit>, b: seq<Unit>, d: Id)
    requires a <= b
    ensures TransfersTo(a, d) <= TransfersTo(b, d)
  {
    FilterPrefix(a, b, GoesTo(d));
    FilterPrefix(Filter(a, GoesTo(d)), Filter(b, GoesTo(d)), IsTransfer);
  }

  lemma FairStarSysInv(g: Topology, c: Id, run: nat -> System, steps: nat -> SysStep, t: nat)
    requires IsStar(g, c) && IsFairSysRun(g, run, steps)
    ensures SysInv(g, c, run(t)) && StarInv(g, run(t).net, c) && HostsOk(g, run(t))
  {
    hide IsFairRun, IsStar, Rooted, HostsOk, StarInv, NetInv;
    NetIsFair(g, run, steps);
    StarHasLeaves(g, c);
    FairStarInv(g, c, NetRun(run), NetSteps(run, steps), t);
    FairSysInv(HungAtSwitch(g, c), g, run, steps, t);
  }

  lemma HostLogAt(g: Topology, c: Id, run: nat -> System, steps: nat -> SysStep, t: nat, h: Id)
    requires IsStar(g, c) && IsFairSysRun(g, run, steps) && IsHost(g, h)
    ensures var l := LogAt(g, run, steps, t, h);
      LogInv(l) && l.h.id == h && l.sent == Log(run(t).net.sent, h) && l.accepted == Log(run(t).net.accepted, h)
  {
    FairStarSysInv(g, c, run, steps, t);
    Present(g, run, steps, t, h);
    hide IsFairSysRun, StarInv, HostsOk, LogInv;
    HostFacts(g, run(t), h);
  }

  // The packets of the transfers undertaken to d are among all packets undertaken.
  lemma TransferPackets(l: Logged, accepted: seq<Packet>, d: Id)
    requires LogInv(l) && 0 <= l.h.id < TABLE_SIZE
    requires Part(AllPackets(l.h.id, l.units), l.h.id, d) <= Part(accepted, l.h.id, d)
    ensures AllPackets(l.h.id, TransfersTo(l.units, d)) <= FilePacketsOf(Part(accepted, l.h.id, d))
  {
    var id, units := l.h.id, Filter(l.units, GoesTo(d));
    DestinationKeepsUnits(id, l.units, d);
    forall i | 0 <= i < |units|
      ensures GoodUnit(id, units[i])
    {
      FilterMember(l.units, GoesTo(d), units[i]);
    }
    FilesAreTransfers(id, units);
    FilterPrefix(AllPackets(id, units), Part(accepted, id, d), IsFilePacket);
  }

  // With one sender, all file packets accepted are its.
  lemma AllFilesFromSender(g: Topology, c: Id, run: nat -> System, steps: nat -> SysStep, t: nat, s: Id, d: Id)
    requires IsStar(g, c) && IsFairSysRun(g, run, steps) && IsHost(g, s) && IsHost(g, d) && OnlySender(g, run(t), s, d)
    ensures var accepted := LogAt(g, run, steps, t, d).accepted;
      FilePacketsOf(accepted) == FilePacketsOf(Part(accepted, s, d))
  {
    FairStarSysInv(g, c, run, steps, t);
    Present(g, run, steps, t, s);
    Present(g, run, steps, t, d);
    hide IsFairSysRun, SysInv, OnlySender;
    var accepted := run(t).hosts[d].accepted;
    forall i | 0 <= i < |accepted| && IsFilePacket(accepted[i])
      ensures accepted[i].src == s && accepted[i].dst == d
    {
      FilesFromSender(g, c, run(t), s, d, accepted[i]);
    }
    FilterWithin(accepted, s, d);
  }

  // The packets of all transfers undertaken by moment t are eventually processed by d.
  lemma TransfersAreProcessed(g: Topology, c: Id, run: nat -> System, steps: nat -> SysStep, t: nat, s: Id, d: Id)
    returns (t': nat)
    requires IsStar(g, c) && IsFairSysRun(g, run, steps) && IsHost(g, s) && IsHost(g, d)
    requires forall k: nat :: OnlySender(g, run(k), s, d)
    ensures t <= t'
    ensures AllPackets(s, TransfersTo(LogAt(g, run, steps, t, s).units, d))
         <= EventPackets(LogAt(g, run, steps, t', d).events)
  {
    hide IsStar, IsFairSysRun, IsFairRun, LogAt, LogInv, OnlySender, Part, AllPackets, TransfersTo, FilePacketsOf;
    NetIsFair(g, run, steps);
    HostLogAt(g, c, run, steps, t, s);
    var t1 := EverythingIsSent(g, run, steps, t, s);
    HostLogAt(g, c, run, steps, t1, s);
    var t2 := EverythingArrives(g, c, NetRun(run), NetSteps(run, steps), t1, s, d);
    HostLogAt(g, c, run, steps, t2, d);
    TransferPackets(LogAt(g, run, steps, t, s), LogAt(g, run, steps, t2, d).accepted, d);
    AllFilesFromSender(g, c, run, steps, t2, s, d);
    t' := EverythingIsProcessed(g, run, steps, t2, d);
  }

  lemma EndsDeliver(g: Topology, c: Id, run: nat -> System, steps: nat -> SysStep, t: nat, s: Id, d: Id)
    requires IsStar(g, c) && IsFairSysRun(g, run, steps) && IsHost(g, s) && IsHost(g, d) && OnlySender(g, run(t), s, d)
    ensures var transfers := TransfersTo(LogAt(g, run, steps, t, s).units, d);
      var ends := Ends(LogAt(g, run, steps, t, d).events);
      && |ends| <= |transfers|
      && forall i :: 0 <= i < |ends| ==> transfers[i].Transfer? && Delivers(ends[i], transfers[i])
  {
    FairStarSysInv(g, c, run, steps, t);
    Present(g, run, steps, t, s);
    Present(g, run, steps, t, d);
    hide IsStar, IsFairSysRun, SysInv, OnlySender, TransfersTo, Delivers;
    SenderDelivers(g, c, run(t), s, d);
  }

  // In every fair run of a star in which only s ever sends files to d: every transfer s has
  // undertaken to d is eventually received, and written if a directory is set and the file opens.
  lemma TransfersComplete(g: Topology, c: Id, run: nat -> System, steps: nat -> SysStep, t: nat, s: Id, d: Id)
    returns (t': nat)
    requires IsStar(g, c) && IsFairSysRun(g, run, steps) && IsHost(g, s) && IsHost(g, d)
    requires forall k: nat :: OnlySender(g, run(k), s, d)
    ensures t <= t'
    ensures var transfers := TransfersTo(LogAt(g, run, steps, t, s).units, d);
      var ends := Ends(LogAt(g, run, steps, t', d).events);
      && |transfers| <= |ends|
      && forall i :: 0 <= i < |transfers| ==> transfers[i].Transfer? && Delivers(ends[i], transfers[i])
  {
    t' := TransfersAreProcessed(g, c, run, steps, t, s, d);
    hide *;
    UnitsGrow(g, run, steps, t, t', s);
    EndsDeliver(g, c, run, steps, t', s, d);
    var now, later := LogAt(g, run, steps, t, s).units, LogAt(g, run, steps, t', s).units;
    TransfersGrow(now, later, d);
    AllTransfers(now, d);
    OneEndPerTransfer(s, TransfersTo(now, d));
    var events := LogAt(g, run, steps, t', d).events;
    EndsAreEndPackets(events);
    FilterPrefix(AllPackets(s, TransfersTo(now, d)), EventPackets(events), IsEndPacket);
  }
}
