// What must happen in the whole simulator as long as every process keeps running its loop: jobs get
// executed, and answers and files get through.
module Liveness {
  import opened Types
  import opened Commands
  import opened Hosts
  import opened HostLogs
  import opened Uploads
  import opened Switches
  import opened Trees
  import opened Network
  import opened Learning
  import opened Delivery
  import opened Simulator

  // ---- Fair runs of the whole system ----

  // Every link keeps being polled, and every host keeps executing jobs.
  ghost predicate IsFairSysRun(g: Topology, run: nat -> System, steps: nat -> SysStep) {
    && Starts(g, run(0))
    && (forall t: nat :: Possible(g, run(t), steps(t)) && run(t + 1) == Then(g, run(t), steps(t)))
    && (forall t: nat, u, w :: Adjacent(g, u, w) ==> PolledLater(g, run, steps, t, u, w))
    && (forall t: nat, h :: IsHost(g, h) ==> WorksLater(steps, t, h))
  }

  ghost predicate PolledLater(g: Topology, run: nat -> System, steps: nat -> SysStep, t: nat, u: Id, w: Id) {
    exists t': nat :: t <= t' && (Reads(g, NetStep(run(t'), steps(t')), u, w) || On(run(t').net.links, u, w) == [])
  }

  predicate IsJobOf(step: SysStep, h: Id) {
    step.Job? && step.host == h
  }

  ghost predicate WorksLater(steps: nat -> SysStep, t: nat, h: Id) {
    exists t': nat :: t <= t' && IsJobOf(steps(t'), h)
  }

  lemma SysStepAt(g: Topology, run: nat -> System, steps: nat -> SysStep, t: nat)
    requires IsFairSysRun(g, run, steps)
    ensures Possible(g, run(t), steps(t)) && run(t + 1) == Then(g, run(t), steps(t))
  {
  }

  // The network's part of a run.
  function NetRun(run: nat -> System): nat -> Net {
    (t: nat) => run(t).net
  }

  function NetSteps(run: nat -> System, steps: nat -> SysStep): nat -> Step {
    (t: nat) => NetStep(run(t), steps(t))
  }

  lemma NetIsFair(g: Topology, run: nat -> System, steps: nat -> SysStep)
    requires IsFairSysRun(g, run, steps)
    ensures IsFairRun(g, NetRun(run), NetSteps(run, steps))
  {
    var nets, netSteps := NetRun(run), NetSteps(run, steps);
    forall t: nat
      ensures Enabled(g, nets(t), netSteps(t)) && nets(t + 1) == Next(g, nets(t), netSteps(t))
    {
      SysStepAt(g, run, steps, t);
    }
    forall t: nat, u, w | Adjacent(g, u, w)
      ensures ServedLater(g, nets, netSteps, t, u, w)
    {
      assert PolledLater(g, run, steps, t, u, w);
      var t': nat :|
        t <= t' && (Reads(g, NetStep(run(t'), steps(t')), u, w) || On(run(t').net.links, u, w) == []);
      assert Reads(g, netSteps(t'), u, w) || On(nets(t').links, u, w) == [];
    }
  }

  lemma {:induction false} FairSysInv(r: Rooting, g: Topology, run: nat -> System, steps: nat -> SysStep, t: nat)
    requires Rooted(r, g) && IsFairSysRun(g, run, steps)
    ensures TreeInv(r, g, run(t))
  {
    hide Rooted, TreeInv;
    if t == 0 {
      TreeInvInitially(r, g, run(0));
    } else {
      FairSysInv(r, g, run, steps, t - 1);
      SysStepAt(g, run, steps, t - 1);
      hide IsFairSysRun;
      TreeInvKept(r, g, run(t - 1), steps(t - 1));
    }
  }

  // ---- The queue of a host ----

  // Later steps keep what a host has accepted and sent, and only append to its queue, but for the
  // oldest job when it is executed.
  lemma HostGoesOn(g: Topology, sys: System, step: SysStep, h: Id)
    requires Possible(g, sys, step) && h in sys.hosts
    ensures h in Then(g, sys, step).hosts
    ensures var l, l' := sys.hosts[h], Then(g, sys, step).hosts[h];
      && l.accepted <= l'.accepted && l.units <= l'.units && l'.h.id == l.h.id
      && (if IsJobOf(step, h) && l.h.jobs != [] then
            && l.h.jobs[1..] <= l'.h.jobs && l'.sent == l.sent + ToSend(l.h.jobs[0])
            && EventPackets(l'.events) == EventPackets(l.events) + ToFile(l.h.jobs[0])
          else l.h.jobs <= l'.h.jobs && l'.sent == l.sent && l'.events == l.events)
  {
    if !step.Serve? && step.host == h {
      var l, s := sys.hosts[h], HostPart(g, sys, step);
      QueueShape(l, s);
      LogShape(l, s);
    }
  }

  lemma {:induction false} Present(g: Topology, run: nat -> System, steps: nat -> SysStep, t: nat, h: Id)
    requires IsFairSysRun(g, run, steps) && IsHost(g, h)
    ensures h in run(t).hosts && run(t).hosts[h].h.id == h
  {
    if t > 0 {
      Present(g, run, steps, t - 1, h);
      SysStepAt(g, run, steps, t - 1);
      hide IsFairSysRun, Possible, Then;
      HostGoesOn(g, run(t - 1), steps(t - 1), h);
    }
  }

  // The host's log at moment t.
  ghost function LogAt(g: Topology, run: nat -> System, steps: nat -> SysStep, t: nat, h: Id): Logged
    requires IsFairSysRun(g, run, steps) && IsHost(g, h)
  {
    Present(g, run, steps, t, h);
    run(t).hosts[h]
  }

  lemma UntilJob(g: Topology, run: nat -> System, steps: nat -> SysStep, t: nat, last: nat, h: Id) returns (t': nat)
    requires IsFairSysRun(g, run, steps) && IsHost(g, h) && t <= last && IsJobOf(steps(last), h)
    ensures t <= t' && IsJobOf(steps(t'), h)
    ensures var l, l' := LogAt(g, run, steps, t, h), LogAt(g, run, steps, t', h);
      l.h.jobs <= l'.h.jobs && l.accepted <= l'.accepted && l'.sent == l.sent && l'.events == l.events
    decreases last - t
  {
    if IsJobOf(steps(t), h) {
      t' := t;
    } else {
      SysStepAt(g, run, steps, t);
      Present(g, run, steps, t, h);
      hide IsFairSysRun, Possible, Then;
      HostGoesOn(g, run(t), steps(t), h);
      t' := UntilJob(g, run, steps, t + 1, last, h);
    }
  }

  lemma NextJob(g: Topology, run: nat -> System, steps: nat -> SysStep, t: nat, h: Id) returns (t': nat)
    requires IsFairSysRun(g, run, steps) && IsHost(g, h)
    ensures t <= t' && IsJobOf(steps(t'), h)
    ensures var l, l' := LogAt(g, run, steps, t, h), LogAt(g, run, steps, t', h);
      l.h.jobs <= l'.h.jobs && l.accepted <= l'.accepted && l'.sent == l.sent && l'.events == l.events
  {
    assert WorksLater(steps, t, h);
    var last: nat :| t <= last && IsJobOf(steps(last), h);
    t' := UntilJob(g, run, steps, t, last, h);
  }

  // Executing the oldest job.
  lemma JobDone(g: Topology, run: nat -> System, steps: nat -> SysStep, t: nat, h: Id)
    requires IsFairSysRun(g, run, steps) && IsHost(g, h) && IsJobOf(steps(t), h)
    requires LogAt(g, run, steps, t, h).h.jobs != []
    ensures var l, l' := LogAt(g, run, steps, t, h), LogAt(g, run, steps, t + 1, h);
      && l'.h.jobs == l.h.jobs[1..] + AddedByJob(l.h, l.h.jobs[0], steps(t).disk)
      && l'.sent == l.sent + ToSend(l.h.jobs[0])
      && EventPackets(l'.events) == EventPackets(l.events) + ToFile(l.h.jobs[0])
      && l'.accepted == l.accepted
  {
    SysStepAt(g, run, steps, t);
    Present(g, run, steps, t, h);
    hide IsFairSysRun;
    var l, s := run(t).hosts[h], RunJob(steps(t).disk);
    QueueShape(l, s);
    LogShape(l, s);
  }

  // Every queued job gets executed.
  lemma JobGetsRun(g: Topology, run: nat -> System, steps: nat -> SysStep, t: nat, h: Id, i: nat) returns (t': nat)
    requires IsFairSysRun(g, run, steps) && IsHost(g, h) && i < |LogAt(g, run, steps, t, h).h.jobs|
    ensures t <= t' && IsJobOf(steps(t'), h)
    ensures var l, l' := LogAt(g, run, steps, t, h), LogAt(g, run, steps, t', h);
      l'.h.jobs != [] && l'.h.jobs[0] == l.h.jobs[i] && l.h.jobs[i..] <= l'.h.jobs
      && forall p :: p in l.accepted ==> p in l'.accepted
    decreases i
  {
    hide IsFairSysRun, LogAt, AddedByJob;
    t' := NextJob(g, run, steps, t, h);
    var l, l1 := LogAt(g, run, steps, t, h), LogAt(g, run, steps, t', h);
    assert l1.h.jobs[i] == l.h.jobs[i];
    if i > 0 {
      JobDone(g, run, steps, t', h);
      t' := JobGetsRun(g, run, steps, t' + 1, h, i - 1);
    }
  }

  // ---- Answers ----

  // The packet that host h sends at moment t arrives at t' as the one copy it has been all the way,
  // and is in the destination's own log of accepted packets then.
  ghost predicate ArrivesUnflooded(g: Topology, run: nat -> System, steps: nat -> SysStep,
                                   t: nat, h: Id, q: Packet, t': nat)
    requires IsFairRun(g, NetRun(run), NetSteps(run, steps)) && IsLeaf(g, h)
  {
    && ArrivesAsOne(g, NetRun(run), NetSteps(run, steps), t, h, q, t')
    && steps(t').Receive? && q.dst in run(t').hosts && q.dst in run(t' + 1).hosts
    && run(t' + 1).hosts[q.dst].accepted == run(t').hosts[q.dst].accepted + [q]
  }

  lemma AcceptedAgree(g: Topology, sys: System, h: Id)
    requires HostsOk(g, sys) && IsHost(g, h)
    ensures h in sys.hosts && sys.hosts[h].accepted == Log(sys.net.accepted, h)
  {
    HostFacts(g, sys, h);
  }

  lemma FairHosts(g: Topology, run: nat -> System, steps: nat -> SysStep, t: nat, root: Id)
    requires IsTree(g) && root in g.ports && IsFairSysRun(g, run, steps)
    ensures HostsOk(g, run(t))
  {
    TreeHasRooting(g, root);
    hide IsTree, RootedAt, Rooted, IsFairSysRun, HostsOk, NetInv;
    FairSysInv(RootedAt(g, root), g, run, steps, t);
  }

  // What executing a send job is for the network.
  lemma SendsNow(g: Topology, sys: System, step: SysStep, h: Id, q: Packet, heard: Packet)
    requires HostsOk(g, sys) && IsHost(g, h) && IsJobOf(step, h) && h in sys.hosts
    requires sys.hosts[h].h.jobs != [] && sys.hosts[h].h.jobs[0] == SendPacket(q) && heard in sys.hosts[h].accepted
    ensures NetStep(sys, step) == Send(h, q) && heard in Log(sys.net.accepted, h) && FromHost(g, heard)
  {
    HostFacts(g, sys, h);
  }

  lemma TakesNow(g: Topology, sys: System, step: SysStep, h: Id)
    requires NetStep(sys, step).Take? && NetStep(sys, step).host == h
    ensures step.Receive? && step.host == h
  {
  }

  // A leaf host sends something to a host it has heard from.
  lemma HeardHostIsReached(g: Topology, run: nat -> System, steps: nat -> SysStep,
                           t: nat, h: Id, q: Packet, heard: Packet)
    returns (t': nat)
    requires IsTree(g) && IsFairSysRun(g, run, steps) && IsLeaf(g, h) && IsJobOf(steps(t), h)
    requires var l := LogAt(g, run, steps, t, h); l.h.jobs != [] && l.h.jobs[0] == SendPacket(q) && heard in l.accepted
    requires q.dst == heard.src
    ensures IsFairRun(g, NetRun(run), NetSteps(run, steps))
    ensures ArrivesUnflooded(g, run, steps, t, h, q, t')
  {
    NetIsFair(g, run, steps);
    FairHosts(g, run, steps, t, h);
    Present(g, run, steps, t, h);
    hide IsFairSysRun, IsFairRun, IsTree, HostsOk, NetStep, FromHost;
    SendsNow(g, run(t), steps(t), h, q, heard);
    assert IsHost(g, q.dst) by {
      assert FromHost(g, heard);
    }
    t' := SentBackArrives(g, NetRun(run), NetSteps(run, steps), t, h, q, heard);
    TakesNow(g, run(t'), steps(t'), q.dst);
    FairHosts(g, run, steps, t', h);
    FairHosts(g, run, steps, t' + 1, h);
    AcceptedAgree(g, run(t'), q.dst);
    AcceptedAgree(g, run(t' + 1), q.dst);
  }

  // Every ping reply in the queue answers a ping request the host has accepted.
  lemma ReplyHasPinger(l: Logged, q: Packet) returns (request: Packet)
    requires LogInv(l) && l.h.jobs != [] && l.h.jobs[0] == SendPacket(q) && q.ptype == PKT_PING_REPLY
    ensures request in l.accepted && request.ptype == PKT_PING_REQ && request.src == q.dst && request.dst == l.h.id
  {
    var id, pending := l.h.id, Pending(l.h.jobs, ToSend);
    assert q.src == id by {
      assert GoodJob(id, l.h.jobs[0]);
    }
    assert pending[0] == q;
    hide GoodJobs, FilesInOrder, BufferReplays, GoodUnits, Pending;
    CountConcat(l.sent, pending, id, q.dst, PKT_PING_REPLY);
    assert Count(pending, id, q.dst, PKT_PING_REPLY) > 0;
    var i := CountedMember(l.accepted, q.dst, id, PKT_PING_REQ);
    request := l.accepted[i];
  }

  // In every fair run of any tree of full hosts: each ping reply a leaf host sends is accepted by
  // the host that pinged it, and is never flooded on the way.
  lemma RepliesArrive(g: Topology, run: nat -> System, steps: nat -> SysStep, t: nat, h: Id, q: Packet)
    returns (t': nat)
    requires IsTree(g) && IsFairSysRun(g, run, steps) && IsLeaf(g, h) && IsJobOf(steps(t), h)
    requires var l := LogAt(g, run, steps, t, h); l.h.jobs != [] && l.h.jobs[0] == SendPacket(q)
    requires q.ptype == PKT_PING_REPLY
    ensures exists request :: request in LogAt(g, run, steps, t, h).accepted
                              && request.ptype == PKT_PING_REQ && request.src == q.dst
    ensures IsFairRun(g, NetRun(run), NetSteps(run, steps))
    ensures ArrivesUnflooded(g, run, steps, t, h, q, t')
  {
    FairHosts(g, run, steps, t, h);
    Present(g, run, steps, t, h);
    hide IsTree, IsFairSysRun, IsFairRun, ArrivesUnflooded, HostsOk, LogInv;
    HostFacts(g, run(t), h);
    var request := ReplyHasPinger(run(t).hosts[h], q);
    t' := HeardHostIsReached(g, run, steps, t, h, q, request);
  }

  // Host h accepts packet p at moment t.
  ghost predicate AcceptsAt(g: Topology, run: nat -> System, steps: nat -> SysStep, t: nat, h: Id, p: Packet)
    requires IsFairSysRun(g, run, steps) && IsHost(g, h)
  {
    && steps(t).Receive? && steps(t).host == h && p.dst == h
    && steps(t).port < |g.ports[h]| && On(run(t).net.links, g.ports[h][steps(t).port], h) != []
    && On(run(t).net.links, g.ports[h][steps(t).port], h)[0] == p
  }

  // That is, the packet is added to what h has accepted.
  lemma AcceptsMeans(g: Topology, run: nat -> System, steps: nat -> SysStep, t: nat, h: Id, p: Packet)
    requires IsFairSysRun(g, run, steps) && IsHost(g, h)
    ensures AcceptsAt(g, run, steps, t, h, p)
       <==> LogAt(g, run, steps, t + 1, h).accepted == LogAt(g, run, steps, t, h).accepted + [p]
  {
    SysStepAt(g, run, steps, t);
    Present(g, run, steps, t, h);
    hide IsFairSysRun;
    var before, after := LogAt(g, run, steps, t, h).accepted, LogAt(g, run, steps, t + 1, h).accepted;
    assert |before + [p]| == |before| + 1 && (before + [p])[|before|] == p;
    AcceptedAfter(g, run(t), steps(t), h);
  }

  // What a step adds to the packets host h has accepted.
  lemma AcceptedAfter(g: Topology, sys: System, step: SysStep, h: Id)
    requires Possible(g, sys, step) && h in sys.hosts && sys.hosts[h].h.id == h
    ensures h in Then(g, sys, step).hosts
    ensures Then(g, sys, step).hosts[h].accepted
         == sys.hosts[h].accepted + if step.Receive? && step.host == h && HostPart(g, sys, step).p.dst == h
                                    then [HostPart(g, sys, step).p] else []
  {
    assert sys.hosts[h].accepted + [] == sys.hosts[h].accepted;
    if !step.Serve? && step.host == h {
      LogShape(sys.hosts[h], HostPart(g, sys, step));
    }
  }

  lemma AcceptedNow(g: Topology, run: nat -> System, steps: nat -> SysStep, t: nat, h: Id, p: Packet)
    requires IsFairSysRun(g, run, steps) && IsHost(g, h) && AcceptsAt(g, run, steps, t, h, p)
    ensures var l, l' := LogAt(g, run, steps, t, h), LogAt(g, run, steps, t + 1, h);
      l'.accepted == l.accepted + [p] && l'.h.jobs == l.h.jobs + JobsFor(p)
  {
    SysStepAt(g, run, steps, t);
    Present(g, run, steps, t, h);
  }

  // The oldest job of host h at moment t, which executes it, sends q.
  ghost predicate SendsAt(g: Topology, run: nat -> System, steps: nat -> SysStep, t: nat, h: Id, q: Packet)
    requires IsFairSysRun(g, run, steps) && IsHost(g, h)
  {
    var jobs := LogAt(g, run, steps, t, h).h.jobs;
    IsJobOf(steps(t), h) && jobs != [] && jobs[0] == SendPacket(q)
  }

  // Every ping request a leaf host accepts gets its reply sent, and the reply arrives.
  lemma PingRequestsAreAnswered(g: Topology, run: nat -> System, steps: nat -> SysStep, t: nat, h: Id, p: Packet)
    returns (sent: nat, arrived: nat)
    requires IsTree(g) && IsFairSysRun(g, run, steps) && IsLeaf(g, h)
    requires AcceptsAt(g, run, steps, t, h, p) && p.ptype == PKT_PING_REQ
    ensures IsFairRun(g, NetRun(run), NetSteps(run, steps))
    ensures var reply := Packet(h, p.src, PKT_PING_REPLY, []);
      t < sent && SendsAt(g, run, steps, sent, h, reply) && ArrivesUnflooded(g, run, steps, sent, h, reply, arrived)
  {
    hide IsTree, IsFairSysRun, IsFairRun, ArrivesUnflooded, LogAt, AcceptsAt;
    AcceptedNow(g, run, steps, t, h, p);
    var l := LogAt(g, run, steps, t + 1, h);
    var t1 := JobGetsRun(g, run, steps, t + 1, h, |l.h.jobs| - 1);
    JobDone(g, run, steps, t1, h);
    IdAt(g, run, steps, t1, h);
    sent := JobGetsRun(g, run, steps, t1 + 1, h, |LogAt(g, run, steps, t1 + 1, h).h.jobs| - 1);
    arrived := HeardHostIsReached(g, run, steps, sent, h, Packet(h, p.src, PKT_PING_REPLY, []), p);
  }

  lemma IdAt(g: Topology, run: nat -> System, steps: nat -> SysStep, t: nat, h: Id)
    requires IsFairSysRun(g, run, steps) && IsHost(g, h)
    ensures LogAt(g, run, steps, t, h).h.id == h
  {
    Present(g, run, steps, t, h);
  }

  lemma NextInLine(ps: seq<Packet>, jobs: seq<Hosts.Job>, i: nat)
    requires ps != [] && i <= |jobs| && SendJobs(ps) <= jobs[i..]
    ensures i < |jobs| && jobs[i] == SendPacket(ps[0])
    ensures forall now, added :: jobs[i..] <= now ==> SendJobs(ps[1..]) <= now[1..] + added
  {
    assert jobs[i..][0] == SendPacket(ps[0]);
    assert SendJobs(ps)[1..] == SendJobs(ps[1..]);
    forall now, added | jobs[i..] <= now
      ensures SendJobs(ps[1..]) <= now[1..] + added
    {
      assert SendJobs(ps) <= now;
      assert SendJobs(ps)[1..] <= now[1..];
    }
  }

  // When a packet is sent and when it arrives.
  datatype Trip = Trip(sent: nat, arrived: nat)

  // The packets are sent in order, none before moment t, and every one of them arrives.
  ghost predicate AllArrive(g: Topology, run: nat -> System, steps: nat -> SysStep, t: nat, h: Id,
                            ps: seq<Packet>, trips: seq<Trip>)
    requires IsFairSysRun(g, run, steps) && IsFairRun(g, NetRun(run), NetSteps(run, steps)) && IsLeaf(g, h)
  {
    && |trips| == |ps|
    && (forall k :: 0 <= k < |ps| ==> t <= trips[k].sent && SendsAt(g, run, steps, trips[k].sent, h, ps[k]))
    && (forall k :: 0 <= k < |ps| ==> ArrivesUnflooded(g, run, steps, trips[k].sent, h, ps[k], trips[k].arrived))
    && (forall j, k :: 0 <= j < k < |ps| ==> trips[j].sent < trips[k].sent)
  }

  lemma OneMoreArrives(g: Topology, run: nat -> System, steps: nat -> SysStep, t: nat, h: Id,
                       ps: seq<Packet>, first: Trip, later: seq<Trip>)
    requires IsFairSysRun(g, run, steps) && IsFairRun(g, NetRun(run), NetSteps(run, steps)) && IsLeaf(g, h)
    requires ps != [] && AllArrive(g, run, steps, first.sent + 1, h, ps[1..], later) && t <= first.sent
    requires SendsAt(g, run, steps, first.sent, h, ps[0])
    requires ArrivesUnflooded(g, run, steps, first.sent, h, ps[0], first.arrived)
    ensures AllArrive(g, run, steps, t, h, ps, [first] + later)
  {
    hide IsFairSysRun, IsFairRun, SendsAt, ArrivesUnflooded;
    var trips := [first] + later;
    forall k | 0 <= k < |ps|
      ensures t <= trips[k].sent && SendsAt(g, run, steps, trips[k].sent, h, ps[k])
      ensures ArrivesUnflooded(g, run, steps, trips[k].sent, h, ps[k], trips[k].arrived)
    {
      assert k > 0 ==> ps[k] == ps[1..][k - 1] && trips[k] == later[k - 1];
    }
    forall j, k | 0 <= j < k < |ps|
      ensures trips[j].sent < trips[k].sent
    {
      assert trips[k] == later[k - 1] && (j > 0 ==> trips[j] == later[j - 1]);
    }
  }

  // Jobs that send these packets to the host `heard` came from are queued from place i on.
  ghost predicate QueuedAt(g: Topology, run: nat -> System, steps: nat -> SysStep, t: nat, h: Id, i: nat,
                           ps: seq<Packet>, heard: Packet)
    requires IsFairSysRun(g, run, steps) && IsHost(g, h)
  {
    var l := LogAt(g, run, steps, t, h);
    && i <= |l.h.jobs| && SendJobs(ps) <= l.h.jobs[i..] && heard in l.accepted
    && forall k :: 0 <= k < |ps| ==> ps[k].dst == heard.src
  }

  lemma FirstArrives(g: Topology, run: nat -> System, steps: nat -> SysStep, t: nat, h: Id, i: nat,
                     ps: seq<Packet>, heard: Packet)
    returns (trip: Trip)
    requires IsTree(g) && IsFairSysRun(g, run, steps) && IsLeaf(g, h)
    requires ps != [] && QueuedAt(g, run, steps, t, h, i, ps, heard)
    ensures IsFairRun(g, NetRun(run), NetSteps(run, steps))
    ensures t <= trip.sent && SendsAt(g, run, steps, trip.sent, h, ps[0])
    ensures ArrivesUnflooded(g, run, steps, trip.sent, h, ps[0], trip.arrived)
    ensures QueuedAt(g, run, steps, trip.sent + 1, h, 0, ps[1..], heard)
  {
    hide IsTree, IsFairSysRun, IsFairRun, ArrivesUnflooded, LogAt, AddedByJob, SendJobs, ToSend, ToFile;
    NextInLine(ps, LogAt(g, run, steps, t, h).h.jobs, i);
    var sent := JobGetsRun(g, run, steps, t, h, i);
    JobDone(g, run, steps, sent, h);
    var arrived := HeardHostIsReached(g, run, steps, sent, h, ps[0], heard);
    trip := Trip(sent, arrived);
    var jobs := LogAt(g, run, steps, sent + 1, h).h.jobs;
    assert jobs[0..] == jobs;
  }

  lemma NoneToArrive(g: Topology, run: nat -> System, steps: nat -> SysStep, t: nat, h: Id)
    requires IsFairSysRun(g, run, steps) && IsFairRun(g, NetRun(run), NetSteps(run, steps)) && IsLeaf(g, h)
    ensures AllArrive(g, run, steps, t, h, [], [])
  {
  }

  // Send jobs queued one behind the other for a host heard from are executed in that order, and
  // every packet arrives.
  lemma QueuedPacketsArrive(g: Topology, run: nat -> System, steps: nat -> SysStep, t: nat, h: Id, i: nat,
                            ps: seq<Packet>, heard: Packet)
    returns (trips: seq<Trip>)
    requires IsTree(g) && IsFairSysRun(g, run, steps) && IsLeaf(g, h)
    requires QueuedAt(g, run, steps, t, h, i, ps, heard)
    ensures IsFairRun(g, NetRun(run), NetSteps(run, steps))
    ensures AllArrive(g, run, steps, t, h, ps, trips)
    decreases |ps|
  {
    hide *;
    NetIsFair(g, run, steps);
    if ps == [] {
      trips := [];
      NoneToArrive(g, run, steps, t, h);
    } else {
      var first := FirstArrives(g, run, steps, t, h, i, ps, heard);
      var later := QueuedPacketsArrive(g, run, steps, first.sent + 1, h, 0, ps[1..], heard);
      OneMoreArrives(g, run, steps, t, h, ps, first, later);
      trips := [first] + later;
    }
  }

  lemma SourceId(src: Byte)
    ensures ToChar(src) == src
  {
  }

  lemma BlockQueued(h: Host, p: Packet, disk: Disk, content: Bytes, jobs: seq<Hosts.Job>)
    requires h.jobs != [] && h.jobs[0] == FileSend(p.src, CString(p.payload))
    requires Source(h.dir, CString(p.payload), disk) == Some(content)
    requires jobs == h.jobs[1..] + AddedByJob(h, h.jobs[0], disk)
    ensures var block := Block(h.id, p.src, CString(p.payload), content);
      && SendJobs(block) <= jobs[|h.jobs| - 1..]
      && forall k :: 0 <= k < |block| ==> block[k].dst == p.src
  {
    SourceId(p.src);
    BlockSource(h.id, p.src, CString(p.payload), content);
    assert jobs[|h.jobs| - 1..] == AddedByJob(h, h.jobs[0], disk);
  }

  lemma RequestGetsRun(g: Topology, run: nat -> System, steps: nat -> SysStep, t: nat, h: Id, p: Packet)
    returns (start: nat)
    requires IsFairSysRun(g, run, steps) && IsHost(g, h)
    requires AcceptsAt(g, run, steps, t, h, p) && p.ptype == PKT_FILE_DOWNLOAD_REQ
    ensures t < start && IsJobOf(steps(start), h)
    ensures var l := LogAt(g, run, steps, start, h);
      l.h.jobs != [] && l.h.jobs[0] == FileSend(p.src, CString(p.payload)) && p in l.accepted
  {
    hide IsFairSysRun, LogAt, AcceptsAt;
    AcceptedNow(g, run, steps, t, h, p);
    start := JobGetsRun(g, run, steps, t + 1, h, |LogAt(g, run, steps, t + 1, h).h.jobs| - 1);
  }

  lemma RequestedBlockArrives(g: Topology, run: nat -> System, steps: nat -> SysStep, start: nat, h: Id, p: Packet,
                              content: Bytes)
    returns (trips: seq<Trip>)
    requires IsTree(g) && IsFairSysRun(g, run, steps) && IsLeaf(g, h) && IsJobOf(steps(start), h)
    requires var l := LogAt(g, run, steps, start, h);
      && l.h.jobs != [] && l.h.jobs[0] == FileSend(p.src, CString(p.payload)) && p in l.accepted
      && Source(l.h.dir, CString(p.payload), steps(start).disk) == Some(content)
    ensures IsFairRun(g, NetRun(run), NetSteps(run, steps))
    ensures AllArrive(g, run, steps, start + 1, h, Block(h, p.src, CString(p.payload), content), trips)
  {
    hide IsTree, IsFairSysRun, IsFairRun, AllArrive, LogAt, Block, AddedByJob;
    JobDone(g, run, steps, start, h);
    IdAt(g, run, steps, start, h);
    var l, disk := LogAt(g, run, steps, start, h), steps(start).disk;
    BlockQueued(l.h, p, disk, content, LogAt(g, run, steps, start + 1, h).h.jobs);
    var block := Block(h, p.src, CString(p.payload), content);
    assert QueuedAt(g, run, steps, start + 1, h, |l.h.jobs| - 1, block, p);
    hide *;
    trips := QueuedPacketsArrive(g, run, steps, start + 1, h, |l.h.jobs| - 1, block, p);
  }

  // A download request a leaf host accepts gets executed; if there is a directory then and the file
  // opens, the whole block of its packets is sent, in order, and every one of them arrives.
  lemma DownloadsAreAnswered(g: Topology, run: nat -> System, steps: nat -> SysStep, t: nat, h: Id, p: Packet)
    returns (start: nat, trips: seq<Trip>)
    requires IsTree(g) && IsFairSysRun(g, run, steps) && IsLeaf(g, h)
    requires AcceptsAt(g, run, steps, t, h, p) && p.ptype == PKT_FILE_DOWNLOAD_REQ
    ensures IsFairRun(g, NetRun(run), NetSteps(run, steps))
    ensures t < start && IsJobOf(steps(start), h)
    ensures var l := LogAt(g, run, steps, start, h);
      && l.h.jobs != [] && l.h.jobs[0] == FileSend(p.src, CString(p.payload))
      && var content := Source(l.h.dir, CString(p.payload), steps(start).disk);
         content.Some? ==>
           AllArrive(g, run, steps, start + 1, h, Block(h, p.src, CString(p.payload), content.value), trips)
  {
    NetIsFair(g, run, steps);
    hide IsTree, IsFairSysRun, IsFairRun, AllArrive, LogAt, AcceptsAt, Block;
    start := RequestGetsRun(g, run, steps, t, h, p);
    trips := [];
    var content := Source(LogAt(g, run, steps, start, h).h.dir, CString(p.payload), steps(start).disk);
    if content.Some? {
      trips := RequestedBlockArrives(g, run, steps, start, h, p, content.value);
    }
  }
}
