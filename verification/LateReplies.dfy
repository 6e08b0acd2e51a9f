// Why "Ping acked!" can be wrong: an old reply that is read before the waiting job times out. While the
// manager waits, every process keeps to its loop.
module LateReplies {
  import opened Types
  import opened Commands
  import opened Hosts
  import opened HostLogs
  import opened Pings
  import Manager
  import opened Switches
  import opened Trees
  import opened Network
  import opened Learning
  import opened Star
  import opened Simulator
  import opened Acks
  import opened Loops
  import opened SysLoops

  // ---- A host going round its loop ----

  // What a host takes for the reply it is waiting for: the source does not matter.
  predicate IsReply(p: Packet, s: int) {
    p.dst == s && p.ptype == PKT_PING_REPLY
  }

  predicate NoReply(ps: seq<Packet>, s: int) {
    forall i :: 0 <= i < |ps| ==> !IsReply(ps[i], s)
  }

  // The first reply for s among the packets is number i.
  predicate FirstReply(ps: seq<Packet>, s: int, i: nat) {
    i < |ps| && IsReply(ps[i], s) && NoReply(ps[..i], s)
  }

  function Reading(p: Packet, disk: Disk): Turn {
    Turn(None, [p], disk)
  }

  // A host that gets no command, after reading these packets, one each time round its loop.
  function Round(h: Host, ps: seq<Packet>, disks: seq<Disk>): Host
    requires |disks| == |ps|
    decreases |ps|
  {
    if ps == [] then h else Round(OnTurn(h, Reading(ps[0], disks[0])).0, ps[1..], disks[1..])
  }

  // The waiting job is still there then.
  predicate Outlasts(h: Host, ps: seq<Packet>, disks: seq<Disk>)
    requires |disks| == |ps|
  {
    WaitJobs(Round(h, ps, disks).jobs) > 0
  }

  // Whatever the disk does, the waiting job has timed out by the time these packets are read.
  ghost predicate TimesOut(h: Host, ps: seq<Packet>) {
    forall disks :: |disks| == |ps| ==> !Outlasts(h, ps, disks)
  }

  lemma ReadingIsPacketAndJob(h: Host, p: Packet, disk: Disk)
    ensures OnTurn(h, Reading(p, disk)).0 == OnJob(OnPacket(h, p), disk).0
  {
    assert [p][1..] == [] && OnPackets(OnPacket(h, p), []) == OnPacket(h, p);
    assert OnPackets(h, [p]) == OnPackets(OnPacket(h, [p][0]), [p][1..]);
  }

  lemma TimesOutFrom(h: Host, ps: seq<Packet>, disk: Disk)
    requires ps != [] && TimesOut(h, ps)
    ensures TimesOut(OnJob(OnPacket(h, ps[0]), disk).0, ps[1..])
  {
    var h' := OnJob(OnPacket(h, ps[0]), disk).0;
    forall disks | |disks| == |ps[1..]|
      ensures !Outlasts(h', ps[1..], disks)
    {
      var all := [disk] + disks;
      assert !Outlasts(h, ps, all);
      ReadingIsPacketAndJob(h, ps[0], disk);
      assert all[0] == disk && all[1..] == disks;
      assert Round(h, ps, all) == Round(OnTurn(h, Reading(ps[0], all[0])).0, ps[1..], all[1..]);
    }
  }

  lemma TimesOutNow(h: Host)
    requires TimesOut(h, [])
    ensures WaitJobs(h.jobs) == 0
  {
    assert !Outlasts(h, [], []);
  }

  // ---- A host of a star in its loop: its one port, a job, a command ----

  ghost predicate InLoop(g: Topology, c: Id, l: SysLooped, s: Id) {
    && IsStar(g, c) && IsHost(g, s) && PlacesFit(g, l) && s in l.at && s in l.sys.hosts && l.sys.hosts[s].h.id == s
  }

  lemma ThreePlaces(g: Topology, c: Id, l: SysLooped, s: Id)
    requires InLoop(g, c, l, s)
    ensures g.ports[s] == [c] && l.at[s] < 3
  {
  }

  // What an action of s without a command is for the system.
  lemma OwnStep(g: Topology, c: Id, l: SysLooped, s: Id, disk: Disk)
    requires InLoop(g, c, l, s)
    ensures ActStep(g, l, Mine(s, disk))
         == if l.at[s] == 0 && On(l.sys.net.links, c, s) != [] then Some(Receive(s, 0))
            else if l.at[s] == 1 then Some(SysStep.Job(s, disk)) else None
    ensures Loops.After(g, s, l.at[s]) == if l.at[s] < 2 then l.at[s] + 1 else 0
  {
    ThreePlaces(g, c, l, s);
  }

  lemma OwnLink(g: Topology, c: Id, sys: System, s: Id, step: SysStep)
    requires IsStar(g, c) && IsHost(g, s) && Possible(g, sys, step) && s in sys.hosts
    requires step == Receive(s, 0) || (step.Job? && step.host == s)
    ensures var q := On(sys.net.links, c, s);
      On(Then(g, sys, step).net.links, c, s) == if step.Receive? then q[1..] else q
    ensures Then(g, sys, step).hosts == sys.hosts[s := HostLogs.After(sys.hosts[s], HostPart(g, sys, step))]
    ensures step.Job? ==> HostPart(g, sys, step) == RunJob(step.disk)
    ensures var q := On(sys.net.links, c, s);
      step.Receive? ==> q != [] && HostPart(g, sys, step) == TakePacket(q[0])
  {
    assert g.ports[s] == [c];
    LinkAfter(g, sys.net, NetStep(sys, step), c, s);
    hide IsStar, HostLogs.After, Next;
  }

  // One action of s without a command.
  lemma OwnAct(g: Topology, c: Id, l: SysLooped, s: Id, disk: Disk)
    requires InLoop(g, c, l, s) && CanAct(g, l, Mine(s, disk))
    ensures var l', q := Acted(g, l, Mine(s, disk)), On(l.sys.net.links, c, s);
      && InLoop(g, c, l', s) && l'.at == l.at[s := if l.at[s] < 2 then l.at[s] + 1 else 0]
      && On(l'.sys.net.links, c, s) == (if l.at[s] == 0 && q != [] then q[1..] else q)
      && l'.sys.hosts[s] == if l.at[s] == 0 && q != [] then HostLogs.After(l.sys.hosts[s], TakePacket(q[0]))
                            else if l.at[s] == 1 then HostLogs.After(l.sys.hosts[s], RunJob(disk))
                            else l.sys.hosts[s]
  {
    OwnStep(g, c, l, s, disk);
    PlacesStay(g, l, Mine(s, disk));
    var step := ActStep(g, l, Mine(s, disk));
    hide IsStar, IsHost, PlacesFit, ActStep, Possible, Then, HostLogs.After, HostPart, On, Loops.After;
    if step.Some? {
      OwnLink(g, c, l.sys, s, step.value);
      var st := HostPart(g, l.sys, step.value);
      QueueShape(l.sys.hosts[s], st);
    }
  }

  // One action of another process: the link to s only gains packets.
  lemma OtherAct(g: Topology, c: Id, l: SysLooped, s: Id, a: Action)
    requires InLoop(g, c, l, s) && CanAct(g, l, a) && a.node != s
    ensures var l' := Acted(g, l, a);
      && InLoop(g, c, l', s) && l'.at[s] == l.at[s] && l'.sys.hosts[s] == l.sys.hosts[s]
      && On(l.sys.net.links, c, s) <= On(l'.sys.net.links, c, s)
  {
    var step := ActStep(g, l, a);
    PlacesStay(g, l, a);
    if step.Some? {
      OtherLink(g, l.sys, step.value, c, s);
      hide IsStar, IsHost, PlacesFit, Possible, Then, On;
      StepOfHost(g, l.sys, step.value, s);
    }
  }

  lemma OtherLink(g: Topology, sys: System, step: SysStep, c: Id, s: Id)
    requires WellFormed(g) && Possible(g, sys, step) && IsHost(g, s) && (step.Receive? ==> step.host != s)
    ensures On(sys.net.links, c, s) <= On(Then(g, sys, step).net.links, c, s)
  {
    LinkAfter(g, sys.net, NetStep(sys, step), c, s);
    hide WellFormed, Enabled, Next;
  }

  // ---- If the waiting job cannot outlast the packets in front of the first reply ----

  // The waiting job times out before these packets are read, none of which is a reply; the host is at
  // this place of its loop.
  ghost predicate Doomed(place: nat, h: Host, ps: seq<Packet>) {
    && !h.pingSeen && NoReply(ps, h.id)
    && if place == 1 then forall disk :: TimesOut(OnJob(h, disk).0, ps) else TimesOut(h, ps)
  }

  // Host s will not report an acknowledgement: it is not waiting any more, or the k oldest packets on
  // its link doom it.
  ghost predicate Fated(c: Id, l: SysLooped, s: Id, k: nat)
    requires s in l.at && s in l.sys.hosts
  {
    var q := On(l.sys.net.links, c, s);
    WaitJobs(l.sys.hosts[s].h.jobs) == 0 || (k <= |q| && Doomed(l.at[s], l.sys.hosts[s].h, q[..k]))
  }

  lemma DoomedPoll(h: Host, ps: seq<Packet>)
    requires Doomed(0, h, ps)
    ensures ps == [] ==> WaitJobs(h.jobs) == 0
    ensures ps != [] ==> Doomed(1, OnPacket(h, ps[0]), ps[1..])
  {
    if ps == [] {
      TimesOutNow(h);
    } else {
      forall disk
        ensures TimesOut(OnJob(OnPacket(h, ps[0]), disk).0, ps[1..])
      {
        TimesOutFrom(h, ps, disk);
      }
      hide TimesOut, OnJob;
    }
  }

  lemma DoomedJob(h: Host, ps: seq<Packet>, disk: Disk)
    requires Doomed(1, h, ps)
    ensures Doomed(2, OnJob(h, disk).0, ps)
  {
    hide TimesOut;
  }

  // Once s is not waiting any more it is not until the next command.
  lemma StaysIdle(g: Topology, c: Id, l: SysLooped, s: Id, disk: Disk)
    requires InLoop(g, c, l, s) && CanAct(g, l, Mine(s, disk)) && WaitJobs(l.sys.hosts[s].h.jobs) == 0
    ensures s in Acted(g, l, Mine(s, disk)).sys.hosts
    ensures WaitJobs(Acted(g, l, Mine(s, disk)).sys.hosts[s].h.jobs) == 0
  {
    OwnAct(g, c, l, s, disk);
    var h, q := l.sys.hosts[s].h, On(l.sys.net.links, c, s);
    hide InLoop, Acted, CanAct, OnPacket, OnJob, On, WaitJobs;
    if l.at[s] == 0 && q != [] {
      Manager.PacketWaits(h, q[0]);
    } else if l.at[s] == 1 {
      Manager.JobWaits(h, disk);
    }
  }

  lemma LogHost(l: Logged, p: Packet, disk: Disk)
    ensures HostLogs.After(l, TakePacket(p)).h == OnPacket(l.h, p)
    ensures HostLogs.After(l, RunJob(disk)).h == OnJob(l.h, disk).0
  {
  }

  lemma PollDoom(h: Host, q: seq<Packet>, k: nat)
    requires k <= |q| && Doomed(0, h, q[..k])
    ensures k == 0 ==> WaitJobs(h.jobs) == 0
    ensures k > 0 ==> Doomed(1, OnPacket(h, q[0]), q[1..][..k - 1])
  {
    hide Doomed, WaitJobs;
    DoomedPoll(h, q[..k]);
    if k > 0 {
      assert q[..k][0] == q[0] && q[..k][1..] == q[1..][..k - 1];
    }
  }

  lemma OwnFate(g: Topology, c: Id, l: SysLooped, s: Id, disk: Disk, k: nat) returns (k': nat)
    requires InLoop(g, c, l, s) && CanAct(g, l, Mine(s, disk)) && Fated(c, l, s, k)
    ensures InLoop(g, c, Acted(g, l, Mine(s, disk)), s) && Fated(c, Acted(g, l, Mine(s, disk)), s, k')
  {
    ThreePlaces(g, c, l, s);
    var h, q := l.sys.hosts[s].h, On(l.sys.net.links, c, s);
    hide InLoop, CanAct, Acted, Doomed, OnPacket, OnJob, On, WaitJobs, HostLogs.After;
    OwnAct(g, c, l, s, disk);
    k' := k;
    if WaitJobs(h.jobs) == 0 {
      StaysIdle(g, c, l, s, disk);
    } else if l.at[s] == 0 {
      PollDoom(h, q, k);
      LogHost(l.sys.hosts[s], q[0], disk);
      k' := k - 1;
    } else if l.at[s] == 1 {
      DoomedJob(h, q[..k], disk);
      LogHost(l.sys.hosts[s], Request(s, s), disk);
    }
  }

  lemma OthersKeepFate(g: Topology, c: Id, l: SysLooped, s: Id, a: Action, k: nat)
    requires InLoop(g, c, l, s) && CanAct(g, l, a) && a.node != s && Fated(c, l, s, k)
    ensures InLoop(g, c, Acted(g, l, a), s) && Fated(c, Acted(g, l, a), s, k)
  {
    OtherAct(g, c, l, s, a);
    hide InLoop, Acted, CanAct, Doomed;
    var q, q' := On(l.sys.net.links, c, s), On(Acted(g, l, a).sys.net.links, c, s);
    assert k <= |q| ==> q[..k] == q'[..k];
  }

  lemma {:induction false} FateHolds(g: Topology, c: Id, l: SysLooped, s: Id, acts: seq<Action>, k: nat)
    returns (k': nat)
    requires InLoop(g, c, l, s) && CanActAll(g, l, acts) && NoCommand(acts, s) && Fated(c, l, s, k)
    ensures InLoop(g, c, ActedAll(g, l, acts), s) && Fated(c, ActedAll(g, l, acts), s, k')
    decreases |acts|
  {
    hide InLoop, CanAct, Acted, Fated;
    k' := k;
    if acts != [] {
      var a, rest, k1 := acts[0], acts[1..], k;
      assert forall i :: 0 <= i < |rest| ==> rest[i] == acts[i + 1];
      if a.node == s {
        assert a == Mine(s, a.disk);
        k1 := OwnFate(g, c, l, s, a.disk, k);
      } else {
        OthersKeepFate(g, c, l, s, a, k);
      }
      k' := FateHolds(g, c, Acted(g, l, a), s, rest, k1);
    }
  }

  lemma FatedSaysNothing(g: Topology, c: Id, l: SysLooped, s: Id, k: nat, disk: Disk)
    requires InLoop(g, c, l, s) && Fated(c, l, s, k)
    ensures !TellsNext(g, l, s, disk, PingAcked)
  {
    OwnStep(g, c, l, s, disk);
    var h := l.sys.hosts[s].h;
    hide InLoop, TimesOut, Possible, Then, ActStep, CanAct;
    Manager.JobWaits(h, disk);
  }

  // ---- If it outlasts them, s alone can bring about the wrong answer ----

  ghost predicate Here(g: Topology, c: Id, l: SysLooped, s: Id) {
    SysInv(g, c, l.sys) && PlacesFit(g, l) && s in l.sys.hosts
  }

  lemma HereInLoop(g: Topology, c: Id, l: SysLooped, s: Id)
    requires Here(g, c, l, s)
    ensures InLoop(g, c, l, s)
  {
    hide SysInv;
    StarHost(g, c, l.sys, s);
  }

  lemma HereStays(g: Topology, c: Id, l: SysLooped, s: Id, a: Action)
    requires Here(g, c, l, s) && CanAct(g, l, a)
    ensures Here(g, c, Acted(g, l, a), s)
  {
    PlacesStay(g, l, a);
    var step := ActStep(g, l, a);
    hide SysInv, PlacesFit, ActStep, Possible, Then;
    if step.Some? {
      SysInvKept(g, c, l.sys, step.value);
      SameHosts(g, l.sys, step.value);
    }
  }

  lemma OwnPossible(g: Topology, c: Id, l: SysLooped, s: Id, disk: Disk)
    requires InLoop(g, c, l, s) && HostsOk(g, l.sys)
    ensures CanAct(g, l, Mine(s, disk))
  {
    hide *;
    OwnStep(g, c, l, s, disk);
    InItsPlace(g, c, l, s);
    OldestJobRuns(g, l.sys, s, disk);
    if On(l.sys.net.links, c, s) != [] {
      OwnReads(g, c, l, s);
    }
    MineCan(g, l, s, disk);
  }

  lemma InItsPlace(g: Topology, c: Id, l: SysLooped, s: Id)
    requires InLoop(g, c, l, s)
    ensures s in g.ports && s in l.at && s in l.sys.hosts
  {
  }

  lemma OwnReads(g: Topology, c: Id, l: SysLooped, s: Id)
    requires InLoop(g, c, l, s) && On(l.sys.net.links, c, s) != []
    ensures Possible(g, l.sys, Receive(s, 0))
  {
    assert g.ports[s] == [c];
  }

  lemma MineCan(g: Topology, l: SysLooped, s: Id, disk: Disk)
    requires s in g.ports && s in l.at
    requires var step := ActStep(g, l, Mine(s, disk)); step.Some? ==> Possible(g, l.sys, step.value)
    ensures CanAct(g, l, Mine(s, disk))
  {
    hide Possible, ActStep;
  }

  lemma OwnCan(g: Topology, c: Id, l: SysLooped, s: Id, disk: Disk)
    requires Here(g, c, l, s)
    ensures CanAct(g, l, Mine(s, disk)) && Here(g, c, Acted(g, l, Mine(s, disk)), s)
  {
    HereInLoop(g, c, l, s);
    assert HostsOk(g, l.sys);
    hide InLoop, SysInv, HostsOk, CanAct, Acted, PlacesFit, Here;
    OwnPossible(g, c, l, s, disk);
    HereStays(g, c, l, s, Mine(s, disk));
  }

  // No reply to the latest ping of d has come in or is waiting at s; u0 is the number of earlier pings.
  ghost predicate Behind(c: Id, l: SysLooped, s: Id, d: Id, u0: nat)
    requires s in l.sys.hosts
  {
    && Requests(l.sys.hosts[s], d) == u0 + 1
    && Replies(l.sys.hosts[s], d) + Count(On(l.sys.net.links, c, s), d, s, PKT_PING_REPLY) <= u0
  }

  lemma StaysBehind(g: Topology, c: Id, l: SysLooped, s: Id, disk: Disk, d: Id, u0: nat)
    requires InLoop(g, c, l, s) && CanAct(g, l, Mine(s, disk)) && Behind(c, l, s, d, u0)
    ensures s in Acted(g, l, Mine(s, disk)).sys.hosts && Behind(c, Acted(g, l, Mine(s, disk)), s, d, u0)
  {
    OwnAct(g, c, l, s, disk);
    var log, q := l.sys.hosts[s], On(l.sys.net.links, c, s);
    hide InLoop, Acted, CanAct, HostLogs.After, Requests, Replies;
    if l.at[s] == 0 && q != [] {
      NoNewRequests(log, TakePacket(q[0]), d);
      NewReplies(log, TakePacket(q[0]), d);
      OneCounted(q[0], d, s, PKT_PING_REPLY);
    } else if l.at[s] == 1 {
      NoNewRequests(log, RunJob(disk), d);
      NewReplies(log, RunJob(disk), d);
    }
  }

  // One action of s that leads on.
  lemma OwnMove(g: Topology, c: Id, l: SysLooped, s: Id, disk: Disk, d: Id, u0: nat) returns (l': SysLooped)
    requires Here(g, c, l, s) && Behind(c, l, s, d, u0)
    ensures CanAct(g, l, Mine(s, disk)) && l' == Acted(g, l, Mine(s, disk)) && LeadsTo(g, s, l, l')
    ensures s in l'.sys.hosts && Here(g, c, l', s) && Behind(c, l', s, d, u0)
    ensures s in l.at && s in l'.at && l.at[s] < 3
    ensures l'.at[s] == if l.at[s] < 2 then l.at[s] + 1 else 0
    ensures var q := On(l.sys.net.links, c, s);
      && On(l'.sys.net.links, c, s) == (if l.at[s] == 0 && q != [] then q[1..] else q)
      && l'.sys.hosts[s] == if l.at[s] == 0 && q != [] then HostLogs.After(l.sys.hosts[s], TakePacket(q[0]))
                            else if l.at[s] == 1 then HostLogs.After(l.sys.hosts[s], RunJob(disk))
                            else l.sys.hosts[s]
  {
    HereInLoop(g, c, l, s);
    ThreePlaces(g, c, l, s);
    OwnCan(g, c, l, s, disk);
    l' := Acted(g, l, Mine(s, disk));
    OwnAct(g, c, l, s, disk);
    hide *;
    LeadsOnce(g, s, l, Mine(s, disk));
    StaysBehind(g, c, l, s, disk, d, u0);
  }

  // The next action of s tells its manager, wrongly, that d has answered.
  ghost predicate LiesNext(g: Topology, l: SysLooped, s: Id, d: Id, disk: Disk) {
    TellsNext(g, l, s, disk, PingAcked) && !Answered(l.sys.hosts[s], d)
  }

  ghost predicate Lies(g: Topology, l: SysLooped, s: Id, d: Id) {
    exists l', disk :: LeadsTo(g, s, l, l') && LiesNext(g, l', s, d, disk)
  }

  lemma LiesLater(g: Topology, l: SysLooped, l1: SysLooped, s: Id, d: Id)
    requires LeadsTo(g, s, l, l1) && Lies(g, l1, s, d)
    ensures Lies(g, l, s, d)
  {
    hide LeadsTo, LiesNext;
    var l', disk :| LeadsTo(g, s, l1, l') && LiesNext(g, l', s, d, disk);
    LeadsOn(g, s, l, l1, l');
  }

  lemma LiesMeansNotTruthful(g: Topology, l: SysLooped, s: Id, d: Id)
    ensures LoopTruthful(g, l, s, d) <==> !Lies(g, l, s, d)
  {
    hide LeadsTo, CanAct, ActStep, Answered;
    assert forall l', disk :: LiesNext(g, l', s, d, disk) ==>
      TellsNext(g, l', s, disk, PingAcked) && !Answered(l'.sys.hosts[s], d);
    assert forall l', disk :: TellsNext(g, l', s, disk, PingAcked) ==>
      Answered(l'.sys.hosts[s], d) || LiesNext(g, l', s, d, disk);
  }

  lemma JobTells(g: Topology, c: Id, l: SysLooped, s: Id, disk: Disk)
    requires Here(g, c, l, s) && s in l.at && l.at[s] == 1
    requires l.sys.hosts[s].h.pingSeen && l.sys.hosts[s].h.jobs != [] && l.sys.hosts[s].h.jobs[0].PingWait?
    ensures TellsNext(g, l, s, disk, PingAcked)
  {
    hide InLoop, CanAct, ActStep, OnJob, HostLogs.After, Possible, Then, HostsOk;
    HereInLoop(g, c, l, s);
    JobAcks(l.sys.hosts[s].h, disk);
    hide Here;
    OwnStep(g, c, l, s, disk);
    OwnCan(g, c, l, s, disk);
  }

  lemma JobAcks(h: Host, disk: Disk)
    requires h.pingSeen && h.jobs != [] && h.jobs[0].PingWait?
    ensures OnJob(h, disk).1.reply == Some(PingAcked)
  {
  }

  lemma LiesNow(g: Topology, c: Id, l: SysLooped, s: Id, d: Id, u0: nat)
    requires Here(g, c, l, s) && Behind(c, l, s, d, u0) && s in l.at && l.at[s] == 1
    requires l.sys.hosts[s].h.pingSeen && l.sys.hosts[s].h.jobs != [] && l.sys.hosts[s].h.jobs[0].PingWait?
    ensures Lies(g, l, s, d)
  {
    JobTells(g, c, l, s, NO_DISK);
    LeadsNowhere(g, s, l);
    hide Here, TellsNext, LeadsTo, Count, Requests, Replies;
    assert LiesNext(g, l, s, d, NO_DISK);
  }

  lemma SeenJob(l: Logged, j: nat)
    requires l.h.pingSeen && j < |l.h.jobs| && l.h.jobs[j].PingWait? && !l.h.jobs[0].PingWait?
    ensures var h := HostLogs.After(l, RunJob(NO_DISK)).h;
      j > 0 && h.pingSeen && j - 1 < |h.jobs| && h.jobs[j - 1].PingWait?
  {
    QueueShape(l, RunJob(NO_DISK));
  }

  // From its job s goes round to its next job.
  lemma RoundToJob(g: Topology, c: Id, l: SysLooped, s: Id, d: Id, u0: nat) returns (l': SysLooped)
    requires Here(g, c, l, s) && Behind(c, l, s, d, u0) && s in l.at && l.at[s] == 1
    ensures LeadsTo(g, s, l, l') && s in l'.sys.hosts && Here(g, c, l', s) && Behind(c, l', s, d, u0)
    ensures s in l'.at && l'.at[s] == 1
    ensures HostLogs.After(l.sys.hosts[s], RunJob(NO_DISK)).h.jobs <= l'.sys.hosts[s].h.jobs
    ensures HostLogs.After(l.sys.hosts[s], RunJob(NO_DISK)).h.pingSeen ==> l'.sys.hosts[s].h.pingSeen
  {
    hide *;
    var l1 := OwnMove(g, c, l, s, NO_DISK, d, u0);
    var l2 := OwnMove(g, c, l1, s, NO_DISK, d, u0);
    l' := OwnMove(g, c, l2, s, NO_DISK, d, u0);
    PollKeepsJobs(l2.sys.hosts[s], On(l2.sys.net.links, c, s), l'.sys.hosts[s]);
    LeadsOn(g, s, l, l1, l2);
    LeadsOn(g, s, l, l2, l');
  }

  // With the flag up the waiting job reports an acknowledgement as soon as it is its turn.
  lemma SeenLies(g: Topology, c: Id, l: SysLooped, s: Id, d: Id, u0: nat, j: nat)
    requires s in l.sys.hosts && Here(g, c, l, s) && Behind(c, l, s, d, u0) && s in l.at && l.at[s] == 1
    requires l.sys.hosts[s].h.pingSeen && j < |l.sys.hosts[s].h.jobs| && l.sys.hosts[s].h.jobs[j].PingWait?
    ensures Lies(g, l, s, d)
    decreases j
  {
    hide *;
    if l.sys.hosts[s].h.jobs[0].PingWait? {
      LiesNow(g, c, l, s, d, u0);
    } else {
      SeenJob(l.sys.hosts[s], j);
      var l' := RoundToJob(g, c, l, s, d, u0);
      SeenLies(g, c, l', s, d, u0, j - 1);
      LiesLater(g, l, l', s, d);
    }
  }

  lemma PollKeepsJobs(l: Logged, q: seq<Packet>, l': Logged)
    requires l' == if q != [] then HostLogs.After(l, TakePacket(q[0])) else l
    ensures l.h.jobs <= l'.h.jobs && (l.h.pingSeen ==> l'.h.pingSeen) && l'.h.id == l.h.id
    ensures q != [] && IsReply(q[0], l.h.id) ==> l'.h.pingSeen
    ensures q != [] && !IsReply(q[0], l.h.id) ==> l'.h.pingSeen == l.h.pingSeen
  {
  }

  lemma {:induction false} WaitMember(jobs: seq<Hosts.Job>) returns (j: nat)
    requires WaitJobs(jobs) > 0
    ensures j < |jobs| && jobs[j].PingWait?
  {
    if jobs[0].PingWait? {
      j := 0;
    } else {
      var k := WaitMember(jobs[1..]);
      j := k + 1;
    }
  }

  lemma FirstReplyLater(q: seq<Packet>, s: int, i: nat)
    requires FirstReply(q, s, i) && i > 0
    ensures q != [] && !IsReply(q[0], s) && FirstReply(q[1..], s, i - 1)
    ensures q[..i] != [] && q[..i][0] == q[0] && q[..i][1..] == q[1..][..i - 1]
  {
    assert q[..i][0] == q[0] && q[..i][1..] == q[1..][..i - 1];
    var before, rest := q[..i], q[1..][..i - 1];
    forall k | 0 <= k < |rest|
      ensures !IsReply(rest[k], s)
    {
      assert rest[k] == before[k + 1];
    }
  }

  // One round: s reads its oldest packet and executes a job.
  lemma ReadingRound(g: Topology, c: Id, l: SysLooped, s: Id, disk: Disk, d: Id, u0: nat) returns (l': SysLooped)
    requires s in l.sys.hosts && Here(g, c, l, s) && Behind(c, l, s, d, u0) && s in l.at && l.at[s] == 0
    requires On(l.sys.net.links, c, s) != []
    ensures LeadsTo(g, s, l, l') && s in l'.sys.hosts && Here(g, c, l', s) && Behind(c, l', s, d, u0)
    ensures s in l'.at && l'.at[s] == 0 && On(l'.sys.net.links, c, s) == On(l.sys.net.links, c, s)[1..]
    ensures l'.sys.hosts[s].h == OnTurn(l.sys.hosts[s].h, Reading(On(l.sys.net.links, c, s)[0], disk)).0
  {
    hide *;
    var l1 := OwnMove(g, c, l, s, disk, d, u0);
    var l2 := OwnMove(g, c, l1, s, disk, d, u0);
    l' := OwnMove(g, c, l2, s, disk, d, u0);
    LeadsOn(g, s, l, l1, l2);
    LeadsOn(g, s, l, l2, l');
    LogOfTurn(l.sys.hosts[s], On(l.sys.net.links, c, s)[0], disk);
  }

  lemma LogOfTurn(l: Logged, p: Packet, disk: Disk)
    ensures HostLogs.After(HostLogs.After(l, TakePacket(p)), RunJob(disk)).h == OnTurn(l.h, Reading(p, disk)).0
  {
    ReadingIsPacketAndJob(l.h, p, disk);
  }

  lemma OutlastsFrom(h: Host, q: seq<Packet>, i: nat, disks: seq<Disk>)
    requires 0 < i == |disks| && i <= |q| && Outlasts(h, q[..i], disks)
    ensures Outlasts(OnTurn(h, Reading(q[0], disks[0])).0, q[1..][..i - 1], disks[1..])
  {
    hide OnTurn;
    assert q[..i][0] == q[0] && q[..i][1..] == q[1..][..i - 1];
  }

  // The reply is next, and the host is still waiting.
  lemma ReplyNextLies(g: Topology, c: Id, l: SysLooped, s: Id, d: Id, u0: nat)
    requires s in l.sys.hosts && Here(g, c, l, s) && Behind(c, l, s, d, u0) && s in l.at && l.at[s] == 0
    requires FirstReply(On(l.sys.net.links, c, s), s, 0) && WaitJobs(l.sys.hosts[s].h.jobs) > 0
    ensures Lies(g, l, s, d)
  {
    hide *;
    var q := On(l.sys.net.links, c, s);
    OwnId(g, c, l, s);
    ReplyNext(q, s);
    var j := WaitMember(l.sys.hosts[s].h.jobs);
    var l' := OwnMove(g, c, l, s, NO_DISK, d, u0);
    PollKeepsJobs(l.sys.hosts[s], q, l'.sys.hosts[s]);
    SeenLies(g, c, l', s, d, u0, j);
    LiesLater(g, l, l', s, d);
  }

  lemma OwnId(g: Topology, c: Id, l: SysLooped, s: Id)
    requires s in l.sys.hosts && Here(g, c, l, s)
    ensures l.sys.hosts[s].h.id == s
  {
    HereInLoop(g, c, l, s);
  }

  lemma ReplyNext(q: seq<Packet>, s: int)
    requires FirstReply(q, s, 0)
    ensures q != [] && IsReply(q[0], s)
  {
  }

  lemma NothingLeft(h: Host, q: seq<Packet>, disks: seq<Disk>)
    requires disks == [] && Outlasts(h, q[..0], disks)
    ensures WaitJobs(h.jobs) > 0
  {
  }

  // The waiting job outlasts the packets in front of the first reply: s alone brings about the lie.
  lemma {:induction false} OutlastingLies(g: Topology, c: Id, l: SysLooped, s: Id, d: Id, u0: nat, i: nat,
                                          disks: seq<Disk>)
    requires s in l.sys.hosts && Here(g, c, l, s) && Behind(c, l, s, d, u0) && s in l.at && l.at[s] == 0
    requires FirstReply(On(l.sys.net.links, c, s), s, i) && |disks| == i
    requires i <= |On(l.sys.net.links, c, s)| && Outlasts(l.sys.hosts[s].h, On(l.sys.net.links, c, s)[..i], disks)
    ensures Lies(g, l, s, d)
    decreases i
  {
    hide *;
    var q := On(l.sys.net.links, c, s);
    if i == 0 {
      NothingLeft(l.sys.hosts[s].h, q, disks);
      ReplyNextLies(g, c, l, s, d, u0);
    } else {
      FirstReplyLater(q, s, i);
      OutlastsFrom(l.sys.hosts[s].h, q, i, disks);
      var l' := ReadingRound(g, c, l, s, disks[0], d, u0);
      OutlastingLies(g, c, l', s, d, u0, i - 1, disks[1..]);
      LiesLater(g, l, l', s, d);
    }
  }

  // ---- As long as the new request has not left s ----

  lemma {:induction false} PendingCounted(jobs: seq<Hosts.Job>, k: nat, q: Packet)
    requires k < |jobs| && jobs[k] == SendPacket(q)
    ensures Count(Pending(jobs, ToSend), q.src, q.dst, q.ptype) > 0
  {
    CountConcat(ToSend(jobs[0]), Pending(jobs[1..], ToSend), q.src, q.dst, q.ptype);
    if k > 0 {
      PendingCounted(jobs[1..], k - 1, q);
    } else {
      OneCounted(q, q.src, q.dst, q.ptype);
    }
  }

  function Request(s: Id, d: Id): Packet {
    Packet(s, d, PKT_PING_REQ, [])
  }

  // Nothing comes from where there is no host.
  lemma NothingFromNobody(g: Topology, c: Id, sys: System, s: Id, d: Id)
    requires SysInv(g, c, sys) && s in sys.hosts && !IsHost(g, d)
    ensures Replies(sys.hosts[s], d) == 0 && Count(On(sys.net.links, c, s), d, s, PKT_PING_REPLY) == 0
  {
    hide HostsOk, AllFlow, EntriesOk, IsStar, Rooted, TablesFit, Replies;
    var q := On(sys.net.links, c, s);
    forall i | 0 <= i < |q|
      ensures q[i].src != d
    {
      assert q[i] in On(sys.net.links, c, s) && PacketOk(g, sys.net, c, s, q[i]);
    }
    NoneCounted(q, d, s, PKT_PING_REPLY);
    hide SysInv;
    if Replies(sys.hosts[s], d) > 0 {
      RepliesAreAnswers(g, c, sys, s, d);
    }
  }

  lemma NotSentYet(g: Topology, c: Id, l: SysLooped, s: Id, d: Id, k: nat, u0: nat)
    requires s in l.sys.hosts && Requests(l.sys.hosts[s], d) == u0 + 1
    requires k < |l.sys.hosts[s].h.jobs| && l.sys.hosts[s].h.jobs[k] == SendPacket(Request(s, d))
    requires Here(g, c, l, s)
    ensures Behind(c, l, s, d, u0)
  {
    StarHost(g, c, l.sys, s);
    hide SysInv, Requests, Replies, Count, Pending, IsHost;
    if IsHost(g, d) {
      PendingCounted(l.sys.hosts[s].h.jobs, k, Request(s, d));
      PingBalance(g, c, l.sys, s, d);
    } else {
      NothingFromNobody(g, c, l.sys, s, d);
    }
  }

  // ---- The exact condition when a reply waits on the link ----

  // Host s, looking for a command, finds the one to ping d: `l0` before, `l` afterwards.
  predicate Asks(g: Topology, l0: SysLooped, s: Id, d: Id, l: SysLooped) {
    CanAct(g, l0, Action(s, Some(Ping(d)), NO_DISK)) && l == Acted(g, l0, Action(s, Some(Ping(d)), NO_DISK))
  }

  lemma JustAsked(g: Topology, c: Id, l0: SysLooped, s: Id, d: Id, l: SysLooped)
    requires SysInv(g, c, l0.sys) && PlacesFit(g, l0) && Asks(g, l0, s, d, l)
    ensures s in l0.sys.hosts && s in l.sys.hosts && Here(g, c, l, s) && s in l.at && l.at[s] == 0
    ensures l.sys.net == l0.sys.net && Pinged(g, l0.sys, s, d, l.sys)
    ensures l.sys.hosts == l0.sys.hosts[s := HostLogs.After(l0.sys.hosts[s], DoCommand(Ping(d)))]
  {
    PlacesStay(g, l0, Action(s, Some(Ping(d)), NO_DISK));
    hide PlacesFit, Possible, Then, SysInv;
    AfterPing(g, c, l0.sys, s, d, l.sys);
  }

  // The state of s after the command: its queue has the request and the waiting job at its end.
  lemma AskedHost(g: Topology, c: Id, l0: SysLooped, s: Id, d: Id, l: SysLooped)
    requires SysInv(g, c, l0.sys) && PlacesFit(g, l0) && Asks(g, l0, s, d, l)
    ensures s in l0.sys.hosts && s in l.sys.hosts && Here(g, c, l, s) && s in l.at && l.at[s] == 0
    ensures l.sys.net == l0.sys.net
    ensures var h, jobs := l.sys.hosts[s].h, l0.sys.hosts[s].h.jobs;
      h.id == s && !h.pingSeen && h.jobs == jobs + [SendPacket(Request(s, d)), PingWait(10)]
    ensures Requests(l.sys.hosts[s], d) == Requests(l0.sys.hosts[s], d) + 1
    ensures Behind(c, l, s, d, Requests(l0.sys.hosts[s], d))
  {
    hide SysInv, PlacesFit, Asks, Here, Behind, HostLogs.After, Requests, Replies, Pinged;
    JustAsked(g, c, l0, s, d, l);
    PingCommand(l0.sys.hosts[s], d, d);
    OwnId(g, c, l, s);
    QueueShape(l0.sys.hosts[s], DoCommand(Ping(d)));
    var jobs := l0.sys.hosts[s].h.jobs;
    assert (jobs + [SendPacket(Request(s, d)), PingWait(10)])[|jobs|] == SendPacket(Request(s, d));
    NotSentYet(g, c, l, s, d, |jobs|, Requests(l0.sys.hosts[s], d));
  }

  // If all earlier pings of s have been answered, "Ping acked!" is the truth: in every interleaving of
  // the processes' steps up to the next ping command, and so in loop order.
  lemma AckTruthfulIfSettled(g: Topology, c: Id, l0: SysLooped, s: Id, d: Id, l: SysLooped)
    requires IsStar(g, c) && Occurs(g, l0.sys) && PlacesFit(g, l0) && Asks(g, l0, s, d, l)
    requires s in l0.sys.hosts && Settled(g, l0.sys.hosts[s])
    ensures AckTruthful(g, l.sys, s, d) && LoopTruthful(g, l, s, d)
  {
    hide *;
    OccursInv(g, c, l0.sys);
    JustAsked(g, c, l0, s, d, l);
    TruthfulIfSettled(g, c, l0.sys, s, d, l.sys);
    TruthfulInLoops(g, l, s, d);
  }

  // With a reply waiting on the link to s when s executes the command to ping d, "Ping acked!" is the
  // truth, whatever happens while the manager waits, if and only if, whatever the disk does, the waiting
  // job has timed out by the time s has read the packets in front of that reply.
  lemma AckTruthfulIffTimesOut(g: Topology, c: Id, l0: SysLooped, s: Id, d: Id, l: SysLooped, i: nat)
    requires IsStar(g, c) && Occurs(g, l0.sys) && PlacesFit(g, l0) && Asks(g, l0, s, d, l)
    requires s in l.sys.hosts && FirstReply(On(l.sys.net.links, c, s), s, i)
    ensures LoopTruthful(g, l, s, d) <==> TimesOut(l.sys.hosts[s].h, On(l.sys.net.links, c, s)[..i])
  {
    OccursInv(g, c, l0.sys);
    AskedHost(g, c, l0, s, d, l);
    var h, q := l.sys.hosts[s].h, On(l.sys.net.links, c, s);
    hide IsStar, Occurs, PlacesFit, Asks, Here, Behind, Lies, Outlasts, LeadsTo, TellsNext, Round;
    LiesMeansNotTruthful(g, l, s, d);
    if TimesOut(h, q[..i]) {
      HereInLoop(g, c, l, s);
      NeverAcked(g, c, l, s, i);
    } else {
      var disks :| |disks| == |q[..i]| && Outlasts(h, q[..i], disks);
      OutlastingLies(g, c, l, s, d, Requests(l0.sys.hosts[s], d), i, disks);
    }
  }

  lemma NeverAcked(g: Topology, c: Id, l: SysLooped, s: Id, k: nat)
    requires InLoop(g, c, l, s) && s in l.at && l.at[s] == 0 && s in l.sys.hosts && !l.sys.hosts[s].h.pingSeen
    requires k <= |On(l.sys.net.links, c, s)| && NoReply(On(l.sys.net.links, c, s)[..k], s)
    requires TimesOut(l.sys.hosts[s].h, On(l.sys.net.links, c, s)[..k])
    ensures forall l', disk :: LeadsTo(g, s, l, l') ==> !TellsNext(g, l', s, disk, PingAcked)
  {
    assert Fated(c, l, s, k);
    hide InLoop, Fated, CanActAll, ActedAll, TellsNext;
    forall l', disk | LeadsTo(g, s, l, l')
      ensures !TellsNext(g, l', s, disk, PingAcked)
    {
      var acts :| CanActAll(g, l, acts) && NoCommand(acts, s) && ActedAll(g, l, acts) == l';
      var k' := FateHolds(g, c, l, s, acts, k);
      FatedSaysNothing(g, c, l', s, k', disk);
    }
  }

  // ---- How long the waiting job lasts ----

  lemma {:induction false} WaitCounted(jobs: seq<Hosts.Job>, j: nat)
    requires j < |jobs| && jobs[j].PingWait?
    ensures WaitJobs(jobs) > 0
  {
    FilterMember(jobs, IsWait, jobs[j]);
  }

  lemma TurnWithoutReply(h: Host, p: Packet, disk: Disk)
    requires !h.pingSeen && !IsReply(p, h.id)
    ensures var h' := OnTurn(h, Reading(p, disk)).0; !h'.pingSeen && h'.id == h.id
    ensures !BeforeJob(h, Reading(p, disk)).pingSeen
  {
    ReadingIsPacketAndJob(h, p, disk);
    assert [p][1..] == [] && OnPackets(h, [p]) == OnPackets(OnPacket(h, [p][0]), [p][1..]);
  }

  // With j jobs in front of it and `timer` ticks left, it is there for the next j + timer - 1 rounds at
  // least.
  lemma {:induction false} WaitLasts(h: Host, ps: seq<Packet>, disks: seq<Disk>, j: nat, timer: int)
    requires !h.pingSeen && NoReply(ps, h.id) && |disks| == |ps|
    requires j < |h.jobs| && h.jobs[j] == PingWait(timer) && |ps| < j + timer
    ensures Outlasts(h, ps, disks)
    decreases |ps|
  {
    hide OnTurn, WaitJobs, BeforeJob;
    if ps == [] {
      WaitCounted(h.jobs, j);
    } else {
      var turn := Reading(ps[0], disks[0]);
      var h' := OnTurn(h, turn).0;
      TurnWithoutReply(h, ps[0], disks[0]);
      TurnMovesWait(h, turn, j, timer);
      assert forall k :: 0 <= k < |ps[1..]| ==> ps[1..][k] == ps[k + 1];
      if j > 0 {
        WaitLasts(h', ps[1..], disks[1..], j - 1, timer);
      } else {
        WaitLasts(h', ps[1..], disks[1..], |h'.jobs| - 1, timer - 1);
      }
    }
  }

  // Jobs and packets that add no jobs.
  predicate AddsNothing(j: Hosts.Job) {
    j.SendPacket? || j.FileStart? || j.FileIn? || j.FileEnd?
  }

  predicate PassesBy(p: Packet, id: Byte) {
    p.dst == id ==> JobsFor(p) == []
  }

  // Nothing but a waiting job behind j jobs that add none.
  predicate WaitsBehind(h: Host, j: nat, timer: int) {
    && !h.pingSeen && |h.jobs| == j + 1 && h.jobs[j] == PingWait(timer)
    && forall k :: 0 <= k < j ==> AddsNothing(h.jobs[k])
  }

  lemma QuietTurn(h: Host, p: Packet, disk: Disk, j: nat, timer: int)
    requires WaitsBehind(h, j, timer) && !IsReply(p, h.id) && PassesBy(p, h.id)
    ensures var h' := OnTurn(h, Reading(p, disk)).0;
      && h'.id == h.id
      && if j > 0 then WaitsBehind(h', j - 1, timer)
         else if timer > 1 then WaitsBehind(h', 0, timer - 1) else h'.jobs == []
  {
    ReadingIsPacketAndJob(h, p, disk);
    var b := OnPacket(h, p);
    assert b.jobs == h.jobs && !b.pingSeen && b.id == h.id;
    var l := Unlogged(b);
    QueueShape(l, RunJob(disk));
    assert HostLogs.After(l, RunJob(disk)).h == OnJob(b, disk).0;
    TurnWithoutReply(h, p, disk);
  }

  lemma {:induction false} EmptyStays(h: Host, ps: seq<Packet>, disks: seq<Disk>)
    requires h.jobs == [] && |disks| == |ps| && forall k :: 0 <= k < |ps| ==> PassesBy(ps[k], h.id)
    ensures !Outlasts(h, ps, disks)
    decreases |ps|
  {
    if ps != [] {
      ReadingIsPacketAndJob(h, ps[0], disks[0]);
      assert forall k :: 0 <= k < |ps[1..]| ==> ps[1..][k] == ps[k + 1];
      EmptyStays(OnTurn(h, Reading(ps[0], disks[0])).0, ps[1..], disks[1..]);
    }
  }

  // Then it lasts exactly that long.
  lemma {:induction false} WaitEnds(h: Host, ps: seq<Packet>, disks: seq<Disk>, j: nat, timer: nat)
    requires WaitsBehind(h, j, timer) && NoReply(ps, h.id) && |disks| == |ps| && |ps| >= j + timer > j
    requires forall k :: 0 <= k < |ps| ==> PassesBy(ps[k], h.id)
    ensures !Outlasts(h, ps, disks)
    decreases |ps|
  {
    hide OnTurn, WaitJobs, PassesBy, WaitsBehind;
    QuietTurn(h, ps[0], disks[0], j, timer);
    var h', rest := OnTurn(h, Reading(ps[0], disks[0])).0, ps[1..];
    assert forall k :: 0 <= k < |rest| ==> rest[k] == ps[k + 1];
    if j > 0 {
      WaitEnds(h', rest, disks[1..], j - 1, timer);
    } else if timer > 1 {
      WaitEnds(h', rest, disks[1..], 0, timer - 1);
    } else {
      EmptyStays(h', rest, disks[1..]);
    }
  }

  // A reply that is at most 10 places behind as many packets as s had jobs is read in time, whatever the
  // other packets and jobs are.
  lemma NearReplyMisleads(g: Topology, c: Id, l0: SysLooped, s: Id, d: Id, l: SysLooped, i: nat)
    requires IsStar(g, c) && Occurs(g, l0.sys) && PlacesFit(g, l0) && Asks(g, l0, s, d, l)
    requires s in l0.sys.hosts && FirstReply(On(l.sys.net.links, c, s), s, i)
    requires i <= |l0.sys.hosts[s].h.jobs| + 10
    ensures !LoopTruthful(g, l, s, d)
  {
    hide SysInv, IsStar, Occurs, PlacesFit, Asks, Here, Behind, LoopTruthful, Outlasts;
    OccursInv(g, c, l0.sys);
    AskedHost(g, c, l0, s, d, l);
    AckTruthfulIffTimesOut(g, c, l0, s, d, l, i);
    var disks := seq(i, _ => NO_DISK);
    WaitLasts(l.sys.hosts[s].h, On(l.sys.net.links, c, s)[..i], disks, |l0.sys.hosts[s].h.jobs| + 1, 10);
  }

  lemma QuietTimesOut(jobs: seq<Hosts.Job>, q: Packet, h: Host, ps: seq<Packet>)
    requires h.jobs == jobs + [SendPacket(q), PingWait(10)] && !h.pingSeen && NoReply(ps, h.id)
    requires forall k :: 0 <= k < |jobs| ==> AddsNothing(jobs[k])
    requires forall k :: 0 <= k < |ps| ==> PassesBy(ps[k], h.id)
    requires |ps| > |jobs| + 10
    ensures TimesOut(h, ps)
  {
    assert WaitsBehind(h, |jobs| + 1, 10);
    hide WaitsBehind, Outlasts, PassesBy, NoReply;
    forall disks | |disks| == |ps|
      ensures !Outlasts(h, ps, disks)
    {
      WaitEnds(h, ps, disks, |jobs| + 1, 10);
    }
  }

  // If the jobs queued before the command and the packets in front of the reply add no jobs, that is
  // exact: each of those jobs, the request and ten executions of the waiting job take one round.
  lemma AckTruthfulIffFarBehind(g: Topology, c: Id, l0: SysLooped, s: Id, d: Id, l: SysLooped, i: nat)
    requires IsStar(g, c) && Occurs(g, l0.sys) && PlacesFit(g, l0) && Asks(g, l0, s, d, l)
    requires s in l0.sys.hosts && FirstReply(On(l.sys.net.links, c, s), s, i)
    requires forall k :: 0 <= k < |l0.sys.hosts[s].h.jobs| ==> AddsNothing(l0.sys.hosts[s].h.jobs[k])
    requires forall k :: 0 <= k < i ==> PassesBy(On(l.sys.net.links, c, s)[k], s)
    ensures LoopTruthful(g, l, s, d) <==> i > |l0.sys.hosts[s].h.jobs| + 10
  {
    hide *;
    OccursInv(g, c, l0.sys);
    AskedHost(g, c, l0, s, d, l);
    InFront(On(l.sys.net.links, c, s), s, i);
    AckTruthfulIffTimesOut(g, c, l0, s, d, l, i);
    if i > |l0.sys.hosts[s].h.jobs| + 10 {
      QuietTimesOut(l0.sys.hosts[s].h.jobs, Request(s, d), l.sys.hosts[s].h, On(l.sys.net.links, c, s)[..i]);
    } else {
      NearReplyMisleads(g, c, l0, s, d, l, i);
    }
  }

  lemma InFront(q: seq<Packet>, s: int, i: nat)
    requires FirstReply(q, s, i)
    ensures i < |q| && NoReply(q[..i], s) && |q[..i]| == i
    ensures forall k :: 0 <= k < i ==> q[..i][k] == q[k]
  {
  }
}
