// What "Ping acked!" is worth: the flag of host_main does not record who replied. The answer is right
// when nothing older was outstanding, however the steps of the processes are interleaved.
module Acks {
  import opened Types
  import opened Commands
  import opened Hosts
  import opened HostLogs
  import opened Switches
  import opened Trees
  import opened Network
  import opened Learning
  import opened Star
  import opened Simulator

  // Ping requests a host has undertaken to send to x, and ping replies it has accepted from x.
  function Requests(l: Logged, x: Byte): nat {
    Count(AllPackets(l.h.id, l.units), l.h.id, x, PKT_PING_REQ)
  }

  function Replies(l: Logged, x: Byte): nat {
    Count(l.accepted, x, l.h.id, PKT_PING_REPLY)
  }

  // Every ping of x has been answered, the latest included.
  predicate Answered(l: Logged, x: Byte) {
    Requests(l, x) == Replies(l, x)
  }

  predicate IsPingStep(step: SysStep, s: Id) {
    step.Command? && step.host == s && step.c.Ping?
  }

  predicate NoPing(steps: seq<SysStep>, s: Id) {
    forall i :: 0 <= i < |steps| ==> !IsPingStep(steps[i], s)
  }

  // Every other command may be executed meanwhile, and every command of another host.
  lemma OtherCommandsAllowed(steps: seq<SysStep>, s: Id, h: Id, c: Commands.Command)
    ensures NoPing(steps + [Command(h, c)], s) <==> NoPing(steps, s) && (h != s || !c.Ping?)
  {
    var more := steps + [Command(h, c)];
    assert more[|steps|] == Command(h, c);
    assert forall i :: 0 <= i < |steps| ==> more[i] == steps[i];
  }

  predicate TellsAcked(sys: System, step: SysStep, s: Id) {
    s in sys.hosts && ReplyOf(sys, step, s) == Some(PingAcked)
  }

  // Whatever happens from here up to the next ping command of s: when s tells its manager that the
  // ping was acknowledged, host d has indeed answered it.
  ghost predicate AckTruthful(g: Topology, sys: System, s: Id, d: Id) {
    forall steps, step ::
      CanGo(g, sys, steps) && NoPing(steps, s)
      && Possible(g, GoOn(g, sys, steps), step) && TellsAcked(GoOn(g, sys, steps), step, s) ==>
        Answered(GoOn(g, sys, steps).hosts[s], d)
  }

  // ---- One host ----

  lemma NoNewRequests(l: Logged, st: HostStep, x: Byte)
    requires !(st.DoCommand? && st.c.Ping?)
    ensures Requests(After(l, st), x) == Requests(l, x)
  {
    LogShape(l, st);
    QueueShape(l, st);
    var units := NewUnits(l, st);
    if |units| == 1 {
      SingleUnit(l.h.id, units[0]);
      if units[0].Transfer? {
        BlockSource(l.h.id, units[0].dst, units[0].name, units[0].content);
      }
    }
    NoneCounted(AllPackets(l.h.id, units), l.h.id, x, PKT_PING_REQ);
    hide After, NewUnits;
    AllPacketsConcat(l.h.id, l.units, units);
    CountConcat(AllPackets(l.h.id, l.units), AllPackets(l.h.id, units), l.h.id, x, PKT_PING_REQ);
  }

  lemma OneCounted(p: Packet, src: Byte, dst: Byte, ptype: Byte)
    ensures Count([p], src, dst, ptype) == if p.src == src && p.dst == dst && p.ptype == ptype then 1 else 0
  {
    assert [p][1..] == [];
  }

  lemma NewReplies(l: Logged, st: HostStep, x: Byte)
    ensures Replies(After(l, st), x) == Replies(l, x) + Count(NewlyAccepted(l, st), x, l.h.id, PKT_PING_REPLY)
  {
    LogShape(l, st);
    QueueShape(l, st);
    CountConcat(l.accepted, NewlyAccepted(l, st), x, l.h.id, PKT_PING_REPLY);
  }

  // The flag is raised by accepting a ping reply, and only by that.
  lemma FlagRaised(l: Logged, st: HostStep)
    requires !(st.DoCommand? && st.c.Ping?) && After(l, st).h.pingSeen && !l.h.pingSeen
    ensures st.TakePacket? && st.p.dst == l.h.id && st.p.ptype == PKT_PING_REPLY
    ensures forall x :: Replies(After(l, st), x) == Replies(l, x) + if x == st.p.src then 1 else 0
  {
    forall x
      ensures Replies(After(l, st), x) == Replies(l, x) + if x == st.p.src then 1 else 0
    {
      NewReplies(l, st, x);
      OneCounted(st.p, x, l.h.id, PKT_PING_REPLY);
    }
  }

  lemma FlagDown(l: Logged, st: HostStep, x: Byte)
    requires !After(l, st).h.pingSeen && !(st.DoCommand? && st.c.Ping?)
    ensures Replies(After(l, st), x) == Replies(l, x) && !l.h.pingSeen
  {
    NewReplies(l, st, x);
    if st.TakePacket? {
      OneCounted(st.p, x, l.h.id, PKT_PING_REPLY);
    }
  }

  // Executing the ping command.
  lemma PingCommand(l: Logged, d: Id, x: Byte)
    ensures var l' := After(l, DoCommand(Ping(d)));
      && l'.h.jobs == l.h.jobs + [SendPacket(Packet(l.h.id, d, PKT_PING_REQ, [])), PingWait(10)]
      && !l'.h.pingSeen && Replies(l', x) == Replies(l, x)
      && Requests(l', x) == Requests(l, x) + if x == d then 1 else 0
  {
    var request := Packet(l.h.id, d, PKT_PING_REQ, []);
    AllPacketsConcat(l.h.id, l.units, [Single(request)]);
    SingleUnit(l.h.id, Single(request));
    CountConcat(AllPackets(l.h.id, l.units), [request], l.h.id, x, PKT_PING_REQ);
    OneCounted(request, l.h.id, x, PKT_PING_REQ);
  }

  // ---- If nothing older is outstanding, the answer is right ----

  // What host h does in a step of the system.
  lemma StepOfHost(g: Topology, sys: System, step: SysStep, s: Id)
    requires Possible(g, sys, step) && s in sys.hosts
    ensures s in Then(g, sys, step).hosts
    ensures Then(g, sys, step).hosts[s]
         == if !step.Serve? && step.host == s then After(sys.hosts[s], HostPart(g, sys, step)) else sys.hosts[s]
    ensures !step.Serve? && step.host == s && HostPart(g, sys, step).DoCommand? ==>
      step.Command? && HostPart(g, sys, step).c == step.c
  {
  }

  // All pings of h that s has undertaken, wherever they are.
  lemma PingBalance(g: Topology, c: Id, sys: System, s: Id, h: Id)
    requires SysInv(g, c, sys) && IsHost(g, s) && IsHost(g, h)
    ensures s in sys.hosts && h in sys.hosts
    ensures Requests(sys.hosts[s], h)
         == Count(Pending(sys.hosts[s].h.jobs, ToSend), s, h, PKT_PING_REQ)
          + Count(On(sys.net.links, s, c), s, h, PKT_PING_REQ) + Count(On(sys.net.links, c, h), s, h, PKT_PING_REQ)
          + ReplyJobs(sys.hosts[h].h.jobs, s) + Count(Pending(sys.hosts[h].h.jobs, ToSend), h, s, PKT_PING_REPLY)
          + Count(On(sys.net.links, h, c), h, s, PKT_PING_REPLY) + Count(On(sys.net.links, c, s), h, s, PKT_PING_REPLY)
          + Replies(sys.hosts[s], h)
  {
    PingsBalance(g, c, sys, s, h);
    hide StarInv, HostOk, AcceptedOk, GoodJobs, GoodUnits, FilesInOrder, BufferReplays, PingsAnswered;
    HostFacts(g, sys, s);
    CountConcat(sys.hosts[s].sent, Pending(sys.hosts[s].h.jobs, ToSend), s, h, PKT_PING_REQ);
  }

  // Since its latest ping command, which left the log l, host s has accepted a reply if its flag
  // is up.
  ghost predicate Since(l: Logged, l': Logged) {
    && l'.h.id == l.h.id
    && (forall x: Byte :: Requests(l', x) == Requests(l, x) && Replies(l', x) >= Replies(l, x))
    && (l'.h.pingSeen ==> exists x: Byte :: Replies(l', x) > Replies(l, x))
  }

  lemma SinceKept(l: Logged, l': Logged, st: HostStep)
    requires Since(l, l') && !(st.DoCommand? && st.c.Ping?)
    ensures Since(l, After(l', st))
  {
    QueueShape(l', st);
    hide After, Requests, Replies, NewlyAccepted;
    forall x: Byte
      ensures Requests(After(l', st), x) == Requests(l', x) && Replies(After(l', st), x) >= Replies(l', x)
    {
      NoNewRequests(l', st, x);
      NewReplies(l', st, x);
    }
    if l'.h.pingSeen {
      var x: Byte :| Replies(l', x) > Replies(l, x);
      assert Replies(After(l', st), x) > Replies(l, x);
    } else if After(l', st).h.pingSeen {
      FlagRaised(l', st);
      assert Replies(After(l', st), st.p.src) > Replies(l, st.p.src);
    }
  }

  lemma SinceOneStep(g: Topology, sys: System, step: SysStep, s: Id, l: Logged)
    requires Possible(g, sys, step) && !IsPingStep(step, s) && s in sys.hosts && Since(l, sys.hosts[s])
    ensures s in Then(g, sys, step).hosts && Since(l, Then(g, sys, step).hosts[s])
  {
    StepOfHost(g, sys, step, s);
    if !step.Serve? && step.host == s {
      var st := HostPart(g, sys, step);
      hide Since, After, Then, HostPart;
      SinceKept(l, sys.hosts[s], st);
    }
  }

  lemma {:induction false} SinceAlong(g: Topology, c: Id, sys: System, steps: seq<SysStep>, s: Id, l: Logged)
    requires SysInv(g, c, sys) && CanGo(g, sys, steps) && NoPing(steps, s) && s in sys.hosts && Since(l, sys.hosts[s])
    ensures SysInv(g, c, GoOn(g, sys, steps)) && s in GoOn(g, sys, steps).hosts
    ensures Since(l, GoOn(g, sys, steps).hosts[s])
    decreases |steps|
  {
    hide SysInv, Possible, Then, Since;
    if steps != [] {
      SysInvKept(g, c, sys, steps[0]);
      SinceOneStep(g, sys, steps[0], s, l);
      SinceAlong(g, c, Then(g, sys, steps[0]), steps[1..], s, l);
    }
  }

  // Replies come from hosts, and never more than were asked for.
  lemma RepliesAreAnswers(g: Topology, c: Id, sys: System, s: Id, x: Byte)
    requires SysInv(g, c, sys) && s in sys.hosts && Replies(sys.hosts[s], x) > 0
    ensures 0 <= x < TABLE_SIZE && IsHost(g, x) && IsHost(g, s)
    ensures Replies(sys.hosts[s], x) <= Requests(sys.hosts[s], x)
  {
    HostFacts(g, sys, s);
    var i := CountedMember(sys.hosts[s].accepted, x, s, PKT_PING_REPLY);
    assert FromHost(g, sys.hosts[s].accepted[i]);
    hide SysInv;
    PingBalance(g, c, sys, s, x);
  }

  // When the manager is told, the flag is up.
  lemma AckedMeansSeen(sys: System, step: SysStep, s: Id)
    requires TellsAcked(sys, step, s)
    ensures sys.hosts[s].h.pingSeen && step.Job? && step.host == s
  {
  }

  // sys1 is the system after s has executed the command to ping d.
  ghost predicate Pinged(g: Topology, sys: System, s: Id, d: Id, sys1: System) {
    Possible(g, sys, Command(s, Ping(d))) && sys1 == Then(g, sys, Command(s, Ping(d)))
  }

  lemma AfterPing(g: Topology, c: Id, sys: System, s: Id, d: Id, sys1: System)
    requires SysInv(g, c, sys) && s in sys.hosts && Pinged(g, sys, s, d, sys1)
    ensures SysInv(g, c, sys1) && sys1.net == sys.net
    ensures sys1.hosts == sys.hosts[s := After(sys.hosts[s], DoCommand(Ping(d)))]
  {
    hide SysInv;
    SysInvKept(g, c, sys, Command(s, Ping(d)));
  }

  // Who can have replied when s is told that its ping of d was acknowledged: some host with
  // which not all pings were settled before.
  lemma AckedBySomeone(g: Topology, c: Id, sys: System, s: Id, d: Id, sys1: System, steps: seq<SysStep>, step: SysStep)
    returns (x: Id)
    requires SysInv(g, c, sys) && s in sys.hosts && Pinged(g, sys, s, d, sys1)
    requires CanGo(g, sys1, steps) && NoPing(steps, s) && TellsAcked(GoOn(g, sys1, steps), step, s)
    ensures var l' := GoOn(g, sys1, steps).hosts[s];
      && IsHost(g, x) && Replies(l', x) > Replies(sys.hosts[s], x)
      && Replies(l', x) <= Requests(l', x) == Requests(sys.hosts[s], x) + if x == d then 1 else 0
  {
    var l, l1, sys' := sys.hosts[s], After(sys.hosts[s], DoCommand(Ping(d))), GoOn(g, sys1, steps);
    AfterPing(g, c, sys, s, d, sys1);
    PingCommand(l, d, 0);
    hide *;
    SinceStart(l1);
    SinceAlong(g, c, sys1, steps, s, l1);
    AckedMeansSeen(sys', step, s);
    x := SinceSomeone(g, c, sys', s, l1);
    PingCommand(l, d, x);
  }

  lemma SinceStart(l: Logged)
    requires !l.h.pingSeen
    ensures Since(l, l)
  {
  }

  lemma SinceSomeone(g: Topology, c: Id, sys: System, s: Id, l: Logged) returns (x: Id)
    requires SysInv(g, c, sys) && s in sys.hosts && Since(l, sys.hosts[s]) && sys.hosts[s].h.pingSeen
    ensures IsHost(g, x) && Replies(sys.hosts[s], x) > Replies(l, x)
    ensures Replies(sys.hosts[s], x) <= Requests(sys.hosts[s], x) == Requests(l, x)
  {
    var b: Byte :| Replies(sys.hosts[s], b) > Replies(l, b);
    hide SysInv;
    RepliesAreAnswers(g, c, sys, s, b);
    x := b;
  }

  // All earlier pings of a host have been answered.
  ghost predicate Settled(g: Topology, l: Logged) {
    forall h: Id :: IsHost(g, h) ==> Answered(l, h)
  }

  lemma FreshIsSettled(g: Topology, l: Logged, id: Byte)
    requires InitialLog(l, id)
    ensures Settled(g, l)
  {
  }

  lemma TruthfulIfSettled(g: Topology, c: Id, sys: System, s: Id, d: Id, sys1: System)
    requires SysInv(g, c, sys) && s in sys.hosts && Pinged(g, sys, s, d, sys1) && Settled(g, sys.hosts[s])
    ensures AckTruthful(g, sys1, s, d)
  {
    hide SysInv, Pinged, CanGo, GoOn, NoPing, Requests, Replies, IsHost, Possible;
    forall steps, step |
      CanGo(g, sys1, steps) && NoPing(steps, s)
      && Possible(g, GoOn(g, sys1, steps), step) && TellsAcked(GoOn(g, sys1, steps), step, s)
      ensures Answered(GoOn(g, sys1, steps).hosts[s], d)
    {
      var x := AckedBySomeone(g, c, sys, s, d, sys1, steps, step);
    }
  }

  // If only pings of d itself may be outstanding, an acknowledgement at least means that d has
  // replied to something in the meantime.
  lemma AckedByPinged(g: Topology, c: Id, sys: System, s: Id, d: Id, sys1: System, steps: seq<SysStep>, step: SysStep)
    requires IsStar(g, c) && Occurs(g, sys) && IsHost(g, s) && s in sys.hosts && Pinged(g, sys, s, d, sys1)
    requires forall h: Id :: IsHost(g, h) && h != d ==> Answered(sys.hosts[s], h)
    requires CanGo(g, sys1, steps) && NoPing(steps, s) && TellsAcked(GoOn(g, sys1, steps), step, s)
    ensures Replies(GoOn(g, sys1, steps).hosts[s], d) > Replies(sys.hosts[s], d)
  {
    OccursInv(g, c, sys);
    hide SysInv, Occurs, IsStar, Pinged, CanGo, GoOn, NoPing, TellsAcked, Requests, Replies, IsHost;
    var x := AckedBySomeone(g, c, sys, s, d, sys1, steps, step);
  }

  // Hosts of the star, as the invariant knows them.
  lemma StarHost(g: Topology, c: Id, sys: System, x: Id)
    requires SysInv(g, c, sys) && x in sys.hosts
    ensures StarInv(g, sys.net, c) && IsStar(g, c) && WellFormed(g)
    ensures IsHost(g, x) && g.ports[x] == [c] && x != c && sys.hosts[x].h.id == x
  {
    hide NetInv, AllFlow;
    HostFacts(g, sys, x);
  }

  // That is sufficient, not necessary: with an old reply of d next on the link to s, any
  // acknowledgement means that too, whatever else is outstanding.
  ghost predicate OldReplyFirst(l: Logged, sys: System, c: Id, s: Id, d: Id, p: Packet)
    requires s in sys.hosts
  {
    || Replies(sys.hosts[s], d) > Replies(l, d)
    || (!sys.hosts[s].h.pingSeen && On(sys.net.links, c, s) != [] && On(sys.net.links, c, s)[0] == p
        && Replies(sys.hosts[s], d) == Replies(l, d))
  }

  // The next packet for s stays the next until s reads it.
  lemma NextStays(g: Topology, c: Id, sys: System, step: SysStep, s: Id, p: Packet)
    requires SysInv(g, c, sys) && Possible(g, sys, step) && s in sys.hosts
    requires On(sys.net.links, c, s) != [] && On(sys.net.links, c, s)[0] == p
    ensures step.Receive? && step.host == s ==> HostPart(g, sys, step) == TakePacket(p)
    ensures !(step.Receive? && step.host == s) ==>
      On(Then(g, sys, step).net.links, c, s) != [] && On(Then(g, sys, step).net.links, c, s)[0] == p
  {
    hide SysInv, StarInv, IsStar;
    StarHost(g, c, sys, s);
    LinkAfter(g, sys.net, NetStep(sys, step), c, s);
  }

  lemma OldReplyStep(g: Topology, c: Id, l: Logged, sys: System, step: SysStep, s: Id, d: Id, p: Packet)
    requires SysInv(g, c, sys) && Possible(g, sys, step) && s in sys.hosts && !IsPingStep(step, s)
    requires p.src == d && p.dst == s && p.ptype == PKT_PING_REPLY && sys.hosts[s].h.id == s
    requires OldReplyFirst(l, sys, c, s, d, p)
    ensures s in Then(g, sys, step).hosts && Then(g, sys, step).hosts[s].h.id == s
    ensures OldReplyFirst(l, Then(g, sys, step), c, s, d, p)
  {
    var was := sys.hosts[s];
    StepOfHost(g, sys, step, s);
    if Replies(was, d) == Replies(l, d) {
      NextStays(g, c, sys, step, s, p);
    }
    hide SysInv, Possible, Then, After, Requests, Replies, HostPart;
    if !step.Serve? && step.host == s {
      var st := HostPart(g, sys, step);
      NewReplies(was, st, d);
      QueueShape(was, st);
      if st == TakePacket(p) {
        OneCounted(p, d, s, PKT_PING_REPLY);
      } else if !After(was, st).h.pingSeen {
        FlagDown(was, st, d);
      } else if !was.h.pingSeen {
        FlagRaised(was, st);
      }
    }
  }

  lemma {:induction false} OldReplyAlong(g: Topology, c: Id, l: Logged, sys: System, steps: seq<SysStep>,
                                         s: Id, d: Id, p: Packet)
    requires SysInv(g, c, sys) && CanGo(g, sys, steps) && s in sys.hosts && NoPing(steps, s)
    requires p.src == d && p.dst == s && p.ptype == PKT_PING_REPLY && sys.hosts[s].h.id == s
    requires OldReplyFirst(l, sys, c, s, d, p)
    ensures s in GoOn(g, sys, steps).hosts && OldReplyFirst(l, GoOn(g, sys, steps), c, s, d, p)
    decreases |steps|
  {
    hide SysInv, Possible, Then, OldReplyFirst;
    if steps != [] {
      SysInvKept(g, c, sys, steps[0]);
      OldReplyStep(g, c, l, sys, steps[0], s, d, p);
      OldReplyAlong(g, c, l, Then(g, sys, steps[0]), steps[1..], s, d, p);
    }
  }

  lemma OldReplyOfPinged(g: Topology, c: Id, sys: System, s: Id, d: Id, sys1: System, steps: seq<SysStep>,
        step: SysStep)
    requires IsStar(g, c) && Occurs(g, sys) && IsHost(g, s) && s in sys.hosts && Pinged(g, sys, s, d, sys1)
    requires var q := On(sys.net.links, c, s); q != [] && q[0].src == d && q[0].dst == s && q[0].ptype == PKT_PING_REPLY
    requires CanGo(g, sys1, steps) && NoPing(steps, s) && TellsAcked(GoOn(g, sys1, steps), step, s)
    ensures Replies(GoOn(g, sys1, steps).hosts[s], d) > Replies(sys.hosts[s], d)
  {
    hide Occurs, IsStar, Pinged, CanGo, GoOn, NoPing, After, Requests, Replies, StarInv, HostOk, On;
    OccursInv(g, c, sys);
    HostFacts(g, sys, s);
    hide SysInv;
    AfterPing(g, c, sys, s, d, sys1);
    PingCommand(sys.hosts[s], d, d);
    QueueShape(sys.hosts[s], DoCommand(Ping(d)));
    OldReplyAlong(g, c, sys.hosts[s], sys1, steps, s, d, On(sys.net.links, c, s)[0]);
    AckedMeansSeen(GoOn(g, sys1, steps), step, s);
  }
}
