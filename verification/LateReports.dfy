// A run of the whole simulator, from its start and in loop order, in which a late reply is reported.
module LateReports {
  import opened Types
  import opened Commands
  import opened Hosts
  import opened HostLogs
  import opened Switches
  import opened Trees
  import opened Network
  import opened Star
  import opened Simulator
  import opened Acks
  import opened Loops
  import opened SysLoops
  import opened LateReplies
  import opened OldPings

  // The link from s to the switch holds the packets `up`, no other link of the star any, and no host but
  // s has anything to do.
  ghost predicate Lonely(c: Id, l: SysLooped, s: Id, up: seq<Packet>) {
    && On(l.sys.net.links, s, c) == up
    && (forall x :: x != s ==> On(l.sys.net.links, x, c) == []) && (forall y :: On(l.sys.net.links, c, y) == [])
    && (forall x: Id :: x in l.sys.hosts && x != s ==> l.sys.hosts[x].h.jobs == [])
  }

  // Host s has undertaken one ping, of `other`, and has got no reply.
  ghost predicate AskedOnce(l: Logged, other: Id) {
    forall x: Id :: Requests(l, x) == (if x == other then 1 else 0) && Replies(l, x) == 0
  }

  lemma StartsLonely(g: Topology, c: Id, l: SysLooped, s: Id)
    requires IsStar(g, c) && SysLoopsStart(g, l) && IsHost(g, s)
    ensures s in l.sys.hosts && s in l.at && l.at[s] == 2 && Here(g, c, l, s) && Lonely(c, l, s, [])
    ensures l.sys.hosts[s].h.jobs == []
    ensures forall x: Id :: Requests(l.sys.hosts[s], x) == 0 && Replies(l.sys.hosts[s], x) == 0
  {
    hide SysInv;
    SysInvInitially(g, c, l.sys);
    assert InitialLog(l.sys.hosts[s], s);
  }

  lemma LonelyKept(c: Id, l: SysLooped, l': SysLooped, s: Id, up: seq<Packet>, sent: seq<Packet>)
    requires Lonely(c, l, s, up) && c != s && l'.sys.hosts.Keys == l.sys.hosts.Keys
    requires On(l'.sys.net.links, s, c) == On(l.sys.net.links, s, c) + sent && On(l'.sys.net.links, c, s) == []
    requires forall x :: x != s ==> On(l'.sys.net.links, x, c) == On(l.sys.net.links, x, c)
    requires forall y :: y != s ==> On(l'.sys.net.links, c, y) == On(l.sys.net.links, c, y)
    requires forall x :: x in l.sys.hosts && x != s ==> l'.sys.hosts[x] == l.sys.hosts[x]
    ensures Lonely(c, l', s, up + sent)
  {
  }

  lemma LonelyLink(c: Id, l: SysLooped, s: Id, up: seq<Packet>)
    requires Lonely(c, l, s, up)
    ensures On(l.sys.net.links, c, s) == []
  {
  }

  lemma SameKeys(g: Topology, l: SysLooped, a: Action)
    requires CanAct(g, l, a)
    ensures Acted(g, l, a).sys.hosts.Keys == l.sys.hosts.Keys
  {
    hide Possible, Then;
    if ActStep(g, l, a).Some? {
      SameHosts(g, l.sys, ActStep(g, l, a).value);
    }
  }

  // The link up after s, at this place of its loop, has acted.
  function Carried(up: seq<Packet>, jobs: seq<Hosts.Job>, place: nat): seq<Packet> {
    if place == 1 && jobs != [] && jobs[0].SendPacket? then up + [jobs[0].packet] else up
  }

  lemma CarriedIsSent(up: seq<Packet>, l: Logged, place: nat)
    ensures up + Sent(l, place) == Carried(up, l.h.jobs, place)
  {
  }

  // An action of s: there is nothing to read.
  lemma LonelyAct(g: Topology, c: Id, l: SysLooped, s: Id, up: seq<Packet>) returns (l': SysLooped)
    requires s in l.sys.hosts && s in l.at && Here(g, c, l, s) && Lonely(c, l, s, up)
    ensures CanAct(g, l, Mine(s, NO_DISK)) && l' == Acted(g, l, Mine(s, NO_DISK)) && LeadsTo(g, s, l, l')
    ensures l.at[s] < 3 && s in l'.at && l'.at[s] == if l.at[s] < 2 then l.at[s] + 1 else 0
    ensures s in l'.sys.hosts && Here(g, c, l', s) && Lonely(c, l', s, Carried(up, l.sys.hosts[s].h.jobs, l.at[s]))
    ensures l'.sys.hosts[s]
         == if l.at[s] == 1 then HostLogs.After(l.sys.hosts[s], RunJob(NO_DISK)) else l.sys.hosts[s]
  {
    HereInLoop(g, c, l, s);
    hide Here, CanAct, Acted, LeadsTo, HostLogs.After, Sent, Carried, Lonely, IsStar, PlacesFit;
    CarriedIsSent(up, l.sys.hosts[s], l.at[s]);
    StarNeighbours(g, c, s);
    LonelyLink(c, l, s, up);
    ThreePlaces(g, c, l, s);
    OwnCan(g, c, l, s, NO_DISK);
    HostMoves(g, c, l, s);
    OwnAct(g, c, l, s, NO_DISK);
    SameKeys(g, l, Mine(s, NO_DISK));
    LeadsOnce(g, s, l, Mine(s, NO_DISK));
    l' := Acted(g, l, Mine(s, NO_DISK));
    LonelyKept(c, l, l', s, up, Sent(l.sys.hosts[s], l.at[s]));
  }

  lemma CanAsk(g: Topology, c: Id, l: SysLooped, s: Id, d: Id)
    requires InLoop(g, c, l, s) && l.at[s] == 2
    ensures CanAct(g, l, Action(s, Some(Ping(d)), NO_DISK))
  {
    ThreePlaces(g, c, l, s);
  }

  // Asking to ping d.
  lemma LonelyAsk(g: Topology, c: Id, l: SysLooped, s: Id, up: seq<Packet>, d: Id) returns (l': SysLooped)
    requires s in l.sys.hosts && s in l.at && Here(g, c, l, s) && Lonely(c, l, s, up) && l.at[s] == 2
    ensures Asks(g, l, s, d, l') && s in l'.sys.hosts && Here(g, c, l', s) && s in l'.at && l'.at[s] == 0
    ensures Lonely(c, l', s, up) && !l'.sys.hosts[s].h.pingSeen && l'.sys.hosts[s].h.id == s
    ensures l'.sys.hosts[s].h.jobs
         == l.sys.hosts[s].h.jobs + [SendPacket(Request(s, d)), PingWait(10)]
    ensures l'.sys.hosts[s] == HostLogs.After(l.sys.hosts[s], DoCommand(Ping(d)))
  {
    hide *;
    HereInLoop(g, c, l, s);
    HereParts(g, c, l, s);
    l' := AskNow(g, c, l, s, d);
    JustAsked(g, c, l, s, d, l');
    AskedHost(g, c, l, s, d, l');
    LonelyAsked(c, l, l', s, up);
  }

  lemma HereParts(g: Topology, c: Id, l: SysLooped, s: Id)
    requires Here(g, c, l, s)
    ensures SysInv(g, c, l.sys) && PlacesFit(g, l)
  {
  }

  lemma AskNow(g: Topology, c: Id, l: SysLooped, s: Id, d: Id) returns (l': SysLooped)
    requires InLoop(g, c, l, s) && s in l.at && l.at[s] == 2
    ensures Asks(g, l, s, d, l')
  {
    CanAsk(g, c, l, s, d);
    l' := Acted(g, l, Action(s, Some(Ping(d)), NO_DISK));
  }

  lemma LonelyAsked(c: Id, l: SysLooped, l': SysLooped, s: Id, up: seq<Packet>)
    requires Lonely(c, l, s, up) && s in l.sys.hosts && s in l'.sys.hosts && l'.sys.net == l.sys.net
    requires l'.sys.hosts == l.sys.hosts[s := l'.sys.hosts[s]]
    ensures Lonely(c, l', s, up)
  {
  }

  // s sends the request and comes back to the top of its loop.
  lemma RequestGoesOut(g: Topology, c: Id, l: SysLooped, s: Id, other: Id) returns (l': SysLooped)
    requires s in l.sys.hosts && s in l.at && Here(g, c, l, s) && Lonely(c, l, s, []) && l.at[s] == 0
    requires !l.sys.hosts[s].h.pingSeen && l.sys.hosts[s].h.jobs == [SendPacket(Request(s, other)), PingWait(10)]
    ensures LeadsTo(g, s, l, l') && s in l'.sys.hosts && s in l'.at && l'.at[s] == 0 && Here(g, c, l', s)
    ensures Lonely(c, l', s, [Request(s, other)])
    ensures l'.sys.hosts[s].h == l.sys.hosts[s].h.(jobs := [PingWait(10)])
    ensures l'.sys.hosts[s].units == l.sys.hosts[s].units && l'.sys.hosts[s].accepted == l.sys.hosts[s].accepted
  {
    hide Here, LeadsTo, Lonely, HostLogs.After, CanAct, Acted;
    assert [] + [Request(s, other)] == [Request(s, other)];
    var l1 := LonelyAct(g, c, l, s, []);
    var l2 := LonelyAct(g, c, l1, s, []);
    l' := LonelyAct(g, c, l2, s, [Request(s, other)]);
    RequestSent(l1.sys.hosts[s], Request(s, other));
    LeadsOn(g, s, l, l1, l2);
    LeadsOn(g, s, l, l2, l');
  }

  lemma RequestSent(l: Logged, q: Packet)
    requires l.h.jobs == [SendPacket(q), PingWait(10)]
    ensures var l' := HostLogs.After(l, RunJob(NO_DISK));
      l'.h == l.h.(jobs := [PingWait(10)]) && l'.units == l.units && l'.accepted == l.accepted
  {
    assert l.units + [] == l.units && l.h.jobs[1..] == [PingWait(10)];
  }

  lemma TickedOnce(l: Logged, timer: int)
    requires !l.h.pingSeen && l.h.jobs == [PingWait(timer)]
    ensures var l' := HostLogs.After(l, RunJob(NO_DISK));
      && l'.h == l.h.(jobs := if timer > 1 then [PingWait(timer - 1)] else [])
      && l'.units == l.units && l'.accepted == l.accepted
    ensures timer <= 1 ==> OnJob(l.h, NO_DISK).1.reply == Some(PingTimedOut)
  {
    assert l.units + [] == l.units;
  }

  // Round after round with nothing but the waiting job, until it has one tick left.
  lemma {:induction false} TicksAway(g: Topology, c: Id, l: SysLooped, s: Id, up: seq<Packet>, timer: nat)
    returns (l': SysLooped)
    requires s in l.sys.hosts && s in l.at && Here(g, c, l, s) && Lonely(c, l, s, up) && l.at[s] == 0
    requires !l.sys.hosts[s].h.pingSeen && l.sys.hosts[s].h.jobs == [PingWait(timer)] && timer >= 1
    ensures LeadsTo(g, s, l, l') && s in l'.sys.hosts && s in l'.at && l'.at[s] == 0 && Here(g, c, l', s)
    ensures Lonely(c, l', s, up)
    ensures l'.sys.hosts[s].h == l.sys.hosts[s].h.(jobs := [PingWait(1)])
    ensures l'.sys.hosts[s].units == l.sys.hosts[s].units && l'.sys.hosts[s].accepted == l.sys.hosts[s].accepted
    decreases timer
  {
    hide Here, LeadsTo, Lonely, HostLogs.After, CanAct, Acted;
    l' := l;
    if timer == 1 {
      LeadsNowhere(g, s, l);
    } else {
      var l1 := LonelyAct(g, c, l, s, up);
      var l2 := LonelyAct(g, c, l1, s, up);
      var l3 := LonelyAct(g, c, l2, s, up);
      TickedOnce(l1.sys.hosts[s], timer);
      LeadsOn(g, s, l, l1, l2);
      LeadsOn(g, s, l, l2, l3);
      l' := TicksAway(g, c, l3, s, up, timer - 1);
      LeadsOn(g, s, l, l3, l');
    }
  }

  // ---- The run ----

  // A host starts, pings `other`, and is about to be told that the ping timed out.
  ghost predicate TimingOut(g: Topology, c: Id, l: SysLooped, s: Id, other: Id) {
    && s in l.sys.hosts && s in l.at && Here(g, c, l, s) && l.at[s] == 1
    && Lonely(c, l, s, [Request(s, other)]) && AskedOnce(l.sys.hosts[s], other)
    && !l.sys.hosts[s].h.pingSeen && l.sys.hosts[s].h.jobs == [PingWait(1)]
  }

  lemma SameCounts(a: Logged, b: Logged, x: Byte)
    requires b.units == a.units && b.accepted == a.accepted && b.h.id == a.h.id
    ensures Requests(b, x) == Requests(a, x) && Replies(b, x) == Replies(a, x)
  {
  }

  lemma StillAskedOnce(a: Logged, b: Logged, other: Id)
    requires AskedOnce(a, other) && b.units == a.units && b.accepted == a.accepted && b.h.id == a.h.id
    ensures AskedOnce(b, other)
  {
    forall x: Id
      ensures Requests(b, x) == (if x == other then 1 else 0) && Replies(b, x) == 0
    {
      SameCounts(a, b, x);
    }
  }

  lemma FirstAsk(l: Logged, other: Id)
    requires forall x: Id :: Requests(l, x) == 0 && Replies(l, x) == 0
    ensures AskedOnce(HostLogs.After(l, DoCommand(Ping(other))), other)
  {
    hide Requests, Replies, HostLogs.After;
    forall x: Id
      ensures var l' := HostLogs.After(l, DoCommand(Ping(other)));
        Requests(l', x) == (if x == other then 1 else 0) && Replies(l', x) == 0
    {
      PingCommand(l, other, x);
    }
  }

  lemma AsksAndWaits(g: Topology, c: Id, l0: SysLooped, s: Id, other: Id) returns (l1: SysLooped, l2: SysLooped)
    requires IsStar(g, c) && SysLoopsStart(g, l0) && IsHost(g, s)
    ensures Asks(g, l0, s, other, l1) && LeadsTo(g, s, l1, l2) && TimingOut(g, c, l2, s, other)
  {
    hide Here, LeadsTo, Lonely, HostLogs.After, CanAct, Acted, Asks, AskedOnce, IsStar, SysLoopsStart, Requests,
      Replies;
    StartsLonely(g, c, l0, s);
    l1 := LonelyAsk(g, c, l0, s, [], other);
    FirstAsk(l0.sys.hosts[s], other);
    var sent := RequestGoesOut(g, c, l1, s, other);
    var last := TicksAway(g, c, sent, s, [Request(s, other)], 10);
    l2 := LonelyAct(g, c, last, s, [Request(s, other)]);
    LeadsOn(g, s, l1, sent, last);
    LeadsOn(g, s, l1, last, l2);
    StillAskedOnce(l1.sys.hosts[s], l2.sys.hosts[s], other);
  }

  lemma TimesOutNext(g: Topology, c: Id, l: SysLooped, s: Id, other: Id) returns (l': SysLooped)
    requires TimingOut(g, c, l, s, other)
    ensures TellsNext(g, l, s, NO_DISK, PingTimedOut) && l' == Acted(g, l, Mine(s, NO_DISK))
    ensures s in l'.sys.hosts && s in l'.at && Here(g, c, l', s) && l'.at[s] == 2
    ensures Lonely(c, l', s, [Request(s, other)]) && AskedOnce(l'.sys.hosts[s], other) && l'.sys.hosts[s].h.jobs == []
  {
    HereInLoop(g, c, l, s);
    hide Here, InLoop, LeadsTo, Lonely, HostLogs.After, CanAct, Acted, AskedOnce, ActStep, OnJob;
    OwnStep(g, c, l, s, NO_DISK);
    l' := LonelyAct(g, c, l, s, [Request(s, other)]);
    TickedOnce(l.sys.hosts[s], 1);
    StillAskedOnce(l.sys.hosts[s], l'.sys.hosts[s], other);
  }

  // Asking for the first time to ping another host than before.
  lemma AsksAnother(g: Topology, c: Id, l: SysLooped, s: Id, other: Id, pinged: Id) returns (l': SysLooped)
    requires s in l.sys.hosts && s in l.at && Here(g, c, l, s) && l.at[s] == 2 && pinged != other
    requires Lonely(c, l, s, [Request(s, other)]) && AskedOnce(l.sys.hosts[s], other) && l.sys.hosts[s].h.jobs == []
    ensures Asks(g, l, s, pinged, l') && Asking(l', s, pinged, 0, 0) && Here(g, c, l', s)
    ensures Lonely(c, l', s, [Request(s, other)])
    ensures l'.sys.hosts[s].h.jobs == [SendPacket(Request(s, pinged)), PingWait(10)]
  {
    hide Here, LeadsTo, Lonely, HostLogs.After, Asks, Requests, Replies;
    l' := LonelyAsk(g, c, l, s, [Request(s, other)], pinged);
    PingCommand(l.sys.hosts[s], pinged, pinged);
  }

  // All that is about is the request to `other` and the reply it will send.
  lemma LonelyLoad(g: Topology, c: Id, l: SysLooped, s: Id, other: Id)
    requires TwoAtSwitch(g, c, l, s, other) && InLoop(g, c, l, s) && Lonely(c, l, s, [Request(s, other)])
    ensures Underway(l.sys, c, s, other, Rising(false, 0)) && Load(g, c, l.sys, s, other) <= 2
  {
    var links: Links := map[];
    assert s in g.ports[c] && Distinct(g.ports[c]);
    hide InLoop;
    NoUplinks(links, c, other, g.ports[c]);
    OneUplink(links, l.sys.net.links, c, other, g.ports[c], s);
    WorthOne(Request(s, other), other);
  }

  lemma {:induction false} NoUplinks(links: Links, c: Id, h: Id, xs: seq<Id>)
    requires links == map[]
    ensures Uplinks(links, c, h, xs) == 0
  {
    if xs != [] {
      NoUplinks(links, c, h, xs[1..]);
    }
  }

  lemma OtherMisleads(g: Topology, c: Id, l: SysLooped, s: Id, other: Id, pinged: Id)
    requires other in l.sys.hosts && other != s && Here(g, c, l, s)
    requires Asking(l, s, pinged, 0, 0) && Lonely(c, l, s, [Request(s, other)])
    ensures Lies(g, l, s, pinged)
  {
    hide Here, Lonely, Asking, InLoop, Underway, Load, Lies;
    TwoHosts(g, c, l, s, other);
    LonelyLoad(g, c, l, s, other);
    MisleadsFrom(g, c, l, s, pinged, other, 0, 0, Rising(false, 0));
  }

  // ---- A host that has pinged itself ----

  // No host but s has written anything the switch has not read; `up` and `down` are on the links of s.
  ghost predicate Talking(g: Topology, c: Id, l: SysLooped, s: Id, d: Id, up: seq<Packet>, down: seq<Packet>,
                          jobs: seq<Hosts.Job>)
  {
    && s in l.sys.hosts && s in l.at && Here(g, c, l, s) && Behind(c, l, s, d, 0)
    && On(l.sys.net.links, s, c) == up && On(l.sys.net.links, c, s) == down
    && (forall x :: x != s && x != c ==> On(l.sys.net.links, x, c) == [])
    && l.sys.hosts[s].h.id == s && !l.sys.hosts[s].h.pingSeen && l.sys.hosts[s].h.jobs == jobs
  }

  // What one round, in which s reads `down`, makes of its queue, and what it sends.
  function RoundOf(h: Host, down: seq<Packet>): (Host, Option<Packet>)
    requires |down| <= 1
  {
    var (h', effect) := OnJob(if down == [] then h else OnPacket(h, down[0]), NO_DISK);
    (h', effect.sent)
  }

  lemma SentIsEffect(l: Logged)
    ensures Sent(l, 1) == if OnJob(l.h, NO_DISK).1.sent.Some? then [OnJob(l.h, NO_DISK).1.sent.value] else []
  {
  }

  lemma TalkRound(g: Topology, c: Id, l: SysLooped, s: Id, d: Id, up: seq<Packet>, down: seq<Packet>,
                  jobs: seq<Hosts.Job>, jobs': seq<Hosts.Job>, sent: seq<Packet>)
    returns (l': SysLooped)
    requires Talking(g, c, l, s, d, up, down, jobs) && l.at[s] == 0 && |down| <= 1
    requires var (h, out) := RoundOf(l.sys.hosts[s].h, down);
      h.jobs == jobs' && !h.pingSeen && sent == if out.Some? then [out.value] else []
    ensures LeadsTo(g, s, l, l') && Talking(g, c, l', s, d, up + sent, [], jobs') && l'.at[s] == 0
  {
    hide Here, InLoop, Behind, LeadsTo, HostLogs.After, CanAct, Acted, OnJob, OnPacket, Sent;
    var l1 := OwnMove(g, c, l, s, NO_DISK, d, 0);
    HereInLoop(g, c, l, s);
    HostMoves(g, c, l, s);
    var l2 := OwnMove(g, c, l1, s, NO_DISK, d, 0);
    HereInLoop(g, c, l1, s);
    HostMoves(g, c, l1, s);
    l' := OwnMove(g, c, l2, s, NO_DISK, d, 0);
    HereInLoop(g, c, l2, s);
    HostMoves(g, c, l2, s);
    LeadsOn(g, s, l, l1, l2);
    LeadsOn(g, s, l, l2, l');
    SentIsEffect(l1.sys.hosts[s]);
    SentElsewhere(l.sys.hosts[s]);
    SentElsewhere(l2.sys.hosts[s]);
    LogsOfRound(l.sys.hosts[s], down, l1.sys.hosts[s], l2.sys.hosts[s]);
  }

  lemma SentElsewhere(l: Logged)
    ensures Sent(l, 0) == [] && Sent(l, 2) == []
  {
  }

  lemma LogsOfRound(l: Logged, down: seq<Packet>, l1: Logged, l2: Logged)
    requires |down| <= 1
    requires l1 == if down != [] then HostLogs.After(l, TakePacket(down[0])) else l
    requires l2 == HostLogs.After(l1, RunJob(NO_DISK))
    ensures l2.h == RoundOf(l.h, down).0 && OnJob(l1.h, NO_DISK).1.sent == RoundOf(l.h, down).1 && l2.h.id == l.h.id
  {
    QueueShape(l1, RunJob(NO_DISK));
    assert l1.h == if down != [] then OnPacket(l.h, down[0]) else l.h;
    hide Execute;
  }

  // The switch at a place of its loop.
  predicate SwitchAt(g: Topology, c: Id, l: SysLooped, s: Id) {
    c in g.ports && c != s && s in g.ports[c] && c in l.at && l.at[c] < |g.ports[c]|
  }

  lemma TalkPlaces(g: Topology, c: Id, l: SysLooped, s: Id)
    requires Here(g, c, l, s)
    ensures SwitchAt(g, c, l, s) && IsHost(g, s)
  {
    HereInLoop(g, c, l, s);
    StarNeighbours(g, c, s);
  }

  // What it does there, when no host but s has written anything.
  ghost predicate SwitchDoes(g: Topology, c: Id, l: SysLooped, l': SysLooped, s: Id)
    requires SwitchAt(g, c, l, s)
  {
    && l'.sys.hosts == l.sys.hosts
    && l'.at == l.at[c := if l.at[c] + 1 < |g.ports[c]| then l.at[c] + 1 else 0]
    && if l.at[c] == Index(g.ports[c], s) then PassesOn(g, l.sys.net.links, l'.sys.net.links, c, s)
       else l'.sys.net == l.sys.net
  }

  lemma SwitchReads(g: Topology, c: Id, l: SysLooped, s: Id)
    requires SwitchAt(g, c, l, s) && SysInv(g, c, l.sys) && CanAct(g, l, Mine(c, NO_DISK))
    requires On(l.sys.net.links, s, c) != [] && forall x :: x != s && x != c ==> On(l.sys.net.links, x, c) == []
    ensures if l.at[c] == Index(g.ports[c], s) then
              PassesOn(g, l.sys.net.links, Acted(g, l, Mine(c, NO_DISK)).sys.net.links, c, s)
            else Acted(g, l, Mine(c, NO_DISK)).sys.net == l.sys.net
  {
    assert Distinct(g.ports[c]) && c !in g.ports[c] && IsStar(g, c) && StarInv(g, l.sys.net, c);
    hide SysInv, StarInv, IsStar, Possible, Then, Index, On;
    SwitchMoves(g, c, l, l.at[c]);
    if l.at[c] == Index(g.ports[c], s) {
      ServeMoves(g, c, l.sys, l.at[c]);
    }
  }

  // An action of the switch: it reads nothing but, when it is the turn of the port of s, from s.
  lemma TalkSwitch(g: Topology, c: Id, l: SysLooped, s: Id) returns (l': SysLooped)
    requires s in l.sys.hosts && Here(g, c, l, s) && SwitchAt(g, c, l, s)
    requires On(l.sys.net.links, s, c) != [] && forall x :: x != s && x != c ==> On(l.sys.net.links, x, c) == []
    ensures LeadsTo(g, s, l, l') && Here(g, c, l', s) && SwitchDoes(g, c, l, l', s)
  {
    hide SysInv, PlacesFit, Here, LeadsTo, Acted, CanAct, Index, On, PassesOn;
    HereParts(g, c, l, s);
    SwitchActs(g, c, l, s, s);
    SwitchReads(g, c, l, s);
    l' := Acted(g, l, Mine(c, NO_DISK));
    HereStays(g, c, l, s, Mine(c, NO_DISK));
    LeadsOnce(g, s, l, Mine(c, NO_DISK));
  }

  // The switch passes the oldest packet of s on: back to s for certain if it is for s.
  lemma TalkServe(g: Topology, c: Id, l: SysLooped, s: Id, d: Id, up: seq<Packet>, down: seq<Packet>,
                  jobs: seq<Hosts.Job>)
    returns (l': SysLooped, back: seq<Packet>)
    requires Talking(g, c, l, s, d, up, down, jobs) && up != [] && up[0].src != d && SwitchAt(g, c, l, s)
    ensures LeadsTo(g, s, l, l') && Talking(g, c, l', s, d, up[1..], down + back, jobs) && l'.at[s] == l.at[s]
    ensures (back == [] || back == [up[0]]) && (up[0].dst == s ==> back == [up[0]]) && SwitchAt(g, c, l', s)
    decreases Ahead(|g.ports[c]|, l.at[c], Index(g.ports[c], s))
  {
    hide Here, LeadsTo, IsStar, PassesOn, Behind, On;
    var l1 := TalkSwitch(g, c, l, s);
    TalkPlaces(g, c, l1, s);
    if l.at[c] == Index(g.ports[c], s) {
      l' := l1;
      back := PassedBack(g, c, l, l1, s, d, up, down, jobs);
    } else {
      SameBehind(c, l, l1, s, d);
      l', back := TalkServe(g, c, l1, s, d, up, down, jobs);
      LeadsOn(g, s, l, l1, l');
    }
  }

  lemma SameBehind(c: Id, l: SysLooped, l': SysLooped, s: Id, d: Id)
    requires s in l.sys.hosts && Behind(c, l, s, d, 0) && l'.sys.hosts == l.sys.hosts && l'.sys.net == l.sys.net
    ensures Behind(c, l', s, d, 0)
  {
  }

  lemma PassedBack(g: Topology, c: Id, l: SysLooped, l': SysLooped, s: Id, d: Id, up: seq<Packet>, down: seq<Packet>,
                   jobs: seq<Hosts.Job>)
    returns (back: seq<Packet>)
    requires Talking(g, c, l, s, d, up, down, jobs) && up != [] && up[0].src != d && c != s && IsHost(g, s)
    requires l'.sys.hosts == l.sys.hosts && s in l'.at && Here(g, c, l', s)
    requires PassesOn(g, l.sys.net.links, l'.sys.net.links, c, s)
    ensures Talking(g, c, l', s, d, up[1..], down + back, jobs)
    ensures (back == [] || back == [up[0]]) && (up[0].dst == s ==> back == [up[0]])
  {
    hide Here;
    back := if On(l'.sys.net.links, c, s) == down + [up[0]] then [up[0]] else [];
    assert down + [] == down;
    CountConcat(down, [up[0]], d, s, PKT_PING_REPLY);
    OneCounted(up[0], d, s, PKT_PING_REPLY);
  }

  // The rounds of a host that answers itself.
  lemma HeadRuns(h: Host, down: seq<Packet>, job: Hosts.Job, rest: seq<Hosts.Job>)
    requires h.jobs == [job] + rest && !h.pingSeen && |down| <= 1
    requires down == [] || (down[0].dst == h.id && down[0].ptype == PKT_PING_REQ)
    ensures var (h', sent) := RoundOf(h, down);
      var after := if down == [] then rest else rest + [PingSendReply(down[0])];
      && !h'.pingSeen
      && (job.SendPacket? ==> h'.jobs == after && sent == Some(job.packet))
      && (job.PingWait? && job.timer > 1 ==> h'.jobs == after + [PingWait(job.timer - 1)] && sent == None)
      && (job.PingSendReply? ==>
            h'.jobs == after + [SendPacket(Packet(h.id, job.packet.src, PKT_PING_REPLY, []))] && sent == None)
  {
    var b := if down == [] then h else OnPacket(h, down[0]);
    assert b.jobs[1..] == if down == [] then rest else rest + [PingSendReply(down[0])];
  }

  function OwnReply(s: Id): Packet {
    Packet(s, s, PKT_PING_REPLY, [])
  }

  // s reads its own request and, within five rounds, sends the reply.
  lemma TakesOwnRequest(g: Topology, c: Id, l: SysLooped, s: Id, d: Id) returns (l': SysLooped)
    requires Talking(g, c, l, s, d, [], [Request(s, s)], [SendPacket(Request(s, d)), PingWait(10)]) && l.at[s] == 0
    ensures LeadsTo(g, s, l, l')
    ensures Talking(g, c, l', s, d, [Request(s, d)], [], [PingSendReply(Request(s, s)), PingWait(9)]) && l'.at[s] == 0
  {
    hide Here, Behind, LeadsTo, RoundOf;
    var due, q := PingSendReply(Request(s, s)), Request(s, d);
    HeadRuns(l.sys.hosts[s].h, [Request(s, s)], SendPacket(q), [PingWait(10)]);
    var l1 := TalkRound(g, c, l, s, d, [], [Request(s, s)], [SendPacket(q), PingWait(10)], [PingWait(10), due], [q]);
    HeadRuns(l1.sys.hosts[s].h, [], PingWait(10), [due]);
    l' := TalkRound(g, c, l1, s, d, [q], [], [PingWait(10), due], [due, PingWait(9)], []);
    LeadsOn(g, s, l, l1, l');
  }

  lemma AnswersItself(g: Topology, c: Id, l: SysLooped, s: Id, d: Id) returns (l': SysLooped)
    requires Talking(g, c, l, s, d, [Request(s, d)], [], [PingSendReply(Request(s, s)), PingWait(9)]) && l.at[s] == 0
    ensures LeadsTo(g, s, l, l') && Talking(g, c, l', s, d, [Request(s, d), OwnReply(s)], [], [PingWait(8)])
    ensures l'.at[s] == 0
  {
    hide Here, Behind, LeadsTo, RoundOf;
    var due, q, reply := PingSendReply(Request(s, s)), Request(s, d), SendPacket(OwnReply(s));
    HeadRuns(l.sys.hosts[s].h, [], due, [PingWait(9)]);
    var l1 := TalkRound(g, c, l, s, d, [q], [], [due, PingWait(9)], [PingWait(9), reply], []);
    HeadRuns(l1.sys.hosts[s].h, [], PingWait(9), [reply]);
    var l2 := TalkRound(g, c, l1, s, d, [q], [], [PingWait(9), reply], [reply, PingWait(8)], []);
    HeadRuns(l2.sys.hosts[s].h, [], reply, [PingWait(8)]);
    l' := TalkRound(g, c, l2, s, d, [q], [], [reply, PingWait(8)], [PingWait(8)], [OwnReply(s)]);
    LeadsOn(g, s, l, l1, l2);
    LeadsOn(g, s, l, l2, l');
  }

  lemma QuickReplyLies(g: Topology, c: Id, l: SysLooped, s: Id, d: Id, back: seq<Packet>)
    requires Talking(g, c, l, s, d, [], back + [OwnReply(s)], [PingWait(8)]) && l.at[s] == 0
    requires |back| <= 1 && NoReply(back, s)
    ensures Lies(g, l, s, d)
  {
    hide Here, Behind, Lies;
    var q, disks := back + [OwnReply(s)], seq(|back|, _ => NO_DISK);
    assert q[..|back|] == back && FirstReply(q, s, |back|);
    WaitLasts(l.sys.hosts[s].h, back, disks, 0, 8);
    hide Outlasts;
    OutlastingLies(g, c, l, s, d, 0, |back|, disks);
  }

  lemma TalkReady(g: Topology, c: Id, l: SysLooped, s: Id, d: Id, up: seq<Packet>, down: seq<Packet>,
                  jobs: seq<Hosts.Job>)
    requires Talking(g, c, l, s, d, up, down, jobs)
    ensures SwitchAt(g, c, l, s)
  {
    hide Here, Behind;
    TalkPlaces(g, c, l, s);
  }

  // The switch passes two packets of s on, the second of which is for s.
  lemma ServesBoth(g: Topology, c: Id, l: SysLooped, s: Id, d: Id, a: Packet, b: Packet, jobs: seq<Hosts.Job>)
    returns (l': SysLooped, back: seq<Packet>)
    requires Talking(g, c, l, s, d, [a, b], [], jobs) && a.src != d && b.src != d && b.dst == s
    ensures LeadsTo(g, s, l, l') && Talking(g, c, l', s, d, [], back + [b], jobs) && l'.at[s] == l.at[s]
    ensures back == [] || back == [a]
  {
    hide Talking, LeadsTo;
    TalkReady(g, c, l, s, d, [a, b], [], jobs);
    assert [a, b][1..] == [b] && [b][1..] == [];
    var l1, back1 := TalkServe(g, c, l, s, d, [a, b], [], jobs);
    back := [] + back1;
    var back2;
    l', back2 := TalkServe(g, c, l1, s, d, [b], back, jobs);
    LeadsOn(g, s, l, l1, l');
  }

  // The two packets come back, and the second is taken for the reply to the new ping.
  lemma OwnReplyMisleads(g: Topology, c: Id, l: SysLooped, s: Id, d: Id)
    requires Talking(g, c, l, s, d, [Request(s, d), OwnReply(s)], [], [PingWait(8)]) && l.at[s] == 0 && d != s
    ensures Lies(g, l, s, d)
  {
    hide Talking, LeadsTo, Lies, Here;
    var l', back := ServesBoth(g, c, l, s, d, Request(s, d), OwnReply(s), [PingWait(8)]);
    QuickReplyLies(g, c, l', s, d, back);
    LiesLater(g, l, l', s, d);
  }

  lemma SelfMisleads(g: Topology, c: Id, l: SysLooped, s: Id, d: Id)
    requires Asking(l, s, d, 0, 0) && Here(g, c, l, s) && Lonely(c, l, s, [Request(s, s)]) && d != s
    requires l.sys.hosts[s].h.jobs == [SendPacket(Request(s, d)), PingWait(10)]
    ensures Lies(g, l, s, d)
  {
    hide Here, Behind, LeadsTo, Lies, Requests;
    NotSentYet(g, c, l, s, d, 0, 0);
    var jobs := [SendPacket(Request(s, d)), PingWait(10)];
    assert Talking(g, c, l, s, d, [Request(s, s)], [], jobs);
    hide Talking;
    TalkPlaces(g, c, l, s);
    var l1, back := TalkServe(g, c, l, s, d, [Request(s, s)], [], jobs);
    assert [] + back == [Request(s, s)] && [Request(s, s)][1..] == [];
    SelfFrom(g, c, l1, s, d);
    LiesLater(g, l, l1, s, d);
  }

  lemma SelfFrom(g: Topology, c: Id, l: SysLooped, s: Id, d: Id)
    requires Talking(g, c, l, s, d, [], [Request(s, s)], [SendPacket(Request(s, d)), PingWait(10)])
    requires s in l.at && l.at[s] == 0 && d != s
    ensures Lies(g, l, s, d)
  {
    var l1 := TakesOwnRequest(g, c, l, s, d);
    var l2 := AnswersItself(g, c, l1, s, d);
    hide *;
    OwnReplyMisleads(g, c, l2, s, d);
    LiesLater(g, l1, l2, s, d);
    LiesLater(g, l, l1, s, d);
  }

  // ---- The whole run ----

  // The first ping of d has no reply as long as it is not answered.
  lemma NoReplyYet(g: Topology, c: Id, l: SysLooped, s: Id, d: Id, l': SysLooped)
    requires s in l.sys.hosts && Here(g, c, l, s) && !l.sys.hosts[s].h.pingSeen && Requests(l.sys.hosts[s], d) == 1
    requires LeadsTo(g, s, l, l') && s in l'.sys.hosts && !Answered(l'.sys.hosts[s], d)
    ensures Replies(l'.sys.hosts[s], d) == 0
  {
    hide SysInv, PlacesFit, CanActAll, ActedAll, CanGo, GoOn, NoPing, Requests, Replies, Since;
    var acts :| CanActAll(g, l, acts) && NoCommand(acts, s) && ActedAll(g, l, acts) == l';
    ActsAreSteps(g, l, acts);
    NoCommandNoPing(g, l, acts, s);
    var steps := StepsOfActs(g, l, acts);
    hide StepsOfActs;
    SinceStart(l.sys.hosts[s]);
    SinceAlong(g, c, l.sys, steps, s, l.sys.hosts[s]);
    SinceCounts(l.sys.hosts[s], l'.sys.hosts[s], d);
    if Replies(l'.sys.hosts[s], d) > 0 {
      RepliesAreAnswers(g, c, l'.sys, s, d);
    }
  }

  lemma SinceCounts(l: Logged, l': Logged, d: Byte)
    requires Since(l, l')
    ensures Requests(l', d) == Requests(l, d)
  {
  }

  // "Ping acked!" does not mean that the pinged host answered. In every star, from its start and with
  // every process in its loop: a host pings `other` and is told that the ping timed out; it pings another
  // host, the late reply of `other` comes in, and the manager is told that the second ping was
  // acknowledged, although the second host has never replied.
  lemma LateReplyIsReported(g: Topology, c: Id, l0: SysLooped, s: Id, other: Id, pinged: Id)
    returns (l1: SysLooped, l2: SysLooped, l3: SysLooped, l4: SysLooped, disk: Disk)
    requires IsStar(g, c) && SysLoopsStart(g, l0) && IsHost(g, s) && IsHost(g, other) && other != pinged
    ensures Asks(g, l0, s, other, l1) && LeadsTo(g, s, l1, l2) && TellsNext(g, l2, s, NO_DISK, PingTimedOut)
    ensures Asks(g, Acted(g, l2, Mine(s, NO_DISK)), s, pinged, l3)
    ensures LeadsTo(g, s, l3, l4) && TellsNext(g, l4, s, disk, PingAcked) && Replies(l4.sys.hosts[s], pinged) == 0
  {
    hide Here, LeadsTo, Lonely, Asks, AskedOnce, IsStar, SysLoopsStart, Asking, Lies, Requests, Replies, TellsNext,
      Acted;
    l1, l2 := AsksAndWaits(g, c, l0, s, other);
    var told := TimesOutNext(g, c, l2, s, other);
    l3 := AsksAnother(g, c, told, s, other, pinged);
    l4, disk := Misled(g, c, l3, s, other, pinged);
  }

  lemma Misled(g: Topology, c: Id, l: SysLooped, s: Id, other: Id, pinged: Id) returns (l': SysLooped, disk: Disk)
    requires Here(g, c, l, s) && Asking(l, s, pinged, 0, 0) && Lonely(c, l, s, [Request(s, other)])
    requires l.sys.hosts[s].h.jobs == [SendPacket(Request(s, pinged)), PingWait(10)]
    requires IsHost(g, other) && other != pinged
    ensures LeadsTo(g, s, l, l') && TellsNext(g, l', s, disk, PingAcked) && Replies(l'.sys.hosts[s], pinged) == 0
  {
    hide Here, LeadsTo, Lonely, Requests, Replies;
    if other == s {
      SelfMisleads(g, c, l, s, pinged);
    } else {
      AllHosts(g, c, l, s, other);
      OtherMisleads(g, c, l, s, other, pinged);
    }
    hide CanAct, ActStep;
    l', disk :| LeadsTo(g, s, l, l') && LiesNext(g, l', s, pinged, disk);
    NoReplyYet(g, c, l, s, pinged, l');
  }

  lemma AllHosts(g: Topology, c: Id, l: SysLooped, s: Id, h: Id)
    requires Here(g, c, l, s) && IsHost(g, h)
    ensures h in l.sys.hosts
  {
  }
}
