// When an older ping misleads although its reply is not on the last link yet: with little traffic about,
// the network can bring the reply home before the new ping times out.
module OldPings {
  import opened Types
  import opened Hosts
  import opened HostLogs
  import opened Pings
  import opened Switches
  import opened Trees
  import opened Network
  import opened Learning
  import opened Star
  import opened Simulator
  import opened Acks
  import opened Loops
  import opened SysLoops
  import opened LateReplies

  // ---- How many packets can still come onto the link to s while only h and the switch move ----

  predicate IsRequestTo(p: Packet, h: Id) {
    p.dst == h && p.ptype == PKT_PING_REQ
  }

  // A packet on its way to the switch can be passed on to s, and a ping request to h makes h reply.
  function Worth(p: Packet, h: Id): nat {
    if IsRequestTo(p, h) then 2 else 1
  }

  function Worths(q: seq<Packet>, h: Id): nat {
    if q == [] then 0 else Worth(q[0], h) + Worths(q[1..], h)
  }

  function RequestsTo(q: seq<Packet>, h: Id): nat {
    if q == [] then 0 else (if IsRequestTo(q[0], h) then 1 else 0) + RequestsTo(q[1..], h)
  }

  function JobWorth(j: Hosts.Job, h: Id): nat {
    match j
    case SendPacket(p) => Worth(p, h)
    case PingSendReply(_) => 1
    case _ => 0
  }

  function JobWorths(jobs: seq<Hosts.Job>, h: Id): nat {
    if jobs == [] then 0 else JobWorth(jobs[0], h) + JobWorths(jobs[1..], h)
  }

  // On the links from these nodes to the switch.
  function Uplinks(links: Links, c: Id, h: Id, xs: seq<Id>): nat {
    if xs == [] then 0 else Worths(On(links, xs[0], c), h) + Uplinks(links, c, h, xs[1..])
  }

  function Load(g: Topology, c: Id, sys: System, s: Id, h: Id): nat
    requires c in g.ports && h in sys.hosts
  {
    |On(sys.net.links, c, s)| + Uplinks(sys.net.links, c, h, g.ports[c]) + RequestsTo(On(sys.net.links, c, h), h)
    + JobWorths(sys.hosts[h].h.jobs, h)
  }

  lemma {:induction false} WorthsAdd(a: seq<Packet>, b: seq<Packet>, h: Id)
    ensures Worths(a + b, h) == Worths(a, h) + Worths(b, h)
    ensures RequestsTo(a + b, h) == RequestsTo(a, h) + RequestsTo(b, h)
  {
    if a == [] {
      assert a + b == b;
    } else {
      assert (a + b)[0] == a[0] && (a + b)[1..] == a[1..] + b;
      WorthsAdd(a[1..], b, h);
    }
  }

  lemma {:induction false} JobWorthsAdd(a: seq<Hosts.Job>, b: seq<Hosts.Job>, h: Id)
    ensures JobWorths(a + b, h) == JobWorths(a, h) + JobWorths(b, h)
  {
    if a == [] {
      assert a + b == b;
    } else {
      assert (a + b)[0] == a[0] && (a + b)[1..] == a[1..] + b;
      JobWorthsAdd(a[1..], b, h);
    }
  }

  lemma WorthOne(p: Packet, h: Id)
    ensures Worths([p], h) == Worth(p, h) && RequestsTo([p], h) == if IsRequestTo(p, h) then 1 else 0
    ensures Worths([], h) == 0 && RequestsTo([], h) == 0
  {
    assert [p][1..] == [];
  }

  lemma {:induction false} SameUplinks(links: Links, links': Links, c: Id, h: Id, xs: seq<Id>)
    requires forall x :: x in xs ==> On(links', x, c) == On(links, x, c)
    ensures Uplinks(links', c, h, xs) == Uplinks(links, c, h, xs)
  {
    if xs != [] {
      SameUplinks(links, links', c, h, xs[1..]);
    }
  }

  // When one uplink changes.
  lemma {:induction false} OneUplink(links: Links, links': Links, c: Id, h: Id, xs: seq<Id>, y: Id)
    requires Distinct(xs) && y in xs && forall x :: x in xs && x != y ==> On(links', x, c) == On(links, x, c)
    ensures Uplinks(links', c, h, xs) + Worths(On(links, y, c), h)
         == Uplinks(links, c, h, xs) + Worths(On(links', y, c), h)
  {
    var rest := xs[1..];
    assert forall i :: 0 <= i < |rest| ==> rest[i] == xs[i + 1];
    if xs[0] == y {
      SameUplinks(links, links', c, h, rest);
    } else {
      OneUplink(links, links', c, h, rest, y);
    }
  }

  // ---- Actions of h and of the switch, s standing still ----

  function Sent(l: Logged, place: nat): seq<Packet> {
    if place == 1 && l.h.jobs != [] && l.h.jobs[0].SendPacket? then [l.h.jobs[0].packet] else []
  }

  // What an action of host h changes.
  lemma HostMoves(g: Topology, c: Id, l: SysLooped, h: Id)
    requires InLoop(g, c, l, h) && CanAct(g, l, Mine(h, NO_DISK))
    ensures var l', links := Acted(g, l, Mine(h, NO_DISK)), l.sys.net.links;
      && On(l'.sys.net.links, h, c) == On(links, h, c) + Sent(l.sys.hosts[h], l.at[h])
      && (forall x :: x != h ==> On(l'.sys.net.links, x, c) == On(links, x, c))
      && (forall y :: y != h ==> On(l'.sys.net.links, c, y) == On(links, c, y))
      && (forall x :: x in l.sys.hosts && x != h ==> x in l'.sys.hosts && l'.sys.hosts[x] == l.sys.hosts[x])
  {
    ThreePlaces(g, c, l, h);
    OwnStep(g, c, l, h, NO_DISK);
    var step, links := ActStep(g, l, Mine(h, NO_DISK)), l.sys.net.links;
    assert On(links, h, c) + [] == On(links, h, c);
    if step.Some? {
      hide ActStep, PlacesFit;
      HostLinks(g, c, l.sys, h, step.value);
    }
  }

  lemma HostLinks(g: Topology, c: Id, sys: System, h: Id, step: SysStep)
    requires IsStar(g, c) && IsHost(g, h) && h in sys.hosts && Possible(g, sys, step)
    requires step == Receive(h, 0) || step == SysStep.Job(h, NO_DISK)
    ensures var links, links' := sys.net.links, Then(g, sys, step).net.links;
      && On(links', h, c) == On(links, h, c) + Sent(sys.hosts[h], if step.Job? then 1 else 0)
      && (forall x :: x != h ==> On(links', x, c) == On(links, x, c))
      && (forall y :: y != h ==> On(links', c, y) == On(links, c, y))
      && (forall x :: x in sys.hosts && x != h ==> Then(g, sys, step).hosts[x] == sys.hosts[x])
  {
    assert g.ports[h] == [c];
    var net := NetStep(sys, step);
    forall a, b
      ensures var before, after := On(sys.net.links, a, b), On(Next(g, sys.net, net).links, a, b);
        && (a == h && b == c ==> after == before + Sent(sys.hosts[h], if step.Job? then 1 else 0))
        && ((a != h && b == c) || (a == c && b != h) ==> after == before)
    {
      LinkAfter(g, sys.net, net, a, b);
      assert On(sys.net.links, a, b) + [] == On(sys.net.links, a, b);
    }
    hide Next, IsStar;
  }

  // What a job without a disk takes from the queue of h is worth what it adds and sends.
  lemma JobKeepsWorth(l: Logged, h: Id)
    ensures var l' := HostLogs.After(l, RunJob(NO_DISK));
      JobWorths(l'.h.jobs, h) + Worths(Sent(l, 1), h) == JobWorths(l.h.jobs, h)
  {
    if l.h.jobs != [] {
      var job := l.h.jobs[0];
      var added := AddedByJob(l.h, job, NO_DISK);
      QueueShape(l, RunJob(NO_DISK));
      JobWorthsAdd(l.h.jobs[1..], added, h);
      if job.SendPacket? {
        WorthOne(job.packet, h);
      } else if added != [] {
        assert added == [added[0]] && [added[0]][1..] == [];
      }
    }
  }

  // What a packet read by h is worth, the jobs it adds are.
  lemma PollKeepsWorth(l: Logged, p: Packet, h: Id)
    requires l.h.id == h
    ensures var l' := HostLogs.After(l, TakePacket(p));
      JobWorths(l'.h.jobs, h) == JobWorths(l.h.jobs, h) + if IsRequestTo(p, h) then 1 else 0
  {
    var added := if p.dst == h then JobsFor(p) else [];
    assert l.h.jobs + [] == l.h.jobs;
    JobWorthsAdd(l.h.jobs, added, h);
    if added != [] {
      assert added == [added[0]] && [added[0]][1..] == [];
    }
  }

  lemma FirstRequest(q: seq<Packet>, h: Id)
    requires q != []
    ensures RequestsTo(q, h) == RequestsTo(q[1..], h) + if IsRequestTo(q[0], h) then 1 else 0
    ensures Worths(q, h) == Worths(q[1..], h) + Worth(q[0], h)
  {
  }

  lemma HostKeepsLoad(g: Topology, c: Id, l: SysLooped, s: Id, h: Id)
    requires InLoop(g, c, l, h) && CanAct(g, l, Mine(h, NO_DISK)) && s != h && c in g.ports
    ensures h in Acted(g, l, Mine(h, NO_DISK)).sys.hosts
    ensures Load(g, c, Acted(g, l, Mine(h, NO_DISK)).sys, s, h) == Load(g, c, l.sys, s, h)
  {
    hide CanAct, Acted, HostLogs.After, On, Worth, Sent, PlacesFit;
    HostMoves(g, c, l, h);
    OwnAct(g, c, l, h, NO_DISK);
    StarNeighbours(g, c, h);
    var sys, sys' := l.sys, Acted(g, l, Mine(h, NO_DISK)).sys;
    var log, q := sys.hosts[h], On(sys.net.links, c, h);
    assert log.h.id == h && h in g.ports[c] && Distinct(g.ports[c]);
    hide IsStar, IsHost;
    OneUplink(sys.net.links, sys'.net.links, c, h, g.ports[c], h);
    WorthsAdd(On(sys.net.links, h, c), Sent(log, l.at[h]), h);
    NothingSent(log, h);
    if l.at[h] == 0 && q != [] {
      PollKeepsWorth(log, q[0], h);
      FirstRequest(q, h);
    } else if l.at[h] == 1 {
      JobKeepsWorth(log, h);
    }
  }

  lemma NothingSent(l: Logged, h: Id)
    ensures forall t: nat :: t != 1 ==> Worths(Sent(l, t), h) == 0
  {
  }

  // ---- The switch ----

  lemma StarParts(g: Topology, c: Id, sys: System)
    requires SysInv(g, c, sys)
    ensures IsStar(g, c) && StarInv(g, sys.net, c)
  {
    hide NetInv, AllFlow, HostsOk;
  }

  lemma ServePossible(g: Topology, c: Id, sys: System, k: nat)
    requires StarInv(g, sys.net, c) && k < |g.ports[c]| && On(sys.net.links, g.ports[c][k], c) != []
    ensures Possible(g, sys, Serve(c, k))
  {
    var x := g.ports[c][k];
    var p := On(sys.net.links, x, c)[0];
    assert p in On(sys.net.links, x, c) && PacketOk(g, sys.net, x, c, p) && c in sys.net.tables;
  }

  lemma SwitchMoves(g: Topology, c: Id, l: SysLooped, k: nat)
    requires IsStar(g, c) && StarInv(g, l.sys.net, c) && c in l.at && l.at[c] == k < |g.ports[c]|
    ensures CanAct(g, l, Mine(c, NO_DISK))
    ensures ActStep(g, l, Mine(c, NO_DISK))
         == if On(l.sys.net.links, g.ports[c][k], c) == [] then None else Some(Serve(c, k))
  {
    hide StarInv, Possible;
    if On(l.sys.net.links, g.ports[c][k], c) != [] {
      ServePossible(g, c, l.sys, k);
    }
  }

  // The switch passes on the oldest packet from x.
  ghost predicate PassesOn(g: Topology, links: Links, links': Links, c: Id, x: Id) {
    var q := On(links, x, c);
    && q != [] && On(links', x, c) == q[1..]
    && (forall y :: y != x && y != c ==> On(links', y, c) == On(links, y, c))
    && (forall y :: y != c ==> On(links', c, y) == On(links, c, y) || On(links', c, y) == On(links, c, y) + [q[0]])
    && (forall y: Id :: IsHost(g, y) && q[0].dst == y ==> On(links', c, y) == On(links, c, y) + [q[0]])
  }

  // Serving a port: what is written where.
  lemma ServeMoves(g: Topology, c: Id, sys: System, k: nat)
    requires SysInv(g, c, sys) && Possible(g, sys, Serve(c, k)) && k < |g.ports[c]|
    ensures PassesOn(g, sys.net.links, Then(g, sys, Serve(c, k)).net.links, c, g.ports[c][k])
    ensures Then(g, sys, Serve(c, k)).hosts == sys.hosts
  {
    hide HostsOk, NetInv, AllFlow;
    var links, links', x := sys.net.links, Then(g, sys, Serve(c, k)).net.links, g.ports[c][k];
    var p := On(links, x, c)[0];
    assert WellFormed(g) && x in g.ports[c] && x != c;
    forall y
      ensures y != c && y != x ==> On(links', y, c) == On(links, y, c)
      ensures y == x ==> On(links', y, c) == On(links, y, c)[1..]
      ensures y != c ==> On(links', c, y) == On(links, c, y) || On(links', c, y) == On(links, c, y) + [p]
    {
      LinkAfter(g, sys.net, Forward(c, k), y, c);
      LinkAfter(g, sys.net, Forward(c, k), c, y);
    }
    forall y: Id | IsHost(g, y) && p.dst == y
      ensures On(links', c, y) == On(links, c, y) + [p]
    {
      LinkAfter(g, sys.net, Forward(c, k), c, y);
      ForwardReaches(g, sys.net, c, k, y);
    }
  }

  // A packet p passed on from the link of x.
  lemma PassingOn(links: Links, links': Links, c: Id, xs: seq<Id>, x: Id, p: Packet, s: Id, h: Id)
    requires Distinct(xs) && x in xs && c !in xs
    requires On(links, x, c) != [] && p == On(links, x, c)[0] && On(links', x, c) == On(links, x, c)[1..]
    requires forall y :: y != x && y != c ==> On(links', y, c) == On(links, y, c)
    requires On(links', c, s) == On(links, c, s) || On(links', c, s) == On(links, c, s) + [p]
    requires On(links', c, h) == On(links, c, h) || On(links', c, h) == On(links, c, h) + [p]
    ensures |On(links', c, s)| + Uplinks(links', c, h, xs) + RequestsTo(On(links', c, h), h)
         <= |On(links, c, s)| + Uplinks(links, c, h, xs) + RequestsTo(On(links, c, h), h)
  {
    hide On, Worth;
    OneUplink(links, links', c, h, xs, x);
    FirstRequest(On(links, x, c), h);
    WorthsAdd(On(links, c, h), [p], h);
    WorthOne(p, h);
    PassedWorth(p, h);
  }

  lemma PassedWorth(p: Packet, h: Id)
    ensures Worth(p, h) == 1 + if IsRequestTo(p, h) then 1 else 0
  {
  }

  lemma ServeKeepsLoad(g: Topology, c: Id, sys: System, k: nat, s: Id, h: Id)
    requires SysInv(g, c, sys) && Possible(g, sys, Serve(c, k)) && k < |g.ports[c]| && h in sys.hosts && s in sys.hosts
    ensures Then(g, sys, Serve(c, k)).hosts == sys.hosts
    ensures Load(g, c, Then(g, sys, Serve(c, k)), s, h) <= Load(g, c, sys, s, h)
  {
    StarHost(g, c, sys, s);
    StarHost(g, c, sys, h);
    hide SysInv, StarInv, Then, On, Worths, Uplinks, RequestsTo, JobWorths;
    ServeMoves(g, c, sys, k);
    var x := g.ports[c][k];
    assert x in g.ports[c] && Distinct(g.ports[c]) && c !in g.ports[c];
    hide IsStar, WellFormed, Possible;
    PassingOn(sys.net.links, Then(g, sys, Serve(c, k)).net.links, c, g.ports[c], x, On(sys.net.links, x, c)[0], s, h);
  }

  lemma SwitchKeepsLoad(g: Topology, c: Id, l: SysLooped, s: Id, h: Id)
    requires SysInv(g, c, l.sys) && PlacesFit(g, l) && c in l.at && l.at[c] < |g.ports[c]|
    requires h in l.sys.hosts && s in l.sys.hosts
    ensures CanAct(g, l, Mine(c, NO_DISK)) && Acted(g, l, Mine(c, NO_DISK)).sys.hosts == l.sys.hosts
    ensures Load(g, c, Acted(g, l, Mine(c, NO_DISK)).sys, s, h) <= Load(g, c, l.sys, s, h)
  {
    hide SysInv, StarInv, IsStar;
    StarParts(g, c, l.sys);
    SwitchMoves(g, c, l, l.at[c]);
    hide PlacesFit, Possible, Then, ActStep, Load;
    if ActStep(g, l, Mine(c, NO_DISK)).Some? {
      ServeKeepsLoad(g, c, l.sys, l.at[c], s, h);
    }
  }

  // ---- Where an outstanding ping of h by s is, once its request has left s ----

  datatype Place =
    | Rising(reply: bool, i: nat)   // the request or the reply, on its link up to the switch
    | Asked(i: nat)                 // the request, on the link to h
    | Due(i: nat)                   // the reply job of h
    | Queued(i: nat)                // the reply, in the queue of h
    | Home(i: nat)                  // the reply, on the link to s

  function From(reply: bool, s: Id, h: Id): Id {
    if reply then h else s
  }

  predicate IsPing(p: Packet, reply: bool, s: Id, h: Id) {
    if reply then p.src == h && p.dst == s && p.ptype == PKT_PING_REPLY
    else p.src == s && p.dst == h && p.ptype == PKT_PING_REQ
  }

  predicate Underway(sys: System, c: Id, s: Id, h: Id, place: Place)
    requires h in sys.hosts
  {
    var jobs, links := sys.hosts[h].h.jobs, sys.net.links;
    match place
    case Rising(reply, i) => var q := On(links, From(reply, s, h), c); i < |q| && IsPing(q[i], reply, s, h)
    case Asked(i) => var q := On(links, c, h); i < |q| && IsPing(q[i], false, s, h)
    case Due(i) => i < |jobs| && jobs[i].PingSendReply? && jobs[i].packet.src == s
    case Queued(i) => i < |jobs| && jobs[i].SendPacket? && IsPing(jobs[i].packet, true, s, h)
    case Home(i) => var q := On(links, c, s); i < |q| && IsPing(q[i], true, s, h)
  }

  function Rank(place: Place): nat {
    match place
    case Rising(reply, _) => if reply then 1 else 5
    case Asked(_) => 4
    case Due(_) => 3
    case Queued(_) => 2
    case Home(_) => 0
  }

  function Index(xs: seq<Id>, x: Id): (k: nat)
    requires x in xs
    ensures k < |xs| && xs[k] == x
  {
    if xs[0] == x then 0 else 1 + Index(xs[1..], x)
  }

  // How far the process that moves it on is from doing so.
  function Turns(g: Topology, c: Id, l: SysLooped, s: Id, h: Id, place: Place): nat
    requires c in g.ports && h in g.ports && c in l.at && h in l.at && s in g.ports[c] && h in g.ports[c]
  {
    match place
    case Rising(reply, _) => Ahead(|g.ports[c]|, l.at[c], Index(g.ports[c], From(reply, s, h)))
    case Asked(_) => Ahead(3, l.at[h], 0)
    case Due(_) => Ahead(3, l.at[h], 1)
    case Queued(_) => Ahead(3, l.at[h], 1)
    case Home(_) => 0
  }

  // Where it is after an action of h.
  function AfterHost(l: SysLooped, c: Id, s: Id, h: Id, place: Place): Place
    requires h in l.sys.hosts && h in l.at && Underway(l.sys, c, s, h, place)
  {
    match place
    case Asked(i) => if l.at[h] != 0 then place else if i > 0 then Asked(i - 1) else Due(|l.sys.hosts[h].h.jobs|)
    case Due(i) => if l.at[h] != 1 then place else if i > 0 then Due(i - 1) else Queued(|l.sys.hosts[h].h.jobs| - 1)
    case Queued(i) =>
      if l.at[h] != 1 then place else if i > 0 then Queued(i - 1) else Rising(true, |On(l.sys.net.links, h, c)|)
    case _ => place
  }

  // What an action of host h does to its queue and its two links.
  ghost predicate HostTurn(l: SysLooped, l': SysLooped, c: Id, h: Id)
    requires h in l.sys.hosts && h in l'.sys.hosts && h in l.at
  {
    var jobs, jobs', q, q' := l.sys.hosts[h].h.jobs, l'.sys.hosts[h].h.jobs,
      On(l.sys.net.links, c, h), On(l'.sys.net.links, c, h);
    && q' == (if l.at[h] == 0 && q != [] then q[1..] else q)
    && (l.at[h] != 1 ==> jobs <= jobs')
    && (l.at[h] == 0 && q != [] && IsRequestTo(q[0], h) ==> jobs' == jobs + [PingSendReply(q[0])])
    && (l.at[h] == 1 && jobs != [] ==>
          && jobs[1..] <= jobs'
          && (jobs[0].PingSendReply? ==>
                jobs' == jobs[1..] + [SendPacket(Packet(h, jobs[0].packet.src, PKT_PING_REPLY, []))])
          && (jobs[0].SendPacket? ==> On(l'.sys.net.links, h, c) == On(l.sys.net.links, h, c) + [jobs[0].packet]))
  }

  lemma HostTurns(g: Topology, c: Id, l: SysLooped, h: Id)
    requires InLoop(g, c, l, h) && CanAct(g, l, Mine(h, NO_DISK))
    ensures h in l.at && h in Acted(g, l, Mine(h, NO_DISK)).sys.hosts
    ensures HostTurn(l, Acted(g, l, Mine(h, NO_DISK)), c, h)
  {
    HostMoves(g, c, l, h);
    OwnAct(g, c, l, h, NO_DISK);
    var log, q := l.sys.hosts[h], On(l.sys.net.links, c, h);
    assert log.h.id == h;
    hide InLoop, CanAct, Acted, HostLogs.After, On;
    if l.at[h] == 0 && q != [] {
      PollAppends(log, q[0]);
    } else if l.at[h] == 1 && log.h.jobs != [] {
      JobShifts(log);
    }
  }

  lemma HostPasses(l: SysLooped, l': SysLooped, c: Id, s: Id, h: Id, place: Place)
    requires h in l.sys.hosts && h in l'.sys.hosts && h in l.at
    requires HostTurn(l, l', c, h) && Underway(l.sys, c, s, h, place) && (place.Asked? || place.Due? || place.Queued?)
    ensures Underway(l'.sys, c, s, h, AfterHost(l, c, s, h, place))
  {
    hide On;
    var jobs := l.sys.hosts[h].h.jobs;
    assert forall k :: 0 < k < |jobs| ==> jobs[1..][k - 1] == jobs[k];
  }

  lemma PollAppends(l: Logged, p: Packet)
    ensures var jobs := HostLogs.After(l, TakePacket(p)).h.jobs;
      && l.h.jobs <= jobs && (p.dst == l.h.id && p.ptype == PKT_PING_REQ ==> jobs == l.h.jobs + [PingSendReply(p)])
  {
  }

  lemma JobShifts(l: Logged)
    requires l.h.jobs != []
    ensures l.h.jobs[1..] <= HostLogs.After(l, RunJob(NO_DISK)).h.jobs
    ensures l.h.jobs[0].PingSendReply? ==>
      HostLogs.After(l, RunJob(NO_DISK)).h.jobs
      == l.h.jobs[1..] + [SendPacket(Packet(l.h.id, l.h.jobs[0].packet.src, PKT_PING_REPLY, []))]
  {
    QueueShape(l, RunJob(NO_DISK));
  }

  // Where it is after an action of the switch.
  function AfterSwitch(g: Topology, c: Id, l: SysLooped, s: Id, h: Id, place: Place): Place
    requires h in l.sys.hosts && Underway(l.sys, c, s, h, place)
    requires c in g.ports && c in l.at && s in g.ports[c] && h in g.ports[c]
  {
    match place
    case Rising(reply, i) =>
      if l.at[c] != Index(g.ports[c], From(reply, s, h)) then place
      else if i > 0 then Rising(reply, i - 1)
      else if reply then Home(|On(l.sys.net.links, c, s)|) else Asked(|On(l.sys.net.links, c, h)|)
    case _ => place
  }

  lemma LinksPass(g: Topology, l: SysLooped, sys': System, c: Id, s: Id, h: Id, place: Place)
    requires h in l.sys.hosts && sys'.hosts == l.sys.hosts && IsHost(g, s) && IsHost(g, h) && s != c && h != c
    requires c in l.at && c in g.ports && l.at[c] < |g.ports[c]| && Distinct(g.ports[c])
    requires s in g.ports[c] && h in g.ports[c] && place.Rising? && Underway(l.sys, c, s, h, place)
    requires PassesOn(g, l.sys.net.links, sys'.net.links, c, g.ports[c][l.at[c]])
    ensures Underway(sys', c, s, h, AfterSwitch(g, c, l, s, h, place))
  {
    var from, x := From(place.reply, s, h), g.ports[c][l.at[c]];
    assert l.at[c] != Index(g.ports[c], from) ==> x != from;
    assert l.at[c] == Index(g.ports[c], from) ==> x == from;
    hide On, Distinct, Index;
  }

  lemma ServePasses(g: Topology, c: Id, l: SysLooped, s: Id, h: Id, place: Place, sys': System)
    requires SysInv(g, c, l.sys) && c in l.at && l.at[c] < |g.ports[c]| && s in l.sys.hosts && h in l.sys.hosts
    requires Possible(g, l.sys, Serve(c, l.at[c])) && sys' == Then(g, l.sys, Serve(c, l.at[c]))
    requires place.Rising? && Underway(l.sys, c, s, h, place) && s in g.ports[c] && h in g.ports[c]
    ensures h in sys'.hosts && Underway(sys', c, s, h, AfterSwitch(g, c, l, s, h, place))
  {
    StarHost(g, c, l.sys, s);
    StarHost(g, c, l.sys, h);
    assert Distinct(g.ports[c]);
    hide SysInv, StarInv, Then, Possible, On, IsStar, WellFormed, Distinct, Underway, IsHost;
    ServeMoves(g, c, l.sys, l.at[c]);
    LinksPass(g, l, sys', c, s, h, place);
  }

  lemma SwitchPasses(g: Topology, c: Id, l: SysLooped, s: Id, h: Id, place: Place)
    requires SysInv(g, c, l.sys) && c in l.at && l.at[c] < |g.ports[c]| && s in l.sys.hosts && h in l.sys.hosts
    requires PlacesFit(g, l) && place.Rising? && Underway(l.sys, c, s, h, place) && s in g.ports[c] && h in g.ports[c]
    ensures CanAct(g, l, Mine(c, NO_DISK)) && h in Acted(g, l, Mine(c, NO_DISK)).sys.hosts
    ensures Underway(Acted(g, l, Mine(c, NO_DISK)).sys, c, s, h, AfterSwitch(g, c, l, s, h, place))
  {
    hide SysInv, StarInv, IsStar, PlacesFit, Possible, Then, ActStep;
    StarParts(g, c, l.sys);
    SwitchMoves(g, c, l, l.at[c]);
    if ActStep(g, l, Mine(c, NO_DISK)).Some? {
      ServePasses(g, c, l, s, h, place, Acted(g, l, Mine(c, NO_DISK)).sys);
    }
  }

  // ---- Home, while s stands still ----

  ghost predicate StandsStill(l: SysLooped, l': SysLooped, s: Id) {
    && s in l.at && s in l'.at && l'.at[s] == l.at[s]
    && s in l.sys.hosts && s in l'.sys.hosts && l'.sys.hosts[s] == l.sys.hosts[s]
  }

  // Two hosts of the star.
  predicate TwoAtSwitch(g: Topology, c: Id, l: SysLooped, s: Id, h: Id) {
    && s != h && c != s && c != h && s in l.sys.hosts && h in l.sys.hosts && s in l.at && h in l.at && c in l.at
    && c in g.ports && s in g.ports && h in g.ports && s in g.ports[c] && h in g.ports[c]
  }

  ghost predicate Nearer(g: Topology, c: Id, l: SysLooped, l': SysLooped, s: Id, h: Id, place: Place, next: Place)
    requires TwoAtSwitch(g, c, l, s, h) && TwoAtSwitch(g, c, l', s, h)
  {
    || Rank(next) < Rank(place) || (Rank(next) == Rank(place) && next.i < place.i)
    || (Rank(next) == Rank(place) && next.i == place.i && Turns(g, c, l', s, h, next) < Turns(g, c, l, s, h, place))
  }

  // An action of c or h is a step closer to home.
  ghost predicate OneCloser(g: Topology, c: Id, l: SysLooped, l': SysLooped, s: Id, h: Id, place: Place, next: Place) {
    && TwoAtSwitch(g, c, l, s, h) && TwoAtSwitch(g, c, l', s, h) && StandsStill(l, l', s) && LeadsTo(g, s, l, l')
    && Here(g, c, l', s) && Underway(l'.sys, c, s, h, next) && Load(g, c, l'.sys, s, h) <= Load(g, c, l.sys, s, h)
    && Nearer(g, c, l, l', s, h, place, next)
  }

  lemma TwoHosts(g: Topology, c: Id, l: SysLooped, s: Id, h: Id)
    requires Here(g, c, l, s) && h in l.sys.hosts && h != s
    ensures TwoAtSwitch(g, c, l, s, h) && Here(g, c, l, h) && InLoop(g, c, l, s) && InLoop(g, c, l, h)
    ensures l.at[c] < |g.ports[c]|
  {
    HereInLoop(g, c, l, s);
    HereInLoop(g, c, l, h);
    StarNeighbours(g, c, s);
    StarNeighbours(g, c, h);
  }

  lemma HostNearer(g: Topology, c: Id, l: SysLooped, l': SysLooped, s: Id, h: Id, place: Place)
    requires TwoAtSwitch(g, c, l, s, h) && TwoAtSwitch(g, c, l', s, h) && Underway(l.sys, c, s, h, place) && l.at[h] < 3
    requires l'.at == l.at[h := if l.at[h] < 2 then l.at[h] + 1 else 0] && (place.Asked? || place.Due? || place.Queued?)
    ensures Nearer(g, c, l, l', s, h, place, AfterHost(l, c, s, h, place))
  {
  }

  lemma HostFrame(g: Topology, c: Id, l: SysLooped, s: Id, h: Id)
    requires Here(g, c, l, s) && h in l.sys.hosts && h != s
    ensures CanAct(g, l, Mine(h, NO_DISK)) && h in l.at && l.at[h] < 3 && c in g.ports && InLoop(g, c, l, h)
    ensures var l' := Acted(g, l, Mine(h, NO_DISK));
      && Here(g, c, l', s) && TwoAtSwitch(g, c, l, s, h) && TwoAtSwitch(g, c, l', s, h) && StandsStill(l, l', s)
      && LeadsTo(g, s, l, l') && l'.at == l.at[h := if l.at[h] < 2 then l.at[h] + 1 else 0]
  {
    TwoHosts(g, c, l, s, h);
    ThreePlaces(g, c, l, h);
    hide SysInv, PlacesFit, IsStar, CanAct, Acted, LeadsTo, HostLogs.After;
    OwnCan(g, c, l, h, NO_DISK);
    HereStays(g, c, l, s, Mine(h, NO_DISK));
    var l' := Acted(g, l, Mine(h, NO_DISK));
    OwnAct(g, c, l, h, NO_DISK);
    HostMoves(g, c, l, h);
    LeadsOnce(g, s, l, Mine(h, NO_DISK));
    TwoHosts(g, c, l', s, h);
  }

  lemma HostCloser(g: Topology, c: Id, l: SysLooped, s: Id, h: Id, place: Place) returns (l': SysLooped, next: Place)
    requires h in l.sys.hosts && Here(g, c, l, s) && h != s && Underway(l.sys, c, s, h, place)
    requires place.Asked? || place.Due? || place.Queued?
    ensures OneCloser(g, c, l, l', s, h, place, next)
  {
    HostFrame(g, c, l, s, h);
    hide Here, CanAct, Acted, InLoop, LeadsTo, Load, HostTurn, Nearer, Underway, AfterHost, StandsStill, TwoAtSwitch;
    l' := Acted(g, l, Mine(h, NO_DISK));
    HostTurns(g, c, l, h);
    HostPasses(l, l', c, s, h, place);
    HostKeepsLoad(g, c, l, s, h);
    HostNearer(g, c, l, l', s, h, place);
    next := AfterHost(l, c, s, h, place);
  }

  lemma SwitchNearer(g: Topology, c: Id, l: SysLooped, l': SysLooped, s: Id, h: Id, place: Place)
    requires TwoAtSwitch(g, c, l, s, h) && TwoAtSwitch(g, c, l', s, h)
    requires Underway(l.sys, c, s, h, place) && place.Rising?
    requires l.at[c] < |g.ports[c]| && l'.at == l.at[c := if l.at[c] + 1 < |g.ports[c]| then l.at[c] + 1 else 0]
    ensures Nearer(g, c, l, l', s, h, place, AfterSwitch(g, c, l, s, h, place))
  {
  }

  lemma SwitchPlaces(g: Topology, c: Id, l: SysLooped)
    requires IsStar(g, c) && c in l.at && l.at[c] < |g.ports[c]| && CanAct(g, l, Mine(c, NO_DISK))
    ensures Acted(g, l, Mine(c, NO_DISK)).at == l.at[c := if l.at[c] + 1 < |g.ports[c]| then l.at[c] + 1 else 0]
  {
    assert c in g.switches;
    hide IsStar, CanAct, ActStep, Possible, Then;
  }

  lemma SwitchActs(g: Topology, c: Id, l: SysLooped, s: Id, h: Id)
    requires Here(g, c, l, s) && h in l.sys.hosts && c in l.at && c in g.ports && l.at[c] < |g.ports[c]|
    ensures CanAct(g, l, Mine(c, NO_DISK)) && Acted(g, l, Mine(c, NO_DISK)).sys.hosts == l.sys.hosts
    ensures Acted(g, l, Mine(c, NO_DISK)).at == l.at[c := if l.at[c] + 1 < |g.ports[c]| then l.at[c] + 1 else 0]
  {
    assert IsStar(g, c);
    hide SysInv, PlacesFit, CanAct, Acted, IsStar, Load;
    SwitchKeepsLoad(g, c, l, s, h);
    SwitchPlaces(g, c, l);
  }

  lemma Still(g: Topology, c: Id, l: SysLooped, l': SysLooped, s: Id, h: Id)
    requires TwoAtSwitch(g, c, l, s, h) && l'.sys.hosts == l.sys.hosts && c in l.at && l'.at.Keys == l.at.Keys
    requires forall x :: x in l.at && x != c ==> l'.at[x] == l.at[x]
    ensures StandsStill(l, l', s)
  {
  }

  lemma SwitchFrame(g: Topology, c: Id, l: SysLooped, s: Id, h: Id)
    requires Here(g, c, l, s) && h in l.sys.hosts && h != s
    ensures CanAct(g, l, Mine(c, NO_DISK)) && TwoAtSwitch(g, c, l, s, h) && l.at[c] < |g.ports[c]|
    ensures var l' := Acted(g, l, Mine(c, NO_DISK));
      && Here(g, c, l', s) && TwoAtSwitch(g, c, l', s, h) && StandsStill(l, l', s) && LeadsTo(g, s, l, l')
      && l'.at == l.at[c := if l.at[c] + 1 < |g.ports[c]| then l.at[c] + 1 else 0]
  {
    hide Here, CanAct, Acted, LeadsTo, StandsStill, InLoop;
    TwoHosts(g, c, l, s, h);
    SwitchActs(g, c, l, s, h);
    HereStays(g, c, l, s, Mine(c, NO_DISK));
    LeadsOnce(g, s, l, Mine(c, NO_DISK));
    var l' := Acted(g, l, Mine(c, NO_DISK));
    Still(g, c, l, l', s, h);
    TwoHosts(g, c, l', s, h);
  }

  lemma SwitchCloser(g: Topology, c: Id, l: SysLooped, s: Id, h: Id, place: Place) returns (l': SysLooped, next: Place)
    requires h in l.sys.hosts && Here(g, c, l, s) && h != s && Underway(l.sys, c, s, h, place) && place.Rising?
    ensures OneCloser(g, c, l, l', s, h, place, next)
  {
    SwitchFrame(g, c, l, s, h);
    assert SysInv(g, c, l.sys) && PlacesFit(g, l) && s in l.sys.hosts && s in g.ports[c] && h in g.ports[c];
    hide SysInv, PlacesFit, Here, CanAct, Acted, LeadsTo, Load, Nearer, Underway, AfterSwitch, StandsStill;
    l' := Acted(g, l, Mine(c, NO_DISK));
    SwitchPasses(g, c, l, s, h, place);
    SwitchKeepsLoad(g, c, l, s, h);
    SwitchNearer(g, c, l, l', s, h, place);
    next := AfterSwitch(g, c, l, s, h, place);
  }

  // The reply is brought onto the link to s.
  lemma BringHome(g: Topology, c: Id, l: SysLooped, s: Id, h: Id, place: Place) returns (l': SysLooped, i: nat)
    requires h in l.sys.hosts && Here(g, c, l, s) && h != s && Underway(l.sys, c, s, h, place)
    requires TwoAtSwitch(g, c, l, s, h)
    ensures LeadsTo(g, s, l, l') && Here(g, c, l', s) && StandsStill(l, l', s) && h in l'.sys.hosts
    ensures Underway(l'.sys, c, s, h, Home(i)) && c in g.ports && Load(g, c, l'.sys, s, h) <= Load(g, c, l.sys, s, h)
    decreases Rank(place), place.i, Turns(g, c, l, s, h, place)
  {
    hide Here, LeadsTo, Load, Underway, Turns, Rank;
    if place.Home? {
      LeadsNowhere(g, s, l);
      StillStands(g, c, l, s);
      l', i := l, place.i;
    } else {
      var l1, next;
      if place.Rising? {
        l1, next := SwitchCloser(g, c, l, s, h, place);
      } else {
        l1, next := HostCloser(g, c, l, s, h, place);
      }
      l', i := BringHome(g, c, l1, s, h, next);
      LeadsOn(g, s, l, l1, l');
    }
  }

  lemma StillStands(g: Topology, c: Id, l: SysLooped, s: Id)
    requires Here(g, c, l, s)
    ensures StandsStill(l, l, s)
  {
    HereInLoop(g, c, l, s);
  }

  // ---- A host that is not waiting has no request left to send ----

  predicate IsRequestJob(j: Hosts.Job) {
    j.SendPacket? && j.packet.ptype == PKT_PING_REQ
  }

  // Right behind a request to be sent there is the job that waits for its reply.
  ghost predicate RequestsAwaited(jobs: seq<Hosts.Job>) {
    forall k :: 0 <= k < |jobs| && IsRequestJob(jobs[k]) ==> k + 1 < |jobs| && jobs[k + 1].PingWait?
  }

  lemma AwaitedAdd(a: seq<Hosts.Job>, b: seq<Hosts.Job>)
    requires RequestsAwaited(a) && RequestsAwaited(b)
    ensures RequestsAwaited(a + b) && (a != [] ==> RequestsAwaited(a[1..]))
  {
    var all := a + b;
    forall k | 0 <= k < |all| && IsRequestJob(all[k])
      ensures k + 1 < |all| && all[k + 1].PingWait?
    {
      if k < |a| {
        assert IsRequestJob(a[k]);
      } else {
        assert IsRequestJob(b[k - |a|]);
      }
    }
    forall k | a != [] && 0 <= k < |a[1..]| && IsRequestJob(a[1..][k])
      ensures k + 1 < |a[1..]| && a[1..][k + 1].PingWait?
    {
      assert IsRequestJob(a[k + 1]);
    }
  }

  lemma AddedAwaited(l: Logged, st: HostStep)
    ensures RequestsAwaited(Added(l, st))
  {
    if st.RunJob? && l.h.jobs != [] && l.h.jobs[0].FileSend? {
      var job := l.h.jobs[0];
      var content := Source(l.h.dir, job.name, st.disk);
      if content.Some? {
        BlockSource(l.h.id, ToChar(job.dst), job.name, content.value);
      }
    }
  }

  lemma StaysAwaited(l: Logged, st: HostStep)
    requires RequestsAwaited(l.h.jobs)
    ensures RequestsAwaited(HostLogs.After(l, st).h.jobs)
  {
    QueueShape(l, st);
    AddedAwaited(l, st);
    AwaitedAdd(l.h.jobs, []);
    hide HostLogs.After, Added, RequestsAwaited;
    AwaitedAdd(Kept(l, st), Added(l, st));
  }

  ghost predicate AllAwaited(sys: System) {
    forall x: Id :: x in sys.hosts ==> RequestsAwaited(sys.hosts[x].h.jobs)
  }

  lemma StepAwaited(g: Topology, sys: System, step: SysStep)
    requires Possible(g, sys, step) && AllAwaited(sys)
    ensures AllAwaited(Then(g, sys, step))
  {
    SameHosts(g, sys, step);
    hide Possible, Then, RequestsAwaited, HostPart, HostLogs.After;
    forall x: Id | x in Then(g, sys, step).hosts
      ensures RequestsAwaited(Then(g, sys, step).hosts[x].h.jobs)
    {
      StepOfHost(g, sys, step, x);
      if !step.Serve? && step.host == x {
        StaysAwaited(sys.hosts[x], HostPart(g, sys, step));
      }
    }
  }

  lemma {:induction false} RunAwaited(g: Topology, states: seq<System>, steps: seq<SysStep>, i: nat)
    requires IsSysRun(g, states, steps) && i <= |steps|
    ensures AllAwaited(states[i])
  {
    hide Possible, Then;
    if i > 0 {
      RunAwaited(g, states, steps, i - 1);
      StepAwaited(g, states[i - 1], steps[i - 1]);
    }
  }

  lemma {:induction false} PendingMember(jobs: seq<Hosts.Job>, src: Byte, dst: Byte, ptype: Byte) returns (i: nat)
    requires Count(Pending(jobs, ToSend), src, dst, ptype) > 0
    ensures i < |jobs| && jobs[i].SendPacket?
    ensures jobs[i].packet.src == src && jobs[i].packet.dst == dst && jobs[i].packet.ptype == ptype
  {
    CountConcat(ToSend(jobs[0]), Pending(jobs[1..], ToSend), src, dst, ptype);
    if Count(ToSend(jobs[0]), src, dst, ptype) > 0 {
      i := 0;
    } else {
      var k := PendingMember(jobs[1..], src, dst, ptype);
      i := k + 1;
    }
  }

  lemma NothingToAsk(g: Topology, sys: System, s: Id, h: Id)
    requires Occurs(g, sys) && s in sys.hosts && WaitJobs(sys.hosts[s].h.jobs) == 0
    ensures Count(Pending(sys.hosts[s].h.jobs, ToSend), s, h, PKT_PING_REQ) == 0
  {
    var states, steps :| IsSysRun(g, states, steps) && states[|steps|] == sys;
    hide IsSysRun, WaitJobs, Pending, Count;
    RunAwaited(g, states, steps, |steps|);
    var jobs := sys.hosts[s].h.jobs;
    if Count(Pending(jobs, ToSend), s, h, PKT_PING_REQ) > 0 {
      var i := PendingMember(jobs, s, h, PKT_PING_REQ);
      assert IsRequestJob(jobs[i]);
      WaitCounted(jobs, i + 1);
    }
  }

  // ---- Finding the outstanding ping ----

  lemma {:induction false} DueMember(jobs: seq<Hosts.Job>, s: Byte) returns (i: nat)
    requires ReplyJobs(jobs, s) > 0
    ensures i < |jobs| && jobs[i].PingSendReply? && jobs[i].packet.src == s
  {
    if jobs[0].PingSendReply? && jobs[0].packet.src == s {
      i := 0;
    } else {
      var k := DueMember(jobs[1..], s);
      i := k + 1;
    }
  }

  // It is in one of the places that the conservation of pings counts.
  lemma FindPing(sys: System, c: Id, s: Id, h: Id) returns (place: Place)
    requires h in sys.hosts
    requires Count(On(sys.net.links, s, c), s, h, PKT_PING_REQ) + Count(On(sys.net.links, c, h), s, h, PKT_PING_REQ)
             + ReplyJobs(sys.hosts[h].h.jobs, s) + Count(Pending(sys.hosts[h].h.jobs, ToSend), h, s, PKT_PING_REPLY)
             + Count(On(sys.net.links, h, c), h, s, PKT_PING_REPLY)
             + Count(On(sys.net.links, c, s), h, s, PKT_PING_REPLY) > 0
    ensures Underway(sys, c, s, h, place)
  {
    hide Count, Pending, On, ReplyJobs;
    var jobs, links, i := sys.hosts[h].h.jobs, sys.net.links, 0;
    if Count(On(links, s, c), s, h, PKT_PING_REQ) > 0 {
      i := CountedMember(On(links, s, c), s, h, PKT_PING_REQ);
      place := Rising(false, i);
    } else if Count(On(links, c, h), s, h, PKT_PING_REQ) > 0 {
      i := CountedMember(On(links, c, h), s, h, PKT_PING_REQ);
      place := Asked(i);
    } else if ReplyJobs(jobs, s) > 0 {
      i := DueMember(jobs, s);
      place := Due(i);
    } else if Count(Pending(jobs, ToSend), h, s, PKT_PING_REPLY) > 0 {
      i := PendingMember(jobs, h, s, PKT_PING_REPLY);
      place := Queued(i);
    } else if Count(On(links, h, c), h, s, PKT_PING_REPLY) > 0 {
      i := CountedMember(On(links, h, c), h, s, PKT_PING_REPLY);
      place := Rising(true, i);
    } else {
      i := CountedMember(On(links, c, s), h, s, PKT_PING_REPLY);
      place := Home(i);
    }
  }

  lemma OutstandingIsUnderway(g: Topology, c: Id, sys: System, s: Id, h: Id) returns (place: Place)
    requires IsStar(g, c) && Occurs(g, sys) && IsHost(g, s) && IsHost(g, h) && s in sys.hosts
    requires WaitJobs(sys.hosts[s].h.jobs) == 0 && !Answered(sys.hosts[s], h)
    ensures h in sys.hosts && Underway(sys, c, s, h, place)
  {
    hide IsStar, Occurs, IsHost, Requests, Replies, Underway, Count, Pending, On, ReplyJobs, WaitJobs;
    OccursInv(g, c, sys);
    NothingToAsk(g, sys, s, h);
    hide SysInv;
    PingBalance(g, c, sys, s, h);
    place := FindPing(sys, c, s, h);
  }

  // ---- The old reply comes home in time ----

  lemma FirstReplyUpTo(q: seq<Packet>, s: int, i: nat) returns (k: nat)
    requires i < |q| && IsReply(q[i], s)
    ensures k <= i && FirstReply(q, s, k)
  {
    k := 0;
    while k < i && !IsReply(q[k], s)
      invariant k <= i && NoReply(q[..k], s)
    {
      assert q[..k + 1] == q[..k] + [q[k]];
      k := k + 1;
    }
  }

  // Host s is just going to poll, with m jobs, the request to d and its waiting job in its queue.
  ghost predicate Asking(l: SysLooped, s: Id, d: Id, u0: nat, m: nat) {
    && s in l.sys.hosts && s in l.at && l.at[s] == 0 && l.sys.hosts[s].h.id == s && !l.sys.hosts[s].h.pingSeen
    && Requests(l.sys.hosts[s], d) == u0 + 1
    && m + 1 < |l.sys.hosts[s].h.jobs| && l.sys.hosts[s].h.jobs[m] == SendPacket(Request(s, d))
    && l.sys.hosts[s].h.jobs[m + 1] == PingWait(10)
  }

  // Then a reply that is near enough on its link misleads.
  lemma NearEnough(g: Topology, c: Id, l: SysLooped, s: Id, d: Id, u0: nat, m: nat, i: nat)
    requires Asking(l, s, d, u0, m) && Here(g, c, l, s) && i <= m + 10
    requires i < |On(l.sys.net.links, c, s)| && IsReply(On(l.sys.net.links, c, s)[i], s)
    ensures Lies(g, l, s, d)
  {
    hide Here, Behind, Requests, Lies, FirstReply, NoReply, On, IsReply;
    NotSentYet(g, c, l, s, d, m, u0);
    var q := On(l.sys.net.links, c, s);
    var k := FirstReplyUpTo(q, s, i);
    InFront(q, s, k);
    var disks := seq(k, _ => NO_DISK);
    hide Outlasts, Round;
    WaitLasts(l.sys.hosts[s].h, q[..k], disks, m + 1, 10);
    OutlastingLies(g, c, l, s, d, u0, k, disks);
  }

  lemma LoadCoversLink(g: Topology, c: Id, sys: System, s: Id, h: Id)
    requires c in g.ports && h in sys.hosts
    ensures |On(sys.net.links, c, s)| <= Load(g, c, sys, s, h)
  {
  }

  lemma HomeIsReply(sys: System, c: Id, s: Id, h: Id, i: nat)
    requires h in sys.hosts && Underway(sys, c, s, h, Home(i))
    ensures i < |On(sys.net.links, c, s)| && IsReply(On(sys.net.links, c, s)[i], s)
  {
  }

  lemma MisleadsFrom(g: Topology, c: Id, l: SysLooped, s: Id, d: Id, h: Id, u0: nat, m: nat, place: Place)
    requires TwoAtSwitch(g, c, l, s, h) && Asking(l, s, d, u0, m) && Underway(l.sys, c, s, h, place)
    requires Load(g, c, l.sys, s, h) <= m + 11
    requires Here(g, c, l, s)
    ensures Lies(g, l, s, d)
  {
    hide Here, Lies, LeadsTo, Underway, Load, Requests, IsReply, On;
    var l', i := BringHome(g, c, l, s, h, place);
    HomeIsReply(l'.sys, c, s, h, i);
    LoadCoversLink(g, c, l'.sys, s, h);
    NearEnough(g, c, l', s, d, u0, m, i);
    LiesLater(g, l, l', s, d);
  }

  lemma AskedAndHere(g: Topology, c: Id, l0: SysLooped, s: Id, d: Id, l: SysLooped, h: Id)
    requires IsStar(g, c) && Occurs(g, l0.sys) && PlacesFit(g, l0) && Asks(g, l0, s, d, l) && h in l.sys.hosts && h != s
    ensures s in l0.sys.hosts && h in l0.sys.hosts && l0.sys.hosts[h] == l.sys.hosts[h] && l0.sys.net == l.sys.net
    ensures Asking(l, s, d, Requests(l0.sys.hosts[s], d), |l0.sys.hosts[s].h.jobs|) && Here(g, c, l, s)
    ensures TwoAtSwitch(g, c, l, s, h) && IsHost(g, s) && IsHost(g, h)
  {
    hide SysInv, IsStar, Occurs, PlacesFit, Asks, Here, Behind, Requests, HostLogs.After;
    OccursInv(g, c, l0.sys);
    AskedHost(g, c, l0, s, d, l);
    JustAsked(g, c, l0, s, d, l);
    TwoHosts(g, c, l, s, h);
  }

  // An older ping, of another host h, that has not been answered: if no more packets are about than s
  // has jobs queued and 11 more (counting what waits for s, what is on its way to the switch, and what h
  // is going to send), "Ping acked!" can be wrong.
  lemma OldPingMisleads(g: Topology, c: Id, l0: SysLooped, s: Id, d: Id, l: SysLooped, h: Id)
    requires IsStar(g, c) && Occurs(g, l0.sys) && PlacesFit(g, l0) && Asks(g, l0, s, d, l)
    requires s in l0.sys.hosts && h in l0.sys.hosts && h in l.sys.hosts && h != s && c in g.ports
    requires WaitJobs(l0.sys.hosts[s].h.jobs) == 0 && !Answered(l0.sys.hosts[s], h)
    requires Load(g, c, l.sys, s, h) <= |l0.sys.hosts[s].h.jobs| + 11
    ensures !LoopTruthful(g, l, s, d)
  {
    hide IsStar, Occurs, PlacesFit, Asks, Asking, Here, LoopTruthful, Lies, Underway, Load, Answered, Requests,
      WaitJobs, TwoAtSwitch, IsHost;
    AskedAndHere(g, c, l0, s, d, l, h);
    var place := OutstandingIsUnderway(g, c, l0.sys, s, h);
    StillUnderway(l0.sys, l.sys, c, s, h, place);
    MisleadsFrom(g, c, l, s, d, h, Requests(l0.sys.hosts[s], d), |l0.sys.hosts[s].h.jobs|, place);
    LiesMeansNotTruthful(g, l, s, d);
  }

  lemma StillUnderway(sys: System, sys': System, c: Id, s: Id, h: Id, place: Place)
    requires h in sys.hosts && h in sys'.hosts && sys'.net == sys.net && sys'.hosts[h] == sys.hosts[h]
    requires Underway(sys, c, s, h, place)
    ensures Underway(sys', c, s, h, place)
  {
  }
}
