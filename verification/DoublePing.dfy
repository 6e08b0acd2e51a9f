// One ping request, delivered twice: a run of the two-switch line from its start, every process keeping to
// its loop.
module DoublePing {
  import opened Types
  import opened Commands
  import opened Hosts
  import opened HostLogs
  import opened Switches
  import opened Trees
  import opened Network
  import opened Delivery
  import opened Copies
  import opened Flooding
  import opened Duplicates
  import opened Simulator
  import opened Loops
  import opened SysLoops
  import opened AtMostOnce
  import opened FairRuns

  // ---- What processes in loop order come to occurs ----

  ghost function StatesAlong(g: Topology, sys: System, steps: seq<SysStep>): (states: seq<System>)
    requires CanGo(g, sys, steps)
    ensures |states| == |steps| + 1 && states[0] == sys && states[|steps|] == GoOn(g, sys, steps)
    decreases |steps|
  {
    if steps == [] then [sys] else [sys] + StatesAlong(g, Then(g, sys, steps[0]), steps[1..])
  }

  lemma {:induction false} StatesStep(g: Topology, sys: System, steps: seq<SysStep>, i: nat)
    requires CanGo(g, sys, steps) && i < |steps|
    ensures var states := StatesAlong(g, sys, steps);
      Possible(g, states[i], steps[i]) && states[i + 1] == Then(g, states[i], steps[i])
    decreases |steps|
  {
    hide Possible, Then;
    var rest := StatesAlong(g, Then(g, sys, steps[0]), steps[1..]);
    assert StatesAlong(g, sys, steps) == [sys] + rest;
    if i > 0 {
      StatesStep(g, Then(g, sys, steps[0]), steps[1..], i - 1);
      assert steps[i] == steps[1..][i - 1];
    }
  }

  lemma LoopsOccur(g: Topology, l: SysLooped, acts: seq<Action>)
    requires SysLoopsStart(g, l) && CanActAll(g, l, acts)
    ensures Occurs(g, ActedAll(g, l, acts).sys) && PlacesFit(g, ActedAll(g, l, acts))
  {
    ActsAreSteps(g, l, acts);
    var steps := StepsOfActs(g, l, acts);
    var states := StatesAlong(g, l.sys, steps);
    PlacesFitAlong(g, l, acts);
    hide Possible, Then, CanActAll, ActedAll, StepsOfActs, CanGo, GoOn, StatesAlong, PlacesFit;
    forall i | 0 <= i < |steps|
      ensures Possible(g, states[i], steps[i]) && states[i + 1] == Then(g, states[i], steps[i])
    {
      StatesStep(g, l.sys, steps, i);
    }
    assert IsSysRun(g, states, steps);
  }

  lemma {:induction false} PlacesFitAlong(g: Topology, l: SysLooped, acts: seq<Action>)
    requires PlacesFit(g, l) && CanActAll(g, l, acts)
    ensures PlacesFit(g, ActedAll(g, l, acts))
    decreases |acts|
  {
    hide CanAct, Acted, PlacesFit;
    if acts != [] {
      PlacesStay(g, l, acts[0]);
      PlacesFitAlong(g, Acted(g, l, acts[0]), acts[1..]);
    }
  }

  // There is a start for every network.
  lemma SomeLoopStart(g: Topology) returns (l: SysLooped)
    requires g.switches <= g.ports.Keys
    ensures SysLoopsStart(g, l)
  {
    var sys := SomeStart(g);
    l := SysLooped(sys, map x: Id | x in g.ports :: LoopTop(g, x));
  }

  // ---- The run ----

  const REQUEST := Packet(0, 3, 0, [])

  lemma LineHasLeaves()
    ensures LeafHosts(LINE) && IsHost(LINE, 0) && IsHost(LINE, 3)
  {
    forall h: Id | IsHost(LINE, h)
      ensures IsLeaf(LINE, h)
    {
      assert h == 0 || h == 3;
    }
  }

  // Nothing on any link, nothing in any table, host 0 with these jobs and everybody at these places.
  ghost predicate Quiescent(l: SysLooped, jobs: seq<Hosts.Job>, at0: nat) {
    && (forall a, b :: On(l.sys.net.links, a, b) == [])
    && (forall u, s :: !Knows(l.sys.net, u, s)) && l.sys.net.tables.Keys == {1, 2}
    && 0 in l.sys.hosts && l.sys.hosts[0].h.id == 0 && l.sys.hosts[0].h.jobs == jobs
    && l.at.Keys == {0, 1, 2, 3} && l.at[0] == at0 && l.at[1] == 0
  }

  lemma StartsQuiescent(l: SysLooped)
    requires SysLoopsStart(LINE, l)
    ensures Quiescent(l, [], 2)
  {
    assert IsHost(LINE, 0) && 0 in l.sys.hosts;
    assert 0 in LINE.ports && 1 in LINE.ports;
  }

  // Host 0 finds the command to ping host 3.
  lemma FindsCommand(l: SysLooped)
    requires Quiescent(l, [], 2)
    ensures var a := Action(0, Some(Ping(3)), NO_DISK);
      CanAct(LINE, l, a) && Quiescent(Acted(LINE, l, a), [SendPacket(REQUEST), PingWait(10)], 0)
  {
    assert LINE.ports[0] == [1];
  }

  // Its port is empty.
  lemma FindsNothing(l: SysLooped)
    requires Quiescent(l, [SendPacket(REQUEST), PingWait(10)], 0)
    ensures var a := Mine(0, NO_DISK);
      CanAct(LINE, l, a) && Quiescent(Acted(LINE, l, a), [SendPacket(REQUEST), PingWait(10)], 1)
  {
    assert LINE.ports[0] == [1];
  }

  // The request is the only packet anywhere, and switch 1 is about to read it.
  ghost predicate AtFirstSwitch(l: SysLooped) {
    && (forall a, b :: On(l.sys.net.links, a, b) == if a == 0 && b == 1 then [REQUEST] else [])
    && (forall u, s :: !Knows(l.sys.net, u, s)) && l.sys.net.tables.Keys == {1, 2}
    && l.at.Keys == {0, 1, 2, 3} && l.at[1] == 0
  }

  lemma SendLinks(n: Net, a: Id, b: Id)
    requires On(n.links, a, b) == []
    ensures Enabled(LINE, n, Send(0, REQUEST))
    ensures On(Next(LINE, n, Send(0, REQUEST)).links, a, b) == if a == 0 && b == 1 then [REQUEST] else []
  {
    LineIsWellFormed();
    hide WellFormed;
    LinkAfter(LINE, n, Send(0, REQUEST), a, b);
  }

  // Host 0 sends it.
  lemma SendsRequest(l: SysLooped)
    requires Quiescent(l, [SendPacket(REQUEST), PingWait(10)], 1)
    ensures CanAct(LINE, l, Mine(0, NO_DISK)) && AtFirstSwitch(Acted(LINE, l, Mine(0, NO_DISK)))
  {
    assert LINE.ports[0] == [1];
    var n, n' := l.sys.net, Acted(LINE, l, Mine(0, NO_DISK)).sys.net;
    assert n' == Next(LINE, n, Send(0, REQUEST));
    OnlyRequest(n);
    hide HostLogs.After, On, Next, Knows;
  }

  lemma OnlyRequest(n: Net)
    requires (forall a, b :: On(n.links, a, b) == []) && forall u, s :: !Knows(n, u, s)
    ensures Enabled(LINE, n, Send(0, REQUEST))
    ensures var n' := Next(LINE, n, Send(0, REQUEST));
      && n'.tables == n.tables && (forall u, s :: !Knows(n', u, s))
      && forall a, b :: On(n'.links, a, b) == if a == 0 && b == 1 then [REQUEST] else []
  {
    var n' := Next(LINE, n, Send(0, REQUEST));
    forall u, s
      ensures !Knows(n', u, s)
    {
      assert !Knows(n, u, s);
    }
    hide On, Next, Knows;
    forall a, b
      ensures On(n'.links, a, b) == if a == 0 && b == 1 then [REQUEST] else []
    {
      SendLinks(n, a, b);
    }
  }

  lemma ServeLinks(n: Net, a: Id, b: Id)
    requires n.tables.Keys == {1, 2} && !Knows(n, 1, 0) && !Knows(n, 1, 3) && On(n.links, 0, 1) == [REQUEST]
    ensures Enabled(LINE, n, Forward(1, 0))
    ensures forall q :: q in On(Next(LINE, n, Forward(1, 0)).links, a, b) ==> q in On(n.links, a, b) || q == REQUEST
    ensures !Knows(Next(LINE, n, Forward(1, 0)), 1, 3)
    ensures !Knows(n, 2, 3) ==> !Knows(Next(LINE, n, Forward(1, 0)), 2, 3)
  {
    LineIsWellFormed();
    assert LINE.ports[1] == [0, 2];
    EntryAfter(LINE, n, Forward(1, 0), 1, 3);
    EntryAfter(LINE, n, Forward(1, 0), 2, 3);
    hide WellFormed;
    LinkAfter(LINE, n, Forward(1, 0), a, b);
  }

  // Switch 1 serves it: neither it nor switch 2 knows host 3, and nothing comes from there.
  lemma ServesRequest(l: SysLooped) returns (l': SysLooped, copies: set<Spot>)
    requires AtFirstSwitch(l)
    ensures HasServed(LINE, l, 1, REQUEST, l', copies)
    ensures !Quiet(LINE, NetOf(l').net, 1, 3)
    ensures forall a, b, q :: q in On(NetOf(l').net.links, a, b) ==> q.src != 3
  {
    var a := Mine(1, NO_DISK);
    assert LINE.ports[1] == [0, 2];
    ServeLinks(l.sys.net, 0, 1);
    assert CanAct(LINE, l, a) && ActStep(LINE, l, a) == Some(Serve(1, 0));
    l' := Acted(LINE, l, a);
    copies := ServedCopies(LINE, l.sys.net, 1, 0);
    assert l'.sys.net == Next(LINE, l.sys.net, Forward(1, 0));
    hide Next, On, Knows;
    forall x, y, q | q in On(l'.sys.net.links, x, y)
      ensures q.src != 3
    {
      ServeLinks(l.sys.net, x, y);
    }
    assert 2 in LINE.ports[1];
  }

  // Host 0 is told to ping host 3, sends the request, and switch 1 serves it; in some continuation host 3
  // accepts it twice.
  lemma OnePingTwoRequests(l: SysLooped)
    returns (first: seq<Action>, at1: SysLooped, served: SysLooped, copies: set<Spot>, acts: seq<Action>)
    requires SysLoopsStart(LINE, l)
    ensures CanActAll(LINE, l, first) && at1 == ActedAll(LINE, l, first)
    ensures first == [Action(0, Some(Ping(3)), NO_DISK), Mine(0, NO_DISK), Mine(0, NO_DISK)]
    ensures HasServed(LINE, at1, 1, REQUEST, served, copies)
    ensures CanActAll(LINE, served, acts) && FullDeliveries(LINE, served, acts, copies) >= 2
  {
    hide SysLoopsStart, Quiescent, AtFirstSwitch, CanAct, Acted, CanActAll, ActedAll, FullDeliveries, HasServed, Quiet,
      On;
    var a, b, c := Action(0, Some(Ping(3)), NO_DISK), Mine(0, NO_DISK), Mine(0, NO_DISK);
    StartsQuiescent(l);
    FindsCommand(l);
    var l1 := Acted(LINE, l, a);
    FindsNothing(l1);
    var l2 := Acted(LINE, l1, b);
    SendsRequest(l2);
    at1 := Acted(LINE, l2, c);
    first := [a] + ([b] + ([c] + []));
    ThreeActs(l, a, b, c);
    served, copies := ServesRequest(at1);
    acts := SomewhereTwice(l, first, at1, served, copies);
  }

  lemma ThreeActs(l: SysLooped, a: Action, b: Action, c: Action)
    requires CanAct(LINE, l, a) && CanAct(LINE, Acted(LINE, l, a), b)
    requires CanAct(LINE, Acted(LINE, Acted(LINE, l, a), b), c)
    ensures CanActAll(LINE, l, [a] + ([b] + ([c] + [])))
    ensures ActedAll(LINE, l, [a] + ([b] + ([c] + []))) == Acted(LINE, Acted(LINE, Acted(LINE, l, a), b), c)
  {
    hide CanAct, Acted;
    var l1 := Acted(LINE, l, a);
    var l2 := Acted(LINE, l1, b);
    OneAct(LINE, l2, c, []);
    OneAct(LINE, l1, b, [c] + []);
    OneAct(LINE, l, a, [b] + ([c] + []));
  }

  lemma SomewhereTwice(l: SysLooped, first: seq<Action>, at1: SysLooped, served: SysLooped, copies: set<Spot>)
    returns (acts: seq<Action>)
    requires SysLoopsStart(LINE, l) && CanActAll(LINE, l, first) && at1 == ActedAll(LINE, l, first)
    requires HasServed(LINE, at1, 1, REQUEST, served, copies) && !Quiet(LINE, NetOf(served).net, 1, 3)
    requires forall a, b, q :: q in On(NetOf(served).net.links, a, b) ==> q.src != 3
    ensures CanActAll(LINE, served, acts) && FullDeliveries(LINE, served, acts, copies) >= 2
  {
    hide CanActAll, ActedAll, HasServed, Quiet, FullDeliveries, On, LeafHosts, IsTree, Occurs, PlacesFit, SysLoopsStart,
      NetOf;
    LineIsTree();
    LineHasLeaves();
    LoopsOccur(LINE, l, first);
    AtMostOnceIffQuiet(LINE, at1, 1, 3, REQUEST, served, copies);
    acts :| CanActAll(LINE, served, acts) && FullDeliveries(LINE, served, acts, copies) > 1;
  }
}
