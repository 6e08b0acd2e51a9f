// What the processes can do in every state that occurs, and that every run can go on for ever with all of
// them running: the theorems about fair runs speak of every run.
module FairRuns {
  import opened Types
  import opened Commands
  import opened Hosts
  import opened HostLogs
  import opened Histories
  import opened Switches
  import opened Trees
  import opened Network
  import opened Learning
  import opened Simulator
  import opened SysLoops
  import opened Liveness

  // ---- Nothing is in the way ----

  // Does the command name no host, or one of the hosts 0 to 99?
  predicate InTable(c: Commands.Command) {
    match c
    case Ping(dst) => 0 <= dst < 100
    case Upload(dst, _) => 0 <= dst < 100
    case Download(dst, _) => 0 <= dst < 100
    case _ => true
  }

  lemma TreeFacts(r: Rooting, g: Topology, sys: System)
    requires TreeInv(r, g, sys)
    ensures WellFormed(g) && PacketsOk(g, sys.net) && HostsOk(g, sys)
    ensures forall u :: u in g.switches ==> u in g.ports && u in sys.net.tables
    ensures forall h: Id :: h in sys.hosts <==> IsHost(g, h)
  {
  }

  lemma CanReceive(g: Topology, sys: System, x: Id, k: nat)
    requires IsHost(g, x) && x in sys.hosts && k < |g.ports[x]|
    ensures Possible(g, sys, Receive(x, k)) <==> On(sys.net.links, g.ports[x][k], x) != []
  {
  }

  lemma CanServe(g: Topology, sys: System, x: Id, k: nat)
    requires x in g.switches && x in g.ports && x in sys.net.tables && k < |g.ports[x]| && PacketsOk(g, sys.net)
    ensures Possible(g, sys, Serve(x, k)) <==> On(sys.net.links, g.ports[x][k], x) != []
  {
    var from := g.ports[x][k];
    var q := On(sys.net.links, from, x);
    assert q != [] ==> q[0] in q && PacketOk(g, sys.net, from, x, q[0]);
  }

  lemma CanCommand(g: Topology, sys: System, x: Id, c: Commands.Command)
    requires x in sys.hosts
    ensures InTable(c) <==> Possible(g, sys, Command(x, c))
  {
  }

  lemma PortsRead(r: Rooting, g: Topology, sys: System, x: Id, k: nat)
    requires TreeInv(r, g, sys) && x in g.ports && k < |g.ports[x]|
    ensures On(sys.net.links, g.ports[x][k], x) != []
       <==> Possible(g, sys, if IsHost(g, x) then Receive(x, k) else Serve(x, k))
  {
    hide TreeInv, PacketsOk, HostsOk, Possible, On, WellFormed;
    TreeFacts(r, g, sys);
    if IsHost(g, x) {
      CanReceive(g, sys, x, k);
    } else {
      CanServe(g, sys, x, k);
    }
  }

  // In every state that occurs in any tree of hosts and switches: every host can execute every command that
  // names no host or one of the hosts 0 to 99, and its oldest job if it has any, and every host and every
  // switch can read a port exactly if there is something to read.
  lemma NothingBlocks(g: Topology, sys: System, x: Id)
    requires IsTree(g) && Occurs(g, sys) && x in g.ports
    ensures IsHost(g, x) ==> forall c :: InTable(c) <==> Possible(g, sys, Command(x, c))
    ensures IsHost(g, x) ==> forall disk :: Possible(g, sys, Job(x, disk))
    ensures forall k :: 0 <= k < |g.ports[x]| ==>
      (On(sys.net.links, g.ports[x][k], x) != [] <==>
       Possible(g, sys, if IsHost(g, x) then Receive(x, k) else Serve(x, k)))
  {
    hide IsTree, RootedAt, TreeInv, HostsOk, Occurs, PacketsOk, Possible, On, WellFormed, InTable;
    var r := RootedAt(g, x);
    OccursInTree(g, x, sys);
    TreeFacts(r, g, sys);
    forall k | 0 <= k < |g.ports[x]|
      ensures On(sys.net.links, g.ports[x][k], x) != []
         <==> Possible(g, sys, if IsHost(g, x) then Receive(x, k) else Serve(x, k))
    {
      PortsRead(r, g, sys, x, k);
    }
    if IsHost(g, x) {
      forall disk
        ensures Possible(g, sys, Job(x, disk))
      {
        OldestJobRuns(g, sys, x, disk);
      }
      forall c
        ensures InTable(c) <==> Possible(g, sys, Command(x, c))
      {
        CanCommand(g, sys, x, c);
      }
    }
  }

  // An upload command queues that one upload, and nothing else happens anywhere.
  lemma UploadCommand(g: Topology, sys: System, h: Id, dst: int, name: Bytes)
    requires Possible(g, sys, Command(h, Upload(dst, name)))
    ensures var l, sys' := sys.hosts[h], Then(g, sys, Command(h, Upload(dst, name)));
      && sys'.net == sys.net && sys'.hosts == sys.hosts[h := sys'.hosts[h]]
      && sys'.hosts[h] == l.(h := l.h.(jobs := l.h.jobs + [FileSend(dst, name)]),
                             notes := l.notes + [Did(Upload(dst, name))])
  {
    var l := sys.hosts[h];
    assert l.units + [] == l.units;
  }

  // ---- Fair runs exist ----

  // There is a start for every network.
  lemma SomeStart(g: Topology) returns (sys: System)
    requires g.switches <= g.ports.Keys
    ensures Starts(g, sys)
  {
    var blank: Table := seq(TABLE_SIZE, _ => NULL);
    var net := Net(map u | u in g.switches :: blank, map[], map[], map[]);
    sys := System(net, map h: Id | h in g.ports && h !in g.switches ::
                         Unlogged(Hosts.Host(h, None, [], false, [], [])));
  }

  // At moment t it is node t % 100's turn: to read what comes from node (t / 100) % 101, or to execute a job.
  function Turn(g: Topology, sys: System, t: nat, idle: Id): SysStep {
    var x, u := t % 100, t / 100 % 101;
    if u == 100 || !Adjacent(g, x, u) || On(sys.net.links, u, x) == [] then
      Job(if u == 100 && IsHost(g, x) then x else idle, NO_DISK)
    else if x in g.switches then Serve(x, PortTo(g.ports[x], u))
    else Receive(x, PortTo(g.ports[x], u))
  }

  // The port behind which node u is.
  function PortTo(ws: seq<Id>, u: Id): (k: nat)
    requires u in ws
    ensures k < |ws| && ws[k] == u
  {
    if ws[0] == u then 0 else PortTo(ws[1..], u) + 1
  }

  lemma TurnIsPossible(r: Rooting, g: Topology, sys: System, t: nat, idle: Id)
    requires TreeInv(r, g, sys) && IsHost(g, idle)
    ensures Possible(g, sys, Turn(g, sys, t, idle)) && TreeInv(r, g, Then(g, sys, Turn(g, sys, t, idle)))
  {
    hide TreeInv, HostsOk, PacketsOk, Possible, Then, On, WellFormed;
    TreeFacts(r, g, sys);
    var x, u := t % 100, t / 100 % 101;
    if u == 100 || !Adjacent(g, x, u) || On(sys.net.links, u, x) == [] {
      OldestJobRuns(g, sys, if u == 100 && IsHost(g, x) then x else idle, NO_DISK);
    } else {
      PortsRead(r, g, sys, x, PortTo(g.ports[x], u));
    }
    TreeInvKept(r, g, sys, Turn(g, sys, t, idle));
  }

  // The state t moments after moment `from`, everyone taking turns.
  ghost function Ahead(g: Topology, sys: System, from: nat, t: nat, idle: Id): System {
    if t == 0 then sys
    else
      var before := Ahead(g, sys, from, t - 1, idle);
      var step := Turn(g, before, from + (t - 1), idle);
      if Possible(g, before, step) then Then(g, before, step) else before
  }

  lemma {:induction false} TurnsAreTaken(r: Rooting, g: Topology, sys: System, from: nat, t: nat, idle: Id)
    requires TreeInv(r, g, sys) && IsHost(g, idle)
    ensures TreeInv(r, g, Ahead(g, sys, from, t, idle))
    ensures var now := Ahead(g, sys, from, t, idle);
      && Possible(g, now, Turn(g, now, from + t, idle))
      && Ahead(g, sys, from, t + 1, idle) == Then(g, now, Turn(g, now, from + t, idle))
  {
    hide TreeInv, Possible, Then, Turn, IsHost;
    if t > 0 {
      TurnsAreTaken(r, g, sys, from, t - 1, idle);
      TurnIsPossible(r, g, Ahead(g, sys, from, t - 1, idle), from + (t - 1), idle);
    }
    TurnIsPossible(r, g, Ahead(g, sys, from, t, idle), from + t, idle);
  }

  // Node x gets its turn to read node u (or to execute a job, if u is 100) at this moment, not before t.
  function TurnOf(t: nat, x: int, u: int): (t': nat)
    requires 0 <= x < 100 && 0 <= u <= 100
    ensures t <= t' && t' % 100 == x && t' / 100 % 101 == u
  {
    var t' := t * 10100 + u * 100 + x;
    assert t' == (t * 101 + u) * 100 + x;
    t'
  }

  // A run, given up to some moment, and going on with everyone taking turns.
  ghost function RunOn(g: Topology, states: seq<System>, idle: Id): nat -> System
    requires states != []
  {
    var n := |states| - 1;
    (t: nat) => if t <= n then states[t] else Ahead(g, states[n], n, t - n, idle)
  }

  ghost function StepsOn(g: Topology, states: seq<System>, steps: seq<SysStep>, idle: Id): nat -> SysStep
    requires |states| == |steps| + 1
  {
    (t: nat) => if t < |steps| then steps[t] else Turn(g, RunOn(g, states, idle)(t), t, idle)
  }

  lemma RunsOn(g: Topology, states: seq<System>, steps: seq<SysStep>, idle: Id, t: nat)
    requires IsTree(g) && IsSysRun(g, states, steps) && IsHost(g, idle)
    ensures var run, all := RunOn(g, states, idle), StepsOn(g, states, steps, idle);
      Possible(g, run(t), all(t)) && run(t + 1) == Then(g, run(t), all(t))
  {
    hide IsTree, Possible, Then, Turn, RootedAt, TreeInv;
    var n := |steps|;
    if t >= n {
      OccursNow(g, states, steps);
      OccursInTree(g, idle, states[n]);
      TurnsAreTaken(RootedAt(g, idle), g, states[n], n, t - n, idle);
      assert Ahead(g, states[n], n, 0, idle) == states[n];
    }
  }

  lemma OccursNow(g: Topology, states: seq<System>, steps: seq<SysStep>)
    requires IsSysRun(g, states, steps)
    ensures Occurs(g, states[|steps|])
  {
    hide Possible, Then;
  }

  // Whoever has the turn at moment t, after the given part, reads the link or finds it empty.
  lemma TurnReads(g: Topology, sys: System, t: nat, idle: Id, u: Id, w: Id)
    requires WellFormed(g) && Adjacent(g, u, w) && t % 100 == w && t / 100 % 101 == u
    ensures Reads(g, NetStep(sys, Turn(g, sys, t, idle)), u, w) || On(sys.net.links, u, w) == []
  {
    assert Adjacent(g, w, u);
  }

  lemma TurnWorks(g: Topology, sys: System, t: nat, idle: Id, h: Id)
    requires IsHost(g, h) && t % 100 == h && t / 100 % 101 == 100
    ensures IsJobOf(Turn(g, sys, t, idle), h)
  {
  }

  lemma AlwaysPolled(g: Topology, states: seq<System>, steps: seq<SysStep>, idle: Id, t: nat, u: Id, w: Id)
    requires WellFormed(g) && |states| == |steps| + 1 && Adjacent(g, u, w)
    ensures PolledLater(g, RunOn(g, states, idle), StepsOn(g, states, steps, idle), t, u, w)
  {
    hide Turn, WellFormed, Reads, NetStep, On, Adjacent, Ahead;
    var run := RunOn(g, states, idle);
    var t' := TurnOf(t + |steps|, w, u);
    TurnReads(g, run(t'), t', idle, u, w);
    assert StepsOn(g, states, steps, idle)(t') == Turn(g, run(t'), t', idle);
  }

  lemma AlwaysWorks(g: Topology, states: seq<System>, steps: seq<SysStep>, idle: Id, t: nat, h: Id)
    requires |states| == |steps| + 1 && IsHost(g, h)
    ensures WorksLater(StepsOn(g, states, steps, idle), t, h)
  {
    hide Turn, Ahead, IsJobOf, IsHost;
    var run := RunOn(g, states, idle);
    var t' := TurnOf(t + |steps|, h, 100);
    TurnWorks(g, run(t'), t', idle, h);
    assert StepsOn(g, states, steps, idle)(t') == Turn(g, run(t'), t', idle);
  }

  lemma StartsAsGiven(g: Topology, states: seq<System>, steps: seq<SysStep>, idle: Id)
    requires IsSysRun(g, states, steps)
    ensures Starts(g, RunOn(g, states, idle)(0))
    ensures forall t :: 0 <= t <= |steps| ==> RunOn(g, states, idle)(t) == states[t]
    ensures forall t :: 0 <= t < |steps| ==> StepsOn(g, states, steps, idle)(t) == steps[t]
  {
    hide Possible, Then, Turn, Starts;
  }

  // Whatever has happened in a tree with a host in it, everything may go on for ever with every process
  // running: every run, whatever commands are executed in it, is the beginning of a fair run.
  lemma EveryRunGoesOn(g: Topology, states: seq<System>, steps: seq<SysStep>, idle: Id)
    returns (run: nat -> System, all: nat -> SysStep)
    requires IsTree(g) && IsSysRun(g, states, steps) && IsHost(g, idle)
    ensures IsFairSysRun(g, run, all)
    ensures forall t :: 0 <= t <= |steps| ==> run(t) == states[t]
    ensures forall t :: 0 <= t < |steps| ==> all(t) == steps[t]
  {
    assert WellFormed(g) && |states| == |steps| + 1;
    hide IsTree, Possible, Then, WellFormed, PolledLater, WorksLater, RunOn, StepsOn, IsSysRun, Starts;
    run, all := RunOn(g, states, idle), StepsOn(g, states, steps, idle);
    StartsAsGiven(g, states, steps, idle);
    forall t: nat
      ensures Possible(g, run(t), all(t)) && run(t + 1) == Then(g, run(t), all(t))
    {
      RunsOn(g, states, steps, idle, t);
    }
    forall t: nat, u: Id, w: Id | Adjacent(g, u, w)
      ensures PolledLater(g, run, all, t, u, w)
    {
      AlwaysPolled(g, states, steps, idle, t, u, w);
    }
    forall t: nat, h: Id | IsHost(g, h)
      ensures WorksLater(all, t, h)
    {
      AlwaysWorks(g, states, steps, idle, t, h);
    }
  }
}
