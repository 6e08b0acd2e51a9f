// One round of a process in loop order is one turn of the loop that the process is proved to run.
module LoopRounds {
  import opened Types
  import Commands
  import opened Hosts
  import opened HostLogs
  import opened Switches
  import opened Trees
  import opened Network
  import opened Learning
  import opened Simulator
  import opened Loops
  import opened SysLoops
  import opened Refinement

  lemma {:induction false} StepsConcat(g: Topology, l: SysLooped, a: seq<Action>, b: seq<Action>)
    requires CanActAll(g, l, a) && CanActAll(g, ActedAll(g, l, a), b)
    ensures CanActAll(g, l, a + b)
    ensures StepsOfActs(g, l, a + b) == StepsOfActs(g, l, a) + StepsOfActs(g, ActedAll(g, l, a), b)
    decreases |a|
  {
    hide CanAct, Acted, ActStep;
    ActsConcat(g, l, a, b);
    if a == [] {
      assert a + b == b;
    } else {
      StepsConcat(g, Acted(g, l, a[0]), a[1..], b);
      assert (a + b)[0] == a[0] && (a + b)[1..] == a[1..] + b;
    }
  }

  lemma StepsOne(g: Topology, l: SysLooped, a: Action)
    requires CanAct(g, l, a)
    ensures CanActAll(g, l, [a]) && ActedAll(g, l, [a]) == Acted(g, l, a)
    ensures StepsOfActs(g, l, [a]) == if ActStep(g, l, a).Some? then [ActStep(g, l, a).value] else []
  {
    hide ActStep, Possible, Then;
    OneAct(g, l, a, []);
    assert [a] + [] == [a] && [a][1..] == [];
  }

  // The actions are these steps and end in this state.
  ghost predicate Does(g: Topology, l: SysLooped, acts: seq<Action>, steps: seq<SysStep>, l': SysLooped) {
    CanActAll(g, l, acts) && StepsOfActs(g, l, acts) == steps && ActedAll(g, l, acts) == l'
  }

  lemma DoesThen(g: Topology, l: SysLooped, a: seq<Action>, s: seq<SysStep>, l1: SysLooped,
                 b: seq<Action>, t: seq<SysStep>, l2: SysLooped)
    requires Does(g, l, a, s, l1) && Does(g, l1, b, t, l2)
    ensures Does(g, l, a + b, s + t, l2)
  {
    hide CanActAll, ActedAll, StepsOfActs;
    ActsConcat(g, l, a, b);
    StepsConcat(g, l, a, b);
  }

  lemma DoesOne(g: Topology, l: SysLooped, a: Action)
    requires CanAct(g, l, a)
    ensures Does(g, l, [a], if ActStep(g, l, a).Some? then [ActStep(g, l, a).value] else [], Acted(g, l, a))
  {
    StepsOne(g, l, a);
  }

  // ---- A host ----

  function PollActs(h: Id, n: nat, disk: Disk): seq<Action> {
    if n == 0 then [] else PollActs(h, n - 1, disk) + [Action(h, None, disk)]
  }

  // Polling ports in loop order is polling as the host process does it.
  lemma {:induction false} PollsArePolls(g: Topology, l: SysLooped, h: Id, n: nat, disk: Disk)
    requires WellFormed(g) && IsHost(g, h) && h in l.sys.hosts && h in l.at && l.at[h] == 0 && n <= |g.ports[h]|
    ensures CanActAll(g, l, PollActs(h, n, disk))
    ensures StepsOfActs(g, l, PollActs(h, n, disk)) == PollSteps(h, ViewOfHost(g, l.sys, h).ins, n)
    ensures ActedAll(g, l, PollActs(h, n, disk)).at == l.at[h := n]
  {
    if n > 0 {
      PollsArePolls(g, l, h, n - 1, disk);
      OnePollMore(g, l, h, n - 1, disk);
    }
  }

  lemma OnePollMore(g: Topology, l: SysLooped, h: Id, k: nat, disk: Disk)
    requires WellFormed(g) && IsHost(g, h) && h in l.sys.hosts && h in l.at && k < |g.ports[h]|
    requires CanActAll(g, l, PollActs(h, k, disk))
    requires StepsOfActs(g, l, PollActs(h, k, disk)) == PollSteps(h, ViewOfHost(g, l.sys, h).ins, k)
    requires ActedAll(g, l, PollActs(h, k, disk)).at == l.at[h := k]
    ensures CanActAll(g, l, PollActs(h, k + 1, disk))
    ensures StepsOfActs(g, l, PollActs(h, k + 1, disk)) == PollSteps(h, ViewOfHost(g, l.sys, h).ins, k + 1)
    ensures ActedAll(g, l, PollActs(h, k + 1, disk)).at == l.at[h := k + 1]
  {
    var first, a, view := PollActs(h, k, disk), Action(h, None, disk), ViewOfHost(g, l.sys, h);
    var l' := ActedAll(g, l, first);
    PolledSoFar(g, l, h, k, disk);
    PollAct(g, l', h, k, disk);
    hide CanActAll, ActedAll, StepsOfActs, CanAct, Acted, ActStep, ViewOfHost, WellFormed;
    StepsOne(g, l', a);
    StepsConcat(g, l, first, [a]);
    ActsConcat(g, l, first, [a]);
    PollStepsStep(h, view.ins, k + 1);
    assert PollSteps(h, view.ins, k) + [] == PollSteps(h, view.ins, k);
  }

  // After polling k ports the next one is as it was.
  lemma PolledSoFar(g: Topology, l: SysLooped, h: Id, k: nat, disk: Disk)
    requires WellFormed(g) && IsHost(g, h) && h in l.sys.hosts && k < |g.ports[h]|
    requires CanActAll(g, l, PollActs(h, k, disk))
    requires StepsOfActs(g, l, PollActs(h, k, disk)) == PollSteps(h, ViewOfHost(g, l.sys, h).ins, k)
    ensures h in ActedAll(g, l, PollActs(h, k, disk)).sys.hosts && k < |ViewOfHost(g, l.sys, h).ins|
    ensures On(ActedAll(g, l, PollActs(h, k, disk)).sys.net.links, g.ports[h][k], h) == ViewOfHost(g, l.sys, h).ins[k]
  {
    ActsAreSteps(g, l, PollActs(h, k, disk));
    PollIsSteps(g, l.sys, h, k);
    ViewSize(g, l.sys, h);
    PolledViewStep(ViewOfHost(g, l.sys, h), k);
    hide CanActAll, ActedAll, StepsOfActs, CanGo, GoOn, PolledView, PollSteps, WellFormed;
    var sys' := ActedAll(g, l, PollActs(h, k, disk)).sys;
    assert ViewOfHost(g, sys', h).ins[k] == On(sys'.net.links, g.ports[h][k], h);
  }

  lemma PollAct(g: Topology, l: SysLooped, h: Id, k: nat, disk: Disk)
    requires IsHost(g, h) && h in l.sys.hosts && h in l.at && l.at[h] == k < |g.ports[h]|
    ensures CanAct(g, l, Action(h, None, disk)) && Acted(g, l, Action(h, None, disk)).at == l.at[h := k + 1]
    ensures ActStep(g, l, Action(h, None, disk))
         == if On(l.sys.net.links, g.ports[h][k], h) == [] then None else Some(Receive(h, k))
  {
  }

  function TurnActs(h: Id, n: nat, c: Option<Commands.Command>, disk: Disk): seq<Action> {
    [Action(h, c, disk)] + PollActs(h, n, disk) + [Action(h, None, disk)]
  }

  lemma CommandAct(g: Topology, l: SysLooped, h: Id, c: Option<Commands.Command>, disk: Disk)
    requires IsHost(g, h) && h in l.sys.hosts && h in l.at && l.at[h] == |g.ports[h]| + 1
    requires c.Some? ==> Addressed(c.value)
    ensures var a := Action(h, c, disk);
      && CanAct(g, l, a) && Acted(g, l, a).at == l.at[h := 0] && Acted(g, l, a).sys.net == l.sys.net
      && h in Acted(g, l, a).sys.hosts
      && ActStep(g, l, a) == if c.Some? then Some(SysStep.Command(h, c.value)) else None
  {
    hide HostLogs.After;
  }

  lemma JobAct(r: Rooting, g: Topology, l: SysLooped, h: Id, disk: Disk)
    requires TreeInv(r, g, l.sys) && IsHost(g, h) && h in l.sys.hosts && h in l.at && l.at[h] == |g.ports[h]|
    ensures var a := Action(h, None, disk);
      && CanAct(g, l, a) && Acted(g, l, a).at == l.at[h := |g.ports[h]| + 1]
      && ActStep(g, l, a) == Some(SysStep.Job(h, disk))
  {
    JobPossible(r, g, l.sys, h, disk);
    hide TreeInv, Possible, Then;
  }

  lemma SameIns(g: Topology, a: System, b: System, h: Id)
    requires h in a.hosts && h in b.hosts && h in g.ports && a.net == b.net
    ensures ViewOfHost(g, a, h).ins == ViewOfHost(g, b, h).ins && |ViewOfHost(g, a, h).ins| == |g.ports[h]|
  {
  }

  // From the top of its loop back to it, without another process in between, a host makes exactly the
  // steps of a turn of the host process.
  lemma RoundIsTurn(r: Rooting, g: Topology, l: SysLooped, h: Id, c: Option<Commands.Command>, disk: Disk)
    requires TreeInv(r, g, l.sys) && IsHost(g, h) && h in l.sys.hosts && h in l.at
    requires l.at[h] == LoopTop(g, h) && (c.Some? ==> Addressed(c.value))
    ensures CanActAll(g, l, TurnActs(h, |g.ports[h]|, c, disk))
    ensures StepsOfActs(g, l, TurnActs(h, |g.ports[h]|, c, disk))
         == TurnSteps(h, ViewOfHost(g, l.sys, h).ins, c, disk)
    ensures ActedAll(g, l, TurnActs(h, |g.ports[h]|, c, disk)).at == l.at
  {
    var n, polls := |g.ports[h]|, PollActs(h, |g.ports[h]|, disk);
    assert WellFormed(g) && LoopTop(g, h) == n + 1;
    hide *;
    CommandAct(g, l, h, c, disk);
    DoesOne(g, l, Action(h, c, disk));
    var l1 := Acted(g, l, Action(h, c, disk));
    var l2 := PollsDo(g, l1, h, disk);
    SameIns(g, l1.sys, l.sys, h);
    var first := if c.Some? then [SysStep.Command(h, c.value)] else [];
    DoesThen(g, l, [Action(h, c, disk)], first, l1, polls, PollSteps(h, ViewOfHost(g, l.sys, h).ins, n), l2);
    ActsKeepTree(r, g, l, h, [Action(h, c, disk)] + polls, first + PollSteps(h, ViewOfHost(g, l.sys, h).ins, n), l2);
    JobAct(r, g, l2, h, disk);
    DoesOne(g, l2, Action(h, None, disk));
    var l3 := Acted(g, l2, Action(h, None, disk));
    DoesThen(g, l, [Action(h, c, disk)] + polls, first + PollSteps(h, ViewOfHost(g, l.sys, h).ins, n), l2,
             [Action(h, None, disk)], [SysStep.Job(h, disk)], l3);
    TurnParts(g, l, h, n, c, disk, l3);
  }

  lemma PollsDo(g: Topology, l: SysLooped, h: Id, disk: Disk) returns (l': SysLooped)
    requires WellFormed(g) && IsHost(g, h) && h in l.sys.hosts && h in l.at && l.at[h] == 0
    ensures Does(g, l, PollActs(h, |g.ports[h]|, disk), PollSteps(h, ViewOfHost(g, l.sys, h).ins, |g.ports[h]|), l')
    ensures l'.at == l.at[h := |g.ports[h]|] && |ViewOfHost(g, l.sys, h).ins| == |g.ports[h]|
  {
    PollsArePolls(g, l, h, |g.ports[h]|, disk);
    l' := ActedAll(g, l, PollActs(h, |g.ports[h]|, disk));
  }

  lemma TurnParts(g: Topology, l: SysLooped, h: Id, n: nat, c: Option<Commands.Command>, disk: Disk, l': SysLooped)
    requires h in l.sys.hosts && h in g.ports && n == |g.ports[h]| == |ViewOfHost(g, l.sys, h).ins| && h in l.at
    requires Does(g, l, [Action(h, c, disk)] + PollActs(h, n, disk) + [Action(h, None, disk)],
                  (if c.Some? then [SysStep.Command(h, c.value)] else []) + PollSteps(h, ViewOfHost(g, l.sys, h).ins, n)
                  + [SysStep.Job(h, disk)], l')
    requires l'.at == l.at[h := 0][h := n][h := n + 1] && l.at[h] == n + 1
    ensures CanActAll(g, l, TurnActs(h, n, c, disk))
    ensures StepsOfActs(g, l, TurnActs(h, n, c, disk)) == TurnSteps(h, ViewOfHost(g, l.sys, h).ins, c, disk)
    ensures ActedAll(g, l, TurnActs(h, n, c, disk)).at == l.at
  {
    hide CanActAll, ActedAll, StepsOfActs, ViewOfHost, PollSteps, PollActs;
  }

  lemma ActsKeepTree(r: Rooting, g: Topology, l: SysLooped, h: Id, acts: seq<Action>, steps: seq<SysStep>,
                     l': SysLooped)
    requires TreeInv(r, g, l.sys) && Does(g, l, acts, steps, l') && IsHost(g, h)
    ensures TreeInv(r, g, l'.sys) && h in l'.sys.hosts
  {
    ActsAreSteps(g, l, acts);
    hide CanActAll, ActedAll, StepsOfActs, CanGo, GoOn, NetInv;
    GoKeepsTreeInv(r, g, l.sys, StepsOfActs(g, l, acts));
  }

  // ---- A switch ----

  function PassActs(u: Id, n: nat, disk: Disk): seq<Action> {
    if n == 0 then [] else [Action(u, None, disk)] + PassActs(u, n - 1, disk)
  }

  function ServesOf(steps: seq<Step>): seq<SysStep> {
    if steps == [] then []
    else (if steps[0].Forward? then [Serve(steps[0].switch, steps[0].port)] else []) + ServesOf(steps[1..])
  }

  lemma SwitchAct(r: Rooting, g: Topology, l: SysLooped, u: Id, disk: Disk)
    requires NetInv(r, g, l.sys.net) && u in g.switches && u in g.ports && u in l.at && l.at[u] < |g.ports[u]|
    ensures var a, k := Action(u, None, disk), l.at[u];
      && CanAct(g, l, a) && Acted(g, l, a).at == l.at[u := if k + 1 < |g.ports[u]| then k + 1 else 0]
      && (if On(l.sys.net.links, g.ports[u][k], u) == [] then
            ActStep(g, l, a) == None && Acted(g, l, a).sys == l.sys
          else
            && ActStep(g, l, a) == Some(Serve(u, k)) && Enabled(g, l.sys.net, Forward(u, k))
            && Acted(g, l, a).sys.net == Next(g, l.sys.net, Forward(u, k)))
  {
    hide NetInv, Next, Enabled, On;
    if On(l.sys.net.links, g.ports[u][l.at[u]], u) != [] {
      VisitIsEnabled(r, g, l.sys.net, u, l.at[u]);
    }
  }

  // From the first port round to it again, a switch makes exactly the steps of a pass of the switch
  // process over its ports.
  lemma {:induction false} PassIsScan(r: Rooting, g: Topology, l: SysLooped, u: Id, k: nat, disk: Disk)
    requires NetInv(r, g, l.sys.net) && u in g.switches && u in g.ports && u in l.at && k <= |g.ports[u]|
    requires l.at[u] == if k < |g.ports[u]| then k else 0
    ensures u in l.sys.net.tables && |SwitchView(g, l.sys.net, u).ins| == |g.ports[u]|
    ensures CanActAll(g, l, PassActs(u, |g.ports[u]| - k, disk))
    ensures StepsOfActs(g, l, PassActs(u, |g.ports[u]| - k, disk))
         == ServesOf(ScanSteps(u, SwitchView(g, l.sys.net, u).ins, k))
    ensures ActedAll(g, l, PassActs(u, |g.ports[u]| - k, disk)).at == l.at[u := 0]
    decreases |g.ports[u]| - k
  {
    hide *;
    ViewIsGood(r, g, l.sys.net, u);
    ViewParts(g, l.sys.net, u);
    var ins, n := SwitchView(g, l.sys.net, u).ins, |g.ports[u]|;
    if k < n {
      SwitchAct(r, g, l, u, disk);
      var l1 := Acted(g, l, Action(u, None, disk));
      AfterVisit(r, g, l, l1, u, k);
      PassIsScan(r, g, l1, u, k + 1, disk);
      DoesOne(g, l, Action(u, None, disk));
      SameScan(u, ins, SwitchView(g, l1.sys.net, u).ins, k + 1);
      PassOn(g, l, l1, u, k, n - k - 1, ins, disk);
    } else {
      PassEnds(g, l, u, ins, disk);
    }
  }

  lemma PassEnds(g: Topology, l: SysLooped, u: Id, ins: seq<seq<Packet>>, disk: Disk)
    requires u in l.at && l.at[u] == 0
    ensures CanActAll(g, l, PassActs(u, 0, disk)) && ActedAll(g, l, PassActs(u, 0, disk)).at == l.at[u := 0]
    ensures StepsOfActs(g, l, PassActs(u, 0, disk)) == ServesOf(ScanSteps(u, ins, |ins|))
  {
  }

  lemma PassOn(g: Topology, l: SysLooped, l1: SysLooped, u: Id, k: nat, m: nat, ins: seq<seq<Packet>>, disk: Disk)
    requires k < |ins| && u in l.at
    requires Does(g, l, [Action(u, None, disk)], if ins[k] == [] then [] else [Serve(u, k)], l1)
    requires CanActAll(g, l1, PassActs(u, m, disk))
    requires StepsOfActs(g, l1, PassActs(u, m, disk)) == ServesOf(ScanSteps(u, ins, k + 1))
    requires ActedAll(g, l1, PassActs(u, m, disk)).at == l1.at[u := 0] && l1.at[u := 0] == l.at[u := 0]
    ensures CanActAll(g, l, PassActs(u, m + 1, disk))
    ensures StepsOfActs(g, l, PassActs(u, m + 1, disk)) == ServesOf(ScanSteps(u, ins, k))
    ensures ActedAll(g, l, PassActs(u, m + 1, disk)).at == l.at[u := 0]
  {
    var rest, scan := PassActs(u, m, disk), ScanSteps(u, ins, k + 1);
    ScanStepsFrom(u, ins, k);
    ServesOfOne(u, k, scan);
    assert PassActs(u, m + 1, disk) == [Action(u, None, disk)] + rest;
    assert [] + ServesOf(scan) == ServesOf(scan);
    hide CanActAll, ActedAll, StepsOfActs, ScanSteps, ServesOf, PassActs;
    DoesThen(g, l, [Action(u, None, disk)], if ins[k] == [] then [] else [Serve(u, k)], l1,
             rest, ServesOf(scan), ActedAll(g, l1, rest));
  }

  lemma ServesOfOne(u: Id, k: nat, rest: seq<Step>)
    ensures ServesOf([Forward(u, k)] + rest) == [Serve(u, k)] + ServesOf(rest)
  {
    assert ([Forward(u, k)] + rest)[1..] == rest;
  }

  // Visiting port k leaves what waits on the later ones.
  lemma AfterVisit(r: Rooting, g: Topology, l: SysLooped, l1: SysLooped, u: Id, k: nat)
    requires NetInv(r, g, l.sys.net) && u in g.switches && u in g.ports && u in l.sys.net.tables && k < |g.ports[u]|
    requires On(l.sys.net.links, g.ports[u][k], u) == [] ==> l1.sys == l.sys
    requires On(l.sys.net.links, g.ports[u][k], u) != [] ==>
      Enabled(g, l.sys.net, Forward(u, k)) && l1.sys.net == Next(g, l.sys.net, Forward(u, k))
    ensures NetInv(r, g, l1.sys.net) && u in l1.sys.net.tables
    ensures var a, b := SwitchView(g, l.sys.net, u).ins, SwitchView(g, l1.sys.net, u).ins;
      |a| == |b| == |g.ports[u]| && forall j :: k < j < |a| ==> b[j] == a[j]
  {
    hide NetInv, Next, Enabled, GoodState, ServePort, SwitchView;
    ViewParts(g, l.sys.net, u);
    if On(l.sys.net.links, g.ports[u][k], u) != [] {
      InvKept(r, g, l.sys.net, Forward(u, k));
      ForwardIsServePort(r, g, l.sys.net, u, k);
      ServesOnePort(SwitchView(g, l.sys.net, u), k);
      ViewParts(g, l1.sys.net, u);
    }
  }
}
