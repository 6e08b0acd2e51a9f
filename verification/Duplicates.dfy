// How often a packet that a switch serves can be delivered: all copies that flooding makes of it,
// followed through every continuation, and when at most one of them is accepted.
module Duplicates {
  import opened Types
  import opened Switches
  import opened Trees
  import opened Network
  import opened Learning
  import opened Delivery
  import opened Copies

  // ---- Following all copies ----

  // Where the copies of the packet at `spot` are after a step.
  function Spread(g: Topology, n: Net, step: Step, spot: Spot): set<Spot>
    requires Enabled(g, n, step)
  {
    if !spot.At? then {}
    else if !Reads(g, step, spot.u, spot.w) then {spot}
    else if spot.i > 0 then {spot.(i := spot.i - 1)}
    else if step.Take? then {}
    else
      var p := On(n.links, spot.u, spot.w)[0];
      var ws := ForwardTo(g, spot.w, Learn(n.tables[spot.w], p.src, step.port), p.dst);
      set b | b in ws :: At(spot.w, b, |On(n.links, spot.w, b)|)
  }

  function Descend(g: Topology, n: Net, step: Step, copies: set<Spot>): set<Spot>
    requires Enabled(g, n, step)
  {
    set s, t | s in copies && t in Spread(g, n, step, s) :: t
  }

  // 1 if the step is the destination reading one of the copies.
  function Accepted(g: Topology, n: Net, step: Step, copies: set<Spot>): nat
    requires Enabled(g, n, step)
  {
    if step.Take? then
      var from := g.ports[step.host][step.port];
      if At(from, step.host, 0) in copies && On(n.links, from, step.host)[0].dst == step.host then 1 else 0
    else 0
  }

  // In a continuation of the network: the copies at its end, and how many of them have been
  // accepted.
  ghost function CopiesAfter(g: Topology, n: Net, steps: seq<Step>, copies: set<Spot>): set<Spot>
    requires CanRun(g, n, steps)
    decreases |steps|
  {
    if steps == [] then copies
    else CopiesAfter(g, Next(g, n, steps[0]), steps[1..], Descend(g, n, steps[0], copies))
  }

  ghost function Deliveries(g: Topology, n: Net, steps: seq<Step>, copies: set<Spot>): nat
    requires CanRun(g, n, steps)
    decreases |steps|
  {
    if steps == [] then 0
    else
      Accepted(g, n, steps[0], copies)
      + Deliveries(g, Next(g, n, steps[0]), steps[1..], Descend(g, n, steps[0], copies))
  }

  lemma OneMore(g: Topology, n: Net, step: Step, rest: seq<Step>, copies: set<Spot>)
    requires Enabled(g, n, step) && CanRun(g, Next(g, n, step), rest)
    ensures CanRun(g, n, [step] + rest)
    ensures RunFrom(g, n, [step] + rest) == RunFrom(g, Next(g, n, step), rest)
    ensures var later := Descend(g, n, step, copies);
      && CopiesAfter(g, n, [step] + rest, copies) == CopiesAfter(g, Next(g, n, step), rest, later)
      && Deliveries(g, n, [step] + rest, copies)
         == Accepted(g, n, step, copies) + Deliveries(g, Next(g, n, step), rest, later)
  {
    assert ([step] + rest)[0] == step && ([step] + rest)[1..] == rest;
  }

  lemma {:induction false} RunsAdd(g: Topology, n: Net, a: seq<Step>, b: seq<Step>, copies: set<Spot>)
    requires CanRun(g, n, a) && CanRun(g, RunFrom(g, n, a), b)
    ensures CanRun(g, n, a + b)
    ensures Deliveries(g, n, a + b, copies)
         == Deliveries(g, n, a, copies) + Deliveries(g, RunFrom(g, n, a), b, CopiesAfter(g, n, a, copies))
    decreases |a|
  {
    if a == [] {
      assert a + b == b;
    } else {
      var n1, copies1 := Next(g, n, a[0]), Descend(g, n, a[0], copies);
      RunsAdd(g, n1, a[1..], b, copies1);
      assert a + b == [a[0]] + (a[1..] + b);
      OneMore(g, n, a[0], a[1..] + b, copies);
    }
  }

  // ---- At most once ----

  // All copies are of p; at most one can still reach the destination, and that one is on track.
  ghost predicate AtMostOne(g: Topology, n: Net, copies: set<Spot>, p: Packet) {
    && (forall s :: s in copies ==> Holds(n, s, p))
    && (forall s :: s in copies && Live(g, s, p.dst) ==> OnTrack(g, n, s, p))
    && (forall s, t :: s in copies && t in copies && Live(g, s, p.dst) && Live(g, t, p.dst) ==> s == t)
  }

  ghost predicate NoneLive(g: Topology, copies: set<Spot>, d: Byte) {
    forall s :: s in copies ==> !Live(g, s, d)
  }

  // A copy on track never becomes two.
  lemma SpreadIsFollow(g: Topology, n: Net, step: Step, spot: Spot, p: Packet)
    requires TablesFit(g, n) && Enabled(g, n, step) && OnTrack(g, n, spot, p)
    ensures var next := Follow(g, n, step, spot);
      Spread(g, n, step, spot) == if next == Delivered then {} else {next}
  {
    if Reads(g, step, spot.u, spot.w) && spot.i == 0 && spot.w != p.dst {
      OneTarget(g, n, step, spot, p);
    }
  }

  // A copy on its way to another host never becomes live.
  lemma DeadSpread(g: Topology, n: Net, step: Step, spot: Spot, p: Packet)
    requires WellFormed(g) && Enabled(g, n, step) && Holds(n, spot, p) && !Live(g, spot, p.dst)
    ensures forall t :: t in Spread(g, n, step, spot) ==> !Live(g, t, p.dst) && Holds(Next(g, n, step), t, p)
  {
    LinkAfter(g, n, step, spot.u, spot.w);
  }

  lemma EachSpread(r: Rooting, g: Topology, n: Net, step: Step, s: Spot, t: Spot, p: Packet)
    requires NetInv(r, g, n) && Enabled(g, n, step) && Holds(n, s, p) && t in Spread(g, n, step, s)
    requires Live(g, s, p.dst) ==> OnTrack(g, n, s, p)
    ensures Holds(Next(g, n, step), t, p)
    ensures Live(g, t, p.dst) ==>
      Live(g, s, p.dst) && OnTrack(g, Next(g, n, step), t, p) && t == Follow(g, n, step, s) != Delivered
  {
    hide EntriesOk, PacketsOk, Roots, Spread, Follow, OnTrack, Next, Enabled, WellFormed;
    if Live(g, s, p.dst) {
      SpreadIsFollow(g, n, step, s, p);
      StaysOnTrack(r, g, n, step, s, p);
      TrackedHolds(g, Next(g, n, step), t, p);
    } else {
      DeadSpread(g, n, step, s, p);
    }
  }

  lemma TrackedHolds(g: Topology, n: Net, spot: Spot, p: Packet)
    requires OnTrack(g, n, spot, p)
    ensures Holds(n, spot, p)
  {
  }

  lemma StaysAtMostOne(r: Rooting, g: Topology, n: Net, step: Step, copies: set<Spot>, p: Packet)
    requires NetInv(r, g, n) && Enabled(g, n, step) && AtMostOne(g, n, copies, p)
    ensures AtMostOne(g, Next(g, n, step), Descend(g, n, step, copies), p)
    ensures NoneLive(g, copies, p.dst) ==> NoneLive(g, Descend(g, n, step, copies), p.dst)
  {
    hide NetInv, Spread, Follow, OnTrack, Next, Enabled, Holds, Live;
    forall t | t in Descend(g, n, step, copies)
      ensures Holds(Next(g, n, step), t, p)
      ensures Live(g, t, p.dst) ==> OnTrack(g, Next(g, n, step), t, p)
      ensures Live(g, t, p.dst) ==>
        exists s :: s in copies && Live(g, s, p.dst) && t == Follow(g, n, step, s)
    {
      var s :| s in copies && t in Spread(g, n, step, s);
      EachSpread(r, g, n, step, s, t, p);
    }
  }

  // Reading the live copy at the destination leaves none.
  lemma AcceptedWasLive(r: Rooting, g: Topology, n: Net, step: Step, copies: set<Spot>, p: Packet)
    requires NetInv(r, g, n) && Enabled(g, n, step) && AtMostOne(g, n, copies, p)
    requires Accepted(g, n, step, copies) == 1
    ensures !NoneLive(g, copies, p.dst) && NoneLive(g, Descend(g, n, step, copies), p.dst)
  {
    var spot := At(g.ports[step.host][step.port], step.host, 0);
    assert Holds(n, spot, p) && Live(g, spot, p.dst);
    assert Spread(g, n, step, spot) == {};
    hide NetInv, Spread, Follow, OnTrack, Next, Enabled, Holds, Live;
    forall t | t in Descend(g, n, step, copies)
      ensures !Live(g, t, p.dst)
    {
      var s :| s in copies && t in Spread(g, n, step, s);
      EachSpread(r, g, n, step, s, t, p);
    }
  }

  lemma {:induction false} DeliveredAtMostOnce(r: Rooting, g: Topology, n: Net, steps: seq<Step>,
                                               copies: set<Spot>, p: Packet)
    requires NetInv(r, g, n) && CanRun(g, n, steps) && AtMostOne(g, n, copies, p)
    ensures Deliveries(g, n, steps, copies) <= 1
    ensures NoneLive(g, copies, p.dst) ==> Deliveries(g, n, steps, copies) == 0
    decreases |steps|
  {
    hide NetInv, AtMostOne, NoneLive, Enabled, Next, Descend, Accepted;
    if steps != [] {
      var step := steps[0];
      InvKept(r, g, n, step);
      StaysAtMostOne(r, g, n, step, copies, p);
      DeliveredAtMostOnce(r, g, Next(g, n, step), steps[1..], Descend(g, n, step, copies), p);
      AtMostOneAccepted(g, n, step, copies);
      if Accepted(g, n, step, copies) == 1 {
        AcceptedWasLive(r, g, n, step, copies, p);
      }
    }
  }

  lemma AtMostOneAccepted(g: Topology, n: Net, step: Step, copies: set<Spot>)
    requires Enabled(g, n, step)
    ensures Accepted(g, n, step, copies) <= 1
  {
  }

  // ---- The condition ----

  // No switch next to u can throw a packet for d back: u has an entry for d, or all neighbouring
  // switches have one.
  predicate Quiet(g: Topology, n: Net, u: Id, d: Id)
    requires u in g.ports
  {
    Knows(n, u, d) || forall y :: y in g.ports[u] && y in g.switches ==> Knows(n, y, d)
  }

  // The packet the step serves, and where its copies are afterwards.
  function Served(g: Topology, n: Net, u: Id, k: nat): Packet
    requires Enabled(g, n, Forward(u, k))
  {
    On(n.links, g.ports[u][k], u)[0]
  }

  function ServedCopies(g: Topology, n: Net, u: Id, k: nat): set<Spot>
    requires Enabled(g, n, Forward(u, k))
  {
    Spread(g, n, Forward(u, k), At(g.ports[u][k], u, 0))
  }

  // If the switch learns or knows the destination, it has an entry for it by the time it forwards.
  lemma KnowsByThen(g: Topology, n: Net, u: Id, k: nat, d: Id)
    requires Enabled(g, n, Forward(u, k))
    ensures Knows(Next(g, n, Forward(u, k)), u, d) <==> Served(g, n, u, k).src == d || Knows(n, u, d)
    ensures forall y :: y != u ==> (Knows(Next(g, n, Forward(u, k)), y, d) <==> Knows(n, y, d))
  {
  }

  lemma LiveTarget(r: Rooting, g: Topology, n: Net, u: Id, k: nat, b: Id, d: Id)
    requires NetInv(r, g, n) && Enabled(g, n, Forward(u, k)) && IsHost(g, d)
    requires Served(g, n, u, k).dst == d && Quiet(g, Next(g, n, Forward(u, k)), u, d)
    requires Writes(g, n, Forward(u, k), u, b) != [] && (b == d || b in g.switches)
    ensures u != d && b == Hop(r, g, u, d)
    ensures b == d || Knows(Next(g, n, Forward(u, k)), b, d)
  {
    var n' := Next(g, n, Forward(u, k));
    InvKept(r, g, n, Forward(u, k));
    KnowsByThen(g, n, u, k, d);
    if Knows(n', u, d) {
      hide NetInv;
      KnownIsOk(r, g, n', u, d);
      assert b == Via(g, n', u, d);
    } else {
      assert b in g.ports[u];
      OnlyForward(r, g, n, u, b, d);
    }
  }

  // A neighbour that is the destination or knows it without sending to u is the next hop of u.
  lemma OnlyForward(r: Rooting, g: Topology, n: Net, u: Id, b: Id, d: Id)
    requires NetInv(r, g, n) && u in g.ports && b in g.ports[u] && IsHost(g, d) && u != d && !Knows(n, u, d)
    requires b == d || Knows(n, b, d)
    ensures b == Hop(r, g, u, d)
  {
    hide PacketsOk, EntriesOk, TablesFit, Roots, Hop, Dist;
    LinkIsOriented(r, g, u, b, d);
    if Towards(r, g, b, u, d) {
      KnownIsOk(r, g, n, b, d);
      assert false;
    }
  }

  lemma QuietMeansOne(r: Rooting, g: Topology, n: Net, u: Id, k: nat, d: Id)
    requires NetInv(r, g, n) && Enabled(g, n, Forward(u, k)) && IsHost(g, d) && Served(g, n, u, k).dst == d
    requires Quiet(g, Next(g, n, Forward(u, k)), u, d)
    ensures AtMostOne(g, Next(g, n, Forward(u, k)), ServedCopies(g, n, u, k), Served(g, n, u, k))
  {
    var step, p := Forward(u, k), Served(g, n, u, k);
    forall t | t in ServedCopies(g, n, u, k)
      ensures t.At? && t == At(u, t.w, |On(n.links, u, t.w)|)
      ensures Holds(Next(g, n, step), t, p)
      ensures Live(g, t, d) ==> u != d && t.w == Hop(r, g, u, d) && OnTrack(g, Next(g, n, step), t, p)
    {
      assert Writes(g, n, step, u, t.w) == [p];
      CopyLands(g, n, step, u, t.w, p);
      if Live(g, t, d) {
        hide NetInv, Next, Writes, Enabled, Quiet, Hop;
        LiveTarget(r, g, n, u, k, t.w, d);
      }
    }
  }

  // If u or all switches next to it know the destination, then a packet u serves is accepted at most once,
  // in every interleaving of the processes' steps.
  lemma QuietIsEnough(g: Topology, n: Net, u: Id, k: nat, d: Id, steps: seq<Step>)
    requires IsTree(g) && Reachable(g, n) && Enabled(g, n, Forward(u, k))
    requires IsHost(g, d) && Served(g, n, u, k).dst == d && Quiet(g, Next(g, n, Forward(u, k)), u, d)
    requires CanRun(g, Next(g, n, Forward(u, k)), steps)
    ensures Deliveries(g, Next(g, n, Forward(u, k)), steps, ServedCopies(g, n, u, k)) <= 1
  {
    TreeHasRooting(g, u);
    var r := RootedAt(g, u);
    hide *;
    ReachableInv(r, g, n);
    InvKept(r, g, n, Forward(u, k));
    QuietMeansOne(r, g, n, u, k, d);
    DeliveredAtMostOnce(r, g, Next(g, n, Forward(u, k)), steps, ServedCopies(g, n, u, k), Served(g, n, u, k));
  }
}
