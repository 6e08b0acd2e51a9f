// What flooding guarantees: every packet to an existing host arrives, and it arrives only once under
// an exact condition on the switches around the one that serves it.
module Copies {
  import opened Types
  import opened Switches
  import opened Trees
  import opened Network
  import opened Learning
  import opened Delivery

  ghost predicate LeafHosts(g: Topology) {
    forall h :: IsHost(g, h) ==> IsLeaf(g, h)
  }

  ghost predicate Holds(n: Net, spot: Spot, p: Packet) {
    spot.At? && spot.i < |On(n.links, spot.u, spot.w)| && On(n.links, spot.u, spot.w)[spot.i] == p
  }

  // The node about to read the copy is the destination or a switch.
  ghost predicate Live(g: Topology, spot: Spot, d: Byte) {
    spot.At? && (spot.w == d || spot.w in g.switches)
  }

  ghost predicate Heading(g: Topology, n: Net, spot: Spot, p: Packet) {
    Holds(n, spot, p) && Live(g, spot, p.dst) && 0 <= p.dst < TABLE_SIZE && IsHost(g, p.dst)
  }

  // ---- At least once ----

  // A packet written to a link is the last one there.
  lemma CopyLands(g: Topology, n: Net, step: Step, u: Id, x: Id, p: Packet)
    requires WellFormed(g) && Enabled(g, n, step) && Writes(g, n, step, u, x) == [p]
    ensures Holds(Next(g, n, step), At(u, x, |On(n.links, u, x)|), p)
    ensures |On(Next(g, n, step).links, u, x)| == |On(n.links, u, x)| + 1
  {
    LinkAfter(g, n, step, u, x);
  }

  // Whether a switch knows a destination or floods: the neighbour towards it gets a copy.
  lemma HopGetsCopy(r: Rooting, g: Topology, n: Net, u: Id, k: nat)
    requires NetInv(r, g, n) && Enabled(g, n, Forward(u, k))
    requires IsHost(g, On(n.links, g.ports[u][k], u)[0].dst)
    ensures var p := On(n.links, g.ports[u][k], u)[0];
      u != p.dst && Writes(g, n, Forward(u, k), u, Hop(r, g, u, p.dst)) == [p]
  {
    var d: Id := On(n.links, g.ports[u][k], u)[0].dst;
    InvKept(r, g, n, Forward(u, k));
    HopIsTowards(r, g, u, d);
    if Knows(Next(g, n, Forward(u, k)), u, d) {
      KnownIsOk(r, g, Next(g, n, Forward(u, k)), u, d);
    }
  }

  // Hosts that are leaves are no way station.
  lemma HopIsLive(r: Rooting, g: Topology, u: Id, d: Id)
    requires Rooted(r, g) && LeafHosts(g) && u in g.ports && IsHost(g, d) && u != d
    ensures Hop(r, g, u, d) == d || Hop(r, g, u, d) in g.switches
  {
    hide Hop, Dist, Roots, Above;
    var x := Hop(r, g, u, d);
    HopIsTowards(r, g, u, d);
    LinkIsOriented(r, g, u, x, d);
    if x != d && IsHost(g, x) {
      assert IsLeaf(g, x) && Adjacent(g, x, u) && g.ports[x] == [u];
      HopIsTowards(r, g, x, d);
      assert false;
    }
  }

  // The copy that goes the right way.
  ghost function Toward(r: Rooting, g: Topology, n: Net, step: Step, spot: Spot, p: Packet): Spot
    requires Rooted(r, g) && Heading(g, n, spot, p)
  {
    if !Reads(g, step, spot.u, spot.w) then spot
    else if spot.i > 0 then spot.(i := spot.i - 1)
    else if spot.w == p.dst then Delivered
    else
      var x := Hop(r, g, spot.w, p.dst);
      At(spot.w, x, |On(n.links, spot.w, x)|)
  }

  lemma StillHeading(g: Topology, n: Net, step: Step, spot: Spot, p: Packet)
    requires WellFormed(g) && Enabled(g, n, step) && Heading(g, n, spot, p)
    requires !Reads(g, step, spot.u, spot.w) || spot.i > 0
    ensures Heading(g, Next(g, n, step), if Reads(g, step, spot.u, spot.w) then spot.(i := spot.i - 1) else spot, p)
  {
    LinkAfter(g, n, step, spot.u, spot.w);
  }

  lemma ReaderIsSwitch(g: Topology, n: Net, step: Step, spot: Spot)
    requires Enabled(g, n, step) && spot.At? && Reads(g, step, spot.u, spot.w) && spot.w in g.switches
    ensures spot.w in g.ports && step == Forward(spot.w, step.port)
    ensures step.port < |g.ports[spot.w]| && g.ports[spot.w][step.port] == spot.u
  {
  }

  lemma HandedOn(r: Rooting, g: Topology, n: Net, step: Step, spot: Spot, p: Packet)
    requires NetInv(r, g, n) && LeafHosts(g) && Enabled(g, n, step) && Heading(g, n, spot, p)
    requires Reads(g, step, spot.u, spot.w) && spot.i == 0 && spot.w != p.dst
    ensures spot.w in g.ports && step == Forward(spot.w, step.port)
    ensures var x := Hop(r, g, spot.w, p.dst);
      && Heading(g, Next(g, n, step), At(spot.w, x, |On(n.links, spot.w, x)|), p)
      && Dist(r, g, spot.w, p.dst) == Dist(r, g, x, p.dst) + 1
      && Writes(g, n, step, spot.w, x) == [p]
  {
    ReaderIsSwitch(g, n, step, spot);
    hide PacketsOk, EntriesOk, TablesFit, Roots, Hop, Dist, LeafHosts, Enabled, Next, Writes, Reads, Above;
    HopGetsCopy(r, g, n, spot.w, step.port);
    var x := Hop(r, g, spot.w, p.dst);
    HopIsTowards(r, g, spot.w, p.dst);
    HopIsLive(r, g, spot.w, p.dst);
    CopyLands(g, n, step, spot.w, x, p);
  }

  // One step of any process: the copy stays, moves up, moves on towards its destination, or is
  // accepted there.
  lemma TowardStep(r: Rooting, g: Topology, n: Net, step: Step, spot: Spot, p: Packet)
    requires NetInv(r, g, n) && LeafHosts(g) && Enabled(g, n, step) && Heading(g, n, spot, p)
    ensures spot.w in g.ports
    ensures var next := Toward(r, g, n, step, spot, p);
      if next == Delivered then
        && step.Take? && step.host == p.dst && spot.i == 0 && Reads(g, step, spot.u, p.dst)
        && Log(Next(g, n, step).accepted, p.dst) == Log(n.accepted, p.dst) + [p]
      else
        && Heading(g, Next(g, n, step), next, p) && next.w in g.ports
        && (!Reads(g, step, spot.u, spot.w) ==> next == spot)
        && (Reads(g, step, spot.u, spot.w) ==>
              Dist(r, g, next.w, p.dst) < Dist(r, g, spot.w, p.dst) || (next.w == spot.w && next.i < spot.i))
  {
    hide Dist, Hop, LeafHosts;
    if !Reads(g, step, spot.u, spot.w) || spot.i > 0 {
      hide NetInv;
      StillHeading(g, n, step, spot, p);
    } else if spot.w != p.dst {
      HandedOn(r, g, n, step, spot, p);
    }
  }

  lemma CopyWaits(r: Rooting, g: Topology, run: nat -> Net, steps: nat -> Step, t: nat, last: nat, spot: Spot,
        p: Packet)
    returns (t': nat)
    requires Rooted(r, g) && IsFairRun(g, run, steps) && t <= last && Heading(g, run(t), spot, p)
    requires Reads(g, steps(last), spot.u, spot.w) || On(run(last).links, spot.u, spot.w) == []
    ensures t <= t' && Reads(g, steps(t'), spot.u, spot.w) && Heading(g, run(t'), spot, p)
    decreases last - t
  {
    if Reads(g, steps(t), spot.u, spot.w) {
      t' := t;
    } else {
      FairStep(g, run, steps, t);
      StillHeading(g, run(t), steps(t), spot, p);
      t' := CopyWaits(r, g, run, steps, t + 1, last, spot, p);
    }
  }

  lemma HeadingArrives(r: Rooting, g: Topology, run: nat -> Net, steps: nat -> Step, t: nat, spot: Spot, p: Packet)
    returns (t': nat)
    requires Rooted(r, g) && LeafHosts(g) && IsFairRun(g, run, steps) && Heading(g, run(t), spot, p)
    requires spot.w in g.ports
    ensures t <= t' && steps(t').Take? && steps(t').host == p.dst
    ensures Log(run(t' + 1).accepted, p.dst) == Log(run(t').accepted, p.dst) + [p]
    decreases Dist(r, g, spot.w, p.dst), spot.i
  {
    hide *;
    FairRunInv(r, g, run, steps, t);
    var last := LinkIsServed(r, g, run, steps, t, spot, p);
    var read := CopyWaits(r, g, run, steps, t, last, spot, p);
    FairRunInv(r, g, run, steps, read);
    FairStep(g, run, steps, read);
    TowardStep(r, g, run(read), steps(read), spot, p);
    var next := Toward(r, g, run(read), steps(read), spot, p);
    if next == Delivered {
      t' := read;
    } else {
      t' := HeadingArrives(r, g, run, steps, read + 1, next, p);
    }
  }

  lemma HeldIsAdjacent(r: Rooting, g: Topology, n: Net, spot: Spot, p: Packet)
    requires NetInv(r, g, n) && Heading(g, n, spot, p)
    ensures spot.At? && Adjacent(g, spot.u, spot.w)
  {
    assert PacketOk(g, n, spot.u, spot.w, On(n.links, spot.u, spot.w)[spot.i]);
  }

  lemma LinkIsServed(r: Rooting, g: Topology, run: nat -> Net, steps: nat -> Step, t: nat, spot: Spot, p: Packet)
    returns (last: nat)
    requires IsFairRun(g, run, steps) && NetInv(r, g, run(t)) && Heading(g, run(t), spot, p)
    ensures t <= last && spot.At?
    ensures Reads(g, steps(last), spot.u, spot.w) || On(run(last).links, spot.u, spot.w) == []
  {
    hide NetInv, Heading, Enabled, Next;
    HeldIsAdjacent(r, g, run(t), spot, p);
    assert ServedLater(g, run, steps, t, spot.u, spot.w);
    last :| t <= last && (Reads(g, steps(last), spot.u, spot.w) || On(run(last).links, spot.u, spot.w) == []);
  }

  lemma LeafLink(g: Topology, h: Id)
    requires WellFormed(g) && IsLeaf(g, h)
    ensures g.ports[h][0] in g.ports && forall w :: Adjacent(g, h, w) <==> w == g.ports[h][0]
  {
  }

  lemma SendHeads(r: Rooting, g: Topology, n: Net, h: Id, p: Packet)
    requires Rooted(r, g) && LeafHosts(g) && IsLeaf(g, h) && Enabled(g, n, Send(h, p))
    requires 0 <= p.dst < TABLE_SIZE && IsHost(g, p.dst)
    requires p.dst == h ==> g.ports[h][0] in g.switches
    ensures var w := g.ports[h][0];
      w in g.ports && Heading(g, Next(g, n, Send(h, p)), At(h, w, |On(n.links, h, w)|), p)
  {
    hide Roots, Hop, Dist, Above, LeafHosts, Next, WellFormed, Towards;
    var w := g.ports[h][0];
    LeafLink(g, h);
    if p.dst != h {
      HopIsTowards(r, g, h, p.dst);
      HopIsLive(r, g, h, p.dst);
      assert Hop(r, g, h, p.dst) == w;
    }
    assert Writes(g, n, Send(h, p), h, w) == [p];
    CopyLands(g, n, Send(h, p), h, w, p);
  }

  // In every fair run of a tree whose hosts are leaves, every packet sent to an existing host is
  // accepted by it at least once, whatever the switches know. (A host wired straight to another
  // host cannot reach itself.)
  lemma EverySendArrives(g: Topology, run: nat -> Net, steps: nat -> Step, t: nat, h: Id, p: Packet)
    returns (t': nat)
    requires IsTree(g) && LeafHosts(g) && IsFairRun(g, run, steps) && steps(t) == Send(h, p)
    requires 0 <= p.dst < TABLE_SIZE && IsHost(g, p.dst)
    requires p.dst == h ==> h in g.ports && g.ports[h] != [] && g.ports[h][0] in g.switches
    ensures t < t' && steps(t').Take? && steps(t').host == p.dst
    ensures Log(run(t' + 1).accepted, p.dst) == Log(run(t').accepted, p.dst) + [p]
  {
    FairStep(g, run, steps, t);
    assert IsLeaf(g, h);
    TreeHasRooting(g, h);
    var r := RootedAt(g, h);
    hide IsTree, IsFairRun, RootedAt;
    SendHeads(r, g, run(t), h, p);
    var w := g.ports[h][0];
    t' := HeadingArrives(r, g, run, steps, t + 1, At(h, w, |On(run(t).links, h, w)|), p);
  }
}
