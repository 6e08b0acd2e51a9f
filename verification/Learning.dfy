// In every reachable state of a tree of switches, every forwarding table entry is right, although
// flooding sends packets back where they came from.
module Learning {
  import opened Types
  import opened Switches
  import opened Trees
  import opened Network

  predicate FromHost(g: Topology, p: Packet) {
    0 <= p.src < TABLE_SIZE && IsHost(g, p.src)
  }

  ghost predicate TablesFit(g: Topology, n: Net) {
    n.tables.Keys == g.switches && forall u :: u in g.switches ==> u in g.ports && GoodTable(n.tables[u], |g.ports[u]|)
  }

  // A packet travels under the id of a host, and the node that wrote it either is that host or
  // had already recorded it.
  ghost predicate PacketOk(g: Topology, n: Net, u: Id, w: Id, p: Packet) {
    FromHost(g, p) && Routable(p) && Adjacent(g, u, w) && (p.src == u || Knows(n, u, p.src))
  }

  ghost predicate PacketsOk(g: Topology, n: Net) {
    forall u, w, p {:trigger PacketOk(g, n, u, w, p)} :: p in On(n.links, u, w) ==> PacketOk(g, n, u, w, p)
  }

  // An entry is the next hop towards its host, and that next hop is the host itself or has an
  // entry for it too.
  ghost predicate EntryOk(r: Rooting, g: Topology, n: Net, u: Id, s: Id)
    requires Rooted(r, g) && TablesFit(g, n) && Knows(n, u, s)
  {
    && IsHost(g, s)
    && var w := Via(g, n, u, s); w == Hop(r, g, u, s) && (w == s || Knows(n, w, s))
  }

  lemma KnownFits(g: Topology, n: Net, u: Id, s: Id)
    requires TablesFit(g, n) && Knows(n, u, s)
    ensures u in g.switches && u in g.ports && 0 <= Entry(n, u, s) < |g.ports[u]|
  {
  }

  ghost predicate EntriesOk(r: Rooting, g: Topology, n: Net)
    requires Rooted(r, g) && TablesFit(g, n)
  {
    forall u, s: Id {:trigger EntryOk(r, g, n, u, s)} :: Knows(n, u, s) ==> EntryOk(r, g, n, u, s)
  }

  lemma KnownIsOk(r: Rooting, g: Topology, n: Net, u: Id, s: Id)
    requires NetInv(r, g, n) && Knows(n, u, s)
    ensures u in g.switches && u in g.ports && 0 <= Entry(n, u, s) < |g.ports[u]| && IsHost(g, s)
    ensures Via(g, n, u, s) == Hop(r, g, u, s)
    ensures Via(g, n, u, s) == s || Knows(n, Via(g, n, u, s), s)
  {
    KnownFits(g, n, u, s);
    assert EntryOk(r, g, n, u, s);
  }

  ghost predicate NetInv(r: Rooting, g: Topology, n: Net) {
    Rooted(r, g) && TablesFit(g, n) && PacketsOk(g, n) && EntriesOk(r, g, n)
  }

  lemma InvInitially(r: Rooting, g: Topology, n: Net)
    requires Rooted(r, g) && Initial(g, n)
    ensures NetInv(r, g, n)
  {
  }

  lemma TablesStayFit(g: Topology, n: Net, step: Step)
    requires TablesFit(g, n) && Enabled(g, n, step)
    ensures TablesFit(g, Next(g, n, step))
  {
  }

  // Where a packet a switch writes comes from: by then the switch has an entry for its source.
  lemma ForwardedOk(g: Topology, n: Net, u: Id, k: nat, b: Id, p: Packet)
    requires TablesFit(g, n) && PacketsOk(g, n) && Enabled(g, n, Forward(u, k))
    requires p in Writes(g, n, Forward(u, k), u, b)
    ensures PacketOk(g, Next(g, n, Forward(u, k)), u, b, p)
  {
    var from := g.ports[u][k];
    assert p == On(n.links, from, u)[0];
    assert PacketOk(g, n, from, u, p);
    EntryAfter(g, n, Forward(u, k), u, p.src);
    var table := Learn(n.tables[u], p.src, k);
    assert b in ForwardTo(g, u, table, p.dst) && b in g.ports[u];
  }

  lemma WrittenOk(g: Topology, n: Net, step: Step, a: Id, b: Id, p: Packet)
    requires TablesFit(g, n) && PacketsOk(g, n) && Enabled(g, n, step) && p in Writes(g, n, step, a, b)
    ensures PacketOk(g, Next(g, n, step), a, b, p)
  {
    if step.Forward? {
      ForwardedOk(g, n, step.switch, step.port, b, p);
    }
  }

  lemma PacketsStayOk(r: Rooting, g: Topology, n: Net, step: Step)
    requires NetInv(r, g, n) && Enabled(g, n, step)
    ensures PacketsOk(g, Next(g, n, step))
  {
    var n' := Next(g, n, step);
    forall a, b, p | p in On(n'.links, a, b)
      ensures PacketOk(g, n', a, b, p)
    {
      LinkAfter(g, n, step, a, b);
      if p in Writes(g, n, step, a, b) {
        WrittenOk(g, n, step, a, b, p);
      } else {
        assert p in On(n.links, a, b);
        assert PacketOk(g, n, a, b, p);
        EntryAfter(g, n, step, a, p.src);
      }
    }
  }

  // The heart of the matter: a packet of an unknown source can only have come straight from the
  // direction of that source. Had it been reflected, its sender would route the source through
  // `u`, and then `u` would have known the source first.
  lemma UnknownSourceComesTheRightWay(r: Rooting, g: Topology, n: Net, from: Id, u: Id, p: Packet)
    requires NetInv(r, g, n) && u in g.switches && p in On(n.links, from, u) && FromHost(g, p) && !Knows(n, u, p.src)
    ensures u in g.ports && Adjacent(g, from, u)
    ensures u != p.src && Hop(r, g, u, p.src) == from && (from == p.src || Knows(n, from, p.src))
  {
    var s: Id := p.src;
    assert PacketOk(g, n, from, u, p);
    LinkIsOriented(r, g, from, u, s);
    if Towards(r, g, from, u, s) {
      KnownIsOk(r, g, n, from, s);
      assert false;
    }
  }

  lemma EntryStaysOk(r: Rooting, g: Topology, n: Net, step: Step, u: Id, s: Id)
    requires NetInv(r, g, n) && Enabled(g, n, step)
    requires TablesFit(g, Next(g, n, step)) && Knows(Next(g, n, step), u, s)
    ensures EntryOk(r, g, Next(g, n, step), u, s)
  {
    var n' := Next(g, n, step);
    EntryAfter(g, n, step, u, s);
    KnownFits(g, n', u, s);
    if Knows(n, u, s) {
      KnownIsOk(r, g, n, u, s);
      EntryAfter(g, n, step, Via(g, n, u, s), s);
    } else {
      var from := g.ports[u][step.port];
      var p := On(n.links, from, u)[0];
      assert p in On(n.links, from, u) && PacketOk(g, n, from, u, p);
      UnknownSourceComesTheRightWay(r, g, n, from, u, p);
      EntryAfter(g, n, step, from, s);
    }
  }

  // The invariant survives every step of every process.
  lemma InvKept(r: Rooting, g: Topology, n: Net, step: Step)
    requires NetInv(r, g, n) && Enabled(g, n, step)
    ensures NetInv(r, g, Next(g, n, step))
  {
    var n' := Next(g, n, step);
    TablesStayFit(g, n, step);
    PacketsStayOk(r, g, n, step);
    forall u, s: Id | Knows(n', u, s)
      ensures EntryOk(r, g, n', u, s)
    {
      EntryStaysOk(r, g, n, step, u, s);
    }
  }

  // ---- Runs ----

  ghost predicate IsRun(g: Topology, states: seq<Net>, steps: seq<Step>) {
    && |states| == |steps| + 1 && Initial(g, states[0])
    && forall i :: 0 <= i < |steps| ==> Enabled(g, states[i], steps[i]) && states[i + 1] == Next(g, states[i], steps[i])
  }

  ghost predicate Reachable(g: Topology, n: Net) {
    exists states, steps :: IsRun(g, states, steps) && states[|steps|] == n
  }

  lemma {:induction false} RunKeepsInv(r: Rooting, g: Topology, states: seq<Net>, steps: seq<Step>, i: nat)
    requires Rooted(r, g) && IsRun(g, states, steps) && i <= |steps|
    ensures NetInv(r, g, states[i])
  {
    if i == 0 {
      InvInitially(r, g, states[0]);
    } else {
      RunKeepsInv(r, g, states, steps, i - 1);
      InvKept(r, g, states[i - 1], steps[i - 1]);
    }
  }

  lemma ReachableInv(r: Rooting, g: Topology, n: Net)
    requires Rooted(r, g) && Reachable(g, n)
    ensures NetInv(r, g, n)
  {
    var states, steps :| IsRun(g, states, steps) && states[|steps|] == n;
    RunKeepsInv(r, g, states, steps, |steps|);
  }

  // In every reachable state of any tree, whatever the hosts send: an entry of switch `u` for `s`
  // names a port behind which host `s` lies, on every path there is.
  lemma EveryEntryIsRight(g: Topology, n: Net, u: Id, s: Id)
    requires IsTree(g) && Reachable(g, n) && Knows(n, u, s)
    ensures u in g.ports && 0 <= Entry(n, u, s) < |g.ports[u]|
    ensures IsHost(g, s) && LiesBehind(g, u, Via(g, n, u, s), s)
  {
    var root :| root in g.ports;
    TreeHasRooting(g, root);
    var r := RootedAt(g, root);
    ReachableInv(r, g, n);
    KnownIsOk(r, g, n, u, s);
    HopLiesBehind(r, g, u, Via(g, n, u, s), s);
  }
}
