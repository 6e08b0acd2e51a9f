// From the links of a pipe-only configuration file, through the port lists of net.c, to the
// topology the network theorems speak about.
module Configuration {
  import opened Types
  import opened Ports
  import opened Star
  import opened Trees

  // Links between different nodes 0..n-1, no two of them between the same nodes.
  ghost predicate PlainConfig(links: seq<Link>, n: nat) {
    && n <= TABLE_SIZE
    && (forall i :: 0 <= i < |links| ==>
          links[i].PipeLink? && 0 <= links[i].node0 < n && 0 <= links[i].node1 < n && links[i].node0 != links[i].node1)
    && (forall i, j :: 0 <= i < j < |links| ==> Ends(links[i]) != Ends(links[j]))
  }

  function Ends(link: Link): set<int> {
    if link.PipeLink? then {link.node0, link.node1} else {link.host}
  }

  lemma AllPipes(links: seq<Link>, n: nat)
    requires PlainConfig(links, n)
    ensures forall link :: link in links ==> link.PipeLink?
  {
  }

  // A port of node u belongs to a link that joins u and the neighbour behind the port.
  lemma PortJoins(links: seq<Link>, n: nat, u: int, p: Port)
    requires PlainConfig(links, n) && p in NodePorts(links, u)
    ensures (forall link :: link in links ==> link.PipeLink?) && p.PipePort? && p in GlobalList(links)
    ensures LinkOf(p) < |links|
    ensures Ends(links[LinkOf(p)]) == {u, NeighbourAt(links, p, u)} && u != NeighbourAt(links, p, u)
    ensures 0 <= NeighbourAt(links, p, u) < n
    ensures p == if links[LinkOf(p)].node0 == u then PipePort(u, 2 * LinkOf(p), 2 * LinkOf(p) + 1)
                 else PipePort(u, 2 * LinkOf(p) + 1, 2 * LinkOf(p))
  {
    AllPipes(links, n);
    NodeListsPartition(links, p, u);
    var v := NeighbourAt(links, p, u);
    PipePortOrigin(links, p);
    var i := LinkOf(p);
    hide GlobalList, NodePorts;
    PipeNumbers(i);
  }

  lemma {:induction false} FilterDistinct(s: seq<Port>, keep: Port -> bool)
    requires Distinct(s)
    ensures Distinct(Filter(s, keep))
  {
    if s != [] {
      assert forall i, j :: 0 <= i < j < |s[1..]| ==> s[1..][i] == s[i + 1] && s[1..][j] == s[j + 1];
      FilterDistinct(s[1..], keep);
      FilterMember(s[1..], keep, s[0]);
      assert s[0] !in s[1..];
    }
  }

  lemma {:induction false} ReverseDistinct(s: seq<Port>)
    requires Distinct(s)
    ensures Distinct(Reverse(s))
  {
    if s != [] {
      assert forall i, j :: 0 <= i < j < |s[1..]| ==> s[1..][i] == s[i + 1] && s[1..][j] == s[j + 1];
      ReverseDistinct(s[1..]);
      ReverseMember(s[1..], s[0]);
      assert s[0] !in s[1..];
    }
  }

  // No port occurs twice in the global list.
  lemma {:induction false} GlobalDistinct(links: seq<Link>)
    requires forall i :: 0 <= i < |links| ==> links[i].PipeLink?
    ensures Distinct(GlobalList(links))
  {
    if links != [] {
      var last := |links| - 1;
      var earlier := links[..last];
      GlobalDistinct(earlier);
      var here, rest := PortsOfLink(links[last], last), GlobalList(earlier);
      forall p | p in rest
        ensures p !in here
      {
        if p.PipePort? {
          PipePortOrigin(earlier, p);
          PipeNumbers(last);
        }
      }
      assert here[0] in here && here[1] in here && here[0] != here[1];
      assert GlobalList(links) == here + rest;
    }
  }

  lemma NodePortsDistinct(links: seq<Link>, n: nat, u: int)
    requires PlainConfig(links, n)
    ensures Distinct(NodePorts(links, u))
  {
    GlobalDistinct(links);
    FilterDistinct(GlobalList(links), Of(u));
    ReverseDistinct(Filter(GlobalList(links), Of(u)));
  }

  // Distinct ports of a node lead to distinct neighbours.
  lemma NeighboursDistinct(links: seq<Link>, n: nat, u: int)
    requires PlainConfig(links, n)
    ensures forall link :: link in links ==> link.PipeLink?
    ensures Distinct(Neighbours(links, u))
  {
    AllPipes(links, n);
    NodePortsDistinct(links, n, u);
    var ports, ns := NodePorts(links, u), Neighbours(links, u);
    forall i, j | 0 <= i < j < |ns|
      ensures ns[i] != ns[j]
    {
      var p, q := ports[i], ports[j];
      PortJoins(links, n, u, p);
      PortJoins(links, n, u, q);
      assert ns[i] == NeighbourAt(links, p, u) && ns[j] == NeighbourAt(links, q, u) && p != q;
      assert LinkOf(p) != LinkOf(q);
      assert Ends(links[LinkOf(p)]) != Ends(links[LinkOf(q)]);
    }
  }

  lemma NeighbourInRange(links: seq<Link>, n: nat, u: int, v: int)
    requires PlainConfig(links, n)
    requires (forall link :: link in links ==> link.PipeLink?) && v in Neighbours(links, u)
    ensures 0 <= v < n && v != u && u in Neighbours(links, v)
  {
    var k :| 0 <= k < |NodePorts(links, u)| && Neighbours(links, u)[k] == v;
    PortJoins(links, n, u, NodePorts(links, u)[k]);
    NeighboursMutual(links, u, v);
  }

  // The topology of a configuration: nodes 0..n-1, some of them switches, each with its port
  // array as the processes build it.
  ghost predicate Describes(g: Topology, links: seq<Link>, n: nat)
    requires PlainConfig(links, n)
  {
    AllPipes(links, n);
    && (forall u: Id :: u in g.ports <==> u < n) && g.switches <= g.ports.Keys
    && forall u: Id :: u in g.ports ==>
         && |g.ports[u]| == |Neighbours(links, u)|
         && forall k :: 0 <= k < |g.ports[u]| ==> g.ports[u][k] == Neighbours(links, u)[k]
  }

  // Such a topology is well formed: distinct ports to distinct other nodes, links usable both ways.
  lemma ConfigurationsAreWellFormed(g: Topology, links: seq<Link>, n: nat)
    requires PlainConfig(links, n) && Describes(g, links, n)
    ensures WellFormed(g)
  {
    AllPipes(links, n);
    forall u | u in g.ports
      ensures Distinct(g.ports[u])
      ensures forall w :: w in g.ports[u] ==> w in g.ports && w != u && Adjacent(g, w, u)
    {
      NeighboursDistinct(links, n, u);
      var ns := Neighbours(links, u);
      assert forall k :: 0 <= k < |ns| ==> g.ports[u][k] == ns[k];
      forall w | w in g.ports[u]
        ensures w in g.ports && w != u && Adjacent(g, w, u)
      {
        var k :| 0 <= k < |ns| && g.ports[u][k] == w;
        NeighbourInRange(links, n, u, w);
        var j :| 0 <= j < |Neighbours(links, w)| && Neighbours(links, w)[j] == u;
        assert g.ports[w][j] == u;
      }
    }
  }

  // A configuration like switch.config: one switch, every link ends there, every host has a link.
  ghost predicate StarConfig(g: Topology, links: seq<Link>, n: nat, c: Id) {
    && PlainConfig(links, n) && Describes(g, links, n) && c < n && g.switches == {c}
    && (forall i :: 0 <= i < |links| ==> c in Ends(links[i]))
    && (forall h: Id :: IsHost(g, h) ==> Linked(links, h))
  }

  ghost predicate Linked(links: seq<Link>, h: int) {
    exists i :: 0 <= i < |links| && h in Ends(links[i])
  }

  lemma LinkGivesPort(links: seq<Link>, i: nat, h: int)
    requires i < |links| && links[i].PipeLink? && h in Ends(links[i])
    ensures NodePorts(links, h) != []
  {
    var p := if links[i].node0 == h then PortsOfLink(links[i], i)[0] else PortsOfLink(links[i], i)[1];
    assert p in PortsOfLink(links[i], i) && p.host == h;
    GlobalMember(links, p);
    NodeListsPartition(links, p, h);
  }

  lemma HostHangsAtSwitch(g: Topology, links: seq<Link>, n: nat, c: Id, h: Id)
    requires StarConfig(g, links, n, c) && IsHost(g, h)
    ensures g.ports[h] == [c]
  {
    AllPipes(links, n);
    var ns := Neighbours(links, h);
    NeighboursDistinct(links, n, h);
    assert |ns| > 1 ==> ns[0] != ns[1];
    assert Linked(links, h);
    var i :| 0 <= i < |links| && h in Ends(links[i]);
    LinkGivesPort(links, i, h);
    forall k | 0 <= k < |ns|
      ensures ns[k] == c
    {
      var p := NodePorts(links, h)[k];
      PortJoins(links, n, h, p);
      assert c in Ends(links[LinkOf(p)]);
    }
    assert |g.ports[h]| == 1 && g.ports[h][0] == ns[0] == c;
  }

  // It is a star.
  lemma StarConfigurations(g: Topology, links: seq<Link>, n: nat, c: Id)
    requires StarConfig(g, links, n, c)
    ensures IsStar(g, c)
  {
    ConfigurationsAreWellFormed(g, links, n);
    hide WellFormed;
    forall h: Id | IsHost(g, h)
      ensures g.ports[h] == [c]
    {
      HostHangsAtSwitch(g, links, n, c, h);
    }
  }

  // ---- Configurations there are ----

  function PortArray(links: seq<Link>, n: nat, u: Id): (ws: seq<Id>)
    requires PlainConfig(links, n)
    ensures (forall link :: link in links ==> link.PipeLink?) && ws == Neighbours(links, u)
  {
    AllPipes(links, n);
    var ns := Neighbours(links, u);
    assert forall k :: 0 <= k < |ns| ==> 0 <= ns[k] < TABLE_SIZE by {
      forall k | 0 <= k < |ns|
        ensures 0 <= ns[k] < TABLE_SIZE
      {
        NeighbourInRange(links, n, u, ns[k]);
      }
    }
    ns
  }

  // Every such configuration describes a topology.
  lemma SomeTopology(links: seq<Link>, n: nat, switches: set<Id>) returns (g: Topology)
    requires PlainConfig(links, n) && forall s :: s in switches ==> s < n
    ensures Describes(g, links, n) && g.switches == switches
  {
    AllPipes(links, n);
    g := Topology(switches, map u: Id | u < n :: PortArray(links, n, u));
  }

  // The links of the file switch.config.
  const SWITCH_CONFIG := [PipeLink(0, 2), PipeLink(1, 2), PipeLink(2, 3), PipeLink(2, 4)]

  lemma SwitchConfigIsPlain()
    ensures PlainConfig(SWITCH_CONFIG, 5)
  {
    assert 0 in Ends(SWITCH_CONFIG[0]) && 0 !in Ends(SWITCH_CONFIG[1]) && 0 !in Ends(SWITCH_CONFIG[2])
      && 0 !in Ends(SWITCH_CONFIG[3]);
    assert 1 in Ends(SWITCH_CONFIG[1]) && 1 !in Ends(SWITCH_CONFIG[2]) && 1 !in Ends(SWITCH_CONFIG[3]);
    assert 3 in Ends(SWITCH_CONFIG[2]) && 3 !in Ends(SWITCH_CONFIG[3]);
  }

  lemma SwitchConfigLinks(h: Id)
    requires h == 0 || h == 1 || h == 3 || h == 4
    ensures Linked(SWITCH_CONFIG, h)
    ensures forall i :: 0 <= i < |SWITCH_CONFIG| ==> 2 in Ends(SWITCH_CONFIG[i])
  {
    assert h in Ends(SWITCH_CONFIG[if h < 2 then h else h - 1]);
  }

  // It describes a star, and so a tree, with hosts 0, 1, 3 and 4 round switch 2.
  lemma SwitchConfigIsStar() returns (g: Topology)
    ensures PlainConfig(SWITCH_CONFIG, 5) && Describes(g, SWITCH_CONFIG, 5)
    ensures IsStar(g, 2) && IsTree(g) && forall h: Id :: IsHost(g, h) <==> h == 0 || h == 1 || h == 3 || h == 4
  {
    hide PlainConfig, Describes, Linked, IsStar, IsTree, Ends, SWITCH_CONFIG;
    g := SwitchTopology();
    forall h: Id | IsHost(g, h)
      ensures Linked(SWITCH_CONFIG, h)
    {
      SwitchConfigLinks(h);
    }
    SwitchConfigLinks(0);
    ItIsStarConfig(g);
    StarConfigurations(g, SWITCH_CONFIG, 5, 2);
    StarIsTree(g, 2);
  }

  lemma SwitchTopology() returns (g: Topology)
    ensures PlainConfig(SWITCH_CONFIG, 5) && Describes(g, SWITCH_CONFIG, 5)
    ensures (forall u: Id :: u in g.ports <==> u < 5) && g.switches == {2}
  {
    hide Ends, SWITCH_CONFIG;
    SwitchConfigIsPlain();
    g := SomeTopology(SWITCH_CONFIG, 5, {2});
  }

  lemma ItIsStarConfig(g: Topology)
    requires PlainConfig(SWITCH_CONFIG, 5) && Describes(g, SWITCH_CONFIG, 5) && g.switches == {2}
    requires forall i :: 0 <= i < |SWITCH_CONFIG| ==> 2 in Ends(SWITCH_CONFIG[i])
    requires forall h: Id :: IsHost(g, h) ==> Linked(SWITCH_CONFIG, h)
    ensures StarConfig(g, SWITCH_CONFIG, 5, 2)
  {
    hide PlainConfig, Describes, Linked, Ends, IsHost;
  }
}
