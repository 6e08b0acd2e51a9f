// What flooding costs: with more than one switch, a packet sent once can be delivered twice.
module Flooding {
  import opened Types
  import opened Switches
  import opened Trees
  import opened Network
  import opened Learning

  // Serving a packet writes it to every neighbour exactly when its destination has no entry after
  // the source has been recorded, and to the recorded one alone otherwise.
  lemma FloodedIffUnknown(g: Topology, n: Net, u: Id, k: nat, b: Id)
    requires WellFormed(g) && Enabled(g, n, Forward(u, k)) && TablesFit(g, n)
    ensures var p := On(n.links, g.ports[u][k], u)[0];
      var n' := Next(g, n, Forward(u, k));
      b in g.ports[u] ==>
        && ((!Knows(n', u, p.dst) || g.ports[u][Entry(n', u, p.dst)] == b) <==>
              On(n'.links, u, b) == On(n.links, u, b) + [p])
        && (On(n'.links, u, b) != On(n.links, u, b) + [p] ==> On(n'.links, u, b) == On(n.links, u, b))
  {
    LinkAfter(g, n, Forward(u, k), u, b);
    TablesStayFit(g, n, Forward(u, k));
    var q, p := On(n.links, u, b), On(n.links, g.ports[u][k], u)[0];
    assert |q + [p]| != |q + []| && q + [] == q;
  }

  // Host 0 - switch 1 - switch 2 - host 3.
  const LINE := Topology({1, 2}, map[0 := [1], 1 := [0, 2], 2 := [1, 3], 3 := [2]])

  lemma LineIsWellFormed()
    ensures WellFormed(LINE)
  {
    forall u | u in LINE.ports
      ensures Distinct(LINE.ports[u])
      ensures forall w :: w in LINE.ports[u] ==> w in LINE.ports && w != u && Adjacent(LINE, w, u)
    {
      assert u == 0 || u == 1 || u == 2 || u == 3;
    }
  }

  // Hung up at host 0.
  const LINE_ROOTING := Rooting(0, map[0 := 0, 1 := 0, 2 := 1, 3 := 2], map[0 := 0, 1 := 1, 2 := 2, 3 := 3])

  lemma LineLink(u: Id, w: Id)
    requires u < 4 && w < 4
    ensures Adjacent(LINE, u, w) <==> u == w + 1 || w == u + 1
  {
    assert u == 0 || u == 1 || u == 2 || u == 3;
  }

  lemma LineRoots()
    ensures Roots(LINE_ROOTING, LINE)
  {
    hide Adjacent;
    var r := LINE_ROOTING;
    assert LINE.ports.Keys == {0, 1, 2, 3} == r.parent.Keys == r.depth.Keys;
    forall u, w | u in LINE.ports && w in LINE.ports
      ensures Adjacent(LINE, u, w) <==> (u != r.root && r.parent[u] == w) || (w != r.root && r.parent[w] == u)
    {
      LineLink(u, w);
      assert u > 0 ==> r.parent[u] == u - 1;
      assert w > 0 ==> r.parent[w] == w - 1;
    }
  }

  lemma LineIsTree()
    ensures IsTree(LINE)
  {
    hide WellFormed, Roots, IsTree;
    LineIsWellFormed();
    LineRoots();
    TreeIffRooted(LINE);
    assert Rooted(LINE_ROOTING, LINE);
  }

  // Packet `p` from host 0 to host 3, which no switch knows: the queues on the links it passes.
  ghost predicate OnTheLine(n: Net, p: Packet, toS1: seq<Packet>, s1toS2: seq<Packet>, s2toS1: seq<Packet>,
                            toHost: seq<Packet>)
  {
    && n.tables.Keys == {1, 2} && !Knows(n, 1, 3) && !Knows(n, 2, 3)
    && p.src == 0 && p.dst == 3
    && On(n.links, 0, 1) == toS1 && On(n.links, 1, 2) == s1toS2 && On(n.links, 2, 1) == s2toS1
      && On(n.links, 2, 3) == toHost
  }

  // One link of the line when a switch floods.
  lemma LinkAfterFlood(n: Net, p: Packet, u: Id, k: nat, x: Id, y: Id)
    requires n.tables.Keys == {1, 2} && (u == 1 || u == 2) && k < 2 && p.src == 0 && p.dst == 3 && !Knows(n, u, 3)
    requires On(n.links, LINE.ports[u][k], u) == [p]
    ensures Enabled(LINE, n, Forward(u, k))
    ensures On(Next(LINE, n, Forward(u, k)).links, x, y)
         == (if x == LINE.ports[u][k] && y == u then [] else On(n.links, x, y))
            + (if x == u && y in LINE.ports[u] then [p] else [])
  {
    LineIsWellFormed();
    hide WellFormed;
    LinkAfter(LINE, n, Forward(u, k), x, y);
  }

  lemma TablesAfterFlood(n: Net, p: Packet, u: Id, k: nat)
    requires n.tables.Keys == {1, 2} && Enabled(LINE, n, Forward(u, k)) && !Knows(n, 1, 3) && !Knows(n, 2, 3)
    requires On(n.links, LINE.ports[u][k], u) == [p] && p.src == 0
    ensures var n' := Next(LINE, n, Forward(u, k));
      n'.tables.Keys == {1, 2} && !Knows(n', 1, 3) && !Knows(n', 2, 3) && n'.accepted == n.accepted && n'.sent == n.sent
  {
    EntryAfter(LINE, n, Forward(u, k), 1, 3);
    EntryAfter(LINE, n, Forward(u, k), 2, 3);
  }

  // A switch of the line floods `p`, back to where it came from as well.
  lemma FloodsOnTheLine(n: Net, p: Packet, u: Id, k: nat, a: seq<Packet>, b: seq<Packet>, c: seq<Packet>,
        d: seq<Packet>)
    requires OnTheLine(n, p, a, b, c, d) && (u == 1 || u == 2) && k < 2 && !(u == 2 && k == 1)
    requires On(n.links, LINE.ports[u][k], u) == [p]
    ensures Enabled(LINE, n, Forward(u, k)) && Next(LINE, n, Forward(u, k)).sent == n.sent
    ensures var n' := Next(LINE, n, Forward(u, k));
      if u == 1 && k == 0 then OnTheLine(n', p, [], b + [p], c, d)
      else if u == 1 then OnTheLine(n', p, a, b + [p], [], d)
      else OnTheLine(n', p, a, [], c + [p], d + [p])
  {
    hide Next, Enabled, Knows;
    LinkAfterFlood(n, p, u, k, 0, 1);
    LinkAfterFlood(n, p, u, k, 1, 2);
    LinkAfterFlood(n, p, u, k, 2, 1);
    LinkAfterFlood(n, p, u, k, 2, 3);
    TablesAfterFlood(n, p, u, k);
    hide On;
    assert a + [] == a && b + [] == b && c + [] == c && d + [] == d;
  }

  lemma SendsOnTheLine(n: Net, p: Packet)
    requires Initial(LINE, n) && p.src == 0 && p.dst == 3
    ensures Enabled(LINE, n, Send(0, p))
    ensures OnTheLine(Next(LINE, n, Send(0, p)), p, [p], [], [], []) && Next(LINE, n, Send(0, p)).sent == map[0 := [p]]
  {
    LineIsWellFormed();
    var step := Send(0, p);
    LinkAfter(LINE, n, step, 0, 1);
    LinkAfter(LINE, n, step, 1, 2);
    LinkAfter(LINE, n, step, 2, 1);
    LinkAfter(LINE, n, step, 2, 3);
    assert [] + [p] == [p];
  }

  // Host 0 sends one packet. After four served ports it is waiting twice on the link to host 3.
  lemma SentOnceDeliveredTwice(n0: Net, p: Packet) returns (states: seq<Net>, steps: seq<Step>)
    requires Initial(LINE, n0) && p.src == 0 && p.dst == 3
    ensures IsRun(LINE, states, steps) && |steps| == 5
    ensures states[5].sent == map[0 := [p]]
    ensures On(states[5].links, 2, 3) == [p, p]
  {
    hide Next, Enabled, Initial, Knows, On;
    steps := [Send(0, p), Forward(1, 0), Forward(2, 0), Forward(1, 1), Forward(2, 0)];
    SendsOnTheLine(n0, p);
    var n1 := Next(LINE, n0, steps[0]);
    FloodsOnTheLine(n1, p, 1, 0, [p], [], [], []);
    var n2 := Next(LINE, n1, steps[1]);
    FloodsOnTheLine(n2, p, 2, 0, [], [p], [], []);
    var n3 := Next(LINE, n2, steps[2]);
    FloodsOnTheLine(n3, p, 1, 1, [], [], [p], [p]);
    var n4 := Next(LINE, n3, steps[3]);
    FloodsOnTheLine(n4, p, 2, 0, [], [p], [], [p]);
    var n5 := Next(LINE, n4, steps[4]);
    states := [n0, n1, n2, n3, n4, n5];
    assert n5.sent == n4.sent == n3.sent == n2.sent == n1.sent;
    assert OnTheLine(n5, p, [], [], [p], [p, p]);
  }
}
