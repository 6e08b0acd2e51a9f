// One switch and n hosts with one link each: between any two hosts packets are neither lost, nor
// duplicated, nor reordered, whether they were sent by table or by flood.
module Star {
  import opened Types
  import opened Switches
  import opened Trees
  import opened Network
  import opened Learning

  ghost predicate IsStar(g: Topology, c: Id) {
    && WellFormed(g) && c in g.ports && g.switches == {c}
    && forall h :: IsHost(g, h) ==> g.ports[h] == [c]
  }

  function HungAtSwitch(g: Topology, c: Id): Rooting {
    Rooting(c, map u: Id | u in g.ports :: c, map u: Id | u in g.ports :: if u == c then 0 else 1)
  }

  lemma StarNeighbours(g: Topology, c: Id, u: Id)
    requires IsStar(g, c)
    ensures Adjacent(g, c, u) <==> IsHost(g, u)
    ensures IsHost(g, u) ==> u != c && forall w :: Adjacent(g, u, w) <==> w == c
  {
    if IsHost(g, u) {
      assert g.ports[u] == [c] && c in g.ports[u];
      assert Adjacent(g, c, u);
    }
  }

  lemma StarIsRooted(g: Topology, c: Id)
    requires IsStar(g, c)
    ensures Rooted(HungAtSwitch(g, c), g)
  {
    forall u, w | u in g.ports && w in g.ports
      ensures Adjacent(g, u, w) <==> (u != c && c == w) || (w != c && c == u)
    {
      StarNeighbours(g, c, u);
      StarNeighbours(g, c, w);
    }
  }

  // So all that is proved of trees holds of stars too.
  lemma StarIsTree(g: Topology, c: Id)
    requires IsStar(g, c)
    ensures IsTree(g)
  {
    StarIsRooted(g, c);
    TreeIffRooted(g);
  }

  lemma StarHop(g: Topology, c: Id, d: Id)
    requires IsStar(g, c) && IsHost(g, d)
    ensures Rooted(HungAtSwitch(g, c), g)
    ensures Hop(HungAtSwitch(g, c), g, c, d) == d
  {
    StarIsRooted(g, c);
    var r := HungAtSwitch(g, c);
    assert Above(r, g, d, d);
    DownIsOnlyChild(r, g, c, d, d);
  }

  function Part(ps: seq<Packet>, s: Id, d: Id): seq<Packet> {
    Filter(ps, Between(s, d))
  }

  // Packets s sent to d = packets d accepted from s, then those on the link to d, then those on
  // the link from s.
  ghost predicate Flow(n: Net, c: Id, s: Id, d: Id) {
    Part(Log(n.sent, s), s, d)
    == Part(Log(n.accepted, d), s, d) + Part(On(n.links, c, d), s, d) + Part(On(n.links, s, c), s, d)
  }

  ghost predicate AllFlow(g: Topology, n: Net, c: Id) {
    forall s, d :: IsHost(g, s) && IsHost(g, d) ==> Flow(n, c, s, d)
  }

  ghost predicate StarInv(g: Topology, n: Net, c: Id) {
    IsStar(g, c) && NetInv(HungAtSwitch(g, c), g, n) && AllFlow(g, n, c)
  }

  lemma PartOne(p: Packet, s: Id, d: Id)
    ensures Part([p], s, d) == if p.src == s && p.dst == d then [p] else []
    ensures Part([], s, d) == []
  {
    assert [p][1..] == [];
    assert Filter([p], Between(s, d)) == (if Between(s, d)(p) then [p] else []) + Filter([], Between(s, d));
  }

  // Appending packets to a queue and removing its oldest, as seen by one pair of hosts.
  lemma PartMoves(q: seq<Packet>, more: seq<Packet>, s: Id, d: Id)
    ensures Part(q + more, s, d) == Part(q, s, d) + Part(more, s, d)
    ensures q != [] ==> Part(q, s, d) == Part([q[0]], s, d) + Part(q[1..], s, d)
  {
    FilterConcat(q, more, Between(s, d));
    if q != [] {
      assert q == [q[0]] + q[1..];
      FilterConcat([q[0]], q[1..], Between(s, d));
    }
  }

  // One packet handed on from one stage to the next.
  lemma HandOn(a: seq<Packet>, x: seq<Packet>, b: seq<Packet>, c: seq<Packet>)
    ensures (a + x) + b + c == a + (x + b) + c
    ensures a + (b + x) + c == a + b + (x + c)
    ensures a + b + (c + x) == (a + b + c) + x
  {
  }

  lemma SendKeepsFlow(g: Topology, n: Net, c: Id, h: Id, p: Packet, s: Id, d: Id)
    requires IsStar(g, c) && Flow(n, c, s, d) && Enabled(g, n, Send(h, p)) && IsHost(g, s) && IsHost(g, d)
    ensures Flow(Next(g, n, Send(h, p)), c, s, d)
  {
    StarNeighbours(g, c, s);
    StarNeighbours(g, c, h);
    LinkAfter(g, n, Send(h, p), c, d);
    LinkAfter(g, n, Send(h, p), s, c);
    var n' := Next(g, n, Send(h, p));
    var x := if h == s then [p] else [];
    assert Log(n'.sent, s) == Log(n.sent, s) + x && Log(n'.accepted, d) == Log(n.accepted, d);
    assert On(n'.links, c, d) == On(n.links, c, d) && On(n'.links, s, c) == On(n.links, s, c) + x;
    hide IsStar, Enabled, Next, Part;
    PartMoves(Log(n.sent, s), x, s, d);
    PartMoves(On(n.links, s, c), x, s, d);
    HandOn(Part(Log(n.accepted, d), s, d), Part(x, s, d), Part(On(n.links, c, d), s, d), Part(On(n.links, s, c), s, d));
  }

  lemma TakeKeepsFlow(g: Topology, n: Net, c: Id, h: Id, k: nat, s: Id, d: Id)
    requires IsStar(g, c) && Flow(n, c, s, d) && Enabled(g, n, Take(h, k)) && IsHost(g, s) && IsHost(g, d)
    ensures Flow(Next(g, n, Take(h, k)), c, s, d)
  {
    StarNeighbours(g, c, s);
    StarNeighbours(g, c, h);
    LinkAfter(g, n, Take(h, k), c, d);
    LinkAfter(g, n, Take(h, k), s, c);
    var n' := Next(g, n, Take(h, k));
    assert g.ports[h][k] == c && k == 0;
    var q := On(n.links, c, d);
    assert n'.sent == n.sent && On(n'.links, s, c) == On(n.links, s, c);
    if h == d {
      var x := if q[0].dst == d then [q[0]] else [];
      assert Log(n'.accepted, d) == Log(n.accepted, d) + x && On(n'.links, c, d) == q[1..] && q != [];
      hide IsStar, Enabled, Next;
      PartOne(q[0], s, d);
      hide Part;
      PartMoves(q, [], s, d);
      PartMoves(Log(n.accepted, d), x, s, d);
      HandOn(Part(Log(n.accepted, d), s, d), Part(x, s, d), Part(q[1..], s, d), Part(On(n.links, s, c), s, d));
    } else {
      assert Log(n'.accepted, d) == Log(n.accepted, d) && On(n'.links, c, d) == q;
    }
  }

  // A packet from s to d leaves the switch towards d: because d is recorded at its own port, or
  // because it is flooded.
  lemma ForwardReaches(g: Topology, n: Net, c: Id, k: nat, d: Id)
    requires StarInv(g, n, c) && Enabled(g, n, Forward(c, k)) && IsHost(g, d)
    requires On(n.links, g.ports[c][k], c)[0].dst == d
    ensures Writes(g, n, Forward(c, k), c, d) == [On(n.links, g.ports[c][k], c)[0]]
  {
    var r := HungAtSwitch(g, c);
    var n' := Next(g, n, Forward(c, k));
    InvKept(r, g, n, Forward(c, k));
    StarNeighbours(g, c, d);
    if Knows(n', c, d) {
      KnownIsOk(r, g, n', c, d);
      StarHop(g, c, d);
    }
  }

  lemma ForwardKeepsFlow(g: Topology, n: Net, c: Id, k: nat, s: Id, d: Id)
    requires StarInv(g, n, c) && Enabled(g, n, Forward(c, k)) && IsHost(g, s) && IsHost(g, d)
    ensures Flow(Next(g, n, Forward(c, k)), c, s, d)
  {
    assert Flow(n, c, s, d);
    ForwardParts(g, n, c, k, s, d);
    MovedOn(n, Next(g, n, Forward(c, k)), c, s, d, Writes(g, n, Forward(c, k), c, d), g.ports[c][k] == s);
  }

  // Moving a packet from one link to the other keeps the flow.
  lemma MovedOn(n: Net, n': Net, c: Id, s: Id, d: Id, x: seq<Packet>, popped: bool)
    requires Flow(n, c, s, d) && n'.sent == n.sent && n'.accepted == n.accepted
    requires On(n'.links, c, d) == On(n.links, c, d) + x
    requires var up := On(n.links, s, c);
      if popped then up != [] && On(n'.links, s, c) == up[1..] && Part([up[0]], s, d) == Part(x, s, d)
      else On(n'.links, s, c) == up && Part(x, s, d) == []
    ensures Flow(n', c, s, d)
  {
    var down, up, up' := On(n.links, c, d), On(n.links, s, c), On(n'.links, s, c);
    PartMoves(down, x, s, d);
    PartMoves(up, [], s, d);
    hide Part;
    assert Part(up, s, d) == Part(x, s, d) + Part(up', s, d);
    HandOn(Part(Log(n.accepted, d), s, d), Part(x, s, d), Part(down, s, d), Part(up', s, d));
  }

  // What the switch moves from the link of s to the link of d, as that pair sees it.
  lemma ForwardParts(g: Topology, n: Net, c: Id, k: nat, s: Id, d: Id)
    requires StarInv(g, n, c) && Enabled(g, n, Forward(c, k)) && IsHost(g, s) && IsHost(g, d)
    ensures var n', x := Next(g, n, Forward(c, k)), Writes(g, n, Forward(c, k), c, d);
      && On(n'.links, c, d) == On(n.links, c, d) + x
      && if g.ports[c][k] == s
         then On(n.links, s, c) != [] && On(n'.links, s, c) == On(n.links, s, c)[1..]
              && Part([On(n.links, s, c)[0]], s, d) == Part(x, s, d)
         else On(n'.links, s, c) == On(n.links, s, c) && Part(x, s, d) == []
  {
    var from := g.ports[c][k];
    var p := On(n.links, from, c)[0];
    ForwardSource(g, n, c, k);
    StarNeighbours(g, c, d);
    LinkAfter(g, n, Forward(c, k), c, d);
    LinkAfter(g, n, Forward(c, k), s, c);
    PartOne(p, s, d);
    if p.src == s && p.dst == d {
      ForwardReaches(g, n, c, k, d);
    }
  }

  // In a star a packet on a host's link to the switch is one of that host's own.
  lemma ForwardSource(g: Topology, n: Net, c: Id, k: nat)
    requires StarInv(g, n, c) && Enabled(g, n, Forward(c, k))
    ensures On(n.links, g.ports[c][k], c)[0].src == g.ports[c][k] && g.ports[c][k] != c
  {
    var from := g.ports[c][k];
    var p := On(n.links, from, c)[0];
    assert p in On(n.links, from, c) && PacketOk(g, n, from, c, p);
    assert Adjacent(g, c, from);
    StarNeighbours(g, c, from);
  }

  lemma StarInvKept(g: Topology, n: Net, c: Id, step: Step)
    requires StarInv(g, n, c) && Enabled(g, n, step)
    ensures StarInv(g, Next(g, n, step), c)
  {
    InvKept(HungAtSwitch(g, c), g, n, step);
    forall s, d | IsHost(g, s) && IsHost(g, d)
      ensures Flow(Next(g, n, step), c, s, d)
    {
      match step
      case Send(h, p) => SendKeepsFlow(g, n, c, h, p, s, d);
      case Take(h, k) => TakeKeepsFlow(g, n, c, h, k, s, d);
      case Forward(u, k) => ForwardKeepsFlow(g, n, c, k, s, d);
      case Idle =>
    }
  }

  lemma StarInvInitially(g: Topology, n: Net, c: Id)
    requires IsStar(g, c) && Initial(g, n)
    ensures StarInv(g, n, c)
  {
    StarIsRooted(g, c);
    InvInitially(HungAtSwitch(g, c), g, n);
  }

  lemma {:induction false} RunKeepsStarInv(g: Topology, c: Id, states: seq<Net>, steps: seq<Step>, i: nat)
    requires IsStar(g, c) && IsRun(g, states, steps) && i <= |steps|
    ensures StarInv(g, states[i], c)
  {
    if i == 0 {
      StarInvInitially(g, states[0], c);
    } else {
      RunKeepsStarInv(g, c, states, steps, i - 1);
      StarInvKept(g, states[i - 1], c, steps[i - 1]);
    }
  }

  // In every reachable state of a star, for all hosts s and d and whatever the hosts send: what d
  // has accepted from s is what s sent to d, in order, up to what is still on the two links.
  lemma NoLossDuplicationOrReordering(g: Topology, n: Net, c: Id, s: Id, d: Id)
    requires IsStar(g, c) && Reachable(g, n) && IsHost(g, s) && IsHost(g, d)
    ensures Part(Log(n.sent, s), s, d)
         == Part(Log(n.accepted, d), s, d) + Part(On(n.links, c, d), s, d) + Part(On(n.links, s, c), s, d)
  {
    var states, steps :| IsRun(g, states, steps) && states[|steps|] == n;
    RunKeepsStarInv(g, c, states, steps, |steps|);
    assert Flow(n, c, s, d);
  }
}
