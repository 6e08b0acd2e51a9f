// The copies of a flooded packet when every process keeps to its loop: a neighbour that does not know
// the destination throws the packet back, unless it learns the destination first.
module Rebounds {
  import opened Types
  import opened Switches
  import opened Trees
  import opened Network
  import opened Learning
  import opened Delivery
  import opened Copies
  import opened Duplicates
  import opened Loops

  // ---- Bringing copies home, in loop order ----

  // Deliveries along a continuation in loop order.
  ghost function LoopDeliveries(g: Topology, l: Looped, moves: seq<Move>, copies: set<Spot>): nat
    requires CanLoop(g, l, moves)
  {
    LoopIsRun(g, l, moves);
    Deliveries(g, l.net, StepsOf(g, l, moves), copies)
  }

  ghost function LoopCopies(g: Topology, l: Looped, moves: seq<Move>, copies: set<Spot>): set<Spot>
    requires CanLoop(g, l, moves)
  {
    LoopIsRun(g, l, moves);
    CopiesAfter(g, l.net, StepsOf(g, l, moves), copies)
  }

  lemma OneMoreMove(g: Topology, l: Looped, move: Move, rest: seq<Move>, copies: set<Spot>)
    requires CanMove(g, l, move) && CanLoop(g, Moved(g, l, move), rest)
    ensures CanLoop(g, l, [move] + rest) && LoopTo(g, l, [move] + rest) == LoopTo(g, Moved(g, l, move), rest)
    ensures var step := StepOf(g, l, move);
      var l1, later := Moved(g, l, move), Descend(g, l.net, step, copies);
      && LoopCopies(g, l, [move] + rest, copies) == LoopCopies(g, l1, rest, later)
      && LoopDeliveries(g, l, [move] + rest, copies)
         == Accepted(g, l.net, step, copies) + LoopDeliveries(g, l1, rest, later)
  {
    OneLoop(g, l, move, rest);
    LoopIsRun(g, Moved(g, l, move), rest);
    hide CanLoop, StepsOf, Accepted, Descend;
    OneMore(g, l.net, StepOf(g, l, move), StepsOf(g, Moved(g, l, move), rest), copies);
  }

  lemma MovesAdd(g: Topology, l: Looped, a: seq<Move>, b: seq<Move>, copies: set<Spot>)
    requires CanLoop(g, l, a) && CanLoop(g, LoopTo(g, l, a), b)
    ensures CanLoop(g, l, a + b)
    ensures LoopDeliveries(g, l, a + b, copies)
         >= LoopDeliveries(g, LoopTo(g, l, a), b, LoopCopies(g, l, a, copies))
  {
    LoopConcat(g, l, a, b);
    LoopIsRun(g, l, a);
    LoopIsRun(g, LoopTo(g, l, a), b);
    hide CanLoop, StepsOf, LoopTo, CanRun, Deliveries, CopiesAfter, RunFrom;
    RunsAdd(g, l.net, StepsOf(g, l, a), StepsOf(g, LoopTo(g, l, a), b), copies);
  }

  // The port at which w reads the link from u.
  lemma LinkPort(r: Rooting, g: Topology, n: Net, u: Id, w: Id) returns (k: nat)
    requires NetInv(r, g, n) && On(n.links, u, w) != []
    ensures w in g.ports && k < |g.ports[w]| && g.ports[w][k] == u && Adjacent(g, u, w) && Adjacent(g, w, u)
  {
    hide EntriesOk, TablesFit, Roots;
    var p := On(n.links, u, w)[0];
    assert p in On(n.links, u, w) && PacketOk(g, n, u, w, p);
    k :| 0 <= k < |g.ports[w]| && g.ports[w][k] == u;
  }

  // A move of its reader reads that link when it is this port's turn, and no other link then.
  lemma MoveReads(g: Topology, l: Looped, move: Move, k: nat, u: Id)
    requires WellFormed(g) && CanMove(g, l, move) && k < |g.ports[move.node]| && g.ports[move.node][k] == u
    requires On(l.net.links, u, move.node) != []
    ensures Reads(g, StepOf(g, l, move), u, move.node) <==> l.at[move.node] == k
  {
  }

  // The copy that goes the right way is one of the copies.
  lemma TowardIsCopy(r: Rooting, g: Topology, n: Net, step: Step, spot: Spot, p: Packet)
    requires NetInv(r, g, n) && LeafHosts(g) && Enabled(g, n, step) && Heading(g, n, spot, p)
    ensures var next := Toward(r, g, n, step, spot, p); next != Delivered ==> next in Spread(g, n, step, spot)
  {
    if Reads(g, step, spot.u, spot.w) && spot.i == 0 && spot.w != p.dst {
      HandedOn(r, g, n, step, spot, p);
    }
  }

  // Reading the link of a copy that heads for its destination.
  lemma TowardTracked(r: Rooting, g: Topology, n: Net, step: Step, spot: Spot, p: Packet, copies: set<Spot>)
    requires NetInv(r, g, n) && LeafHosts(g) && Enabled(g, n, step) && Heading(g, n, spot, p) && spot in copies
    ensures spot.w in g.ports
    ensures var next := Toward(r, g, n, step, spot, p);
      if next == Delivered then
        spot.i == 0 && Reads(g, step, spot.u, spot.w) && Accepted(g, n, step, copies) == 1
      else
        && Heading(g, Next(g, n, step), next, p) && next in Descend(g, n, step, copies) && next.w in g.ports
        && (!Reads(g, step, spot.u, spot.w) ==> next == spot)
        && (Reads(g, step, spot.u, spot.w) ==>
              Dist(r, g, next.w, p.dst) < Dist(r, g, spot.w, p.dst) || (next.w == spot.w && next.i < spot.i))
  {
    TowardStep(r, g, n, step, spot, p);
    TowardIsCopy(r, g, n, step, spot, p);
  }

  // A move of the process that reads the copy's link: the copy is read, or it is closer to being read.
  lemma CopyStep(r: Rooting, g: Topology, l: Looped, move: Move, spot: Spot, k: nat, p: Packet, copies: set<Spot>)
    returns (next: Spot, k': nat)
    requires NetInv(r, g, l.net) && TurnsFit(g, l) && LeafHosts(g) && Heading(g, l.net, spot, p) && spot in copies
    requires spot.w in g.ports && k < |g.ports[spot.w]| && g.ports[spot.w][k] == spot.u
    requires CanMove(g, l, move) && move.node == spot.w
    ensures var l', step := Moved(g, l, move), StepOf(g, l, move);
      && NetInv(r, g, l'.net) && TurnsFit(g, l') && next == Toward(r, g, l.net, step, spot, p)
      && if next == Delivered then Accepted(g, l.net, step, copies) == 1
         else
           && Heading(g, l'.net, next, p) && next in Descend(g, l.net, step, copies) && next.w in g.ports
           && k' < |g.ports[next.w]| && g.ports[next.w][k'] == next.u
           && (Dist(r, g, next.w, p.dst) < Dist(r, g, spot.w, p.dst)
               || (next.w == spot.w && (next.i < spot.i
                                        || (next.i == spot.i && Gap(g, l', next.w, k') < Gap(g, l, spot.w, k)))))
  {
    assert WellFormed(g);
    hide NetInv, LeafHosts, Reads, Enabled, Next, Descend, Accepted, Dist, WellFormed;
    MoveReads(g, l, move, k, spot.u);
    GapAfter(g, l, spot.w, k, move);
    var step := StepOf(g, l, move);
    hide StepOf, Gap;
    InvKept(r, g, l.net, step);
    TowardTracked(r, g, l.net, step, spot, p, copies);
    next := Toward(r, g, l.net, step, spot, p);
    k' := k;
    if next != Delivered && next != spot {
      k' := LinkPort(r, g, Moved(g, l, move).net, next.u, next.w);
    }
  }

  // Two copies stay two.
  lemma StayApart(r: Rooting, g: Topology, n: Net, step: Step, a: Spot, b: Spot, p: Packet)
    requires Rooted(r, g) && Heading(g, n, a, p) && Heading(g, n, b, p) && a != b
    ensures Toward(r, g, n, step, a, p) != Toward(r, g, n, step, b, p)
  {
  }

  lemma SpotPort(r: Rooting, g: Topology, n: Net, spot: Spot, p: Packet) returns (k: nat)
    requires NetInv(r, g, n) && Heading(g, n, spot, p)
    ensures spot.w in g.ports && k < |g.ports[spot.w]| && g.ports[spot.w][k] == spot.u
  {
    hide NetInv;
    k := LinkPort(r, g, n, spot.u, spot.w);
  }

  // ---- An ignorant neighbour throws the packet back ----

  // The last packet on the link from b to x.
  function Last(n: Net, b: Id, x: Id): Spot
    requires On(n.links, b, x) != []
  {
    At(b, x, |On(n.links, b, x)| - 1)
  }

  // After b has flooded p: every neighbour's link ends with a copy.
  ghost predicate Flooded(g: Topology, n: Net, b: Id, copies: set<Spot>, p: Packet) {
    b in g.ports && forall x :: x in g.ports[b] ==>
      On(n.links, b, x) != [] && Last(n, b, x) in copies && Holds(n, Last(n, b, x), p)
  }

  // `c`, if it is a spot, is some other copy.
  ghost predicate Beside(g: Topology, n: Net, b: Id, copies: set<Spot>, p: Packet, c: Spot) {
    && b in g.ports
    && (c.At? ==> c in copies && Holds(n, c, p))
    && forall x :: x in g.ports[b] && On(n.links, b, x) != [] ==> c != Last(n, b, x)
  }

  // Switch y is about to read p, as the oldest packet from u, and does not know its destination.
  ghost predicate AboutToFlood(g: Topology, n: Net, step: Step, u: Id, y: Id, d: Id, p: Packet) {
    && Enabled(g, n, step) && step.Forward? && Reads(g, step, u, y) && y in g.ports
    && !Knows(n, y, d) && p.dst == d && p.src != d && Holds(n, At(u, y, 0), p)
  }

  lemma FloodsAll(g: Topology, n: Net, step: Step, u: Id, y: Id, d: Id, p: Packet, x: Id)
    requires AboutToFlood(g, n, step, u, y, d, p) && x in g.ports[y]
    ensures Writes(g, n, step, y, x) == [p]
    ensures At(y, x, |On(n.links, y, x)|) in Spread(g, n, step, At(u, y, 0))
  {
    assert ForwardTo(g, y, Learn(n.tables[y], p.src, step.port), p.dst) == g.ports[y];
  }

  lemma ThrowsBack(g: Topology, n: Net, step: Step, u: Id, y: Id, d: Id, p: Packet, copies: set<Spot>, c: Spot)
    requires WellFormed(g) && AboutToFlood(g, n, step, u, y, d, p) && At(u, y, 0) in copies
    requires c.At? ==> Holds(n, c, p) && c in Descend(g, n, step, copies) && Holds(Next(g, n, step), c, p)
    ensures Flooded(g, Next(g, n, step), y, Descend(g, n, step, copies), p)
    ensures Beside(g, Next(g, n, step), y, Descend(g, n, step, copies), p, c)
  {
    var n' := Next(g, n, step);
    hide WellFormed, Next, Enabled, Writes, Spread, Reads;
    forall x | x in g.ports[y]
      ensures On(n'.links, y, x) != [] && Last(n', y, x) == At(y, x, |On(n.links, y, x)|)
      ensures Last(n', y, x) in Descend(g, n, step, copies) && Holds(n', Last(n', y, x), p)
    {
      FloodsAll(g, n, step, u, y, d, p, x);
      CopyLands(g, n, step, y, x, p);
    }
  }

  lemma MovesOn(g: Topology, n: Net, step: Step, a: Id, b: Id, i: nat, p: Packet, copies: set<Spot>)
    requires WellFormed(g) && Enabled(g, n, step) && Holds(n, At(a, b, i), p) && At(a, b, i) in copies
    requires i > 0 && Reads(g, step, a, b)
    ensures Holds(Next(g, n, step), At(a, b, i - 1), p) && At(a, b, i - 1) in Descend(g, n, step, copies)
  {
    LinkAfter(g, n, step, a, b);
    assert At(a, b, i - 1) in Spread(g, n, step, At(a, b, i));
  }

  // A copy on a link that is not read.
  lemma LeftAlone(g: Topology, n: Net, step: Step, c: Spot, p: Packet, copies: set<Spot>)
    requires WellFormed(g) && Enabled(g, n, step) && Holds(n, c, p) && c in copies && !Reads(g, step, c.u, c.w)
    ensures Holds(Next(g, n, step), c, p) && c in Descend(g, n, step, copies)
  {
    LinkAfter(g, n, step, c.u, c.w);
    assert c in Spread(g, n, step, c);
  }

  // Packet number j at port m of y comes from d.
  predicate FromD(g: Topology, n: Net, y: Id, m: nat, j: nat, d: Id)
    requires y in g.ports && m < |g.ports[y]|
  {
    j < |On(n.links, g.ports[y][m], y)| && On(n.links, g.ports[y][m], y)[j].src == d
  }

  // Whatever from d waits at the ports of y, y reads it after the i-th packet at port k.
  ghost predicate NoneFirst(g: Topology, l: Looped, y: Id, d: Id, k: nat, i: nat)
    requires y in g.ports && y in l.at && k < |g.ports[y]|
  {
    forall m: nat, j: nat :: m < |g.ports[y]| && FromD(g, l.net, y, m, j, d) ==> !ReadsFirst(g, l, y, m, j, k, i)
  }

  // A move of y and the packets waiting for it.
  lemma WaitingAfter(g: Topology, l: Looped, y: Id, m: nat)
    requires WellFormed(g) && CanMove(g, l, Move(y, None)) && m < |g.ports[y]|
    ensures var q, q' := On(l.net.links, g.ports[y][m], y), On(Moved(g, l, Move(y, None)).net.links, g.ports[y][m], y);
      q' == if l.at[y] == m && q != [] then q[1..] else q
  {
    var step := StepOf(g, l, Move(y, None));
    assert g.ports[y][m] in g.ports[y] && g.ports[y][m] != y;
    assert l.at[y] < |g.ports[y]| && g.ports[y][l.at[y]] == g.ports[y][m] ==> l.at[y] == m;
    LinkAfter(g, l.net, step, g.ports[y][m], y);
  }

  // The order in which y reads does not change as it goes round.
  lemma OrderStays(g: Topology, l: Looped, y: Id, m: nat, j: nat, k: nat, i: nat)
    requires CanMove(g, l, Move(y, None)) && TurnsFit(g, l) && m < |g.ports[y]| && k < |g.ports[y]|
    requires l.at[y] == m ==> j > 0
    requires l.at[y] == k ==> i > 0
    ensures ReadsFirst(g, Moved(g, l, Move(y, None)), y, m, if l.at[y] == m then j - 1 else j,
                       k, if l.at[y] == k then i - 1 else i)
        <==> ReadsFirst(g, l, y, m, j, k, i)
  {
    GapAfter(g, l, y, m, Move(y, None));
    GapAfter(g, l, y, k, Move(y, None));
    hide Gap, Moved;
  }

  lemma NoneFirstStays(g: Topology, l: Looped, y: Id, d: Id, k: nat, i: nat)
    requires WellFormed(g) && CanMove(g, l, Move(y, None)) && TurnsFit(g, l) && k < |g.ports[y]|
    requires NoneFirst(g, l, y, d, k, i) && (l.at[y] == k ==> i > 0)
    ensures y in Moved(g, l, Move(y, None)).at
    ensures NoneFirst(g, Moved(g, l, Move(y, None)), y, d, k, if l.at[y] == k then i - 1 else i)
  {
    var l' := Moved(g, l, Move(y, None));
    hide ReadsFirst, Enabled, Next, StepOf;
    forall m: nat, j: nat | m < |g.ports[y]| && FromD(g, l'.net, y, m, j, d)
      ensures !ReadsFirst(g, l', y, m, j, k, if l.at[y] == k then i - 1 else i)
    {
      WaitingAfter(g, l, y, m);
      var j0 := if l.at[y] == m then j + 1 else j;
      if l.at[y] == m && On(l.net.links, g.ports[y][m], y) == [] {
        assert false;
      }
      assert FromD(g, l.net, y, m, j0, d);
      OrderStays(g, l, y, m, j0, k, i);
    }
  }

  // Switch y does not know d, will read p from u as packet number i at port k, and reads nothing
  // from d before.
  ghost predicate WillFlood(r: Rooting, g: Topology, l: Looped, u: Id, y: Id, k: nat, i: nat, d: Id, p: Packet,
                            copies: set<Spot>)
  {
    && NetInv(r, g, l.net) && TurnsFit(g, l) && y in g.switches && y in g.ports
    && k < |g.ports[y]| && g.ports[y][k] == u && !Knows(l.net, y, d) && p.dst == d && p.src != d
    && Holds(l.net, At(u, y, i), p) && At(u, y, i) in copies && NoneFirst(g, l, y, d, k, i)
  }

  // One move of y before it reads p.
  lemma NotYet(r: Rooting, g: Topology, l: Looped, u: Id, y: Id, k: nat, i: nat, d: Id, p: Packet, copies: set<Spot>)
    requires WillFlood(r, g, l, u, y, k, i, d, p, copies) && (l.at[y] == k ==> i > 0)
    ensures CanMove(g, l, Move(y, None))
    ensures WillFlood(r, g, Moved(g, l, Move(y, None)), u, y, k, if l.at[y] == k then i - 1 else i, d, p,
                      Descend(g, l.net, StepOf(g, l, Move(y, None)), copies))
  {
    CanGoOn(r, g, l, y);
    var move, step := Move(y, None), StepOf(g, l, Move(y, None));
    assert WellFormed(g);
    MoveReads(g, l, Move(y, None), k, u);
    GapAfter(g, l, y, k, move);
    NoneFirstStays(g, l, y, d, k, i);
    LearnsNothing(g, l, y, k, i, d);
    hide NetInv, WellFormed, NoneFirst, StepOf, Reads, Next, Enabled, Descend, TurnsFit;
    InvKept(r, g, l.net, step);
    if l.at[y] == k {
      MovesOn(g, l.net, step, u, y, i, p, copies);
    } else {
      LeftAlone(g, l.net, step, At(u, y, i), p, copies);
    }
  }

  // What y reads before p does not teach it d.
  lemma LearnsNothing(g: Topology, l: Looped, y: Id, k: nat, i: nat, d: Id)
    requires CanMove(g, l, Move(y, None)) && TurnsFit(g, l) && y in g.switches && k < |g.ports[y]|
    requires NoneFirst(g, l, y, d, k, i) && (l.at[y] == k ==> i > 0) && !Knows(l.net, y, d)
    ensures !Knows(Moved(g, l, Move(y, None)).net, y, d)
  {
    var t, step := l.at[y], StepOf(g, l, Move(y, None));
    EntryAfter(g, l.net, step, y, d);
    assert step.Forward? && FromD(g, l.net, y, t, 0, d) ==> !ReadsFirst(g, l, y, t, 0, k, i);
  }

  // The move at which it reads p.
  lemma FloodsNow(r: Rooting, g: Topology, l: Looped, u: Id, y: Id, k: nat, d: Id, p: Packet, copies: set<Spot>)
    requires WillFlood(r, g, l, u, y, k, 0, d, p, copies) && l.at[y] == k
    ensures CanMove(g, l, Move(y, None)) && WellFormed(g)
    ensures AboutToFlood(g, l.net, StepOf(g, l, Move(y, None)), u, y, d, p)
    ensures NetInv(r, g, Moved(g, l, Move(y, None)).net) && TurnsFit(g, Moved(g, l, Move(y, None)))
  {
    CanGoOn(r, g, l, y);
    GapAfter(g, l, y, k, Move(y, None));
    hide EntriesOk, PacketsOk, TablesFit, Roots, NoneFirst;
    InvKept(r, g, l.net, StepOf(g, l, Move(y, None)));
  }

  // A copy on a link that y does not read.
  lemma OtherCopyStays(g: Topology, l: Looped, y: Id, c: Spot, p: Packet, copies: set<Spot>)
    requires WellFormed(g) && CanMove(g, l, Move(y, None)) && c.At? && c.w != y && Holds(l.net, c, p) && c in copies
    ensures Holds(Moved(g, l, Move(y, None)).net, c, p)
    ensures c in Descend(g, l.net, StepOf(g, l, Move(y, None)), copies)
  {
    hide WellFormed, Next, Descend;
    LeftAlone(g, l.net, StepOf(g, l, Move(y, None)), c, p, copies);
  }

  lemma GapBefore(r: Rooting, g: Topology, l: Looped, u: Id, y: Id, k: nat, i: nat, d: Id, p: Packet,
                  copies: set<Spot>)
    requires WillFlood(r, g, l, u, y, k, i, d, p, copies)
    ensures y in g.ports && k < |g.ports[y]| && y in l.at && CanMove(g, l, Move(y, None))
    ensures l.at[y] != k ==> Gap(g, Moved(g, l, Move(y, None)), y, k) < Gap(g, l, y, k)
  {
    CanGoOn(r, g, l, y);
    GapAfter(g, l, y, k, Move(y, None));
    hide NetInv, Holds, NoneFirst, Knows;
  }

  // The move at which y reads p, and the other copy c.
  lemma BouncedNow(r: Rooting, g: Topology, l: Looped, u: Id, y: Id, k: nat, d: Id, p: Packet,
                   copies: set<Spot>, c: Spot)
    requires WillFlood(r, g, l, u, y, k, 0, d, p, copies) && l.at[y] == k
    requires c.At? ==> Holds(l.net, c, p) && c in copies && c.w != y
    ensures CanMove(g, l, Move(y, None))
    ensures var l', copies' := Moved(g, l, Move(y, None)), Descend(g, l.net, StepOf(g, l, Move(y, None)), copies);
      && NetInv(r, g, l'.net) && TurnsFit(g, l')
      && Flooded(g, l'.net, y, copies', p) && Beside(g, l'.net, y, copies', p, c)
  {
    FloodsNow(r, g, l, u, y, k, d, p, copies);
    hide NetInv, TurnsFit, NoneFirst, WellFormed, Next, Descend, Flooded, Beside, StepOf, AboutToFlood, Holds;
    if c.At? {
      OtherCopyStays(g, l, y, c, p, copies);
    }
    ThrowsBack(g, l.net, StepOf(g, l, Move(y, None)), u, y, d, p, copies, c);
  }

  // Moves of switch y alone.
  predicate OnlyOf(moves: seq<Move>, y: Id) {
    forall i :: 0 <= i < |moves| ==> moves[i] == Move(y, None)
  }

  lemma OneMoreOf(y: Id, rest: seq<Move>)
    requires OnlyOf(rest, y)
    ensures OnlyOf([Move(y, None)] + rest, y)
  {
  }

  lemma NoMovesYet(y: Id)
    ensures OnlyOf([], y)
  {
  }

  // y moves until it has read p and thrown it back.
  lemma Bounce(r: Rooting, g: Topology, l: Looped, u: Id, y: Id, k: nat, i: nat, d: Id, p: Packet,
               copies: set<Spot>, c: Spot)
    returns (moves: seq<Move>)
    requires WillFlood(r, g, l, u, y, k, i, d, p, copies)
    requires c.At? ==> Holds(l.net, c, p) && c in copies && c.w != y
    ensures CanLoop(g, l, moves) && OnlyOf(moves, y)
    ensures var l', copies' := LoopTo(g, l, moves), LoopCopies(g, l, moves, copies);
      && NetInv(r, g, l'.net) && TurnsFit(g, l')
      && Flooded(g, l'.net, y, copies', p) && Beside(g, l'.net, y, copies', p, c)
    decreases i, if y in g.ports && y in l.at && k < |g.ports[y]| then Gap(g, l, y, k) else 0
  {
    var move := Move(y, None);
    GapBefore(r, g, l, u, y, k, i, d, p, copies);
    hide OnlyOf, WillFlood, NetInv, Flooded, Beside, LoopDeliveries, Holds, Descend, Gap, StepOf, Moved, CanMove;
    var l', copies', rest := Moved(g, l, move), Descend(g, l.net, StepOf(g, l, move), copies), [];
    if l.at[y] == k && i == 0 {
      BouncedNow(r, g, l, u, y, k, d, p, copies, c);
      NoMovesYet(y);
    } else {
      NotYet(r, g, l, u, y, k, i, d, p, copies);
      if c.At? {
        OtherCopyFits(r, g, l, u, y, k, i, d, c, p, copies);
      }
      rest := Bounce(r, g, l', u, y, k, if l.at[y] == k then i - 1 else i, d, p, copies', c);
    }
    moves := [move] + rest;
    OneMoreOf(y, rest);
    OneMoreMove(g, l, move, rest, copies);
  }

  lemma OtherCopyFits(r: Rooting, g: Topology, l: Looped, u: Id, y: Id, k: nat, i: nat, d: Id, c: Spot, p: Packet,
                      copies: set<Spot>)
    requires WillFlood(r, g, l, u, y, k, i, d, p, copies) && CanMove(g, l, Move(y, None))
    requires c.At? && c.w != y && Holds(l.net, c, p) && c in copies
    ensures Holds(Moved(g, l, Move(y, None)).net, c, p)
    ensures c in Descend(g, l.net, StepOf(g, l, Move(y, None)), copies)
  {
    assert WellFormed(g);
    hide WillFlood, WellFormed, Holds, Descend, Moved, StepOf, CanMove;
    OtherCopyStays(g, l, y, c, p, copies);
  }

  // ---- Exactly when ----

  // Switch y reads something from d before the last packet u has written to it.
  ghost predicate LearnsFirst(g: Topology, l: Looped, y: Id, u: Id, d: Id)
    requires y in g.ports && y in l.at
  {
    exists m: nat, j: nat, k: nat ::
      && m < |g.ports[y]| && FromD(g, l.net, y, m, j, d)
      && k < |g.ports[y]| && g.ports[y][k] == u && On(l.net.links, u, y) != []
      && ReadsFirst(g, l, y, m, j, k, |On(l.net.links, u, y)| - 1)
  }

  // After u has served a packet for d, nobody can throw it back: u knows d, or every switch next
  // to u does by the time it reads the packet.
  ghost predicate Settles(g: Topology, l: Looped, u: Id, d: Id)
    requires u in g.ports
  {
    Knows(l.net, u, d) || forall y :: y in g.ports[u] && y in g.switches ==>
      Knows(l.net, y, d) || (y in g.ports && y in l.at && LearnsFirst(g, l, y, u, d))
  }

  lemma ServedFloods(g: Topology, n: Net, u: Id, k: nat, d: Id)
    requires WellFormed(g) && Enabled(g, n, Forward(u, k)) && Served(g, n, u, k).dst == d
    requires !Knows(Next(g, n, Forward(u, k)), u, d)
    ensures Flooded(g, Next(g, n, Forward(u, k)), u, ServedCopies(g, n, u, k), Served(g, n, u, k))
  {
    var step, p := Forward(u, k), Served(g, n, u, k);
    assert ForwardTo(g, u, Learn(n.tables[u], p.src, k), d) == g.ports[u];
    forall x | x in g.ports[u]
      ensures var n' := Next(g, n, step);
        On(n'.links, u, x) != [] && Last(n', u, x) == At(u, x, |On(n.links, u, x)|) && Holds(n', Last(n', u, x), p)
      ensures At(u, x, |On(n.links, u, x)|) in ServedCopies(g, n, u, k)
    {
      assert Writes(g, n, step, u, x) == [p];
      CopyLands(g, n, step, u, x, p);
    }
  }

  // Next hops of two neighbouring switches.
  lemma Directions(r: Rooting, g: Topology, u: Id, y: Id, d: Id)
    requires Rooted(r, g) && LeafHosts(g) && IsHost(g, d) && Adjacent(g, u, y) && u in g.switches && y in g.switches
    ensures u in g.ports && y in g.ports && u != y && u != d && y != d && Adjacent(g, y, u)
    ensures var x := Hop(r, g, u, d);
      && x in g.ports[u] && (x == d || x in g.switches)
      && (x == y ==> Hop(r, g, y, d) != u)
    ensures Hop(r, g, y, d) in g.ports[y] && (Hop(r, g, y, d) == d || Hop(r, g, y, d) in g.switches)
  {
    assert u in g.ports && y in g.ports && u != d && y != d;
    hide Roots, Hop, Dist, LeafHosts, Above;
    HopIsTowards(r, g, u, d);
    HopIsTowards(r, g, y, d);
    HopIsLive(r, g, u, d);
    HopIsLive(r, g, y, d);
    LinkIsOriented(r, g, u, y, d);
  }

  // Once y has thrown p back, two copies head for the destination: the one on its way (c, or the one
  // y has just written to the next hop) and the one thrown back.
  lemma BothHead(r: Rooting, g: Topology, n: Net, u: Id, y: Id, d: Id, p: Packet, copies: set<Spot>, c: Spot)
    returns (a: Spot, b: Spot)
    requires Rooted(r, g) && LeafHosts(g) && IsHost(g, d) && p.dst == d
    requires Adjacent(g, u, y) && u in g.switches && y in g.switches
    requires u in g.ports && u != d
    requires if Hop(r, g, u, d) == y then c == Delivered else c.At? && c.w == Hop(r, g, u, d)
    requires Flooded(g, n, y, copies, p) && Beside(g, n, y, copies, p, c)
    ensures Heading(g, n, a, p) && Heading(g, n, b, p) && a != b && a in copies && b in copies
  {
    Directions(r, g, u, y, d);
    hide Rooted, LeafHosts, Hop, IsHost;
    b := Last(n, y, u);
    a := if c.At? then c else Last(n, y, Hop(r, g, y, d));
  }

  // The copy u has written to the next hop, if that is not y.
  lemma OnItsWay(r: Rooting, g: Topology, n: Net, u: Id, y: Id, d: Id, p: Packet, copies: set<Spot>)
    returns (c: Spot)
    requires Rooted(r, g) && LeafHosts(g) && IsHost(g, d) && Adjacent(g, u, y) && u in g.switches && y in g.switches
    requires Flooded(g, n, u, copies, p)
    ensures u in g.ports && u != d && (if Hop(r, g, u, d) == y then c == Delivered else c.At? && c.w == Hop(r, g, u, d))
    ensures c.At? ==> Holds(n, c, p) && c in copies && c.w != y
  {
    Directions(r, g, u, y, d);
    hide Rooted, LeafHosts, Hop, IsHost;
    var x := Hop(r, g, u, d);
    c := if x == y then Delivered else Last(n, u, x);
  }

  // Packets from an unknown host: none are in front of p unless y learns from them first.
  lemma NothingFirst(r: Rooting, g: Topology, l: Looped, u: Id, y: Id, k: nat, d: Id)
    requires NetInv(r, g, l.net) && TurnsFit(g, l) && y in g.ports && k < |g.ports[y]| && g.ports[y][k] == u
    requires On(l.net.links, u, y) != [] && !LearnsFirst(g, l, y, u, d)
    ensures NoneFirst(g, l, y, d, k, |On(l.net.links, u, y)| - 1)
  {
    hide NetInv, ReadsFirst, FromD;
  }

  // ---- The one neighbour learns first ----

  // The only live copy waits for y as packet number i at port k, and before it y reads packet
  // number j at port m, which comes from d.
  ghost predicate Waiting(g: Topology, l: Looped, y: Id, m: nat, j: nat, k: nat, i: nat, d: Id, p: Packet,
                          copies: set<Spot>)
  {
    && TurnsFit(g, l) && y in g.switches && y in g.ports && m < |g.ports[y]| && k < |g.ports[y]| && p.dst == d
    && FromD(g, l.net, y, m, j, d) && ReadsFirst(g, l, y, m, j, k, i)
    && (forall s :: s in copies ==> Holds(l.net, s, p))
    && (forall s :: s in copies && Live(g, s, d) ==> s == At(g.ports[y][k], y, i))
  }

  // A switch does not accept anything, and the destination does not have a copy to accept.
  lemma NoneAccepted(g: Topology, l: Looped, y: Id, m: nat, j: nat, k: nat, i: nat, d: Id, p: Packet,
                     copies: set<Spot>, move: Move)
    requires Waiting(g, l, y, m, j, k, i, d, p, copies) && CanMove(g, l, move)
    ensures Accepted(g, l.net, StepOf(g, l, move), copies) == 0
  {
    var step := StepOf(g, l, move);
    if Accepted(g, l.net, step, copies) == 1 {
      var s := At(g.ports[step.host][step.port], step.host, 0);
      assert s in copies && Holds(l.net, s, p) && Live(g, s, d);
      assert false;
    }
  }

  // Where the copies are after a step that does not serve the live one.
  lemma WaitingCopies(g: Topology, l: Looped, y: Id, m: nat, j: nat, k: nat, i: nat, d: Id, p: Packet,
                      copies: set<Spot>, move: Move)
    requires WellFormed(g) && Waiting(g, l, y, m, j, k, i, d, p, copies) && CanMove(g, l, move)
    requires move.node == y && l.at[y] == k ==> i > 0
    ensures var n', later := Moved(g, l, move).net, Descend(g, l.net, StepOf(g, l, move), copies);
      && (forall s :: s in later ==> Holds(n', s, p))
      && (forall s :: s in later && Live(g, s, d) ==>
            s == At(g.ports[y][k], y, if move.node == y && l.at[y] == k then i - 1 else i))
  {
    var step, later := StepOf(g, l, move), Descend(g, l.net, StepOf(g, l, move), copies);
    forall t | t in later
      ensures Holds(Moved(g, l, move).net, t, p)
      ensures Live(g, t, d) ==> t == At(g.ports[y][k], y, if move.node == y && l.at[y] == k then i - 1 else i)
    {
      var s :| s in copies && t in Spread(g, l.net, step, s);
      if Live(g, s, d) {
        LinkAfter(g, l.net, step, s.u, s.w);
        WhoReads(g, l, move, y, k);
      } else {
        DeadSpread(g, l.net, step, s, p);
      }
    }
  }

  // Only y reads a link into y, and only when it is that port's turn.
  lemma WhoReads(g: Topology, l: Looped, move: Move, y: Id, k: nat)
    requires WellFormed(g) && CanMove(g, l, move) && y in g.switches && y in g.ports && k < |g.ports[y]|
    requires On(l.net.links, g.ports[y][k], y) != []
    ensures Reads(g, StepOf(g, l, move), g.ports[y][k], y) <==> move.node == y && l.at[y] == k
  {
    if move.node == y {
      MoveReads(g, l, Move(y, None), k, g.ports[y][k]);
    }
  }

  // Another process moves: y's ports only gain packets.
  lemma OthersMove(g: Topology, l: Looped, y: Id, m: nat, j: nat, k: nat, i: nat, d: Id, move: Move)
    requires WellFormed(g) && TurnsFit(g, l) && CanMove(g, l, move) && move.node != y && y in g.switches && y in g.ports
    requires m < |g.ports[y]| && k < |g.ports[y]| && FromD(g, l.net, y, m, j, d) && ReadsFirst(g, l, y, m, j, k, i)
    ensures TurnsFit(g, Moved(g, l, move))
    ensures FromD(g, Moved(g, l, move).net, y, m, j, d) && ReadsFirst(g, Moved(g, l, move), y, m, j, k, i)
  {
    GapAfter(g, l, y, m, move);
    GapAfter(g, l, y, k, move);
    WhoReads(g, l, move, y, m);
    LinkAfter(g, l.net, StepOf(g, l, move), g.ports[y][m], y);
  }

  // y moves and reads neither of the two packets.
  lemma SelfMoves(g: Topology, l: Looped, y: Id, m: nat, j: nat, k: nat, i: nat, d: Id)
    requires WellFormed(g) && TurnsFit(g, l) && CanMove(g, l, Move(y, None)) && m < |g.ports[y]| && k < |g.ports[y]|
    requires FromD(g, l.net, y, m, j, d) && ReadsFirst(g, l, y, m, j, k, i) && (l.at[y] == m ==> j > 0)
    ensures l.at[y] == k ==> i > 0
    ensures TurnsFit(g, Moved(g, l, Move(y, None)))
    ensures FromD(g, Moved(g, l, Move(y, None)).net, y, m, if l.at[y] == m then j - 1 else j, d)
    ensures ReadsFirst(g, Moved(g, l, Move(y, None)), y, m, if l.at[y] == m then j - 1 else j,
                       k, if l.at[y] == k then i - 1 else i)
  {
    GapAfter(g, l, y, k, Move(y, None));
    WaitingAfter(g, l, y, m);
    OrderStays(g, l, y, m, j, k, i);
  }

  lemma OneTracked(g: Topology, n: Net, copies: set<Spot>, p: Packet, only: Spot, d: Id)
    requires (forall s :: s in copies ==> Holds(n, s, p)) && (forall s :: s in copies && Live(g, s, d) ==> s == only)
    requires only.At? && p.dst == d && IsHost(g, d) && Knows(n, only.w, d)
    ensures AtMostOne(g, n, copies, p)
  {
    hide Live, Knows, IsHost;
  }

  lemma ReadingTeaches(g: Topology, l: Looped, y: Id, m: nat, d: Id)
    requires CanMove(g, l, Move(y, None)) && y in g.switches && m < |g.ports[y]| && l.at[y] == m
    requires FromD(g, l.net, y, m, 0, d)
    ensures Knows(Moved(g, l, Move(y, None)).net, y, d)
  {
    EntryAfter(g, l.net, StepOf(g, l, Move(y, None)), y, d);
  }

  // y reads the packet from d: from then on the live copy is on track.
  lemma LearnsNow(r: Rooting, g: Topology, l: Looped, y: Id, m: nat, k: nat, i: nat, d: Id, p: Packet,
                  copies: set<Spot>)
    requires NetInv(r, g, l.net) && IsHost(g, d) && CanMove(g, l, Move(y, None))
    requires Waiting(g, l, y, m, 0, k, i, d, p, copies) && l.at[y] == m
    ensures AtMostOne(g, Moved(g, l, Move(y, None)).net, Descend(g, l.net, StepOf(g, l, Move(y, None)), copies), p)
  {
    assert WellFormed(g);
    assert l.at[y] == k ==> i > 0;
    hide NetInv, WellFormed, Next, Descend, Enabled, FromD, StepOf, AtMostOne, Moved, ReadsFirst;
    WaitingCopies(g, l, y, m, 0, k, i, d, p, copies, Move(y, None));
    ReadingTeaches(g, l, y, m, d);
    var l', later := Moved(g, l, Move(y, None)), Descend(g, l.net, StepOf(g, l, Move(y, None)), copies);
    OneTracked(g, l'.net, later, p, At(g.ports[y][k], y, if l.at[y] == k then i - 1 else i), d);
  }

  // One move of any process while the copy waits.
  lemma WaitingStep(r: Rooting, g: Topology, l: Looped, y: Id, m: nat, j: nat, k: nat, i: nat, d: Id, p: Packet,
                    copies: set<Spot>, move: Move)
    requires NetInv(r, g, l.net) && IsHost(g, d) && Waiting(g, l, y, m, j, k, i, d, p, copies) && CanMove(g, l, move)
    ensures y in l.at
    ensures var l', later := Moved(g, l, move), Descend(g, l.net, StepOf(g, l, move), copies);
      if move.node == y && l.at[y] == m && j == 0 then AtMostOne(g, l'.net, later, p)
      else
        var mine := move.node == y;
        && (mine && l.at[y] == k ==> i > 0)
        && Waiting(g, l', y, m, if mine && l.at[y] == m then j - 1 else j,
                   k, if mine && l.at[y] == k then i - 1 else i, d, p, later)
  {
    assert WellFormed(g) && y in l.at && (move.node == y ==> move == Move(y, None));
    hide NetInv, WellFormed, Waiting, AtMostOne, Enabled, Next, Descend, StepOf;
    if move.node == y && l.at[y] == m && j == 0 {
      LearnsNow(r, g, l, y, m, k, i, d, p, copies);
    } else {
      WaitingOn(g, l, y, m, j, k, i, d, p, copies, move);
    }
  }

  lemma WaitingOn(g: Topology, l: Looped, y: Id, m: nat, j: nat, k: nat, i: nat, d: Id, p: Packet,
                  copies: set<Spot>, move: Move)
    requires WellFormed(g) && Waiting(g, l, y, m, j, k, i, d, p, copies) && CanMove(g, l, move) && y in l.at
    requires move.node == y ==> move == Move(y, None) && (l.at[y] == m ==> j > 0)
    ensures var mine := move.node == y;
      && (mine && l.at[y] == k ==> i > 0)
      && Waiting(g, Moved(g, l, move), y, m, if mine && l.at[y] == m then j - 1 else j,
                 k, if mine && l.at[y] == k then i - 1 else i, d, p, Descend(g, l.net, StepOf(g, l, move), copies))
  {
    hide WellFormed, Next, Descend, ReadsFirst, FromD, StepOf, Holds, Live, TurnsFit, Moved;
    if move.node != y {
      OthersMove(g, l, y, m, j, k, i, d, move);
    } else {
      SelfMoves(g, l, y, m, j, k, i, d);
    }
    WaitingCopies(g, l, y, m, j, k, i, d, p, copies, move);
  }

  lemma {:induction false} WaitingOnce(r: Rooting, g: Topology, l: Looped, y: Id, m: nat, j: nat, k: nat, i: nat, d: Id,
                                       p: Packet, copies: set<Spot>, moves: seq<Move>)
    requires NetInv(r, g, l.net) && IsHost(g, d) && Waiting(g, l, y, m, j, k, i, d, p, copies) && CanLoop(g, l, moves)
    ensures LoopDeliveries(g, l, moves, copies) <= 1
    decreases |moves|
  {
    hide NetInv, Waiting, AtMostOne, Enabled, Next, Descend, Accepted, StepOf, LoopDeliveries;
    if moves == [] {
      NoMoves(g, l, copies);
    } else {
      var move, rest := moves[0], moves[1..];
      var l', later := Moved(g, l, move), Descend(g, l.net, StepOf(g, l, move), copies);
      KeepsInv(r, g, l, move);
      NoneAccepted(g, l, y, m, j, k, i, d, p, copies, move);
      WaitingStep(r, g, l, y, m, j, k, i, d, p, copies, move);
      OneMoreMove(g, l, move, rest, copies);
      assert moves == [move] + rest;
      if move.node == y && l.at[y] == m && j == 0 {
        LoopAtMostOnce(r, g, l', rest, later, p);
      } else {
        var mine := move.node == y;
        WaitingOnce(r, g, l', y, m, if mine && l.at[y] == m then j - 1 else j,
                    k, if mine && l.at[y] == k then i - 1 else i, d, p, later, rest);
      }
    }
  }

  lemma NoMoves(g: Topology, l: Looped, copies: set<Spot>)
    ensures LoopDeliveries(g, l, [], copies) == 0
  {
  }

  lemma KeepsInv(r: Rooting, g: Topology, l: Looped, move: Move)
    requires NetInv(r, g, l.net) && CanMove(g, l, move)
    ensures NetInv(r, g, Moved(g, l, move).net)
  {
    hide NetInv, Enabled, Next;
    InvKept(r, g, l.net, StepOf(g, l, move));
  }

  lemma LoopAtMostOnce(r: Rooting, g: Topology, l: Looped, moves: seq<Move>, copies: set<Spot>, p: Packet)
    requires NetInv(r, g, l.net) && CanLoop(g, l, moves) && AtMostOne(g, l.net, copies, p)
    ensures LoopDeliveries(g, l, moves, copies) <= 1
  {
    LoopIsRun(g, l, moves);
    hide NetInv, AtMostOne, CanLoop, StepsOf, Deliveries, CanRun;
    DeliveredAtMostOnce(r, g, l.net, StepsOf(g, l, moves), copies, p);
  }

  // ---- The exact condition ----

  // A packet from d can only reach a switch that does not know d from beyond it.
  lemma LearnsFromBeyond(r: Rooting, g: Topology, l: Looped, u: Id, y: Id, d: Id)
    requires NetInv(r, g, l.net) && IsHost(g, d) && Adjacent(g, u, y) && u in g.switches && y in g.switches
    requires !Knows(l.net, u, d) && !Knows(l.net, y, d) && y in g.ports && y in l.at && LearnsFirst(g, l, y, u, d)
    ensures u in g.ports && u != d && Hop(r, g, u, d) == y
  {
    var m: nat, j: nat :| m < |g.ports[y]| && FromD(g, l.net, y, m, j, d);
    var a := g.ports[y][m];
    var q := On(l.net.links, a, y)[j];
    assert q in On(l.net.links, a, y) && PacketOk(g, l.net, a, y, q);
    hide ReadsFirst, EntriesOk, PacketsOk, Roots, Hop, Dist;
    UnknownSourceComesTheRightWay(r, g, l.net, a, y, q);
    LinkIsOriented(r, g, u, y, d);
  }

  // Then y is the only neighbour of u with a live copy.
  lemma OnlyNeighbour(r: Rooting, g: Topology, l: Looped, u: Id, y: Id, d: Id, z: Id)
    requires NetInv(r, g, l.net) && IsHost(g, d) && Adjacent(g, u, y) && u in g.switches && y in g.switches
    requires !Knows(l.net, u, d) && !Knows(l.net, y, d) && TurnsFit(g, l) && Settles(g, l, u, d)
    requires Adjacent(g, u, z) && (z == d || z in g.switches)
    ensures z == y
  {
    assert y in g.ports && z in g.ports;
    hide EntriesOk, PacketsOk, Roots, Hop, Dist, LearnsFirst, TablesFit;
    LearnsFromBeyond(r, g, l, u, y, d);
    LinkIsOriented(r, g, u, z, d);
    if z == d {
      ZeroDistance(r, g, d, d);
      assert Towards(r, g, u, z, d);
    } else if Knows(l.net, z, d) {
      KnownIsOk(r, g, l.net, z, d);
    } else {
      LearnsFromBeyond(r, g, l, u, z, d);
    }
  }

  // The copies a switch has just written, each the last packet of its link.
  ghost predicate Written(g: Topology, n: Net, u: Id, copies: set<Spot>, p: Packet) {
    forall t :: t in copies ==>
      t.At? && t.u == u && Holds(n, t, p) && t.i == |On(n.links, u, t.w)| - 1 && Adjacent(g, u, t.w)
  }

  lemma CopiesServed(g: Topology, n: Net, u: Id, k: nat)
    requires WellFormed(g) && Enabled(g, n, Forward(u, k))
    ensures Written(g, Next(g, n, Forward(u, k)), u, ServedCopies(g, n, u, k), Served(g, n, u, k))
  {
    forall t | t in ServedCopies(g, n, u, k)
      ensures t.At? && t.u == u && Writes(g, n, Forward(u, k), u, t.w) == [Served(g, n, u, k)]
      ensures t.i == |On(n.links, u, t.w)| && Adjacent(g, u, t.w)
      ensures Holds(Next(g, n, Forward(u, k)), t, Served(g, n, u, k))
      ensures |On(Next(g, n, Forward(u, k)).links, u, t.w)| == t.i + 1
    {
      hide WellFormed, Next;
      assert Writes(g, n, Forward(u, k), u, t.w) == [Served(g, n, u, k)];
      CopyLands(g, n, Forward(u, k), u, t.w, Served(g, n, u, k));
    }
    hide Next, Holds, Writes, Enabled, WellFormed;
  }

  lemma ServedWaits(r: Rooting, g: Topology, l: Looped, u: Id, y: Id, d: Id, p: Packet, copies: set<Spot>)
    returns (m: nat, j: nat, k: nat)
    requires NetInv(r, g, l.net) && TurnsFit(g, l) && IsHost(g, d) && p.dst == d && Written(g, l.net, u, copies, p)
    requires Adjacent(g, u, y) && u in g.switches && y in g.switches
    requires !Knows(l.net, u, d) && !Knows(l.net, y, d) && Settles(g, l, u, d)
    ensures On(l.net.links, u, y) != []
    ensures Waiting(g, l, y, m, j, k, Last(l.net, u, y).i, d, p, copies)
  {
    assert y in l.at && LearnsFirst(g, l, y, u, d);
    hide NetInv, Knows, ReadsFirst, FromD, Settles, Holds, Live, LearnsFirst;
    OnlyLiveCopy(r, g, l, u, y, d, p, copies);
    m, j, k := FirstFromD(g, l, u, y, d);
  }

  lemma FirstFromD(g: Topology, l: Looped, u: Id, y: Id, d: Id) returns (m: nat, j: nat, k: nat)
    requires y in g.ports && y in l.at && LearnsFirst(g, l, y, u, d)
    ensures m < |g.ports[y]| && FromD(g, l.net, y, m, j, d)
    ensures k < |g.ports[y]| && g.ports[y][k] == u && On(l.net.links, u, y) != []
    ensures ReadsFirst(g, l, y, m, j, k, Last(l.net, u, y).i)
  {
    hide ReadsFirst, FromD;
    m, j, k :| m < |g.ports[y]| && FromD(g, l.net, y, m, j, d) && k < |g.ports[y]| && g.ports[y][k] == u
      && On(l.net.links, u, y) != [] && ReadsFirst(g, l, y, m, j, k, |On(l.net.links, u, y)| - 1);
  }

  lemma OnlyLiveCopy(r: Rooting, g: Topology, l: Looped, u: Id, y: Id, d: Id, p: Packet, copies: set<Spot>)
    requires NetInv(r, g, l.net) && TurnsFit(g, l) && IsHost(g, d) && p.dst == d && Written(g, l.net, u, copies, p)
    requires Adjacent(g, u, y) && u in g.switches && y in g.switches
    requires !Knows(l.net, u, d) && !Knows(l.net, y, d) && Settles(g, l, u, d)
    ensures forall t :: t in copies ==> Holds(l.net, t, p)
    ensures forall t :: t in copies && Live(g, t, d) && On(l.net.links, u, y) != [] ==> t == Last(l.net, u, y)
  {
    hide NetInv, Knows, TurnsFit, Settles, Holds;
    forall t | t in copies && Live(g, t, d) && On(l.net.links, u, y) != []
      ensures t == Last(l.net, u, y)
    {
      OnlyNeighbour(r, g, l, u, y, d, t.w);
    }
  }

  // Switch u has just served packet p: `l` before, `l'` afterwards, with the copies it has written.
  ghost predicate JustServed(g: Topology, l: Looped, u: Id, p: Packet, l': Looped, copies: set<Spot>) {
    && u in g.switches && CanMove(g, l, Move(u, None)) && StepOf(g, l, Move(u, None)) == Forward(u, l.at[u])
    && l' == Moved(g, l, Move(u, None))
    && p == Served(g, l.net, u, l.at[u]) && copies == ServedCopies(g, l.net, u, l.at[u])
  }

  lemma ServedStep(g: Topology, l: Looped, u: Id, p: Packet, l': Looped, copies: set<Spot>)
    requires TurnsFit(g, l) && JustServed(g, l, u, p, l', copies)
    ensures u in l.at && u in g.ports && u in g.switches && Enabled(g, l.net, Forward(u, l.at[u]))
    ensures l'.net == Next(g, l.net, Forward(u, l.at[u])) && TurnsFit(g, l')
    ensures p == Served(g, l.net, u, l.at[u]) && copies == ServedCopies(g, l.net, u, l.at[u])
  {
    hide Next, Enabled, Served, ServedCopies;
  }

  lemma AfterServing(r: Rooting, g: Topology, l: Looped, u: Id, d: Id, p: Packet, l': Looped, copies: set<Spot>)
    requires NetInv(r, g, l.net) && TurnsFit(g, l) && JustServed(g, l, u, p, l', copies) && IsHost(g, d) && p.dst == d
    ensures NetInv(r, g, l'.net) && TurnsFit(g, l') && u in g.ports && u in g.switches
    ensures Written(g, l'.net, u, copies, p)
    ensures Knows(l'.net, u, d) || (p.src != d && Flooded(g, l'.net, u, copies, p))
    ensures Quiet(g, l'.net, u, d) ==> AtMostOne(g, l'.net, copies, p)
  {
    assert WellFormed(g);
    hide *;
    ServedStep(g, l, u, p, l', copies);
    var k := l.at[u];
    InvKept(r, g, l.net, Forward(u, k));
    KnowsByThen(g, l.net, u, k, d);
    CopiesServed(g, l.net, u, k);
    if !Knows(l'.net, u, d) {
      ServedFloods(g, l.net, u, k, d);
    }
    if Quiet(g, l'.net, u, d) {
      QuietMeansOne(r, g, l.net, u, k, d);
    }
  }

  lemma SettledMeansOnce(r: Rooting, g: Topology, l: Looped, u: Id, d: Id, p: Packet, copies: set<Spot>,
                         moves: seq<Move>)
    requires NetInv(r, g, l.net) && TurnsFit(g, l) && u in g.switches && u in g.ports && IsHost(g, d) && p.dst == d
    requires Written(g, l.net, u, copies, p) && Settles(g, l, u, d) && CanLoop(g, l, moves)
    requires Quiet(g, l.net, u, d) ==> AtMostOne(g, l.net, copies, p)
    ensures LoopDeliveries(g, l, moves, copies) <= 1
  {
    hide NetInv, TurnsFit, LoopDeliveries, CanLoop, Written, Settles, AtMostOne, Waiting, Knows;
    if Quiet(g, l.net, u, d) {
      LoopAtMostOnce(r, g, l, moves, copies, p);
    } else {
      var y :| y in g.ports[u] && y in g.switches && !Knows(l.net, y, d);
      var m, j, k := ServedWaits(r, g, l, u, y, d, p, copies);
      WaitingOnce(r, g, l, y, m, j, k, Last(l.net, u, y).i, d, p, copies, moves);
    }
  }

  lemma KnowingSettles(g: Topology, l: Looped, u: Id, d: Id)
    requires u in g.ports
    ensures Knows(l.net, u, d) ==> Settles(g, l, u, d)
  {
  }
}
