// How often a packet that a switch serves is delivered when all hosts and switches keep to their loops:
// exactly when it cannot be twice.
module AtMostOnce {
  import opened Types
  import opened Switches
  import opened Trees
  import opened Network
  import opened Learning
  import opened Delivery
  import opened Copies
  import opened Duplicates
  import opened Simulator
  import opened Loops
  import opened SysLoops
  import opened Rebounds

  // ---- Deliveries along a continuation of the whole simulator ----

  ghost function FullDeliveries(g: Topology, f: SysLooped, acts: seq<Action>, copies: set<Spot>): nat
    requires CanActAll(g, f, acts)
  {
    ActsAreMoves(g, f, acts);
    LoopDeliveries(g, NetOf(f), MovesOf(g, f, acts), copies)
  }

  // The network's part of an action.
  function StepIn(g: Topology, f: SysLooped, a: Action): Step {
    StepOf(g, NetOf(f), MoveOf(g, f, a))
  }

  lemma OneMoreAct(g: Topology, f: SysLooped, a: Action, rest: seq<Action>, copies: set<Spot>)
    requires CanAct(g, f, a) && CanActAll(g, Acted(g, f, a), rest)
    ensures CanActAll(g, f, [a] + rest) && Enabled(g, f.sys.net, StepIn(g, f, a))
    ensures FullDeliveries(g, f, [a] + rest, copies)
         == Accepted(g, f.sys.net, StepIn(g, f, a), copies)
            + FullDeliveries(g, Acted(g, f, a), rest, Descend(g, f.sys.net, StepIn(g, f, a), copies))
  {
    ActIsMove(g, f, a);
    OneAct(g, f, a, rest);
    ActsAreMoves(g, Acted(g, f, a), rest);
    assert ([a] + rest)[0] == a && ([a] + rest)[1..] == rest;
    assert MovesOf(g, f, [a] + rest) == [MoveOf(g, f, a)] + MovesOf(g, Acted(g, f, a), rest);
    hide CanAct, Acted, CanActAll, MovesOf, MoveOf, Accepted, Descend, LoopDeliveries;
    OneMoreMove(g, NetOf(f), MoveOf(g, f, a), MovesOf(g, Acted(g, f, a), rest), copies);
  }

  lemma {:induction false} MovesConcat(g: Topology, f: SysLooped, a: seq<Action>, b: seq<Action>)
    requires CanActAll(g, f, a) && CanActAll(g, ActedAll(g, f, a), b)
    ensures CanActAll(g, f, a + b)
    ensures MovesOf(g, f, a + b) == MovesOf(g, f, a) + MovesOf(g, ActedAll(g, f, a), b)
    decreases |a|
  {
    hide CanAct, Acted, MoveOf;
    ActsConcat(g, f, a, b);
    if a == [] {
      assert a + b == b;
    } else {
      MovesConcat(g, Acted(g, f, a[0]), a[1..], b);
      assert (a + b)[0] == a[0] && (a + b)[1..] == a[1..] + b;
    }
  }

  lemma ActsAdd(g: Topology, f: SysLooped, a: seq<Action>, b: seq<Action>, copies: set<Spot>)
    requires CanActAll(g, f, a) && CanActAll(g, ActedAll(g, f, a), b)
    ensures CanActAll(g, f, a + b) && CanLoop(g, NetOf(f), MovesOf(g, f, a))
    ensures FullDeliveries(g, f, a + b, copies)
         >= FullDeliveries(g, ActedAll(g, f, a), b, LoopCopies(g, NetOf(f), MovesOf(g, f, a), copies))
  {
    MovesConcat(g, f, a, b);
    ActsAreMoves(g, f, a);
    ActsAreMoves(g, ActedAll(g, f, a), b);
    hide CanActAll, ActedAll, MovesOf, LoopDeliveries, LoopCopies, CanLoop, LoopTo;
    MovesAdd(g, NetOf(f), MovesOf(g, f, a), MovesOf(g, ActedAll(g, f, a), b), copies);
  }

  // ---- Every process can go on ----

  ghost predicate FullInv(r: Rooting, g: Topology, f: SysLooped) {
    TreeInv(r, g, f.sys) && PlacesFit(g, f)
  }

  lemma FullParts(r: Rooting, g: Topology, f: SysLooped)
    requires FullInv(r, g, f)
    ensures NetInv(r, g, NetOf(f).net) && TurnsFit(g, NetOf(f)) && HostsOk(g, f.sys) && PlacesFit(g, f)
  {
    hide NetInv, HostsOk;
  }

  lemma CanActNow(r: Rooting, g: Topology, f: SysLooped, x: Id)
    requires FullInv(r, g, f) && x in g.ports
    ensures CanAct(g, f, Mine(x, NO_DISK)) && FullInv(r, g, Acted(g, f, Mine(x, NO_DISK)))
  {
    NowPossible(r, g, f, x);
    PlacesStay(g, f, Mine(x, NO_DISK));
    var step := ActStep(g, f, Mine(x, NO_DISK));
    hide TreeInv, PlacesFit, ActStep, Possible, Then;
    if step.Some? {
      TreeInvKept(r, g, f.sys, step.value);
    }
  }

  lemma NowPossible(r: Rooting, g: Topology, f: SysLooped, x: Id)
    requires FullInv(r, g, f) && x in g.ports
    ensures CanAct(g, f, Mine(x, NO_DISK))
  {
    FullParts(r, g, f);
    hide FullInv, NetInv, HostsOk, CanAct, TurnsFit, PlacesFit;
    CanGoOn(r, g, NetOf(f), x);
    if IsHost(g, x) {
      HasLog(g, f.sys, x);
      OldestJobRuns(g, f.sys, x, NO_DISK);
      HostCan(g, f, x);
    } else {
      SwitchCan(g, f, x);
    }
  }

  lemma HasLog(g: Topology, sys: System, x: Id)
    requires HostsOk(g, sys) && IsHost(g, x)
    ensures x in sys.hosts
  {
  }

  lemma HostCan(g: Topology, f: SysLooped, x: Id)
    requires PlacesFit(g, f) && IsHost(g, x) && x in f.sys.hosts && CanMove(g, NetOf(f), Move(x, None))
    requires Possible(g, f.sys, SysStep.Job(x, NO_DISK))
    ensures CanAct(g, f, Mine(x, NO_DISK))
  {
  }

  lemma SwitchCan(g: Topology, f: SysLooped, x: Id)
    requires PlacesFit(g, f) && x in g.switches && x in g.ports && CanMove(g, NetOf(f), Move(x, None))
    ensures CanAct(g, f, Mine(x, NO_DISK))
  {
  }

  // ---- Both copies are delivered ----

  // A copy that heads for its destination, and the port at which it will be read.
  ghost predicate Under(g: Topology, f: SysLooped, copies: set<Spot>, spot: Spot, p: Packet) {
    Heading(g, f.sys.net, spot, p) && spot in copies
  }

  ghost predicate AtPort(g: Topology, spot: Spot, k: nat) {
    spot.At? && spot.w in g.ports && k < |g.ports[spot.w]| && g.ports[spot.w][k] == spot.u
  }

  ghost predicate Nearer(r: Rooting, g: Topology, f: SysLooped, f': SysLooped, spot: Spot, k: nat, next: Spot, k': nat,
                         p: Packet)
    requires Rooted(r, g) && AtPort(g, spot, k) && AtPort(g, next, k') && spot.w in f.at && next.w in f'.at
    requires 0 <= p.dst < TABLE_SIZE && p.dst in g.ports
  {
    || Dist(r, g, next.w, p.dst) < Dist(r, g, spot.w, p.dst)
    || (next.w == spot.w && (next.i < spot.i
                             || (next.i == spot.i
                                 && Gap(g, NetOf(f'), next.w, k') < Gap(g, NetOf(f), spot.w, k))))
  }

  // The process that reads the copy acts, whatever it has to do.
  lemma CopyAct(r: Rooting, g: Topology, f: SysLooped, spot: Spot, k: nat, p: Packet, copies: set<Spot>)
    returns (next: Spot, k': nat)
    requires FullInv(r, g, f) && LeafHosts(g) && Under(g, f, copies, spot, p) && AtPort(g, spot, k)
    ensures CanAct(g, f, Mine(spot.w, NO_DISK)) && FullInv(r, g, Acted(g, f, Mine(spot.w, NO_DISK)))
    ensures Rooted(r, g) && spot.w in f.at && Enabled(g, f.sys.net, StepIn(g, f, Mine(spot.w, NO_DISK)))
    ensures 0 <= p.dst < TABLE_SIZE && p.dst in g.ports
    ensures var f', step := Acted(g, f, Mine(spot.w, NO_DISK)), StepIn(g, f, Mine(spot.w, NO_DISK));
      && next == Toward(r, g, f.sys.net, step, spot, p)
      && if next == Delivered then Accepted(g, f.sys.net, step, copies) == 1
         else
           && Under(g, f', Descend(g, f.sys.net, step, copies), next, p) && AtPort(g, next, k') && next.w in f'.at
           && Nearer(r, g, f, f', spot, k, next, k', p)
  {
    var act := Mine(spot.w, NO_DISK);
    FullParts(r, g, f);
    CanActNow(r, g, f, spot.w);
    ActIsMove(g, f, act);
    FullParts(r, g, Acted(g, f, act));
    hide FullInv, LeafHosts, CanAct, Acted, NetInv, HostsOk, Toward, Accepted, Descend, Gap, Dist, StepOf, MoveOf;
    next, k' := CopyStep(r, g, NetOf(f), MoveOf(g, f, act), spot, k, p, copies);
  }

  lemma DeliverOne(r: Rooting, g: Topology, f: SysLooped, copies: set<Spot>, spot: Spot, k: nat, p: Packet)
    returns (acts: seq<Action>)
    requires FullInv(r, g, f) && LeafHosts(g) && Under(g, f, copies, spot, p) && AtPort(g, spot, k)
    ensures CanActAll(g, f, acts) && FullDeliveries(g, f, acts, copies) >= 1
    decreases Dist(r, g, spot.w, p.dst), spot.i, Gap(g, NetOf(f), spot.w, k)
  {
    hide FullInv, LeafHosts, CanAct, Acted, Dist, Gap, Toward, Accepted, Descend, FullDeliveries, Under, StepIn,
      Enabled;
    var act := Mine(spot.w, NO_DISK);
    var next, k' := CopyAct(r, g, f, spot, k, p, copies);
    var rest := [];
    if next != Delivered {
      rest := DeliverOne(r, g, Acted(g, f, act), Descend(g, f.sys.net, StepIn(g, f, act), copies), next, k', p);
    }
    acts := [act] + rest;
    OneMoreAct(g, f, act, rest, copies);
  }

  // The other copy in such an action.
  lemma OtherCopy(r: Rooting, g: Topology, f: SysLooped, act: Action, a: Spot, b: Spot, p: Packet, copies: set<Spot>)
    returns (b': Spot)
    requires FullInv(r, g, f) && LeafHosts(g) && Under(g, f, copies, a, p) && Under(g, f, copies, b, p) && a != b
    requires CanAct(g, f, act) && Enabled(g, f.sys.net, StepIn(g, f, act))
    ensures Rooted(r, g)
    ensures b' != Toward(r, g, f.sys.net, StepIn(g, f, act), a, p)
    ensures if b' == Delivered then Accepted(g, f.sys.net, StepIn(g, f, act), copies) == 1
            else Under(g, Acted(g, f, act), Descend(g, f.sys.net, StepIn(g, f, act), copies), b', p)
  {
    FullParts(r, g, f);
    ActIsMove(g, f, act);
    var step := StepIn(g, f, act);
    StayApart(r, g, f.sys.net, step, a, b, p);
    hide FullInv, LeafHosts, CanAct, Acted, NetInv, HostsOk, Toward, Accepted, Descend, Dist, Heading, StepOf, MoveOf;
    TowardTracked(r, g, f.sys.net, step, b, p, copies);
    b' := Toward(r, g, f.sys.net, step, b, p);
  }

  lemma DeliverBoth(r: Rooting, g: Topology, f: SysLooped, copies: set<Spot>, a: Spot, k: nat, b: Spot, p: Packet)
    returns (acts: seq<Action>)
    requires FullInv(r, g, f) && LeafHosts(g) && a != b
    requires Under(g, f, copies, a, p) && Under(g, f, copies, b, p) && AtPort(g, a, k)
    ensures CanActAll(g, f, acts) && FullDeliveries(g, f, acts, copies) >= 2
    decreases Dist(r, g, a.w, p.dst), a.i, Gap(g, NetOf(f), a.w, k)
  {
    hide FullInv, LeafHosts, CanAct, CanActAll, Acted, Dist, Gap, Toward, Accepted, Descend, FullDeliveries, Under,
      StepIn, Enabled, NetOf;
    var act := Mine(a.w, NO_DISK);
    var a', k' := CopyAct(r, g, f, a, k, p, copies);
    var b' := OtherCopy(r, g, f, act, a, b, p, copies);
    var f', copies', rest := Acted(g, f, act), Descend(g, f.sys.net, StepIn(g, f, act), copies), [];
    if a' == Delivered {
      var kb := PortOf(r, g, f', copies', b', p);
      rest := DeliverOne(r, g, f', copies', b', kb, p);
    } else if b' == Delivered {
      rest := DeliverOne(r, g, f', copies', a', k', p);
    } else {
      rest := DeliverBoth(r, g, f', copies', a', k', b', p);
    }
    acts := [act] + rest;
    OneMoreAct(g, f, act, rest, copies);
  }

  lemma PortOf(r: Rooting, g: Topology, f: SysLooped, copies: set<Spot>, spot: Spot, p: Packet) returns (k: nat)
    requires FullInv(r, g, f) && Under(g, f, copies, spot, p)
    ensures AtPort(g, spot, k)
  {
    FullParts(r, g, f);
    hide FullInv, NetInv, HostsOk;
    k := SpotPort(r, g, f.sys.net, spot, p);
  }

  // ---- If u has not settled ----

  // The moves of a switch are actions of it.
  lemma {:induction false} ActsOf(r: Rooting, g: Topology, f: SysLooped, y: Id, moves: seq<Move>)
    returns (acts: seq<Action>, f': SysLooped)
    requires FullInv(r, g, f) && y in g.switches && y in g.ports && CanLoop(g, NetOf(f), moves) && OnlyOf(moves, y)
    ensures CanActAll(g, f, acts) && MovesOf(g, f, acts) == moves && ActedAll(g, f, acts) == f'
    ensures FullInv(r, g, f') && NetOf(f') == LoopTo(g, NetOf(f), moves)
    decreases |moves|
  {
    hide FullInv, CanAct, Acted, CanMove, Moved, MoveOf, NetOf, OnlyOf;
    acts, f' := [], f;
    if moves != [] {
      var act := Mine(y, NO_DISK);
      OnlyOfMore(moves, y);
      CanActNow(r, g, f, y);
      ActIsMove(g, f, act);
      MoveOfSwitch(g, f, y);
      var rest;
      rest, f' := ActsOf(r, g, Acted(g, f, act), y, moves[1..]);
      acts := [act] + rest;
      OneAct(g, f, act, rest);
      assert acts[0] == act && acts[1..] == rest && moves == [moves[0]] + moves[1..];
    }
  }

  lemma OnlyOfMore(moves: seq<Move>, y: Id)
    requires OnlyOf(moves, y) && moves != []
    ensures moves[0] == Move(y, None) && OnlyOf(moves[1..], y)
  {
  }

  lemma MoveOfSwitch(g: Topology, f: SysLooped, y: Id)
    requires y in g.switches && CanAct(g, f, Mine(y, NO_DISK))
    ensures MoveOf(g, f, Mine(y, NO_DISK)) == Move(y, None)
  {
  }

  // u has just flooded p, its neighbour y knows no better and throws it back: both copies reach the
  // destination.
  lemma ThrownBackTwice(r: Rooting, g: Topology, f: SysLooped, u: Id, y: Id, k: nat, i: nat, d: Id, p: Packet,
                        copies: set<Spot>)
    returns (acts: seq<Action>)
    requires FullInv(r, g, f) && Rooted(r, g) && LeafHosts(g) && IsHost(g, d) && p.dst == d
    requires Adjacent(g, u, y) && u in g.switches && y in g.switches && y in g.ports
    requires Flooded(g, f.sys.net, u, copies, p) && WillFlood(r, g, NetOf(f), u, y, k, i, d, p, copies)
    ensures CanActAll(g, f, acts) && FullDeliveries(g, f, acts, copies) >= 2
  {
    hide *;
    var c := OnItsWay(r, g, f.sys.net, u, y, d, p, copies);
    SameNet(f);
    var moves := Bounce(r, g, NetOf(f), u, y, k, i, d, p, copies, c);
    var first, f' := ActsOf(r, g, f, y, moves);
    var copies' := LoopCopies(g, NetOf(f), moves, copies);
    SameNet(f');
    var a, b := BothHead(r, g, f'.sys.net, u, y, d, p, copies', c);
    BothUnder(g, f', copies', a, b, p);
    var ka := PortOf(r, g, f', copies', a, p);
    var second := DeliverBoth(r, g, f', copies', a, ka, b, p);
    ActsAdd(g, f, first, second, copies);
    acts := first + second;
  }

  lemma SameNet(f: SysLooped)
    ensures NetOf(f).net == f.sys.net
  {
  }

  lemma BothUnder(g: Topology, f: SysLooped, copies: set<Spot>, a: Spot, b: Spot, p: Packet)
    requires Heading(g, f.sys.net, a, p) && Heading(g, f.sys.net, b, p) && a in copies && b in copies
    ensures Under(g, f, copies, a, p) && Under(g, f, copies, b, p)
  {
  }

  lemma OtherwiseTwice(r: Rooting, g: Topology, f: SysLooped, u: Id, d: Id, p: Packet, copies: set<Spot>)
    returns (acts: seq<Action>)
    requires FullInv(r, g, f) && LeafHosts(g) && IsHost(g, d) && u in g.switches && u in g.ports && p.dst == d
    requires p.src != d && Flooded(g, f.sys.net, u, copies, p) && !Settles(g, NetOf(f), u, d)
    ensures CanActAll(g, f, acts) && FullDeliveries(g, f, acts, copies) >= 2
  {
    hide *;
    var l := NetOf(f);
    FullParts(r, g, f);
    SameNet(f);
    var y := Unsettled(r, g, l, u, d, copies, p);
    var k := LinkPort(r, g, l.net, u, y);
    var i := |On(l.net.links, u, y)| - 1;
    NothingFirst(r, g, l, u, y, k, d);
    AboutToBeThrownBack(r, g, l, u, y, k, i, d, p, copies);
    acts := ThrownBackTwice(r, g, f, u, y, k, i, d, p, copies);
  }

  lemma Unsettled(r: Rooting, g: Topology, l: Looped, u: Id, d: Id, copies: set<Spot>, p: Packet) returns (y: Id)
    requires NetInv(r, g, l.net) && TurnsFit(g, l) && u in g.ports && !Settles(g, l, u, d)
    requires Flooded(g, l.net, u, copies, p)
    ensures y in g.ports[u] && y in g.switches && y in g.ports && y in l.at && !Knows(l.net, y, d)
    ensures !LearnsFirst(g, l, y, u, d) && On(l.net.links, u, y) != []
  {
    assert WellFormed(g);
    hide NetInv, LearnsFirst, Knows;
    y :| y in g.ports[u] && y in g.switches && !Knows(l.net, y, d)
      && !(y in g.ports && y in l.at && LearnsFirst(g, l, y, u, d));
  }

  lemma AboutToBeThrownBack(r: Rooting, g: Topology, l: Looped, u: Id, y: Id, k: nat, i: nat, d: Id, p: Packet,
                            copies: set<Spot>)
    requires NetInv(r, g, l.net) && TurnsFit(g, l) && y in g.switches && y in g.ports && y in l.at && k < |g.ports[y]|
    requires g.ports[y][k] == u && u in g.ports && y in g.ports[u] && !Knows(l.net, y, d) && p.dst == d && p.src != d
    requires Flooded(g, l.net, u, copies, p) && i + 1 == |On(l.net.links, u, y)| && NoneFirst(g, l, y, d, k, i)
    ensures WillFlood(r, g, l, u, y, k, i, d, p, copies) && Rooted(r, g) && Adjacent(g, u, y)
  {
    hide TablesFit, PacketsOk, EntriesOk, NoneFirst, Knows, Roots;
  }

  // ---- The exact condition ----

  // Switch u has just served packet p: `f` before, `f'` afterwards, with the copies it has written.
  ghost predicate HasServed(g: Topology, f: SysLooped, u: Id, p: Packet, f': SysLooped, copies: set<Spot>) {
    && u in g.switches && CanAct(g, f, Mine(u, NO_DISK)) && ActStep(g, f, Mine(u, NO_DISK)) == Some(Serve(u, f.at[u]))
    && f' == Acted(g, f, Mine(u, NO_DISK))
    && p == Served(g, f.sys.net, u, f.at[u]) && copies == ServedCopies(g, f.sys.net, u, f.at[u])
  }

  lemma ServedInNet(g: Topology, f: SysLooped, u: Id, p: Packet, f': SysLooped, copies: set<Spot>)
    requires HasServed(g, f, u, p, f', copies)
    ensures JustServed(g, NetOf(f), u, p, NetOf(f'), copies)
  {
    ActIsMove(g, f, Mine(u, NO_DISK));
    hide Served, ServedCopies, Next, Enabled;
  }

  lemma AfterAct(r: Rooting, g: Topology, f: SysLooped, u: Id, d: Id, p: Packet, f': SysLooped, copies: set<Spot>)
    requires FullInv(r, g, f) && HasServed(g, f, u, p, f', copies) && IsHost(g, d) && p.dst == d
    ensures FullInv(r, g, f') && u in g.ports && u in g.switches
    ensures NetInv(r, g, NetOf(f').net) && TurnsFit(g, NetOf(f')) && Written(g, NetOf(f').net, u, copies, p)
    ensures Knows(NetOf(f').net, u, d) || (p.src != d && Flooded(g, f'.sys.net, u, copies, p))
    ensures Quiet(g, NetOf(f').net, u, d) ==> AtMostOne(g, NetOf(f').net, copies, p)
  {
    FullParts(r, g, f);
    ServedInNet(g, f, u, p, f', copies);
    SameNet(f');
    hide FullInv, NetInv, HostsOk, TurnsFit, PlacesFit, Written, Flooded, AtMostOne, Quiet, Knows, JustServed, CanAct,
      Acted;
    AfterServing(r, g, NetOf(f), u, d, p, NetOf(f'), copies);
    CanActNow(r, g, f, u);
  }

  // Whatever the hosts do and however the processes take turns, a packet that switch u serves is accepted
  // at most once if and only if u knows its destination d by then, or every switch next to u knows d or
  // reads a packet from d before the copy of this one.
  lemma AtMostOnceIffSettles(g: Topology, f: SysLooped, u: Id, d: Id, p: Packet, f': SysLooped, copies: set<Spot>)
    requires IsTree(g) && LeafHosts(g) && Occurs(g, f.sys) && PlacesFit(g, f) && HasServed(g, f, u, p, f', copies)
    requires u in g.ports && IsHost(g, d) && p.dst == d
    ensures (forall acts :: CanActAll(g, f', acts) ==> FullDeliveries(g, f', acts, copies) <= 1)
            <==> Settles(g, NetOf(f'), u, d)
  {
    var r := InvHere(g, f, u);
    hide *;
    AfterAct(r, g, f, u, d, p, f', copies);
    if Settles(g, NetOf(f'), u, d) {
      forall acts | CanActAll(g, f', acts)
        ensures FullDeliveries(g, f', acts, copies) <= 1
      {
        SettledActs(r, g, f', u, d, p, copies, acts);
      }
    } else {
      KnowingSettles(g, NetOf(f'), u, d);
      var acts := OtherwiseTwice(r, g, f', u, d, p, copies);
    }
  }

  lemma InvHere(g: Topology, f: SysLooped, u: Id) returns (r: Rooting)
    requires IsTree(g) && Occurs(g, f.sys) && PlacesFit(g, f) && u in g.ports
    ensures FullInv(r, g, f)
  {
    r := RootedAt(g, u);
    hide IsTree, Occurs, PlacesFit, TreeInv, RootedAt;
    OccursInTree(g, u, f.sys);
  }

  lemma SettledActs(r: Rooting, g: Topology, f: SysLooped, u: Id, d: Id, p: Packet, copies: set<Spot>,
                    acts: seq<Action>)
    requires NetInv(r, g, NetOf(f).net) && TurnsFit(g, NetOf(f)) && u in g.switches && u in g.ports && IsHost(g, d)
    requires p.dst == d && Written(g, NetOf(f).net, u, copies, p) && Settles(g, NetOf(f), u, d) && CanActAll(g, f, acts)
    requires Quiet(g, NetOf(f).net, u, d) ==> AtMostOne(g, NetOf(f).net, copies, p)
    ensures FullDeliveries(g, f, acts, copies) <= 1
  {
    ActsAreMoves(g, f, acts);
    hide NetInv, TurnsFit, Written, Settles, CanActAll, MovesOf, Quiet, AtMostOne, LoopDeliveries, CanLoop;
    SettledMeansOnce(r, g, NetOf(f), u, d, p, copies, MovesOf(g, f, acts));
  }

  // In particular, as long as no packet from d is under way: if and only if u knows d or all switches
  // next to it do.
  lemma AtMostOnceIffQuiet(g: Topology, f: SysLooped, u: Id, d: Id, p: Packet, f': SysLooped, copies: set<Spot>)
    requires IsTree(g) && LeafHosts(g) && Occurs(g, f.sys) && PlacesFit(g, f) && HasServed(g, f, u, p, f', copies)
    requires u in g.ports && IsHost(g, d) && p.dst == d
    requires forall a, b, q :: q in On(NetOf(f').net.links, a, b) ==> q.src != d
    ensures (forall acts :: CanActAll(g, f', acts) ==> FullDeliveries(g, f', acts, copies) <= 1)
            <==> Quiet(g, NetOf(f').net, u, d)
  {
    hide *;
    AtMostOnceIffSettles(g, f, u, d, p, f', copies);
    QuietIsSettled(g, NetOf(f'), u, d);
  }

  // With nothing from d under way, nobody can learn of it first.
  lemma QuietIsSettled(g: Topology, l: Looped, u: Id, d: Id)
    requires u in g.ports && forall a, b, q :: q in On(l.net.links, a, b) ==> q.src != d
    ensures Settles(g, l, u, d) <==> Quiet(g, l.net, u, d)
  {
    hide ReadsFirst, Knows;
    assert forall y, m: nat, j: nat :: y in g.ports && m < |g.ports[y]| ==> !FromD(g, l.net, y, m, j, d);
    hide FromD;
    assert forall y :: y in g.ports && y in l.at ==> !LearnsFirst(g, l, y, u, d);
  }
}
