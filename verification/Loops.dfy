// The network with its processes in loop order: a switch visits its ports in turn, one packet each; a
// host looks for a command, polls its ports in turn and executes a job. Different processes take turns
// arbitrarily.
module Loops {
  import opened Types
  import opened Switches
  import opened Trees
  import opened Network
  import opened Learning

  // at[x] is the place of process x in its loop: the number of the port it looks at next; after its
  // last port a host executes a job, and then it looks for a command.
  datatype Looped = Looped(net: Net, at: map<Id, nat>)

  // The next action of a process. A host whose turn it is to execute a job may send a packet.
  datatype Move = Move(node: Id, out: Option<Packet>)

  function LoopLength(g: Topology, x: Id): nat
    requires x in g.ports
  {
    if x in g.switches then |g.ports[x]| else |g.ports[x]| + 2
  }

  // What a move is for the network: a port is only skipped when there is nothing to read.
  function StepOf(g: Topology, l: Looped, move: Move): Step {
    var x := move.node;
    if x !in g.ports || x !in l.at then Idle
    else if l.at[x] < |g.ports[x]| then
      if On(l.net.links, g.ports[x][l.at[x]], x) == [] then Idle
      else if x in g.switches then Forward(x, l.at[x]) else Take(x, l.at[x])
    else if move.out.Some? then Send(x, move.out.value)
    else Idle
  }

  predicate CanMove(g: Topology, l: Looped, move: Move) {
    && move.node in g.ports && move.node in l.at
    && (move.out.Some? ==> IsHost(g, move.node) && l.at[move.node] == |g.ports[move.node]|)
    && Enabled(g, l.net, StepOf(g, l, move))
  }

  function After(g: Topology, x: Id, t: nat): nat
    requires x in g.ports
  {
    if t + 1 < LoopLength(g, x) then t + 1 else 0
  }

  function Moved(g: Topology, l: Looped, move: Move): Looped
    requires CanMove(g, l, move)
  {
    Looped(Next(g, l.net, StepOf(g, l, move)), l.at[move.node := After(g, move.node, l.at[move.node])])
  }

  // Where a loop starts: a switch with its first port, a host with a command.
  function LoopTop(g: Topology, x: Id): nat
    requires x in g.ports
  {
    if x in g.switches then 0 else |g.ports[x]| + 1
  }

  ghost predicate TurnsFit(g: Topology, l: Looped) {
    && l.at.Keys == g.ports.Keys
    && forall x :: x in l.at ==> l.at[x] < LoopLength(g, x) || l.at[x] == 0
  }

  // ---- Continuations ----

  ghost predicate CanLoop(g: Topology, l: Looped, moves: seq<Move>)
    decreases |moves|
  {
    moves == [] || (CanMove(g, l, moves[0]) && CanLoop(g, Moved(g, l, moves[0]), moves[1..]))
  }

  ghost function LoopTo(g: Topology, l: Looped, moves: seq<Move>): Looped
    requires CanLoop(g, l, moves)
    decreases |moves|
  {
    if moves == [] then l else LoopTo(g, Moved(g, l, moves[0]), moves[1..])
  }

  // What the moves are for the network.
  ghost function StepsOf(g: Topology, l: Looped, moves: seq<Move>): seq<Step>
    requires CanLoop(g, l, moves)
    decreases |moves|
  {
    if moves == [] then [] else [StepOf(g, l, moves[0])] + StepsOf(g, Moved(g, l, moves[0]), moves[1..])
  }

  lemma OneLoop(g: Topology, l: Looped, move: Move, rest: seq<Move>)
    requires CanMove(g, l, move) && CanLoop(g, Moved(g, l, move), rest)
    ensures CanLoop(g, l, [move] + rest)
    ensures LoopTo(g, l, [move] + rest) == LoopTo(g, Moved(g, l, move), rest)
    ensures StepsOf(g, l, [move] + rest) == [StepOf(g, l, move)] + StepsOf(g, Moved(g, l, move), rest)
  {
    assert ([move] + rest)[0] == move && ([move] + rest)[1..] == rest;
  }

  lemma {:induction false} LoopConcat(g: Topology, l: Looped, a: seq<Move>, b: seq<Move>)
    requires CanLoop(g, l, a) && CanLoop(g, LoopTo(g, l, a), b)
    ensures CanLoop(g, l, a + b)
    ensures LoopTo(g, l, a + b) == LoopTo(g, LoopTo(g, l, a), b)
    ensures StepsOf(g, l, a + b) == StepsOf(g, l, a) + StepsOf(g, LoopTo(g, l, a), b)
    decreases |a|
  {
    hide CanMove, Moved, StepOf;
    if a == [] {
      assert a + b == b;
    } else {
      LoopConcat(g, Moved(g, l, a[0]), a[1..], b);
      assert a + b == [a[0]] + (a[1..] + b);
      OneLoop(g, l, a[0], a[1..] + b);
    }
  }

  // Processes in loop order make runs of the network, not all of them.
  lemma {:induction false} LoopIsRun(g: Topology, l: Looped, moves: seq<Move>)
    requires CanLoop(g, l, moves)
    ensures CanRun(g, l.net, StepsOf(g, l, moves))
    ensures RunFrom(g, l.net, StepsOf(g, l, moves)) == LoopTo(g, l, moves).net
    decreases |moves|
  {
    if moves != [] {
      var l1 := Moved(g, l, moves[0]);
      LoopIsRun(g, l1, moves[1..]);
      OneRun(g, l.net, StepOf(g, l, moves[0]), StepsOf(g, l1, moves[1..]));
    }
  }

  // Whatever its place in the loop, a process can always go on.
  lemma CanGoOn(r: Rooting, g: Topology, l: Looped, x: Id)
    requires NetInv(r, g, l.net) && TurnsFit(g, l) && x in g.ports
    ensures CanMove(g, l, Move(x, None))
  {
    hide EntriesOk, Rooted;
    if l.at[x] < |g.ports[x]| && On(l.net.links, g.ports[x][l.at[x]], x) != [] {
      var from := g.ports[x][l.at[x]];
      var p := On(l.net.links, from, x)[0];
      assert p in On(l.net.links, from, x) && PacketOk(g, l.net, from, x, p);
    }
  }

  // ---- In which order a process reads ----

  // How many moves a process at place t of its loop makes before it comes to place k.
  function Ahead(length: nat, t: nat, k: nat): nat {
    if t <= k then k - t else if t <= k + length then k + length - t else 0
  }

  function Gap(g: Topology, l: Looped, x: Id, k: nat): nat
    requires x in g.ports && x in l.at && k < |g.ports[x]|
  {
    Ahead(LoopLength(g, x), l.at[x], k)
  }

  // One move of x: it comes closer to port k, or looks at it and is then farthest from it.
  lemma GapAfter(g: Topology, l: Looped, x: Id, k: nat, move: Move)
    requires CanMove(g, l, move) && TurnsFit(g, l) && x in g.ports && k < |g.ports[x]|
    ensures TurnsFit(g, Moved(g, l, move))
    ensures Gap(g, Moved(g, l, move), x, k)
         == if move.node != x then Gap(g, l, x, k)
            else if l.at[x] == k then LoopLength(g, x) - 1 else Gap(g, l, x, k) - 1
    ensures Gap(g, l, x, k) < LoopLength(g, x) && (Gap(g, l, x, k) == 0 <==> l.at[x] == k)
  {
  }

  // Process x reads the j-th unread packet of port m before the i-th of port k.
  predicate ReadsFirst(g: Topology, l: Looped, x: Id, m: nat, j: nat, k: nat, i: nat)
    requires x in g.ports && x in l.at && m < |g.ports[x]| && k < |g.ports[x]|
  {
    j < i || (j == i && Gap(g, l, x, m) < Gap(g, l, x, k))
  }
}
