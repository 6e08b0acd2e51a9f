// The whole simulator with its processes in loop order: host_main looks for a command, polls each port
// once and executes one job; switch_main visits its ports in turn. Different processes take turns
// arbitrarily.
module SysLoops {
  import opened Types
  import opened Commands
  import opened Hosts
  import opened HostLogs
  import opened Switches
  import opened Trees
  import opened Network
  import opened Simulator
  import opened Acks
  import opened Loops

  // at[x] is the place of process x in its loop, counted as in Loops.
  datatype SysLooped = SysLooped(sys: System, at: map<Id, nat>)

  // The next action of a process: `command` is what it finds if it is a host looking for a command,
  // `disk` what the disk does to its job.
  datatype Action = Action(node: Id, command: Option<Commands.Command>, disk: Disk)

  const NO_DISK := Disk(map[], false)

  // What a process does without a command.
  function Mine(x: Id, disk: Disk): Action {
    Action(x, None, disk)
  }

  // The step of the system that an action is, if it is one: a port is only skipped when there is
  // nothing to read.
  function ActStep(g: Topology, l: SysLooped, a: Action): Option<SysStep> {
    var x := a.node;
    if x !in g.ports || x !in l.at then None
    else if l.at[x] < |g.ports[x]| then
      if On(l.sys.net.links, g.ports[x][l.at[x]], x) == [] then None
      else if x in g.switches then Some(Serve(x, l.at[x])) else Some(Receive(x, l.at[x]))
    else if x in g.switches then None
    else if l.at[x] == |g.ports[x]| then Some(SysStep.Job(x, a.disk))
    else if a.command.Some? then Some(SysStep.Command(x, a.command.value))
    else None
  }

  predicate CanAct(g: Topology, l: SysLooped, a: Action) {
    && a.node in g.ports && a.node in l.at
    && (a.command.Some? ==> IsHost(g, a.node) && l.at[a.node] > |g.ports[a.node]|)
    && (ActStep(g, l, a).Some? ==> Possible(g, l.sys, ActStep(g, l, a).value))
  }

  function Acted(g: Topology, l: SysLooped, a: Action): SysLooped
    requires CanAct(g, l, a)
  {
    SysLooped(if ActStep(g, l, a).Some? then Then(g, l.sys, ActStep(g, l, a).value) else l.sys,
              l.at[a.node := Loops.After(g, a.node, l.at[a.node])])
  }

  ghost predicate SysLoopsStart(g: Topology, l: SysLooped) {
    Starts(g, l.sys) && l.at.Keys == g.ports.Keys && forall x :: x in l.at ==> l.at[x] == LoopTop(g, x)
  }

  ghost predicate PlacesFit(g: Topology, l: SysLooped) {
    && l.at.Keys == g.ports.Keys
    && forall x :: x in l.at ==> l.at[x] < LoopLength(g, x) || l.at[x] == 0
  }

  lemma PlacesStay(g: Topology, l: SysLooped, a: Action)
    requires PlacesFit(g, l) && CanAct(g, l, a)
    ensures PlacesFit(g, Acted(g, l, a))
  {
    hide Possible, Then, ActStep;
  }

  // ---- Continuations ----

  ghost predicate CanActAll(g: Topology, l: SysLooped, acts: seq<Action>)
    decreases |acts|
  {
    acts == [] || (CanAct(g, l, acts[0]) && CanActAll(g, Acted(g, l, acts[0]), acts[1..]))
  }

  ghost function ActedAll(g: Topology, l: SysLooped, acts: seq<Action>): SysLooped
    requires CanActAll(g, l, acts)
    decreases |acts|
  {
    if acts == [] then l else ActedAll(g, Acted(g, l, acts[0]), acts[1..])
  }

  // What the actions are for the system.
  ghost function StepsOfActs(g: Topology, l: SysLooped, acts: seq<Action>): seq<SysStep>
    requires CanActAll(g, l, acts)
    decreases |acts|
  {
    if acts == [] then []
    else
      var step := ActStep(g, l, acts[0]);
      (if step.Some? then [step.value] else []) + StepsOfActs(g, Acted(g, l, acts[0]), acts[1..])
  }

  lemma OneAct(g: Topology, l: SysLooped, a: Action, rest: seq<Action>)
    requires CanAct(g, l, a) && CanActAll(g, Acted(g, l, a), rest)
    ensures CanActAll(g, l, [a] + rest) && ActedAll(g, l, [a] + rest) == ActedAll(g, Acted(g, l, a), rest)
  {
    assert ([a] + rest)[0] == a && ([a] + rest)[1..] == rest;
  }

  lemma {:induction false} ActsConcat(g: Topology, l: SysLooped, a: seq<Action>, b: seq<Action>)
    requires CanActAll(g, l, a) && CanActAll(g, ActedAll(g, l, a), b)
    ensures CanActAll(g, l, a + b) && ActedAll(g, l, a + b) == ActedAll(g, ActedAll(g, l, a), b)
    decreases |a|
  {
    hide CanAct, Acted;
    if a == [] {
      assert a + b == b;
    } else {
      ActsConcat(g, Acted(g, l, a[0]), a[1..], b);
      assert a + b == [a[0]] + (a[1..] + b);
      OneAct(g, l, a[0], a[1..] + b);
    }
  }

  // Processes in loop order make continuations of the system, not all of them.
  lemma {:induction false} ActsAreSteps(g: Topology, l: SysLooped, acts: seq<Action>)
    requires CanActAll(g, l, acts)
    ensures CanGo(g, l.sys, StepsOfActs(g, l, acts))
    ensures GoOn(g, l.sys, StepsOfActs(g, l, acts)) == ActedAll(g, l, acts).sys
    decreases |acts|
  {
    hide Possible, Then;
    if acts != [] {
      var l1 := Acted(g, l, acts[0]);
      ActsAreSteps(g, l1, acts[1..]);
      var step := ActStep(g, l, acts[0]);
      if step.Some? {
        OneGo(g, l.sys, step.value, StepsOfActs(g, l1, acts[1..]));
      } else {
        assert [] + StepsOfActs(g, l1, acts[1..]) == StepsOfActs(g, l1, acts[1..]);
      }
    }
  }

  // ---- For the network ----

  // What an action is for the network: a host's job may send a packet.
  function MoveOf(g: Topology, l: SysLooped, a: Action): Move {
    var step := ActStep(g, l, a);
    Move(a.node,
         if step.Some? && NetStep(l.sys, step.value).Send? then Some(NetStep(l.sys, step.value).packet) else None)
  }

  function NetOf(l: SysLooped): Looped {
    Looped(l.sys.net, l.at)
  }

  // So everything proved of the network's loops holds of those of full hosts and switches.
  lemma ActIsMove(g: Topology, l: SysLooped, a: Action)
    requires CanAct(g, l, a)
    ensures CanMove(g, NetOf(l), MoveOf(g, l, a)) && Moved(g, NetOf(l), MoveOf(g, l, a)) == NetOf(Acted(g, l, a))
  {
    hide HostLogs.After, Transmit, Learn, ForwardTo;
  }

  ghost function MovesOf(g: Topology, l: SysLooped, acts: seq<Action>): seq<Move>
    requires CanActAll(g, l, acts)
    decreases |acts|
  {
    if acts == [] then [] else [MoveOf(g, l, acts[0])] + MovesOf(g, Acted(g, l, acts[0]), acts[1..])
  }

  lemma {:induction false} ActsAreMoves(g: Topology, l: SysLooped, acts: seq<Action>)
    requires CanActAll(g, l, acts)
    ensures CanLoop(g, NetOf(l), MovesOf(g, l, acts))
    ensures LoopTo(g, NetOf(l), MovesOf(g, l, acts)) == NetOf(ActedAll(g, l, acts))
    decreases |acts|
  {
    hide CanAct, Acted, CanMove, Moved, MoveOf, NetOf;
    if acts != [] {
      ActIsMove(g, l, acts[0]);
      ActsAreMoves(g, Acted(g, l, acts[0]), acts[1..]);
      OneLoop(g, NetOf(l), MoveOf(g, l, acts[0]), MovesOf(g, Acted(g, l, acts[0]), acts[1..]));
    }
  }

  // ---- While the manager waits ----

  // Host s gets no command: the manager is blocked until s has answered.
  ghost predicate NoCommand(acts: seq<Action>, s: Id) {
    forall i :: 0 <= i < |acts| && acts[i].node == s ==> acts[i].command == None
  }

  // The next action of host s tells its manager r.
  ghost predicate TellsNext(g: Topology, l: SysLooped, s: Id, disk: Disk, r: Reply) {
    && CanAct(g, l, Action(s, None, disk)) && s in l.sys.hosts
    && var step := ActStep(g, l, Action(s, None, disk));
       step.Some? && ReplyOf(l.sys, step.value, s) == Some(r)
  }

  // l' can come after l without a command for s.
  ghost predicate LeadsTo(g: Topology, s: Id, l: SysLooped, l': SysLooped) {
    exists acts :: CanActAll(g, l, acts) && NoCommand(acts, s) && ActedAll(g, l, acts) == l'
  }

  lemma LeadsNowhere(g: Topology, s: Id, l: SysLooped)
    ensures LeadsTo(g, s, l, l)
  {
    assert CanActAll(g, l, []) && NoCommand([], s) && ActedAll(g, l, []) == l;
  }

  lemma LeadsOnce(g: Topology, s: Id, l: SysLooped, a: Action)
    requires CanAct(g, l, a) && (a.node == s ==> a.command == None)
    ensures LeadsTo(g, s, l, Acted(g, l, a))
  {
    OneAct(g, l, a, []);
    assert [a] + [] == [a] && NoCommand([a], s);
  }

  lemma LeadsOn(g: Topology, s: Id, l: SysLooped, l1: SysLooped, l2: SysLooped)
    requires LeadsTo(g, s, l, l1) && LeadsTo(g, s, l1, l2)
    ensures LeadsTo(g, s, l, l2)
  {
    hide CanActAll, ActedAll;
    var a :| CanActAll(g, l, a) && NoCommand(a, s) && ActedAll(g, l, a) == l1;
    var b :| CanActAll(g, l1, b) && NoCommand(b, s) && ActedAll(g, l1, b) == l2;
    ActsConcat(g, l, a, b);
    assert NoCommand(a + b, s);
  }

  // Whatever happens from here while the manager waits: when s tells it that the ping was
  // acknowledged, host d has indeed answered it.
  ghost predicate LoopTruthful(g: Topology, l: SysLooped, s: Id, d: Id) {
    forall l', disk :: LeadsTo(g, s, l, l') && TellsNext(g, l', s, disk, PingAcked) ==> Answered(l'.sys.hosts[s], d)
  }

  // What holds whatever the processes do holds when they keep to their loops.
  lemma TruthfulInLoops(g: Topology, l: SysLooped, s: Id, d: Id)
    requires AckTruthful(g, l.sys, s, d)
    ensures LoopTruthful(g, l, s, d)
  {
    forall l', disk | LeadsTo(g, s, l, l') && TellsNext(g, l', s, disk, PingAcked)
      ensures Answered(l'.sys.hosts[s], d)
    {
      var acts :| CanActAll(g, l, acts) && NoCommand(acts, s) && ActedAll(g, l, acts) == l';
      ActsAreSteps(g, l, acts);
      NoCommandNoPing(g, l, acts, s);
      var step := ActStep(g, l', Action(s, None, disk)).value;
      hide Possible, CanGo, GoOn, StepsOfActs, Answered;
      assert TellsAcked(l'.sys, step, s);
    }
  }

  lemma {:induction false} NoCommandNoPing(g: Topology, l: SysLooped, acts: seq<Action>, s: Id)
    requires CanActAll(g, l, acts) && NoCommand(acts, s)
    ensures NoPing(StepsOfActs(g, l, acts), s)
    decreases |acts|
  {
    hide Possible, Then;
    if acts != [] {
      var rest := acts[1..];
      assert forall i :: 0 <= i < |rest| ==> rest[i] == acts[i + 1];
      NoCommandNoPing(g, Acted(g, l, acts[0]), rest, s);
    }
  }
}
