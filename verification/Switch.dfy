// The learning switch (switch.c): reads its ports in turn, remembers where a source was first
// seen, and forwards to the remembered port or to every port, the ingress port included.
module Switches {
  import opened Types
  import opened Endpoints

  // table[id] is the index of a port, or NULL.
  const NULL := -1

  type Table = t: seq<int> | |t| == TABLE_SIZE witness seq(TABLE_SIZE, _ => NULL)

  predicate Routable(p: Packet) {
    0 <= p.dst < TABLE_SIZE
  }

  // Only the first port a source appears on is recorded; ids outside the table never are.
  function Learn(table: Table, src: Byte, k: nat): Table {
    if 0 <= src < TABLE_SIZE && table[src] == NULL then table[src := k] else table
  }

  function Targets(table: Table, ports: nat, dst: Id): seq<int> {
    if table[dst] != NULL then [table[dst]] else seq(ports, i => i)
  }

  // A switch with the unread packets of its ports and those it has written to them.
  datatype SwitchState = SwitchState(table: Table, ins: seq<seq<Packet>>, outs: seq<seq<Packet>>)

  predicate GoodTable(table: Table, ports: nat) {
    forall s: Id :: NULL <= table[s] < ports
  }

  ghost predicate GoodState(s: SwitchState) {
    && |s.ins| == |s.outs| && GoodTable(s.table, |s.ins|)
    && forall k, i :: 0 <= k < |s.ins| && 0 <= i < |s.ins[k]| ==> Routable(s.ins[k][i])
  }

  // Sending one packet through each of the listed ports.
  function SendOn(outs: seq<seq<Packet>>, targets: seq<int>, p: Packet): (r: seq<seq<Packet>>)
    ensures |r| == |outs|
  {
    seq(|outs|, i requires 0 <= i < |outs| => if i in targets then outs[i] + [p] else outs[i])
  }

  lemma SentOn(table: Table, outs: seq<seq<Packet>>, p: Packet, dst: Id)
    ensures forall k :: 0 <= k < |outs| ==>
      SendOn(outs, Targets(table, |outs|, dst), p)[k]
      == if table[dst] == NULL || table[dst] == k then outs[k] + [p] else outs[k]
  {
    var targets := Targets(table, |outs|, dst);
    forall k | 0 <= k < |outs|
      ensures k in targets <==> table[dst] == NULL || table[dst] == k
    {
      if table[dst] == NULL {
        assert targets[k] == k;
      }
    }
  }

  // What one visit to port `k` does.
  function ServePort(s: SwitchState, k: nat): SwitchState
    requires GoodState(s) && k < |s.ins|
  {
    if s.ins[k] == [] then s
    else
      var p := s.ins[k][0];
      var table := Learn(s.table, p.src, k);
      SwitchState(table, s.ins[k := s.ins[k][1..]], SendOn(s.outs, Targets(table, |s.outs|, p.dst), p))
  }

  lemma ServeKeepsGood(s: SwitchState, k: nat)
    requires GoodState(s) && k < |s.ins|
    ensures GoodState(ServePort(s, k))
    ensures |ServePort(s, k).ins| == |s.ins| == |s.outs|
    ensures s.ins[k] != [] ==> Routable(s.ins[k][0]) && GoodTable(Learn(s.table, s.ins[k][0].src, k), |s.ins|)
  {
  }

  // Whatever host 0 to 99 a packet comes from, the switch has an entry for it once it has read the packet:
  // the old one, or else the port. No other entry changes, and no packet of another source changes any.
  lemma LearnsEverySource(s: SwitchState, k: nat, id: int)
    requires GoodState(s) && k < |s.ins| && s.ins[k] != [] && 0 <= id < 100
    ensures |s.table| == |ServePort(s, k).table| == 100
    ensures ServePort(s, k).table[id] == if s.ins[k][0].src == id && s.table[id] == NULL then k else s.table[id]
  {
  }

  // One pass over the ports from number `k` on.
  function ScanFrom(s: SwitchState, k: nat): SwitchState
    requires GoodState(s) && k <= |s.ins|
    decreases |s.ins| - k
  {
    if k == |s.ins| then s
    else
      ServeKeepsGood(s, k);
      ScanFrom(ServePort(s, k), k + 1)
  }

  // Entries are written once: no pass over the ports ever changes one.
  lemma {:induction false} EntriesAreKept(s: SwitchState, k: nat, id: Id)
    requires GoodState(s) && k <= |s.ins| && s.table[id] != NULL
    ensures ScanFrom(s, k).table[id] == s.table[id]
    decreases |s.ins| - k
  {
    if k < |s.ins| {
      ServeKeepsGood(s, k);
      EntriesAreKept(ServePort(s, k), k + 1, id);
    }
  }

  class SwitchNode {
    const ports: seq<NetPort>
    const table: array<int>

    ghost predicate Valid()
      reads this, table, ports
    {
      && Distinct(ports) && table.Length == TABLE_SIZE
      && GoodState(State())
    }

    ghost function State(): SwitchState
      requires table.Length == TABLE_SIZE
      reads this, table, ports
    {
      SwitchState(table[..], Unread(ports), Written(ports))
    }

    // init_table: nothing is known yet.
    constructor (ports: seq<NetPort>)
      requires Distinct(ports)
      requires forall k, i :: 0 <= k < |ports| && 0 <= i < |ports[k].unread| ==> Routable(ports[k].unread[i])
      ensures Valid() && fresh(table) && this.ports == ports
      ensures forall s: Id :: table[s] == NULL
    {
      this.ports := ports;
      this.table := new int[TABLE_SIZE](_ => NULL);
    }

    // Records the port a source was first seen on.
    method LearnSource(src: Byte, k: nat)
      requires table.Length == TABLE_SIZE
      modifies table
      ensures table[..] == Learn(old(table[..]), src, k)
    {
      if 0 <= src && src < TABLE_SIZE && table[src] == NULL {
        table[src] := k;
      }
    }

    // Sends to the recorded port of the destination, or floods.
    method Forward(p: Packet)
      requires Distinct(ports) && table.Length == TABLE_SIZE && Routable(p) && NULL <= table[p.dst] < |ports|
      modifies ports`written
      ensures forall k :: 0 <= k < |ports| ==>
        ports[k].written == if table[p.dst] == NULL || table[p.dst] == k then old(ports[k].written) + [p]
                            else old(ports[k].written)
    {
      if table[p.dst] != NULL {
        var i := table[p.dst];
        assert forall k :: 0 <= k < |ports| && k != i ==> ports[k] != ports[i];
        ports[i].written := ports[i].written + [p];
      } else {
        SendOnAll(ports, p);
      }
    }

    method ForwardByTable(p: Packet)
      requires Distinct(ports) && table.Length == TABLE_SIZE && Routable(p) && GoodTable(table[..], |ports|)
      modifies ports`written
      ensures Written(ports) == SendOn(old(Written(ports)), Targets(table[..], |ports|, p.dst), p)
    {
      assert NULL <= table[..][p.dst] < |ports|;
      SentOn(table[..], Written(ports), p, p.dst);
      hide Targets, SendOn;
      Forward(p);
    }

    // The body of the receive loop for port `k`.
    method Serve(k: nat)
      requires Valid() && k < |ports|
      modifies table, ports
      ensures Valid() && State() == ServePort(old(State()), k)
    {
      hide Targets, SendOn, Learn, GoodState, GoodTable, Distinct, Routable, Unread, Written;
      ghost var before := State();
      ServeKeepsGood(before, k);
      if ports[k].unread != [] {
        var p := ReadPort(ports, k);
        LearnSource(p.src, k);
        ForwardByTable(p);
      }
    }

    // One turn of the main loop: every port is visited once, in port order.
    method Turn()
      requires Valid()
      modifies table, ports
      ensures Valid() && State() == ScanFrom(old(State()), 0)
    {
      hide ServePort, GoodState, Distinct;
      for k := 0 to |ports|
        invariant Valid() && ScanFrom(State(), k) == ScanFrom(old(State()), 0)
      {
        Serve(k);
      }
    }
  }
}
