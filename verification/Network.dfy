// The simulated network as interleaved steps of its processes: hosts write packets to their
// links and read them, switches serve one port at a time. Links are FIFO message queues.
module Network {
  import opened Types
  import opened Switches
  import opened Trees

  type Links = map<(Id, Id), seq<Packet>>

  // links[(u, w)] is what u has written and w has not read yet. `sent` and `accepted` record,
  // per host, what it sent and which packets addressed to it it has read.
  datatype Net = Net(tables: map<Id, Table>, links: Links, sent: map<Id, seq<Packet>>, accepted: map<Id, seq<Packet>>)

  datatype Step =
    | Send(host: Id, packet: Packet)      // a host writes a packet to all its ports
    | Take(host: Id, port: nat)           // a host reads a port
    | Forward(switch: Id, port: nat)      // a switch serves a port
    | Idle

  function On(links: Links, u: Id, w: Id): seq<Packet> {
    if (u, w) in links then links[(u, w)] else []
  }

  function Log(m: map<Id, seq<Packet>>, h: Id): seq<Packet> {
    if h in m then m[h] else []
  }

  function Entry(n: Net, u: Id, s: Id): int {
    if u in n.tables then n.tables[u][s] else NULL
  }

  predicate Knows(n: Net, u: Id, s: Id) {
    Entry(n, u, s) != NULL
  }

  // The node behind the port recorded for `s`.
  function Via(g: Topology, n: Net, u: Id, s: Id): Id
    requires u in g.ports && 0 <= Entry(n, u, s) < |g.ports[u]|
  {
    g.ports[u][Entry(n, u, s)]
  }

  // Writing one packet to each of the listed neighbours in turn.
  function Transmit(links: Links, u: Id, ws: seq<Id>, p: Packet): Links
    decreases |ws|
  {
    if ws == [] then links else Transmit(links[(u, ws[0]) := On(links, u, ws[0]) + [p]], u, ws[1..], p)
  }

  function Pop(links: Links, u: Id, w: Id): Links {
    if On(links, u, w) == [] then links else links[(u, w) := On(links, u, w)[1..]]
  }

  // The neighbours a switch with this table forwards to.
  function ForwardTo(g: Topology, u: Id, table: Table, dst: Id): seq<Id>
    requires u in g.ports
  {
    if table[dst] == NULL then g.ports[u]
    else if 0 <= table[dst] < |g.ports[u]| then [g.ports[u][table[dst]]] else []
  }

  predicate Enabled(g: Topology, n: Net, step: Step) {
    match step
    case Send(h, p) => IsHost(g, h) && p.src == h && Routable(p)
    case Take(h, k) => IsHost(g, h) && k < |g.ports[h]| && On(n.links, g.ports[h][k], h) != []
    case Forward(u, k) =>
      && u in g.switches && u in g.ports && u in n.tables && k < |g.ports[u]|
      && On(n.links, g.ports[u][k], u) != [] && Routable(On(n.links, g.ports[u][k], u)[0])
    case Idle => true
  }

  function TakeAt(g: Topology, n: Net, h: Id, k: nat): Net
    requires Enabled(g, n, Take(h, k))
  {
    var from := g.ports[h][k];
    var p := On(n.links, from, h)[0];
    n.(links := Pop(n.links, from, h),
       accepted := if p.dst == h then n.accepted[h := Log(n.accepted, h) + [p]] else n.accepted)
  }

  function ForwardAt(g: Topology, n: Net, u: Id, k: nat): Net
    requires Enabled(g, n, Forward(u, k))
  {
    var from := g.ports[u][k];
    var p := On(n.links, from, u)[0];
    var table := Learn(n.tables[u], p.src, k);
    n.(tables := n.tables[u := table],
       links := Transmit(Pop(n.links, from, u), u, ForwardTo(g, u, table, p.dst), p))
  }

  function Next(g: Topology, n: Net, step: Step): Net
    requires Enabled(g, n, step)
  {
    match step
    case Send(h, p) =>
      n.(links := Transmit(n.links, h, g.ports[h], p), sent := n.sent[h := Log(n.sent, h) + [p]])
    case Take(h, k) => TakeAt(g, n, h, k)
    case Forward(u, k) => ForwardAt(g, n, u, k)
    case Idle => n
  }

  ghost predicate Initial(g: Topology, n: Net) {
    && n.tables.Keys == g.switches && n.links == map[] && n.sent == map[] && n.accepted == map[]
    && forall u, s: Id :: u in n.tables ==> n.tables[u][s] == NULL
  }

  // A continuation of the network from any state, and where it ends.
  ghost predicate CanRun(g: Topology, n: Net, steps: seq<Step>)
    decreases |steps|
  {
    steps == [] || (Enabled(g, n, steps[0]) && CanRun(g, Next(g, n, steps[0]), steps[1..]))
  }

  ghost function RunFrom(g: Topology, n: Net, steps: seq<Step>): Net
    requires CanRun(g, n, steps)
    decreases |steps|
  {
    if steps == [] then n else RunFrom(g, Next(g, n, steps[0]), steps[1..])
  }

  lemma OneRun(g: Topology, n: Net, step: Step, rest: seq<Step>)
    requires Enabled(g, n, step) && CanRun(g, Next(g, n, step), rest)
    ensures CanRun(g, n, [step] + rest)
    ensures RunFrom(g, n, [step] + rest) == RunFrom(g, Next(g, n, step), rest)
  {
    assert ([step] + rest)[0] == step && ([step] + rest)[1..] == rest;
  }

  // ---- Links after a step ----

  lemma {:induction false} Transmitted(links: Links, u: Id, ws: seq<Id>, p: Packet, a: Id, b: Id)
    requires Distinct(ws)
    ensures On(Transmit(links, u, ws, p), a, b) == if a == u && b in ws then On(links, a, b) + [p] else On(links, a, b)
    decreases |ws|
  {
    if ws != [] {
      assert Distinct(ws[1..]) && ws[0] !in ws[1..];
      Transmitted(links[(u, ws[0]) := On(links, u, ws[0]) + [p]], u, ws[1..], p, a, b);
    }
  }

  // The link a step reads, if any.
  predicate Reads(g: Topology, step: Step, a: Id, b: Id) {
    match step
    case Take(h, k) => b == h && h in g.ports && k < |g.ports[h]| && a == g.ports[h][k]
    case Forward(u, k) => b == u && u in g.ports && k < |g.ports[u]| && a == g.ports[u][k]
    case _ => false
  }

  // The packet a step writes to link (a, b), if any.
  function Writes(g: Topology, n: Net, step: Step, a: Id, b: Id): seq<Packet>
    requires Enabled(g, n, step)
  {
    match step
    case Send(h, p) => if a == h && b in g.ports[h] then [p] else []
    case Forward(u, k) =>
      var p := On(n.links, g.ports[u][k], u)[0];
      if a == u && b in ForwardTo(g, u, Learn(n.tables[u], p.src, k), p.dst) then [p] else []
    case _ => []
  }

  lemma LinkAfter(g: Topology, n: Net, step: Step, a: Id, b: Id)
    requires WellFormed(g) && Enabled(g, n, step)
    ensures Reads(g, step, a, b) ==> On(n.links, a, b) != [] && Writes(g, n, step, a, b) == []
    ensures On(Next(g, n, step).links, a, b)
         == (if Reads(g, step, a, b) then On(n.links, a, b)[1..] else On(n.links, a, b)) + Writes(g, n, step, a, b)
  {
    match step
    case Send(h, p) => Transmitted(n.links, h, g.ports[h], p, a, b);
    case Take(h, k) =>
    case Forward(u, k) =>
      var from := g.ports[u][k];
      var p := On(n.links, from, u)[0];
      Transmitted(Pop(n.links, from, u), u, ForwardTo(g, u, Learn(n.tables[u], p.src, k), p.dst), p, a, b);
      assert from != u;
    case Idle =>
  }

  // Tables only ever gain entries.
  lemma EntryAfter(g: Topology, n: Net, step: Step, u: Id, s: Id)
    requires Enabled(g, n, step)
    ensures Knows(n, u, s) ==> Entry(Next(g, n, step), u, s) == Entry(n, u, s)
    ensures !Knows(n, u, s) && Knows(Next(g, n, step), u, s) ==>
      && step.Forward? && step.switch == u && Entry(Next(g, n, step), u, s) == step.port
      && On(n.links, g.ports[u][step.port], u)[0].src == s
    ensures step.Forward? && step.switch == u && On(n.links, g.ports[u][step.port], u)[0].src == s
      ==> Knows(Next(g, n, step), u, s)
  {
  }
}
