// Building the global port list from the configured links, and taking one node's ports out of
// it in place (net.c).
module Ports {
  import opened Types

  // A link of the configuration file.
  datatype Link = PipeLink(node0: int, node1: int) | SocketLink(host: int)

  // A `struct net_port`. A pipe is named by the number of the pipe() call that made it.
  datatype Port = PipePort(host: int, send: nat, recv: nat) | SocketPort(host: int)

  // Specification of the list: the ports of link number `i`, and of all links from `i` on,
  // in configuration-file order.
  function PortsOfLink(link: Link, i: nat): seq<Port> {
    match link
    case PipeLink(n0, n1) => [PipePort(n0, 2 * i, 2 * i + 1), PipePort(n1, 2 * i + 1, 2 * i)]
    case SocketLink(h) => [SocketPort(h)]
  }

  // The list create_port_list leaves behind: every link is put in front of the earlier ones.
  function GlobalList(links: seq<Link>): seq<Port> {
    if links == [] then []
    else PortsOfLink(links[|links| - 1], |links| - 1) + GlobalList(links[..|links| - 1])
  }

  function Reverse<T>(s: seq<T>): seq<T> {
    if s == [] then [] else Reverse(s[1..]) + [s[0]]
  }

  function Of(id: int): Port -> bool {
    (p: Port) => p.host == id
  }

  function NotOf(id: int): Port -> bool {
    (p: Port) => p.host != id
  }

  // A node's port array in the order host_main and switch_main number it.
  function NodePorts(links: seq<Link>, id: int): seq<Port> {
    Reverse(Filter(GlobalList(links), Of(id)))
  }

  // The ports of node `id` that line i of the configuration makes: one, or two if the line links
  // the node to itself.
  function PortsOfLine(link: Link, i: nat, id: int): seq<Port> {
    match link
    case PipeLink(n0, n1) =>
      (if n1 == id then [PipePort(id, 2 * i + 1, 2 * i)] else [])
      + (if n0 == id then [PipePort(id, 2 * i, 2 * i + 1)] else [])
    case SocketLink(h) => if h == id then [SocketPort(id)] else []
  }

  // Independent definition: go through the configuration file line by line.
  function InFileOrder(links: seq<Link>, id: int): seq<Port> {
    if links == [] then []
    else
      var i := |links| - 1;
      InFileOrder(links[..i], id) + PortsOfLine(links[i], i, id)
  }

  // ---- What the lists mean ----

  lemma {:induction false} GlobalMember(links: seq<Link>, p: Port)
    ensures p in GlobalList(links) <==> exists i :: 0 <= i < |links| && p in PortsOfLink(links[i], i)
  {
    hide PortsOfLink;
    if links != [] {
      var last := |links| - 1;
      var earlier := links[..last];
      GlobalMember(earlier, p);
      assert forall i :: 0 <= i < last ==> earlier[i] == links[i];
      if p in GlobalList(links) && p !in PortsOfLink(links[last], last) {
        var i :| 0 <= i < |earlier| && p in PortsOfLink(earlier[i], i);
        assert p in PortsOfLink(links[i], i);
      }
      if i :| 0 <= i < |links| && p in PortsOfLink(links[i], i) {
        assert i == last || p in PortsOfLink(earlier[i], i);
      }
    }
  }

  // The configured link a pipe port belongs to, and the port at its other end.
  function LinkOf(p: Port): nat
    requires p.PipePort?
  {
    p.send / 2
  }

  function Peer(links: seq<Link>, p: Port): Port
    requires p.PipePort? && LinkOf(p) < |links| && links[LinkOf(p)].PipeLink?
  {
    var link := links[LinkOf(p)];
    PipePort(if p.send % 2 == 0 then link.node1 else link.node0, p.recv, p.send)
  }

  lemma PipeNumbers(i: nat)
    ensures (2 * i) / 2 == i && (2 * i + 1) / 2 == i
    ensures (2 * i) % 2 == 0 && (2 * i + 1) % 2 == 1
  {
  }

  lemma OnPipeLink(link: Link, i: nat, p: Port)
    requires p in PortsOfLink(link, i) && p.PipePort?
    ensures link.PipeLink? && (p.send == 2 * i || p.send == 2 * i + 1)
  {
  }

  lemma PipePortLink(links: seq<Link>, p: Port)
    requires p in GlobalList(links) && p.PipePort?
    ensures LinkOf(p) < |links| && links[LinkOf(p)].PipeLink? && p in PortsOfLink(links[LinkOf(p)], LinkOf(p))
  {
    hide GlobalList, PortsOfLink;
    GlobalMember(links, p);
    var i :| 0 <= i < |links| && p in PortsOfLink(links[i], i);
    OnPipeLink(links[i], i, p);
    PipeNumbers(i);
    assert LinkOf(p) == i;
  }

  lemma PipePortOrigin(links: seq<Link>, p: Port)
    requires p in GlobalList(links) && p.PipePort?
    ensures LinkOf(p) < |links| && links[LinkOf(p)].PipeLink? && p in PortsOfLink(links[LinkOf(p)], LinkOf(p))
    ensures forall q :: q in PortsOfLink(links[LinkOf(p)], LinkOf(p)) <==> q == p || q == Peer(links, p)
    ensures Peer(links, p).recv == p.send && Peer(links, p).send == p.recv && p.send != p.recv
    ensures LinkOf(Peer(links, p)) == LinkOf(p) && p.recv / 2 == LinkOf(p)
    ensures Peer(links, Peer(links, p)) == p
  {
    hide GlobalList;
    PipePortLink(links, p);
    PipeNumbers(LinkOf(p));
  }

  // Pipe wiring is an involution without sharing: the peer reads what this port writes and the
  // other way round, and no other port in the network touches either pipe.
  lemma Wiring(links: seq<Link>, p: Port)
    requires p in GlobalList(links) && p.PipePort?
    ensures LinkOf(p) < |links| && links[LinkOf(p)].PipeLink?
    ensures Peer(links, p) in GlobalList(links)
    ensures Peer(links, p).recv == p.send && Peer(links, p).send == p.recv
    ensures LinkOf(Peer(links, p)) == LinkOf(p) && Peer(links, Peer(links, p)) == p
    ensures forall q :: q in GlobalList(links) && q.PipePort? && q.recv == p.send ==> q == Peer(links, p)
    ensures forall q :: q in GlobalList(links) && q.PipePort? && q.send == p.send ==> q == p
  {
    PipePortOrigin(links, p);
    var i := LinkOf(p);
    assert Peer(links, p) in PortsOfLink(links[i], i);
    GlobalMember(links, Peer(links, p));
    hide GlobalList, PortsOfLink, Peer;
    forall q | q in GlobalList(links) && q.PipePort? && (q.recv == p.send || q.send == p.send)
      ensures q == if q.recv == p.send then Peer(links, p) else p
    {
      PipePortOrigin(links, q);
      assert LinkOf(q) == i && q in PortsOfLink(links[i], i);
    }
  }

  lemma {:induction false} ReverseMember<T>(s: seq<T>, x: T)
    ensures x in Reverse(s) <==> x in s
  {
    if s != [] {
      assert s == [s[0]] + s[1..];
      ReverseMember(s[1..], x);
    }
  }

  // The per-node lists partition the global list: a port is found in exactly the list of the
  // node it belongs to, and taking out another node's ports first makes no difference.
  lemma NodeListsPartition(links: seq<Link>, p: Port, id: int)
    ensures p in NodePorts(links, id) <==> p in GlobalList(links) && p.host == id
  {
    ReverseMember(Filter(GlobalList(links), Of(id)), p);
    FilterMember(GlobalList(links), Of(id), p);
  }

  lemma {:induction false} ExtractionsCommute(list: seq<Port>, a: int, b: int)
    requires a != b
    ensures Filter(Filter(list, NotOf(a)), Of(b)) == Filter(list, Of(b))
    ensures |Filter(list, NotOf(a))| + |Filter(list, Of(a))| == |list|
  {
    if list != [] {
      var p := list[0];
      ExtractionsCommute(list[1..], a, b);
      var rest := Filter(list[1..], NotOf(a));
      if p.host != a {
        assert Filter(list, NotOf(a)) == [p] + rest;
        assert ([p] + rest)[1..] == rest && ([p] + rest)[0] == p;
      } else {
        assert Filter(list, NotOf(a)) == rest;
      }
    }
  }

  // The node behind each pipe port of `id`, in port order.
  function Neighbours(links: seq<Link>, id: int): (ns: seq<int>)
    requires forall link :: link in links ==> link.PipeLink?
    ensures |ns| == |NodePorts(links, id)|
  {
    seq(|NodePorts(links, id)|, k requires 0 <= k < |NodePorts(links, id)| =>
      NeighbourAt(links, NodePorts(links, id)[k], id))
  }

  function NeighbourAt(links: seq<Link>, p: Port, id: int): (n: int)
    requires forall link :: link in links ==> link.PipeLink?
    requires p in NodePorts(links, id)
    ensures p in GlobalList(links) && p.PipePort? && p.host == id
    ensures LinkOf(p) < |links| && n == Peer(links, p).host
  {
    NodeListsPartition(links, p, id);
    GlobalMember(links, p);
    PipePortOrigin(links, p);
    Peer(links, p).host
  }

  // Being a neighbour is mutual.
  lemma NeighboursMutual(links: seq<Link>, u: int, v: int)
    requires forall link :: link in links ==> link.PipeLink?
    requires v in Neighbours(links, u)
    ensures u in Neighbours(links, v)
  {
    var k :| 0 <= k < |NodePorts(links, u)| && Neighbours(links, u)[k] == v;
    var p := NodePorts(links, u)[k];
    assert NeighbourAt(links, p, u) == v;
    Wiring(links, p);
    var q := Peer(links, p);
    NodeListsPartition(links, q, v);
    var j :| 0 <= j < |NodePorts(links, v)| && NodePorts(links, v)[j] == q;
    assert Neighbours(links, v)[j] == NeighbourAt(links, q, v) == u;
  }

  class PortNode {
    const port: Port
    var next: PortNode?

    constructor (port: Port)
      ensures this.port == port && next == null
    {
      this.port := port;
      next := null;
    }
  }

  function Values(nodes: seq<PortNode>): (s: seq<Port>)
    ensures |s| == |nodes|
    ensures forall i :: 0 <= i < |s| ==> s[i] == nodes[i].port
  {
    seq(|nodes|, i requires 0 <= i < |nodes| => nodes[i].port)
  }

  function First(nodes: seq<PortNode>): PortNode? {
    if nodes == [] then null else nodes[0]
  }

  function At(nodes: seq<PortNode>, i: nat, end: PortNode?): PortNode? {
    if i < |nodes| then nodes[i] else end
  }

  // Each node is linked to the following one, the last one to `end`.
  ghost predicate Segment(nodes: seq<PortNode>, end: PortNode?)
    reads nodes
  {
    forall i {:trigger nodes[i].next} :: 0 <= i < |nodes| ==> nodes[i].next == At(nodes, i + 1, end)
  }

  lemma {:induction false} ReverseConcat<T>(a: seq<T>, b: seq<T>)
    ensures Reverse(a + b) == Reverse(b) + Reverse(a)
  {
    if a == [] {
      assert a + b == b;
    } else {
      assert (a + b)[1..] == a[1..] + b;
      ReverseConcat(a[1..], b);
    }
  }

  lemma ShortLists(p: Port, q: Port, keep: Port -> bool)
    ensures Reverse<Port>([]) == [] && Reverse([p]) == [p] && Reverse([p, q]) == [q, p]
    ensures Filter([p], keep) == if keep(p) then [p] else []
    ensures Filter([p, q], keep) == (if keep(p) then [p] else []) + (if keep(q) then [q] else [])
  {
    assert [p][1..] == [] && [q][1..] == [] && [p, q][1..] == [q];
    assert Reverse([p]) == Reverse<Port>([]) + [p] && Reverse([q]) == Reverse<Port>([]) + [q];
    assert Filter([q], keep) == (if keep(q) then [q] else []) + Filter([], keep);
  }

  lemma LineReversed(link: Link, i: nat, id: int)
    ensures Reverse(Filter(PortsOfLink(link, i), Of(id))) == PortsOfLine(link, i, id)
  {
    var ps := PortsOfLink(link, i);
    if link.PipeLink? {
      ShortLists(ps[0], ps[1], Of(id));
      ShortLists(ps[1], ps[0], Of(id));
      assert ps == [ps[0], ps[1]];
    } else {
      ShortLists(ps[0], ps[0], Of(id));
      assert ps == [ps[0]];
    }
  }

  // Prepending while building and prepending again while extracting cancel out: every node
  // numbers its ports in configuration-file order.
  lemma {:induction false} PortsInFileOrder(links: seq<Link>, id: int)
    ensures NodePorts(links, id) == InFileOrder(links, id)
  {
    if links != [] {
      var i := |links| - 1;
      var here := PortsOfLink(links[i], i);
      var earlier := GlobalList(links[..i]);
      FilterConcat(here, earlier, Of(id));
      LineReversed(links[i], i, id);
      ReverseConcat(Filter(here, Of(id)), Filter(earlier, Of(id)));
      PortsInFileOrder(links[..i], id);
    }
  }

  lemma PrependSegment(n: PortNode, nodes: seq<PortNode>)
    requires Segment(nodes, null) && n.next == First(nodes)
    ensures Segment([n] + nodes, null)
  {
    var longer := [n] + nodes;
    forall i | 0 <= i < |longer|
      ensures longer[i].next == At(longer, i + 1, null)
    {
      if i > 0 {
        assert longer[i] == nodes[i - 1] && nodes[i - 1].next == At(nodes, i, null);
      }
    }
  }

  lemma Prepend(n: PortNode, nodes: seq<PortNode>)
    requires Segment(nodes, null) && n.next == First(nodes)
    ensures n !in nodes && Distinct(nodes) ==> Distinct([n] + nodes)
    ensures Segment([n] + nodes, null)
    ensures Values([n] + nodes) == [n.port] + Values(nodes)
  {
    PrependSegment(n, nodes);
    hide Segment, At;
    var longer := [n] + nodes;
    assert forall i :: 0 < i < |longer| ==> longer[i] == nodes[i - 1];
  }

  ghost predicate Disjoint(a: seq<PortNode>, b: seq<PortNode>, c: seq<PortNode>) {
    && Distinct(a) && Distinct(b) && Distinct(c)
    && (forall n :: n in a ==> n !in b && n !in c)
    && (forall n :: n in b ==> n !in c)
  }

  lemma StillDisjoint(a: seq<PortNode>, b: seq<PortNode>, n: PortNode, c: seq<PortNode>)
    requires Disjoint(a, b, [n] + c)
    ensures n !in a && n !in b && n !in c
    ensures Disjoint(a, [n] + b, c) && Disjoint(a + [n], b, c)
  {
    assert ([n] + c)[0] == n && ([n] + c)[1..] == c;
    assert forall m :: m in [n] + c <==> m == n || m in c;
    assert Distinct(c) by {
      assert forall i :: 0 <= i < |c| ==> c[i] == ([n] + c)[i + 1];
    }
    assert forall i :: 0 <= i < |c| ==> c[i] == ([n] + c)[i + 1] && c[i] != n;
    assert forall m :: m in [n] + b <==> m == n || m in b;
    assert forall m :: m in a + [n] <==> m == n || m in a;
  }

  lemma Append(nodes: seq<PortNode>, n: PortNode, end: PortNode?)
    requires n.next == end
    ensures Segment(nodes, n) <==> Segment(nodes + [n], end)
  {
    var longer := nodes + [n];
    forall i | 0 <= i < |nodes|
      ensures longer[i] == nodes[i] && At(longer, i + 1, end) == At(nodes, i + 1, n)
    {
    }
    if Segment(nodes, n) {
      assert forall i :: 0 <= i < |longer| ==> longer[i].next == At(longer, i + 1, end);
    }
    if Segment(longer, end) {
      forall i | 0 <= i < |nodes|
        ensures nodes[i].next == At(nodes, i + 1, n)
      {
        assert longer[i].next == At(longer, i + 1, end);
      }
    }
  }

  lemma Rest(nodes: seq<PortNode>)
    requires nodes != [] && Segment(nodes, null)
    ensures nodes[0].next == First(nodes[1..]) && Segment(nodes[1..], null)
  {
    var rest := nodes[1..];
    forall i | 0 <= i < |rest|
      ensures rest[i].next == At(rest, i + 1, null)
    {
      assert nodes[i + 1].next == At(nodes, i + 2, null);
    }
  }

  lemma Followed(nodes: seq<PortNode>, end: PortNode?)
    requires Segment(nodes, end)
    ensures nodes != [] ==> nodes[|nodes| - 1].next == end
  {
    assert nodes != [] ==> nodes[|nodes| - 1].next == At(nodes, |nodes| - 1 + 1, end);
  }

  // The two lists the loop will have made once `rest` is used up.
  ghost function Sorted(rest: seq<PortNode>, kept: seq<PortNode>, taken: seq<PortNode>, id: int)
    : (seq<Port>, seq<Port>)
  {
    (Values(kept) + Filter(Values(rest), NotOf(id)), Reverse(Filter(Values(rest), Of(id))) + Values(taken))
  }

  // Moving the first unvisited node to the list it belongs to.
  lemma Visit(rest: seq<PortNode>, kept: seq<PortNode>, taken: seq<PortNode>, id: int)
    requires rest != []
    ensures rest[0].port.host == id ==> Sorted(rest[1..], kept, [rest[0]] + taken, id) == Sorted(rest, kept, taken, id)
    ensures rest[0].port.host != id ==> Sorted(rest[1..], kept + [rest[0]], taken, id) == Sorted(rest, kept, taken, id)
  {
    var t := rest[0];
    var later := Values(rest[1..]);
    assert Values(rest)[1..] == later;
    assert Values([t] + taken) == [t.port] + Values(taken);
    assert Values(kept + [t]) == Values(kept) + [t.port];
    if t.port.host == id {
      var mine := Filter(later, Of(id));
      ReverseConcat([t.port], mine);
      assert Filter(Values(rest), Of(id)) == [t.port] + mine;
      assert Reverse([t.port]) == [t.port];
      assert Reverse(mine) + ([t.port] + Values(taken)) == (Reverse(mine) + [t.port]) + Values(taken);
      assert Filter(Values(rest), NotOf(id)) == Filter(later, NotOf(id));
    } else {
      var others := Filter(later, NotOf(id));
      assert Filter(Values(rest), NotOf(id)) == [t.port] + others;
      assert Values(kept) + ([t.port] + others) == (Values(kept) + [t.port]) + others;
      assert Filter(Values(rest), Of(id)) == Filter(later, Of(id));
    }
  }

  ghost function Together(a: seq<PortNode>, b: seq<PortNode>, c: seq<PortNode>): multiset<PortNode> {
    multiset(a) + multiset(b) + multiset(c)
  }

  lemma TogetherStart(nodes: seq<PortNode>)
    ensures Together([], [], nodes) == multiset(nodes)
  {
  }

  lemma SameNodes(nodes: seq<PortNode>, kept: seq<PortNode>, taken: seq<PortNode>, rest: seq<PortNode>)
    requires rest != [] && Together(kept, taken, rest) == multiset(nodes)
    ensures Together(kept + [rest[0]], taken, rest[1..]) == multiset(nodes)
    ensures Together(kept, [rest[0]] + taken, rest[1..]) == multiset(nodes)
    ensures rest[0] in nodes && (kept != [] ==> kept[|kept| - 1] in nodes)
  {
    assert rest == [rest[0]] + rest[1..];
    assert rest[0] in multiset(rest) && rest[0] in multiset(nodes);
    if kept != [] {
      assert kept[|kept| - 1] in multiset(kept) && kept[|kept| - 1] in multiset(nodes);
    }
  }

  lemma SortedOut(nodes: seq<PortNode>, kept: seq<PortNode>, taken: seq<PortNode>, id: int)
    requires Sorted([], kept, taken, id) == Sorted(nodes, [], [], id)
    ensures Values(kept) == Filter(Values(nodes), NotOf(id))
    ensures Values(taken) == Reverse(Filter(Values(nodes), Of(id)))
  {
    assert Values(kept) == Sorted([], kept, taken, id).0;
    assert Values(taken) == Sorted([], kept, taken, id).1;
  }

  lemma LinkInFront(link: Link, i: nat, ports: seq<Port>)
    ensures PortsOfLink(link, i) + ports
         == match link
            case PipeLink(n0, n1) => [PipePort(n0, 2 * i, 2 * i + 1)] + ([PipePort(n1, 2 * i + 1, 2 * i)] + ports)
            case SocketLink(h) => [SocketPort(h)] + ports
  {
  }

  class NetGlobals {
    // g_port_list and, for the proof, its nodes.
    var portList: PortNode?
    ghost var nodes: seq<PortNode>

    ghost predicate Valid()
      reads this, nodes
    {
      portList == First(nodes) && Segment(nodes, null) && Distinct(nodes)
    }

    ghost function Contents(): seq<Port>
      reads this
    {
      Values(nodes)
    }

    constructor ()
      ensures Valid() && Contents() == []
    {
      portList := null;
      nodes := [];
    }

    // Puts one port in front of the list.
    method AddPort(p: PortNode)
      requires Valid() && p !in nodes
      modifies this, p
      ensures Valid() && nodes == [p] + old(nodes)
      ensures Contents() == [p.port] + old(Contents())
    {
      p.next := portList;
      portList := p;
      Prepend(p, nodes);
      nodes := [p] + nodes;
    }

    // One link of create_port_list: a pipe link makes two ports wired crosswise, a socket link one.
    method InsertLink(link: Link, i: nat) returns (ghost added: seq<PortNode>)
      requires Valid()
      modifies this
      ensures Valid() && nodes == added + old(nodes) && fresh(added)
      ensures Contents() == PortsOfLink(link, i) + old(Contents())
    {
      hide Segment, Distinct, Values, PortsOfLink;
      LinkInFront(link, i, Contents());
      match link
      case PipeLink(node0, node1) =>
        var p0 := new PortNode(PipePort(node0, 2 * i, 2 * i + 1));
        var p1 := new PortNode(PipePort(node1, 2 * i + 1, 2 * i));
        AddPort(p1);
        AddPort(p0);
        added := [p0, p1];
      case SocketLink(host) =>
        var sock := new PortNode(SocketPort(host));
        AddPort(sock);
        added := [sock];
    }

    // create_port_list
    method CreatePortList(links: seq<Link>)
      modifies this
      ensures Valid() && fresh(nodes)
      ensures Contents() == GlobalList(links)
    {
      portList := null;
      nodes := [];
      for i := 0 to |links|
        invariant Valid() && fresh(nodes)
        invariant Contents() == GlobalList(links[..i])
      {
        assert links[..i + 1][..i] == links[..i];
        ghost var added := InsertLink(links[i], i);
      }
      assert links[..|links|] == links;
    }

    // `*p = target`: the link a C pointer-to-pointer stands on is `portList` while `prev` is
    // null and `prev.next` otherwise. The list in front of it keeps its nodes.
    method SetLink(prev: PortNode?, target: PortNode?, ghost front: seq<PortNode>, ghost was: PortNode?)
      requires prev == if front == [] then null else front[|front| - 1]
      requires Segment(front, was) && Distinct(front) && portList == At(front, 0, was)
      modifies this`portList, if prev == null then {} else {prev}
      ensures Segment(front, target) && portList == At(front, 0, target)
    {
      if prev == null {
        portList := target;
      } else {
        ghost var init := front[..|front| - 1];
        assert front == init + [prev];
        Append(init, prev, was);
        prev.next := target;
        Append(init, prev, target);
      }
    }

    // State of the extraction: `kept` is what stays, up to the link to `p`; `taken` is the new
    // list `r`; `rest` has not been looked at.
    ghost predicate Walking(prev: PortNode?, p: PortNode?, r: PortNode?,
                            kept: seq<PortNode>, taken: seq<PortNode>, rest: seq<PortNode>)
      reads this, kept, taken, rest
    {
      && p == First(rest) && portList == At(kept, 0, p) && r == First(taken)
      && prev == (if kept == [] then null else kept[|kept| - 1])
      && Segment(kept, p) && Segment(rest, null) && Segment(taken, null)
      && Disjoint(kept, taken, rest)
    }

    // The matching case: moves node `t` to the front of the taken list.
    method TakeOut(prev: PortNode?, t: PortNode, r: PortNode?,
                   ghost kept: seq<PortNode>, ghost taken: seq<PortNode>, ghost rest: seq<PortNode>)
      requires Walking(prev, t, r, kept, taken, [t] + rest)
      modifies this`portList, t, if prev == null then {} else {prev}
      ensures Walking(prev, if prev == null then portList else prev.next, t, kept, [t] + taken, rest)
    {
      Rest([t] + rest);
      assert ([t] + rest)[1..] == rest;
      StillDisjoint(kept, taken, t, rest);
      assert prev != null ==> prev in kept && prev != t && prev !in taken && prev !in rest;
      SetLink(prev, t.next, kept, t);
      t.next := r;
      Prepend(t, taken);
      Followed(kept, First(rest));
    }

    // The other case: nothing changes but the place.
    lemma StepOver(prev: PortNode?, p: PortNode, r: PortNode?,
                   kept: seq<PortNode>, taken: seq<PortNode>, rest: seq<PortNode>)
      requires Walking(prev, p, r, kept, taken, [p] + rest)
      ensures Walking(p, p.next, r, kept + [p], taken, rest)
    {
      Rest([p] + rest);
      assert ([p] + rest)[1..] == rest;
      StillDisjoint(kept, taken, p, rest);
      Append(kept, p, p.next);
    }

    // One turn of the loop of net_get_port_list.
    method Advance(prev: PortNode?, p: PortNode, r: PortNode?, id: int,
                   ghost kept: seq<PortNode>, ghost taken: seq<PortNode>, ghost rest: seq<PortNode>)
      returns (prev': PortNode?, p': PortNode?, r': PortNode?, ghost kept': seq<PortNode>, ghost taken': seq<PortNode>)
      requires Walking(prev, p, r, kept, taken, [p] + rest)
      modifies this`portList, p, if prev == null then {} else {prev}
      ensures Walking(prev', p', r', kept', taken', rest)
      ensures if p.port.host == id then kept' == kept && taken' == [p] + taken
              else kept' == kept + [p] && taken' == taken
    {
      prev', r', kept', taken' := prev, r, kept, taken;
      if p.port.host == id {
        TakeOut(prev, p, r, kept, taken, rest);
        r' := p;
        taken' := [p] + taken;
        p' := if prev == null then portList else prev.next;
      } else {
        StepOver(prev, p, r, kept, taken, rest);
        kept' := kept + [p];
        prev' := p;
        p' := p.next;
      }
    }

    // The loop of net_get_port_list.
    method Walk(id: int) returns (r: PortNode?, ghost kept: seq<PortNode>, ghost taken: seq<PortNode>)
      requires Valid()
      modifies this`portList, nodes
      ensures portList == First(kept) && Segment(kept, null) && Distinct(kept)
      ensures r == First(taken) && Segment(taken, null) && Distinct(taken)
      ensures Sorted([], kept, taken, id) == Sorted(nodes, [], [], id)
      ensures Together(kept, taken, []) == multiset(nodes)
    {
      hide Sorted, Together;
      TogetherStart(nodes);
      r := null;
      kept, taken := [], [];
      var prev: PortNode? := null;
      var p := portList;
      ghost var rest := nodes;
      while p != null
        invariant Walking(prev, p, r, kept, taken, rest)
        invariant Together(kept, taken, rest) == multiset(nodes)
        invariant Sorted(rest, kept, taken, id) == Sorted(nodes, [], [], id)
        decreases |rest|
      {
        Visit(rest, kept, taken, id);
        SameNodes(nodes, kept, taken, rest);
        assert rest == [p] + rest[1..];
        prev, p, r, kept, taken := Advance(prev, p, r, id, kept, taken, rest[1..]);
        rest := rest[1..];
      }
      assert rest == [];
    }

    // net_get_port_list: relinks the matching nodes into a list of their own.
    method GetPortList(id: int) returns (r: PortNode?, ghost taken: seq<PortNode>)
      requires Valid()
      modifies this, nodes
      ensures Valid()
      ensures r == First(taken) && Segment(taken, null) && Distinct(taken)
      ensures Values(taken) == Reverse(Filter(old(Contents()), Of(id)))
      ensures Contents() == Filter(old(Contents()), NotOf(id))
      ensures multiset(nodes) + multiset(taken) == multiset(old(nodes))
    {
      ghost var kept;
      r, kept, taken := Walk(id);
      SortedOut(nodes, kept, taken, id);
      assert Together(kept, taken, []) == multiset(kept) + multiset(taken);
      nodes := kept;
    }
  }
}
