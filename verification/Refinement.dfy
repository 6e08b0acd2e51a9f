// The processes' own loops and the interleaved steps of the network are the same thing.
module Refinement {
  import opened Types
  import opened Hosts
  import opened HostLogs
  import opened Switches
  import opened Trees
  import opened Network
  import opened Learning
  import opened Simulator
  import opened HostNodes

  // ---- A switch process in the network ----

  // Switch u as its process sees it: its table, what waits on its ports, and what its neighbours
  // have not read yet of what it wrote.
  ghost function SwitchView(g: Topology, n: Net, u: Id): SwitchState
    requires u in g.ports && u in n.tables
  {
    var k := |g.ports[u]|;
    SwitchState(n.tables[u],
                seq(k, i requires 0 <= i < k => On(n.links, g.ports[u][i], u)),
                seq(k, i requires 0 <= i < k => On(n.links, u, g.ports[u][i])))
  }

  lemma ViewIsGood(r: Rooting, g: Topology, n: Net, u: Id)
    requires NetInv(r, g, n) && u in g.switches
    ensures u in g.ports && u in n.tables && GoodState(SwitchView(g, n, u))
  {
    var s := SwitchView(g, n, u);
    forall k, i | 0 <= k < |s.ins| && 0 <= i < |s.ins[k]|
      ensures Routable(s.ins[k][i])
    {
      var from := g.ports[u][k];
      assert s.ins[k][i] in On(n.links, from, u);
      assert PacketOk(g, n, from, u, s.ins[k][i]);
    }
  }

  // The neighbours forwarded to are those behind the target ports.
  lemma SameTargets(g: Topology, u: Id, table: Table, dst: Id, i: nat)
    requires WellFormed(g) && u in g.ports && GoodTable(table, |g.ports[u]|) && i < |g.ports[u]|
    ensures g.ports[u][i] in ForwardTo(g, u, table, dst) <==> i in Targets(table, |g.ports[u]|, dst)
  {
    var ports := g.ports[u];
    if table[dst] == NULL {
      assert Targets(table, |ports|, dst)[i] == i;
    } else {
      assert ports[i] == ports[table[dst]] <==> i == table[dst];
    }
  }

  // A Forward step of the network is exactly one visit of the switch process to that port.
  lemma ForwardIsServePort(r: Rooting, g: Topology, n: Net, u: Id, k: nat)
    requires NetInv(r, g, n) && Enabled(g, n, Forward(u, k))
    ensures u in g.ports && u in n.tables && GoodState(SwitchView(g, n, u)) && u in Next(g, n, Forward(u, k)).tables
    ensures SwitchView(g, Next(g, n, Forward(u, k)), u) == ServePort(SwitchView(g, n, u), k)
  {
    ViewIsGood(r, g, n, u);
    ViewAfterForward(g, n, u, k);
  }

  lemma ViewAfterForward(g: Topology, n: Net, u: Id, k: nat)
    requires WellFormed(g) && Enabled(g, n, Forward(u, k)) && GoodState(SwitchView(g, n, u))
    ensures u in Next(g, n, Forward(u, k)).tables
    ensures SwitchView(g, Next(g, n, Forward(u, k)), u) == ServePort(SwitchView(g, n, u), k)
  {
    ServeKeepsGood(SwitchView(g, n, u), k);
    hide WellFormed, GoodState, GoodTable, Learn, Transmit;
    var ports, n' := g.ports[u], Next(g, n, Forward(u, k));
    var view, s' := SwitchView(g, n', u), ServePort(SwitchView(g, n, u), k);
    assert view.table == s'.table && |view.ins| == |s'.ins| && |view.outs| == |s'.outs|;
    forall i | 0 <= i < |ports|
      ensures view.ins[i] == s'.ins[i] && view.outs[i] == s'.outs[i]
    {
      PortAfterForward(g, n, u, k, i);
    }
  }

  lemma PortAfterForward(g: Topology, n: Net, u: Id, k: nat, i: nat)
    requires WellFormed(g) && Enabled(g, n, Forward(u, k)) && i < |g.ports[u]|
    requires GoodState(SwitchView(g, n, u))
    requires GoodTable(Learn(n.tables[u], On(n.links, g.ports[u][k], u)[0].src, k), |g.ports[u]|)
    ensures var n', s' := Next(g, n, Forward(u, k)), ServePort(SwitchView(g, n, u), k);
      && On(n'.links, g.ports[u][i], u) == s'.ins[i]
      && On(n'.links, u, g.ports[u][i]) == s'.outs[i]
  {
    var ports, step := g.ports[u], Forward(u, k);
    var p := On(n.links, ports[k], u)[0];
    assert ports[i] == ports[k] <==> i == k;
    assert ports[i] in g.ports[u] && ports[i] != u;
    LinkAfter(g, n, step, ports[i], u);
    LinkAfter(g, n, step, u, ports[i]);
    SameTargets(g, u, Learn(n.tables[u], p.src, k), p.dst, i);
  }

  // The forwarding steps of a pass over the ports from number k on: one per port with something
  // to read.
  function ScanSteps(u: Id, ins: seq<seq<Packet>>, k: nat): seq<Step>
    requires k <= |ins|
    decreases |ins| - k
  {
    if k == |ins| then [] else (if ins[k] == [] then [] else [Forward(u, k)]) + ScanSteps(u, ins, k + 1)
  }

  lemma {:induction false} SameScan(u: Id, a: seq<seq<Packet>>, b: seq<seq<Packet>>, k: nat)
    requires |a| == |b| && k <= |a| && forall j :: k <= j < |a| ==> a[j] == b[j]
    ensures ScanSteps(u, a, k) == ScanSteps(u, b, k)
    decreases |a| - k
  {
    if k < |a| {
      SameScan(u, a, b, k + 1);
    }
  }

  lemma VisitIsEnabled(r: Rooting, g: Topology, n: Net, u: Id, k: nat)
    requires NetInv(r, g, n) && u in g.switches && u in g.ports && k < |g.ports[u]|
    requires On(n.links, g.ports[u][k], u) != []
    ensures Enabled(g, n, Forward(u, k))
  {
    var from := g.ports[u][k];
    assert On(n.links, from, u)[0] in On(n.links, from, u) && PacketOk(g, n, from, u, On(n.links, from, u)[0]);
  }

  lemma ScanEnds(g: Topology, n: Net, u: Id, s: SwitchState)
    requires GoodState(s)
    ensures ScanSteps(u, s.ins, |s.ins|) == [] && ScanFrom(s, |s.ins|) == s
    ensures CanRun(g, n, []) && RunFrom(g, n, []) == n
  {
  }

  lemma ScanStepsFrom(u: Id, ins: seq<seq<Packet>>, k: nat)
    requires k < |ins|
    ensures ScanSteps(u, ins, k)
         == if ins[k] == [] then ScanSteps(u, ins, k + 1) else [Forward(u, k)] + ScanSteps(u, ins, k + 1)
  {
  }

  lemma ViewParts(g: Topology, n: Net, u: Id)
    requires u in g.ports && u in n.tables
    ensures |SwitchView(g, n, u).ins| == |g.ports[u]|
    ensures forall i :: 0 <= i < |g.ports[u]| ==> SwitchView(g, n, u).ins[i] == On(n.links, g.ports[u][i], u)
  {
  }

  lemma ServesNothing(s: SwitchState, k: nat)
    requires GoodState(s) && k < |s.ins| && s.ins[k] == []
    ensures ScanFrom(s, k) == ScanFrom(s, k + 1)
  {
    assert ServePort(s, k) == s;
  }

  lemma ServesOnePort(s: SwitchState, k: nat)
    requires GoodState(s) && k < |s.ins|
    ensures GoodState(ServePort(s, k)) && |ServePort(s, k).ins| == |s.ins|
    ensures ScanFrom(s, k) == ScanFrom(ServePort(s, k), k + 1)
    ensures forall j :: k < j < |s.ins| ==> ServePort(s, k).ins[j] == s.ins[j]
  {
    ServeKeepsGood(s, k);
  }

  // A pass of the switch process over its ports is a list of steps of the network.
  lemma {:induction false} ScanIsSteps(r: Rooting, g: Topology, n: Net, u: Id, k: nat)
    requires NetInv(r, g, n) && u in g.switches && u in g.ports && k <= |g.ports[u]|
    ensures u in n.tables && GoodState(SwitchView(g, n, u))
    ensures var steps := ScanSteps(u, SwitchView(g, n, u).ins, k);
      && CanRun(g, n, steps) && NetInv(r, g, RunFrom(g, n, steps)) && u in RunFrom(g, n, steps).tables
      && SwitchView(g, RunFrom(g, n, steps), u) == ScanFrom(SwitchView(g, n, u), k)
    decreases |g.ports[u]| - k
  {
    hide *;
    ViewIsGood(r, g, n, u);
    ViewParts(g, n, u);
    var view := SwitchView(g, n, u);
    if k == |g.ports[u]| {
      ScanEnds(g, n, u, view);
    } else if view.ins[k] == [] {
      ServesNothing(view, k);
      ScanStepsFrom(u, view.ins, k);
      ScanIsSteps(r, g, n, u, k + 1);
    } else {
      VisitIsEnabled(r, g, n, u, k);
      InvKept(r, g, n, Forward(u, k));
      ForwardIsServePort(r, g, n, u, k);
      var n1 := Next(g, n, Forward(u, k));
      ScanIsSteps(r, g, n1, u, k + 1);
      ServesOnePort(view, k);
      ScanStepsFrom(u, view.ins, k);
      SameScan(u, view.ins, SwitchView(g, n1, u).ins, k + 1);
      OneRun(g, n, Forward(u, k), ScanSteps(u, view.ins, k + 1));
    }
  }

  // ---- A host process in the system ----

  // Host h as its process sees it: its state, what waits on its ports, and what its neighbours have
  // not read yet of what it wrote.
  datatype HostView = HostView(h: Host, ins: seq<seq<Packet>>, outs: seq<seq<Packet>>)

  ghost function ViewOfHost(g: Topology, sys: System, h: Id): HostView
    requires h in sys.hosts && h in g.ports
  {
    var k := |g.ports[h]|;
    HostView(sys.hosts[h].h,
             seq(k, i requires 0 <= i < k => On(sys.net.links, g.ports[h][i], h)),
             seq(k, i requires 0 <= i < k => On(sys.net.links, h, g.ports[h][i])))
  }

  function AllWrite(outs: seq<seq<Packet>>, sent: seq<Packet>): seq<seq<Packet>> {
    seq(|outs|, i requires 0 <= i < |outs| => outs[i] + sent)
  }

  // Nothing happens but to host h and its links.
  ghost predicate OthersKept(sys: System, sys': System, h: Id) {
    && sys'.net.tables == sys.net.tables && sys'.hosts.Keys == sys.hosts.Keys
    && (forall x :: x in sys.hosts && x != h ==> sys'.hosts[x] == sys.hosts[x])
    && forall a, b :: a != h && b != h ==> On(sys'.net.links, a, b) == On(sys.net.links, a, b)
  }

  // What host h tells its manager and writes to disk along a list of steps.
  ghost function RepliesOf(g: Topology, sys: System, steps: seq<SysStep>, h: Id): seq<Reply>
    requires CanGo(g, sys, steps)
    decreases |steps|
  {
    if steps == [] then []
    else
      (if h in sys.hosts then Sequel(ReplyOf(sys, steps[0], h)) else [])
      + RepliesOf(g, Then(g, sys, steps[0]), steps[1..], h)
  }

  ghost function FilesOf(g: Topology, sys: System, steps: seq<SysStep>, h: Id): seq<File>
    requires CanGo(g, sys, steps)
    decreases |steps|
  {
    if steps == [] then []
    else
      (if h in sys.hosts then Sequel(FileOf(sys, steps[0], h)) else [])
      + FilesOf(g, Then(g, sys, steps[0]), steps[1..], h)
  }

  lemma OutputsFrom(g: Topology, sys: System, step: SysStep, rest: seq<SysStep>, h: Id)
    requires Possible(g, sys, step) && CanGo(g, Then(g, sys, step), rest)
    ensures CanGo(g, sys, [step] + rest)
    ensures RepliesOf(g, sys, [step] + rest, h)
         == (if h in sys.hosts then Sequel(ReplyOf(sys, step, h)) else []) + RepliesOf(g, Then(g, sys, step), rest, h)
    ensures FilesOf(g, sys, [step] + rest, h)
         == (if h in sys.hosts then Sequel(FileOf(sys, step, h)) else []) + FilesOf(g, Then(g, sys, step), rest, h)
  {
    hide Possible, Then, ReplyOf, FileOf;
    assert ([step] + rest)[0] == step && ([step] + rest)[1..] == rest;
  }

  lemma {:induction false} OutputsConcat(g: Topology, sys: System, a: seq<SysStep>, b: seq<SysStep>, h: Id)
    requires CanGo(g, sys, a) && CanGo(g, GoOn(g, sys, a), b)
    ensures CanGo(g, sys, a + b)
    ensures RepliesOf(g, sys, a + b, h) == RepliesOf(g, sys, a, h) + RepliesOf(g, GoOn(g, sys, a), b, h)
    ensures FilesOf(g, sys, a + b, h) == FilesOf(g, sys, a, h) + FilesOf(g, GoOn(g, sys, a), b, h)
    decreases |a|
  {
    hide *;
    if a == [] {
      NoOutputs(g, sys, b, h);
    } else {
      OutputsCut(g, sys, a, h);
      var sys1 := Then(g, sys, a[0]);
      OutputsConcat(g, sys1, a[1..], b, h);
      OutputsFrom(g, sys, a[0], a[1..] + b, h);
      assert a + b == [a[0]] + (a[1..] + b);
    }
  }

  lemma NoOutputs(g: Topology, sys: System, b: seq<SysStep>, h: Id)
    requires CanGo(g, GoOn(g, sys, []), b)
    ensures GoOn(g, sys, []) == sys && CanGo(g, sys, [] + b)
    ensures RepliesOf(g, sys, [] + b, h) == RepliesOf(g, sys, [], h) + RepliesOf(g, sys, b, h)
    ensures FilesOf(g, sys, [] + b, h) == FilesOf(g, sys, [], h) + FilesOf(g, sys, b, h)
  {
    assert [] + b == b;
    assert [] + RepliesOf(g, sys, b, h) == RepliesOf(g, sys, b, h);
    assert [] + FilesOf(g, sys, b, h) == FilesOf(g, sys, b, h);
  }

  lemma OutputsCut(g: Topology, sys: System, a: seq<SysStep>, h: Id)
    requires CanGo(g, sys, a) && a != []
    ensures Possible(g, sys, a[0]) && CanGo(g, Then(g, sys, a[0]), a[1..])
    ensures GoOn(g, sys, a) == GoOn(g, Then(g, sys, a[0]), a[1..])
    ensures RepliesOf(g, sys, a, h)
         == (if h in sys.hosts then Sequel(ReplyOf(sys, a[0], h)) else []) + RepliesOf(g, Then(g, sys, a[0]), a[1..], h)
    ensures FilesOf(g, sys, a, h)
         == (if h in sys.hosts then Sequel(FileOf(sys, a[0], h)) else []) + FilesOf(g, Then(g, sys, a[0]), a[1..], h)
  {
    hide Possible, Then, ReplyOf, FileOf;
  }

  lemma OutputsOfOne(g: Topology, sys: System, step: SysStep, h: Id)
    requires Possible(g, sys, step) && h in sys.hosts
    ensures CanGo(g, sys, [step]) && GoOn(g, sys, [step]) == Then(g, sys, step)
    ensures RepliesOf(g, sys, [step], h) == Sequel(ReplyOf(sys, step, h))
    ensures FilesOf(g, sys, [step], h) == Sequel(FileOf(sys, step, h))
  {
    hide Possible, Then, ReplyOf, FileOf;
    assert [step][1..] == [];
  }

  // What a list of steps of host h amounts to, as its process sees it.
  ghost predicate ActsAs(g: Topology, sys: System, steps: seq<SysStep>, h: Id,
                         view: HostView, replies: seq<Reply>, files: seq<File>)
  {
    && h in g.ports && CanGo(g, sys, steps)
    && var sys' := GoOn(g, sys, steps);
       && h in sys'.hosts && ViewOfHost(g, sys', h) == view && OthersKept(sys, sys', h)
       && RepliesOf(g, sys, steps, h) == replies && FilesOf(g, sys, steps, h) == files
  }

  lemma ActOnAct(g: Topology, sys: System, a: seq<SysStep>, b: seq<SysStep>, h: Id, view1: HostView, view2: HostView,
                 r1: seq<Reply>, r2: seq<Reply>, f1: seq<File>, f2: seq<File>)
    requires ActsAs(g, sys, a, h, view1, r1, f1) && ActsAs(g, GoOn(g, sys, a), b, h, view2, r2, f2)
    ensures ActsAs(g, sys, a + b, h, view2, r1 + r2, f1 + f2)
  {
    GoConcat(g, sys, a, b);
    OutputsConcat(g, sys, a, b, h);
    hide CanGo, GoOn, RepliesOf, FilesOf, ViewOfHost, On;
  }

  lemma ActOnce(g: Topology, sys: System, step: SysStep, h: Id)
    requires Possible(g, sys, step) && h in sys.hosts && h in g.ports && OthersKept(sys, Then(g, sys, step), h)
    ensures h in Then(g, sys, step).hosts
    ensures ActsAs(g, sys, [step], h, ViewOfHost(g, Then(g, sys, step), h),
                   Sequel(ReplyOf(sys, step, h)), Sequel(FileOf(sys, step, h)))
  {
    OutputsOfOne(g, sys, step, h);
    hide CanGo, GoOn, RepliesOf, FilesOf, ViewOfHost, On, Possible, Then;
  }

  lemma ActNot(g: Topology, sys: System, h: Id)
    requires h in sys.hosts && h in g.ports
    ensures ActsAs(g, sys, [], h, ViewOfHost(g, sys, h), [], [])
  {
  }

  // ---- Its three kinds of steps ----

  lemma CommandStep(g: Topology, sys: System, h: Id, c: Commands.Command)
    requires h in sys.hosts && h in g.ports && Addressed(c)
    ensures var view := ViewOfHost(g, sys, h);
      ActsAs(g, sys, [Command(h, c)], h, view.(h := OnCommand(view.h, c).0), Sequel(OnCommand(view.h, c).1), [])
  {
    var step := Command(h, c);
    assert ViewOfHost(g, Then(g, sys, step), h)
        == ViewOfHost(g, sys, h).(h := OnCommand(ViewOfHost(g, sys, h).h, c).0);
    ActOnce(g, sys, step, h);
  }

  lemma ReceiveStep(g: Topology, sys: System, h: Id, k: nat)
    requires WellFormed(g) && IsHost(g, h) && h in sys.hosts && k < |g.ports[h]|
    requires ViewOfHost(g, sys, h).ins[k] != []
    ensures var view := ViewOfHost(g, sys, h);
      ActsAs(g, sys, [Receive(h, k)], h,
             HostView(OnPacket(view.h, view.ins[k][0]), Polled(view.ins, k, k + 1), view.outs), [], [])
  {
    var step, view := Receive(h, k), ViewOfHost(g, sys, h);
    var sys' := Then(g, sys, step);
    forall a, b
      ensures On(sys'.net.links, a, b)
           == if a == g.ports[h][k] && b == h then On(sys.net.links, a, b)[1..] else On(sys.net.links, a, b)
    {
      LinkAfter(g, sys.net, Take(h, k), a, b);
    }
    assert forall i :: 0 <= i < |g.ports[h]| && i != k ==> g.ports[h][i] != g.ports[h][k];
    assert ViewOfHost(g, sys', h)
        == HostView(OnPacket(view.h, view.ins[k][0]), Polled(view.ins, k, k + 1), view.outs);
    ActOnce(g, sys, step, h);
  }

  lemma JobLinks(g: Topology, sys: System, h: Id, disk: Disk, a: Id, b: Id)
    requires WellFormed(g) && h in sys.hosts && h in g.ports && Possible(g, sys, Job(h, disk))
    ensures var sent := Sequel(OnJob(sys.hosts[h].h, disk).1.sent);
      On(Then(g, sys, Job(h, disk)).net.links, a, b)
      == On(sys.net.links, a, b) + if a == h && b in g.ports[h] then sent else []
  {
    LinkAfter(g, sys.net, NetStep(sys, Job(h, disk)), a, b);
    assert On(sys.net.links, a, b) + [] == On(sys.net.links, a, b);
  }

  lemma JobHost(g: Topology, sys: System, h: Id, disk: Disk)
    requires h in sys.hosts && Possible(g, sys, Job(h, disk))
    ensures var sys' := Then(g, sys, Job(h, disk));
      && sys'.net.tables == sys.net.tables && sys'.hosts.Keys == sys.hosts.Keys
      && sys'.hosts[h].h == OnJob(sys.hosts[h].h, disk).0
      && forall x :: x in sys.hosts && x != h ==> sys'.hosts[x] == sys.hosts[x]
  {
    hide Execute;
  }

  lemma JobStep(g: Topology, sys: System, h: Id, disk: Disk)
    requires WellFormed(g) && IsHost(g, h) && h in sys.hosts && Possible(g, sys, Job(h, disk))
    ensures var view := ViewOfHost(g, sys, h);
      var (host, effect) := OnJob(view.h, disk);
      ActsAs(g, sys, [Job(h, disk)], h, HostView(host, view.ins, AllWrite(view.outs, Sequel(effect.sent))),
             Sequel(effect.reply), Sequel(effect.file))
  {
    hide Then, Possible, On, OnJob, ActsAs;
    var step, view := Job(h, disk), ViewOfHost(g, sys, h);
    var sys', sent := Then(g, sys, step), Sequel(OnJob(view.h, disk).1.sent);
    JobHost(g, sys, h, disk);
    forall a, b
      ensures On(sys'.net.links, a, b)
           == On(sys.net.links, a, b) + if a == h && b in g.ports[h] then sent else []
      ensures a != h ==> On(sys'.net.links, a, b) == On(sys.net.links, a, b)
    {
      JobLinks(g, sys, h, disk, a, b);
      assert On(sys.net.links, a, b) + [] == On(sys.net.links, a, b);
    }
    assert forall i :: 0 <= i < |g.ports[h]| ==> g.ports[h][i] in g.ports[h] && g.ports[h][i] != h;
    var view' := ViewOfHost(g, sys', h);
    assert view'.ins == view.ins && view'.outs == AllWrite(view.outs, sent);
    ActOnce(g, sys, step, h);
  }

  // ---- A turn of its loop ----

  // A Receive step for each of the first hi ports that has something to read.
  function PollSteps(h: Id, ins: seq<seq<Packet>>, hi: nat): seq<SysStep>
    requires hi <= |ins|
  {
    if hi == 0 then [] else PollSteps(h, ins, hi - 1) + (if ins[hi - 1] == [] then [] else [Receive(h, hi - 1)])
  }

  ghost function PolledView(view: HostView, hi: nat): HostView
    requires hi <= |view.ins|
  {
    HostView(OnPackets(view.h, Waiting(view.ins, 0, hi)), Polled(view.ins, 0, hi), view.outs)
  }

  ghost function PortPolled(now: HostView, k: nat): HostView
    requires k < |now.ins| && now.ins[k] != []
  {
    HostView(OnPacket(now.h, now.ins[k][0]), Polled(now.ins, k, k + 1), now.outs)
  }

  lemma PolledViewStart(view: HostView)
    ensures PolledView(view, 0) == view
  {
    PollStart(view.h, view.ins);
  }

  lemma PolledViewStep(view: HostView, k: nat)
    requires k < |view.ins|
    ensures var now := PolledView(view, k);
      && |now.ins| == |view.ins| && now.ins[k] == view.ins[k]
      && PolledView(view, k + 1)
         == if view.ins[k] == [] then now else PortPolled(now, k)
  {
    PollOneMore(view.h, view.ins, k);
    PolledOneMore(view.ins, k);
    var now := PolledView(view, k);
    WaitingOne(now.ins, k);
    OnPacketsOne(now.h, now.ins[k]);
  }

  lemma NoOutput()
    ensures forall rs: seq<Reply> :: rs + [] == rs && [] + rs == rs
    ensures forall fs: seq<File> :: fs + [] == fs && [] + fs == fs
  {
  }

  lemma PollOnce(g: Topology, sys: System, first: seq<SysStep>, all: seq<SysStep>, h: Id, k: nat,
                 now: HostView, next: HostView)
    requires WellFormed(g) && IsHost(g, h) && k < |g.ports[h]| && |now.ins| == |g.ports[h]| && now.ins[k] != []
    requires ActsAs(g, sys, first, h, now, [], []) && all == first + [Receive(h, k)] && next == PortPolled(now, k)
    ensures ActsAs(g, sys, all, h, next, [], [])
  {
    hide WellFormed, CanGo, GoOn, RepliesOf, FilesOf, ViewOfHost, OnPacket, Polled, OthersKept;
    ReceiveStep(g, GoOn(g, sys, first), h, k);
    ActOnAct(g, sys, first, [Receive(h, k)], h, now, next, [], [], [], []);
    NoOutput();
  }

  lemma ViewSize(g: Topology, sys: System, h: Id)
    requires IsHost(g, h) && h in sys.hosts
    ensures h in g.ports && |ViewOfHost(g, sys, h).ins| == |g.ports[h]|
  {
  }

  lemma PollStepsStep(h: Id, ins: seq<seq<Packet>>, hi: nat)
    requires 0 < hi <= |ins|
    ensures ins[hi - 1] == [] ==> PollSteps(h, ins, hi) == PollSteps(h, ins, hi - 1)
    ensures ins[hi - 1] != [] ==> PollSteps(h, ins, hi) == PollSteps(h, ins, hi - 1) + [Receive(h, hi - 1)]
  {
  }

  lemma PollIsOneMore(g: Topology, sys: System, h: Id, view: HostView, hi: nat)
    requires WellFormed(g) && IsHost(g, h) && 0 < hi <= |g.ports[h]| == |view.ins|
    requires ActsAs(g, sys, PollSteps(h, view.ins, hi - 1), h, PolledView(view, hi - 1), [], [])
    ensures ActsAs(g, sys, PollSteps(h, view.ins, hi), h, PolledView(view, hi), [], [])
  {
    hide *;
    PolledViewStep(view, hi - 1);
    PollStepsStep(h, view.ins, hi);
    if view.ins[hi - 1] == [] {
      assert PollSteps(h, view.ins, hi) == PollSteps(h, view.ins, hi - 1);
      assert PolledView(view, hi) == PolledView(view, hi - 1);
    } else {
      PollOnce(g, sys, PollSteps(h, view.ins, hi - 1), PollSteps(h, view.ins, hi), h, hi - 1,
               PolledView(view, hi - 1), PolledView(view, hi));
    }
  }

  lemma PollsNothing(g: Topology, sys: System, h: Id)
    requires h in sys.hosts && h in g.ports
    ensures var view := ViewOfHost(g, sys, h);
      ActsAs(g, sys, PollSteps(h, view.ins, 0), h, PolledView(view, 0), [], [])
  {
    var view := ViewOfHost(g, sys, h);
    PolledViewStart(view);
    assert PollSteps(h, view.ins, 0) == [];
    hide *;
    ActNot(g, sys, h);
  }

  lemma {:induction false} PollIsSteps(g: Topology, sys: System, h: Id, hi: nat)
    requires WellFormed(g) && IsHost(g, h) && h in sys.hosts && hi <= |g.ports[h]|
    ensures var view := ViewOfHost(g, sys, h);
      ActsAs(g, sys, PollSteps(h, view.ins, hi), h, PolledView(view, hi), [], [])
  {
    hide *;
    ViewSize(g, sys, h);
    if hi == 0 {
      PollsNothing(g, sys, h);
    } else {
      PollIsSteps(g, sys, h, hi - 1);
      PollIsOneMore(g, sys, h, ViewOfHost(g, sys, h), hi);
    }
  }

  // A turn of the host process: at most one command, a packet per port with something to read,
  // the oldest job.
  function TurnSteps(h: Id, ins: seq<seq<Packet>>, c: Option<Commands.Command>, disk: Disk): seq<SysStep> {
    (if c.Some? then [Command(h, c.value)] else []) + PollSteps(h, ins, |ins|) + [Job(h, disk)]
  }

  ghost function TurnOf(view: HostView, c: Option<Commands.Command>, disk: Disk): Hosts.Turn {
    Hosts.Turn(c, Waiting(view.ins, 0, |view.ins|), disk)
  }

  lemma CommandPart(g: Topology, sys: System, h: Id, c: Option<Commands.Command>)
    requires h in sys.hosts && h in g.ports && (c.Some? ==> Addressed(c.value))
    ensures var view := ViewOfHost(g, sys, h);
      ActsAs(g, sys, if c.Some? then [Command(h, c.value)] else [], h,
             if c.Some? then view.(h := OnCommand(view.h, c.value).0) else view,
             if c.Some? then Sequel(OnCommand(view.h, c.value).1) else [], [])
  {
    if c.Some? {
      CommandStep(g, sys, h, c.value);
    } else {
      ActNot(g, sys, h);
    }
  }

  lemma JobPossible(r: Rooting, g: Topology, sys: System, h: Id, disk: Disk)
    requires TreeInv(r, g, sys) && h in sys.hosts
    ensures Possible(g, sys, Job(h, disk))
  {
    hide NetInv, HostsOk;
    OldestJobRuns(g, sys, h, disk);
  }

  lemma PollsAndJob(r: Rooting, g: Topology, sys: System, first: seq<SysStep>, h: Id, view: HostView,
                    told: seq<Reply>, disk: Disk)
    requires TreeInv(r, g, sys) && IsHost(g, h) && ActsAs(g, sys, first, h, view, told, [])
    ensures |view.ins| == |g.ports[h]|
    ensures var polled := PolledView(view, |view.ins|);
      var (host, effect) := OnJob(polled.h, disk);
      ActsAs(g, sys, first + PollSteps(h, view.ins, |view.ins|) + [Job(h, disk)], h,
             HostView(host, polled.ins, AllWrite(polled.outs, Sequel(effect.sent))),
             told + Sequel(effect.reply), Sequel(effect.file))
  {
    assert WellFormed(g);
    var n := |view.ins|;
    var polls, polled := PollSteps(h, view.ins, n), PolledView(view, n);
    var (host, effect) := OnJob(polled.h, disk);
    PollIsSteps(g, GoOn(g, sys, first), h, n);
    hide TreeInv, WellFormed, CanGo, GoOn, RepliesOf, FilesOf, ViewOfHost, OthersKept, PolledView, PollSteps, OnJob;
    NoOutput();
    ActOnAct(g, sys, first, polls, h, view, polled, told, [], [], []);
    var sys2 := GoOn(g, sys, first + polls);
    GoKeepsTreeInv(r, g, sys, first + polls);
    JobPossible(r, g, sys2, h, disk);
    JobStep(g, sys2, h, disk);
    ActOnAct(g, sys, first + polls, [Job(h, disk)], h, polled,
             HostView(host, polled.ins, AllWrite(polled.outs, Sequel(effect.sent))),
             told, Sequel(effect.reply), [], Sequel(effect.file));
  }

  // The turn that the host process is proved to take is this list of steps of the system: same new
  // state, same packets read and written on every port, same replies to the manager and same file,
  // and nothing else in the network changes.
  lemma TurnIsSteps(r: Rooting, g: Topology, sys: System, h: Id, c: Option<Commands.Command>, disk: Disk)
    requires TreeInv(r, g, sys) && IsHost(g, h) && h in sys.hosts && (c.Some? ==> Addressed(c.value))
    ensures var view := ViewOfHost(g, sys, h);
      var (host, effect) := OnTurn(view.h, TurnOf(view, c, disk));
      ActsAs(g, sys, TurnSteps(h, view.ins, c, disk), h,
             HostView(host, Polled(view.ins, 0, |view.ins|), AllWrite(view.outs, Sequel(effect.sent))),
             (if c.Some? then Sequel(OnCommand(view.h, c.value).1) else []) + Sequel(effect.reply),
             Sequel(effect.file))
  {
    var view := ViewOfHost(g, sys, h);
    var n, turn := |view.ins|, TurnOf(view, c, disk);
    CommandPart(g, sys, h, c);
    var first, polls := if c.Some? then [Command(h, c.value)] else [], PollSteps(h, view.ins, n);
    var told := if c.Some? then Sequel(OnCommand(view.h, c.value).1) else [];
    var view1 := if c.Some? then view.(h := OnCommand(view.h, c.value).0) else view;
    PollsAndJob(r, g, sys, first, h, view1, told, disk);
    assert PolledView(view1, n).h == BeforeJob(view.h, turn);
  }
}
