// The network over byte pipes, and exactly when it is the network of message queues that the other
// modules speak of.
module Pipes {
  import opened Types
  import opened Framing
  import opened Switches
  import opened Trees
  import opened Network
  import opened Star

  // ---- The network with bytes on its links ----

  datatype ByteNet = ByteNet(tables: map<Id, Table>, pipes: map<(Id, Id), Bytes>,
                             sent: map<Id, seq<Packet>>, accepted: map<Id, seq<Packet>>)

  function BytesOn(pipes: map<(Id, Id), Bytes>, u: Id, w: Id): Bytes {
    if (u, w) in pipes then pipes[(u, w)] else []
  }

  function WriteAll(pipes: map<(Id, Id), Bytes>, u: Id, ws: seq<Id>, p: Packet): map<(Id, Id), Bytes>
    requires Sized(p)
    decreases |ws|
  {
    if ws == [] then pipes else WriteAll(pipes[(u, ws[0]) := BytesOn(pipes, u, ws[0]) + Encode(p)], u, ws[1..], p)
  }

  // The link that a process reads in a step.
  function Source(g: Topology, step: Step): (Id, Id)
    requires step.Take? ==> step.host in g.ports && step.port < |g.ports[step.host]|
    requires step.Forward? ==> step.switch in g.ports && step.port < |g.ports[step.switch]|
  {
    match step
    case Take(h, k) => (g.ports[h][k], h)
    case Forward(u, k) => (g.ports[u][k], u)
    case _ => (0, 0)
  }

  predicate IsRead(step: Step) {
    step.Take? || step.Forward?
  }

  predicate HasPort(g: Topology, step: Step) {
    && (step.Send? ==> step.host in g.ports)
    && (step.Take? ==> step.host in g.ports && step.port < |g.ports[step.host]|)
    && (step.Forward? ==> step.switch in g.ports && step.port < |g.ports[step.switch]|)
  }

  // A read of the pipe may hand out p.
  ghost predicate MayRead(g: Topology, b: ByteNet, step: Step, p: Packet) {
    && HasPort(g, step) && (step.Send? ==> Sized(step.packet))
    && (step.Forward? ==> step.switch in b.tables && Routable(p))
    && (IsRead(step) ==>
          var (u, w) := Source(g, step); BytesOn(b.pipes, u, w) != [] && Sized(p) && Decodes(BytesOn(b.pipes, u, w), p))
  }

  // What the step does if the read, if it is one, hands out p.
  ghost function ByteNext(g: Topology, b: ByteNet, step: Step, p: Packet): ByteNet
    requires MayRead(g, b, step, p)
  {
    match step
    case Send(h, q) =>
      b.(pipes := WriteAll(b.pipes, h, g.ports[h], q), sent := b.sent[h := Log(b.sent, h) + [q]])
    case Take(h, k) =>
      var (u, w) := Source(g, step);
      b.(pipes := b.pipes[(u, w) := AfterRead(BytesOn(b.pipes, u, w))],
         accepted := if p.dst == h then b.accepted[h := Log(b.accepted, h) + [p]] else b.accepted)
    case Forward(s, k) =>
      var (u, w) := Source(g, step);
      var table := Learn(b.tables[s], p.src, k);
      b.(tables := b.tables[s := table],
         pipes := WriteAll(b.pipes[(u, w) := AfterRead(BytesOn(b.pipes, u, w))], s, ForwardTo(g, s, table, p.dst), p))
    case Idle => b
  }

  // The pipes hold exactly the encodings of the unread packets.
  ghost predicate Shows(b: ByteNet, n: Net) {
    && b.tables == n.tables && b.sent == n.sent && b.accepted == n.accepted
    && forall u, w :: AllSized(On(n.links, u, w)) && BytesOn(b.pipes, u, w) == Stream(On(n.links, u, w))
  }

  // ---- One step ----

  predicate SizedStep(step: Step) {
    step.Send? ==> Sized(step.packet)
  }

  // The read, if the step is one, finds the oldest packet full-size or alone.
  predicate CleanRead(g: Topology, n: Net, step: Step)
    requires HasPort(g, step)
  {
    IsRead(step) ==>
      var (u, w) := Source(g, step);
      var q := On(n.links, u, w);
      |q| <= 1 || Full(q[0])
  }

  lemma {:induction false} WrittenAll(pipes: map<(Id, Id), Bytes>, u: Id, ws: seq<Id>, p: Packet, a: Id, b: Id)
    requires Distinct(ws) && Sized(p)
    ensures BytesOn(WriteAll(pipes, u, ws, p), a, b)
         == if a == u && b in ws then BytesOn(pipes, a, b) + Encode(p) else BytesOn(pipes, a, b)
    decreases |ws|
  {
    if ws != [] {
      assert Distinct(ws[1..]) && ws[0] !in ws[1..];
      WrittenAll(pipes[(u, ws[0]) := BytesOn(pipes, u, ws[0]) + Encode(p)], u, ws[1..], p, a, b);
    }
  }

  // The packet at hand in a step: the one sent, or the oldest on the link read.
  function AtHand(g: Topology, n: Net, step: Step): Packet
    requires Enabled(g, n, step) && (step.Send? || IsRead(step))
  {
    match step
    case Send(_, p) => p
    case Take(h, k) => On(n.links, g.ports[h][k], h)[0]
    case Forward(u, k) => On(n.links, g.ports[u][k], u)[0]
  }

  lemma EnabledFits(g: Topology, n: Net, step: Step)
    requires Enabled(g, n, step)
    ensures HasPort(g, step)
    ensures IsRead(step) ==> var (u, w) := Source(g, step); On(n.links, u, w) != [] && Network.Reads(g, step, u, w)
  {
  }

  // What a read hands out is the oldest packet, and can be.
  lemma ReadsOldest(g: Topology, b: ByteNet, n: Net, step: Step, p: Packet)
    requires Shows(b, n) && Enabled(g, n, step) && IsRead(step)
    ensures MayRead(g, b, step, p) <==> p == AtHand(g, n, step)
  {
    var (u, w) := Source(g, step);
    var q := On(n.links, u, w);
    HeadDecodes(q, p);
    HeadDecodes(q, q[0]);
    assert |Encode(q[0])| > 0;
  }

  // A link after a step: the bytes against the packets.
  lemma LinkShows(g: Topology, b: ByteNet, n: Net, step: Step, p: Packet, u: Id, w: Id)
    requires WellFormed(g) && Shows(b, n) && Enabled(g, n, step) && SizedStep(step) && MayRead(g, b, step, p)
    requires IsRead(step) ==> p == AtHand(g, n, step)
    requires HasPort(g, step)
    ensures var n', b' := Next(g, n, step), ByteNext(g, b, step, p);
      && AllSized(On(n'.links, u, w))
      && (Network.Reads(g, step, u, w) ==>
            (BytesOn(b'.pipes, u, w) == Stream(On(n'.links, u, w)) <==> CleanRead(g, n, step)))
      && (!Network.Reads(g, step, u, w) ==> BytesOn(b'.pipes, u, w) == Stream(On(n'.links, u, w)))
  {
    LinkAfter(g, n, step, u, w);
    BytesAfter(g, b, n, step, p, u, w);
    var q, wrote := On(n.links, u, w), Writes(g, n, step, u, w);
    assert BytesOn(b.pipes, u, w) == Stream(q) && AllSized(q);
    if Network.Reads(g, step, u, w) {
      ReaderLink(g, step, u, w);
    }
    hide Shows, Next, ByteNext, Enabled, Writes, MayRead, WellFormed, On, BytesOn, AtHand, Network.Reads;
    assert Stream(q) + [] == Stream(q) && AfterRead(Stream(q)) + [] == AfterRead(Stream(q));
    if Network.Reads(g, step, u, w) {
      ReadKeepsFraming(q);
      assert q[1..] + [] == q[1..];
    } else if wrote == [] {
      assert q + [] == q;
    } else {
      StreamAppend(q, wrote[0]);
      assert wrote == [wrote[0]];
    }
  }

  lemma ReaderLink(g: Topology, step: Step, u: Id, w: Id)
    requires HasPort(g, step) && Network.Reads(g, step, u, w)
    ensures IsRead(step) && Source(g, step) == (u, w)
  {
  }

  lemma BytesAfter(g: Topology, b: ByteNet, n: Net, step: Step, p: Packet, u: Id, w: Id)
    requires WellFormed(g) && Shows(b, n) && Enabled(g, n, step) && SizedStep(step) && MayRead(g, b, step, p)
    requires IsRead(step) ==> p == AtHand(g, n, step)
    ensures var wrote := Writes(g, n, step, u, w);
      && |wrote| <= 1 && (wrote != [] ==> Sized(wrote[0]))
      && BytesOn(ByteNext(g, b, step, p).pipes, u, w)
         == (if Network.Reads(g, step, u, w) then AfterRead(BytesOn(b.pipes, u, w)) else BytesOn(b.pipes, u, w))
            + (if wrote != [] then Encode(wrote[0]) else [])
  {
    match step
    case Send(h, q) => WrittenAll(b.pipes, h, g.ports[h], q, u, w);
    case Take(h, k) =>
    case Forward(s, k) =>
      var (x, y) := Source(g, step);
      assert x != s;
      WrittenAll(b.pipes[(x, y) := AfterRead(BytesOn(b.pipes, x, y))], s,
                 ForwardTo(g, s, Learn(n.tables[s], p.src, k), p.dst), p, u, w);
    case Idle =>
  }

  // One step over bytes does what it does over messages, and leaves the pipes in step with the queues
  // exactly when it reads a packet that is full-size or alone.
  lemma StepShowsIff(g: Topology, b: ByteNet, n: Net, step: Step, p: Packet)
    requires WellFormed(g) && Shows(b, n) && Enabled(g, n, step) && SizedStep(step) && MayRead(g, b, step, p)
    ensures HasPort(g, step)
    ensures Shows(ByteNext(g, b, step, p), Next(g, n, step)) <==> CleanRead(g, n, step)
  {
    EnabledFits(g, n, step);
    var n', b' := Next(g, n, step), ByteNext(g, b, step, p);
    if IsRead(step) {
      ReadsOldest(g, b, n, step, p);
    }
    assert b'.tables == n'.tables && b'.sent == n'.sent && b'.accepted == n'.accepted;
    forall u, w
      ensures AllSized(On(n'.links, u, w))
      ensures Network.Reads(g, step, u, w) ==>
        (BytesOn(b'.pipes, u, w) == Stream(On(n'.links, u, w)) <==> CleanRead(g, n, step))
      ensures !Network.Reads(g, step, u, w) ==> BytesOn(b'.pipes, u, w) == Stream(On(n'.links, u, w))
    {
      LinkShows(g, b, n, step, p, u, w);
    }
    hide Next, ByteNext, Stream, CleanRead, On, BytesOn, Enabled;
    if IsRead(step) {
      var (u, w) := Source(g, step);
      assert Network.Reads(g, step, u, w);
    } else {
      NotReading(g, n, step);
    }
  }

  lemma NotReading(g: Topology, n: Net, step: Step)
    requires !IsRead(step) && HasPort(g, step)
    ensures CleanRead(g, n, step) && forall u, w :: !Network.Reads(g, step, u, w)
  {
  }

  // ---- Runs ----

  predicate SizedSteps(steps: seq<Step>) {
    forall i :: 0 <= i < |steps| ==> SizedStep(steps[i])
  }

  // Whatever the reads hand out: after each of the steps the pipes hold exactly the encodings of the
  // unread packets, and tables, sent and accepted packets are those of the message queues.
  ghost predicate InStep(g: Topology, b: ByteNet, n: Net, steps: seq<Step>)
    requires CanRun(g, n, steps)
    decreases |steps|
  {
    && Shows(b, n)
    && (steps == [] || forall p :: MayRead(g, b, steps[0], p) ==>
          InStep(g, ByteNext(g, b, steps[0], p), Next(g, n, steps[0]), steps[1..]))
  }

  // What a step is for the pipe from u to w.
  function OpOf(g: Topology, n: Net, step: Step, u: Id, w: Id): seq<PipeOp>
    requires Enabled(g, n, step)
  {
    if Network.Reads(g, step, u, w) then [PipeOp.Read]
    else if Writes(g, n, step, u, w) != [] then [PipeOp.Write(Writes(g, n, step, u, w)[0])]
    else []
  }

  ghost function LinkOps(g: Topology, n: Net, steps: seq<Step>, u: Id, w: Id): seq<PipeOp>
    requires CanRun(g, n, steps)
    decreases |steps|
  {
    if steps == [] then [] else OpOf(g, n, steps[0], u, w) + LinkOps(g, Next(g, n, steps[0]), steps[1..], u, w)
  }

  ghost predicate AllDisciplined(g: Topology, n: Net, steps: seq<Step>)
    requires CanRun(g, n, steps)
  {
    forall u, w :: Disciplined(On(n.links, u, w), LinkOps(g, n, steps, u, w))
  }

  lemma DisciplinedFrom(q: seq<Packet>, op: PipeOp, rest: seq<PipeOp>)
    ensures Disciplined(q, [op] + rest) <==>
      (op.Read? ==> |q| <= 1 || Full(q[0])) && Disciplined(QueueStep(q, op), rest)
  {
    assert ([op] + rest)[1..] == rest;
  }

  lemma LinkFrom(g: Topology, n: Net, step: Step, rest: seq<PipeOp>, u: Id, w: Id)
    requires WellFormed(g) && Enabled(g, n, step)
    ensures Disciplined(On(n.links, u, w), OpOf(g, n, step, u, w) + rest) <==>
      && (Network.Reads(g, step, u, w) ==> |On(n.links, u, w)| <= 1 || Full(On(n.links, u, w)[0]))
      && Disciplined(On(Next(g, n, step).links, u, w), rest)
  {
    LinkAfter(g, n, step, u, w);
    var q, wrote := On(n.links, u, w), Writes(g, n, step, u, w);
    hide Next, Enabled, WellFormed, On, Writes, Network.Reads;
    if OpOf(g, n, step, u, w) == [] {
      assert q + [] == q && [] + rest == rest;
    } else {
      assert wrote == [] ==> q[1..] + [] == q[1..];
      OneWrite(g, n, step, u, w);
      DisciplinedFrom(q, OpOf(g, n, step, u, w)[0], rest);
    }
  }

  lemma OneWrite(g: Topology, n: Net, step: Step, u: Id, w: Id)
    requires Enabled(g, n, step)
    ensures |Writes(g, n, step, u, w)| <= 1
  {
  }

  lemma AllDisciplinedFrom(g: Topology, n: Net, steps: seq<Step>)
    requires WellFormed(g) && CanRun(g, n, steps) && steps != []
    ensures HasPort(g, steps[0])
    ensures AllDisciplined(g, n, steps) <==>
      CleanRead(g, n, steps[0]) && AllDisciplined(g, Next(g, n, steps[0]), steps[1..])
  {
    var step, n1, rest := steps[0], Next(g, n, steps[0]), steps[1..];
    EnabledFits(g, n, step);
    forall u, w
      ensures Disciplined(On(n.links, u, w), LinkOps(g, n, steps, u, w)) <==>
        && (Network.Reads(g, step, u, w) ==> |On(n.links, u, w)| <= 1 || Full(On(n.links, u, w)[0]))
        && Disciplined(On(n1.links, u, w), LinkOps(g, n1, rest, u, w))
    {
      LinkFrom(g, n, step, LinkOps(g, n1, rest, u, w), u, w);
    }
    hide Next, Enabled, Disciplined, On, CanRun, LinkOps;
    forall u: Id, w: Id | Network.Reads(g, step, u, w)
      ensures IsRead(step) && Source(g, step) == (u, w)
    {
      ReaderLink(g, step, u, w);
    }
    if IsRead(step) {
      var (u, w) := Source(g, step);
      assert Network.Reads(g, step, u, w);
    }
  }

  lemma SomeRead(g: Topology, b: ByteNet, n: Net, step: Step) returns (p: Packet)
    requires Shows(b, n) && Enabled(g, n, step) && SizedStep(step)
    ensures MayRead(g, b, step, p)
  {
    if IsRead(step) {
      p := AtHand(g, n, step);
      ReadsOldest(g, b, n, step, p);
    } else {
      p := Packet(0, 0, 0, []);
    }
  }

  // Along any run of the network: over byte pipes, whatever the reads hand out, it is at every moment the
  // network of message queues if and only if the writes and reads of every link are disciplined, that is,
  // every read finds the oldest packet full-size or alone.
  lemma {:induction false} InStepIffDisciplined(g: Topology, b: ByteNet, n: Net, steps: seq<Step>)
    requires WellFormed(g) && Shows(b, n) && CanRun(g, n, steps) && SizedSteps(steps)
    ensures InStep(g, b, n, steps) <==> AllDisciplined(g, n, steps)
    decreases |steps|
  {
    hide Shows, MayRead, ByteNext, Enabled, Next, CleanRead, AllDisciplined, WellFormed;
    if steps == [] {
      NothingToDo(g, n);
    } else {
      var step, n1, rest := steps[0], Next(g, n, steps[0]), steps[1..];
      assert SizedStep(step) && SizedSteps(rest);
      AllDisciplinedFrom(g, n, steps);
      forall p | MayRead(g, b, step, p)
        ensures InStep(g, ByteNext(g, b, step, p), n1, rest) <==> CleanRead(g, n, step) && AllDisciplined(g, n1, rest)
      {
        StepShowsIff(g, b, n, step, p);
        if CleanRead(g, n, step) {
          InStepIffDisciplined(g, ByteNext(g, b, step, p), n1, rest);
        }
      }
      var some := SomeRead(g, b, n, step);
    }
  }

  lemma NothingToDo(g: Topology, n: Net)
    ensures AllDisciplined(g, n, [])
  {
  }

  // ---- So the theorems about the network hold over pipes ----

  // A possible outcome: the packets at hand in the steps, and the state they lead to.
  ghost predicate Yields(g: Topology, b: ByteNet, steps: seq<Step>, got: seq<Packet>, b': ByteNet)
    decreases |steps|
  {
    if steps == [] then
      b' == b
    else
      && got != [] && MayRead(g, b, steps[0], got[0])
      && Yields(g, ByteNext(g, b, steps[0], got[0]), steps[1..], got[1..], b')
  }

  lemma {:induction false} OutcomeShows(g: Topology, b: ByteNet, n: Net, steps: seq<Step>, got: seq<Packet>,
                                        b': ByteNet)
    requires CanRun(g, n, steps) && InStep(g, b, n, steps) && Yields(g, b, steps, got, b')
    ensures Shows(b', RunFrom(g, n, steps))
    decreases |steps|
  {
    hide Shows, MayRead, ByteNext, Enabled, Next;
    if steps != [] {
      OutcomeShows(g, ByteNext(g, b, steps[0], got[0]), Next(g, n, steps[0]), steps[1..], got[1..], b');
    }
  }

  lemma {:induction false} RunFromKeepsStar(g: Topology, c: Id, n: Net, steps: seq<Step>)
    requires StarInv(g, n, c) && CanRun(g, n, steps)
    ensures StarInv(g, RunFrom(g, n, steps), c)
    decreases |steps|
  {
    hide StarInv, Enabled, Next;
    if steps != [] {
      StarInvKept(g, n, c, steps[0]);
      RunFromKeepsStar(g, c, Next(g, n, steps[0]), steps[1..]);
    }
  }

  // A star of byte pipes, in every run whose links are disciplined: between any two hosts packets are
  // neither lost, nor duplicated, nor reordered, and what is unread is on the pipes, encoded.
  lemma NoLossOverPipes(g: Topology, c: Id, n: Net, b: ByteNet, steps: seq<Step>, got: seq<Packet>, b': ByteNet,
                        s: Id, d: Id)
    returns (down: seq<Packet>, up: seq<Packet>)
    requires IsStar(g, c) && Initial(g, n) && b == ByteNet(n.tables, map[], map[], map[])
    requires CanRun(g, n, steps) && SizedSteps(steps)
    requires AllDisciplined(g, n, steps) && Yields(g, b, steps, got, b') && IsHost(g, s) && IsHost(g, d)
    ensures AllSized(down) && AllSized(up)
    ensures BytesOn(b'.pipes, c, d) == Stream(down) && BytesOn(b'.pipes, s, c) == Stream(up)
    ensures Part(Log(b'.sent, s), s, d) == Part(Log(b'.accepted, d), s, d) + Part(down, s, d) + Part(up, s, d)
  {
    EmptyPipes(g, n);
    StarInvInitially(g, n, c);
    RunFromKeepsStar(g, c, n, steps);
    InStepIffDisciplined(g, b, n, steps);
    OutcomeShows(g, b, n, steps, got, b');
    var n' := RunFrom(g, n, steps);
    down, up := On(n'.links, c, d), On(n'.links, s, c);
    assert Flow(n', c, s, d);
  }

  lemma EmptyPipes(g: Topology, n: Net)
    requires Initial(g, n)
    ensures Shows(ByteNet(n.tables, map[], map[], map[]), n)
  {
  }
}
