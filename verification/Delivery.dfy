// Directed delivery in a tree: a packet copy that is about to reach a node knowing its destination
// travels on as that one copy, never flooded, and arrives.
module Delivery {
  import opened Types
  import opened Switches
  import opened Trees
  import opened Network
  import opened Learning

  // Where a particular packet copy is: the i-th unread packet on a link, read by its destination,
  // or no longer a single copy.
  datatype Spot = At(u: Id, w: Id, i: nat) | Delivered | Scattered

  function Follow(g: Topology, n: Net, step: Step, spot: Spot): Spot
    requires Enabled(g, n, step)
  {
    if !spot.At? || !Reads(g, step, spot.u, spot.w) then spot
    else if spot.i > 0 then spot.(i := spot.i - 1)
    else if step.Take? then (if On(n.links, spot.u, spot.w)[0].dst == spot.w then Delivered else Scattered)
    else
      var p := On(n.links, spot.u, spot.w)[0];
      var ws := ForwardTo(g, spot.w, Learn(n.tables[spot.w], p.src, step.port), p.dst);
      if |ws| == 1 then At(spot.w, ws[0], |On(n.links, spot.w, ws[0])|) else Scattered
  }

  // The copy is packet `p`, and the node it is travelling to is its destination or knows it.
  ghost predicate OnTrack(g: Topology, n: Net, spot: Spot, p: Packet) {
    && spot.At? && spot.i < |On(n.links, spot.u, spot.w)| && On(n.links, spot.u, spot.w)[spot.i] == p
    && 0 <= p.dst < TABLE_SIZE && IsHost(g, p.dst)
    && (spot.w == p.dst || Knows(n, spot.w, p.dst))
  }

  // Nothing happens to a copy whose link is not read.
  lemma Undisturbed(g: Topology, n: Net, step: Step, spot: Spot, p: Packet)
    requires WellFormed(g) && Enabled(g, n, step) && OnTrack(g, n, spot, p) && !Reads(g, step, spot.u, spot.w)
    ensures Follow(g, n, step, spot) == spot && OnTrack(g, Next(g, n, step), spot, p)
  {
    LinkAfter(g, n, step, spot.u, spot.w);
    EntryAfter(g, n, step, spot.w, p.dst);
  }

  lemma MovesUp(g: Topology, n: Net, step: Step, spot: Spot, p: Packet)
    requires WellFormed(g) && Enabled(g, n, step) && OnTrack(g, n, spot, p) && Reads(g, step, spot.u, spot.w)
      && spot.i > 0
    ensures Follow(g, n, step, spot) == spot.(i := spot.i - 1)
    ensures OnTrack(g, Next(g, n, step), spot.(i := spot.i - 1), p)
  {
    LinkAfter(g, n, step, spot.u, spot.w);
    EntryAfter(g, n, step, spot.w, p.dst);
  }

  // Read at the destination.
  lemma Arrives(g: Topology, n: Net, step: Step, spot: Spot, p: Packet)
    requires TablesFit(g, n) && Enabled(g, n, step) && OnTrack(g, n, spot, p)
    requires Reads(g, step, spot.u, spot.w) && spot.i == 0 && spot.w == p.dst
    ensures Follow(g, n, step, spot) == Delivered
    ensures Log(Next(g, n, step).accepted, p.dst) == Log(n.accepted, p.dst) + [p]
  {
  }

  // A switch that knows the destination forwards to one neighbour, even if it learns the source
  // of the same packet first.
  lemma OneTarget(g: Topology, n: Net, step: Step, spot: Spot, p: Packet)
    requires TablesFit(g, n) && Enabled(g, n, step) && OnTrack(g, n, spot, p)
    requires Reads(g, step, spot.u, spot.w) && spot.i == 0 && spot.w != p.dst
    ensures step.Forward? && step.switch == spot.w && spot.w in g.ports
    ensures 0 <= Entry(n, spot.w, p.dst) < |g.ports[spot.w]|
    ensures ForwardTo(g, spot.w, Learn(n.tables[spot.w], p.src, step.port), p.dst) == [Via(g, n, spot.w, p.dst)]
  {
    KnownFits(g, n, spot.w, p.dst);
  }

  // Read at a switch that knows the destination: exactly one link gets the copy, the one towards
  // the destination, whose far end is one link closer and knows the destination in turn.
  lemma PassedOn(r: Rooting, g: Topology, n: Net, step: Step, spot: Spot, p: Packet)
    requires NetInv(r, g, n) && Enabled(g, n, step) && OnTrack(g, n, spot, p)
    requires Reads(g, step, spot.u, spot.w) && spot.i == 0 && spot.w != p.dst
    ensures spot.w in g.ports
    ensures var x := Hop(r, g, spot.w, p.dst);
      && Follow(g, n, step, spot) == At(spot.w, x, |On(n.links, spot.w, x)|)
      && OnTrack(g, Next(g, n, step), Follow(g, n, step, spot), p)
      && Dist(r, g, spot.w, p.dst) == Dist(r, g, x, p.dst) + 1
      && forall a, b :: Writes(g, n, step, a, b) == if a == spot.w && b == x then [p] else []
  {
    hide PacketsOk, EntriesOk, Roots, Hop, Dist, Above, Learn;
    var w, d := spot.w, p.dst;
    KnownIsOk(r, g, n, w, d);
    HopIsTowards(r, g, w, d);
    var x := Hop(r, g, w, d);
    OneTarget(g, n, step, spot, p);
    hide EntriesOk, PacketsOk, Rooted, Roots, WellFormed, Hop, Dist, Learn, ForwardTo;
    EntryAfter(g, n, step, x, d);
    LinkAfter(g, n, step, w, x);
  }

  lemma TrackInTree(r: Rooting, g: Topology, n: Net, spot: Spot, p: Packet)
    requires NetInv(r, g, n) && OnTrack(g, n, spot, p)
    ensures WellFormed(g) && TablesFit(g, n) && spot.w in g.ports
  {
    assert PacketOk(g, n, spot.u, spot.w, On(n.links, spot.u, spot.w)[spot.i]);
  }

  // One step of any process and a tracked copy: it stays tracked or is delivered; when its link
  // is read, the pair (distance left, place in the queue) goes down.
  lemma StaysOnTrack(r: Rooting, g: Topology, n: Net, step: Step, spot: Spot, p: Packet)
    requires NetInv(r, g, n) && Enabled(g, n, step) && OnTrack(g, n, spot, p)
    ensures spot.w in g.ports
    ensures var spot' := Follow(g, n, step, spot);
      if spot' == Delivered then
        Reads(g, step, spot.u, p.dst) && Log(Next(g, n, step).accepted, p.dst) == Log(n.accepted, p.dst) + [p]
      else
        && OnTrack(g, Next(g, n, step), spot', p) && spot'.w in g.ports
        && (!Reads(g, step, spot.u, spot.w) ==> spot' == spot)
        && (Reads(g, step, spot.u, spot.w) ==>
              Dist(r, g, spot'.w, p.dst) < Dist(r, g, spot.w, p.dst) || (spot'.w == spot.w && spot'.i < spot.i))
  {
    hide Follow, Reads, Hop, Dist, NetInv, Next, Enabled;
    TrackInTree(r, g, n, spot, p);
    hide OnTrack;
    if !Reads(g, step, spot.u, spot.w) {
      Undisturbed(g, n, step, spot, p);
    } else if spot.i > 0 {
      MovesUp(g, n, step, spot, p);
    } else if spot.w == p.dst {
      Arrives(g, n, step, spot, p);
    } else {
      PassedOn(r, g, n, step, spot, p);
    }
  }

  // ---- Along a run ----

  // The copy's spot after the steps from number `i` up to `j`.
  function SpotAt(g: Topology, states: seq<Net>, steps: seq<Step>, i: nat, j: nat, spot: Spot): Spot
    requires |states| == |steps| + 1 && i <= j <= |steps|
    requires forall k :: 0 <= k < |steps| ==> Enabled(g, states[k], steps[k])
    decreases j
  {
    if i == j then spot else Follow(g, states[j - 1], steps[j - 1], SpotAt(g, states, steps, i, j - 1, spot))
  }

  lemma NothingAfterDelivery(g: Topology, n: Net, step: Step)
    requires Enabled(g, n, step)
    ensures Follow(g, n, step, Delivered) == Delivered
  {
  }

  // Once on track, a copy is never flooded again: at every later moment of every run it is still
  // one copy on its way, no farther from its destination, or has been delivered.
  lemma {:induction false} NeverFloodedAgain(r: Rooting, g: Topology, states: seq<Net>, steps: seq<Step>,
                                             i: nat, j: nat, spot: Spot, p: Packet)
    requires Rooted(r, g) && IsRun(g, states, steps) && i <= j <= |steps|
    requires OnTrack(g, states[i], spot, p) && spot.w in g.ports
    ensures var now := SpotAt(g, states, steps, i, j, spot);
      now == Delivered ||
      (OnTrack(g, states[j], now, p) && now.w in g.ports && Dist(r, g, now.w, p.dst) <= Dist(r, g, spot.w, p.dst))
    decreases j
  {
    hide OnTrack, Follow, Dist, Enabled, Next, NetInv, Rooted;
    if i < j {
      NothingAfterDelivery(g, states[j - 1], steps[j - 1]);
      NeverFloodedAgain(r, g, states, steps, i, j - 1, spot, p);
      RunKeepsInv(r, g, states, steps, j - 1);
      var before := SpotAt(g, states, steps, i, j - 1, spot);
      if before != Delivered {
        StaysOnTrack(r, g, states[j - 1], steps[j - 1], before, p);
        assert states[j] == Next(g, states[j - 1], steps[j - 1]);
      }
    }
  }

  // ---- Fair runs deliver ----

  ghost predicate IsFairRun(g: Topology, run: nat -> Net, steps: nat -> Step) {
    && Initial(g, run(0))
    && (forall t: nat :: Enabled(g, run(t), steps(t)) && run(t + 1) == Next(g, run(t), steps(t)))
    && (forall t: nat, u, w :: Adjacent(g, u, w) ==> ServedLater(g, run, steps, t, u, w))
  }

  lemma FairStep(g: Topology, run: nat -> Net, steps: nat -> Step, t: nat)
    requires IsFairRun(g, run, steps)
    ensures Enabled(g, run(t), steps(t)) && run(t + 1) == Next(g, run(t), steps(t))
  {
  }

  // Every process keeps polling its ports.
  ghost predicate ServedLater(g: Topology, run: nat -> Net, steps: nat -> Step, t: nat, u: Id, w: Id) {
    exists t': nat :: t <= t' && (Reads(g, steps(t'), u, w) || On(run(t').links, u, w) == [])
  }

  lemma {:induction false} FairRunInv(r: Rooting, g: Topology, run: nat -> Net, steps: nat -> Step, t: nat)
    requires Rooted(r, g) && IsFairRun(g, run, steps)
    ensures NetInv(r, g, run(t))
  {
    if t == 0 {
      InvInitially(r, g, run(0));
    } else {
      FairRunInv(r, g, run, steps, t - 1);
      InvKept(r, g, run(t - 1), steps(t - 1));
      assert run(t - 1 + 1) == Next(g, run(t - 1), steps(t - 1));
    }
  }

  // Where the copy that is at `spot` at moment t is at moment k.
  ghost function Where(g: Topology, run: nat -> Net, steps: nat -> Step, t: nat, k: nat, spot: Spot): Spot
    requires IsFairRun(g, run, steps) && t <= k
    decreases k
  {
    if k == t then spot else Follow(g, run(k - 1), steps(k - 1), Where(g, run, steps, t, k - 1, spot))
  }

  lemma {:induction false} WhereOn(g: Topology, run: nat -> Net, steps: nat -> Step, t: nat, m: nat, k: nat, spot: Spot)
    requires IsFairRun(g, run, steps) && t <= m <= k
    ensures Where(g, run, steps, t, k, spot) == Where(g, run, steps, m, k, Where(g, run, steps, t, m, spot))
    decreases k
  {
    if m < k {
      hide IsFairRun;
      WhereOn(g, run, steps, t, m, k - 1, spot);
    }
  }

  // The copy waits until its link is read.
  lemma WaitForRead(r: Rooting, g: Topology, run: nat -> Net, steps: nat -> Step,
                    t: nat, last: nat, spot: Spot, p: Packet)
    returns (t': nat)
    requires Rooted(r, g) && IsFairRun(g, run, steps) && t <= last && OnTrack(g, run(t), spot, p)
    requires Reads(g, steps(last), spot.u, spot.w) || On(run(last).links, spot.u, spot.w) == []
    ensures t <= t' && Reads(g, steps(t'), spot.u, spot.w) && OnTrack(g, run(t'), spot, p)
    ensures Where(g, run, steps, t, t', spot) == spot
    decreases last - t
  {
    if Reads(g, steps(t), spot.u, spot.w) {
      t' := t;
    } else {
      FairStep(g, run, steps, t);
      Undisturbed(g, run(t), steps(t), spot, p);
      t' := WaitForRead(r, g, run, steps, t + 1, last, spot, p);
      assert Where(g, run, steps, t, t + 1, spot) == spot;
      WhereOn(g, run, steps, t, t + 1, t', spot);
    }
  }

  lemma ReadEventually(r: Rooting, g: Topology, run: nat -> Net, steps: nat -> Step, t: nat, spot: Spot, p: Packet)
    returns (t': nat)
    requires Rooted(r, g) && IsFairRun(g, run, steps) && OnTrack(g, run(t), spot, p)
    ensures t <= t' && Reads(g, steps(t'), spot.u, spot.w) && OnTrack(g, run(t'), spot, p)
    ensures Where(g, run, steps, t, t', spot) == spot
  {
    FairRunInv(r, g, run, steps, t);
    assert PacketOk(g, run(t), spot.u, spot.w, On(run(t).links, spot.u, spot.w)[spot.i]);
    assert ServedLater(g, run, steps, t, spot.u, spot.w);
    var last: nat :|
      t <= last && (Reads(g, steps(last), spot.u, spot.w) || On(run(last).links, spot.u, spot.w) == []);
    t' := WaitForRead(r, g, run, steps, t, last, spot, p);
  }

  // The copy that is at `spot` at moment t, followed as one copy, is read by its destination at t'.
  ghost predicate IsDelivered(g: Topology, run: nat -> Net, steps: nat -> Step, t: nat, spot: Spot, p: Packet, t': nat)
    requires IsFairRun(g, run, steps)
  {
    && t <= t' && 0 <= p.dst < TABLE_SIZE && steps(t').Take? && steps(t').host == p.dst
    && Log(run(t' + 1).accepted, p.dst) == Log(run(t').accepted, p.dst) + [p]
    && Where(g, run, steps, t, t' + 1, spot) == Delivered
  }

  // In every fair run a copy on track is eventually read by its destination, as the one copy it
  // has been all the way.
  lemma EventuallyDelivered(r: Rooting, g: Topology, run: nat -> Net, steps: nat -> Step,
                            t: nat, spot: Spot, p: Packet)
    returns (t': nat)
    requires Rooted(r, g) && IsFairRun(g, run, steps) && OnTrack(g, run(t), spot, p)
    requires spot.w in g.ports
    ensures IsDelivered(g, run, steps, t, spot, p, t')
    decreases Dist(r, g, spot.w, p.dst), spot.i
  {
    hide IsFairRun, NetInv, OnTrack, Follow, Next, Reads, Enabled, Dist, Rooted;
    var read := ReadEventually(r, g, run, steps, t, spot, p);
    FairRunInv(r, g, run, steps, read);
    FairStep(g, run, steps, read);
    StaysOnTrack(r, g, run(read), steps(read), spot, p);
    var spot' := Follow(g, run(read), steps(read), spot);
    assert Where(g, run, steps, t, read + 1, spot) == spot';
    if spot' == Delivered {
      t' := read;
      ReaderIsHost(r, g, run(read), steps(read), spot.u, p.dst);
    } else {
      t' := EventuallyDelivered(r, g, run, steps, read + 1, spot', p);
      WhereOn(g, run, steps, t, read + 1, t' + 1, spot);
    }
  }

  lemma ReaderIsHost(r: Rooting, g: Topology, n: Net, step: Step, u: Id, h: Id)
    requires NetInv(r, g, n) && Enabled(g, n, step) && Reads(g, step, u, h) && IsHost(g, h)
    ensures step.Take? && step.host == h
  {
  }

  // ---- Answers ----

  // A host that has accepted a packet has a neighbour that is its source or knows its source.
  ghost predicate HeardThrough(g: Topology, n: Net, h: Id, s: Id) {
    exists w :: Adjacent(g, w, h) && (w == s || Knows(n, w, s))
  }

  ghost predicate HeardOk(g: Topology, n: Net) {
    forall h, p :: p in Log(n.accepted, h) ==> FromHost(g, p) && HeardThrough(g, n, h, p.src)
  }

  lemma StillHeardThrough(g: Topology, n: Net, step: Step, h: Id, s: Id)
    requires Enabled(g, n, step) && HeardThrough(g, n, h, s)
    ensures HeardThrough(g, Next(g, n, step), h, s)
  {
    var w :| Adjacent(g, w, h) && (w == s || Knows(n, w, s));
    EntryAfter(g, n, step, w, s);
  }

  // A packet a host accepts in this step.
  lemma NewlyHeard(g: Topology, n: Net, step: Step, h: Id, p: Packet)
    requires PacketsOk(g, n) && Enabled(g, n, step)
    requires p in Log(Next(g, n, step).accepted, h) && p !in Log(n.accepted, h)
    ensures FromHost(g, p) && HeardThrough(g, n, h, p.src)
  {
    assert step == Take(h, step.port);
    var w := g.ports[h][step.port];
    assert p in On(n.links, w, h) && PacketOk(g, n, w, h, p);
  }

  lemma HeardStaysOk(g: Topology, n: Net, step: Step)
    requires PacketsOk(g, n) && HeardOk(g, n) && Enabled(g, n, step)
    ensures HeardOk(g, Next(g, n, step))
  {
    var n' := Next(g, n, step);
    hide HeardThrough, Next, PacketsOk, Enabled;
    forall h, p | p in Log(n'.accepted, h)
      ensures FromHost(g, p) && HeardThrough(g, n', h, p.src)
    {
      if p !in Log(n.accepted, h) {
        NewlyHeard(g, n, step, h, p);
      }
      StillHeardThrough(g, n, step, h, p.src);
    }
  }

  lemma {:induction false} FairRunHeard(r: Rooting, g: Topology, run: nat -> Net, steps: nat -> Step, t: nat)
    requires Rooted(r, g) && IsFairRun(g, run, steps)
    ensures HeardOk(g, run(t))
  {
    hide IsFairRun, HeardOk, PacketsOk, EntriesOk, Rooted, TablesFit, Next, Enabled, Initial;
    if t > 0 {
      FairRunHeard(r, g, run, steps, t - 1);
      FairRunInv(r, g, run, steps, t - 1);
      FairStep(g, run, steps, t - 1);
      HeardStaysOk(g, run(t - 1), steps(t - 1));
    } else {
      FairStart(g, run, steps);
    }
  }

  lemma FairStart(g: Topology, run: nat -> Net, steps: nat -> Step)
    requires IsFairRun(g, run, steps)
    ensures HeardOk(g, run(0))
  {
    assert run(0).accepted == map[];
  }

  ghost predicate IsLeaf(g: Topology, h: Id) {
    IsHost(g, h) && |g.ports[h]| == 1
  }

  // A leaf's only neighbour is the one it heard through.
  lemma LeafHeardThrough(g: Topology, n: Net, h: Id, heard: Packet)
    requires WellFormed(g) && HeardOk(g, n) && IsLeaf(g, h) && heard in Log(n.accepted, h)
    ensures FromHost(g, heard)
    ensures var w := g.ports[h][0];
      w in g.ports && Adjacent(g, h, w) && (w == heard.src || Knows(n, w, heard.src))
  {
    assert HeardThrough(g, n, h, heard.src);
    var w :| Adjacent(g, w, h) && (w == heard.src || Knows(n, w, heard.src));
    assert Adjacent(g, h, w) && w == g.ports[h][0];
  }

  // What a leaf host sends back to a host it has heard from starts out on track.
  lemma AnswerStartsOnTrack(g: Topology, n: Net, h: Id, q: Packet, heard: Packet)
    requires WellFormed(g) && HeardOk(g, n) && IsLeaf(g, h)
    requires heard in Log(n.accepted, h) && q.dst == heard.src && Enabled(g, n, Send(h, q))
    ensures var w := g.ports[h][0];
      w in g.ports && OnTrack(g, Next(g, n, Send(h, q)), At(h, w, |On(n.links, h, w)|), q)
  {
    LeafHeardThrough(g, n, h, heard);
    hide HeardOk, WellFormed;
    var w := g.ports[h][0];
    LinkAfter(g, n, Send(h, q), h, w);
    EntryAfter(g, n, Send(h, q), w, q.dst);
  }

  // The packet that leaf host h sends at moment t is accepted by its destination at t', having been
  // one copy, never flooded, all the way.
  ghost predicate ArrivesAsOne(g: Topology, run: nat -> Net, steps: nat -> Step, t: nat, h: Id, q: Packet, t': nat)
    requires IsFairRun(g, run, steps) && IsLeaf(g, h)
  {
    var w := g.ports[h][0];
    IsDelivered(g, run, steps, t + 1, At(h, w, |On(run(t).links, h, w)|), q, t')
  }

  // Whatever a leaf host of any tree sends to a host it has accepted a packet from travels as one
  // copy, never flooded, and is eventually accepted.
  lemma SentBackArrives(g: Topology, run: nat -> Net, steps: nat -> Step, t: nat, h: Id, q: Packet, heard: Packet)
    returns (t': nat)
    requires IsTree(g) && IsFairRun(g, run, steps) && IsLeaf(g, h)
    requires heard in Log(run(t).accepted, h) && q.dst == heard.src && steps(t) == Send(h, q)
    ensures ArrivesAsOne(g, run, steps, t, h, q, t')
  {
    TreeHasRooting(g, h);
    var r := RootedAt(g, h);
    FairRunInv(r, g, run, steps, t);
    FairRunHeard(r, g, run, steps, t);
    FairStep(g, run, steps, t);
    AnswerStartsOnTrack(g, run(t), h, q, heard);
    var w := g.ports[h][0];
    t' := EventuallyDelivered(r, g, run, steps, t + 1, At(h, w, |On(run(t).links, h, w)|), q);
  }
}
