// Who asked for it: in the whole simulator no host sends a file that no manager asked for.
module Provenance {
  import opened Types
  import opened Commands
  import opened Hosts
  import opened HostLogs
  import opened Transfers
  import opened Histories
  import opened Trees
  import opened Network
  import opened Learning
  import opened Star
  import opened Simulator

  // ---- Every host of the simulator has a history ----

  lemma {:induction false} HistoriesInRuns(g: Topology, states: seq<System>, steps: seq<SysStep>, i: nat, h: Id)
    requires IsSysRun(g, states, steps) && i <= |steps| && h in states[i].hosts
    ensures HistoryInv(states[i].hosts[h]) && states[i].hosts[h].h.id == h
  {
    hide HistoryInv, Possible, Then, HostLogs.After, InitialHost;
    if i == 0 {
      StartsWithHistory(g, states[0], h);
    } else {
      assert Possible(g, states[i - 1], steps[i - 1]) && states[i] == Then(g, states[i - 1], steps[i - 1]);
      SameHosts(g, states[i - 1], steps[i - 1]);
      HistoriesInRuns(g, states, steps, i - 1, h);
      HistoryGoesOn(g, states[i - 1], steps[i - 1], h);
    }
  }

  lemma StartsWithHistory(g: Topology, sys: System, h: Id)
    requires Starts(g, sys) && h in sys.hosts
    ensures HistoryInv(sys.hosts[h]) && sys.hosts[h].h.id == h
  {
    HistoryInitially(sys.hosts[h], h);
  }

  lemma HistoryGoesOn(g: Topology, sys: System, step: SysStep, h: Id)
    requires Possible(g, sys, step) && h in sys.hosts && HistoryInv(sys.hosts[h])
    ensures h in Then(g, sys, step).hosts && HistoryInv(Then(g, sys, step).hosts[h])
    ensures Then(g, sys, step).hosts[h].h.id == sys.hosts[h].h.id
  {
    hide HistoryInv, HostLogs.After;
    if !step.Serve? && step.host == h {
      HistoryKept(sys.hosts[h], HostPart(g, sys, step));
      QueueShape(sys.hosts[h], HostPart(g, sys, step));
    }
  }

  lemma HasHistory(g: Topology, sys: System, h: Id)
    requires Occurs(g, sys) && h in sys.hosts
    ensures HistoryInv(sys.hosts[h]) && sys.hosts[h].h.id == h
  {
    hide HistoryInv, Possible, Then, Starts;
    var states, steps :| IsSysRun(g, states, steps) && states[|steps|] == sys;
    HistoriesInRuns(g, states, steps, |steps|, h);
  }

  // In every state that occurs in any network: a host's upload jobs, executed and waiting, are exactly those
  // asked for by its own upload commands and the download requests it has accepted, and its transfers are
  // those of the executed ones that found a directory and the file.
  lemma NothingUnasked(g: Topology, sys: System, h: Id)
    requires Occurs(g, sys) && h in sys.hosts
    ensures var l := sys.hosts[h];
      && Filter(RanJobs(l.notes), IsUpload) + Filter(l.h.jobs, IsUpload) == Gather(l.notes, UploadAsked)
      && Filter(l.units, IsTransfer) == Gather(l.notes, UploadDone)
  {
    hide Occurs;
    HasHistory(g, sys, h);
    AskedFor(sys.hosts[h], h);
  }

  // ---- Download requests come from download commands ----

  predicate IsFileRequest(p: Packet) {
    p.ptype == 5
  }

  function FileRequests(ps: seq<Packet>, s: Id, d: Id): seq<Packet> {
    Filter(Part(ps, s, d), IsFileRequest)
  }

  // The requests that host s's download commands for host d ask for.
  function Wanted(s: Id, d: Id): (seq<Note>, Note) -> seq<Packet> {
    (before: seq<Note>, n: Note) =>
      if n.Did? && n.c.Download? && ToChar(n.c.dst) == d then [Packet(s, d, 5, n.c.name)] else []
  }

  lemma WantedByOne(s: Id, d: Id, before: seq<Note>, n: Note)
    ensures FileRequests(AllPackets(s, Undertakes(s, before, n)), s, d) == Wanted(s, d)(before, n)
  {
    var units := Undertakes(s, before, n);
    if units != [] {
      assert units == [units[0]];
      SingleUnit(s, units[0]);
      var ps := UnitPackets(s, units[0]);
      if units[0].Transfer? {
        BlockSource(s, units[0].dst, units[0].name, units[0].content);
        NoRequests(ps, s, d);
      } else {
        FilterOne(units[0].packet, Between(s, d));
        FilterOne(units[0].packet, IsFileRequest);
      }
    }
  }

  lemma {:induction false} NoRequests(ps: seq<Packet>, s: Id, d: Id)
    requires forall i :: 0 <= i < |ps| ==> IsFilePacket(ps[i])
    ensures FileRequests(ps, s, d) == []
  {
    FiltersCommute(ps, Between(s, d), IsFileRequest);
    FilterNone(ps, IsFileRequest);
  }

  lemma RequestsAdd(a: seq<Packet>, b: seq<Packet>, s: Id, d: Id)
    ensures FileRequests(a + b, s, d) == FileRequests(a, s, d) + FileRequests(b, s, d)
  {
    FilterConcat(a, b, Between(s, d));
    FilterConcat(Part(a, s, d), Part(b, s, d), IsFileRequest);
  }

  lemma {:induction false} WantedByAll(s: Id, d: Id, notes: seq<Note>)
    ensures FileRequests(AllPackets(s, Undertaken(s, notes)), s, d) == Gather(notes, Wanted(s, d))
  {
    hide Wanted, Undertakes, FileRequests;
    if notes == [] {
      NoRequests([], s, d);
    } else {
      var front, last := notes[..|notes| - 1], notes[|notes| - 1];
      WantedByAll(s, d, front);
      assert notes == front + [last];
      OneMore(s, front, last);
      hide Undertaken;
      AllPacketsConcat(s, Undertaken(s, front), Undertakes(s, front, last));
      RequestsAdd(AllPackets(s, Undertaken(s, front)), AllPackets(s, Undertakes(s, front, last)), s, d);
      WantedByOne(s, d, front, last);
    }
  }

  lemma AcceptedFromSent(g: Topology, c: Id, sys: System, s: Id, d: Id)
    requires SysInv(g, c, sys) && s in sys.hosts && d in sys.hosts
    ensures Part(sys.hosts[d].accepted, s, d) <= Part(sys.hosts[s].sent, s, d)
    ensures sys.hosts[s].sent <= AllPackets(s, sys.hosts[s].units)
  {
    hide HostOk, NetInv, IsStar;
    HostFacts(g, sys, s);
    HostFacts(g, sys, d);
    assert Flow(sys.net, c, s, d);
  }

  // In every run of a star: the download requests that d has accepted from s are, in order, the first of those
  // that s has executed download commands for.
  lemma RequestsAreCommanded(g: Topology, c: Id, sys: System, s: Id, d: Id)
    requires IsStar(g, c) && Occurs(g, sys) && s in sys.hosts && d in sys.hosts
    ensures FileRequests(sys.hosts[d].accepted, s, d) <= Gather(sys.hosts[s].notes, Wanted(s, d))
  {
    var l := sys.hosts[s];
    hide IsStar, Occurs, SysInv, AllPackets, Undertaken, Wanted, Gather;
    OccursInv(g, c, sys);
    HasHistory(g, sys, s);
    AcceptedFromSent(g, c, sys, s, d);
    WantedByAll(s, d, l.notes);
    FilterPrefix(l.sent, AllPackets(s, l.units), Between(s, d));
    FilterPrefix(Part(sys.hosts[d].accepted, s, d), Part(AllPackets(s, l.units), s, d), IsFileRequest);
  }

  // ---- When only one host sends ----

  // No upload command executed at this host names d.
  predicate NoUploadsTo(l: Logged, d: Id) {
    forall i :: 0 <= i < |l.notes| && l.notes[i].Did? && l.notes[i].c.Upload? ==> ToChar(l.notes[i].c.dst) != d
  }

  // Every download command executed at this host names s.
  predicate DownloadsFrom(l: Logged, s: Id) {
    forall i :: 0 <= i < |l.notes| && l.notes[i].Did? && l.notes[i].c.Download? ==> ToChar(l.notes[i].c.dst) == s
  }

  // What is gathered comes from some note.
  lemma {:induction false} GatheredFrom<T>(notes: seq<Note>, part: (seq<Note>, Note) -> seq<T>, x: T) returns (i: nat)
    requires x in Gather(notes, part)
    ensures i < |notes| && x in part(notes[..i], notes[i])
  {
    var k := |notes| - 1;
    if x in part(notes[..k], notes[k]) {
      i := k;
    } else {
      var front := notes[..k];
      i := GatheredFrom(front, part, x);
      assert front[..i] == notes[..i];
    }
  }

  lemma {:induction false} Gathers<T>(notes: seq<Note>, part: (seq<Note>, Note) -> seq<T>, i: nat, x: T)
    requires i < |notes| && x in part(notes[..i], notes[i])
    ensures x in Gather(notes, part)
  {
    var k := |notes| - 1;
    if i < k {
      var front := notes[..k];
      assert front[..i] == notes[..i];
      Gathers(front, part, i, x);
    }
  }

  // The executed upload job behind a transfer, and who asked for it.
  lemma BehindTransfer(l: Logged, t: Unit) returns (i: nat, j: nat, dst: int)
    requires HistoryInv(l) && t.Transfer? && t in l.units
    ensures t.dst == ToChar(dst) && i < |l.notes| && j < |l.notes|
    ensures l.notes[i].Ran? && l.notes[i].job == FileSend(dst, t.name)
    ensures FileSend(dst, t.name) in UploadAsked(l.notes[..j], l.notes[j])
  {
    AskedFor(l, l.h.id);
    hide HistoryInv, Gather, RanJobs, UploadAsked;
    FilterMember(l.units, IsTransfer, t);
    i := GatheredFrom(l.notes, UploadDone, t);
    dst := l.notes[i].job.dst;
    var job := FileSend(dst, t.name);
    RunJobs(l.notes, i);
    FilterMember(RanJobs(l.notes), IsUpload, job);
    j := GatheredFrom(l.notes, UploadAsked, job);
  }

  lemma RunJobs(notes: seq<Note>, i: nat)
    requires i < |notes| && notes[i].Ran?
    ensures notes[i].job in RanJobs(notes)
  {
    Gathers(notes, JobRun, i, notes[i].job);
  }

  lemma AcceptedNoted(l: Logged, j: nat)
    requires HistoryInv(l) && j < |l.notes| && l.notes[j].Got?
    ensures l.notes[j].p in l.accepted
  {
    Gathers(l.notes, Accepts, j, l.notes[j].p);
  }

  // A file request that host h has accepted comes from a download command of its sender that names h.
  lemma BehindRequest(g: Topology, c: Id, sys: System, h: Id, d: Id, p: Packet) returns (i: nat)
    requires IsStar(g, c) && Occurs(g, sys) && h in sys.hosts && d in sys.hosts
    requires p in sys.hosts[h].accepted && p.ptype == 5 && p.src == d && p.dst == h
    ensures var notes := sys.hosts[d].notes;
      i < |notes| && notes[i].Did? && notes[i].c.Download? && ToChar(notes[i].c.dst) == h
  {
    hide IsStar, Occurs, Gather;
    RequestsAreCommanded(g, c, sys, d, h);
    FilterMember(sys.hosts[h].accepted, Between(d, h), p);
    FilterMember(Part(sys.hosts[h].accepted, d, h), IsFileRequest, p);
    assert p in Gather(sys.hosts[d].notes, Wanted(d, h));
    i := GatheredFrom(sys.hosts[d].notes, Wanted(d, h), p);
  }

  lemma AcceptedAreOwn(g: Topology, c: Id, sys: System, h: Id)
    requires IsStar(g, c) && Occurs(g, sys) && h in sys.hosts
    ensures forall p :: p in sys.hosts[h].accepted ==> p.dst == h && 0 <= p.src < TABLE_SIZE
  {
    OccursInv(g, c, sys);
    hide StarInv, HostOk;
    HostFacts(g, sys, h);
  }

  lemma AskedBy(before: seq<Note>, n: Note, dst: int, name: Bytes)
    requires FileSend(dst, name) in UploadAsked(before, n)
    ensures n == Did(Upload(dst, name)) || (n.Got? && n.p.ptype == 5 && n.p.src == dst)
  {
  }

  // Whoever has undertaken a transfer to d is s.
  lemma SenderIs(g: Topology, c: Id, sys: System, s: Id, d: Id, h: Id, t: Unit)
    requires IsStar(g, c) && Occurs(g, sys) && d in sys.hosts && h in sys.hosts
    requires (h != s ==> NoUploadsTo(sys.hosts[h], d)) && DownloadsFrom(sys.hosts[d], s)
    requires t in sys.hosts[h].units && t.Transfer? && t.dst == d
    ensures h == s
  {
    var l := sys.hosts[h];
    hide IsStar, Occurs, HistoryInv, UploadAsked;
    HasHistory(g, sys, h);
    var i, j, dst := BehindTransfer(l, t);
    AskedBy(l.notes[..j], l.notes[j], dst, t.name);
    if l.notes[j].Got? {
      var p := l.notes[j].p;
      AcceptedNoted(l, j);
      AcceptedAreOwn(g, c, sys, h);
      SourceIsItself(p.src);
      var k := BehindRequest(g, c, sys, h, d, p);
      SourceIsItself(h);
    }
  }

  lemma SourceIsItself(src: Byte)
    ensures ToChar(src) == src
  {
  }

  // In every run of a star: if no other host has executed a command to upload to d, and all download commands
  // of d name s, then only s sends files to d.
  lemma CommandsDecideSender(g: Topology, c: Id, sys: System, s: Id, d: Id)
    requires IsStar(g, c) && Occurs(g, sys) && d in sys.hosts
    requires forall h: Id :: h in sys.hosts && h != s ==> NoUploadsTo(sys.hosts[h], d)
    requires DownloadsFrom(sys.hosts[d], s)
    ensures OnlySender(g, sys, s, d)
  {
    hide IsStar, Occurs, NoUploadsTo, DownloadsFrom, TransfersTo;
    forall h: Id | h in sys.hosts && h != s
      ensures TransfersTo(sys.hosts[h].units, d) == []
    {
      var ts := TransfersTo(sys.hosts[h].units, d);
      if ts != [] {
        TransferIn(sys.hosts[h].units, d, ts[0]);
        SenderIs(g, c, sys, s, d, h, ts[0]);
        assert false;
      }
    }
  }

  lemma TransferIn(units: seq<Unit>, d: Id, t: Unit)
    requires t in TransfersTo(units, d)
    ensures t in units && t.Transfer? && t.dst == d
  {
    FilterMember(Filter(units, GoesTo(d)), IsTransfer, t);
    FilterMember(units, GoesTo(d), t);
  }
}
