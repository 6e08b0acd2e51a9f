// What upload and download commands lead to in a star in which everything keeps running.
module FileRequests {
  import opened Types
  import opened Commands
  import opened Hosts
  import opened HostLogs
  import opened Transfers
  import opened Trees
  import opened Network
  import opened Delivery
  import opened Copies
  import opened Star
  import opened Simulator
  import opened Liveness
  import opened Completion
  import opened Provenance

  // ---- An executed upload job ----

  lemma UndertakenNow(g: Topology, run: nat -> System, steps: nat -> SysStep, t: nat, h: Id, d: Id, name: Bytes,
                      content: Bytes)
    requires IsFairSysRun(g, run, steps) && IsHost(g, h) && IsJobOf(steps(t), h)
    requires var l := LogAt(g, run, steps, t, h);
      l.h.jobs != [] && l.h.jobs[0] == FileSend(d, name) && Source(l.h.dir, name, steps(t).disk) == Some(content)
    ensures LogAt(g, run, steps, t + 1, h).units == LogAt(g, run, steps, t, h).units + [Transfer(d, name, content)]
  {
    SysStepAt(g, run, steps, t);
    Present(g, run, steps, t, h);
    SourceId(d);
  }

  lemma OneMoreTransfer(units: seq<Unit>, d: Id, name: Bytes, content: Bytes)
    ensures TransfersTo(units + [Transfer(d, name, content)], d) == TransfersTo(units, d) + [Transfer(d, name, content)]
  {
    var t := Transfer(d, name, content);
    assert [t][1..] == [];
    FilterConcat(units, [t], GoesTo(d));
    assert Filter([t], GoesTo(d)) == [t];
    FilterConcat(Filter(units, GoesTo(d)), [t], IsTransfer);
  }

  // An upload job of s for d, executed with a directory and a file that opens, ends in the END at d that
  // delivers the file, when only s ever sends files to d; `i` is the number of transfers to d before it.
  lemma UploadIsReceived(g: Topology, c: Id, run: nat -> System, steps: nat -> SysStep, t: nat, s: Id, d: Id,
                         name: Bytes, content: Bytes)
    returns (done: nat, i: nat)
    requires IsStar(g, c) && IsFairSysRun(g, run, steps) && IsHost(g, s) && IsHost(g, d)
    requires forall k: nat :: OnlySender(g, run(k), s, d)
    requires IsJobOf(steps(t), s)
    requires var l := LogAt(g, run, steps, t, s);
      l.h.jobs != [] && l.h.jobs[0] == FileSend(d, name) && Source(l.h.dir, name, steps(t).disk) == Some(content)
    ensures t < done && i == |TransfersTo(LogAt(g, run, steps, t, s).units, d)|
    ensures var ends := Ends(LogAt(g, run, steps, done, d).events);
      i < |ends| && Delivers(ends[i], Transfer(d, name, content))
  {
    i := |TransfersTo(LogAt(g, run, steps, t, s).units, d)|;
    hide *;
    var units := LogAt(g, run, steps, t, s).units;
    UndertakenNow(g, run, steps, t, s, d, name, content);
    OneMoreTransfer(units, d, name, content);
    done := TransfersComplete(g, c, run, steps, t + 1, s, d);
  }

  // ---- From the command to the file ----

  lemma CommandQueues(g: Topology, run: nat -> System, steps: nat -> SysStep, t: nat, h: Id, c: Commands.Command)
    requires IsFairSysRun(g, run, steps) && IsHost(g, h) && steps(t) == Command(h, c)
    ensures LogAt(g, run, steps, t + 1, h).h == OnCommand(LogAt(g, run, steps, t, h).h, c).0
  {
    SysStepAt(g, run, steps, t);
    Present(g, run, steps, t, h);
  }

  // The END of d, number i of those it has executed by then, that writes the file of this name in the
  // directory of s as it was when s executed its upload job at moment `start`.
  ghost predicate Fetched(g: Topology, run: nat -> System, steps: nat -> SysStep, s: Id, d: Id, name: Bytes,
                          start: nat, done: nat, i: nat)
    requires IsFairSysRun(g, run, steps) && IsHost(g, s) && IsHost(g, d)
  {
    && IsJobOf(steps(start), s)
    && var l := LogAt(g, run, steps, start, s);
       && l.h.jobs != [] && l.h.jobs[0] == FileSend(d, name)
       && var content := Source(l.h.dir, name, steps(start).disk);
          content.Some? ==>
            var ends := Ends(LogAt(g, run, steps, done, d).events);
            start < done && i < |ends| && Delivers(ends[i], Transfer(d, name, content.value))
  }

  // The upload job at place j of the queue of s.
  lemma QueuedUploadIsFetched(g: Topology, c: Id, run: nat -> System, steps: nat -> SysStep, t: nat, s: Id, d: Id,
                              name: Bytes, j: nat)
    returns (start: nat, done: nat, i: nat)
    requires IsStar(g, c) && IsFairSysRun(g, run, steps) && IsHost(g, s) && IsHost(g, d)
    requires forall k: nat :: OnlySender(g, run(k), s, d)
    requires j < |LogAt(g, run, steps, t, s).h.jobs| && LogAt(g, run, steps, t, s).h.jobs[j] == FileSend(d, name)
    ensures t <= start && Fetched(g, run, steps, s, d, name, start, done, i)
  {
    hide IsStar, IsFairSysRun, OnlySender, LogAt, Source, Delivers, Ends;
    start := JobGetsRun(g, run, steps, t, s, j);
    done, i := start, 0;
    var content := Source(LogAt(g, run, steps, start, s).h.dir, name, steps(start).disk);
    if content.Some? {
      done, i := UploadIsReceived(g, c, run, steps, start, s, d, name, content.value);
    }
  }

  // In every fair run of a star in which only s ever sends files to d, a command of s to upload a file to d
  // gets executed; if a directory is set then and the file opens, d executes an END that delivers it.
  lemma UploadsArrive(g: Topology, c: Id, run: nat -> System, steps: nat -> SysStep, t: nat, s: Id, d: Id, name: Bytes)
    returns (start: nat, done: nat, i: nat)
    requires IsStar(g, c) && IsFairSysRun(g, run, steps) && IsHost(g, s) && IsHost(g, d)
    requires forall k: nat :: OnlySender(g, run(k), s, d)
    requires steps(t) == Command(s, Upload(d, name))
    ensures t < start && Fetched(g, run, steps, s, d, name, start, done, i)
  {
    CommandQueues(g, run, steps, t, s, Upload(d, name));
    hide IsStar, IsFairSysRun, OnlySender, LogAt, Fetched;
    start, done, i := QueuedUploadIsFetched(g, c, run, steps, t + 1, s, d, name, |LogAt(g, run, steps, t, s).h.jobs|);
  }

  // ---- Downloads ----

  lemma RequestIsSent(g: Topology, run: nat -> System, steps: nat -> SysStep, t: nat, h: Id, q: Packet)
    requires IsFairSysRun(g, run, steps) && IsHost(g, h) && SendsAt(g, run, steps, t, h, q)
    ensures NetSteps(run, steps)(t) == Send(h, q)
  {
    Present(g, run, steps, t, h);
  }

  // A network read that adds a packet to the log of host p is that host reading it.
  lemma RequestIsAccepted(g: Topology, run: nat -> System, steps: nat -> SysStep, t: nat, p: Id, q: Packet)
    requires IsFairSysRun(g, run, steps) && IsHost(g, p)
    requires NetSteps(run, steps)(t).Take? && NetSteps(run, steps)(t).host == p
    requires Log(run(t + 1).net.accepted, p) == Log(run(t).net.accepted, p) + [q]
    ensures LogAt(g, run, steps, t + 1, p).h.jobs == LogAt(g, run, steps, t, p).h.jobs + JobsFor(q)
  {
    SysStepAt(g, run, steps, t);
    Present(g, run, steps, t, p);
    var from := g.ports[p][steps(t).port];
    var read := On(run(t).net.links, from, p)[0];
    var before, after := Log(run(t).net.accepted, p), Log(run(t + 1).net.accepted, p);
    assert read.dst == p && after == before + [read] by {
      assert after == if read.dst == p then before + [read] else before;
    }
    assert after[|before|] == q;
  }

  lemma StarFacts(g: Topology, c: Id, h: Id)
    requires IsStar(g, c) && IsHost(g, h)
    ensures IsTree(g) && LeafHosts(g) && h in g.ports && g.ports[h] != [] && g.ports[h][0] in g.switches
  {
    StarIsTree(g, c);
    StarHasLeaves(g, c);
  }

  function FileRequest(h: Id, p: Id, name: Bytes): Packet {
    Packet(h, p, 5, name)
  }

  lemma RequestGetsSent(g: Topology, run: nat -> System, steps: nat -> SysStep, t: nat, h: Id, p: Id, name: Bytes)
    returns (sent: nat)
    requires IsFairSysRun(g, run, steps) && IsHost(g, h) && steps(t) == Command(h, Download(p, name))
    ensures t < sent && SendsAt(g, run, steps, sent, h, FileRequest(h, p, name))
  {
    CommandQueues(g, run, steps, t, h, Download(p, name));
    IdAt(g, run, steps, t, h);
    SourceId(p);
    hide IsFairSysRun, LogAt;
    sent := JobGetsRun(g, run, steps, t + 1, h, |LogAt(g, run, steps, t, h).h.jobs|);
  }

  lemma RequestFits(h: Id, p: Id, name: Bytes)
    ensures FileRequest(h, p, name).dst == p && 0 <= p < TABLE_SIZE
    ensures JobsFor(FileRequest(h, p, name)) == [FileSend(h, CString(name))]
  {
  }

  // The request of host h for this file reaches host p, whatever the switch knows.
  lemma RequestArrives(g: Topology, c: Id, run: nat -> System, steps: nat -> SysStep, t: nat, h: Id, p: Id,
                       name: Bytes)
    returns (t': nat)
    requires IsStar(g, c) && IsFairSysRun(g, run, steps) && IsHost(g, h) && IsHost(g, p)
    requires steps(t) == Command(h, Download(p, name))
    ensures t < t'
    ensures LogAt(g, run, steps, t' + 1, p).h.jobs == LogAt(g, run, steps, t', p).h.jobs + [FileSend(h, CString(name))]
  {
    hide *;
    var q := FileRequest(h, p, name);
    RequestFits(h, p, name);
    var sent := RequestGetsSent(g, run, steps, t, h, p, name);
    RequestIsSent(g, run, steps, sent, h, q);
    NetIsFair(g, run, steps);
    StarFacts(g, c, h);
    t' := EverySendArrives(g, NetRun(run), NetSteps(run, steps), sent, h, q);
    AcceptedLog(run, t', p, q);
    RequestIsAccepted(g, run, steps, t', p, q);
  }

  lemma AcceptedLog(run: nat -> System, t: nat, p: Id, q: Packet)
    requires Log(NetRun(run)(t + 1).accepted, p) == Log(NetRun(run)(t).accepted, p) + [q]
    ensures Log(run(t + 1).net.accepted, p) == Log(run(t).net.accepted, p) + [q]
  {
  }

  // In every fair run of a star in which only p ever sends files to h, a command of h to download a file from
  // p makes p execute an upload job for h; if a directory is set at p then and the file opens, h executes an
  // END that delivers it.
  lemma DownloadsArrive(g: Topology, c: Id, run: nat -> System, steps: nat -> SysStep, t: nat, h: Id, p: Id,
                        name: Bytes)
    returns (start: nat, done: nat, i: nat)
    requires IsStar(g, c) && IsFairSysRun(g, run, steps) && IsHost(g, h) && IsHost(g, p)
    requires forall k: nat :: OnlySender(g, run(k), p, h)
    requires steps(t) == Command(h, Download(p, name))
    ensures t < start && Fetched(g, run, steps, p, h, CString(name), start, done, i)
  {
    hide *;
    var t' := RequestArrives(g, c, run, steps, t, h, p, name);
    start, done, i := QueuedUploadIsFetched(g, c, run, steps, t' + 1, p, h, CString(name),
                                            |LogAt(g, run, steps, t', p).h.jobs|);
  }

  // ---- What the managers have to leave alone ----

  // No other host than s is ever commanded to upload to d, and d is only commanded to download from s.
  ghost predicate OnlyAsked(steps: nat -> SysStep, s: Id, d: Id) {
    forall t: nat :: steps(t).Command? ==> FitsSender(steps(t).host, steps(t).c, s, d)
  }

  predicate FitsSender(h: Id, c: Commands.Command, s: Id, d: Id) {
    && (c.Upload? && h != s ==> ToChar(c.dst) != d)
    && (c.Download? && h == d ==> ToChar(c.dst) == s)
  }

  predicate NotesFit(l: Logged, h: Id, s: Id, d: Id) {
    forall i :: 0 <= i < |l.notes| && l.notes[i].Did? ==> FitsSender(h, l.notes[i].c, s, d)
  }

  lemma NotesStayFit(g: Topology, sys: System, step: SysStep, h: Id, s: Id, d: Id)
    requires Possible(g, sys, step) && h in sys.hosts && NotesFit(sys.hosts[h], h, s, d)
    requires step.Command? ==> FitsSender(step.host, step.c, s, d)
    ensures h in Then(g, sys, step).hosts && NotesFit(Then(g, sys, step).hosts[h], h, s, d)
  {
    hide FitsSender, OnCommand, OnJob, OnPacket;
  }

  // The first t steps of a fair run.
  lemma {:induction false} FairRunOccurs(g: Topology, run: nat -> System, steps: nat -> SysStep, t: nat)
    requires IsFairSysRun(g, run, steps)
    ensures Occurs(g, run(t))
  {
    var states, done := seq(t + 1, i requires 0 <= i => run(i)), seq(t, i requires 0 <= i => steps(i));
    forall i | 0 <= i < t
      ensures Possible(g, states[i], done[i]) && states[i + 1] == Then(g, states[i], done[i])
    {
      SysStepAt(g, run, steps, i);
    }
    assert states[0] == run(0);
    hide Possible, Then, Starts;
    assert IsSysRun(g, states, done) && states[|done|] == run(t);
  }

  lemma {:induction false} NotesAlwaysFit(g: Topology, run: nat -> System, steps: nat -> SysStep, t: nat, h: Id, s: Id,
                                          d: Id)
    requires IsFairSysRun(g, run, steps) && OnlyAsked(steps, s, d) && IsHost(g, h)
    ensures h in run(t).hosts && NotesFit(run(t).hosts[h], h, s, d)
  {
    Present(g, run, steps, t, h);
    if t > 0 {
      NotesAlwaysFit(g, run, steps, t - 1, h, s, d);
      SysStepAt(g, run, steps, t - 1);
      hide IsFairSysRun, Possible, Then, NotesFit, FitsSender;
      NotesStayFit(g, run(t - 1), steps(t - 1), h, s, d);
    }
  }

  // Then only s ever sends files to d, which is what the theorems about transfers ask for.
  lemma OnlyAskedSends(g: Topology, c: Id, run: nat -> System, steps: nat -> SysStep, t: nat, s: Id, d: Id)
    requires IsStar(g, c) && IsFairSysRun(g, run, steps) && IsHost(g, s) && IsHost(g, d) && OnlyAsked(steps, s, d)
    ensures OnlySender(g, run(t), s, d)
  {
    FairRunOccurs(g, run, steps, t);
    FairStarSysInv(g, c, run, steps, t);
    hide IsStar, IsFairSysRun, Occurs, SysInv, OnlyAsked, OnlySender;
    forall h: Id | h in run(t).hosts
      ensures IsHost(g, h) && NotesFit(run(t).hosts[h], h, s, d)
    {
      hide StarInv, HostOk;
      HostFacts(g, run(t), h);
      NotesAlwaysFit(g, run, steps, t, h, s, d);
    }
    Present(g, run, steps, t, d);
    CommandsDecideSender(g, c, run(t), s, d);
  }
}
