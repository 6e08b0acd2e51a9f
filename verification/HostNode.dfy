// The host process of host.c: its state, updated in place by the three parts of its main loop,
// each proved to do what the state machine of module Hosts says.
module HostNodes {
  import opened Types
  import opened Commands
  import opened Endpoints
  import opened FileBuffer
  import opened Framing
  import opened JobQueues
  import opened Uploads
  import opened Hosts

  // The host's end of its link with the manager, message by message.
  class ManPort {
    var messages: seq<Bytes>
    var replies: seq<Reply>
  }

  // The command the oldest message stands for, if there is one.
  function Heard(messages: seq<Bytes>): Option<Command> {
    if messages == [] then None else Parse(messages[0])
  }

  // An open file being read.
  class Reader {
    const content: Bytes
    var pos: nat

    ghost function Rest(): Bytes
      requires pos <= |content|
      reads this
    {
      content[pos..]
    }

    constructor (content: Bytes)
      ensures this.content == content && pos == 0
    {
      this.content := content;
      pos := 0;
    }

    // fread: the next bytes of the file, fewer than asked for only at its end.
    method Read(count: nat) returns (piece: Bytes)
      requires pos <= |content|
      modifies this
      ensures pos <= |content|
      ensures piece == Take(old(Rest()), count) && Rest() == old(Rest())[|piece|..]
    {
      var n := Min(count, |content| - pos);
      piece := content[pos..pos + n];
      pos := pos + n;
    }
  }

  // A packet the host can take: the name in a download request is copied to an array of its own, with
  // its terminator.
  predicate Takeable(p: Packet) {
    Sized(p) && (p.ptype == PKT_FILE_DOWNLOAD_REQ ==> |p.payload| < NAME_MAX)
  }

  // What packets and jobs carry fits the C arrays.
  predicate SizedJob(j: Job) {
    match j
    case SendPacket(p) => Takeable(p)
    case FileSend(_, name) => |name| < NAME_MAX
    case FileStart(p) => Sized(p)
    case _ => true
  }

  class HostNode {
    const id: Byte
    var dir: Bytes
    var dirValid: bool
    var pingReplyReceived: bool
    const jobQ: JobQueue<Job>
    const upload: FileBuf
    const ports: seq<NetPort>
    const man: ManPort

    // A file name arrives in a packet's payload array.
    ghost predicate SizedJobs()
      reads jobQ, jobQ.nodes
    {
      forall i :: 0 <= i < |jobQ.nodes| ==> SizedJob(jobQ.nodes[i].job)
    }

    ghost predicate Valid()
      reads this, jobQ, jobQ.nodes, upload
    {
      jobQ.Valid() && upload.Valid() && Distinct(ports) && SizedJobs()
    }

    // The heap nodes of the queued jobs.
    ghost function Cells(): set<JobNode<Job>>
      reads this, jobQ
    {
      set n | n in jobQ.nodes
    }

    ghost function Dir(): Option<Bytes>
      reads this
    {
      if dirValid then Some(dir) else None
    }

    // The state machine's view of the host.
    ghost function State(): (h: Host)
      requires Valid()
      reads this, jobQ, jobQ.nodes, upload, upload.name, upload.buffer
      ensures h.id == id && |h.jobs| == jobQ.occ && h.pingSeen == pingReplyReceived
    {
      Host(id, Dir(), jobQ.Contents(), pingReplyReceived, upload.Name(), upload.Contents())
    }

    constructor (id: Byte, ports: seq<NetPort>, man: ManPort)
      requires Distinct(ports)
      ensures Valid() && InitialHost(State(), id)
      ensures this.ports == ports && this.man == man
      ensures fresh(jobQ) && fresh(upload) && fresh(upload.name) && fresh(upload.buffer)
    {
      this.id := id;
      this.ports := ports;
      this.man := man;
      dir, dirValid, pingReplyReceived := [], false, false;
      jobQ := new JobQueue<Job>();
      upload := new FileBuf();
    }

    // A freshly allocated job at the end of the queue.
    method AddJob(job: Job)
      requires Valid() && SizedJob(job)
      modifies jobQ, Cells()
      ensures Valid() && State() == Enqueue(old(State()), [job])
      ensures fresh(Cells() - old(Cells()))
    {
      var node := new JobNode<Job>(job);
      jobQ.Add(node);
    }

    // ---- Manager commands ----

    // 's'
    method ReplyHostState()
      requires Valid()
      modifies man`replies
      ensures man.replies == old(man.replies) + [HostState(State().dir, State().id)]
    {
      man.replies := man.replies + [HostState(if dirValid then Some(dir) else None, id)];
    }

    // 'm'
    method SetDirectory(d: Bytes)
      requires Valid()
      modifies this`dirValid, this`dir
      ensures Valid() && State() == OnCommand(old(State()), SetDir(d)).0
    {
      dirValid := true;
      dir := d;
    }

    // 'p': a ping request to send, and a job that waits for the reply.
    method StartPing(dst: int)
      requires Valid()
      modifies this`pingReplyReceived, jobQ, Cells()
      ensures Valid() && State() == OnCommand(old(State()), Ping(dst)).0
      ensures fresh(Cells() - old(Cells()))
    {
      hide Valid, State;
      AddJob(SendPacket(Packet(id, ToChar(dst), PKT_PING_REQ, [])));
      ExpectReply();
      AddJob(PingWait(PING_TIMER));
    }

    method ExpectReply()
      requires Valid()
      modifies this`pingReplyReceived
      ensures Valid() && State() == old(State()).(pingSeen := false)
    {
      pingReplyReceived := false;
    }

    // 'u'
    method RequestUpload(dst: int, name: Bytes)
      requires Valid() && |name| < NAME_MAX
      modifies jobQ, Cells()
      ensures Valid() && State() == OnCommand(old(State()), Upload(dst, name)).0
      ensures fresh(Cells() - old(Cells()))
    {
      AddJob(FileSend(dst, name));
    }

    // 'd'
    method RequestDownload(dst: int, name: Bytes)
      requires Valid() && |name| < NAME_MAX
      modifies jobQ, Cells()
      ensures Valid() && State() == OnCommand(old(State()), Download(dst, name)).0
      ensures fresh(Cells() - old(Cells()))
    {
      AddJob(SendPacket(Packet(id, ToChar(dst), PKT_FILE_DOWNLOAD_REQ, name)));
    }

    // The switch on the command letter; `text` is the argument as the C code sees it.
    method Obey(letter: Byte, text: Bytes, ghost message: Bytes)
      requires Valid() && Understood(message) && letter == SkipBlanks(message)[0] && text == CString(Argument(message))
      modifies this, jobQ, Cells(), man`replies
      ensures Valid() && fresh(Cells() - old(Cells()))
      ensures Parse(message).None? ==> State() == old(State()) && man.replies == old(man.replies)
      ensures Parse(message).Some? ==>
        var (h, reply) := OnCommand(old(State()), Parse(message).value);
        State() == h && man.replies == old(man.replies) + Sequel(reply)
    {
      hide Valid, State, Enqueue, ScanInt, ScanIntWord, SkipBlanks, Argument, CString;
      if letter == CMD_STATE {
        ReplyHostState();
      } else if letter == CMD_DIR {
        SetDirectory(text);
      } else if letter == CMD_PING {
        StartPing(ScanInt(text).value.0);
      } else if letter == CMD_UPLOAD {
        var scanned := ScanIntWord(text).value;
        RequestUpload(scanned.0, scanned.1);
      } else if letter == CMD_DOWNLOAD {
        var scanned := ScanIntWord(text).value;
        RequestDownload(scanned.0, scanned.1);
      }
    }

    // One command of the manager, if there is any.
    method ExecuteCommand()
      requires Valid() && (man.messages != [] ==> Understood(man.messages[0]))
      modifies this, jobQ, Cells(), man
      ensures Valid() && fresh(Cells() - old(Cells()))
      ensures man.messages == if old(man.messages) == [] then [] else old(man.messages)[1..]
      ensures var c := Heard(old(man.messages));
        if c.None? then State() == old(State()) && man.replies == old(man.replies)
        else
          var (h, reply) := OnCommand(old(State()), c.value);
          State() == h && man.replies == old(man.replies) + Sequel(reply)
    {
      hide Valid, State, Parse, SkipBlanks, Argument, CString, OnCommand;
      if man.messages == [] {
        return;
      }
      var message := man.messages[0];
      man.messages := man.messages[1..];
      var msg := new Byte[MAN_MSG_LENGTH];
      var letter := GetManCommand(message, msg);
      TerminatedText(msg[..], Argument(message));
      Obey(letter, CString(msg[..]), message);
    }

    // ---- Incoming packets ----

    method NoteReply()
      requires Valid()
      modifies this`pingReplyReceived
      ensures Valid() && State() == old(State()).(pingSeen := true)
    {
      pingReplyReceived := true;
    }

    // Translates a packet for this host to a job.
    method TakePacket(p: Packet)
      requires Valid() && Takeable(p)
      modifies this`pingReplyReceived, jobQ, Cells()
      ensures Valid() && State() == OnPacket(old(State()), p)
      ensures fresh(Cells() - old(Cells()))
    {
      hide State, Valid;
      NothingQueued(State());
      if p.dst == id {
        if p.ptype == PKT_PING_REQ {
          AddJob(PingSendReply(p));
        } else if p.ptype == PKT_PING_REPLY {
          NoteReply();
        } else if p.ptype == PKT_FILE_UPLOAD_START {
          AddJob(FileStart(p));
        } else if p.ptype == PKT_FILE_UPLOAD_IN {
          AddJob(FileIn(p));
        } else if p.ptype == PKT_FILE_UPLOAD_END {
          AddJob(FileEnd(p));
        } else if p.ptype == PKT_FILE_DOWNLOAD_REQ {
          CStringShorter(p.payload);
          AddJob(FileSend(p.src, CString(p.payload)));
        }
      }
    }

    // Reads one port, if there is anything to read.
    method PollPort(k: nat)
      requires Valid() && k < |ports|
      requires ports[k].unread != [] ==> Takeable(ports[k].unread[0])
      modifies this`pingReplyReceived, jobQ, Cells(), ports`unread
      ensures Valid() && fresh(Cells() - old(Cells()))
      ensures Unread(ports) == Polled(old(Unread(ports)), k, k + 1)
      ensures State() == OnPackets(old(State()), Waiting(old(Unread(ports)), k, k + 1))
    {
      hide Unread, Polled, Waiting, OnPackets, OnPacket, Distinct, State, SizedJobs;
      ghost var before, unread := State(), Unread(ports);
      WaitingOne(unread, k);
      OnPacketsOne(before, unread[k]);
      if ports[k].unread != [] {
        var p := ReadPort(ports, k);
        TakePacket(p);
      }
    }

    // The scan of all ports.
    method PollPorts()
      requires Valid()
      requires forall k :: 0 <= k < |ports| && ports[k].unread != [] ==> Takeable(ports[k].unread[0])
      modifies this`pingReplyReceived, jobQ, Cells(), ports`unread
      ensures Valid() && fresh(Cells() - old(Cells()))
      ensures Unread(ports) == Polled(old(Unread(ports)), 0, |ports|)
      ensures State() == OnPackets(old(State()), Waiting(old(Unread(ports)), 0, |ports|))
    {
      ghost var unread := Unread(ports);
      hide Unread, Polled, Waiting, OnPackets, State, Valid, Takeable;
      PollStart(State(), unread);
      for k := 0 to |ports|
        invariant Valid() && fresh(Cells() - old(Cells()))
        invariant forall j :: k <= j < |ports| ==> Unread(ports)[j] == unread[j]
        invariant Unread(ports) == Polled(unread, 0, k)
        invariant State() == OnPackets(old(State()), Waiting(unread, 0, k))
      {
        PollOneMore(old(State()), unread, k);
        PollPort(k);
      }
    }

    // ---- Jobs ----

    // Puts a waiting job back into the queue with one tick less.
    method Requeue(node: JobNode<Job>, timer: int)
      requires Valid() && node !in jobQ.nodes
      modifies jobQ, Cells(), node
      ensures Valid() && fresh(Cells() - old(Cells()) - {node})
      ensures State() == Enqueue(old(State()), [PingWait(timer)])
    {
      node.job := PingWait(timer);
      jobQ.Add(node);
    }

    // Answers the manager, or waits on.
    method WaitForReply(node: JobNode<Job>, timer: int, ghost disk: Disk)
      requires Valid() && node !in jobQ.nodes && node.job == PingWait(timer)
      modifies jobQ, Cells(), node, man`replies
      ensures Valid() && fresh(Cells() - old(Cells()) - {node})
      ensures var (h, effect) := Execute(old(State()), PingWait(timer), disk);
        State() == h && effect == NO_EFFECT.(reply := effect.reply)
          && man.replies == old(man.replies) + Sequel(effect.reply)
    {
      hide Valid, State;
      if pingReplyReceived {
        man.replies := man.replies + [PingAcked];
      } else if timer > 1 {
        Requeue(node, timer - 1);
      } else {
        man.replies := man.replies + [PingTimedOut];
      }
    }

    // Queues the packets of a file: START, one IN per full block, END with what is left.
    method SendFile(dst: int, name: Bytes, content: Bytes)
      requires Valid() && |name| < NAME_MAX
      modifies jobQ, Cells()
      ensures Valid() && fresh(Cells() - old(Cells()))
      ensures State() == Enqueue(old(State()), SendJobs(Block(id, ToChar(dst), name, content)))
    {
      hide Valid, State, Enqueue, Block, Chunks, Piece, SendJobs;
      ghost var h, src, to := State(), id, ToChar(dst);
      ghost var block := Block(src, to, name, content);
      var file := new Reader(content);
      ghost var queued, left := [StartPacket(src, to, name)], content;
      SendOne(h, StartPacket(src, to, name));
      BlockStart(src, to, name, content);
      AddJob(SendPacket(StartPacket(id, ToChar(dst), name)));
      var piece := file.Read(PAYLOAD_MAX);
      while |piece| >= PAYLOAD_MAX
        invariant Valid() && fresh(Cells() - old(Cells())) && file.pos <= |file.content|
        invariant piece == Take(left, PAYLOAD_MAX) && file.Rest() == left[|piece|..]
        invariant State() == Enqueue(h, SendJobs(queued))
        invariant queued + Chunks(src, to, left) == block
        decreases |left|
      {
        SendOneMore(h, queued, Piece(src, to, piece));
        ChunkStep(src, to, queued, left);
        PieceSized(src, to, piece);
        AddJob(SendPacket(Piece(id, ToChar(dst), piece)));
        queued := queued + [Piece(src, to, piece)];
        left := left[PAYLOAD_MAX..];
        piece := file.Read(PAYLOAD_MAX);
      }
      SendOneMore(h, queued, Piece(src, to, piece));
      LastChunk(src, to, left);
      PieceSized(src, to, piece);
      AddJob(SendPacket(Piece(id, ToChar(dst), piece)));
    }

    // A START packet empties the upload buffer and names the file.
    method ReceiveStart(p: Packet, ghost disk: Disk)
      requires Valid() && Sized(p)
      modifies upload, upload.name
      ensures Valid() && Execute(old(State()), FileStart(p), disk) == (State(), NO_EFFECT)
    {
      upload.Init();
      upload.PutName(p.payload);
    }

    // An END packet completes the file; with a directory set and the file opening, the buffer is
    // written out and left empty.
    method ReceiveEnd(p: Packet, disk: Disk) returns (file: Option<File>)
      requires Valid()
      modifies upload, upload.buffer
      ensures Valid()
      ensures Execute(old(State()), FileEnd(p), disk) == (State(), NO_EFFECT.(file := file))
    {
      hide Take, Path, Window, CString;
      file := None;
      var _ := upload.Add(p.payload);
      if dirValid {
        file := WriteOut(disk.writable);
      }
    }

    // Writes the buffer out under the name kept with it, if the file opens.
    method WriteOut(writable: bool) returns (file: Option<File>)
      requires Valid() && dirValid
      modifies upload
      ensures Valid() && State() == old(State()).(fileBytes := if writable then [] else old(State()).fileBytes)
      ensures file == if writable
                      then Some(File(Path(dir, CString(old(State()).fileName)), old(State()).fileBytes)) else None
    {
      hide Path, Window, CString;
      file := None;
      var text := new Byte[PAYLOAD_MAX + 1];
      upload.GetName(text);
      TerminatedText(text[..], upload.Name());
      var path := Path(dir, CString(text[..]));
      if writable {
        var content := upload.Drain();
        file := Some(File(path, content));
      }
    }

    // Takes the oldest job out of the queue.
    method TakeJob() returns (node: JobNode<Job>)
      requires Valid() && State().jobs != []
      modifies jobQ
      ensures Valid() && Cells() <= old(Cells())
      ensures node in old(Cells()) && node !in jobQ.nodes
      ensures node.job == old(State()).jobs[0] && SizedJob(node.job)
      ensures State() == old(State()).(jobs := old(State()).jobs[1..])
    {
      assert SizedJob(jobQ.nodes[0].job);
      node := jobQ.Remove();
    }

    // A ping request is answered by queueing the reply.
    method ReplyToPing(p: Packet, ghost disk: Disk)
      requires Valid()
      modifies jobQ, Cells()
      ensures Valid() && fresh(Cells() - old(Cells()))
      ensures Execute(old(State()), PingSendReply(p), disk) == (State(), NO_EFFECT)
    {
      AddJob(SendPacket(Packet(id, p.src, PKT_PING_REPLY, [])));
    }

    // An upload starts if there is a directory and the file opens.
    method StartUpload(dst: int, name: Bytes, disk: Disk)
      requires Valid() && |name| < NAME_MAX
      modifies jobQ, Cells()
      ensures Valid() && fresh(Cells() - old(Cells()))
      ensures Execute(old(State()), FileSend(dst, name), disk) == (State(), NO_EFFECT)
    {
      NothingToSend(State());
      if dirValid {
        var path := Path(dir, name);
        if path in disk.files {
          SendFile(dst, name, disk.files[path]);
        }
      }
    }

    method ReceiveIn(p: Packet, ghost disk: Disk)
      requires Valid()
      modifies upload, upload.buffer
      ensures Valid() && Execute(old(State()), FileIn(p), disk) == (State(), NO_EFFECT)
    {
      var _ := upload.Add(p.payload);
    }

    // A packet goes out on every port.
    method SendOut(p: Packet, ghost disk: Disk)
      requires Valid()
      modifies ports`written
      ensures Execute(old(State()), SendPacket(p), disk) == (State(), NO_EFFECT.(sent := Some(p)))
      ensures forall k :: 0 <= k < |ports| ==> ports[k].written == old(ports[k].written) + [p]
    {
      SendOnAll(ports, p);
    }

    // Executes the oldest job, if there is any.
    method ExecuteJob(disk: Disk) returns (file: Option<File>)
      requires Valid()
      modifies jobQ, Cells(), upload, upload.name, upload.buffer, ports`written, man`replies
      ensures Valid() && fresh(Cells() - old(Cells()))
      ensures var (h, effect) := OnJob(old(State()), disk);
        && (effect.sent.Some? ==> Takeable(effect.sent.value))
        && State() == h && file == effect.file && man.replies == old(man.replies) + Sequel(effect.reply)
        && forall k :: 0 <= k < |ports| ==> ports[k].written == old(ports[k].written) + Sequel(effect.sent)
    {
      file := None;
      hide Valid, State, Execute;
      if jobQ.occ == 0 {
        return;
      }
      var node := TakeJob();
      file := RunJob(node, disk);
    }

    // The job that has been taken out of the queue.
    method RunJob(node: JobNode<Job>, disk: Disk) returns (file: Option<File>)
      requires Valid() && node !in jobQ.nodes && SizedJob(node.job)
      modifies jobQ, Cells(), node, upload, upload.name, upload.buffer, ports`written, man`replies
      ensures Valid() && fresh(Cells() - old(Cells()) - {node})
      ensures var (h, effect) := Execute(old(State()), old(node.job), disk);
        && (effect.sent.Some? ==> Takeable(effect.sent.value))
        && State() == h && file == effect.file && man.replies == old(man.replies) + Sequel(effect.reply)
        && forall k :: 0 <= k < |ports| ==> ports[k].written == old(ports[k].written) + Sequel(effect.sent)
    {
      file := None;
      hide Valid, State, Execute, Cells;
      match node.job
      case SendPacket(p) => SendOut(p, disk);
      case PingSendReply(p) => ReplyToPing(p, disk);
      case PingWait(timer) => WaitForReply(node, timer, disk);
      case FileSend(dst, name) => StartUpload(dst, name, disk);
      case FileStart(p) => ReceiveStart(p, disk);
      case FileIn(p) => ReceiveIn(p, disk);
      case FileEnd(p) => file := ReceiveEnd(p, disk);
    }

    // One turn of the main loop: at most one command, a scan of all ports, at most one job. Every
    // packet it writes can be taken by a host, if every packet and name it reads fits.
    method Turn(disk: Disk) returns (file: Option<File>)
      requires Valid() && (man.messages != [] ==> Understood(man.messages[0]))
      requires forall k :: 0 <= k < |ports| && ports[k].unread != [] ==> Takeable(ports[k].unread[0])
      modifies this, jobQ, Cells(), upload, upload.name, upload.buffer, ports, man
      ensures Valid()
      ensures man.messages == if old(man.messages) == [] then [] else old(man.messages)[1..]
      ensures var c := Heard(old(man.messages));
        var turn := Hosts.Turn(c, Waiting(old(Unread(ports)), 0, |ports|), disk);
        var (h, effect) := OnTurn(old(State()), turn);
        var told := if c == None then None else OnCommand(old(State()), c.value).1;
        && State() == h && file == effect.file && (effect.sent.Some? ==> Takeable(effect.sent.value))
        && man.replies == old(man.replies) + Sequel(told) + Sequel(effect.reply)
        && Unread(ports) == Polled(old(Unread(ports)), 0, |ports|)
        && forall k :: 0 <= k < |ports| ==> ports[k].written == old(ports[k].written) + Sequel(effect.sent)
    {
      hide Valid, State, OnCommand, OnPackets, OnJob, Unread, Waiting, Polled, Parse, Understood, Takeable;
      ExecuteCommand();
      PollPorts();
      file := ExecuteJob(disk);
    }
  }

  function Sequel<T>(x: Option<T>): seq<T> {
    if x.Some? then [x.value] else []
  }

  lemma {:induction false} CStringShorter(s: Bytes)
    ensures |CString(s)| <= |s|
  {
    if s != [] && s[0] != 0 {
      CStringShorter(s[1..]);
    }
  }

  lemma NothingQueued(h: Host)
    ensures Enqueue(h, []) == h
  {
    assert h.jobs + [] == h.jobs;
  }

  lemma NothingToSend(h: Host)
    ensures Enqueue(h, SendJobs([])) == h
  {
    assert SendJobs([]) == [] && h.jobs + [] == h.jobs;
  }

  lemma {:induction false} TerminatedText(text: Bytes, name: Bytes)
    requires |text| > |name| && text[..|name|] == name && text[|name|] == 0
    ensures CString(text) == CString(name)
  {
    if name != [] {
      assert text[0] == text[..|name|][0];
      assert text[1..][..|name[1..]|] == text[..|name|][1..];
      TerminatedText(text[1..], name[1..]);
    }
  }

  lemma SendOne(h: Host, p: Packet)
    ensures Enqueue(h, [SendPacket(p)]) == Enqueue(h, SendJobs([p]))
  {
    assert [SendPacket(p)] == SendJobs([p]);
  }

  lemma SendOneMore(h: Host, ps: seq<Packet>, p: Packet)
    ensures Enqueue(Enqueue(h, SendJobs(ps)), [SendPacket(p)]) == Enqueue(h, SendJobs(ps + [p]))
  {
    assert SendJobs(ps + [p]) == SendJobs(ps) + [SendPacket(p)];
    assert h.jobs + (SendJobs(ps) + [SendPacket(p)]) == (h.jobs + SendJobs(ps)) + [SendPacket(p)];
  }

  lemma PieceSized(src: Byte, dst: Byte, bytes: Bytes)
    requires |bytes| <= PAYLOAD_MAX
    ensures Takeable(Piece(src, dst, bytes))
  {
  }

  lemma BlockStart(src: Byte, dst: Byte, name: Bytes, content: Bytes)
    ensures Block(src, dst, name, content) == [StartPacket(src, dst, name)] + Chunks(src, dst, content)
  {
  }

  lemma ChunkStep(src: Byte, dst: Byte, queued: seq<Packet>, left: Bytes)
    requires |left| >= PAYLOAD_MAX
    ensures (queued + [Piece(src, dst, left[..PAYLOAD_MAX])]) + Chunks(src, dst, left[PAYLOAD_MAX..])
         == queued + Chunks(src, dst, left)
    ensures Take(left, PAYLOAD_MAX) == left[..PAYLOAD_MAX]
  {
    hide Piece;
    var first, rest := [Piece(src, dst, left[..PAYLOAD_MAX])], Chunks(src, dst, left[PAYLOAD_MAX..]);
    assert Chunks(src, dst, left) == first + rest;
    hide Chunks;
    assert (queued + first) + rest == queued + (first + rest);
  }

  lemma LastChunk(src: Byte, dst: Byte, left: Bytes)
    requires |left| < PAYLOAD_MAX
    ensures Chunks(src, dst, left) == [Piece(src, dst, left)]
  {
  }

  // The packets a scan of ports lo..hi finds, and what it leaves.
  ghost function Waiting(unread: seq<seq<Packet>>, lo: nat, hi: nat): seq<Packet>
    requires lo <= hi <= |unread|
  {
    if lo == hi then [] else Waiting(unread, lo, hi - 1) + (if unread[hi - 1] == [] then [] else [unread[hi - 1][0]])
  }

  ghost function Polled(unread: seq<seq<Packet>>, lo: nat, hi: nat): (r: seq<seq<Packet>>)
    requires lo <= hi <= |unread|
    ensures |r| == |unread|
    ensures forall k :: 0 <= k < |r| ==> r[k] == if lo <= k < hi && unread[k] != [] then unread[k][1..] else unread[k]
  {
    seq(|unread|, k requires 0 <= k < |unread| => if lo <= k < hi && unread[k] != [] then unread[k][1..] else unread[k])
  }

  lemma {:induction false} OnPacketsConcat(h: Host, a: seq<Packet>, b: seq<Packet>)
    ensures OnPackets(h, a + b) == OnPackets(OnPackets(h, a), b)
    decreases |a|
  {
    if a == [] {
      assert a + b == b;
    } else {
      assert (a + b)[0] == a[0] && (a + b)[1..] == a[1..] + b;
      OnPacketsConcat(OnPacket(h, a[0]), a[1..], b);
    }
  }

  lemma WaitingOne(unread: seq<seq<Packet>>, k: nat)
    requires k < |unread|
    ensures Waiting(unread, k, k + 1) == if unread[k] == [] then [] else [unread[k][0]]
    ensures Polled(unread, k, k + 1) == if unread[k] == [] then unread else unread[k := unread[k][1..]]
  {
    assert Waiting(unread, k, k) == [];
  }

  lemma OnPacketsOne(h: Host, q: seq<Packet>)
    ensures OnPackets(h, if q == [] then [] else [q[0]]) == if q == [] then h else OnPacket(h, q[0])
  {
    if q != [] {
      assert [q[0]][1..] == [];
    }
  }

  lemma PollStart(h: Host, unread: seq<seq<Packet>>)
    ensures Polled(unread, 0, 0) == unread && OnPackets(h, Waiting(unread, 0, 0)) == h
  {
  }

  lemma PolledOneMore(unread: seq<seq<Packet>>, k: nat)
    requires k < |unread|
    ensures Polled(Polled(unread, 0, k), k, k + 1) == Polled(unread, 0, k + 1)
    ensures Polled(unread, 0, k)[k] == unread[k]
  {
    var twice, once := Polled(Polled(unread, 0, k), k, k + 1), Polled(unread, 0, k + 1);
    assert forall i :: 0 <= i < |unread| ==> twice[i] == once[i];
  }

  // One more port in the scan.
  lemma PollOneMore(h: Host, unread: seq<seq<Packet>>, k: nat)
    requires k < |unread|
    ensures var now := Polled(unread, 0, k);
      && Polled(now, k, k + 1) == Polled(unread, 0, k + 1)
      && OnPackets(OnPackets(h, Waiting(unread, 0, k)), Waiting(now, k, k + 1))
        == OnPackets(h, Waiting(unread, 0, k + 1))
  {
    hide Polled, OnPackets;
    var now := Polled(unread, 0, k);
    PolledOneMore(unread, k);
    WaitingOne(now, k);
    OnPacketsConcat(h, Waiting(unread, 0, k), Waiting(now, k, k + 1));
  }
}
