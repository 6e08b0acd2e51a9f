// The host as a state machine: what one manager command, one received packet and one job of
// host_main (host.c) do to a host's state. HostNode.dfy proves the imperative loop against it.
module Hosts {
  import opened Types
  import opened Commands
  import opened FileBuffer
  import opened Uploads

  const PING_TIMER := 10

  // `struct host_job`; the union-like fields appear with the job type that uses them.
  datatype Job =
    | SendPacket(packet: Packet)
    | PingSendReply(packet: Packet)
    | PingWait(timer: int)
    | FileSend(dst: int, name: Bytes)
    | FileStart(packet: Packet)
    | FileIn(packet: Packet)
    | FileEnd(packet: Packet)

  datatype Reply = HostState(dir: Option<Bytes>, id: Byte) | PingAcked | PingTimedOut

  datatype File = File(path: Bytes, content: Bytes)

  // `dir` is None while dir_valid is 0. `fileName` and `fileBytes` are the upload buffer.
  datatype Host = Host(id: Byte, dir: Option<Bytes>, jobs: seq<Job>, pingSeen: bool,
                       fileName: Bytes, fileBytes: Bytes)

  // What fopen does when the job calls it: the files that open for reading, by path, with their bytes, and
  // whether the one asked for opens for writing.
  datatype Disk = Disk(files: map<Bytes, Bytes>, writable: bool)

  // What a job sends on all ports, tells the manager and writes to disk.
  datatype Effect = Effect(sent: Option<Packet>, reply: Option<Reply>, file: Option<File>)

  const NO_EFFECT := Effect(None, None, None)

  // The C conversion (char) i.
  function ToChar(i: int): (c: Byte)
    ensures (c - i) % 256 == 0
  {
    (i + 128) % 256 - 128
  }

  // sprintf(name, "./%s/%s", dir, file)
  function Path(dir: Bytes, name: Bytes): Bytes {
    ['.' as int, '/' as int] + dir + ['/' as int] + name
  }

  // The path of a file, byte for byte: "./", the directory, "/", the name.
  predicate IsPathOf(path: Bytes, dir: Bytes, name: Bytes) {
    && |path| == |dir| + |name| + 3
    && path[0] == '.' as int && path[1] == '/' as int && path[2 + |dir|] == '/' as int
    && (forall i :: 2 <= i < 2 + |dir| ==> path[i] == dir[i - 2])
    && (forall i :: 3 + |dir| <= i < |path| ==> path[i] == name[i - 3 - |dir|])
  }

  lemma PathText(dir: Bytes, name: Bytes)
    ensures IsPathOf(Path(dir, name), dir, name)
  {
  }

  predicate NoSlash(name: Bytes) {
    forall i :: 0 <= i < |name| ==> name[i] != '/' as int
  }

  lemma SameBytes(path: Bytes, dir: Bytes, a: Bytes, b: Bytes)
    requires IsPathOf(path, dir, a) && IsPathOf(path, dir, b)
    ensures a == b
  {
    forall i | 0 <= i < |a|
      ensures a[i] == b[i]
    {
      var k := 3 + |dir| + i;
      assert path[k] == a[k - 3 - |dir|] == b[k - 3 - |dir|];
    }
  }

  // Read with a longer directory, the name has a slash in it.
  lemma SlashInName(path: Bytes, dir1: Bytes, name1: Bytes, dir2: Bytes, name2: Bytes)
    requires IsPathOf(path, dir1, name1) && IsPathOf(path, dir2, name2) && |dir1| < |dir2|
    ensures !NoSlash(name1)
  {
    var k := 2 + |dir2|;
    assert path[k] == name1[k - 3 - |dir1|] == '/' as int;
  }

  lemma SameDirectory(path: Bytes, dir1: Bytes, name1: Bytes, dir2: Bytes, name2: Bytes)
    requires IsPathOf(path, dir1, name1) && IsPathOf(path, dir2, name2) && |dir1| == |dir2|
    ensures dir1 == dir2
  {
    forall i | 0 <= i < |dir1|
      ensures dir1[i] == dir2[i]
    {
      var k := i + 2;
      assert path[k] == dir1[k - 2] == dir2[k - 2];
    }
  }

  // Different files have different paths: names in one directory always, and names without a slash in any.
  lemma PathsDiffer(dir1: Bytes, name1: Bytes, dir2: Bytes, name2: Bytes)
    requires dir1 == dir2 || (NoSlash(name1) && NoSlash(name2))
    ensures Path(dir1, name1) == Path(dir2, name2) <==> dir1 == dir2 && name1 == name2
  {
    var path := Path(dir1, name1);
    PathText(dir1, name1);
    PathText(dir2, name2);
    if path == Path(dir2, name2) {
      if |dir1| < |dir2| {
        SlashInName(path, dir1, name1, dir2, name2);
      } else if |dir2| < |dir1| {
        SlashInName(path, dir2, name2, dir1, name1);
      }
      SameDirectory(path, dir1, name1, dir2, name2);
      SameBytes(path, dir1, name1, name2);
    }
  }

  // The bytes of the file of this name, if a directory is set and the file opens.
  function Source(dir: Option<Bytes>, name: Bytes, disk: Disk): Option<Bytes> {
    if dir.Some? && Path(dir.value, name) in disk.files then Some(disk.files[Path(dir.value, name)]) else None
  }

  lemma OnlyPath(path: Bytes, dir: Bytes, name: Bytes)
    requires IsPathOf(path, dir, name)
    ensures path == Path(dir, name)
  {
    PathText(dir, name);
    var same := Path(dir, name);
    forall i | 0 <= i < |path|
      ensures path[i] == same[i]
    {
      assert i < 2 || i == 2 + |dir| || (i < 2 + |dir| && path[i] == dir[i - 2] == same[i])
        || (3 + |dir| <= i && path[i] == name[i - 3 - |dir|] == same[i]);
    }
  }

  // The file read is the one at "./directory/name".
  lemma SourceMeans(dir: Option<Bytes>, name: Bytes, disk: Disk, content: Bytes)
    ensures Source(dir, name, disk) == Some(content) <==>
      dir.Some? && exists path :: path in disk.files && IsPathOf(path, dir.value, name) && disk.files[path] == content
  {
    if dir.Some? {
      PathText(dir.value, name);
      forall path | IsPathOf(path, dir.value, name)
        ensures path == Path(dir.value, name)
      {
        OnlyPath(path, dir.value, name);
      }
    }
  }

  // A host as started: no directory, no jobs; ping_reply_received is not initialised.
  ghost predicate InitialHost(h: Host, id: Byte) {
    h.id == id && h.dir == None && h.jobs == [] && h.fileName == [] && h.fileBytes == []
  }

  function Enqueue(h: Host, jobs: seq<Job>): Host {
    h.(jobs := h.jobs + jobs)
  }

  function OnCommand(h: Host, c: Command): (Host, Option<Reply>) {
    match c
    case ShowState => (h, Some(HostState(h.dir, h.id)))
    case SetDir(d) => (h.(dir := Some(d)), None)
    case Ping(dst) =>
      var request := Packet(h.id, ToChar(dst), PKT_PING_REQ, []);
      (Enqueue(h, [SendPacket(request), PingWait(PING_TIMER)]).(pingSeen := false), None)
    case Upload(dst, name) => (Enqueue(h, [FileSend(dst, name)]), None)
    case Download(dst, name) =>
      (Enqueue(h, [SendPacket(Packet(h.id, ToChar(dst), PKT_FILE_DOWNLOAD_REQ, name))]), None)
  }

  // The jobs a packet addressed to the host turns into.
  function JobsFor(p: Packet): seq<Job> {
    if p.ptype == PKT_PING_REQ then [PingSendReply(p)]
    else if p.ptype == PKT_FILE_UPLOAD_START then [FileStart(p)]
    else if p.ptype == PKT_FILE_UPLOAD_IN then [FileIn(p)]
    else if p.ptype == PKT_FILE_UPLOAD_END then [FileEnd(p)]
    else if p.ptype == PKT_FILE_DOWNLOAD_REQ then [FileSend(p.src, CString(p.payload))]
    else []
  }

  function OnPacket(h: Host, p: Packet): Host {
    if p.dst != h.id then h
    else Enqueue(h, JobsFor(p)).(pingSeen := h.pingSeen || p.ptype == PKT_PING_REPLY)
  }

  function SendJobs(ps: seq<Packet>): (jobs: seq<Job>)
    ensures |jobs| == |ps| && forall i :: 0 <= i < |ps| ==> jobs[i] == SendPacket(ps[i])
  {
    seq(|ps|, i requires 0 <= i < |ps| => SendPacket(ps[i]))
  }

  // The packets of an upload job; none if no directory is set or the file does not open.
  function FilePackets(h: Host, dst: int, name: Bytes, disk: Disk): seq<Packet> {
    var content := Source(h.dir, name, disk);
    if content.Some? then Block(h.id, ToChar(dst), name, content.value) else []
  }

  // The oldest job, already taken out of the queue of `h`.
  function Execute(h: Host, job: Job, disk: Disk): (Host, Effect) {
    match job
    case SendPacket(p) => (h, NO_EFFECT.(sent := Some(p)))
    case PingSendReply(p) => (Enqueue(h, [SendPacket(Packet(h.id, p.src, PKT_PING_REPLY, []))]), NO_EFFECT)
    case PingWait(timer) =>
      if h.pingSeen then (h, NO_EFFECT.(reply := Some(PingAcked)))
      else if timer > 1 then (Enqueue(h, [PingWait(timer - 1)]), NO_EFFECT)
      else (h, NO_EFFECT.(reply := Some(PingTimedOut)))
    case FileSend(dst, name) => (Enqueue(h, SendJobs(FilePackets(h, dst, name, disk))), NO_EFFECT)
    case FileStart(p) => (h.(fileName := p.payload, fileBytes := []), NO_EFFECT)
    case FileIn(p) => (h.(fileBytes := Offer(h.fileBytes, p.payload)), NO_EFFECT)
    case FileEnd(p) =>
      var bytes := Offer(h.fileBytes, p.payload);
      if h.dir.Some? && disk.writable then
        (h.(fileBytes := []), NO_EFFECT.(file := Some(File(Path(h.dir.value, CString(h.fileName)), bytes))))
      else (h.(fileBytes := bytes), NO_EFFECT)
  }

  function OnJob(h: Host, disk: Disk): (Host, Effect) {
    if h.jobs == [] then (h, NO_EFFECT) else Execute(h.(jobs := h.jobs[1..]), h.jobs[0], disk)
  }

  // ---- One turn of the host's main loop ----

  datatype Turn = Turn(command: Option<Command>, packets: seq<Packet>, disk: Disk)

  function OnPackets(h: Host, ps: seq<Packet>): Host
    decreases |ps|
  {
    if ps == [] then h else OnPackets(OnPacket(h, ps[0]), ps[1..])
  }

  function BeforeJob(h: Host, t: Turn): Host {
    OnPackets(if t.command.Some? then OnCommand(h, t.command.value).0 else h, t.packets)
  }

  function OnTurn(h: Host, t: Turn): (Host, Effect) {
    OnJob(BeforeJob(h, t), t.disk)
  }
}
