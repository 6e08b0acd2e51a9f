# Verified model of the network simulator

A Dafny model of `net367`, the simulator of hosts, learning switches and pipe links: its processes
as written (in-place tables, linked lists, ring buffer, loops) and the network they form, with
proofs about every run.

How the pieces fit:

| files | what they hold |
|---|---|
| `Types.dfy` | packets, constants, sequence helpers; `Byte` is a signed C `char` |
| `Framing.dfy`, `Pipes.dfy` | packets over a byte pipe: `packet_send`, `packet_recv`, and exactly when a pipe, or a whole network of pipes, behaves like message queues |
| `FileBuffer.dfy`, `JobQueue.dfy` | the circular file buffer and the heap-linked job queue, each refining a sequence |
| `Ports.dfy`, `Configuration.dfy` | building and extracting port lists in place; the topologies a configuration yields |
| `Commands.dfy`, `CommandTexts.dfy` | manager commands and replies as text: formatting, in-place stripping, scanning; what every text is and means, byte for byte |
| `Host.dfy`, `HostNode.dfy` | the host as a state machine, and the host process with its main loop, proved against it |
| `Uploads.dfy`, `HostLogs.dfy`, `Transfers.dfy` | the packets of a file; what every step of a host keeps; what a receiver makes of transfers |
| `Histories.dfy` | a host's queue, what it sends and what it writes, as told by its history of commands, packets and jobs |
| `Pings.dfy`, `Manager.dfy`, `Questions.dfy` | answers to ping commands, their termination; the manager in lock-step with its hosts, and which question each answer is to |
| `Endpoints.dfy`, `Switch.dfy` | message ports, and the switch process with its main loop |
| `Trees.dfy`, `Network.dfy`, `Learning.dfy` | trees, the network as interleaved steps, correctness of all forwarding tables |
| `Delivery.dfy`, `Flooding.dfy` | directed delivery in trees, and an example of what flooding costs |
| `Copies.dfy`, `Duplicates.dfy` | flooding in trees: everything arrives; all copies followed, and when at most one is accepted |
| `Loops.dfy`, `SysLoops.dfy`, `LoopRounds.dfy` | every process in its own loop order; one round is one turn of the process |
| `Rebounds.dfy`, `AtMostOnce.dfy`, `DoublePing.dfy` | exactly when a packet can be delivered twice if every process keeps to its loop; a ping that is |
| `Star.dfy`, `Simulator.dfy` | one switch: no loss, duplication or reordering; files and pings end to end |
| `Liveness.dfy`, `Completion.dfy`, `FileRequests.dfy` | what happens as long as all processes keep running: answers and whole files get through, from the command to the file |
| `FairRuns.dfy` | what can always be done, and that every run can go on for ever with all processes running |
| `Provenance.dfy` | no host sends a file that no manager asked for |
| `Acks.dfy` | when "Ping acked!" tells the truth, however the processes' steps are interleaved |
| `LateReplies.dfy`, `OldPings.dfy`, `LateReports.dfy` | when it can be wrong, every process keeping to its loop; a run in which it is |
| `Refinement.dfy` | one turn of a process's loop is a list of steps of the interleaved system |

Assumptions, stated as preconditions or types where they are used:

- Links are pipes. A switch never learns on socket ports (switch.c:221-223), so the table theorems
  do not speak of them.
- Node ids, and the destinations in commands, lie in 0..99: `dst` indexes the 100-entry table
  without a check (switch.c:244). File names are shorter than 100 bytes, so that they fit their array
  with a terminator (host.h:22): a precondition of the host process, which then only writes packets
  that a host can take. Directories and paths are taken to fit theirs.
- The host process gets messages whose letter it knows only with an argument it can scan; everything
  the manager formats is such a message (`Commands.FormattedIsUnderstood`).
- Pipes do not overflow. Network, host and manager theorems use message-granular links;
  `Pipes.InStepIffDisciplined` says exactly when a network of byte pipes behaves like that.
- One step is one process reading one port and acting on it, or executing one command or one job.
  Processes share nothing but pipes, so the steps of different processes are interleaved arbitrarily;
  sleeping is not modelled. The steps of one process come in the order of its loop: a host looks for a
  command, polls each port once and executes one job (host.c:339-794), a switch visits its ports in turn
  (switch.c:211-256). Unless "loop order" is said, the runs of the model include more than that: they
  let a process take its steps in any order. Statements about every run hold of the loops all the same.
  Statements that something can happen are made of full hosts and switches in loop order (`SysLoops`),
  where a port is skipped only when there is nothing to read; a round of these loops is a turn of the
  processes (`LoopRounds.RoundIsTurn`, `LoopRounds.PassIsScan`). Which commands hosts find, and what the
  disk does to their jobs, is open.
- "Fair run" means that every link keeps being polled and, where hosts are modelled in full, that every
  host keeps executing jobs: the loops never stop. Every run is the beginning of one
  (`FairRuns.EveryRunGoesOn`).
- Each job finds a disk of its own: any files, by path, and any answer to whether a file opens for writing.
- A tree is a network with exactly one simple path between any two nodes. A star has one switch and
  hosts with one link each, as in `switch.config` (`Configuration.SwitchConfigIsStar`).
- "Only s sends files to d" holds as long as no other host is commanded to upload to d and d is commanded
  to download from s only (`FileRequests.OnlyAskedSends`).

Where the code does less than one might expect, the model follows the code:

- Two short packets written before the reader comes round merge into one read and the second is
  lost (`Framing.BackToBackPingsMerge`). A pipe is a message queue exactly in the runs in which
  every read finds the oldest packet full-size or alone (`Framing.RefinesQueueIff`), and a network of
  pipes is one of message queues exactly in the runs in which all its links are like that
  (`Pipes.InStepIffDisciplined`). A file's IN packets and END may pile up unread; a whole transfer with
  its START may not.
- With more than one switch, a packet to an unknown destination is flooded back and forth and can be
  delivered twice (`Flooding.SentOnceDeliveredTwice`, `DoublePing.OnePingTwoRequests`). It is always delivered at least once
  (`Copies.EverySendArrives`). When a switch serves it and has an entry for the destination by then, or
  all switches next to it have one, it is delivered at most once, however the steps are interleaved
  (`Duplicates.QuietIsEnough`). With every process in its loop, it is delivered at most once exactly if
  the switch has an entry, or every switch next to it has one or reads a packet from the destination
  before the copy (`AtMostOnce.AtMostOnceIffSettles`). A copy that reaches a node knowing the destination
  is never flooded again (`Delivery.NeverFloodedAgain`).
- "Ping acked!" does not say that the pinged host answered: the flag does not record the sender, so
  a late reply of another host is reported (`LateReports.LateReplyIsReported`). In a star:
  - it is true, however the steps are interleaved up to the next ping command, if all pings the pinging
    host has undertaken before, to any host, have been answered (`LateReplies.AckTruthfulIfSettled`).
    That is not necessary: an old reply may come too late to mislead;
  - when a reply is waiting on the last link, it is decided in loop order by what is in front of it: the
    acknowledgement is true exactly if the waiting job times out before those packets are read
    (`LateReplies.AckTruthfulIffTimesOut`). If neither they nor the jobs queued before add jobs, that is
    when there are more than ten of them beyond the number of those jobs
    (`LateReplies.AckTruthfulIffFarBehind`);
  - wherever the outstanding ping of another host is, with little traffic about it can mislead
    (`OldPings.OldPingMisleads`);
  - if only earlier pings of the same host are outstanding, the acknowledgement at least means that this
    host has replied to something since (`Acks.AckedByPinged`); that condition is not necessary
    (`Acks.OldReplyOfPinged`).
- Several senders share one upload buffer: an END writes what came in since the last START, whoever
  sent it, under the name in that START (`Transfers.EveryEndWrites`, `Transfers.OverlapMixes`). A
  transfer is delivered whenever nobody else's packets come between its START and its END
  (`Simulator.UninterruptedTransfers`).
- Files longer than 1000 bytes are cut to their first 1000 bytes without notice.
- A host without a directory tells the manager the same as one whose directory is called "None"
  (`CommandTexts.SameStateText`).

## Model

| member | source | states |
|---|---|---|
| Learning.UnknownSourceComesTheRightWay | switch.c:225-230 | a packet of a source the switch does not know has come from the next hop towards that source, although flooding reflects packets |
| Learning.InvKept | switch.c:213-255 | every step of every process of a tree keeps: entries are next hops whose far end is the host or knows it too; packets in flight left a node that is their source or knows it |
| Learning.EveryEntryIsRight | switch.c:213-255 | in every reachable state of any tree, an entry for s names a port behind which host s lies, on every simple path there is |
| Delivery.PassedOn | switch.c:244-247 | a switch knowing the destination writes one copy on one link, one link closer, to the destination or another node that knows it |
| Delivery.NeverFloodedAgain | switch.c:225-253 | in every run a copy that is heading for a node knowing its destination stays one copy, never moves away, and is only ever removed by delivery |
| Delivery.EventuallyDelivered | switch.c:213-255 | in every run in which all links keep being polled, such a copy is read by its destination |
| Delivery.SentBackArrives | switch.c:225-253 | whatever a leaf host of a tree sends to a host it has accepted a packet from travels as one copy, never flooded, and is accepted there |
| Liveness.RepliesArrive | host.c:549-572 | in every fair run of a tree of full hosts: every ping reply a leaf host sends answers a ping request it has accepted, and is accepted by the host that sent that request, as one copy, never flooded |
| Liveness.PingRequestsAreAnswered | host.c:456-465 | every ping request a leaf host accepts gets its reply job executed and its reply sent, and the reply arrives unflooded |
| Liveness.DownloadsAreAnswered | host.c:495-504 | every download request a leaf host accepts is executed; if a directory is set then and the file opens, all packets of the block are sent in order and every one of them is accepted by the asking host, unflooded |
| Copies.EverySendArrives | switch.c:244-253 | in every fair run of a tree with hosts as leaves, every packet sent to an existing host, known to the switches or not, is accepted by it at least once (only a host wired straight to another host cannot reach itself) |
| Duplicates.QuietIsEnough | switch.c:225-253 | in every reachable state of any tree: if the switch that serves a packet has an entry for the destination once it has recorded the source, or every switch next to it has one, the packet is accepted at most once in every continuation, however the steps are interleaved; all copies are followed |
| AtMostOnce.AtMostOnceIffSettles | switch.c:211-256 | with all hosts and switches in their loops, in every state that occurs in a tree with leaf hosts: a packet a switch serves is accepted at most once in every continuation if and only if the switch has an entry for the destination by then, or every switch next to it has one or reads a packet from the destination before its copy (earlier in its queue, or as far and at a port that is visited first) |
| AtMostOnce.AtMostOnceIffQuiet | switch.c:211-256 | in particular, with no packet from the destination under way: if and only if the switch or all switches next to it have an entry |
| DoublePing.OnePingTwoRequests | switch.c:211-256 | in a row of two switches, from the start and with every process in its loop: one ping command sends one request, and in some continuation the host pinged accepts it twice |
| Flooding.FloodedIffUnknown | switch.c:244-253 | after recording the source, a neighbour gets a copy exactly when the destination has no entry or the entry names that neighbour |
| Flooding.SentOnceDeliveredTwice | switch.c:248-253 | a run of two switches in a row in which a packet sent once is queued twice for its destination |
| Star.StarIsTree | switch.config:1-11 | the shape that switch.config describes, with any number of hosts, is a tree: one and only one path joins any two nodes, so everything proved of trees (forwarding tables, delivery once known, replies unflooded) holds of it |
| Star.NoLossDuplicationOrReordering | switch.c:213-256 | in every reachable state of a star: packets s sent to d = packets d accepted from s, then those on the link to d, then those on the link from s, in order |
| Simulator.SysInvKept | host.c:339-794 | every step of a star of full hosts keeps all invariants, and the hosts' own logs agree with the network's |
| Simulator.JobsNeverBlocked | host.c:520-546 | in every state that occurs in any tree of hosts and switches, no host has an oldest job it cannot execute: everything queued for sending carries its own source id and a table-range destination |
| Simulator.TransfersAreDelivered | host.c:600-785 | in every run of a star in which only s sends files to d, the i-th END executed at d writes the name and exactly the first 1000 bytes of the i-th file s sent it, if a directory is set and the file opens, else nothing; the path is "./directory/name", byte for byte |
| Completion.TransfersComplete | host.c:600-785 | in every fair run of a star in which only s ever sends files to d, every transfer s has undertaken to d is eventually received to its END, and the i-th END delivers the i-th transfer |
| FileRequests.UploadsArrive | host.c:387-399 | in every fair run of a star in which only s sends files to d: a command of s to upload a file to d gets its job executed, and if a directory is set then and "./directory/name" opens, d executes an END that delivers the file, the one whose number is the number of transfers to d before |
| FileRequests.DownloadsArrive | host.c:401-422 | the same from a command to download: the request reaches the other host, whatever the switch knows, that host executes the upload, and an END here delivers the file |
| FileRequests.OnlyAskedSends | host.c:339-514 | in every fair run of a star: if no other host is ever commanded to upload to d, and d only to download from s, then only s ever sends files to d |
| FairRuns.NothingBlocks | host.c:339-546 | in every state that occurs in any tree: a host can execute a command if and only if it names no host or one of 0 to 99, it can always execute its oldest job, and a host or switch can read a port if and only if there is something to read |
| FairRuns.UploadCommand | host.c:387-399 | executing an upload command adds exactly the job for that destination and name and changes nothing else anywhere |
| FairRuns.EveryRunGoesOn | host.c:339-794 | every run of any tree with a host, whatever commands are executed in it, is the beginning of a fair run |
| Provenance.NothingUnasked | host.c:387-504 | in every state that occurs in any network: the upload jobs of a host, executed and then waiting, are exactly those asked for by its upload commands and by the download requests it has accepted, in order; its transfers are those of the executed ones that found a directory and the file |
| Provenance.RequestsAreCommanded | host.c:401-422 | in every run of a star: the download requests d has accepted from s are, in order, the first of those s has executed download commands for |
| Provenance.CommandsDecideSender | host.c:387-504 | in every run of a star: if no other host has executed a command to upload to d, and d's download commands all name s, then only s has sent files to d |
| Simulator.UninterruptedTransfers | host.c:600-785 | in every run of a star with any number of senders: if all file packets d accepts from a START of s to the first END after it come from s, that END delivers the transfer of s to d whose number is the number of ENDs accepted from s before |
| Simulator.PingsAreConserved | host.c:549-572 | ping requests s sent to d = requests on the two links + reply jobs at d + replies queued at d + replies on the two links + replies s accepted from d |
| LateReplies.AckTruthfulIfSettled | host.c:574-594 | in every state that occurs in a star, when s executes the command to ping d and all pings s has undertaken before, to any host, have been answered: "Ping acked!" will mean that d has answered this ping, in every interleaving up to the next ping command of s and so in loop order |
| LateReplies.AckTruthfulIffTimesOut | host.c:339-594 | in loop order, with a reply already waiting on the link to s: "Ping acked!" will mean that d has answered this ping, whatever happens while the manager waits, if and only if, whatever the disk does, the waiting job has timed out by the time s has read the packets in front of that reply |
| LateReplies.NearReplyMisleads | host.c:339-594 | it can be wrong if no more packets are in front of the reply than jobs were queued before the command and ten more |
| LateReplies.AckTruthfulIffFarBehind | host.c:339-594 | if neither the queued jobs nor the packets in front add jobs, it is true if and only if there are more: each job, the request and ten executions of the waiting job take one round |
| OldPings.OldPingMisleads | host.c:339-594 | in loop order, with an unanswered older ping of another host h, wherever it is: "Ping acked!" can be wrong if the packets that wait for s, those on their way to the switch and those h has yet to send (a ping request to h counting twice) are no more than the jobs queued before the command and eleven |
| OldPings.NothingToAsk | host.c:363-385 | in every state that occurs: a host that is not waiting for a reply has no ping request left in its queue |
| LateReports.LateReplyIsReported | host.c:461-465 | in every star there is a run from the start, in loop order, in which a host pings another one or itself and is told that the ping timed out, pings another host, and is told "Ping acked!" although that host has never replied |
| Acks.AckedByPinged | host.c:363-385 | if only pings of d itself may be outstanding when d is pinged, "Ping acked!" means that a reply of d was accepted since |
| Acks.OldReplyOfPinged | host.c:461-465 | so it does, whatever else is outstanding, if an old reply of d is next on the link to s |
| HostLogs.KeepsSends | host.c:175-201 | packets sent followed by those waiting in send jobs are always the packets undertaken, in order |
| HostLogs.KeepsFiles | host.c:443-514 | file packets accepted are always those executed followed by those waiting in jobs, in order |
| HostLogs.KeepsPings | host.c:456-465 | every accepted ping request is a waiting reply job or has had exactly one reply undertaken |
| HostLogs.EveryRun | host.c:339-794 | all of these, in every run of a host from its start, whatever commands and packets arrive and whatever the disk does |
| Histories.EveryHistory | host.c:339-794 | in every run of a host from its start: jobs executed followed by jobs waiting are exactly the jobs its commands, packets and earlier jobs have called for, in order, with packet types and ticks as numbers; so are the packets undertaken, sent and accepted, and the file packets processed, each with the directory commanded last |
| Histories.UploadsAreAsked | host.c:387-504 | in every run of a host: upload jobs executed followed by those waiting are those asked for by upload commands and accepted download requests, with the same destination and name, in order; transfers are those of executed upload jobs with a directory and a file that opens; each accepted ping request has one reply job, in order |
| Transfers.DestinationKeepsUnits | host.c:600-705 | picking out one destination's packets leaves a concatenation of whole START IN* END blocks and single packets |
| Transfers.SentFilesArePrefix | host.c:600-705 | the file packets a host has sent to d are a prefix of its transfers to d, whole and in order |
| Transfers.BufferHoldsFirst1000 | host.c:709-785 | after any sequence of START, IN and END jobs the buffer holds the first 1000 bytes collected since the last START or written-out END |
| Transfers.EveryEndDelivers | host.c:709-785 | for any processed prefix of a sequence of transfers, the i-th END belongs to the i-th transfer and delivers it |
| Transfers.EveryEndWrites | host.c:709-785 | in every run of a host, however the packets of several senders are mixed: an END writes, if a directory is set and the file opens, the file at "./", the directory, "/", the name of the last START, byte for byte, with the first 1000 bytes collected since the last START or written-out END; else nothing |
| Transfers.UninterruptedDelivers | host.c:709-785 | if the file packets accepted from one place to another are one whole transfer, its END delivers it, whatever came before |
| Transfers.OverlapMixes | host.c:709-785 | when a second sender's START comes between the first one's START and the rest of its file, that file is written under the second one's name |
| Hosts.PathsDiffer | host.c:760-762 | names in one directory, and names without a slash in any directories, have the same path only if directory and name are the same |
| Hosts.SourceMeans | host.c:603-607 | the file an upload job reads is the one at "./", the directory, "/", the name, byte for byte |
| Transfers.DownloadIsUploadByPeer | host.c:495-504 | accepting a download request makes the peer do exactly what a command to upload that file to the asking host would |
| Uploads.ChunksCoverFile | host.c:646-694 | the chunks concatenate to the file; every IN has 100 bytes, the END size mod 100; there are floor(size/100)+1 of them |
| Uploads.BlockOnWire | main.h:50-55 | on the wire a file is a packet of type 2 with its name, full ones of type 4 and a shorter one of type 3, carrying the file |
| Uploads.ChunksUnique | host.c:646-694 | any IN* END sequence carrying a file in full blocks is the one sent |
| Uploads.FileTailMayPileUp | host.c:646-694 | however the writes of the INs and END of a file are interleaved with reads, behind any unread full packets, the pipe always holds the encodings of the unread packets and the reads hand out exactly those written |
| Uploads.WholeTransferMayNotPileUp | host.c:614-637 | a whole transfer may not: its START is shorter than a read |
| Framing.PacketSend | packet.c:23-37 | appends exactly the header and payload to the pipe, or for a negative length down to -4 that much less of the header |
| Framing.PacketRecv | packet.c:97-114 | one read of up to 104 bytes of any pipe contents: what it consumes, when the length byte found keeps the copy inside the arrays, and which packet it then makes, of negative length and without payload if the byte is negative, bytes beyond those read being arbitrary |
| Framing.HeadDecodes | packet.c:97-114 | a read of a stream of packets decodes the oldest one and nothing else |
| Framing.ReadKeepsFraming | packet.c:97-98 | a read leaves the other packets intact exactly when the oldest fills the read or is alone |
| Framing.RefinesQueueIff | packet.c:24-32 | over a run of writes and reads, the pipe always holds the encodings of the unread packets if and only if every read finds the oldest packet full-size or alone |
| Framing.ReadsDecodeExactly | packet.c:98-108 | in such a run the reads hand out exactly the written packets in order, and no other outcome is possible |
| Framing.NeverBehindShortSuffices | packet.c:24-32 | a writer that never writes behind an unread packet shorter than 104 bytes makes every run such a run |
| Framing.PiledUp | packet.c:98-108 | packets that pile up unread come back one by one exactly when all but the last are full-size |
| Framing.BackToBackPingsMerge | packet.c:98-108 | two pings in a row are consumed by one read, which delivers the first only |
| Pipes.InStepIffDisciplined | packet.c:97-114 | over any run of the network: with byte pipes for links, and whatever the reads can hand out, tables, packets sent and accepted and the pipes are at every moment those of the network of message queues if and only if on every link every read finds the oldest packet full-size or alone |
| Pipes.NoLossOverPipes | packet.c:23-114 | so a star of byte pipes neither loses, duplicates nor reorders packets between two hosts in any such run, and what is unread is on the two pipes, encoded |
| FileBuffer.FileBuf.Add | host.c:89-100 | appends the longest prefix that fits in 1000 bytes and returns its length |
| FileBuffer.FileBuf.Remove | host.c:106-118 | returns and deletes the longest available prefix, up to the length asked for |
| FileBuffer.FileBuf.GetName | host.c:62-70 | copies out the stored name, zero-terminated |
| FileBuffer.FileBuf.Drain | host.c:770-780 | the write loop emits exactly the buffered bytes and leaves the buffer empty |
| FileBuffer.OfferAllIsPrefix | host.c:89-100 | however the bytes are cut into calls, the buffer keeps the first 1000 |
| JobQueues.JobQueue.Add | host.c:175-189 | appends to the queue, also when `tail` is left over from a removed job |
| JobQueues.JobQueue.Remove | host.c:192-201 | removes and returns the oldest job, or NULL exactly when the queue is empty; `tail` is not updated |
| JobQueues.FollowReachesEveryJob | host.c:175-214 | following `next` from the head visits the queue in order and ends in NULL after `occ` links |
| HostNodes.HostNode.ExecuteCommand | host.c:342-425 | reads at most one manager message, strips and scans it, executes the command it stands for as the state machine says, and writes the reply |
| HostNodes.HostNode.PollPorts | host.c:438-514 | reads at most one packet per port, in port order, and turns those addressed to the host into jobs |
| HostNodes.HostNode.SendFile | host.c:610-698 | the read loop queues START, the INs and END of the file, in order |
| HostNodes.HostNode.ReceiveEnd | host.c:738-785 | adds the last bytes, and writes the file and empties the buffer exactly when a directory is set and the file opens |
| HostNodes.HostNode.ExecuteJob | host.c:520-788 | executes the oldest job: new state, packet on all ports, manager reply and file |
| HostNodes.HostNode.Turn | host.c:339-794 | one turn of the main loop is one step of the state machine, with all its outputs |
| Refinement.TurnIsSteps | host.c:339-794 | the turn HostNode.Turn is proved to take is a list of steps of the interleaved system, a command, a Receive per port with something to read, a job: same new state, packets read and written on every port, replies and file, and nothing else changes |
| Refinement.ScanIsSteps | switch.c:211-256 | the pass over the ports SwitchNode.Turn is proved to make is a list of Forward steps of the network: same table, same packets read and written |
| Refinement.ForwardIsServePort | switch.c:213-256 | a forwarding step of the network is one visit of the switch process to that port |
| LoopRounds.RoundIsTurn | host.c:339-794 | from the top of its loop back to it, a host in loop order makes exactly the steps of the turn that HostNode.Turn is proved to take |
| LoopRounds.PassIsScan | switch.c:211-256 | a switch in loop order makes exactly the forwarding steps of the pass that SwitchNode.Turn is proved to make |
| SysLoops.ActsAreMoves | switch.c:211-256 | full hosts and switches in loop order are, for the network, processes in loop order |
| Switches.SwitchNode.Serve | switch.c:217-255 | one visit to a port: table, queues read and queues written |
| Switches.SwitchNode.Turn | switch.c:211-256 | one turn of the main loop visits every port once, in order |
| Switches.LearnsEverySource | switch.c:225-230 | a packet from any host 0 to 99 leaves the switch with an entry for it, the old one or else the port; no other entry changes |
| Switches.EntriesAreKept | switch.c:225-230 | no pass over the ports ever changes an entry |
| Pings.EveryTrail | host.c:574-594 | in every run of a host from its start: ping commands executed = answers written + waiting jobs; "Ping acked!" was written exactly when a reply had come in since the latest ping command; state replies gave the last directory set |
| Pings.WaitIsAnswered | host.c:574-594 | whatever arrives, a waiting job is answered after finitely many turns and at most as many executions as its timer says |
| Pings.PingIsAnswered | host.c:363-385 | every ping command leads to an answer: its waiting job is executed at the listed turns with 10, 9, ... ticks left, so at most ten times, and answers at the last |
| Pings.TurnOrder | host.c:339-794 | in a turn the command comes first, then the ports, then the job: a reply read in the turn of a ping command counts for it, its request goes out in that turn, and a ping request read in a turn has its reply queued in it |
| Manager.OneQuestionAtATime | man.c:164-184 | at most one question is outstanding in the whole system: a command, a waiting job or an unread reply at the host the manager waits for |
| Manager.ReplyFitsQuestion | man.c:117-138 | the reply the manager reads is of the kind it asked for, and a state reply comes from the host asked |
| Questions.NothingLostBetween | man.c:117-242 | in every run of the manager and its hosts: the commands issued to a host are those it has executed followed by those on their way, as issued and in order; the replies it has written are those read followed by those on their way |
| Questions.AnswerIsToQuestion | man.c:173-184 | whenever the manager reads a reply, the host has executed all that was issued to it, and the reply is to the last command: a state reply gives the directory last set by a command to that host; an answer to a ping comes from its waiting job and says whether a ping reply was accepted since that very command; the ping requests undertaken go where the commands issued said |
| Questions.NeverStuck | man.c:164-184 | in every run: a manager that does not wait can issue any command to any host, and one that waits gets its answer once that host has executed enough of its own commands and jobs |
| Commands.GetManCommand | host.c:125-144 | strips a command in place to its letter and zero-terminated argument |
| Commands.CommandRoundTrip | man.c:213-214 | every formatted command parses back to itself, for all ids and all blank-free names |
| Commands.FormattedIsUnderstood | man.c:236-237 | every command the manager formats, if it fits the buffers, satisfies what the host process requires of its messages |
| CommandTexts.FormatMeans | man.c:125-236 | a text is what the manager writes for a command if and only if it is 's'; or 'm', a blank and the directory; or 'p', a blank and the id; or 'u' or 'd', a blank, the id, a blank and the name |
| CommandTexts.DecimalMeans | man.c:173 | the id is written as the one text of digits '0' to '9', '-' first if negative and no leading zero, whose sum by powers of ten is the id |
| CommandTexts.NumberMeans | host.c:365 | sscanf's "%d" finds n and leaves a rest if and only if the text is white space, an optional '-', digits that add up to n, and that rest, which starts with no digit |
| CommandTexts.WordMeans | host.c:388 | "%s" finds a word if and only if it is the first one of the text |
| CommandTexts.ParseMeans | host.c:125-422 | whatever blanks are before and after the letter: a host executes a command if and only if the letter is its letter and the argument, up to a zero byte, spells its number and word |
| CommandTexts.UnderstoodMeans | host.c:342-422 | the messages the host process can be given are exactly those of at most 998 bytes whose argument spells what 'p', 'u' or 'd' asks for, names of at most 99 bytes |
| CommandTexts.ComesBackIff | man.c:148-236 | a formatted command is parsed back if and only if its file name is one word without zero bytes, or its directory does not start with a blank and has no zero bytes |
| CommandTexts.StateIsRead | man.c:134 | the manager reads a state reply right if and only if the directory is one word; without a directory it reads "None" |
| CommandTexts.SameStateText | host.c:151-167 | different states have different texts, but for a directory called "None" and no directory |
| Ports.NetGlobals.CreatePortList | net.c:420-457 | builds the global list with its cross-wired pipes, in place |
| Ports.NetGlobals.GetPortList | net.c:150-173 | relinks exactly the node's ports into a reversed list and keeps the rest in order |
| Ports.PortsInFileOrder | net.c:150-173 | building and extracting cancel out: a node's ports are in configuration-file order |
| Ports.Wiring | net.c:435-451 | every pipe port has one peer reading what it writes and writing what it reads; no other port shares the pipes; the peer's peer is the port |
| Ports.NodeListsPartition | net.c:160-170 | a port is in exactly the list of its own node |
| Ports.ExtractionsCommute | net.c:160-172 | taking out another node's ports first makes no difference |
| Configuration.ConfigurationsAreWellFormed | net.c:420-457 | links between different pairs of nodes give distinct ports to distinct neighbours, usable both ways |
| Configuration.StarConfigurations | switch.config:1-11 | a configuration of one switch with a link to every host is a star |
| Configuration.SwitchConfigIsStar | switch.config:1-11 | the links of switch.config describe a star, and so a tree, of hosts 0, 1, 3 and 4 round switch 2 |

## Left out

- Socket links and their set-up (packet.c:40-88, host.c:289-333, switch.c:156-205): operating system calls; a socket port appears only in the port lists.
- Reading and displaying the configuration file, the node list, closing and freeing file descriptors (net.c): plumbing.
- main.c (forking, killing), sleeps and real time: replaced by arbitrary interleaving.
- The pipes from the manager to the hosts in the whole simulator (they are part of `Manager` only): a host looking for a command finds any or none.
- Manager menus and prompts, and messages that sscanf cannot parse (the C variables then keep old values): `Commands.Parse` returns None, and the host process excludes them.
- The file system: which files there are, with what bytes, and whether one opens for writing, are arbitrary parameters of each job; a file written is not found again by a later job.
- Logging, malloc failure and memory reclamation.
- Numbers in commands beyond the range of a C int: what sscanf does with them is not defined; the model reads them as they stand.
- The switch's own job queue (switch.c:258-261): nothing is ever put into it. Its functions repeat the host's.
- tests/server.c and tests/client.c: separate socket demos.
- An end of flooding with several switches: the code does not provide it. How often a packet is delivered is settled exactly (`Copies`, `AtMostOnce`).
- When transfers of several senders overlap: that depends on the senders; what then happens is settled END by END (`Transfers.EveryEndWrites`).
- OldPings.OldPingMisleads: one direction only, and not for an older ping of itself; how much traffic it takes for an outstanding reply to come too late depends on the order in which all other processes move.
- Framing.PacketRecv: when the length byte found is above 100 the C code leaves its arrays; the model says when that happens and leaves the packet alone.
- Framing.PacketSend: not modelled for a length below -4, where the C code passes a negative count to write.
