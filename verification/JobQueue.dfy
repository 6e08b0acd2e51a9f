// The heap-linked job queue of host.c (switch.c holds a second copy of the same code).
module JobQueues {
  import opened Types

  class JobNode<T> {
    var job: T
    var next: JobNode?<T>

    constructor (job: T)
      ensures this.job == job
    {
      this.job := job;
      next := null;
    }
  }

  class JobQueue<T> {
    var head: JobNode?<T>
    var tail: JobNode?<T>
    var occ: int
    ghost var nodes: seq<JobNode<T>>

    ghost function NodeAt(i: nat): JobNode?<T>
      reads this
    {
      if i < |nodes| then nodes[i] else null
    }

    // The list from `head` is finite, acyclic, `occ` long and ends in null. `tail` is only
    // meaningful while the queue is non-empty: job_q_remove leaves it behind when the last
    // job goes.
    ghost predicate Valid()
      reads this, nodes
    {
      && occ == |nodes|
      && Distinct(nodes)
      && head == (if nodes == [] then null else nodes[0])
      && (nodes != [] ==> tail == nodes[|nodes| - 1])
      && (forall i {:trigger nodes[i].next} :: 0 <= i < |nodes| ==> nodes[i].next == NodeAt(i + 1))
    }

    // The queued jobs in FIFO order.
    ghost function Contents(): (s: seq<T>)
      reads this, nodes
      ensures |s| == |nodes|
      ensures forall i :: 0 <= i < |nodes| ==> s[i] == nodes[i].job
    {
      seq(|nodes|, i requires 0 <= i < |nodes| reads this, nodes => nodes[i].job)
    }

    // job_q_init
    constructor ()
      ensures Valid() && nodes == [] && Contents() == []
    {
      occ := 0;
      head := null;
      tail := null;
      nodes := [];
    }

    // job_q_add: appends, whatever `tail` points to when the queue is empty.
    method Add(j: JobNode<T>)
      requires Valid() && j !in nodes
      modifies this, j`next, nodes
      ensures Valid()
      ensures nodes == old(nodes) + [j]
      ensures forall n :: n in nodes ==> n.job == old(n.job)
      ensures Contents() == old(Contents()) + [j.job]
    {
      if head == null {
        j.next := null;
        head := j;
        tail := j;
        occ := 1;
      } else {
        tail.next := j;
        j.next := null;
        tail := j;
        occ := occ + 1;
      }
      nodes := nodes + [j];
    }

    // job_q_remove: unlinks the oldest job. `tail` is not touched, not even when the queue
    // becomes empty, and the removed node keeps its own `next`.
    method Remove() returns (j: JobNode?<T>)
      requires Valid()
      modifies this`head, this`occ, this`nodes
      ensures Valid() && tail == old(tail)
      ensures old(nodes) == [] ==> j == null && nodes == []
      ensures old(nodes) != [] ==>
                && j == old(nodes)[0] && nodes == old(nodes)[1..] && j !in nodes
                && j.job == old(Contents())[0] && Contents() == old(Contents())[1..]
    {
      if occ == 0 {
        return null;
      }
      j := head;
      head := head.next;
      occ := occ - 1;
      nodes := nodes[1..];
      assert forall i :: 0 <= i < |nodes| ==> nodes[i] == old(nodes)[i + 1] && NodeAt(i + 1) == old(NodeAt(i + 2));
    }

    // job_q_num
    method Num() returns (n: int)
      requires Valid()
      ensures n == |Contents()|
    {
      n := occ;
    }
  }

  // The list reached by following `next` from the head is exactly the queue: after `i` links
  // one stands on the i-th node, and after `occ` links on null.
  ghost function Follow<T>(n: JobNode?<T>, steps: nat, nodes: seq<JobNode<T>>): JobNode?<T>
    reads nodes
  {
    if n == null || n !in nodes || steps == 0 then n else Follow(n.next, steps - 1, nodes)
  }

  lemma {:induction false} FollowReachesEveryJob<T>(q: JobQueue<T>, from: nat, steps: nat)
    requires q.Valid() && from + steps <= |q.nodes|
    ensures Follow(q.NodeAt(from), steps, q.nodes) == q.NodeAt(from + steps)
    decreases steps
  {
    if steps > 0 {
      FollowReachesEveryJob(q, from + 1, steps - 1);
    }
  }
}
