// A node's end of a link, message by message, and sending on all of them.
module Endpoints {
  import opened Types

  class NetPort {
    var unread: seq<Packet>
    var written: seq<Packet>
  }

  ghost function Unread(ports: seq<NetPort>): (r: seq<seq<Packet>>)
    reads ports`unread
    ensures |r| == |ports| && forall k :: 0 <= k < |ports| ==> r[k] == ports[k].unread
  {
    if ports == [] then [] else [ports[0].unread] + Unread(ports[1..])
  }

  ghost function Written(ports: seq<NetPort>): (r: seq<seq<Packet>>)
    reads ports`written
    ensures |r| == |ports| && forall k :: 0 <= k < |ports| ==> r[k] == ports[k].written
  {
    if ports == [] then [] else [ports[0].written] + Written(ports[1..])
  }

  // packet_recv on one port that has something to read.
  method ReadPort(ports: seq<NetPort>, k: nat) returns (p: Packet)
    requires Distinct(ports) && k < |ports| && ports[k].unread != []
    modifies ports`unread
    ensures p == old(Unread(ports))[k][0]
    ensures Unread(ports) == old(Unread(ports))[k := old(Unread(ports))[k][1..]]
  {
    assert forall i :: 0 <= i < |ports| && i != k ==> ports[i] != ports[k];
    p := ports[k].unread[0];
    ports[k].unread := ports[k].unread[1..];
  }

  // packet_send on every port in turn.
  method SendOnAll(ports: seq<NetPort>, p: Packet)
    requires Distinct(ports)
    modifies ports`written
    ensures forall k :: 0 <= k < |ports| ==> ports[k].written == old(ports[k].written) + [p]
  {
    for i := 0 to |ports|
      invariant forall k :: 0 <= k < i ==> ports[k].written == old(ports[k].written) + [p]
      invariant forall k :: i <= k < |ports| ==> ports[k].written == old(ports[k].written)
    {
      assert forall k :: 0 <= k < |ports| && k != i ==> ports[k] != ports[i];
      ports[i].written := ports[i].written + [p];
    }
  }
}
