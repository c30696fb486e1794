/** The Checkpointer as the program keeps it: handlers that update its fields and snapshot array, and its loop.
    Packets sent are returned in the order of their sends. */
module SnapshotInPlace {
  import opened Snapshot

  predicate FromNode(p: Packet, n: nat) { p.Response? ==> p.sender < n }

  /** recv's dispatch on the tag of the message. */
  function Received(node: Node, p: Packet): (Node, seq<Packet>)
    requires FromNode(p, |node.snapshot|)
  {
    match p
    case Request(_, caller, cn) => var r := HandleRequest(node, caller, cn); (r.0, [r.1])
    case Response(_, sender, cn, value) => (HandleResponse(node, sender, Checkpoint(cn, value)), [])
  }

  /** The head of run's loop, for a node that has iterations left. */
  function LoopHead(node: Node): (Node, seq<Packet>)
    requires 0 < node.nbNodes
  {
    if node.id == 0 && !node.inProgress then (TakeSnapshot(node), Multicast(node)) else (node, [])
  }

  /** One turn of the loop. */
  function Turn(node: Node, p: Packet): (r: (Node, seq<Packet>))
    requires 0 < node.nbNodes == |node.snapshot| && FromNode(p, node.nbNodes)
    ensures r.0.nbNodes == node.nbNodes == |r.0.snapshot|
  {
    var head := LoopHead(node);
    var r := Received(head.0, p);
    (r.0, head.1 + r.1)
  }

  /** run, for the messages it receives: it ends when the node's iterations do, or blocks when they run out. */
  function Loop(node: Node, inbox: seq<Packet>): (Node, seq<Packet>)
    requires 0 < node.nbNodes == |node.snapshot|
    requires forall k :: 0 <= k < |inbox| ==> FromNode(inbox[k], node.nbNodes)
    decreases |inbox|
  {
    if node.iter >= node.nbIter then (node, [])
    else
      if inbox == [] then LoopHead(node)
      else
        var turn := Turn(node, inbox[0]);
        var rest := Loop(turn.0, inbox[1..]);
        (rest.0, turn.1 + rest.1)
  }

  class Checkpointer {
    const nid: nat
    const nbNodes: nat
    const nbIter: nat
    const awaitedResponsesMask: set<int>
    const snapshot: array<Checkpoint>
    var iter: nat
    var snapshotInProgress: bool
    var awaitedResponses: set<int>
    var chkpt: Checkpoint

    function View(): Node
      reads this, snapshot
    {
      Node(nid, nbNodes, nbIter, iter, snapshotInProgress, awaitedResponses, awaitedResponsesMask, chkpt,
           snapshot[..])
    }

    predicate Valid()
      reads this
    {
      nid < nbNodes == snapshot.Length
    }

    constructor (nodeId: nat, nbNodes: nat, nbIter: nat, garbage: set<int>)
      requires nodeId < nbNodes
      ensures Valid() && fresh(snapshot)
      ensures View() == Created(nodeId, nbNodes, nbIter, Checkpoint(0, nodeId), garbage)
    {
      var mask: set<int> := {};
      for i := 0 to nbNodes
        invariant mask == MaskBelow(nodeId, i)
      {
        if i != nodeId {
          mask := mask + NodeBits(i);
        }
      }
      var entries := new Checkpoint[nbNodes];
      for i := 0 to nbNodes
        invariant forall k :: 0 <= k < i ==> entries[k] == Checkpoint(0, 0)
      {
        entries[i] := Checkpoint(0, 0);
      }
      nid, this.nbNodes, this.nbIter, awaitedResponsesMask, snapshot := nodeId, nbNodes, nbIter, mask, entries;
      iter, snapshotInProgress, awaitedResponses, chkpt := 0, false, garbage, Checkpoint(0, nodeId);
    }

    method TakeOwnCheckpoint(cn: nat)
      requires Valid()
      modifies this`chkpt
      ensures Valid() && View() == TakeCheckpoint(old(View()), cn)
    {
      chkpt := Checkpoint(cn, nid);
    }

    method OnRequest(caller: nat, requestedCn: nat) returns (response: Packet)
      requires Valid()
      modifies this`chkpt
      ensures Valid() && (View(), response) == HandleRequest(old(View()), caller, requestedCn)
    {
      if requestedCn > chkpt.cn {
        TakeOwnCheckpoint(requestedCn);
      }
      response := Response(caller, nid, chkpt.cn, chkpt.value);
    }

    method OnResponse(sender: nat, answer: Checkpoint)
      requires Valid() && sender < nbNodes
      modifies this, snapshot
      ensures Valid() && View() == HandleResponse(old(View()), sender, answer)
      ensures !old(snapshotInProgress) ==> View() == old(View())
    {
      if !snapshotInProgress {
        return;
      }
      snapshot[sender] := answer;
      awaitedResponses := awaitedResponses - NodeBits(sender);
      if awaitedResponses == {} {
        snapshotInProgress := false;
        iter := iter + 1;
      }
    }

    method StartSnapshot() returns (requests: seq<Packet>)
      requires Valid()
      modifies this`snapshotInProgress, this`awaitedResponses
      ensures Valid() && View() == TakeSnapshot(old(View())) && requests == Multicast(old(View()))
      ensures |requests| == nbNodes - 1
      ensures forall k :: 0 <= k < |requests| ==> requests[k] == Request(k + 1, nid, chkpt.cn)
    {
      snapshotInProgress := true;
      awaitedResponses := awaitedResponsesMask;
      requests := [];
      for i := 1 to nbNodes
        invariant requests == Multicast(old(View()))[..i - 1]
      {
        requests := requests + [Request(i, nid, chkpt.cn)];
      }
    }

    method Receive(p: Packet) returns (sent: seq<Packet>)
      requires Valid() && FromNode(p, nbNodes)
      modifies this, snapshot
      ensures Valid() && (View(), sent) == Received(old(View()), p)
    {
      match p
      case Request(_, caller, cn) =>
        var response := OnRequest(caller, cn);
        sent := [response];
      case Response(_, sender, cn, value) =>
        OnResponse(sender, Checkpoint(cn, value));
        sent := [];
    }

    method TakeTurnHead() returns (sent: seq<Packet>)
      requires Valid()
      modifies this`snapshotInProgress, this`awaitedResponses
      ensures Valid() && (View(), sent) == LoopHead(old(View()))
    {
      sent := [];
      if nid == 0 && !snapshotInProgress {
        sent := StartSnapshot();
      }
    }

    method TakeTurn(p: Packet) returns (sent: seq<Packet>)
      requires Valid() && FromNode(p, nbNodes)
      modifies this, snapshot
      ensures Valid() && (View(), sent) == Turn(old(View()), p)
    {
      sent := TakeTurnHead();
      var more := Receive(p);
      sent := sent + more;
    }

    method Run(inbox: seq<Packet>) returns (sent: seq<Packet>)
      requires Valid() && forall k :: 0 <= k < |inbox| ==> FromNode(inbox[k], nbNodes)
      modifies this, snapshot
      ensures Valid() && (View(), sent) == Loop(old(View()), inbox)
    {
      ghost var whole := Loop(View(), inbox);
      var k := 0;
      sent := [];
      assert inbox[0..] == inbox;
      while iter < nbIter
        invariant Valid() && k <= |inbox|
        invariant whole.0 == Loop(View(), inbox[k..]).0
        invariant whole.1 == sent + Loop(View(), inbox[k..]).1
        decreases |inbox| - k
      {
        if k == |inbox| {
          var last := TakeTurnHead();
          sent := sent + last;
          return;
        }
        assert inbox[k..][1..] == inbox[k + 1..];
        var more := TakeTurn(inbox[k]);
        sent := sent + more;
        k := k + 1;
      }
      assert sent + [] == sent;
    }
  }
}
