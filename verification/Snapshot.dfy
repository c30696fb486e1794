/** The Checkpointer of checkpointing/src as a value, its handlers as functions, and a set of nodes exchanging
    messages over a network that may deliver them in any order. */
module Snapshot {
  import opened IntBits

  datatype Checkpoint = Checkpoint(cn: nat, value: nat)

  /** Checkpoint_request and Checkpoint_response, with the node they are sent to. */
  datatype Packet =
    | Request(dest: nat, caller: nat, cn: nat)
    | Response(dest: nat, sender: nat, cn: nat, value: nat)

  /** The fields of class Checkpointer. */
  datatype Node = Node(
    id: nat,
    nbNodes: nat,
    nbIter: nat,
    iter: nat,
    inProgress: bool,
    awaited: set<int>,
    mask: set<int>,
    chkpt: Checkpoint,
    snapshot: seq<Checkpoint>)

  /** 1 << i in a uint64_t. Both the mask and the clearing of a response's bit use it. */
  function NodeBits(i: nat): set<int> { SignExtended(IntShift(i)) }

  /** The constructor's mask, over the nodes below i. */
  function MaskBelow(id: nat, i: nat): set<int> {
    if i == 0 then {}
    else if i - 1 != id then MaskBelow(id, i - 1) + NodeBits(i - 1)
    else MaskBelow(id, i - 1)
  }

  lemma {:induction false} MaskIff(id: nat, n: nat, k: int)
    ensures k in MaskBelow(id, n) <==> exists i: nat :: i < n && i != id && k in NodeBits(i)
  {
    if n > 0 {
      MaskIff(id, n - 1, k);
      if k in MaskBelow(id, n) && k !in MaskBelow(id, n - 1) {
        assert n - 1 != id && k in NodeBits(n - 1);
      }
    }
  }

  /** The constructor. awaited_responses is not initialised: it holds anything. */
  function Created(id: nat, n: nat, nbIter: nat, chkpt: Checkpoint, garbage: set<int>): Node {
    Node(id, n, nbIter, 0, false, garbage, MaskBelow(id, n), chkpt, seq(n, _ => Checkpoint(0, 0)))
  }

  /** take_checkpoint. */
  function TakeCheckpoint(node: Node, cn: nat): Node { node.(chkpt := Checkpoint(cn, node.id)) }

  /** handle(Checkpoint_request): the node afterwards and its answer. */
  function HandleRequest(node: Node, caller: nat, cn: nat): (Node, Packet) {
    var after := if cn > node.chkpt.cn then TakeCheckpoint(node, cn) else node;
    (after, Response(caller, node.id, after.chkpt.cn, after.chkpt.value))
  }

  /** A request that is not newer than the node's checkpoint changes nothing, and is answered with it. */
  lemma OldRequestChangesNothing(node: Node, caller: nat, cn: nat)
    requires cn <= node.chkpt.cn
    ensures HandleRequest(node, caller, cn)
         == (node, Response(caller, node.id, node.chkpt.cn, node.chkpt.value))
  {
  }

  /** handle(Checkpoint_response). */
  function HandleResponse(node: Node, sender: nat, answer: Checkpoint): Node
    requires sender < |node.snapshot|
  {
    if !node.inProgress then node
    else
      var rest := node.awaited - NodeBits(sender);
      node.(snapshot := node.snapshot[sender := answer],
            awaited := rest,
            inProgress := rest != {},
            iter := if rest == {} then node.iter + 1 else node.iter)
  }

  /** Outside a snapshot a response changes nothing. */
  lemma LateResponseChangesNothing(node: Node, sender: nat, answer: Checkpoint)
    requires sender < |node.snapshot| && !node.inProgress
    ensures HandleResponse(node, sender, answer) == node
  {
  }

  /** take_snapshot, and the multicast of node 0: one request to every other node. */
  function TakeSnapshot(node: Node): Node { node.(inProgress := true, awaited := node.mask) }

  function Multicast(node: Node): seq<Packet>
    requires 0 < node.nbNodes
  {
    seq(node.nbNodes - 1, k requires 0 <= k => Request(k + 1, node.id, node.chkpt.cn))
  }

  // ----- The system -----

  datatype State = State(nodes: seq<Node>, net: multiset<Packet>)

  /** StartSnapshot is the head of node 0's loop; Deliver is recv at the packet's destination. */
  datatype Action = StartSnapshot | Deliver(p: Packet)

  predicate Shape(s: State) {
    && 0 < |s.nodes|
    && (forall i :: 0 <= i < |s.nodes| ==> s.nodes[i].id == i && s.nodes[i].nbNodes == |s.nodes|)
    && (forall i :: 0 <= i < |s.nodes| ==> |s.nodes[i].snapshot| == |s.nodes|)
    && (forall p :: p in s.net ==> p.dest < |s.nodes| && (p.Response? ==> p.sender < |s.nodes|)
                                   && (p.Request? ==> p.caller < |s.nodes|))
  }

  /** A node's loop runs until iter reaches nb_iter; node 0 calls recv with a snapshot in progress only. */
  predicate Receiving(node: Node) {
    node.iter < node.nbIter && (node.id == 0 ==> node.inProgress)
  }

  predicate Enabled(s: State, a: Action)
    requires Shape(s)
  {
    match a
    case StartSnapshot => s.nodes[0].iter < s.nodes[0].nbIter && !s.nodes[0].inProgress
    case Deliver(p) => p in s.net && Receiving(s.nodes[p.dest])
  }

  function Step(s: State, a: Action): State
    requires Shape(s)
  {
    if !Enabled(s, a) then s
    else
      match a
      case StartSnapshot =>
        State(s.nodes[0 := TakeSnapshot(s.nodes[0])], s.net + multiset(Multicast(s.nodes[0])))
      case Deliver(Request(dest, caller, cn)) =>
        var r := HandleRequest(s.nodes[dest], caller, cn);
        State(s.nodes[dest := r.0], s.net - multiset{a.p} + multiset{r.1})
      case Deliver(Response(dest, sender, cn, value)) =>
        State(s.nodes[dest := HandleResponse(s.nodes[dest], sender, Checkpoint(cn, value))], s.net - multiset{a.p})
  }

  lemma StartKeepsShape(s: State)
    requires Shape(s)
    ensures Shape(Step(s, StartSnapshot)) && |Step(s, StartSnapshot).nodes| == |s.nodes|
  {
    forall p | p in Step(s, StartSnapshot).net
      ensures p in s.net || (p.Request? && p.dest < |s.nodes| && p.caller < |s.nodes|)
    {
      if p !in s.net {
        assert p in Multicast(s.nodes[0]);
      }
    }
  }

  lemma StepKeepsShape(s: State, a: Action)
    requires Shape(s)
    ensures Shape(Step(s, a)) && |Step(s, a).nodes| == |s.nodes|
  {
    if a.StartSnapshot? {
      StartKeepsShape(s);
    }
  }

  /** What an observer records: snapshots started, messages delivered, requests each node answered, responses
      of each node handled, and the contents of every completed snapshot. */
  datatype History = History(
    started: nat,
    deliveries: nat,
    answered: seq<nat>,
    received: seq<nat>,
    taken: seq<seq<Checkpoint>>)

  predicate HistoryShape(s: State, h: History) { |h.answered| == |h.received| == |s.nodes| }

  function Track(h: History, s: State, a: Action): History
    requires Shape(s) && HistoryShape(s, h)
  {
    if !Enabled(s, a) then h
    else
      match a
      case StartSnapshot => h.(started := h.started + 1)
      case Deliver(Request(dest, caller, cn)) =>
        h.(deliveries := h.deliveries + 1, answered := h.answered[dest := h.answered[dest] + 1])
      case Deliver(Response(dest, sender, cn, value)) =>
        var before, after := s.nodes[dest], HandleResponse(s.nodes[dest], sender, Checkpoint(cn, value));
        h.(deliveries := h.deliveries + 1,
           received := h.received[sender := h.received[sender] + 1],
           taken := if after.iter > before.iter then h.taken + [after.snapshot] else h.taken)
  }

  /** Any interleaving; a step that is not enabled changes nothing. */
  function Run(s: State, h: History, schedule: seq<Action>): (r: (State, History))
    requires Shape(s) && HistoryShape(s, h)
    ensures Shape(r.0) && HistoryShape(r.0, r.1) && |r.0.nodes| == |s.nodes|
    decreases |schedule|
  {
    if schedule == [] then (s, h)
    else
      StepKeepsShape(s, schedule[0]);
      Run(Step(s, schedule[0]), Track(h, s, schedule[0]), schedule[1..])
  }

  /** The processes before their first step: n nodes with their checkpoint numbers. The constructor makes every
      number 0; the promises below hold for all of them. */
  datatype Setup = Setup(nbIter: nat, cns: seq<nat>, garbage: seq<set<int>>)

  predicate Proper(u: Setup) { 0 < |u.cns| == |u.garbage| }

  function Boot(u: Setup): (s: State)
    requires Proper(u)
    ensures Shape(s) && |s.nodes| == |u.cns|
  {
    State(
      seq(|u.cns|, i requires 0 <= i < |u.cns| =>
        Created(i, |u.cns|, u.nbIter, Checkpoint(u.cns[i], i), u.garbage[i])),
      multiset{})
  }

  function NoHistory(n: nat): History { History(0, 0, seq(n, _ => 0), seq(n, _ => 0), []) }

  function After(u: Setup, schedule: seq<Action>): (r: (State, History))
    requires Proper(u)
    ensures Shape(r.0) && HistoryShape(r.0, r.1) && |r.0.nodes| == |u.cns|
  {
    Run(Boot(u), NoHistory(|u.cns|), schedule)
  }
}
