/** The loop of a Checkpointer and the system of all of them: one turn of the loop is one or two steps of the system,
    and in every run of the system each node does what its loop does with the messages delivered to it. */
module SnapshotLoop {
  import opened Snapshot
  import opened SnapshotInPlace

  // ----- A turn -----

  /** The system after the head of node i's loop. */
  function HeadStep(s: State, i: nat): State
    requires Shape(s)
  {
    if i == 0 then Step(s, StartSnapshot) else s
  }

  lemma HeadIsStep(s: State, i: nat)
    requires Shape(s) && i < |s.nodes| && s.nodes[i].iter < s.nodes[i].nbIter
    ensures var head := LoopHead(s.nodes[i]);
      HeadStep(s, i) == State(s.nodes[i := head.0], s.net + multiset(head.1))
  {
    assert s.nodes[i := s.nodes[i]] == s.nodes;
  }

  /** recv of a message in the network. */
  lemma RecvIsStep(s: State, i: nat, p: Packet)
    requires Shape(s) && i < |s.nodes| && p.dest == i && Enabled(s, Deliver(p))
    ensures var r := Received(s.nodes[i], p);
      Step(s, Deliver(p)) == State(s.nodes[i := r.0], s.net - multiset{p} + multiset(r.1))
  {
  }

  lemma HeadKeeps(s: State, i: nat, p: Packet)
    requires Shape(s) && i < |s.nodes| && s.nodes[i].iter < s.nodes[i].nbIter && p in s.net && p.dest == i
    ensures Shape(HeadStep(s, i)) && i < |HeadStep(s, i).nodes| && Enabled(HeadStep(s, i), Deliver(p))
    ensures HeadStep(s, i).nodes[i] == LoopHead(s.nodes[i]).0
  {
    StepKeepsShape(s, StartSnapshot);
    HeadIsStep(s, i);
  }

  lemma NetOfTurn(net: multiset<Packet>, p: Packet, head: seq<Packet>, more: seq<Packet>)
    requires p in net
    ensures (net + multiset(head)) - multiset{p} + multiset(more) == net - multiset{p} + multiset(head + more)
  {
  }

  /** For a message in the network addressed to node i: its head and recv are steps of the system, and the network
      loses that message and gains what the turn sends. */
  lemma TurnIsSteps(s: State, i: nat, p: Packet)
    requires Shape(s) && i < |s.nodes| && s.nodes[i].iter < s.nodes[i].nbIter && p in s.net && p.dest == i
    ensures Shape(HeadStep(s, i)) && Enabled(HeadStep(s, i), Deliver(p))
    ensures var turn := Turn(s.nodes[i], p);
      Step(HeadStep(s, i), Deliver(p)) == State(s.nodes[i := turn.0], s.net - multiset{p} + multiset(turn.1))
  {
    var head := LoopHead(s.nodes[i]);
    HeadKeeps(s, i, p);
    HeadIsStep(s, i);
    RecvIsStep(HeadStep(s, i), i, p);
    var r := Received(head.0, p);
    assert s.nodes[i := head.0][i := r.0] == s.nodes[i := r.0];
    NetOfTurn(s.net, p, head.1, r.1);
  }

  // ----- Runs -----

  /** The messages delivered to node i in a run, in the order of their delivery. */
  function Inbox(s: State, schedule: seq<Action>, i: nat): seq<Packet>
    requires Shape(s)
    decreases |schedule|
  {
    if schedule == [] then []
    else
      var a := schedule[0];
      StepKeepsShape(s, a);
      (if a.Deliver? && a.p.dest == i && Enabled(s, a) then [a.p] else []) + Inbox(Step(s, a), schedule[1..], i)
  }

  /** What the steps of node i add to the network, in order. */
  function SentBy(s: State, schedule: seq<Action>, i: nat): seq<Packet>
    requires Shape(s)
    decreases |schedule|
  {
    if schedule == [] then []
    else
      var a := schedule[0];
      StepKeepsShape(s, a);
      SentAt(s, a, i) + SentBy(Step(s, a), schedule[1..], i)
  }

  function SentAt(s: State, a: Action, i: nat): seq<Packet>
    requires Shape(s)
  {
    if !Enabled(s, a) then []
    else if a.StartSnapshot? then (if i == 0 then Multicast(s.nodes[0]) else [])
    else if a.p.dest == i && a.p.Request? then [HandleRequest(s.nodes[i], a.p.caller, a.p.cn).1]
    else []
  }

  /** SentAt is what a step puts into the network, and its node is the only one that moves. */
  lemma SentIsAdded(s: State, a: Action)
    requires Shape(s) && Enabled(s, a)
    ensures var i := if a.StartSnapshot? then 0 else a.p.dest;
      && Step(s, a).net
         == s.net - (if a.StartSnapshot? then multiset{} else multiset{a.p}) + multiset(SentAt(s, a, i))
      && forall j :: 0 <= j < |s.nodes| && j != i ==> Step(s, a).nodes[j] == s.nodes[j] && SentAt(s, a, j) == []
  {
  }

  /** A node about to receive: at node 0, the snapshot that the head of the loop starts has been started. */
  function AtRecv(node: Node): (Node, seq<Packet>)
    requires 0 < node.nbNodes
  {
    if node.iter < node.nbIter then LoopHead(node) else (node, [])
  }

  predicate InboxOk(inbox: seq<Packet>, n: nat) { forall k :: 0 <= k < |inbox| ==> FromNode(inbox[k], n) }

  lemma {:induction false} InboxIsOk(s: State, schedule: seq<Action>, i: nat)
    requires Shape(s)
    ensures InboxOk(Inbox(s, schedule, i), |s.nodes|)
    decreases |schedule|
  {
    if schedule != [] {
      StepKeepsShape(s, schedule[0]);
      InboxIsOk(Step(s, schedule[0]), schedule[1..], i);
    }
  }

  /** The head of a turn has nothing left to do after itself. */
  lemma HeadOnce(node: Node)
    requires 0 < node.nbNodes
    ensures LoopHead(LoopHead(node).0) == (LoopHead(node).0, [])
    ensures LoopHead(node).0.nbNodes == node.nbNodes && LoopHead(node).0.snapshot == node.snapshot
    ensures LoopHead(node).0.iter == node.iter && LoopHead(node).0.nbIter == node.nbIter
  {
  }

  /** The loop from the head's outcome on. */
  lemma LoopFromHead(node: Node, inbox: seq<Packet>)
    requires 0 < node.nbNodes == |node.snapshot| && InboxOk(inbox, node.nbNodes) && node.iter < node.nbIter
    ensures 0 < LoopHead(node).0.nbNodes == |LoopHead(node).0.snapshot| == node.nbNodes
    ensures Loop(node, inbox).0 == Loop(LoopHead(node).0, inbox).0
    ensures Loop(node, inbox).1 == LoopHead(node).1 + Loop(LoopHead(node).0, inbox).1
  {
    HeadOnce(node);
    var (head, sent) := LoopHead(node);
    if inbox == [] {
      assert sent + [] == sent;
    } else {
      TurnFromHead(node, inbox[0]);
      var rest := Loop(Turn(node, inbox[0]).0, inbox[1..]).1;
      assert (sent + Turn(head, inbox[0]).1) + rest == sent + (Turn(head, inbox[0]).1 + rest);
    }
  }

  lemma TurnFromHead(node: Node, p: Packet)
    requires 0 < node.nbNodes == |node.snapshot| && FromNode(p, node.nbNodes)
    ensures 0 < LoopHead(node).0.nbNodes == |LoopHead(node).0.snapshot| == node.nbNodes
    ensures Turn(node, p).0 == Turn(LoopHead(node).0, p).0
    ensures Turn(node, p).1 == LoopHead(node).1 + Turn(LoopHead(node).0, p).1
  {
    HeadOnce(node);
    var r := Received(LoopHead(node).0, p).1;
    assert [] + r == r;
  }

  /** The loop with one message more in front, for a node that is ready to receive. */
  lemma LoopReceives(node: Node, p: Packet, rest: seq<Packet>)
    requires 0 < node.nbNodes == |node.snapshot| && FromNode(p, node.nbNodes) && Receiving(node)
    requires InboxOk(rest, node.nbNodes)
    ensures InboxOk([p] + rest, node.nbNodes) && Received(node, p).0.nbNodes == node.nbNodes
    ensures |Received(node, p).0.snapshot| == node.nbNodes
    ensures Loop(node, [p] + rest).0 == Loop(Received(node, p).0, rest).0
    ensures Loop(node, [p] + rest).1 == Received(node, p).1 + Loop(Received(node, p).0, rest).1
  {
    assert ([p] + rest)[1..] == rest && LoopHead(node) == (node, []);
    var r := Received(node, p).1;
    assert [] + r == r && Turn(node, p) == Received(node, p);
  }

  /** In every run, node i is where its loop is when it is given the messages that were delivered to it, up to the
      head of a turn that it is about to start; and it has sent what its loop sends, in that order. */
  lemma {:induction false} LoopIsProjection(s: State, h: History, schedule: seq<Action>, i: nat)
    requires Shape(s) && HistoryShape(s, h) && i < |s.nodes|
    ensures InboxOk(Inbox(s, schedule, i), |s.nodes|)
    ensures var (f, _) := Run(s, h, schedule);
      var (node, sent) := Loop(s.nodes[i], Inbox(s, schedule, i));
      node == AtRecv(f.nodes[i]).0 && sent == SentBy(s, schedule, i) + AtRecv(f.nodes[i]).1
    decreases |schedule|
  {
    InboxIsOk(s, schedule, i);
    if schedule == [] {
      assert [] + AtRecv(s.nodes[i]).1 == AtRecv(s.nodes[i]).1;
    } else {
      var a := schedule[0];
      var s1 := Step(s, a);
      StepKeepsShape(s, a);
      LoopIsProjection(s1, Track(h, s, a), schedule[1..], i);
      OneStepOfLoop(s, a, i, Inbox(s1, schedule[1..], i));
      SendsJoin(SentAt(s, a, i), SentBy(s1, schedule[1..], i), AtRecv(Run(s, h, schedule).0.nodes[i]).1);
    }
  }

  lemma SendsJoin(a: seq<Packet>, b: seq<Packet>, c: seq<Packet>)
    ensures a + (b + c) == (a + b) + c
  {
  }

  /** One step of the system, for one node. */
  lemma OneStepOfLoop(s: State, a: Action, i: nat, rest: seq<Packet>)
    requires Shape(s) && i < |s.nodes| && InboxOk(rest, |s.nodes|)
    ensures Shape(Step(s, a)) && i < |Step(s, a).nodes| == |s.nodes|
    ensures var first := if a.Deliver? && a.p.dest == i && Enabled(s, a) then [a.p] else [];
      && InboxOk(first + rest, |s.nodes|)
      && Loop(s.nodes[i], first + rest).0 == Loop(Step(s, a).nodes[i], rest).0
      && Loop(s.nodes[i], first + rest).1 == SentAt(s, a, i) + Loop(Step(s, a).nodes[i], rest).1
  {
    StepKeepsShape(s, a);
    var all := Loop(Step(s, a).nodes[i], rest).1;
    if a.Deliver? && a.p.dest == i && Enabled(s, a) {
      LoopReceives(s.nodes[i], a.p, rest);
    } else {
      assert [] + rest == rest && [] + all == all;
      if a.StartSnapshot? && i == 0 && Enabled(s, a) {
        LoopFromHead(s.nodes[0], rest);
      }
    }
  }
}
