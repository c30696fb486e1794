/** Every step of the snapshot protocol keeps the invariant. */
module SnapshotPreservation {
  import opened Snapshot
  import opened SnapshotInvariant

  lemma InvInitially(u: Setup)
    requires Proper(u)
    ensures Inv(u, Boot(u), NoHistory(|u.cns|)) && ExactInv(u, Boot(u), NoHistory(|u.cns|))
  {
    SumOfZeros(|u.cns|);
  }

  // ----- Starting a snapshot -----

  ghost predicate CanStart(u: Setup, s: State, h: History)
    requires Proper(u)
  {
    Inv(u, s, h) && Enabled(s, StartSnapshot)
  }

  lemma StartCounts(u: Setup, s: State, h: History)
    requires Proper(u) && CanStart(u, s, h)
    ensures Packets(u, Step(s, StartSnapshot).net)
    ensures Counts(u, Step(s, StartSnapshot).net, h.started + 1, h.answered, h.received)
  {
    MulticastCounts(u, s.nodes[0]);
  }

  lemma StartKeeps(u: Setup, s: State, h: History)
    requires Proper(u) && CanStart(u, s, h)
    ensures Inv(u, Step(s, StartSnapshot), Track(h, s, StartSnapshot))
    ensures |u.cns| <= 33 && ExactInv(u, s, h) ==> ExactInv(u, Step(s, StartSnapshot), Track(h, s, StartSnapshot))
  {
    var s', h' := Step(s, StartSnapshot), Track(h, s, StartSnapshot);
    StepKeepsShape(s, StartSnapshot);
    StartCounts(u, s, h);
    MaskIsOk(|u.cns|);
    forall i | 1 <= i < |u.cns|
      ensures h.received[i] < h'.started && Awaits(s'.nodes[0], i)
    {
      assert Conserved(h.started, s.net[Ask(u, i)], s.net[Reply(u, i)], h.answered[i], h.received[i]);
      MaskHasEveryOther(|u.cns|, i);
    }
    forall i | 1 <= i < |u.cns|
      ensures NodeOk(u, s'.nodes[i], i, h'.answered[i])
    {
      assert NodeOk(u, s.nodes[i], i, h.answered[i]);
    }
  }

  // ----- Delivering a request -----

  lemma RequestCounts(
    u: Setup, net: multiset<Packet>, started: nat, answered: seq<nat>, received: seq<nat>, d: nat)
    requires Proper(u) && Packets(u, net) && Counts(u, net, started, answered, received)
    requires 1 <= d < |u.cns| && Ask(u, d) in net
    ensures var net' := net - multiset{Ask(u, d)} + multiset{Reply(u, d)};
      Packets(u, net') && Counts(u, net', started, answered[d := answered[d] + 1], received)
  {
    var net' := net - multiset{Ask(u, d)} + multiset{Reply(u, d)};
    var answered' := answered[d := answered[d] + 1];
    forall i | 1 <= i < |u.cns|
      ensures Conserved(started, net'[Ask(u, i)], net'[Reply(u, i)], answered'[i], received[i])
    {
      assert Conserved(started, net[Ask(u, i)], net[Reply(u, i)], answered[i], received[i]);
    }
  }

  lemma RequestNodes(u: Setup, nodes: seq<Node>, answered: seq<nat>, d: nat)
    requires Proper(u) && Others(u, nodes, answered) && 1 <= d < |u.cns| && nodes[d].id == d
    ensures HandleRequest(nodes[d], 0, u.cns[0]).1 == Reply(u, d)
    ensures Others(u, nodes[d := HandleRequest(nodes[d], 0, u.cns[0]).0], answered[d := answered[d] + 1])
  {
    assert NodeOk(u, nodes[d], d, answered[d]);
    var nodes', answered' := nodes[d := HandleRequest(nodes[d], 0, u.cns[0]).0], answered[d := answered[d] + 1];
    forall i | 1 <= i < |u.cns|
      ensures NodeOk(u, nodes'[i], i, answered'[i])
    {
      assert NodeOk(u, nodes[i], i, answered[i]);
    }
  }

  function Answered(h: History, d: nat): History
    requires d < |h.answered|
  {
    h.(deliveries := h.deliveries + 1, answered := h.answered[d := h.answered[d] + 1])
  }

  lemma RequestFlows(u: Setup, net: multiset<Packet>, h: History, d: nat)
    requires Proper(u) && Flowing(u, net, h) && 1 <= d < |u.cns| && Ask(u, d) in net
    ensures Flowing(u, net - multiset{Ask(u, d)} + multiset{Reply(u, d)}, Answered(h, d))
  {
    RequestCounts(u, net, h.started, h.answered, h.received, d);
    SumAfterOneMore(h.answered, d);
  }

  lemma RequestStep(u: Setup, s: State, h: History, d: nat)
    requires Proper(u) && Shape(s) && HistoryShape(s, h) && |s.nodes| == |u.cns|
    requires 1 <= d < |u.cns| && Enabled(s, Deliver(Ask(u, d)))
    requires HandleRequest(s.nodes[d], 0, u.cns[0]).1 == Reply(u, d)
    ensures Step(s, Deliver(Ask(u, d)))
         == State(s.nodes[d := HandleRequest(s.nodes[d], 0, u.cns[0]).0],
                  s.net - multiset{Ask(u, d)} + multiset{Reply(u, d)})
    ensures Track(h, s, Deliver(Ask(u, d))) == Answered(h, d)
  {
  }

  lemma RequestKeeps(u: Setup, s: State, h: History, d: nat)
    requires Proper(u) && Inv(u, s, h) && 1 <= d < |u.cns| && Enabled(s, Deliver(Ask(u, d)))
    ensures Inv(u, Step(s, Deliver(Ask(u, d))), Track(h, s, Deliver(Ask(u, d))))
    ensures ExactInv(u, s, h) ==> ExactInv(u, Step(s, Deliver(Ask(u, d))), Track(h, s, Deliver(Ask(u, d))))
  {
    StepKeepsShape(s, Deliver(Ask(u, d)));
    RequestNodes(u, s.nodes, h.answered, d);
    RequestStep(u, s, h, d);
    RequestFlows(u, s.net, h, d);
  }

  // ----- Delivering a response -----

  lemma ResponseCounts(
    u: Setup, net: multiset<Packet>, started: nat, answered: seq<nat>, received: seq<nat>, i: nat)
    requires Proper(u) && Packets(u, net) && Counts(u, net, started, answered, received)
    requires 1 <= i < |u.cns| && Reply(u, i) in net
    ensures var net' := net - multiset{Reply(u, i)};
      Packets(u, net') && Counts(u, net', started, answered, received[i := received[i] + 1])
    ensures received[i] < answered[i] <= started
  {
    var net' := net - multiset{Reply(u, i)};
    var received' := received[i := received[i] + 1];
    assert Conserved(started, net[Ask(u, i)], net[Reply(u, i)], answered[i], received[i]);
    forall j | 1 <= j < |u.cns|
      ensures Conserved(started, net'[Ask(u, j)], net'[Reply(u, j)], answered[j], received'[j])
    {
      assert Conserved(started, net[Ask(u, j)], net[Reply(u, j)], answered[j], received[j]);
      assert i != j ==> Reply(u, i) != Reply(u, j);
    }
  }

  lemma ResponseLeader(u: Setup, leader: Node, started: nat, received: seq<nat>, i: nat)
    requires Proper(u) && Leader(u, leader, started) && leader.inProgress
    requires 1 <= i < |u.cns| == |received| && Entries(u, leader, received)
    ensures var leader' := HandleResponse(leader, i, Answer(u, i));
      Leader(u, leader', started) && Entries(u, leader', received[i := received[i] + 1])
  {
    ClearingKeepsOk(|u.cns|, leader.awaited, i);
  }

  lemma ResponseOutstanding(u: Setup, leader: Node, started: nat, received: seq<nat>, i: nat)
    requires Proper(u) && Outstanding(leader, started, received) && leader.inProgress
    requires 1 <= i < |u.cns| == |received| == |leader.snapshot|
    ensures Outstanding(HandleResponse(leader, i, Answer(u, i)), started, received[i := received[i] + 1])
  {
    var leader' := HandleResponse(leader, i, Answer(u, i));
    forall j | 1 <= j < |received| && leader'.inProgress && Awaits(leader', j)
      ensures received[i := received[i] + 1][j] < started
    {
      ClearingIsExact(leader, i, j);
    }
  }

  function Received(h: History, leader: Node, i: nat, answer: Checkpoint): History
    requires i < |h.received| && i < |leader.snapshot|
  {
    var after := HandleResponse(leader, i, answer);
    h.(deliveries := h.deliveries + 1,
       received := h.received[i := h.received[i] + 1],
       taken := if after.iter > leader.iter then h.taken + [after.snapshot] else h.taken)
  }

  lemma ResponseCollects(u: Setup, leader: Node, h: History, i: nat)
    requires Proper(u) && |h.received| == |u.cns| && Collecting(u, leader, h)
    requires 1 <= i < |u.cns| && leader.inProgress
    ensures Collecting(u, HandleResponse(leader, i, Answer(u, i)), Received(h, leader, i, Answer(u, i)))
  {
    ResponseLeader(u, leader, h.started, h.received, i);
    ResponseOutstanding(u, leader, h.started, h.received, i);
  }

  lemma ResponseFlows(u: Setup, leader: Node, net: multiset<Packet>, h: History, i: nat)
    requires Proper(u) && Flowing(u, net, h)
    requires 1 <= i < |u.cns| == |leader.snapshot| && Reply(u, i) in net
    ensures Flowing(u, net - multiset{Reply(u, i)}, Received(h, leader, i, Answer(u, i)))
  {
    ResponseCounts(u, net, h.started, h.answered, h.received, i);
    SumAfterOneMore(h.received, i);
  }

  lemma NewLeader(u: Setup, nodes: seq<Node>, answered: seq<nat>, leader: Node)
    requires Proper(u) && Others(u, nodes, answered)
    ensures Others(u, nodes[0 := leader], answered)
  {
    forall i | 1 <= i < |nodes|
      ensures NodeOk(u, nodes[0 := leader][i], i, answered[i])
    {
      assert NodeOk(u, nodes[i], i, answered[i]);
    }
  }

  lemma ResponseStep(u: Setup, s: State, h: History, i: nat)
    requires Proper(u) && Shape(s) && HistoryShape(s, h) && |s.nodes| == |u.cns|
    requires 1 <= i < |u.cns| && Enabled(s, Deliver(Reply(u, i)))
    ensures Step(s, Deliver(Reply(u, i)))
         == State(s.nodes[0 := HandleResponse(s.nodes[0], i, Answer(u, i))], s.net - multiset{Reply(u, i)})
    ensures Track(h, s, Deliver(Reply(u, i))) == Received(h, s.nodes[0], i, Answer(u, i))
  {
  }

  lemma ResponseKeeps(u: Setup, s: State, h: History, i: nat)
    requires Proper(u) && Inv(u, s, h) && 1 <= i < |u.cns| && Enabled(s, Deliver(Reply(u, i)))
    ensures Inv(u, Step(s, Deliver(Reply(u, i))), Track(h, s, Deliver(Reply(u, i))))
  {
    StepKeepsShape(s, Deliver(Reply(u, i)));
    ResponseStep(u, s, h, i);
    ResponseCollects(u, s.nodes[0], h, i);
    ResponseFlows(u, s.nodes[0], s.net, h, i);
    NewLeader(u, s.nodes, h.answered, HandleResponse(s.nodes[0], i, Answer(u, i)));
  }

  /** With at most 33 nodes, no two of the numbers 1 to n-1 agree modulo 32: the response of node i ends the
      wait for node i alone, and ends the snapshot when every other node has answered. */
  lemma ResponseExact(u: Setup, leader: Node, started: nat, received: seq<nat>, i: nat)
    requires Proper(u) && |u.cns| <= 33 && Exact(leader, started, received) && leader.inProgress
    requires 1 <= i < |received| == |u.cns| && received[i] < started
    requires Leader(u, leader, started) && Entries(u, leader, received)
    ensures var leader' := HandleResponse(leader, i, Answer(u, i));
      && Exact(leader', started, received[i := received[i] + 1])
      && (!leader'.inProgress ==> leader'.snapshot == FullSnapshot(u))
  {
    var leader', received' := HandleResponse(leader, i, Answer(u, i)), received[i := received[i] + 1];
    ResponseLeader(u, leader, started, received, i);
    forall j | 1 <= j < |received|
      ensures started == received'[j] + if leader'.inProgress && Awaits(leader', j) then 1 else 0
    {
      ClearingIsExact(leader, i, j);
    }
    if !leader'.inProgress {
      assert forall j :: 1 <= j < |u.cns| ==> received'[j] == started > 0;
    }
  }

  lemma TakenAfterResponse(u: Setup, leader: Node, h: History, i: nat)
    requires Proper(u) && 1 <= i < |u.cns| == |h.received| == |leader.snapshot| && AllFull(u, h.taken)
    requires var after := HandleResponse(leader, i, Answer(u, i));
      after.iter > leader.iter ==> after.snapshot == FullSnapshot(u)
    ensures AllFull(u, Received(h, leader, i, Answer(u, i)).taken)
  {
  }

  lemma ExactAfterResponse(u: Setup, leader: Node, h: History, i: nat)
    requires Proper(u) && |u.cns| <= 33 && leader.inProgress && 1 <= i < |u.cns| == |h.received|
    requires h.received[i] < h.started && Collecting(u, leader, h)
    requires Exact(leader, h.started, h.received) && AllFull(u, h.taken)
    ensures var leader', h' := HandleResponse(leader, i, Answer(u, i)), Received(h, leader, i, Answer(u, i));
      Exact(leader', h'.started, h'.received) && AllFull(u, h'.taken)
  {
    ResponseExact(u, leader, h.started, h.received, i);
    TakenAfterResponse(u, leader, h, i);
  }

  lemma ResponseKeepsExact(u: Setup, s: State, h: History, i: nat)
    requires Proper(u) && |u.cns| <= 33 && Inv(u, s, h) && ExactInv(u, s, h)
    requires 1 <= i < |u.cns| && Enabled(s, Deliver(Reply(u, i)))
    ensures ExactInv(u, Step(s, Deliver(Reply(u, i))), Track(h, s, Deliver(Reply(u, i))))
  {
    ResponseStep(u, s, h, i);
    ResponseCounts(u, s.net, h.started, h.answered, h.received, i);
    ExactAfterResponse(u, s.nodes[0], h, i);
  }

  // ----- All steps -----

  lemma StepKeeps(u: Setup, s: State, h: History, a: Action)
    requires Proper(u) && Inv(u, s, h)
    ensures Inv(u, Step(s, a), Track(h, s, a))
    ensures |u.cns| <= 33 && ExactInv(u, s, h) ==> ExactInv(u, Step(s, a), Track(h, s, a))
  {
    if Enabled(s, a) {
      match a
      case StartSnapshot => StartKeeps(u, s, h);
      case Deliver(p) =>
        assert Known(u, p);
        if p.Request? {
          RequestKeeps(u, s, h, p.dest);
        } else {
          ResponseKeeps(u, s, h, p.sender);
          if |u.cns| <= 33 && ExactInv(u, s, h) {
            ResponseKeepsExact(u, s, h, p.sender);
          }
        }
    }
  }

  lemma {:induction false} RunKeeps(u: Setup, s: State, h: History, schedule: seq<Action>)
    requires Proper(u) && Inv(u, s, h)
    ensures Inv(u, Run(s, h, schedule).0, Run(s, h, schedule).1)
    ensures |u.cns| <= 33 && ExactInv(u, s, h) ==>
      ExactInv(u, Run(s, h, schedule).0, Run(s, h, schedule).1)
    decreases |schedule|
  {
    if schedule != [] {
      StepKeeps(u, s, h, schedule[0]);
      RunKeeps(u, Step(s, schedule[0]), Track(h, s, schedule[0]), schedule[1..]);
    }
  }

  lemma Reachable(u: Setup, schedule: seq<Action>)
    requires Proper(u)
    ensures Inv(u, After(u, schedule).0, After(u, schedule).1)
    ensures |u.cns| <= 33 ==> ExactInv(u, After(u, schedule).0, After(u, schedule).1)
  {
    InvInitially(u);
    RunKeeps(u, Boot(u), NoHistory(|u.cns|), schedule);
  }
}
