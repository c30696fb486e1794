/** What the snapshot protocol promises, for every interleaving and delivery order, and for how many nodes. */
module SnapshotTheorems {
  import opened Snapshot
  import opened SnapshotInvariant
  import opened SnapshotPreservation

  // ----- Conservation -----

  /** Up to 33 nodes: while a snapshot is in progress, node i's bit is set exactly when one request to it or
      one response from it is in flight; with the bit clear, or no snapshot in progress, none is. */
  lemma OneMessagePerAwaitedNode(u: Setup, schedule: seq<Action>, i: nat)
    requires Proper(u) && |u.cns| <= 33 && 1 <= i < |u.cns|
    ensures var s := After(u, schedule).0;
      && (forall p :: p in s.net && (p.Request? ==> p.dest == i) && (p.Response? ==> p.sender == i) ==>
            p == Ask(u, i) || p == Reply(u, i))
      && s.net[Ask(u, i)] + s.net[Reply(u, i)]
           == if s.nodes[0].inProgress && Awaits(s.nodes[0], i) then 1 else 0
  {
    Reachable(u, schedule);
    var (s, h) := After(u, schedule);
    assert Conserved(h.started, s.net[Ask(u, i)], s.net[Reply(u, i)], h.answered[i], h.received[i]);
    forall p | p in s.net && (p.Request? ==> p.dest == i) && (p.Response? ==> p.sender == i)
      ensures p == Ask(u, i) || p == Reply(u, i)
    {
      assert Known(u, p);
    }
  }

  /** A network that is not empty holds a request to or a response from some other node. */
  lemma NetFollowsCounts(u: Setup, net: multiset<Packet>)
    requires Proper(u) && Packets(u, net)
    ensures net != multiset{} ==> exists i :: 1 <= i < |u.cns| && net[Ask(u, i)] + net[Reply(u, i)] > 0
  {
    if net != multiset{} {
      var p :| p in net;
      assert Known(u, p);
      var i := if p.Request? then p.dest else p.sender;
      assert net[Ask(u, i)] + net[Reply(u, i)] > 0;
    }
  }

  /** What node 0 knows of the others once it counts k snapshots as done. */
  ghost predicate Complete(u: Setup, s: State, h: History)
    requires Proper(u) && |h.answered| == |h.received| == |u.cns| && 0 < |s.nodes|
  {
    && |h.taken| == s.nodes[0].iter
    && (forall k :: 0 <= k < |h.taken| ==> h.taken[k] == FullSnapshot(u))
    && (forall i :: 1 <= i < |u.cns| ==> s.nodes[0].iter <= h.received[i] <= h.answered[i] <= h.started)
    && h.started <= s.nodes[0].iter + 1
    && (!s.nodes[0].inProgress ==> h.started == s.nodes[0].iter && s.net == multiset{})
  }

  /** Up to 33 nodes: iter grows once per snapshot started, when every other node has answered once more and
      each answer is handled; the snapshot then holds every other node's checkpoint, numbered at least as high
      as requested, and nothing of it is left in the network. */
  lemma SnapshotsAreComplete(u: Setup, schedule: seq<Action>)
    requires Proper(u) && |u.cns| <= 33
    ensures var (s, h) := After(u, schedule); Complete(u, s, h)
    ensures forall i :: 1 <= i < |u.cns| ==> FullSnapshot(u)[i].cn >= u.cns[0] && FullSnapshot(u)[i].value == i
  {
    Reachable(u, schedule);
    var (s, h) := After(u, schedule);
    forall i | 1 <= i < |u.cns|
      ensures s.nodes[0].iter <= h.received[i] <= h.answered[i] <= h.started
      ensures !s.nodes[0].inProgress ==> s.net[Ask(u, i)] == 0 && s.net[Reply(u, i)] == 0
    {
      assert Conserved(h.started, s.net[Ask(u, i)], s.net[Reply(u, i)], h.answered[i], h.received[i]);
    }
    if !s.nodes[0].inProgress {
      NetFollowsCounts(u, s.net);
    }
  }

  // ----- Deliveries -----

  lemma {:induction false} SumWithin(xs: seq<nat>, low: nat, high: nat)
    requires forall i :: 0 <= i < |xs| ==> low <= xs[i] <= high
    ensures |xs| * low <= Sum(xs) <= |xs| * high
  {
    if xs != [] {
      SumWithin(xs[1..], low, high);
      assert |xs| * low == (|xs| - 1) * low + low && |xs| * high == (|xs| - 1) * high + high;
    }
  }

  /** Every other entry lies between two numbers; entry 0 is 0. */
  ghost predicate Within(xs: seq<nat>, low: nat, high: nat) {
    0 < |xs| && xs[0] == 0 && forall i :: 1 <= i < |xs| ==> low <= xs[i] <= high
  }

  lemma SumOfOthers(xs: seq<nat>, low: nat, high: nat)
    requires Within(xs, low, high)
    ensures var others := |xs| - 1; others * low <= Sum(xs) <= others * high
    ensures var others := |xs| - 1;
      (exists i :: 1 <= i < |xs| && xs[i] < high) ==> Sum(xs) < others * high
  {
    SumWithin(xs[1..], low, high);
    if i :| 1 <= i < |xs| && xs[i] < high {
      var more := xs[i := xs[i] + 1];
      SumAfterOneMore(xs, i);
      assert Sum(more) == Sum(more[1..]);
      SumWithin(more[1..], low, high);
    }
  }

  /** Up to 33 nodes: a snapshot takes two deliveries for every other node, no more and no fewer. */
  lemma DeliveriesPerSnapshot(u: Setup, schedule: seq<Action>)
    requires Proper(u) && |u.cns| <= 33
    ensures var (s, h) := After(u, schedule);
      var others := |u.cns| - 1;
      && 2 * (others * s.nodes[0].iter) <= h.deliveries
      && (!s.nodes[0].inProgress ==> h.deliveries == 2 * (others * s.nodes[0].iter))
      && (s.nodes[0].inProgress && others > 0 ==> h.deliveries < 2 * (others * (s.nodes[0].iter + 1)))
  {
    Reachable(u, schedule);
    SnapshotsAreComplete(u, schedule);
    var (s, h) := After(u, schedule);
    var k := s.nodes[0].iter;
    SumOfOthers(h.answered, k, h.started);
    SumOfOthers(h.received, k, h.started);
    if s.nodes[0].inProgress && |u.cns| > 1 {
      var i := SomeoneAwaited(s.nodes[0], |u.cns|);
      assert h.received[i] < h.started;
    }
  }

  // ----- Termination -----

  /** Every step of the schedule is enabled when its turn comes. */
  predicate AllEnabled(s: State, schedule: seq<Action>)
    requires Shape(s)
    decreases |schedule|
  {
    schedule != [] ==>
      && Enabled(s, schedule[0])
      && (StepKeepsShape(s, schedule[0]); AllEnabled(Step(s, schedule[0]), schedule[1..]))
  }

  lemma {:induction false} EveryStepIsRecorded(s: State, h: History, schedule: seq<Action>)
    requires Shape(s) && HistoryShape(s, h) && AllEnabled(s, schedule)
    ensures var after := Run(s, h, schedule).1;
      after.started + after.deliveries == h.started + h.deliveries + |schedule|
    decreases |schedule|
  {
    if schedule != [] {
      StepKeepsShape(s, schedule[0]);
      EveryStepIsRecorded(Step(s, schedule[0]), Track(h, s, schedule[0]), schedule[1..]);
    }
  }

  lemma DeliveriesBounded(u: Setup, s: State, h: History)
    requires Proper(u) && Inv(u, s, h)
    ensures var others := |u.cns| - 1; h.started + h.deliveries <= u.nbIter + 2 * (others * u.nbIter)
  {
    forall i | 1 <= i < |u.cns|
      ensures h.answered[i] <= u.nbIter && h.received[i] <= u.nbIter
    {
      assert Conserved(h.started, s.net[Ask(u, i)], s.net[Reply(u, i)], h.answered[i], h.received[i]);
    }
    SumOfOthers(h.answered, 0, u.nbIter);
    SumOfOthers(h.received, 0, u.nbIter);
  }

  /** Any number of nodes: no run is longer than one start and two deliveries per other node for each of the
      nb_iter snapshots. */
  lemma RunsAreFinite(u: Setup, schedule: seq<Action>)
    requires Proper(u) && AllEnabled(Boot(u), schedule)
    ensures var others := |u.cns| - 1; |schedule| <= u.nbIter + 2 * (others * u.nbIter)
  {
    Reachable(u, schedule);
    EveryStepIsRecorded(Boot(u), NoHistory(|u.cns|), schedule);
    DeliveriesBounded(u, After(u, schedule).0, After(u, schedule).1);
  }

  ghost predicate Stuck(s: State)
    requires Shape(s)
  {
    forall a :: !Enabled(s, a)
  }

  /** No run of n nodes stops before node 0 has done its nb_iter snapshots. */
  ghost predicate NeverStuckEarly(n: nat) {
    forall u: Setup, schedule :: Proper(u) && |u.cns| == n && Stuck(After(u, schedule).0) ==>
      After(u, schedule).0.nodes[0].iter == u.nbIter
  }

  lemma SomethingToDeliver(u: Setup, s: State, h: History) returns (p: Packet)
    requires Proper(u) && |u.cns| >= 2 && Inv(u, s, h) && s.nodes[0].inProgress
    ensures Enabled(s, Deliver(p))
  {
    var i := SomeoneAwaited(s.nodes[0], |u.cns|);
    assert Conserved(h.started, s.net[Ask(u, i)], s.net[Reply(u, i)], h.answered[i], h.received[i]);
    assert NodeOk(u, s.nodes[i], i, h.answered[i]);
    p := if Ask(u, i) in s.net then Ask(u, i) else Reply(u, i);
  }

  lemma StuckMeansDone(u: Setup, schedule: seq<Action>)
    requires Proper(u) && |u.cns| >= 2 && Stuck(After(u, schedule).0)
    ensures After(u, schedule).0.nodes[0].iter == u.nbIter
  {
    Reachable(u, schedule);
    var (s, h) := After(u, schedule);
    assert !Enabled(s, StartSnapshot);
    if s.nodes[0].inProgress {
      var p := SomethingToDeliver(u, s, h);
      assert false;
    }
  }

  /** With one node the first snapshot waits for responses nobody sends; with two or more every run that
      cannot go on has done all its snapshots. */
  lemma AllSnapshotsFinishIff(n: nat)
    requires n > 0
    ensures NeverStuckEarly(n) <==> n >= 2
  {
    if n >= 2 {
      forall u: Setup, schedule | Proper(u) && |u.cns| == n && Stuck(After(u, schedule).0)
        ensures After(u, schedule).0.nodes[0].iter == u.nbIter
      {
        StuckMeansDone(u, schedule);
      }
    } else {
      var u := Setup(1, [0], [{}]);
      var s := After(u, [StartSnapshot]).0;
      assert s == Step(Boot(u), StartSnapshot);
      assert Stuck(s);
    }
  }

  // ----- The number of nodes -----

  lemma {:induction false} RunOneMore(s: State, h: History, schedule: seq<Action>, a: Action)
    requires Shape(s) && HistoryShape(s, h)
    ensures var (s', h') := Run(s, h, schedule);
      Run(s, h, schedule + [a]) == (Step(s', a), Track(h', s', a))
    decreases |schedule|
  {
    var longer := schedule + [a];
    if schedule == [] {
      StepKeepsShape(s, a);
      assert longer[1..] == [];
    } else {
      StepKeepsShape(s, schedule[0]);
      assert longer[0] == schedule[0] && longer[1..] == schedule[1..] + [a];
      RunOneMore(Step(s, schedule[0]), Track(h, s, schedule[0]), schedule[1..], a);
    }
  }

  /** The first snapshot's leader once it has handled the answers of nodes 1 to k. */
  ghost predicate Collected(leader: Node, k: nat) {
    if k < 32
    then leader.inProgress && leader.iter == 0 && forall j :: 0 <= j < 32 ==> (j in leader.awaited <==> j == 0 || j > k)
    else leader.iter == 1
  }

  /** Nodes 1 to k have answered the first request and node 0 has handled their answers; no other node has
      acted. */
  ghost predicate FirstAnswers(u: Setup, s: State, h: History, k: nat)
    requires Proper(u)
  {
    && Inv(u, s, h) && h.started == 1
    && (forall i :: k < i < |u.cns| ==> h.answered[i] == 0)
    && Collected(s.nodes[0], k)
  }

  /** Node k + 1 has answered as well, and node 0 has yet to handle its answer. */
  ghost predicate NextAnswered(u: Setup, s: State, h: History, k: nat)
    requires Proper(u)
  {
    && Inv(u, s, h) && h.started == 1 && k + 1 < |u.cns|
    && (forall i :: k + 1 < i < |u.cns| ==> h.answered[i] == 0)
    && Collected(s.nodes[0], k) && Enabled(s, Deliver(Reply(u, k + 1)))
  }

  lemma LastClear(n: nat, awaited: set<int>, i: nat)
    requires AwaitedOk(n, awaited) && forall j :: 0 <= j < 32 && j in awaited ==> j == i % 32
    ensures awaited - NodeBits(i) == {}
  {
    forall k | k in awaited
      ensures k in NodeBits(i)
    {
      MaskIff(0, n, k);
    }
  }

  lemma NextRequest(u: Setup, s: State, h: History, i: nat)
    requires Proper(u) && u.nbIter > 0 && Inv(u, s, h) && s.nodes[0].inProgress
    requires 1 <= i < |u.cns| && h.started == 1 && h.answered[i] == 0
    ensures Enabled(s, Deliver(Ask(u, i)))
    ensures var s', h' := Step(s, Deliver(Ask(u, i))), Track(h, s, Deliver(Ask(u, i)));
      && Inv(u, s', h') && s'.nodes[0] == s.nodes[0] && h' == Answered(h, i)
      && Enabled(s', Deliver(Reply(u, i)))
  {
    assert Conserved(h.started, s.net[Ask(u, i)], s.net[Reply(u, i)], h.answered[i], h.received[i]);
    assert NodeOk(u, s.nodes[i], i, h.answered[i]);
    RequestKeeps(u, s, h, i);
    RequestNodes(u, s.nodes, h.answered, i);
    RequestStep(u, s, h, i);
  }

  /** The leader after the answer of node k + 1. */
  lemma NextClearing(u: Setup, leader: Node, k: nat)
    requires Proper(u) && k < 32 && k + 1 < |u.cns| && |leader.snapshot| == |u.cns|
    requires AwaitedOk(|u.cns|, leader.awaited) && Collected(leader, k)
    ensures Collected(HandleResponse(leader, k + 1, Answer(u, k + 1)), k + 1)
  {
    if k == 31 {
      LastClear(|u.cns|, leader.awaited, 32);
    } else {
      assert 0 in leader.awaited - NodeBits(k + 1);
    }
  }

  lemma NextAnswer(u: Setup, s: State, h: History, k: nat)
    requires Proper(u) && |u.cns| >= 34 && u.nbIter > 0 && k < 32 && FirstAnswers(u, s, h, k)
    ensures Enabled(s, Deliver(Ask(u, k + 1)))
    ensures NextAnswered(u, Step(s, Deliver(Ask(u, k + 1))), Track(h, s, Deliver(Ask(u, k + 1))), k)
  {
    NextRequest(u, s, h, k + 1);
  }

  lemma NextResponse(u: Setup, s: State, h: History, k: nat)
    requires Proper(u) && k < 32 && NextAnswered(u, s, h, k)
    ensures FirstAnswers(u, Step(s, Deliver(Reply(u, k + 1))), Track(h, s, Deliver(Reply(u, k + 1))), k + 1)
  {
    ResponseKeeps(u, s, h, k + 1);
    ResponseStep(u, s, h, k + 1);
    NextClearing(u, s.nodes[0], k);
  }

  lemma FirstStart(u: Setup)
    requires Proper(u) && |u.cns| >= 34 && u.nbIter > 0
    ensures FirstAnswers(u, After(u, [StartSnapshot]).0, After(u, [StartSnapshot]).1, 0)
  {
    var s, h := Boot(u), NoHistory(|u.cns|);
    Reachable(u, [StartSnapshot]);
    assert After(u, [StartSnapshot]) == (Step(s, StartSnapshot), Track(h, s, StartSnapshot)) by {
      assert [] + [StartSnapshot] == [StartSnapshot];
      RunOneMore(s, h, [], StartSnapshot);
    }
    MaskFull(|u.cns|);
    assert Collected(TakeSnapshot(s.nodes[0]), 0);
  }

  lemma MaskHas(n: nat, j: nat)
    requires n >= 34 && j < 32
    ensures j in MaskBelow(0, n)
  {
    if j == 0 {
      MaskHasEveryOther(n, 32);
    } else {
      MaskHasEveryOther(n, j);
    }
  }

  lemma MaskFull(n: nat)
    requires n >= 34
    ensures forall j :: 0 <= j < 32 ==> j in MaskBelow(0, n)
  {
    forall j | 0 <= j < 32 {
      MaskHas(n, j);
    }
  }

  lemma {:induction false} AnswersOneByOne(u: Setup, k: nat) returns (schedule: seq<Action>)
    requires Proper(u) && |u.cns| >= 34 && u.nbIter > 0 && k <= 32
    ensures FirstAnswers(u, After(u, schedule).0, After(u, schedule).1, k)
  {
    if k == 0 {
      schedule := [StartSnapshot];
      FirstStart(u);
    } else {
      var earlier := AnswersOneByOne(u, k - 1);
      var (s, h) := After(u, earlier);
      NextAnswer(u, s, h, k - 1);
      RunOneMore(Boot(u), NoHistory(|u.cns|), earlier, Deliver(Ask(u, k)));
      var asked := earlier + [Deliver(Ask(u, k))];
      var (s1, h1) := After(u, asked);
      NextResponse(u, s1, h1, k - 1);
      RunOneMore(Boot(u), NoHistory(|u.cns|), asked, Deliver(Reply(u, k)));
      schedule := asked + [Deliver(Reply(u, k))];
    }
  }

  /** Every node has answered at least as many requests as node 0 counts snapshots. */
  ghost predicate EveryoneAnswered(s: State, h: History)
    requires 0 < |s.nodes| == |h.answered|
  {
    forall i :: 1 <= i < |s.nodes| ==> h.answered[i] >= s.nodes[0].iter
  }

  ghost predicate NeverMissesANode(n: nat) {
    forall u: Setup, schedule :: Proper(u) && |u.cns| == n ==>
      EveryoneAnswered(After(u, schedule).0, After(u, schedule).1)
  }

  /** The int shift gives nodes 1 and 33 the same bit, so from 34 nodes on a snapshot can be counted as done
      with a node that was never heard of. Up to 33 nodes it cannot. */
  lemma SnapshotsAreCompleteIff(n: nat)
    requires n > 0
    ensures NeverMissesANode(n) <==> n <= 33
  {
    if n <= 33 {
      forall u: Setup, schedule | Proper(u) && |u.cns| == n
        ensures EveryoneAnswered(After(u, schedule).0, After(u, schedule).1)
      {
        SnapshotsAreComplete(u, schedule);
      }
    } else {
      var u := Setup(1, seq(n, _ => 0), seq(n, _ => {}));
      var schedule := AnswersOneByOne(u, 32);
      var (s, h) := After(u, schedule);
      assert h.answered[33] == 0 && s.nodes[0].iter == 1;
    }
  }

  // ----- Checkpoint numbers -----

  /** Node i's checkpoint number, given how many requests it has answered. */
  function NumberOf(u: Setup, i: nat, answered: nat): nat
    requires Proper(u) && i < |u.cns|
  {
    if i > 0 && answered > 0 && u.cns[0] > u.cns[i] then u.cns[0] else u.cns[i]
  }

  lemma NumberFollows(u: Setup, nodes: seq<Node>, answered: seq<nat>, started: nat, i: nat)
    requires Proper(u) && Others(u, nodes, answered) && Leader(u, nodes[0], started) && i < |nodes|
    ensures nodes[i].chkpt == Checkpoint(NumberOf(u, i, answered[i]), i)
  {
    if i > 0 {
      assert NodeOk(u, nodes[i], i, answered[i]);
    }
  }

  /** A node takes a checkpoint at most once, at its first request and only if node 0's number is higher than
      its own; node 0 never takes one. */
  lemma CheckpointAfterFirstRequest(u: Setup, schedule: seq<Action>, i: nat)
    requires Proper(u) && i < |u.cns|
    ensures var (s, h) := After(u, schedule); s.nodes[i].chkpt == Checkpoint(NumberOf(u, i, h.answered[i]), i)
  {
    Reachable(u, schedule);
    var (s, h) := After(u, schedule);
    NumberFollows(u, s.nodes, h.answered, h.started, i);
  }

  /** The constructor numbers every checkpoint 0, so no request ever makes a node take one. */
  lemma NoCheckpointIsTaken(u: Setup, schedule: seq<Action>, i: nat)
    requires Proper(u) && i < |u.cns| && forall j :: 0 <= j < |u.cns| ==> u.cns[j] == 0
    ensures After(u, schedule).0.nodes[i].chkpt == Checkpoint(0, i)
  {
    CheckpointAfterFirstRequest(u, schedule, i);
  }
}
