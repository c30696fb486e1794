/** What every step of the snapshot protocol keeps. */
module SnapshotInvariant {
  import opened Snapshot

  /** Node i's answer from its first request on. */
  function Answer(u: Setup, i: nat): Checkpoint
    requires Proper(u) && i < |u.cns|
  {
    Checkpoint(if u.cns[0] > u.cns[i] then u.cns[0] else u.cns[i], i)
  }

  /** The packets that can be in flight: node 0's request to node i, and node i's response. */
  function Ask(u: Setup, i: nat): Packet
    requires Proper(u)
  {
    Request(i, 0, u.cns[0])
  }

  function Reply(u: Setup, i: nat): Packet
    requires Proper(u) && i < |u.cns|
  {
    Response(0, i, Answer(u, i).cn, Answer(u, i).value)
  }

  predicate Known(u: Setup, p: Packet)
    requires Proper(u)
  {
    match p
    case Request(dest, _, _) => 1 <= dest < |u.cns| && p == Ask(u, dest)
    case Response(_, sender, _, _) => 1 <= sender < |u.cns| && p == Reply(u, sender)
  }

  ghost predicate Packets(u: Setup, net: multiset<Packet>)
    requires Proper(u)
  {
    forall p :: p in net ==> Known(u, p)
  }

  /** A response from node i is still to be collected. */
  predicate Awaits(leader: Node, i: nat) { i % 32 in leader.awaited }

  predicate NodeOk(u: Setup, node: Node, i: nat, answered: nat)
    requires Proper(u) && i < |u.cns|
  {
    && node.nbIter == u.nbIter && node.iter == 0 && !node.inProgress
    && node.chkpt == if answered == 0 then Checkpoint(u.cns[i], i) else Answer(u, i)
  }

  ghost predicate Others(u: Setup, nodes: seq<Node>, answered: seq<nat>)
    requires Proper(u)
  {
    && |nodes| == |answered| == |u.cns|
    && forall i :: 1 <= i < |nodes| ==> NodeOk(u, nodes[i], i, answered[i])
  }

  /** The awaited set holds bits of the mask, and bits 32 to 63 only as the sign extension of bit 31. */
  ghost predicate AwaitedOk(n: nat, awaited: set<int>) {
    && awaited <= MaskBelow(0, n)
    && forall k :: k in awaited && k >= 32 ==> 31 in awaited
  }

  ghost predicate Leader(u: Setup, leader: Node, started: nat)
    requires Proper(u)
  {
    && leader.nbIter == u.nbIter
    && leader.mask == MaskBelow(0, |u.cns|)
    && leader.chkpt == Checkpoint(u.cns[0], 0)
    && started == (if leader.inProgress then leader.iter + 1 else leader.iter)
    && started <= u.nbIter
    && (leader.inProgress ==> AwaitedOk(|u.cns|, leader.awaited) && (|u.cns| > 1 ==> leader.awaited != {}))
  }

  /** Nothing is lost or duplicated: of the requests sent to node i, those not in flight are answered, and of
      the answers, those not in flight are handled. */
  predicate Conserved(started: nat, asks: nat, replies: nat, answered: nat, received: nat) {
    started == answered + asks && answered == received + replies
  }

  ghost predicate Counts(u: Setup, net: multiset<Packet>, started: nat, answered: seq<nat>, received: seq<nat>)
    requires Proper(u)
  {
    && |answered| == |received| == |u.cns| && answered[0] == 0 && received[0] == 0
    && forall i :: 1 <= i < |u.cns| ==>
         Conserved(started, net[Ask(u, i)], net[Reply(u, i)], answered[i], received[i])
  }

  /** A response that is awaited is still to come, for any number of nodes. */
  ghost predicate Outstanding(leader: Node, started: nat, received: seq<nat>) {
    forall i :: 1 <= i < |received| && leader.inProgress && Awaits(leader, i) ==> received[i] < started
  }

  /** A response is still to come exactly when it is awaited. */
  ghost predicate Exact(leader: Node, started: nat, received: seq<nat>) {
    forall i :: 1 <= i < |received| ==>
      started == received[i] + if leader.inProgress && Awaits(leader, i) then 1 else 0
  }

  /** Contents of the snapshot array: an entry per node heard of; node 0's own is never written. */
  ghost predicate Entries(u: Setup, leader: Node, received: seq<nat>)
    requires Proper(u) && |received| == |u.cns|
  {
    && |leader.snapshot| == |u.cns| && leader.snapshot[0] == Checkpoint(0, 0)
    && forall i :: 1 <= i < |u.cns| ==>
         leader.snapshot[i] == if received[i] == 0 then Checkpoint(0, 0) else Answer(u, i)
  }

  function FullSnapshot(u: Setup): seq<Checkpoint>
    requires Proper(u)
  {
    seq(|u.cns|, i requires 0 <= i < |u.cns| => if i == 0 then Checkpoint(0, 0) else Answer(u, i))
  }

  ghost predicate AllFull(u: Setup, taken: seq<seq<Checkpoint>>)
    requires Proper(u)
  {
    forall k :: 0 <= k < |taken| ==> taken[k] == FullSnapshot(u)
  }

  function Sum(xs: seq<nat>): nat { if xs == [] then 0 else xs[0] + Sum(xs[1..]) }

  /** What concerns node 0, and what concerns the network. */
  ghost predicate Collecting(u: Setup, leader: Node, h: History)
    requires Proper(u) && |h.received| == |u.cns|
  {
    && Leader(u, leader, h.started)
    && Outstanding(leader, h.started, h.received)
    && Entries(u, leader, h.received)
    && |h.taken| == leader.iter
  }

  ghost predicate Flowing(u: Setup, net: multiset<Packet>, h: History)
    requires Proper(u)
  {
    && Packets(u, net)
    && Counts(u, net, h.started, h.answered, h.received)
    && h.deliveries == Sum(h.answered) + Sum(h.received)
  }

  /** The invariant for any number of nodes, and what at most 33 nodes have besides. */
  ghost predicate Inv(u: Setup, s: State, h: History)
    requires Proper(u)
  {
    && Shape(s) && HistoryShape(s, h) && |s.nodes| == |u.cns|
    && Others(u, s.nodes, h.answered)
    && Collecting(u, s.nodes[0], h)
    && Flowing(u, s.net, h)
  }

  ghost predicate ExactInv(u: Setup, s: State, h: History)
    requires Proper(u) && 0 < |s.nodes|
  {
    Exact(s.nodes[0], h.started, h.received) && AllFull(u, h.taken)
  }

  // ----- Facts about the parts -----

  lemma {:induction false} SumOfZeros(n: nat)
    ensures Sum(seq(n, _ => 0)) == 0
  {
    if n > 0 {
      assert seq(n, _ => 0)[1..] == seq(n - 1, _ => 0);
      SumOfZeros(n - 1);
    }
  }

  lemma {:induction false} SumAfterOneMore(xs: seq<nat>, i: nat)
    requires i < |xs|
    ensures Sum(xs[i := xs[i] + 1]) == Sum(xs) + 1
  {
    if i == 0 {
      assert xs[i := xs[i] + 1][1..] == xs[1..];
    } else {
      assert xs[i := xs[i] + 1][1..] == xs[1..][i - 1 := xs[1..][i - 1] + 1];
      SumAfterOneMore(xs[1..], i - 1);
    }
  }

  /** Two nodes share a bit of the mask exactly when their numbers agree modulo 32. */
  lemma ClearingIsExact(leader: Node, i: nat, j: nat)
    ensures j % 32 in leader.awaited - NodeBits(i) <==> Awaits(leader, j) && j % 32 != i % 32
  {
  }

  lemma MaskHasEveryOther(n: nat, i: nat)
    requires 1 <= i < n
    ensures i % 32 in MaskBelow(0, n)
  {
    assert i % 32 in NodeBits(i);
    MaskIff(0, n, i % 32);
  }

  lemma MaskIsOk(n: nat)
    ensures AwaitedOk(n, MaskBelow(0, n))
    ensures n > 1 ==> MaskBelow(0, n) != {}
  {
    forall k | k in MaskBelow(0, n) && k >= 32
      ensures 31 in MaskBelow(0, n)
    {
      MaskIff(0, n, k);
      var i: nat :| i < n && i != 0 && k in NodeBits(i);
      assert 31 in NodeBits(i);
      MaskIff(0, n, 31);
    }
    if n > 1 {
      MaskHasEveryOther(n, 1);
    }
  }

  lemma ClearingKeepsOk(n: nat, awaited: set<int>, i: nat)
    requires AwaitedOk(n, awaited)
    ensures AwaitedOk(n, awaited - NodeBits(i))
  {
    forall k | k in awaited - NodeBits(i) && k >= 32
      ensures 31 in awaited - NodeBits(i)
    {
      MaskIff(0, n, k);
    }
  }

  lemma Member<T>(bits: set<T>) returns (k: T)
    requires bits != {}
    ensures k in bits
  {
    k :| k in bits;
  }

  /** The set is empty only when no other node's response is awaited. */
  lemma SomeoneAwaited(leader: Node, n: nat) returns (i: nat)
    requires AwaitedOk(n, leader.awaited) && leader.awaited != {}
    ensures 1 <= i < n && Awaits(leader, i)
  {
    var k := Member(leader.awaited);
    var j := if k >= 32 then 31 else k;
    assert j in leader.awaited;
    MaskIff(0, n, j);
    i :| i < n && i != 0 && j in NodeBits(i);
  }

  lemma MulticastCounts(u: Setup, leader: Node)
    requires Proper(u) && leader.id == 0 && leader.nbNodes == |u.cns| && leader.chkpt.cn == u.cns[0]
    ensures var m := multiset(Multicast(leader));
      && (forall p :: p in m ==> Known(u, p) && p.Request?)
      && forall i :: 1 <= i < |u.cns| ==> m[Ask(u, i)] == 1
  {
    var packets := Multicast(leader);
    forall i | 1 <= i < |u.cns|
      ensures multiset(packets)[Ask(u, i)] == 1
    {
      assert packets == packets[..i - 1] + [packets[i - 1]] + packets[i..];
      assert Ask(u, i) !in packets[..i - 1] && Ask(u, i) !in packets[i..];
    }
  }
}
