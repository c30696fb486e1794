/** The promises of the UMP channel, for every ring size the code supports and every interleaving. */
module UmpTheorems {
  import opened RingArith
  import opened UmpWire
  import opened UmpProtocol
  import opened UmpInvariant
  import opened UmpPreservation

  function After(n: Index, messageBytes: nat, schedule: seq<Action>): (State, History)
    requires 0 < n
  {
    OpenedShape(n, messageBytes);
    Run(Opened(n, messageBytes), NO_HISTORY, schedule)
  }

  lemma ReachableInv(n: Index, messageBytes: nat, schedule: seq<Action>)
    requires 2 <= n
    ensures var (s, h) := After(n, messageBytes, schedule);
      Inv(s, h) && s.s.maxSend == n && s.messageBytes == messageBytes
  {
    InvInitially(n, messageBytes);
    RunKeeps(Opened(n, messageBytes), NO_HISTORY, schedule);
    RunKeepsSize(Opened(n, messageBytes), NO_HISTORY, schedule);
  }

  lemma {:induction false} RunKeepsSize(s: State, h: History, schedule: seq<Action>)
    requires Shape(s)
    ensures Run(s, h, schedule).0.s.maxSend == s.s.maxSend
    ensures Run(s, h, schedule).0.messageBytes == s.messageBytes
    decreases |schedule|
  {
    if schedule != [] {
      StepKeepsShape(s, schedule[0]);
      RunKeepsSize(Step(s, schedule[0]), Track(h, s, schedule[0]), schedule[1..]);
    }
  }

  // ----- First in, first out, exactly once -----

  /** Read number i returned message number i. It is as long as its caller asked for, up to MESSAGE_BYTES;
      past the message's own length it shows what the slot held a lap earlier, zeros on the first lap. */
  lemma FifoExactlyOnce(n: Index, messageBytes: nat, schedule: seq<Action>)
    requires 2 <= n
    ensures var (s, h) := After(n, messageBytes, schedule);
      && |h.delivered| == |h.asked| <= |h.sent|
      && Fits(h.sent, messageBytes)
      && forall i :: 0 <= i < |h.delivered| ==>
           var r, m := h.delivered[i], h.sent[i];
           && |r| == Min(messageBytes, h.asked[i])
           && (forall k :: 0 <= k < |r| && k < |m| ==> r[k] == m[k])
           && (forall k :: |m| <= k < |r| ==> r[k] == if i < n then 0 else Image(h.sent, i - n, n, messageBytes)[k])
  {
    ReachableInv(n, messageBytes, schedule);
    var (s, h) := After(n, messageBytes, schedule);
    forall i | 0 <= i < |h.delivered|
      ensures h.delivered[i] == ReadOf(h.sent, i, h.asked[i], n, messageBytes)
      ensures i < n ==> Image(h.sent, i - n, n, messageBytes) == Zeros(messageBytes)
    {
    }
  }

  /** A read returns exactly the message iff its caller asked for the message's own length, or for more when
      the message fills the slot: messages carry no length. */
  lemma ReadIsMessageIff(n: Index, messageBytes: nat, schedule: seq<Action>, i: nat)
    requires 2 <= n && i < |After(n, messageBytes, schedule).1.delivered|
    ensures var h := After(n, messageBytes, schedule).1;
      && i < |h.sent| && i < |h.asked|
      && (h.delivered[i] == h.sent[i] <==> Min(messageBytes, h.asked[i]) == |h.sent[i]|)
  {
    FifoExactlyOnce(n, messageBytes, schedule);
  }

  /** While a read copies, its slot holds the whole message: it is neither half-written nor overwritten,
      although the sender may be filling another slot. */
  lemma ReaderSeesWholeMessage(n: Index, messageBytes: nat, schedule: seq<Action>)
    requires 2 <= n
    ensures var (s, h) := After(n, messageBytes, schedule);
      s.rpc.RCopying? ==>
        && 1 <= h.taken <= |h.sent|
        && Fits(h.sent, messageBytes)
        && s.rpc.slot < |s.toReceiver|
        && s.toReceiver[s.rpc.slot].data == Image(h.sent, h.taken - 1, n, messageBytes)
        && (s.spc.SCopying? ==> s.spc.slot != s.rpc.slot)
  {
    ReachableInv(n, messageBytes, schedule);
    var (s, h) := After(n, messageBytes, schedule);
    if s.rpc.RCopying? {
      assert Claimed(s, h) - n <= h.taken - 1 < |h.sent|;
      assert s.toReceiver[SlotOf(h.taken - 1, n)].data == Image(h.sent, h.taken - 1, n, messageBytes);
      LapSlots(|h.sent|, n);
    }
  }

  // ----- Epoch bits -----

  /** ump_impl_poll finds a message exactly when one is unread, on both rings and over any number of laps. */
  lemma EpochBitIsExact(n: Index, messageBytes: nat, schedule: seq<Action>)
    requires 2 <= n
    ensures var (s, h) := After(n, messageBytes, schedule);
      && s.r.recv.pos < |s.toReceiver| && s.s.recv.pos < |s.toSender|
      && (Poll(s.toReceiver, s.r.recv) <==> h.taken < |h.sent|)
      && (Poll(s.toSender, s.s.recv) <==> h.acksTaken < |h.acks|)
  {
    ReachableInv(n, messageBytes, schedule);
    var (s, h) := After(n, messageBytes, schedule);
    DataPoll(s, h);
    AckPoll(s, h);
  }

  // ----- Wrapping counters -----

  /** The 16-bit tests decide the same as the unbounded counts, and at most n - 1 messages are unread. */
  lemma WrappingTestsAreExact(n: Index, messageBytes: nat, schedule: seq<Action>)
    requires 2 <= n
    ensures var (s, h) := After(n, messageBytes, schedule);
      && (!s.spc.SCopying? ==> (CanSend(s.s) <==> |h.sent| + 1 - h.window < n))
      && (CanSend(s.r) <==> AcksClaimed(s, h) + 1 - h.ackSeen < n)
      && (AckIsNeeded(s.r) <==> h.taken - h.lastAck >= n - 1)
      && 0 <= |h.sent| - h.taken <= n - 1
  {
    ReachableInv(n, messageBytes, schedule);
    var (s, h) := After(n, messageBytes, schedule);
    if !s.spc.SCopying? {
      SenderWindowTest(s, h);
    }
    ReceiverWindowTest(s, h);
    AckTest(s, h);
  }

  /** The slot the sender fills is the slot of no unread message. */
  lemma ClaimedSlotIsFree(n: Index, messageBytes: nat, schedule: seq<Action>)
    requires 2 <= n
    ensures var (s, h) := After(n, messageBytes, schedule);
      s.spc.SCopying? ==> forall j :: h.taken <= j < |h.sent| ==> s.spc.slot != SlotOf(j, n)
  {
    ReachableInv(n, messageBytes, schedule);
    var (s, h) := After(n, messageBytes, schedule);
    if s.spc.SCopying? {
      LapSlots(|h.sent|, n);
      forall j | h.taken <= j < |h.sent|
        ensures s.spc.slot != SlotOf(j, n)
      {
        assert |h.sent| - n < j < |h.sent|;
      }
    }
  }

  // ----- Acknowledgements -----

  /** No call ever returns -EIO, no end ever takes a message of an unexpected type, at most one ACK is under
      way, and an ACK that is due can be sent. */
  lemma AcksNeverFail(n: Index, messageBytes: nat, schedule: seq<Action>)
    requires 2 <= n
    ensures var (s, h) := After(n, messageBytes, schedule);
      && h.faults == 0
      && h.acksTaken <= |h.acks| <= h.acksTaken + 1
      && (s.rpc.RAckCheck? && AckIsNeeded(s.r) ==> CanSend(s.r) && h.acksTaken == |h.acks|)
  {
    ReachableInv(n, messageBytes, schedule);
    var (s, h) := After(n, messageBytes, schedule);
    if s.rpc.RAckCheck? {
      TestAckCounters(s, h);
    }
  }

  /** One ACK ends the wait of kbfish_write, and opens the window by n - 1. */
  lemma OneAckEndsTheWait(n: Index, messageBytes: nat, schedule: seq<Action>)
    requires 2 <= n && After(n, messageBytes, schedule).0.spc.SAckPolled?
    ensures var (s, h) := After(n, messageBytes, schedule);
      && SenderNext(s).spc == SLoop(s.spc.msg)
      && CanSend(SenderNext(s).s)
      && TrackSender(h, s).window == h.window + n - 1
  {
    ReachableInv(n, messageBytes, schedule);
    var (s, h) := After(n, messageBytes, schedule);
    TakeAckKeeps(s, h);
    TakeAckCounters(s, h);
  }

  // ----- What a call does with what it does not expect -----

  /** A message of another type is not returned: the read sends the ACK that may be due and waits again, or fails when
      it cannot send it. */
  lemma OtherTypesAreSkipped(s: State, h: History)
    requires Shape(s) && s.rpc.RPolled? && Poll(s.toReceiver, s.r.recv)
    requires TypeOf(s.toReceiver[s.r.recv.pos].control) != UMP_MSG
    ensures var s1, h1 := ReceiverNext(s), TrackReceiver(h, s);
      && Shape(s1)
      && var s2, h2 := ReceiverNext(s1), TrackReceiver(h1, s1);
         && Shape(s2) && h2.delivered == h.delivered
         && (!AckIsNeeded(s1.r) ==> s2 == s1.(rpc := RLoop(s.rpc.count)))
         && (AckIsNeeded(s1.r) && !CanSend(s1.r) ==> s2 == s1.(rpc := RIdle))
         && (AckIsNeeded(s1.r) && CanSend(s1.r) ==>
               ReceiverNext(s2).rpc == RLoop(s.rpc.count) && TrackReceiver(h2, s2).delivered == h.delivered)
  {
    StepKeepsShape(s, ReceiverStep);
    StepKeepsShape(ReceiverNext(s), ReceiverStep);
  }

  /** A call that finds no message after its wait fails, and changes nothing. */
  lemma NoMessageFails(s: State)
    requires Shape(s)
    ensures s.rpc.RPolled? && !Poll(s.toReceiver, s.r.recv) ==> ReceiverNext(s) == s.(rpc := RIdle)
    ensures s.spc.SAckPolled? && !Poll(s.toSender, s.s.recv) ==> SenderNext(s) == s.(spc := SIdle)
  {
  }

  // ----- Deadlock -----

  predicate SenderBlocked(s: State)
    requires Shape(s)
  {
    s.spc.SLoop? && !CanSend(s.s) && !Poll(s.toSender, s.s.recv)
  }

  predicate ReceiverBlocked(s: State)
    requires Shape(s)
  {
    s.rpc.RLoop? && !Poll(s.toReceiver, s.r.recv)
  }

  predicate Deadlocked(s: State)
    requires Shape(s)
  {
    SenderBlocked(s) && ReceiverBlocked(s)
  }

  lemma NotDeadlocked(s: State, h: History)
    requires Inv(s, h)
    ensures !Deadlocked(s)
  {
    if Deadlocked(s) {
      SenderWindowTest(s, h);
      DataPoll(s, h);
      AckPoll(s, h);
      assert false;
    }
  }

  /** A one-slot ring never lets the sender send. */
  lemma OneSlotDeadlocks(messageBytes: nat)
    requires 0 < messageBytes
    ensures Deadlocked(After(1, messageBytes, [WriteCall([0]), ReadCall(1)]).0)
  {
    var s := Opened(1, messageBytes);
    OpenedShape(1, messageBytes);
    var s1 := Step(s, WriteCall([0]));
    StepKeepsShape(s, WriteCall([0]));
    var s2 := Step(s1, ReadCall(1));
    StepKeepsShape(s1, ReadCall(1));
    var rest := [ReadCall(1)];
    assert [WriteCall([0]), ReadCall(1)][1..] == rest && rest[1..] == [];
    assert Run(s, NO_HISTORY, [WriteCall([0]), ReadCall(1)]) == Run(s1, NO_HISTORY, rest) == (s2, NO_HISTORY);
  }

  /** The channel is free of deadlock exactly when it has at least two slots. */
  lemma DeadlockFreeIff(n: Index, messageBytes: nat)
    requires 0 < n && 0 < messageBytes
    ensures (forall schedule :: !Deadlocked(After(n, messageBytes, schedule).0)) <==> 2 <= n
  {
    if 2 <= n {
      forall schedule
        ensures !Deadlocked(After(n, messageBytes, schedule).0)
      {
        ReachableInv(n, messageBytes, schedule);
        var (s, h) := After(n, messageBytes, schedule);
        NotDeadlocked(s, h);
      }
    } else {
      OneSlotDeadlocks(messageBytes);
    }
  }
}
