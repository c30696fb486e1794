/** What every reachable state of the UMP channel satisfies, and the proof that each step keeps it. The
    invariant speaks of unbounded counters only; the code's 16-bit fields are their residues. */
module UmpInvariant {
  import opened RingArith
  import opened UmpWire
  import opened UmpProtocol

  // ----- Counters behind the fields -----

  function Published(h: History): nat { |h.sent| }

  /** Slots handed out by ump_impl_get_next at each end: published ones and the one being filled. */
  function Claimed(s: State, h: History): nat {
    Published(h) + (if s.spc.SCopying? then 1 else 0)
  }

  function AcksClaimed(s: State, h: History): nat {
    |h.acks| + (if s.rpc.RAckPublish? then 1 else 0)
  }

  predicate MidRead(pc: ReceiverPc) {
    pc.RCopying? || pc.RAckCheck? || pc.RAckPublish?
  }

  predicate BeforeAckTest(pc: ReceiverPc) {
    pc.RCopying? || pc.RAckCheck?
  }

  /** The fields of both ends. */
  ghost predicate Fields(s: State, h: History) {
    var n := s.s.maxSend;
    && n > 0
    && s.s.send == ChanAt(Claimed(s, h), n)
    && s.s.recv == ChanAt(h.acksTaken, n)
    && s.r.send == ChanAt(AcksClaimed(s, h), n)
    && s.r.recv == ChanAt(h.taken, n)
    && s.s.sentId == (Published(h) + 1) % WORD
    && s.s.ackId == h.window % WORD
    && s.s.seqId == h.acksTaken % WORD
    && s.r.sentId == (AcksClaimed(s, h) + 1) % WORD
    && s.r.ackId == h.ackSeen % WORD
    && s.r.seqId == h.taken % WORD
    && s.r.lastAck == h.lastAck % WORD
  }

  /** Flow control: the send window, at most one ACK under way, and ACKs exactly maxSend - 1 apart. */
  predicate Flow(s: State, h: History) {
    var n, p, t, b, a := s.s.maxSend, Published(h), h.taken, h.acksTaken, AcksClaimed(s, h);
    && n >= 2
    && t <= p
    && Claimed(s, h) <= h.window + n - 1
    && |h.acks| >= b && b <= a <= b + 1
    && (a == b ==> h.window == h.lastAck)
    && (a == b + 1 ==> h.lastAck == h.window + n - 1)
    && h.lastAck <= t <= h.lastAck + n - 1
    && (t == h.lastAck + n - 1 ==> BeforeAckTest(s.rpc))
    && (BeforeAckTest(s.rpc) ==> h.lastAck < t)
    && (h.lastAck < t ==> h.ackSeen == a == b)
    && h.ackSeen <= a <= h.ackSeen + 1
    && (|h.acks| == b + 1 ==> h.acks[b] == h.lastAck)
    && (s.spc.SAckPolled? ==> b < |h.acks| && p == h.window + n - 1)
    && (s.rpc.RPolled? ==> t < p)
    && h.faults == 0
  }

  /** Messages numbered from the window on were stamped with all the ACKs taken so far. */
  ghost predicate Stamps(h: History) {
    && |h.stamps| == Published(h)
    && forall j :: h.window <= j < |h.stamps| ==> h.stamps[j] == h.acksTaken
  }

  // ----- Slot contents -----

  predicate Fits(sent: seq<seq<Byte>>, messageBytes: nat) {
    forall i :: 0 <= i < |sent| ==> |sent[i]| <= messageBytes
  }

  /** The payload area of message j's slot once j is published: j's bytes over what the message a lap
      earlier left there. */
  function Image(sent: seq<seq<Byte>>, j: int, n: nat, messageBytes: nat): (r: seq<Byte>)
    requires n > 0 && j < |sent| && Fits(sent, messageBytes)
    ensures |r| == messageBytes
    decreases j + n
  {
    if j < 0 then Zeros(messageBytes)
    else sent[j] + Image(sent, j - n, n, messageBytes)[|sent[j]|..]
  }

  lemma ImageFrame(sent: seq<seq<Byte>>, msg: seq<Byte>, j: int, n: nat, messageBytes: nat)
    requires n > 0 && j < |sent| && Fits(sent + [msg], messageBytes)
    ensures Fits(sent, messageBytes) && Image(sent + [msg], j, n, messageBytes) == Image(sent, j, n, messageBytes)
    decreases j + n
  {
    assert forall i :: 0 <= i < |sent| ==> (sent + [msg])[i] == sent[i];
    if j >= 0 {
      ImageFrame(sent, msg, j - n, n, messageBytes);
    }
  }

  lemma ImageFrameAll(sent: seq<seq<Byte>>, msg: seq<Byte>, n: nat, messageBytes: nat)
    requires n > 0 && Fits(sent + [msg], messageBytes)
    ensures Fits(sent, messageBytes)
    ensures forall j :: j < |sent| ==> Image(sent + [msg], j, n, messageBytes) == Image(sent, j, n, messageBytes)
  {
    assert forall i :: 0 <= i < |sent| ==> (sent + [msg])[i] == sent[i];
    forall j | j < |sent|
      ensures Image(sent + [msg], j, n, messageBytes) == Image(sent, j, n, messageBytes)
    {
      ImageFrame(sent, msg, j, n, messageBytes);
    }
  }

  /** One lap of a ring: the slot of each of the last n messages carries that message's epoch bit. */
  ghost predicate Epochs(ring: seq<Slot>, published: nat, n: nat)
    requires n > 0 && |ring| == n
  {
    forall j :: published - n <= j < published ==> ring[SlotOf(j, n)].control.epoch == EpochAt(j, n)
  }

  /** Unread messages carry type UMP_MSG and their stamp. */
  ghost predicate Headers(ring: seq<Slot>, stamps: seq<nat>, taken: nat, n: nat)
    requires n > 0 && |ring| == n
  {
    forall j :: taken <= j < |stamps| ==>
      ring[SlotOf(j, n)].control.header == UMP_MSG * WORD + stamps[j] % WORD
  }

  /** Slot contents of the last lap before the slot being filled, if any. */
  ghost predicate Payloads(ring: seq<Slot>, sent: seq<seq<Byte>>, claimed: nat, n: nat, messageBytes: nat)
    requires n > 0 && |ring| == n && Fits(sent, messageBytes)
  {
    forall j :: claimed - n <= j < |sent| ==> ring[SlotOf(j, n)].data == Image(sent, j, n, messageBytes)
  }

  /** A half-written slot holds the bytes copied so far over its former contents. */
  ghost predicate HalfWritten(ring: seq<Slot>, pc: SenderPc, sent: seq<seq<Byte>>, n: nat, messageBytes: nat)
    requires n > 0 && RingShape(ring, n, messageBytes) && SenderShape(pc, n, messageBytes) && Fits(sent, messageBytes)
  {
    match pc
    case SCopying(m, slot, epoch, k) =>
      && slot == SlotOf(|sent|, n)
      && epoch == EpochAt(|sent|, n)
      && ring[slot].data == m[..k] + Image(sent, |sent| - n, n, messageBytes)[k..]
    case _ => true
  }

  ghost predicate DataRing(ring: seq<Slot>, pc: SenderPc, sent: seq<seq<Byte>>, stamps: seq<nat>, taken: nat,
                           n: nat, messageBytes: nat)
    requires n > 0 && RingShape(ring, n, messageBytes) && SenderShape(pc, n, messageBytes)
  {
    && |stamps| == |sent|
    && Fits(sent, messageBytes)
    && Epochs(ring, |sent|, n)
    && Headers(ring, stamps, taken, n)
    && Payloads(ring, sent, |sent| + (if pc.SCopying? then 1 else 0), n, messageBytes)
    && HalfWritten(ring, pc, sent, n, messageBytes)
  }

  ghost predicate AckRing(ring: seq<Slot>, pc: ReceiverPc, acks: nat, acksTaken: nat, lastAck: nat, n: nat)
    requires n > 0 && |ring| == n
  {
    && Epochs(ring, acks, n)
    && (acks == acksTaken + 1 ==> ring[SlotOf(acksTaken, n)].control.header == UMP_ACK * WORD + lastAck % WORD)
    && (match pc
        case RAckPublish(_, _, _, slot, ctrl) =>
          && slot == SlotOf(acks, n)
          && ctrl == Control(EpochAt(acks, n), UMP_ACK * WORD + lastAck % WORD)
        case _ => true)
  }

  /** What a read of count bytes returns for message j. */
  ghost function ReadOf(sent: seq<seq<Byte>>, j: nat, count: nat, n: nat, messageBytes: nat): seq<Byte>
    requires 0 < n && j < |sent| && Fits(sent, messageBytes)
  {
    Image(sent, j, n, messageBytes)[..Min(messageBytes, count)]
  }

  /** The read under way works on message taken - 1 and has copied a prefix of its slot. */
  ghost predicate Reading(pc: ReceiverPc, sent: seq<seq<Byte>>, taken: nat, n: nat, messageBytes: nat)
    requires 0 < n && Fits(sent, messageBytes)
  {
    match pc
    case RCopying(count, slot, out) =>
      && 1 <= taken <= |sent| && slot == SlotOf(taken - 1, n)
      && |out| <= Min(messageBytes, count) && out == Image(sent, taken - 1, n, messageBytes)[..|out|]
    case RAckCheck(count, again, out) =>
      1 <= taken <= |sent| && !again && out == ReadOf(sent, taken - 1, count, n, messageBytes)
    case RAckPublish(count, again, out, _, _) =>
      1 <= taken <= |sent| && !again && out == ReadOf(sent, taken - 1, count, n, messageBytes)
    case _ => true
  }

  /** Reads returned the published messages, in order and once each. */
  ghost predicate Delivery(midRead: bool, sent: seq<seq<Byte>>, delivered: seq<seq<Byte>>, asked: seq<nat>,
                           taken: nat, n: nat, messageBytes: nat)
    requires 0 < n && Fits(sent, messageBytes)
  {
    && taken <= |sent|
    && |asked| == |delivered|
    && |delivered| + (if midRead then 1 else 0) == taken
    && forall i :: 0 <= i < |delivered| ==> delivered[i] == ReadOf(sent, i, asked[i], n, messageBytes)
  }

  ghost predicate Inv(s: State, h: History) {
    var n, m := s.s.maxSend, s.messageBytes;
    && Shape(s)
    && Fields(s, h)
    && Flow(s, h)
    && Stamps(h)
    && DataRing(s.toReceiver, s.spc, h.sent, h.stamps, h.taken, n, m)
    && AckRing(s.toSender, s.rpc, |h.acks|, h.acksTaken, h.lastAck, n)
    && Reading(s.rpc, h.sent, h.taken, n, m)
    && Delivery(MidRead(s.rpc), h.sent, h.delivered, h.asked, h.taken, n, m)
  }

  // ----- Initially -----

  lemma InvInitially(n: Index, messageBytes: nat)
    requires 2 <= n
    ensures Inv(Opened(n, messageBytes), NO_HISTORY)
  {
    var s := Opened(n, messageBytes);
    DivModUnique(0, n, 0, 0);
    forall j | 0 - n <= j < 0
      ensures EpochAt(j, n) == false && s.toReceiver[SlotOf(j, n)].data == Image([], j, n, messageBytes)
    {
      DivModUnique(j, n, -1, j + n);
    }
  }

  // ----- What the code's tests mean on the counters -----

  lemma SenderWindowTest(s: State, h: History)
    requires Shape(s) && Fields(s, h) && Flow(s, h) && !s.spc.SCopying?
    ensures CanSend(s.s) <==> Published(h) + 1 - h.window < s.s.maxSend
  {
    WrappedDifference(Published(h) + 1, h.window);
  }

  lemma AckTest(s: State, h: History)
    requires Shape(s) && Fields(s, h) && Flow(s, h)
    ensures AckIsNeeded(s.r) <==> h.taken - h.lastAck >= s.s.maxSend - 1
  {
    WrappedDifference(h.taken, h.lastAck);
  }

  lemma ReceiverWindowTest(s: State, h: History)
    requires Shape(s) && Fields(s, h) && Flow(s, h)
    ensures CanSend(s.r) <==> AcksClaimed(s, h) + 1 - h.ackSeen < s.s.maxSend
  {
    WrappedDifference(AcksClaimed(s, h) + 1, h.ackSeen);
  }

  lemma DataPoll(s: State, h: History)
    requires Shape(s) && Fields(s, h) && Flow(s, h) && Epochs(s.toReceiver, Published(h), s.s.maxSend)
    ensures Poll(s.toReceiver, s.r.recv) <==> h.taken < Published(h)
  {
    var n, p, t := s.s.maxSend, Published(h), h.taken;
    if t == p {
      LapBack(p, n);
      assert s.toReceiver[SlotOf(p - n, n)].control.epoch == EpochAt(p - n, n);
    } else {
      assert s.toReceiver[SlotOf(t, n)].control.epoch == EpochAt(t, n);
    }
  }

  lemma AckPoll(s: State, h: History)
    requires Shape(s) && Fields(s, h) && Flow(s, h) && Epochs(s.toSender, |h.acks|, s.s.maxSend)
    ensures Poll(s.toSender, s.s.recv) <==> h.acksTaken < |h.acks|
  {
    var n, a, b := s.s.maxSend, |h.acks|, h.acksTaken;
    if a == b {
      LapBack(a, n);
      assert s.toSender[SlotOf(a - n, n)].control.epoch == EpochAt(a - n, n);
    } else {
      assert s.toSender[SlotOf(b, n)].control.epoch == EpochAt(b, n);
    }
  }
}
