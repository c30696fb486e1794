/** Every step of either end keeps the invariant. Each atomic step gets one lemma on the counters and, where
    it writes a ring, one on that ring. */
module UmpPreservation {
  import opened RingArith
  import opened UmpWire
  import opened UmpProtocol
  import opened UmpInvariant

  // ----- Sender: claiming a slot -----

  lemma ClaimSlotCounters(s: State, h: History)
    requires Shape(s) && Fields(s, h) && Flow(s, h) && s.spc.SLoop? && CanSend(s.s)
    ensures Fields(ClaimSlot(s), h) && Flow(ClaimSlot(s), h)
  {
    SenderWindowTest(s, h);
    AdvanceIsSuccessor(Published(h), s.s.maxSend);
  }

  lemma ClaimSlotRing(ring: seq<Slot>, msg: seq<Byte>, sent: seq<seq<Byte>>, stamps: seq<nat>, taken: nat,
                      n: Index, messageBytes: nat)
    requires n > 0 && RingShape(ring, n, messageBytes) && 0 < |msg| <= messageBytes
    requires DataRing(ring, SLoop(msg), sent, stamps, taken, n, messageBytes)
    ensures DataRing(ring, SCopying(msg, SlotOf(|sent|, n), EpochAt(|sent|, n), 0),
              sent, stamps, taken, n, messageBytes)
  {
    LapBack(|sent|, n);
    var below := Image(sent, |sent| - n, n, messageBytes);
    assert ring[SlotOf(|sent| - n, n)].data == below;
    assert msg[..0] + below[0..] == below;
  }

  lemma ClaimSlotKeeps(s: State, h: History)
    requires Inv(s, h) && s.spc.SLoop? && CanSend(s.s)
    ensures Inv(ClaimSlot(s), h)
  {
    AdvanceKeepsShape(s.s.send, s.s.maxSend);
    ClaimSlotCounters(s, h);
    ClaimSlotRing(s.toReceiver, s.spc.msg, h.sent, h.stamps, h.taken, s.s.maxSend, s.messageBytes);
  }

  // ----- Sender: waiting for and taking an ACK -----

  lemma PollAckKeeps(s: State, h: History)
    requires Inv(s, h) && s.spc.SLoop? && !CanSend(s.s) && Poll(s.toSender, s.s.recv)
    ensures Inv(s.(spc := SAckPolled(s.spc.msg)), h)
  {
    SenderWindowTest(s, h);
    AckPoll(s, h);
  }

  /** An ACK under way is an ACK, and it carries the receiver's count. */
  lemma AckHeader(s: State, h: History)
    requires Inv(s, h) && h.acksTaken < |h.acks|
    ensures s.toSender[s.s.recv.pos].control.header == UMP_ACK * WORD + h.lastAck % WORD
    ensures TypeOf(s.toSender[s.s.recv.pos].control) == UMP_ACK
    ensures s.toSender[s.s.recv.pos].control.header % WORD == h.lastAck % WORD
  {
    DivModUnique(UMP_ACK * WORD + h.lastAck % WORD, WORD, UMP_ACK, h.lastAck % WORD);
  }

  /** The sender's fields after an ACK. */
  lemma TakeAckEnd(s: State, h: History)
    requires Shape(s) && Fields(s, h) && s.spc.SAckPolled? && Poll(s.toSender, s.s.recv)
    requires s.toSender[s.s.recv.pos].control.header % WORD == h.lastAck % WORD
    ensures TakeAck(s).s == s.s.(recv := ChanAt(h.acksTaken + 1, s.s.maxSend), ackId := h.lastAck % WORD,
                                 seqId := (h.acksTaken + 1) % WORD)
  {
    AdvanceIsSuccessor(h.acksTaken, s.s.maxSend);
    WrappedSuccessor(h.acksTaken);
  }

  /** The ACK taken is the last one sent. */
  lemma TakeAckTrack(s: State, h: History)
    requires Inv(s, h) && s.spc.SAckPolled?
    ensures h.lastAck == h.window + s.s.maxSend - 1
    ensures TrackSender(h, s) == h.(window := h.lastAck, acksTaken := h.acksTaken + 1)
  {
    AckPoll(s, h);
    AckHeader(s, h);
  }

  lemma TakeAckFields(s: State, h: History, s': State, h': History)
    requires Fields(s, h) && s.spc.SAckPolled?
    requires s' == s.(s := s'.s, spc := SLoop(s.spc.msg))
    requires s'.s == s.s.(recv := ChanAt(h.acksTaken + 1, s.s.maxSend), ackId := h.lastAck % WORD,
                          seqId := (h.acksTaken + 1) % WORD)
    requires h' == h.(window := h.lastAck, acksTaken := h.acksTaken + 1)
    ensures Fields(s', h')
  {
  }

  lemma TakeAckFlow(s: State, h: History, s': State, h': History)
    requires Flow(s, h) && s.spc.SAckPolled? && h.acksTaken < |h.acks| && h.lastAck == h.window + s.s.maxSend - 1
    requires s' == s.(s := s'.s, spc := SLoop(s.spc.msg)) && s'.s.maxSend == s.s.maxSend
    requires h' == h.(window := h.lastAck, acksTaken := h.acksTaken + 1)
    ensures Flow(s', h')
  {
  }

  lemma TakeAckCounters(s: State, h: History)
    requires Inv(s, h) && s.spc.SAckPolled?
    ensures Poll(s.toSender, s.s.recv)
    ensures Fields(TakeAck(s), TrackSender(h, s)) && Flow(TakeAck(s), TrackSender(h, s))
    ensures TrackSender(h, s).window == h.window + s.s.maxSend - 1
  {
    AckPoll(s, h);
    AckHeader(s, h);
    TakeAckEnd(s, h);
    TakeAckTrack(s, h);
    TakeAckFields(s, h, TakeAck(s), TrackSender(h, s));
    TakeAckFlow(s, h, TakeAck(s), TrackSender(h, s));
  }

  lemma TakeAckKeeps(s: State, h: History)
    requires Inv(s, h) && s.spc.SAckPolled?
    ensures Inv(TakeAck(s), TrackSender(h, s))
    ensures TakeAck(s).spc == SLoop(s.spc.msg) && CanSend(TakeAck(s).s)
  {
    AdvanceKeepsShape(s.s.recv, s.s.maxSend);
    TakeAckCounters(s, h);
    SenderWindowTest(TakeAck(s), TrackSender(h, s));
  }

  // ----- Sender: copying a payload -----

  lemma PutByteKeeps(ring: seq<Slot>, pc: SenderPc, sent: seq<seq<Byte>>, stamps: seq<nat>, taken: nat,
                     n: Index, messageBytes: nat)
    requires n > 0 && RingShape(ring, n, messageBytes) && SenderShape(pc, n, messageBytes)
    requires DataRing(ring, pc, sent, stamps, taken, n, messageBytes)
    requires pc.SCopying? && pc.k < |pc.msg| && |sent| < taken + n
    ensures RingShape(PutByte(ring, pc.slot, pc.k, pc.msg[pc.k]), n, messageBytes)
    ensures DataRing(PutByte(ring, pc.slot, pc.k, pc.msg[pc.k]), SCopying(pc.msg, pc.slot, pc.epoch, pc.k + 1),
                     sent, stamps, taken, n, messageBytes)
  {
    var p, k, ring' := |sent|, pc.k, PutByte(ring, pc.slot, pc.k, pc.msg[pc.k]);
    LapSlots(p, n);
    var below := Image(sent, p - n, n, messageBytes);
    assert ring'[pc.slot].data == pc.msg[..k + 1] + below[k + 1..];
    forall j | taken <= j < p
      ensures SlotOf(j, n) != pc.slot
    {
      assert p - n < j < p;
    }
    assert Headers(ring', stamps, taken, n);
    assert Payloads(ring', sent, p + 1, n, messageBytes);
  }

  lemma CopyByteKeeps(s: State, h: History)
    requires Inv(s, h) && s.spc.SCopying? && s.spc.k < |s.spc.msg|
    ensures Inv(CopyByte(s), h)
  {
    PutByteKeeps(s.toReceiver, s.spc, h.sent, h.stamps, h.taken, s.s.maxSend, s.messageBytes);
  }

  // ----- Sender: publishing -----

  lemma PublishCounters(s: State, h: History)
    requires Shape(s) && Fields(s, h) && Flow(s, h) && Stamps(h) && s.spc.SCopying? && s.spc.k == |s.spc.msg|
    ensures var h' := TrackSender(h, s); Fields(Publish(s), h') && Flow(Publish(s), h') && Stamps(h')
  {
    WrappedSuccessor(Published(h) + 1);
  }

  lemma PutControlKeeps(ring: seq<Slot>, pc: SenderPc, sent: seq<seq<Byte>>, stamps: seq<nat>, taken: nat,
                        stamp: nat, n: Index, messageBytes: nat)
    requires n > 0 && RingShape(ring, n, messageBytes) && SenderShape(pc, n, messageBytes)
    requires DataRing(ring, pc, sent, stamps, taken, n, messageBytes)
    requires pc.SCopying? && pc.k == |pc.msg| && taken <= |sent| < taken + n
    ensures var ring' := PutControl(ring, pc.slot, Control(pc.epoch, UMP_MSG * WORD + stamp % WORD));
      && RingShape(ring', n, messageBytes)
      && DataRing(ring', SIdle, sent + [pc.msg], stamps + [stamp], taken, n, messageBytes)
  {
    var p, ring' := |sent|, PutControl(ring, pc.slot, Control(pc.epoch, UMP_MSG * WORD + stamp % WORD));
    var sent', stamps' := sent + [pc.msg], stamps + [stamp];
    LapSlots(p, n);
    assert Fits(sent', messageBytes);
    ImageFrameAll(sent, pc.msg, n, messageBytes);
    assert pc.msg[..|pc.msg|] == pc.msg;
    assert ring'[pc.slot].data == Image(sent', p, n, messageBytes);
    PublishedEpochs(ring, ring', p, pc.slot, n);
    PublishedHeaders(ring, ring', stamps, stamp, taken, pc.slot, n);
    PublishedPayloads(ring, ring', sent, pc.msg, pc.slot, n, messageBytes);
  }

  lemma PublishedEpochs(ring: seq<Slot>, ring': seq<Slot>, p: nat, slot: nat, n: nat)
    requires n > 0 && |ring| == |ring'| == n && slot == SlotOf(p, n) && Epochs(ring, p, n)
    requires ring' == ring[slot := ring'[slot]] && ring'[slot].control.epoch == EpochAt(p, n)
    ensures Epochs(ring', p + 1, n)
  {
    LapSlots(p, n);
  }

  lemma PublishedHeaders(ring: seq<Slot>, ring': seq<Slot>, stamps: seq<nat>, stamp: nat, taken: nat, slot: nat, n: nat)
    requires n > 0 && |ring| == |ring'| == n && slot == SlotOf(|stamps|, n) && Headers(ring, stamps, taken, n)
    requires taken <= |stamps| < taken + n
    requires ring' == ring[slot := ring'[slot]]
    requires ring'[slot].control.header == UMP_MSG * WORD + stamp % WORD
    ensures Headers(ring', stamps + [stamp], taken, n)
  {
    LapSlots(|stamps|, n);
    forall j | taken <= j < |stamps|
      ensures ring'[SlotOf(j, n)] == ring[SlotOf(j, n)]
    {
      assert |stamps| - n < j < |stamps|;
    }
  }

  lemma PublishedPayloads(ring: seq<Slot>, ring': seq<Slot>, sent: seq<seq<Byte>>, msg: seq<Byte>, slot: nat, n: nat,
                          messageBytes: nat)
    requires n > 0 && |ring| == |ring'| == n && slot == SlotOf(|sent|, n)
    requires Fits(sent + [msg], messageBytes) && Fits(sent, messageBytes)
    requires Payloads(ring, sent, |sent| + 1, n, messageBytes)
    requires ring' == ring[slot := ring'[slot]]
    requires ring'[slot].data == Image(sent + [msg], |sent|, n, messageBytes)
    ensures Payloads(ring', sent + [msg], |sent| + 1, n, messageBytes)
  {
    LapSlots(|sent|, n);
    ImageFrameAll(sent, msg, n, messageBytes);
    forall j | |sent| + 1 - n <= j < |sent| + 1
      ensures ring'[SlotOf(j, n)].data == Image(sent + [msg], j, n, messageBytes)
    {
      if j < |sent| {
        assert |sent| - n < j < |sent|;
        assert ring[SlotOf(j, n)].data == Image(sent, j, n, messageBytes);
      }
    }
  }

  /** Publishing one more message changes no earlier read. */
  lemma ReadsFrame(pc: ReceiverPc, sent: seq<seq<Byte>>, msg: seq<Byte>, delivered: seq<seq<Byte>>, asked: seq<nat>,
                   taken: nat, n: nat, messageBytes: nat)
    requires n > 0 && Fits(sent, messageBytes) && Fits(sent + [msg], messageBytes)
    requires Reading(pc, sent, taken, n, messageBytes)
    requires Delivery(MidRead(pc), sent, delivered, asked, taken, n, messageBytes)
    ensures Reading(pc, sent + [msg], taken, n, messageBytes)
    ensures Delivery(MidRead(pc), sent + [msg], delivered, asked, taken, n, messageBytes)
  {
    ImageFrameAll(sent, msg, n, messageBytes);
  }

  lemma PublishRest(s: State, h: History)
    requires Inv(s, h) && s.spc.SCopying? && s.spc.k == |s.spc.msg|
    ensures var s', h' := Publish(s), TrackSender(h, s);
      && Shape(s') && Fits(h'.sent, s.messageBytes)
      && DataRing(s'.toReceiver, s'.spc, h'.sent, h'.stamps, h'.taken, s.s.maxSend, s.messageBytes)
      && Reading(s'.rpc, h'.sent, h'.taken, s.s.maxSend, s.messageBytes)
      && Delivery(MidRead(s'.rpc), h'.sent, h'.delivered, h'.asked, h'.taken, s.s.maxSend, s.messageBytes)
  {
    PutControlKeeps(s.toReceiver, s.spc, h.sent, h.stamps, h.taken, h.acksTaken, s.s.maxSend, s.messageBytes);
    ReadsFrame(s.rpc, h.sent, s.spc.msg, h.delivered, h.asked, h.taken, s.s.maxSend, s.messageBytes);
  }

  lemma PublishKeeps(s: State, h: History)
    requires Inv(s, h) && s.spc.SCopying? && s.spc.k == |s.spc.msg|
    ensures Inv(Publish(s), TrackSender(h, s))
  {
    PublishCounters(s, h);
    PublishRest(s, h);
  }

  lemma SenderKeeps(s: State, h: History)
    requires Inv(s, h)
    ensures Inv(SenderNext(s), TrackSender(h, s))
  {
    match s.spc
    case SIdle =>
    case SLoop(_) =>
      if CanSend(s.s) {
        ClaimSlotKeeps(s, h);
      } else if Poll(s.toSender, s.s.recv) {
        PollAckKeeps(s, h);
      }
    case SAckPolled(_) => TakeAckKeeps(s, h);
    case SCopying(m, _, _, k) => if k < |m| { CopyByteKeeps(s, h); } else { PublishKeeps(s, h); }
  }

  // ----- Receiver: taking a message -----

  lemma PollDataKeeps(s: State, h: History)
    requires Inv(s, h) && s.rpc.RLoop? && Poll(s.toReceiver, s.r.recv)
    ensures Inv(s.(rpc := RPolled(s.rpc.count)), h)
  {
    DataPoll(s, h);
  }

  /** An unread message is of type UMP_MSG and carries its stamp. */
  lemma MessageHeader(s: State, h: History)
    requires Inv(s, h) && h.taken < Published(h)
    ensures TypeOf(s.toReceiver[s.r.recv.pos].control) == UMP_MSG
    ensures s.toReceiver[s.r.recv.pos].control.header % WORD == h.stamps[h.taken] % WORD
  {
    var stamp := h.stamps[h.taken] % WORD;
    assert s.toReceiver[SlotOf(h.taken, s.s.maxSend)].control.header == UMP_MSG * WORD + stamp;
    DivModUnique(stamp, WORD, 0, stamp);
  }

  /** The receiver's fields after a message. */
  lemma TakeMessageEnd(s: State, h: History)
    requires Shape(s) && Fields(s, h) && s.rpc.RPolled? && Poll(s.toReceiver, s.r.recv)
    requires s.toReceiver[s.r.recv.pos].control.header % WORD == h.acksTaken % WORD
    ensures TakeMessage(s).r == s.r.(recv := ChanAt(h.taken + 1, s.s.maxSend), ackId := h.acksTaken % WORD,
                                     seqId := (h.taken + 1) % WORD)
  {
    AdvanceIsSuccessor(h.taken, s.s.maxSend);
    WrappedSuccessor(h.taken);
  }

  lemma TakeMessageFields(s: State, h: History, s': State, h': History)
    requires Fields(s, h) && s.rpc.RPolled?
    requires s'.rpc.RCopying? && s' == s.(r := s'.r, rpc := s'.rpc)
    requires s'.r == s.r.(recv := ChanAt(h.taken + 1, s.s.maxSend), ackId := h.acksTaken % WORD,
                          seqId := (h.taken + 1) % WORD)
    requires h' == h.(taken := h.taken + 1, ackSeen := h.acksTaken)
    ensures Fields(s', h')
  {
  }

  lemma TakeMessageFlow(s: State, h: History, s': State, h': History)
    requires Flow(s, h) && s.rpc.RPolled? && h.taken < Published(h)
    requires s'.rpc.RCopying? && s'.s == s.s && s'.spc == s.spc
    requires h' == h.(taken := h.taken + 1, ackSeen := h.acksTaken)
    ensures Flow(s', h')
  {
  }

  lemma TakeMessageCounters(s: State, h: History)
    requires Inv(s, h) && s.rpc.RPolled?
    ensures Poll(s.toReceiver, s.r.recv) && h.taken < Published(h)
    ensures TakeMessage(s).rpc == RCopying(s.rpc.count, SlotOf(h.taken, s.s.maxSend), [])
    ensures Fields(TakeMessage(s), TrackReceiver(h, s)) && Flow(TakeMessage(s), TrackReceiver(h, s))
    ensures TrackReceiver(h, s) == h.(taken := h.taken + 1, ackSeen := h.acksTaken)
  {
    DataPoll(s, h);
    MessageHeader(s, h);
    TakeMessageEnd(s, h);
    TakeMessageFields(s, h, TakeMessage(s), TrackReceiver(h, s));
    TakeMessageFlow(s, h, TakeMessage(s), TrackReceiver(h, s));
  }

  /** What is unread, and what has been read, after a message is taken. */
  lemma TakeMessageRest(ring: seq<Slot>, pc: SenderPc, sent: seq<seq<Byte>>, stamps: seq<nat>, taken: nat,
                        delivered: seq<seq<Byte>>, asked: seq<nat>, count: nat, n: Index, messageBytes: nat)
    requires n > 0 && RingShape(ring, n, messageBytes) && SenderShape(pc, n, messageBytes)
    requires DataRing(ring, pc, sent, stamps, taken, n, messageBytes) && taken < |sent|
    requires Delivery(false, sent, delivered, asked, taken, n, messageBytes)
    ensures DataRing(ring, pc, sent, stamps, taken + 1, n, messageBytes)
    ensures Reading(RCopying(count, SlotOf(taken, n), []), sent, taken + 1, n, messageBytes)
    ensures Delivery(true, sent, delivered, asked, taken + 1, n, messageBytes)
  {
  }

  lemma TakeMessageKeeps(s: State, h: History)
    requires Inv(s, h) && s.rpc.RPolled?
    ensures Inv(TakeMessage(s), TrackReceiver(h, s))
  {
    AdvanceKeepsShape(s.r.recv, s.s.maxSend);
    TakeMessageCounters(s, h);
    TakeMessageRest(s.toReceiver, s.spc, h.sent, h.stamps, h.taken, h.delivered, h.asked, s.rpc.count, s.s.maxSend,
                    s.messageBytes);
  }

  // ----- Receiver: copying it out -----

  lemma CopyOutKeeps(s: State, h: History)
    requires Inv(s, h) && s.rpc.RCopying?
    ensures Inv(CopyOut(s), h)
  {
    var n, t := s.s.maxSend, h.taken;
    var image := Image(h.sent, t - 1, n, s.messageBytes);
    assert s.toReceiver[SlotOf(t - 1, n)].data == image;
    var k := |s.rpc.out|;
    if k < Min(s.messageBytes, s.rpc.count) {
      assert image[..k] + [image[k]] == image[..k + 1];
    }
    CopyOutCounters(s, h);
  }

  lemma CopyOutCounters(s: State, h: History)
    requires Shape(s) && Fields(s, h) && Flow(s, h) && s.rpc.RCopying?
    ensures Fields(CopyOut(s), h) && Flow(CopyOut(s), h)
  {
  }

  // ----- Receiver: acknowledging -----

  /** When an ACK is due it can be sent: the receiver has seen all its earlier ACKs taken. */
  lemma TestAckCounters(s: State, h: History)
    requires Shape(s) && Fields(s, h) && Flow(s, h) && s.rpc.RAckCheck? && !s.rpc.again
    ensures Fields(TestAck(s), TrackReceiver(h, s)) && Flow(TestAck(s), TrackReceiver(h, s))
    ensures AckIsNeeded(s.r) ==> CanSend(s.r)
    ensures AckIsNeeded(s.r) ==> h.taken == h.lastAck + s.s.maxSend - 1 && h.acksTaken == |h.acks|
  {
    AckTest(s, h);
    ReceiverWindowTest(s, h);
    AdvanceIsSuccessor(|h.acks|, s.s.maxSend);
    WrappedSuccessor(|h.acks| + 1);
  }

  lemma TestAckRest(s: State, h: History)
    requires Inv(s, h) && s.rpc.RAckCheck? && (AckIsNeeded(s.r) ==> CanSend(s.r) && h.acksTaken == |h.acks|)
    ensures var s', h' := TestAck(s), TrackReceiver(h, s);
      && Shape(s')
      && AckRing(s'.toSender, s'.rpc, |h'.acks|, h'.acksTaken, h'.lastAck, s.s.maxSend)
      && Reading(s'.rpc, h'.sent, h'.taken, s.s.maxSend, s.messageBytes)
      && Delivery(MidRead(s'.rpc), h'.sent, h'.delivered, h'.asked, h'.taken, s.s.maxSend, s.messageBytes)
  {
    AdvanceKeepsShape(s.r.send, s.s.maxSend);
  }

  lemma TestAckKeeps(s: State, h: History)
    requires Inv(s, h) && s.rpc.RAckCheck?
    ensures Inv(TestAck(s), TrackReceiver(h, s))
  {
    TestAckCounters(s, h);
    TestAckRest(s, h);
  }

  lemma PutAckKeeps(ring: seq<Slot>, pc: ReceiverPc, acks: nat, acksTaken: nat, lastAck: nat, n: nat)
    requires n > 0 && |ring| == n && pc.RAckPublish? && pc.slot < n && acks == acksTaken
    requires AckRing(ring, pc, acks, acksTaken, lastAck, n)
    ensures AckRing(PutControl(ring, pc.slot, pc.ctrl), RIdle, acks + 1, acksTaken, lastAck, n)
  {
    PublishedEpochs(ring, PutControl(ring, pc.slot, pc.ctrl), acks, pc.slot, n);
  }

  lemma PublishAckCounters(s: State, h: History)
    requires Shape(s) && Fields(s, h) && Flow(s, h) && s.rpc.RAckPublish? && !s.rpc.again
    ensures Shape(PublishAck(s))
    ensures Fields(PublishAck(s), TrackReceiver(h, s)) && Flow(PublishAck(s), TrackReceiver(h, s))
  {
  }

  lemma PublishAckRing(s: State, h: History)
    requires Inv(s, h) && s.rpc.RAckPublish?
    ensures var s', h' := PublishAck(s), TrackReceiver(h, s);
      Shape(s') && AckRing(s'.toSender, s'.rpc, |h'.acks|, h'.acksTaken, h'.lastAck, s.s.maxSend)
  {
    PutAckKeeps(s.toSender, s.rpc, |h.acks|, h.acksTaken, h.lastAck, s.s.maxSend);
  }

  lemma PublishAckRest(s: State, h: History)
    requires Inv(s, h) && s.rpc.RAckPublish?
    ensures var s', h' := PublishAck(s), TrackReceiver(h, s);
      && Reading(s'.rpc, h'.sent, h'.taken, s.s.maxSend, s.messageBytes)
      && Delivery(MidRead(s'.rpc), h'.sent, h'.delivered, h'.asked, h'.taken, s.s.maxSend, s.messageBytes)
  {
  }

  lemma PublishAckKeeps(s: State, h: History)
    requires Inv(s, h) && s.rpc.RAckPublish?
    ensures Inv(PublishAck(s), TrackReceiver(h, s))
  {
    PublishAckCounters(s, h);
    PublishAckRing(s, h);
    PublishAckRest(s, h);
  }

  lemma ReceiverKeeps(s: State, h: History)
    requires Inv(s, h)
    ensures Inv(ReceiverNext(s), TrackReceiver(h, s))
  {
    match s.rpc
    case RIdle =>
    case RLoop(_) => if Poll(s.toReceiver, s.r.recv) { PollDataKeeps(s, h); }
    case RPolled(_) => TakeMessageKeeps(s, h);
    case RCopying(_, _, _) => CopyOutKeeps(s, h);
    case RAckCheck(_, _, _) => TestAckKeeps(s, h);
    case RAckPublish(_, _, _, _, _) => PublishAckKeeps(s, h);
  }

  // ----- Any step, any run -----

  lemma SenderCallKeeps(s: State, h: History, pc: SenderPc)
    requires Inv(s, h) && (s.spc.SIdle? || s.spc.SLoop?) && (pc.SIdle? || pc.SLoop?)
    requires SenderShape(pc, s.s.maxSend, s.messageBytes)
    ensures Inv(s.(spc := pc), h)
  {
    assert Fields(s.(spc := pc), h) && Flow(s.(spc := pc), h);
  }

  lemma ReceiverCallKeeps(s: State, h: History, pc: ReceiverPc)
    requires Inv(s, h) && (s.rpc.RIdle? || s.rpc.RLoop?) && (pc.RIdle? || pc.RLoop?)
    ensures Inv(s.(rpc := pc), h)
  {
    assert Fields(s.(rpc := pc), h) && Flow(s.(rpc := pc), h);
  }

  lemma CallKeeps(s: State, h: History, a: Action)
    requires Inv(s, h) && a != SenderStep && a != ReceiverStep
    ensures Inv(Step(s, a), h)
  {
    match a
    case WriteCall(m) => if s.spc == SIdle && 0 < |m| <= s.messageBytes { SenderCallKeeps(s, h, SLoop(m)); }
    case WriterGivesUp => if s.spc.SLoop? { SenderCallKeeps(s, h, SIdle); }
    case ReadCall(count) => if s.rpc == RIdle { ReceiverCallKeeps(s, h, RLoop(count)); }
    case ReaderGivesUp => if s.rpc.RLoop? { ReceiverCallKeeps(s, h, RIdle); }
    case _ =>
  }

  lemma StepKeeps(s: State, h: History, a: Action)
    requires Inv(s, h)
    ensures Inv(Step(s, a), Track(h, s, a))
  {
    if a == SenderStep {
      SenderKeeps(s, h);
    } else if a == ReceiverStep {
      ReceiverKeeps(s, h);
    } else {
      CallKeeps(s, h, a);
    }
  }

  lemma {:induction false} RunKeeps(s: State, h: History, schedule: seq<Action>)
    requires Inv(s, h)
    ensures Inv(Run(s, h, schedule).0, Run(s, h, schedule).1)
    decreases |schedule|
  {
    if schedule != [] {
      StepKeeps(s, h, schedule[0]);
      RunKeeps(Step(s, schedule[0]), Track(h, s, schedule[0]), schedule[1..]);
    }
  }
}
