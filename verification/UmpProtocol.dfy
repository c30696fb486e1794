/** One UMP channel with its two ends (kbfish/kbfish.c): the atomic steps of kbfish_write and kbfish_read,
    in any interleaving. Each call is cut at every access to shared memory, so that a payload is copied one
    byte at a time and its control word is published by a step of its own. */
module UmpProtocol {
  import opened UmpWire

  /** Where the sending process is inside kbfish_write. */
  datatype SenderPc =
    | SIdle
    | SLoop(msg: seq<Byte>)                                   // while (!ump_can_send(...))
    | SAckPolled(msg: seq<Byte>)                              // recv_ack saw a message and is about to take it
    | SCopying(msg: seq<Byte>, slot: Index, epoch: bool, k: nat)  // k bytes of msg are in the slot

  /** Where the receiving process is inside kbfish_read. count is what the caller asked for. */
  datatype ReceiverPc =
    | RIdle
    | RLoop(count: nat)                                       // while (!ump_endpoint_can_recv(...))
    | RPolled(count: nat)                                     // left the loop, about to call ump_impl_recv
    | RCopying(count: nat, slot: Index, out: seq<Byte>)       // out is what was copied so far
    | RAckCheck(count: nat, again: bool, out: seq<Byte>)      // about to test ump_send_ack_is_needed
    | RAckPublish(count: nat, again: bool, out: seq<Byte>, slot: Index, ctrl: Control)

  /** messageBytes is MESSAGE_BYTES; toReceiver and toSender are the two shared rings. */
  datatype State = State(
    messageBytes: nat,
    s: End,
    r: End,
    toReceiver: seq<Slot>,
    toSender: seq<Slot>,
    spc: SenderPc,
    rpc: ReceiverPc)

  datatype Action =
    | WriteCall(msg: seq<Byte>)
    | SenderStep
    | WriterGivesUp
    | ReadCall(count: nat)
    | ReceiverStep
    | ReaderGivesUp

  function Min(a: nat, b: nat): nat { if a <= b then a else b }

  function Zeros(n: nat): seq<Byte> { seq(n, _ => 0) }

  /** kbfish_init_channel clears both areas and kbfish_open sets both ends up the same way. */
  function NewEnd(n: Index): End {
    End(Chan(0, n, true), Chan(0, n, true), 1, 0, 0, 0, n)
  }

  function NewRing(n: nat, messageBytes: nat): seq<Slot> {
    seq(n, _ => Slot(Zeros(messageBytes), Control(false, 0)))
  }

  function Opened(n: Index, messageBytes: nat): State {
    State(messageBytes, NewEnd(n), NewEnd(n), NewRing(n, messageBytes), NewRing(n, messageBytes), SIdle, RIdle)
  }

  // ----- Shape: what makes every array access of the steps legal -----

  predicate RingShape(ring: seq<Slot>, n: nat, messageBytes: nat) {
    |ring| == n && forall i :: 0 <= i < n ==> |ring[i].data| == messageBytes
  }

  predicate ChanShape(c: Chan, n: nat) {
    c.bufmsgs == n && c.pos < n
  }

  predicate EndShape(e: End, n: nat) {
    ChanShape(e.send, n) && ChanShape(e.recv, n) && e.maxSend == n
  }

  predicate SenderShape(pc: SenderPc, n: nat, messageBytes: nat) {
    match pc
    case SIdle => true
    case SLoop(m) => 0 < |m| <= messageBytes
    case SAckPolled(m) => 0 < |m| <= messageBytes
    case SCopying(m, slot, _, k) => 0 < |m| <= messageBytes && slot < n && k <= |m|
  }

  predicate ReceiverShape(pc: ReceiverPc, n: nat, messageBytes: nat) {
    match pc
    case RCopying(count, slot, out) => slot < n && |out| <= Min(messageBytes, count)
    case RAckPublish(_, _, _, slot, _) => slot < n
    case _ => true
  }

  predicate Shape(s: State) {
    var n := s.s.maxSend;
    && 0 < n
    && EndShape(s.s, n) && EndShape(s.r, n)
    && RingShape(s.toReceiver, n, s.messageBytes) && RingShape(s.toSender, n, s.messageBytes)
    && SenderShape(s.spc, n, s.messageBytes)
    && ReceiverShape(s.rpc, n, s.messageBytes)
  }

  // ----- Ring updates -----

  function PutByte(ring: seq<Slot>, i: nat, k: nat, b: Byte): seq<Slot>
    requires i < |ring| && k < |ring[i].data|
  {
    ring[i := ring[i].(data := ring[i].data[k := b])]
  }

  function PutControl(ring: seq<Slot>, i: nat, c: Control): seq<Slot>
    requires i < |ring|
  {
    ring[i := ring[i].(control := c)]
  }

  // ----- The sender: kbfish_write and recv_ack -----

  function WriteEntry(s: State, msg: seq<Byte>): State {
    if s.spc == SIdle && 0 < |msg| <= s.messageBytes then s.(spc := SLoop(msg)) else s
  }

  /** ump_impl_get_next, once ump_can_send holds. */
  function ClaimSlot(s: State): State
    requires Shape(s) && s.spc.SLoop?
  {
    s.(s := s.s.(send := Advance(s.s.send)), spc := SCopying(s.spc.msg, s.s.send.pos, s.s.send.epoch, 0))
  }

  /** recv_ack after its wait; its loop in kbfish_write tests ump_can_send again. */
  function TakeAck(s: State): State
    requires Shape(s) && s.spc.SAckPolled?
  {
    if Poll(s.toSender, s.s.recv) then
      var control := s.toSender[s.s.recv.pos].control;
      s.(s := ControlProcess(s.s.(recv := Advance(s.s.recv)), control), spc := SLoop(s.spc.msg))
    else s.(spc := SIdle)
  }

  /** One byte of copy_from_user. */
  function CopyByte(s: State): State
    requires Shape(s) && s.spc.SCopying? && s.spc.k < |s.spc.msg|
  {
    s.(toReceiver := PutByte(s.toReceiver, s.spc.slot, s.spc.k, s.spc.msg[s.spc.k]),
       spc := SCopying(s.spc.msg, s.spc.slot, s.spc.epoch, s.spc.k + 1))
  }

  /** ump_control_fill and the store of the control word. */
  function Publish(s: State): State
    requires Shape(s) && s.spc.SCopying?
  {
    s.(toReceiver := PutControl(s.toReceiver, s.spc.slot, Control(s.spc.epoch, FilledHeader(s.s, UMP_MSG))),
       s := ControlFill(s.s),
       spc := SIdle)
  }

  function SenderNext(s: State): State
    requires Shape(s)
  {
    match s.spc
    case SIdle => s
    case SLoop(m) =>
      if CanSend(s.s) then ClaimSlot(s)
      else if Poll(s.toSender, s.s.recv) then s.(spc := SAckPolled(m))
      else s
    case SAckPolled(_) => TakeAck(s)
    case SCopying(m, _, _, k) => if k < |m| then CopyByte(s) else Publish(s)
  }

  // ----- The receiver: kbfish_read -----

  function ReadEntry(s: State, count: nat): State {
    if s.rpc == RIdle then s.(rpc := RLoop(count)) else s
  }

  function ReadDone(count: nat, again: bool): ReceiverPc {
    if again then RLoop(count) else RIdle
  }

  /** ump_impl_recv and ump_control_process; only a message of type UMP_MSG is copied out. */
  function TakeMessage(s: State): State
    requires Shape(s) && s.rpc.RPolled?
  {
    if Poll(s.toReceiver, s.r.recv) then
      var ctrl := s.toReceiver[s.r.recv.pos].control;
      s.(r := ControlProcess(s.r.(recv := Advance(s.r.recv)), ctrl),
         rpc := if TypeOf(ctrl) == UMP_MSG then RCopying(s.rpc.count, s.r.recv.pos, [])
                else RAckCheck(s.rpc.count, true, []))
    else s.(rpc := RIdle)
  }

  /** One byte of copy_to_user, or the end of the copy. */
  function CopyOut(s: State): State
    requires Shape(s) && s.rpc.RCopying?
  {
    var RCopying(count, slot, out) := s.rpc;
    if |out| < Min(s.messageBytes, count) then
      s.(rpc := RCopying(count, slot, out + [s.toReceiver[slot].data[|out|]]))
    else s.(rpc := RAckCheck(count, false, out))
  }

  /** The ACK test; ump_impl_get_next and ump_control_fill when an ACK is due. */
  function TestAck(s: State): State
    requires Shape(s) && s.rpc.RAckCheck?
  {
    var RAckCheck(count, again, out) := s.rpc;
    if !AckIsNeeded(s.r) then s.(rpc := ReadDone(count, again))
    else if !CanSend(s.r) then s.(rpc := RIdle)
    else
      s.(r := ControlFill(s.r.(send := Advance(s.r.send))),
         rpc := RAckPublish(count, again, out, s.r.send.pos, Control(s.r.send.epoch, FilledHeader(s.r, UMP_ACK))))
  }

  /** The store of the ACK's control word. */
  function PublishAck(s: State): State
    requires Shape(s) && s.rpc.RAckPublish?
  {
    s.(toSender := PutControl(s.toSender, s.rpc.slot, s.rpc.ctrl), rpc := ReadDone(s.rpc.count, s.rpc.again))
  }

  function ReceiverNext(s: State): State
    requires Shape(s)
  {
    match s.rpc
    case RIdle => s
    case RLoop(count) => if Poll(s.toReceiver, s.r.recv) then s.(rpc := RPolled(count)) else s
    case RPolled(_) => TakeMessage(s)
    case RCopying(_, _, _) => CopyOut(s)
    case RAckCheck(_, _, _) => TestAck(s)
    case RAckPublish(_, _, _, _, _) => PublishAck(s)
  }

  // ----- Interleavings -----

  /** A call that would block may also return -EAGAIN or -EINTR; it has then taken nothing. */
  function Step(s: State, a: Action): State
    requires Shape(s)
  {
    match a
    case WriteCall(m) => WriteEntry(s, m)
    case SenderStep => SenderNext(s)
    case WriterGivesUp =>
      if s.spc.SLoop? && !CanSend(s.s) && !Poll(s.toSender, s.s.recv) then s.(spc := SIdle) else s
    case ReadCall(count) => ReadEntry(s, count)
    case ReceiverStep => ReceiverNext(s)
    case ReaderGivesUp =>
      if s.rpc.RLoop? && !Poll(s.toReceiver, s.r.recv) then s.(rpc := RIdle) else s
  }

  predicate SameSizes(s: State, s': State) {
    s'.s.maxSend == s.s.maxSend && s'.messageBytes == s.messageBytes
  }

  lemma SenderKeepsShape(s: State)
    requires Shape(s)
    ensures Shape(SenderNext(s)) && SameSizes(s, SenderNext(s))
  {
    AdvanceKeepsShape(s.s.send, s.s.maxSend);
    AdvanceKeepsShape(s.s.recv, s.s.maxSend);
  }

  lemma ReceiverKeepsShape(s: State)
    requires Shape(s)
    ensures Shape(ReceiverNext(s)) && SameSizes(s, ReceiverNext(s))
  {
    AdvanceKeepsShape(s.r.send, s.s.maxSend);
    AdvanceKeepsShape(s.r.recv, s.s.maxSend);
  }

  lemma StepKeepsShape(s: State, a: Action)
    requires Shape(s)
    ensures Shape(Step(s, a)) && SameSizes(s, Step(s, a))
  {
    if a == SenderStep {
      SenderKeepsShape(s);
    } else if a == ReceiverStep {
      ReceiverKeepsShape(s);
    }
  }

  lemma AdvanceKeepsShape(c: Chan, n: nat)
    requires ChanShape(c, n)
    ensures ChanShape(Advance(c), n)
  {
  }

  // ----- What an observer of a run records -----

  /** sent: payloads published by kbfish_write, in order. stamps: how many ACKs the sender had taken when it
      published each of them. acks: how many messages each published ACK acknowledges. delivered and asked:
      the results of successful reads and the sizes their callers asked for. taken, acksTaken: messages taken
      by each end. window, ackSeen: the true value behind the ackId of the sender and of the receiver.
      lastAck: the true value behind lastAck of the receiver. faults: -EIO returns and messages of an
      unexpected type. */
  datatype History = History(
    sent: seq<seq<Byte>>,
    stamps: seq<nat>,
    acks: seq<nat>,
    delivered: seq<seq<Byte>>,
    asked: seq<nat>,
    taken: nat,
    acksTaken: nat,
    window: nat,
    ackSeen: nat,
    lastAck: nat,
    faults: nat)

  const NO_HISTORY: History := History([], [], [], [], [], 0, 0, 0, 0, 0, 0)

  function ValueAt(xs: seq<nat>, i: nat): nat { if i < |xs| then xs[i] else 0 }

  function Returned(h: History, again: bool, count: nat, out: seq<Byte>): History {
    if again then h else h.(delivered := h.delivered + [out], asked := h.asked + [count])
  }

  function TrackSender(h: History, s: State): History
    requires Shape(s)
  {
    match s.spc
    case SAckPolled(m) =>
      if !Poll(s.toSender, s.s.recv) then h.(faults := h.faults + 1)
      else
        var unexpected := if TypeOf(s.toSender[s.s.recv.pos].control) == UMP_ACK then 0 else 1;
        h.(window := ValueAt(h.acks, h.acksTaken), acksTaken := h.acksTaken + 1, faults := h.faults + unexpected)
    case SCopying(m, _, _, k) =>
      if k < |m| then h else h.(sent := h.sent + [m], stamps := h.stamps + [h.acksTaken])
    case _ => h
  }

  function TrackReceiver(h: History, s: State): History
    requires Shape(s)
  {
    match s.rpc
    case RPolled(count) =>
      if !Poll(s.toReceiver, s.r.recv) then h.(faults := h.faults + 1)
      else
        var unexpected := if TypeOf(s.toReceiver[s.r.recv.pos].control) == UMP_MSG then 0 else 1;
        h.(ackSeen := ValueAt(h.stamps, h.taken), taken := h.taken + 1, faults := h.faults + unexpected)
    case RAckCheck(count, again, out) =>
      if !AckIsNeeded(s.r) then Returned(h, again, count, out)
      else if !CanSend(s.r) then h.(faults := h.faults + 1)
      else h.(lastAck := h.taken)
    case RAckPublish(count, again, out, _, _) => Returned(h.(acks := h.acks + [h.lastAck]), again, count, out)
    case _ => h
  }

  function Track(h: History, s: State, a: Action): History
    requires Shape(s)
  {
    if a == SenderStep then TrackSender(h, s)
    else if a == ReceiverStep then TrackReceiver(h, s)
    else h
  }

  /** A run: the state and the record after a schedule. */
  function Run(s: State, h: History, schedule: seq<Action>): (r: (State, History))
    requires Shape(s)
    ensures Shape(r.0)
    decreases |schedule|
  {
    if schedule == [] then (s, h)
    else
      StepKeepsShape(s, schedule[0]);
      Run(Step(s, schedule[0]), Track(h, s, schedule[0]), schedule[1..])
  }

  lemma OpenedShape(n: Index, messageBytes: nat)
    requires 0 < n
    ensures Shape(Opened(n, messageBytes))
  {
  }
}
