/** The channel as the C code keeps it: two ends with mutable fields over two shared slot arrays. Each method
    changes them in place and is proved against the step function it stands for. */
module UmpChannel {
  import opened UmpWire
  import opened UmpProtocol
  import opened UmpInvariant
  import opened UmpPreservation

  /** struct ump_channel, with its two struct ump_chan_state written out. */
  class UmpEnd {
    const sendBuf: array<Slot>
    const recvBuf: array<Slot>
    var sendPos: Index
    var sendEpoch: bool
    var recvPos: Index
    var recvEpoch: bool
    const bufmsgs: Index
    var sentId: Index
    var seqId: Index
    var ackId: Index
    var lastAck: Index

    function View(): End
      reads this
    {
      End(Chan(sendPos, bufmsgs, sendEpoch), Chan(recvPos, bufmsgs, recvEpoch), sentId, seqId, ackId, lastAck, bufmsgs)
    }

    predicate Valid()
      reads this
    {
      sendBuf.Length == recvBuf.Length == bufmsgs && sendPos < bufmsgs && recvPos < bufmsgs
    }

    constructor (sendBuf: array<Slot>, recvBuf: array<Slot>, n: Index)
      requires 0 < n && sendBuf.Length == recvBuf.Length == n
      ensures Valid() && View() == NewEnd(n) && this.sendBuf == sendBuf && this.recvBuf == recvBuf
    {
      this.sendBuf, this.recvBuf, bufmsgs := sendBuf, recvBuf, n;
      sendPos, sendEpoch, recvPos, recvEpoch := 0, true, 0, true;
      sentId, seqId, ackId, lastAck := 1, 0, 0, 0;
    }

    /** ump_impl_get_next. */
    method GetNext() returns (slot: Index, epoch: bool)
      requires Valid()
      modifies this`sendPos, this`sendEpoch
      ensures Valid() && View() == old(View()).(send := Advance(old(View()).send))
      ensures slot == old(sendPos) && epoch == old(sendEpoch)
    {
      epoch, slot := sendEpoch, sendPos;
      sendPos := (sendPos + 1) % WORD;
      if sendPos == bufmsgs {
        sendPos := 0;
        sendEpoch := !sendEpoch;
      }
    }

    /** ump_impl_poll. */
    method PollNext() returns (found: bool)
      requires Valid()
      ensures found == Poll(recvBuf[..], View().recv)
    {
      var ctrl := recvBuf[recvPos].control;
      found := ctrl.epoch == recvEpoch;
    }

    /** ump_impl_recv: the slot of the message taken; found is false for NULL. */
    method Receive() returns (found: bool, slot: Index)
      requires Valid()
      modifies this`recvPos, this`recvEpoch
      ensures Valid() && found == Poll(recvBuf[..], old(View()).recv) && slot == old(recvPos)
      ensures View() == if found then old(View()).(recv := Advance(old(View()).recv)) else old(View())
    {
      slot := recvPos;
      found := PollNext();
      if found {
        recvPos := (recvPos + 1) % WORD;
        if recvPos == bufmsgs {
          recvPos := 0;
          recvEpoch := !recvEpoch;
        }
      }
    }

    /** ump_control_fill. */
    method Fill(msgtype: nat) returns (header: nat)
      requires Valid()
      modifies this`lastAck, this`sentId
      ensures Valid() && View() == ControlFill(old(View())) && header == FilledHeader(old(View()), msgtype)
    {
      header := msgtype * WORD + seqId;
      lastAck := seqId;
      sentId := (sentId + 1) % WORD;
    }

    /** ump_control_process. */
    method Process(ctrl: Control) returns (msgtype: nat)
      requires Valid()
      modifies this`ackId, this`seqId
      ensures Valid() && View() == ControlProcess(old(View()), ctrl) && msgtype == TypeOf(ctrl)
    {
      ackId := ctrl.header % WORD;
      seqId := (seqId + 1) % WORD;
      msgtype := ctrl.header / WORD;
    }
  }

  /** struct kbfish_channel with both ends open. */
  class Kbfish {
    const messageBytes: nat
    const toReceiver: array<Slot>
    const toSender: array<Slot>
    const s: UmpEnd
    const r: UmpEnd
    var spc: SenderPc
    var rpc: ReceiverPc

    function View(): State
      reads this, s, r, toReceiver, toSender
    {
      State(messageBytes, s.View(), r.View(), toReceiver[..], toSender[..], spc, rpc)
    }

    ghost predicate Valid()
      reads this, s, r, toReceiver, toSender
    {
      && s != r && toReceiver != toSender
      && s.sendBuf == toReceiver && s.recvBuf == toSender && r.sendBuf == toSender && r.recvBuf == toReceiver
      && s.Valid() && r.Valid() && s.bufmsgs == r.bufmsgs
      && Shape(View())
    }

    /** kbfish_init_channel and one kbfish_open by each end. */
    constructor (n: Index, messageBytes: nat)
      requires 0 < n
      ensures Valid() && View() == Opened(n, messageBytes)
      ensures fresh(s) && fresh(r) && fresh(toReceiver) && fresh(toSender)
    {
      var empty := Slot(Zeros(messageBytes), Control(false, 0));
      var data := new Slot[n](_ => empty);
      var acks := new Slot[n](_ => empty);
      var sender := new UmpEnd(data, acks, n);
      var receiver := new UmpEnd(acks, data, n);
      this.messageBytes, toReceiver, toSender, s, r := messageBytes, data, acks, sender, receiver;
      spc, rpc := SIdle, RIdle;
      new;
      OpenedShape(n, messageBytes);
      assert toReceiver[..] == NewRing(n, messageBytes) && toSender[..] == NewRing(n, messageBytes);
    }

    /** kbfish_write up to and including ump_impl_get_next, or one turn of its wait. */
    method StepWaiting()
      requires Valid() && spc.SLoop?
      modifies this`spc, s
      ensures Valid() && View() == SenderNext(old(View()))
    {
      ghost var before := View();
      StepKeepsShape(before, SenderStep);
      if (s.sentId - s.ackId) % WORD < s.bufmsgs {
        var slot, epoch := s.GetNext();
        spc := SCopying(spc.msg, slot, epoch, 0);
      } else {
        var found := s.PollNext();
        if found {
          spc := SAckPolled(spc.msg);
        }
      }
    }

    /** recv_ack once a message is there. */
    method StepTakeAck()
      requires Valid() && spc.SAckPolled?
      modifies this`spc, s
      ensures Valid() && View() == SenderNext(old(View()))
    {
      ghost var before := View();
      StepKeepsShape(before, SenderStep);
      var found, slot := s.Receive();
      if !found {
        spc := SIdle;
      } else {
        var _ := s.Process(toSender[slot].control);
        spc := SLoop(spc.msg);
      }
    }

    /** One byte of the copy, or ump_control_fill and the control word that publishes the message. */
    method StepCopyIn()
      requires Valid() && spc.SCopying?
      modifies this`spc, s, toReceiver
      ensures Valid() && View() == SenderNext(old(View()))
    {
      ghost var before := View();
      StepKeepsShape(before, SenderStep);
      var SCopying(msg, slot, epoch, k) := spc;
      if k < |msg| {
        toReceiver[slot] := toReceiver[slot].(data := toReceiver[slot].data[k := msg[k]]);
        spc := SCopying(msg, slot, epoch, k + 1);
      } else {
        var header := s.Fill(UMP_MSG);
        toReceiver[slot] := toReceiver[slot].(control := Control(epoch, header));
        spc := SIdle;
      }
    }

    method StepSender()
      requires Valid()
      modifies this`spc, s, toReceiver
      ensures Valid() && View() == SenderNext(old(View()))
    {
      match spc
      case SIdle =>
      case SLoop(_) => StepWaiting();
      case SAckPolled(_) => StepTakeAck();
      case SCopying(_, _, _, _) => StepCopyIn();
    }

    /** kbfish_read up to and including ump_control_process. */
    method StepTakeMessage()
      requires Valid() && (rpc.RLoop? || rpc.RPolled?)
      modifies this`rpc, r
      ensures Valid() && View() == ReceiverNext(old(View()))
    {
      ghost var before := View();
      StepKeepsShape(before, ReceiverStep);
      var count := rpc.count;
      if rpc.RLoop? {
        var found := r.PollNext();
        if found {
          rpc := RPolled(count);
        }
      } else {
        var found, slot := r.Receive();
        if !found {
          rpc := RIdle;
        } else {
          var msgtype := r.Process(toReceiver[slot].control);
          rpc := if msgtype == UMP_MSG then RCopying(count, slot, []) else RAckCheck(count, true, []);
        }
      }
    }

    /** One byte of copy_to_user, or its end. */
    method StepCopyOut()
      requires Valid() && rpc.RCopying?
      modifies this`rpc
      ensures Valid() && View() == ReceiverNext(old(View()))
    {
      ghost var before := View();
      StepKeepsShape(before, ReceiverStep);
      var RCopying(count, slot, out) := rpc;
      if |out| < Min(messageBytes, count) {
        rpc := RCopying(count, slot, out + [toReceiver[slot].data[|out|]]);
      } else {
        rpc := RAckCheck(count, false, out);
      }
    }

    /** The acknowledgement at the end of kbfish_read, in two steps. */
    method StepAcknowledge()
      requires Valid() && (rpc.RAckCheck? || rpc.RAckPublish?)
      modifies this`rpc, r, toSender
      ensures Valid() && View() == ReceiverNext(old(View()))
    {
      ghost var before := View();
      StepKeepsShape(before, ReceiverStep);
      match rpc
      case RAckPublish(count, again, _, slot, ctrl) =>
        toSender[slot] := toSender[slot].(control := ctrl);
        rpc := ReadDone(count, again);
      case RAckCheck(count, again, out) =>
        if (r.seqId - r.lastAck) % WORD < r.bufmsgs - 1 {
          rpc := ReadDone(count, again);
        } else if (r.sentId - r.ackId) % WORD >= r.bufmsgs {
          rpc := RIdle;
        } else {
          var slot, epoch := r.GetNext();
          var header := r.Fill(UMP_ACK);
          rpc := RAckPublish(count, again, out, slot, Control(epoch, header));
        }
    }

    method StepReceiver()
      requires Valid()
      modifies this`rpc, r, toSender
      ensures Valid() && View() == ReceiverNext(old(View()))
    {
      match rpc
      case RIdle =>
      case RLoop(_) => StepTakeMessage();
      case RPolled(_) => StepTakeMessage();
      case RCopying(_, _, _) => StepCopyOut();
      case RAckCheck(_, _, _) => StepAcknowledge();
      case RAckPublish(_, _, _, _, _) => StepAcknowledge();
    }

    method StepCall(a: Action)
      requires Valid() && a != SenderStep && a != ReceiverStep
      modifies this`spc, this`rpc
      ensures Valid() && View() == Step(old(View()), a)
    {
      ghost var before := View();
      StepKeepsShape(before, a);
      match a
      case WriteCall(m) => if spc == SIdle && 0 < |m| <= messageBytes { spc := SLoop(m); }
      case ReadCall(count) => if rpc == RIdle { rpc := RLoop(count); }
      case WriterGivesUp =>
        var found := s.PollNext();
        if spc.SLoop? && (s.sentId - s.ackId) % WORD >= s.bufmsgs && !found { spc := SIdle; }
      case ReaderGivesUp =>
        var found := r.PollNext();
        if rpc.RLoop? && !found { rpc := RIdle; }
      case _ =>
    }

    /** Any interleaving of the two processes, run in place. */
    method Drive(schedule: seq<Action>)
      requires Valid()
      modifies this`spc, this`rpc, s, r, toReceiver, toSender
      ensures Valid() && View() == Run(old(View()), NO_HISTORY, schedule).0
      ensures Inv(old(View()), NO_HISTORY) ==> Inv(View(), Run(old(View()), NO_HISTORY, schedule).1)
    {
      if Inv(View(), NO_HISTORY) {
        RunKeeps(View(), NO_HISTORY, schedule);
      }
      var i := 0;
      ghost var h := NO_HISTORY;
      while i < |schedule|
        invariant 0 <= i <= |schedule| && Valid()
        invariant Run(View(), h, schedule[i..]) == Run(old(View()), NO_HISTORY, schedule)
      {
        ghost var before := View();
        h := Track(h, before, schedule[i]);
        if schedule[i] == SenderStep {
          StepSender();
        } else if schedule[i] == ReceiverStep {
          StepReceiver();
        } else {
          StepCall(schedule[i]);
        }
        assert View() == Step(before, schedule[i]);
        i := i + 1;
      }
    }
  }
}
