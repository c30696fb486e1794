/** The inline functions of the UMP channel (kbfish/kbfish.h) as functions on values: ring positions and
    epochs, 16-bit sequence numbers, and the control word that carries an epoch bit, a message type and
    an acknowledgement. */
module UmpWire {
  import opened RingArith

  /** ump_index_t is a uint16_t, so positions and sequence numbers wrap at this value. */
  const WORD: int := 0x1_0000

  type Index = x: int | 0 <= x < 0x1_0000
  type Byte = x: int | 0 <= x < 256

  /** The two message types of enum ump_msgtype. */
  const UMP_MSG: nat := 0
  const UMP_ACK: nat := 1

  /** struct ump_control: one epoch bit, and a header holding (type << 16) | sequence number. */
  datatype Control = Control(epoch: bool, header: nat)

  /** struct ump_message: the payload area and its control word. */
  datatype Slot = Slot(data: seq<Byte>, control: Control)

  /** struct ump_chan_state without the buffer pointer. */
  datatype Chan = Chan(pos: Index, bufmsgs: Index, epoch: bool)

  /** struct ump_channel: what one end knows. */
  datatype End = End(
    send: Chan,
    recv: Chan,
    sentId: Index,
    seqId: Index,
    ackId: Index,
    lastAck: Index,
    maxSend: Index)

  /** The position update shared by ump_impl_get_next and ump_impl_recv. */
  function Advance(c: Chan): Chan {
    var next := (c.pos + 1) % WORD;
    if next == c.bufmsgs then Chan(0, c.bufmsgs, !c.epoch) else c.(pos := next)
  }

  /** ump_control_fill: the header sent, and the end after it. */
  function FilledHeader(e: End, msgtype: nat): nat {
    msgtype * WORD + e.seqId
  }

  function ControlFill(e: End): End {
    e.(lastAck := e.seqId, sentId := (e.sentId + 1) % WORD)
  }

  /** ump_control_process: the end after it, and the message type it reports. */
  function ControlProcess(e: End, c: Control): End {
    e.(ackId := c.header % WORD, seqId := (e.seqId + 1) % WORD)
  }

  function TypeOf(c: Control): nat {
    c.header / WORD
  }

  predicate CanSend(e: End) {
    (e.sentId - e.ackId) % WORD < e.maxSend
  }

  predicate AckIsNeeded(e: End) {
    (e.seqId - e.lastAck) % WORD >= e.maxSend - 1
  }

  /** ump_impl_poll: true iff it returns a message. */
  predicate Poll(ring: seq<Slot>, c: Chan)
    requires c.pos < |ring|
  {
    ring[c.pos].control.epoch == c.epoch
  }

  // ----- Unbounded message numbers -----

  /** The epoch bit of message number j. Negative numbers stand for the state before the first message: all
      slots carry epoch bit 0. */
  function EpochAt(j: int, n: int): bool
    requires n > 0
  {
    (j / n) % 2 == 0
  }

  function ChanAt(j: int, n: Index): Chan
    requires n > 0
  {
    Chan(SlotOf(j, n), n, EpochAt(j, n))
  }

  /** One lap earlier: the same slot with the opposite epoch bit. */
  lemma LapBack(j: int, n: int)
    requires n > 0
    ensures SlotOf(j - n, n) == SlotOf(j, n)
    ensures EpochAt(j - n, n) == !EpochAt(j, n)
  {
    LapBackSlot(j, n);
    assert j - n == (j / n - 1) * n + j % n;
    DivModUnique(j - n, n, j / n - 1, j % n);
  }

  /** Lap and position of the next message number. */
  lemma NextInLap(j: int, n: int)
    requires n > 0
    ensures if j % n + 1 == n then (j + 1) / n == j / n + 1 && (j + 1) % n == 0
            else (j + 1) / n == j / n && (j + 1) % n == j % n + 1
  {
    var q, r := j / n, j % n;
    assert j == q * n + r;
    if r + 1 == n {
      assert j + 1 == (q + 1) * n + 0;
      DivModUnique(j + 1, n, q + 1, 0);
    } else {
      DivModUnique(j + 1, n, q, r + 1);
    }
  }

  /** Advance implements the successor of a message number. */
  lemma AdvanceIsSuccessor(j: int, n: Index)
    requires n > 0
    ensures Advance(ChanAt(j, n)) == ChanAt(j + 1, n)
  {
    NextInLap(j, n);
  }

  /** A wrapped difference is the true one as long as the true one fits in 16 bits. */
  lemma WrappedDifference(x: int, y: int)
    requires 0 <= x - y < WORD
    ensures (x % WORD - y % WORD) % WORD == x - y
  {
    var d := x - y;
    assert x % WORD - y % WORD == d - (x / WORD - y / WORD) * WORD;
    var k := y / WORD - x / WORD;
    assert x % WORD - y % WORD == k * WORD + d;
    DivModUnique(x % WORD - y % WORD, WORD, k, d);
  }

  lemma WrappedSuccessor(x: int)
    ensures (x % WORD + 1) % WORD == (x + 1) % WORD
  {
  }
}
