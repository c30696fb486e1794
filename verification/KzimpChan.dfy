/** The kzimp channel of kzimp/kzimp_allMessagesArea as a value, and its operations as functions. A bitmap, an
    unsigned long in the code, is the set of the positions of its set bits, 0 to 63. */
module KzimpChan {
  import opened IntBits

  type Byte = x: int | 0 <= x < 256

  /** struct kzimp_message: readers that still have to read it, length, and its data area. */
  datatype Slot = Slot(bitmap: set<int>, len: nat, data: seq<Byte>)

  /** struct kzimp_ctrl of a reader. */
  datatype Ctrl = Ctrl(nextRead: nat, bit: int, online: bool)

  /** struct kzimp_comm_chan. maxMsg is max_msg_size; readers is the list of control structures. */
  datatype Chan = Chan(maxMsg: nat, mask: set<int>, slots: seq<Slot>, nextWrite: nat, readers: seq<Ctrl>)

  predicate Shape(c: Chan) {
    && 0 < |c.slots|
    && c.nextWrite < |c.slots|
    && (forall j :: 0 <= j < |c.slots| ==> |c.slots[j].data| == c.maxMsg && c.slots[j].len <= c.maxMsg)
    && (forall i :: 0 <= i < |c.readers| ==> c.readers[i].nextRead < |c.slots|)
  }

  predicate WriterCanWrite(bitmap: set<int>) { bitmap == {} }

  // reader_can_read computes bitmap & (1 << bit) with an int 1 and returns the result as an int.

  predicate ReaderCanRead(bitmap: set<int>, bit: int) {
    Truncated(bitmap * SignExtended(IntShift(bit))) != {}
  }

  /** For readers with one of the first 32 bits, the test is on the reader's own bit. */
  lemma ReaderTestIsExact(bitmap: set<int>, bit: int)
    requires 0 <= bit < 32
    ensures ReaderCanRead(bitmap, bit) <==> bit in bitmap
  {
    var tested := Truncated(bitmap * SignExtended(IntShift(bit)));
    if bit in bitmap {
      assert bit in tested;
    } else {
      assert forall k :: k in tested ==> k == bit;
    }
  }

  /** get_new_bitmap_bit hands out 64 bits, but the test is right on every bitmap for the first 32 only. */
  lemma ReaderTestIsExactIff(bit: int)
    requires 0 <= bit < NR_BITS
    ensures (forall bitmap :: ReaderCanRead(bitmap, bit) <==> bit in bitmap) <==> bit < 32
  {
    if bit < 32 {
      forall bitmap: set<int>
        ensures ReaderCanRead(bitmap, bit) <==> bit in bitmap
      {
        ReaderTestIsExact(bitmap, bit);
      }
    } else {
      var low := {bit - 32};
      assert bit - 32 in Truncated(low * SignExtended(IntShift(bit)));
      assert ReaderCanRead(low, bit) && bit !in low;
    }
  }

  /** find_first_zero_bit from a position on; NR_BITS when every bit is set. */
  function FirstZero(mask: set<int>, from: nat): (b: nat)
    requires from <= NR_BITS
    ensures from <= b <= NR_BITS
    ensures b < NR_BITS ==> b !in mask
    ensures forall k :: from <= k < b ==> k in mask
    decreases NR_BITS - from
  {
    if from == NR_BITS || from !in mask then from else FirstZero(mask, from + 1)
  }

  /** get_new_bitmap_bit: the reader's bit, -1 when all are taken. */
  function NewBit(mask: set<int>): int {
    var b := FirstZero(mask, 0);
    if b == NR_BITS then -1 else b
  }

  /** A bit is handed out exactly while one is free, and it is the least. */
  lemma NewBitIff(mask: set<int>)
    ensures NewBit(mask) == -1 <==> forall k :: 0 <= k < NR_BITS ==> k in mask
    ensures NewBit(mask) != -1 ==>
      0 <= NewBit(mask) < NR_BITS && NewBit(mask) !in mask && forall k :: 0 <= k < NewBit(mask) ==> k in mask
  {
  }

  function MaskWith(mask: set<int>, bit: int): set<int> {
    if bit == -1 then mask else mask + {bit}
  }

  /** kzimp_open in read mode. */
  function Open(c: Chan): Chan {
    var bit := NewBit(c.mask);
    c.(mask := MaskWith(c.mask, bit), readers := c.readers + [Ctrl(c.nextWrite, bit, true)])
  }

  /** A reader that finds all bits taken is listed all the same, without one. */
  lemma OpenWhenFull(c: Chan)
    requires forall k :: 0 <= k < NR_BITS ==> k in c.mask
    ensures Open(c) == c.(readers := c.readers + [Ctrl(c.nextWrite, -1, true)])
  {
    NewBitIff(c.mask);
  }

  /** clear_bit on one slot, and the loop of kzimp_release over all of them. */
  function ClearBit(s: Slot, bit: int): Slot { s.(bitmap := s.bitmap - {bit}) }

  function ClearBitEverywhere(slots: seq<Slot>, bit: int): seq<Slot> {
    seq(|slots|, j requires 0 <= j < |slots| => ClearBit(slots[j], bit))
  }

  function Removed<T>(xs: seq<T>, i: nat): seq<T>
    requires i < |xs|
  {
    xs[..i] + xs[i + 1..]
  }

  /** kzimp_release of reader i. */
  function Release(c: Chan, i: nat): Chan
    requires i < |c.readers|
  {
    var bit := c.readers[i].bit;
    c.(mask := c.mask - {bit}, slots := ClearBitEverywhere(c.slots, bit), readers := Removed(c.readers, i))
  }

  /** finalize_read of reader i. */
  function FinalizeRead(c: Chan, i: nat): Chan
    requires Shape(c) && i < |c.readers|
  {
    var r := c.readers[i];
    if r.online then
      c.(slots := c.slots[r.nextRead := ClearBit(c.slots[r.nextRead], r.bit)],
         readers := c.readers[i := r.(nextRead := (r.nextRead + 1) % |c.slots|)])
    else c
  }

  /** handle_timeout's treatment of one slot and of one reader, for the captured bitmap. */
  function ExpelSlot(s: Slot, captured: set<int>): Slot {
    if s.bitmap != {} then s.(bitmap := s.bitmap - captured) else s
  }

  function ExpelReader(r: Ctrl, captured: set<int>): Ctrl {
    if ReaderCanRead(captured, r.bit) then r.(online := false) else r
  }

  /** The locked part of handle_timeout. */
  function Expel(c: Chan, captured: set<int>): Chan {
    c.(mask := c.mask - captured,
       slots := seq(|c.slots|, j requires 0 <= j < |c.slots| => ExpelSlot(c.slots[j], captured)),
       readers := seq(|c.readers|, i requires 0 <= i < |c.readers| => ExpelReader(c.readers[i], captured)))
  }

  /** kzimp_write takes the next slot. */
  function Claim(c: Chan): Chan
    requires Shape(c)
  {
    c.(nextWrite := (c.nextWrite + 1) % |c.slots|)
  }

  /** copy_from_user into slot m. */
  function Fill(c: Chan, m: nat, msg: seq<Byte>): Chan
    requires Shape(c) && m < |c.slots| && |msg| <= c.maxMsg
  {
    c.(slots := c.slots[m := c.slots[m].(data := msg + c.slots[m].data[|msg|..])])
  }

  /** kzimp_finalize_write on slot m. */
  function Publish(c: Chan, m: nat, count: nat): Chan
    requires Shape(c) && m < |c.slots|
  {
    c.(slots := c.slots[m := c.slots[m].(len := count, bitmap := c.mask)])
  }

  /** What a read of count bytes copies out of a slot. */
  function ReadOut(s: Slot, count: nat): seq<Byte>
    requires s.len <= |s.data|
  {
    s.data[..if s.len < count then s.len else count]
  }

  /** kzimp_init_channel. */
  function New(n: nat, maxMsg: nat, area: seq<seq<Byte>>): Chan
    requires |area| == n
  {
    Chan(maxMsg, {}, seq(n, j requires 0 <= j < n => Slot({}, 0, area[j])), 0, [])
  }
}
