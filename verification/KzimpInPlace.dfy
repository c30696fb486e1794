/** The kzimp channel as the module keeps it: mutable slots, a mask, and a list of reader control structures.
    Each operation runs in place and is proved against its function in KzimpChan. */
module KzimpInPlace {
  import opened IntBits
  import opened KzimpChan
  import opened KzimpProtocol

  /** struct kzimp_ctrl of a reader. */
  class KzimpCtrl {
    var nextRead: nat
    var bit: int
    var online: bool

    function View(): Ctrl
      reads this
    {
      Ctrl(nextRead, bit, online)
    }

    constructor (nextRead: nat, bit: int)
      ensures View() == Ctrl(nextRead, bit, true)
    {
      this.nextRead, this.bit, online := nextRead, bit, true;
    }
  }

  /** struct kzimp_comm_chan. */
  class KzimpChannel {
    const maxMsg: nat
    const msgs: array<Slot>
    var mask: set<int>
    var nextWrite: nat
    var readers: seq<KzimpCtrl>

    static function CtrlsOf(rs: seq<KzimpCtrl>): (r: seq<Ctrl>)
      reads rs
      ensures |r| == |rs| && forall i :: 0 <= i < |r| ==> r[i] == rs[i].View()
    {
      seq(|rs|, i requires 0 <= i < |rs| reads rs => rs[i].View())
    }

    function View(): Chan
      reads this, msgs, readers
    {
      Chan(maxMsg, mask, msgs[..], nextWrite, CtrlsOf(readers))
    }

    ghost predicate Valid()
      reads this, msgs, readers
    {
      && Shape(View())
      && forall i, k :: 0 <= i < k < |readers| ==> readers[i] != readers[k]
    }

    /** kzimp_init_channel. */
    constructor (n: nat, maxMsg: nat, area: seq<seq<Byte>>)
      requires 0 < n == |area| && AreaFits(area, maxMsg)
      ensures Valid() && View() == New(n, maxMsg, area) && fresh(msgs)
    {
      msgs := new Slot[n](j requires 0 <= j < n => Slot({}, 0, area[j]));
      this.maxMsg, mask, nextWrite, readers := maxMsg, {}, 0, [];
    }

    /** get_new_bitmap_bit. */
    method NewBitmapBit() returns (bit: int)
      modifies this`mask
      ensures bit == NewBit(old(mask)) && mask == MaskWith(old(mask), bit)
    {
      var pos: nat := 0;
      while pos < NR_BITS && pos in mask
        invariant pos <= NR_BITS && FirstZero(mask, 0) == FirstZero(mask, pos)
      {
        pos := pos + 1;
      }
      if pos != NR_BITS {
        mask := mask + {pos as int};
        bit := pos;
      } else {
        bit := -1;
      }
    }

    /** kzimp_open in read mode. */
    method OpenReader() returns (ctrl: KzimpCtrl)
      requires Valid()
      modifies this`mask, this`readers
      ensures Valid() && View() == Open(old(View())) && fresh(ctrl) && readers == old(readers) + [ctrl]
    {
      ghost var before := View();
      var bit := NewBitmapBit();
      ctrl := new KzimpCtrl(nextWrite, bit);
      readers := readers + [ctrl];
      assert View().readers == before.readers + [Ctrl(nextWrite, bit, true)];
    }

    /** kzimp_release of the reader at position i of the list. */
    method ReleaseReader(i: nat)
      requires Valid() && i < |readers|
      modifies this`mask, this`readers, msgs
      ensures Valid() && View() == Release(old(View()), i)
    {
      ghost var before := View();
      ghost var order := readers;
      var bit := readers[i].bit;
      assert bit == before.readers[i].bit;
      mask := mask - {bit};
      readers := readers[..i] + readers[i + 1..];
      assert forall k :: 0 <= k < |readers| ==> readers[k] == order[if k < i then k else k + 1];
      assert CtrlsOf(readers) == Removed(before.readers, i);
      ghost var rest := readers;
      for j := 0 to msgs.Length
        invariant mask == before.mask - {bit} && readers == rest
        invariant CtrlsOf(readers) == Removed(before.readers, i)
        invariant forall k :: 0 <= k < j ==> msgs[k] == ClearBit(before.slots[k], bit)
        invariant forall k :: j <= k < msgs.Length ==> msgs[k] == before.slots[k]
      {
        msgs[j] := msgs[j].(bitmap := msgs[j].bitmap - {bit});
      }
      assert msgs[..] == ClearBitEverywhere(before.slots, bit);
      assert View() == Release(before, i);
    }

    /** finalize_read of the reader at position i; false stands for -EBADF. */
    method Finalize(i: nat) returns (ok: bool)
      requires Valid() && i < |readers|
      modifies readers[i], msgs
      ensures Valid() && View() == FinalizeRead(old(View()), i) && ok == old(readers[i].online)
      ensures !ok ==> View() == old(View())
    {
      ghost var before := View();
      var ctrl := readers[i];
      ok := ctrl.online;
      if ok {
        var m := ctrl.nextRead;
        assert before.readers[i].nextRead == m;
        msgs[m] := msgs[m].(bitmap := msgs[m].bitmap - {ctrl.bit});
        ctrl.nextRead := (ctrl.nextRead + 1) % msgs.Length;
        assert View().slots == FinalizeRead(before, i).slots;
        assert forall k :: 0 <= k < |readers| && k != i ==> readers[k] != ctrl;
        assert View().readers == FinalizeRead(before, i).readers;
      }
    }

    /** handle_timeout for a captured bitmap: the mask, then every slot, then every reader of the list. */
    method HandleTimeout(captured: set<int>)
      requires Valid()
      modifies this`mask, msgs, readers
      ensures Valid() && View() == Expel(old(View()), captured)
    {
      ghost var before := View();
      mask := mask - captured;
      for j := 0 to msgs.Length
        invariant mask == before.mask - captured
        invariant CtrlsOf(readers) == before.readers
        invariant forall k :: 0 <= k < j ==> msgs[k] == ExpelSlot(before.slots[k], captured)
        invariant forall k :: j <= k < msgs.Length ==> msgs[k] == before.slots[k]
      {
        if msgs[j].bitmap != {} {
          msgs[j] := msgs[j].(bitmap := msgs[j].bitmap - captured);
        }
      }
      assert msgs[..] == Expel(before, captured).slots;
      for i := 0 to |readers|
        invariant mask == before.mask - captured && readers == old(readers)
        invariant msgs[..] == Expel(before, captured).slots
        invariant forall k :: 0 <= k < i ==> readers[k].View() == ExpelReader(before.readers[k], captured)
        invariant forall k :: i <= k < |readers| ==> readers[k].View() == before.readers[k]
      {
        var ctrl := readers[i];
        if ReaderCanRead(captured, ctrl.bit) {
          ctrl.online := false;
        }
      }
      assert CtrlsOf(readers) == Expel(before, captured).readers;
      assert View() == Expel(before, captured);
    }

    /** The claim of kzimp_wait_for_writing_if_needed. */
    method ClaimSlot() returns (m: nat)
      requires Valid()
      modifies this`nextWrite
      ensures Valid() && View() == Claim(old(View())) && m == old(nextWrite)
    {
      m := nextWrite;
      nextWrite := (nextWrite + 1) % msgs.Length;
    }

    /** The copy_from_user of kzimp_write. */
    method FillSlot(m: nat, msg: seq<Byte>)
      requires Valid() && m < msgs.Length && |msg| <= maxMsg
      modifies msgs
      ensures Valid() && View() == Fill(old(View()), m, msg)
    {
      msgs[m] := msgs[m].(data := msg + msgs[m].data[|msg|..]);
    }

    /** kzimp_finalize_write. */
    method PublishSlot(m: nat, count: nat)
      requires Valid() && m < msgs.Length && count <= maxMsg
      modifies msgs
      ensures Valid() && View() == Publish(old(View()), m, count)
    {
      msgs[m] := msgs[m].(len := count);
      msgs[m] := msgs[m].(bitmap := mask);
    }
  }
}
