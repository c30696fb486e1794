/** Reading, and clearing the bits of released readers, keep the invariant. */
module KzimpReads {
  import opened KzimpChan
  import opened KzimpInvariant
  import opened KzimpProtocol
  import opened KzimpReaders
  import opened RingArith

  // ----- Clearing a bit -----

  /** Slots that differ in their bitmaps only. */
  ghost predicate SameMessages(slots: seq<Slot>, slots': seq<Slot>) {
    && |slots'| == |slots|
    && forall j :: 0 <= j < |slots| ==> slots'[j].len == slots[j].len && slots'[j].data == slots[j].data
  }

  lemma SameContents(
    slots: seq<Slot>, slots': seq<Slot>, wpcs: seq<WriterPc>, claimOf: seq<nat>, claims: seq<seq<Byte>>,
    published: seq<bool>, n: nat)
    requires n > 0 && |slots| == n && |claimOf| == |wpcs| && |published| == |claims|
    requires ContentsOk(slots, wpcs, claimOf, claims, published, n) && SameMessages(slots, slots')
    ensures ContentsOk(slots', wpcs, claimOf, claims, published, n)
  {
    forall w | 0 <= w < |wpcs| && !wpcs[w].WIdle? && claimOf[w] < |claims|
      ensures WriterSlot(slots'[SlotOf(claimOf[w], n)], wpcs[w], claims, claimOf[w], n)
    {
      assert WriterSlot(slots[SlotOf(claimOf[w], n)], wpcs[w], claims, claimOf[w], n);
    }
  }

  lemma SameReading(
    rpcs: seq<ReaderPc>, rs: seq<Ctrl>, xs: seq<Session>, slots: seq<Slot>, slots': seq<Slot>, wpcs: seq<WriterPc>,
    claims: seq<seq<Byte>>, published: seq<bool>)
    requires |rpcs| == |rs| == |xs| && |published| == |claims| && SameMessages(slots, slots')
    requires ReadingOk(rpcs, rs, xs, slots, wpcs, claims, published)
    ensures ReadingOk(rpcs, rs, xs, slots', wpcs, claims, published)
  {
    forall i | 0 <= i < |rs|
      ensures ReadOk(rpcs[i], rs[i], NextClaim(xs[i]), slots', wpcs, claims, published)
    {
      assert ReadOk(rpcs[i], rs[i], NextClaim(xs[i]), slots, wpcs, claims, published);
    }
  }

  function Cleared(slots: seq<Slot>, j: nat, b: int): seq<Slot>
    requires j < |slots|
  {
    slots[j := slots[j].(bitmap := slots[j].bitmap - {b})]
  }

  lemma ClearedBits(slots: seq<Slot>, j: nat, b: int, wpcs: seq<WriterPc>, lock: Lock)
    requires j < |slots| && ClearedOk(slots, wpcs, lock)
    ensures ClearedOk(Cleared(slots, j, b), wpcs, lock)
  {
    var slots' := Cleared(slots, j, b);
    forall w | 0 <= w < |wpcs| && !wpcs[w].WIdle? && wpcs[w].m < |slots'|
      ensures WriterBits(wpcs[w], slots'[wpcs[w].m].bitmap, lock)
    {
      assert WriterBits(wpcs[w], slots[wpcs[w].m].bitmap, lock);
    }
  }

  lemma ClearedWindow(slots: seq<Slot>, j: nat, b: int, lock: Lock)
    requires j < |slots| && WindowOk(lock, slots)
    requires Undisturbed(lock, j, slots[j].bitmap, slots[j].bitmap - {b})
    ensures WindowOk(lock, Cleared(slots, j, b))
  {
  }

  // ----- Releases clearing their bit -----

  lemma LeaverSlotBits(
    bitmap: set<int>, j: nat, p: int, rs: seq<Ctrl>, xs: seq<Session>, mask: set<int>, lock: Lock,
    leavers: seq<Leaver>, n: nat, l: nat)
    requires |xs| == |rs| && l < |leavers| && leavers[l].next < n && LeaversOk(leavers, rs, n)
    requires SlotBits(bitmap, j, p, rs, xs, mask, lock, leavers, n)
    ensures SlotBits(if j == leavers[l].next then bitmap - {leavers[l].bit} else bitmap, j, p, rs, xs, mask, lock,
                     leavers[l := Leaver(leavers[l].bit, leavers[l].next + 1)], n)
  {
    var leavers' := leavers[l := Leaver(leavers[l].bit, leavers[l].next + 1)];
    forall b | b in bitmap && !(j == leavers[l].next && b == leavers[l].bit)
      ensures b in mask || ToBeCleared(lock, leavers', j, b)
    {
      if exists k :: 0 <= k < |leavers| && leavers[k].next <= j && leavers[k].bit == b {
        var k :| 0 <= k < |leavers| && leavers[k].next <= j && leavers[k].bit == b;
        assert leavers'[k].next <= j && leavers'[k].bit == b;
      }
    }
  }

  lemma LeaverBitmaps(s: State, h: History, l: nat)
    requires Inv(s, h) && l < |s.leavers| && s.leavers[l].next < |s.chan.slots|
    ensures BitmapsOk(LeaverNext(s, l).chan.slots, s.chan.readers, h.sessions, h.published, s.chan.mask, s.lock,
                      LeaverNext(s, l).leavers, |s.chan.slots|)
  {
    var n, j, s' := |s.chan.slots|, s.leavers[l].next, LeaverNext(s, l);
    forall q | |h.published| - n <= q < |h.published|
      ensures SlotBits(s'.chan.slots[SlotOf(q, n)].bitmap, SlotOf(q, n), LastPublished(h.published, q, n),
                       s.chan.readers, h.sessions, s.chan.mask, s.lock, s'.leavers, n)
    {
      LeaverSlotBits(s.chan.slots[SlotOf(q, n)].bitmap, SlotOf(q, n), LastPublished(h.published, q, n),
                     s.chan.readers, h.sessions, s.chan.mask, s.lock, s.leavers, n, l);
    }
  }

  lemma LeaverKeeps(s: State, h: History, l: nat)
    requires Inv(s, h) && Allowed(s, LeaverStep(l))
    ensures Inv(Step(s, LeaverStep(l)), h)
  {
    StepKeepsShape(s, LeaverStep(l));
    if l < |s.leavers| && s.leavers[l].next < |s.chan.slots| {
      assert Follows(s, LeaverStep(l), ClearsApart);
      var bit, j, slots := s.leavers[l].bit, s.leavers[l].next, s.chan.slots;
      LeaverBitmaps(s, h, l);
      ClearedBits(slots, j, bit, s.wpcs, s.lock);
      ClearedWindow(slots, j, bit, s.lock);
      SameContents(slots, Cleared(slots, j, bit), s.wpcs, h.claimOf, h.claims, h.published, |slots|);
      SameReading(s.rpcs, s.chan.readers, h.sessions, slots, Cleared(slots, j, bit), s.wpcs, h.claims, h.published);
    }
  }

  // ----- A read up to its last step -----

  lemma ReaderPcKeeps(s: State, h: History, i: nat, pc: ReaderPc)
    requires Inv(s, h) && i < |s.rpcs| && ReaderShape(pc, s.chan)
    requires ReadOk(pc, s.chan.readers[i], NextClaim(h.sessions[i]), s.chan.slots, s.wpcs, h.claims, h.published)
    ensures Inv(AtReader(s, i, pc), h)
  {
    var rpcs' := s.rpcs[i := pc];
    forall k | 0 <= k < |rpcs'|
      ensures ReadOk(rpcs'[k], s.chan.readers[k], NextClaim(h.sessions[k]), s.chan.slots, s.wpcs, h.claims, h.published)
    {
      if k != i {
        assert ReadOk(s.rpcs[k], s.chan.readers[k], NextClaim(h.sessions[k]), s.chan.slots, s.wpcs, h.claims,
                      h.published);
      }
    }
  }

  /** A read of an offline reader, up to its test of online, may see anything. */
  lemma OfflineReadOk(s: State, h: History, i: nat, pc: ReaderPc)
    requires Inv(s, h) && i < |s.rpcs| && !s.chan.readers[i].online && !pc.RFinishing?
    ensures ReadOk(pc, s.chan.readers[i], NextClaim(h.sessions[i]), s.chan.slots, s.wpcs, h.claims, h.published)
  {
  }

  /** The wait ends only when the reader's next message is there. */
  lemma WaitEnds(s: State, h: History, i: nat)
    requires Inv(s, h) && i < |s.rpcs| && s.rpcs[i].RWaiting?
    requires ReaderCanRead(SlotOfReader(s, i).bitmap, s.chan.readers[i].bit)
    ensures ReadOk(RReading(s.rpcs[i].count), s.chan.readers[i], NextClaim(h.sessions[i]), s.chan.slots, s.wpcs,
                   h.claims, h.published)
  {
    ReaderTestIsExact(SlotOfReader(s, i).bitmap, s.chan.readers[i].bit);
    if s.chan.readers[i].online {
      SetBitMeansNext(s, h, i);
    }
  }

  lemma CopyBegins(s: State, h: History, i: nat)
    requires Inv(s, h) && i < |s.rpcs| && s.rpcs[i].RReading? && s.chan.readers[i].online
    ensures ReadOk(ReaderNext(s, i).rpcs[i], s.chan.readers[i], NextClaim(h.sessions[i]), s.chan.slots, s.wpcs,
                   h.claims, h.published)
  {
    assert ReadOk(s.rpcs[i], s.chan.readers[i], NextClaim(h.sessions[i]), s.chan.slots, s.wpcs, h.claims, h.published);
  }

  /** The next byte is the next byte of the message. */
  lemma CopyGoesOn(s: State, h: History, i: nat)
    requires Inv(s, h) && i < |s.rpcs| && s.rpcs[i].RCopying? && s.chan.readers[i].online
    ensures ReadOk(ReaderNext(s, i).rpcs[i], s.chan.readers[i], NextClaim(h.sessions[i]), s.chan.slots, s.wpcs,
                   h.claims, h.published)
  {
    var RCopying(count, size, out) := s.rpcs[i];
    var msg, slot := h.claims[NextClaim(h.sessions[i])], SlotOfReader(s, i);
    assert ReadOk(s.rpcs[i], s.chan.readers[i], NextClaim(h.sessions[i]), s.chan.slots, s.wpcs, h.claims, h.published);
    if |out| < size {
      assert slot.data[|out|] == slot.data[..|msg|][|out|] == msg[|out|];
      assert out + [msg[|out|]] == ReadOf(msg, count)[..|out| + 1];
    }
  }

  lemma ReadGoesOn(s: State, h: History, i: nat)
    requires Inv(s, h) && i < |s.rpcs| && !s.rpcs[i].RFinishing?
    ensures ReadOk(ReaderNext(s, i).rpcs[i], s.chan.readers[i], NextClaim(h.sessions[i]), s.chan.slots, s.wpcs,
                   h.claims, h.published)
  {
    assert ReadOk(s.rpcs[i], s.chan.readers[i], NextClaim(h.sessions[i]), s.chan.slots, s.wpcs, h.claims, h.published);
    if s.rpcs[i].RWaiting? {
      if ReaderCanRead(SlotOfReader(s, i).bitmap, s.chan.readers[i].bit) {
        WaitEnds(s, h, i);
      }
    } else if !s.chan.readers[i].online {
      OfflineReadOk(s, h, i, ReaderNext(s, i).rpcs[i]);
    } else if s.rpcs[i].RReading? {
      CopyBegins(s, h, i);
    } else if s.rpcs[i].RCopying? {
      CopyGoesOn(s, h, i);
    }
  }

  // ----- The last step of a read -----

  /** The session after reader i has read its next claim. */
  lemma FinishSession(x: Session, out: seq<Byte>, count: nat, claims: seq<seq<Byte>>)
    requires SessionOk(x, claims) && NextClaim(x) < |claims| && out == ReadOf(claims[NextClaim(x)], count)
    ensures SessionOk(Delivered(x, out, count), claims) && NextClaim(Delivered(x, out, count)) == NextClaim(x) + 1
  {
  }

  lemma FinishReaders(rs: seq<Ctrl>, xs: seq<Session>, i: nat, r: Ctrl, x: Session, claims: nat, n: nat)
    requires n > 0 && ReadersOk(rs, xs, claims, n) && i < |rs|
    requires r.bit == rs[i].bit && r.nextRead == (rs[i].nextRead + 1) % n
    requires NextClaim(x) == NextClaim(xs[i]) + 1 <= claims
    ensures ReadersOk(rs[i := r], xs[i := x], claims, n)
  {
    NextSlot(NextClaim(xs[i]), n);
    var rs' := rs[i := r];
    forall j, k | 0 <= j < k < |rs'|
      ensures rs'[j].bit != rs'[k].bit
    {
      assert rs[j].bit != rs[k].bit;
    }
  }

  lemma FinishOrder(s: State, h: History, i: nat, r: Ctrl, x: Session)
    requires Inv(s, h) && i < |s.rpcs| && NextClaim(h.sessions[i]) < |h.claims| && h.published[NextClaim(h.sessions[i])]
    requires r.bit == s.chan.readers[i].bit && r.online == s.chan.readers[i].online
    requires NextClaim(x) == NextClaim(h.sessions[i]) + 1
    ensures OrderOk(s.chan.readers[i := r], h.sessions[i := x], s.wpcs, h.claimOf, Condemned(s.lock), |s.chan.slots|)
  {
    var rs', xs' := s.chan.readers[i := r], h.sessions[i := x];
    forall k, w | 0 <= k < |rs'| && rs'[k].online && 0 <= w < |s.wpcs| && !s.wpcs[w].WIdle?
      ensures Behind(rs'[k], NextClaim(xs'[k]), s.wpcs[w], h.claimOf[w], Condemned(s.lock), |s.chan.slots|)
    {
      assert Behind(s.chan.readers[k], NextClaim(h.sessions[k]), s.wpcs[w], h.claimOf[w], Condemned(s.lock),
                    |s.chan.slots|);
      assert !h.published[h.claimOf[w]];
    }
  }

  /** Slot j, after reader i has read its next claim and cleared its bit in that claim's slot. */
  lemma FinishSlotBits(
    bitmap: set<int>, j: nat, p: int, rs: seq<Ctrl>, xs: seq<Session>, mask: set<int>, lock: Lock,
    leavers: seq<Leaver>, n: nat, i: nat, r: Ctrl, x: Session)
    requires n > 0 && |xs| == |rs| && i < |rs| && SlotBits(bitmap, j, p, rs, xs, mask, lock, leavers, n)
    requires forall k :: 0 <= k < |rs| && k != i ==> rs[k].bit != rs[i].bit
    requires SlotOf(p, n) == j && rs[i].nextRead == SlotOf(NextClaim(xs[i]), n)
    requires r.bit == rs[i].bit && r.online == rs[i].online && NextClaim(x) == NextClaim(xs[i]) + 1
    ensures SlotBits(if j == rs[i].nextRead then bitmap - {r.bit} else bitmap, j, p, rs[i := r], xs[i := x], mask, lock,
                     leavers, n)
  {
    if rs[i].online && r.bit in bitmap && j == rs[i].nextRead {
      SameSlotWithinLap(NextClaim(xs[i]), p, n);
    }
  }

  lemma FinishBitmaps(s: State, h: History, i: nat, r: Ctrl, x: Session)
    requires Inv(s, h) && i < |s.rpcs|
    requires r.bit == s.chan.readers[i].bit && r.online == s.chan.readers[i].online
    requires NextClaim(x) == NextClaim(h.sessions[i]) + 1
    ensures BitmapsOk(Cleared(s.chan.slots, s.chan.readers[i].nextRead, r.bit), s.chan.readers[i := r],
                      h.sessions[i := x], h.published, s.chan.mask, s.lock, s.leavers, |s.chan.slots|)
  {
    var n, m := |s.chan.slots|, s.chan.readers[i].nextRead;
    var slots' := Cleared(s.chan.slots, m, r.bit);
    forall q | |h.published| - n <= q < |h.published|
      ensures SlotBits(slots'[SlotOf(q, n)].bitmap, SlotOf(q, n), LastPublished(h.published, q, n),
                       s.chan.readers[i := r], h.sessions[i := x], s.chan.mask, s.lock, s.leavers, n)
    {
      LastSameSlot(h.published, q, n);
      FinishSlotBits(s.chan.slots[SlotOf(q, n)].bitmap, SlotOf(q, n), LastPublished(h.published, q, n), s.chan.readers,
                     h.sessions, s.chan.mask, s.lock, s.leavers, n, i, r, x);
    }
  }

  lemma FinishReading(
    rpcs: seq<ReaderPc>, rs: seq<Ctrl>, xs: seq<Session>, slots: seq<Slot>, wpcs: seq<WriterPc>,
    claims: seq<seq<Byte>>, published: seq<bool>, i: nat, r: Ctrl, x: Session)
    requires |rpcs| == |rs| == |xs| && |published| == |claims| && i < |rs|
    requires ReadingOk(rpcs, rs, xs, slots, wpcs, claims, published)
    ensures ReadingOk(rpcs[i := RIdle], rs[i := r], xs[i := x], slots, wpcs, claims, published)
  {
    var rpcs', rs', xs' := rpcs[i := RIdle], rs[i := r], xs[i := x];
    forall k | 0 <= k < |rs|
      ensures ReadOk(rpcs'[k], rs'[k], NextClaim(xs'[k]), slots, wpcs, claims, published)
    {
      if k != i {
        assert ReadOk(rpcs[k], rs[k], NextClaim(xs[k]), slots, wpcs, claims, published);
      }
    }
  }

  /** The state and record after the last step of a read. */
  lemma FinishStep(s: State, h: History, i: nat)
    requires StateShape(s) && HistoryShape(s, h) && i < |s.rpcs| && s.rpcs[i].RFinishing?
    ensures var r, n := s.chan.readers[i], |s.chan.slots|;
      && ReaderNext(s, i).chan == s.chan.(slots := Cleared(s.chan.slots, r.nextRead, r.bit),
                                         readers := s.chan.readers[i := r.(nextRead := (r.nextRead + 1) % n)])
      && ReaderNext(s, i).rpcs == s.rpcs[i := RIdle] && ReaderNext(s, i).wpcs == s.wpcs
      && ReaderNext(s, i).lock == s.lock && ReaderNext(s, i).leavers == s.leavers
  {
  }

  lemma FinishedReaders(s: State, h: History, i: nat, r: Ctrl, x: Session)
    requires Inv(s, h) && i < |s.rpcs| && s.rpcs[i].RFinishing?
    requires r == s.chan.readers[i].(nextRead := (s.chan.readers[i].nextRead + 1) % |s.chan.slots|)
    requires x == Delivered(h.sessions[i], s.rpcs[i].out, s.rpcs[i].count)
    ensures ReadersOk(s.chan.readers[i := r], h.sessions[i := x], |h.claims|, |s.chan.slots|)
    ensures OrderOk(s.chan.readers[i := r], h.sessions[i := x], s.wpcs, h.claimOf, Condemned(s.lock), |s.chan.slots|)
    ensures SessionsOk(h.sessions[i := x], h.claims)
  {
    assert ReadOk(s.rpcs[i], s.chan.readers[i], NextClaim(h.sessions[i]), s.chan.slots, s.wpcs, h.claims, h.published);
    FinishSession(h.sessions[i], s.rpcs[i].out, s.rpcs[i].count, h.claims);
    FinishReaders(s.chan.readers, h.sessions, i, r, x, |h.claims|, |s.chan.slots|);
    FinishOrder(s, h, i, r, x);
  }

  lemma FinishedParts(s: State, h: History, i: nat)
    requires Inv(s, h) && i < |s.rpcs| && s.rpcs[i].RFinishing?
    ensures var r, x := s.chan.readers[i], Delivered(h.sessions[i], s.rpcs[i].out, s.rpcs[i].count);
      var rs', xs' := s.chan.readers[i := r.(nextRead := (r.nextRead + 1) % |s.chan.slots|)], h.sessions[i := x];
      && ReadersOk(rs', xs', |h.claims|, |s.chan.slots|)
      && OrderOk(rs', xs', s.wpcs, h.claimOf, Condemned(s.lock), |s.chan.slots|)
      && BitmapsOk(Cleared(s.chan.slots, r.nextRead, r.bit), rs', xs', h.published, s.chan.mask, s.lock, s.leavers,
                   |s.chan.slots|)
      && ReadingOk(s.rpcs[i := RIdle], rs', xs', s.chan.slots, s.wpcs, h.claims, h.published)
      && SessionsOk(xs', h.claims)
  {
    var r, x := s.chan.readers[i], Delivered(h.sessions[i], s.rpcs[i].out, s.rpcs[i].count);
    var r' := r.(nextRead := (r.nextRead + 1) % |s.chan.slots|);
    FinishedReaders(s, h, i, r', x);
    FinishBitmaps(s, h, i, r', x);
    FinishReading(s.rpcs, s.chan.readers, h.sessions, s.chan.slots, s.wpcs, h.claims, h.published, i, r', x);
  }

  /** What a finished read leaves in the slots. */
  lemma FinishedSlots(s: State, h: History, i: nat)
    requires Inv(s, h) && i < |s.rpcs| && s.rpcs[i].RFinishing? && Follows(s, ReaderStep(i), ClearsApart)
    ensures var slots' := Cleared(s.chan.slots, s.chan.readers[i].nextRead, s.chan.readers[i].bit);
      && ClearedOk(slots', s.wpcs, s.lock) && WindowOk(s.lock, slots')
      && ContentsOk(slots', s.wpcs, h.claimOf, h.claims, h.published, |s.chan.slots|)
      && SameMessages(s.chan.slots, slots')
  {
    var r, slots := s.chan.readers[i], s.chan.slots;
    ClearedBits(slots, r.nextRead, r.bit, s.wpcs, s.lock);
    ClearedWindow(slots, r.nextRead, r.bit, s.lock);
    SameContents(slots, Cleared(slots, r.nextRead, r.bit), s.wpcs, h.claimOf, h.claims, h.published, |slots|);
  }

  lemma FinishKeeps(s: State, h: History, i: nat)
    requires Inv(s, h) && i < |s.rpcs| && s.rpcs[i].RFinishing? && Allowed(s, ReaderStep(i))
    ensures Inv(ReaderNext(s, i), Track(h, s, ReaderStep(i)))
  {
    var r, slots := s.chan.readers[i], s.chan.slots;
    var r' := r.(nextRead := (r.nextRead + 1) % |slots|);
    assert Follows(s, ReaderStep(i), ClearsApart);
    TrackKeepsShape(s, h, ReaderStep(i));
    FinishStep(s, h, i);
    FinishedParts(s, h, i);
    FinishedSlots(s, h, i);
    MembersSame(s.chan.readers, i, r', Condemned(s.lock));
    SameReading(s.rpcs[i := RIdle], s.chan.readers[i := r'], Track(h, s, ReaderStep(i)).sessions, slots,
                Cleared(slots, r.nextRead, r.bit), s.wpcs, h.claims, h.published);
  }

  // ----- All reader steps -----

  /** A step of a read short of its last changes only where the reader stands. */
  lemma ReadMoves(s: State, i: nat)
    requires StateShape(s) && i < |s.rpcs| && !s.rpcs[i].RFinishing?
    ensures ReaderNext(s, i) == AtReader(s, i, ReaderNext(s, i).rpcs[i]) && |ReaderNext(s, i).rpcs| == |s.rpcs|
    ensures ReaderShape(ReaderNext(s, i).rpcs[i], s.chan)
  {
    ReaderKeepsShape(s, i);
    assert s.rpcs[i := s.rpcs[i]] == s.rpcs;
  }

  lemma ReadGoesOnKeeps(s: State, h: History, i: nat)
    requires Inv(s, h) && i < |s.rpcs| && !s.rpcs[i].RFinishing?
    ensures Inv(ReaderNext(s, i), h)
  {
    ReadMoves(s, i);
    ReadGoesOn(s, h, i);
    ReaderPcKeeps(s, h, i, ReaderNext(s, i).rpcs[i]);
  }

  lemma ReaderKeeps(s: State, h: History, i: nat)
    requires Inv(s, h) && Allowed(s, ReaderStep(i))
    ensures Inv(Step(s, ReaderStep(i)), Track(h, s, ReaderStep(i)))
  {
    if i < |s.rpcs| {
      if s.rpcs[i].RFinishing? {
        FinishKeeps(s, h, i);
      } else {
        ReadGoesOnKeeps(s, h, i);
      }
    }
  }

  lemma CallKeeps(s: State, h: History, a: Action)
    requires Inv(s, h) && (a.ReadCall? || a.ReaderGivesUp?)
    ensures Inv(Step(s, a), Track(h, s, a))
  {
    if a.i < |s.rpcs| {
      if a.ReadCall? {
        ReaderPcKeeps(s, h, a.i, RWaiting(a.count));
      } else {
        ReaderPcKeeps(s, h, a.i, RIdle);
      }
    }
  }
}
