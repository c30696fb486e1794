/** Opening, releasing and reading keep the invariant. */
module KzimpReaders {
  import opened KzimpChan
  import opened KzimpInvariant
  import opened KzimpProtocol
  import opened RingArith

  // ----- Slots and claims -----

  /** The claim of the last lap that uses the same slot as claim p. */
  lemma SlotsClaim(claims: nat, p: nat, n: nat) returns (q: int)
    requires n > 0 && p <= claims
    ensures claims - n <= q < claims && SlotOf(q, n) == SlotOf(p, n)
    decreases claims - p
  {
    if p == claims {
      LapBackSlot(p, n);
      q := p - n;
    } else if p + n >= claims {
      if p < claims { q := p; }
    } else {
      LapBackSlot(p + n, n);
      q := SlotsClaim(claims, p + n, n);
    }
  }

  lemma LastSameSlot(published: seq<bool>, q: int, n: nat)
    requires n > 0 && q < |published|
    ensures SlotOf(LastPublished(published, q, n), n) == SlotOf(q, n)
  {
    LapBackSlot(q, n);
  }

  /** The slot bits of the slot of claim p. */
  lemma SlotBitsOf(s: State, h: History, p: nat) returns (q: int)
    requires Inv(s, h) && p <= |h.claims|
    ensures |h.claims| - |s.chan.slots| <= q < |h.claims| && SlotOf(q, |s.chan.slots|) == SlotOf(p, |s.chan.slots|)
    ensures SlotOf(LastPublished(h.published, q, |s.chan.slots|), |s.chan.slots|) == SlotOf(p, |s.chan.slots|)
    ensures SlotBits(s.chan.slots[SlotOf(p, |s.chan.slots|)].bitmap, SlotOf(p, |s.chan.slots|),
                     LastPublished(h.published, q, |s.chan.slots|), s.chan.readers, h.sessions, s.chan.mask, s.lock,
                     s.leavers, |s.chan.slots|)
  {
    q := SlotsClaim(|h.claims|, p, |s.chan.slots|);
    LastSameSlot(h.published, q, |s.chan.slots|);
  }

  /** A lap ago there is another claim with that slot, and less than a lap away there is none. */
  lemma SameSlotWithinLap(p: int, q: int, n: nat)
    requires n > 0 && q - n < p <= q && SlotOf(p, n) == SlotOf(q, n)
    ensures p == q
  {
    if p < q {
      DistinctSlots(p, q, n);
    }
  }

  /** An online reader whose bit is set at its position has to read the last published claim there, which is its
      next one; the slot holds that claim's message, and no writer is past its wait on it. */
  lemma SetBitMeansNext(s: State, h: History, i: nat)
    requires Inv(s, h) && i < |s.rpcs| && s.chan.readers[i].online
    requires s.chan.readers[i].bit in SlotOfReader(s, i).bitmap
    ensures var next := NextClaim(h.sessions[i]);
      && next < |h.claims| && h.published[next]
      && Holds(SlotOfReader(s, i), h.claims[next])
      && NobodyFills(s.wpcs, s.chan.readers[i].nextRead)
  {
    var n, next, m := |s.chan.slots|, NextClaim(h.sessions[i]), s.chan.readers[i].nextRead;
    var q := SlotBitsOf(s, h, next);
    var p := LastPublished(h.published, q, n);
    SameSlotWithinLap(next, p, n);
    forall w | 0 <= w < |s.wpcs| && Filling(s.wpcs[w])
      ensures s.wpcs[w].m != m
    {
      assert WriterBits(s.wpcs[w], s.chan.slots[s.wpcs[w].m].bitmap, s.lock);
    }
    if p != q {
      var w :| 0 <= w < |s.wpcs| && !s.wpcs[w].WIdle? && h.claimOf[w] == q;
      assert s.wpcs[w].m == m;
      assert WriterSlot(s.chan.slots[SlotOf(h.claimOf[w], n)], s.wpcs[w], h.claims, h.claimOf[w], n);
    }
  }

  // ----- Members -----

  lemma BitOfMember(rs: seq<Ctrl>, condemned: set<int>, i: nat)
    requires i < |rs| && forall j, k :: 0 <= j < k < |rs| ==> rs[j].bit != rs[k].bit
    ensures rs[i].bit in MemberBits(rs, condemned) <==> Member(rs[i], condemned)
  {
  }

  lemma MembersAfterOpen(rs: seq<Ctrl>, r: Ctrl)
    requires r.online
    ensures MemberBits(rs + [r], {}) == MemberBits(rs, {}) + {r.bit}
  {
    var rs' := rs + [r];
    assert Member(rs'[|rs|], {});
    forall b | b in MemberBits(rs, {})
      ensures b in MemberBits(rs', {})
    {
      var i :| 0 <= i < |rs| && Member(rs[i], {}) && rs[i].bit == b;
      assert Member(rs'[i], {});
    }
  }

  function Shifted(i: nat, k: nat): nat { if k < i then k else k + 1 }

  lemma RemovedAt<T>(xs: seq<T>, i: nat)
    requires i < |xs|
    ensures |Removed(xs, i)| == |xs| - 1
    ensures forall k :: 0 <= k < |xs| - 1 ==> Removed(xs, i)[k] == xs[Shifted(i, k)]
  {
  }

  lemma MembersAfterRelease(rs: seq<Ctrl>, i: nat)
    requires i < |rs| && forall j, k :: 0 <= j < k < |rs| ==> rs[j].bit != rs[k].bit
    ensures MemberBits(Removed(rs, i), {}) == MemberBits(rs, {}) - {rs[i].bit}
  {
    var rs' := Removed(rs, i);
    RemovedAt(rs, i);
    forall b | b in MemberBits(rs, {}) && b != rs[i].bit
      ensures b in MemberBits(rs', {})
    {
      var k :| 0 <= k < |rs| && Member(rs[k], {}) && rs[k].bit == b;
      var k' := if k < i then k else k - 1;
      assert rs'[k'] == rs[k];
    }
    forall b | b in MemberBits(rs', {})
      ensures b in MemberBits(rs, {}) && b != rs[i].bit
    {
      var k :| 0 <= k < |rs'| && Member(rs'[k], {}) && rs'[k].bit == b;
      assert rs'[k] == rs[Shifted(i, k)];
    }
  }

  /** Reader i changes nothing but its position. */
  lemma MembersSame(rs: seq<Ctrl>, i: nat, r: Ctrl, condemned: set<int>)
    requires i < |rs| && r.online == rs[i].online && r.bit == rs[i].bit
    ensures MemberBits(rs[i := r], condemned) == MemberBits(rs, condemned)
  {
    var rs' := rs[i := r];
    forall b | b in MemberBits(rs, condemned)
      ensures b in MemberBits(rs', condemned)
    {
      var k :| 0 <= k < |rs| && Member(rs[k], condemned) && rs[k].bit == b;
      assert Member(rs'[k], condemned) && rs'[k].bit == b;
    }
    forall b | b in MemberBits(rs', condemned)
      ensures b in MemberBits(rs, condemned)
    {
      var k :| 0 <= k < |rs'| && Member(rs'[k], condemned) && rs'[k].bit == b;
      assert Member(rs[k], condemned) && rs[k].bit == b;
    }
  }

  // ----- Opening -----

  /** An allowed open hands out a bit that nobody holds or still clears. */
  lemma OpenIsFresh(s: State)
    requires StateShape(s) && s.lock.Free? && Allowed(s, OpenReader)
    ensures 0 <= NextBit(s) < 32
    ensures BitUnlisted(s.chan, NextBit(s)) && BitUnleft(s, NextBit(s)) && WritesWithout(s, NextBit(s))
    ensures Open(s.chan).readers == s.chan.readers + [Ctrl(s.chan.nextWrite, NextBit(s), true)]
    ensures Open(s.chan).mask == s.chan.mask + {NextBit(s)}
  {
    assert Follows(s, OpenReader, BitsTestable) && Follows(s, OpenReader, BitsNotListed);
    assert Follows(s, OpenReader, BitsNotLeft) && Follows(s, OpenReader, OpensWithoutWrites);
  }

  lemma OpenReaders(
    rs: seq<Ctrl>, xs: seq<Session>, leavers: seq<Leaver>, claims: nat, n: nat, r: Ctrl, x: Session)
    requires n > 0 && ReadersOk(rs, xs, claims, n) && LeaversOk(leavers, rs, n) && 0 <= r.bit < 32
    requires NextClaim(x) == claims && r.nextRead == SlotOf(claims, n)
    requires forall i :: 0 <= i < |rs| ==> rs[i].bit != r.bit
    requires forall l :: 0 <= l < |leavers| && leavers[l].next < n ==> leavers[l].bit != r.bit
    ensures ReadersOk(rs + [r], xs + [x], claims, n) && LeaversOk(leavers, rs + [r], n)
  {
  }

  lemma OpenOrder(s: State, h: History, r: Ctrl, x: Session)
    requires Inv(s, h) && WritesWithout(s, r.bit) && NextClaim(x) == |h.claims|
    ensures OrderOk(s.chan.readers + [r], h.sessions + [x], s.wpcs, h.claimOf, Condemned(s.lock), |s.chan.slots|)
  {
    var rs, xs := s.chan.readers + [r], h.sessions + [x];
    forall i, w | 0 <= i < |rs| && rs[i].online && 0 <= w < |s.wpcs| && !s.wpcs[w].WIdle?
      ensures Behind(rs[i], NextClaim(xs[i]), s.wpcs[w], h.claimOf[w], Condemned(s.lock), |s.chan.slots|)
    {
      if i == |s.rpcs| {
        assert Busy(s, w);
      } else {
        assert rs[i] == s.chan.readers[i] && xs[i] == h.sessions[i];
      }
    }
  }

  lemma OpenSlotBits(
    bitmap: set<int>, j: nat, p: int, rs: seq<Ctrl>, xs: seq<Session>, mask: set<int>, leavers: seq<Leaver>, n: nat,
    r: Ctrl, x: Session)
    requires |xs| == |rs| && SlotBits(bitmap, j, p, rs, xs, mask, Free, leavers, n)
    requires p < NextClaim(x) && r.bit !in bitmap
    ensures SlotBits(bitmap, j, p, rs + [r], xs + [x], mask + {r.bit}, Free, leavers, n)
  {
  }

  /** The new bit is set nowhere. */
  lemma NewBitIsClear(s: State, h: History, q: int)
    requires Inv(s, h) && s.lock.Free? && NextBit(s) >= 0 && BitUnleft(s, NextBit(s))
    requires |h.claims| - |s.chan.slots| <= q < |h.claims|
    ensures NextBit(s) !in s.chan.slots[SlotOf(q, |s.chan.slots|)].bitmap
  {
    var n := |s.chan.slots|;
    assert SlotBits(s.chan.slots[SlotOf(q, n)].bitmap, SlotOf(q, n), LastPublished(h.published, q, n), s.chan.readers,
                    h.sessions, s.chan.mask, s.lock, s.leavers, n);
  }

  lemma OpenBitmaps(s: State, h: History, r: Ctrl, x: Session)
    requires Inv(s, h) && s.lock.Free? && r.bit == NextBit(s) >= 0 && BitUnleft(s, r.bit)
    requires NextClaim(x) == |h.claims|
    ensures BitmapsOk(s.chan.slots, s.chan.readers + [r], h.sessions + [x], h.published, s.chan.mask + {r.bit}, Free,
                      s.leavers, |s.chan.slots|)
  {
    var n := |s.chan.slots|;
    forall q | |h.published| - n <= q < |h.published|
      ensures SlotBits(s.chan.slots[SlotOf(q, n)].bitmap, SlotOf(q, n), LastPublished(h.published, q, n),
                       s.chan.readers + [r], h.sessions + [x], s.chan.mask + {r.bit}, Free, s.leavers, n)
    {
      NewBitIsClear(s, h, q);
      OpenSlotBits(s.chan.slots[SlotOf(q, n)].bitmap, SlotOf(q, n), LastPublished(h.published, q, n), s.chan.readers,
                   h.sessions, s.chan.mask, s.leavers, n, r, x);
    }
  }

  lemma OpenReading(
    rpcs: seq<ReaderPc>, rs: seq<Ctrl>, xs: seq<Session>, slots: seq<Slot>, wpcs: seq<WriterPc>,
    claims: seq<seq<Byte>>, published: seq<bool>, r: Ctrl, x: Session)
    requires |rpcs| == |rs| == |xs| && |published| == |claims|
    requires ReadingOk(rpcs, rs, xs, slots, wpcs, claims, published)
    ensures ReadingOk(rpcs + [RIdle], rs + [r], xs + [x], slots, wpcs, claims, published)
  {
  }

  lemma OpenKeeps(s: State, h: History)
    requires Inv(s, h) && Allowed(s, OpenReader)
    ensures Inv(Step(s, OpenReader), Track(h, s, OpenReader))
  {
    TrackKeepsShape(s, h, OpenReader);
    if s.lock.Free? {
      var r, x := Ctrl(s.chan.nextWrite, NextBit(s), true), Session(|h.claims|, [], []);
      OpenIsFresh(s);
      MembersAfterOpen(s.chan.readers, r);
      OpenReaders(s.chan.readers, h.sessions, s.leavers, |h.claims|, |s.chan.slots|, r, x);
      OpenOrder(s, h, r, x);
      OpenBitmaps(s, h, r, x);
      OpenReading(s.rpcs, s.chan.readers, h.sessions, s.chan.slots, s.wpcs, h.claims, h.published, r, x);
    }
  }

  // ----- Releasing -----

  lemma CloseReaders(rs: seq<Ctrl>, xs: seq<Session>, leavers: seq<Leaver>, i: nat, claims: nat, n: nat)
    requires n > 0 && ReadersOk(rs, xs, claims, n) && LeaversOk(leavers, rs, n) && i < |rs|
    ensures ReadersOk(Removed(rs, i), Removed(xs, i), claims, n)
    ensures LeaversOk(leavers + [Leaver(rs[i].bit, 0)], Removed(rs, i), n)
  {
    RemovedAt(rs, i);
    RemovedAt(xs, i);
  }

  lemma CloseOrder(
    rs: seq<Ctrl>, xs: seq<Session>, wpcs: seq<WriterPc>, claimOf: seq<nat>, condemned: set<int>, n: nat, i: nat)
    requires |xs| == |rs| && |claimOf| == |wpcs| && OrderOk(rs, xs, wpcs, claimOf, condemned, n) && i < |rs|
    ensures OrderOk(Removed(rs, i), Removed(xs, i), wpcs, claimOf, condemned, n)
  {
    RemovedAt(rs, i);
    RemovedAt(xs, i);
    forall k, w | 0 <= k < |rs| - 1 && Removed(rs, i)[k].online && 0 <= w < |wpcs| && !wpcs[w].WIdle?
      ensures Behind(Removed(rs, i)[k], NextClaim(Removed(xs, i)[k]), wpcs[w], claimOf[w], condemned, n)
    {
      var k' := Shifted(i, k);
      assert Behind(rs[k'], NextClaim(xs[k']), wpcs[w], claimOf[w], condemned, n);
    }
  }

  lemma CloseSlotBits(
    bitmap: set<int>, j: nat, p: int, rs: seq<Ctrl>, xs: seq<Session>, mask: set<int>, leavers: seq<Leaver>, n: nat,
    i: nat)
    requires |xs| == |rs| && i < |rs| && SlotBits(bitmap, j, p, rs, xs, mask, Free, leavers, n)
    ensures SlotBits(bitmap, j, p, Removed(rs, i), Removed(xs, i), mask - {rs[i].bit}, Free,
                     leavers + [Leaver(rs[i].bit, 0)], n)
  {
    RemovedAt(rs, i);
    RemovedAt(xs, i);
    var leavers' := leavers + [Leaver(rs[i].bit, 0)];
    assert leavers'[|leavers|] == Leaver(rs[i].bit, 0);
    forall b | b in bitmap
      ensures b in mask - {rs[i].bit} || ToBeCleared(Free, leavers', j, b)
    {
      if ToBeCleared(Free, leavers, j, b) {
        var l :| 0 <= l < |leavers| && leavers[l].next <= j && leavers[l].bit == b;
        assert leavers'[l] == leavers[l];
      }
    }
  }

  lemma CloseBitmaps(
    slots: seq<Slot>, rs: seq<Ctrl>, xs: seq<Session>, published: seq<bool>, mask: set<int>, leavers: seq<Leaver>,
    n: nat, i: nat)
    requires n > 0 && |slots| == n && |xs| == |rs| && i < |rs|
    requires BitmapsOk(slots, rs, xs, published, mask, Free, leavers, n)
    ensures BitmapsOk(slots, Removed(rs, i), Removed(xs, i), published, mask - {rs[i].bit}, Free,
                      leavers + [Leaver(rs[i].bit, 0)], n)
  {
    forall q | |published| - n <= q < |published|
      ensures SlotBits(slots[SlotOf(q, n)].bitmap, SlotOf(q, n), LastPublished(published, q, n), Removed(rs, i),
                       Removed(xs, i), mask - {rs[i].bit}, Free, leavers + [Leaver(rs[i].bit, 0)], n)
    {
      CloseSlotBits(slots[SlotOf(q, n)].bitmap, SlotOf(q, n), LastPublished(published, q, n), rs, xs, mask, leavers, n,
                    i);
    }
  }

  lemma CloseReading(
    rpcs: seq<ReaderPc>, rs: seq<Ctrl>, xs: seq<Session>, slots: seq<Slot>, wpcs: seq<WriterPc>,
    claims: seq<seq<Byte>>, published: seq<bool>, i: nat)
    requires |rpcs| == |rs| == |xs| && |published| == |claims| && i < |rs|
    requires ReadingOk(rpcs, rs, xs, slots, wpcs, claims, published)
    ensures ReadingOk(Removed(rpcs, i), Removed(rs, i), Removed(xs, i), slots, wpcs, claims, published)
  {
    RemovedAt(rs, i);
    RemovedAt(xs, i);
    RemovedAt(rpcs, i);
    forall k | 0 <= k < |rs| - 1
      ensures ReadOk(Removed(rpcs, i)[k], Removed(rs, i)[k], NextClaim(Removed(xs, i)[k]),
                slots, wpcs, claims, published)
    {
      var k' := Shifted(i, k);
      assert ReadOk(rpcs[k'], rs[k'], NextClaim(xs[k']), slots, wpcs, claims, published);
    }
  }

  lemma CloseSessions(xs: seq<Session>, closed: seq<Session>, claims: seq<seq<Byte>>, i: nat)
    requires SessionsOk(xs, claims) && SessionsOk(closed, claims) && i < |xs|
    ensures SessionsOk(Removed(xs, i), claims) && SessionsOk(closed + [xs[i]], claims)
  {
    RemovedAt(xs, i);
  }

  lemma CloseKeeps(s: State, h: History, i: nat)
    requires Inv(s, h)
    ensures Inv(Step(s, CloseReader(i)), Track(h, s, CloseReader(i)))
  {
    TrackKeepsShape(s, h, CloseReader(i));
    if i < |s.rpcs| && MayClose(s.rpcs[i]) && s.lock.Free? {
      var n, rs, xs := |s.chan.slots|, s.chan.readers, h.sessions;
      MembersAfterRelease(rs, i);
      CloseReaders(rs, xs, s.leavers, i, |h.claims|, n);
      CloseOrder(rs, xs, s.wpcs, h.claimOf, {}, n, i);
      CloseBitmaps(s.chan.slots, rs, xs, h.published, s.chan.mask, s.leavers, n, i);
      CloseReading(s.rpcs, rs, xs, s.chan.slots, s.wpcs, h.claims, h.published, i);
      CloseSessions(xs, h.closed, h.claims, i);
    }
  }
}
