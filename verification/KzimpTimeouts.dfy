/** The steps of a timeout keep the invariant, and so does every allowed step. */
module KzimpTimeouts {
  import opened KzimpChan
  import opened KzimpInvariant
  import opened KzimpProtocol
  import opened KzimpReaders
  import opened KzimpReads
  import opened KzimpWriters
  import opened RingArith

  // ----- Taking the lock -----

  lemma MembersAfterAcquire(rs: seq<Ctrl>, captured: set<int>)
    ensures MemberBits(rs, captured) == MemberBits(rs, {}) - captured
  {
    forall b | b in MemberBits(rs, {}) - captured
      ensures b in MemberBits(rs, captured)
    {
      var i :| 0 <= i < |rs| && Member(rs[i], {}) && rs[i].bit == b;
      assert Member(rs[i], captured);
    }
    forall b | b in MemberBits(rs, captured)
      ensures b in MemberBits(rs, {})
    {
      var i :| 0 <= i < |rs| && Member(rs[i], captured) && rs[i].bit == b;
      assert Member(rs[i], {});
    }
  }

  lemma AcquireSlotBits(
    bitmap: set<int>, j: nat, p: int, rs: seq<Ctrl>, xs: seq<Session>, mask: set<int>, leavers: seq<Leaver>, n: nat,
    w: nat, captured: set<int>)
    requires |xs| == |rs| && SlotBits(bitmap, j, p, rs, xs, mask, Free, leavers, n)
    ensures SlotBits(bitmap, j, p, rs, xs, mask - captured, Testing(w, captured, 0), leavers, n)
  {
    forall b | b in bitmap
      ensures b in mask - captured || ToBeCleared(Testing(w, captured, 0), leavers, j, b)
    {
      assert b in mask || ToBeCleared(Free, leavers, j, b);
    }
  }

  lemma AcquireBitmaps(
    slots: seq<Slot>, rs: seq<Ctrl>, xs: seq<Session>, published: seq<bool>, mask: set<int>, leavers: seq<Leaver>,
    n: nat, w: nat, captured: set<int>)
    requires n > 0 && |slots| == n && |xs| == |rs|
    requires BitmapsOk(slots, rs, xs, published, mask, Free, leavers, n)
    ensures BitmapsOk(slots, rs, xs, published, mask - captured, Testing(w, captured, 0), leavers, n)
  {
    forall q | |published| - n <= q < |published|
      ensures SlotBits(slots[SlotOf(q, n)].bitmap, SlotOf(q, n), LastPublished(published, q, n), rs, xs,
                       mask - captured, Testing(w, captured, 0), leavers, n)
    {
      AcquireSlotBits(slots[SlotOf(q, n)].bitmap, SlotOf(q, n), LastPublished(published, q, n), rs, xs, mask, leavers,
                      n, w, captured);
    }
  }

  /** With more readers condemned, less is asked of the masks that are loaded. */
  lemma AcquireOrder(
    rs: seq<Ctrl>, xs: seq<Session>, wpcs: seq<WriterPc>, claimOf: seq<nat>, n: nat, captured: set<int>)
    requires |xs| == |rs| && |claimOf| == |wpcs| && OrderOk(rs, xs, wpcs, claimOf, {}, n)
    ensures OrderOk(rs, xs, wpcs, claimOf, captured, n)
  {
    forall i, w | 0 <= i < |rs| && rs[i].online && 0 <= w < |wpcs| && !wpcs[w].WIdle?
      ensures Behind(rs[i], NextClaim(xs[i]), wpcs[w], claimOf[w], captured, n)
    {
      assert Behind(rs[i], NextClaim(xs[i]), wpcs[w], claimOf[w], {}, n);
    }
  }

  lemma AcquireCleared(s: State, h: History, w: nat)
    requires Inv(s, h) && w < |s.wpcs| && s.wpcs[w].WCaptured? && s.lock.Free?
    ensures ClearedOk(s.chan.slots, Acquire(s, w).wpcs, Acquire(s, w).lock)
    ensures LockOk(Acquire(s, w).lock, Acquire(s, w).wpcs)
  {
    var s' := Acquire(s, w);
    forall v | 0 <= v < |s'.wpcs| && !s'.wpcs[v].WIdle? && s'.wpcs[v].m < |s.chan.slots|
      ensures WriterBits(s'.wpcs[v], s.chan.slots[s'.wpcs[v].m].bitmap, s'.lock)
    {
      assert WriterBits(s.wpcs[v], s.chan.slots[s.wpcs[v].m].bitmap, s.lock);
    }
  }

  lemma AcquireKeeps(s: State, h: History, w: nat)
    requires Inv(s, h) && w < |s.wpcs| && s.wpcs[w].WCaptured? && s.lock.Free?
    ensures Inv(Acquire(s, w), h)
  {
    var n, rs, xs, pc := |s.chan.slots|, s.chan.readers, h.sessions, WLocked(s.wpcs[w].m, s.wpcs[w].msg);
    var captured := s.wpcs[w].captured;
    WriterSlotNow(s, h, w);
    MembersAfterAcquire(rs, captured);
    MovedWriters(s.wpcs, h.claimOf, h.claims, h.published, n, w, pc);
    AcquireOrder(rs, xs, s.wpcs, h.claimOf, n, captured);
    SameOrder(rs, xs, s.wpcs, h.claimOf, captured, n, w, pc);
    AcquireBitmaps(s.chan.slots, rs, xs, h.published, s.chan.mask, s.leavers, n, w, captured);
    AcquireCleared(s, h, w);
    MovedContents(s.chan.slots, s.wpcs, h.claimOf, h.claims, h.published, n, w, pc);
    CalmReading(s.rpcs, rs, xs, s.chan.slots, s.wpcs, h.claims, h.published, w, pc);
  }

  // ----- Going through the slots -----

  /** Only the lock changes, for the same timeout. */
  lemma LockMoves(s: State, h: History, lock: Lock)
    requires Inv(s, h) && !s.lock.Free? && !lock.Free? && lock.w == s.lock.w && lock.captured == s.lock.captured
    requires LockShape(lock, |s.chan.slots|, |s.rpcs|, |s.wpcs|)
    requires forall j :: 0 <= j < |s.chan.slots| && PastSlot(lock, j) && !PastSlot(s.lock, j) ==>
      s.chan.slots[j].bitmap == {}
    requires forall j :: 0 <= j < |s.chan.slots| && PastSlot(s.lock, j) ==> PastSlot(lock, j)
    requires WindowOk(lock, s.chan.slots) && MarkingOk(lock, s.chan.readers)
    ensures Inv(s.(lock := lock), h)
  {
    MovedBitmaps(s.chan.slots, s.chan.readers, h.sessions, h.published, s.chan.mask, s.lock, lock, s.leavers,
                 |s.chan.slots|);
    forall w | 0 <= w < |s.wpcs| && !s.wpcs[w].WIdle? && s.wpcs[w].m < |s.chan.slots|
      ensures WriterBits(s.wpcs[w], s.chan.slots[s.wpcs[w].m].bitmap, lock)
    {
      assert WriterBits(s.wpcs[w], s.chan.slots[s.wpcs[w].m].bitmap, s.lock);
    }
  }

  lemma MovedBitmaps(
    slots: seq<Slot>, rs: seq<Ctrl>, xs: seq<Session>, published: seq<bool>, mask: set<int>, lock: Lock, lock': Lock,
    leavers: seq<Leaver>, n: nat)
    requires n > 0 && |slots| == n && |xs| == |rs| && !lock.Free? && !lock'.Free? && lock.captured == lock'.captured
    requires BitmapsOk(slots, rs, xs, published, mask, lock, leavers, n)
    requires forall j :: 0 <= j < n && PastSlot(lock', j) && !PastSlot(lock, j) ==> slots[j].bitmap == {}
    ensures BitmapsOk(slots, rs, xs, published, mask, lock', leavers, n)
  {
    forall q | |published| - n <= q < |published|
      ensures SlotBits(slots[SlotOf(q, n)].bitmap, SlotOf(q, n), LastPublished(published, q, n), rs, xs, mask, lock',
                       leavers, n)
    {
      assert SlotBits(slots[SlotOf(q, n)].bitmap, SlotOf(q, n), LastPublished(published, q, n), rs, xs, mask, lock,
                      leavers, n);
      forall b | b in slots[SlotOf(q, n)].bitmap
        ensures b in mask || ToBeCleared(lock', leavers, SlotOf(q, n), b)
      {
        assert b in mask || ToBeCleared(lock, leavers, SlotOf(q, n), b);
      }
    }
  }

  lemma TestKeeps(s: State, h: History)
    requires Inv(s, h) && s.lock.Testing? && s.wpcs[s.lock.w].WLocked?
    ensures Inv(TimeoutNext(s), h)
  {
    LockMoves(s, h, TimeoutNext(s).lock);
  }

  lemma LoadSlotKeeps(s: State, h: History)
    requires Inv(s, h) && s.lock.Clearing? && s.wpcs[s.lock.w].WLocked?
    ensures Inv(TimeoutNext(s), h)
  {
    LockMoves(s, h, TimeoutNext(s).lock);
  }

  // ----- Storing a slot -----

  lemma StoreSlotBits(
    bitmap: set<int>, j: nat, p: int, rs: seq<Ctrl>, xs: seq<Session>, mask: set<int>, lock: Lock,
    leavers: seq<Leaver>, n: nat)
    requires |xs| == |rs| && lock.Storing? && SlotBits(bitmap, j, p, rs, xs, mask, lock, leavers, n)
    requires lock.j == j ==> bitmap - lock.captured == lock.loaded - lock.captured
    ensures SlotBits(if j == lock.j then lock.loaded - lock.captured else bitmap, j, p, rs, xs, mask,
                     Testing(lock.w, lock.captured, lock.j + 1), leavers, n)
  {
    var lock' := Testing(lock.w, lock.captured, lock.j + 1);
    forall b | b in if j == lock.j then lock.loaded - lock.captured else bitmap
      ensures b in bitmap && (b in mask || ToBeCleared(lock', leavers, j, b))
    {
      assert b in bitmap - lock.captured || b in bitmap;
      assert b in mask || ToBeCleared(lock, leavers, j, b);
    }
    forall i | 0 <= i < |rs| && Member(rs[i], lock.captured) && NextClaim(xs[i]) <= p
      ensures rs[i].bit in if j == lock.j then lock.loaded - lock.captured else bitmap
    {
      assert rs[i].bit in bitmap && rs[i].bit in bitmap - lock.captured;
    }
  }

  lemma StoreSlotBitmaps(s: State, h: History)
    requires Inv(s, h) && s.lock.Storing? && s.wpcs[s.lock.w].WLocked?
    ensures BitmapsOk(TimeoutNext(s).chan.slots, s.chan.readers, h.sessions, h.published, s.chan.mask,
                      TimeoutNext(s).lock, s.leavers, |s.chan.slots|)
  {
    var n, s' := |s.chan.slots|, TimeoutNext(s);
    forall q | |h.published| - n <= q < |h.published|
      ensures SlotBits(s'.chan.slots[SlotOf(q, n)].bitmap, SlotOf(q, n), LastPublished(h.published, q, n),
                       s.chan.readers, h.sessions, s.chan.mask, s'.lock, s.leavers, n)
    {
      StoreSlotBits(s.chan.slots[SlotOf(q, n)].bitmap, SlotOf(q, n), LastPublished(h.published, q, n), s.chan.readers,
                    h.sessions, s.chan.mask, s.lock, s.leavers, n);
    }
  }

  lemma StoreSlotCleared(s: State, h: History)
    requires Inv(s, h) && s.lock.Storing? && s.wpcs[s.lock.w].WLocked?
    ensures ClearedOk(TimeoutNext(s).chan.slots, s.wpcs, TimeoutNext(s).lock)
  {
    var s' := TimeoutNext(s);
    forall v | 0 <= v < |s.wpcs| && !s.wpcs[v].WIdle? && s.wpcs[v].m < |s'.chan.slots|
      ensures WriterBits(s.wpcs[v], s'.chan.slots[s.wpcs[v].m].bitmap, s'.lock)
    {
      var bitmap := s.chan.slots[s.wpcs[v].m].bitmap;
      assert WriterBits(s.wpcs[v], bitmap, s.lock);
      if s.wpcs[v].m == s.lock.j {
        assert bitmap - s.lock.captured == s.lock.loaded - s.lock.captured;
        assert s'.chan.slots[s.wpcs[v].m].bitmap <= bitmap;
      }
    }
  }

  lemma StoreSlotKeeps(s: State, h: History)
    requires Inv(s, h) && s.lock.Storing? && s.wpcs[s.lock.w].WLocked?
    ensures Inv(TimeoutNext(s), h)
  {
    var slots' := TimeoutNext(s).chan.slots;
    StoreSlotBitmaps(s, h);
    StoreSlotCleared(s, h);
    SameContents(s.chan.slots, slots', s.wpcs, h.claimOf, h.claims, h.published, |s.chan.slots|);
    SameReading(s.rpcs, s.chan.readers, h.sessions, s.chan.slots, slots', s.wpcs, h.claims, h.published);
  }

  // ----- Marking readers -----

  /** Reader i goes offline, or nothing changes. */
  lemma MarkExactly(c: Chan, i: nat, captured: set<int>)
    requires i < |c.readers| && 0 <= c.readers[i].bit < 32
    ensures Mark(c, i, captured).readers[i] ==
      c.readers[i].(online := c.readers[i].online && c.readers[i].bit !in captured)
  {
    ReaderTestIsExact(captured, c.readers[i].bit);
  }

  lemma MarkMembers(rs: seq<Ctrl>, i: nat, captured: set<int>)
    requires i < |rs| && rs[i].bit in captured
    ensures MemberBits(rs[i := rs[i].(online := false)], captured) == MemberBits(rs, captured)
  {
    var rs' := rs[i := rs[i].(online := false)];
    forall b | b in MemberBits(rs, captured)
      ensures b in MemberBits(rs', captured)
    {
      var k :| 0 <= k < |rs| && Member(rs[k], captured) && rs[k].bit == b;
      assert Member(rs'[k], captured);
    }
    forall b | b in MemberBits(rs', captured)
      ensures b in MemberBits(rs, captured)
    {
      var k :| 0 <= k < |rs'| && Member(rs'[k], captured) && rs'[k].bit == b;
      assert Member(rs[k], captured);
    }
  }

  /** Taking a condemned reader offline asks less of everything. */
  lemma MarkParts(s: State, h: History, i: nat)
    requires Inv(s, h) && i < |s.rpcs| && s.chan.readers[i].bit in Condemned(s.lock)
    ensures var rs' := s.chan.readers[i := s.chan.readers[i].(online := false)];
      && ReadersOk(rs', h.sessions, |h.claims|, |s.chan.slots|) && LeaversOk(s.leavers, rs', |s.chan.slots|)
      && OrderOk(rs', h.sessions, s.wpcs, h.claimOf, Condemned(s.lock), |s.chan.slots|)
      && ReadingOk(s.rpcs, rs', h.sessions, s.chan.slots, s.wpcs, h.claims, h.published)
  {
    var rs' := s.chan.readers[i := s.chan.readers[i].(online := false)];
    forall j, k | 0 <= j < k < |rs'|
      ensures rs'[j].bit != rs'[k].bit
    {
      assert s.chan.readers[j].bit != s.chan.readers[k].bit;
    }
    forall k, w | 0 <= k < |rs'| && rs'[k].online && 0 <= w < |s.wpcs| && !s.wpcs[w].WIdle?
      ensures Behind(rs'[k], NextClaim(h.sessions[k]), s.wpcs[w], h.claimOf[w], Condemned(s.lock), |s.chan.slots|)
    {
      assert Behind(s.chan.readers[k], NextClaim(h.sessions[k]), s.wpcs[w], h.claimOf[w], Condemned(s.lock),
                    |s.chan.slots|);
    }
    forall k | 0 <= k < |rs'|
      ensures ReadOk(s.rpcs[k], rs'[k], NextClaim(h.sessions[k]), s.chan.slots, s.wpcs, h.claims, h.published)
    {
      assert ReadOk(s.rpcs[k], s.chan.readers[k], NextClaim(h.sessions[k]), s.chan.slots, s.wpcs, h.claims,
                    h.published);
    }
  }

  lemma MarkBitmaps(s: State, h: History, i: nat)
    requires Inv(s, h) && i < |s.rpcs| && s.chan.readers[i].bit in Condemned(s.lock)
    ensures BitmapsOk(s.chan.slots, s.chan.readers[i := s.chan.readers[i].(online := false)], h.sessions, h.published,
                      s.chan.mask, s.lock, s.leavers, |s.chan.slots|)
  {
    var n, rs' := |s.chan.slots|, s.chan.readers[i := s.chan.readers[i].(online := false)];
    forall q | |h.published| - n <= q < |h.published|
      ensures SlotBits(s.chan.slots[SlotOf(q, n)].bitmap, SlotOf(q, n), LastPublished(h.published, q, n), rs',
                       h.sessions, s.chan.mask, s.lock, s.leavers, n)
    {
      assert SlotBits(s.chan.slots[SlotOf(q, n)].bitmap, SlotOf(q, n), LastPublished(h.published, q, n),
                      s.chan.readers, h.sessions, s.chan.mask, s.lock, s.leavers, n);
    }
  }

  /** A condemned reader goes offline. */
  lemma OfflineKeeps(s: State, h: History, i: nat)
    requires Inv(s, h) && i < |s.rpcs| && s.chan.readers[i].bit in Condemned(s.lock)
    ensures Inv(s.(chan := s.chan.(readers := s.chan.readers[i := s.chan.readers[i].(online := false)])), h)
  {
    MarkMembers(s.chan.readers, i, Condemned(s.lock));
    MarkParts(s, h, i);
    MarkBitmaps(s, h, i);
  }

  lemma MarkLockKeeps(s: State, h: History, i: nat, s': State)
    requires Inv(s, h) && s.lock.Marking? && s.lock.i == i < |s.chan.readers|
    requires s.chan.readers[i].bit in s.lock.captured ==> !s.chan.readers[i].online
    requires s' == s.(lock := Marking(s.lock.w, s.lock.captured, i + 1))
    ensures Inv(s', h)
  {
    LockMoves(s, h, Marking(s.lock.w, s.lock.captured, i + 1));
  }

  /** The channel after reader i is marked, when it is captured. */
  function Marked(c: Chan, i: nat, captured: set<int>): Chan
    requires i < |c.readers|
  {
    if c.readers[i].bit in captured then c.(readers := c.readers[i := c.readers[i].(online := false)]) else c
  }

  lemma MarkStep(s: State, s1: State)
    requires StateShape(s) && s.lock.Marking? && s.wpcs[s.lock.w].WLocked? && s.lock.i < |s.chan.readers|
    requires 0 <= s.chan.readers[s.lock.i].bit < 32
    requires s1 == s.(chan := Marked(s.chan, s.lock.i, s.lock.captured))
    ensures TimeoutNext(s) == s1.(lock := Marking(s1.lock.w, s1.lock.captured, s1.lock.i + 1))
    ensures s1.lock == s.lock && |s1.chan.readers| == |s.chan.readers|
    ensures s1.chan.readers[s.lock.i].bit in s.lock.captured ==> !s1.chan.readers[s.lock.i].online
  {
    var c, i := s.chan, s.lock.i;
    MarkExactly(c, i, s.lock.captured);
    assert c.readers[i := c.readers[i]] == c.readers;
    assert Mark(c, i, s.lock.captured) == Marked(c, i, s.lock.captured);
  }

  lemma MarkedKeeps(s: State, h: History, s1: State)
    requires Inv(s, h) && s.lock.Marking? && s.lock.i < |s.chan.readers|
    requires s1 == s.(chan := Marked(s.chan, s.lock.i, s.lock.captured))
    ensures Inv(s1, h)
  {
    if s.chan.readers[s.lock.i].bit in s.lock.captured {
      OfflineKeeps(s, h, s.lock.i);
    }
  }

  lemma MarkKeeps(s: State, h: History)
    requires Inv(s, h) && s.lock.Marking? && s.wpcs[s.lock.w].WLocked? && s.lock.i < |s.chan.readers|
    ensures Inv(TimeoutNext(s), h)
  {
    var s1 := s.(chan := Marked(s.chan, s.lock.i, s.lock.captured));
    MarkedKeeps(s, h, s1);
    MarkStep(s, s1);
    MarkLockKeeps(s1, h, s.lock.i, TimeoutNext(s));
  }

  // ----- Giving the lock back -----

  /** No captured reader is online any more. */
  predicate AllMarked(rs: seq<Ctrl>, captured: set<int>) {
    forall k :: 0 <= k < |rs| && rs[k].bit in captured ==> !rs[k].online
  }

  lemma MembersAfterMarking(rs: seq<Ctrl>, captured: set<int>)
    requires AllMarked(rs, captured)
    ensures MemberBits(rs, {}) == MemberBits(rs, captured)
  {
    MembersAfterAcquire(rs, captured);
    forall b | b in MemberBits(rs, {})
      ensures b !in captured
    {
      var i :| 0 <= i < |rs| && Member(rs[i], {}) && rs[i].bit == b;
    }
  }

  lemma UnlockOrder(
    rs: seq<Ctrl>, xs: seq<Session>, wpcs: seq<WriterPc>, claimOf: seq<nat>, n: nat, captured: set<int>)
    requires |xs| == |rs| && |claimOf| == |wpcs| && AllMarked(rs, captured)
    requires OrderOk(rs, xs, wpcs, claimOf, captured, n)
    ensures OrderOk(rs, xs, wpcs, claimOf, {}, n)
  {
    forall i, w | 0 <= i < |rs| && rs[i].online && 0 <= w < |wpcs| && !wpcs[w].WIdle?
      ensures Behind(rs[i], NextClaim(xs[i]), wpcs[w], claimOf[w], {}, n)
    {
      assert Behind(rs[i], NextClaim(xs[i]), wpcs[w], claimOf[w], captured, n);
    }
  }

  lemma UnlockBitmaps(
    slots: seq<Slot>, rs: seq<Ctrl>, xs: seq<Session>, published: seq<bool>, mask: set<int>, lock: Lock,
    leavers: seq<Leaver>, n: nat)
    requires n > 0 && |slots| == n && |xs| == |rs| && lock.Marking? && AllMarked(rs, lock.captured)
    requires BitmapsOk(slots, rs, xs, published, mask, lock, leavers, n)
    ensures BitmapsOk(slots, rs, xs, published, mask, Free, leavers, n)
  {
    forall q | |published| - n <= q < |published|
      ensures SlotBits(slots[SlotOf(q, n)].bitmap, SlotOf(q, n), LastPublished(published, q, n), rs, xs, mask, Free,
                       leavers, n)
    {
      assert SlotBits(slots[SlotOf(q, n)].bitmap, SlotOf(q, n), LastPublished(published, q, n), rs, xs, mask, lock,
                      leavers, n);
      forall b | b in slots[SlotOf(q, n)].bitmap
        ensures b in mask || ToBeCleared(Free, leavers, SlotOf(q, n), b)
      {
        assert b in mask || ToBeCleared(lock, leavers, SlotOf(q, n), b);
      }
    }
  }

  lemma UnlockCleared(s: State, h: History)
    requires Inv(s, h) && s.lock.Marking? && s.wpcs[s.lock.w].WLocked? && s.lock.i == |s.chan.readers|
    ensures ClearedOk(s.chan.slots, TimeoutNext(s).wpcs, Free) && LockOk(Free, TimeoutNext(s).wpcs)
  {
    var s' := TimeoutNext(s);
    forall v | 0 <= v < |s'.wpcs| && !s'.wpcs[v].WIdle? && s'.wpcs[v].m < |s.chan.slots|
      ensures WriterBits(s'.wpcs[v], s.chan.slots[s'.wpcs[v].m].bitmap, Free)
    {
      assert WriterBits(s.wpcs[v], s.chan.slots[s.wpcs[v].m].bitmap, s.lock);
    }
  }

  lemma UnlockKeeps(s: State, h: History)
    requires Inv(s, h) && s.lock.Marking? && s.wpcs[s.lock.w].WLocked? && s.lock.i == |s.chan.readers|
    ensures Inv(TimeoutNext(s), h)
  {
    var n, rs, xs, w, captured := |s.chan.slots|, s.chan.readers, h.sessions, s.lock.w, s.lock.captured;
    var pc := WReady(s.wpcs[w].m, s.wpcs[w].msg);
    WriterSlotNow(s, h, w);
    MembersAfterMarking(rs, captured);
    MovedWriters(s.wpcs, h.claimOf, h.claims, h.published, n, w, pc);
    UnlockOrder(rs, xs, s.wpcs, h.claimOf, n, captured);
    SameOrder(rs, xs, s.wpcs, h.claimOf, {}, n, w, pc);
    UnlockBitmaps(s.chan.slots, rs, xs, h.published, s.chan.mask, s.lock, s.leavers, n);
    UnlockCleared(s, h);
    MovedContents(s.chan.slots, s.wpcs, h.claimOf, h.claims, h.published, n, w, pc);
    CalmReading(s.rpcs, rs, xs, s.chan.slots, s.wpcs, h.claims, h.published, w, pc);
  }

  // ----- All steps -----

  lemma TimeoutKeeps(s: State, h: History)
    requires Inv(s, h) && !s.lock.Free? && s.wpcs[s.lock.w].WLocked?
    ensures Inv(TimeoutNext(s), h)
  {
    match s.lock
    case Testing(_, _, _) => TestKeeps(s, h);
    case Clearing(_, _, _) => LoadSlotKeeps(s, h);
    case Storing(_, _, _, _) => StoreSlotKeeps(s, h);
    case Marking(_, _, i) => if i < |s.chan.readers| { MarkKeeps(s, h); } else { UnlockKeeps(s, h); }
  }

  lemma WriterKeeps(s: State, h: History, w: nat)
    requires Inv(s, h) && Allowed(s, WriterStep(w)) && w < |s.wpcs|
    ensures Inv(WriterNext(s, w), Track(h, s, WriterStep(w)))
  {
    match s.wpcs[w]
    case WIdle =>
    case WWaiting(_, _) => WaitKeeps(s, h, w);
    case WCaptured(_, _, _) => if s.lock.Free? { AcquireKeeps(s, h, w); }
    case WLocked(_, _) => if HoldsLock(s.lock, w) { TimeoutKeeps(s, h); }
    case WReady(_, _) => FillStepKeeps(s, h, w);
    case WFilling(_, _, _) => FillStepKeeps(s, h, w);
    case WPublishing(_, _) => LoadKeeps(s, h, w);
    case WLoaded(_, _, _) => PublishKeeps(s, h, w);
  }

  /** Every allowed step, in any interleaving, keeps the invariant. */
  lemma StepKeeps(s: State, h: History, a: Action)
    requires Inv(s, h) && Allowed(s, a)
    ensures Inv(Step(s, a), Track(h, s, a))
  {
    match a
    case OpenReader => OpenKeeps(s, h);
    case CloseReader(i) => CloseKeeps(s, h, i);
    case ReadCall(_, _) => CallKeeps(s, h, a);
    case ReaderStep(i) => ReaderKeeps(s, h, i);
    case ReaderGivesUp(_) => CallKeeps(s, h, a);
    case LeaverStep(l) => LeaverKeeps(s, h, l);
    case WriteCall(w, msg) => ClaimKeeps(s, h, w, msg);
    case WriterStep(w) => if w < |s.wpcs| { WriterKeeps(s, h, w); }
    case Timeout(w) => CaptureKeeps(s, h, w);
    case WriterGivesUp(w) => assert Follows(s, a, ClaimsKept);
  }

  lemma {:induction false} RunKeeps(s: State, h: History, schedule: seq<Action>)
    requires Inv(s, h)
    ensures Inv(Run(s, h, schedule).0, Run(s, h, schedule).1)
    decreases |schedule|
  {
    if schedule != [] {
      var a := schedule[0];
      AllowedByAll(s, a);
      if Allowed(s, a) {
        StepKeeps(s, h, a);
        RunKeeps(Step(s, a), Track(h, s, a), schedule[1..]);
        assert Run(s, h, schedule) == Run(Step(s, a), Track(h, s, a), schedule[1..]);
      }
    }
  }
}
