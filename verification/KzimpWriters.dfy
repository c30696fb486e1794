/** Claiming, waiting, filling and publishing keep the invariant. */
module KzimpWriters {
  import opened KzimpChan
  import opened KzimpInvariant
  import opened KzimpProtocol
  import opened KzimpReaders
  import opened KzimpReads
  import opened RingArith

  // ----- Claiming a slot -----

  /** No unfinished write holds the next slot: the claim a lap back, if any, is published. */
  lemma LapBackPublished(s: State, h: History)
    requires Inv(s, h) && SlotUnclaimed(s, s.chan.nextWrite)
    ensures IsPublished(h.published, |h.claims| - |s.chan.slots|)
    ensures forall w :: 0 <= w < |s.wpcs| && Busy(s, w) ==> |h.claims| - |s.chan.slots| < h.claimOf[w]
  {
    var n, q := |s.chan.slots|, |h.claims| - |s.chan.slots|;
    LapBackSlot(|h.claims|, n);
    forall w | 0 <= w < |s.wpcs| && Busy(s, w)
      ensures q < h.claimOf[w]
    {
      assert s.wpcs[w].m == SlotOf(h.claimOf[w], n);
    }
    if q >= 0 {
      forall w | 0 <= w < |s.wpcs| && !s.wpcs[w].WIdle?
        ensures h.claimOf[w] != q
      {
        assert Busy(s, w);
      }
    }
  }

  /** Every unpublished claim has a writer. */
  predicate ClaimsHeld(wpcs: seq<WriterPc>, claimOf: seq<nat>, published: seq<bool>)
    requires |claimOf| == |wpcs|
  {
    forall q :: 0 <= q < |published| && !published[q] ==>
      exists v :: 0 <= v < |wpcs| && !wpcs[v].WIdle? && claimOf[v] == q
  }

  lemma ClaimHeld(wpcs: seq<WriterPc>, claimOf: seq<nat>, claims: nat, published: seq<bool>, w: nat, pc: WriterPc)
    requires |claimOf| == |wpcs| && |published| == claims && w < |wpcs| && wpcs[w].WIdle? && !pc.WIdle?
    requires ClaimsHeld(wpcs, claimOf, published)
    ensures ClaimsHeld(wpcs[w := pc], claimOf[w := claims], published + [false])
  {
    var wpcs', claimOf', published' := wpcs[w := pc], claimOf[w := claims], published + [false];
    forall q | 0 <= q < |published'| && !published'[q]
      ensures exists v :: 0 <= v < |wpcs'| && !wpcs'[v].WIdle? && claimOf'[v] == q
    {
      if q == claims {
        assert !wpcs'[w].WIdle? && claimOf'[w] == q;
      } else {
        var v :| 0 <= v < |wpcs| && !wpcs[v].WIdle? && claimOf[v] == q;
        assert !wpcs'[v].WIdle? && claimOf'[v] == q;
      }
    }
  }

  lemma ClaimWriters(s: State, h: History, w: nat, msg: seq<Byte>)
    requires Inv(s, h) && Claims(s, w, msg) && SlotUnclaimed(s, s.chan.nextWrite)
    ensures WritersOk(s.wpcs[w := WWaiting(s.chan.nextWrite, msg)], h.claimOf[w := |h.claims|], h.claims + [msg],
                      h.published + [false], |s.chan.slots|)
  {
    LapBackPublished(s, h);
    var n, claims', published' := |s.chan.slots|, h.claims + [msg], h.published + [false];
    var wpcs', claimOf' := s.wpcs[w := WWaiting(s.chan.nextWrite, msg)], h.claimOf[w := |h.claims|];
    forall v | 0 <= v < |wpcs'| && !wpcs'[v].WIdle?
      ensures |claims'| - n <= claimOf'[v] < |claims'| && !published'[claimOf'[v]]
      ensures wpcs'[v].m == SlotOf(claimOf'[v], n) && wpcs'[v].msg == claims'[claimOf'[v]]
    {
      if v != w {
        assert Busy(s, v);
      }
    }
    ClaimHeld(s.wpcs, h.claimOf, |h.claims|, h.published, w, wpcs'[w]);
  }

  lemma ClaimBitmaps(
    slots: seq<Slot>, rs: seq<Ctrl>, xs: seq<Session>, published: seq<bool>, mask: set<int>, lock: Lock,
    leavers: seq<Leaver>, n: nat)
    requires n > 0 && |slots| == n && |xs| == |rs|
    requires BitmapsOk(slots, rs, xs, published, mask, lock, leavers, n)
    requires IsPublished(published, |published| - n)
    ensures BitmapsOk(slots, rs, xs, published + [false], mask, lock, leavers, n)
  {
    var published' := published + [false];
    forall q | |published'| - n <= q < |published'|
      ensures SlotBits(slots[SlotOf(q, n)].bitmap, SlotOf(q, n), LastPublished(published', q, n), rs, xs, mask, lock,
                       leavers, n)
    {
      if q == |published| {
        LapBackSlot(q, n);
        assert SlotBits(slots[SlotOf(q - n, n)].bitmap, SlotOf(q - n, n), LastPublished(published, q - n, n), rs, xs,
                        mask, lock, leavers, n);
      } else {
        assert LastPublished(published', q, n) == LastPublished(published, q, n);
      }
    }
  }

  lemma ClaimContents(
    slots: seq<Slot>, wpcs: seq<WriterPc>, claimOf: seq<nat>, claims: seq<seq<Byte>>, published: seq<bool>, w: nat,
    pc: WriterPc, n: nat)
    requires n > 0 && |slots| == n && |claimOf| == |wpcs| && |published| == |claims| && w < |wpcs| && pc.WWaiting?
    requires forall v :: 0 <= v < |wpcs| && !wpcs[v].WIdle? ==> claimOf[v] < |claims|
    requires ContentsOk(slots, wpcs, claimOf, claims, published, n)
    requires IsPublished(published, |claims| - n)
    ensures ContentsOk(slots, wpcs[w := pc], claimOf[w := |claims|], claims + [pc.msg], published + [false], n)
  {
    LapBackSlot(|claims|, n);
    var wpcs', claimOf', claims' := wpcs[w := pc], claimOf[w := |claims|], claims + [pc.msg];
    forall v | 0 <= v < |wpcs'| && !wpcs'[v].WIdle? && claimOf'[v] < |claims'|
      ensures WriterSlot(slots[SlotOf(claimOf'[v], n)], wpcs'[v], claims', claimOf'[v], n)
    {
      if v != w {
        assert WriterSlot(slots[SlotOf(claimOf[v], n)], wpcs[v], claims, claimOf[v], n);
      }
    }
  }

  lemma ClaimOrder(
    rs: seq<Ctrl>, xs: seq<Session>, wpcs: seq<WriterPc>, claimOf: seq<nat>, condemned: set<int>, n: nat, w: nat,
    pc: WriterPc, claims: nat)
    requires n > 0 && |claimOf| == |wpcs| && w < |wpcs| && pc.WWaiting? && ReadersOk(rs, xs, claims, n)
    requires OrderOk(rs, xs, wpcs, claimOf, condemned, n)
    ensures OrderOk(rs, xs, wpcs[w := pc], claimOf[w := claims], condemned, n)
  {
    var wpcs', claimOf' := wpcs[w := pc], claimOf[w := claims];
    forall i, v | 0 <= i < |rs| && rs[i].online && 0 <= v < |wpcs'| && !wpcs'[v].WIdle?
      ensures Behind(rs[i], NextClaim(xs[i]), wpcs'[v], claimOf'[v], condemned, n)
    {
      if v != w {
        assert Behind(rs[i], NextClaim(xs[i]), wpcs[v], claimOf[v], condemned, n);
      }
    }
  }

  lemma GrownSessions(xs: seq<Session>, claims: seq<seq<Byte>>, msg: seq<Byte>)
    requires SessionsOk(xs, claims)
    ensures SessionsOk(xs, claims + [msg])
  {
    forall i | 0 <= i < |xs|
      ensures SessionOk(xs[i], claims + [msg])
    {
      assert SessionOk(xs[i], claims);
    }
  }

  /** Reads are not concerned by a writer that does not begin to fill a slot. */
  lemma CalmReading(
    rpcs: seq<ReaderPc>, rs: seq<Ctrl>, xs: seq<Session>, slots: seq<Slot>, wpcs: seq<WriterPc>,
    claims: seq<seq<Byte>>, published: seq<bool>, w: nat, pc: WriterPc)
    requires |rpcs| == |rs| == |xs| && |published| == |claims| && w < |wpcs|
    requires ReadingOk(rpcs, rs, xs, slots, wpcs, claims, published)
    requires Filling(pc) ==> Filling(wpcs[w]) && pc.m == wpcs[w].m
    ensures ReadingOk(rpcs, rs, xs, slots, wpcs[w := pc], claims, published)
  {
    forall i | 0 <= i < |rs|
      ensures ReadOk(rpcs[i], rs[i], NextClaim(xs[i]), slots, wpcs[w := pc], claims, published)
    {
      assert ReadOk(rpcs[i], rs[i], NextClaim(xs[i]), slots, wpcs, claims, published);
    }
  }

  lemma GrownReading(
    rpcs: seq<ReaderPc>, rs: seq<Ctrl>, xs: seq<Session>, slots: seq<Slot>, wpcs: seq<WriterPc>,
    claims: seq<seq<Byte>>, published: seq<bool>, msg: seq<Byte>)
    requires |rpcs| == |rs| == |xs| && |published| == |claims|
    requires ReadingOk(rpcs, rs, xs, slots, wpcs, claims, published)
    ensures ReadingOk(rpcs, rs, xs, slots, wpcs, claims + [msg], published + [false])
  {
    forall i | 0 <= i < |rs|
      ensures ReadOk(rpcs[i], rs[i], NextClaim(xs[i]), slots, wpcs, claims + [msg], published + [false])
    {
      assert ReadOk(rpcs[i], rs[i], NextClaim(xs[i]), slots, wpcs, claims, published);
    }
  }

  lemma ClaimCleared(slots: seq<Slot>, wpcs: seq<WriterPc>, lock: Lock, w: nat, pc: WriterPc)
    requires w < |wpcs| && ClearedOk(slots, wpcs, lock)
    requires !pc.WIdle? && pc.m < |slots| ==> WriterBits(pc, slots[pc.m].bitmap, lock)
    ensures ClearedOk(slots, wpcs[w := pc], lock)
  {
  }

  lemma ClaimParts(s: State, h: History, w: nat, msg: seq<Byte>)
    requires Inv(s, h) && Claims(s, w, msg) && SlotUnclaimed(s, s.chan.nextWrite)
    ensures var n, claims', published' := |s.chan.slots|, h.claims + [msg], h.published + [false];
      var wpcs', claimOf' := s.wpcs[w := WWaiting(s.chan.nextWrite, msg)], h.claimOf[w := |h.claims|];
      && WritersOk(wpcs', claimOf', claims', published', n)
      && OrderOk(s.chan.readers, h.sessions, wpcs', claimOf', {}, n)
      && BitmapsOk(s.chan.slots, s.chan.readers, h.sessions, published', s.chan.mask, s.lock, s.leavers, n)
      && ContentsOk(s.chan.slots, wpcs', claimOf', claims', published', n)
  {
    var n, pc := |s.chan.slots|, WWaiting(s.chan.nextWrite, msg);
    ClaimWriters(s, h, w, msg);
    LapBackPublished(s, h);
    ClaimOrder(s.chan.readers, h.sessions, s.wpcs, h.claimOf, {}, n, w, pc, |h.claims|);
    ClaimBitmaps(s.chan.slots, s.chan.readers, h.sessions, h.published, s.chan.mask, s.lock, s.leavers, n);
    ClaimContents(s.chan.slots, s.wpcs, h.claimOf, h.claims, h.published, w, pc, n);
  }

  lemma ClaimRest(s: State, h: History, w: nat, msg: seq<Byte>)
    requires Inv(s, h) && Claims(s, w, msg)
    ensures var wpcs' := s.wpcs[w := WWaiting(s.chan.nextWrite, msg)];
      && LockOk(s.lock, wpcs') && ClearedOk(s.chan.slots, wpcs', s.lock)
      && ReadingOk(s.rpcs, s.chan.readers, h.sessions, s.chan.slots, wpcs', h.claims + [msg], h.published + [false])
      && SessionsOk(h.sessions, h.claims + [msg]) && SessionsOk(h.closed, h.claims + [msg])
  {
    var pc := WWaiting(s.chan.nextWrite, msg);
    ClaimCleared(s.chan.slots, s.wpcs, s.lock, w, pc);
    CalmReading(s.rpcs, s.chan.readers, h.sessions, s.chan.slots, s.wpcs, h.claims, h.published, w, pc);
    GrownReading(s.rpcs, s.chan.readers, h.sessions, s.chan.slots, s.wpcs[w := pc], h.claims, h.published, msg);
    GrownSessions(h.sessions, h.claims, msg);
    GrownSessions(h.closed, h.claims, msg);
  }

  lemma ClaimStep(s: State, h: History, w: nat, msg: seq<Byte>)
    requires StateShape(s) && HistoryShape(s, h) && Claims(s, w, msg)
    ensures var s', h' := Step(s, WriteCall(w, msg)), Track(h, s, WriteCall(w, msg));
      && StateShape(s') && HistoryShape(s', h')
      && s' == AtWriter(s.(chan := Claim(s.chan)), w, WWaiting(s.chan.nextWrite, msg))
      && h' == h.(claims := h.claims + [msg], published := h.published + [false],
                  claimOf := h.claimOf[w := |h.claims|])
  {
    TrackKeepsShape(s, h, WriteCall(w, msg));
  }

  lemma ClaimKeeps(s: State, h: History, w: nat, msg: seq<Byte>)
    requires Inv(s, h) && Allowed(s, WriteCall(w, msg))
    ensures Inv(Step(s, WriteCall(w, msg)), Track(h, s, WriteCall(w, msg)))
  {
    if Claims(s, w, msg) {
      ClaimStep(s, h, w, msg);
      assert Follows(s, WriteCall(w, msg), SlotsNotShared);
      NextSlot(|h.claims|, |s.chan.slots|);
      ClaimParts(s, h, w, msg);
      ClaimRest(s, h, w, msg);
    }
  }

  // ----- Moving on without touching the slot -----

  /** Writer w moves on to pc, still holding its claim. */
  predicate MovesOn(s: State, w: nat, pc: WriterPc)
    requires w < |s.wpcs|
  {
    Busy(s, w) && !pc.WIdle? && pc.m == s.wpcs[w].m && pc.msg == s.wpcs[w].msg
  }

  lemma MovedWriters(
    wpcs: seq<WriterPc>, claimOf: seq<nat>, claims: seq<seq<Byte>>, published: seq<bool>, n: nat, w: nat, pc: WriterPc)
    requires n > 0 && WritersOk(wpcs, claimOf, claims, published, n) && w < |wpcs|
    requires !wpcs[w].WIdle? && !pc.WIdle? && pc.m == wpcs[w].m && pc.msg == wpcs[w].msg
    ensures WritersOk(wpcs[w := pc], claimOf, claims, published, n)
  {
    var wpcs' := wpcs[w := pc];
    forall q | 0 <= q < |claims| && !published[q]
      ensures exists v :: 0 <= v < |wpcs'| && !wpcs'[v].WIdle? && claimOf[v] == q
    {
      var v :| 0 <= v < |wpcs| && !wpcs[v].WIdle? && claimOf[v] == q;
      assert !wpcs'[v].WIdle?;
    }
  }

  lemma MovedOrder(
    rs: seq<Ctrl>, xs: seq<Session>, wpcs: seq<WriterPc>, claimOf: seq<nat>, condemned: set<int>, n: nat, w: nat,
    pc: WriterPc)
    requires |xs| == |rs| && |claimOf| == |wpcs| && w < |wpcs|
    requires OrderOk(rs, xs, wpcs, claimOf, condemned, n)
    requires forall i :: 0 <= i < |rs| && rs[i].online && !pc.WIdle? ==>
      Behind(rs[i], NextClaim(xs[i]), pc, claimOf[w], condemned, n)
    ensures OrderOk(rs, xs, wpcs[w := pc], claimOf, condemned, n)
  {
    var wpcs' := wpcs[w := pc];
    forall i, v | 0 <= i < |rs| && rs[i].online && 0 <= v < |wpcs'| && !wpcs'[v].WIdle?
      ensures Behind(rs[i], NextClaim(xs[i]), wpcs'[v], claimOf[v], condemned, n)
    {
      if v != w {
        assert Behind(rs[i], NextClaim(xs[i]), wpcs[v], claimOf[v], condemned, n);
      }
    }
  }

  /** As long as pc is not about to store a mask, every online reader is behind its claim as before. */
  lemma SameOrder(
    rs: seq<Ctrl>, xs: seq<Session>, wpcs: seq<WriterPc>, claimOf: seq<nat>, condemned: set<int>, n: nat, w: nat,
    pc: WriterPc)
    requires |xs| == |rs| && |claimOf| == |wpcs| && w < |wpcs| && !wpcs[w].WIdle? && !wpcs[w].WLoaded? && !pc.WLoaded?
    requires OrderOk(rs, xs, wpcs, claimOf, condemned, n)
    ensures OrderOk(rs, xs, wpcs[w := pc], claimOf, condemned, n)
  {
    forall i | 0 <= i < |rs| && rs[i].online && !pc.WIdle?
      ensures Behind(rs[i], NextClaim(xs[i]), pc, claimOf[w], condemned, n)
    {
      assert Behind(rs[i], NextClaim(xs[i]), wpcs[w], claimOf[w], condemned, n);
    }
    MovedOrder(rs, xs, wpcs, claimOf, condemned, n, w, pc);
  }

  lemma MovedContents(
    slots: seq<Slot>, wpcs: seq<WriterPc>, claimOf: seq<nat>, claims: seq<seq<Byte>>, published: seq<bool>, n: nat,
    w: nat, pc: WriterPc)
    requires n > 0 && |slots| == n && |claimOf| == |wpcs| && |published| == |claims| && w < |wpcs|
    requires ContentsOk(slots, wpcs, claimOf, claims, published, n)
    requires !pc.WIdle? && claimOf[w] < |claims| ==> WriterSlot(slots[SlotOf(claimOf[w], n)], pc, claims, claimOf[w], n)
    ensures ContentsOk(slots, wpcs[w := pc], claimOf, claims, published, n)
  {
    var wpcs' := wpcs[w := pc];
    forall v | 0 <= v < |wpcs'| && !wpcs'[v].WIdle? && claimOf[v] < |claims|
      ensures WriterSlot(slots[SlotOf(claimOf[v], n)], wpcs'[v], claims, claimOf[v], n)
    {
      if v != w {
        assert WriterSlot(slots[SlotOf(claimOf[v], n)], wpcs[v], claims, claimOf[v], n);
      }
    }
  }

  /** A writer that moves on before it fills its slot, or from one point to another after it has. */
  lemma WriterPcKeeps(s: State, h: History, w: nat, pc: WriterPc)
    requires Inv(s, h) && w < |s.wpcs| && MovesOn(s, w, pc) && WriterShape(pc, s.chan)
    requires !s.wpcs[w].WLocked? && !pc.WLocked?
    requires OrderOk(s.chan.readers, h.sessions, s.wpcs[w := pc], h.claimOf, Condemned(s.lock), |s.chan.slots|)
    requires WriterBits(pc, s.chan.slots[pc.m].bitmap, s.lock)
    requires h.claimOf[w] < |h.claims|
      && WriterSlot(s.chan.slots[SlotOf(h.claimOf[w], |s.chan.slots|)], pc, h.claims, h.claimOf[w], |s.chan.slots|)
    requires Filling(pc) ==> Filling(s.wpcs[w])
    ensures Inv(AtWriter(s, w, pc), h)
  {
    var n := |s.chan.slots|;
    MovedWriters(s.wpcs, h.claimOf, h.claims, h.published, n, w, pc);
    ClaimCleared(s.chan.slots, s.wpcs, s.lock, w, pc);
    MovedContents(s.chan.slots, s.wpcs, h.claimOf, h.claims, h.published, n, w, pc);
    CalmReading(s.rpcs, s.chan.readers, h.sessions, s.chan.slots, s.wpcs, h.claims, h.published, w, pc);
  }

  lemma WriterSlotNow(s: State, h: History, w: nat)
    requires Inv(s, h) && w < |s.wpcs| && Busy(s, w)
    ensures h.claimOf[w] < |h.claims| && s.wpcs[w].m == SlotOf(h.claimOf[w], |s.chan.slots|) < |s.chan.slots|
    ensures WriterSlot(s.chan.slots[s.wpcs[w].m], s.wpcs[w], h.claims, h.claimOf[w], |s.chan.slots|)
    ensures WriterBits(s.wpcs[w], s.chan.slots[s.wpcs[w].m].bitmap, s.lock)
  {
  }

  lemma WaitKeeps(s: State, h: History, w: nat)
    requires Inv(s, h) && w < |s.wpcs| && s.wpcs[w].WWaiting?
    ensures Inv(WriterNext(s, w), h)
  {
    var m, msg := s.wpcs[w].m, s.wpcs[w].msg;
    WriterSlotNow(s, h, w);
    if WriterCanWrite(s.chan.slots[m].bitmap) {
      SameOrder(s.chan.readers, h.sessions, s.wpcs, h.claimOf, Condemned(s.lock), |s.chan.slots|, w, WReady(m, msg));
      WriterPcKeeps(s, h, w, WReady(m, msg));
    }
  }

  lemma CaptureKeeps(s: State, h: History, w: nat)
    requires Inv(s, h)
    ensures Inv(Step(s, Timeout(w)), h)
  {
    if w < |s.wpcs| && s.wpcs[w].WWaiting? {
      var pc := WCaptured(s.wpcs[w].m, s.wpcs[w].msg, s.chan.slots[s.wpcs[w].m].bitmap);
      WriterSlotNow(s, h, w);
      SameOrder(s.chan.readers, h.sessions, s.wpcs, h.claimOf, Condemned(s.lock), |s.chan.slots|, w, pc);
      WriterPcKeeps(s, h, w, pc);
    }
  }

  // ----- Filling -----

  /** Two unfinished writes never share a slot. */
  lemma WritersApart(s: State, h: History, v: nat, w: nat)
    requires Inv(s, h) && v < |s.wpcs| && w < |s.wpcs| && v != w && Busy(s, v) && Busy(s, w)
    ensures s.wpcs[v].m != s.wpcs[w].m
  {
    var n := |s.chan.slots|;
    if h.claimOf[v] < h.claimOf[w] {
      DistinctSlots(h.claimOf[v], h.claimOf[w], n);
    } else {
      assert h.claimOf[v] != h.claimOf[w];
      DistinctSlots(h.claimOf[w], h.claimOf[v], n);
    }
  }

  /** The slot of a busy writer holds no published claim of the last lap. */
  lemma SlotIsTaken(s: State, h: History, w: nat, q: nat)
    requires Inv(s, h) && w < |s.wpcs| && Busy(s, w)
    requires |h.claims| - |s.chan.slots| <= q < |h.claims| && h.published[q]
    ensures SlotOf(q, |s.chan.slots|) != s.wpcs[w].m
  {
    var n, p := |s.chan.slots|, h.claimOf[w];
    if q < p { DistinctSlots(q, p, n); } else { DistinctSlots(p, q, n); }
  }

  /** Changing the message in the slot of writer w, on its way to pc. */
  lemma FillContents(s: State, h: History, w: nat, slot: Slot, pc: WriterPc)
    requires Inv(s, h) && w < |s.wpcs| && MovesOn(s, w, pc)
    requires WriterSlot(slot, pc, h.claims, h.claimOf[w], |s.chan.slots|)
    ensures ContentsOk(s.chan.slots[s.wpcs[w].m := slot], s.wpcs[w := pc], h.claimOf, h.claims, h.published,
                       |s.chan.slots|)
  {
    var n, slots', wpcs' := |s.chan.slots|, s.chan.slots[s.wpcs[w].m := slot], s.wpcs[w := pc];
    forall q | |h.claims| - n <= q < |h.claims| && 0 <= q && h.published[q]
      ensures Holds(slots'[SlotOf(q, n)], h.claims[q])
    {
      SlotIsTaken(s, h, w, q);
    }
    forall v | 0 <= v < |wpcs'| && !wpcs'[v].WIdle? && h.claimOf[v] < |h.claims|
      ensures WriterSlot(slots'[SlotOf(h.claimOf[v], n)], wpcs'[v], h.claims, h.claimOf[v], n)
    {
      if v != w {
        assert Busy(s, v);
        WritersApart(s, h, v, w);
        assert WriterSlot(s.chan.slots[SlotOf(h.claimOf[v], n)], s.wpcs[v], h.claims, h.claimOf[v], n);
      }
    }
  }

  /** No online reader copies from a slot that is being filled. */
  lemma FillReading(s: State, h: History, w: nat, slot: Slot, pc: WriterPc)
    requires Inv(s, h) && w < |s.wpcs| && MovesOn(s, w, pc)
    requires SlotUnread(s, s.wpcs[w].m) || Filling(s.wpcs[w])
    ensures ReadingOk(s.rpcs, s.chan.readers, h.sessions, s.chan.slots[s.wpcs[w].m := slot], s.wpcs[w := pc], h.claims,
                      h.published)
  {
    var slots', wpcs' := s.chan.slots[s.wpcs[w].m := slot], s.wpcs[w := pc];
    forall i | 0 <= i < |s.rpcs|
      ensures ReadOk(s.rpcs[i], s.chan.readers[i], NextClaim(h.sessions[i]), slots', wpcs', h.claims, h.published)
    {
      assert ReadOk(s.rpcs[i], s.chan.readers[i], NextClaim(h.sessions[i]), s.chan.slots, s.wpcs, h.claims,
                    h.published);
    }
  }

  ghost predicate SameBitmaps(slots: seq<Slot>, slots': seq<Slot>) {
    && |slots'| == |slots|
    && forall j :: 0 <= j < |slots| ==> slots'[j].bitmap == slots[j].bitmap
  }

  lemma SameSlotBits(
    slots: seq<Slot>, slots': seq<Slot>, rs: seq<Ctrl>, xs: seq<Session>, published: seq<bool>, mask: set<int>,
    lock: Lock, leavers: seq<Leaver>, n: nat)
    requires n > 0 && |slots| == n && |xs| == |rs| && SameBitmaps(slots, slots')
    requires BitmapsOk(slots, rs, xs, published, mask, lock, leavers, n)
    ensures BitmapsOk(slots', rs, xs, published, mask, lock, leavers, n)
  {
    forall q | |published| - n <= q < |published|
      ensures SlotBits(slots'[SlotOf(q, n)].bitmap, SlotOf(q, n), LastPublished(published, q, n), rs, xs, mask, lock,
                       leavers, n)
    {
      assert SlotBits(slots[SlotOf(q, n)].bitmap, SlotOf(q, n), LastPublished(published, q, n), rs, xs, mask, lock,
                      leavers, n);
    }
  }

  lemma SameCleared(slots: seq<Slot>, slots': seq<Slot>, wpcs: seq<WriterPc>, lock: Lock)
    requires SameBitmaps(slots, slots') && ClearedOk(slots, wpcs, lock) && WindowOk(lock, slots)
    ensures ClearedOk(slots', wpcs, lock) && WindowOk(lock, slots')
  {
    forall w | 0 <= w < |wpcs| && !wpcs[w].WIdle? && wpcs[w].m < |slots'|
      ensures WriterBits(wpcs[w], slots'[wpcs[w].m].bitmap, lock)
    {
      assert WriterBits(wpcs[w], slots[wpcs[w].m].bitmap, lock);
    }
  }

  lemma FillParts(s: State, h: History, w: nat, slot: Slot, pc: WriterPc)
    requires Inv(s, h) && w < |s.wpcs| && MovesOn(s, w, pc) && slot.bitmap == s.chan.slots[s.wpcs[w].m].bitmap
    requires PastWait(s.wpcs[w]) && PastWait(pc) && !s.wpcs[w].WLoaded? && !pc.WLoaded?
    ensures var n, slots', wpcs' := |s.chan.slots|, s.chan.slots[s.wpcs[w].m := slot], s.wpcs[w := pc];
      && WritersOk(wpcs', h.claimOf, h.claims, h.published, n) && LockOk(s.lock, wpcs')
      && OrderOk(s.chan.readers, h.sessions, wpcs', h.claimOf, Condemned(s.lock), n)
      && BitmapsOk(slots', s.chan.readers, h.sessions, h.published, s.chan.mask, s.lock, s.leavers, n)
      && ClearedOk(slots', wpcs', s.lock) && WindowOk(s.lock, slots')
  {
    var n, slots' := |s.chan.slots|, s.chan.slots[s.wpcs[w].m := slot];
    WriterSlotNow(s, h, w);
    MovedWriters(s.wpcs, h.claimOf, h.claims, h.published, n, w, pc);
    SameOrder(s.chan.readers, h.sessions, s.wpcs, h.claimOf, Condemned(s.lock), n, w, pc);
    SameSlotBits(s.chan.slots, slots', s.chan.readers, h.sessions, h.published, s.chan.mask, s.lock, s.leavers, n);
    SameCleared(s.chan.slots, slots', s.wpcs, s.lock);
    ClaimCleared(slots', s.wpcs, s.lock, w, pc);
  }

  lemma FillKeeps(s: State, h: History, w: nat, slot: Slot, pc: WriterPc)
    requires Inv(s, h) && w < |s.wpcs| && MovesOn(s, w, pc) && slot.bitmap == s.chan.slots[s.wpcs[w].m].bitmap
    requires PastWait(s.wpcs[w]) && PastWait(pc) && !s.wpcs[w].WLoaded? && !pc.WLoaded?
    requires WriterSlot(slot, pc, h.claims, h.claimOf[w], |s.chan.slots|)
    requires SlotUnread(s, s.wpcs[w].m) || Filling(s.wpcs[w])
    requires StateShape(AtWriter(s.(chan := s.chan.(slots := s.chan.slots[s.wpcs[w].m := slot])), w, pc))
    ensures Inv(AtWriter(s.(chan := s.chan.(slots := s.chan.slots[s.wpcs[w].m := slot])), w, pc), h)
  {
    FillParts(s, h, w, slot, pc);
    FillContents(s, h, w, slot, pc);
    FillReading(s, h, w, slot, pc);
  }

  /** The slot after one more byte of the message, or after the message's length. */
  lemma FilledSlot(s: State, h: History, w: nat)
    requires Inv(s, h) && w < |s.wpcs| && (s.wpcs[w].WReady? || s.wpcs[w].WFilling?)
    ensures var s' := WriterNext(s, w);
      && |s'.wpcs| == |s.wpcs| && MovesOn(s, w, s'.wpcs[w]) && PastWait(s'.wpcs[w]) && !s'.wpcs[w].WLoaded?
      && s' == AtWriter(s.(chan := s.chan.(slots := s.chan.slots[s.wpcs[w].m := s'.chan.slots[s.wpcs[w].m]])), w,
                        s'.wpcs[w])
      && s'.chan.slots[s.wpcs[w].m].bitmap == s.chan.slots[s.wpcs[w].m].bitmap
      && WriterSlot(s'.chan.slots[s.wpcs[w].m], s'.wpcs[w], h.claims, h.claimOf[w], |s.chan.slots|)
  {
    WriterSlotNow(s, h, w);
    var slot, msg := s.chan.slots[s.wpcs[w].m], s.wpcs[w].msg;
    if s.wpcs[w].WFilling? {
      var k := s.wpcs[w].k;
      if k < |msg| {
        assert slot.data[k := msg[k]][..k + 1] == slot.data[..k] + [msg[k]] == msg[..k + 1];
      } else {
        assert msg[..k] == msg;
      }
    } else {
      assert slot.data[0 := msg[0]][..1] == [msg[0]] == msg[..1];
    }
  }

  lemma FillStepKeeps(s: State, h: History, w: nat)
    requires Inv(s, h) && Allowed(s, WriterStep(w)) && w < |s.wpcs| && (s.wpcs[w].WReady? || s.wpcs[w].WFilling?)
    ensures Inv(WriterNext(s, w), h)
  {
    var s' := WriterNext(s, w);
    assert Follows(s, WriterStep(w), FillsAwayFromReaders);
    WriterKeepsShape(s, w);
    FilledSlot(s, h, w);
    FillKeeps(s, h, w, s'.chan.slots[s.wpcs[w].m], s'.wpcs[w]);
  }

  // ----- Publishing -----

  /** Every member has got past the claim a lap back, since the slot's bitmap is empty. */
  lemma MembersArePast(s: State, h: History, w: nat, i: nat)
    requires Inv(s, h) && w < |s.wpcs| && PastWait(s.wpcs[w])
    requires i < |s.rpcs| && Member(s.chan.readers[i], Condemned(s.lock))
    ensures h.claimOf[w] - |s.chan.slots| < NextClaim(h.sessions[i])
  {
    var n, q := |s.chan.slots|, h.claimOf[w];
    WriterSlotNow(s, h, w);
    assert LastPublished(h.published, q, n) == q - n;
    assert SlotBits(s.chan.slots[SlotOf(q, n)].bitmap, SlotOf(q, n), LastPublished(h.published, q, n), s.chan.readers,
                    h.sessions, s.chan.mask, s.lock, s.leavers, n);
  }

  lemma LoadKeeps(s: State, h: History, w: nat)
    requires Inv(s, h) && w < |s.wpcs| && s.wpcs[w].WPublishing?
    ensures Inv(WriterNext(s, w), h)
  {
    var n, rs, q := |s.chan.slots|, s.chan.readers, h.claimOf[w];
    var pc := WLoaded(s.wpcs[w].m, s.wpcs[w].msg, s.chan.mask);
    WriterSlotNow(s, h, w);
    forall i | 0 <= i < |rs| && rs[i].online && !pc.WIdle?
      ensures Behind(rs[i], NextClaim(h.sessions[i]), pc, q, Condemned(s.lock), n)
    {
      assert Behind(rs[i], NextClaim(h.sessions[i]), s.wpcs[w], q, Condemned(s.lock), n);
      if Member(rs[i], Condemned(s.lock)) {
        MembersArePast(s, h, w, i);
      }
      BitOfMember(rs, Condemned(s.lock), i);
    }
    MovedOrder(rs, h.sessions, s.wpcs, h.claimOf, Condemned(s.lock), n, w, pc);
    WriterPcKeeps(s, h, w, pc);
  }

  lemma StoreWriters(
    wpcs: seq<WriterPc>, claimOf: seq<nat>, claims: seq<seq<Byte>>, published: seq<bool>, n: nat, w: nat)
    requires n > 0 && WritersOk(wpcs, claimOf, claims, published, n) && w < |wpcs| && !wpcs[w].WIdle?
    ensures WritersOk(wpcs[w := WIdle], claimOf, claims, published[claimOf[w] := true], n)
  {
    var wpcs', published' := wpcs[w := WIdle], published[claimOf[w] := true];
    forall q | 0 <= q < |claims| && !published'[q]
      ensures exists v :: 0 <= v < |wpcs'| && !wpcs'[v].WIdle? && claimOf[v] == q
    {
      var v :| 0 <= v < |wpcs| && !wpcs[v].WIdle? && claimOf[v] == q;
      assert !wpcs'[v].WIdle?;
    }
  }

  /** The slot of the published claim has exactly the bits that it must have. */
  lemma StoredSlotBits(s: State, h: History, w: nat)
    requires Inv(s, h) && w < |s.wpcs| && s.wpcs[w].WLoaded?
    requires MaskIsCurrent(s, s.wpcs[w].m, s.wpcs[w].loaded)
    ensures SlotBits(s.wpcs[w].loaded, s.wpcs[w].m, h.claimOf[w], s.chan.readers, h.sessions, s.chan.mask, s.lock,
                     s.leavers, |s.chan.slots|)
  {
    forall i | 0 <= i < |s.rpcs| && s.chan.readers[i].online
      ensures Behind(s.chan.readers[i], NextClaim(h.sessions[i]), s.wpcs[w], h.claimOf[w], Condemned(s.lock),
                     |s.chan.slots|)
    {
    }
  }

  lemma StoreBitmaps(s: State, h: History, w: nat)
    requires Inv(s, h) && w < |s.wpcs| && s.wpcs[w].WLoaded?
    requires MaskIsCurrent(s, s.wpcs[w].m, s.wpcs[w].loaded)
    ensures BitmapsOk(WriterNext(s, w).chan.slots, s.chan.readers, h.sessions, h.published[h.claimOf[w] := true],
                      s.chan.mask, s.lock, s.leavers, |s.chan.slots|)
  {
    var n, p, slots', published' :=
      |s.chan.slots|, h.claimOf[w], WriterNext(s, w).chan.slots, h.published[h.claimOf[w] := true];
    StoredSlotBits(s, h, w);
    forall q | |published'| - n <= q < |published'|
      ensures SlotBits(slots'[SlotOf(q, n)].bitmap, SlotOf(q, n), LastPublished(published', q, n), s.chan.readers,
                       h.sessions, s.chan.mask, s.lock, s.leavers, n)
    {
      if q != p {
        if q < p { DistinctSlots(q, p, n); } else { DistinctSlots(p, q, n); }
        assert LastPublished(published', q, n) == LastPublished(h.published, q, n);
        assert SlotBits(s.chan.slots[SlotOf(q, n)].bitmap, SlotOf(q, n), LastPublished(h.published, q, n),
                        s.chan.readers, h.sessions, s.chan.mask, s.lock, s.leavers, n);
      }
    }
  }

  lemma StoreCleared(s: State, h: History, w: nat)
    requires Inv(s, h) && w < |s.wpcs| && s.wpcs[w].WLoaded?
    ensures ClearedOk(WriterNext(s, w).chan.slots, WriterNext(s, w).wpcs, s.lock)
  {
    var s' := WriterNext(s, w);
    forall v | 0 <= v < |s'.wpcs| && !s'.wpcs[v].WIdle? && s'.wpcs[v].m < |s'.chan.slots|
      ensures WriterBits(s'.wpcs[v], s'.chan.slots[s'.wpcs[v].m].bitmap, s.lock)
    {
      assert Busy(s, v) && v != w;
      WritersApart(s, h, v, w);
      WriterSlotNow(s, h, v);
    }
  }

  lemma StoreContents(s: State, h: History, w: nat)
    requires Inv(s, h) && w < |s.wpcs| && s.wpcs[w].WLoaded?
    ensures ContentsOk(WriterNext(s, w).chan.slots, s.wpcs[w := WIdle], h.claimOf, h.claims,
                       h.published[h.claimOf[w] := true], |s.chan.slots|)
  {
    var n, slots := |s.chan.slots|, s.chan.slots;
    WriterSlotNow(s, h, w);
    SameContents(slots, WriterNext(s, w).chan.slots, s.wpcs, h.claimOf, h.claims, h.published, n);
    MovedContents(WriterNext(s, w).chan.slots, s.wpcs, h.claimOf, h.claims, h.published, n, w, WIdle);
  }

  lemma StoreReading(
    rpcs: seq<ReaderPc>, rs: seq<Ctrl>, xs: seq<Session>, slots: seq<Slot>, wpcs: seq<WriterPc>,
    claims: seq<seq<Byte>>, published: seq<bool>, q: nat)
    requires |rpcs| == |rs| == |xs| && |published| == |claims| && q < |published|
    requires ReadingOk(rpcs, rs, xs, slots, wpcs, claims, published)
    ensures ReadingOk(rpcs, rs, xs, slots, wpcs, claims, published[q := true])
  {
    forall i | 0 <= i < |rs|
      ensures ReadOk(rpcs[i], rs[i], NextClaim(xs[i]), slots, wpcs, claims, published[q := true])
    {
      assert ReadOk(rpcs[i], rs[i], NextClaim(xs[i]), slots, wpcs, claims, published);
    }
  }

  lemma StoreParts(s: State, h: History, w: nat)
    requires Inv(s, h) && w < |s.wpcs| && s.wpcs[w].WLoaded?
    ensures var slots', wpcs', published' :=
        WriterNext(s, w).chan.slots, s.wpcs[w := WIdle], h.published[h.claimOf[w] := true];
      && WritersOk(wpcs', h.claimOf, h.claims, published', |s.chan.slots|) && LockOk(s.lock, wpcs')
      && OrderOk(s.chan.readers, h.sessions, wpcs', h.claimOf, Condemned(s.lock), |s.chan.slots|)
      && ReadingOk(s.rpcs, s.chan.readers, h.sessions, slots', wpcs', h.claims, published')
  {
    var n, rs, slots' := |s.chan.slots|, s.chan.readers, WriterNext(s, w).chan.slots;
    StoreWriters(s.wpcs, h.claimOf, h.claims, h.published, n, w);
    MovedOrder(rs, h.sessions, s.wpcs, h.claimOf, Condemned(s.lock), n, w, WIdle);
    SameReading(s.rpcs, rs, h.sessions, s.chan.slots, slots', s.wpcs, h.claims, h.published);
    CalmReading(s.rpcs, rs, h.sessions, slots', s.wpcs, h.claims, h.published, w, WIdle);
    StoreReading(s.rpcs, rs, h.sessions, slots', s.wpcs[w := WIdle], h.claims, h.published, h.claimOf[w]);
  }

  lemma StoreStep(s: State, h: History, w: nat)
    requires StateShape(s) && HistoryShape(s, h) && w < |s.wpcs| && s.wpcs[w].WLoaded?
    ensures WriterNext(s, w) == AtWriter(s.(chan := WithBitmap(s.chan, s.wpcs[w].m, s.wpcs[w].loaded)), w, WIdle)
    ensures Track(h, s, WriterStep(w)) == h.(published := h.published[h.claimOf[w] := true])
    ensures StateShape(WriterNext(s, w)) && HistoryShape(WriterNext(s, w), Track(h, s, WriterStep(w)))
  {
    TrackKeepsShape(s, h, WriterStep(w));
  }

  lemma StoreWindow(s: State, w: nat)
    requires StateShape(s) && w < |s.wpcs| && s.wpcs[w].WLoaded? && WindowOk(s.lock, s.chan.slots)
    requires Undisturbed(s.lock, s.wpcs[w].m, s.chan.slots[s.wpcs[w].m].bitmap, s.wpcs[w].loaded)
    ensures WindowOk(s.lock, WriterNext(s, w).chan.slots)
  {
  }

  lemma PublishKeeps(s: State, h: History, w: nat)
    requires Inv(s, h) && Allowed(s, WriterStep(w)) && w < |s.wpcs| && s.wpcs[w].WLoaded?
    ensures Inv(WriterNext(s, w), Track(h, s, WriterStep(w)))
  {
    assert Follows(s, WriterStep(w), StoresOfCurrentMasks) && Follows(s, WriterStep(w), StoresApart);
    StoreStep(s, h, w);
    StoreParts(s, h, w);
    StoreBitmaps(s, h, w);
    StoreCleared(s, h, w);
    StoreContents(s, h, w);
    StoreWindow(s, w);
  }
}
