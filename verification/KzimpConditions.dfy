/** The rules are exact: a step keeps the invariant if and only if it follows them. And what each of the rules about
    calls protects, in terms of its own. */
module KzimpConditions {
  import opened KzimpChan
  import opened KzimpInvariant
  import opened KzimpProtocol
  import opened KzimpReaders
  import opened KzimpTimeouts
  import opened KzimpWriters
  import opened RingArith

  /** The step keeps the invariant. */
  ghost predicate Kept(s: State, h: History, a: Action)
    requires StateShape(s) && HistoryShape(s, h)
  {
    Inv(Step(s, a), Track(h, s, a))
  }

  // ----- What a kept step tells -----

  lemma KeptOpen(s: State, h: History)
    requires Inv(s, h) && s.lock.Free? && Kept(s, h, OpenReader)
    ensures BitUnlisted(s.chan, NextBit(s)) && BitUnleft(s, NextBit(s)) && WritesWithout(s, NextBit(s))
    ensures 0 <= NextBit(s) < 32
  {
    var rs, xs := Open(s.chan).readers, h.sessions + [Session(|h.claims|, [], [])];
    var i := |s.rpcs|;
    assert rs[i].bit == NextBit(s) && NextClaim(xs[i]) == |h.claims|;
    forall k | 0 <= k < i
      ensures s.chan.readers[k].bit != NextBit(s)
    {
      assert rs[k].bit != rs[i].bit;
    }
    forall w | 0 <= w < |s.wpcs| && Busy(s, w)
      ensures s.wpcs[w].WLoaded? && NextBit(s) !in s.wpcs[w].loaded
    {
      assert Behind(rs[i], NextClaim(xs[i]), s.wpcs[w], h.claimOf[w], {}, |s.chan.slots|);
    }
  }

  lemma KeptClaim(s: State, h: History, w: nat, msg: seq<Byte>)
    requires Inv(s, h) && Claims(s, w, msg) && Kept(s, h, WriteCall(w, msg))
    ensures SlotUnclaimed(s, s.chan.nextWrite)
  {
    var n, s' := |s.chan.slots|, Step(s, WriteCall(w, msg));
    forall v | 0 <= v < |s.wpcs| && Busy(s, v)
      ensures s.wpcs[v].m != s.chan.nextWrite
    {
      assert s'.wpcs[v] == s.wpcs[v] && !s'.wpcs[v].WIdle?;
      DistinctSlots(h.claimOf[v], |h.claims|, n);
    }
  }

  lemma KeptGivingUp(s: State, h: History, w: nat)
    requires Inv(s, h) && w < |s.wpcs| && Kept(s, h, WriterGivesUp(w))
    ensures !WriterMayGiveUp(s.wpcs[w])
  {
    var s' := Step(s, WriterGivesUp(w));
    if Busy(s, w) {
      var q := h.claimOf[w];
      var v :| 0 <= v < |s'.wpcs| && !s'.wpcs[v].WIdle? && h.claimOf[v] == q;
      assert v == w;
    }
  }

  lemma KeptFill(s: State, h: History, w: nat)
    requires Inv(s, h) && w < |s.wpcs| && s.wpcs[w].WReady? && Kept(s, h, WriterStep(w))
    ensures SlotUnread(s, s.wpcs[w].m)
  {
    var s' := WriterNext(s, w);
    assert Filling(s'.wpcs[w]) && s'.wpcs[w].m == s.wpcs[w].m;
    forall i | 0 <= i < |s.rpcs| && s.chan.readers[i].online && Copying(s.rpcs[i])
      ensures s.chan.readers[i].nextRead != s.wpcs[w].m
    {
      assert ReadOk(s'.rpcs[i], s'.chan.readers[i], NextClaim(h.sessions[i]), s'.chan.slots, s'.wpcs, h.claims,
                    h.published);
    }
  }

  lemma KeptStore(s: State, h: History, w: nat)
    requires Inv(s, h) && w < |s.wpcs| && s.wpcs[w].WLoaded? && Kept(s, h, WriterStep(w))
    ensures MaskIsCurrent(s, s.wpcs[w].m, s.wpcs[w].loaded)
    ensures Undisturbed(s.lock, s.wpcs[w].m, s.chan.slots[s.wpcs[w].m].bitmap, s.wpcs[w].loaded)
  {
    var n, s', h', q := |s.chan.slots|, WriterNext(s, w), Track(h, s, WriterStep(w)), h.claimOf[w];
    WriterSlotNow(s, h, w);
    assert SlotBits(s'.chan.slots[SlotOf(q, n)].bitmap, SlotOf(q, n), LastPublished(h'.published, q, n),
                    s.chan.readers, h.sessions, s.chan.mask, s.lock, s.leavers, n);
  }

  lemma KeptFinish(s: State, h: History, i: nat)
    requires Inv(s, h) && i < |s.rpcs| && s.rpcs[i].RFinishing? && Kept(s, h, ReaderStep(i))
    ensures var bitmap := SlotOfReader(s, i).bitmap;
      Undisturbed(s.lock, s.chan.readers[i].nextRead, bitmap, bitmap - {s.chan.readers[i].bit})
  {
  }

  lemma KeptClear(s: State, h: History, l: nat)
    requires Inv(s, h) && l < |s.leavers| && s.leavers[l].next < |s.chan.slots| && Kept(s, h, LeaverStep(l))
    ensures var j := s.leavers[l].next;
      Undisturbed(s.lock, j, s.chan.slots[j].bitmap, s.chan.slots[j].bitmap - {s.leavers[l].bit})
  {
  }

  lemma KeptFollows(s: State, h: History, a: Action, rule: Rule)
    requires Inv(s, h) && Kept(s, h, a)
    ensures Follows(s, a, rule)
  {
    match a
    case OpenReader => if s.lock.Free? { KeptOpen(s, h); }
    case WriteCall(w, msg) => if Claims(s, w, msg) { KeptClaim(s, h, w, msg); }
    case WriterGivesUp(w) => if w < |s.wpcs| { KeptGivingUp(s, h, w); }
    case WriterStep(w) =>
      if w < |s.wpcs| && s.wpcs[w].WReady? { KeptFill(s, h, w); }
      if w < |s.wpcs| && s.wpcs[w].WLoaded? { KeptStore(s, h, w); }
    case ReaderStep(i) => if i < |s.rpcs| && s.rpcs[i].RFinishing? { KeptFinish(s, h, i); }
    case LeaverStep(l) => if l < |s.leavers| && s.leavers[l].next < |s.chan.slots| { KeptClear(s, h, l); }
    case _ =>
  }

  /** From any state that satisfies it, a step keeps the invariant exactly when it follows the rules. */
  lemma StepKeepsIff(s: State, h: History, a: Action)
    requires Inv(s, h)
    ensures Inv(Step(s, a), Track(h, s, a)) <==> Allowed(s, a)
  {
    if Allowed(s, a) {
      StepKeeps(s, h, a);
    }
    if Kept(s, h, a) {
      forall rule
        ensures Follows(s, a, rule)
      {
        KeptFollows(s, h, a, rule);
      }
    }
  }

  // ----- Claims -----

  ghost predicate SlotsExclusive(s: State) {
    forall v, w :: 0 <= v < |s.wpcs| && 0 <= w < |s.wpcs| && v != w && Busy(s, v) && Busy(s, w) ==>
      s.wpcs[v].m != s.wpcs[w].m
  }

  /** A claim keeps every slot to one unfinished write iff no unfinished write holds the next slot. */
  lemma ClaimIsExclusiveIff(s: State, h: History, w: nat, msg: seq<Byte>)
    requires Inv(s, h) && Claims(s, w, msg)
    ensures SlotsExclusive(Step(s, WriteCall(w, msg))) <==> SlotUnclaimed(s, s.chan.nextWrite)
  {
    var s' := Step(s, WriteCall(w, msg));
    if SlotUnclaimed(s, s.chan.nextWrite) {
      forall u, v | 0 <= u < |s'.wpcs| && 0 <= v < |s'.wpcs| && u != v && Busy(s', u) && Busy(s', v)
        ensures s'.wpcs[u].m != s'.wpcs[v].m
      {
        if u != w { assert Busy(s, u); }
        if v != w { assert Busy(s, v); }
        if u != w && v != w { WritersApart(s, h, u, v); }
      }
    } else {
      var v :| 0 <= v < |s.wpcs| && Busy(s, v) && s.wpcs[v].m == s.chan.nextWrite;
      assert Busy(s', v) && Busy(s', w) && s'.wpcs[v].m == s'.wpcs[w].m;
    }
  }

  // ----- Bits of expelled readers -----

  /** A bit that kzimp_open may hand out again belongs, if to anybody listed, to an expelled reader. */
  lemma ReissuedBitIsOffline(s: State, h: History, i: nat)
    requires Inv(s, h) && s.lock.Free? && i < |s.chan.readers| && s.chan.readers[i].bit == NextBit(s) >= 0
    ensures !s.chan.readers[i].online
  {
    BitOfMember(s.chan.readers, {}, i);
  }

  /** The mask after an open and any later release of an earlier reader is that of the online readers iff the new
      bit is held by no other listed reader, expelled ones included. */
  lemma BitMustBeUnused(s: State, h: History)
    requires Inv(s, h) && s.lock.Free? && NextBit(s) >= 0
    ensures (forall i :: 0 <= i < |s.chan.readers| ==>
              Release(Open(s.chan), i).mask == MemberBits(Release(Open(s.chan), i).readers, {}))
       <==> BitUnlisted(s.chan, NextBit(s))
  {
    var c, r := Open(s.chan), Ctrl(s.chan.nextWrite, NextBit(s), true);
    MembersAfterOpen(s.chan.readers, r);
    if BitUnlisted(s.chan, r.bit) {
      forall i | 0 <= i < |s.chan.readers|
        ensures Release(c, i).mask == MemberBits(Release(c, i).readers, {})
      {
        assert forall j, k :: 0 <= j < k < |c.readers| ==> c.readers[j].bit != c.readers[k].bit;
        MembersAfterRelease(c.readers, i);
      }
    } else {
      var i :| 0 <= i < |s.chan.readers| && s.chan.readers[i].bit == r.bit;
      var rs := Release(c, i).readers;
      assert rs[|rs| - 1] == r && Member(rs[|rs| - 1], {});
      assert r.bit in MemberBits(rs, {}) && r.bit !in Release(c, i).mask;
    }
  }
}
