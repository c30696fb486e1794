/** The promises of kzimp, over every run that follows the rules. */
module KzimpTheorems {
  import opened KzimpChan
  import opened KzimpInvariant
  import opened KzimpProtocol
  import opened KzimpReaders
  import opened KzimpTimeouts
  import opened RingArith

  function After(n: nat, maxMsg: nat, area: seq<seq<Byte>>, writers: nat, schedule: seq<Action>): (r: (State, History))
    requires 0 < n == |area| && AreaFits(area, maxMsg)
    ensures StateShape(r.0) && HistoryShape(r.0, r.1)
  {
    Run(Fresh(n, maxMsg, area, writers), NoHistory(writers), schedule)
  }

  lemma ReachableInv(n: nat, maxMsg: nat, area: seq<seq<Byte>>, writers: nat, schedule: seq<Action>)
    requires 0 < n == |area| && AreaFits(area, maxMsg)
    ensures var r := After(n, maxMsg, area, writers, schedule); Inv(r.0, r.1)
  {
    InvInitially(n, maxMsg, area, writers);
    RunKeeps(Fresh(n, maxMsg, area, writers), NoHistory(writers), schedule);
  }

  // ----- One queue per reader -----

  /** Every session, past or present, has read the messages claimed from its open on, in claim order, once each,
      every one cut to the size asked for. */
  ghost predicate QueuesOk(h: History) { SessionsOk(h.sessions, h.claims) && SessionsOk(h.closed, h.claims) }

  lemma OneQueuePerReader(n: nat, maxMsg: nat, area: seq<seq<Byte>>, writers: nat, schedule: seq<Action>)
    requires 0 < n == |area| && AreaFits(area, maxMsg)
    ensures QueuesOk(After(n, maxMsg, area, writers, schedule).1)
  {
    ReachableInv(n, maxMsg, area, writers, schedule);
  }

  /** The next claim of a reader is published. */
  predicate NextIsThere(h: History, i: nat)
    requires |h.published| == |h.claims| && i < |h.sessions|
  {
    NextClaim(h.sessions[i]) < |h.claims| && h.published[NextClaim(h.sessions[i])]
  }

  /** A reader that no timeout is about to expel can read exactly when the next message of its queue is published;
      an online reader that is to be expelled can read only then. */
  lemma ReadableIffNextPublished(s: State, h: History, i: nat)
    requires Inv(s, h) && i < |s.rpcs| && s.chan.readers[i].online
    ensures var r := s.chan.readers[i];
      && (ReaderCanRead(SlotOfReader(s, i).bitmap, r.bit) ==> NextIsThere(h, i))
      && (Member(r, Condemned(s.lock)) && NextIsThere(h, i) ==> ReaderCanRead(SlotOfReader(s, i).bitmap, r.bit))
  {
    var n, r, next := |s.chan.slots|, s.chan.readers[i], NextClaim(h.sessions[i]);
    ReaderTestIsExact(SlotOfReader(s, i).bitmap, r.bit);
    if r.bit in SlotOfReader(s, i).bitmap {
      SetBitMeansNext(s, h, i);
    } else if NextIsThere(h, i) {
      var q := SlotBitsOf(s, h, next);
      LatestIsAhead(next, q, n);
      var p := LastPublished(h.published, q, n);
      if p < next {
        SameSlotWithinLap(next, q, n);
      }
    }
  }

  /** Of the claims with one slot, none is later than the one of the last lap. */
  lemma LatestIsAhead(p: nat, q: int, n: nat)
    requires n > 0 && SlotOf(p, n) == SlotOf(q, n)
    ensures q < p ==> q + n <= p
  {
    if q < p < q + n {
      DistinctSlots(q, p, n);
    }
  }

  // ----- Bitmaps and the mask -----

  /** Bits in a slot: a reader that no timeout is about to expel has its bit set iff it still has to read the last
      published claim there. Any other set bit belongs to a timeout or a release that is about to clear it. */
  lemma BitmapIsExact(n: nat, maxMsg: nat, area: seq<seq<Byte>>, writers: nat, schedule: seq<Action>, q: int)
    requires 0 < n == |area| && AreaFits(area, maxMsg)
    requires var h := After(n, maxMsg, area, writers, schedule).1; |h.claims| - n <= q < |h.claims|
    ensures var (s, h) := After(n, maxMsg, area, writers, schedule);
      && |s.chan.slots| == n
      && (forall i :: 0 <= i < |s.chan.readers| && Member(s.chan.readers[i], Condemned(s.lock)) ==>
            (s.chan.readers[i].bit in s.chan.slots[SlotOf(q, n)].bitmap <==>
               NextClaim(h.sessions[i]) <= LastPublished(h.published, q, n)))
      && (forall b :: b in s.chan.slots[SlotOf(q, n)].bitmap ==>
            b in MemberBits(s.chan.readers, Condemned(s.lock)) || ToBeCleared(s.lock, s.leavers, SlotOf(q, n), b))
  {
    ReachableInv(n, maxMsg, area, writers, schedule);
    RunKeepsSize(Fresh(n, maxMsg, area, writers), NoHistory(writers), schedule);
    var (s, h) := After(n, maxMsg, area, writers, schedule);
    assert SlotBits(s.chan.slots[SlotOf(q, n)].bitmap, SlotOf(q, n), LastPublished(h.published, q, n), s.chan.readers,
                    h.sessions, s.chan.mask, s.lock, s.leavers, n);
  }

  lemma {:induction false} RunKeepsSize(s: State, h: History, schedule: seq<Action>)
    requires StateShape(s) && HistoryShape(s, h)
    ensures |Run(s, h, schedule).0.chan.slots| == |s.chan.slots|
    decreases |schedule|
  {
    if schedule != [] && AllowedBy(AllRules(), s, schedule[0]) {
      StepKeepsShape(s, schedule[0]);
      TrackKeepsShape(s, h, schedule[0]);
      RunKeepsSize(Step(s, schedule[0]), Track(h, s, schedule[0]), schedule[1..]);
      assert Run(s, h, schedule) == Run(Step(s, schedule[0]), Track(h, s, schedule[0]), schedule[1..]);
    }
  }

  function OnlineBits(rs: seq<Ctrl>): set<int> {
    set i | 0 <= i < |rs| && rs[i].online :: rs[i].bit
  }

  /** No timeout holds the lock, and no release is still clearing bits. */
  predicate Quiet(s: State) {
    s.lock.Free? && forall l :: 0 <= l < |s.leavers| ==> s.leavers[l].next >= |s.chan.slots|
  }

  /** Between timeouts the multicast mask is the set of bits of the online readers; during one, those it is about
      to expel are already missing. With no release under way either, slot bitmaps lie within the mask. */
  lemma MaskIsOnlineReaders(n: nat, maxMsg: nat, area: seq<seq<Byte>>, writers: nat, schedule: seq<Action>)
    requires 0 < n == |area| && AreaFits(area, maxMsg)
    ensures var s := After(n, maxMsg, area, writers, schedule).0;
      && s.chan.mask == MemberBits(s.chan.readers, Condemned(s.lock))
      && (s.lock.Free? ==> s.chan.mask == OnlineBits(s.chan.readers))
      && (Quiet(s) ==> forall j :: 0 <= j < |s.chan.slots| ==> s.chan.slots[j].bitmap <= s.chan.mask)
  {
    ReachableInv(n, maxMsg, area, writers, schedule);
    var (s, h) := After(n, maxMsg, area, writers, schedule);
    if s.lock.Free? {
      assert forall i :: 0 <= i < |s.chan.readers| ==> (Member(s.chan.readers[i], {}) <==> s.chan.readers[i].online);
    }
    if Quiet(s) {
      forall j, b | 0 <= j < |s.chan.slots| && b in s.chan.slots[j].bitmap
        ensures b in s.chan.mask
      {
        SlotWithinMask(s, h, j, b);
      }
    }
  }

  lemma SlotWithinMask(s: State, h: History, j: nat, b: int)
    requires Inv(s, h) && j < |s.chan.slots| && b in s.chan.slots[j].bitmap
    ensures b in s.chan.mask || ToBeCleared(s.lock, s.leavers, j, b)
  {
    var n := |s.chan.slots|;
    SomeClaimOf(|h.claims|, j, n);
    var q :| |h.claims| - n <= q < |h.claims| && SlotOf(q, n) == j;
    assert SlotBits(s.chan.slots[SlotOf(q, n)].bitmap, SlotOf(q, n), LastPublished(h.published, q, n), s.chan.readers,
                    h.sessions, s.chan.mask, s.lock, s.leavers, n);
  }

  /** Every slot is that of one of the last n claims, counting those before the first. */
  lemma SomeClaimOf(claims: nat, j: nat, n: nat)
    requires j < n
    ensures exists q :: claims - n <= q < claims && SlotOf(q, n) == j
    decreases if claims > j then claims - j else 0
  {
    DivModUnique(j, n, 0, j);
    if claims <= j {
      LapBackSlot(j, n);
      assert SlotOf(j - n, n) == j;
    } else {
      var q := SlotsClaim(claims, j, n);
      assert SlotOf(q, n) == j;
    }
  }

  // ----- Reads -----

  /** Where reader i is listed after a step. */
  function IndexAfter(s: State, a: Action, i: nat): int {
    if a.CloseReader? && a.i < i && a.i < |s.rpcs| && MayClose(s.rpcs[a.i]) && s.lock.Free? then i - 1 else i
  }

  /** Between START_READ and FINISH_READ, or during a copy, no allowed step of anybody else changes the message in
      the slot, as long as the reader stays online. */
  lemma SlotStaysDuringRead(s: State, h: History, i: nat, a: Action)
    requires Inv(s, h) && Allowed(s, a) && i < |s.rpcs| && s.chan.readers[i].online && Copying(s.rpcs[i])
    requires !((a.ReaderStep? || a.ReaderGivesUp? || a.CloseReader?) && a.i == i)
    ensures var s', i' := Step(s, a), IndexAfter(s, a, i);
      && StateShape(s') && 0 <= i' < |s'.rpcs|
      && (s'.chan.readers[i'].online ==>
            var m, m' := SlotOfReader(s, i), SlotOfReader(s', i');
            m'.len == m.len && m.len <= |m.data| && m.len <= |m'.data| && m'.data[..m.len] == m.data[..m.len])
  {
    var s', h', i' := Step(s, a), Track(h, s, a), IndexAfter(s, a, i);
    StepKeeps(s, h, a);
    SameReader(s, h, i, a);
    assert ReadOk(s.rpcs[i], s.chan.readers[i], NextClaim(h.sessions[i]), s.chan.slots, s.wpcs, h.claims, h.published);
    assert ReadOk(s'.rpcs[i'], s'.chan.readers[i'], NextClaim(h'.sessions[i']), s'.chan.slots, s'.wpcs, h'.claims,
                  h'.published);
  }

  /** Reader i' of one state is reader i of another, at the same point of its read; only its online flag may
      have fallen. */
  predicate SameReading(s: State, h: History, i: nat, s': State, h': History, i': int) {
    && 0 <= i' < |s'.rpcs| == |s'.chan.readers| == |h'.sessions|
    && i < |s.rpcs| == |s.chan.readers| == |h.sessions|
    && s'.rpcs[i'] == s.rpcs[i] && h'.sessions[i'] == h.sessions[i]
    && s'.chan.readers[i'].nextRead == s.chan.readers[i].nextRead
    && s'.chan.readers[i'].bit == s.chan.readers[i].bit
    && (s'.chan.readers[i'].online ==> s.chan.readers[i].online)
    && h.claims <= h'.claims
  }

  lemma SameAfterClose(s: State, h: History, i: nat, k: nat)
    requires StateShape(s) && HistoryShape(s, h) && i < |s.rpcs| && k != i
    ensures SameReading(s, h, i, Step(s, CloseReader(k)), Track(h, s, CloseReader(k)), IndexAfter(s, CloseReader(k), i))
  {
    if k < |s.rpcs| {
      RemovedAt(s.chan.readers, k);
      RemovedAt(h.sessions, k);
      RemovedAt(s.rpcs, k);
    }
  }

  lemma SameAfterWriter(s: State, h: History, i: nat, w: nat)
    requires StateShape(s) && HistoryShape(s, h) && i < |s.rpcs| && w < |s.wpcs|
    ensures SameReading(s, h, i, WriterNext(s, w), Track(h, s, WriterStep(w)), i)
  {
  }

  lemma SameAfterReader(s: State, h: History, i: nat, k: nat)
    requires StateShape(s) && HistoryShape(s, h) && i < |s.rpcs| && k < |s.rpcs| && k != i
    ensures SameReading(s, h, i, ReaderNext(s, k), Track(h, s, ReaderStep(k)), i)
  {
  }

  /** A step of somebody else leaves a reader where it is. */
  lemma SameReader(s: State, h: History, i: nat, a: Action)
    requires StateShape(s) && HistoryShape(s, h) && i < |s.rpcs| && s.rpcs[i] != RIdle
    requires !((a.ReaderStep? || a.ReaderGivesUp? || a.CloseReader?) && a.i == i)
    ensures SameReading(s, h, i, Step(s, a), Track(h, s, a), IndexAfter(s, a, i))
  {
    match a
    case CloseReader(k) => SameAfterClose(s, h, i, k);
    case WriterStep(w) => if w < |s.wpcs| { SameAfterWriter(s, h, i, w); }
    case ReaderStep(k) => if k < |s.rpcs| { SameAfterReader(s, h, i, k); }
    case _ =>
  }
}
