/** A waiting writer gets its slot without a timeout: the readers and releases that block it can move on their own. */
module KzimpProgress {
  import opened KzimpAlone
  import opened KzimpChan
  import opened KzimpInvariant
  import opened KzimpProtocol
  import opened KzimpReaders
  import opened KzimpReads
  import opened KzimpTheorems
  import opened KzimpTimeouts
  import opened KzimpWriters
  import opened RingArith

  /** w waits, no timeout is under way, and no other unfinished write has an older claim. With one writer this is
      any writer that waits. */
  predicate OldestWaiting(s: State, h: History, w: nat)
    requires HistoryShape(s, h)
  {
    && w < |s.wpcs| && s.wpcs[w].WWaiting? && s.lock.Free?
    && forall v :: 0 <= v < |s.wpcs| && Busy(s, v) ==> h.claimOf[w] <= h.claimOf[v]
  }

  /** Claims older than that of the oldest unfinished write are published. */
  lemma NoneOlder(s: State, h: History, w: nat, q: nat)
    requires Inv(s, h) && OldestWaiting(s, h, w) && q < |h.claims| && !h.published[q]
    ensures h.claimOf[w] <= q
  {
    var v :| 0 <= v < |s.wpcs| && !s.wpcs[v].WIdle? && h.claimOf[v] == q;
    assert Busy(s, v);
  }

  /** A reader that blocks it has not read the claim a lap back. */
  lemma BlockerIsBehind(s: State, h: History, w: nat, i: nat)
    requires Inv(s, h) && OldestWaiting(s, h, w) && i < |s.rpcs| && s.chan.readers[i].online
    requires s.chan.readers[i].bit in s.chan.slots[s.wpcs[w].m].bitmap
    ensures NextClaim(h.sessions[i]) <= h.claimOf[w] - |s.chan.slots|
  {
    var n, q := |s.chan.slots|, h.claimOf[w];
    WriterSlotNow(s, h, w);
    assert SlotBits(s.chan.slots[SlotOf(q, n)].bitmap, SlotOf(q, n), LastPublished(h.published, q, n), s.chan.readers,
                    h.sessions, s.chan.mask, s.lock, s.leavers, n);
  }

  /** Nobody is further behind than that: everything claimed before it is published. */
  lemma NobodyIsFurtherBehind(s: State, h: History, w: nat, i: nat)
    requires Inv(s, h) && OldestWaiting(s, h, w) && i < |s.rpcs| && s.chan.readers[i].online
    requires NextClaim(h.sessions[i]) <= h.claimOf[w] - |s.chan.slots|
    ensures NextClaim(h.sessions[i]) == h.claimOf[w] - |s.chan.slots|
  {
    var n, p := |s.chan.slots|, h.claimOf[w] - 1;
    var q := SlotBitsOf(s, h, p);
    LatestIsAhead(p, q, n);
    LatestIsBehind(p, q, n);
    if !IsPublished(h.published, q) {
      NoneOlder(s, h, w, q);
    }
  }

  lemma LatestIsBehind(p: nat, q: int, n: nat)
    requires n > 0 && SlotOf(p, n) == SlotOf(q, n)
    ensures p < q ==> p + n <= q
  {
    if p < q < p + n {
      DistinctSlots(p, q, n);
    }
  }

  /** Every reader blocking it stands at its slot and can read at once. */
  lemma BlockersCanRead(s: State, h: History, w: nat, i: nat)
    requires Inv(s, h) && OldestWaiting(s, h, w) && i < |s.rpcs| && s.chan.readers[i].online
    requires s.chan.readers[i].bit in s.chan.slots[s.wpcs[w].m].bitmap
    ensures s.chan.readers[i].nextRead == s.wpcs[w].m
    ensures ReaderCanRead(SlotOfReader(s, i).bitmap, s.chan.readers[i].bit)
  {
    WriterSlotNow(s, h, w);
    BlockerIsBehind(s, h, w, i);
    NobodyIsFurtherBehind(s, h, w, i);
    LapBackSlot(h.claimOf[w], |s.chan.slots|);
    ReaderTestIsExact(SlotOfReader(s, i).bitmap, s.chan.readers[i].bit);
  }

  // ----- Steps that leave the writers alone -----

  /** From s to s1 by steps of readers and of releases only: the writers stand where they stood, and slot m has lost
      bits and gained none. */
  ghost predicate Eases(
    s: State, h: History, m: nat, schedule: seq<Action>, s1: State, h1: History)
    requires StateShape(s) && HistoryShape(s, h)
  {
    && LeadsBy(AllRules(), s, h, schedule, s1, h1) && ReadersOnly(schedule)
    && Inv(s1, h1) && s1.lock.Free? && s1.wpcs == s.wpcs && h1.claimOf == h.claimOf
    && |s1.chan.slots| == |s.chan.slots| && s1.chan.maxMsg == s.chan.maxMsg
    && (m < |s.chan.slots| ==> s1.chan.slots[m].bitmap <= s.chan.slots[m].bitmap)
  }

  predicate ReadersOnly(schedule: seq<Action>) {
    forall k :: 0 <= k < |schedule| ==> Easy(schedule[k])
  }

  lemma EasesOn(
    s: State, h: History, m: nat, a: seq<Action>, s1: State, h1: History, b: seq<Action>, s2: State, h2: History)
    requires StateShape(s) && HistoryShape(s, h) && Eases(s, h, m, a, s1, h1)
    requires Eases(s1, h1, m, b, s2, h2)
    ensures Eases(s, h, m, a + b, s2, h2)
  {
    LeadsOn(AllRules(), s, h, a, s1, h1, b, s2, h2);
  }

  predicate Easy(a: Action) { a.ReadCall? || a.ReaderStep? || a.LeaverStep? }

  /** With the lock free such a step is always allowed, and changes no writer. */
  lemma EasyIsAllowed(s: State, a: Action)
    requires StateShape(s) && s.lock.Free? && Easy(a)
    ensures Allowed(s, a)
  {
  }

  lemma EasyChanges(s: State, h: History, m: nat, a: Action)
    requires StateShape(s) && HistoryShape(s, h) && s.lock.Free? && Easy(a)
    ensures var s1, h1 := Step(s, a), Track(h, s, a);
      && s1.lock.Free? && s1.wpcs == s.wpcs && h1.claimOf == h.claimOf
      && |s1.chan.slots| == |s.chan.slots| && s1.chan.maxMsg == s.chan.maxMsg
      && (m < |s.chan.slots| ==> s1.chan.slots[m].bitmap <= s.chan.slots[m].bitmap)
  {
  }

  lemma EasyStep(s: State, h: History, m: nat, a: Action)
    requires Inv(s, h) && s.lock.Free? && Easy(a)
    ensures Eases(s, h, m, [a], Step(s, a), Track(h, s, a))
  {
    EasyIsAllowed(s, a);
    AllowedByAll(s, a);
    EasyChanges(s, h, m, a);
    StepKeeps(s, h, a);
    OneStep(AllRules(), s, h, a);
  }

  lemma NoStep(s: State, h: History, m: nat)
    requires Inv(s, h) && s.lock.Free?
    ensures Eases(s, h, m, [], s, h)
  {
  }

  // ----- A whole read -----

  /** Steps left of a read. */
  function ReadWork(pc: ReaderPc, maxMsg: nat): nat
    requires pc.RCopying? ==> |pc.out| <= pc.size <= maxMsg
  {
    match pc
    case RIdle => maxMsg + 6
    case RWaiting(_) => maxMsg + 5
    case RReading(_) => maxMsg + 4
    case RCopying(_, size, out) => size - |out| + 3
    case RCopied(_, _) => 2
    case RFinishing(_, _) => 1
  }

  function ReadAction(i: nat, pc: ReaderPc): Action { if pc.RIdle? then ReadCall(i, 0) else ReaderStep(i) }

  /** A step of a read that can go on, short of its last. */
  lemma ReadWorks(s: State, h: History, i: nat)
    requires Inv(s, h) && i < |s.rpcs| && s.chan.readers[i].online && s.lock.Free?
    requires ReaderCanRead(SlotOfReader(s, i).bitmap, s.chan.readers[i].bit) && !s.rpcs[i].RFinishing?
    ensures var s1 := Step(s, ReadAction(i, s.rpcs[i]));
      && s1.chan == s.chan && s1.lock.Free? && s1.leavers == s.leavers && |s1.rpcs| == |s.rpcs|
      && ReaderShape(s1.rpcs[i], s.chan)
      && ReadWork(s1.rpcs[i], s.chan.maxMsg) < ReadWork(s.rpcs[i], s.chan.maxMsg)
  {
    StepKeepsShape(s, ReadAction(i, s.rpcs[i]));
  }

  /** A reader that can read finishes a read on its own, and clears its bit in its slot. */
  lemma {:induction false} ReadFinishes(s: State, h: History, m: nat, i: nat)
    returns (schedule: seq<Action>, s1: State, h1: History)
    requires Inv(s, h) && i < |s.rpcs| && s.chan.readers[i].online && s.lock.Free?
    requires ReaderCanRead(SlotOfReader(s, i).bitmap, s.chan.readers[i].bit)
    ensures Eases(s, h, m, schedule, s1, h1) && |schedule| <= ReadWork(s.rpcs[i], s.chan.maxMsg)
    ensures s1.chan.slots == Cleared(s.chan.slots, s.chan.readers[i].nextRead, s.chan.readers[i].bit)
    decreases ReadWork(s.rpcs[i], s.chan.maxMsg)
  {
    var a := ReadAction(i, s.rpcs[i]);
    EasyStep(s, h, m, a);
    if s.rpcs[i].RFinishing? {
      schedule, s1, h1 := [a], Step(s, a), Track(h, s, a);
      FinishStep(s, h, i);
    } else {
      ReadWorks(s, h, i);
      var rest;
      rest, s1, h1 := ReadFinishes(Step(s, a), Track(h, s, a), m, i);
      EasesOn(s, h, m, [a], Step(s, a), Track(h, s, a), rest, s1, h1);
      schedule := [a] + rest;
    }
  }

  // ----- A release -----

  /** A release clears its bit in slot m, if it has not come that far. */
  lemma {:induction false} ReleaseClears(s: State, h: History, m: nat, l: nat)
    returns (schedule: seq<Action>, s1: State, h1: History)
    requires Inv(s, h) && l < |s.leavers| && s.leavers[l].next <= m < |s.chan.slots| && s.lock.Free?
    ensures Eases(s, h, m, schedule, s1, h1) && |schedule| <= m + 1 - s.leavers[l].next
    ensures s.leavers[l].bit !in s1.chan.slots[m].bitmap
    decreases m - s.leavers[l].next
  {
    var a := LeaverStep(l);
    EasyStep(s, h, m, a);
    if s.leavers[l].next == m {
      schedule, s1, h1 := [a], Step(s, a), Track(h, s, a);
    } else {
      var rest;
      rest, s1, h1 := ReleaseClears(Step(s, a), Track(h, s, a), m, l);
      EasesOn(s, h, m, [a], Step(s, a), Track(h, s, a), rest, s1, h1);
      schedule := [a] + rest;
    }
  }

  // ----- The wait -----

  /** More steps than any one blocking reader or release needs. */
  function StepsPerBit(s: State): nat { s.chan.maxMsg + 6 + |s.chan.slots| }

  lemma ReaderClears(s: State, h: History, w: nat, i: nat) returns (schedule: seq<Action>, s1: State, h1: History)
    requires Inv(s, h) && OldestWaiting(s, h, w) && i < |s.rpcs| && s.chan.readers[i].online
    requires s.chan.readers[i].bit in s.chan.slots[s.wpcs[w].m].bitmap
    ensures Eases(s, h, s.wpcs[w].m, schedule, s1, h1) && |schedule| <= StepsPerBit(s)
    ensures s.wpcs[w].m < |s1.chan.slots| && s.chan.readers[i].bit !in s1.chan.slots[s.wpcs[w].m].bitmap
  {
    BlockersCanRead(s, h, w, i);
    schedule, s1, h1 := ReadFinishes(s, h, s.wpcs[w].m, i);
  }

  /** Whoever has set bit b in the awaited slot takes it out on its own. */
  lemma BlockerClears(s: State, h: History, w: nat, b: int) returns (schedule: seq<Action>, s1: State, h1: History)
    requires Inv(s, h) && OldestWaiting(s, h, w) && b in s.chan.slots[s.wpcs[w].m].bitmap
    ensures Eases(s, h, s.wpcs[w].m, schedule, s1, h1) && |schedule| <= StepsPerBit(s)
    ensures s.wpcs[w].m < |s1.chan.slots| && b !in s1.chan.slots[s.wpcs[w].m].bitmap
  {
    var m := s.wpcs[w].m;
    SlotWithinMask(s, h, m, b);
    if b in MemberBits(s.chan.readers, {}) {
      var i :| 0 <= i < |s.chan.readers| && Member(s.chan.readers[i], {}) && s.chan.readers[i].bit == b;
      schedule, s1, h1 := ReaderClears(s, h, w, i);
    } else {
      var l :| 0 <= l < |s.leavers| && s.leavers[l].next <= m && s.leavers[l].bit == b;
      schedule, s1, h1 := ReleaseClears(s, h, m, l);
    }
  }

  lemma StillOldest(s: State, h: History, s1: State, h1: History, w: nat)
    requires HistoryShape(s, h) && HistoryShape(s1, h1) && OldestWaiting(s, h, w)
    requires s1.wpcs == s.wpcs && h1.claimOf == h.claimOf && s1.lock.Free?
    ensures OldestWaiting(s1, h1, w)
  {
    forall v | 0 <= v < |s1.wpcs| && Busy(s1, v)
      ensures h1.claimOf[w] <= h1.claimOf[v]
    {
      assert Busy(s, v);
    }
  }

  ghost function AwaitedBits(s: State, w: nat): nat
    requires StateShape(s) && w < |s.wpcs| && s.wpcs[w].WWaiting?
  {
    |s.chan.slots[s.wpcs[w].m].bitmap|
  }

  lemma FewerBits(bits: set<int>, bits': set<int>, b: int)
    requires bits' <= bits && b in bits && b !in bits'
    ensures |bits'| < |bits|
  {
    assert bits' <= bits - {b};
    SmallerSet(bits', bits - {b});
  }

  lemma {:induction false} SmallerSet(a: set<int>, b: set<int>)
    requires a <= b
    ensures |a| <= |b|
    decreases |a|
  {
    if a != {} {
      var k := AnyOf(a);
      SmallerSet(a - {k}, b - {k});
    }
  }

  lemma AnyOf<T>(xs: set<T>) returns (x: T)
    requires xs != {}
    ensures x in xs
  {
    x :| x in xs;
  }

  /** One bit is gone; the rest of the wait is that of the state then. */
  lemma OneBlockerClears(s: State, h: History, w: nat) returns (schedule: seq<Action>, s1: State, h1: History)
    requires Inv(s, h) && OldestWaiting(s, h, w) && s.chan.slots[s.wpcs[w].m].bitmap != {}
    ensures Eases(s, h, s.wpcs[w].m, schedule, s1, h1) && |schedule| <= StepsPerBit(s) == StepsPerBit(s1)
    ensures StateShape(s1) && HistoryShape(s1, h1) && OldestWaiting(s1, h1, w) && s1.wpcs[w].m == s.wpcs[w].m
    ensures AwaitedBits(s1, w) < AwaitedBits(s, w)
  {
    var b := AnyOf(s.chan.slots[s.wpcs[w].m].bitmap);
    schedule, s1, h1 := BlockerClears(s, h, w, b);
    StillOldest(s, h, s1, h1, w);
    FewerBits(s.chan.slots[s.wpcs[w].m].bitmap, s1.chan.slots[s.wpcs[w].m].bitmap, b);
  }

  /** The number of set bits measures the wait: readers and releases alone empty the bitmap of the oldest waiting
      writer's slot, in a bounded number of steps for each set bit. */
  lemma {:induction false} WriterUnblocks(s: State, h: History, w: nat)
    returns (schedule: seq<Action>, s1: State, h1: History)
    requires Inv(s, h) && OldestWaiting(s, h, w)
    ensures Eases(s, h, s.wpcs[w].m, schedule, s1, h1)
    ensures s.wpcs[w].m < |s1.chan.slots| && WriterCanWrite(s1.chan.slots[s.wpcs[w].m].bitmap)
    ensures |schedule| <= StepsPerBit(s) * AwaitedBits(s, w)
    decreases AwaitedBits(s, w)
  {
    var m := s.wpcs[w].m;
    if s.chan.slots[m].bitmap == {} {
      schedule, s1, h1 := [], s, h;
      NoStep(s, h, m);
    } else {
      var first, s2, h2 := OneBlockerClears(s, h, w);
      var rest;
      rest, s1, h1 := WriterUnblocks(s2, h2, w);
      EasesOn(s, h, m, first, s2, h2, rest, s1, h1);
      schedule := first + rest;
      OneBitLess(StepsPerBit(s), AwaitedBits(s, w), AwaitedBits(s2, w), |first|, |rest|);
    }
  }

  lemma {:induction false} TimesMore(p: nat, a: nat, b: nat)
    requires a <= b
    ensures p * a <= p * b
  {
    if a < b {
      TimesMore(p, a, b - 1);
      assert p * b == p * (b - 1) + p;
    }
  }

  lemma OneBitLess(perBit: nat, bits: nat, bits': nat, first: nat, rest: nat)
    requires bits' < bits && first <= perBit && rest <= perBit * bits'
    ensures first + rest <= perBit * bits
  {
    TimesMore(perBit, bits' + 1, bits);
    assert perBit * (bits' + 1) == perBit * bits' + perBit;
  }
}
