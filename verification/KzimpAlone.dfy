/** Calls that run with nobody else moving: cut into its steps, each operation does what its function on the channel
    says. Runs are followed step by step, under any set of rules. */
module KzimpAlone {
  import opened KzimpChan
  import opened KzimpProtocol

  // ----- Following a run -----

  /** Every step of the schedule follows the rules, and the last one ends in s1 and h1. */
  ghost predicate LeadsBy(rules: set<Rule>, s: State, h: History, schedule: seq<Action>, s1: State, h1: History)
    requires StateShape(s) && HistoryShape(s, h)
    decreases |schedule|
  {
    if schedule == [] then s1 == s && h1 == h
    else
      TrackKeepsShape(s, h, schedule[0]);
      && AllowedBy(rules, s, schedule[0])
      && LeadsBy(rules, Step(s, schedule[0]), Track(h, s, schedule[0]), schedule[1..], s1, h1)
  }

  ghost predicate ReachesBy(rules: set<Rule>, s: State, h: History, s1: State, h1: History) {
    StateShape(s) && HistoryShape(s, h) && exists schedule :: LeadsBy(rules, s, h, schedule, s1, h1)
  }

  lemma {:induction false} LeadsIsRun(
    rules: set<Rule>, s: State, h: History, schedule: seq<Action>, s1: State, h1: History)
    requires StateShape(s) && HistoryShape(s, h) && LeadsBy(rules, s, h, schedule, s1, h1)
    ensures RunBy(rules, s, h, schedule) == (s1, h1)
    decreases |schedule|
  {
    if schedule != [] {
      TrackKeepsShape(s, h, schedule[0]);
      LeadsIsRun(rules, Step(s, schedule[0]), Track(h, s, schedule[0]), schedule[1..], s1, h1);
    }
  }

  lemma {:induction false} LeadsOn(
    rules: set<Rule>, s: State, h: History, a: seq<Action>, s1: State, h1: History, b: seq<Action>, s2: State,
    h2: History)
    requires StateShape(s) && HistoryShape(s, h) && LeadsBy(rules, s, h, a, s1, h1)
    requires StateShape(s1) && HistoryShape(s1, h1) && LeadsBy(rules, s1, h1, b, s2, h2)
    ensures LeadsBy(rules, s, h, a + b, s2, h2)
    decreases |a|
  {
    if a == [] {
      assert a + b == b;
    } else {
      assert (a + b)[0] == a[0] && (a + b)[1..] == a[1..] + b;
      TrackKeepsShape(s, h, a[0]);
      LeadsOn(rules, Step(s, a[0]), Track(h, s, a[0]), a[1..], s1, h1, b, s2, h2);
    }
  }

  lemma {:induction false} LeadsKeepsShape(
    rules: set<Rule>, s: State, h: History, schedule: seq<Action>, s1: State, h1: History)
    requires StateShape(s) && HistoryShape(s, h) && LeadsBy(rules, s, h, schedule, s1, h1)
    ensures StateShape(s1) && HistoryShape(s1, h1)
    decreases |schedule|
  {
    if schedule != [] {
      TrackKeepsShape(s, h, schedule[0]);
      LeadsKeepsShape(rules, Step(s, schedule[0]), Track(h, s, schedule[0]), schedule[1..], s1, h1);
    }
  }

  lemma OneStep(rules: set<Rule>, s: State, h: History, a: Action)
    requires StateShape(s) && HistoryShape(s, h) && AllowedBy(rules, s, a)
    ensures StateShape(Step(s, a)) && HistoryShape(Step(s, a), Track(h, s, a))
    ensures LeadsBy(rules, s, h, [a], Step(s, a), Track(h, s, a))
    ensures ReachesBy(rules, s, h, Step(s, a), Track(h, s, a))
  {
    TrackKeepsShape(s, h, a);
    assert [a][1..] == [];
    assert LeadsBy(rules, s, h, [a], Step(s, a), Track(h, s, a));
  }

  lemma Stays(rules: set<Rule>, s: State, h: History)
    requires StateShape(s) && HistoryShape(s, h)
    ensures ReachesBy(rules, s, h, s, h)
  {
    assert LeadsBy(rules, s, h, [], s, h);
  }

  lemma Then(rules: set<Rule>, s: State, h: History, s1: State, h1: History, s2: State, h2: History)
    requires ReachesBy(rules, s, h, s1, h1) && ReachesBy(rules, s1, h1, s2, h2)
    ensures ReachesBy(rules, s, h, s2, h2)
  {
    var a :| LeadsBy(rules, s, h, a, s1, h1);
    var b :| LeadsBy(rules, s1, h1, b, s2, h2);
    LeadsOn(rules, s, h, a, s1, h1, b, s2, h2);
  }

  /** One more step of a run. */
  lemma ThenStep(rules: set<Rule>, s: State, h: History, s1: State, h1: History, a: Action)
    requires ReachesBy(rules, s, h, s1, h1) && StateShape(s1) && HistoryShape(s1, h1) && AllowedBy(rules, s1, a)
    ensures StateShape(Step(s1, a)) && HistoryShape(Step(s1, a), Track(h1, s1, a))
    ensures ReachesBy(rules, s, h, Step(s1, a), Track(h1, s1, a))
  {
    OneStep(rules, s1, h1, a);
    Then(rules, s, h, s1, h1, Step(s1, a), Track(h1, s1, a));
  }

  // ----- A write -----

  /** The record after a claim, and after its publication. */
  function ClaimedRecord(h: History, w: nat, msg: seq<Byte>): History
    requires w < |h.claimOf|
  {
    h.(claims := h.claims + [msg], published := h.published + [false], claimOf := h.claimOf[w := |h.claims|])
  }

  function PublishedRecord(h: History, w: nat): History
    requires w < |h.claimOf| && h.claimOf[w] < |h.published|
  {
    h.(published := h.published[h.claimOf[w] := true])
  }

  lemma {:induction false} BytesAlone(rules: set<Rule>, s: State, h: History, w: nat)
    requires StateShape(s) && HistoryShape(s, h) && w < |s.wpcs| && s.wpcs[w].WFilling?
    requires var m, msg, k := s.wpcs[w].m, s.wpcs[w].msg, s.wpcs[w].k; s.chan.slots[m].data[..k] == msg[..k]
    ensures var m, msg := s.wpcs[w].m, s.wpcs[w].msg;
      ReachesBy(rules, s, h, AtWriter(s.(chan := Fill(s.chan, m, msg)), w, WFilling(m, msg, |msg|)), h)
    decreases |s.wpcs[w].msg| - s.wpcs[w].k
  {
    var WFilling(m, msg, k) := s.wpcs[w];
    var data := s.chan.slots[m].data;
    var end := AtWriter(s.(chan := Fill(s.chan, m, msg)), w, WFilling(m, msg, |msg|));
    if k < |msg| {
      var s1 := Step(s, WriterStep(w));
      assert data[k := msg[k]][..k + 1] == data[..k] + [msg[k]] == msg[..k + 1];
      assert msg + data[k := msg[k]][|msg|..] == msg + data[|msg|..];
      OneStep(rules, s, h, WriterStep(w));
      BytesAlone(rules, s1, h, w);
      assert end == AtWriter(s1.(chan := Fill(s1.chan, m, msg)), w, WFilling(m, msg, |msg|));
      Then(rules, s, h, s1, h, end, h);
    } else {
      assert msg + data[|msg|..] == data;
      assert s == end;
      Stays(rules, s, h);
    }
  }

  /** From past its wait, a writer that nobody disturbs fills its slot and publishes the mask as it is. */
  lemma FillAndPublishAlone(rules: set<Rule>, s: State, h: History, w: nat)
    requires StateShape(s) && HistoryShape(s, h) && w < |s.wpcs| && s.wpcs[w].WReady? && s.lock.Free?
    requires SlotUnread(s, s.wpcs[w].m)
    ensures var m, msg := s.wpcs[w].m, s.wpcs[w].msg;
      ReachesBy(rules, s, h, AtWriter(s.(chan := Publish(Fill(s.chan, m, msg), m, |msg|)), w, WIdle),
                PublishedRecord(h, w))
  {
    var m, msg := s.wpcs[w].m, s.wpcs[w].msg;
    var s1 := Step(s, WriterStep(w));
    OneStep(rules, s, h, WriterStep(w));
    assert s1.chan.slots[m].data[..1] == [msg[0]] == msg[..1];
    BytesAlone(rules, s1, h, w);
    var s2 := AtWriter(s1.(chan := Fill(s1.chan, m, msg)), w, WFilling(m, msg, |msg|));
    assert msg + s1.chan.slots[m].data[|msg|..] == msg + s.chan.slots[m].data[|msg|..];
    assert s2 == AtWriter(s.(chan := Fill(s.chan, m, msg)), w, WFilling(m, msg, |msg|));
    Then(rules, s, h, s1, h, s2, h);
    PublishAlone(rules, s, s2, h, w);
    assert s2.wpcs[w := WIdle] == s.wpcs[w := WIdle];
    assert AtWriter(s2.(chan := Publish(s2.chan, m, |msg|)), w, WIdle)
        == AtWriter(s.(chan := Publish(Fill(s.chan, m, msg), m, |msg|)), w, WIdle);
  }

  lemma PublishAlone(rules: set<Rule>, s: State, s2: State, h: History, w: nat)
    requires StateShape(s2) && HistoryShape(s2, h) && w < |s2.wpcs| && s2.wpcs[w].WFilling? && s2.lock.Free?
    requires s2.wpcs[w].k == |s2.wpcs[w].msg| && ReachesBy(rules, s, h, s2, h)
    ensures var m, msg := s2.wpcs[w].m, s2.wpcs[w].msg;
      ReachesBy(rules, s, h, AtWriter(s2.(chan := Publish(s2.chan, m, |msg|)), w, WIdle), PublishedRecord(h, w))
  {
    var m, msg := s2.wpcs[w].m, s2.wpcs[w].msg;
    ThenStep(rules, s, h, s2, h, WriterStep(w));
    var s3 := Step(s2, WriterStep(w));
    ThenStep(rules, s, h, s3, h, WriterStep(w));
    var s4 := Step(s3, WriterStep(w));
    assert s4 == AtWriter(s2.(chan := WithLength(s2.chan, m, |msg|)), w, WLoaded(m, msg, s2.chan.mask));
    ThenStep(rules, s, h, s4, h, WriterStep(w));
    assert Step(s4, WriterStep(w)) == AtWriter(s2.(chan := Publish(s2.chan, m, |msg|)), w, WIdle);
  }

  /** The channel after a whole write. */
  function WrittenAlone(c: Chan, msg: seq<Byte>): Chan
    requires Shape(c) && |msg| <= c.maxMsg
  {
    Publish(Fill(Claim(c), c.nextWrite, msg), c.nextWrite, |msg|)
  }

  function WrittenRecord(h: History, w: nat, msg: seq<Byte>): History
    requires w < |h.claimOf| && |h.published| == |h.claims|
  {
    PublishedRecord(ClaimedRecord(h, w, msg), w)
  }

  /** A write to a free slot, alone, is Claim, Fill and Publish. */
  lemma WriteAlone(rules: set<Rule>, s: State, h: History, w: nat, msg: seq<Byte>)
    requires StateShape(s) && HistoryShape(s, h)
    requires w < |s.wpcs| && s.wpcs[w] == WIdle && 0 < |msg| <= s.chan.maxMsg && s.lock.Free?
    requires SlotUnclaimed(s, s.chan.nextWrite) && SlotUnread(s, s.chan.nextWrite)
    requires s.chan.slots[s.chan.nextWrite].bitmap == {}
    ensures ReachesBy(rules, s, h, s.(chan := WrittenAlone(s.chan, msg)), WrittenRecord(h, w, msg))
  {
    var m := s.chan.nextWrite;
    var s1, h1 := Step(s, WriteCall(w, msg)), ClaimedRecord(h, w, msg);
    OneStep(rules, s, h, WriteCall(w, msg));
    ThenStep(rules, s, h, s1, h1, WriterStep(w));
    var s2 := Step(s1, WriterStep(w));
    FillAndPublishAlone(rules, s2, h1, w);
    var s3 := AtWriter(s2.(chan := Publish(Fill(s2.chan, m, msg), m, |msg|)), w, WIdle);
    Then(rules, s, h, s2, h1, s3, PublishedRecord(h1, w));
    assert s3.wpcs == s.wpcs;
    assert s3 == s.(chan := WrittenAlone(s.chan, msg));
  }

  // ----- A read -----

  lemma {:induction false} CopyAlone(rules: set<Rule>, s: State, h: History, i: nat)
    requires StateShape(s) && HistoryShape(s, h) && i < |s.rpcs| && s.rpcs[i].RCopying?
    ensures var RCopying(count, size, out) := s.rpcs[i];
      ReachesBy(rules, s, h, AtReader(s, i, RCopied(count, out + SlotOfReader(s, i).data[|out|..size])), h)
    decreases s.rpcs[i].size - |s.rpcs[i].out|
  {
    var RCopying(count, size, out) := s.rpcs[i];
    var data := SlotOfReader(s, i).data;
    var s1 := Step(s, ReaderStep(i));
    OneStep(rules, s, h, ReaderStep(i));
    if |out| < size {
      CopyAlone(rules, s1, h, i);
      assert out + [data[|out|]] + data[|out| + 1..size] == out + data[|out|..size];
      var end := AtReader(s, i, RCopied(count, out + data[|out|..size]));
      assert end == AtReader(s1, i, RCopied(count, out + [data[|out|]] + data[|out| + 1..size]));
      Then(rules, s, h, s1, h, end, h);
    } else {
      assert out + data[|out|..size] == out;
    }
  }

  /** A reader whose bit is set reads, alone, what the slot holds, and is then as FinalizeRead says. */
  lemma ReadAlone(rules: set<Rule>, s: State, h: History, i: nat, count: nat)
    requires StateShape(s) && HistoryShape(s, h) && i < |s.rpcs| && s.rpcs[i] == RIdle && s.lock.Free?
    requires s.chan.readers[i].online && ReaderCanRead(SlotOfReader(s, i).bitmap, s.chan.readers[i].bit)
    ensures ReachesBy(rules, s, h, s.(chan := FinalizeRead(s.chan, i)),
      h.(sessions := h.sessions[i := Delivered(h.sessions[i], ReadOut(SlotOfReader(s, i), count), count)]))
  {
    var slot := SlotOfReader(s, i);
    var size := MinOf(slot.len, count);
    OneStep(rules, s, h, ReadCall(i, count));
    var s1 := AtReader(s, i, RWaiting(count));
    ThenStep(rules, s, h, s1, h, ReaderStep(i));
    var s2 := AtReader(s, i, RReading(count));
    assert Step(s1, ReaderStep(i)) == s2;
    ThenStep(rules, s, h, s2, h, ReaderStep(i));
    var s3 := AtReader(s, i, RCopying(count, size, []));
    assert Step(s2, ReaderStep(i)) == s3;
    CopyAlone(rules, s3, h, i);
    var s4 := AtReader(s, i, RCopied(count, ReadOut(slot, count)));
    assert [] + slot.data[0..size] == ReadOut(slot, count);
    assert AtReader(s3, i, RCopied(count, [] + slot.data[0..size])) == s4;
    Then(rules, s, h, s3, h, s4, h);
    FinishAlone(rules, s, s4, h, i);
  }

  lemma FinishAlone(rules: set<Rule>, s: State, s4: State, h: History, i: nat)
    requires StateShape(s) && HistoryShape(s, h) && i < |s.rpcs| && s.rpcs[i] == RIdle && s.lock.Free?
    requires StateShape(s4) && |s4.rpcs| == |s.rpcs| && s4.rpcs == s.rpcs[i := s4.rpcs[i]] && s4 == s.(rpcs := s4.rpcs)
    requires s.chan.readers[i].online && s4.rpcs[i].RCopied? && ReachesBy(rules, s, h, s4, h)
    ensures ReachesBy(rules, s, h, s.(chan := FinalizeRead(s.chan, i)),
                      h.(sessions := h.sessions[i := Delivered(h.sessions[i], s4.rpcs[i].out, s4.rpcs[i].count)]))
  {
    ThenStep(rules, s, h, s4, h, ReaderStep(i));
    var s5 := AtReader(s, i, RFinishing(s4.rpcs[i].count, s4.rpcs[i].out));
    assert Step(s4, ReaderStep(i)) == s5;
    FinishedAlone(rules, s, s5, h, i);
  }

  lemma FinishedAlone(rules: set<Rule>, s: State, s5: State, h: History, i: nat)
    requires StateShape(s) && HistoryShape(s, h) && i < |s.rpcs| && s.rpcs[i] == RIdle && s.lock.Free?
    requires s.chan.readers[i].online && ReachesBy(rules, s, h, s5, h)
    requires |s5.rpcs| == |s.rpcs| && s5 == AtReader(s, i, s5.rpcs[i]) && s5.rpcs[i].RFinishing?
    ensures ReachesBy(rules, s, h, s.(chan := FinalizeRead(s.chan, i)),
                      h.(sessions := h.sessions[i := Delivered(h.sessions[i], s5.rpcs[i].out, s5.rpcs[i].count)]))
  {
    ThenStep(rules, s, h, s5, h, ReaderStep(i));
    assert Step(s5, ReaderStep(i)).rpcs == s.rpcs;
    assert Step(s5, ReaderStep(i)) == s.(chan := FinalizeRead(s.chan, i));
  }

  /** A read of a reader that has been expelled, whatever point of its copy it is at: alone, it returns -EBADF, and
      the channel and everybody's queue are as they were. */
  lemma ExpelledReadAlone(rules: set<Rule>, s: State, h: History, i: nat)
    requires StateShape(s) && HistoryShape(s, h) && i < |s.rpcs| && !s.chan.readers[i].online
    requires s.rpcs[i].RReading? || s.rpcs[i].RCopying? || s.rpcs[i].RCopied?
    ensures ReachesBy(rules, s, h, AtReader(s, i, RIdle), h)
    ensures FinalizeRead(s.chan, i) == s.chan
  {
    match s.rpcs[i]
    case RReading(count) =>
      var s1 := AtReader(s, i, RCopying(count, MinOf(SlotOfReader(s, i).len, count), []));
      OneStep(rules, s, h, ReaderStep(i));
      ExpelledCopyAlone(rules, s1, h, i);
      assert AtReader(s1, i, RIdle) == AtReader(s, i, RIdle);
      Then(rules, s, h, s1, h, AtReader(s, i, RIdle), h);
    case RCopying(_, _, _) => ExpelledCopyAlone(rules, s, h, i);
    case RCopied(_, _) => OneStep(rules, s, h, ReaderStep(i));
  }

  lemma ExpelledCopyAlone(rules: set<Rule>, s: State, h: History, i: nat)
    requires StateShape(s) && HistoryShape(s, h) && i < |s.rpcs| && !s.chan.readers[i].online && s.rpcs[i].RCopying?
    ensures ReachesBy(rules, s, h, AtReader(s, i, RIdle), h)
  {
    var RCopying(count, size, out) := s.rpcs[i];
    var s1 := AtReader(s, i, RCopied(count, out + SlotOfReader(s, i).data[|out|..size]));
    CopyAlone(rules, s, h, i);
    ThenStep(rules, s, h, s1, h, ReaderStep(i));
    assert Step(s1, ReaderStep(i)) == AtReader(s, i, RIdle);
  }

  /** A read that is given up before it is finished takes nothing. */
  lemma GivenUpReadTakesNothing(s: State, h: History, i: nat)
    requires StateShape(s) && HistoryShape(s, h) && i < |s.rpcs|
    requires s.rpcs[i].RWaiting? || s.rpcs[i].RReading? || s.rpcs[i].RCopying?
    ensures Step(s, ReaderGivesUp(i)) == AtReader(s, i, RIdle) && Track(h, s, ReaderGivesUp(i)) == h
  {
  }

  /** A write that is given up while it waits or fills its slot leaves the slot as it is, claimed and unpublished. */
  lemma GivenUpWriteLeavesItsSlot(s: State, h: History, w: nat)
    requires StateShape(s) && HistoryShape(s, h) && w < |s.wpcs|
    requires s.wpcs[w].WWaiting? || s.wpcs[w].WReady? || s.wpcs[w].WFilling?
    ensures Step(s, WriterGivesUp(w)) == AtWriter(s, w, WIdle) && Track(h, s, WriterGivesUp(w)) == h
  {
  }

  /** Calls that must wait do nothing: a read without its bit, a write on a slot that is not free, and whatever needs
      the lock of a timeout under way. */
  lemma BlockedCallsWait(s: State)
    requires StateShape(s)
    ensures forall i :: 0 <= i < |s.rpcs| && s.rpcs[i].RWaiting? ==>
      ReaderCanRead(SlotOfReader(s, i).bitmap, s.chan.readers[i].bit) || ReaderNext(s, i) == s
    ensures forall w :: 0 <= w < |s.wpcs| && s.wpcs[w].WWaiting? && s.chan.slots[s.wpcs[w].m].bitmap != {} ==>
      WriterNext(s, w) == s
    ensures !s.lock.Free? ==>
      && Step(s, OpenReader) == s && (forall i :: Step(s, CloseReader(i)) == s)
      && (forall w, msg :: Step(s, WriteCall(w, msg)) == s)
      && forall w :: 0 <= w < |s.wpcs| && s.wpcs[w].WCaptured? ==> WriterNext(s, w) == s
  {
  }

  // ----- A release -----

  /** The slots below j cleared of a bit. */
  function ClearedBelow(slots: seq<Slot>, bit: int, j: nat): seq<Slot> {
    seq(|slots|, k requires 0 <= k < |slots| => if k < j then ClearBit(slots[k], bit) else slots[k])
  }

  lemma {:induction false} LeaveAlone(rules: set<Rule>, s: State, h: History, l: nat, slots: seq<Slot>)
    requires StateShape(s) && HistoryShape(s, h) && l < |s.leavers| && s.lock.Free? && |slots| == |s.chan.slots|
    requires s.leavers[l].next <= |slots| && s.chan.slots == ClearedBelow(slots, s.leavers[l].bit, s.leavers[l].next)
    ensures ReachesBy(rules, s, h, s.(chan := s.chan.(slots := ClearBitEverywhere(slots, s.leavers[l].bit)),
                                      leavers := s.leavers[l := Leaver(s.leavers[l].bit, |slots|)]), h)
    decreases |slots| - s.leavers[l].next
  {
    var Leaver(bit, j) := s.leavers[l];
    var end := s.(chan := s.chan.(slots := ClearBitEverywhere(slots, bit)),
                  leavers := s.leavers[l := Leaver(bit, |slots|)]);
    if j < |slots| {
      var s1 := Step(s, LeaverStep(l));
      OneStep(rules, s, h, LeaverStep(l));
      assert s1.chan.slots == ClearedBelow(slots, bit, j + 1);
      LeaveAlone(rules, s1, h, l, slots);
      assert end == s1.(chan := s1.chan.(slots := ClearBitEverywhere(slots, bit)),
                        leavers := s1.leavers[l := Leaver(bit, |slots|)]);
      Then(rules, s, h, s1, h, end, h);
    } else {
      assert ClearedBelow(slots, bit, j) == ClearBitEverywhere(slots, bit);
      assert s == end;
      Stays(rules, s, h);
    }
  }

  /** A release that nobody disturbs is Release. */
  lemma ReleaseAlone(rules: set<Rule>, s: State, h: History, i: nat)
    requires StateShape(s) && HistoryShape(s, h) && i < |s.rpcs| && s.lock.Free?
    requires !s.rpcs[i].RWaiting? && !s.rpcs[i].RFinishing?
    ensures var bit := s.chan.readers[i].bit;
      ReachesBy(rules, s, h,
                State(Release(s.chan, i), Removed(s.rpcs, i), s.wpcs, Free,
                      s.leavers + [Leaver(bit, |s.chan.slots|)]),
                h.(sessions := Removed(h.sessions, i), closed := h.closed + [h.sessions[i]]))
  {
    var bit, slots := s.chan.readers[i].bit, s.chan.slots;
    var s1, h1 := Step(s, CloseReader(i)), Track(h, s, CloseReader(i));
    OneStep(rules, s, h, CloseReader(i));
    assert slots == ClearedBelow(slots, bit, 0);
    LeaveAlone(rules, s1, h1, |s.leavers|, slots);
    var end := State(Release(s.chan, i), Removed(s.rpcs, i), s.wpcs, Free, s.leavers + [Leaver(bit, |slots|)]);
    assert s1.leavers[|s.leavers| := Leaver(bit, |slots|)] == s.leavers + [Leaver(bit, |slots|)];
    assert end == s1.(chan := s1.chan.(slots := ClearBitEverywhere(slots, bit)),
                      leavers := s1.leavers[|s.leavers| := Leaver(bit, |slots|)]);
    Then(rules, s, h, s1, h1, end, h1);
  }

  // ----- A timeout -----

  function ExpelledBelow(slots: seq<Slot>, captured: set<int>, j: nat): seq<Slot> {
    seq(|slots|, k requires 0 <= k < |slots| => if k < j then ExpelSlot(slots[k], captured) else slots[k])
  }

  function MarkedBelow(rs: seq<Ctrl>, captured: set<int>, i: nat): seq<Ctrl> {
    seq(|rs|, k requires 0 <= k < |rs| => if k < i then ExpelReader(rs[k], captured) else rs[k])
  }

  lemma {:induction false} SlotsAlone(rules: set<Rule>, s: State, h: History, slots: seq<Slot>)
    requires StateShape(s) && HistoryShape(s, h) && s.lock.Testing? && s.wpcs[s.lock.w].WLocked?
    requires |slots| == |s.chan.slots| && s.chan.slots == ExpelledBelow(slots, s.lock.captured, s.lock.j)
    ensures ReachesBy(rules, s, h,
                      s.(chan := s.chan.(slots := ExpelledBelow(slots, s.lock.captured, |slots|)),
                         lock := Testing(s.lock.w, s.lock.captured, |slots|)), h)
    decreases |slots| - s.lock.j
  {
    var Testing(w, captured, j) := s.lock;
    var end := s.(chan := s.chan.(slots := ExpelledBelow(slots, captured, |slots|)),
                  lock := Testing(w, captured, |slots|));
    if j == |slots| {
      assert s == end;
      Stays(rules, s, h);
    } else {
      var s1 := SlotAlone(rules, s, h, slots);
      SlotsAlone(rules, s1, h, slots);
      assert end == s1.(chan := s1.chan.(slots := ExpelledBelow(slots, captured, |slots|)),
                        lock := Testing(w, captured, |slots|));
      Then(rules, s, h, s1, h, end, h);
    }
  }

  /** One slot, tested and, unless empty, loaded and stored. */
  lemma SlotAlone(rules: set<Rule>, s: State, h: History, slots: seq<Slot>) returns (s1: State)
    requires StateShape(s) && HistoryShape(s, h) && s.lock.Testing? && s.wpcs[s.lock.w].WLocked?
    requires |slots| == |s.chan.slots| && s.chan.slots == ExpelledBelow(slots, s.lock.captured, s.lock.j)
    requires s.lock.j < |slots|
    ensures StateShape(s1) && HistoryShape(s1, h) && ReachesBy(rules, s, h, s1, h)
    ensures s1 == s.(chan := s.chan.(slots := ExpelledBelow(slots, s.lock.captured, s.lock.j + 1)),
                     lock := Testing(s.lock.w, s.lock.captured, s.lock.j + 1))
  {
    var Testing(w, captured, j) := s.lock;
    s1 := Step(s, WriterStep(w));
    OneStep(rules, s, h, WriterStep(w));
    if s.chan.slots[j].bitmap == {} {
      assert ExpelledBelow(slots, captured, j + 1) == s.chan.slots;
    } else {
      ThenStep(rules, s, h, s1, h, WriterStep(w));
      var s2 := Step(s1, WriterStep(w));
      assert s2 == s.(lock := Storing(w, captured, j, s.chan.slots[j].bitmap));
      ThenStep(rules, s, h, s2, h, WriterStep(w));
      s1 := Step(s2, WriterStep(w));
      assert s1.chan.slots == ExpelledBelow(slots, captured, j + 1);
    }
  }

  lemma {:induction false} MarksAlone(rules: set<Rule>, s: State, h: History, rs: seq<Ctrl>)
    requires StateShape(s) && HistoryShape(s, h) && s.lock.Marking? && s.wpcs[s.lock.w].WLocked?
    requires |rs| == |s.chan.readers| && s.chan.readers == MarkedBelow(rs, s.lock.captured, s.lock.i)
    ensures ReachesBy(rules, s, h,
                      AtWriter(s.(chan := s.chan.(readers := MarkedBelow(rs, s.lock.captured, |rs|)), lock := Free),
                               s.lock.w, WReady(s.wpcs[s.lock.w].m, s.wpcs[s.lock.w].msg)), h)
    decreases |rs| - s.lock.i
  {
    var Marking(w, captured, i) := s.lock;
    var s1 := Step(s, WriterStep(w));
    OneStep(rules, s, h, WriterStep(w));
    if i < |rs| {
      assert s1.chan.readers == MarkedBelow(rs, captured, i + 1);
      MarksAlone(rules, s1, h, rs);
      var end := AtWriter(s.(chan := s.chan.(readers := MarkedBelow(rs, captured, |rs|)), lock := Free), w,
                          WReady(s.wpcs[w].m, s.wpcs[w].msg));
      assert end == AtWriter(s1.(chan := s1.chan.(readers := MarkedBelow(rs, captured, |rs|)), lock := Free), w,
                             WReady(s1.wpcs[w].m, s1.wpcs[w].msg));
      Then(rules, s, h, s1, h, end, h);
    }
  }

  /** The rest of a timeout, from the test of a slot on. */
  lemma TimeoutRestAlone(rules: set<Rule>, s: State, h: History, slots: seq<Slot>)
    requires StateShape(s) && HistoryShape(s, h) && s.lock.Testing? && s.wpcs[s.lock.w].WLocked?
    requires |slots| == |s.chan.slots| && s.chan.slots == ExpelledBelow(slots, s.lock.captured, s.lock.j)
    ensures var Testing(w, captured, _) := s.lock;
      var slots', rs' := ExpelledBelow(slots, captured, |slots|), MarkedBelow(s.chan.readers, captured, |s.rpcs|);
      ReachesBy(rules, s, h, AtWriter(s.(chan := s.chan.(slots := slots', readers := rs'), lock := Free), w,
                                      WReady(s.wpcs[w].m, s.wpcs[w].msg)), h)
  {
    var Testing(w, captured, _) := s.lock;
    var rs := s.chan.readers;
    SlotsAlone(rules, s, h, slots);
    var s2 := s.(chan := s.chan.(slots := ExpelledBelow(slots, captured, |slots|)),
                 lock := Testing(w, captured, |slots|));
    ReachedShape(rules, s, h, s2, h);
    ThenStep(rules, s, h, s2, h, WriterStep(w));
    var s3 := Step(s2, WriterStep(w));
    assert rs == MarkedBelow(rs, captured, 0);
    MarksAlone(rules, s3, h, rs);
    var end := AtWriter(s3.(chan := s3.chan.(readers := MarkedBelow(rs, captured, |rs|)), lock := Free), w,
                        WReady(s3.wpcs[w].m, s3.wpcs[w].msg));
    Then(rules, s, h, s3, h, end, h);
  }

  /** A timeout that nobody disturbs is Expel. */
  lemma TimeoutAlone(rules: set<Rule>, s: State, h: History, w: nat)
    requires StateShape(s) && HistoryShape(s, h) && w < |s.wpcs| && s.wpcs[w].WCaptured? && s.lock.Free?
    ensures var WCaptured(m, msg, captured) := s.wpcs[w];
      ReachesBy(rules, s, h, AtWriter(s.(chan := Expel(s.chan, captured)), w, WReady(m, msg)), h)
  {
    var WCaptured(m, msg, captured) := s.wpcs[w];
    var slots, rs := s.chan.slots, s.chan.readers;
    var s1 := Step(s, WriterStep(w));
    OneStep(rules, s, h, WriterStep(w));
    assert slots == ExpelledBelow(slots, captured, 0);
    TimeoutRestAlone(rules, s1, h, slots);
    var end := AtWriter(s.(chan := Expel(s.chan, captured)), w, WReady(m, msg));
    assert ExpelledBelow(slots, captured, |slots|) == Expel(s.chan, captured).slots;
    assert MarkedBelow(rs, captured, |rs|) == Expel(s.chan, captured).readers;
    assert end.wpcs == s1.wpcs[w := WReady(m, msg)];
    Then(rules, s, h, s1, h, end, h);
  }

  lemma ReachedShape(rules: set<Rule>, s: State, h: History, s1: State, h1: History)
    requires ReachesBy(rules, s, h, s1, h1)
    ensures StateShape(s1) && HistoryShape(s1, h1)
  {
    var schedule :| LeadsBy(rules, s, h, schedule, s1, h1);
    LeadsKeepsShape(rules, s, h, schedule, s1, h1);
  }
}
