/** A whole timeout, with everybody else going on meanwhile, expels exactly the readers it has captured. */
module KzimpExpulsion {
  import opened KzimpChan
  import opened KzimpInvariant
  import opened KzimpProtocol
  import opened KzimpTheorems
  import opened KzimpTimeouts
  import opened KzimpWriters

  /** A run of allowed steps while writer w holds the lock. */
  function RunLocked(s: State, h: History, w: nat, schedule: seq<Action>): (r: (State, History))
    requires StateShape(s) && HistoryShape(s, h)
    ensures StateShape(r.0) && HistoryShape(r.0, r.1)
    decreases |schedule|
  {
    if schedule == [] || !HoldsLock(s.lock, w) || !Allowed(s, schedule[0]) then (s, h)
    else
      TrackKeepsShape(s, h, schedule[0]);
      RunLocked(Step(s, schedule[0]), Track(h, s, schedule[0]), w, schedule[1..])
  }

  /** Has the timeout marked reader i, if it is to? */
  predicate Marked(lock: Lock, i: nat) { lock.Free? || (lock.Marking? && i < lock.i) }

  /** The list of readers is the one the timeout found; those captured and marked are offline, the others as then. */
  predicate OnlyCaptured(rs0: seq<Ctrl>, captured: set<int>, s: State) {
    && |s.chan.readers| == |rs0|
    && forall i :: 0 <= i < |rs0| ==>
         && s.chan.readers[i].bit == rs0[i].bit
         && s.chan.readers[i].online == (rs0[i].online && !(Marked(s.lock, i) && rs0[i].bit in captured))
  }

  /** The timeout of writer w, for slot m, under way or just over. */
  predicate Expelling(rs0: seq<Ctrl>, captured: set<int>, s: State, w: nat, m: nat) {
    && w < |s.wpcs| && !s.wpcs[w].WIdle? && s.wpcs[w].m == m
    && OnlyCaptured(rs0, captured, s)
    && if s.lock.Free? then s.wpcs[w].WReady? else HoldsLock(s.lock, w) && s.lock.captured == captured
  }

  lemma TimeoutStepExpels(rs0: seq<Ctrl>, captured: set<int>, s: State, h: History, w: nat, m: nat)
    requires Inv(s, h) && Expelling(rs0, captured, s, w, m) && HoldsLock(s.lock, w) && s.wpcs[w].WLocked?
    ensures Expelling(rs0, captured, TimeoutNext(s), w, m)
  {
    if s.lock.Marking? && s.lock.i < |s.chan.readers| {
      MarkExactly(s.chan, s.lock.i, captured);
    }
  }

  lemma OtherWriterExpels(rs0: seq<Ctrl>, captured: set<int>, s: State, h: History, w: nat, m: nat, v: nat)
    requires Inv(s, h) && Expelling(rs0, captured, s, w, m) && HoldsLock(s.lock, w) && v < |s.wpcs| && v != w
    ensures Expelling(rs0, captured, WriterNext(s, v), w, m)
  {
  }

  lemma OtherStepExpels(rs0: seq<Ctrl>, captured: set<int>, s: State, h: History, w: nat, m: nat, a: Action)
    requires Inv(s, h) && Expelling(rs0, captured, s, w, m) && HoldsLock(s.lock, w) && Allowed(s, a)
    requires !a.WriterStep?
    ensures Expelling(rs0, captured, Step(s, a), w, m)
  {
    assert Follows(s, a, ClaimsKept);
    assert s.wpcs[w].WLocked?;
  }

  lemma StepExpels(rs0: seq<Ctrl>, captured: set<int>, s: State, h: History, w: nat, m: nat, a: Action)
    requires Inv(s, h) && Expelling(rs0, captured, s, w, m) && HoldsLock(s.lock, w) && Allowed(s, a)
    ensures Expelling(rs0, captured, Step(s, a), w, m)
  {
    if a.WriterStep? {
      if a.w == w {
        TimeoutStepExpels(rs0, captured, s, h, w, m);
      } else if a.w < |s.wpcs| {
        OtherWriterExpels(rs0, captured, s, h, w, m, a.w);
      }
    } else {
      OtherStepExpels(rs0, captured, s, h, w, m, a);
    }
  }

  lemma {:induction false} RunExpels(
    rs0: seq<Ctrl>, captured: set<int>, s: State, h: History, w: nat, m: nat, schedule: seq<Action>)
    requires Inv(s, h) && Expelling(rs0, captured, s, w, m) && HoldsLock(s.lock, w)
    ensures var r := RunLocked(s, h, w, schedule); Inv(r.0, r.1) && Expelling(rs0, captured, r.0, w, m)
    decreases |schedule|
  {
    if schedule != [] && Allowed(s, schedule[0]) {
      var s1, h1 := Step(s, schedule[0]), Track(h, s, schedule[0]);
      TrackKeepsShape(s, h, schedule[0]);
      StepKeeps(s, h, schedule[0]);
      StepExpels(rs0, captured, s, h, w, m, schedule[0]);
      if HoldsLock(s1.lock, w) {
        RunExpels(rs0, captured, s1, h1, w, m, schedule[1..]);
      }
    }
  }

  /** Whatever everybody else does between the lock and its release: when the timeout is over, the readers in the
      captured bitmap are offline and the others are as before; the mask is that of the online readers; a captured
      bit is set nowhere but where a release is about to clear it; and the writer's slot is free. What an online
      reader still has to read is set as before, by the invariant. */
  lemma TimeoutExpelsCaptured(s: State, h: History, w: nat, schedule: seq<Action>)
    requires Inv(s, h) && w < |s.wpcs| && s.wpcs[w].WCaptured? && s.lock.Free?
    ensures StateShape(WriterNext(s, w)) && HistoryShape(WriterNext(s, w), h)
    ensures var (s', h') := RunLocked(WriterNext(s, w), h, w, schedule);
      var captured, m := s.wpcs[w].captured, s.wpcs[w].m;
      && Inv(s', h')
      && (s'.lock.Free? ==>
            && w < |s'.wpcs| && m < |s'.chan.slots| && |s'.chan.readers| == |s.chan.readers|
            && (forall i :: 0 <= i < |s.chan.readers| ==>
                  && s'.chan.readers[i].bit == s.chan.readers[i].bit
                  && s'.chan.readers[i].online == (s.chan.readers[i].online && s.chan.readers[i].bit !in captured))
            && s'.chan.mask == OnlineBits(s'.chan.readers) && s'.chan.mask !! captured
            && (forall j, b :: 0 <= j < |s'.chan.slots| && b in s'.chan.slots[j].bitmap && b in captured ==>
                  ToBeCleared(Free, s'.leavers, j, b))
            && s'.wpcs[w].WReady? && s'.chan.slots[m].bitmap == {})
  {
    var captured, m, s1 := s.wpcs[w].captured, s.wpcs[w].m, WriterNext(s, w);
    AcquireKeeps(s, h, w);
    RunExpels(s.chan.readers, captured, s1, h, w, m, schedule);
    var (s', h') := RunLocked(s1, h, w, schedule);
    if s'.lock.Free? {
      AfterTimeout(s.chan.readers, captured, s', h', w, m);
    }
  }

  lemma AfterTimeout(rs0: seq<Ctrl>, captured: set<int>, s: State, h: History, w: nat, m: nat)
    requires Inv(s, h) && Expelling(rs0, captured, s, w, m) && s.lock.Free?
    ensures m < |s.chan.slots| && s.chan.slots[m].bitmap == {}
    ensures s.chan.mask == OnlineBits(s.chan.readers) && s.chan.mask !! captured
    ensures forall j, b :: 0 <= j < |s.chan.slots| && b in s.chan.slots[j].bitmap && b in captured ==>
      ToBeCleared(Free, s.leavers, j, b)
  {
    WriterSlotNow(s, h, w);
    assert forall i :: 0 <= i < |s.chan.readers| ==> (Member(s.chan.readers[i], {}) <==> s.chan.readers[i].online);
    forall j, b | 0 <= j < |s.chan.slots| && b in s.chan.slots[j].bitmap && b in captured
      ensures ToBeCleared(Free, s.leavers, j, b)
    {
      SlotWithinMask(s, h, j, b);
    }
  }

  /** What the store of a timeout does to a slot: it takes the captured bits out, and no others, although the value
      it stores was loaded before. */
  lemma StoreClearsOnlyCaptured(s: State, h: History)
    requires Inv(s, h) && s.lock.Storing? && s.wpcs[s.lock.w].WLocked?
    ensures TimeoutNext(s).chan.slots
         == s.chan.slots[s.lock.j := s.chan.slots[s.lock.j].(bitmap := s.chan.slots[s.lock.j].bitmap - s.lock.captured)]
  {
  }
}
