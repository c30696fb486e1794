/** What an open during a write does: the write, going on alone, marks the new reader for a message claimed before
    it opened, or expels it. */
module KzimpOpening {
  import opened KzimpChan
  import opened KzimpInvariant
  import opened KzimpProtocol
  import opened KzimpWriters

  /** Steps of writer w, and its timeouts. */
  predicate OwnSteps(w: nat, schedule: seq<Action>) {
    forall k :: 0 <= k < |schedule| ==> schedule[k] == WriterStep(w) || schedule[k] == Timeout(w)
  }

  /** Claim q is published in slot m, and reader i is marked for it or expelled. */
  predicate Harmed(s: State, h: History, m: nat, q: nat, i: nat) {
    && q < |h.published| && h.published[q] && m < |s.chan.slots| && i < |s.chan.readers|
    && (s.chan.readers[i].bit in s.chan.slots[m].bitmap || !s.chan.readers[i].online)
  }

  /** Writer w has the open of the next reader harm it. */
  ghost predicate OpenHarms(s: State, h: History, w: nat, schedule: seq<Action>)
    requires StateShape(s) && HistoryShape(s, h)
  {
    TrackKeepsShape(s, h, OpenReader);
    && w < |s.wpcs| && Busy(s, w) && OwnSteps(w, schedule)
    && var r := RunBy({}, Step(s, OpenReader), Track(h, s, OpenReader), schedule);
       Harmed(r.0, r.1, s.wpcs[w].m, h.claimOf[w], |s.rpcs|)
  }

  // ----- A write that has loaded a mask without the bit -----

  /** Writer w is about to publish without the bit of online reader i, or has. */
  predicate Harmless(s: State, w: nat, m: nat, i: nat) {
    && w < |s.wpcs| && m < |s.chan.slots| && i < |s.chan.readers| && s.chan.readers[i].online
    && ((s.wpcs[w].WLoaded? && s.wpcs[w].m == m && s.chan.readers[i].bit !in s.wpcs[w].loaded)
        || (s.wpcs[w].WIdle? && s.chan.readers[i].bit !in s.chan.slots[m].bitmap))
  }

  // ----- A write that has not -----

  /** Writer w, at claim q of slot m, is going to harm reader i. */
  predicate Harming(s: State, h: History, w: nat, m: nat, q: nat, i: nat)
    requires StateShape(s)
  {
    && w < |s.wpcs| && !s.wpcs[w].WIdle? && s.wpcs[w].m == m
    && |h.claimOf| == |s.wpcs| && h.claimOf[w] == q < |h.published|
    && i < |s.chan.readers| && 0 <= s.chan.readers[i].bit < 32
    && var b, online := s.chan.readers[i].bit, s.chan.readers[i].online;
       match s.wpcs[w]
       case WLocked(_, _) =>
         && HoldsLock(s.lock, w)
         && (!online || if b in s.lock.captured then s.lock.Marking? ==> s.lock.i <= i else b in s.chan.mask)
       case WLoaded(_, _, loaded) => b in loaded || !online
       case _ => s.lock.Free? && (b in s.chan.mask || !online)
  }

  /** Steps that writer w has left, when it goes on alone. */
  function WriteWork(s: State, w: nat): nat
    requires StateShape(s) && w < |s.wpcs|
  {
    var n, rs := |s.chan.slots|, |s.chan.readers|;
    var end := s.chan.maxMsg + 5;
    match s.wpcs[w]
    case WIdle => 0
    case WWaiting(_, _) => 4 * n + rs + 5 + end
    case WCaptured(_, _, _) => 4 * n + rs + 4 + end
    case WLocked(_, _) => end + TimeoutWork(s.lock, n, rs)
    case WReady(_, _) => end
    case WFilling(_, msg, k) => |msg| - k + 3
    case WPublishing(_, _) => 2
    case WLoaded(_, _, _) => 1
  }

  function TimeoutWork(lock: Lock, n: nat, readers: nat): nat
    requires LockShape(lock, n, readers, if lock.Free? then 0 else lock.w + 1)
  {
    match lock
    case Free => 0
    case Testing(_, _, j) => 4 * (n - j) + readers + 3
    case Clearing(_, _, j) => 4 * (n - j) + readers + 2
    case Storing(_, _, j, _) => 4 * (n - j) + readers + 1
    case Marking(_, _, i) => readers - i + 1
  }

  /** What it does next: it waits no longer than it must. */
  function NextStep(s: State, w: nat): Action
    requires StateShape(s) && w < |s.wpcs|
  {
    if s.wpcs[w].WWaiting? && !WriterCanWrite(s.chan.slots[s.wpcs[w].m].bitmap) then Timeout(w) else WriterStep(w)
  }

  lemma TimeoutGoesOn(s: State, h: History, w: nat, m: nat, q: nat, i: nat)
    requires StateShape(s) && HistoryShape(s, h) && Harming(s, h, w, m, q, i) && s.wpcs[w].WLocked?
    ensures StateShape(TimeoutNext(s)) && Harming(TimeoutNext(s), h, w, m, q, i)
    ensures WriteWork(TimeoutNext(s), w) < WriteWork(s, w)
  {
    TimeoutKeepsShape(s);
    if s.lock.Marking? && s.lock.i < |s.chan.readers| {
      ReaderTestIsExact(s.lock.captured, s.chan.readers[i].bit);
    }
  }

  lemma WriteGoesOn(s: State, h: History, w: nat, m: nat, q: nat, i: nat)
    requires StateShape(s) && HistoryShape(s, h) && Harming(s, h, w, m, q, i) && !s.wpcs[w].WLoaded?
    ensures var s1 := Step(s, NextStep(s, w));
      && StateShape(s1) && Harming(s1, h, w, m, q, i) && WriteWork(s1, w) < WriteWork(s, w)
      && Track(h, s, NextStep(s, w)) == h
  {
    StepKeepsShape(s, NextStep(s, w));
    if s.wpcs[w].WLocked? {
      TimeoutGoesOn(s, h, w, m, q, i);
    }
  }

  lemma {:induction false} HarmIsDone(s: State, h: History, w: nat, m: nat, q: nat, i: nat)
    returns (schedule: seq<Action>)
    requires StateShape(s) && HistoryShape(s, h) && Harming(s, h, w, m, q, i)
    ensures OwnSteps(w, schedule)
    ensures Harmed(RunBy({}, s, h, schedule).0, RunBy({}, s, h, schedule).1, m, q, i)
    decreases WriteWork(s, w)
  {
    var a := NextStep(s, w);
    TrackKeepsShape(s, h, a);
    if s.wpcs[w].WLoaded? {
      schedule := [a];
      assert schedule[1..] == [];
      assert RunBy({}, s, h, schedule) == RunBy({}, Step(s, a), Track(h, s, a), []);
    } else {
      WriteGoesOn(s, h, w, m, q, i);
      var rest := HarmIsDone(Step(s, a), h, w, m, q, i);
      schedule := [a] + rest;
      assert schedule[0] == a && schedule[1..] == rest;
    }
  }

  // ----- Exactly when an open is harmful -----

  lemma BusyWriteHarms(s: State, h: History, w: nat) returns (schedule: seq<Action>)
    requires Inv(s, h) && s.lock.Free? && 0 <= NextBit(s) < 32 && w < |s.wpcs| && Busy(s, w)
    requires !(s.wpcs[w].WLoaded? && NextBit(s) !in s.wpcs[w].loaded)
    ensures OpenHarms(s, h, w, schedule)
  {
    TrackKeepsShape(s, h, OpenReader);
    WriterSlotNow(s, h, w);
    schedule := HarmIsDone(Step(s, OpenReader), Track(h, s, OpenReader), w, s.wpcs[w].m, h.claimOf[w], |s.rpcs|);
  }

  lemma LoadedWriteDoesNotHarm(s: State, h: History, w: nat, schedule: seq<Action>)
    requires Inv(s, h) && s.lock.Free? && 0 <= NextBit(s) < 32 && w < |s.wpcs| && OwnSteps(w, schedule)
    requires s.wpcs[w].WLoaded? && NextBit(s) !in s.wpcs[w].loaded
    ensures !OpenHarms(s, h, w, schedule)
  {
    TrackKeepsShape(s, h, OpenReader);
    WriterSlotNow(s, h, w);
    var s1, h1, m := Step(s, OpenReader), Track(h, s, OpenReader), s.wpcs[w].m;
    NotPublishedYet(s1, h1, w, m, h.claimOf[w], |s.rpcs|, schedule);
  }

  /** As long as it has not published, the claim is not published; then the bit is not in its slot. */
  lemma {:induction false} NotPublishedYet(
    s: State, h: History, w: nat, m: nat, q: nat, i: nat, schedule: seq<Action>)
    requires StateShape(s) && HistoryShape(s, h) && Harmless(s, w, m, i) && OwnSteps(w, schedule)
    requires q < |h.published| && (s.wpcs[w].WLoaded? ==> h.claimOf[w] == q && !h.published[q])
    ensures !Harmed(RunBy({}, s, h, schedule).0, RunBy({}, s, h, schedule).1, m, q, i)
    decreases |schedule|
  {
    if schedule != [] {
      TrackKeepsShape(s, h, schedule[0]);
      assert schedule[0] == WriterStep(w) || schedule[0] == Timeout(w);
      NotPublishedYet(Step(s, schedule[0]), Track(h, s, schedule[0]), w, m, q, i, schedule[1..]);
    }
  }

  /** After an open, some write that was under way marks the new reader for its own claim, which is older than the
      open, or expels it, exactly when some write under way has not loaded a mask without the reader's bit. */
  lemma OpenHarmsIff(s: State, h: History)
    requires Inv(s, h) && s.lock.Free? && 0 <= NextBit(s) < 32
    ensures (exists w: nat, schedule :: OpenHarms(s, h, w, schedule)) <==> !WritesWithout(s, NextBit(s))
  {
    if WritesWithout(s, NextBit(s)) {
      forall w: nat, schedule
        ensures !OpenHarms(s, h, w, schedule)
      {
        if w < |s.wpcs| && Busy(s, w) && OwnSteps(w, schedule) {
          LoadedWriteDoesNotHarm(s, h, w, schedule);
        }
      }
    } else {
      var w :| 0 <= w < |s.wpcs| && Busy(s, w) && !(s.wpcs[w].WLoaded? && NextBit(s) !in s.wpcs[w].loaded);
      var schedule := BusyWriteHarms(s, h, w);
    }
  }
}
