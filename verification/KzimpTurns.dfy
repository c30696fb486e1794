/** A waiting writer gets its slot in whatever order the others take their turns: readers, releases, and the other
    writers as well. */
module KzimpTurns {
  import opened KzimpInvariant
  import opened KzimpProgress
  import opened KzimpProtocol
  import opened KzimpTheorems
  import opened KzimpTimeouts
  import opened KzimpWriters

  /** w waits, nobody has an older claim that is unfinished, and no timeout has begun. */
  ghost predicate Waits(s: State, h: History, w: nat) {
    && Inv(s, h) && OldestWaiting(s, h, w)
    && forall v :: 0 <= v < |s.wpcs| ==> !s.wpcs[v].WCaptured?
  }

  /** Reading, releasing, and writing by others than w; not timeouts, and not giving up. */
  predicate Calm(a: Action, w: nat) {
    match a
    case ReadCall(_, _) => true
    case ReaderStep(_) => true
    case LeaverStep(_) => true
    case WriteCall(v, _) => v != w
    case WriterStep(v) => v != w
    case _ => false
  }

  /** A run of such steps that follows the rules. */
  predicate CalmRun(s: State, w: nat, schedule: seq<Action>)
    requires StateShape(s)
    decreases |schedule|
  {
    schedule == [] ||
    (Calm(schedule[0], w) && Allowed(s, schedule[0]) &&
     StateShape(Step(s, schedule[0])) && CalmRun(Step(s, schedule[0]), w, schedule[1..]))
  }

  // ----- Steps -----

  /** What a step leaves alone for the writer that waits: itself, its slot but for bits that are cleared, and who the
      readers and the releases are. */
  predicate Spares(s: State, s1: State, w: nat)
    requires StateShape(s) && StateShape(s1)
  {
    && w < |s.wpcs| == |s1.wpcs| && s.wpcs[w].WWaiting? && s1.wpcs[w] == s.wpcs[w]
    && s1.lock.Free? && |s1.chan.slots| == |s.chan.slots| && s1.chan.maxMsg == s.chan.maxMsg
    && s1.chan.slots[s.wpcs[w].m].bitmap <= s.chan.slots[s.wpcs[w].m].bitmap
    && |s1.rpcs| == |s.rpcs| && |s1.leavers| == |s.leavers|
    && (forall i :: 0 <= i < |s.rpcs| ==>
          s1.chan.readers[i].bit == s.chan.readers[i].bit && s1.chan.readers[i].online == s.chan.readers[i].online)
    && (forall l :: 0 <= l < |s.leavers| ==> s1.leavers[l].bit == s.leavers[l].bit)
  }

  lemma OthersSpare(s: State, h: History, w: nat, v: nat)
    requires Waits(s, h, w) && v < |s.wpcs| && v != w
    ensures StateShape(WriterNext(s, v)) && Spares(s, WriterNext(s, v), w)
  {
    WriterKeepsShape(s, v);
    if Busy(s, v) {
      WritersApart(s, h, v, w);
    }
  }

  lemma CalmSpares(s: State, h: History, w: nat, a: Action)
    requires Waits(s, h, w) && Calm(a, w)
    ensures StateShape(Step(s, a)) && Spares(s, Step(s, a), w)
  {
    StepKeepsShape(s, a);
    if a.WriterStep? && a.w < |s.wpcs| {
      OthersSpare(s, h, w, a.w);
    }
  }

  /** Who is busy after a step was so before, or has the newest claim; and nobody starts a timeout. */
  lemma WhoIsBusy(s: State, h: History, w: nat, a: Action, v: nat)
    requires StateShape(s) && HistoryShape(s, h) && Calm(a, w) && v < |s.wpcs|
    ensures var s1, h1 := Step(s, a), Track(h, s, a);
      && |s1.wpcs| == |s.wpcs| == |h1.claimOf| && (s1.wpcs[v].WCaptured? ==> s.wpcs[v].WCaptured?)
      && (!s1.wpcs[v].WIdle? ==>
            (!s.wpcs[v].WIdle? && h1.claimOf[v] == h.claimOf[v]) || h1.claimOf[v] == |h.claims|)
  {
    StepKeepsShape(s, a);
  }

  /** New claims are newer. */
  lemma CalmKeepsOldest(s: State, h: History, w: nat, a: Action)
    requires Waits(s, h, w) && Calm(a, w)
    ensures HistoryShape(Step(s, a), Track(h, s, a)) && OldestWaiting(Step(s, a), Track(h, s, a), w)
    ensures forall v :: 0 <= v < |s.wpcs| ==> !Step(s, a).wpcs[v].WCaptured?
  {
    TrackKeepsShape(s, h, a);
    CalmSpares(s, h, w, a);
    WhoIsBusy(s, h, w, a, w);
    WriterSlotNow(s, h, w);
    StillOldestWaiting(s, h, w, a);
  }

  lemma StillOldestWaiting(s: State, h: History, w: nat, a: Action)
    requires StateShape(s) && HistoryShape(s, h) && Calm(a, w) && OldestWaiting(s, h, w) && h.claimOf[w] < |h.claims|
    requires forall v :: 0 <= v < |s.wpcs| ==> !s.wpcs[v].WCaptured?
    requires HistoryShape(Step(s, a), Track(h, s, a))
    requires Step(s, a).wpcs[w] == s.wpcs[w] && Track(h, s, a).claimOf[w] == h.claimOf[w] && Step(s, a).lock.Free?
    ensures OldestWaiting(Step(s, a), Track(h, s, a), w)
    ensures forall v :: 0 <= v < |s.wpcs| ==> !Step(s, a).wpcs[v].WCaptured?
  {
    forall v | 0 <= v < |s.wpcs|
      ensures Busy(Step(s, a), v) ==> h.claimOf[w] <= Track(h, s, a).claimOf[v]
      ensures !Step(s, a).wpcs[v].WCaptured?
    {
      WhoIsBusy(s, h, w, a, v);
      assert Busy(s, v) ==> h.claimOf[w] <= h.claimOf[v];
    }
  }

  lemma CalmKeeps(s: State, h: History, w: nat, a: Action)
    requires Waits(s, h, w) && Calm(a, w) && Allowed(s, a)
    ensures Waits(Step(s, a), Track(h, s, a), w)
  {
    StepKeeps(s, h, a);
    StepKeepsShape(s, a);
    CalmKeepsOldest(s, h, w, a);
  }

  /** Cleared bits stay cleared. */
  lemma {:induction false} CalmRunKeeps(s: State, h: History, w: nat, schedule: seq<Action>)
    requires Waits(s, h, w) && CalmRun(s, w, schedule)
    ensures var r := Run(s, h, schedule); Waits(r.0, r.1, w) && Spares(s, r.0, w)
    decreases |schedule|
  {
    if schedule != [] {
      var a := schedule[0];
      var s1, h1 := Step(s, a), Track(h, s, a);
      CalmKeeps(s, h, w, a);
      CalmSpares(s, h, w, a);
      CalmRunKeeps(s1, h1, w, schedule[1..]);
      RunOn(s, h, schedule);
    }
  }

  lemma RunOn(s: State, h: History, schedule: seq<Action>)
    requires StateShape(s) && HistoryShape(s, h) && schedule != [] && Allowed(s, schedule[0])
    ensures StateShape(Step(s, schedule[0])) && HistoryShape(Step(s, schedule[0]), Track(h, s, schedule[0]))
    ensures Run(s, h, schedule) == Run(Step(s, schedule[0]), Track(h, s, schedule[0]), schedule[1..])
  {
    TrackKeepsShape(s, h, schedule[0]);
    AllowedByAll(s, schedule[0]);
  }

  // ----- Readers -----

  /** A turn of reader i: it calls when it is idle, and else takes a step of its call. */
  predicate IsTurn(s: State, a: Action, i: nat) {
    i < |s.rpcs| && if s.rpcs[i].RIdle? then a.ReadCall? && a.i == i else a == ReaderStep(i)
  }

  function ReaderTurns(s: State, schedule: seq<Action>, i: nat): nat
    requires StateShape(s)
    decreases |schedule|
  {
    if schedule == [] then 0
    else
      StepKeepsShape(s, schedule[0]);
      (if IsTurn(s, schedule[0], i) then 1 else 0) + ReaderTurns(Step(s, schedule[0]), schedule[1..], i)
  }

  /** The bit of reader i blocks writer w. */
  predicate Blocks(s: State, w: nat, i: nat)
    requires StateShape(s)
  {
    && w < |s.wpcs| && s.wpcs[w].WWaiting? && i < |s.rpcs|
    && s.chan.readers[i].online && s.chan.readers[i].bit in s.chan.slots[s.wpcs[w].m].bitmap
  }

  lemma TurnTaken(s: State, h: History, w: nat, i: nat, a: Action)
    requires Waits(s, h, w) && Blocks(s, w, i) && IsTurn(s, a, i)
    ensures var s1 := Step(s, a);
      && StateShape(s1) && Spares(s, s1, w)
      && (Blocks(s1, w, i) ==> ReadWork(s1.rpcs[i], s1.chan.maxMsg) < ReadWork(s.rpcs[i], s.chan.maxMsg))
  {
    CalmSpares(s, h, w, a);
    BlockersCanRead(s, h, w, i);
  }

  lemma OthersTurn(s: State, h: History, w: nat, i: nat, a: Action)
    requires Waits(s, h, w) && Blocks(s, w, i) && Calm(a, w) && !IsTurn(s, a, i)
    ensures StateShape(Step(s, a)) && |Step(s, a).rpcs| == |s.rpcs| && Step(s, a).rpcs[i] == s.rpcs[i]
  {
    CalmSpares(s, h, w, a);
  }

  /** What reader i, with bit b, still has to do for slot m. */
  function BlockingWork(s: State, m: nat, i: nat): nat
    requires StateShape(s)
  {
    if m < |s.chan.slots| && i < |s.rpcs| && s.chan.readers[i].bit in s.chan.slots[m].bitmap
    then ReadWork(s.rpcs[i], s.chan.maxMsg) else 0
  }

  predicate HasBit(s: State, m: nat, i: nat, b: int)
    requires StateShape(s)
  {
    m < |s.chan.slots| && i < |s.rpcs| && s.chan.readers[i].online && s.chan.readers[i].bit == b
  }

  lemma TurnOrNot(s: State, h: History, w: nat, m: nat, i: nat, b: int, a: Action)
    requires Waits(s, h, w) && s.wpcs[w].m == m && HasBit(s, m, i, b) && Calm(a, w)
    requires b in s.chan.slots[m].bitmap
    ensures var s1 := Step(s, a);
      && StateShape(s1) && w < |s1.wpcs| && s1.wpcs[w] == s.wpcs[w] && HasBit(s1, m, i, b)
      && BlockingWork(s1, m, i) + (if IsTurn(s, a, i) then 1 else 0) <= BlockingWork(s, m, i)
  {
    CalmSpares(s, h, w, a);
    if IsTurn(s, a, i) {
      TurnTaken(s, h, w, i, a);
    } else {
      OthersTurn(s, h, w, i, a);
    }
  }

  lemma ReaderTurn(s: State, h: History, w: nat, m: nat, i: nat, b: int, a: Action)
    requires Waits(s, h, w) && s.wpcs[w].m == m && HasBit(s, m, i, b) && Calm(a, w) && Allowed(s, a)
    requires b in s.chan.slots[m].bitmap
    ensures var s1, h1 := Step(s, a), Track(h, s, a);
      && Waits(s1, h1, w) && s1.wpcs[w].m == m && HasBit(s1, m, i, b)
      && BlockingWork(s1, m, i) + (if IsTurn(s, a, i) then 1 else 0) <= BlockingWork(s, m, i)
  {
    CalmKeeps(s, h, w, a);
    TurnOrNot(s, h, w, m, i, b, a);
  }

  /** The bits of slot m after a run. */
  function BitsAfter(s: State, h: History, schedule: seq<Action>, m: nat): set<int>
    requires StateShape(s) && HistoryShape(s, h)
  {
    var slots := Run(s, h, schedule).0.chan.slots;
    if m < |slots| then slots[m].bitmap else {}
  }

  lemma BitsShrink(s: State, h: History, w: nat, schedule: seq<Action>)
    requires Waits(s, h, w) && CalmRun(s, w, schedule)
    ensures BitsAfter(s, h, schedule, s.wpcs[w].m) <= s.chan.slots[s.wpcs[w].m].bitmap
  {
    CalmRunKeeps(s, h, w, schedule);
  }

  /** A blocking reader clears its bit, whatever the others do between its turns. */
  lemma {:induction false} ReaderClearsInTurn(
    s: State, h: History, w: nat, m: nat, i: nat, b: int, schedule: seq<Action>)
    requires Waits(s, h, w) && s.wpcs[w].m == m && HasBit(s, m, i, b) && CalmRun(s, w, schedule)
    requires ReaderTurns(s, schedule, i) >= BlockingWork(s, m, i)
    ensures b !in BitsAfter(s, h, schedule, m)
    decreases |schedule|
  {
    if b !in s.chan.slots[m].bitmap {
      BitsShrink(s, h, w, schedule);
    } else {
      ReaderTurn(s, h, w, m, i, b, schedule[0]);
      RunOn(s, h, schedule);
      ReaderClearsInTurn(Step(s, schedule[0]), Track(h, s, schedule[0]), w, m, i, b, schedule[1..]);
    }
  }

  // ----- Releases -----

  function ReleaseTurns(schedule: seq<Action>, l: nat): nat {
    if schedule == [] then 0 else (if schedule[0] == LeaverStep(l) then 1 else 0) + ReleaseTurns(schedule[1..], l)
  }

  /** Turns that a release has left up to slot m. */
  function ReleaseWork(x: Leaver, m: nat): nat { if x.next <= m then m + 1 - x.next else 0 }

  /** What release l, of bit b, still has to do for slot m. */
  function ReleasingWork(s: State, m: nat, l: nat): nat
    requires StateShape(s)
  {
    if m < |s.chan.slots| && l < |s.leavers| && s.leavers[l].bit in s.chan.slots[m].bitmap
    then ReleaseWork(s.leavers[l], m) else 0
  }

  /** Release l is to clear bit b of slot m, or has. */
  predicate Leaves(s: State, m: nat, l: nat, b: int)
    requires StateShape(s)
  {
    && m < |s.chan.slots| && l < |s.leavers| && s.leavers[l].bit == b
    && (b in s.chan.slots[m].bitmap ==> s.leavers[l].next <= m)
  }

  lemma ReleaseMoves(s: State, w: nat, m: nat, l: nat, a: Action)
    requires StateShape(s) && Calm(a, w) && l < |s.leavers| && s.leavers[l].next <= m < |s.chan.slots|
    ensures var s1 := Step(s, a);
      && StateShape(s1) && l < |s1.leavers| && |s1.chan.slots| == |s.chan.slots|
      && s1.leavers[l].next == s.leavers[l].next + (if a == LeaverStep(l) then 1 else 0)
      && (a == LeaverStep(l) && s.leavers[l].next == m ==> s.leavers[l].bit !in s1.chan.slots[m].bitmap)
  {
    StepKeepsShape(s, a);
  }

  lemma ReleaseTurn(s: State, h: History, w: nat, m: nat, l: nat, b: int, a: Action)
    requires Waits(s, h, w) && s.wpcs[w].m == m && Leaves(s, m, l, b) && Calm(a, w) && Allowed(s, a)
    requires b in s.chan.slots[m].bitmap
    ensures var s1, h1 := Step(s, a), Track(h, s, a);
      && Waits(s1, h1, w) && s1.wpcs[w].m == m && Leaves(s1, m, l, b)
      && ReleasingWork(s1, m, l) + (if a == LeaverStep(l) then 1 else 0) <= ReleasingWork(s, m, l)
  {
    CalmKeeps(s, h, w, a);
    CalmSpares(s, h, w, a);
    ReleaseMoves(s, w, m, l, a);
  }

  /** A release that is still to clear the slot clears its bit there. */
  lemma {:induction false} ReleaseClearsInTurn(
    s: State, h: History, w: nat, m: nat, l: nat, b: int, schedule: seq<Action>)
    requires Waits(s, h, w) && s.wpcs[w].m == m && Leaves(s, m, l, b) && CalmRun(s, w, schedule)
    requires ReleaseTurns(schedule, l) >= ReleasingWork(s, m, l)
    ensures b !in BitsAfter(s, h, schedule, m)
    decreases |schedule|
  {
    if b !in s.chan.slots[m].bitmap {
      BitsShrink(s, h, w, schedule);
    } else {
      ReleaseTurn(s, h, w, m, l, b, schedule[0]);
      RunOn(s, h, schedule);
      ReleaseClearsInTurn(Step(s, schedule[0]), Track(h, s, schedule[0]), w, m, l, b, schedule[1..]);
    }
  }

  // ----- The wait -----

  /** Everybody who blocks w gets as many turns as it has steps left. */
  ghost predicate EnoughTurns(s: State, w: nat, schedule: seq<Action>)
    requires StateShape(s) && w < |s.wpcs| && s.wpcs[w].WWaiting?
  {
    && (forall i: nat :: Blocks(s, w, i) ==> ReaderTurns(s, schedule, i) >= ReadWork(s.rpcs[i], s.chan.maxMsg))
    && (forall l :: 0 <= l < |s.leavers| && s.leavers[l].next <= s.wpcs[w].m ==>
          ReleaseTurns(schedule, l) >= ReleaseWork(s.leavers[l], s.wpcs[w].m))
  }

  lemma BitIsCleared(s: State, h: History, w: nat, schedule: seq<Action>, b: int)
    requires Waits(s, h, w) && CalmRun(s, w, schedule) && EnoughTurns(s, w, schedule)
    requires b in s.chan.slots[s.wpcs[w].m].bitmap
    ensures b !in BitsAfter(s, h, schedule, s.wpcs[w].m)
  {
    var m := s.wpcs[w].m;
    var onReader, k := WhoBlocks(s, h, w, b);
    if onReader {
      assert Blocks(s, w, k);
      ReaderClearsInTurn(s, h, w, m, k, b, schedule);
    } else {
      ReleaseClearsInTurn(s, h, w, m, k, b, schedule);
    }
  }

  /** A set bit is that of an online reader, or of a release that is still to clear it. */
  lemma WhoBlocks(s: State, h: History, w: nat, b: int) returns (onReader: bool, k: nat)
    requires Waits(s, h, w) && b in s.chan.slots[s.wpcs[w].m].bitmap
    ensures if onReader then HasBit(s, s.wpcs[w].m, k, b) else Leaves(s, s.wpcs[w].m, k, b)
  {
    SlotWithinMask(s, h, s.wpcs[w].m, b);
    if b in MemberBits(s.chan.readers, {}) {
      var i :| 0 <= i < |s.chan.readers| && Member(s.chan.readers[i], {}) && s.chan.readers[i].bit == b;
      onReader, k := true, i;
    } else {
      var l :| 0 <= l < |s.leavers| && s.leavers[l].next <= s.wpcs[w].m && s.leavers[l].bit == b;
      onReader, k := false, l;
    }
  }

  /** However the turns are ordered, and whatever the other writers do between them: once everybody who blocks the
      oldest waiting writer has had as many as it has steps left, the slot is free and the writer's next turn ends
      its wait. */
  lemma UnblocksInAnyOrder(s: State, h: History, w: nat, schedule: seq<Action>)
    requires Waits(s, h, w) && CalmRun(s, w, schedule) && EnoughTurns(s, w, schedule)
    ensures var f := Run(s, h, schedule).0;
      && w < |f.wpcs| && f.wpcs[w] == s.wpcs[w] && f.chan.slots[s.wpcs[w].m].bitmap == {}
      && WriterNext(f, w).wpcs[w].WReady?
  {
    CalmRunKeeps(s, h, w, schedule);
    var f, m := Run(s, h, schedule).0, s.wpcs[w].m;
    BitsShrink(s, h, w, schedule);
    forall b
      ensures b !in BitsAfter(s, h, schedule, m)
    {
      if b in s.chan.slots[m].bitmap {
        BitIsCleared(s, h, w, schedule, b);
      }
    }
    assert f.chan.slots[m].bitmap == BitsAfter(s, h, schedule, m) == {};
  }
}
