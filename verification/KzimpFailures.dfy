/** Each rule is needed: without it, a run from a fresh channel on which a reader's queue breaks. */
module KzimpFailures {
  import opened IntBits
  import opened KzimpAlone
  import opened KzimpChan
  import opened KzimpInvariant
  import opened KzimpProtocol
  import opened KzimpTheorems

  /** A fresh channel of n slots for messages of one byte. */
  function Start(n: nat, writers: nat): State { Fresh(n, 1, seq(n, _ => [0]), writers) }

  /** A run under the rules gets there. */
  ghost predicate At(rules: set<Rule>, n: nat, writers: nat, s: State, h: History) {
    && 0 < n && ReachesBy(rules, Start(n, writers), NoHistory(writers), s, h)
    && StateShape(s) && HistoryShape(s, h)
  }

  /** Under these rules some run from a fresh channel breaks a reader's queue. */
  ghost predicate Breaks(rules: set<Rule>) {
    exists n: nat, writers: nat, s, h :: At(rules, n, writers, s, h) && !QueuesOk(h)
  }

  lemma Begin(rules: set<Rule>, n: nat, writers: nat)
    requires 0 < n
    ensures At(rules, n, writers, Start(n, writers), NoHistory(writers))
  {
    Stays(rules, Start(n, writers), NoHistory(writers));
  }

  /** One step to a known state. */
  lemma Go(rules: set<Rule>, n: nat, writers: nat, s: State, h: History, a: Action, s1: State, h1: History)
    requires At(rules, n, writers, s, h) && AllowedBy(rules, s, a) && Step(s, a) == s1 && Track(h, s, a) == h1
    ensures At(rules, n, writers, s1, h1)
  {
    ThenStep(rules, Start(n, writers), NoHistory(writers), s, h, a);
  }

  /** No rule speaks of this step, and nothing of it is recorded. */
  predicate Plain(s: State, a: Action) {
    match a
    case OpenReader => false
    case CloseReader(_) => false
    case WriteCall(_, _) => false
    case WriterGivesUp(_) => false
    case WriterStep(w) => w < |s.wpcs| && !s.wpcs[w].WReady? && !s.wpcs[w].WLoaded?
    case ReaderStep(i) => i < |s.rpcs| && !s.rpcs[i].RFinishing?
    case LeaverStep(_) => s.lock.Free?
    case _ => true
  }

  lemma GoFreely(rules: set<Rule>, n: nat, writers: nat, s: State, h: History, a: Action, s1: State)
    requires At(rules, n, writers, s, h) && Plain(s, a) && Step(s, a) == s1
    ensures At(rules, n, writers, s1, h)
  {
    Go(rules, n, writers, s, h, a, s1, h);
  }

  /** A claim to a known state. */
  lemma GoClaim(rules: set<Rule>, n: nat, writers: nat, s: State, h: History, w: nat, msg: seq<Byte>, s1: State,
                h1: History)
    requires At(rules, n, writers, s, h) && Claims(s, w, msg)
    requires SlotsNotShared !in rules || SlotUnclaimed(s, s.chan.nextWrite)
    requires s1 == AtWriter(s.(chan := Claim(s.chan)), w, WWaiting(s.chan.nextWrite, msg))
    requires h1 == ClaimedRecord(h, w, msg)
    ensures At(rules, n, writers, s1, h1)
  {
    Go(rules, n, writers, s, h, WriteCall(w, msg), s1, h1);
  }

  lemma GoFar(rules: set<Rule>, n: nat, writers: nat, s: State, h: History, s1: State, h1: History)
    requires At(rules, n, writers, s, h) && ReachesBy(rules, s, h, s1, h1)
    ensures At(rules, n, writers, s1, h1)
  {
    Then(rules, Start(n, writers), NoHistory(writers), s, h, s1, h1);
    ReachedShape(rules, s, h, s1, h1);
  }

  /** A whole write to a known state. */
  lemma GoWrite(
    rules: set<Rule>, n: nat, writers: nat, s: State, h: History, w: nat, msg: seq<Byte>, c: Chan, h1: History)
    requires At(rules, n, writers, s, h) && Claims(s, w, msg) && s.chan.slots[s.chan.nextWrite].bitmap == {}
    requires SlotUnclaimed(s, s.chan.nextWrite) && SlotUnread(s, s.chan.nextWrite)
    requires WrittenAlone(s.chan, msg) == c && WrittenRecord(h, w, msg) == h1
    ensures At(rules, n, writers, s.(chan := c), h1)
  {
    WriteAlone(rules, s, h, w, msg);
    GoFar(rules, n, writers, s, h, s.(chan := c), h1);
  }

  /** The rest of a write past its wait, to a known state. */
  lemma GoPublish(rules: set<Rule>, n: nat, writers: nat, s: State, h: History, w: nat, s1: State, h1: History)
    requires At(rules, n, writers, s, h) && w < |s.wpcs| && s.wpcs[w].WReady? && s.lock.Free?
    requires SlotUnread(s, s.wpcs[w].m)
    requires s1 == AtWriter(
      s.(chan := Publish(Fill(s.chan, s.wpcs[w].m, s.wpcs[w].msg), s.wpcs[w].m, |s.wpcs[w].msg|)), w, WIdle)
    requires PublishedRecord(h, w) == h1
    ensures At(rules, n, writers, s1, h1)
  {
    FillAndPublishAlone(rules, s, h, w);
    GoFar(rules, n, writers, s, h, s1, h1);
  }

  /** A whole read, right or wrong, to a known state. */
  lemma GoRead(rules: set<Rule>, n: nat, writers: nat, s: State, h: History, i: nat, count: nat, c: Chan, x: Session)
    requires At(rules, n, writers, s, h) && i < |s.rpcs| && s.rpcs[i] == RIdle && s.lock.Free?
    requires s.chan.readers[i].online && ReaderCanRead(SlotOfReader(s, i).bitmap, s.chan.readers[i].bit)
    requires c == FinalizeRead(s.chan, i)
    requires x == Delivered(h.sessions[i], ReadOut(SlotOfReader(s, i), count), count)
    ensures At(rules, n, writers, s.(chan := c), h.(sessions := h.sessions[i := x]))
  {
    ReadAlone(rules, s, h, i, count);
    GoFar(rules, n, writers, s, h, s.(chan := c), h.(sessions := h.sessions[i := x]));
  }

  /** The last read of a correct session returned the message of its claim. */
  lemma LastRead(x: Session, claims: seq<seq<Byte>>, out: seq<Byte>, count: nat)
    requires SessionOk(Delivered(x, out, count), claims)
    ensures NextClaim(x) < |claims| && out == ReadOf(claims[NextClaim(x)], count)
  {
    var x' := Delivered(x, out, count);
    var k := |x.delivered|;
    assert |x.asked| == k;
    assert x'.delivered[k] == out && x'.asked[k] == count;
  }

  /** A reader about to read a message that is not its next one breaks its queue. */
  lemma WrongReadBreaks(rules: set<Rule>, n: nat, writers: nat, s: State, h: History, i: nat)
    requires At(rules, n, writers, s, h) && i < |s.rpcs| && s.rpcs[i] == RIdle && s.lock.Free?
    requires s.chan.readers[i].online && ReaderCanRead(SlotOfReader(s, i).bitmap, s.chan.readers[i].bit)
    requires var next := NextClaim(h.sessions[i]);
      next < |h.claims| ==> ReadOut(SlotOfReader(s, i), 1) != ReadOf(h.claims[next], 1)
    ensures Breaks(rules)
  {
    var out := ReadOut(SlotOfReader(s, i), 1);
    var x := Delivered(h.sessions[i], out, 1);
    GoRead(rules, n, writers, s, h, i, 1, FinalizeRead(s.chan, i), x);
    var h1 := h.(sessions := h.sessions[i := x]);
    if SessionOk(x, h.claims) {
      LastRead(h.sessions[i], h.claims, out, 1);
    }
    assert h1.sessions[i] == x && !SessionOk(x, h1.claims);
    assert !QueuesOk(h1);
  }

  // ----- Channels of one slot -----

  function OneSlot(mask: set<int>, bitmap: set<int>, len: nat, b: Byte, rs: seq<Ctrl>): Chan {
    Chan(1, mask, [Slot(bitmap, len, [b])], 0, rs)
  }

  lemma ReadsBit(bitmap: set<int>, bit: int)
    requires 0 <= bit < 32 && bit in bitmap
    ensures ReaderCanRead(bitmap, bit)
  {
    ReaderTestIsExact(bitmap, bit);
  }

  /** The first reader of a channel of one slot. */
  lemma OneReader(rules: set<Rule>, writers: nat)
    ensures At(rules, 1, writers,
               State(OneSlot({0}, {}, 0, 0, [Ctrl(0, 0, true)]), [RIdle], Idle(writers), Free, []),
               History([], [], seq(writers, _ => 0), [Begun(0)], []))
  {
    Begin(rules, 1, writers);
    var s, h := Start(1, writers), NoHistory(writers);
    assert s.chan.slots == [Slot({}, 0, [0])];
    assert {} + {0} == {0};
    Go(rules, 1, writers, s, h, OpenReader,
       State(OneSlot({0}, {}, 0, 0, [Ctrl(0, 0, true)]), [RIdle], Idle(writers), Free, []),
       History([], [], seq(writers, _ => 0), [Begun(0)], []));
  }

  function Begun(start: nat): Session { Session(start, [], []) }

  // ----- Claims that are not kept -----

  /** The writer of claim 0 gives up; the reader takes claim 1 for claim 0. */
  lemma GivingUpBreaks(rules: set<Rule>)
    requires ClaimsKept !in rules
    ensures Breaks(rules)
  {
    OneReader(rules, 1);
    assert Idle(1) == [WIdle] && seq(1, _ => 0) == [0];
    var s1 := State(OneSlot({0}, {}, 0, 0, [Ctrl(0, 0, true)]), [RIdle], [WIdle], Free, []);
    var h1 := History([], [], [0], [Begun(0)], []);
    var s2 := s1.(wpcs := [WWaiting(0, [1])]);
    var h2 := History([[1]], [false], [0], [Begun(0)], []);
    GoClaim(rules, 1, 1, s1, h1, 0, [1], s2, h2);
    Go(rules, 1, 1, s2, h2, WriterGivesUp(0), s1, h2);
    GivenUp(rules, s1, h2);
  }

  lemma GivenUp(rules: set<Rule>, s: State, h: History)
    requires s == State(OneSlot({0}, {}, 0, 0, [Ctrl(0, 0, true)]), [RIdle], [WIdle], Free, [])
    requires h == History([[1]], [false], [0], [Begun(0)], []) && At(rules, 1, 1, s, h)
    ensures Breaks(rules)
  {
    var c := OneSlot({0}, {0}, 1, 2, [Ctrl(0, 0, true)]);
    var h1 := History([[1], [2]], [false, true], [1], [Begun(0)], []);
    assert [2] + [0][1..] == [2];
    assert [false] + [false] == [false, false];
    GoWrite(rules, 1, 1, s, h, 0, [2], c, h1);
    GivenUpRead(rules, s.(chan := c), h1);
  }

  lemma GivenUpRead(rules: set<Rule>, s: State, h: History)
    requires s == State(OneSlot({0}, {0}, 1, 2, [Ctrl(0, 0, true)]), [RIdle], [WIdle], Free, [])
    requires h == History([[1], [2]], [false, true], [1], [Begun(0)], []) && At(rules, 1, 1, s, h)
    ensures Breaks(rules)
  {
    ReadsBit({0}, 0);
    assert ReadOut(Slot({0}, 1, [2]), 1) == [2] && ReadOf([1], 1) == [1];
    WrongReadBreaks(rules, 1, 1, s, h, 0);
  }

  // ----- Shared slots -----

  /** Two writes on the only slot: the reader takes claim 1 for claim 0. */
  lemma SharingBreaks(rules: set<Rule>)
    requires SlotsNotShared !in rules
    ensures Breaks(rules)
  {
    OneReader(rules, 2);
    assert Idle(2) == [WIdle, WIdle] && seq(2, _ => 0) == [0, 0];
    var s1 := State(OneSlot({0}, {}, 0, 0, [Ctrl(0, 0, true)]), [RIdle], [WIdle, WIdle], Free, []);
    var h1 := History([], [], [0, 0], [Begun(0)], []);
    var s2, h2 := s1.(wpcs := [WWaiting(0, [1]), WIdle]), History([[1]], [false], [0, 0], [Begun(0)], []);
    GoClaim(rules, 1, 2, s1, h1, 0, [1], s2, h2);
    var s3 := s1.(wpcs := [WWaiting(0, [1]), WWaiting(0, [2])]);
    var h3 := History([[1], [2]], [false, false], [0, 1], [Begun(0)], []);
    GoClaim(rules, 1, 2, s2, h2, 1, [2], s3, h3);
    Shared(rules, s3, h3);
  }

  lemma Shared(rules: set<Rule>, s: State, h: History)
    requires s.chan == OneSlot({0}, {}, 0, 0, [Ctrl(0, 0, true)])
    requires s == State(s.chan, [RIdle], [WWaiting(0, [1]), WWaiting(0, [2])], Free, [])
    requires h == History([[1], [2]], [false, false], [0, 1], [Begun(0)], []) && At(rules, 1, 2, s, h)
    ensures Breaks(rules)
  {
    var s1 := s.(wpcs := [WReady(0, [1]), WWaiting(0, [2])]);
    GoFreely(rules, 1, 2, s, h, WriterStep(0), s1);
    var s2 := s.(wpcs := [WReady(0, [1]), WReady(0, [2])]);
    GoFreely(rules, 1, 2, s1, h, WriterStep(1), s2);
    SharedStores(rules, s2, h);
  }

  lemma SharedStores(rules: set<Rule>, s: State, h: History)
    requires s.chan == OneSlot({0}, {}, 0, 0, [Ctrl(0, 0, true)])
    requires s == State(s.chan, [RIdle], [WReady(0, [1]), WReady(0, [2])], Free, [])
    requires h == History([[1], [2]], [false, false], [0, 1], [Begun(0)], []) && At(rules, 1, 2, s, h)
    ensures Breaks(rules)
  {
    assert [1] + [0][1..] == [1] && [2] + [1][1..] == [2];
    var s1 := s.(chan := OneSlot({0}, {0}, 1, 1, [Ctrl(0, 0, true)]), wpcs := [WIdle, WReady(0, [2])]);
    var h1 := h.(published := [true, false]);
    GoPublish(rules, 1, 2, s, h, 0, s1, h1);
    var s2 := s.(chan := OneSlot({0}, {0}, 1, 2, [Ctrl(0, 0, true)]), wpcs := [WIdle, WIdle]);
    var h2 := h.(published := [true, true]);
    GoPublish(rules, 1, 2, s1, h1, 1, s2, h2);
    SharedRead(rules, s2, h2);
  }

  lemma SharedRead(rules: set<Rule>, s: State, h: History)
    requires s == State(OneSlot({0}, {0}, 1, 2, [Ctrl(0, 0, true)]), [RIdle], [WIdle, WIdle], Free, [])
    requires h == History([[1], [2]], [true, true], [0, 1], [Begun(0)], []) && At(rules, 1, 2, s, h)
    ensures Breaks(rules)
  {
    ReadsBit({0}, 0);
    assert ReadOut(Slot({0}, 1, [2]), 1) == [2] && ReadOf([1], 1) == [1];
    WrongReadBreaks(rules, 1, 2, s, h, 0);
  }

  // ----- Opening during a write -----

  /** A reader that opens while claim 0 is under way takes it for claim 1. */
  lemma OpeningBreaks(rules: set<Rule>)
    requires OpensWithoutWrites !in rules
    ensures Breaks(rules)
  {
    Begin(rules, 1, 1);
    var s, h := Start(1, 1), NoHistory(1);
    assert Idle(1) == [WIdle] && seq(1, _ => 0) == [0] && s.chan == OneSlot({}, {}, 0, 0, []);
    var s1 := State(OneSlot({}, {}, 0, 0, []), [], [WWaiting(0, [1])], Free, []);
    var h1 := History([[1]], [false], [0], [], []);
    GoClaim(rules, 1, 1, s, h, 0, [1], s1, h1);
    OpeningClaimed(rules, s1, h1);
  }

  lemma OpeningClaimed(rules: set<Rule>, s: State, h: History)
    requires OpensWithoutWrites !in rules && At(rules, 1, 1, s, h)
    requires s == State(OneSlot({}, {}, 0, 0, []), [], [WWaiting(0, [1])], Free, [])
    requires h == History([[1]], [false], [0], [], [])
    ensures Breaks(rules)
  {
    assert {} + {0} == {0};
    var s1 := State(OneSlot({0}, {}, 0, 0, [Ctrl(0, 0, true)]), [RIdle], s.wpcs, Free, []);
    Go(rules, 1, 1, s, h, OpenReader, s1, h.(sessions := [Begun(1)]));
    Opened(rules, s1, h.(sessions := [Begun(1)]));
  }

  lemma Opened(rules: set<Rule>, s: State, h: History)
    requires s == State(OneSlot({0}, {}, 0, 0, [Ctrl(0, 0, true)]), [RIdle], [WWaiting(0, [1])], Free, [])
    requires h == History([[1]], [false], [0], [Begun(1)], []) && At(rules, 1, 1, s, h)
    ensures Breaks(rules)
  {
    var s1 := s.(wpcs := [WReady(0, [1])]);
    GoFreely(rules, 1, 1, s, h, WriterStep(0), s1);
    assert [1] + [0][1..] == [1];
    var s2 := s.(chan := OneSlot({0}, {0}, 1, 1, [Ctrl(0, 0, true)]), wpcs := [WIdle]);
    GoPublish(rules, 1, 1, s1, h, 0, s2, h.(published := [true]));
    ReadsBit({0}, 0);
    WrongReadBreaks(rules, 1, 1, s2, h.(published := [true]), 0);
  }

  // ----- A bit that cannot be tested -----

  /** The channel with k readers, who have read nothing. */
  function Many(k: nat, bitmap: set<int>, len: nat, b: Byte): State {
    State(OneSlot(FirstBits(k), bitmap, len, b, seq(k, i requires i >= 0 => Ctrl(0, i, true))), seq(k, _ => RIdle),
          [WIdle], Free, [])
  }

  function FirstBits(k: nat): set<int> { set b | 0 <= b < k && IsPosition(b) }

  lemma NextOfFirstBits(k: nat)
    requires k < NR_BITS
    ensures NewBit(FirstBits(k)) == k
  {
    var b := FirstZero(FirstBits(k), 0);
    if b < k {
      assert IsPosition(b);
    }
    assert k !in FirstBits(k);
  }

  lemma OneMoreReader(rules: set<Rule>, k: nat)
    requires BitsTestable !in rules && k < NR_BITS
    ensures AllowedBy(rules, Many(k, {}, 0, 0), OpenReader)
    ensures Step(Many(k, {}, 0, 0), OpenReader) == Many(k + 1, {}, 0, 0)
  {
    NextOfFirstBits(k);
    assert FirstBits(k) + {k} == FirstBits(k + 1);
  }

  /** Opened one after another, the first readers get the first bits. */
  lemma {:induction false} ManyReaders(rules: set<Rule>, k: nat)
    requires BitsTestable !in rules && k <= NR_BITS
    ensures At(rules, 1, 1, Many(k, {}, 0, 0), History([], [], [0], seq(k, _ => Begun(0)), []))
  {
    if k == 0 {
      Begin(rules, 1, 1);
      assert Start(1, 1) == Many(0, {}, 0, 0) && NoHistory(1) == History([], [], [0], [], []);
    } else {
      ManyReaders(rules, k - 1);
      OneMoreReader(rules, k - 1);
      var s, h := Many(k - 1, {}, 0, 0), History([], [], [0], seq(k - 1, _ => Begun(0)), []);
      Go(rules, 1, 1, s, h, OpenReader, Many(k, {}, 0, 0), History([], [], [0], seq(k, _ => Begun(0)), []));
    }
  }

  /** The test of bit 32 is on bit 0: the reader that has it takes claim 0 twice. */
  lemma TestingBreaks(rules: set<Rule>)
    requires BitsTestable !in rules
    ensures Breaks(rules)
  {
    ManyReaders(rules, 33);
    var s, h := Many(33, {}, 0, 0), History([], [], [0], seq(33, _ => Begun(0)), []);
    var s1, h1 := Many(33, FirstBits(33), 1, 1), History([[1]], [true], [0], seq(33, _ => Begun(0)), []);
    assert [1] + [0][1..] == [1];
    GoWrite(rules, 1, 1, s, h, 0, [1], s1.chan, h1);
    TestedTwice(rules, s1, h1);
  }

  lemma ReadsLowBit(bitmap: set<int>)
    requires 0 in bitmap
    ensures ReaderCanRead(bitmap, 32)
  {
    assert 0 in Truncated(bitmap * SignExtended(IntShift(32)));
  }

  lemma TestedTwice(rules: set<Rule>, s: State, h: History)
    requires s == Many(33, FirstBits(33), 1, 1) && At(rules, 1, 1, s, h)
    requires h == History([[1]], [true], [0], seq(33, _ => Begun(0)), [])
    ensures Breaks(rules)
  {
    ReadsLowBit(FirstBits(33));
    ReadsLowBit(FirstBits(33) - {32});
    var x := Delivered(Begun(0), [1], 1);
    var s1, h1 := s.(chan := FinalizeRead(s.chan, 32)), h.(sessions := h.sessions[32 := x]);
    assert ReadOut(SlotOfReader(s, 32), 1) == [1];
    GoRead(rules, 1, 1, s, h, 32, 1, s1.chan, x);
    WrongReadBreaks(rules, 1, 1, s1, h1, 32);
  }

  // ----- A bit that a release still clears -----

  /** The release of one reader erases the next one's bit; it takes claim 1 for claim 0. */
  lemma LeavingBreaks(rules: set<Rule>)
    requires BitsNotLeft !in rules
    ensures Breaks(rules)
  {
    OneReader(rules, 1);
    assert Idle(1) == [WIdle] && seq(1, _ => 0) == [0] && {0} - {0} == {};
    var s := State(OneSlot({0}, {}, 0, 0, [Ctrl(0, 0, true)]), [RIdle], [WIdle], Free, []);
    var h := History([], [], [0], [Begun(0)], []);
    var s1 := State(OneSlot({}, {}, 0, 0, []), [], [WIdle], Free, [Leaver(0, 0)]);
    var h1 := History([], [], [0], [], [Begun(0)]);
    Go(rules, 1, 1, s, h, CloseReader(0), s1, h1);
    LeavingOpens(rules, s1, h1);
  }

  lemma LeavingOpens(rules: set<Rule>, s: State, h: History)
    requires BitsNotLeft !in rules && At(rules, 1, 1, s, h)
    requires s == State(OneSlot({}, {}, 0, 0, []), [], [WIdle], Free, [Leaver(0, 0)])
    requires h == History([], [], [0], [], [Begun(0)])
    ensures Breaks(rules)
  {
    assert {} + {0} == {0};
    var s1 := State(OneSlot({0}, {}, 0, 0, [Ctrl(0, 0, true)]), [RIdle], [WIdle], Free, [Leaver(0, 0)]);
    Go(rules, 1, 1, s, h, OpenReader, s1, h.(sessions := [Begun(0)]));
    Left(rules, s1, h.(sessions := [Begun(0)]));
  }

  lemma Left(rules: set<Rule>, s: State, h: History)
    requires s.chan == OneSlot({0}, {}, 0, 0, [Ctrl(0, 0, true)])
    requires s == State(s.chan, [RIdle], [WIdle], Free, [Leaver(0, 0)])
    requires h == History([], [], [0], [Begun(0)], [Begun(0)]) && At(rules, 1, 1, s, h)
    ensures Breaks(rules)
  {
    assert [1] + [0][1..] == [1];
    var c1 := OneSlot({0}, {0}, 1, 1, [Ctrl(0, 0, true)]);
    var h1 := History([[1]], [true], [0], [Begun(0)], [Begun(0)]);
    GoWrite(rules, 1, 1, s, h, 0, [1], c1, h1);
    LeftWritten(rules, s.(chan := c1), h1);
  }

  lemma LeftWritten(rules: set<Rule>, s: State, h: History)
    requires s.chan == OneSlot({0}, {0}, 1, 1, [Ctrl(0, 0, true)])
    requires s == State(s.chan, [RIdle], [WIdle], Free, [Leaver(0, 0)])
    requires h == History([[1]], [true], [0], [Begun(0)], [Begun(0)]) && At(rules, 1, 1, s, h)
    ensures Breaks(rules)
  {
    assert {0} - {0} == {};
    var s1 := s.(chan := OneSlot({0}, {}, 1, 1, [Ctrl(0, 0, true)]), leavers := [Leaver(0, 1)]);
    GoFreely(rules, 1, 1, s, h, LeaverStep(0), s1);
    Erased(rules, s1, h);
  }

  lemma Erased(rules: set<Rule>, s: State, h: History)
    requires s.chan == OneSlot({0}, {}, 1, 1, [Ctrl(0, 0, true)])
    requires s == State(s.chan, [RIdle], [WIdle], Free, [Leaver(0, 1)])
    requires h == History([[1]], [true], [0], [Begun(0)], [Begun(0)]) && At(rules, 1, 1, s, h)
    ensures Breaks(rules)
  {
    assert [2] + [1][1..] == [2] && [true] + [false] == [true, false];
    var c := OneSlot({0}, {0}, 1, 2, [Ctrl(0, 0, true)]);
    var h1 := History([[1], [2]], [true, true], [1], [Begun(0)], [Begun(0)]);
    GoWrite(rules, 1, 1, s, h, 0, [2], c, h1);
    ErasedRead(rules, s.(chan := c), h1);
  }

  lemma ErasedRead(rules: set<Rule>, s: State, h: History)
    requires At(rules, 1, 1, s, h) && s.chan == OneSlot({0}, {0}, 1, 2, [Ctrl(0, 0, true)])
    requires s == State(s.chan, [RIdle], [WIdle], Free, [Leaver(0, 1)])
    requires h == History([[1], [2]], [true, true], [1], [Begun(0)], [Begun(0)])
    ensures Breaks(rules)
  {
    ReadsBit({0}, 0);
    assert ReadOut(Slot({0}, 1, [2]), 1) == [2] && ReadOf([1], 1) == [1];
    WrongReadBreaks(rules, 1, 1, s, h, 0);
  }

  // ----- A stale mask -----

  /** A write loads the mask, its reader is released, and then it stores the mask: the next reader takes its
      message, claim 0, for claim 1. */
  lemma StaleMaskBreaks(rules: set<Rule>)
    requires StoresOfCurrentMasks !in rules
    ensures Breaks(rules)
  {
    OneReader(rules, 1);
    assert Idle(1) == [WIdle] && seq(1, _ => 0) == [0];
    var s := State(OneSlot({0}, {}, 0, 0, [Ctrl(0, 0, true)]), [RIdle], [WIdle], Free, []);
    var h := History([], [], [0], [Begun(0)], []);
    var s1, h1 := s.(wpcs := [WWaiting(0, [1])]), History([[1]], [false], [0], [Begun(0)], []);
    GoClaim(rules, 1, 1, s, h, 0, [1], s1, h1);
    var s2 := s.(wpcs := [WReady(0, [1])]);
    GoFreely(rules, 1, 1, s1, h1, WriterStep(0), s2);
    StaleFill(rules, s2, h1);
  }

  lemma StaleFill(rules: set<Rule>, s: State, h: History)
    requires s.chan == OneSlot({0}, {}, 0, 0, [Ctrl(0, 0, true)])
    requires s == State(s.chan, [RIdle], [WReady(0, [1])], Free, [])
    requires h == History([[1]], [false], [0], [Begun(0)], []) && At(rules, 1, 1, s, h)
    requires StoresOfCurrentMasks !in rules
    ensures Breaks(rules)
  {
    assert [0][0 := 1] == [1];
    var s1 := s.(chan := OneSlot({0}, {}, 0, 1, [Ctrl(0, 0, true)]), wpcs := [WFilling(0, [1], 1)]);
    Go(rules, 1, 1, s, h, WriterStep(0), s1, h);
    var c := OneSlot({0}, {}, 1, 1, [Ctrl(0, 0, true)]);
    var s2 := s.(chan := c, wpcs := [WPublishing(0, [1])]);
    GoFreely(rules, 1, 1, s1, h, WriterStep(0), s2);
    var s3 := s.(chan := c, wpcs := [WLoaded(0, [1], {0})]);
    GoFreely(rules, 1, 1, s2, h, WriterStep(0), s3);
    StaleRelease(rules, s3, h);
  }

  lemma StaleRelease(rules: set<Rule>, s: State, h: History)
    requires s.chan == OneSlot({0}, {}, 1, 1, [Ctrl(0, 0, true)])
    requires s == State(s.chan, [RIdle], [WLoaded(0, [1], {0})], Free, [])
    requires h == History([[1]], [false], [0], [Begun(0)], []) && At(rules, 1, 1, s, h)
    requires StoresOfCurrentMasks !in rules
    ensures Breaks(rules)
  {
    assert {0} - {0} == {};
    var h1 := History([[1]], [false], [0], [], [Begun(0)]);
    var s1 := State(OneSlot({}, {}, 1, 1, []), [], s.wpcs, Free, [Leaver(0, 0)]);
    Go(rules, 1, 1, s, h, CloseReader(0), s1, h1);
    StaleLeaves(rules, s1, h1);
  }

  lemma StaleLeaves(rules: set<Rule>, s: State, h: History)
    requires s == State(OneSlot({}, {}, 1, 1, []), [], [WLoaded(0, [1], {0})], Free, [Leaver(0, 0)])
    requires h == History([[1]], [false], [0], [], [Begun(0)]) && At(rules, 1, 1, s, h)
    requires StoresOfCurrentMasks !in rules
    ensures Breaks(rules)
  {
    assert {} - {0} == {};
    var s1 := s.(leavers := [Leaver(0, 1)]);
    GoFreely(rules, 1, 1, s, h, LeaverStep(0), s1);
    StaleStore(rules, s1, h);
  }

  lemma StaleStore(rules: set<Rule>, s: State, h: History)
    requires s == State(OneSlot({}, {}, 1, 1, []), [], [WLoaded(0, [1], {0})], Free, [Leaver(0, 1)])
    requires h == History([[1]], [false], [0], [], [Begun(0)]) && At(rules, 1, 1, s, h)
    requires StoresOfCurrentMasks !in rules
    ensures Breaks(rules)
  {
    var s1 := s.(chan := OneSlot({}, {0}, 1, 1, []), wpcs := [WIdle]);
    Go(rules, 1, 1, s, h, WriterStep(0), s1, h.(published := [true]));
    StaleOpen(rules, s1, h.(published := [true]));
  }

  lemma StaleOpen(rules: set<Rule>, s: State, h: History)
    requires s == State(OneSlot({}, {0}, 1, 1, []), [], [WIdle], Free, [Leaver(0, 1)])
    requires h == History([[1]], [true], [0], [], [Begun(0)]) && At(rules, 1, 1, s, h)
    ensures Breaks(rules)
  {
    assert {} + {0} == {0};
    var s1 := s.(chan := OneSlot({0}, {0}, 1, 1, [Ctrl(0, 0, true)]), rpcs := [RIdle]);
    Go(rules, 1, 1, s, h, OpenReader, s1, h.(sessions := [Begun(1)]));
    ReadsBit({0}, 0);
    WrongReadBreaks(rules, 1, 1, s1, h.(sessions := [Begun(1)]), 0);
  }

  // ----- A bit that is still listed -----

  /** An expelled reader's bit goes to a new reader; the release of the first takes it from the mask, and a third
      reader brings it back. The second has missed claim 2, and takes claim 3 for it. */
  lemma RelistingBreaks(rules: set<Rule>)
    requires BitsNotListed !in rules
    ensures Breaks(rules)
  {
    OneReader(rules, 1);
    assert Idle(1) == [WIdle] && seq(1, _ => 0) == [0] && [1] + [0][1..] == [1];
    var s := State(OneSlot({0}, {}, 0, 0, [Ctrl(0, 0, true)]), [RIdle], [WIdle], Free, []);
    var c1, h1 := OneSlot({0}, {0}, 1, 1, [Ctrl(0, 0, true)]), History([[1]], [true], [0], [Begun(0)], []);
    GoWrite(rules, 1, 1, s, History([], [], [0], [Begun(0)], []), 0, [1], c1, h1);
    Recaptured(rules, s.(chan := c1), h1);
  }

  lemma Recaptured(rules: set<Rule>, s: State, h: History)
    requires BitsNotListed !in rules && At(rules, 1, 1, s, h)
    requires s == State(OneSlot({0}, {0}, 1, 1, [Ctrl(0, 0, true)]), [RIdle], [WIdle], Free, [])
    requires h == History([[1]], [true], [0], [Begun(0)], [])
    ensures Breaks(rules)
  {
    var s2 := s.(wpcs := [WWaiting(0, [2])]);
    var h2 := History([[1], [2]], [true, false], [1], [Begun(0)], []);
    GoClaim(rules, 1, 1, s, h, 0, [2], s2, h2);
    var s3 := s2.(wpcs := [WCaptured(0, [2], {0})]);
    GoFreely(rules, 1, 1, s2, h2, Timeout(0), s3);
    Relisted(rules, s3, h2);
  }

  lemma Relisted(rules: set<Rule>, s: State, h: History)
    requires BitsNotListed !in rules && At(rules, 1, 1, s, h)
    requires s.chan == OneSlot({0}, {0}, 1, 1, [Ctrl(0, 0, true)])
    requires s == State(s.chan, [RIdle], [WCaptured(0, [2], {0})], Free, [])
    requires h == History([[1], [2]], [true, false], [1], [Begun(0)], [])
    ensures Breaks(rules)
  {
    ReadsBit({0}, 0);
    assert {0} - {0} == {} && [2] + [1][1..] == [2];
    var s1 := s.(chan := OneSlot({}, {}, 1, 1, [Ctrl(0, 0, false)]), wpcs := [WReady(0, [2])]);
    TimeoutAlone(rules, s, h, 0);
    assert Expel(s.chan, {0}).slots == s1.chan.slots && Expel(s.chan, {0}).readers == s1.chan.readers;
    assert AtWriter(s.(chan := Expel(s.chan, {0})), 0, WReady(0, [2])) == s1;
    GoFar(rules, 1, 1, s, h, s1, h);
    var s2 := s.(chan := OneSlot({}, {}, 1, 2, [Ctrl(0, 0, false)]), wpcs := [WIdle]);
    GoPublish(rules, 1, 1, s1, h, 0, s2, h.(published := [true, true]));
    RelistedOpen(rules, s2, h.(published := [true, true]));
  }

  lemma RelistedOpen(rules: set<Rule>, s: State, h: History)
    requires BitsNotListed !in rules && At(rules, 1, 1, s, h)
    requires s == State(OneSlot({}, {}, 1, 2, [Ctrl(0, 0, false)]), [RIdle], [WIdle], Free, [])
    requires h == History([[1], [2]], [true, true], [1], [Begun(0)], [])
    ensures Breaks(rules)
  {
    assert {} + {0} == {0};
    var s1 := s.(chan := OneSlot({0}, {}, 1, 2, [Ctrl(0, 0, false), Ctrl(0, 0, true)]), rpcs := [RIdle, RIdle]);
    var h1 := h.(sessions := [Begun(0), Begun(2)]);
    Go(rules, 1, 1, s, h, OpenReader, s1, h1);
    RelistedRelease(rules, s1, h1);
  }

  lemma RelistedRelease(rules: set<Rule>, s: State, h: History)
    requires BitsNotListed !in rules && At(rules, 1, 1, s, h)
    requires s.chan == OneSlot({0}, {}, 1, 2, [Ctrl(0, 0, false), Ctrl(0, 0, true)])
    requires s == State(s.chan, [RIdle, RIdle], [WIdle], Free, [])
    requires h == History([[1], [2]], [true, true], [1], [Begun(0), Begun(2)], [])
    ensures Breaks(rules)
  {
    assert {0} - {0} == {} && {} - {0} == {};
    ReleaseAlone(rules, s, h, 0);
    var s1 := State(OneSlot({}, {}, 1, 2, [Ctrl(0, 0, true)]), [RIdle], [WIdle], Free, [Leaver(0, 1)]);
    assert Release(s.chan, 0).slots == s1.chan.slots && Release(s.chan, 0).readers == s1.chan.readers;
    var h1 := h.(sessions := [Begun(2)], closed := [Begun(0)]);
    assert Removed(s.rpcs, 0) == [RIdle] && Removed(h.sessions, 0) == [Begun(2)];
    assert h.closed + [h.sessions[0]] == [Begun(0)] && s.leavers + [Leaver(0, 1)] == [Leaver(0, 1)];
    GoFar(rules, 1, 1, s, h, s1, h1);
    RelistedWrites(rules, s1, h1);
  }

  lemma RelistedWrites(rules: set<Rule>, s: State, h: History)
    requires BitsNotListed !in rules && At(rules, 1, 1, s, h)
    requires s == State(OneSlot({}, {}, 1, 2, [Ctrl(0, 0, true)]), [RIdle], [WIdle], Free, [Leaver(0, 1)])
    requires h == History([[1], [2]], [true, true], [1], [Begun(2)], [Begun(0)])
    ensures Breaks(rules)
  {
    assert [3] + [2][1..] == [3] && {} + {0} == {0};
    var c1 := OneSlot({}, {}, 1, 3, [Ctrl(0, 0, true)]);
    var h1 := History([[1], [2], [3]], [true, true, true], [2], [Begun(2)], [Begun(0)]);
    GoWrite(rules, 1, 1, s, h, 0, [3], c1, h1);
    var s2 := s.(chan := OneSlot({0}, {}, 1, 3, [Ctrl(0, 0, true), Ctrl(0, 0, true)]), rpcs := [RIdle, RIdle]);
    var h2 := h1.(sessions := [Begun(2), Begun(3)]);
    Go(rules, 1, 1, s.(chan := c1), h1, OpenReader, s2, h2);
    RelistedRead(rules, s2, h2);
  }

  lemma RelistedRead(rules: set<Rule>, s: State, h: History)
    requires At(rules, 1, 1, s, h)
    requires s.chan == OneSlot({0}, {}, 1, 3, [Ctrl(0, 0, true), Ctrl(0, 0, true)])
    requires s == State(s.chan, [RIdle, RIdle], [WIdle], Free, [Leaver(0, 1)])
    requires h == History([[1], [2], [3]], [true, true, true], [2], [Begun(2), Begun(3)], [Begun(0)])
    ensures Breaks(rules)
  {
    assert [4] + [3][1..] == [4];
    var c := OneSlot({0}, {0}, 1, 4, [Ctrl(0, 0, true), Ctrl(0, 0, true)]);
    var h1 := History([[1], [2], [3], [4]], [true, true, true, true], [3], [Begun(2), Begun(3)], [Begun(0)]);
    GoWrite(rules, 1, 1, s, h, 0, [4], c, h1);
    RelistedWrong(rules, s.(chan := c), h1);
  }

  lemma RelistedWrong(rules: set<Rule>, s: State, h: History)
    requires At(rules, 1, 1, s, h)
    requires s.chan == OneSlot({0}, {0}, 1, 4, [Ctrl(0, 0, true), Ctrl(0, 0, true)])
    requires s == State(s.chan, [RIdle, RIdle], [WIdle], Free, [Leaver(0, 1)])
    requires h == History([[1], [2], [3], [4]], [true, true, true, true], [3], [Begun(2), Begun(3)], [Begun(0)])
    ensures Breaks(rules)
  {
    ReadsBit({0}, 0);
    assert ReadOut(Slot({0}, 1, [4]), 1) == [4] && ReadOf([3], 1) == [3];
    WrongReadBreaks(rules, 1, 1, s, h, 0);
  }

  // ----- Channels of two slots -----

  function TwoSlots(mask: set<int>, a: set<int>, x: Byte, b: set<int>, y: Byte, next: nat, rs: seq<Ctrl>): Chan {
    Chan(1, mask, [Slot(a, 1, [x]), Slot(b, 1, [y])], next, rs)
  }

  function Filled(mask: set<int>, rs: seq<Ctrl>): Chan { TwoSlots(mask, mask, 1, mask, 2, 0, rs) }

  function TwoClaims(xs: seq<Session>): History { History([[1], [2]], [true, true], [1, 0], xs, []) }

  /** Two messages published to all the readers that have opened. */
  lemma FilledUp(rules: set<Rule>, mask: set<int>, rs: seq<Ctrl>, rpcs: seq<ReaderPc>, xs: seq<Session>)
    requires |rpcs| == |rs| == |xs| && forall i :: 0 <= i < |rpcs| ==> rpcs[i] == RIdle
    requires At(rules, 2, 2,
                State(Chan(1, mask, [Slot({}, 0, [0]), Slot({}, 0, [0])], 0, rs), rpcs, [WIdle, WIdle], Free, []),
                History([], [], [0, 0], xs, []))
    ensures At(rules, 2, 2, State(Filled(mask, rs), rpcs, [WIdle, WIdle], Free, []), TwoClaims(xs))
  {
    var s := State(Chan(1, mask, [Slot({}, 0, [0]), Slot({}, 0, [0])], 0, rs), rpcs, [WIdle, WIdle], Free, []);
    assert [1] + [0][1..] == [1];
    var c1 := Chan(1, mask, [Slot(mask, 1, [1]), Slot({}, 0, [0])], 1, rs);
    var h1 := History([[1]], [true], [0, 0], xs, []);
    GoWrite(rules, 2, 2, s, History([], [], [0, 0], xs, []), 0, [1], c1, h1);
    FilledSecond(rules, mask, rs, rpcs, xs, s.(chan := c1), h1);
  }

  lemma FilledSecond(
    rules: set<Rule>, mask: set<int>, rs: seq<Ctrl>, rpcs: seq<ReaderPc>, xs: seq<Session>, s: State, h: History)
    requires forall i :: 0 <= i < |rpcs| ==> rpcs[i] == RIdle
    requires s.chan == Chan(1, mask, [Slot(mask, 1, [1]), Slot({}, 0, [0])], 1, rs)
    requires s == State(s.chan, rpcs, [WIdle, WIdle], Free, []) && h == History([[1]], [true], [0, 0], xs, [])
    requires At(rules, 2, 2, s, h)
    ensures At(rules, 2, 2, State(Filled(mask, rs), rpcs, [WIdle, WIdle], Free, []), TwoClaims(xs))
  {
    assert [2] + [0][1..] == [2] && [true] + [false] == [true, false];
    GoWrite(rules, 2, 2, s, h, 0, [2], Filled(mask, rs), TwoClaims(xs));
  }

  /** One reader, with bit 0, who has read nothing. */
  lemma FilledForOne(rules: set<Rule>)
    ensures At(rules, 2, 2, State(Filled({0}, [Ctrl(0, 0, true)]), [RIdle], [WIdle, WIdle], Free, []),
               TwoClaims([Begun(0)]))
  {
    Begin(rules, 2, 2);
    var s, h := Start(2, 2), NoHistory(2);
    assert Idle(2) == [WIdle, WIdle] && seq(2, _ => 0) == [0, 0] && {} + {0} == {0};
    var c := Chan(1, {0}, [Slot({}, 0, [0]), Slot({}, 0, [0])], 0, [Ctrl(0, 0, true)]);
    assert s.chan.slots == c.slots;
    var s1 := State(c, [RIdle], [WIdle, WIdle], Free, []);
    Go(rules, 2, 2, s, h, OpenReader, s1, History([], [], [0, 0], [Begun(0)], []));
    FilledUp(rules, {0}, [Ctrl(0, 0, true)], [RIdle], [Begun(0)]);
  }

  /** Two readers, with bits 0 and 1. */
  lemma FilledForTwo(rules: set<Rule>)
    ensures At(rules, 2, 2,
               State(Filled({0, 1}, [Ctrl(0, 0, true), Ctrl(0, 1, true)]), [RIdle, RIdle], [WIdle, WIdle], Free, []),
               TwoClaims([Begun(0), Begun(0)]))
  {
    Begin(rules, 2, 2);
    var s, h := Start(2, 2), NoHistory(2);
    assert Idle(2) == [WIdle, WIdle] && seq(2, _ => 0) == [0, 0] && {} + {0} == {0} && {0} + {1} == {0, 1};
    var c := Chan(1, {0}, [Slot({}, 0, [0]), Slot({}, 0, [0])], 0, [Ctrl(0, 0, true)]);
    assert s.chan.slots == c.slots;
    var s1 := State(c, [RIdle], [WIdle, WIdle], Free, []);
    var h1 := History([], [], [0, 0], [Begun(0)], []);
    Go(rules, 2, 2, s, h, OpenReader, s1, h1);
    SecondReader(rules, s1, h1);
  }

  lemma SecondReader(rules: set<Rule>, s: State, h: History)
    requires s.chan == Chan(1, {0}, [Slot({}, 0, [0]), Slot({}, 0, [0])], 0, [Ctrl(0, 0, true)])
    requires s == State(s.chan, [RIdle], [WIdle, WIdle], Free, []) && h == History([], [], [0, 0], [Begun(0)], [])
    requires At(rules, 2, 2, s, h)
    ensures At(rules, 2, 2,
               State(Filled({0, 1}, [Ctrl(0, 0, true), Ctrl(0, 1, true)]), [RIdle, RIdle], [WIdle, WIdle], Free, []),
               TwoClaims([Begun(0), Begun(0)]))
  {
    assert {0} + {1} == {0, 1};
    var rs := [Ctrl(0, 0, true), Ctrl(0, 1, true)];
    var s1 := State(Chan(1, {0, 1}, s.chan.slots, 0, rs), [RIdle, RIdle], [WIdle, WIdle], Free, []);
    Go(rules, 2, 2, s, h, OpenReader, s1, History([], [], [0, 0], [Begun(0), Begun(0)], []));
    FilledUp(rules, {0, 1}, rs, [RIdle, RIdle], [Begun(0), Begun(0)]);
  }

  // ----- Filling a slot that is being copied -----

  /** The copying reader is captured by the timeout of another slot's writer, and its slot is cleared and filled
      before the timeout marks it offline: it delivers claim 2 as claim 0. */
  lemma FillingBreaks(rules: set<Rule>)
    requires FillsAwayFromReaders !in rules
    ensures Breaks(rules)
  {
    FilledForOne(rules);
    var s, h := State(Filled({0}, [Ctrl(0, 0, true)]), [RIdle], [WIdle, WIdle], Free, []), TwoClaims([Begun(0)]);
    ReadsBit({0}, 0);
    GoFreely(rules, 2, 2, s, h, ReadCall(0, 1), s.(rpcs := [RWaiting(1)]));
    GoFreely(rules, 2, 2, s.(rpcs := [RWaiting(1)]), h, ReaderStep(0), s.(rpcs := [RReading(1)]));
    var s1 := s.(rpcs := [RReading(1)]);
    var s2 := s1.(chan := TwoSlots({0}, {0}, 1, {0}, 2, 1, [Ctrl(0, 0, true)]), wpcs := [WWaiting(0, [3]), WIdle]);
    var h2 := History([[1], [2], [3]], [true, true, false], [2, 0], [Begun(0)], []);
    GoClaim(rules, 2, 2, s1, h, 0, [3], s2, h2);
    FillingCaptured(rules, s2, h2);
  }

  lemma FillingCaptured(rules: set<Rule>, s: State, h: History)
    requires FillsAwayFromReaders !in rules && At(rules, 2, 2, s, h)
    requires s.chan == TwoSlots({0}, {0}, 1, {0}, 2, 1, [Ctrl(0, 0, true)])
    requires s == State(s.chan, [RReading(1)], [WWaiting(0, [3]), WIdle], Free, [])
    requires h == History([[1], [2], [3]], [true, true, false], [2, 0], [Begun(0)], [])
    ensures Breaks(rules)
  {
    var c := TwoSlots({0}, {0}, 1, {0}, 2, 0, [Ctrl(0, 0, true)]);
    var s1 := s.(chan := c, wpcs := [WWaiting(0, [3]), WWaiting(1, [4])]);
    var h1 := History([[1], [2], [3], [4]], [true, true, false, false], [2, 3], [Begun(0)], []);
    GoClaim(rules, 2, 2, s, h, 1, [4], s1, h1);
    var s2 := s1.(wpcs := [WWaiting(0, [3]), WCaptured(1, [4], {0})]);
    GoFreely(rules, 2, 2, s1, h1, Timeout(1), s2);
    FillingLocked(rules, s2, h1);
  }

  lemma FillingLocked(rules: set<Rule>, s: State, h: History)
    requires FillsAwayFromReaders !in rules && At(rules, 2, 2, s, h)
    requires s.chan == TwoSlots({0}, {0}, 1, {0}, 2, 0, [Ctrl(0, 0, true)])
    requires s == State(s.chan, [RReading(1)], [WWaiting(0, [3]), WCaptured(1, [4], {0})], Free, [])
    requires h == History([[1], [2], [3], [4]], [true, true, false, false], [2, 3], [Begun(0)], [])
    ensures Breaks(rules)
  {
    assert {0} - {0} == {};
    var s3 := State(TwoSlots({}, {0}, 1, {0}, 2, 0, [Ctrl(0, 0, true)]), [RReading(1)],
                    [WWaiting(0, [3]), WLocked(1, [4])], Testing(1, {0}, 0), []);
    GoFreely(rules, 2, 2, s, h, WriterStep(1), s3);
    FillingCleared(rules, s3, h);
  }

  lemma FillingCleared(rules: set<Rule>, s: State, h: History)
    requires FillsAwayFromReaders !in rules && At(rules, 2, 2, s, h)
    requires s.chan == TwoSlots({}, {0}, 1, {0}, 2, 0, [Ctrl(0, 0, true)])
    requires s == State(s.chan, [RReading(1)], [WWaiting(0, [3]), WLocked(1, [4])], Testing(1, {0}, 0), [])
    requires h == History([[1], [2], [3], [4]], [true, true, false, false], [2, 3], [Begun(0)], [])
    ensures Breaks(rules)
  {
    assert {0} - {0} == {};
    var s1 := s.(lock := Clearing(1, {0}, 0));
    GoFreely(rules, 2, 2, s, h, WriterStep(1), s1);
    var s2 := s.(lock := Storing(1, {0}, 0, {0}));
    GoFreely(rules, 2, 2, s1, h, WriterStep(1), s2);
    var s3 := s.(chan := TwoSlots({}, {}, 1, {0}, 2, 0, [Ctrl(0, 0, true)]), lock := Testing(1, {0}, 1));
    GoFreely(rules, 2, 2, s2, h, WriterStep(1), s3);
    FillingFills(rules, s3, h);
  }

  lemma FillingFills(rules: set<Rule>, s: State, h: History)
    requires FillsAwayFromReaders !in rules && At(rules, 2, 2, s, h)
    requires s.chan == TwoSlots({}, {}, 1, {0}, 2, 0, [Ctrl(0, 0, true)])
    requires s == State(s.chan, [RReading(1)], [WWaiting(0, [3]), WLocked(1, [4])], Testing(1, {0}, 1), [])
    requires h == History([[1], [2], [3], [4]], [true, true, false, false], [2, 3], [Begun(0)], [])
    ensures Breaks(rules)
  {
    assert [1][0 := 3] == [3];
    var s1 := s.(wpcs := [WReady(0, [3]), WLocked(1, [4])]);
    GoFreely(rules, 2, 2, s, h, WriterStep(0), s1);
    var c := TwoSlots({}, {}, 3, {0}, 2, 0, [Ctrl(0, 0, true)]);
    var s2 := s.(chan := c, wpcs := [WFilling(0, [3], 1), WLocked(1, [4])]);
    Go(rules, 2, 2, s1, h, WriterStep(0), s2, h);
    var s3 := s2.(rpcs := [RCopying(1, 1, [])]);
    GoFreely(rules, 2, 2, s2, h, ReaderStep(0), s3);
    FillingCopies(rules, s3, h);
  }

  lemma FillingCopies(rules: set<Rule>, s: State, h: History)
    requires At(rules, 2, 2, s, h) && s.chan == TwoSlots({}, {}, 3, {0}, 2, 0, [Ctrl(0, 0, true)])
    requires s == State(s.chan, [RCopying(1, 1, [])], [WFilling(0, [3], 1), WLocked(1, [4])], Testing(1, {0}, 1), [])
    requires h == History([[1], [2], [3], [4]], [true, true, false, false], [2, 3], [Begun(0)], [])
    ensures Breaks(rules)
  {
    assert [] + [3] == [3];
    GoFreely(rules, 2, 2, s, h, ReaderStep(0), s.(rpcs := [RCopying(1, 1, [3])]));
    GoFreely(rules, 2, 2, s.(rpcs := [RCopying(1, 1, [3])]), h, ReaderStep(0), s.(rpcs := [RCopied(1, [3])]));
    GoFreely(rules, 2, 2, s.(rpcs := [RCopied(1, [3])]), h, ReaderStep(0), s.(rpcs := [RFinishing(1, [3])]));
    FillingDelivers(rules, s.(rpcs := [RFinishing(1, [3])]), h);
  }

  lemma FillingDelivers(rules: set<Rule>, s: State, h: History)
    requires At(rules, 2, 2, s, h) && s.chan == TwoSlots({}, {}, 3, {0}, 2, 0, [Ctrl(0, 0, true)])
    requires s == State(s.chan, [RFinishing(1, [3])], [WFilling(0, [3], 1), WLocked(1, [4])], Testing(1, {0}, 1), [])
    requires h == History([[1], [2], [3], [4]], [true, true, false, false], [2, 3], [Begun(0)], [])
    ensures Breaks(rules)
  {
    var h1 := h.(sessions := [Delivered(Begun(0), [3], 1)]);
    Go(rules, 2, 2, s, h, ReaderStep(0), Step(s, ReaderStep(0)), h1);
    if SessionOk(h1.sessions[0], h1.claims) {
      LastRead(Begun(0), h1.claims, [3], 1);
    }
    assert ReadOf([1], 1) == [1] && h1.sessions[0] == Delivered(Begun(0), [3], 1);
    assert !SessionOk(h1.sessions[0], h1.claims);
    assert !QueuesOk(h1);
  }

  // ----- Storing between a timeout's load and its store -----

  /** A timeout loads the bitmap of slot 0, a release empties it, a write publishes claim 2 there, and the timeout
      stores the bitmap it had loaded: the other reader misses claim 2, and takes claim 4 for it. */
  lemma StoringBreaks(rules: set<Rule>)
    requires StoresApart !in rules
    ensures Breaks(rules)
  {
    FilledForTwo(rules);
    assert {0, 1} - {1} == {0} && [] + [[1]] == [[1]] && [[1]] + [[2]] == [[1], [2]];
    var s := State(Filled({0, 1}, [Ctrl(0, 0, true), Ctrl(0, 1, true)]), [RIdle, RIdle], [WIdle, WIdle], Free, []);
    ReadsBit({0, 1}, 1);
    assert ReadOut(Slot({0, 1}, 1, [1]), 1) == [1];
    var c1 := TwoSlots({0, 1}, {0}, 1, {0, 1}, 2, 0, [Ctrl(0, 0, true), Ctrl(1, 1, true)]);
    GoRead(rules, 2, 2, s, TwoClaims([Begun(0), Begun(0)]), 1, 1, c1, Session(0, [[1]], [1]));
    assert [Begun(0), Begun(0)][1 := Session(0, [[1]], [1])] == [Begun(0), Session(0, [[1]], [1])];
    StoringRead(rules, s.(chan := c1), TwoClaims([Begun(0), Session(0, [[1]], [1])]));
  }

  function ReadBoth(): Session { Session(0, [[1], [2]], [1, 1]) }

  lemma StoringRead(rules: set<Rule>, s: State, h: History)
    requires StoresApart !in rules && At(rules, 2, 2, s, h)
    requires s.chan == TwoSlots({0, 1}, {0}, 1, {0, 1}, 2, 0, [Ctrl(0, 0, true), Ctrl(1, 1, true)])
    requires s == State(s.chan, [RIdle, RIdle], [WIdle, WIdle], Free, [])
    requires h == TwoClaims([Begun(0), Session(0, [[1]], [1])])
    ensures Breaks(rules)
  {
    assert {0, 1} - {1} == {0} && [[1]] + [[2]] == [[1], [2]] && [1] + [1] == [1, 1];
    ReadsBit({0, 1}, 1);
    assert ReadOut(Slot({0, 1}, 1, [2]), 1) == [2];
    var c1 := TwoSlots({0, 1}, {0}, 1, {0}, 2, 0, [Ctrl(0, 0, true), Ctrl(0, 1, true)]);
    GoRead(rules, 2, 2, s, h, 1, 1, c1, ReadBoth());
    assert h.sessions[1 := ReadBoth()] == [Begun(0), ReadBoth()];
    StoringClaims(rules, s.(chan := c1), TwoClaims([Begun(0), ReadBoth()]));
  }

  lemma StoringClaims(rules: set<Rule>, s: State, h: History)
    requires StoresApart !in rules && At(rules, 2, 2, s, h)
    requires s.chan == TwoSlots({0, 1}, {0}, 1, {0}, 2, 0, [Ctrl(0, 0, true), Ctrl(0, 1, true)])
    requires s == State(s.chan, [RIdle, RIdle], [WIdle, WIdle], Free, [])
    requires h == TwoClaims([Begun(0), ReadBoth()])
    ensures Breaks(rules)
  {
    var c1 := TwoSlots({0, 1}, {0}, 1, {0}, 2, 1, [Ctrl(0, 0, true), Ctrl(0, 1, true)]);
    var s1 := s.(chan := c1, wpcs := [WWaiting(0, [3]), WIdle]);
    var h1 := History([[1], [2], [3]], [true, true, false], [2, 0], [Begun(0), ReadBoth()], []);
    GoClaim(rules, 2, 2, s, h, 0, [3], s1, h1);
    StoringCaptures(rules, s1, h1);
  }

  lemma StoringCaptures(rules: set<Rule>, s: State, h: History)
    requires StoresApart !in rules && At(rules, 2, 2, s, h)
    requires s.chan == TwoSlots({0, 1}, {0}, 1, {0}, 2, 1, [Ctrl(0, 0, true), Ctrl(0, 1, true)])
    requires s == State(s.chan, [RIdle, RIdle], [WWaiting(0, [3]), WIdle], Free, [])
    requires h == History([[1], [2], [3]], [true, true, false], [2, 0], [Begun(0), ReadBoth()], [])
    ensures Breaks(rules)
  {
    var c2 := TwoSlots({0, 1}, {0}, 1, {0}, 2, 0, [Ctrl(0, 0, true), Ctrl(0, 1, true)]);
    var s2 := s.(chan := c2, wpcs := [WWaiting(0, [3]), WWaiting(1, [4])]);
    var h2 := History([[1], [2], [3], [4]], [true, true, false, false], [2, 3], [Begun(0), ReadBoth()], []);
    GoClaim(rules, 2, 2, s, h, 1, [4], s2, h2);
    var s3 := s2.(wpcs := [WWaiting(0, [3]), WCaptured(1, [4], {0})]);
    GoFreely(rules, 2, 2, s2, h2, Timeout(1), s3);
    StoringRelease(rules, s3, h2);
  }

  function FourClaims(third: bool, xs: seq<Session>): History {
    History([[1], [2], [3], [4]], [true, true, third, false], [2, 3], xs, [Begun(0)])
  }

  lemma StoringRelease(rules: set<Rule>, s: State, h: History)
    requires StoresApart !in rules && At(rules, 2, 2, s, h)
    requires s.chan == TwoSlots({0, 1}, {0}, 1, {0}, 2, 0, [Ctrl(0, 0, true), Ctrl(0, 1, true)])
    requires s == State(s.chan, [RIdle, RIdle], [WWaiting(0, [3]), WCaptured(1, [4], {0})], Free, [])
    requires h == History([[1], [2], [3], [4]], [true, true, false, false], [2, 3], [Begun(0), ReadBoth()], [])
    ensures Breaks(rules)
  {
    assert {0, 1} - {0} == {1};
    var c1 := TwoSlots({1}, {0}, 1, {0}, 2, 0, [Ctrl(0, 1, true)]);
    var s1 := State(c1, [RIdle], s.wpcs, Free, [Leaver(0, 0)]);
    var h1 := FourClaims(false, [ReadBoth()]);
    Go(rules, 2, 2, s, h, CloseReader(0), s1, h1);
    StoringLocks(rules, s1, h1);
  }

  lemma StoringLocks(rules: set<Rule>, s: State, h: History)
    requires StoresApart !in rules && At(rules, 2, 2, s, h) && h == FourClaims(false, [ReadBoth()])
    requires s.chan == TwoSlots({1}, {0}, 1, {0}, 2, 0, [Ctrl(0, 1, true)])
    requires s == State(s.chan, [RIdle], [WWaiting(0, [3]), WCaptured(1, [4], {0})], Free, [Leaver(0, 0)])
    ensures Breaks(rules)
  {
    assert {1} - {0} == {1};
    var s1 := s.(wpcs := [WWaiting(0, [3]), WLocked(1, [4])], lock := Testing(1, {0}, 0));
    GoFreely(rules, 2, 2, s, h, WriterStep(1), s1);
    StoringLoads(rules, s1, h);
  }

  lemma StoringLoads(rules: set<Rule>, s: State, h: History)
    requires StoresApart !in rules && At(rules, 2, 2, s, h) && h == FourClaims(false, [ReadBoth()])
    requires s.chan == TwoSlots({1}, {0}, 1, {0}, 2, 0, [Ctrl(0, 1, true)])
    requires s.wpcs == [WWaiting(0, [3]), WLocked(1, [4])]
    requires s == State(s.chan, [RIdle], s.wpcs, Testing(1, {0}, 0), [Leaver(0, 0)])
    ensures Breaks(rules)
  {
    assert {0} - {0} == {};
    var s1 := s.(lock := Clearing(1, {0}, 0));
    GoFreely(rules, 2, 2, s, h, WriterStep(1), s1);
    var s2 := s.(lock := Storing(1, {0}, 0, {0}));
    GoFreely(rules, 2, 2, s1, h, WriterStep(1), s2);
    var c3 := TwoSlots({1}, {}, 1, {0}, 2, 0, [Ctrl(0, 1, true)]);
    var s3 := s2.(chan := c3, leavers := [Leaver(0, 1)]);
    Go(rules, 2, 2, s2, h, LeaverStep(0), s3, h);
    StoringFills(rules, s3, h);
  }

  lemma StoringFills(rules: set<Rule>, s: State, h: History)
    requires StoresApart !in rules && At(rules, 2, 2, s, h) && h == FourClaims(false, [ReadBoth()])
    requires s.chan == TwoSlots({1}, {}, 1, {0}, 2, 0, [Ctrl(0, 1, true)])
    requires s.wpcs == [WWaiting(0, [3]), WLocked(1, [4])]
    requires s == State(s.chan, [RIdle], s.wpcs, Storing(1, {0}, 0, {0}), [Leaver(0, 1)])
    ensures Breaks(rules)
  {
    assert [1][0 := 3] == [3];
    var s1 := s.(wpcs := [WReady(0, [3]), WLocked(1, [4])]);
    GoFreely(rules, 2, 2, s, h, WriterStep(0), s1);
    var c2 := TwoSlots({1}, {}, 3, {0}, 2, 0, [Ctrl(0, 1, true)]);
    var s2 := s.(chan := c2, wpcs := [WFilling(0, [3], 1), WLocked(1, [4])]);
    Go(rules, 2, 2, s1, h, WriterStep(0), s2, h);
    var s3 := s.(chan := c2, wpcs := [WPublishing(0, [3]), WLocked(1, [4])]);
    GoFreely(rules, 2, 2, s2, h, WriterStep(0), s3);
    StoringStores(rules, s3, h);
  }

  lemma StoringStores(rules: set<Rule>, s: State, h: History)
    requires StoresApart !in rules && At(rules, 2, 2, s, h) && h == FourClaims(false, [ReadBoth()])
    requires s.chan == TwoSlots({1}, {}, 3, {0}, 2, 0, [Ctrl(0, 1, true)])
    requires s.wpcs == [WPublishing(0, [3]), WLocked(1, [4])]
    requires s == State(s.chan, [RIdle], s.wpcs, Storing(1, {0}, 0, {0}), [Leaver(0, 1)])
    ensures Breaks(rules)
  {
    var s1 := s.(wpcs := [WLoaded(0, [3], {1}), WLocked(1, [4])]);
    GoFreely(rules, 2, 2, s, h, WriterStep(0), s1);
    var s2 := s.(chan := TwoSlots({1}, {1}, 3, {0}, 2, 0, [Ctrl(0, 1, true)]), wpcs := [WIdle, WLocked(1, [4])]);
    var h2 := FourClaims(true, [ReadBoth()]);
    Go(rules, 2, 2, s1, h, WriterStep(0), s2, h2);
    StoringOverwrites(rules, s2, h2);
  }

  lemma StoringOverwrites(rules: set<Rule>, s: State, h: History)
    requires At(rules, 2, 2, s, h) && h == FourClaims(true, [ReadBoth()])
    requires s.chan == TwoSlots({1}, {1}, 3, {0}, 2, 0, [Ctrl(0, 1, true)])
    requires s == State(s.chan, [RIdle], [WIdle, WLocked(1, [4])], Storing(1, {0}, 0, {0}), [Leaver(0, 1)])
    ensures Breaks(rules)
  {
    assert {0} - {0} == {};
    var s1 := s.(chan := TwoSlots({1}, {}, 3, {0}, 2, 0, [Ctrl(0, 1, true)]), lock := Testing(1, {0}, 1));
    GoFreely(rules, 2, 2, s, h, WriterStep(1), s1);
    StoringEnds(rules, s1, h);
  }

  lemma StoringEnds(rules: set<Rule>, s: State, h: History)
    requires At(rules, 2, 2, s, h) && h == FourClaims(true, [ReadBoth()])
    requires s.chan == TwoSlots({1}, {}, 3, {0}, 2, 0, [Ctrl(0, 1, true)])
    requires s == State(s.chan, [RIdle], [WIdle, WLocked(1, [4])], Testing(1, {0}, 1), [Leaver(0, 1)])
    ensures Breaks(rules)
  {
    var slots := s.chan.slots;
    assert {0} - {0} == {} && ExpelSlot(slots[0], {0}) == slots[0] && ExpelSlot(slots[1], {0}) == Slot({}, 1, [2]);
    assert slots == ExpelledBelow(slots, {0}, 1);
    ReaderTestIsExact({0}, 1);
    var s1 := State(TwoSlots({1}, {}, 3, {}, 2, 0, [Ctrl(0, 1, true)]), [RIdle], [WIdle, WReady(1, [4])], Free,
                    [Leaver(0, 1)]);
    TimeoutRestAlone(rules, s, h, slots);
    assert ExpelledBelow(slots, {0}, 2) == s1.chan.slots;
    assert MarkedBelow(s.chan.readers, {0}, 1) == s1.chan.readers;
    assert s.wpcs[1 := WReady(1, [4])] == s1.wpcs;
    GoFar(rules, 2, 2, s, h, s1, h);
    StoringLast(rules, s1, h);
  }

  lemma StoringLast(rules: set<Rule>, s: State, h: History)
    requires At(rules, 2, 2, s, h) && h == FourClaims(true, [ReadBoth()])
    requires s.chan == TwoSlots({1}, {}, 3, {}, 2, 0, [Ctrl(0, 1, true)])
    requires s == State(s.chan, [RIdle], [WIdle, WReady(1, [4])], Free, [Leaver(0, 1)])
    ensures Breaks(rules)
  {
    assert [4] + [2][1..] == [4];
    var s1 := s.(chan := TwoSlots({1}, {}, 3, {1}, 4, 0, [Ctrl(0, 1, true)]), wpcs := [WIdle, WIdle]);
    var h1 := h.(published := [true, true, true, true]);
    GoPublish(rules, 2, 2, s, h, 1, s1, h1);
    StoringRereads(rules, s1, h1);
  }

  lemma StoringRereads(rules: set<Rule>, s: State, h: History)
    requires At(rules, 2, 2, s, h) && s.chan == TwoSlots({1}, {}, 3, {1}, 4, 0, [Ctrl(0, 1, true)])
    requires s == State(s.chan, [RIdle], [WIdle, WIdle], Free, [Leaver(0, 1)])
    requires h == History([[1], [2], [3], [4]], [true, true, true, true], [2, 3], [ReadBoth()], [Begun(0)])
    ensures Breaks(rules)
  {
    assert [5] + [3][1..] == [5];
    var c2 := TwoSlots({1}, {1}, 5, {1}, 4, 1, [Ctrl(0, 1, true)]);
    var h2 := History([[1], [2], [3], [4], [5]], [true, true, true, true, true], [4, 3], [ReadBoth()], [Begun(0)]);
    assert h.published + [false] == [true, true, true, true, false];
    GoWrite(rules, 2, 2, s, h, 0, [5], c2, h2);
    ReadsBit({1}, 1);
    assert ReadOut(Slot({1}, 1, [5]), 1) == [5] && ReadOf([3], 1) == [3];
    WrongReadBreaks(rules, 2, 2, s.(chan := c2), h2, 0);
  }

  // ----- Clearing between a timeout's load and its store -----

  /** A timeout loads the bitmap of slot 1, a reader that it does not expel finishes claim 1 there, and the timeout
      brings its bit back: the reader takes claim 1 for claim 3 as well. */
  lemma ClearingBreaks(rules: set<Rule>)
    requires ClearsApart !in rules
    ensures Breaks(rules)
  {
    FilledForTwo(rules);
    assert {0, 1} - {1} == {0} && [] + [[1]] == [[1]] && [] + [1] == [1];
    var s := State(Filled({0, 1}, [Ctrl(0, 0, true), Ctrl(0, 1, true)]), [RIdle, RIdle], [WIdle, WIdle], Free, []);
    ReadsBit({0, 1}, 1);
    assert ReadOut(Slot({0, 1}, 1, [1]), 1) == [1];
    var c1 := TwoSlots({0, 1}, {0}, 1, {0, 1}, 2, 0, [Ctrl(0, 0, true), Ctrl(1, 1, true)]);
    GoRead(rules, 2, 2, s, TwoClaims([Begun(0), Begun(0)]), 1, 1, c1, Session(0, [[1]], [1]));
    assert [Begun(0), Begun(0)][1 := Session(0, [[1]], [1])] == [Begun(0), Session(0, [[1]], [1])];
    ClearingReads(rules, s.(chan := c1), TwoClaims([Begun(0), Session(0, [[1]], [1])]));
  }

  lemma ClearingReads(rules: set<Rule>, s: State, h: History)
    requires ClearsApart !in rules && At(rules, 2, 2, s, h)
    requires s.chan == TwoSlots({0, 1}, {0}, 1, {0, 1}, 2, 0, [Ctrl(0, 0, true), Ctrl(1, 1, true)])
    requires s == State(s.chan, [RIdle, RIdle], [WIdle, WIdle], Free, [])
    requires h == TwoClaims([Begun(0), Session(0, [[1]], [1])])
    ensures Breaks(rules)
  {
    ReadsBit({0, 1}, 1);
    GoFreely(rules, 2, 2, s, h, ReadCall(1, 0), s.(rpcs := [RIdle, RWaiting(0)]));
    GoFreely(rules, 2, 2, s.(rpcs := [RIdle, RWaiting(0)]), h, ReaderStep(1), s.(rpcs := [RIdle, RReading(0)]));
    GoFreely(rules, 2, 2, s.(rpcs := [RIdle, RReading(0)]), h, ReaderStep(1), s.(rpcs := [RIdle, RCopying(0, 0, [])]));
    ClearingTests(rules, s.(rpcs := [RIdle, RCopying(0, 0, [])]), h);
  }

  lemma ClearingTests(rules: set<Rule>, s: State, h: History)
    requires ClearsApart !in rules && At(rules, 2, 2, s, h)
    requires s.chan == TwoSlots({0, 1}, {0}, 1, {0, 1}, 2, 0, [Ctrl(0, 0, true), Ctrl(1, 1, true)])
    requires s == State(s.chan, [RIdle, RCopying(0, 0, [])], [WIdle, WIdle], Free, [])
    requires h == TwoClaims([Begun(0), Session(0, [[1]], [1])])
    ensures Breaks(rules)
  {
    var s1 := s.(rpcs := [RIdle, RCopied(0, [])]);
    GoFreely(rules, 2, 2, s, h, ReaderStep(1), s1);
    var s2 := s.(rpcs := [RIdle, RFinishing(0, [])]);
    GoFreely(rules, 2, 2, s1, h, ReaderStep(1), s2);
    var c3 := TwoSlots({0, 1}, {0}, 1, {0, 1}, 2, 1, [Ctrl(0, 0, true), Ctrl(1, 1, true)]);
    var s3 := s2.(chan := c3, wpcs := [WWaiting(0, [3]), WIdle]);
    GoClaim(rules, 2, 2, s2, h, 0, [3], s3, ThreeClaims(false, [Begun(0), Session(0, [[1]], [1])]));
    ClearingCaptures(rules, s3, ThreeClaims(false, [Begun(0), Session(0, [[1]], [1])]));
  }

  function ThreeClaims(third: bool, xs: seq<Session>): History {
    History([[1], [2], [3]], [true, true, third], [2, 0], xs, [])
  }

  function PairReading(mask: set<int>, a: set<int>): Chan {
    TwoSlots(mask, a, 1, {0, 1}, 2, 1, [Ctrl(0, 0, true), Ctrl(1, 1, true)])
  }

  lemma ClearingCaptures(rules: set<Rule>, s: State, h: History)
    requires ClearsApart !in rules && At(rules, 2, 2, s, h)
    requires s.chan == PairReading({0, 1}, {0})
    requires s == State(s.chan, [RIdle, RFinishing(0, [])], [WWaiting(0, [3]), WIdle], Free, [])
    requires h == ThreeClaims(false, [Begun(0), Session(0, [[1]], [1])])
    ensures Breaks(rules)
  {
    assert {0, 1} - {0} == {1};
    var s1 := s.(wpcs := [WCaptured(0, [3], {0}), WIdle]);
    GoFreely(rules, 2, 2, s, h, Timeout(0), s1);
    var s2 := s.(chan := PairReading({1}, {0}), wpcs := [WLocked(0, [3]), WIdle], lock := Testing(0, {0}, 0));
    GoFreely(rules, 2, 2, s1, h, WriterStep(0), s2);
    ClearingLocked(rules, s2, h);
  }

  lemma ClearingLocked(rules: set<Rule>, s: State, h: History)
    requires ClearsApart !in rules && At(rules, 2, 2, s, h)
    requires s.chan == PairReading({1}, {0})
    requires s == State(s.chan, [RIdle, RFinishing(0, [])], [WLocked(0, [3]), WIdle], Testing(0, {0}, 0), [])
    requires h == ThreeClaims(false, [Begun(0), Session(0, [[1]], [1])])
    ensures Breaks(rules)
  {
    var s1 := s.(lock := Clearing(0, {0}, 0));
    GoFreely(rules, 2, 2, s, h, WriterStep(0), s1);
    ClearingFirst(rules, s1, h);
  }

  lemma ClearingFirst(rules: set<Rule>, s: State, h: History)
    requires ClearsApart !in rules && At(rules, 2, 2, s, h)
    requires s.chan == PairReading({1}, {0})
    requires s == State(s.chan, [RIdle, RFinishing(0, [])], [WLocked(0, [3]), WIdle], Clearing(0, {0}, 0), [])
    requires h == ThreeClaims(false, [Begun(0), Session(0, [[1]], [1])])
    ensures Breaks(rules)
  {
    assert {0} - {0} == {};
    var s1 := s.(lock := Storing(0, {0}, 0, {0}));
    GoFreely(rules, 2, 2, s, h, WriterStep(0), s1);
    var s2 := s.(chan := PairReading({1}, {}), lock := Testing(0, {0}, 1));
    GoFreely(rules, 2, 2, s1, h, WriterStep(0), s2);
    var s3 := s2.(lock := Clearing(0, {0}, 1));
    GoFreely(rules, 2, 2, s2, h, WriterStep(0), s3);
    ClearingSecond(rules, s3, h);
  }

  function ReadTwice(): Session { Session(0, [[1], []], [1, 0]) }

  lemma ClearingSecond(rules: set<Rule>, s: State, h: History)
    requires ClearsApart !in rules && At(rules, 2, 2, s, h)
    requires s.chan == PairReading({1}, {})
    requires s == State(s.chan, [RIdle, RFinishing(0, [])], [WLocked(0, [3]), WIdle], Clearing(0, {0}, 1), [])
    requires h == ThreeClaims(false, [Begun(0), Session(0, [[1]], [1])])
    ensures Breaks(rules)
  {
    assert {0, 1} - {1} == {0} && {0, 1} - {0} == {1};
    assert Delivered(Session(0, [[1]], [1]), [], 0) == ReadTwice();
    var s1 := s.(lock := Storing(0, {0}, 1, {0, 1}));
    GoFreely(rules, 2, 2, s, h, WriterStep(0), s1);
    var c2 := TwoSlots({1}, {}, 1, {0}, 2, 1, [Ctrl(0, 0, true), Ctrl(0, 1, true)]);
    var s2 := s1.(chan := c2, rpcs := [RIdle, RIdle]);
    var h2 := ThreeClaims(false, [Begun(0), ReadTwice()]);
    Go(rules, 2, 2, s1, h, ReaderStep(1), s2, h2);
    var s3 := s2.(chan := TwoSlots({1}, {}, 1, {1}, 2, 1, [Ctrl(0, 0, true), Ctrl(0, 1, true)]),
                  lock := Testing(0, {0}, 2));
    GoFreely(rules, 2, 2, s2, h2, WriterStep(0), s3);
    ClearingEnds(rules, s3, h2);
  }

  lemma ClearingEnds(rules: set<Rule>, s: State, h: History)
    requires At(rules, 2, 2, s, h) && h == ThreeClaims(false, [Begun(0), ReadTwice()])
    requires s.chan == TwoSlots({1}, {}, 1, {1}, 2, 1, [Ctrl(0, 0, true), Ctrl(0, 1, true)])
    requires s == State(s.chan, [RIdle, RIdle], [WLocked(0, [3]), WIdle], Testing(0, {0}, 2), [])
    ensures Breaks(rules)
  {
    var slots := s.chan.slots;
    assert slots == ExpelledBelow(slots, {0}, 2) by {
      assert {1} - {0} == {1};
    }
    ReaderTestIsExact({0}, 0);
    ReaderTestIsExact({0}, 1);
    var s1 := State(TwoSlots({1}, {}, 1, {1}, 2, 1, [Ctrl(0, 0, false), Ctrl(0, 1, true)]), [RIdle, RIdle],
                    [WReady(0, [3]), WIdle], Free, []);
    TimeoutRestAlone(rules, s, h, slots);
    assert MarkedBelow(s.chan.readers, {0}, 2) == s1.chan.readers;
    assert s.wpcs[0 := WReady(0, [3])] == s1.wpcs;
    GoFar(rules, 2, 2, s, h, s1, h);
    ClearingPublishes(rules, s1, h);
  }

  lemma ClearingPublishes(rules: set<Rule>, s: State, h: History)
    requires At(rules, 2, 2, s, h) && h == ThreeClaims(false, [Begun(0), ReadTwice()])
    requires s.chan == TwoSlots({1}, {}, 1, {1}, 2, 1, [Ctrl(0, 0, false), Ctrl(0, 1, true)])
    requires s == State(s.chan, [RIdle, RIdle], [WReady(0, [3]), WIdle], Free, [])
    ensures Breaks(rules)
  {
    assert [3] + [1][1..] == [3];
    var c1 := TwoSlots({1}, {1}, 3, {1}, 2, 1, [Ctrl(0, 0, false), Ctrl(0, 1, true)]);
    var s1, h1 := s.(chan := c1, wpcs := [WIdle, WIdle]), ThreeClaims(true, [Begun(0), ReadTwice()]);
    GoPublish(rules, 2, 2, s, h, 0, s1, h1);
    ClearingRereads(rules, s1, h1);
  }

  lemma ClearingRereads(rules: set<Rule>, s: State, h: History)
    requires At(rules, 2, 2, s, h) && h == ThreeClaims(true, [Begun(0), ReadTwice()])
    requires s.chan == TwoSlots({1}, {1}, 3, {1}, 2, 1, [Ctrl(0, 0, false), Ctrl(0, 1, true)])
    requires s == State(s.chan, [RIdle, RIdle], [WIdle, WIdle], Free, [])
    ensures Breaks(rules)
  {
    assert {1} - {1} == {} && ReadOut(Slot({1}, 1, [3]), 1) == [3];
    assert Delivered(ReadTwice(), [3], 1) == Session(0, [[1], [], [3]], [1, 0, 1]);
    ReadsBit({1}, 1);
    var c1 := TwoSlots({1}, {}, 3, {1}, 2, 1, [Ctrl(0, 0, false), Ctrl(1, 1, true)]);
    GoRead(rules, 2, 2, s, h, 1, 1, c1, Session(0, [[1], [], [3]], [1, 0, 1]));
    WrongReadBreaks(rules, 2, 2, s.(chan := c1),
                    h.(sessions := h.sessions[1 := Session(0, [[1], [], [3]], [1, 0, 1])]), 1);
  }

  // ----- All rules -----

  lemma EachRuleIsNeeded(rules: set<Rule>, rule: Rule)
    requires rule !in rules
    ensures Breaks(rules)
  {
    match rule
    case BitsTestable => TestingBreaks(rules);
    case OpensWithoutWrites => OpeningBreaks(rules);
    case BitsNotListed => RelistingBreaks(rules);
    case BitsNotLeft => LeavingBreaks(rules);
    case SlotsNotShared => SharingBreaks(rules);
    case ClaimsKept => GivingUpBreaks(rules);
    case FillsAwayFromReaders => FillingBreaks(rules);
    case StoresOfCurrentMasks => StaleMaskBreaks(rules);
    case StoresApart => StoringBreaks(rules);
    case ClearsApart => ClearingBreaks(rules);
  }

  /** Every run of every channel that follows the rules keeps every reader's queue. */
  ghost predicate RulesKeepQueues(rules: set<Rule>) {
    forall n: nat, maxMsg: nat, area: seq<seq<Byte>>, writers: nat, schedule ::
      0 < n == |area| && AreaFits(area, maxMsg) ==>
        QueuesOk(RunBy(rules, Fresh(n, maxMsg, area, writers), NoHistory(writers), schedule).1)
  }

  lemma BreaksMeansNotKept(rules: set<Rule>)
    requires Breaks(rules)
    ensures !RulesKeepQueues(rules)
  {
    var n: nat, writers: nat, s, h :| At(rules, n, writers, s, h) && !QueuesOk(h);
    var schedule :| LeadsBy(rules, Start(n, writers), NoHistory(writers), schedule, s, h);
    LeadsIsRun(rules, Start(n, writers), NoHistory(writers), schedule, s, h);
    var area: seq<seq<Byte>> := seq(n, _ => [0]);
    assert RunBy(rules, Fresh(n, 1, area, writers), NoHistory(writers), schedule).1 == h;
  }

  lemma WithoutExceptions(rules: set<Rule>)
    requires forall rule :: rule in rules
    ensures rules == AllRules()
  {
    forall rule
      ensures rule in AllRules()
    {
      EveryRule(rule);
    }
  }

  /** The queues of all readers are kept on all runs exactly when all the rules are followed. */
  lemma QueuesAreKeptIff(rules: set<Rule>)
    ensures RulesKeepQueues(rules) <==> rules == AllRules()
  {
    if rule :| rule !in rules {
      EveryRule(rule);
      EachRuleIsNeeded(rules, rule);
      BreaksMeansNotKept(rules);
    } else {
      WithoutExceptions(rules);
      forall n: nat, maxMsg: nat, area: seq<seq<Byte>>, writers: nat, schedule
        | 0 < n == |area| && AreaFits(area, maxMsg)
        ensures QueuesOk(RunBy(rules, Fresh(n, maxMsg, area, writers), NoHistory(writers), schedule).1)
      {
        OneQueuePerReader(n, maxMsg, area, writers, schedule);
      }
    }
  }
}
