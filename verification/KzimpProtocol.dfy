/** Any number of processes reading and writing one kzimp channel, in any interleaving. A step makes one access to
    shared memory, or runs under the channel lock and touches nothing that is used without it: opening, claiming,
    and the locked part of a release. A timeout takes the lock, and then tests, loads and stores one slot bitmap
    at a time and marks one reader at a time, while processes that need no lock go on. A release clears the slots
    one at a time after it has dropped the lock, a publication loads the mask and stores it later, and payloads
    are copied a byte at a time. */
module KzimpProtocol {
  import opened KzimpChan

  /** A reader inside kzimp_read, or between START_READ (Reading) and FINISH_READ of the splice variant. */
  datatype ReaderPc =
    | RIdle
    | RWaiting(count: nat)
    | RReading(count: nat)                                    // past its wait
    | RCopying(count: nat, size: nat, out: seq<Byte>)         // out is what was copied so far, size what will be
    | RCopied(count: nat, out: seq<Byte>)                     // about to test online
    | RFinishing(count: nat, out: seq<Byte>)                  // found it set, about to clear its bit

  /** A process inside kzimp_write, holding slot m. */
  datatype WriterPc =
    | WIdle
    | WWaiting(m: nat, msg: seq<Byte>)
    | WCaptured(m: nat, msg: seq<Byte>, captured: set<int>)   // handle_timeout, before the lock
    | WLocked(m: nat, msg: seq<Byte>)                         // handle_timeout, holding the lock
    | WReady(m: nat, msg: seq<Byte>)                          // past its wait
    | WFilling(m: nat, msg: seq<Byte>, k: nat)                // k bytes of msg are in the slot
    | WPublishing(m: nat, msg: seq<Byte>)                     // about to load the mask
    | WLoaded(m: nat, msg: seq<Byte>, loaded: set<int>)       // about to store it in the slot

  /** The channel lock, and how far the timeout that holds it has come: about to test, load or store the bitmap
      of slot j, or about to mark reader i. */
  datatype Lock =
    | Free
    | Testing(w: nat, captured: set<int>, j: nat)
    | Clearing(w: nat, captured: set<int>, j: nat)
    | Storing(w: nat, captured: set<int>, j: nat, loaded: set<int>)
    | Marking(w: nat, captured: set<int>, i: nat)

  /** A released reader whose kzimp_release is about to clear the bitmap of slot next. */
  datatype Leaver = Leaver(bit: int, next: nat)

  datatype State = State(chan: Chan, rpcs: seq<ReaderPc>, wpcs: seq<WriterPc>, lock: Lock, leavers: seq<Leaver>)

  datatype Action =
    | OpenReader
    | CloseReader(i: nat)
    | ReadCall(i: nat, count: nat)
    | ReaderStep(i: nat)
    | ReaderGivesUp(i: nat)             // -EAGAIN, -EINTR, -EFAULT
    | LeaverStep(l: nat)
    | WriteCall(w: nat, msg: seq<Byte>)
    | WriterStep(w: nat)
    | Timeout(w: nat)
    | WriterGivesUp(w: nat)             // -EAGAIN, -EINTR, -EFAULT: the claimed slot is left as it is

  predicate ReaderShape(pc: ReaderPc, c: Chan) {
    pc.RCopying? ==> |pc.out| <= pc.size <= c.maxMsg
  }

  predicate WriterShape(pc: WriterPc, c: Chan) {
    && (pc.WIdle? || (pc.m < |c.slots| && 0 < |pc.msg| <= c.maxMsg))
    && (pc.WFilling? ==> pc.k <= |pc.msg|)
  }

  predicate LockShape(lock: Lock, n: nat, readers: nat, writers: nat) {
    match lock
    case Free => true
    case Testing(w, _, j) => w < writers && j <= n
    case Clearing(w, _, j) => w < writers && j < n
    case Storing(w, _, j, _) => w < writers && j < n
    case Marking(w, _, i) => w < writers && i <= readers
  }

  predicate StateShape(s: State) {
    && Shape(s.chan)
    && |s.rpcs| == |s.chan.readers|
    && (forall i :: 0 <= i < |s.rpcs| ==> ReaderShape(s.rpcs[i], s.chan))
    && (forall w :: 0 <= w < |s.wpcs| ==> WriterShape(s.wpcs[w], s.chan))
    && LockShape(s.lock, |s.chan.slots|, |s.rpcs|, |s.wpcs|)
  }

  predicate Busy(s: State, w: nat)
    requires w < |s.wpcs|
  {
    !s.wpcs[w].WIdle?
  }

  function SlotOfReader(s: State, i: nat): Slot
    requires StateShape(s) && i < |s.rpcs|
  {
    s.chan.slots[s.chan.readers[i].nextRead]
  }

  function MinOf(a: nat, b: nat): nat { if a < b then a else b }

  // ----- Changes of one field -----

  function AtReader(s: State, i: nat, pc: ReaderPc): State
    requires i < |s.rpcs|
  {
    s.(rpcs := s.rpcs[i := pc])
  }

  function AtWriter(s: State, w: nat, pc: WriterPc): State
    requires w < |s.wpcs|
  {
    s.(wpcs := s.wpcs[w := pc])
  }

  function WithBitmap(c: Chan, j: nat, bitmap: set<int>): Chan
    requires j < |c.slots|
  {
    c.(slots := c.slots[j := c.slots[j].(bitmap := bitmap)])
  }

  function WithByte(c: Chan, j: nat, k: nat, b: Byte): Chan
    requires j < |c.slots| && k < |c.slots[j].data|
  {
    c.(slots := c.slots[j := c.slots[j].(data := c.slots[j].data[k := b])])
  }

  function WithLength(c: Chan, j: nat, len: nat): Chan
    requires j < |c.slots|
  {
    c.(slots := c.slots[j := c.slots[j].(len := len)])
  }

  // ----- Readers -----

  /** finalize_read past its test of online. */
  function Finish(s: State, i: nat): State
    requires StateShape(s) && i < |s.rpcs|
  {
    var r := s.chan.readers[i];
    var c := WithBitmap(s.chan, r.nextRead, s.chan.slots[r.nextRead].bitmap - {r.bit});
    AtReader(s.(chan := c.(readers := c.readers[i := r.(nextRead := (r.nextRead + 1) % |c.slots|)])), i, RIdle)
  }

  function ReaderNext(s: State, i: nat): State
    requires StateShape(s) && i < |s.rpcs|
  {
    match s.rpcs[i]
    case RIdle => s
    case RWaiting(count) =>
      if ReaderCanRead(SlotOfReader(s, i).bitmap, s.chan.readers[i].bit) then AtReader(s, i, RReading(count)) else s
    case RReading(count) => AtReader(s, i, RCopying(count, MinOf(SlotOfReader(s, i).len, count), []))
    case RCopying(count, size, out) =>
      if |out| < size then AtReader(s, i, RCopying(count, size, out + [SlotOfReader(s, i).data[|out|]]))
      else AtReader(s, i, RCopied(count, out))
    case RCopied(count, out) =>
      AtReader(s, i, if s.chan.readers[i].online then RFinishing(count, out) else RIdle)
    case RFinishing(_, _) => Finish(s, i)
  }

  /** A reader can close its file between two calls; START_READ and FINISH_READ are two calls. */
  predicate MayClose(pc: ReaderPc) { !pc.RWaiting? && !pc.RFinishing? }

  /** The locked part of kzimp_release. */
  function Close(s: State, i: nat): State
    requires i < |s.rpcs| == |s.chan.readers|
  {
    var bit := s.chan.readers[i].bit;
    State(s.chan.(mask := s.chan.mask - {bit}, readers := Removed(s.chan.readers, i)), Removed(s.rpcs, i), s.wpcs,
          s.lock, s.leavers + [Leaver(bit, 0)])
  }

  /** One turn of its loop over the slots. */
  function LeaverNext(s: State, l: nat): State
    requires StateShape(s) && l < |s.leavers|
  {
    var bit, j := s.leavers[l].bit, s.leavers[l].next;
    if j < |s.chan.slots| then
      s.(chan := WithBitmap(s.chan, j, s.chan.slots[j].bitmap - {bit}), leavers := s.leavers[l := Leaver(bit, j + 1)])
    else s
  }

  // ----- Writers -----

  /** handle_timeout takes the lock and removes the captured bits from the mask. */
  function Acquire(s: State, w: nat): State
    requires w < |s.wpcs| && s.wpcs[w].WCaptured?
  {
    var captured := s.wpcs[w].captured;
    AtWriter(s.(chan := s.chan.(mask := s.chan.mask - captured), lock := Testing(w, captured, 0)), w,
             WLocked(s.wpcs[w].m, s.wpcs[w].msg))
  }

  /** handle_timeout marks a reader, when it is captured. */
  function Mark(c: Chan, i: nat, captured: set<int>): Chan
    requires i < |c.readers|
  {
    c.(readers := c.readers[i := ExpelReader(c.readers[i], captured)])
  }

  /** The rest of handle_timeout, an access at a time. */
  function TimeoutNext(s: State): State
    requires StateShape(s) && !s.lock.Free? && s.wpcs[s.lock.w].WLocked?
  {
    match s.lock
    case Testing(w, captured, j) =>
      if j == |s.chan.slots| then s.(lock := Marking(w, captured, 0))
      else if s.chan.slots[j].bitmap == {} then s.(lock := Testing(w, captured, j + 1))
      else s.(lock := Clearing(w, captured, j))
    case Clearing(w, captured, j) => s.(lock := Storing(w, captured, j, s.chan.slots[j].bitmap))
    case Storing(w, captured, j, loaded) =>
      s.(chan := WithBitmap(s.chan, j, loaded - captured), lock := Testing(w, captured, j + 1))
    case Marking(w, captured, i) =>
      if i < |s.chan.readers| then s.(chan := Mark(s.chan, i, captured), lock := Marking(w, captured, i + 1))
      else AtWriter(s.(lock := Free), w, WReady(s.wpcs[w].m, s.wpcs[w].msg))
  }

  predicate HoldsLock(lock: Lock, w: nat) { !lock.Free? && lock.w == w }

  function WriterNext(s: State, w: nat): State
    requires StateShape(s) && w < |s.wpcs|
  {
    match s.wpcs[w]
    case WIdle => s
    case WWaiting(m, msg) => if WriterCanWrite(s.chan.slots[m].bitmap) then AtWriter(s, w, WReady(m, msg)) else s
    case WCaptured(_, _, _) => if s.lock.Free? then Acquire(s, w) else s
    case WLocked(_, _) => if HoldsLock(s.lock, w) then TimeoutNext(s) else s
    case WReady(m, msg) => AtWriter(s.(chan := WithByte(s.chan, m, 0, msg[0])), w, WFilling(m, msg, 1))
    case WFilling(m, msg, k) =>
      if k < |msg| then AtWriter(s.(chan := WithByte(s.chan, m, k, msg[k])), w, WFilling(m, msg, k + 1))
      else AtWriter(s.(chan := WithLength(s.chan, m, |msg|)), w, WPublishing(m, msg))
    case WPublishing(m, msg) => AtWriter(s, w, WLoaded(m, msg, s.chan.mask))
    case WLoaded(m, _, loaded) => AtWriter(s.(chan := WithBitmap(s.chan, m, loaded)), w, WIdle)
  }

  /** A write that passes the check of its arguments, and finds the lock free. */
  predicate Claims(s: State, w: nat, msg: seq<Byte>) {
    w < |s.wpcs| && s.wpcs[w] == WIdle && 0 < |msg| <= s.chan.maxMsg && s.lock.Free?
  }

  predicate WriterMayGiveUp(pc: WriterPc) { pc.WWaiting? || pc.WReady? || pc.WFilling? }

  predicate ReaderMayGiveUp(pc: ReaderPc) { pc.RWaiting? || pc.RReading? || pc.RCopying? }

  function Step(s: State, a: Action): State
    requires StateShape(s)
  {
    match a
    case OpenReader => if s.lock.Free? then s.(chan := Open(s.chan), rpcs := s.rpcs + [RIdle]) else s
    case CloseReader(i) => if i < |s.rpcs| && MayClose(s.rpcs[i]) && s.lock.Free? then Close(s, i) else s
    case ReadCall(i, count) => if i < |s.rpcs| && s.rpcs[i] == RIdle then AtReader(s, i, RWaiting(count)) else s
    case ReaderStep(i) => if i < |s.rpcs| then ReaderNext(s, i) else s
    case ReaderGivesUp(i) => if i < |s.rpcs| && ReaderMayGiveUp(s.rpcs[i]) then AtReader(s, i, RIdle) else s
    case LeaverStep(l) => if l < |s.leavers| then LeaverNext(s, l) else s
    case WriteCall(w, msg) =>
      if Claims(s, w, msg) then AtWriter(s.(chan := Claim(s.chan)), w, WWaiting(s.chan.nextWrite, msg)) else s
    case WriterStep(w) => if w < |s.wpcs| then WriterNext(s, w) else s
    case Timeout(w) =>
      if w < |s.wpcs| && s.wpcs[w].WWaiting? then
        AtWriter(s, w, WCaptured(s.wpcs[w].m, s.wpcs[w].msg, s.chan.slots[s.wpcs[w].m].bitmap))
      else s
    case WriterGivesUp(w) => if w < |s.wpcs| && WriterMayGiveUp(s.wpcs[w]) then AtWriter(s, w, WIdle) else s
  }

  lemma OpenKeepsShape(s: State)
    requires StateShape(s) && s.lock.Free?
    ensures StateShape(Step(s, OpenReader))
  {
  }

  lemma CloseKeepsShape(s: State, i: nat)
    requires StateShape(s) && i < |s.rpcs| && s.lock.Free?
    ensures StateShape(Close(s, i))
  {
  }

  lemma ReaderKeepsShape(s: State, i: nat)
    requires StateShape(s) && i < |s.rpcs|
    ensures StateShape(ReaderNext(s, i))
  {
  }

  lemma LeaverKeepsShape(s: State, l: nat)
    requires StateShape(s) && l < |s.leavers|
    ensures StateShape(LeaverNext(s, l))
  {
  }

  lemma TimeoutKeepsShape(s: State)
    requires StateShape(s) && !s.lock.Free? && s.wpcs[s.lock.w].WLocked?
    ensures StateShape(TimeoutNext(s)) && |TimeoutNext(s).wpcs| == |s.wpcs|
    ensures |TimeoutNext(s).chan.slots| == |s.chan.slots| && TimeoutNext(s).chan.maxMsg == s.chan.maxMsg
  {
  }

  lemma WriterKeepsShape(s: State, w: nat)
    requires StateShape(s) && w < |s.wpcs|
    ensures StateShape(WriterNext(s, w)) && |WriterNext(s, w).wpcs| == |s.wpcs|
    ensures |WriterNext(s, w).chan.slots| == |s.chan.slots| && WriterNext(s, w).chan.maxMsg == s.chan.maxMsg
  {
    if s.wpcs[w].WLocked? && HoldsLock(s.lock, w) {
      TimeoutKeepsShape(s);
    }
  }

  /** Calls, and giving up: one process moves, and a claim takes a slot. */
  lemma CallKeepsShape(s: State, a: Action)
    requires StateShape(s) && !a.OpenReader? && !a.CloseReader? && !a.ReaderStep? && !a.LeaverStep? && !a.WriterStep?
    ensures StateShape(Step(s, a))
  {
  }

  lemma StepKeepsShape(s: State, a: Action)
    requires StateShape(s)
    ensures StateShape(Step(s, a)) && |Step(s, a).wpcs| == |s.wpcs|
    ensures |Step(s, a).chan.slots| == |s.chan.slots| && Step(s, a).chan.maxMsg == s.chan.maxMsg
  {
    match a
    case OpenReader => if s.lock.Free? { OpenKeepsShape(s); }
    case CloseReader(i) => if i < |s.rpcs| && s.lock.Free? { CloseKeepsShape(s, i); }
    case ReaderStep(i) => if i < |s.rpcs| { ReaderKeepsShape(s, i); }
    case LeaverStep(l) => if l < |s.leavers| { LeaverKeepsShape(s, l); }
    case WriterStep(w) => if w < |s.wpcs| { WriterKeepsShape(s, w); }
    case _ => CallKeepsShape(s, a);
  }

  // ----- What an observer of a run records -----

  /** One open of a reader: the number of the first claim after it, and the results of its successful reads
      with the sizes asked for. */
  datatype Session = Session(start: nat, delivered: seq<seq<Byte>>, asked: seq<nat>)

  /** claims: the messages of all claims, in claim order. published: which of them are published. claimOf: the
      claim each busy writer works on. sessions: those of the present readers. closed: those of past ones. */
  datatype History = History(
    claims: seq<seq<Byte>>,
    published: seq<bool>,
    claimOf: seq<nat>,
    sessions: seq<Session>,
    closed: seq<Session>)

  predicate HistoryShape(s: State, h: History) {
    && |h.published| == |h.claims|
    && |h.claimOf| == |s.wpcs|
    && |h.sessions| == |s.rpcs|
    && forall w :: 0 <= w < |s.wpcs| && !s.wpcs[w].WIdle? ==> h.claimOf[w] < |h.claims|
  }

  function Delivered(x: Session, out: seq<Byte>, count: nat): Session {
    Session(x.start, x.delivered + [out], x.asked + [count])
  }

  function Track(h: History, s: State, a: Action): History
    requires StateShape(s) && HistoryShape(s, h)
  {
    match a
    case OpenReader => if s.lock.Free? then h.(sessions := h.sessions + [Session(|h.claims|, [], [])]) else h
    case CloseReader(i) =>
      if i < |s.rpcs| && MayClose(s.rpcs[i]) && s.lock.Free? then
        h.(sessions := Removed(h.sessions, i), closed := h.closed + [h.sessions[i]])
      else h
    case ReaderStep(i) =>
      if i < |s.rpcs| && s.rpcs[i].RFinishing? then
        h.(sessions := h.sessions[i := Delivered(h.sessions[i], s.rpcs[i].out, s.rpcs[i].count)])
      else h
    case WriteCall(w, msg) =>
      if Claims(s, w, msg) then
        h.(claims := h.claims + [msg], published := h.published + [false], claimOf := h.claimOf[w := |h.claims|])
      else h
    case WriterStep(w) =>
      if w < |s.wpcs| && s.wpcs[w].WLoaded? then h.(published := h.published[h.claimOf[w] := true]) else h
    case _ => h
  }

  lemma TrackKeepsShape(s: State, h: History, a: Action)
    requires StateShape(s) && HistoryShape(s, h)
    ensures StateShape(Step(s, a)) && HistoryShape(Step(s, a), Track(h, s, a))
  {
    StepKeepsShape(s, a);
  }

  // ----- The rules the code needs -----

  /** No listed reader, online or not, holds this bit. */
  predicate BitUnlisted(c: Chan, bit: int) {
    forall i :: 0 <= i < |c.readers| ==> c.readers[i].bit != bit
  }

  /** No release still clears this bit. */
  predicate BitUnleft(s: State, bit: int) {
    forall l :: 0 <= l < |s.leavers| && s.leavers[l].next < |s.chan.slots| ==> s.leavers[l].bit != bit
  }

  /** Every unfinished write has loaded a mask without this bit. */
  predicate WritesWithout(s: State, bit: int) {
    forall w :: 0 <= w < |s.wpcs| && Busy(s, w) ==> s.wpcs[w].WLoaded? && bit !in s.wpcs[w].loaded
  }

  predicate SlotUnclaimed(s: State, m: nat) {
    forall v :: 0 <= v < |s.wpcs| && Busy(s, v) ==> s.wpcs[v].m != m
  }

  predicate Copying(pc: ReaderPc) { pc.RReading? || pc.RCopying? }

  /** No online reader is between its wait and the end of its copy of slot m. */
  predicate SlotUnread(s: State, m: nat)
    requires |s.rpcs| == |s.chan.readers|
  {
    forall i :: 0 <= i < |s.rpcs| && s.chan.readers[i].online && Copying(s.rpcs[i]) ==> s.chan.readers[i].nextRead != m
  }

  /** Has the timeout that holds the lock, if any, done with slot j? */
  predicate PastSlot(lock: Lock, j: nat) {
    lock.Free? || lock.Marking? || j < lock.j
  }

  /** A timeout or a release under way is still to clear bit b of slot j. */
  predicate ToBeCleared(lock: Lock, leavers: seq<Leaver>, j: nat, b: int) {
    || (!PastSlot(lock, j) && b in lock.captured)
    || exists l :: 0 <= l < |leavers| && leavers[l].next <= j && leavers[l].bit == b
  }

  /** A publication stores a mask whose bits are still set, or still to be cleared in its slot. */
  predicate MaskIsCurrent(s: State, m: nat, loaded: set<int>) {
    forall b :: b in loaded ==> b in s.chan.mask || ToBeCleared(s.lock, s.leavers, m, b)
  }

  /** Does the bitmap of slot j change from one to another behind the back of a timeout that has loaded it and is
      about to store it? Bits that the timeout clears do not matter. */
  predicate Undisturbed(lock: Lock, j: nat, before: set<int>, after: set<int>) {
    lock.Storing? && lock.j == j ==> before - lock.captured == after - lock.captured
  }

  function NextBit(s: State): int { NewBit(s.chan.mask) }

  /** What kzimp leaves to its users and to the scheduler. The first six are about calls; the last four say which
      steps may not fall inside a timeout, a publication or a release. */
  datatype Rule =
    | BitsTestable             // a reader gets a bit that reader_can_read can test
    | OpensWithoutWrites       // no reader opens while a write under way may yet publish its bit
    | BitsNotListed            // its bit is not that of an expelled reader that is still listed
    | BitsNotLeft              // nor one that a release is still clearing
    | SlotsNotShared           // no slot is claimed that an unfinished write holds
    | ClaimsKept               // a claimed slot is published
    | FillsAwayFromReaders     // no slot is filled while a reader not yet marked offline copies it
    | StoresOfCurrentMasks     // no mask is stored that a timeout or a release has made stale
    | StoresApart              // no bitmap is stored between a timeout's load and its store
    | ClearsApart              // no bit is cleared there, unless the timeout clears it too

  predicate Follows(s: State, a: Action, rule: Rule)
    requires StateShape(s)
  {
    match rule
    case BitsTestable => a.OpenReader? && s.lock.Free? ==> 0 <= NextBit(s) < 32
    case OpensWithoutWrites => a.OpenReader? && s.lock.Free? ==> WritesWithout(s, NextBit(s))
    case BitsNotListed => a.OpenReader? && s.lock.Free? ==> BitUnlisted(s.chan, NextBit(s))
    case BitsNotLeft => a.OpenReader? && s.lock.Free? ==> BitUnleft(s, NextBit(s))
    case SlotsNotShared => a.WriteCall? && Claims(s, a.w, a.msg) ==> SlotUnclaimed(s, s.chan.nextWrite)
    case ClaimsKept => a.WriterGivesUp? && a.w < |s.wpcs| ==> !WriterMayGiveUp(s.wpcs[a.w])
    case FillsAwayFromReaders =>
      a.WriterStep? && a.w < |s.wpcs| && s.wpcs[a.w].WReady? ==> SlotUnread(s, s.wpcs[a.w].m)
    case StoresOfCurrentMasks =>
      a.WriterStep? && a.w < |s.wpcs| && s.wpcs[a.w].WLoaded? ==>
        MaskIsCurrent(s, s.wpcs[a.w].m, s.wpcs[a.w].loaded)
    case StoresApart =>
      a.WriterStep? && a.w < |s.wpcs| && s.wpcs[a.w].WLoaded? ==>
        Undisturbed(s.lock, s.wpcs[a.w].m, s.chan.slots[s.wpcs[a.w].m].bitmap, s.wpcs[a.w].loaded)
    case ClearsApart =>
      && (a.ReaderStep? && a.i < |s.rpcs| && s.rpcs[a.i].RFinishing? ==>
            var bitmap := SlotOfReader(s, a.i).bitmap;
            Undisturbed(s.lock, s.chan.readers[a.i].nextRead, bitmap, bitmap - {s.chan.readers[a.i].bit}))
      && (a.LeaverStep? && a.l < |s.leavers| && s.leavers[a.l].next < |s.chan.slots| ==>
            var j := s.leavers[a.l].next;
            var bitmap := s.chan.slots[j].bitmap;
            Undisturbed(s.lock, j, bitmap, bitmap - {s.leavers[a.l].bit}))
  }

  predicate AllowedBy(rules: set<Rule>, s: State, a: Action)
    requires StateShape(s)
  {
    forall rule :: rule in rules ==> Follows(s, a, rule)
  }

  function AllRules(): set<Rule> {
    {BitsTestable, OpensWithoutWrites, BitsNotListed, BitsNotLeft, SlotsNotShared, ClaimsKept, FillsAwayFromReaders,
     StoresOfCurrentMasks, StoresApart, ClearsApart}
  }

  predicate Allowed(s: State, a: Action)
    requires StateShape(s)
  {
    forall rule :: Follows(s, a, rule)
  }

  lemma EveryRule(rule: Rule)
    ensures rule in AllRules()
  {
  }

  lemma AllowedByAll(s: State, a: Action)
    requires StateShape(s)
    ensures AllowedBy(AllRules(), s, a) <==> Allowed(s, a)
  {
    if AllowedBy(AllRules(), s, a) {
      forall rule
        ensures Follows(s, a, rule)
      {
        EveryRule(rule);
      }
    }
  }

  /** A run of steps that follow the rules; it stops at the first step that does not. */
  function RunBy(rules: set<Rule>, s: State, h: History, schedule: seq<Action>): (r: (State, History))
    requires StateShape(s) && HistoryShape(s, h)
    ensures StateShape(r.0) && HistoryShape(r.0, r.1)
    decreases |schedule|
  {
    if schedule == [] || !AllowedBy(rules, s, schedule[0]) then (s, h)
    else
      TrackKeepsShape(s, h, schedule[0]);
      RunBy(rules, Step(s, schedule[0]), Track(h, s, schedule[0]), schedule[1..])
  }

  function Run(s: State, h: History, schedule: seq<Action>): (r: (State, History))
    requires StateShape(s) && HistoryShape(s, h)
    ensures StateShape(r.0) && HistoryShape(r.0, r.1)
  {
    RunBy(AllRules(), s, h, schedule)
  }

  function Idle(n: nat): seq<WriterPc> { seq(n, _ => WIdle) }

  /** A fresh channel of n slots with any contents, and any number of writers. */
  function Fresh(n: nat, maxMsg: nat, area: seq<seq<Byte>>, writers: nat): State
    requires |area| == n
  {
    State(New(n, maxMsg, area), [], Idle(writers), Free, [])
  }

  function NoHistory(writers: nat): History {
    History([], [], seq(writers, _ => 0), [], [])
  }

  predicate AreaFits(area: seq<seq<Byte>>, maxMsg: nat) {
    forall j :: 0 <= j < |area| ==> |area[j]| == maxMsg
  }
}
