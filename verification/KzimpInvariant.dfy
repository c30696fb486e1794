/** What every reachable state of a kzimp channel satisfies. Claims are numbered; a reader's position is the
    number of the claim it reads next. */
module KzimpInvariant {
  import opened KzimpChan
  import opened KzimpProtocol
  import opened RingArith

  /** The claim that a session reads next. */
  function NextClaim(x: Session): nat { x.start + |x.delivered| }

  /** The readers that the timeout in progress, if any, is to expel. */
  function Condemned(lock: Lock): set<int> { if lock.Free? then {} else lock.captured }

  /** An online reader that is not condemned. */
  predicate Member(r: Ctrl, condemned: set<int>) { r.online && r.bit !in condemned }

  function MemberBits(rs: seq<Ctrl>, condemned: set<int>): set<int> {
    set i | 0 <= i < |rs| && Member(rs[i], condemned) :: rs[i].bit
  }

  /** Is claim q (negative: before the first) published? */
  predicate IsPublished(published: seq<bool>, q: int)
    requires q < |published|
  {
    q < 0 || published[q]
  }

  /** The last claim published in the slot of claim q, one of the last n claims. */
  function LastPublished(published: seq<bool>, q: int, n: nat): int
    requires q < |published|
  {
    if IsPublished(published, q) then q else q - n
  }

  // ----- Readers and writers -----

  /** Listed readers have distinct bits and stand at the slot of the claim they read next. */
  ghost predicate ReadersOk(rs: seq<Ctrl>, xs: seq<Session>, claims: nat, n: nat)
    requires n > 0
  {
    && |xs| == |rs|
    && (forall i, k :: 0 <= i < k < |rs| ==> rs[i].bit != rs[k].bit)
    && (forall i :: 0 <= i < |rs| ==>
          0 <= rs[i].bit < 32 && NextClaim(xs[i]) <= claims && rs[i].nextRead == SlotOf(NextClaim(xs[i]), n))
  }

  /** A release clears no listed reader's bit. */
  ghost predicate LeaversOk(leavers: seq<Leaver>, rs: seq<Ctrl>, n: nat) {
    forall l, i :: 0 <= l < |leavers| && 0 <= i < |rs| && leavers[l].next < n ==> leavers[l].bit != rs[i].bit
  }

  /** Busy writers hold distinct unpublished claims of the last lap; every unpublished claim has its writer. */
  ghost predicate WritersOk(
    wpcs: seq<WriterPc>, claimOf: seq<nat>, claims: seq<seq<Byte>>, published: seq<bool>, n: nat)
    requires n > 0
  {
    && |claimOf| == |wpcs| && |published| == |claims|
    && (forall w :: 0 <= w < |wpcs| && !wpcs[w].WIdle? ==>
          && |claims| - n <= claimOf[w] < |claims|
          && !published[claimOf[w]]
          && wpcs[w].m == SlotOf(claimOf[w], n)
          && wpcs[w].msg == claims[claimOf[w]])
    && (forall v, w :: 0 <= v < w < |wpcs| && !wpcs[v].WIdle? && !wpcs[w].WIdle? ==> claimOf[v] != claimOf[w])
    && (forall q :: 0 <= q < |claims| && !published[q] ==>
          exists w :: 0 <= w < |wpcs| && !wpcs[w].WIdle? && claimOf[w] == q)
  }

  ghost predicate LockOk(lock: Lock, wpcs: seq<WriterPc>) {
    forall w :: 0 <= w < |wpcs| ==> (wpcs[w].WLocked? <==> HoldsLock(lock, w))
  }

  /** A reader about to read claim next has not passed the claim q of writer pc; a mask that pc has loaded has
      exactly the members that have not, none of them a lap behind. */
  predicate Behind(r: Ctrl, next: nat, pc: WriterPc, q: nat, condemned: set<int>, n: nat) {
    if pc.WLoaded? then
      && (r.bit in pc.loaded ==> q - n < next <= q)
      && (r.bit !in condemned && next <= q ==> r.bit in pc.loaded)
    else next <= q
  }

  ghost predicate OrderOk(
    rs: seq<Ctrl>, xs: seq<Session>, wpcs: seq<WriterPc>, claimOf: seq<nat>, condemned: set<int>, n: nat)
    requires |xs| == |rs| && |claimOf| == |wpcs|
  {
    forall i, w :: 0 <= i < |rs| && rs[i].online && 0 <= w < |wpcs| && !wpcs[w].WIdle? ==>
      Behind(rs[i], NextClaim(xs[i]), wpcs[w], claimOf[w], condemned, n)
  }

  // ----- Bitmaps -----

  /** Members that still have to read claim p, the last published in slot j, have their bit set; online readers
      with their bit set have to read p, and other bits are about to be cleared. */
  ghost predicate SlotBits(
    bitmap: set<int>, j: nat, p: int, rs: seq<Ctrl>, xs: seq<Session>, mask: set<int>, lock: Lock,
    leavers: seq<Leaver>, n: nat)
    requires |xs| == |rs|
  {
    && (forall i :: 0 <= i < |rs| && Member(rs[i], Condemned(lock)) && NextClaim(xs[i]) <= p ==> rs[i].bit in bitmap)
    && (forall i :: 0 <= i < |rs| && rs[i].online && rs[i].bit in bitmap ==> p - n < NextClaim(xs[i]) <= p)
    && (forall b :: b in bitmap ==> b in mask || ToBeCleared(lock, leavers, j, b))
  }

  ghost predicate BitmapsOk(
    slots: seq<Slot>, rs: seq<Ctrl>, xs: seq<Session>, published: seq<bool>, mask: set<int>, lock: Lock,
    leavers: seq<Leaver>, n: nat)
    requires n > 0 && |slots| == n && |xs| == |rs|
  {
    forall q :: |published| - n <= q < |published| ==>
      SlotBits(slots[SlotOf(q, n)].bitmap, SlotOf(q, n), LastPublished(published, q, n), rs, xs, mask, lock, leavers, n)
  }

  predicate PastWait(pc: WriterPc) { pc.WReady? || pc.WFilling? || pc.WPublishing? || pc.WLoaded? }

  /** Past its wait, a writer's slot has no bit left; during its timeout, captured ones until the slot is done. */
  predicate WriterBits(pc: WriterPc, bitmap: set<int>, lock: Lock) {
    && (pc.WCaptured? ==> bitmap <= pc.captured)
    && (pc.WLocked? ==> bitmap <= Condemned(lock) && (PastSlot(lock, pc.m) ==> bitmap == {}))
    && (PastWait(pc) ==> bitmap == {})
  }

  ghost predicate ClearedOk(slots: seq<Slot>, wpcs: seq<WriterPc>, lock: Lock) {
    forall w :: 0 <= w < |wpcs| && !wpcs[w].WIdle? && wpcs[w].m < |slots| ==>
      WriterBits(wpcs[w], slots[wpcs[w].m].bitmap, lock)
  }

  /** What a timeout has loaded and is about to store is what the slot holds, but for the bits it clears. */
  ghost predicate WindowOk(lock: Lock, slots: seq<Slot>) {
    lock.Storing? && lock.j < |slots| ==>
      slots[lock.j].bitmap - lock.captured == lock.loaded - lock.captured
  }

  /** The captured readers up to reader i are offline. */
  ghost predicate MarkingOk(lock: Lock, rs: seq<Ctrl>) {
    lock.Marking? ==> forall k :: 0 <= k < lock.i && k < |rs| && rs[k].bit in lock.captured ==> !rs[k].online
  }

  // ----- Contents -----

  predicate Holds(s: Slot, msg: seq<Byte>) {
    s.len == |msg| <= |s.data| && s.data[..|msg|] == msg
  }

  predicate Filling(pc: WriterPc) { pc.WFilling? || pc.WPublishing? || pc.WLoaded? }

  /** The slot of a busy writer holding claim q: still the message a lap back, or already its own. */
  predicate WriterSlot(s: Slot, pc: WriterPc, claims: seq<seq<Byte>>, q: nat, n: nat)
    requires q < |claims|
  {
    match pc
    case WFilling(_, msg, k) => k <= |msg| <= |s.data| && s.data[..k] == msg[..k]
    case WPublishing(_, msg) => Holds(s, msg)
    case WLoaded(_, msg, _) => Holds(s, msg)
    case _ => q - n >= 0 ==> Holds(s, claims[q - n])
  }

  /** Slots show their last published message until the next writer fills them. */
  ghost predicate ContentsOk(
    slots: seq<Slot>, wpcs: seq<WriterPc>, claimOf: seq<nat>, claims: seq<seq<Byte>>, published: seq<bool>, n: nat)
    requires n > 0 && |slots| == n && |claimOf| == |wpcs| && |published| == |claims|
  {
    && (forall q :: |claims| - n <= q < |claims| && 0 <= q && published[q] ==> Holds(slots[SlotOf(q, n)], claims[q]))
    && (forall w :: 0 <= w < |wpcs| && !wpcs[w].WIdle? && claimOf[w] < |claims| ==>
          WriterSlot(slots[SlotOf(claimOf[w], n)], wpcs[w], claims, claimOf[w], n))
  }

  // ----- Reads -----

  /** What a read of count bytes returns for a message. */
  function ReadOf(msg: seq<Byte>, count: nat): seq<Byte> { msg[..MinOf(|msg|, count)] }

  /** What a read under way has copied. */
  predicate CopiedSoFar(pc: ReaderPc, msg: seq<Byte>) {
    match pc
    case RCopying(count, size, out) =>
      size == |ReadOf(msg, count)| && |out| <= size && out == ReadOf(msg, count)[..|out|]
    case RCopied(count, out) => out == ReadOf(msg, count)
    case RFinishing(count, out) => out == ReadOf(msg, count)
    case _ => true
  }

  predicate InRead(pc: ReaderPc) { Copying(pc) || pc.RCopied? || pc.RFinishing? }

  /** No writer has begun to fill slot m. */
  ghost predicate NobodyFills(wpcs: seq<WriterPc>, m: nat) {
    forall w :: 0 <= w < |wpcs| && Filling(wpcs[w]) ==> wpcs[w].m != m
  }

  /** A read under way of an online reader works on a published claim, whose message stays in the slot until the
      copy is done; a read past the test of online has copied its message whatever happens. */
  ghost predicate ReadOk(
    pc: ReaderPc, r: Ctrl, next: nat, slots: seq<Slot>, wpcs: seq<WriterPc>, claims: seq<seq<Byte>>,
    published: seq<bool>)
    requires |published| == |claims|
  {
    && (InRead(pc) && (r.online || pc.RFinishing?) ==>
          next < |claims| && published[next] && CopiedSoFar(pc, claims[next]))
    && (Copying(pc) && r.online ==>
          && next < |claims| && r.nextRead < |slots|
          && Holds(slots[r.nextRead], claims[next]) && NobodyFills(wpcs, r.nextRead))
  }

  ghost predicate ReadingOk(
    rpcs: seq<ReaderPc>, rs: seq<Ctrl>, xs: seq<Session>, slots: seq<Slot>, wpcs: seq<WriterPc>,
    claims: seq<seq<Byte>>, published: seq<bool>)
    requires |rpcs| == |rs| == |xs| && |published| == |claims|
  {
    forall i :: 0 <= i < |rs| ==> ReadOk(rpcs[i], rs[i], NextClaim(xs[i]), slots, wpcs, claims, published)
  }

  /** A session has read consecutive claims, each once. */
  predicate SessionOk(x: Session, claims: seq<seq<Byte>>) {
    && NextClaim(x) <= |claims|
    && |x.asked| == |x.delivered|
    && forall k :: 0 <= k < |x.delivered| ==> x.delivered[k] == ReadOf(claims[x.start + k], x.asked[k])
  }

  ghost predicate SessionsOk(xs: seq<Session>, claims: seq<seq<Byte>>) {
    forall i :: 0 <= i < |xs| ==> SessionOk(xs[i], claims)
  }

  // ----- The invariant -----

  ghost predicate Inv(s: State, h: History) {
    var n, rs, xs, slots := |s.chan.slots|, s.chan.readers, h.sessions, s.chan.slots;
    && StateShape(s) && HistoryShape(s, h)
    && s.chan.nextWrite == SlotOf(|h.claims|, n)
    && s.chan.mask == MemberBits(rs, Condemned(s.lock))
    && ReadersOk(rs, xs, |h.claims|, n)
    && LeaversOk(s.leavers, rs, n)
    && WritersOk(s.wpcs, h.claimOf, h.claims, h.published, n)
    && LockOk(s.lock, s.wpcs)
    && OrderOk(rs, xs, s.wpcs, h.claimOf, Condemned(s.lock), n)
    && BitmapsOk(slots, rs, xs, h.published, s.chan.mask, s.lock, s.leavers, n)
    && ClearedOk(slots, s.wpcs, s.lock)
    && WindowOk(s.lock, slots)
    && MarkingOk(s.lock, rs)
    && ContentsOk(slots, s.wpcs, h.claimOf, h.claims, h.published, n)
    && ReadingOk(s.rpcs, rs, xs, slots, s.wpcs, h.claims, h.published)
    && SessionsOk(xs, h.claims)
    && SessionsOk(h.closed, h.claims)
  }

  lemma InvInitially(n: nat, maxMsg: nat, area: seq<seq<Byte>>, writers: nat)
    requires 0 < n == |area| && AreaFits(area, maxMsg)
    ensures Inv(Fresh(n, maxMsg, area, writers), NoHistory(writers))
  {
    DivModUnique(0, n, 0, 0);
  }
}
