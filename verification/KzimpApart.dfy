/** Timeouts and releases that overlap no other call: then the rules about calls are enough, and those about what
    falls inside a timeout, a publication or a release hold by themselves. */
module KzimpApart {
  import opened KzimpChan
  import opened KzimpInvariant
  import opened KzimpProtocol
  import opened KzimpTheorems
  import opened KzimpTimeouts
  import opened KzimpWriters

  /** The rules about opens, bits and claims, which a caller can keep. */
  function CallRules(): set<Rule> {
    {BitsTestable, OpensWithoutWrites, BitsNotListed, SlotsNotShared, ClaimsKept}
  }

  predicate InTimeout(pc: WriterPc) { pc.WCaptured? || pc.WLocked? }

  predicate InRelease(s: State, l: nat) { l < |s.leavers| && s.leavers[l].next < |s.chan.slots| }

  /** Nobody but v is in a write past its wait. */
  predicate WritesWait(wpcs: seq<WriterPc>, v: nat) {
    forall w :: 0 <= w < |wpcs| && w != v ==> wpcs[w].WIdle? || wpcs[w].WWaiting?
  }

  /** While a timeout or a release is under way only that goes on, and neither begins during a write that is past
      its wait. Reads, and writes that wait, may be under way. */
  predicate Apart(s: State, a: Action) {
    && (forall w :: 0 <= w < |s.wpcs| && InTimeout(s.wpcs[w]) ==> a == WriterStep(w))
    && (forall l :: 0 <= l < |s.leavers| && InRelease(s, l) ==> a == LeaverStep(l))
    && (a.Timeout? ==> WritesWait(s.wpcs, a.w))
    && (a.CloseReader? ==> WritesWait(s.wpcs, |s.wpcs|))
  }

  /** No call is under way but a write by v. */
  predicate NoCallBut(s: State, v: nat) {
    && (forall i :: 0 <= i < |s.rpcs| ==> s.rpcs[i].RIdle?)
    && (forall w :: 0 <= w < |s.wpcs| && w != v ==> s.wpcs[w].WIdle?)
    && (forall l :: 0 <= l < |s.leavers| ==> !InRelease(s, l))
  }

  /** In a user's terms: a timeout or a release begins when no other call is under way, and none begins during it. */
  predicate CallsApart(s: State, a: Action) {
    && (forall w :: 0 <= w < |s.wpcs| && InTimeout(s.wpcs[w]) ==> a == WriterStep(w))
    && (forall l :: 0 <= l < |s.leavers| && InRelease(s, l) ==> a == LeaverStep(l))
    && (a.Timeout? ==> NoCallBut(s, a.w))
    && (a.CloseReader? ==> NoCallBut(s, |s.wpcs|))
  }

  lemma CallsApartAreApart(s: State, a: Action)
    requires CallsApart(s, a)
    ensures Apart(s, a)
  {
  }

  /** Loaded masks are still within the mask, and while a timeout is under way no other write is past its wait. */
  ghost predicate Settled(s: State) {
    && (forall w :: 0 <= w < |s.wpcs| && s.wpcs[w].WLoaded? ==> s.wpcs[w].loaded <= s.chan.mask)
    && (forall v :: 0 <= v < |s.wpcs| && InTimeout(s.wpcs[v]) ==> WritesWait(s.wpcs, v))
  }

  // ----- The rules that hold by themselves -----

  /** Whoever holds the lock is in a timeout, so nobody else steps. */
  lemma HolderSteps(s: State, h: History, a: Action)
    requires Inv(s, h) && Apart(s, a) && !s.lock.Free?
    ensures a == WriterStep(s.lock.w) && s.lock.w < |s.wpcs| && s.wpcs[s.lock.w].WLocked?
  {
    assert HoldsLock(s.lock, s.lock.w) && s.wpcs[s.lock.w].WLocked?;
  }

  /** An online reader that copies a slot still has its bit set there, so no writer is past its wait. */
  lemma FilledSlotIsUnread(s: State, h: History, w: nat)
    requires Inv(s, h) && s.lock.Free? && w < |s.wpcs| && s.wpcs[w].WReady?
    ensures SlotUnread(s, s.wpcs[w].m)
  {
    forall i | 0 <= i < |s.rpcs| && s.chan.readers[i].online && Copying(s.rpcs[i])
      ensures s.chan.readers[i].nextRead != s.wpcs[w].m
    {
      assert ReadOk(s.rpcs[i], s.chan.readers[i], NextClaim(h.sessions[i]), s.chan.slots, s.wpcs, h.claims,
                    h.published);
      ReadableIffNextPublished(s, h, i);
      ReaderTestIsExact(SlotOfReader(s, i).bitmap, s.chan.readers[i].bit);
      WriterSlotNow(s, h, w);
    }
  }

  lemma NothingIsLeft(s: State, bit: int)
    requires Apart(s, OpenReader)
    ensures BitUnleft(s, bit)
  {
    assert forall l :: 0 <= l < |s.leavers| ==> !InRelease(s, l) && s.leavers[l].next >= |s.chan.slots|;
  }

  /** With timeouts and releases apart, a step that follows the rules about calls follows all of them. */
  lemma ApartFollows(s: State, h: History, a: Action)
    requires Inv(s, h) && Settled(s) && Apart(s, a) && AllowedBy(CallRules(), s, a)
    ensures Allowed(s, a)
  {
    forall rule
      ensures Follows(s, a, rule)
    {
      if rule !in CallRules() {
        ApartFollowsRule(s, h, a, rule);
      }
    }
  }

  lemma ApartFollowsRule(s: State, h: History, a: Action, rule: Rule)
    requires Inv(s, h) && Settled(s) && Apart(s, a) && rule !in CallRules()
    ensures Follows(s, a, rule)
  {
    if !s.lock.Free? {
      HolderSteps(s, h, a);
    }
    if rule.BitsNotLeft? && a.OpenReader? {
      NothingIsLeft(s, NextBit(s));
    }
    if rule.FillsAwayFromReaders? && a.WriterStep? && a.w < |s.wpcs| && s.wpcs[a.w].WReady? {
      FilledSlotIsUnread(s, h, a.w);
    }
  }

  // ----- What such steps keep -----

  lemma ApartKeepsSettled(s: State, h: History, a: Action)
    requires Inv(s, h) && Settled(s) && Apart(s, a)
    ensures Settled(Step(s, a))
  {
    match a
    case WriterStep(w) => if w < |s.wpcs| { WriterKeepsSettled(s, h, w); }
    case ReaderStep(i) => if i < |s.rpcs| { ReaderKeepsSettled(s, i); }
    case LeaverStep(l) => if l < |s.leavers| { LeaverKeepsSettled(s, l); }
    case _ => CallKeepsSettled(s, h, a);
  }

  lemma ReaderKeepsSettled(s: State, i: nat)
    requires StateShape(s) && Settled(s) && i < |s.rpcs|
    ensures Settled(ReaderNext(s, i))
  {
    assert ReaderNext(s, i).wpcs == s.wpcs && ReaderNext(s, i).chan.mask == s.chan.mask;
  }

  lemma LeaverKeepsSettled(s: State, l: nat)
    requires StateShape(s) && Settled(s) && l < |s.leavers|
    ensures Settled(LeaverNext(s, l))
  {
    assert LeaverNext(s, l).wpcs == s.wpcs && LeaverNext(s, l).chan.mask == s.chan.mask;
  }

  lemma CallKeepsSettled(s: State, h: History, a: Action)
    requires Inv(s, h) && Settled(s) && Apart(s, a) && !a.ReaderStep? && !a.LeaverStep? && !a.WriterStep?
    ensures Settled(Step(s, a))
  {
  }

  /** Other writers stay where they are; a mask is loaded from the mask, and shrinks only when all others wait. */
  lemma WriterChanges(s: State, h: History, w: nat)
    requires Inv(s, h) && w < |s.wpcs|
    ensures var s1 := WriterNext(s, w);
      && |s1.wpcs| == |s.wpcs| && (forall v :: 0 <= v < |s.wpcs| && v != w ==> s1.wpcs[v] == s.wpcs[v])
      && (s1.wpcs[w].WLoaded? ==> s1.wpcs[w].loaded == s1.chan.mask)
      && (s1.chan.mask == s.chan.mask || s.wpcs[w].WCaptured?)
      && (InTimeout(s1.wpcs[w]) ==> InTimeout(s.wpcs[w]))
      && (s.wpcs[w].WIdle? ==> s1 == s)
  {
  }

  lemma WriterKeepsSettled(s: State, h: History, w: nat)
    requires Inv(s, h) && Settled(s) && Apart(s, WriterStep(w)) && w < |s.wpcs|
    ensures Settled(WriterNext(s, w))
  {
    WriterChanges(s, h, w);
  }

  /** A run of steps that are apart and follow the rules about calls; it stops at the first step that does not. */
  function RunApart(s: State, h: History, schedule: seq<Action>): (r: (State, History))
    requires StateShape(s) && HistoryShape(s, h)
    ensures StateShape(r.0) && HistoryShape(r.0, r.1)
    decreases |schedule|
  {
    if schedule == [] || !Apart(s, schedule[0]) || !AllowedBy(CallRules(), s, schedule[0]) then (s, h)
    else
      TrackKeepsShape(s, h, schedule[0]);
      RunApart(Step(s, schedule[0]), Track(h, s, schedule[0]), schedule[1..])
  }

  lemma {:induction false} RunApartKeeps(s: State, h: History, schedule: seq<Action>)
    requires Inv(s, h) && Settled(s)
    ensures var r := RunApart(s, h, schedule); Inv(r.0, r.1) && Settled(r.0)
    decreases |schedule|
  {
    if schedule != [] && Apart(s, schedule[0]) && AllowedBy(CallRules(), s, schedule[0]) {
      var a := schedule[0];
      ApartFollows(s, h, a);
      StepKeeps(s, h, a);
      TrackKeepsShape(s, h, a);
      ApartKeepsSettled(s, h, a);
      RunApartKeeps(Step(s, a), Track(h, s, a), schedule[1..]);
    }
  }

  /** Every reader gets its queue on every run on which timeouts and releases overlap no other call and the rules
      about opens, bits and claims are followed. */
  lemma QueuesOfCallersApart(n: nat, maxMsg: nat, area: seq<seq<Byte>>, writers: nat, schedule: seq<Action>)
    requires 0 < n == |area| && AreaFits(area, maxMsg)
    ensures var r := RunApart(Fresh(n, maxMsg, area, writers), NoHistory(writers), schedule);
      Inv(r.0, r.1) && QueuesOk(r.1)
  {
    InvInitially(n, maxMsg, area, writers);
    RunApartKeeps(Fresh(n, maxMsg, area, writers), NoHistory(writers), schedule);
  }
}
