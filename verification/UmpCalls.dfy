/** What the calls of both ends have to do with what is sent and received. A ledger records every call that is
    accepted, from the call alone; it is compared with what the channel publishes and returns. */
module UmpCalls {
  import opened UmpInvariant
  import opened UmpPreservation
  import opened UmpProgress
  import opened UmpProtocol
  import opened UmpTheorems
  import opened UmpWire

  /** A call with its argument; kept is false once it has returned an error, having taken nothing. */
  datatype Call<T> = Call(arg: T, kept: bool)

  type Message = seq<Byte>

  datatype Ledger = Ledger(writes: seq<Call<Message>>, asks: seq<Call<nat>>)

  /** The arguments of the calls that are under way or have succeeded, in the order of the calls. */
  function Kept<T>(calls: seq<Call<T>>): seq<T> {
    if calls == [] then []
    else
      var last := calls[|calls| - 1];
      Kept(calls[..|calls| - 1]) + if last.kept then [last.arg] else []
  }

  function GivenUp<T>(calls: seq<Call<T>>): seq<Call<T>> {
    if calls == [] then [] else calls[..|calls| - 1] + [calls[|calls| - 1].(kept := false)]
  }

  /** kbfish_write refuses sizes that are not positive or too large; one end makes one call at a time. */
  predicate WriteAccepted(s: State, msg: Message) { s.spc.SIdle? && 1 <= |msg| <= s.messageBytes }

  /** The window is full, and no ACK has come. */
  predicate WriteMustWait(s: State)
    requires Shape(s)
  {
    s.spc.SLoop? && (s.s.sentId - s.s.ackId) % WORD >= s.s.maxSend
    && s.toSender[s.s.recv.pos].control.epoch != s.s.recv.epoch
  }

  predicate ReadMustWait(s: State)
    requires Shape(s)
  {
    s.rpc.RLoop? && s.toReceiver[s.r.recv.pos].control.epoch != s.r.recv.epoch
  }

  /** What an action means for the calls: a call is made, or one that must wait is given up. */
  function Note(l: Ledger, s: State, a: Action): Ledger
    requires Shape(s)
  {
    match a
    case WriteCall(msg) =>
      if WriteAccepted(s, msg) then l.(writes := l.writes + [Call(msg, true)]) else l
    case WriterGivesUp => if WriteMustWait(s) then l.(writes := GivenUp(l.writes)) else l
    case ReadCall(count) => if s.rpc.RIdle? then l.(asks := l.asks + [Call(count, true)]) else l
    case ReaderGivesUp => if ReadMustWait(s) then l.(asks := GivenUp(l.asks)) else l
    case _ => l
  }

  function Notes(l: Ledger, s: State, schedule: seq<Action>): Ledger
    requires Shape(s)
    decreases |schedule|
  {
    if schedule == [] then l
    else
      StepKeepsShape(s, schedule[0]);
      Notes(Note(l, s, schedule[0]), Step(s, schedule[0]), schedule[1..])
  }

  // ----- Calls served in order -----

  function WriteUnderWay(pc: SenderPc): seq<Message> { if pc.SIdle? then [] else [pc.msg] }

  function ReadUnderWay(pc: ReceiverPc): seq<nat> { if pc.RIdle? then [] else [pc.count] }

  /** What has been published, followed by the write under way, is what was written; what was asked for likewise. */
  ghost predicate Served(s: State, h: History, l: Ledger) {
    && Kept(l.writes) == h.sent + WriteUnderWay(s.spc)
    && Kept(l.asks) == h.asked + ReadUnderWay(s.rpc)
    && (!s.spc.SIdle? ==> l.writes != [] && l.writes[|l.writes| - 1].kept)
    && (!s.rpc.RIdle? ==> l.asks != [] && l.asks[|l.asks| - 1].kept)
  }

  lemma KeptOneMore<T>(calls: seq<Call<T>>, arg: T)
    ensures Kept(calls + [Call(arg, true)]) == Kept(calls) + [arg]
  {
    assert (calls + [Call(arg, true)])[..|calls|] == calls;
  }

  lemma KeptOneLess<T>(calls: seq<Call<T>>, kept: seq<T>, last: T)
    requires calls != [] && calls[|calls| - 1].kept && Kept(calls) == kept + [last]
    ensures Kept(GivenUp(calls)) == kept
  {
    var n := |calls| - 1;
    assert GivenUp(calls)[..n] == calls[..n];
    assert Kept(calls)[..|Kept(calls)| - 1] == Kept(calls[..n]);
    assert (kept + [last])[..|kept|] == kept;
  }

  lemma SenderServes(s: State, h: History, l: Ledger)
    requires Inv(s, h) && Served(s, h, l)
    ensures Served(SenderNext(s), TrackSender(h, s), l)
  {
    if s.spc.SAckPolled? {
      AckPoll(s, h);
    }
  }

  lemma ReceiverServes(s: State, h: History, l: Ledger)
    requires Inv(s, h) && Served(s, h, l)
    ensures Served(ReceiverNext(s), TrackReceiver(h, s), l)
  {
    match s.rpc
    case RPolled(_) =>
      DataPoll(s, h);
    case RAckCheck(_, _, _) =>
      TestAckCounters(s, h);
    case _ =>
  }

  lemma WriteCallServes(s: State, h: History, l: Ledger, msg: Message)
    requires Shape(s) && Served(s, h, l)
    ensures Served(Step(s, WriteCall(msg)), h, Note(l, s, WriteCall(msg)))
  {
    KeptOneMore(l.writes, msg);
  }

  lemma ReadCallServes(s: State, h: History, l: Ledger, count: nat)
    requires Shape(s) && Served(s, h, l)
    ensures Served(Step(s, ReadCall(count)), h, Note(l, s, ReadCall(count)))
  {
    KeptOneMore(l.asks, count);
  }

  lemma WriterGivesUpServes(s: State, h: History, l: Ledger)
    requires Shape(s) && Served(s, h, l)
    ensures Served(Step(s, WriterGivesUp), h, Note(l, s, WriterGivesUp))
  {
    if WriteMustWait(s) {
      KeptOneLess(l.writes, h.sent, s.spc.msg);
    }
  }

  lemma ReaderGivesUpServes(s: State, h: History, l: Ledger)
    requires Shape(s) && Served(s, h, l)
    ensures Served(Step(s, ReaderGivesUp), h, Note(l, s, ReaderGivesUp))
  {
    if ReadMustWait(s) {
      KeptOneLess(l.asks, h.asked, s.rpc.count);
    }
  }

  lemma StepServes(s: State, h: History, l: Ledger, a: Action)
    requires Inv(s, h) && Served(s, h, l)
    ensures Served(Step(s, a), Track(h, s, a), Note(l, s, a))
  {
    match a
    case WriteCall(msg) => WriteCallServes(s, h, l, msg);
    case SenderStep => SenderServes(s, h, l);
    case WriterGivesUp => WriterGivesUpServes(s, h, l);
    case ReadCall(count) => ReadCallServes(s, h, l, count);
    case ReceiverStep => ReceiverServes(s, h, l);
    case ReaderGivesUp => ReaderGivesUpServes(s, h, l);
  }

  lemma {:induction false} RunServes(s: State, h: History, l: Ledger, schedule: seq<Action>)
    requires Inv(s, h) && Served(s, h, l)
    ensures var (f, e) := Run(s, h, schedule); Served(f, e, Notes(l, s, schedule))
    decreases |schedule|
  {
    if schedule != [] {
      var a := schedule[0];
      StepKeeps(s, h, a);
      StepServes(s, h, l, a);
      RunServes(Step(s, a), Track(h, s, a), Note(l, s, a), schedule[1..]);
    }
  }

  function Calls(n: Index, messageBytes: nat, schedule: seq<Action>): Ledger
    requires 0 < n
  {
    OpenedShape(n, messageBytes);
    Notes(Ledger([], []), Opened(n, messageBytes), schedule)
  }

  // ----- From call to call -----

  /** Whatever the calls and the interleaving: write number i, of those not given up, is published as message i, and
      is what read number i, of those not given up, returns: cut to MESSAGE_BYTES or the size that the read was
      called with, or followed up to it by what the slot held a lap earlier, on the first lap zeros. */
  lemma WritesReachReads(n: Index, messageBytes: nat, schedule: seq<Action>)
    requires 2 <= n
    ensures var (s, h) := After(n, messageBytes, schedule);
      var l := Calls(n, messageBytes, schedule);
      var written, asked := Kept(l.writes), Kept(l.asks);
      && written == h.sent + WriteUnderWay(s.spc) && asked == h.asked + ReadUnderWay(s.rpc)
      && |h.delivered| == |h.asked| <= |h.sent| && Fits(h.sent, messageBytes)
      && forall i :: 0 <= i < |h.delivered| ==>
           var r, m := h.delivered[i], written[i];
           && |r| == Min(messageBytes, asked[i])
           && (forall k :: 0 <= k < |r| && k < |m| ==> r[k] == m[k])
           && (forall k :: |m| <= k < |r| ==> r[k] == if i < n then 0 else Image(h.sent, i - n, n, messageBytes)[k])
  {
    InvInitially(n, messageBytes);
    RunServes(Opened(n, messageBytes), NO_HISTORY, Ledger([], []), schedule);
    FifoExactlyOnce(n, messageBytes, schedule);
  }

  lemma {:induction false} NoCalls(l: Ledger, s: State, schedule: seq<Action>)
    requires Shape(s) && StepsOnly(schedule)
    ensures Notes(l, s, schedule) == l
    decreases |schedule|
  {
    if schedule != [] {
      StepKeepsShape(s, schedule[0]);
      NoCalls(l, Step(s, schedule[0]), schedule[1..]);
    }
  }

  lemma OneCallMore(s: State, h: History, l: Ledger, a: Action, schedule: seq<Action>)
    requires Inv(s, h) && Served(s, h, l) && StepsOnly(schedule)
    ensures var (f, e) := Run(s, h, [a] + schedule);
      && Served(f, e, Note(l, s, a))
      && (f.rpc.RIdle? ==> |e.delivered| == |e.asked| == e.taken)
  {
    var all := [a] + schedule;
    RunServes(s, h, l, all);
    RunKeeps(s, h, all);
    StepKeepsShape(s, a);
    assert all[1..] == schedule;
    NoCalls(Note(l, s, a), Step(s, a), schedule);
  }

  lemma OneMoreSent(s: State, h: History, l: Ledger, f: State, e: History, l1: Ledger, msg: Message)
    requires Served(s, h, l) && Served(f, e, l1) && s.spc.SIdle? && f.spc.SIdle?
    requires l1.writes == l.writes + [Call(msg, true)]
    ensures e.sent == h.sent + [msg]
  {
    KeptOneMore(l.writes, msg);
    assert h.sent + [] == h.sent && e.sent + [] == e.sent;
  }

  lemma OneMoreAsked(s: State, h: History, l: Ledger, f: State, e: History, l1: Ledger, count: nat)
    requires Served(s, h, l) && Served(f, e, l1) && s.rpc.RIdle? && f.rpc.RIdle?
    requires l1.asks == l.asks + [Call(count, true)]
    ensures e.asked == h.asked + [count]
  {
    KeptOneMore(l.asks, count);
    assert h.asked + [] == h.asked && e.asked + [] == e.asked;
  }

  lemma ReachableServes(n: Index, messageBytes: nat, schedule: seq<Action>)
    requires 2 <= n
    ensures var (s, h) := After(n, messageBytes, schedule);
      Inv(s, h) && s.messageBytes == messageBytes && Served(s, h, Calls(n, messageBytes, schedule))
  {
    ReachableInv(n, messageBytes, schedule);
    InvInitially(n, messageBytes);
    RunServes(Opened(n, messageBytes), NO_HISTORY, Ledger([], []), schedule);
  }

  /** From every reachable state in which no write is under way: a write that is accepted, once it has returned, has
      published its message, and only that. */
  lemma WriteIsSent(n: Index, messageBytes: nat, before: seq<Action>, msg: Message, schedule: seq<Action>)
    requires 2 <= n && StepsOnly(schedule) && 0 < |msg| <= messageBytes
    requires After(n, messageBytes, before).0.spc.SIdle?
    ensures var (s, h) := After(n, messageBytes, before);
      && Shape(s)
      && var (f, e) := Run(s, h, [WriteCall(msg)] + schedule);
         f.spc.SIdle? ==> e.sent == h.sent + [msg]
  {
    ReachableServes(n, messageBytes, before);
    var (s, h) := After(n, messageBytes, before);
    var l := Calls(n, messageBytes, before);
    var (f, e) := Run(s, h, [WriteCall(msg)] + schedule);
    OneCallMore(s, h, l, WriteCall(msg), schedule);
    if f.spc.SIdle? {
      OneMoreSent(s, h, l, f, e, Note(l, s, WriteCall(msg)), msg);
    }
  }

  /** From every reachable state in which no read is under way: a read, once it has returned, has returned one
      message, for the size it was called with. */
  lemma ReadIsAnswered(n: Index, messageBytes: nat, before: seq<Action>, count: nat, schedule: seq<Action>)
    requires 2 <= n && StepsOnly(schedule) && After(n, messageBytes, before).0.rpc.RIdle?
    ensures var (s, h) := After(n, messageBytes, before);
      && Shape(s)
      && var (f, e) := Run(s, h, [ReadCall(count)] + schedule);
         f.rpc.RIdle? ==> e.asked == h.asked + [count] && |e.delivered| == |h.delivered| + 1
  {
    ReachableServes(n, messageBytes, before);
    var (s, h) := After(n, messageBytes, before);
    var l := Calls(n, messageBytes, before);
    var (f, e) := Run(s, h, [ReadCall(count)] + schedule);
    OneCallMore(s, h, l, ReadCall(count), schedule);
    if f.rpc.RIdle? {
      OneMoreAsked(s, h, l, f, e, Note(l, s, ReadCall(count)), count);
    }
  }
}
