/** Calls that are under way return, however the two ends take turns. */
module UmpProgress {
  import opened UmpInvariant
  import opened UmpPreservation
  import opened UmpProtocol
  import opened UmpTheorems
  import opened UmpWire

  // ----- The steps that a call has left -----

  function SenderWork(s: State): nat
    requires Shape(s)
  {
    match s.spc
    case SIdle => 0
    case SLoop(m) => if CanSend(s.s) then |m| + 2 else |m| + 4
    case SAckPolled(m) => |m| + 3
    case SCopying(m, _, _, k) => |m| - k + 1
  }

  function ReceiverWork(s: State): nat
    requires Shape(s)
  {
    match s.rpc
    case RIdle => 0
    case RAckPublish(_, _, _, _, _) => 1
    case RAckCheck(_, _, _) => 2
    case RCopying(count, _, out) => Min(s.messageBytes, count) - |out| + 3
    case RPolled(count) => Min(s.messageBytes, count) + 4
    case RLoop(count) => Min(s.messageBytes, count) + 5
  }

  // ----- The sender -----

  /** A step of a write that is not blocked does some of the work left; the write is done, or still not blocked. */
  lemma SenderStepWorks(s: State, h: History)
    requires Inv(s, h) && s.spc != SIdle && !SenderBlocked(s)
    ensures Shape(SenderNext(s)) && SenderWork(SenderNext(s)) < SenderWork(s)
    ensures !SenderBlocked(SenderNext(s))
  {
    StepKeepsShape(s, SenderStep);
    if s.spc.SAckPolled? {
      TakeAckKeeps(s, h);
    }
  }

  lemma AckStaysUnread(s: State, h: History)
    requires Inv(s, h) && Poll(s.toSender, s.s.recv)
    ensures Shape(ReceiverNext(s)) && Poll(ReceiverNext(s).toSender, ReceiverNext(s).s.recv)
  {
    StepKeepsShape(s, ReceiverStep);
    AckPoll(s, h);
    ReceiverKeeps(s, h);
    AckPoll(ReceiverNext(s), TrackReceiver(h, s));
  }

  /** The receiver's steps take nothing from the sender. */
  lemma SenderStaysFree(s: State, h: History)
    requires Inv(s, h) && !SenderBlocked(s)
    ensures Shape(ReceiverNext(s)) && ReceiverNext(s).spc == s.spc
    ensures SenderWork(ReceiverNext(s)) == SenderWork(s) && !SenderBlocked(ReceiverNext(s))
  {
    StepKeepsShape(s, ReceiverStep);
    if Poll(s.toSender, s.s.recv) {
      AckStaysUnread(s, h);
    }
  }

  // ----- The receiver -----

  lemma TakeWorks(s: State, h: History)
    requires Inv(s, h) && s.rpc.RPolled?
    ensures Shape(TakeMessage(s)) && ReceiverWork(TakeMessage(s)) < ReceiverWork(s)
    ensures !ReceiverBlocked(TakeMessage(s))
  {
    TakeMessageKeeps(s, h);
    TakeMessageCounters(s, h);
  }

  lemma AckTestWorks(s: State, h: History)
    requires Inv(s, h) && s.rpc.RAckCheck?
    ensures Shape(TestAck(s)) && ReceiverWork(TestAck(s)) < ReceiverWork(s)
    ensures !ReceiverBlocked(TestAck(s))
  {
    TestAckKeeps(s, h);
    TestAckCounters(s, h);
  }

  lemma ReceiverStepWorks(s: State, h: History)
    requires Inv(s, h) && s.rpc != RIdle && !ReceiverBlocked(s)
    ensures Shape(ReceiverNext(s)) && ReceiverWork(ReceiverNext(s)) < ReceiverWork(s)
    ensures !ReceiverBlocked(ReceiverNext(s))
  {
    match s.rpc
    case RPolled(_) => TakeWorks(s, h);
    case RAckCheck(_, _, _) => AckTestWorks(s, h);
    case _ => StepKeepsShape(s, ReceiverStep);
  }

  lemma MessageStaysUnread(s: State, h: History)
    requires Inv(s, h) && Poll(s.toReceiver, s.r.recv)
    ensures Shape(SenderNext(s)) && Poll(SenderNext(s).toReceiver, SenderNext(s).r.recv)
  {
    StepKeepsShape(s, SenderStep);
    DataPoll(s, h);
    SenderKeeps(s, h);
    DataPoll(SenderNext(s), TrackSender(h, s));
  }

  lemma ReceiverStaysFree(s: State, h: History)
    requires Inv(s, h) && !ReceiverBlocked(s)
    ensures Shape(SenderNext(s)) && SenderNext(s).rpc == s.rpc
    ensures ReceiverWork(SenderNext(s)) == ReceiverWork(s) && !ReceiverBlocked(SenderNext(s))
  {
    StepKeepsShape(s, SenderStep);
    if Poll(s.toReceiver, s.r.recv) {
      MessageStaysUnread(s, h);
    }
  }

  // ----- Turns -----

  /** Steps of the two calls under way, in any order. */
  predicate StepsOnly(schedule: seq<Action>) {
    forall k :: 0 <= k < |schedule| ==> schedule[k] == SenderStep || schedule[k] == ReceiverStep
  }

  function Turns(schedule: seq<Action>, a: Action): nat {
    if schedule == [] then 0 else (if schedule[0] == a then 1 else 0) + Turns(schedule[1..], a)
  }

  /** A turn leaves a write that is not blocked so, and with no more work left; its own turn does some of it. */
  lemma SenderTurn(s: State, h: History, a: Action)
    requires Inv(s, h) && !SenderBlocked(s) && (a == SenderStep || a == ReceiverStep)
    ensures Shape(Step(s, a)) && !SenderBlocked(Step(s, a))
    ensures Step(s, a).spc == SIdle ||
      (s.spc != SIdle && SenderWork(Step(s, a)) + (if a == SenderStep then 1 else 0) <= SenderWork(s))
  {
    if a == ReceiverStep {
      SenderStaysFree(s, h);
    } else if s.spc != SIdle {
      SenderStepWorks(s, h);
    }
  }

  lemma ReceiverTurn(s: State, h: History, a: Action)
    requires Inv(s, h) && !ReceiverBlocked(s) && (a == SenderStep || a == ReceiverStep)
    ensures Shape(Step(s, a)) && !ReceiverBlocked(Step(s, a))
    ensures Step(s, a).rpc == RIdle ||
      (s.rpc != RIdle && ReceiverWork(Step(s, a)) + (if a == ReceiverStep then 1 else 0) <= ReceiverWork(s))
  {
    if a == SenderStep {
      ReceiverStaysFree(s, h);
    } else if s.rpc != RIdle {
      ReceiverStepWorks(s, h);
    }
  }

  /** A write that is not blocked returns, given its turns. */
  lemma {:induction false} SenderReturns(s: State, h: History, schedule: seq<Action>)
    requires Inv(s, h) && StepsOnly(schedule) && !SenderBlocked(s)
    requires s.spc == SIdle || Turns(schedule, SenderStep) >= SenderWork(s)
    ensures Run(s, h, schedule).0.spc == SIdle
    decreases |schedule|
  {
    if schedule != [] {
      var a, rest := schedule[0], schedule[1..];
      StepKeeps(s, h, a);
      SenderTurn(s, h, a);
      SenderReturns(Step(s, a), Track(h, s, a), rest);
      assert Run(s, h, schedule) == Run(Step(s, a), Track(h, s, a), rest);
    }
  }

  lemma {:induction false} ReceiverReturns(s: State, h: History, schedule: seq<Action>)
    requires Inv(s, h) && StepsOnly(schedule) && !ReceiverBlocked(s)
    requires s.rpc == RIdle || Turns(schedule, ReceiverStep) >= ReceiverWork(s)
    ensures Run(s, h, schedule).0.rpc == RIdle
    decreases |schedule|
  {
    if schedule != [] {
      var a, rest := schedule[0], schedule[1..];
      StepKeeps(s, h, a);
      ReceiverTurn(s, h, a);
      ReceiverReturns(Step(s, a), Track(h, s, a), rest);
      assert Run(s, h, schedule) == Run(Step(s, a), Track(h, s, a), rest);
    }
  }

  /** Whatever the order of the turns: once each end has had as many as its call has steps left, one of the two
      calls has returned. */
  lemma SomeCallReturns(s: State, h: History, schedule: seq<Action>)
    requires Inv(s, h) && StepsOnly(schedule)
    requires Turns(schedule, SenderStep) >= SenderWork(s) && Turns(schedule, ReceiverStep) >= ReceiverWork(s)
    ensures var f := Run(s, h, schedule).0; f.spc == SIdle || f.rpc == RIdle
  {
    NotDeadlocked(s, h);
    if SenderBlocked(s) {
      ReceiverReturns(s, h, schedule);
    } else {
      SenderReturns(s, h, schedule);
    }
  }

  /** The same from any reachable state. */
  lemma PendingCallsReturn(n: Index, messageBytes: nat, before: seq<Action>, schedule: seq<Action>)
    requires 2 <= n && StepsOnly(schedule)
    requires var s := After(n, messageBytes, before).0;
      Turns(schedule, SenderStep) >= SenderWork(s) && Turns(schedule, ReceiverStep) >= ReceiverWork(s)
    ensures var (s, h) := After(n, messageBytes, before);
      var f := Run(s, h, schedule).0;
      f.spc == SIdle || f.rpc == RIdle
  {
    ReachableInv(n, messageBytes, before);
    var (s, h) := After(n, messageBytes, before);
    SomeCallReturns(s, h, schedule);
  }
}
