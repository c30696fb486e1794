/** The barrier lets everybody through, in whatever order the threads take their turns. */
module BarrierTurns {
  import opened Barrier
  import opened BarrierTheorems

  /** A turn of thread t: it enters when it is outside, and else checks. Other actions of t do nothing. */
  predicate IsTurn(s: State, a: Action, t: nat) {
    t < |s.threads| && a == if s.threads[t].pc.Outside? then Enter(t) else Check(t)
  }

  function Turns(s: State, schedule: seq<Action>, t: nat): nat
    requires Shape(s)
    decreases |schedule|
  {
    if schedule == [] then 0
    else (if IsTurn(s, schedule[0], t) then 1 else 0) + Turns(Step(s, schedule[0]), schedule[1..], t)
  }

  /** Every thread has entered round k. */
  predicate AllIn(entered: seq<nat>, k: nat) { forall u :: 0 <= u < |entered| ==> entered[u] > k }

  /** Every thread has left the rounds before k. */
  ghost predicate AllAt(s: State, entered: seq<nat>, k: nat)
    requires |entered| == |s.threads|
  {
    forall u :: 0 <= u < |entered| ==> Left(s, entered, u) >= k
  }

  /** Turns that thread t has left in round k, when everybody is in it. */
  function Work(s: State, entered: seq<nat>, t: nat, k: nat): nat
    requires Shape(s) && |entered| == |s.threads| && t < |entered|
  {
    if Left(s, entered, t) == k && s.threads[t].pc.Spinning? then |s.threads| - s.threads[t].pc.i + 1 else 0
  }

  // ----- One turn -----

  /** Rounds are entered and left one after another. */
  lemma RoundsGrow(s: State, entered: seq<nat>, a: Action, t: nat)
    requires Inv(s, entered) && t < |entered|
    ensures Left(Step(s, a), Track(s, entered, a), t) >= Left(s, entered, t)
    ensures Track(s, entered, a)[t] >= entered[t]
  {
  }

  /** With everybody in round k, a turn of a thread in it does some of its work, and nothing undoes it. */
  lemma TurnWorks(s: State, entered: seq<nat>, a: Action, t: nat, k: nat)
    requires Inv(s, entered) && t < |entered| && AllIn(entered, k) && Left(s, entered, t) >= k
    ensures var s1, e1 := Step(s, a), Track(s, entered, a);
      && Left(s1, e1, t) >= k
      && (Left(s, entered, t) == k ==>
            Work(s1, e1, t, k) + (if IsTurn(s, a, t) then 1 else 0) <= Work(s, entered, t, k))
  {
    RoundsGrow(s, entered, a, t);
    if Left(s, entered, t) == k && IsTurn(s, a, t) && s.threads[t].pc.Spinning? {
      var i := s.threads[t].pc.i;
      if i < |s.threads| {
        CheckIsExact(s, entered, t, Other(t, i));
      }
    }
  }

  lemma AllInStays(s: State, entered: seq<nat>, a: Action, k: nat)
    requires |entered| == |s.threads| && AllIn(entered, k)
    ensures AllIn(Track(s, entered, a), k)
  {
  }

  // ----- Whole rounds -----

  /** A thread leaves the round, once everybody has entered it and it has had its turns, whatever the others do. */
  lemma {:induction false} ThreadLeaves(s: State, entered: seq<nat>, schedule: seq<Action>, t: nat, k: nat)
    requires Inv(s, entered) && t < |entered| && AllIn(entered, k) && Left(s, entered, t) >= k
    requires Left(s, entered, t) > k || Turns(s, schedule, t) >= Work(s, entered, t, k)
    ensures var (f, e) := Run(s, entered, schedule); Left(f, e, t) > k
    decreases |schedule|
  {
    if schedule != [] {
      var a := schedule[0];
      StepKeeps(s, entered, a);
      RoundsGrow(s, entered, a, t);
      AllInStays(s, entered, a, k);
      TurnWorks(s, entered, a, t, k);
      ThreadLeaves(Step(s, a), Track(s, entered, a), schedule[1..], t, k);
    }
  }

  /** A thread that has had a turn has entered the round, or had before. */
  lemma {:induction false} ThreadEnters(s: State, entered: seq<nat>, schedule: seq<Action>, t: nat, k: nat)
    requires Inv(s, entered) && t < |entered| && Left(s, entered, t) >= k
    requires entered[t] > k || Turns(s, schedule, t) >= 1
    ensures var (f, e) := Run(s, entered, schedule); e[t] > k && Left(f, e, t) >= k
    decreases |schedule|
  {
    if schedule != [] {
      var a := schedule[0];
      StepKeeps(s, entered, a);
      RoundsGrow(s, entered, a, t);
      assert ThreadOk(s, entered, t);
      ThreadEnters(Step(s, a), Track(s, entered, a), schedule[1..], t, k);
    }
  }

  /** Every thread that has not entered round k takes a turn, in any order. */
  predicate EntersFairly(s: State, entered: seq<nat>, schedule: seq<Action>, k: nat)
    requires Shape(s) && |entered| == |s.threads|
  {
    forall t :: 0 <= t < |entered| && entered[t] <= k ==> Turns(s, schedule, t) >= 1
  }

  /** Every thread in round k takes as many turns as it has flags left to check, and one more, in any order. */
  ghost predicate LeavesFairly(s: State, entered: seq<nat>, schedule: seq<Action>, k: nat)
    requires Shape(s) && |entered| == |s.threads|
  {
    forall t :: 0 <= t < |entered| && Left(s, entered, t) == k ==> Turns(s, schedule, t) >= Work(s, entered, t, k)
  }

  lemma EverybodyEnters(s: State, entered: seq<nat>, schedule: seq<Action>, k: nat)
    requires Inv(s, entered) && AllAt(s, entered, k) && EntersFairly(s, entered, schedule, k)
    ensures var (f, e) := Run(s, entered, schedule); Inv(f, e) && AllIn(e, k) && AllAt(f, e, k)
  {
    RunKeeps(s, entered, schedule);
    var (f, e) := Run(s, entered, schedule);
    forall t | 0 <= t < |entered|
      ensures e[t] > k && Left(f, e, t) >= k
    {
      ThreadEnters(s, entered, schedule, t, k);
    }
  }

  /** With everybody in round k, everybody leaves it. */
  lemma EverybodyLeaves(s: State, entered: seq<nat>, schedule: seq<Action>, k: nat)
    requires Inv(s, entered) && AllIn(entered, k) && AllAt(s, entered, k) && LeavesFairly(s, entered, schedule, k)
    ensures var (f, e) := Run(s, entered, schedule); Inv(f, e) && AllAt(f, e, k + 1)
  {
    RunKeeps(s, entered, schedule);
    var (f, e) := Run(s, entered, schedule);
    forall t | 0 <= t < |entered|
      ensures Left(f, e, t) >= k + 1
    {
      ThreadLeaves(s, entered, schedule, t, k);
    }
  }

  // ----- Any number of rounds -----

  /** The turns of a round: in the first part everybody enters, in the second everybody leaves. What threads that
      are through do meanwhile, a round further on, does not matter. */
  datatype Part = Part(enter: seq<Action>, leave: seq<Action>)

  function Joined(parts: seq<Part>): seq<Action> {
    if parts == [] then [] else parts[0].enter + parts[0].leave + Joined(parts[1..])
  }

  ghost predicate Fair(s: State, entered: seq<nat>, parts: seq<Part>, k: nat)
    requires Shape(s) && |entered| == |s.threads|
    decreases |parts|
  {
    parts == [] ||
    (var p := parts[0];
     var (s1, e1) := Run(s, entered, p.enter);
     var (s2, e2) := Run(s1, e1, p.leave);
     EntersFairly(s, entered, p.enter, k) && LeavesFairly(s1, e1, p.leave, k) && Fair(s2, e2, parts[1..], k + 1))
  }

  lemma {:induction false} RoundsEnd(s: State, entered: seq<nat>, parts: seq<Part>, k: nat)
    requires Inv(s, entered) && AllAt(s, entered, k) && Fair(s, entered, parts, k)
    ensures var (f, e) := Run(s, entered, Joined(parts)); Inv(f, e) && AllAt(f, e, k + |parts|)
    decreases |parts|
  {
    if parts != [] {
      var p := parts[0];
      var (s1, e1) := Run(s, entered, p.enter);
      var (s2, e2) := Run(s1, e1, p.leave);
      EverybodyEnters(s, entered, p.enter, k);
      EverybodyLeaves(s1, e1, p.leave, k);
      RoundsEnd(s2, e2, parts[1..], k + 1);
      RunConcat(s, entered, p.enter, p.leave);
      RunConcat(s, entered, p.enter + p.leave, Joined(parts[1..]));
    }
  }

  /** No round blocks: from every reachable state at which everybody has left the rounds before k, every fair order
      of turns for n rounds takes everybody through them. */
  lemma EveryRoundEnds(flags: seq<int>, T: nat, before: seq<Action>, parts: seq<Part>, k: nat)
    requires 0 < T && |flags| == 32 * T && CleanFlags(flags, T)
    requires var (s, entered) := After(flags, T, before); AllAt(s, entered, k) && Fair(s, entered, parts, k)
    ensures var (s, entered) := After(flags, T, before);
      var (f, e) := Run(s, entered, Joined(parts));
      AllAt(f, e, k + |parts|)
  {
    ReachableInv(flags, T, before);
    var (s, entered) := After(flags, T, before);
    RoundsEnd(s, entered, parts, k);
  }
}
