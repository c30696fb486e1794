/** The barrier's promises, and exactly which initial contents of the flag area they need. */
module BarrierTheorems {
  import opened Barrier

  /** No used flag starts out as 1, the value awaited in the first two rounds. */
  ghost predicate CleanFlags(flags: seq<int>, T: nat)
    requires |flags| == 32 * T
  {
    forall u, o :: 0 <= u < T && 0 <= o <= 1 ==> flags[Cell(u, o)] != 1
  }

  lemma InvInitially(flags: seq<int>, T: nat)
    requires 0 < T && |flags| == 32 * T && CleanFlags(flags, T)
    ensures Inv(Group(flags, T), NoRounds(T))
  {
    ValueFacts(0);
  }

  lemma ReachableInv(flags: seq<int>, T: nat, schedule: seq<Action>)
    requires 0 < T && |flags| == 32 * T && CleanFlags(flags, T)
    ensures Inv(After(flags, T, schedule).0, After(flags, T, schedule).1)
  {
    InvInitially(flags, T);
    RunKeeps(Group(flags, T), NoRounds(T), schedule);
  }

  // ----- Safety -----

  /** No thread leaves a round before every thread has entered it, and two threads are never more than one
      round apart, whatever the number of threads, rounds and interleavings. */
  lemma BarrierIsSafe(flags: seq<int>, T: nat, schedule: seq<Action>)
    requires 0 < T && |flags| == 32 * T && CleanFlags(flags, T)
    ensures var (s, entered) := After(flags, T, schedule);
      && Safe(s, entered)
      && forall t, u :: 0 <= t < T && 0 <= u < T ==>
           entered[t] <= entered[u] + 1 && Left(s, entered, t) <= Left(s, entered, u) + 1
  {
    ReachableInv(flags, T, schedule);
    var (s, entered) := After(flags, T, schedule);
    forall t, u | 0 <= t < T && 0 <= u < T
      ensures entered[t] <= entered[u] + 1 && Left(s, entered, t) <= Left(s, entered, u) + 1
    {
      assert Left(s, entered, t) <= entered[u];
    }
  }

  /** A flag that a spinning thread waits for, once set, stays set until that thread leaves the round. */
  lemma AwaitedFlagStays(flags: seq<int>, T: nat, schedule: seq<Action>, t: nat, u: nat, a: Action)
    requires 0 < T && |flags| == 32 * T && CleanFlags(flags, T) && t < T && u < T
    requires var s := After(flags, T, schedule).0;
      s.threads[t].pc.Spinning? && s.flags[Cell(u, s.threads[t].offset)] == s.threads[t].val
    ensures var s' := Step(After(flags, T, schedule).0, a);
      s'.threads[t].pc.Spinning? ==> s'.flags[Cell(u, s'.threads[t].offset)] == s'.threads[t].val
  {
    ReachableInv(flags, T, schedule);
    var (s, entered) := After(flags, T, schedule);
    StepKeeps(s, entered, a);
    CheckIsExact(s, entered, t, u);
    var s', entered' := Step(s, a), Track(s, entered, a);
    if s'.threads[t].pc.Spinning? {
      assert Left(s', entered', t) == Left(s, entered, t);
      CheckIsExact(s', entered', t, u);
    }
  }

  // ----- Progress -----

  function Repeat(a: Action, n: nat): seq<Action> { seq(n, _ => a) }

  /** The flag at position j of thread t's index array has the value t awaits. */
  predicate FlagSet(s: State, t: nat, j: nat)
    requires Shape(s) && t < |s.threads| && 0 < j < |s.threads|
  {
    s.flags[Cell(Other(t, j), s.threads[t].offset)] == s.threads[t].val
  }

  /** A spinning thread that finds every remaining flag set leaves after one step a flag and one more. */
  lemma {:induction false} SpinThrough(s: State, entered: seq<nat>, t: nat)
    requires Shape(s) && |entered| == |s.threads| && t < |s.threads| && s.threads[t].pc.Spinning?
    requires forall j :: s.threads[t].pc.i <= j < |s.threads| ==> FlagSet(s, t, j)
    ensures Run(s, entered, Repeat(Check(t), |s.threads| - s.threads[t].pc.i + 1))
         == (s.(threads := s.threads[t := LeaveThread(s.threads[t])]), entered)
    decreases |s.threads| - s.threads[t].pc.i
  {
    var T, i := |s.threads|, s.threads[t].pc.i;
    var schedule := Repeat(Check(t), T - i + 1);
    var s1 := Step(s, schedule[0]);
    assert schedule[1..] == Repeat(Check(t), T - i);
    if i < T {
      assert FlagSet(s, t, i);
      assert s1.threads[t] == s.threads[t].(pc := Spinning(i + 1));
      forall j | i + 1 <= j < T
        ensures FlagSet(s1, t, j)
      {
        assert FlagSet(s, t, j);
      }
      SpinThrough(s1, entered, t);
      assert s1.threads[t := LeaveThread(s1.threads[t])] == s.threads[t := LeaveThread(s.threads[t])];
    } else {
      assert schedule[1..] == [];
    }
  }

  /** With every thread inside the barrier, a thread that has entered fewest rounds can leave on its own. */
  lemma SlowestThreadLeaves(flags: seq<int>, T: nat, schedule: seq<Action>, t: nat)
    requires 0 < T && |flags| == 32 * T && CleanFlags(flags, T) && t < T
    requires var (s, entered) := After(flags, T, schedule);
      forall u :: 0 <= u < T ==> s.threads[u].pc.Spinning? && entered[t] <= entered[u]
    ensures var (s, entered) := After(flags, T, schedule);
      Run(s, entered, Repeat(Check(t), T - s.threads[t].pc.i + 1)).0.threads[t] == LeaveThread(s.threads[t])
  {
    ReachableInv(flags, T, schedule);
    var (s, entered) := After(flags, T, schedule);
    forall j | s.threads[t].pc.i <= j < T
      ensures FlagSet(s, t, j)
    {
      assert Other(t, j) < T;
      CheckIsExact(s, entered, t, Other(t, j));
    }
    SpinThrough(s, entered, t);
  }

  function Slowest(entered: seq<nat>): (t: nat)
    requires |entered| > 0
    ensures t < |entered| && forall u :: 0 <= u < |entered| ==> entered[t] <= entered[u]
  {
    if |entered| == 1 then 0
    else
      var t := Slowest(entered[..|entered| - 1]);
      assert forall u :: 0 <= u < |entered| - 1 ==> entered[..|entered| - 1][u] == entered[u];
      if entered[t] <= entered[|entered| - 1] then t else |entered| - 1
  }

  /** The barrier never blocks for good: with every thread inside it, some thread's next check succeeds. */
  lemma BarrierProgress(flags: seq<int>, T: nat, schedule: seq<Action>)
    requires 0 < T && |flags| == 32 * T && CleanFlags(flags, T)
    requires forall u :: 0 <= u < T ==> After(flags, T, schedule).0.threads[u].pc.Spinning?
    ensures var s := After(flags, T, schedule).0;
      exists t: nat :: t < T && Step(s, Check(t)).threads[t].pc != s.threads[t].pc
  {
    ReachableInv(flags, T, schedule);
    var (s, entered) := After(flags, T, schedule);
    var t := Slowest(entered);
    var i := s.threads[t].pc.i;
    if i < T {
      assert Other(t, i) < T;
      CheckIsExact(s, entered, t, Other(t, i));
    }
    assert Step(s, Check(t)).threads[t].pc != s.threads[t].pc;
  }

  // ----- The flag area must be clean -----

  /** Every thread is outside, at the same point of the period. */
  ghost predicate AllOutside(s: State, offset: nat, val: int) {
    forall v :: 0 <= v < |s.threads| ==>
      s.threads[v].pc.Outside? && s.threads[v].offset == offset && s.threads[v].val == val
  }

  ghost predicate AllFlagsSet(s: State)
    requires Shape(s)
  {
    forall t, j :: 0 <= t < |s.threads| && 0 < j < |s.threads| ==> FlagSet(s, t, j)
  }

  /** Every thread below n but skip enters. */
  function EnterAllBut(n: nat, skip: nat): seq<Action> {
    if n == 0 then [] else EnterAllBut(n - 1, skip) + (if n - 1 == skip then [] else [Enter(n - 1)])
  }

  /** Thread u has entered between the two states. */
  predicate HasEntered(s: State, entered: seq<nat>, s': State, entered': seq<nat>, u: nat)
    requires Shape(s) && Shape(s') && |s'.threads| == |s.threads| == |entered| == |entered'| && u < |entered|
  {
    var x := s.threads[u];
    && s'.threads[u] == EnterThread(x)
    && entered'[u] == entered[u] + 1
    && s'.flags[Cell(u, x.offset)] == x.val
    && s'.flags[Cell(u, 1 - x.offset)] == s.flags[Cell(u, 1 - x.offset)]
  }

  /** Thread u has done nothing between the two states. */
  predicate HasStayed(s: State, entered: seq<nat>, s': State, entered': seq<nat>, u: nat)
    requires Shape(s) && Shape(s') && |s'.threads| == |s.threads| == |entered| == |entered'| && u < |entered|
  {
    && s'.threads[u] == s.threads[u]
    && entered'[u] == entered[u]
    && s'.flags[Cell(u, 0)] == s.flags[Cell(u, 0)]
    && s'.flags[Cell(u, 1)] == s.flags[Cell(u, 1)]
  }

  /** What EnterAllBut(n, skip) has done to thread u. */
  predicate EnteredOrNot(s: State, entered: seq<nat>, s': State, entered': seq<nat>, n: nat, skip: nat, u: nat)
    requires Shape(s) && Shape(s') && |s'.threads| == |s.threads| == |entered| == |entered'| && u < |entered|
  {
    if u < n && u != skip then HasEntered(s, entered, s', entered', u) else HasStayed(s, entered, s', entered', u)
  }

  ghost predicate EnteredAllBut(s: State, entered: seq<nat>, s': State, entered': seq<nat>, n: nat, skip: nat)
    requires Shape(s) && Shape(s') && |s'.threads| == |s.threads| == |entered| == |entered'|
  {
    forall u :: 0 <= u < |entered| ==> EnteredOrNot(s, entered, s', entered', n, skip, u)
  }

  lemma OneMoreEnters(s: State, entered: seq<nat>, s1: State, e1: seq<nat>, t: nat, skip: nat, u: nat)
    requires Shape(s) && Shape(s1) && |s1.threads| == |s.threads| == |entered| == |e1|
    requires t < |entered| && t != skip && u < |entered| && s.threads[t].pc.Outside?
    requires EnteredOrNot(s, entered, s1, e1, t, skip, t) && EnteredOrNot(s, entered, s1, e1, t, skip, u)
    ensures EnteredOrNot(s, entered, Step(s1, Enter(t)), Track(s1, e1, Enter(t)), t + 1, skip, u)
  {
  }

  lemma {:induction false} EnterAllButEffect(s: State, entered: seq<nat>, n: nat, skip: nat)
    requires Shape(s) && |entered| == |s.threads| && n <= |s.threads|
    requires forall u :: 0 <= u < |s.threads| ==> s.threads[u].pc.Outside?
    ensures var r := Run(s, entered, EnterAllBut(n, skip));
      EnteredAllBut(s, entered, r.0, r.1, n, skip)
    decreases n
  {
    if n > 0 {
      var t := n - 1;
      EnterAllButEffect(s, entered, t, skip);
      var last := if t == skip then [] else [Enter(t)];
      RunConcat(s, entered, EnterAllBut(t, skip), last);
      var (s1, e1) := Run(s, entered, EnterAllBut(t, skip));
      if t != skip {
        assert last[1..] == [];
        assert Run(s1, e1, last) == (Step(s1, Enter(t)), Track(s1, e1, Enter(t)));
        var s2, e2 := Step(s1, Enter(t)), Track(s1, e1, Enter(t));
        forall u | 0 <= u < |entered|
          ensures EnteredOrNot(s, entered, s2, e2, n, skip, u)
        {
          assert EnteredOrNot(s, entered, s1, e1, t, skip, t) && EnteredOrNot(s, entered, s1, e1, t, skip, u);
          OneMoreEnters(s, entered, s1, e1, t, skip, u);
        }
      } else {
        forall u | 0 <= u < |s.threads|
          ensures EnteredOrNot(s, entered, s1, e1, n, skip, u)
        {
          assert EnteredOrNot(s, entered, s1, e1, t, skip, u);
        }
      }
    }
  }

  /** Every thread below n spins through its round. */
  function LeaveAll(n: nat, T: nat): seq<Action> {
    if n == 0 then [] else LeaveAll(n - 1, T) + Repeat(Check(n - 1), T)
  }

  /** Threads below n have left their round, nothing else has changed. */
  ghost predicate LeftBelow(s: State, s': State, n: nat) {
    && s'.flags == s.flags && |s'.threads| == |s.threads|
    && forall u :: 0 <= u < |s.threads| ==> s'.threads[u] == if u < n then LeaveThread(s.threads[u]) else s.threads[u]
  }

  lemma OneMoreLeaves(s: State, s1: State, entered: seq<nat>, t: nat)
    requires Shape(s) && Shape(s1) && |entered| == |s.threads| && t < |s.threads|
    requires s.threads[t].pc == Spinning(1) && AllFlagsSet(s) && LeftBelow(s, s1, t)
    ensures var r := Run(s1, entered, Repeat(Check(t), |s.threads|)); r.1 == entered && LeftBelow(s, r.0, t + 1)
  {
    forall j | 1 <= j < |s.threads|
      ensures FlagSet(s1, t, j)
    {
      assert FlagSet(s, t, j);
    }
    SpinThrough(s1, entered, t);
  }

  lemma {:induction false} LeaveAllEffect(s: State, entered: seq<nat>, n: nat)
    requires Shape(s) && |entered| == |s.threads| && n <= |s.threads|
    requires forall t :: 0 <= t < |s.threads| ==> s.threads[t].pc == Spinning(1)
    requires AllFlagsSet(s)
    ensures var r := Run(s, entered, LeaveAll(n, |s.threads|)); r.1 == entered && LeftBelow(s, r.0, n)
    decreases n
  {
    if n > 0 {
      var before, last := LeaveAll(n - 1, |s.threads|), Repeat(Check(n - 1), |s.threads|);
      LeaveAllEffect(s, entered, n - 1);
      RunConcat(s, entered, before, last);
      OneMoreLeaves(s, Run(s, entered, before).0, entered, n - 1);
    }
  }

  /** Once everyone but skip has entered, all flags show the common value, provided that of skip already did. */
  lemma EnteredFlagsSet(s: State, entered: seq<nat>, s1: State, e1: seq<nat>, skip: nat, offset: nat, val: int)
    requires Shape(s) && Shape(s1) && |s1.threads| == |s.threads| == |entered| == |e1| && offset <= 1
    requires AllOutside(s, offset, val) && EnteredAllBut(s, entered, s1, e1, |entered|, skip)
    requires skip < |entered| ==> s.flags[Cell(skip, offset)] == val
    ensures AllFlagsSet(s1)
  {
    var T := |entered|;
    forall u | 0 <= u < T
      ensures s1.flags[Cell(u, offset)] == val && s1.threads[u].offset == offset && s1.threads[u].val == val
    {
      assert EnteredOrNot(s, entered, s1, e1, T, skip, u);
    }
    forall t, j | 0 <= t < T && 0 < j < T
      ensures FlagSet(s1, t, j)
    {
      assert s1.flags[Cell(Other(t, j), offset)] == val;
    }
  }

  /** From outside the barrier, with flag (u, offset) already at the awaited value: everyone but u enters,
      and another thread leaves the round without u. */
  lemma LeaveWithout(s: State, entered: seq<nat>, t: nat, u: nat, offset: nat, val: int)
    requires Shape(s) && |entered| == |s.threads| && t < |s.threads| && u < |s.threads| && t != u && offset <= 1
    requires AllOutside(s, offset, val)
    requires s.flags[Cell(u, offset)] == val
    requires entered[u] == entered[t]
    ensures var r := Run(s, entered, EnterAllBut(|s.threads|, u) + Repeat(Check(t), |s.threads|)); !Safe(r.0, r.1)
  {
    var T := |s.threads|;
    EnterAllButEffect(s, entered, T, u);
    var (s1, e1) := Run(s, entered, EnterAllBut(T, u));
    RunConcat(s, entered, EnterAllBut(T, u), Repeat(Check(t), T));
    EnteredFlagsSet(s, entered, s1, e1, u, offset, val);
    assert EnteredOrNot(s, entered, s1, e1, T, u, t) && EnteredOrNot(s, entered, s1, e1, T, u, u);
    LeftAlone(s1, e1, t, u);
  }

  lemma LeftAlone(s: State, entered: seq<nat>, t: nat, u: nat)
    requires Shape(s) && |entered| == |s.threads| && t < |entered| && u < |entered| && t != u
    requires s.threads[t].pc == Spinning(1) && AllFlagsSet(s) && entered[u] < entered[t]
    ensures var r := Run(s, entered, Repeat(Check(t), |s.threads|)); !Safe(r.0, r.1)
  {
    SpinThrough(s, entered, t);
    var r := Run(s, entered, Repeat(Check(t), |s.threads|));
    assert Left(r.0, r.1, t) == entered[t];
  }

  ghost predicate AllSpinning(s: State) {
    forall v :: 0 <= v < |s.threads| ==>
      s.threads[v].pc == Spinning(1) && s.threads[v].offset == 0 && s.threads[v].val == 1
  }

  /** Each thread has entered one round, and the second flags are as before. */
  ghost predicate OneRoundOn(s: State, entered: seq<nat>, s1: State, e1: seq<nat>)
    requires Shape(s) && Shape(s1) && |s1.threads| == |s.threads| == |entered| == |e1|
  {
    forall v :: 0 <= v < |entered| ==> e1[v] == entered[v] + 1 && s1.flags[Cell(v, 1)] == s.flags[Cell(v, 1)]
  }

  lemma AllEntered(s: State, entered: seq<nat>, s1: State, e1: seq<nat>)
    requires Shape(s) && Shape(s1) && |s1.threads| == |s.threads| == |entered| == |e1|
    requires AllOutside(s, 0, 1) && EnteredAllBut(s, entered, s1, e1, |entered|, |entered|)
    ensures AllSpinning(s1) && OneRoundOn(s, entered, s1, e1)
  {
    forall v | 0 <= v < |entered|
      ensures s1.threads[v] == EnterThread(s.threads[v])
      ensures e1[v] == entered[v] + 1 && s1.flags[Cell(v, 1)] == s.flags[Cell(v, 1)]
    {
      assert EnteredOrNot(s, entered, s1, e1, |entered|, |entered|, v);
    }
  }

  /** One complete round: everyone enters and everyone leaves. */
  lemma FullRound(s: State, entered: seq<nat>)
    requires Shape(s) && |entered| == |s.threads| && AllOutside(s, 0, 1)
    ensures var r := Run(s, entered, EnterAllBut(|entered|, |entered|) + LeaveAll(|entered|, |entered|));
      AllOutside(r.0, 1, 1) && OneRoundOn(s, entered, r.0, r.1)
  {
    var T := |entered|;
    RunConcat(s, entered, EnterAllBut(T, T), LeaveAll(T, T));
    EnterAllButEffect(s, entered, T, T);
    var (s1, e1) := Run(s, entered, EnterAllBut(T, T));
    EnteredFlagsSet(s, entered, s1, e1, T, 0, 1);
    AllEntered(s, entered, s1, e1);
    AllLeave(s1, e1);
  }

  lemma AllLeave(s: State, entered: seq<nat>)
    requires Shape(s) && |entered| == |s.threads| && AllFlagsSet(s) && AllSpinning(s)
    ensures var r := Run(s, entered, LeaveAll(|entered|, |entered|));
      AllOutside(r.0, 1, 1) && r.1 == entered && r.0.flags == s.flags
  {
    LeaveAllEffect(s, entered, |entered|);
  }

  lemma SecondFlagBreaks(s: State, entered: seq<nat>, t: nat, u: nat)
    requires Shape(s) && |entered| == |s.threads| && AllOutside(s, 0, 1)
    requires t < |entered| && u < |entered| && t != u && entered[t] == entered[u] && s.flags[Cell(u, 1)] == 1
    ensures var T := |entered|;
      var r := Run(s, entered, EnterAllBut(T, T) + LeaveAll(T, T) + (EnterAllBut(T, u) + Repeat(Check(t), T)));
      !Safe(r.0, r.1)
  {
    var T := |entered|;
    FullRound(s, entered);
    var (s1, e1) := Run(s, entered, EnterAllBut(T, T) + LeaveAll(T, T));
    LeaveWithout(s1, e1, t, u, 1, 1);
    RunConcat(s, entered, EnterAllBut(T, T) + LeaveAll(T, T), EnterAllBut(T, u) + Repeat(Check(t), T));
  }

  /** A flag that starts out as 1 lets some thread leave too early: in round 0 for the first flag of a
      thread, in round 1 for the second. */
  lemma DirtyFlagBreaks(flags: seq<int>, T: nat, u: nat, o: nat) returns (schedule: seq<Action>)
    requires 2 <= T && |flags| == 32 * T && u < T && o <= 1 && flags[Cell(u, o)] == 1
    ensures !Safe(After(flags, T, schedule).0, After(flags, T, schedule).1)
  {
    var s, entered := Group(flags, T), NoRounds(T);
    var t := if u == 0 then 1 else 0;
    schedule := EnterAllBut(T, u) + Repeat(Check(t), T);
    if o == 0 {
      LeaveWithout(s, entered, t, u, 0, 1);
    } else {
      SecondFlagBreaks(s, entered, t, u);
      schedule := EnterAllBut(T, T) + LeaveAll(T, T) + schedule;
    }
  }

  lemma SingleThreadIsSafe(s: State, entered: seq<nat>)
    requires Shape(s) && |entered| == |s.threads| == 1
    ensures Safe(s, entered)
  {
  }

  /** The barrier is safe on every interleaving iff the flag area starts without a 1, or there is one thread. */
  lemma SafeIffClean(flags: seq<int>, T: nat)
    requires 0 < T && |flags| == 32 * T
    ensures (forall schedule :: Safe(After(flags, T, schedule).0, After(flags, T, schedule).1))
       <==> T == 1 || CleanFlags(flags, T)
  {
    if T == 1 || CleanFlags(flags, T) {
      forall schedule
        ensures Safe(After(flags, T, schedule).0, After(flags, T, schedule).1)
      {
        if T == 1 {
          SingleThreadIsSafe(After(flags, T, schedule).0, After(flags, T, schedule).1);
        } else {
          ReachableInv(flags, T, schedule);
        }
      }
    } else {
      var u: nat, o: nat :| u < T && o <= 1 && flags[Cell(u, o)] == 1;
      var schedule := DirtyFlagBreaks(flags, T, u, o);
    }
  }
}
