/** The spinning barrier of likwid/src/barrier.c: T threads, two flags a thread, and a value that flips every
    second round, so that flags repeat with period 4. A round starts with one store and then checks the other
    threads' flags one at a time; every store and every check is a step of its own. */
module Barrier {

  datatype Pc = Outside | Spinning(i: nat)   // i: next entry of index to check

  /** BarrierData of one thread, and where the thread is inside barrier_synchronize. */
  datatype Thread = Thread(index: seq<nat>, offset: nat, val: int, pc: Pc)

  /** flags is groupBval: 32 ints for each thread, of which two are used. */
  datatype State = State(flags: seq<int>, threads: seq<Thread>)

  /** Enter starts barrier_synchronize; Check is one test of its spin loop, or the end of the call. */
  datatype Action = Enter(t: nat) | Check(t: nat)

  function Cell(t: nat, offset: nat): nat { t * 32 + offset * 16 }

  /** Entry i of the index array of thread t: t itself, then the others in ascending order. */
  function Other(t: nat, i: nat): nat {
    if i == 0 then t else if i <= t then i - 1 else i
  }

  predicate IsIndex(index: seq<nat>, t: nat, T: nat) {
    |index| == T && forall i :: 0 <= i < T ==> index[i] == Other(t, i)
  }

  predicate ThreadShape(x: Thread, t: nat, T: nat) {
    && IsIndex(x.index, t, T)
    && x.offset <= 1 && 0 <= x.val <= 1
    && (x.pc.Spinning? ==> 1 <= x.pc.i <= T)
  }

  predicate Shape(s: State) {
    && |s.threads| > 0
    && |s.flags| == |s.threads| * 32
    && forall t :: 0 <= t < |s.threads| ==> ThreadShape(s.threads[t], t, |s.threads|)
  }

  // ----- barrier_synchronize -----

  function EnterFlags(x: Thread, flags: seq<int>): seq<int>
    requires |x.index| > 0 && Cell(x.index[0], x.offset) < |flags|
  {
    flags[Cell(x.index[0], x.offset) := x.val]
  }

  function EnterThread(x: Thread): Thread { x.(pc := Spinning(1)) }

  /** C's ! on an int. */
  function Not(b: int): nat { if b == 0 then 1 else 0 }

  function LeaveThread(x: Thread): Thread {
    x.(val := if x.offset != 0 then Not(x.val) else x.val, offset := Not(x.offset), pc := Outside)
  }

  function CheckThread(x: Thread, flags: seq<int>): Thread
    requires x.pc.Spinning? && forall i :: 0 <= i < |x.index| ==> Cell(x.index[i], x.offset) < |flags|
  {
    if x.pc.i >= |x.index| then LeaveThread(x)
    else if flags[Cell(x.index[x.pc.i], x.offset)] != x.val then x
    else x.(pc := Spinning(x.pc.i + 1))
  }

  function Step(s: State, a: Action): (r: State)
    requires Shape(s)
    ensures Shape(r) && |r.threads| == |s.threads|
  {
    if a.t >= |s.threads| then s
    else
      var x := s.threads[a.t];
      match a
      case Enter(t) =>
        if x.pc.Outside? then State(EnterFlags(x, s.flags), s.threads[t := EnterThread(x)]) else s
      case Check(t) =>
        if x.pc.Spinning? then s.(threads := s.threads[t := CheckThread(x, s.flags)]) else s
  }

  /** Each thread has two ints, in cache lines of their own: it stores in one of them and checks those of the others. */
  lemma EnterWrites(s: State, t: nat)
    requires Shape(s) && t < |s.threads| && s.threads[t].pc.Outside?
    ensures t * 32 + s.threads[t].offset * 16 < |s.flags|
    ensures Step(s, Enter(t)).flags == s.flags[t * 32 + s.threads[t].offset * 16 := s.threads[t].val]
  {
  }

  /** A check that fails leaves everything as it is. */
  lemma CheckReads(s: State, t: nat, i: nat)
    requires Shape(s) && t < |s.threads| && s.threads[t].pc == Spinning(i) && i < |s.threads|
    ensures Other(t, i) < |s.threads|
    ensures var x := s.threads[t];
      Step(s, Check(t)) ==
        if s.flags[Other(t, i) * 32 + x.offset * 16] == x.val
        then s.(threads := s.threads[t := x.(pc := Spinning(i + 1))]) else s
  {
    assert s.threads[t := s.threads[t]] == s.threads;
  }

  /** entered[t]: how many rounds thread t has entered. */
  function Track(s: State, entered: seq<nat>, a: Action): (r: seq<nat>)
    requires |entered| == |s.threads|
    ensures |r| == |entered|
  {
    if a.Enter? && a.t < |s.threads| && s.threads[a.t].pc.Outside? then entered[a.t := entered[a.t] + 1]
    else entered
  }

  function Run(s: State, entered: seq<nat>, schedule: seq<Action>): (r: (State, seq<nat>))
    requires Shape(s) && |entered| == |s.threads|
    ensures Shape(r.0) && |r.0.threads| == |r.1| == |s.threads|
    decreases |schedule|
  {
    if schedule == [] then (s, entered)
    else Run(Step(s, schedule[0]), Track(s, entered, schedule[0]), schedule[1..])
  }

  lemma {:induction false} RunConcat(s: State, entered: seq<nat>, a: seq<Action>, b: seq<Action>)
    requires Shape(s) && |entered| == |s.threads|
    ensures Run(s, entered, a + b) == Run(Run(s, entered, a).0, Run(s, entered, a).1, b)
    decreases |a|
  {
    if a == [] {
      assert a + b == b;
    } else {
      assert (a + b)[0] == a[0] && (a + b)[1..] == a[1..] + b;
      RunConcat(Step(s, a[0]), Track(s, entered, a[0]), a[1..], b);
    }
  }

  // ----- Registration -----

  function IndexOf(t: nat, T: nat): (r: seq<nat>)
    ensures IsIndex(r, t, T)
  {
    seq(T, i requires 0 <= i => Other(t, i))
  }

  function Registered(t: nat, T: nat): Thread { Thread(IndexOf(t, T), 0, 1, Outside) }

  /** A group of T threads whose flag area holds whatever posix_memalign returned. */
  function Group(flags: seq<int>, T: nat): State {
    State(flags, seq(T, t requires 0 <= t => Registered(t, T)))
  }

  function NoRounds(T: nat): seq<nat> { seq(T, _ => 0) }

  function After(flags: seq<int>, T: nat, schedule: seq<Action>): (r: (State, seq<nat>))
    requires 0 < T && |flags| == 32 * T
    ensures Shape(r.0) && |r.0.threads| == |r.1| == T
  {
    Run(Group(flags, T), NoRounds(T), schedule)
  }

  /** Every other thread appears in the index array of t. */
  lemma OtherIsOnto(t: nat, u: nat, T: nat)
    requires t < T && u < T && u != t
    ensures 1 <= (if u < t then u + 1 else u) < T && Other(t, if u < t then u + 1 else u) == u
  {
  }

  // ----- What every reachable state satisfies -----

  /** The value stored in round k: 1, 1, 0, 0, 1, 1, 0, 0, ... */
  function ValueOf(k: int): int { if (k / 2) % 2 == 0 then 1 else 0 }

  /** Rounds thread t has left. */
  function Left(s: State, entered: seq<nat>, t: nat): int
    requires t < |s.threads| && t < |entered|
  {
    var e: int := entered[t];
    if s.threads[t].pc.Outside? then e else e - 1
  }

  /** The last round below e with the parity of offset. */
  function LastRound(e: nat, offset: nat): int {
    if (e - 1) % 2 == offset then e - 1 else e - 2
  }

  predicate FlagOk(flag: int, e: nat, offset: nat) {
    if LastRound(e, offset) >= 0 then flag == ValueOf(LastRound(e, offset)) else flag != 1
  }

  predicate ThreadOk(s: State, entered: seq<nat>, t: nat)
    requires t < |s.threads| && t < |entered|
  {
    var x, k := s.threads[t], Left(s, entered, t);
    && 0 <= k
    && x.offset == k % 2
    && x.val == ValueOf(k)
  }

  /** The barrier's promise: no thread has left a round that some thread has not entered. */
  ghost predicate Safe(s: State, entered: seq<nat>)
    requires |entered| == |s.threads|
  {
    forall t, u :: 0 <= t < |entered| && 0 <= u < |entered| ==> Left(s, entered, t) <= entered[u]
  }

  /** A spinning thread has seen everybody before its position enter its round. */
  ghost predicate SeenSoFar(s: State, entered: seq<nat>)
    requires Shape(s) && |entered| == |s.threads|
  {
    forall t, i :: 0 <= t < |entered| && s.threads[t].pc.Spinning? && 1 <= i < s.threads[t].pc.i ==>
      entered[Other(t, i)] > Left(s, entered, t)
  }

  ghost predicate FlagsOk(s: State, entered: seq<nat>)
    requires Shape(s) && |entered| == |s.threads|
  {
    forall u, o :: 0 <= u < |entered| && 0 <= o <= 1 ==> FlagOk(s.flags[Cell(u, o)], entered[u], o)
  }

  ghost predicate Inv(s: State, entered: seq<nat>) {
    && Shape(s) && |entered| == |s.threads|
    && (forall t :: 0 <= t < |entered| ==> ThreadOk(s, entered, t))
    && Safe(s, entered)
    && SeenSoFar(s, entered)
    && FlagsOk(s, entered)
  }

  lemma ValueFacts(k: nat)
    ensures ValueOf(k) != ValueOf(k - 2)
    ensures k < 2 ==> ValueOf(k) == 1
    ensures LastRound(k, k % 2) == k - 2
    ensures LastRound(k + 1, k % 2) == k
    ensures LastRound(k + 2, k % 2) == k
  {
  }

  /** A spinning thread finds the flag it waits for exactly when the other thread has entered its round. */
  lemma CheckIsExact(s: State, entered: seq<nat>, t: nat, u: nat)
    requires Inv(s, entered) && t < |entered| && u < |entered| && s.threads[t].pc.Spinning?
    ensures s.flags[Cell(u, s.threads[t].offset)] == s.threads[t].val <==> entered[u] > Left(s, entered, t)
  {
    var k := Left(s, entered, t);
    assert ThreadOk(s, entered, t);
    ValueFacts(k);
    assert k <= entered[u] && Left(s, entered, u) <= entered[t];
    assert FlagOk(s.flags[Cell(u, k % 2)], entered[u], k % 2);
  }

  lemma EnterKeeps(s: State, entered: seq<nat>, t: nat)
    requires Inv(s, entered) && t < |entered| && s.threads[t].pc.Outside?
    ensures Inv(Step(s, Enter(t)), Track(s, entered, Enter(t)))
  {
    var s', e' := Step(s, Enter(t)), Track(s, entered, Enter(t));
    assert ThreadOk(s, entered, t);
    ValueFacts(entered[t]);
    forall u | 0 <= u < |entered|
      ensures ThreadOk(s', e', u) && Left(s', e', u) == Left(s, entered, u)
    {
      assert ThreadOk(s, entered, u);
    }
    EnterFlagsOk(s, entered, t);
  }

  lemma EnterFlagsOk(s: State, entered: seq<nat>, t: nat)
    requires Inv(s, entered) && t < |entered| && s.threads[t].pc.Outside?
    ensures FlagsOk(Step(s, Enter(t)), Track(s, entered, Enter(t)))
  {
    var s', e' := Step(s, Enter(t)), Track(s, entered, Enter(t));
    assert ThreadOk(s, entered, t);
    forall u, o | 0 <= u < |entered| && 0 <= o <= 1
      ensures FlagOk(s'.flags[Cell(u, o)], e'[u], o)
    {
      assert FlagOk(s.flags[Cell(u, o)], entered[u], o);
    }
  }

  lemma CheckKeeps(s: State, entered: seq<nat>, t: nat)
    requires Inv(s, entered) && t < |entered| && s.threads[t].pc.Spinning?
    ensures Inv(Step(s, Check(t)), entered)
  {
    var s' := Step(s, Check(t));
    var x := s.threads[t];
    assert ThreadOk(s, entered, t);
    if x.pc.i >= |x.index| {
      LeaveIsSafe(s, entered, t);
      ValueFacts(entered[t]);
      assert Left(s', entered, t) == entered[t];
    } else {
      CheckIsExact(s, entered, t, Other(t, x.pc.i));
    }
    forall u | 0 <= u < |entered|
      ensures ThreadOk(s', entered, u)
      ensures u != t ==> Left(s', entered, u) == Left(s, entered, u)
    {
      assert ThreadOk(s, entered, u);
    }
    forall u, v | 0 <= u < |entered| && 0 <= v < |entered|
      ensures Left(s', entered, u) <= entered[v]
    {
      assert Left(s, entered, u) <= entered[v];
    }
    forall u, i | 0 <= u < |entered| && s'.threads[u].pc.Spinning? && 1 <= i < s'.threads[u].pc.i
      ensures entered[Other(u, i)] > Left(s', entered, u)
    {
      if u != t || i < x.pc.i {
        assert entered[Other(u, i)] > Left(s, entered, u);
      }
    }
  }

  lemma LeaveIsSafe(s: State, entered: seq<nat>, t: nat)
    requires Inv(s, entered) && t < |entered|
    requires s.threads[t].pc.Spinning? && s.threads[t].pc.i >= |s.threads[t].index|
    ensures forall u :: 0 <= u < |entered| ==> entered[t] <= entered[u]
  {
    forall u | 0 <= u < |entered|
      ensures entered[t] <= entered[u]
    {
      if u != t {
        OtherIsOnto(t, u, |entered|);
        var i := if u < t then u + 1 else u;
        assert entered[Other(t, i)] > Left(s, entered, t);
      }
    }
  }

  lemma StepKeeps(s: State, entered: seq<nat>, a: Action)
    requires Inv(s, entered)
    ensures Inv(Step(s, a), Track(s, entered, a))
  {
    if a.t < |entered| {
      if a.Enter? && s.threads[a.t].pc.Outside? {
        EnterKeeps(s, entered, a.t);
      } else if a.Check? && s.threads[a.t].pc.Spinning? {
        CheckKeeps(s, entered, a.t);
      }
    }
  }

  lemma {:induction false} RunKeeps(s: State, entered: seq<nat>, schedule: seq<Action>)
    requires Inv(s, entered)
    ensures Inv(Run(s, entered, schedule).0, Run(s, entered, schedule).1)
    decreases |schedule|
  {
    if schedule != [] {
      StepKeeps(s, entered, schedule[0]);
      RunKeeps(Step(s, schedule[0]), Track(s, entered, schedule[0]), schedule[1..]);
    }
  }
}
