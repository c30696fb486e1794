/** The die scheduler of profiler/profiler_sched_PP.c: four applications on four dies, of which 1 and 2 are fast.
    A decision sorts the applications by their average, and moves those that became the best two to the fast
    dies, unless they are too close to the ones they would replace. Averages are long doubles: their order
    and which pairs are too close are parameters. */
module DieScheduler {

  /** Applications by rank, and the die of each application by its id. */
  datatype Layout = Layout(pe: seq<nat>, die: seq<int>)

  /** die_order. */
  const DIE_ORDER: seq<int> := [1, 2, 0, 3]

  predicate FastDie(d: int) { d == 1 || d == 2 }

  predicate SlowDie(d: int) { d == 0 || d == 3 }

  /** The four ids in some order. */
  predicate Order(pe: seq<nat>) {
    && |pe| == 4 && pe[0] < 4 && pe[1] < 4 && pe[2] < 4 && pe[3] < 4
    && pe[0] != pe[1] && pe[0] != pe[2] && pe[0] != pe[3] && pe[1] != pe[2] && pe[1] != pe[3] && pe[2] != pe[3]
  }

  predicate Shape(l: Layout) { Order(l.pe) && |l.die| == 4 }

  /** The die of the application at a rank. */
  function DieAt(l: Layout, rank: nat): int
    requires Shape(l) && rank < 4
  {
    l.die[l.pe[rank]]
  }

  /** Four distinct dies, the fast ones for ranks 0 and 1. */
  predicate Placed(l: Layout) {
    && Shape(l)
    && FastDie(DieAt(l, 0)) && FastDie(DieAt(l, 1)) && DieAt(l, 0) != DieAt(l, 1)
    && SlowDie(DieAt(l, 2)) && SlowDie(DieAt(l, 3)) && DieAt(l, 2) != DieAt(l, 3)
  }

  /** main: application i starts on die_order[i]. */
  function Initial(): Layout { Layout([0, 1, 2, 3], DIE_ORDER) }

  /** old_indexes: the rank an application had. */
  function RankOf(pe: seq<nat>, app: nat): (r: nat)
    requires Order(pe) && app < 4
    ensures r < 4 && pe[r] == app
  {
    if pe[0] == app then 0 else if pe[1] == app then 1 else if pe[2] == app then 2 else 3
  }

  /** The first of ranks 2 and 3 with an application on a fast die; 4 makes the code's assertion fail. */
  function Replaced(l: Layout): nat
    requires Shape(l)
  {
    if FastDie(DieAt(l, 2)) then 2 else if FastDie(DieAt(l, 3)) then 3 else 4
  }

  function SwapRanks(l: Layout, i: nat, j: nat): Layout
    requires Shape(l) && i < 4 && j < 4
  {
    Layout(l.pe[i := l.pe[j]][j := l.pe[i]], l.die)
  }

  /** move_app of both applications. */
  function SwapDies(l: Layout, i: nat, j: nat): Layout
    requires Shape(l) && i < 4 && j < 4
  {
    Layout(l.pe, l.die[l.pe[i] := DieAt(l, j)][l.pe[j] := DieAt(l, i)])
  }

  /** One turn of the outer loop. close holds the pairs (now fast, now slow) whose averages are too close. */
  function Settle(l: Layout, before: seq<nat>, close: set<(nat, nat)>, i: nat): (r: Layout)
    requires Shape(l) && Order(before) && i < 4
  {
    var j := Replaced(l);
    if RankOf(before, l.pe[i]) <= 1 || j == 4 then l
    else if (l.pe[i], l.pe[j]) in close then SwapRanks(l, i, j)
    else SwapDies(l, i, j)
  }

  /** take_a_decision; order is what the sort makes of the ranks. */
  function Decide(l: Layout, order: seq<nat>, close: set<(nat, nat)>): Layout
    requires Shape(l) && Order(order)
  {
    var first := Settle(Layout(order, l.die), l.pe, close, 0);
    if Shape(first) then Settle(first, l.pe, close, 1) else first
  }

  // ----- One decision -----

  /** Every die has one application. */
  predicate AllDies(die: seq<int>) {
    && |die| == 4
    && (forall a :: 0 <= a < 4 ==> 0 <= die[a] < 4)
    && (forall a, b :: 0 <= a < 4 && 0 <= b < 4 && a != b ==> die[a] != die[b])
  }

  /** Between the turns: ranks below i are settled, the others are on the dies they had. */
  predicate Settling(l: Layout, before: Layout, i: nat)
    requires Placed(before)
  {
    && Shape(l) && AllDies(l.die) && i <= 2
    && (if i > 0 then FastDie(DieAt(l, 0)) else DieAt(l, 0) == before.die[l.pe[0]])
    && (if i > 1 then FastDie(DieAt(l, 1)) else DieAt(l, 1) == before.die[l.pe[1]])
  }

  lemma RankTellsDie(l: Layout, app: nat)
    requires Placed(l) && app < 4
    ensures FastDie(l.die[app]) <==> RankOf(l.pe, app) <= 1
  {
    assert DieAt(l, RankOf(l.pe, app)) == l.die[app];
  }

  lemma PlacedAllDies(l: Layout)
    requires Placed(l)
    ensures AllDies(l.die)
  {
    forall a | 0 <= a < 4
      ensures 0 <= l.die[a] < 4
    {
      assert DieAt(l, RankOf(l.pe, a)) == l.die[a];
    }
    forall a, b | 0 <= a < 4 && 0 <= b < 4 && a != b
      ensures l.die[a] != l.die[b]
    {
      assert DieAt(l, RankOf(l.pe, a)) == l.die[a] && DieAt(l, RankOf(l.pe, b)) == l.die[b];
    }
  }

  lemma SettlingStarts(l: Layout, order: seq<nat>)
    requires Placed(l) && Order(order)
    ensures Settling(Layout(order, l.die), l, 0)
  {
    PlacedAllDies(l);
  }

  /** Four distinct dies: when one of the first two ranks is on a slow die, one of the others is on a fast one. */
  lemma SomeFastDie(l: Layout)
    requires Shape(l) && AllDies(l.die)
    ensures !FastDie(DieAt(l, 0)) || !FastDie(DieAt(l, 1)) ==> FastDie(DieAt(l, 2)) || FastDie(DieAt(l, 3))
    ensures FastDie(DieAt(l, 0)) && FastDie(DieAt(l, 1)) ==> SlowDie(DieAt(l, 2)) && SlowDie(DieAt(l, 3))
  {
  }

  /** A rank whose application was on a slow die finds one to replace: the assertion of the code holds. */
  lemma AssertionHolds(l: Layout, before: Layout, i: nat)
    requires Placed(before) && Settling(l, before, i) && i < 2 && RankOf(before.pe, l.pe[i]) > 1
    ensures Replaced(l) < 4
  {
    RankTellsDie(before, l.pe[i]);
    SomeFastDie(l);
  }

  lemma SwapRanksKeeps(l: Layout, before: Layout, i: nat, j: nat)
    requires Placed(before) && Settling(l, before, i) && i < 2 <= j < 4 && FastDie(DieAt(l, j))
    ensures Settling(SwapRanks(l, i, j), before, i + 1)
  {
  }

  lemma SwappedDies(die: seq<int>, a: nat, b: nat)
    requires AllDies(die) && a < 4 && b < 4 && a != b
    ensures AllDies(die[a := die[b]][b := die[a]])
  {
  }

  lemma SwapDiesKeeps(l: Layout, before: Layout, i: nat, j: nat)
    requires Placed(before) && Settling(l, before, i) && i < 2 <= j < 4 && FastDie(DieAt(l, j))
    ensures Settling(SwapDies(l, i, j), before, i + 1)
  {
    SwappedDies(l.die, l.pe[i], l.pe[j]);
  }

  lemma SettleKeeps(l: Layout, before: Layout, close: set<(nat, nat)>, i: nat)
    requires Placed(before) && Settling(l, before, i) && i < 2
    ensures Settling(Settle(l, before.pe, close, i), before, i + 1)
  {
    if RankOf(before.pe, l.pe[i]) > 1 {
      AssertionHolds(l, before, i);
      SwapRanksKeeps(l, before, i, Replaced(l));
      SwapDiesKeeps(l, before, i, Replaced(l));
    } else {
      RankTellsDie(before, l.pe[i]);
    }
  }

  /** Whatever the averages, the sort and the close pairs: a decision leaves four distinct dies, the fast ones
      for the first two ranks. */
  lemma DecisionKeepsPlacement(l: Layout, order: seq<nat>, close: set<(nat, nat)>)
    requires Placed(l) && Order(order)
    ensures Placed(Decide(l, order, close))
  {
    var start := Layout(order, l.die);
    SettlingStarts(l, order);
    SettleKeeps(start, l, close, 0);
    var first := Settle(start, l.pe, close, 0);
    SettleKeeps(first, l, close, 1);
    var end := Settle(first, l.pe, close, 1);
    SomeFastDie(end);
  }

  datatype Decision = Decision(order: seq<nat>, close: set<(nat, nat)>)

  function Run(l: Layout, decisions: seq<Decision>): Layout
    requires Shape(l) && forall k :: 0 <= k < |decisions| ==> Order(decisions[k].order)
    decreases |decisions|
  {
    if decisions == [] then l
    else
      var next := Decide(l, decisions[0].order, decisions[0].close);
      if Shape(next) then Run(next, decisions[1..]) else next
  }

  /** Over any number of decisions the placement is kept. */
  lemma {:induction false} PlacedForever(l: Layout, decisions: seq<Decision>)
    requires Placed(l) && forall k :: 0 <= k < |decisions| ==> Order(decisions[k].order)
    ensures Placed(Run(l, decisions))
    decreases |decisions|
  {
    if decisions != [] {
      DecisionKeepsPlacement(l, decisions[0].order, decisions[0].close);
      PlacedForever(Decide(l, decisions[0].order, decisions[0].close), decisions[1..]);
    }
  }

  lemma StartsPlaced()
    ensures Placed(Initial()) && forall app :: 0 <= app < 4 ==> Initial().die[app] == [1, 2, 0, 3][app]
  {
  }

  // ----- What a decision achieves -----

  /** With no pair too close, the decision follows the sort: its first two applications are on fast dies. */
  lemma FollowsTheSort(l: Layout, order: seq<nat>)
    requires Placed(l) && Order(order)
    ensures Decide(l, order, {}).pe == order
    ensures FastDie(Decide(l, order, {}).die[order[0]]) && FastDie(Decide(l, order, {}).die[order[1]])
  {
    DecisionKeepsPlacement(l, order, {});
  }

  /** With every pair too close, nothing moves. */
  lemma NothingMoves(l: Layout, order: seq<nat>, close: set<(nat, nat)>)
    requires Placed(l) && Order(order) && forall a: nat, b: nat :: a < 4 && b < 4 ==> (a, b) in close
    ensures Decide(l, order, close).die == l.die
  {
    SettlingStarts(l, order);
    SettleKeeps(Layout(order, l.die), l, close, 0);
  }

  /** Applications that change die change between a fast and a slow one. */
  predicate OnlyAcross(a: seq<int>, b: seq<int>)
    requires |a| == |b| == 4
  {
    forall app :: 0 <= app < 4 && b[app] != a[app] ==> FastDie(a[app]) != FastDie(b[app])
  }

  /** The applications a turn moves: the one at rank i, from a slow die, and one at rank 2 or 3, from a fast. */
  predicate TurnMoves(l: Layout, die: seq<int>, i: nat)
    requires Shape(l) && i < 2
  {
    || die == l.die
    || (SlowDie(DieAt(l, i)) && exists j :: 2 <= j < 4 && FastDie(DieAt(l, j)) && die == SwapDies(l, i, j).die)
  }

  lemma TurnMovesTwo(l: Layout, before: Layout, close: set<(nat, nat)>, i: nat)
    requires Placed(before) && Settling(l, before, i) && i < 2
    ensures TurnMoves(l, Settle(l, before.pe, close, i).die, i)
  {
    if RankOf(before.pe, l.pe[i]) > 1 {
      AssertionHolds(l, before, i);
      RankTellsDie(before, l.pe[i]);
    }
  }

  lemma MovesOfTurn(l: Layout, die: seq<int>, i: nat, app: nat)
    requires Shape(l) && i < 2 && TurnMoves(l, die, i) && app < |die| && die[app] != l.die[app]
    ensures FastDie(l.die[app]) != FastDie(die[app])
    ensures FastDie(l.die[app]) ==> app == l.pe[2] || app == l.pe[3]
    ensures SlowDie(l.die[app]) ==> app == l.pe[i]
  {
  }

  /** An application moved in the first turn is not moved in the second. */
  lemma MovedOnce(l: Layout, first: Layout, second: seq<int>, app: nat)
    requires Shape(l) && Shape(first) && TurnMoves(l, first.die, 0) && TurnMoves(first, second, 1)
    requires app < 4 == |second|
    requires first.die != l.die ==> first.pe == l.pe
    requires first.die[app] != l.die[app]
    ensures second[app] == first.die[app]
  {
    MovesOfTurn(l, first.die, 0, app);
    if second[app] != first.die[app] {
      MovesOfTurn(first, second, 1, app);
      assert false;
    }
  }

  lemma TurnsMoveAcross(l: Layout, first: Layout, second: seq<int>)
    requires Shape(l) && Shape(first) && TurnMoves(l, first.die, 0) && TurnMoves(first, second, 1)
    requires first.die != l.die ==> first.pe == l.pe
    ensures |second| == 4 && OnlyAcross(l.die, second)
  {
    forall app | 0 <= app < 4 && second[app] != l.die[app]
      ensures FastDie(l.die[app]) != FastDie(second[app])
    {
      if first.die[app] != l.die[app] {
        MovedOnce(l, first, second, app);
        MovesOfTurn(l, first.die, 0, app);
      } else {
        MovesOfTurn(first, second, 1, app);
      }
    }
  }

  /** What a decision moves, turn by turn. */
  lemma DecisionMoves(l: Layout, order: seq<nat>, close: set<(nat, nat)>)
    requires Placed(l) && Order(order)
    ensures var start := Layout(order, l.die);
      var first := Settle(start, l.pe, close, 0);
      && Shape(first) && TurnMoves(start, first.die, 0) && TurnMoves(first, Decide(l, order, close).die, 1)
  {
    var start := Layout(order, l.die);
    SettlingStarts(l, order);
    SettleKeeps(start, l, close, 0);
    TurnMovesTwo(start, l, close, 0);
    TurnMovesTwo(Settle(start, l.pe, close, 0), l, close, 1);
  }

  /** No application moves from one fast die to the other, or from one slow die to the other, over a whole
      decision: each moves at most once. */
  lemma MovesAreAcross(l: Layout, order: seq<nat>, close: set<(nat, nat)>)
    requires Placed(l) && Order(order)
    ensures |Decide(l, order, close).die| == 4 && OnlyAcross(l.die, Decide(l, order, close).die)
  {
    var start := Layout(order, l.die);
    DecisionMoves(l, order, close);
    TurnsMoveAcross(start, Settle(start, l.pe, close, 0), Decide(l, order, close).die);
  }

  // ----- What a decision does, exactly -----

  /** The application at rank i of the sort was on a slow die. */
  predicate Promoted(die: seq<int>, order: seq<nat>, i: nat)
    requires |die| == 4 && Order(order) && i < 2
  {
    SlowDie(die[order[i]])
  }

  /** The rank of the one it replaces: promoted applications and those at ranks 2 and 3 that were on fast dies are
      paired in the order of their ranks. */
  function Partner(die: seq<int>, order: seq<nat>, i: nat): (j: nat)
    requires |die| == 4 && Order(order) && i < 2
    ensures 2 <= j < 4
  {
    if Promoted(die, order, 0) && Promoted(die, order, 1) then 2 + i
    else if FastDie(die[order[2]]) then 2 else 3
  }

  /** What becomes of rank i and of its partner. */
  predicate Exchanged(die: seq<int>, order: seq<nat>, close: set<(nat, nat)>, r: Layout, i: nat, j: nat)
    requires |die| == 4 && Order(order) && Shape(r) && i < 2 <= j < 4
  {
    var a, b := order[i], order[j];
    if (a, b) in close then r.pe[i] == b && r.pe[j] == a && r.die[a] == die[a] && r.die[b] == die[b]
    else r.pe[i] == a && r.pe[j] == b && r.die[a] == die[b] && r.die[b] == die[a]
  }

  predicate Unmoved(die: seq<int>, order: seq<nat>, r: Layout, i: nat)
    requires |die| == 4 && Order(order) && Shape(r) && i < 4
  {
    r.pe[i] == order[i] && r.die[order[i]] == die[order[i]]
  }

  predicate AsDecided(die: seq<int>, order: seq<nat>, close: set<(nat, nat)>, r: Layout)
    requires |die| == 4 && Order(order)
  {
    && Shape(r)
    && (forall i :: 0 <= i < 2 ==>
          if Promoted(die, order, i) then Exchanged(die, order, close, r, i, Partner(die, order, i))
          else Unmoved(die, order, r, i))
    && (forall j :: 2 <= j < 4 && SlowDie(die[order[j]]) ==> Unmoved(die, order, r, j))
  }

  /** Of the four ranks of the sort, two have applications that were on fast dies. */
  lemma TwoAreFast(die: seq<int>, order: seq<nat>)
    requires AllDies(die) && Order(order)
    ensures Promoted(die, order, 0) && Promoted(die, order, 1) ==> FastDie(die[order[2]]) && FastDie(die[order[3]])
    ensures Promoted(die, order, 0) != Promoted(die, order, 1) ==> FastDie(die[order[2]]) == SlowDie(die[order[3]])
    ensures !Promoted(die, order, 0) && !Promoted(die, order, 1) ==> SlowDie(die[order[2]]) && SlowDie(die[order[3]])
    ensures forall i :: 0 <= i < 4 ==> FastDie(die[order[i]]) != SlowDie(die[order[i]])
  {
    TwoOfFour(die[order[0]], die[order[1]], die[order[2]], die[order[3]]);
  }

  lemma TwoOfFour(a: int, b: int, c: int, d: int)
    requires 0 <= a < 4 && 0 <= b < 4 && 0 <= c < 4 && 0 <= d < 4
    requires a != b && a != c && a != d && b != c && b != d && c != d
    ensures SlowDie(a) && SlowDie(b) ==> FastDie(c) && FastDie(d)
    ensures FastDie(a) && FastDie(b) ==> SlowDie(c) && SlowDie(d)
    ensures SlowDie(a) != SlowDie(b) ==> FastDie(c) == SlowDie(d)
  {
  }

  /** The first application on a fast die is taken. */
  lemma ReplacedIsFirst(l: Layout)
    requires Shape(l)
    ensures 2 <= Replaced(l) <= 4 && (Replaced(l) < 4 ==> FastDie(DieAt(l, Replaced(l))))
    ensures forall k :: 2 <= k < 4 && k < Replaced(l) ==> !FastDie(DieAt(l, k))
  {
  }

  lemma SwapRanksIs(l: Layout, i: nat, j: nat)
    requires Shape(l) && i < 2 <= j < 4
    ensures var r := SwapRanks(l, i, j);
      && Shape(r) && r.die == l.die && r.pe[i] == l.pe[j] && r.pe[j] == l.pe[i]
      && forall k :: 0 <= k < 4 && k != i && k != j ==> r.pe[k] == l.pe[k]
  {
  }

  lemma SwapDiesIs(l: Layout, i: nat, j: nat)
    requires Shape(l) && i < 2 <= j < 4
    ensures var r := SwapDies(l, i, j);
      && Shape(r) && r.pe == l.pe && DieAt(r, i) == DieAt(l, j) && DieAt(r, j) == DieAt(l, i)
      && forall k :: 0 <= k < 4 && k != i && k != j ==> DieAt(r, k) == DieAt(l, k)
  {
  }

  /** One turn, by the application at rank i: it moves exactly when that was on a slow die. */
  lemma TurnIs(l: Layout, before: Layout, close: set<(nat, nat)>, i: nat, j: nat)
    requires Placed(before) && Shape(l) && i < 2 && (SlowDie(before.die[l.pe[i]]) ==> j == Replaced(l) < 4)
    ensures Settle(l, before.pe, close, i)
         == if !SlowDie(before.die[l.pe[i]]) then l
            else if (l.pe[i], l.pe[j]) in close then SwapRanks(l, i, j) else SwapDies(l, i, j)
  {
    var app := l.pe[i];
    RankTellsDie(before, app);
    assert DieAt(before, RankOf(before.pe, app)) == before.die[app];
  }

  lemma FirstTurnIs(l: Layout, order: seq<nat>, close: set<(nat, nat)>, first: Layout, j: nat)
    requires Placed(l) && Order(order) && first == Settle(Layout(order, l.die), l.pe, close, 0)
    requires AllDies(l.die) && j == Partner(l.die, order, 0)
    ensures Shape(first)
    ensures if Promoted(l.die, order, 0) then Exchanged(l.die, order, close, first, 0, j)
            else Unmoved(l.die, order, first, 0)
    ensures forall k :: 1 <= k < 4 && (Promoted(l.die, order, 0) ==> k != j) ==> Unmoved(l.die, order, first, k)
  {
    var start := Layout(order, l.die);
    TwoAreFast(l.die, order);
    TurnIs(start, l, close, 0, j);
    SwapRanksIs(start, 0, j);
    SwapDiesIs(start, 0, j);
    assert forall k :: 0 <= k < 4 ==> DieAt(start, k) == l.die[order[k]];
  }

  /** Each promoted application is paired with one that it replaces: a pair that is too close exchanges ranks, another
      pair exchanges dies. Everybody else keeps both. */
  lemma DecisionIs(l: Layout, order: seq<nat>, close: set<(nat, nat)>)
    requires Placed(l) && Order(order)
    ensures AsDecided(l.die, order, close, Decide(l, order, close))
  {
    PlacedAllDies(l);
    var first := Settle(Layout(order, l.die), l.pe, close, 0);
    FirstTurnIs(l, order, close, first, Partner(l.die, order, 0));
    SecondTurnIs(l, order, close, first, Decide(l, order, close));
  }

  /** The first turn has been taken as FirstTurnIs says. */
  predicate FirstTaken(die: seq<int>, order: seq<nat>, close: set<(nat, nat)>, first: Layout)
    requires |die| == 4 && Order(order)
  {
    && Shape(first)
    && (if Promoted(die, order, 0) then Exchanged(die, order, close, first, 0, Partner(die, order, 0))
        else Unmoved(die, order, first, 0))
    && forall k :: 1 <= k < 4 && (Promoted(die, order, 0) ==> k != Partner(die, order, 0)) ==>
         Unmoved(die, order, first, k)
  }

  lemma SecondReplaced(die: seq<int>, order: seq<nat>, close: set<(nat, nat)>, first: Layout)
    requires AllDies(die) && Order(order) && FirstTaken(die, order, close, first) && Promoted(die, order, 1)
    ensures Replaced(first) == Partner(die, order, 1) && Unmoved(die, order, first, Partner(die, order, 1))
  {
    TwoAreFast(die, order);
    if Promoted(die, order, 0) {
      assert DieAt(first, 2) == die[order[0]] && Unmoved(die, order, first, 3);
    } else {
      assert Unmoved(die, order, first, 2) && Unmoved(die, order, first, 3);
    }
  }

  lemma SecondTurnIs(l: Layout, order: seq<nat>, close: set<(nat, nat)>, first: Layout, r: Layout)
    requires Placed(l) && Order(order) && AllDies(l.die) && FirstTaken(l.die, order, close, first)
    requires r == Settle(first, l.pe, close, 1)
    ensures AsDecided(l.die, order, close, r)
  {
    var j := Partner(l.die, order, 1);
    assert Unmoved(l.die, order, first, 1);
    if Promoted(l.die, order, 1) {
      SecondReplaced(l.die, order, close, first);
    }
    TurnIs(first, l, close, 1, j);
    RestOfTurn(first, r, 1, j);
    if Promoted(l.die, order, 1) {
      SwapRanksIs(first, 1, j);
      SwapDiesIs(first, 1, j);
      ThenDecided(l.die, order, close, first, r, j);
    } else {
      NotPromotedDecided(l.die, order, close, first);
    }
  }

  lemma NotPromotedDecided(die: seq<int>, order: seq<nat>, close: set<(nat, nat)>, first: Layout)
    requires AllDies(die) && Order(order) && FirstTaken(die, order, close, first) && !Promoted(die, order, 1)
    ensures AsDecided(die, order, close, first)
  {
    TwoAreFast(die, order);
  }

  /** The second exchange leaves the first one, and slow ranks, alone. */
  lemma ThenDecided(die: seq<int>, order: seq<nat>, close: set<(nat, nat)>, first: Layout, r: Layout, j: nat)
    requires AllDies(die) && Order(order) && FirstTaken(die, order, close, first) && Promoted(die, order, 1)
    requires j == Partner(die, order, 1) && Unmoved(die, order, first, j) && Unmoved(die, order, first, 1) && Shape(r)
    requires Exchanged(die, order, close, r, 1, j)
    requires forall k :: 0 <= k < 4 && k != 1 && k != j ==>
      r.pe[k] == first.pe[k] && r.die[first.pe[k]] == first.die[first.pe[k]]
    ensures AsDecided(die, order, close, r)
  {
    TwoAreFast(die, order);
    var j0 := Partner(die, order, 0);
    if Promoted(die, order, 0) {
      assert j0 != j && r.pe[0] == first.pe[0] && r.pe[j0] == first.pe[j0];
    } else {
      assert r.pe[0] == first.pe[0] && Unmoved(die, order, first, 2) && Unmoved(die, order, first, 3);
    }
  }

  /** Ranks that a turn does not exchange, and their applications, stay as they are. */
  lemma RestOfTurn(l: Layout, r: Layout, i: nat, j: nat)
    requires Shape(l) && i < 2 <= j < 4 && (r == l || r == SwapRanks(l, i, j) || r == SwapDies(l, i, j))
    ensures Shape(r)
    ensures forall k :: 0 <= k < 4 && k != i && k != j ==> r.pe[k] == l.pe[k] && r.die[l.pe[k]] == l.die[l.pe[k]]
  {
    SwapRanksIs(l, i, j);
    SwapDiesIs(l, i, j);
  }

  // ----- In place -----

  class Scheduler {
    const peData: array<nat>
    const currentDie: array<int>

    function View(): Layout
      reads peData, currentDie
    {
      Layout(peData[..], currentDie[..])
    }

    ghost predicate Valid()
      reads this, peData, currentDie
    {
      peData.Length == 4 && currentDie.Length == 4 && Placed(View())
    }

    constructor ()
      ensures Valid() && View() == Initial() && fresh(peData) && fresh(currentDie)
    {
      var ranks, dies := new nat[4], new int[4];
      for i := 0 to 4
        invariant forall k :: 0 <= k < i ==> ranks[k] == k && dies[k] == DIE_ORDER[k]
      {
        ranks[i], dies[i] := i, DIE_ORDER[i];
      }
      peData, currentDie := ranks, dies;
      new;
      assert peData[..] == [0, 1, 2, 3] && currentDie[..] == DIE_ORDER;
    }

    method MoveApp(app: nat, die: int)
      requires app < currentDie.Length
      modifies currentDie
      ensures currentDie[..] == old(currentDie[..])[app := die]
    {
      currentDie[app] := die;
    }

    /** The exchange of a turn: of the ranks when the two are too close, else of the dies. */
    method Exchange(i: nat, j: nat, close: set<(nat, nat)>)
      requires peData.Length == 4 && currentDie.Length == 4 && Shape(View()) && i < 2 <= j < 4
      modifies peData, currentDie
      ensures View() == if (old(peData[i]), old(peData[j])) in close then SwapRanks(old(View()), i, j)
                        else SwapDies(old(View()), i, j)
    {
      var nowFast, nowSlow := peData[i], peData[j];
      var fastDie, slowDie := currentDie[nowSlow], currentDie[nowFast];
      if (nowFast, nowSlow) in close {
        peData[i] := nowSlow;
        peData[j] := nowFast;
      } else {
        MoveApp(nowFast, fastDie);
        MoveApp(nowSlow, slowDie);
      }
    }

    /** One turn of the outer loop for a rank whose application was on a slow die. */
    method Promote(i: nat, close: set<(nat, nat)>)
      requires peData.Length == 4 && currentDie.Length == 4 && Shape(View()) && i < 2 && Replaced(View()) < 4
      modifies peData, currentDie
      ensures var l := old(View()); var j := Replaced(l);
        View() == if (l.pe[i], l.pe[j]) in close then SwapRanks(l, i, j) else SwapDies(l, i, j)
    {
      var j := 2;
      while j < 4
        invariant 2 <= j <= 4 && View() == old(View())
        invariant forall k :: 2 <= k < j ==> !FastDie(DieAt(View(), k))
      {
        if currentDie[peData[j]] == 1 || currentDie[peData[j]] == 2 {
          Exchange(i, j, close);
          break;
        }
        j := j + 1;
      }
      assert j != 4;
    }

    /** The sort. */
    method Reorder(order: seq<nat>)
      requires peData.Length == 4 && Order(order)
      modifies peData
      ensures peData[..] == order
    {
      for i := 0 to 4
        invariant forall k :: 0 <= k < i ==> peData[k] == order[k]
      {
        peData[i] := order[i];
      }
    }

    method OldIndexes() returns (oldIndexes: array<nat>)
      requires Valid()
      ensures fresh(oldIndexes) && oldIndexes.Length == 4
      ensures forall app :: 0 <= app < 4 ==> oldIndexes[app] == RankOf(View().pe, app)
    {
      oldIndexes := new nat[4];
      for i := 0 to 4
        invariant forall k :: 0 <= k < i ==> oldIndexes[peData[k]] == k
      {
        oldIndexes[peData[i]] := i;
      }
      forall app | 0 <= app < 4
        ensures oldIndexes[app] == RankOf(View().pe, app)
      {
        assert peData[RankOf(View().pe, app)] == app;
      }
    }

    method Turn(i: nat, oldIndexes: array<nat>, close: set<(nat, nat)>, ghost before: Layout)
      requires peData.Length == 4 && currentDie.Length == 4 && oldIndexes != peData
      requires i < 2 && Placed(before) && Settling(View(), before, i)
      requires oldIndexes.Length == 4 && forall app :: 0 <= app < 4 ==> oldIndexes[app] == RankOf(before.pe, app)
      modifies peData, currentDie
      ensures View() == Settle(old(View()), before.pe, close, i) && Settling(View(), before, i + 1)
    {
      SettleKeeps(View(), before, close, i);
      if oldIndexes[peData[i]] > 1 {
        AssertionHolds(View(), before, i);
        Promote(i, close);
      }
    }

    /** take_a_decision, with the outcome of the sort and the close pairs given. */
    method TakeADecision(order: seq<nat>, close: set<(nat, nat)>)
      requires Valid() && Order(order)
      modifies peData, currentDie
      ensures Valid() && View() == Decide(old(View()), order, close)
    {
      ghost var before := View();
      var oldIndexes := OldIndexes();
      Reorder(order);
      SettlingStarts(before, order);
      for i := 0 to 2
        invariant Settling(View(), before, i)
        invariant forall app :: 0 <= app < 4 ==> oldIndexes[app] == RankOf(before.pe, app)
        invariant i == 0 ==> View() == Layout(order, before.die)
        invariant i == 1 ==> View() == Settle(Layout(order, before.die), before.pe, close, 0)
        invariant i == 2 ==> View() == Decide(before, order, close)
      {
        Turn(i, oldIndexes, close, before);
      }
      DecisionKeepsPlacement(before, order, close);
    }
  }
}
