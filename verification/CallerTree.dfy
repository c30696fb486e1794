/** The tree of callers that profiler/events.c builds for a symbol: nested hash tables, one level per frame of the
    call chain, with a counter per event in every node. A node's address is its number here; a lookup or an
    insertion in a node's table is one in children. */
module CallerTree {

  type Sym = int

  /** The result of ip_callchain_to_symb; NoSymb is its NULL. */
  datatype Caller = Symb(s: Sym) | NoSymb

  /** A sample of an event with the callers its chain resolves to. */
  datatype Sample = Sample(evt: nat, path: seq<Sym>)

  function Resolved(chain: seq<Caller>): (path: seq<Sym>)
    ensures |path| <= |chain|
  {
    if chain == [] then []
    else
      var last := chain[|chain| - 1];
      Resolved(chain[..|chain| - 1]) + if last.Symb? then [last.s] else []
  }

  /** The path has the frames that resolve, each once, in the order of the chain. */
  lemma {:induction false} ResolvedJoins(a: seq<Caller>, b: seq<Caller>)
    ensures Resolved(a + b) == Resolved(a) + Resolved(b)
    decreases |b|
  {
    if b == [] {
      assert a + b == a;
    } else {
      var n := |b| - 1;
      assert (a + b)[..|a + b| - 1] == a + b[..n];
      ResolvedJoins(a, b[..n]);
    }
  }

  lemma ResolvedOne(c: Caller)
    ensures Resolved([c]) == if c == NoSymb then [] else [c.s]
  {
    assert [c][..0] == [];
  }

  /** The entries at, in increasing order, are those of the chain that resolve, and the path has their symbols. */
  predicate ListsResolved(chain: seq<Caller>, path: seq<Sym>, at: seq<nat>) {
    && |at| == |path|
    && (forall k :: 0 <= k < |at| ==> at[k] < |chain| && chain[at[k]] == Symb(path[k]))
    && (forall j, k :: 0 <= j < k < |at| ==> at[j] < at[k])
    && (forall i :: 0 <= i < |chain| && chain[i].Symb? ==> i in at)
  }

  lemma ListsOneMore(chain: seq<Caller>, path: seq<Sym>, at: seq<nat>, c: Caller)
    requires ListsResolved(chain, path, at)
    ensures ListsResolved(chain + [c], if c.Symb? then path + [c.s] else path, if c.Symb? then at + [|chain|] else at)
  {
    var at' := if c.Symb? then at + [|chain|] else at;
    forall i | 0 <= i <= |chain| && (chain + [c])[i].Symb?
      ensures i in at'
    {
      if i < |chain| {
        assert chain[i].Symb? && i in at;
      } else {
        assert at'[|at|] == i;
      }
    }
  }

  /** Every frame that resolves is in the path, once and in its place, and nothing else is. */
  lemma {:induction false} ResolvedInOrder(chain: seq<Caller>) returns (at: seq<nat>)
    ensures ListsResolved(chain, Resolved(chain), at)
  {
    if chain == [] {
      at := [];
    } else {
      var n := |chain| - 1;
      var shorter, c := chain[..n], chain[n];
      var before := ResolvedInOrder(shorter);
      ListsOneMore(shorter, Resolved(shorter), before, c);
      ResolvedLast(chain, shorter, c);
      at := if c.Symb? then before + [|shorter|] else before;
    }
  }

  lemma ResolvedLast(chain: seq<Caller>, shorter: seq<Caller>, c: Caller)
    requires chain != [] && shorter == chain[..|chain| - 1] && c == chain[|chain| - 1]
    ensures chain == shorter + [c]
    ensures Resolved(chain) == if c.Symb? then Resolved(shorter) + [c.s] else Resolved(shorter)
  {
    assert Resolved(shorter) + [] == Resolved(shorter);
  }

  // ----- What the tree stands for -----

  /** Samples of an event whose chain starts with a path. */
  function Count(samples: seq<Sample>, path: seq<Sym>, evt: nat): nat {
    if samples == [] then 0
    else
      var last := samples[|samples| - 1];
      Count(samples[..|samples| - 1], path, evt) + if last.evt == evt && path <= last.path then 1 else 0
  }

  /** Samples of an event whose chain is a path. */
  function Ends(samples: seq<Sample>, path: seq<Sym>, evt: nat): nat {
    if samples == [] then 0
    else
      var last := samples[|samples| - 1];
      Ends(samples[..|samples| - 1], path, evt) + if last.evt == evt && path == last.path then 1 else 0
  }

  /** Frames of a symbol in a chain, and in all chains. */
  function Frames(path: seq<Sym>, s: Sym): nat {
    if path == [] then 0 else Frames(path[..|path| - 1], s) + if path[|path| - 1] == s then 1 else 0
  }

  /** That is how often the path has it. */
  lemma {:induction false} FramesAreOccurrences(path: seq<Sym>, s: Sym)
    ensures Frames(path, s) == multiset(path)[s]
  {
    if path != [] {
      FramesAreOccurrences(path[..|path| - 1], s);
      assert path == path[..|path| - 1] + [path[|path| - 1]];
    }
  }

  function AllFrames(samples: seq<Sample>, s: Sym): nat {
    if samples == [] then 0
    else AllFrames(samples[..|samples| - 1], s) + Frames(samples[|samples| - 1].path, s)
  }

  function Get(m: map<Sym, nat>, s: Sym): nat { if s in m then m[s] else 0 }

  /** One more frame at the end of the last sample's chain counts for the path it completes, and for no other. */
  lemma CountOneMore(samples: seq<Sample>, evt: nat, path: seq<Sym>, s: Sym, q: seq<Sym>, e: nat)
    ensures Count(samples + [Sample(evt, path + [s])], q, e)
         == Count(samples + [Sample(evt, path)], q, e) + if e == evt && q == path + [s] then 1 else 0
  {
    assert (samples + [Sample(evt, path + [s])])[..|samples|] == samples;
    assert (samples + [Sample(evt, path)])[..|samples|] == samples;
    if q <= path + [s] && !(q <= path) {
      assert q == path + [s];
    }
    if q <= path {
      assert path == (path + [s])[..|path|];
    }
  }

  lemma FramesOneMore(samples: seq<Sample>, evt: nat, path: seq<Sym>, s: Sym, c: Sym)
    ensures AllFrames(samples + [Sample(evt, path + [s])], c)
         == AllFrames(samples + [Sample(evt, path)], c) + if c == s then 1 else 0
  {
    assert (samples + [Sample(evt, path + [s])])[..|samples|] == samples;
    assert (samples + [Sample(evt, path)])[..|samples|] == samples;
    assert (path + [s])[..|path|] == path;
  }

  /** A chain without resolved frames counts for the empty path only. */
  lemma CountEmptyChain(samples: seq<Sample>, evt: nat, q: seq<Sym>, e: nat)
    requires q != []
    ensures Count(samples + [Sample(evt, [])], q, e) == Count(samples, q, e)
    ensures forall c :: AllFrames(samples + [Sample(evt, [])], c) == AllFrames(samples, c)
  {
    assert (samples + [Sample(evt, [])])[..|samples|] == samples;
  }

  // ----- Consequences -----

  function ChildSum(samples: seq<Sample>, path: seq<Sym>, evt: nat, syms: seq<Sym>): nat {
    if syms == [] then 0
    else ChildSum(samples, path, evt, syms[..|syms| - 1]) + Count(samples, path + [syms[|syms| - 1]], evt)
  }

  ghost predicate Distinct(syms: seq<Sym>) {
    forall i, j :: 0 <= i < j < |syms| ==> syms[i] != syms[j]
  }

  /** Every frame that follows the path in some chain is listed. */
  ghost predicate Covers(samples: seq<Sample>, path: seq<Sym>, syms: seq<Sym>) {
    forall k :: 0 <= k < |samples| && path < samples[k].path ==> samples[k].path[|path|] in syms
  }

  lemma {:induction false} ChildSumOneMore(
    samples: seq<Sample>, last: Sample, path: seq<Sym>, evt: nat, syms: seq<Sym>)
    requires Distinct(syms)
    ensures ChildSum(samples + [last], path, evt, syms)
         == ChildSum(samples, path, evt, syms)
            + if last.evt == evt && path < last.path && last.path[|path|] in syms then 1 else 0
  {
    if syms != [] {
      var n := |syms| - 1;
      var p := path + [syms[n]];
      ChildSumOneMore(samples, last, path, evt, syms[..n]);
      assert (samples + [last])[..|samples|] == samples;
      assert p <= last.path <==> path < last.path && last.path[|path|] == syms[n] by {
        if path < last.path && last.path[|path|] == syms[n] {
          assert p == last.path[..|path| + 1];
        }
      }
      assert syms == syms[..n] + [syms[n]];
    }
  }

  /** A node's count is that of the chains that end there plus those of its children: at least their sum. */
  lemma {:induction false} NodeIsSumOfChildren(samples: seq<Sample>, path: seq<Sym>, evt: nat, syms: seq<Sym>)
    requires Distinct(syms) && Covers(samples, path, syms)
    ensures Count(samples, path, evt) == Ends(samples, path, evt) + ChildSum(samples, path, evt, syms)
  {
    if samples == [] {
      NoSamples(path, evt, syms);
    } else {
      var n := |samples| - 1;
      var last := samples[n];
      NodeIsSumOfChildren(samples[..n], path, evt, syms);
      assert samples == samples[..n] + [last];
      ChildSumOneMore(samples[..n], last, path, evt, syms);
      assert path <= last.path <==> path == last.path || path < last.path;
    }
  }

  lemma {:induction false} NoSamples(path: seq<Sym>, evt: nat, syms: seq<Sym>)
    ensures ChildSum([], path, evt, syms) == 0
  {
    if syms != [] {
      NoSamples(path, evt, syms[..|syms| - 1]);
    }
  }

  // ----- The tree in memory -----

  /** Nodes are in bijection with their paths, and tables link a node to the nodes one frame further. */
  ghost predicate Linked(paths: seq<seq<Sym>>, children: seq<map<Sym, nat>>) {
    && 0 < |paths| == |children| && paths[0] == []
    && (forall a, b :: 0 <= a < b < |paths| ==> paths[a] != paths[b])
    && (forall a, s :: 0 <= a < |children| && s in children[a] ==> Leads(paths, a, s, children[a][s]))
    && (forall b :: 0 < b < |paths| ==> HasParent(paths, children, b))
  }

  predicate Leads(paths: seq<seq<Sym>>, a: nat, s: Sym, b: nat)
    requires a < |paths|
  {
    0 < b < |paths| && paths[b] == paths[a] + [s]
  }

  ghost predicate HasParent(paths: seq<seq<Sym>>, children: seq<map<Sym, nat>>, b: nat)
    requires b < |paths| == |children|
  {
    exists a, s :: 0 <= a < |paths| && s in children[a] && children[a][s] == b
  }

  /** Every counter is the number of chains that start with the node's path. */
  ghost predicate Counted(values: seq<seq<nat>>, paths: seq<seq<Sym>>, samples: seq<Sample>, events: nat) {
    && |values| == |paths|
    && (forall b :: 0 <= b < |values| ==> |values[b]| == events)
    && (forall b, e :: 0 < b < |values| && 0 <= e < events ==> values[b][e] == Count(samples, paths[b], e))
  }

  /** There is a node for every path with which some chain starts. */
  ghost predicate Grown(paths: seq<seq<Sym>>, samples: seq<Sample>) {
    forall k :: 0 <= k < |samples| ==> PrefixesIn(samples[k].path, paths)
  }

  ghost predicate PrefixesIn(path: seq<Sym>, paths: seq<seq<Sym>>) {
    forall q :: q <= path ==> q in paths
  }

  ghost predicate Totalled(callers: map<Sym, nat>, samples: seq<Sample>) {
    forall s :: Get(callers, s) == AllFrames(samples, s)
  }

  /** The node of a path one frame further is the one the table leads to. */
  lemma FoundByTable(paths: seq<seq<Sym>>, children: seq<map<Sym, nat>>, at: nat, s: Sym, b: nat)
    requires Linked(paths, children) && at < |paths| && 0 < b < |paths| && paths[b] == paths[at] + [s]
    ensures s in children[at] && children[at][s] == b
  {
    assert HasParent(paths, children, b);
    var a, t :| 0 <= a < |paths| && t in children[a] && children[a][t] == b;
    assert Leads(paths, a, t, b);
    assert paths[b][..|paths[b]| - 1] == paths[a] == paths[at];
    assert paths[b][|paths[b]| - 1] == s == t;
  }

  /** There is a node one frame further exactly when the table has an entry. */
  lemma NodeIffEntry(paths: seq<seq<Sym>>, children: seq<map<Sym, nat>>, at: nat, s: Sym)
    requires Linked(paths, children) && at < |paths|
    ensures paths[at] + [s] in paths <==> s in children[at]
  {
    if paths[at] + [s] in paths {
      var b :| 0 <= b < |paths| && paths[b] == paths[at] + [s];
      FoundByTable(paths, children, at, s, b);
    }
    if s in children[at] {
      assert Leads(paths, at, s, children[at][s]);
    }
  }

  lemma LinkNew(paths: seq<seq<Sym>>, children: seq<map<Sym, nat>>, at: nat, s: Sym, table: map<Sym, nat>)
    requires Linked(paths, children) && at < |paths| && s !in children[at]
    requires table == children[at][s := |paths|]
    ensures Linked(paths + [paths[at] + [s]], children[at := table] + [map[]])
  {
    NodeIffEntry(paths, children, at, s);
    var paths', children' := paths + [paths[at] + [s]], children[at := table] + [map[]];
    forall a, t | 0 <= a < |children'| && t in children'[a]
      ensures Leads(paths', a, t, children'[a][t])
    {
      if a < |paths| && !(a == at && t == s) {
        assert Leads(paths, a, t, children[a][t]);
      }
    }
    forall b | 0 < b < |paths'|
      ensures HasParent(paths', children', b)
    {
      if b < |paths| {
        assert HasParent(paths, children, b);
        var a, t :| 0 <= a < |paths| && t in children[a] && children[a][t] == b;
        assert t in children'[a] && children'[a][t] == b;
      } else {
        assert s in children'[at] && children'[at][s] == b;
      }
    }
  }

  lemma {:induction false} NotAPrefix(samples: seq<Sample>, paths: seq<seq<Sym>>, path: seq<Sym>, e: nat)
    requires Grown(paths, samples) && path !in paths
    ensures Count(samples, path, e) == 0
  {
    if samples != [] {
      assert PrefixesIn(samples[|samples| - 1].path, paths);
      NotAPrefix(samples[..|samples| - 1], paths, path, e);
    }
  }

  lemma CountNew(
    values: seq<seq<nat>>, paths: seq<seq<Sym>>, samples: seq<Sample>, events: nat, path: seq<Sym>)
    requires Counted(values, paths, samples, events) && Grown(paths, samples) && path !in paths
    ensures Counted(values + [seq(events, _ => 0)], paths + [path], samples, events)
    ensures Grown(paths + [path], samples)
  {
    forall e | 0 <= e < events
      ensures Count(samples, path, e) == 0
    {
      NotAPrefix(samples, paths, path, e);
    }
    forall k | 0 <= k < |samples|
      ensures PrefixesIn(samples[k].path, paths + [path])
    {
      assert PrefixesIn(samples[k].path, paths);
    }
  }

  /** A frame counted at its node. */
  lemma CountFrame(
    values: seq<seq<nat>>, paths: seq<seq<Sym>>, children: seq<map<Sym, nat>>, before: seq<Sample>, events: nat,
    evt: nat, path: seq<Sym>, s: Sym, child: nat)
    requires Linked(paths, children) && Counted(values, paths, before + [Sample(evt, path)], events)
    requires evt < events && 0 < child < |paths| && paths[child] == path + [s]
    ensures Counted(values[child := values[child][evt := values[child][evt] + 1]], paths,
                    before + [Sample(evt, path + [s])], events)
  {
    var values' := values[child := values[child][evt := values[child][evt] + 1]];
    var after := before + [Sample(evt, path + [s])];
    forall b, e | 0 < b < |values'| && 0 <= e < events
      ensures values'[b][e] == Count(after, paths[b], e)
    {
      CountOneMore(before, evt, path, s, paths[b], e);
      assert b != child ==> paths[b] != paths[child];
    }
  }

  lemma GrowFrame(paths: seq<seq<Sym>>, before: seq<Sample>, evt: nat, path: seq<Sym>, s: Sym)
    requires Grown(paths, before + [Sample(evt, path)]) && path + [s] in paths
    ensures Grown(paths, before + [Sample(evt, path + [s])])
  {
    var earlier, after := before + [Sample(evt, path)], before + [Sample(evt, path + [s])];
    assert PrefixesIn(earlier[|before|].path, paths);
    forall q | q <= path + [s]
      ensures q in paths
    {
      assert q == path + [s] || q <= path;
    }
    forall k | 0 <= k < |after|
      ensures PrefixesIn(after[k].path, paths)
    {
      assert k < |before| ==> after[k] == earlier[k];
    }
  }

  lemma TotalFrame(callers: map<Sym, nat>, before: seq<Sample>, evt: nat, path: seq<Sym>, s: Sym)
    requires Totalled(callers, before + [Sample(evt, path)])
    ensures Totalled(callers[s := Get(callers, s) + 1], before + [Sample(evt, path + [s])])
  {
    forall c
      ensures Get(callers[s := Get(callers, s) + 1], c) == AllFrames(before + [Sample(evt, path + [s])], c)
    {
      FramesOneMore(before, evt, path, s, c);
    }
  }

  /** A sample before its first frame. */
  lemma OpenSample(
    values: seq<seq<nat>>, paths: seq<seq<Sym>>, children: seq<map<Sym, nat>>, samples: seq<Sample>, events: nat,
    callers: map<Sym, nat>, evt: nat)
    requires Linked(paths, children) && Counted(values, paths, samples, events) && Grown(paths, samples)
    requires Totalled(callers, samples)
    ensures Counted(values, paths, samples + [Sample(evt, [])], events)
    ensures Grown(paths, samples + [Sample(evt, [])]) && Totalled(callers, samples + [Sample(evt, [])])
  {
    forall b, e | 0 < b < |values| && 0 <= e < events
      ensures values[b][e] == Count(samples + [Sample(evt, [])], paths[b], e)
    {
      assert paths[b] != paths[0];
      CountEmptyChain(samples, evt, paths[b], e);
    }
    assert PrefixesIn([], paths) by {
      assert paths[0] in paths;
    }
    CountEmptyChain(samples, evt, [0], 0);
  }

  /** A node's table has an entry for every frame that follows its path in some chain. */
  lemma TableCovers(
    paths: seq<seq<Sym>>, children: seq<map<Sym, nat>>, samples: seq<Sample>, a: nat, syms: seq<Sym>)
    requires Linked(paths, children) && Grown(paths, samples) && a < |paths|
    requires forall s :: s in children[a] ==> s in syms
    ensures Covers(samples, paths[a], syms)
  {
    forall k | 0 <= k < |samples| && paths[a] < samples[k].path
      ensures samples[k].path[|paths[a]|] in syms
    {
      var s := samples[k].path[|paths[a]|];
      assert PrefixesIn(samples[k].path, paths);
      assert paths[a] + [s] == samples[k].path[..|paths[a]| + 1];
      NodeIffEntry(paths, children, a, s);
    }
  }

  function ValueSum(values: seq<seq<nat>>, table: map<Sym, nat>, syms: seq<Sym>, e: nat): nat
    requires forall i :: 0 <= i < |syms| ==> syms[i] in table && table[syms[i]] < |values|
    requires forall b :: 0 <= b < |values| ==> e < |values[b]|
  {
    if syms == [] then 0
    else
      var n := |syms| - 1;
      ValueSum(values, table, syms[..n], e) + values[table[syms[n]]][e]
  }

  /** In the tables: a node's counter is the number of chains that end there plus its children's counters. */
  lemma {:induction false} CountersAddUp(
    values: seq<seq<nat>>, paths: seq<seq<Sym>>, children: seq<map<Sym, nat>>, samples: seq<Sample>, events: nat,
    a: nat, syms: seq<Sym>, e: nat)
    requires Linked(paths, children) && Counted(values, paths, samples, events) && Grown(paths, samples)
    requires 0 < a < |paths| && e < events && Distinct(syms)
    requires forall s :: s in children[a] ==> s in syms
    requires forall i :: 0 <= i < |syms| ==> syms[i] in children[a]
    ensures values[a][e] == Ends(samples, paths[a], e) + ValueSum(values, children[a], syms, e)
  {
    TableCovers(paths, children, samples, a, syms);
    NodeIsSumOfChildren(samples, paths[a], e, syms);
    ValuesAreCounts(values, paths, children[a], samples, events, a, syms, e);
  }

  lemma {:induction false} ValuesAreCounts(
    values: seq<seq<nat>>, paths: seq<seq<Sym>>, table: map<Sym, nat>, samples: seq<Sample>, events: nat,
    a: nat, syms: seq<Sym>, e: nat)
    requires Counted(values, paths, samples, events) && a < |paths| && e < events
    requires forall i :: 0 <= i < |syms| ==> syms[i] in table && table[syms[i]] < |values|
    requires forall i :: 0 <= i < |syms| ==> Leads(paths, a, syms[i], table[syms[i]])
    ensures ValueSum(values, table, syms, e) == ChildSum(samples, paths[a], e, syms)
  {
    if syms != [] {
      var n := |syms| - 1;
      ValuesAreCounts(values, paths, table, samples, events, a, syms[..n], e);
      assert Leads(paths, a, syms[n], table[syms[n]]);
    }
  }

  /** Tables and counters by node number; node 0 is direct_callers and has no counters of its own. */
  class Callers {
    const events: nat
    var values: seq<seq<nat>>
    var children: seq<map<Sym, nat>>
    var callers: map<Sym, nat>
    var calledSymbols: map<Sym, nat>     // caller by caller, its called_symbols entry for the tree's symbol
    ghost var paths: seq<seq<Sym>>
    ghost var samples: seq<Sample>

    ghost predicate Valid()
      reads this
    {
      && Linked(paths, children) && Counted(values, paths, samples, events)
      && Grown(paths, samples) && Totalled(callers, samples) && Totalled(calledSymbols, samples)
    }

    constructor (events: nat)
      ensures Valid() && samples == [] && this.events == events
    {
      this.events := events;
      values, children, callers, calledSymbols := [seq(events, _ => 0)], [map[]], map[], map[];
      paths, samples := [[]], [];
    }

    /** The node for caller s below node at, made if it is not there. */
    method Child(at: nat, s: Sym) returns (child: nat)
      requires Valid() && at < |paths|
      modifies this`values, this`children, this`paths
      ensures Valid() && 0 < child < |paths| && paths[child] == old(paths[at]) + [s]
    {
      if s in children[at] {
        child := children[at][s];
        assert Leads(paths, at, s, child);
      } else {
        child := |values|;
        var table: map<Sym, nat> := children[at][s := child];
        NodeIffEntry(paths, children, at, s);
        LinkNew(paths, children, at, s, table);
        CountNew(values, paths, samples, events, paths[at] + [s]);
        values := values + [seq(events, _ => 0)];
        children := children[at := table] + [map[]];
        paths := paths + [paths[at] + [s]];
      }
    }

    /** One frame of the chain: its node's counter, and the caller's totals on both sides. */
    method AddFrame(at: nat, s: Sym, evt: nat, ghost before: seq<Sample>, ghost path: seq<Sym>)
      returns (child: nat)
      requires Valid() && at < |paths| && paths[at] == path && evt < events
      requires samples == before + [Sample(evt, path)]
      modifies this
      ensures Valid() && child < |paths| && paths[child] == path + [s]
      ensures samples == before + [Sample(evt, path + [s])]
    {
      child := Child(at, s);
      CountFrame(values, paths, children, before, events, evt, path, s, child);
      GrowFrame(paths, before, evt, path, s);
      TotalFrame(callers, before, evt, path, s);
      TotalFrame(calledSymbols, before, evt, path, s);
      values := values[child := values[child][evt := values[child][evt] + 1]];
      calledSymbols := calledSymbols[s := Get(calledSymbols, s) + 1];
      callers := callers[s := Get(callers, s) + 1];
      samples := before + [Sample(evt, path + [s])];
    }

    /** symb_add_sample_caller. */
    method AddSample(evt: nat, chain: seq<Caller>)
      requires Valid() && evt < events
      modifies this
      ensures Valid() && samples == old(samples) + [Sample(evt, Resolved(chain))]
    {
      ghost var before := samples;
      OpenSample(values, paths, children, samples, events, callers, evt);
      OpenSample(values, paths, children, samples, events, calledSymbols, evt);
      samples := before + [Sample(evt, [])];
      var at: nat := 0;
      for i := 0 to |chain|
        invariant Valid() && at < |paths| && paths[at] == Resolved(chain[..i])
        invariant samples == before + [Sample(evt, Resolved(chain[..i]))]
      {
        assert chain[..i + 1][..i] == chain[..i];
        if chain[i].NoSymb? {
          continue;
        }
        at := AddFrame(at, chain[i].s, evt, before, Resolved(chain[..i]));
      }
      assert chain[..|chain|] == chain;
    }
  }
}
