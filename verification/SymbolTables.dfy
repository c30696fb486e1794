/** The parser's tables of processes and of parsed executables: symb_add_pid, symb_add_fork and symb_add_map of
    profiler/events.c, symb_add_exe of profiler/symbols.c, and what symb_add_sample looks up in them. Where these
    give up the program, the methods return died. */
module SymbolTables {

  const MAX_CORE: int := 16
  const MAX_EVT: int := 4

  /** Values of a uint64_t. */
  const WORD: nat := 0x1_0000_0000_0000_0000

  const PERF_CONTEXT_MAX: int := WORD - 4095
  const PERF_CONTEXT_HV: int := WORD - 32
  const PERF_CONTEXT_KERNEL: int := WORD - 128

  const MODE_KERNEL: int := 1
  const MODE_USER: int := 2

  datatype Option<T> = None | Some(value: T)

  /** struct mmaped_zone: addresses begin to end are at off in file. */
  datatype Zone = Zone(begin: nat, end: nat, off: nat, file: string)

  /** struct process: name, and zones without the dummy in front. */
  datatype Process = Process(name: string, zones: seq<Zone>)

  /** A symbol, by where it is looked up; its name is in the symbol table read from there. */
  datatype Sym = Kernel(ip: nat) | InFile(file: string, at: nat) | UnknownSymbol

  /** What the parser is asked for, and what it finds on the machine: broken are the files that can be opened but
      that libelf cannot read, and nameOf gives the names of symbols. */
  datatype Options = Options(
    dieOnFail: bool,
    kernel: bool,
    user: bool,
    ltid: bool,
    cpus: seq<int>,
    remote: bool,
    ignoreSamples: bool,
    ttid: bool,
    allEvents: bool,
    baseEvent: int,
    app: Option<string>,
    callees: set<string>,
    nonCallees: set<string>,
    broken: set<string>,
    nameOf: Sym -> string)

  /** What init_symb puts into the table of parsed files. */
  const BUILT_IN: set<string> := {"[vdso]", "kernel"}

  /** Files that symb_add_exe dies of. */
  predicate Unreadable(o: Options, file: string) { file in o.broken && file !in BUILT_IN }

  /** What is looked up for one address of a call chain, and the context after it. */
  datatype Frame = Skipped | Found(s: Sym) | Missing

  // ----- What the tables mean -----

  /** Zones are in the order of their addresses. */
  predicate ZonesSorted(zones: seq<Zone>) {
    forall a, b :: 0 <= a < b < |zones| ==> zones[a].begin <= zones[b].begin
  }

  /** Every zone's file is parsed. */
  predicate ZonesParsed(zones: seq<Zone>, parsed: set<string>) {
    forall k :: 0 <= k < |zones| ==> zones[k].file in parsed
  }

  predicate ProcessesOk(processes: map<int, Process>, parsed: set<string>) {
    forall pid :: pid in processes ==>
      ZonesSorted(processes[pid].zones) && ZonesParsed(processes[pid].zones, parsed)
  }

  predicate Holds(z: Zone, ip: nat) { z.begin <= ip <= z.end }

  /** The first zone that holds an address. */
  function ZoneOf(zones: seq<Zone>, ip: nat): Option<Zone> {
    if zones == [] then None
    else if Holds(zones[0], ip) then Some(zones[0])
    else ZoneOf(zones[1..], ip)
  }

  lemma {:induction false} ZoneOfIsListed(zones: seq<Zone>, ip: nat)
    ensures ZoneOf(zones, ip).Some? ==> ZoneOf(zones, ip).value in zones && Holds(ZoneOf(zones, ip).value, ip)
    ensures ZoneOf(zones, ip).None? ==> forall k :: 0 <= k < |zones| ==> !Holds(zones[k], ip)
  {
    if zones != [] && !Holds(zones[0], ip) {
      ZoneOfIsListed(zones[1..], ip);
      assert forall k :: 1 <= k < |zones| ==> zones[k] == zones[1..][k - 1];
    }
  }

  /** Where a zone that begins at start goes: behind those that begin before it. */
  function Place(zones: seq<Zone>, start: nat): (k: nat)
    ensures k <= |zones|
    ensures forall j :: 0 <= j < k ==> zones[j].begin < start
    ensures k < |zones| ==> zones[k].begin >= start
  {
    if zones == [] || zones[0].begin >= start then 0 else 1 + Place(zones[1..], start)
  }

  function WithZone(zones: seq<Zone>, z: Zone): seq<Zone> {
    var k := Place(zones, z.begin);
    zones[..k] + [z] + zones[k..]
  }

  lemma WithZoneKeeps(zones: seq<Zone>, z: Zone, parsed: set<string>)
    requires ZonesSorted(zones) && ZonesParsed(zones, parsed) && z.file in parsed
    ensures ZonesSorted(WithZone(zones, z)) && ZonesParsed(WithZone(zones, z), parsed)
  {
    var k, more := Place(zones, z.begin), WithZone(zones, z);
    forall a, b | 0 <= a < b < |more|
      ensures more[a].begin <= more[b].begin
    {
      if a == k {
        assert more[b] == zones[b - 1] && zones[k].begin <= zones[b - 1].begin;
      } else if b == k {
        assert more[a] == zones[a];
      } else {
        assert more[a] == zones[if a < k then a else a - 1] && more[b] == zones[if b < k then b else b - 1];
      }
    }
    forall j | 0 <= j < |more|
      ensures more[j].file in parsed
    {
      if j != k {
        assert more[j] == zones[if j < k then j else j - 1];
      }
    }
  }

  /** No zone is lost, and the old ones stay in their order. */
  lemma WithZoneAddsOne(zones: seq<Zone>, z: Zone)
    ensures multiset(WithZone(zones, z)) == multiset(zones) + multiset{z}
    ensures exists k ::
      0 <= k < |WithZone(zones, z)| == |zones| + 1 && WithZone(zones, z)[k] == z
      && WithZone(zones, z)[..k] + WithZone(zones, z)[k + 1..] == zones
  {
    var k, more := Place(zones, z.begin), WithZone(zones, z);
    assert zones[..k] + zones[k..] == zones;
    assert more[..k] == zones[..k] && more[k + 1..] == zones[k..] && more[k] == z;
  }

  lemma {:induction false} ZoneOfJoins(a: seq<Zone>, b: seq<Zone>, ip: nat)
    ensures ZoneOf(a + b, ip) == if ZoneOf(a, ip).Some? then ZoneOf(a, ip) else ZoneOf(b, ip)
  {
    if a == [] {
      assert a + b == b;
    } else if !Holds(a[0], ip) {
      assert (a + b)[1..] == a[1..] + b;
      ZoneOfJoins(a[1..], b, ip);
    }
  }

  lemma PlaceIs(zones: seq<Zone>, z: Zone)
    requires ZonesSorted(zones)
    ensures var k := Place(zones, z.begin);
      && zones == zones[..k] + zones[k..] && WithZone(zones, z) == zones[..k] + ([z] + zones[k..])
      && (forall j :: 0 <= j < |zones[..k]| ==> zones[..k][j].begin < z.begin)
      && (forall j :: 0 <= j < |zones[k..]| ==> z.begin <= zones[k..][j].begin)
  {
    var k := Place(zones, z.begin);
    var front, back := zones[..k], zones[k..];
    assert zones == front + back;
    assert front + [z] + back == front + ([z] + back);
    forall j | 0 <= j < |front|
      ensures front[j].begin < z.begin
    {
      assert front[j] == zones[j];
    }
    forall j | 0 <= j < |back|
      ensures z.begin <= back[j].begin
    {
      assert back[j] == zones[k + j] && zones[k].begin <= zones[k + j].begin;
    }
  }

  lemma FoundIn(zones: seq<Zone>, ip: nat) returns (k: nat)
    requires ZoneOf(zones, ip).Some?
    ensures k < |zones| && zones[k] == ZoneOf(zones, ip).value
  {
    ZoneOfIsListed(zones, ip);
    k :| 0 <= k < |zones| && zones[k] == ZoneOf(zones, ip).value;
  }

  lemma OneZone(z: Zone, ip: nat)
    ensures ZoneOf([z], ip) == if z.begin <= ip <= z.end then Some(z) else None
  {
    assert [z][1..] == [];
  }

  /** Lookups after symb_add_map: what was found before is found still, unless the new zone holds the address and does
      not begin behind what was found. */
  lemma LookupAfterMap(zones: seq<Zone>, z: Zone, ip: nat)
    requires ZonesSorted(zones)
    ensures ZoneOf(WithZone(zones, z), ip) ==
      if z.begin <= ip <= z.end && (ZoneOf(zones, ip).None? || z.begin <= ZoneOf(zones, ip).value.begin) then Some(z)
      else ZoneOf(zones, ip)
  {
    var k := Place(zones, z.begin);
    var front, back := zones[..k], zones[k..];
    PlaceIs(zones, z);
    ZoneOfJoins(front, back, ip);
    ZoneOfJoins(front, [z] + back, ip);
    ZoneOfJoins([z], back, ip);
    OneZone(z, ip);
    if ZoneOf(front, ip).Some? {
      var j := FoundIn(front, ip);
      assert front[j].begin < z.begin;
    } else if ZoneOf(back, ip).Some? {
      var j := FoundIn(back, ip);
      assert z.begin <= back[j].begin;
    }
  }

  // ----- Call chains -----

  function UserSymbol(z: Zone, ip: nat): Sym { InFile(z.file, (ip - z.begin + z.off) % WORD) }

  function ContextAfter(context: int, ip: nat): int { if ip >= PERF_CONTEXT_MAX then ip else context }

  /** ip_callchain_to_symb. */
  function FrameOf(context: int, zones: seq<Zone>, parsed: set<string>, ip: nat): Frame {
    if ip >= PERF_CONTEXT_MAX || context == PERF_CONTEXT_HV then Skipped
    else if context == PERF_CONTEXT_KERNEL then Found(Kernel(ip))
    else
      match ZoneOf(zones, ip)
      case None => Found(UnknownSymbol)
      case Some(z) => if z.file in parsed then Found(UserSymbol(z, ip)) else Missing
  }

  /** The symbols of a chain. */
  function Frames(context: int, zones: seq<Zone>, parsed: set<string>, chain: seq<nat>): seq<Sym>
    decreases chain
  {
    if chain == [] then []
    else
      var f := FrameOf(context, zones, parsed, chain[0]);
      Listed(f) + Frames(ContextAfter(context, chain[0]), zones, parsed, chain[1..])
  }

  /** Where an address lies in the file of its zone: as far behind the zone's offset as behind its begin. */
  lemma UserSymbolIs(z: Zone, d: nat)
    requires z.off + d < WORD
    ensures UserSymbol(z, z.begin + d) == InFile(z.file, z.off + d)
  {
  }

  /** The context in force after a chain: its last marker. */
  function ContextIn(context: int, chain: seq<nat>): int {
    if chain == [] then context
    else if chain[|chain| - 1] >= PERF_CONTEXT_MAX then chain[|chain| - 1]
    else ContextIn(context, chain[..|chain| - 1])
  }

  /** What an entry adds under a context: nothing for a marker, or under that of the hypervisor; else the kernel's
      symbol, or that of the first zone that holds the address. */
  function Added(context: int, zones: seq<Zone>, ip: nat): seq<Sym> {
    if ip >= 0xFFFF_FFFF_FFFF_F001 || context == 0xFFFF_FFFF_FFFF_FFE0 then []
    else if context == 0xFFFF_FFFF_FFFF_FF80 then [Kernel(ip)]
    else if ZoneOf(zones, ip).Some? then [UserSymbol(ZoneOf(zones, ip).value, ip)]
    else [UnknownSymbol]
  }

  lemma FrameIsAdded(context: int, zones: seq<Zone>, parsed: set<string>, ip: nat)
    requires ZonesParsed(zones, parsed)
    ensures Listed(FrameOf(context, zones, parsed, ip)) == Added(context, zones, ip)
  {
    ZoneOfIsListed(zones, ip);
  }

  /** One more entry of a chain adds what the last marker before it makes of it. */
  lemma {:induction false} FramesOneMore(
    context: int, zones: seq<Zone>, parsed: set<string>, chain: seq<nat>, ip: nat)
    requires ZonesParsed(zones, parsed)
    ensures Frames(context, zones, parsed, chain + [ip])
         == Frames(context, zones, parsed, chain) + Added(ContextIn(context, chain), zones, ip)
    decreases |chain|
  {
    if chain == [] {
      FrameIsAdded(context, zones, parsed, ip);
      OneFrame(context, zones, parsed, ip);
    } else {
      var first := Listed(FrameOf(context, zones, parsed, chain[0]));
      assert (chain + [ip])[1..] == chain[1..] + [ip];
      FramesOneMore(ContextAfter(context, chain[0]), zones, parsed, chain[1..], ip);
      ContextFromFront(context, chain);
      SymsJoin(first, Frames(ContextAfter(context, chain[0]), zones, parsed, chain[1..]),
               Added(ContextIn(context, chain), zones, ip));
    }
  }

  lemma OneFrame(context: int, zones: seq<Zone>, parsed: set<string>, ip: nat)
    ensures Frames(context, zones, parsed, [] + [ip]) == Listed(FrameOf(context, zones, parsed, ip))
    ensures Frames(context, zones, parsed, []) == []
  {
    assert ([] + [ip])[1..] == [] && ([] + [ip])[0] == ip;
  }

  lemma SymsJoin(a: seq<Sym>, b: seq<Sym>, c: seq<Sym>)
    ensures a + (b + c) == (a + b) + c
  {
  }

  lemma {:induction false} ContextFromFront(context: int, chain: seq<nat>)
    requires chain != []
    ensures ContextIn(context, chain) == ContextIn(ContextAfter(context, chain[0]), chain[1..])
    decreases |chain|
  {
    var n := |chain| - 1;
    if n > 0 && chain[n] < PERF_CONTEXT_MAX {
      ContextFromFront(context, chain[..n]);
      assert chain[..n][1..] == chain[1..][..n - 1];
    }
  }

  /** The symbols of a chain from entry i on. */
  function FramesFrom(context: int, zones: seq<Zone>, parsed: set<string>, chain: seq<nat>, i: nat): seq<Sym>
    requires i <= |chain|
  {
    Frames(context, zones, parsed, chain[i..])
  }

  function Listed(f: Frame): seq<Sym> { if f.Found? then [f.s] else [] }

  lemma OneFrameOn(
    all: seq<Sym>, seen: seq<Sym>, context: int, zones: seq<Zone>, parsed: set<string>, chain: seq<nat>, i: nat)
    requires i < |chain| && seen + FramesFrom(context, zones, parsed, chain, i) == all
    ensures (seen + Listed(FrameOf(context, zones, parsed, chain[i])))
          + FramesFrom(ContextAfter(context, chain[i]), zones, parsed, chain, i + 1) == all
  {
    assert chain[i..][0] == chain[i] && chain[i..][1..] == chain[i + 1..];
  }

  /** No lookup finds a zone without its file. */
  lemma FrameIsThere(context: int, zones: seq<Zone>, parsed: set<string>, ip: nat)
    requires ZonesParsed(zones, parsed)
    ensures !FrameOf(context, zones, parsed, ip).Missing?
  {
    ZoneOfIsListed(zones, ip);
  }

  /** check_callee: some frame is a callee asked for, or none is asked for, and no frame is one asked not to be. */
  predicate CalleeOk(o: Options, frames: seq<Sym>) {
    && (o.callees == {} || SomeNamed(o, frames, o.callees))
    && !SomeNamed(o, frames, o.nonCallees)
  }

  predicate SomeNamed(o: Options, frames: seq<Sym>, names: set<string>) {
    exists k :: 0 <= k < |frames| && o.nameOf(frames[k]) in names
  }

  predicate Named(o: Options, f: Frame, names: set<string>) { f.Found? && o.nameOf(f.s) in names }

  lemma OneMoreNamed(o: Options, frames: seq<Sym>, f: Frame, names: set<string>)
    ensures SomeNamed(o, frames + Listed(f), names) <==> SomeNamed(o, frames, names) || Named(o, f, names)
  {
    var more := frames + Listed(f);
    assert forall k :: 0 <= k < |frames| ==> more[k] == frames[k];
    if f.Found? {
      assert more[|frames|] == f.s;
    }
  }

  lemma NamedInMore(o: Options, frames: seq<Sym>, more: seq<Sym>, names: set<string>)
    requires frames <= more && SomeNamed(o, frames, names)
    ensures SomeNamed(o, more, names)
  {
    var k :| 0 <= k < |frames| && o.nameOf(frames[k]) in names;
    assert more[k] == frames[k];
  }

  /** A sample that gets to symb_add_sample: its mode, process, address and call chain. hasChain says whether the
      record goes beyond the address; chain is what is read behind it. */
  datatype Sample = Sample(mode: int, pid: int, ip: nat, hasChain: bool, chain: seq<nat>)

  /** The result of symb_add_sample: 0 when it is counted, and else why not. */
  datatype Result = Died | Returned(code: nat)

  /** The code, by the tables: 1 unknown process, 4 another application, 5 another callee, 2 no zone. */
  function CodeOf(o: Options, processes: map<int, Process>, parsed: set<string>, x: Sample, evt: int): nat {
    if evt != o.baseEvent then 0
    else if x.pid !in processes then 1
    else
      var p := processes[x.pid];
      if o.app.Some? && p.name != o.app.value then 4
      else if (o.callees != {} || o.nonCallees != {})
        && !CalleeOk(o, Frames(PERF_CONTEXT_MAX, p.zones, parsed, x.chain)) then 5
      else if x.mode == MODE_KERNEL then 0
      else if ZoneOf(p.zones, x.ip).None? then 2
      else 0
  }

  /** What the code of a sample tells: when it is counted, and why it is not. */
  lemma CodeMeans(o: Options, processes: map<int, Process>, parsed: set<string>, x: Sample, evt: int)
    ensures var code := CodeOf(o, processes, parsed, x, evt);
      var asked, known := evt == o.baseEvent, x.pid in processes;
      var app := known && (o.app.None? || processes[x.pid].name == o.app.value);
      var callee := known && ((o.callees == {} && o.nonCallees == {})
        || CalleeOk(o, Frames(PERF_CONTEXT_MAX, processes[x.pid].zones, parsed, x.chain)));
      var found := known && (x.mode == MODE_KERNEL || ZoneOf(processes[x.pid].zones, x.ip).Some?);
      && (code == 1 <==> asked && !known)
      && (code == 4 <==> asked && known && !app)
      && (code == 5 <==> asked && app && !callee)
      && (code == 2 <==> asked && app && callee && !found)
      && (code == 0 <==> !asked || (app && callee && found))
  {
  }

  /** A chain is asked for when it has a callee asked for, if any is, and none asked not to be. */
  lemma CalleeOkIff(o: Options, frames: seq<Sym>)
    ensures CalleeOk(o, frames) <==>
      (o.callees != {} ==> exists s :: s in frames && o.nameOf(s) in o.callees)
      && forall s :: s in frames ==> o.nameOf(s) !in o.nonCallees
  {
    if s :| s in frames && o.nameOf(s) in o.callees {
      var k :| 0 <= k < |frames| && frames[k] == s;
    }
    if SomeNamed(o, frames, o.callees) {
      var k :| 0 <= k < |frames| && o.nameOf(frames[k]) in o.callees;
      assert frames[k] in frames;
    }
    if s :| s in frames && o.nameOf(s) in o.nonCallees {
      var k :| 0 <= k < |frames| && frames[k] == s;
    }
    if SomeNamed(o, frames, o.nonCallees) {
      var k :| 0 <= k < |frames| && o.nameOf(frames[k]) in o.nonCallees;
      assert frames[k] in frames;
    }
  }

  /** What init_symb has parsed is never read. */
  lemma BuiltInIsParsed(o: Options)
    ensures !Unreadable(o, "[vdso]") && !Unreadable(o, "kernel")
    ensures forall file :: file != "[vdso]" && file != "kernel" ==> (Unreadable(o, file) <==> file in o.broken)
  {
  }

  lemma {:induction false} PlaceFrom(zones: seq<Zone>, start: nat, k: nat)
    requires k <= |zones| && forall j :: 0 <= j < k ==> zones[j].begin < start
    requires k < |zones| ==> zones[k].begin >= start
    ensures Place(zones, start) == k
  {
    if k > 0 {
      PlaceFrom(zones[1..], start, k - 1);
    }
  }

  lemma {:induction false} ZoneOfFrom(zones: seq<Zone>, ip: nat, k: nat)
    requires k <= |zones| && forall j :: 0 <= j < k ==> !Holds(zones[j], ip)
    requires k < |zones| ==> Holds(zones[k], ip)
    ensures ZoneOf(zones, ip) == if k < |zones| then Some(zones[k]) else None
  {
    if k > 0 {
      ZoneOfFrom(zones[1..], ip, k - 1);
    }
  }

  // ----- The tables in place -----

  /** processes_hash and parsed_files; parsed is empty until init_symb has run. */
  class Tables {
    const o: Options
    var processes: map<int, Process>
    var parsed: set<string>

    ghost predicate Valid()
      reads this
    {
      && ProcessesOk(processes, parsed)
      && (parsed == {} || BUILT_IN <= parsed)
      && forall file :: file in parsed ==> !Unreadable(o, file)
    }

    constructor (o: Options)
      ensures Valid() && this.o == o && processes == map[] && parsed == {}
    {
      this.o := o;
      processes, parsed := map[], {};
    }

    /** symb_add_pid. */
    method AddPid(pid: int, name: string)
      requires Valid()
      modifies this`processes
      ensures Valid() && processes == old(processes)[pid := Process(name, [])]
    {
      processes := processes[pid := Process(name, [])];
    }

    /** symb_add_fork: the new process has the name of the one that forks, and no zones. */
    method AddFork(pid: int, ppid: int)
      requires Valid()
      modifies this`processes
      ensures Valid()
      ensures processes == if pid == ppid || ppid !in old(processes) then old(processes)
                           else old(processes)[pid := Process(old(processes)[ppid].name, [])]
    {
      if pid == ppid || ppid !in processes {
        return;
      }
      processes := processes[pid := Process(processes[ppid].name, [])];
    }

    /** symb_add_exe. */
    method AddExe(file: string) returns (died: bool)
      requires Valid()
      modifies this`parsed
      ensures Valid() && (died <==> Unreadable(o, file))
      ensures parsed == old(parsed) + BUILT_IN + if died then {} else {file}
    {
      if parsed == {} {
        parsed := BUILT_IN;
      }
      if file in parsed {
        return false;
      }
      if file in o.broken {
        return true;
      }
      parsed := parsed + {file};
      died := false;
    }

    /** symb_add_map, for a file that has been parsed. */
    method AddMap(pid: int, start: nat, len: nat, off: nat, file: string)
      requires Valid() && file in parsed
      modifies this`processes
      ensures Valid()
      ensures processes == if pid !in old(processes) then old(processes)
        else old(processes)[pid := old(processes)[pid].(
          zones := WithZone(old(processes)[pid].zones, Zone(start, (start + len) % WORD, off, file)))]
      ensures pid in old(processes) ==>
        multiset(processes[pid].zones)
          == multiset(old(processes)[pid].zones) + multiset{Zone(start, (start + len) % WORD, off, file)}
    {
      if pid !in processes {
        return;
      }
      var zones := processes[pid].zones;
      var k := 0;
      while k < |zones| && zones[k].begin < start
        invariant k <= |zones| && forall j :: 0 <= j < k ==> zones[j].begin < start
      {
        k := k + 1;
      }
      PlaceFrom(zones, start, k);
      var z := Zone(start, (start + len) % WORD, off, file);
      WithZoneKeeps(zones, z, parsed);
      WithZoneAddsOne(zones, z);
      processes := processes[pid := processes[pid].(zones := zones[..k] + [z] + zones[k..])];
    }

    /** symb_find_map. */
    method FindMap(pid: int, ip: nat) returns (r: Option<Zone>)
      ensures r == if pid in processes then ZoneOf(processes[pid].zones, ip) else None
    {
      if pid !in processes {
        return None;
      }
      var zones := processes[pid].zones;
      var k := 0;
      while k < |zones| && !Holds(zones[k], ip)
        invariant k <= |zones| && forall j :: 0 <= j < k ==> !Holds(zones[j], ip)
      {
        k := k + 1;
      }
      ZoneOfFrom(zones, ip, k);
      r := if k < |zones| then Some(zones[k]) else None;
    }

    /** ip_callchain_to_symb, with the context it leaves. */
    method FindFrame(pid: int, context: int, ip: nat) returns (f: Frame, next: int)
      requires Valid() && pid in processes
      ensures f == FrameOf(context, processes[pid].zones, parsed, ip) && next == ContextAfter(context, ip)
      ensures !f.Missing?
    {
      next := context;
      FrameIsThere(context, processes[pid].zones, parsed, ip);
      if ip >= PERF_CONTEXT_MAX {
        return Skipped, ip;
      }
      if context == PERF_CONTEXT_HV {
        return Skipped, next;
      }
      if context == PERF_CONTEXT_KERNEL {
        return Found(Kernel(ip)), next;
      }
      var z := FindMap(pid, ip);
      f := match z
        case None => Found(UnknownSymbol)
        case Some(z) => if z.file in parsed then Found(UserSymbol(z, ip)) else Missing;
    }

    /** The loop of symb_add_sample_caller: the callers that the tree counts. */
    method WalkChain(pid: int, chain: seq<nat>) returns (died: bool, callers: seq<Sym>)
      requires Valid() && pid in processes
      ensures !died && callers == Frames(PERF_CONTEXT_MAX, processes[pid].zones, parsed, chain)
    {
      var zones, context, i := processes[pid].zones, PERF_CONTEXT_MAX, 0;
      died, callers := false, [];
      ghost var all := Frames(PERF_CONTEXT_MAX, zones, parsed, chain);
      assert chain[0..] == chain;
      while i < |chain| && !died
        invariant i <= |chain| && !died
        invariant callers + FramesFrom(context, zones, parsed, chain, i) == all
      {
        OneFrameOn(all, callers, context, zones, parsed, chain, i);
        var f;
        f, context := FindFrame(pid, context, chain[i]);
        died := f.Missing?;
        if f.Found? {
          callers := callers + [f.s];
        }
        i := i + 1;
      }
      assert FramesFrom(context, zones, parsed, chain, i) == [];
    }

    /** check_callee. */
    method CheckCallee(pid: int, chain: seq<nat>) returns (died: bool, ok: bool)
      requires Valid() && pid in processes
      ensures !died && ok == CalleeOk(o, Frames(PERF_CONTEXT_MAX, processes[pid].zones, parsed, chain))
    {
      var zones, context, i := processes[pid].zones, PERF_CONTEXT_MAX, 0;
      ghost var seen, all := [], Frames(PERF_CONTEXT_MAX, zones, parsed, chain);
      assert chain[0..] == chain;
      died, ok := false, o.callees == {};
      while i < |chain| && !died
        invariant i <= |chain| && !died
        invariant seen + FramesFrom(context, zones, parsed, chain, i) == all
        invariant ok <==> o.callees == {} || SomeNamed(o, seen, o.callees)
        invariant !SomeNamed(o, seen, o.nonCallees)
      {
        OneFrameOn(all, seen, context, zones, parsed, chain, i);
        var f;
        f, context := FindFrame(pid, context, chain[i]);
        died := f.Missing?;
        OneMoreNamed(o, seen, f, o.callees);
        OneMoreNamed(o, seen, f, o.nonCallees);
        seen := seen + Listed(f);
        if Named(o, f, o.callees) {
          ok := true;
        }
        if Named(o, f, o.nonCallees) {
          NamedInMore(o, seen, all, o.nonCallees);
          return died, false;
        }
        i := i + 1;
      }
      assert FramesFrom(context, zones, parsed, chain, i) == [] && seen == all;
    }

    /** symb_add_sample. It dies of its assertions, and of nothing it looks up. */
    method AddSample(x: Sample, evt: int, core: int) returns (r: Result)
      requires Valid()
      ensures r.Died? <==> core >= MAX_CORE || evt >= MAX_EVT
      ensures r.Returned? ==> r.code == CodeOf(o, processes, parsed, x, evt)
    {
      if core >= MAX_CORE || evt >= MAX_EVT {
        return Died;
      }
      if evt != o.baseEvent {
        return Returned(0);
      }
      if x.pid !in processes {
        return Returned(1);
      }
      if o.app.Some? && processes[x.pid].name != o.app.value {
        return Returned(4);
      }
      var died := false;
      if o.callees != {} || o.nonCallees != {} {
        var ok;
        died, ok := CheckCallee(x.pid, x.chain);
        if !ok {
          return Returned(5);
        }
      }
      if x.mode != MODE_KERNEL {
        var z := FindMap(x.pid, x.ip);
        if z.None? {
          return Returned(2);
        }
        ZoneOfIsListed(processes[x.pid].zones, x.ip);
        died := died || z.value.file !in parsed;
      }
      if x.hasChain {
        var lost, callers := WalkChain(x.pid, x.chain);
        died := died || lost;
      }
      r := if died then Died else Returned(0);
    }
  }
}
