/** The main loop of profiler/parser-sampling.c: sample files are read a block at a time, always from the file
    whose next block is the oldest. A block is a write event and the records up to the next write event. */
module TimeMerge {
  import opened SymbolTables

  /** Records have positive size and fill their file; an index counts records. Core and event numbers are what an int
      makes of them. HeaderEnd is a record of unknown type that reads "###END HEADER", Unknown any other of unknown
      type. */
  datatype Record =
    | WriteEvent(time: nat, core: int, event: int, failed: bool)
    | SampleRecord(x: Sample)
    | Mapping(pid: int, start: nat, len: nat, off: nat, file: string)
    | Fork(pid: int, ppid: int)
    | Comm(pid: int, name: string)
    | ExitOrLost
    | Throttle
    | HeaderEnd
    | Unknown

  /** The file a record was read from. */
  datatype Visit = Visit(file: nat, record: Record)

  /** (uint64_t) -1. */
  const NO_TIME: nat := 0xFFFF_FFFF_FFFF_FFFF

  // ----- What a run is for -----

  /** The records visited of one file. */
  function Of(log: seq<Visit>, i: nat): seq<Record> {
    if log == [] then []
    else
      var last := log[|log| - 1];
      Of(log[..|log| - 1], i) + if last.file == i then [last.record] else []
  }

  ghost predicate TimesOrdered(records: seq<Record>) {
    forall a, b :: 0 <= a < b < |records| && records[a].WriteEvent? && records[b].WriteEvent? ==>
      records[a].time <= records[b].time
  }

  ghost predicate LogOrdered(log: seq<Visit>) {
    forall a, b :: 0 <= a < b < |log| && log[a].record.WriteEvent? && log[b].record.WriteEvent? ==>
      log[a].record.time <= log[b].record.time
  }

  /** A file is read up to the first HeaderEnd, which makes its index jump to the end. */
  function Visible(file: seq<Record>): (r: seq<Record>)
    ensures r <= file && (r == [] <==> file == [])
    ensures forall k :: 0 <= k < |r| - 1 ==> !r[k].HeaderEnd?
    ensures |r| < |file| ==> r[|r| - 1].HeaderEnd?
  {
    if file == [] then []
    else if file[0].HeaderEnd? then [file[0]]
    else
      var rest := Visible(file[1..]);
      assert file == [file[0]] + file[1..];
      [file[0]] + rest
  }

  function AllVisible(files: seq<seq<Record>>): (r: seq<seq<Record>>)
    ensures |r| == |files| && forall i :: 0 <= i < |r| ==> r[i] == Visible(files[i])
  {
    seq(|files|, i requires 0 <= i < |files| => Visible(files[i]))
  }

  /** C's % for a positive divisor. */
  function Remainder(a: int, n: int): int
    requires n > 0
  {
    if a >= 0 then a % n else -((-a) % n)
  }

  /** The die that a core is on, as --remote numbers them. */
  function DieOf(core: int): int {
    var die := Remainder(core, 4);
    if die == 1 then 3 else if die == 3 then 1 else die
  }

  /** Does a sample get past the filters on the processor's mode? */
  predicate ModeAsked(o: Options, mode: int) {
    (o.kernel ==> mode == MODE_KERNEL) && (o.user ==> mode == MODE_USER)
  }

  /** And past those on core and die? */
  predicate CoreAsked(o: Options, core: int, event: int) {
    (o.cpus == [] || core in o.cpus) && (o.remote ==> event != DieOf(core))
  }

  /** check_samples dies of a sample in a block of this core and event: of an option that needs a time or a thread,
      which samples do not carry, or of an assertion of symb_add_sample. Nothing it looks up kills it. */
  predicate DeadlySample(o: Options, mode: int, core: int, event: int) {
    && ModeAsked(o, mode)
    && (o.ltid
        || (CoreAsked(o, core, event)
            && (o.ignoreSamples || o.ttid || core >= MAX_CORE || EventCounted(o, event) >= MAX_EVT)))
  }

  function EventCounted(o: Options, event: int): int { if o.allEvents then 0 else event }

  /** The last write event up to record k, which opens its block; -1 when there is none. */
  function BlockOf(file: seq<Record>, k: nat): (b: int)
    requires k < |file|
    ensures -1 <= b <= k && (b >= 0 ==> file[b].WriteEvent?)
  {
    if file[k].WriteEvent? then k else if k == 0 then -1 else BlockOf(file, k - 1)
  }

  lemma {:induction false} BlockIs(file: seq<Record>, start: nat, k: nat)
    requires start <= k < |file| && file[start].WriteEvent?
    requires forall j :: start < j <= k ==> !file[j].WriteEvent?
    ensures BlockOf(file, k) == start
  {
    if start < k {
      BlockIs(file, start, k - 1);
    }
  }

  /** The core and event of record k's block, which calloc has set to 0 before the first. */
  function CoreAt(file: seq<Record>, k: nat): int
    requires k < |file|
  {
    if BlockOf(file, k) < 0 then 0 else file[BlockOf(file, k)].core
  }

  function EventAt(file: seq<Record>, k: nat): int
    requires k < |file|
  {
    if BlockOf(file, k) < 0 then 0 else file[BlockOf(file, k)].event
  }

  /** A record has the core and event of the write event before it. */
  lemma BlockTells(file: seq<Record>, start: nat, k: nat)
    requires start <= k < |file| && file[start].WriteEvent? && forall j :: start < j <= k ==> !file[j].WriteEvent?
    ensures CoreAt(file, k) == file[start].core && EventAt(file, k) == file[start].event
  {
    BlockIs(file, start, k);
  }

  /** check_samples dies when it reads record k of a file. */
  predicate Deadly(file: seq<Record>, k: nat, o: Options)
    requires k < |file|
  {
    DeadlyIn(o, file[k], CoreAt(file, k), EventAt(file, k))
  }

  /** It dies of a record in a block of this core and event. */
  predicate DeadlyIn(o: Options, r: Record, core: int, event: int) {
    match r
    case WriteEvent(_, _, number, failed) => number >= MAX_EVT || failed
    case SampleRecord(x) => DeadlySample(o, x.mode, core, event)
    case Mapping(_, _, _, _, name) => Unreadable(o, name)
    case Throttle => o.dieOnFail
    case Unknown => true
    case _ => false
  }

  /** What ends the program, record by record. A sample of a core lies on the die opposite to the core's number. */
  lemma WhatKills(o: Options, r: Record, core: int, event: int)
    ensures Dated(r) <==> !r.WriteEvent? || r.time < 0xFFFF_FFFF_FFFF_FFFF
    ensures DeadlyIn(o, r, core, event) <==>
      || (r.WriteEvent? && (r.event >= 4 || r.failed))
      || r.Unknown?
      || (r.Throttle? && o.dieOnFail)
      || (r.Mapping? && r.file in o.broken && r.file != "[vdso]" && r.file != "kernel")
      || (r.SampleRecord? && (o.kernel ==> r.x.mode == 1) && (o.user ==> r.x.mode == 2)
          && (o.ltid
              || ((|o.cpus| > 0 ==> core in o.cpus)
                  && !(o.remote && event == if core >= 0 then (4 - core % 4) % 4 else -((-core) % 4))
                  && (o.ignoreSamples || o.ttid || core >= 16 || (!o.allEvents && event >= 4)))))
  {
  }

  predicate Dated(r: Record) { r.WriteEvent? ==> r.time < NO_TIME }

  /** No record below n is deadly, and no block there dated NO_TIME. */
  ghost predicate ReadableUpTo(file: seq<Record>, n: nat, o: Options)
    requires n <= |file|
  {
    forall k :: 0 <= k < n ==> !Deadly(file, k, o) && Dated(file[k])
  }

  /** A file that is not empty starts with a block, and all of it can be read. */
  ghost predicate Readable(file: seq<Record>, o: Options) {
    (file != [] ==> file[0].WriteEvent?) && ReadableUpTo(file, |file|, o)
  }

  ghost predicate AllReadable(files: seq<seq<Record>>, o: Options) {
    forall i :: 0 <= i < |files| ==> Readable(files[i], o)
  }

  ghost predicate AllOrdered(files: seq<seq<Record>>) {
    forall i :: 0 <= i < |files| ==> TimesOrdered(files[i])
  }

  /** Every file is visited from its start up to an index, record by record. */
  ghost predicate VisitedUpTo(files: seq<seq<Record>>, index: seq<nat>, log: seq<Visit>) {
    && |index| == |files|
    && (forall i :: 0 <= i < |files| ==> index[i] <= |files[i]| && Of(log, i) == files[i][..index[i]])
    && forall k :: 0 <= k < |log| ==> log[k].file < |files|
  }

  // ----- Facts about logs -----

  function Visits(i: nat, block: seq<Record>): seq<Visit> {
    seq(|block|, k requires 0 <= k < |block| => Visit(i, block[k]))
  }

  lemma {:induction false} OfAppended(log: seq<Visit>, i: nat, block: seq<Record>, j: nat)
    ensures Of(log + Visits(i, block), j) == Of(log, j) + if i == j then block else []
  {
    if block == [] {
      assert log + Visits(i, block) == log;
    } else {
      var n := |block| - 1;
      var longer := log + Visits(i, block);
      assert longer[..|longer| - 1] == log + Visits(i, block[..n]);
      OfAppended(log, i, block[..n], j);
      assert block == block[..n] + [block[n]];
    }
  }

  lemma {:induction false} OfGrows(log: seq<Visit>, k: nat, i: nat)
    requires k <= |log|
    ensures |Of(log[..k], i)| <= |Of(log, i)|
    decreases |log|
  {
    if k < |log| {
      var n := |log| - 1;
      assert log[..n][..k] == log[..k];
      OfGrows(log[..n], k, i);
    } else {
      assert log[..k] == log;
    }
  }

  /** Every record of a file's visits comes from somewhere in the log, in order. */
  lemma {:induction false} Source(log: seq<Visit>, i: nat, r: nat) returns (k: nat)
    requires r < |Of(log, i)|
    ensures k < |log| && log[k] == Visit(i, Of(log, i)[r]) && r == |Of(log[..k], i)|
    decreases |log|
  {
    var n := |log| - 1;
    if log[n].file == i && r == |Of(log[..n], i)| {
      k := n;
    } else {
      k := Source(log[..n], i, r);
      assert log[..n][..k] == log[..k];
    }
  }

  lemma OrderedLogOrdersFiles(log: seq<Visit>, i: nat)
    requires LogOrdered(log)
    ensures TimesOrdered(Of(log, i))
  {
    var records := Of(log, i);
    forall a, b | 0 <= a < b < |records| && records[a].WriteEvent? && records[b].WriteEvent?
      ensures records[a].time <= records[b].time
    {
      var ka := Source(log, i, a);
      var kb := Source(log, i, b);
      if kb < ka {
        assert log[..ka][..kb] == log[..kb];
        OfGrows(log[..ka], kb, i);
      }
    }
  }

  // ----- The loop -----

  /** An unfinished file's next record opens a block. */
  ghost predicate AtBlocks(files: seq<seq<Record>>, index: seq<nat>)
    requires |index| == |files|
  {
    forall i :: 0 <= i < |files| && 0 < index[i] < |files[i]| ==> files[i][index[i]].WriteEvent?
  }

  /** Nothing visited is later than what an unfinished file has next. */
  ghost predicate NothingEarlier(files: seq<seq<Record>>, index: seq<nat>, log: seq<Visit>)
    requires |index| == |files|
  {
    forall i, k ::
      0 <= i < |files| && index[i] < |files[i]| && files[i][index[i]].WriteEvent? &&
      0 <= k < |log| && log[k].record.WriteEvent? ==>
        log[k].record.time <= files[i][index[i]].time
  }

  function Finished(files: seq<seq<Record>>, index: seq<nat>): (n: nat)
    requires |index| == |files|
    ensures n <= |files|
  {
    if files == [] then 0
    else (if index[0] >= |files[0]| then 1 else 0) + Finished(files[1..], index[1..])
  }

  lemma {:induction false} AllFinishedIff(files: seq<seq<Record>>, index: seq<nat>)
    requires |index| == |files|
    ensures Finished(files, index) == |files| <==> forall i :: 0 <= i < |files| ==> index[i] >= |files[i]|
  {
    if files != [] {
      AllFinishedIff(files[1..], index[1..]);
      assert (forall i :: 1 <= i < |files| ==> index[i] >= |files[i]|)
        <==> forall i :: 0 <= i < |files[1..]| ==> index[1..][i] >= |files[1..][i]| by {
        assert forall i :: 1 <= i < |files| ==> index[i] == index[1..][i - 1] && files[i] == files[1..][i - 1];
      }
    }
  }

  lemma {:induction false} FinishedStep(files: seq<seq<Record>>, index: seq<nat>, i: nat, next: nat)
    requires |index| == |files| && i < |files| && index[i] < |files[i]|
    ensures Finished(files, index[i := next])
         == Finished(files, index) + if next >= |files[i]| then 1 else 0
  {
    if i == 0 {
      assert index[i := next][1..] == index[1..];
    } else {
      assert index[i := next][1..] == index[1..][i - 1 := next];
      FinishedStep(files[1..], index[1..], i - 1, next);
    }
  }

  function Left(files: seq<seq<Record>>, index: seq<nat>): int
    requires |index| == |files|
  {
    if files == [] then 0 else |files[0]| - index[0] + Left(files[1..], index[1..])
  }

  lemma {:induction false} LeftStep(files: seq<seq<Record>>, index: seq<nat>, i: nat, next: nat)
    requires |index| == |files| && i < |files|
    ensures Left(files, index[i := next]) == Left(files, index) + index[i] - next
  {
    if i == 0 {
      assert index[i := next][1..] == index[1..];
    } else {
      assert index[i := next][1..] == index[1..][i - 1 := next];
      LeftStep(files[1..], index[1..], i - 1, next);
    }
  }

  lemma {:induction false} LeftNotNegative(files: seq<seq<Record>>, index: seq<nat>)
    requires |index| == |files| && forall i :: 0 <= i < |files| ==> index[i] <= |files[i]|
    ensures Left(files, index) >= 0
  {
    if files != [] {
      LeftNotNegative(files[1..], index[1..]);
    }
  }

  /** The outcome of get_lowest_time; Died is its die. */
  datatype Choice = Chosen(file: nat) | Died

  ghost predicate IsLowest(files: seq<seq<Record>>, index: seq<nat>, i: nat)
    requires |index| == |files|
  {
    && i < |files| && index[i] < |files[i]| && files[i][index[i]].WriteEvent? && files[i][index[i]].time < NO_TIME
    && forall j :: 0 <= j < |files| && index[j] < |files[j]| ==>
         files[j][index[j]].WriteEvent? && files[i][index[i]].time <= files[j][index[j]].time
  }

  method GetLowestTime(files: seq<seq<Record>>, index: seq<nat>) returns (r: Choice)
    requires |index| == |files|
    ensures r.Chosen? ==> IsLowest(files, index, r.file)
    ensures r.Chosen? ==> forall j :: 0 <= j < r.file && index[j] < |files[j]| ==>
      files[j][index[j]].WriteEvent? && files[j][index[j]].time > files[r.file][index[r.file]].time
    ensures r.Died? ==> NothingLow(files, index)
  {
    r := Choice.Died;
    var lower: nat := NO_TIME;
    for i := 0 to |files|
      invariant forall j :: 0 <= j < i && index[j] < |files[j]| ==>
        files[j][index[j]].WriteEvent? && lower <= files[j][index[j]].time
      invariant r.Died? ==> lower == NO_TIME
      invariant r.Chosen? ==>
        && r.file < i && index[r.file] < |files[r.file]| && files[r.file][index[r.file]].WriteEvent?
        && files[r.file][index[r.file]].time == lower
        && lower < NO_TIME
        && forall j :: 0 <= j < r.file && index[j] < |files[j]| ==>
             files[j][index[j]].WriteEvent? && files[j][index[j]].time > lower
    {
      if index[i] >= |files[i]| {
        continue;
      }
      var event := files[i][index[i]];
      if !event.WriteEvent? {
        return Choice.Died;
      }
      if event.time < lower {
        r := Chosen(i);
        lower := event.time;
      }
    }
  }

  /** How check_samples ends: with f->index at next, having read up to stop; or by dying at stop. */
  datatype Check = Read(next: nat, stop: nat) | DiedAt(stop: nat)

  /** What check_samples does with a sample in a block of this core and event; type is 0, so that a sample has no
      time, thread or core of its own. */
  method CheckSample(tables: Tables, x: Sample, core: int, event: int) returns (died: bool)
    requires tables.Valid()
    ensures died <==> DeadlySample(tables.o, x.mode, core, event)
  {
    var o := tables.o;
    if o.kernel && x.mode != MODE_KERNEL {
      return false;
    }
    if o.user && x.mode != MODE_USER {
      return false;
    }
    if o.ltid {
      return true;
    }
    if |o.cpus| > 0 && core !in o.cpus {
      return false;
    }
    if o.remote && event == DieOf(core) {
      return false;
    }
    if o.ignoreSamples || o.ttid {
      return true;
    }
    var r := tables.AddSample(x, EventCounted(o, event), core);
    died := r.Died?;
  }

  /** The cases of its switch that are not about the file itself. */
  method HandleRecord(tables: Tables, r: Record, core: int, event: int) returns (died: bool)
    requires tables.Valid() && !r.WriteEvent? && !r.HeaderEnd?
    modifies tables
    ensures tables.Valid() && (died <==> DeadlyIn(tables.o, r, core, event))
  {
    died := false;
    match r {
      case SampleRecord(x) =>
        died := CheckSample(tables, x, core, event);
      case Mapping(pid, start, len, off, name) =>
        died := tables.AddExe(name);
        if !died {
          tables.AddMap(pid, start, len, off, name);
        }
      case Fork(pid, ppid) =>
        tables.AddFork(pid, ppid);
      case Comm(pid, name) =>
        tables.AddPid(pid, name);
      case ExitOrLost =>
      case Throttle =>
        died := tables.o.dieOnFail;
      case Unknown =>
        died := true;
    }
  }

  /** check_samples from a block on. */
  method CheckSamples(tables: Tables, file: seq<Record>, start: nat) returns (r: Check)
    requires tables.Valid() && start < |Visible(file)| && file[start].WriteEvent?
    modifies tables
    ensures tables.Valid() && IsCheck(file, start, r, tables.o)
  {
    var next, stop := start, start;
    var eventRead := false;
    var core, event := 0, 0;
    ghost var visible := Visible(file);
    assert |visible| < |file| ==> visible[|visible| - 1].HeaderEnd?;
    while next < |file|
      invariant tables.Valid() && start <= stop <= |visible| && stop <= next <= |file|
      invariant next == stop < |visible| || (next == |file| && stop == |visible|)
      invariant eventRead == (stop > start)
      invariant eventRead ==> core == visible[start].core && event == visible[start].event
      invariant forall k :: start <= k < stop ==> !Deadly(visible, k, tables.o)
      invariant forall k :: start < k < stop ==> !visible[k].WriteEvent?
      decreases |file| - next
    {
      assert file[next] == visible[next];
      if file[next].WriteEvent? {
        if eventRead {
          return Read(next, stop);
        }
        eventRead := true;
        core, event := file[next].core, file[next].event;
        if event >= MAX_EVT || file[next].failed {
          return DiedAt(stop);
        }
      } else {
        BlockIs(visible, start, stop);
        if file[next].HeaderEnd? {
          assert next == |visible| - 1;
          next := |file| - 1;
        } else {
          var died := HandleRecord(tables, file[next], core, event);
          if died {
            return DiedAt(stop);
          }
        }
      }
      next := next + 1;
      stop := stop + 1;
    }
    r := Read(next, stop);
  }

  lemma StepOrdered(files: seq<seq<Record>>, index: seq<nat>, log: seq<Visit>, i: nat, next: nat)
    requires VisitedUpTo(files, index, log) && AllOrdered(files) && LogOrdered(log)
    requires NothingEarlier(files, index, log) && IsLowest(files, index, i)
    requires index[i] < next <= |files[i]| && forall k :: index[i] < k < next ==> !files[i][k].WriteEvent?
    ensures var log' := log + Visits(i, files[i][index[i]..next]);
      LogOrdered(log') && NothingEarlier(files, index[i := next], log')
  {
    var block := files[i][index[i]..next];
    var log' := log + Visits(i, block);
    var time := block[0].time;
    forall k | 0 <= k < |log'| && log'[k].record.WriteEvent?
      ensures k <= |log| && log'[k].record.time <= time
    {
      if k >= |log| {
        assert log'[k].record == block[k - |log|] == files[i][index[i] + (k - |log|)];
      }
    }
    forall j, k | 0 <= j < |files| && index[i := next][j] < |files[j]|
      && files[j][index[i := next][j]].WriteEvent? && 0 <= k < |log'| && log'[k].record.WriteEvent?
      ensures log'[k].record.time <= files[j][index[i := next][j]].time
    {
      if j == i {
        assert TimesOrdered(files[i]);
      }
    }
  }

  lemma StepVisited(files: seq<seq<Record>>, index: seq<nat>, log: seq<Visit>, i: nat, next: nat)
    requires VisitedUpTo(files, index, log) && i < |files| && index[i] <= next <= |files[i]|
    ensures VisitedUpTo(files, index[i := next], log + Visits(i, files[i][index[i]..next]))
  {
    var block := files[i][index[i]..next];
    forall j | 0 <= j < |files|
      ensures Of(log + Visits(i, block), j) == files[j][..index[i := next][j]]
    {
      OfAppended(log, i, block, j);
      if i == j {
        assert files[i][..index[i]] + block == files[i][..next];
      }
    }
  }

  /** What the loop keeps. */
  ghost predicate Progress(files: seq<seq<Record>>, index: seq<nat>, log: seq<Visit>, o: Options) {
    && VisitedUpTo(files, index, log)
    && AtBlocks(files, index)
    && (forall i :: 0 <= i < |files| ==> ReadableUpTo(files[i], index[i], o))
    && (forall i :: 0 <= i < |files| && index[i] > 0 ==> files[i][0].WriteEvent?)
    && (AllOrdered(files) ==> LogOrdered(log) && NothingEarlier(files, index, log))
  }

  /** One block: from the index of the lowest file up to the next block. */
  ghost predicate IsBlock(file: seq<Record>, start: nat, next: nat) {
    && start < next <= |file| && file[start].WriteEvent?
    && (forall k :: start < k < next ==> !file[k].WriteEvent?)
    && (next < |file| ==> file[next].WriteEvent?)
  }

  lemma StepReadable(files: seq<seq<Record>>, index: seq<nat>, o: Options, i: nat, next: nat)
    requires |index| == |files| && IsLowest(files, index, i) && index[i] < next <= |files[i]|
    requires ReadableUpTo(files[i], index[i], o)
    requires forall k :: index[i] <= k < next ==> !Deadly(files[i], k, o)
    requires forall k :: index[i] < k < next ==> !files[i][k].WriteEvent?
    ensures ReadableUpTo(files[i], next, o)
  {
  }

  lemma StepKeeps(files: seq<seq<Record>>, index: seq<nat>, log: seq<Visit>, o: Options, i: nat, next: nat)
    requires Progress(files, index, log, o) && IsLowest(files, index, i)
    requires IsBlock(files[i], index[i], next)
    requires forall k :: index[i] <= k < next ==> !Deadly(files[i], k, o)
    ensures Progress(files, index[i := next], log + Visits(i, files[i][index[i]..next]), o)
    ensures Finished(files, index[i := next]) == Finished(files, index) + if next == |files[i]| then 1 else 0
    ensures 0 <= Left(files, index[i := next]) < Left(files, index)
  {
    StepVisited(files, index, log, i, next);
    StepReadable(files, index, o, i, next);
    if AllOrdered(files) {
      StepOrdered(files, index, log, i, next);
    }
    FinishedStep(files, index, i, next);
    LeftStep(files, index, i, next);
    LeftNotNegative(files, index[i := next]);
  }

  /** A block in which check_samples died. */
  lemma BrokenBlock(files: seq<seq<Record>>, index: seq<nat>, log: seq<Visit>, o: Options, i: nat, stop: nat)
    requires Progress(files, index, log, o) && IsLowest(files, index, i)
    requires index[i] <= stop < |files[i]| && Deadly(files[i], stop, o)
    requires forall k :: index[i] < k < stop ==> !files[i][k].WriteEvent?
    ensures !AllReadable(files, o)
    ensures var log' := log + Visits(i, files[i][index[i]..stop]);
      (AllOrdered(files) ==> LogOrdered(log')) && forall j :: 0 <= j < |files| ==> Of(log', j) <= files[j]
  {
    StepVisited(files, index, log, i, stop);
    if AllOrdered(files) {
      if index[i] < stop {
        StepOrdered(files, index, log, i, stop);
      } else {
        assert log + Visits(i, files[i][index[i]..stop]) == log;
      }
    }
    assert !Readable(files[i], o);
  }

  ghost predicate NothingLow(files: seq<seq<Record>>, index: seq<nat>)
    requires |index| == |files|
  {
    || (exists j :: 0 <= j < |files| && index[j] < |files[j]| && !files[j][index[j]].WriteEvent?)
    || (forall j :: 0 <= j < |files| && index[j] < |files[j]| ==>
          files[j][index[j]].WriteEvent? && files[j][index[j]].time >= NO_TIME)
  }

  lemma NothingLowUnreadable(files: seq<seq<Record>>, index: seq<nat>, log: seq<Visit>, o: Options)
    requires Progress(files, index, log, o) && Finished(files, index) < |files| && NothingLow(files, index)
    ensures !AllReadable(files, o)
  {
    AllFinishedIff(files, index);
    if j :| 0 <= j < |files| && index[j] < |files[j]| && !files[j][index[j]].WriteEvent? {
      assert !Readable(files[j], o);
    } else {
      var i :| 0 <= i < |files| && index[i] < |files[i]|;
      assert !Dated(files[i][index[i]]);
      assert !Readable(files[i], o);
    }
  }

  lemma AllVisited(files: seq<seq<Record>>, index: seq<nat>, log: seq<Visit>, o: Options)
    requires Progress(files, index, log, o) && Finished(files, index) == |files|
    ensures forall i :: 0 <= i < |files| ==> Of(log, i) == files[i]
    ensures AllReadable(files, o) && (LogOrdered(log) <==> AllOrdered(files))
  {
    AllFinishedIff(files, index);
    forall i | 0 <= i < |files|
      ensures Of(log, i) == files[i] && Readable(files[i], o) && (LogOrdered(log) ==> TimesOrdered(files[i]))
    {
      assert files[i][..index[i]] == files[i];
      if LogOrdered(log) {
        OrderedLogOrdersFiles(log, i);
      }
    }
  }

  // ----- Files and what is visible of them -----

  /** An index into a file, and the same place in what is visible of it. */
  ghost predicate SamePlaces(files: seq<seq<Record>>, index: seq<nat>, seen: seq<nat>) {
    && |index| == |seen| == |files|
    && forall i :: 0 <= i < |files| ==>
         if index[i] < |files[i]| then seen[i] == index[i] < |Visible(files[i])| else seen[i] == |Visible(files[i])|
  }

  lemma {:induction false} SameFinished(files: seq<seq<Record>>, index: seq<nat>, seen: seq<nat>)
    requires SamePlaces(files, index, seen)
    ensures Finished(files, index) == Finished(AllVisible(files), seen)
  {
    if files != [] {
      SameFinished(files[1..], index[1..], seen[1..]);
      assert AllVisible(files)[1..] == AllVisible(files[1..]);
    }
  }

  lemma SameLowest(files: seq<seq<Record>>, index: seq<nat>, seen: seq<nat>)
    requires SamePlaces(files, index, seen)
    ensures forall i: nat :: IsLowest(files, index, i) ==> IsLowest(AllVisible(files), seen, i)
    ensures NothingLow(files, index) ==> NothingLow(AllVisible(files), seen)
  {
    var visible := AllVisible(files);
    assert forall i :: 0 <= i < |files| && seen[i] < |visible[i]| ==> visible[i][seen[i]] == files[i][index[i]];
    if j :| 0 <= j < |files| && index[j] < |files[j]| && !files[j][index[j]].WriteEvent? {
      assert seen[j] < |visible[j]| && !visible[j][seen[j]].WriteEvent?;
    }
  }

  /** The loop, on the files as they are. */
  ghost predicate Running(
    files: seq<seq<Record>>, index: seq<nat>, seen: seq<nat>, log: seq<Visit>, o: Options)
  {
    SamePlaces(files, index, seen) && Progress(AllVisible(files), seen, log, o)
  }

  /** What check_samples reads of the lowest file. */
  ghost predicate IsCheck(file: seq<Record>, start: nat, check: Check, o: Options) {
    var visible := Visible(file);
    && start <= check.stop <= |visible|
    && (forall k :: start <= k < check.stop ==> !Deadly(visible, k, o))
    && (forall k :: start < k < check.stop ==> !visible[k].WriteEvent?)
    && (check.DiedAt? ==> check.stop < |visible| && Deadly(visible, check.stop, o))
    && (check.Read? ==>
          && IsBlock(visible, start, check.stop)
          && check.next == if check.stop < |visible| then check.stop else |file|)
  }

  lemma TurnKeeps(
    files: seq<seq<Record>>, index: seq<nat>, seen: seq<nat>, log: seq<Visit>, o: Options, i: nat, check: Check)
    requires Running(files, index, seen, log, o) && IsLowest(files, index, i)
    requires check.Read? && IsCheck(files[i], index[i], check, o)
    ensures Running(files, index[i := check.next], seen[i := check.stop],
                    log + Visits(i, files[i][index[i]..check.stop]), o)
    ensures Finished(files, index[i := check.next])
         == Finished(files, index) + if check.next >= |files[i]| then 1 else 0
    ensures 0 <= Left(AllVisible(files), seen[i := check.stop]) < Left(AllVisible(files), seen)
  {
    SameLowest(files, index, seen);
    TurnPlaces(files, index, seen, i, check, o);
    StepKeeps(AllVisible(files), seen, log, o, i, check.stop);
    FinishedStep(files, index, i, check.next);
  }

  lemma TurnPlaces(files: seq<seq<Record>>, index: seq<nat>, seen: seq<nat>, i: nat, check: Check, o: Options)
    requires SamePlaces(files, index, seen) && i < |files| && index[i] < |files[i]|
    requires check.Read? && IsCheck(files[i], index[i], check, o)
    ensures SamePlaces(files, index[i := check.next], seen[i := check.stop])
    ensures AllVisible(files)[i][seen[i]..check.stop] == files[i][index[i]..check.stop]
  {
    assert Visible(files[i])[seen[i]..check.stop] == files[i][index[i]..check.stop];
  }

  lemma TurnDies(
    files: seq<seq<Record>>, index: seq<nat>, seen: seq<nat>, log: seq<Visit>, o: Options, i: nat, check: Check)
    requires Running(files, index, seen, log, o) && IsLowest(files, index, i)
    requires check.DiedAt? && IsCheck(files[i], index[i], check, o)
    ensures !AllReadable(AllVisible(files), o)
    ensures var log' := log + Visits(i, files[i][index[i]..check.stop]);
      && (AllOrdered(AllVisible(files)) ==> LogOrdered(log'))
      && forall j :: 0 <= j < |files| ==> Of(log', j) <= Visible(files[j])
  {
    SameLowest(files, index, seen);
    assert AllVisible(files)[i][seen[i]..check.stop] == files[i][index[i]..check.stop];
    BrokenBlock(AllVisible(files), seen, log, o, i, check.stop);
  }

  lemma NoChoiceDies(files: seq<seq<Record>>, index: seq<nat>, seen: seq<nat>, log: seq<Visit>, o: Options)
    requires Running(files, index, seen, log, o)
    requires Finished(files, index) < |files| && NothingLow(files, index)
    ensures !AllReadable(AllVisible(files), o)
    ensures AllOrdered(AllVisible(files)) ==> LogOrdered(log)
    ensures forall j :: 0 <= j < |files| ==> Of(log, j) <= Visible(files[j])
  {
    SameLowest(files, index, seen);
    SameFinished(files, index, seen);
    NothingLowUnreadable(AllVisible(files), seen, log, o);
  }

  lemma RunEnds(files: seq<seq<Record>>, index: seq<nat>, seen: seq<nat>, log: seq<Visit>, o: Options)
    requires Running(files, index, seen, log, o) && Finished(files, index) == |files|
    ensures AllReadable(AllVisible(files), o) && (LogOrdered(log) <==> AllOrdered(AllVisible(files)))
    ensures forall i :: 0 <= i < |files| ==> Of(log, i) == Visible(files[i])
  {
    SameFinished(files, index, seen);
    AllVisited(AllVisible(files), seen, log, o);
  }

  /** The number of files that are finished from the start: those that are empty. */
  method CountEmpty(files: seq<seq<Record>>) returns (finished: nat)
    ensures finished == Finished(files, seq(|files|, _ => 0))
  {
    ghost var index: seq<nat> := seq(|files|, _ => 0);
    finished := 0;
    for i := 0 to |files|
      invariant finished + Finished(files[i..], index[i..]) == Finished(files, index)
    {
      if |files[i]| == 0 {
        finished := finished + 1;
      }
    }
  }

  /** What the loop has when it dies. */
  ghost predicate DiedInOrder(files: seq<seq<Record>>, log: seq<Visit>, o: Options) {
    && !AllReadable(AllVisible(files), o)
    && (AllOrdered(AllVisible(files)) ==> LogOrdered(log))
    && forall j :: 0 <= j < |files| ==> Of(log, j) <= Visible(files[j])
  }

  /** One turn of the main loop: one block of the file whose next block is the oldest. */
  method Turn(tables: Tables, files: seq<seq<Record>>, index: seq<nat>, ghost seen: seq<nat>, log: seq<Visit>)
    returns (died: bool, ended: bool, index': seq<nat>, ghost seen': seq<nat>, log': seq<Visit>)
    requires tables.Valid() && Running(files, index, seen, log, tables.o) && Finished(files, index) < |files|
    modifies tables
    ensures tables.Valid()
    ensures died ==> DiedInOrder(files, log', tables.o)
    ensures !died ==>
      && Running(files, index', seen', log', tables.o)
      && Finished(files, index') == Finished(files, index) + (if ended then 1 else 0)
      && 0 <= Left(AllVisible(files), seen') < Left(AllVisible(files), seen)
  {
    index', seen', log', ended := index, seen, log, false;
    var choice := GetLowestTime(files, index);
    if choice.Died? {
      NoChoiceDies(files, index, seen, log, tables.o);
      died := true;
    } else {
      var i := choice.file;
      var check := CheckSamples(tables, files[i], index[i]);
      log' := log + Visits(i, files[i][index[i]..check.stop]);
      died := check.DiedAt?;
      if died {
        TurnDies(files, index, seen, log, tables.o, i, check);
      } else {
        TurnKeeps(files, index, seen, log, tables.o, i, check);
        index', seen' := index[i := check.next], seen[i := check.stop];
        ended := check.next >= |files[i]|;
      }
    }
  }

  /** The main loop. It dies exactly when something visible of some file cannot be read; otherwise it ends with every
      file finished and every visible record visited exactly once, in the order of its file. Blocks are visited in
      the order of their times exactly when every file's own blocks are in that order. The table of kernel symbols is
      taken not to be empty. */
  method Merge(files: seq<seq<Record>>, o: Options) returns (died: bool, log: seq<Visit>)
    ensures !died <==> AllReadable(AllVisible(files), o)
    ensures !died ==> forall i :: 0 <= i < |files| ==> Of(log, i) == Visible(files[i])
    ensures !died ==> (LogOrdered(log) <==> AllOrdered(AllVisible(files)))
    ensures AllOrdered(AllVisible(files)) ==> LogOrdered(log)
    ensures forall i :: 0 <= i < |files| ==> Of(log, i) <= Visible(files[i])
  {
    var index: seq<nat> := seq(|files|, _ => 0);
    ghost var seen: seq<nat> := index;
    var finished := CountEmpty(files);
    log, died := [], false;
    var tables := new Tables(o);
    while finished < |files|
      invariant Running(files, index, seen, log, o) && finished == Finished(files, index)
      invariant fresh(tables) && tables.Valid() && tables.o == o
      decreases Left(AllVisible(files), seen)
    {
      var ended;
      died, ended, index, seen, log := Turn(tables, files, index, seen, log);
      if died {
        return;
      }
      finished := finished + if ended then 1 else 0;
    }
    RunEnds(files, index, seen, log, o);
  }
}
