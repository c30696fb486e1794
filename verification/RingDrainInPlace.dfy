/** mmap_read over the mapped area and the dump file. */
module RingDrainInPlace {
  import opened RingDrain

  /** The header page's indices and the data pages of one event. */
  class PerfArea {
    const data: array<Byte>
    var dataHead: nat
    var dataTail: nat

    constructor (data: array<Byte>)
      ensures this.data == data && dataHead == 0 && dataTail == 0
    {
      this.data, dataHead, dataTail := data, 0, 0;
    }
  }

  /** The event that opens a call's block of the dump file, and how many ring bytes precede it. */
  datatype WriteEvent = WriteEvent(core: int, event: int, failed: bool, after: nat)

  /** The dump file: ring bytes, and the write events between them. */
  class DumpFile {
    var payload: seq<Byte>
    var events: seq<WriteEvent>

    constructor ()
      ensures payload == [] && events == []
    {
      payload, events := [], [];
    }
  }

  /** fwrite of size bytes of the data pages; ok is false when it would read past them, which ends the program. */
  method WriteChunk(area: PerfArea, at: nat, size: int, file: DumpFile) returns (ok: bool)
    modifies file`payload
    ensures ok == Chunk(area.data[..], at, size).Dumped?
    ensures ok ==> file.payload == old(file.payload) + Chunk(area.data[..], at, size).bytes
    ensures !ok ==> file.payload == old(file.payload)
  {
    ok := size >= 0 && at + size <= area.data.Length;
    if ok {
      assert area.data[at..at + size] == area.data[..][at..at + size];
      file.payload := file.payload + area.data[at..at + size];
    }
  }

  /** The two copies of a call that reaches the end of the data pages. */
  method WriteInTwo(area: PerfArea, k: nat, last: nat, at: nat, file: DumpFile) returns (ok: bool, next: nat)
    requires at <= area.data.Length
    modifies file`payload
    ensures ok == ReadInTwo(area.data[..], k, area.dataHead, last, at).0.Dumped?
    ensures ok ==> file.payload == old(file.payload) + ReadInTwo(area.data[..], k, area.dataHead, last, at).0.bytes
    ensures ok ==> next == ReadInTwo(area.data[..], k, area.dataHead, last, at).1
    ensures !ok ==> old(file.payload) <= file.payload
  {
    ok := WriteChunk(area, at, area.data.Length - at, file);
    next := last + (area.data.Length - at);
    var size := AsInt(area.dataHead - next);
    ok := WriteChunk(area, LowBits(next, k), size, file);
    if ok {
      next := next + size;
    }
  }

  /** The copies of mmap_read for a diff that is not negative. */
  method WritePieces(area: PerfArea, k: nat, last: nat, file: DumpFile) returns (ok: bool, next: nat)
    requires area.data.Length == Pow2(k) && AsInt(area.dataHead - last) >= 0
    modifies file`payload
    ensures ok == MmapRead(area.data[..], k, area.dataHead, last).0.Dumped?
    ensures ok ==> file.payload == old(file.payload) + MmapRead(area.data[..], k, area.dataHead, last).0.bytes
    ensures ok ==> next == MmapRead(area.data[..], k, area.dataHead, last).1
    ensures !ok ==> old(file.payload) <= file.payload
  {
    var size, at := AsInt(area.dataHead - last), LowBits(last, k);
    if at + size != LowBits(area.dataHead, k) {
      ok, next := WriteInTwo(area, k, last, at, file);
    } else {
      ok := WriteChunk(area, at, size, file);
      next := last + size;
    }
  }

  /** mmap_read. When a copy would leave the data pages, which a head more than a ring ahead can make it do, ok is
      false, and data_tail is left. */
  method MmapReadArea(core: int, event: int, area: PerfArea, k: nat, last: nat, file: DumpFile)
    returns (ok: bool, next: nat)
    requires area.data.Length == Pow2(k)
    modifies area`dataTail, file
    ensures var (out, index) := MmapRead(area.data[..], k, area.dataHead, last);
      && ok == !out.Fault?
      && (ok ==> next == area.dataTail == index)
      && (ok ==> file.payload == old(file.payload) + (if out.Dumped? then out.bytes else []))
      && (!ok ==> area.dataTail == old(area.dataTail) && old(file.payload) <= file.payload)
      && file.events == old(file.events) + [WriteEvent(core, event, out.Skipped?, |old(file.payload)|)]
  {
    var failed := AsInt(area.dataHead - last) < 0;
    file.events := file.events + [WriteEvent(core, event, failed, |file.payload|)];
    if failed {
      ok, next := true, area.dataHead;
    } else {
      ok, next := WritePieces(area, k, last, file);
    }
    if ok {
      area.dataTail := next;
    }
  }
}
