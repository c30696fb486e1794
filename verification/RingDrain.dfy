/** The perf ring of profiler/profiler-sampling.c: the kernel appends a stream of bytes to a ring and mmap_read
    dumps what is new. Indices are never reset; the bytes to dump are counted in an int. The code's 64-bit
    indices are used through their low bits and through differences converted to int, both of which are the
    same for the unbounded indices here. */
module RingDrain {
  import opened RingArith

  type Byte = x: int | 0 <= x < 256

  const TWO32: nat := 0x1_0000_0000

  function Pow2(k: nat): (p: nat)
    ensures p > 0
  {
    if k == 0 then 1 else 2 * Pow2(k - 1)
  }

  /** x & mask for a mask of k ones: the slot of index x in a ring of 2^k bytes. */
  function LowBits(x: nat, k: nat): (r: nat)
    ensures r < Pow2(k)
  {
    if k == 0 then 0 else x % 2 + 2 * LowBits(x / 2, k - 1)
  }

  /** The int that a difference of two indices is converted to. */
  function AsInt(x: int): int {
    var low := x % TWO32;
    if low < 0x8000_0000 then low else low - TWO32
  }

  /** What one mmap_read dumps: the bytes, nothing when diff is negative, or a read past the ring. */
  datatype Outcome = Dumped(bytes: seq<Byte>) | Skipped | Fault

  function Chunk(data: seq<Byte>, from: nat, size: int): Outcome {
    if size < 0 || from + size > |data| then Fault else Dumped(data[from..from + size])
  }

  function Joined(a: Outcome, b: Outcome): Outcome {
    if a.Dumped? && b.Dumped? then Dumped(a.bytes + b.bytes) else Fault
  }

  /** The copy from slot at to the end of the ring and the copy of the rest. */
  function ReadInTwo(data: seq<Byte>, k: nat, head: nat, last: nat, at: nat): (Outcome, nat)
    requires at <= |data|
  {
    var middle := last + (|data| - at);
    var rest := AsInt(head - middle);
    if rest < 0 then (Fault, head)
    else (Joined(Chunk(data, at, |data| - at), Chunk(data, LowBits(middle, k), rest)), middle + rest)
  }

  /** mmap_read on a ring of 2^k bytes, called with the index it returned last: what it dumps, and the index it
      returns and stores in data_tail. */
  function MmapRead(data: seq<Byte>, k: nat, head: nat, last: nat): (Outcome, nat)
    requires |data| == Pow2(k)
  {
    var size, at := AsInt(head - last), LowBits(last, k);
    if size < 0 then (Skipped, head)
    else if at + size != LowBits(head, k) then ReadInTwo(data, k, head, last, at)
    else (Chunk(data, at, size), last + size)
  }

  // ----- The mask -----

  lemma TwiceProduct(q: int, p: int)
    ensures q * (2 * p) == 2 * (q * p)
  {
  }

  lemma ModuloByHalf(x: nat, p: nat)
    requires p > 0
    ensures x % (2 * p) == x % 2 + 2 * ((x / 2) % p)
  {
    var h := x / 2;
    var q, r := h / p, h % p;
    assert h == q * p + r;
    TwiceProduct(q, p);
    DivModUnique(x, 2 * p, q, x % 2 + 2 * r);
  }

  /** The mask computes the index modulo the ring size. */
  lemma {:induction false} MaskIsModulo(x: nat, k: nat)
    ensures LowBits(x, k) == x % Pow2(k)
  {
    if k > 0 {
      MaskIsModulo(x / 2, k - 1);
      ModuloByHalf(x, Pow2(k - 1));
    }
  }

  lemma SlotsApart(i: nat, j: nat, k: nat)
    requires i < j < i + Pow2(k)
    ensures LowBits(i, k) != LowBits(j, k)
  {
    MaskIsModulo(i, k);
    MaskIsModulo(j, k);
    DistinctSlots(i, j, Pow2(k));
  }

  /** Within the ring, slots follow the indices. */
  lemma SlotAhead(x: nat, y: nat, k: nat)
    requires x <= y && LowBits(x, k) + (y - x) < Pow2(k)
    ensures LowBits(y, k) == LowBits(x, k) + (y - x)
  {
    MaskIsModulo(x, k);
    MaskIsModulo(y, k);
    ModuloAhead(x, y, Pow2(k));
  }

  lemma ModuloAhead(x: nat, y: nat, n: nat)
    requires n > 0 && x <= y && x % n + (y - x) < n
    ensures y % n == x % n + (y - x)
  {
    assert x == (x / n) * n + x % n;
    DivModUnique(y, n, x / n, x % n + (y - x));
  }

  /** At the end of the ring they start over. */
  lemma SlotAfterEnd(x: nat, y: nat, k: nat)
    requires y == x + (Pow2(k) - LowBits(x, k))
    ensures LowBits(y, k) == 0
  {
    MaskIsModulo(x, k);
    MaskIsModulo(y, k);
    ModuloAfterEnd(x, y, Pow2(k));
  }

  lemma ModuloAfterEnd(x: nat, y: nat, n: nat)
    requires n > 0 && y == x + (n - x % n)
    ensures y % n == 0
  {
    assert x == (x / n) * n + x % n;
    Distribute(x / n, -1, n);
    DivModUnique(y, n, x / n + 1, 0);
  }

  lemma Laps(x: int, q: int, n: int)
    requires n > 0
    ensures (x + q * n) % n == x % n
  {
    assert x == n * (x / n) + x % n;
    Distribute(x / n, -q, n);
    DivModUnique(x + q * n, n, x / n + q, x % n);
  }

  /** The last of the first n indices that goes to slot j. */
  lemma LatestIn(n: nat, k: nat, j: nat) returns (x: nat)
    requires j < Pow2(k) <= n
    ensures n <= x + Pow2(k) && x < n && LowBits(x, k) == j
  {
    var R := Pow2(k);
    var d := n - 1 - j;
    assert d == (d / R) * R + d % R;
    x := j + (d / R) * R;
    Laps(j, d / R, R);
    DivModUnique(j, R, 0, j);
    MaskIsModulo(x, k);
  }

  lemma {:induction false} PowSum(j: nat, k: nat)
    ensures Pow2(j + k) == Pow2(j) * Pow2(k)
  {
    if j > 0 {
      PowSum(j - 1, k);
    }
  }

  lemma {:induction false} PowersUpTo(k: nat, n: nat)
    requires k <= n
    ensures Pow2(k) <= Pow2(n)
  {
    if k < n {
      PowersUpTo(k, n - 1);
    }
  }

  /** mask_mmap is an int, so k is below 31. */
  lemma RingBelowInt(k: nat)
    requires k < 31
    ensures Pow2(k) < 0x8000_0000
  {
    PowersUpTo(k, 30);
    assert Pow2(8) == 256;
    PowSum(8, 8);
    PowSum(8, 16);
    PowSum(24, 6);
    assert Pow2(6) == 64;
  }

  // ----- The ring -----

  /** A ring that starts with any contents, after a stream has been written through it. */
  function RingOf(stream: seq<Byte>, initial: seq<Byte>, k: nat): (data: seq<Byte>)
    requires |initial| == Pow2(k)
    ensures |data| == |initial|
  {
    if stream == [] then initial
    else
      var n := |stream| - 1;
      RingOf(stream[..n], initial, k)[LowBits(n, k) := stream[n]]
  }

  /** The last 2^k bytes of the stream are in the ring. */
  lemma {:induction false} RingHolds(stream: seq<Byte>, initial: seq<Byte>, k: nat, j: nat)
    requires |initial| == Pow2(k) && |stream| - Pow2(k) <= j < |stream|
    ensures RingOf(stream, initial, k)[LowBits(j, k)] == stream[j]
  {
    var n := |stream| - 1;
    if j < n {
      RingHolds(stream[..n], initial, k, j);
      SlotsApart(j, n, k);
    }
  }

  /** Byte i of a stretch of the ring is byte i of a stretch of the stream. */
  predicate SameByte(ring: seq<Byte>, at: nat, stream: seq<Byte>, from: nat, i: nat) {
    at + i < |ring| && from + i < |stream| && ring[at + i] == stream[from + i]
  }

  lemma RingByte(
    stream: seq<Byte>, initial: seq<Byte>, k: nat, ring: seq<Byte>, from: nat, at: nat, i: nat)
    requires |initial| == Pow2(k) && ring == RingOf(stream, initial, k)
    requires from + i < |stream| <= from + |ring| && at == LowBits(from, k) && at + i < |ring|
    ensures SameByte(ring, at, stream, from, i)
  {
    var j := from + i;
    SlotAhead(from, j, k);
    InRing(stream, initial, k, ring, j, at + i);
  }

  lemma InRing(stream: seq<Byte>, initial: seq<Byte>, k: nat, ring: seq<Byte>, j: nat, at: nat)
    requires |initial| == Pow2(k) && ring == RingOf(stream, initial, k)
    requires j < |stream| <= j + |ring| && at == LowBits(j, k)
    ensures at < |ring| && ring[at] == stream[j]
  {
    RingHolds(stream, initial, k, j);
  }

  lemma SameSlices(ring: seq<Byte>, at: nat, stream: seq<Byte>, from: nat, to: nat)
    requires from <= to <= |stream| && at + (to - from) <= |ring|
    requires forall i :: 0 <= i < to - from ==> SameByte(ring, at, stream, from, i)
    ensures Chunk(ring, at, to - from) == Dumped(stream[from..to])
  {
    var inRing, written := ring[at..at + (to - from)], stream[from..to];
    forall i | 0 <= i < |inRing|
      ensures inRing[i] == written[i]
    {
      assert SameByte(ring, at, stream, from, i);
    }
    assert inRing == written;
  }

  lemma ChunkIsSlice(
    stream: seq<Byte>, initial: seq<Byte>, k: nat, ring: seq<Byte>, from: nat, to: nat, at: nat)
    requires |initial| == Pow2(k) && ring == RingOf(stream, initial, k)
    requires from <= to <= |stream| <= from + |ring| && at == LowBits(from, k) && at + (to - from) <= |ring|
    ensures Chunk(ring, at, to - from) == Dumped(stream[from..to])
  {
    forall i | 0 <= i < to - from
      ensures SameByte(ring, at, stream, from, i)
    {
      RingByte(stream, initial, k, ring, from, at, i);
    }
    SameSlices(ring, at, stream, from, to);
  }

  /** The byte at p no longer matters once a ring's worth has been written after it. */
  lemma RingForgets(stream: seq<Byte>, initial: seq<Byte>, k: nat, p: nat, b: Byte)
    requires |initial| == Pow2(k) && p + Pow2(k) < |stream|
    ensures RingOf(stream[p := b], initial, k) == RingOf(stream, initial, k)
  {
    forall j | 0 <= j < |initial|
      ensures RingOf(stream[p := b], initial, k)[j] == RingOf(stream, initial, k)[j]
    {
      var x := LatestIn(|stream|, k, j);
      RingHolds(stream, initial, k, x);
      RingHolds(stream[p := b], initial, k, x);
    }
  }

  // ----- What a call dumps -----

  lemma IntDistance(k: nat, head: nat, last: nat)
    requires k < 31 && last <= head <= last + Pow2(k)
    ensures AsInt(head - last) == head - last
  {
    RingBelowInt(k);
  }

  /** The outcome in terms of the indices and slots, for a call whose bytes do not reach the end of the ring and
      for one whose bytes do. */
  lemma OnePiece(data: seq<Byte>, k: nat, head: nat, last: nat, at: nat, bytes: seq<Byte>)
    requires |data| == Pow2(k) && last <= head && AsInt(head - last) == head - last
    requires at == LowBits(last, k) && LowBits(head, k) == at + (head - last)
    requires Chunk(data, at, head - last) == Dumped(bytes)
    ensures MmapRead(data, k, head, last) == (Dumped(bytes), head)
  {
  }

  lemma TwoPieces(
    data: seq<Byte>, k: nat, head: nat, last: nat, middle: nat, at: nat, a: seq<Byte>, b: seq<Byte>)
    requires at <= |data| && middle == last + (|data| - at) && middle <= head && LowBits(middle, k) == 0
    requires AsInt(head - middle) == head - middle
    requires Chunk(data, at, |data| - at) == Dumped(a) && Chunk(data, 0, head - middle) == Dumped(b)
    ensures ReadInTwo(data, k, head, last, at) == (Dumped(a + b), head)
  {
  }

  lemma GoesInTwo(data: seq<Byte>, k: nat, head: nat, last: nat, at: nat)
    requires |data| == Pow2(k) && at == LowBits(last, k) && last <= head
    requires AsInt(head - last) == head - last && at + (head - last) >= |data|
    ensures MmapRead(data, k, head, last) == ReadInTwo(data, k, head, last, at)
  {
  }

  lemma StraightDrain(
    stream: seq<Byte>, initial: seq<Byte>, k: nat, ring: seq<Byte>, head: nat, last: nat, at: nat)
    requires k < 31 && |initial| == Pow2(k) && ring == RingOf(stream, initial, k)
    requires last <= head <= |stream| <= last + |ring| && at == LowBits(last, k) && at + (head - last) < |ring|
    ensures MmapRead(ring, k, head, last) == (Dumped(stream[last..head]), head)
  {
    ChunkIsSlice(stream, initial, k, ring, last, head, at);
    SlotAhead(last, head, k);
    IntDistance(k, head, last);
    OnePiece(ring, k, head, last, at, stream[last..head]);
  }

  lemma WrappedDrain(
    stream: seq<Byte>, initial: seq<Byte>, k: nat, ring: seq<Byte>, head: nat, last: nat, at: nat, middle: nat)
    requires k < 31 && |initial| == Pow2(k) && ring == RingOf(stream, initial, k)
    requires last <= middle <= head <= |stream| <= last + |ring|
    requires at == LowBits(last, k) && middle == last + (|ring| - at)
    ensures MmapRead(ring, k, head, last) == (Dumped(stream[last..middle] + stream[middle..head]), head)
  {
    SlotAfterEnd(last, middle, k);
    ChunkIsSlice(stream, initial, k, ring, last, middle, at);
    ChunkIsSlice(stream, initial, k, ring, middle, head, 0);
    IntDistance(k, head, last);
    IntDistance(k, head, middle);
    GoesInTwo(ring, k, head, last, at);
    TwoPieces(ring, k, head, last, middle, at, stream[last..middle], stream[middle..head]);
  }

  lemma SlicesJoin(stream: seq<Byte>, last: nat, middle: nat, head: nat)
    requires last <= middle <= head <= |stream|
    ensures stream[last..middle] + stream[middle..head] == stream[last..head]
  {
  }

  /** One call dumps exactly the bytes between its last index and the head it has loaded, when they are still in the
      ring, whatever has been appended since. */
  lemma DrainIsExact(stream: seq<Byte>, initial: seq<Byte>, k: nat, last: nat, head: nat)
    requires k < 31 && |initial| == Pow2(k) && last <= head <= |stream| <= last + Pow2(k)
    ensures MmapRead(RingOf(stream, initial, k), k, head, last) == (Dumped(stream[last..head]), head)
  {
    var ring, at := RingOf(stream, initial, k), LowBits(last, k);
    var middle := last + (|ring| - at);
    if head < middle {
      StraightDrain(stream, initial, k, ring, head, last, at);
    } else {
      WrappedDrain(stream, initial, k, ring, head, last, at, middle);
      SlicesJoin(stream, last, middle, head);
    }
  }

  /** Every stream of the given length is dumped from the last index on. */
  ghost predicate DumpsEveryStream(k: nat, last: nat, head: nat)
    requires last <= head
  {
    forall stream: seq<Byte>, initial: seq<Byte> :: |stream| == head && |initial| == Pow2(k) ==>
      MmapRead(RingOf(stream, initial, k), k, head, last).0 == Dumped(stream[last..])
  }

  /** A call dumps what was written since the last one exactly when that fits in the ring: the test for a
      negative diff alone does not tell. */
  lemma DrainIsExactIff(k: nat, last: nat, head: nat)
    requires k < 31 && last <= head
    ensures DumpsEveryStream(k, last, head) <==> head - last <= Pow2(k)
  {
    if head - last <= Pow2(k) {
      forall stream: seq<Byte>, initial: seq<Byte> | |stream| == head && |initial| == Pow2(k)
        ensures MmapRead(RingOf(stream, initial, k), k, head, last).0 == Dumped(stream[last..])
      {
        DrainIsExact(stream, initial, k, last, head);
        assert stream[last..head] == stream[last..];
      }
    } else {
      var stream, initial := DumpedWrong(k, last, head);
    }
  }

  /** Of two streams that differ in a byte already overwritten, one is dumped wrong. */
  lemma DumpedWrong(k: nat, last: nat, head: nat) returns (stream: seq<Byte>, initial: seq<Byte>)
    requires head > last + Pow2(k)
    ensures |stream| == head && |initial| == Pow2(k)
    ensures MmapRead(RingOf(stream, initial, k), k, head, last).0 != Dumped(stream[last..])
  {
    stream, initial := seq(head, _ => 0), seq(Pow2(k), _ => 0);
    var other := stream[last := 1];
    RingForgets(stream, initial, k, last, 1);
    assert stream[last..][0] != other[last..][0];
    if MmapRead(RingOf(stream, initial, k), k, head, last).0 == Dumped(stream[last..]) {
      stream := other;
    }
  }

  // ----- What a call does for any head -----

  /** A difference and its int are a multiple of 2^32 apart, and so fall on the same slot. */
  lemma IntSlot(x: int, k: nat, from: nat) returns (q: int)
    requires k < 31 && from + x >= 0
    ensures x == AsInt(x) + q * TWO32 && (from + x) % Pow2(k) == (from + AsInt(x)) % Pow2(k)
  {
    q := if x % TWO32 < 0x8000_0000 then x / TWO32 else x / TWO32 + 1;
    assert x == (x / TWO32) * TWO32 + x % TWO32;
    Distribute(x / TWO32, -1, TWO32);
    WordIsLaps(k);
    assert q * TWO32 == (q * Pow2(32 - k)) * Pow2(k) by {
      Associate(q, Pow2(32 - k), Pow2(k));
    }
    Laps(from + AsInt(x), q * Pow2(32 - k), Pow2(k));
  }

  lemma Associate(a: int, b: int, c: int)
    ensures a * (b * c) == (a * b) * c
  {
  }

  lemma WordIsLaps(k: nat)
    requires k < 31
    ensures TWO32 == Pow2(32 - k) * Pow2(k)
  {
    PowSum(32 - k, k);
    WordIsPower();
  }

  lemma WordIsPower()
    ensures Pow2(32) == TWO32
  {
    assert Pow2(8) == 256;
    PowSum(8, 8);
    assert Pow2(16) == 65536;
    PowSum(16, 16);
  }

  lemma IntOf(d: nat, q: int)
    requires d < 0x8000_0000
    ensures AsInt(d + q * TWO32) == d
  {
    Laps(d, q, TWO32);
    DivModUnique(d, TWO32, 0, d);
  }

  /** The bytes of the ring from an index on, going round. */
  predicate GoesRound(bytes: seq<Byte>, data: seq<Byte>, last: nat) {
    |data| > 0 && forall i :: 0 <= i < |bytes| ==> bytes[i] == data[(last + i) % |data|]
  }

  lemma StraightGoesRound(data: seq<Byte>, last: nat, d: nat)
    requires |data| > 0 && last % |data| + d <= |data|
    ensures GoesRound(data[last % |data|..last % |data| + d], data, last)
  {
    var bytes := data[last % |data|..last % |data| + d];
    forall i | 0 <= i < |bytes|
      ensures bytes[i] == data[(last + i) % |data|]
    {
      ModuloAhead(last, last + i, |data|);
    }
  }

  lemma TwoGoRound(data: seq<Byte>, last: nat, at: nat, rest: nat)
    requires |data| > 0 && at == last % |data| && rest <= |data|
    ensures GoesRound(data[at..] + data[..rest], data, last)
  {
    var a, bytes := |data| - at, data[at..] + data[..rest];
    StraightGoesRound(data, last, a);
    ModuloAfterEnd(last, last + a, |data|);
    StraightGoesRound(data, last + a, rest);
    forall i | 0 <= i < |bytes|
      ensures bytes[i] == data[(last + i) % |data|]
    {
      if i < a {
        assert bytes[i] == data[at..at + a][i];
      } else {
        assert bytes[i] == data[0..rest][i - a];
      }
    }
  }

  lemma StraightRead(data: seq<Byte>, k: nat, head: nat, last: nat, d: nat, at: nat)
    requires |data| == Pow2(k) && d == AsInt(head - last) && at == LowBits(last, k)
    requires LowBits(head, k) == at + d < |data|
    ensures MmapRead(data, k, head, last) == (Dumped(data[at..at + d]), last + d)
  {
  }

  lemma TwoReads(data: seq<Byte>, k: nat, head: nat, last: nat, d: nat, at: nat, middle: nat, rest: nat)
    requires |data| == Pow2(k) && d == AsInt(head - last) && at == LowBits(last, k) && at + d >= |data|
    requires middle == last + (|data| - at) && LowBits(middle, k) == 0
    requires rest == AsInt(head - middle) == d - (|data| - at)
    ensures MmapRead(data, k, head, last)
         == (if rest <= |data| then Dumped(data[at..] + data[..rest]) else Fault, last + d)
  {
    assert data[at..at + (|data| - at)] == data[at..];
  }

  lemma TwoPiecesRead(data: seq<Byte>, k: nat, head: nat, last: nat, d: nat)
    requires k < 31 && |data| == Pow2(k) && d == AsInt(head - last) && LowBits(last, k) + d >= |data|
    ensures var at := LowBits(last, k);
      MmapRead(data, k, head, last)
        == (if d - (|data| - at) <= |data| then Dumped(data[at..] + data[..d - (|data| - at)]) else Fault, last + d)
  {
    var R, at := |data|, LowBits(last, k);
    var middle, rest := last + (R - at), d - (R - at);
    var q := IntSlot(head - last, k, last);
    IntOf(rest, q);
    assert head - middle == rest + q * TWO32;
    SlotAfterEnd(last, middle, k);
    TwoReads(data, k, head, last, d, at, middle, rest);
  }

  lemma SlotOfHead(k: nat, head: nat, last: nat, d: nat)
    requires k < 31 && d == AsInt(head - last) && LowBits(last, k) + d < Pow2(k)
    ensures LowBits(head, k) == LowBits(last, k) + d
  {
    var q := IntSlot(head - last, k, last);
    MaskIsModulo(last, k);
    MaskIsModulo(head, k);
    ModuloAhead(last, last + d, Pow2(k));
  }

  lemma OnePieceRead(data: seq<Byte>, k: nat, head: nat, last: nat, d: nat)
    requires k < 31 && |data| == Pow2(k) && d == AsInt(head - last) && LowBits(last, k) + d < |data|
    ensures var at := LowBits(last, k); MmapRead(data, k, head, last) == (Dumped(data[at..at + d]), last + d)
  {
    SlotOfHead(k, head, last, d);
    StraightRead(data, k, head, last, d, LowBits(last, k));
  }

  /** Whatever head and last are: when their difference is negative as an int, nothing is dumped and the call goes on
      from head. Else as many bytes are dumped, from the slot of last on and round the ring, and the call goes on
      behind them; a copy leaves the ring exactly when the bytes would reach its end a second time. */
  lemma CallReads(data: seq<Byte>, k: nat, head: nat, last: nat)
    requires k < 31 && |data| == Pow2(k)
    ensures var (out, next) := MmapRead(data, k, head, last);
      var d := AsInt(head - last);
      if d < 0 then out == Skipped && next == head
      else
        && next == last + d && !out.Skipped?
        && (out.Dumped? <==> last % |data| + d <= 2 * |data|)
        && (out.Dumped? ==> |out.bytes| == d && GoesRound(out.bytes, data, last))
  {
    var R, d, at := |data|, AsInt(head - last), LowBits(last, k);
    MaskIsModulo(last, k);
    if d >= 0 {
      if at + d < R {
        OnePieceRead(data, k, head, last, d);
        StraightGoesRound(data, last, d);
      } else {
        TwoPiecesRead(data, k, head, last, d);
        if d - (R - at) <= R {
          TwoGoRound(data, last, at, d - (R - at));
        }
      }
    }
  }

  // ----- Runs -----

  /** Where a call of mmap_read stands: it has loaded data_head; it has dumped, and is about to store data_tail. */
  datatype DrainPc = Between | Loaded(head: nat) | Copied(next: nat)

  /** The kernel appends records as long as data_tail leaves room for them, also in the middle of a call. */
  datatype Action = Append(bytes: seq<Byte>) | DrainStep

  /** stream: all that was written, whose end is in the ring. dumped: the payloads of the dump file. lost: a
      call has failed. */
  datatype State = State(
    stream: seq<Byte>, ring: seq<Byte>, tail: nat, pc: DrainPc, dumped: seq<Byte>, lost: bool)

  /** One byte after another into the ring. */
  function Written(ring: seq<Byte>, k: nat, at: nat, bytes: seq<Byte>): (r: seq<Byte>)
    requires |ring| == Pow2(k)
    ensures |r| == |ring|
    decreases |bytes|
  {
    if bytes == [] then ring
    else
      Written(ring[LowBits(at, k) := bytes[0]], k, at + 1, bytes[1..])
  }

  function Step(s: State, k: nat, a: Action): (r: State)
    requires |s.ring| == Pow2(k)
    ensures |r.ring| == |s.ring|
  {
    match a
    case Append(bytes) =>
      if |s.stream| - s.tail + |bytes| <= |s.ring| then
        s.(stream := s.stream + bytes, ring := Written(s.ring, k, |s.stream|, bytes))
      else s
    case DrainStep =>
      match s.pc
      case Between => s.(pc := Loaded(|s.stream|))
      case Loaded(head) =>
        var (out, next) := MmapRead(s.ring, k, head, s.tail);
        s.(pc := Copied(next), dumped := if out.Dumped? then s.dumped + out.bytes else s.dumped,
           lost := s.lost || !out.Dumped?)
      case Copied(next) => s.(tail := next, pc := Between)
  }

  function Run(s: State, k: nat, schedule: seq<Action>): (r: State)
    requires |s.ring| == Pow2(k)
    ensures |r.ring| == |s.ring|
    decreases |schedule|
  {
    if schedule == [] then s else Run(Step(s, k, schedule[0]), k, schedule[1..])
  }

  ghost predicate Inv(s: State, initial: seq<Byte>, k: nat)
    requires |initial| == Pow2(k)
  {
    && s.ring == RingOf(s.stream, initial, k)
    && s.tail <= |s.dumped| <= |s.stream| <= s.tail + Pow2(k)
    && s.dumped == s.stream[..|s.dumped|]
    && !s.lost
    && match s.pc
       case Between => s.tail == |s.dumped|
       case Loaded(head) => s.tail == |s.dumped| <= head <= |s.stream|
       case Copied(next) => next == |s.dumped|
  }

  lemma {:induction false} WrittenIsRingOf(stream: seq<Byte>, bytes: seq<Byte>, initial: seq<Byte>, k: nat)
    requires |initial| == Pow2(k)
    ensures Written(RingOf(stream, initial, k), k, |stream|, bytes) == RingOf(stream + bytes, initial, k)
    decreases |bytes|
  {
    if bytes == [] {
      assert stream + bytes == stream;
    } else {
      var more := stream + [bytes[0]];
      assert more[..|stream|] == stream;
      assert more + bytes[1..] == stream + bytes;
      WrittenIsRingOf(more, bytes[1..], initial, k);
    }
  }

  /** The kernel appends whatever there is room for. */
  lemma RoomIsUsed(s: State, k: nat, bytes: seq<Byte>)
    requires |s.ring| == Pow2(k) && |s.stream| + |bytes| <= s.tail + |s.ring|
    ensures Step(s, k, Append(bytes)).stream == s.stream + bytes
  {
  }

  /** A call that does not dump what it should is recorded. */
  lemma FailureIsRecorded(s: State, k: nat)
    requires |s.ring| == Pow2(k) && s.pc.Loaded? && !MmapRead(s.ring, k, s.pc.head, s.tail).0.Dumped?
    ensures Step(s, k, DrainStep).lost
  {
  }

  /** An append changes no byte that the drain has still to dump: the slots up to data_head stay as they are. */
  lemma AppendKeepsUnread(s: State, initial: seq<Byte>, k: nat, bytes: seq<Byte>, j: nat)
    requires |initial| == Pow2(k) && Inv(s, initial, k) && s.tail <= j < |s.stream|
    ensures Step(s, k, Append(bytes)).ring[LowBits(j, k)] == s.ring[LowBits(j, k)] == s.stream[j]
  {
    RingHolds(s.stream, initial, k, j);
    if |s.stream| - s.tail + |bytes| <= |s.ring| {
      WrittenIsRingOf(s.stream, bytes, initial, k);
      RingHolds(s.stream + bytes, initial, k, j);
    }
  }

  lemma StepKeeps(s: State, initial: seq<Byte>, k: nat, a: Action)
    requires k < 31 && |initial| == Pow2(k) && Inv(s, initial, k)
    ensures Inv(Step(s, k, a), initial, k)
  {
    if a.Append? {
      WrittenIsRingOf(s.stream, a.bytes, initial, k);
    } else if s.pc.Loaded? {
      DrainIsExact(s.stream, initial, k, s.tail, s.pc.head);
      assert s.dumped + s.stream[s.tail..s.pc.head] == s.stream[..s.pc.head];
    }
  }

  lemma {:induction false} RunKeeps(s: State, initial: seq<Byte>, k: nat, schedule: seq<Action>)
    requires k < 31 && |initial| == Pow2(k) && Inv(s, initial, k)
    ensures Inv(Run(s, k, schedule), initial, k)
    decreases |schedule|
  {
    if schedule != [] {
      StepKeeps(s, initial, k, schedule[0]);
      RunKeeps(Step(s, k, schedule[0]), initial, k, schedule[1..]);
    }
  }

  lemma CopyDumpsAll(s: State, initial: seq<Byte>, k: nat)
    requires k < 31 && |initial| == Pow2(k) && Inv(s, initial, k) && s.pc == Loaded(|s.stream|)
    ensures Step(s, k, DrainStep) == s.(dumped := s.stream, pc := Copied(|s.stream|))
  {
    DrainIsExact(s.stream, initial, k, s.tail, |s.stream|);
    assert s.dumped + s.stream[s.tail..|s.stream|] == s.stream;
  }

  /** What a whole call, with nothing appended meanwhile, dumps after a state between calls. */
  lemma CallDumpsAll(s: State, initial: seq<Byte>, k: nat)
    requires k < 31 && |initial| == Pow2(k) && Inv(s, initial, k) && s.pc.Between?
    ensures Step(Step(s, k, DrainStep), k, DrainStep).dumped == s.stream
    ensures Step(Step(Step(s, k, DrainStep), k, DrainStep), k, DrainStep)
         == s.(tail := |s.stream|, dumped := s.stream)
  {
    StepKeeps(s, initial, k, DrainStep);
    CopyDumpsAll(Step(s, k, DrainStep), initial, k);
  }

  /** Whatever the kernel appends, before, during and after the calls: no call fails, the dumped bytes are a prefix
      of the stream, and what is missing is at most a ring's worth, which the next whole call dumps. */
  lemma NothingIsLost(initial: seq<Byte>, k: nat, schedule: seq<Action>)
    requires k < 31 && |initial| == Pow2(k)
    ensures var r := Run(State([], initial, 0, Between, [], false), k, schedule);
      && !r.lost && r.dumped <= r.stream && |r.stream| <= |r.dumped| + Pow2(k)
      && (r.pc.Between? ==> Step(Step(r, k, DrainStep), k, DrainStep).dumped == r.stream)
  {
    var s := State([], initial, 0, Between, [], false);
    RunKeeps(s, initial, k, schedule);
    var r := Run(s, k, schedule);
    if r.pc.Between? {
      CallDumpsAll(r, initial, k);
    }
  }
}
