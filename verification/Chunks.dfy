/** Chunks of a file, how the engine cuts a file into them, and the work items
    that a rebuild derives from them. */
module Chunks {
  import opened Basics

  /** A stable piece [start, end] (both inclusive) of the file, and how many
      bytes of it, counted from `start`, have been received. */
  datatype Chunk = Chunk(start: nat, end: int, received: nat) {
    function Size(): int { end - start + 1 }

    predicate Finished() { received >= Size() }

    /** File offset of the first byte not yet received. */
    function Pos(): nat { start + received }
  }

  /** Ephemeral scheduling unit: the unreceived tail of one chunk. */
  datatype WorkItem = WorkItem(id: nat, chunk: nat, rangeStart: nat, rangeEnd: int)

  /** The chunks are non-empty, adjacent and cover [0, size). */
  ghost predicate Tiled(cs: seq<Chunk>, size: nat)
  {
    && |cs| > 0
    && cs[0].start == 0
    && cs[|cs| - 1].end == size - 1
    && (forall i :: 0 <= i < |cs| ==> cs[i].start <= cs[i].end < size)
    && (forall i, j :: 0 <= i && j == i + 1 && j < |cs| ==> cs[j].start == cs[i].end + 1)
  }

  ghost predicate Fits(cs: seq<Chunk>)
  {
    forall i :: 0 <= i < |cs| ==> cs[i].received <= cs[i].Size()
  }

  lemma {:induction false} TiledOrder(cs: seq<Chunk>, size: nat, i: nat, j: nat)
    requires Tiled(cs, size) && i < j < |cs|
    ensures cs[i].end < cs[j].start
    decreases j - i
  {
    if i + 1 < j {
      TiledOrder(cs, size, i + 1, j);
    }
  }

  /** Every offset of the file lies in exactly one chunk. */
  lemma {:induction false} TiledFind(cs: seq<Chunk>, size: nat, at: nat) returns (i: nat)
    requires Tiled(cs, size) && at < size
    ensures i < |cs| && cs[i].start <= at <= cs[i].end
    ensures forall k :: 0 <= k < |cs| && cs[k].start <= at <= cs[k].end ==> k == i
  {
    i := 0;
    while cs[i].end < at
      invariant i < |cs| && cs[i].start <= at
      decreases |cs| - i
    {
      i := i + 1;
    }
    forall k | 0 <= k < |cs| && cs[k].start <= at <= cs[k].end
      ensures k == i
    {
      if k < i { TiledOrder(cs, size, k, i); }
      if i < k { TiledOrder(cs, size, i, k); }
    }
  }

  // ---------------------------------------------------------------------------
  // Cutting a file: the manager picks a count, the constructor cuts.

  const MIN_CHUNK_SIZE: nat := 1048576
  const MAX_CHUNK_SIZE: nat := 10485760
  const PER_JOB_CONNECTION_CAP: int := 8
  const PER_CONNECTION_TARGET: nat := 1048576

  function ComputeMaxConnections(supportsRange: bool, speedLimit: nat, capacity: int): (r: int)
    ensures 1 <= r <= PER_JOB_CONNECTION_CAP
    ensures capacity >= 1 ==> r <= capacity
    ensures !supportsRange ==> r == 1
  {
    if !supportsRange || capacity <= 1 then 1
    else
      var cap := Max(1, Min(capacity, PER_JOB_CONNECTION_CAP));
      if speedLimit == 0 then cap
      else Clamp(CeilDiv(speedLimit, PER_CONNECTION_TARGET) + 1, 1, cap)
  }

  /** Under a speed limit the bound is the capacity cap, or one more than the fewest
      connections that sustain the limit at a MiB per second each. */
  lemma MaxConnectionsSuffice(speedLimit: nat, capacity: int)
    requires capacity > 1 && speedLimit > 0
    ensures var r := ComputeMaxConnections(true, speedLimit, capacity);
            || r == Min(capacity, PER_JOB_CONNECTION_CAP)
            || (r - 2) * PER_CONNECTION_TARGET < speedLimit <= (r - 1) * PER_CONNECTION_TARGET
  {
    CeilDivBounds(speedLimit, PER_CONNECTION_TARGET);
  }

  /** The bound in numbers. */
  lemma MaxConnectionsExactly(supportsRange: bool, speedLimit: nat, capacity: int)
    ensures ComputeMaxConnections(supportsRange, speedLimit, capacity)
              == if !supportsRange || capacity <= 1 then 1
                 else if speedLimit == 0 then Min(capacity, 8)
                 else Min(Min(capacity, 8), (speedLimit + 1048575) / 1048576 + 1)
  {
  }

  /** The chunk size the manager aims at for a ranged file. */
  function TargetChunkSize(fileSize: nat, maxConnections: nat): (a: nat)
    requires maxConnections > 0
    ensures MIN_CHUNK_SIZE <= a <= MAX_CHUNK_SIZE
  {
    Max(MIN_CHUNK_SIZE, Min(MAX_CHUNK_SIZE, fileSize / (maxConnections * 4)))
  }

  function ChunkCount(supportsRange: bool, fileSize: nat, maxConnections: nat): nat
    requires maxConnections > 0
  {
    if supportsRange && fileSize > 0
    then CeilDiv(fileSize, TargetChunkSize(fileSize, maxConnections))
    else 1
  }

  /** A middle-sized ranged file gets four chunks for each connection, or one more
      because of rounding. */
  lemma FourPerConnection(fileSize: nat, maxConnections: nat)
    requires 0 < maxConnections <= 8
    requires 4 * maxConnections * 1048576 <= fileSize <= 4 * maxConnections * 10485760
    ensures 4 * maxConnections <= ChunkCount(true, fileSize, maxConnections) <= 4 * maxConnections + 1
  {
    var m := 4 * maxConnections;
    var a := fileSize / m;
    Quotient(fileSize, m);
    MiddleQuotient(fileSize, m);
    assert TargetChunkSize(fileSize, maxConnections) == a;
    RoundedUp(fileSize, m, a);
  }

  lemma MiddleQuotient(x: nat, m: nat)
    requires 0 < m && m * 1048576 <= x <= m * 10485760
    ensures 1048576 <= x / m <= 10485760
  {
  }

  lemma RoundedUp(x: nat, m: nat, a: nat)
    requires 0 < m <= a && m * a <= x < m * a + m
    ensures m <= CeilDiv(x, a) <= m + 1
  {
    var n := CeilDiv(x, a);
    CeilDivBounds(x, a);
    assert (m - 1) * a == m * a - a;
    assert (m + 1) * a == m * a + a;
    if n < m { MulMonotone(n, m - 1, a); }
    if n > m + 1 { MulMonotone(m + 1, n - 1, a); }
  }

  lemma Quotient(x: nat, m: nat)
    requires m > 0
    ensures m * (x / m) <= x < m * (x / m) + m
  {
  }

  /** A smaller file gets chunks of 1 MiB, a larger one chunks of 10 MiB, up to
      rounding. */
  lemma SmallAndLargeFiles(fileSize: nat, maxConnections: nat)
    requires 0 < maxConnections && fileSize > 0
    ensures fileSize < 4 * maxConnections * 1048576 ==>
              ChunkCount(true, fileSize, maxConnections) == (fileSize + 1048575) / 1048576
    ensures fileSize >= 4 * maxConnections * 10485760 ==>
              ChunkCount(true, fileSize, maxConnections) == (fileSize + 10485759) / 10485760
    ensures ChunkCount(false, fileSize, maxConnections) == 1
  {
    var m := 4 * maxConnections;
    var a := fileSize / m;
    Quotient(fileSize, m);
    if a > 1048576 { MulMonotone(1048576, a, m); }
    if a < 10485760 { MulMonotone(a, 10485759, m); }
  }

  /** The i-th chunk the constructor lays out for `n` chunks. */
  function CutChunk(fileSize: nat, n: nat, i: nat): Chunk
    requires i < n
  {
    var size := CeilDiv(fileSize, n);
    Chunk(i * size, if i == n - 1 then fileSize - 1 else i * size + size - 1, 0)
  }

  function Partition(fileSize: nat, n: nat): (cs: seq<Chunk>)
    requires n > 0
    ensures |cs| == n
  {
    seq(n, i requires 0 <= i < n => CutChunk(fileSize, n, i))
  }

  /** The layout is a gap-free cover by non-empty chunks exactly when the last
      chunk starts inside the file. */
  lemma PartitionTilesExactly(fileSize: nat, n: nat)
    requires fileSize > 0 && n > 0
    ensures Tiled(Partition(fileSize, n), fileSize) <==> (n - 1) * CeilDiv(fileSize, n) < fileSize
  {
    var size := CeilDiv(fileSize, n);
    var cs := Partition(fileSize, n);
    CeilDivBounds(fileSize, n);
    assert size >= 1;
    assert cs[n - 1].start == (n - 1) * size;
    if (n - 1) * size < fileSize {
      forall i | 0 <= i < n
        ensures cs[i].start <= cs[i].end < fileSize
      {
        if i < n - 1 {
          assert (i + 1) * size <= (n - 1) * size;
          assert (i + 1) * size == i * size + size;
        }
      }
      forall i, j | 0 <= i && j == i + 1 && j < n
        ensures cs[j].start == cs[i].end + 1
      {
        assert (i + 1) * size == i * size + size;
      }
    }
  }

  /** Rounding the count up keeps the chunks within the target size and the last
      chunk inside the file. */
  lemma CountFits(fileSize: nat, a: nat)
    requires fileSize > 0 && a > 0
    ensures var n := CeilDiv(fileSize, a);
            n > 0 && CeilDiv(fileSize, n) <= a && (n - 1) * CeilDiv(fileSize, n) < fileSize
  {
    var n := CeilDiv(fileSize, a);
    CeilDivBounds(fileSize, a);
    var size := CeilDiv(fileSize, n);
    CeilDivBounds(fileSize, n);
    if size > a {
      MulMonotone(a, size - 1, n);
    }
    MulMonotone(size, a, n - 1);
  }

  lemma MulMonotone(x: int, y: int, k: nat)
    requires x <= y
    ensures x * k <= y * k && k * x <= k * y
  {
  }

  lemma ChunkSizes(fileSize: nat, n: nat, i: nat)
    requires fileSize > 0 && i < n
    ensures CutChunk(fileSize, n, i).Size() <= CeilDiv(fileSize, n)
  {
    var size := CeilDiv(fileSize, n);
    CeilDivBounds(fileSize, n);
    assert n * size == (n - 1) * size + size;
  }

  /** With the manager's count the cover always holds, and for a ranged file no
      chunk exceeds the target size. */
  lemma ManagerPartitionTiles(supportsRange: bool, fileSize: nat, maxConnections: nat)
    requires fileSize > 0 && maxConnections > 0
    ensures var n := ChunkCount(supportsRange, fileSize, maxConnections);
            && n > 0
            && Tiled(Partition(fileSize, n), fileSize)
            && (supportsRange ==> forall i :: 0 <= i < n ==>
                  Partition(fileSize, n)[i].Size() <= TargetChunkSize(fileSize, maxConnections))
  {
    var n := ChunkCount(supportsRange, fileSize, maxConnections);
    if supportsRange {
      CountFits(fileSize, TargetChunkSize(fileSize, maxConnections));
      forall i | 0 <= i < n
        ensures Partition(fileSize, n)[i].Size() <= TargetChunkSize(fileSize, maxConnections)
      {
        ChunkSizes(fileSize, n, i);
      }
    }
    PartitionTilesExactly(fileSize, n);
  }

  // ---------------------------------------------------------------------------
  // Rebuilding the pending work.

  /** Work items for the unfinished ones among the first `i` chunks. */
  function BuildUpTo(cs: seq<Chunk>, i: nat): (items: seq<WorkItem>)
    requires i <= |cs|
    ensures |items| <= i
    ensures forall k :: 0 <= k < |items| ==> items[k].chunk < i && items[k].id == k
  {
    if i == 0 then []
    else
      var items := BuildUpTo(cs, i - 1);
      if cs[i - 1].Finished() then items
      else items + [WorkItem(|items|, i - 1, cs[i - 1].Pos(), cs[i - 1].end)]
  }

  function Build(cs: seq<Chunk>): seq<WorkItem> { BuildUpTo(cs, |cs|) }

  /** Number of finished chunks among the first `i`. */
  function FinishedUpTo(cs: seq<Chunk>, i: nat): (n: nat)
    requires i <= |cs|
    ensures n <= i
  {
    if i == 0 then 0
    else FinishedUpTo(cs, i - 1) + if cs[i - 1].Finished() then 1 else 0
  }

  function FinishedCount(cs: seq<Chunk>): nat { FinishedUpTo(cs, |cs|) }

  function ReceivedUpTo(cs: seq<Chunk>, i: nat): nat
    requires i <= |cs|
  {
    if i == 0 then 0 else ReceivedUpTo(cs, i - 1) + cs[i - 1].received
  }

  function ReceivedSum(cs: seq<Chunk>): nat { ReceivedUpTo(cs, |cs|) }

  /** Each item of a rebuild is the unreceived tail of an unfinished chunk, in
      chunk order, and their number is the number of unfinished chunks. */
  lemma {:induction false} BuildShape(cs: seq<Chunk>, i: nat)
    requires i <= |cs|
    ensures |BuildUpTo(cs, i)| + FinishedUpTo(cs, i) == i
    ensures forall k :: 0 <= k < |BuildUpTo(cs, i)| ==> TailOf(cs, BuildUpTo(cs, i)[k])
    ensures forall k, l :: 0 <= k < l < |BuildUpTo(cs, i)| ==> BuildUpTo(cs, i)[k].chunk < BuildUpTo(cs, i)[l].chunk
  {
    if i > 0 {
      BuildShape(cs, i - 1);
    }
  }

  ghost predicate TailOf(cs: seq<Chunk>, item: WorkItem)
  {
    && item.chunk < |cs|
    && !cs[item.chunk].Finished()
    && item.rangeStart == cs[item.chunk].Pos()
    && item.rangeEnd == cs[item.chunk].end
  }

  /** Every unfinished chunk gets an item. */
  lemma {:induction false} BuildCovers(cs: seq<Chunk>, i: nat, c: nat)
    requires c < i <= |cs| && !cs[c].Finished()
    ensures HasItem(BuildUpTo(cs, i), c)
  {
    var items := BuildUpTo(cs, i);
    if c < i - 1 {
      BuildCovers(cs, i - 1, c);
      var before := BuildUpTo(cs, i - 1);
      var k :| 0 <= k < |before| && before[k].chunk == c;
      assert items[k].chunk == c;
    } else {
      assert items[|items| - 1].chunk == c;
    }
  }

  ghost predicate HasItem(items: seq<WorkItem>, c: int)
  {
    exists k :: 0 <= k < |items| && items[k].chunk == c
  }

  lemma {:induction false} FinishedUpdate(cs: seq<Chunk>, c: nat, x: Chunk, i: nat)
    requires c < |cs| && i <= |cs|
    ensures FinishedUpTo(cs[c := x], i) == FinishedUpTo(cs, i)
              + (if c < i && x.Finished() then 1 else 0) - (if c < i && cs[c].Finished() then 1 else 0)
    ensures ReceivedUpTo(cs[c := x], i) == ReceivedUpTo(cs, i) + (if c < i then x.received - cs[c].received else 0)
  {
    if i > 0 { FinishedUpdate(cs, c, x, i - 1); }
  }

  lemma {:induction false} AllFinished(cs: seq<Chunk>, i: nat)
    requires i <= |cs|
    ensures FinishedUpTo(cs, i) == i <==> forall k :: 0 <= k < i ==> cs[k].Finished()
  {
    if i > 0 { AllFinished(cs, i - 1); }
  }

  function ItemBytes(items: seq<WorkItem>): int
  {
    if items == [] then 0
    else var last := items[|items| - 1];
         ItemBytes(items[..|items| - 1]) + last.rangeEnd - last.rangeStart + 1
  }

  /** Offset `at` lies in the received prefix of some chunk. */
  ghost predicate InPrefix(cs: seq<Chunk>, at: int)
  {
    exists i :: 0 <= i < |cs| && cs[i].start <= at < cs[i].Pos()
  }

  /** Offset `at` lies in the range of some work item. */
  ghost predicate InItem(items: seq<WorkItem>, at: int)
  {
    exists k :: 0 <= k < |items| && items[k].rangeStart <= at <= items[k].rangeEnd
  }

  lemma ItemBytesAppend(items: seq<WorkItem>, item: WorkItem)
    ensures ItemBytes(items + [item]) == ItemBytes(items) + item.rangeEnd - item.rangeStart + 1
  {
    var all := items + [item];
    assert all[..|all| - 1] == items;
  }

  /** Where the first `i` chunks of a tiling end. */
  function EndOf(cs: seq<Chunk>, i: nat): int
    requires i <= |cs|
  {
    if i == 0 then 0 else cs[i - 1].end + 1
  }

  /** A chunk begins where the one before ends and has not received too much. */
  ghost predicate InLine(cs: seq<Chunk>, k: nat)
  {
    k < |cs| && cs[k].start == EndOf(cs, k) && cs[k].received <= cs[k].Size()
  }

  lemma TiledInLine(cs: seq<Chunk>, size: nat, k: nat)
    requires Tiled(cs, size) && Fits(cs) && k < |cs|
    ensures InLine(cs, k)
  {
    if k > 0 { assert cs[k].start == cs[k - 1].end + 1; }
  }

  lemma {:induction false} BuildBytes(cs: seq<Chunk>, i: nat)
    requires i <= |cs| && forall k :: 0 <= k < i ==> InLine(cs, k)
    ensures ItemBytes(BuildUpTo(cs, i)) + ReceivedUpTo(cs, i) == EndOf(cs, i)
  {
    if i > 0 {
      BuildBytes(cs, i - 1);
      assert InLine(cs, i - 1);
      var before := BuildUpTo(cs, i - 1);
      ItemBytesAppend(before, WorkItem(|before|, i - 1, cs[i - 1].Pos(), cs[i - 1].end));
    }
  }

  /** An offset of chunk `i` is in a received prefix or in a rebuilt item,
      never both. */
  lemma RebuildCovers(cs: seq<Chunk>, size: nat, at: nat)
    requires Tiled(cs, size) && Fits(cs) && at < size
    ensures InPrefix(cs, at) <==> !InItem(Build(cs), at)
  {
    var items := Build(cs);
    var i := TiledFind(cs, size, at);
    BuildShape(cs, |cs|);
    assert forall k :: 0 <= k < |items| ==> TailOf(cs, items[k]);
    if at >= cs[i].Pos() {
      BuildCovers(cs, |cs|, i);
      var k :| 0 <= k < |items| && items[k].chunk == i;
      assert items[k].rangeStart <= at <= items[k].rangeEnd;
    }
  }

  lemma RebuildOrder(cs: seq<Chunk>, size: nat, k: nat, l: nat)
    requires Tiled(cs, size) && Fits(cs)
    requires k < l < |Build(cs)|
    ensures Build(cs)[k].rangeEnd < Build(cs)[l].rangeStart
  {
    BuildShape(cs, |cs|);
    assert TailOf(cs, Build(cs)[k]) && TailOf(cs, Build(cs)[l]);
    TiledOrder(cs, size, Build(cs)[k].chunk, Build(cs)[l].chunk);
  }

  /** After a rebuild the received prefixes and the work items tile [0, size):
      each offset is in exactly one of them, items do not overlap, and the bytes
      add up to the file size. */
  lemma RebuildTiles(cs: seq<Chunk>, size: nat)
    requires Tiled(cs, size) && Fits(cs)
    ensures ItemBytes(Build(cs)) + ReceivedSum(cs) == size
    ensures forall at :: 0 <= at < size ==> (InPrefix(cs, at) <==> !InItem(Build(cs), at))
    ensures forall k, l :: 0 <= k < l < |Build(cs)| ==> Build(cs)[k].rangeEnd < Build(cs)[l].rangeStart
  {
    forall k | 0 <= k < |cs|
      ensures InLine(cs, k)
    {
      TiledInLine(cs, size, k);
    }
    BuildBytes(cs, |cs|);
    forall at | 0 <= at < size
      ensures InPrefix(cs, at) <==> !InItem(Build(cs), at)
    {
      RebuildCovers(cs, size, at);
    }
    forall k, l | 0 <= k < l < |Build(cs)|
      ensures Build(cs)[k].rangeEnd < Build(cs)[l].rangeStart
    {
      RebuildOrder(cs, size, k, l);
    }
  }
}
