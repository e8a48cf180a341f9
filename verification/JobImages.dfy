/** The job image: its byte layout (version 2), the reader with its older
    layout, and the in-place update through an offset index. */
module JobImages {
  import opened Basics

  type Text = seq<byte>

  const TWO32: int := 0x1_0000_0000
  const TWO64: int := 0x1_0000_0000_0000_0000

  type u64 = n: int | 0 <= n < TWO64
  type i32 = n: int | -0x8000_0000 <= n < 0x8000_0000

  const VERSION: nat := 2

  datatype ChunkState = ChunkState(start: u64, end: u64, downloaded: u64)

  datatype JobImage = JobImage(
    filePath: Text,
    fileSize: u64,
    maxConnections: i32,
    ranged: bool,
    url: Text,
    etag: Text,
    lastModified: Text,
    createdAt: u64,
    updatedAt: u64,
    chunks: seq<ChunkState>)

  /** File offsets of the fields that may be rewritten in place. */
  datatype Index = Index(updatedAt: nat, filePath: nat, url: nat, etag: nat, lastModified: nat, chunks: nat,
                         chunkCount: nat)

  /** Sizes that a size_t holds. */
  predicate Storable(img: JobImage)
  {
    && |img.filePath| < TWO64 && |img.url| < TWO64 && |img.etag| < TWO64 && |img.lastModified| < TWO64
    && |img.chunks| < TWO64
  }

  // ---------------------------------------------------------------------------
  // Little-endian numbers.

  function LE(n: nat, width: nat): (bs: seq<byte>)
    ensures |bs| == width
  {
    if width == 0 then [] else [(n % 256) as char] + LE(n / 256, width - 1)
  }

  function Decode(bs: seq<byte>): nat
  {
    if bs == [] then 0 else bs[0] as int + 256 * Decode(bs[1..])
  }

  function Pow256(width: nat): (p: nat)
    ensures p > 0
  {
    if width == 0 then 1 else 256 * Pow256(width - 1)
  }

  lemma PowValues()
    ensures Pow256(4) == TWO32 && Pow256(8) == TWO64
  {
    assert Pow256(1) == 256 && Pow256(2) == 65536 && Pow256(3) == 16777216;
    assert Pow256(4) == TWO32;
    assert Pow256(5) == 256 * TWO32 && Pow256(6) == 65536 * TWO32 && Pow256(7) == 16777216 * TWO32;
  }

  lemma {:induction false} DecodeLE(n: nat, width: nat)
    requires n < Pow256(width)
    ensures Decode(LE(n, width)) == n
  {
    if width > 0 {
      DecodeLE(n / 256, width - 1);
      assert LE(n, width)[1..] == LE(n / 256, width - 1);
    }
  }

  lemma {:induction false} DecodeBound(bs: seq<byte>)
    ensures Decode(bs) < Pow256(|bs|)
  {
    if bs != [] { DecodeBound(bs[1..]); }
  }

  // ---------------------------------------------------------------------------
  // Encoding.

  function EncU64(n: u64): seq<byte> { LE(n, 8) }

  /** Two's complement in four bytes. */
  function EncI32(n: i32): seq<byte> { LE(if n < 0 then n + TWO32 else n, 4) }

  function EncBool(b: bool): seq<byte> { [if b then 1 as char else 0 as char] }

  function EncText(t: Text): seq<byte>
    requires |t| < TWO64
  {
    EncU64(|t|) + t
  }

  function EncChunk(c: ChunkState): seq<byte> { EncU64(c.start) + EncU64(c.end) + EncU64(c.downloaded) }

  function EncChunks(cs: seq<ChunkState>): (bs: seq<byte>)
    ensures |bs| == 24 * |cs|
  {
    if cs == [] then [] else EncChunk(cs[0]) + EncChunks(cs[1..])
  }

  function EncChunkList(cs: seq<ChunkState>): seq<byte>
    requires |cs| < TWO64
  {
    EncU64(|cs|) + EncChunks(cs)
  }

  /** The fixed part up to the update time. */
  function EncFixed(img: JobImage): seq<byte>
  {
    LE(VERSION, 4) + EncU64(img.fileSize) + EncI32(img.maxConnections) + EncBool(img.ranged) + EncU64(img.createdAt)
  }

  function EncTexts(img: JobImage): seq<byte>
    requires Storable(img)
  {
    EncText(img.filePath) + (EncText(img.url) + (EncText(img.etag) + EncText(img.lastModified)))
  }

  function Serialize(img: JobImage): seq<byte>
    requires Storable(img)
  {
    EncFixed(img) + EncU64(img.updatedAt) + EncTexts(img) + EncChunkList(img.chunks)
  }

  /** Offsets for texts that begin at `filePath`. */
  function IndexFrom(filePath: nat, img: JobImage): Index
  {
    var url := filePath + 8 + |img.filePath|;
    var etag := url + 8 + |img.url|;
    var lastModified := etag + 8 + |img.etag|;
    Index(25, filePath, url, etag, lastModified, lastModified + 8 + |img.lastModified|, |img.chunks|)
  }

  function IndexOf(img: JobImage): Index { IndexFrom(33, img) }

  // ---------------------------------------------------------------------------
  // Decoding: each reader returns the value and what follows it.

  function DecU64(bs: seq<byte>): (r: Option<(u64, seq<byte>)>)
    ensures r.Some? <==> |bs| >= 8
    ensures r.Some? ==> r.value.1 == bs[8..]
  {
    if |bs| < 8 then None
    else
      DecodeBound(bs[..8]);
      PowValues();
      Some((Decode(bs[..8]), bs[8..]))
  }

  function SignedOf(n: nat): i32
    requires n < TWO32
  {
    if n >= 0x8000_0000 then n - TWO32 else n
  }

  function DecI32(bs: seq<byte>): (r: Option<(i32, seq<byte>)>)
    ensures r.Some? <==> |bs| >= 4
    ensures r.Some? ==> r.value.1 == bs[4..]
  {
    if |bs| < 4 then None
    else
      DecodeBound(bs[..4]);
      PowValues();
      Some((SignedOf(Decode(bs[..4])), bs[4..]))
  }

  function DecBool(bs: seq<byte>): (r: Option<(bool, seq<byte>)>)
    ensures r.Some? <==> |bs| >= 1
    ensures r.Some? ==> r.value.1 == bs[1..]
  {
    if |bs| < 1 then None else Some((bs[0] as int != 0, bs[1..]))
  }

  function DecText(bs: seq<byte>): (r: Option<(Text, seq<byte>)>)
    ensures r.Some? ==> |bs| == 8 + |r.value.0| + |r.value.1| && r.value.1 == bs[8 + |r.value.0|..]
  {
    var (size, rest) :- DecU64(bs);
    if |rest| < size then None else Some((rest[..size], rest[size..]))
  }

  function DecChunk(bs: seq<byte>): ChunkState
    requires |bs| >= 24
  {
    ChunkState(DecU64(bs).value.0, DecU64(bs[8..]).value.0, DecU64(bs[16..]).value.0)
  }

  /** `count` chunk records, if they are all there. */
  function DecChunks(bs: seq<byte>, count: nat): seq<ChunkState>
    requires |bs| >= 24 * count
  {
    if count == 0 then [] else [DecChunk(bs)] + DecChunks(bs[24..], count - 1)
  }

  function DecChunkList(bs: seq<byte>): Option<(seq<ChunkState>, seq<byte>)>
  {
    var (count, rest) :- DecU64(bs);
    if |rest| < 24 * count then None else Some((DecChunks(rest, count), rest[24 * count..]))
  }

  /** The layout from before the version field: path, url and chunks only. */
  function DecLegacy(bs: seq<byte>): Option<(JobImage, Index)>
  {
    var (filePath, r1) :- DecText(bs);
    var (url, r2) :- DecText(r1);
    var (chunks, r3) :- DecChunkList(r2);
    Some((JobImage(filePath, 0, 0, false, url, [], [], 0, 0, chunks), Index(0, 0, 0, 0, 0, 0, 0)))
  }

  /** The fields after the update time. */
  datatype Tail = Tail(filePath: Text, url: Text, etag: Text, lastModified: Text, chunks: seq<ChunkState>)

  function DecTail(bs: seq<byte>): Option<Tail>
  {
    var (filePath, r1) :- DecText(bs);
    var (url, r2) :- DecText(r1);
    var (etag, r3) :- DecText(r2);
    var (lastModified, r4) :- DecText(r3);
    var (chunks, r5) :- DecChunkList(r4);
    Some(Tail(filePath, url, etag, lastModified, chunks))
  }

  /** The fields up to the update time. */
  datatype Head = Head(fileSize: u64, maxConnections: i32, ranged: bool, createdAt: u64, updatedAt: u64)

  /** The head, from what follows the version field. */
  function DecHead(bs: seq<byte>): Option<(Head, seq<byte>)>
  {
    var (fileSize, r1) :- DecU64(bs);
    var (maxConnections, r2) :- DecI32(r1);
    var (ranged, r3) :- DecBool(r2);
    var (createdAt, r4) :- DecU64(r3);
    var (updatedAt, r5) :- DecU64(r4);
    Some((Head(fileSize, maxConnections, ranged, createdAt, updatedAt), r5))
  }

  function Assemble(h: Head, t: Tail): JobImage
  {
    JobImage(t.filePath, h.fileSize, h.maxConnections, h.ranged, t.url, t.etag, t.lastModified,
             h.createdAt, h.updatedAt, t.chunks)
  }

  /** ReadImageFromDisk on the bytes of the file: the image and where its
      fields are. */
  function Deserialize(bs: seq<byte>): Option<(JobImage, Index)>
  {
    if |bs| < 4 then None
    else if Decode(bs[..4]) != VERSION then DecLegacy(bs)
    else
      var (head, rest) :- DecHead(bs[4..]);
      var tail :- DecTail(rest);
      var img := Assemble(head, tail);
      Some((img, IndexOf(img)))
  }

  // ---------------------------------------------------------------------------
  // Each reader undoes its writer.

  lemma U64Back(n: u64, rest: seq<byte>)
    ensures DecU64(EncU64(n) + rest) == Some((n, rest))
  {
    PowValues();
    DecodeLE(n, 8);
    assert (EncU64(n) + rest)[..8] == EncU64(n);
  }

  lemma I32Back(n: i32, rest: seq<byte>)
    ensures DecI32(EncI32(n) + rest) == Some((n, rest))
  {
    PowValues();
    DecodeLE(if n < 0 then n + TWO32 else n, 4);
    assert (EncI32(n) + rest)[..4] == EncI32(n);
  }

  lemma TextBack(t: Text, rest: seq<byte>)
    requires |t| < TWO64
    ensures DecText(EncText(t) + rest) == Some((t, rest))
  {
    U64Back(|t|, t + rest);
    assert EncText(t) + rest == EncU64(|t|) + (t + rest);
  }

  lemma ChunkBack(c: ChunkState, rest: seq<byte>)
    ensures DecChunk(EncChunk(c) + rest) == c
  {
    var bs := EncChunk(c) + rest;
    assert bs == EncU64(c.start) + (EncU64(c.end) + (EncU64(c.downloaded) + rest));
    U64Back(c.start, EncU64(c.end) + (EncU64(c.downloaded) + rest));
    U64Back(c.end, EncU64(c.downloaded) + rest);
    U64Back(c.downloaded, rest);
    assert bs[8..] == EncU64(c.end) + (EncU64(c.downloaded) + rest);
    assert bs[16..] == EncU64(c.downloaded) + rest;
  }

  lemma {:induction false} ChunksBack(cs: seq<ChunkState>, rest: seq<byte>)
    ensures DecChunks(EncChunks(cs) + rest, |cs|) == cs
  {
    if cs != [] {
      var more := EncChunks(cs[1..]) + rest;
      assert EncChunks(cs) + rest == EncChunk(cs[0]) + more;
      ChunkBack(cs[0], more);
      assert (EncChunk(cs[0]) + more)[24..] == more;
      ChunksBack(cs[1..], rest);
    }
  }

  lemma ChunkListBack(cs: seq<ChunkState>, rest: seq<byte>)
    requires |cs| < TWO64
    ensures DecChunkList(EncChunkList(cs) + rest) == Some((cs, rest))
  {
    U64Back(|cs|, EncChunks(cs) + rest);
    assert EncChunkList(cs) + rest == EncU64(|cs|) + (EncChunks(cs) + rest);
    ChunksBack(cs, rest);
    assert (EncChunks(cs) + rest)[24 * |cs|..] == rest;
  }

  /** What follows the update time. */
  function EncTail(img: JobImage): seq<byte>
    requires Storable(img)
  {
    EncText(img.filePath)
    + (EncText(img.url) + (EncText(img.etag) + (EncText(img.lastModified) + EncChunkList(img.chunks))))
  }

  lemma SerializeParts(img: JobImage)
    requires Storable(img)
    ensures Serialize(img) == EncFixed(img) + (EncU64(img.updatedAt) + EncTail(img))
    ensures |EncFixed(img)| == 25
    ensures |EncTail(img)| == 40 + |img.filePath| + |img.url| + |img.etag| + |img.lastModified| + 24 * |img.chunks|
  {
    assert EncTexts(img) + EncChunkList(img.chunks) == EncTail(img);
    assert Serialize(img) == EncFixed(img) + (EncU64(img.updatedAt) + (EncTexts(img) + EncChunkList(img.chunks)));
  }

  function HeadOf(img: JobImage): Head
  {
    Head(img.fileSize, img.maxConnections, img.ranged, img.createdAt, img.updatedAt)
  }

  function TailFields(img: JobImage): Tail { Tail(img.filePath, img.url, img.etag, img.lastModified, img.chunks) }

  lemma BoolBack(b: bool, rest: seq<byte>)
    ensures DecBool(EncBool(b) + rest) == Some((b, rest))
  {
    assert (EncBool(b) + rest)[1..] == rest;
  }

  lemma VersionBack(rest: seq<byte>, bs: seq<byte>)
    requires bs == LE(VERSION, 4) + rest
    ensures |bs| == 4 + |rest| && Decode(bs[..4]) == VERSION && bs[4..] == rest
  {
    PowValues();
    DecodeLE(VERSION, 4);
    assert bs[..4] == LE(VERSION, 4);
  }

  lemma FieldsBack(h: Head, rest: seq<byte>)
    ensures DecHead(EncU64(h.fileSize) + (EncI32(h.maxConnections) + (EncBool(h.ranged) +
                      (EncU64(h.createdAt) + (EncU64(h.updatedAt) + rest))))) == Some((h, rest))
  {
    var r4 := EncU64(h.updatedAt) + rest;
    var r3 := EncU64(h.createdAt) + r4;
    var r2 := EncBool(h.ranged) + r3;
    var r1 := EncI32(h.maxConnections) + r2;
    U64Back(h.fileSize, r1);
    I32Back(h.maxConnections, r2);
    BoolBack(h.ranged, r3);
    U64Back(h.createdAt, r4);
    U64Back(h.updatedAt, rest);
  }

  /** A written head, followed by anything, is read back. */
  lemma HeadBack(img: JobImage, rest: seq<byte>, bs: seq<byte>)
    requires bs == EncFixed(img) + (EncU64(img.updatedAt) + rest)
    ensures |bs| == 33 + |rest| && Decode(bs[..4]) == VERSION
    ensures DecHead(bs[4..]) == Some((HeadOf(img), rest))
  {
    var r0 := EncU64(img.fileSize) + (EncI32(img.maxConnections) + (EncBool(img.ranged) +
                (EncU64(img.createdAt) + (EncU64(img.updatedAt) + rest))));
    assert bs == LE(VERSION, 4) + r0;
    VersionBack(r0, bs);
    FieldsBack(HeadOf(img), rest);
  }

  lemma TailBack(img: JobImage)
    requires Storable(img)
    ensures DecTail(EncTail(img)) == Some(TailFields(img))
  {
    var r4 := EncChunkList(img.chunks);
    var r3 := EncText(img.lastModified) + r4;
    var r2 := EncText(img.etag) + r3;
    var r1 := EncText(img.url) + r2;
    TextBack(img.filePath, r1);
    TextBack(img.url, r2);
    TextBack(img.etag, r3);
    TextBack(img.lastModified, r4);
    ChunkListBack(img.chunks, []);
    assert r4 + [] == r4;
  }

  /** A written image is a head and a tail that reads back. */
  lemma ReadableTail(img: JobImage) returns (tail: seq<byte>)
    requires Storable(img)
    ensures Serialize(img) == EncFixed(img) + (EncU64(img.updatedAt) + tail)
    ensures DecTail(tail) == Some(TailFields(img))
  {
    tail := EncTail(img);
    SerializeParts(img);
    TailBack(img);
  }

  /** Reading a written image gives the image and the writer's index. */
  lemma RoundTrip(img: JobImage)
    requires Storable(img)
    ensures Deserialize(Serialize(img)) == Some((img, IndexOf(img)))
  {
    var tail := ReadableTail(img);
    HeadBack(img, tail, Serialize(img));
  }

  /** Bytes after the image are not looked at. */
  lemma TrailingIgnored(img: JobImage, rest: seq<byte>)
    requires Storable(img)
    ensures Deserialize(Serialize(img) + rest) == Some((img, IndexOf(img)))
  {
    SerializeParts(img);
    var tail := EncTail(img) + rest;
    TailBackMore(img, rest);
    InFront(EncFixed(img), EncU64(img.updatedAt), EncTail(img), rest);
    HeadBack(img, tail, Serialize(img) + rest);
  }

  lemma InFront(a: seq<byte>, b: seq<byte>, c: seq<byte>, d: seq<byte>)
    ensures a + (b + c) + d == a + (b + (c + d))
  {
  }

  lemma TailBackMore(img: JobImage, rest: seq<byte>)
    requires Storable(img)
    ensures DecTail(EncTail(img) + rest) == Some(TailFields(img))
  {
    var r4 := EncChunkList(img.chunks) + rest;
    var r3 := EncText(img.lastModified) + r4;
    var r2 := EncText(img.etag) + r3;
    var r1 := EncText(img.url) + r2;
    TailGrows([], EncText(img.filePath), EncText(img.url), EncText(img.etag), EncText(img.lastModified), r4);
    TailGrows([], EncText(img.filePath), EncText(img.url), EncText(img.etag), EncText(img.lastModified),
              EncChunkList(img.chunks));
    assert EncTail(img) + rest == EncText(img.filePath) + r1;
    TextBack(img.filePath, r1);
    TextBack(img.url, r2);
    TextBack(img.etag, r3);
    TextBack(img.lastModified, r4);
    ChunkListBack(img.chunks, rest);
  }

  /** A file in the older layout: the path, the URL and the chunks. */
  function SerializeLegacy(filePath: Text, url: Text, chunks: seq<ChunkState>): seq<byte>
    requires |filePath| < TWO64 && |url| < TWO64 && |chunks| < TWO64
  {
    EncText(filePath) + (EncText(url) + EncChunkList(chunks))
  }

  /** It is read as such if and only if the length of its path does not look like the
      version: two, or two more than a multiple of 2^32. */
  lemma LegacyExactly(filePath: Text, url: Text, chunks: seq<ChunkState>)
    requires |filePath| < TWO64 && |url| < TWO64 && |chunks| < TWO64
    ensures Deserialize(SerializeLegacy(filePath, url, chunks))
              == Some((JobImage(filePath, 0, 0, false, url, [], [], 0, 0, chunks), Index(0, 0, 0, 0, 0, 0, 0)))
            <==> |filePath| % 0x1_0000_0000 != 2
  {
    var bs := SerializeLegacy(filePath, url, chunks);
    LegacyVersion(filePath, EncText(url) + EncChunkList(chunks), bs);
    if |filePath| % 0x1_0000_0000 == 2 {
      VersionTwoIndex(bs);
    } else {
      LegacyBack(filePath, url, chunks);
    }
  }

  lemma LegacyVersion(filePath: Text, rest: seq<byte>, bs: seq<byte>)
    requires |filePath| < TWO64 && bs == EncText(filePath) + rest
    ensures |bs| >= 4 && Decode(bs[..4]) == |filePath| % 0x1_0000_0000
  {
    LowBytes(|filePath|, 4, 8);
    assert bs[..4] == EncU64(|filePath|)[..4];
    PowValues();
  }

  lemma VersionTwoIndex(bs: seq<byte>)
    requires |bs| >= 4 && Decode(bs[..4]) == 2
    ensures Deserialize(bs).Some? ==> Deserialize(bs).value.1.updatedAt == 25
  {
  }

  lemma LegacyBack(filePath: Text, url: Text, chunks: seq<ChunkState>)
    requires |filePath| < TWO64 && |url| < TWO64 && |chunks| < TWO64
    ensures DecLegacy(SerializeLegacy(filePath, url, chunks))
              == Some((JobImage(filePath, 0, 0, false, url, [], [], 0, 0, chunks), Index(0, 0, 0, 0, 0, 0, 0)))
  {
    TextBack(filePath, EncText(url) + EncChunkList(chunks));
    TextBack(url, EncChunkList(chunks));
    ChunkListBack(chunks, []);
    assert EncChunkList(chunks) + [] == EncChunkList(chunks);
  }

  /** The first bytes of a number are its low part. */
  lemma {:induction false} LowBytes(n: nat, low: nat, width: nat)
    requires low <= width
    ensures Decode(LE(n, width)[..low]) == n % Pow256(low)
  {
    if low > 0 {
      LowBytes(n / 256, low - 1, width - 1);
      assert LE(n, width)[..low][1..] == LE(n / 256, width - 1)[..low - 1];
      ModSplit(n, Pow256(low - 1));
    }
  }

  lemma ModSplit(n: nat, m: nat)
    requires m > 0
    ensures n % (256 * m) == n % 256 + 256 * (n / 256 % m)
    ensures n / (256 * m) == n / 256 / m
  {
    var q := n / 256 / m;
    var r := n % 256 + 256 * (n / 256 % m);
    assert n / 256 == q * m + n / 256 % m;
    assert n == q * (256 * m) + r;
    Divided(n, 256 * m, q, r);
  }

  lemma Divided(n: nat, m: nat, q: nat, r: nat)
    requires r < m && n == q * m + r
    ensures n / m == q && n % m == r
  {
    var d := q - n / m;
    assert d * m == n % m - r;
    if d >= 1 { Times(1, d, m); }
    if d <= -1 { Times(d, -1, m); }
  }

  lemma Times(x: int, y: int, m: nat)
    requires x <= y
    ensures x * m <= y * m
  {
  }

  /** Numbers are written least byte first. */
  lemma {:induction false} ByteOf(n: nat, width: nat, i: nat)
    requires i < width
    ensures LE(n, width)[i] as int == n / Pow256(i) % 256
  {
    if i > 0 {
      ByteOf(n / 256, width - 1, i - 1);
      ModSplit(n, Pow256(i - 1));
    }
  }

  /** The bytes at `at` are the number `n`. */
  predicate NumberAt(bs: seq<byte>, at: nat, width: nat, n: nat)
  {
    at + width <= |bs| && bs[at..at + width] == LE(n, width)
  }

  /** The bytes at `at` are the text's length and the text. */
  predicate TextAt(bs: seq<byte>, at: nat, t: Text)
  {
    NumberAt(bs, at, 8, |t|) && at + 8 + |t| <= |bs| && bs[at + 8..at + 8 + |t|] == t
  }

  lemma NumberIn(bs: seq<byte>, before: seq<byte>, n: nat, width: nat)
    requires before + LE(n, width) <= bs
    ensures NumberAt(bs, |before|, width, n)
  {
    assert bs[..|before| + width] == before + LE(n, width);
    assert bs[|before|..|before| + width] == bs[..|before| + width][|before|..];
  }

  lemma TextIn(bs: seq<byte>, before: seq<byte>, t: Text)
    requires |t| < TWO64 && before + EncText(t) <= bs
    ensures TextAt(bs, |before|, t)
  {
    var upTo := before + EncText(t);
    assert upTo == before + EncU64(|t|) + t;
    NumberIn(bs, before, |t|, 8);
    assert bs[..|upTo|] == upTo;
    assert bs[|before| + 8..|before| + 8 + |t|] == bs[..|upTo|][|before| + 8..];
  }

  lemma ChunkIn(bs: seq<byte>, before: seq<byte>, c: ChunkState)
    requires before + EncChunk(c) <= bs
    ensures ChunkAt(bs, |before|, c)
  {
    var start, end := before + EncU64(c.start), before + EncU64(c.start) + EncU64(c.end);
    assert before + EncChunk(c) == end + EncU64(c.downloaded);
    NumberIn(bs, before, c.start, 8);
    NumberIn(bs, start, c.end, 8);
    NumberIn(bs, end, c.downloaded, 8);
  }

  lemma {:induction false} ChunksIn(bs: seq<byte>, before: seq<byte>, cs: seq<ChunkState>, i: nat)
    requires before + EncChunks(cs) <= bs && i < |cs|
    ensures ChunkAt(bs, |before| + 24 * i, cs[i])
    decreases |cs|
  {
    var next := before + EncChunk(cs[0]);
    assert before + EncChunks(cs) == next + EncChunks(cs[1..]);
    if i == 0 { ChunkIn(bs, before, cs[0]); } else { ChunksIn(bs, next, cs[1..], i - 1); }
  }

  lemma HeadLayout(img: JobImage, bs: seq<byte>)
    requires EncFixed(img) + EncU64(img.updatedAt) <= bs
    ensures NumberAt(bs, 0, 4, 2) && NumberAt(bs, 4, 8, img.fileSize)
    ensures NumberAt(bs, 12, 4, if img.maxConnections < 0 then img.maxConnections + 0x1_0000_0000
                                else img.maxConnections)
    ensures NumberAt(bs, 16, 1, if img.ranged then 1 else 0)
    ensures NumberAt(bs, 17, 8, img.createdAt) && NumberAt(bs, 25, 8, img.updatedAt)
  {
    var p1 := LE(VERSION, 4);
    var p2 := p1 + EncU64(img.fileSize);
    var p3 := p2 + EncI32(img.maxConnections);
    var p4 := p3 + EncBool(img.ranged);
    var p5 := p4 + EncU64(img.createdAt);
    assert p5 == EncFixed(img);
    assert [] + p1 == p1 <= bs;
    NumberIn(bs, [], VERSION, 4);
    NumberIn(bs, p1, img.fileSize, 8);
    NumberIn(bs, p2, if img.maxConnections < 0 then img.maxConnections + TWO32 else img.maxConnections, 4);
    assert EncBool(img.ranged) == LE(if img.ranged then 1 else 0, 1);
    NumberIn(bs, p3, if img.ranged then 1 else 0, 1);
    NumberIn(bs, p4, img.createdAt, 8);
    NumberIn(bs, p5, img.updatedAt, 8);
  }

  /** Prefixes of a tail, field by field. */
  lemma TailGrows(head: seq<byte>, a: seq<byte>, b: seq<byte>, c: seq<byte>, d: seq<byte>, e: seq<byte>)
    ensures head + (a + (b + (c + (d + e)))) == head + a + b + c + d + e
  {
    assert head + (a + (b + (c + (d + e)))) == (head + a) + (b + (c + (d + e)));
    assert (head + a) + (b + (c + (d + e))) == (head + a + b) + (c + (d + e));
    assert (head + a + b) + (c + (d + e)) == (head + a + b + c) + (d + e);
  }

  lemma TextsLayout(img: JobImage, bs: seq<byte>, head: seq<byte>)
    requires Storable(img) && |head| == 33
    requires head + EncText(img.filePath) + EncText(img.url) + EncText(img.etag) + EncText(img.lastModified) <= bs
    ensures var index := IndexOf(img);
            && TextAt(bs, index.filePath, img.filePath) && TextAt(bs, index.url, img.url)
            && TextAt(bs, index.etag, img.etag) && TextAt(bs, index.lastModified, img.lastModified)
  {
    var p1 := head + EncText(img.filePath);
    var p2 := p1 + EncText(img.url);
    var p3 := p2 + EncText(img.etag);
    TextIn(bs, head, img.filePath);
    TextIn(bs, p1, img.url);
    TextIn(bs, p2, img.etag);
    TextIn(bs, p3, img.lastModified);
  }

  lemma ListLayout(bs: seq<byte>, before: seq<byte>, cs: seq<ChunkState>)
    requires |cs| < TWO64 && bs == before + EncChunkList(cs)
    ensures NumberAt(bs, |before|, 8, |cs|) && |bs| == |before| + 8 + 24 * |cs|
    ensures forall i :: 0 <= i < |cs| ==> ChunkAt(bs, |before| + 8 + 24 * i, cs[i])
  {
    assert bs == before + EncU64(|cs|) + EncChunks(cs);
    NumberIn(bs, before, |cs|, 8);
    forall i | 0 <= i < |cs|
      ensures ChunkAt(bs, |before| + 8 + 24 * i, cs[i])
    {
      ChunksIn(bs, before + EncU64(|cs|), cs, i);
    }
  }

  lemma TailLayout(img: JobImage, bs: seq<byte>, head: seq<byte>) returns (before: seq<byte>)
    requires Storable(img) && |head| == 33 && bs == head + EncTail(img)
    ensures before == head + EncText(img.filePath) + EncText(img.url) + EncText(img.etag) + EncText(img.lastModified)
    ensures bs == before + EncChunkList(img.chunks) && |before| == IndexOf(img).chunks
  {
    before := head + EncText(img.filePath) + EncText(img.url) + EncText(img.etag) + EncText(img.lastModified);
    TailGrows(head, EncText(img.filePath), EncText(img.url), EncText(img.etag), EncText(img.lastModified),
              EncChunkList(img.chunks));
  }

  /** Where everything is in an image file, and that the index says where the fields
      are that a patch may rewrite. */
  lemma Layout(img: JobImage)
    requires Storable(img)
    ensures var bs, index := Serialize(img), IndexOf(img);
            && index.updatedAt == 25 && index.filePath == 33 && index.url == 41 + |img.filePath|
            && index.etag == index.url + 8 + |img.url| && index.lastModified == index.etag + 8 + |img.etag|
            && index.chunks == index.lastModified + 8 + |img.lastModified| && index.chunkCount == |img.chunks|
            && NumberAt(bs, 0, 4, 2) && NumberAt(bs, 4, 8, img.fileSize)
            && NumberAt(bs, 12, 4, if img.maxConnections < 0 then img.maxConnections + 0x1_0000_0000
                                   else img.maxConnections)
            && NumberAt(bs, 16, 1, if img.ranged then 1 else 0)
            && NumberAt(bs, 17, 8, img.createdAt) && NumberAt(bs, 25, 8, img.updatedAt)
            && TextAt(bs, index.filePath, img.filePath) && TextAt(bs, index.url, img.url)
            && TextAt(bs, index.etag, img.etag) && TextAt(bs, index.lastModified, img.lastModified)
            && NumberAt(bs, index.chunks, 8, |img.chunks|) && |bs| == index.chunks + 8 + 24 * |img.chunks|
            && forall i :: 0 <= i < |img.chunks| ==> ChunkAt(bs, index.chunks + 8 + 24 * i, img.chunks[i])
  {
    SerializeParts(img);
    var bs, head := Serialize(img), EncFixed(img) + EncU64(img.updatedAt);
    assert bs == head + EncTail(img);
    HeadLayout(img, bs);
    var before := TailLayout(img, bs, head);
    TextsLayout(img, bs, head);
    ListLayout(bs, before, img.chunks);
  }

  /** The bytes at `at` are the three numbers of a chunk. */
  predicate ChunkAt(bs: seq<byte>, at: nat, c: ChunkState)
  {
    NumberAt(bs, at, 8, c.start) && NumberAt(bs, at + 8, 8, c.end) && NumberAt(bs, at + 16, 8, c.downloaded)
  }

  // ---------------------------------------------------------------------------
  // Truncated images are refused.

  /** Reading a text from a truncated file fails, or reads the text and leaves a
      truncated rest. */
  lemma TextCut(t: Text, tail: seq<byte>, p: seq<byte>)
    requires |t| < TWO64 && p < EncText(t) + tail
    ensures DecText(p).Some? ==> DecText(p).value.0 == t && DecText(p).value.1 < tail
  {
    var full := EncText(t) + tail;
    if |p| >= 8 {
      var rest := p[8..];
      assert p[..8] == EncU64(|t|);
      assert p == EncU64(|t|) + rest;
      U64Back(|t|, rest);
      if |rest| >= |t| {
        assert rest[..|t|] == t;
        var left := rest[|t|..];
        assert left == tail[..|left|];
      }
    }
  }

  lemma ChunkListCut(cs: seq<ChunkState>, p: seq<byte>)
    requires |cs| < TWO64 && p < EncChunkList(cs)
    ensures DecChunkList(p) == None
  {
    if |p| >= 8 {
      assert p[..8] == EncU64(|cs|);
      assert p == EncU64(|cs|) + p[8..];
      U64Back(|cs|, p[8..]);
    }
  }

  lemma TailCut(img: JobImage, p: seq<byte>)
    requires Storable(img) && p < EncTail(img)
    ensures DecTail(p) == None
  {
    var r4 := EncChunkList(img.chunks);
    var r3 := EncText(img.lastModified) + r4;
    var r2 := EncText(img.etag) + r3;
    var r1 := EncText(img.url) + r2;
    TextCut(img.filePath, r1, p);
    if DecText(p).Some? {
      var p1 := DecText(p).value.1;
      TextCut(img.url, r2, p1);
      if DecText(p1).Some? {
        var p2 := DecText(p1).value.1;
        TextCut(img.etag, r3, p2);
        if DecText(p2).Some? {
          var p3 := DecText(p2).value.1;
          TextCut(img.lastModified, r4, p3);
          if DecText(p3).Some? { ChunkListCut(img.chunks, DecText(p3).value.1); }
        }
      }
    }
  }

  lemma HeadLength(bs: seq<byte>)
    requires DecHead(bs).Some?
    ensures |bs| >= 29
  {
  }

  lemma FixedCut(img: JobImage, p: seq<byte>)
    requires |p| < 33 && p <= EncFixed(img) + EncU64(img.updatedAt)
    ensures Deserialize(p) == None
  {
    if |p| >= 4 {
      assert p[..4] == LE(VERSION, 4);
      VersionBack(p[4..], p);
      if DecHead(p[4..]).Some? { HeadLength(p[4..]); }
    }
  }

  /** Every proper prefix of a written image is refused. */
  lemma PrefixRefused(img: JobImage, p: seq<byte>)
    requires Storable(img) && p < Serialize(img)
    ensures Deserialize(p) == None
  {
    SerializeParts(img);
    var head := EncFixed(img) + EncU64(img.updatedAt);
    assert Serialize(img) == head + EncTail(img);
    if |p| < 33 {
      FixedCut(img, p);
    } else {
      var rest := p[33..];
      assert p[..33] == head && rest == EncTail(img)[..|rest|];
      assert p == EncFixed(img) + (EncU64(img.updatedAt) + rest);
      HeadBack(img, rest, p);
      TailCut(img, rest);
    }
  }

  // ---------------------------------------------------------------------------
  // Updating in place.

  /** Writing `data` at `at`; a gap past the end is filled with zeros. */
  function WriteAt(bs: seq<byte>, at: nat, data: seq<byte>): seq<byte>
  {
    var padded := if |bs| < at then bs + seq(at - |bs|, i => 0 as char) else bs;
    padded[..at] + data + if at + |data| < |padded| then padded[at + |data|..] else []
  }

  /** UpdateImageChunksOnDisk: refused when the chunk count changed. */
  function Patch(bs: seq<byte>, index: Index, chunks: seq<ChunkState>, updatedAt: u64): Option<seq<byte>>
    requires |chunks| < TWO64
  {
    if index.chunkCount != |chunks| then None
    else Some(WriteAt(WriteAt(bs, index.updatedAt, EncU64(updatedAt)), index.chunks, EncChunkList(chunks)))
  }

  /** Overwriting one part of a text by a part of the same length. */
  lemma WriteInside(a: seq<byte>, b: seq<byte>, b': seq<byte>, c: seq<byte>)
    requires |b'| == |b|
    ensures WriteAt(a + b + c, |a|, b') == a + b' + c
  {
  }

  /** Overwriting the second and the last of four parts. */
  lemma WriteTwice(a: seq<byte>, b: seq<byte>, b': seq<byte>, c: seq<byte>, d: seq<byte>, d': seq<byte>)
    requires |b'| == |b| && |d'| == |d|
    ensures WriteAt(WriteAt(a + b + c + d, |a|, b'), |a| + |b| + |c|, d') == a + b' + c + d'
  {
    assert a + b + c + d == a + b + (c + d);
    WriteInside(a, b, b', c + d);
    assert a + b' + (c + d) == (a + b' + c) + d + [];
    WriteInside(a + b' + c, d, d', []);
  }

  datatype Update = Update(chunks: seq<ChunkState>, updatedAt: u64)

  /** The image with the new chunks and time. */
  function Updated(img: JobImage, u: Update): JobImage { img.(chunks := u.chunks, updatedAt := u.updatedAt) }

  /** The two images differ at most in what a patch rewrites. */
  predicate SameFields(a: JobImage, b: JobImage)
  {
    && a.filePath == b.filePath && a.fileSize == b.fileSize && a.maxConnections == b.maxConnections
    && a.ranged == b.ranged && a.url == b.url && a.etag == b.etag && a.lastModified == b.lastModified
    && a.createdAt == b.createdAt
  }

  /** A store leaves the current image exactly when it writes in full, or when no
      field but the chunks and the time has changed since the last full write. */
  lemma StoredIsCurrentExactly(patches: bool, was: JobImage, current: JobImage)
    ensures !patches || SameFields(was, current) <==>
            (if patches then Updated(was, Update(current.chunks, current.updatedAt)) else current) == current
  {
  }

  /** Patching a written image through its index is writing the image with the
      new chunks and time; the index stays right. */
  lemma PatchIsRewrite(img: JobImage, chunks: seq<ChunkState>, updatedAt: u64)
    requires Storable(img) && |chunks| == |img.chunks|
    ensures Patch(Serialize(img), IndexOf(img), chunks, updatedAt)
              == Some(Serialize(Updated(img, Update(chunks, updatedAt))))
    ensures IndexOf(Updated(img, Update(chunks, updatedAt))) == IndexOf(img)
  {
    WriteTwice(EncFixed(img), EncU64(img.updatedAt), EncU64(updatedAt), EncTexts(img),
               EncChunkList(img.chunks), EncChunkList(chunks));
  }

  /** A sequence of stores through the same index. */
  function PatchAll(bs: seq<byte>, index: Index, updates: seq<Update>): Option<seq<byte>>
    requires forall i :: 0 <= i < |updates| ==> |updates[i].chunks| < TWO64
    decreases |updates|
  {
    if updates == [] then Some(bs)
    else
      var bs' :- Patch(bs, index, updates[0].chunks, updates[0].updatedAt);
      PatchAll(bs', index, updates[1..])
  }

  lemma {:induction false} PatchAllIsRewrite(img: JobImage, updates: seq<Update>)
    requires Storable(img) && updates != []
    requires forall i :: 0 <= i < |updates| ==> |updates[i].chunks| == |img.chunks|
    ensures PatchAll(Serialize(img), IndexOf(img), updates) == Some(Serialize(Updated(img, updates[|updates| - 1])))
    decreases |updates|
  {
    var first := updates[0];
    var img' := Updated(img, first);
    PatchIsRewrite(img, first.chunks, first.updatedAt);
    if |updates| > 1 {
      PatchAllIsRewrite(img', updates[1..]);
    }
  }

  lemma DecodesTo(bs: seq<byte>, img: JobImage, index: Index)
    requires Storable(img) && bs == Serialize(img) && index == IndexOf(img)
    ensures Deserialize(bs) == Some((img, index))
  {
    RoundTrip(img);
  }

  /** Any sequence of updates decodes to the last one, with every other field and
      the index unchanged. */
  lemma UpdatesDecodeToLast(img: JobImage, updates: seq<Update>) returns (bs: seq<byte>)
    requires Storable(img) && updates != []
    requires forall i :: 0 <= i < |updates| ==> |updates[i].chunks| == |img.chunks|
    ensures PatchAll(Serialize(img), IndexOf(img), updates) == Some(bs)
    ensures Deserialize(bs) == Some((Updated(img, updates[|updates| - 1]), IndexOf(img)))
  {
    PatchAllIsRewrite(img, updates);
    var img' := Updated(img, updates[|updates| - 1]);
    bs := Serialize(img');
    DecodesTo(bs, img', IndexOf(img));
  }
}
