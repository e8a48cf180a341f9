/** The download engine as an object, one call at a time: its fields are updated
    in place, and every call is proved to have an effect on the engine's scalars
    and work that the step system composes of its steps. */
module Engines {
  import opened Basics
  import opened Chunks
  import opened EngineSpec
  import opened JobImages
  import opened ImageFiles
  import Urls

  const NO_INDEX := Index(0, 0, 0, 0, 0, 0, 0)

  /** The numbers of a chunk that a size_t holds. The end of a chunk of an empty
      file is -1, which a size_t holds as its largest number. */
  predicate Representable(c: Chunk)
  {
    c.start < TWO64 && -1 <= c.end < TWO64 - 1 && c.received < TWO64
  }

  /** An end as a size_t, and back. */
  function EndBits(end: int): u64
    requires -1 <= end < TWO64 - 1
  {
    if end == -1 then TWO64 - 1 else end
  }

  function EndOfBits(bits: u64): (end: int)
    ensures -1 <= end < TWO64 - 1
  {
    if bits == TWO64 - 1 then -1 else bits
  }

  predicate AllRepresentable(cs: seq<Chunk>)
  {
    forall i :: 0 <= i < |cs| ==> Representable(cs[i])
  }

  /** The chunk list as it is stored. */
  function Snapshot(cs: seq<Chunk>): (r: seq<ChunkState>)
    requires AllRepresentable(cs)
    ensures |r| == |cs|
  {
    seq(|cs|, i requires 0 <= i < |cs| => ChunkState(cs[i].start, EndBits(cs[i].end), cs[i].received))
  }

  /** The chunk list of a loaded image. */
  function LoadedChunks(cs: seq<ChunkState>): (r: seq<Chunk>)
    ensures |r| == |cs| && AllRepresentable(r)
  {
    seq(|cs|, i requires 0 <= i < |cs| => Chunk(cs[i].start, EndOfBits(cs[i].end), cs[i].downloaded))
  }

  lemma SnapshotBack(cs: seq<Chunk>)
    requires AllRepresentable(cs)
    ensures LoadedChunks(Snapshot(cs)) == cs
  {
  }

  method CopyLoaded(cs: seq<ChunkState>) returns (chunks: seq<Chunk>, received: nat)
    ensures chunks == LoadedChunks(cs) && received == ReceivedSum(chunks)
  {
    ghost var all := LoadedChunks(cs);
    chunks, received := [], 0;
    for i := 0 to |cs|
      invariant chunks == all[..i] && received == ReceivedUpTo(all, i)
    {
      chunks := chunks + [Chunk(cs[i].start, EndOfBits(cs[i].end), cs[i].downloaded)];
      received := received + cs[i].downloaded;
    }
    assert chunks == all;
  }

  method CountLoaded(chunks: seq<Chunk>) returns (finished: nat)
    ensures finished == FinishedCount(chunks)
  {
    finished := 0;
    for i := 0 to |chunks|
      invariant finished == FinishedUpTo(chunks, i)
    {
      if chunks[i].Finished() { finished := finished + 1; }
    }
  }

  /** An event that an old worker can cause. A report finds room in the chunk's size_t,
      and no store is due once the writer is released. */
  predicate EventFits(job: Job, event: LateEvent)
  {
    && job.e.scheduled > 0
    && (event.Reports? ==>
          && event.chunk < |job.w.chunks| && job.w.chunks[event.chunk].received + event.bytes < TWO64
          && (job.e.cleaned ==>
                !ReportStores(job.e, AddReceived(job.w, event.chunk, event.bytes).chunks[event.chunk], event.bytes,
                              |job.w.chunks|)))
  }

  predicate LateFits(job: Job, events: seq<LateEvent>)
    decreases |events|
  {
    events == [] || (EventFits(job, events[0]) && LateFits(LateStep(job, events[0]), events[1..]))
  }

  /** No number of the layout is too large for a size_t. */
  predicate NoWrap(fileSize: nat, n: nat)
    requires n > 0
  {
    fileSize + n - 1 < TWO64 && (n - 1) * CeilDiv(fileSize, n) < TWO64
  }

  /** The i-th chunk in the arithmetic of size_t. */
  function CutBits(fileSize: u64, n: nat, i: nat): (c: Chunk)
    requires i < n
    ensures Representable(c)
  {
    var size := (fileSize + n - 1) % TWO64 / n;
    var start := i * size % TWO64;
    Chunk(start, EndOfBits((if i == n - 1 then fileSize - 1 else start + size - 1) % TWO64), 0)
  }

  /** The constructor's loop. */
  method LayOut(fileSize: u64, n: nat) returns (chunks: seq<Chunk>)
    requires 0 < n < TWO64
    ensures |chunks| == n && AllRepresentable(chunks)
    ensures NoWrap(fileSize, n) ==> chunks == Partition(fileSize, n)
  {
    chunks := [];
    var chunkSize := (fileSize + n - 1) % TWO64 / n;
    for i := 0 to n
      invariant |chunks| == i && forall k :: 0 <= k < i ==> chunks[k] == CutBits(fileSize, n, k)
    {
      var start := i * chunkSize % TWO64;
      var end := if i == n - 1 then fileSize - 1 else start + chunkSize - 1;
      chunks := chunks + [Chunk(start, EndOfBits(end % TWO64), 0)];
    }
    if NoWrap(fileSize, n) { CutsFit(fileSize, n, chunks); }
  }

  lemma CutsFit(fileSize: u64, n: nat, chunks: seq<Chunk>)
    requires n > 0 && NoWrap(fileSize, n) && |chunks| == n
    requires forall k :: 0 <= k < n ==> chunks[k] == CutBits(fileSize, n, k)
    ensures chunks == Partition(fileSize, n)
  {
    forall k | 0 <= k < n
      ensures chunks[k] == Partition(fileSize, n)[k]
    {
      CutFits(fileSize, n, k);
    }
  }

  class DownloadEngine {
    const ranged: bool
    const fileSize: u64
    const outputPath: Text
    const createdAt: u64
    var url: Urls.Url
    var etag: Text
    var lastModified: Text
    var updatedAt: u64

    var state: RunState
    var nTotalReceivedBytes: nat
    var nReceivedBytesFromLastStore: nat
    var nDownloadedChunks: nat
    var chunksInfo: seq<Chunk>
    var pendingWork: seq<WorkItem>
    var nextWorkItem: nat

    var nConnections: int
    var scheduledConnections: int
    var minConnections: i32
    var maxConnections: i32
    var desiredConnections: i32
    var releaseBudget: int

    var artifactsCleaned: bool
    var imageStored: bool
    var imageIndex: Index
    /** The image file and the output file as the file system has them. */
    var imageFile: Option<seq<byte>>
    var outputRemoved: bool

    /** What the image file says, once this engine has written it in full. */
    ghost var stored: JobImage

    ghost function View(): Engine
      reads this`state, this`nDownloadedChunks, this`nTotalReceivedBytes, this`nReceivedBytesFromLastStore
      reads this`scheduledConnections, this`nConnections, this`minConnections, this`maxConnections
      reads this`desiredConnections, this`releaseBudget, this`artifactsCleaned
    {
      Engine(state, nDownloadedChunks, nTotalReceivedBytes, nReceivedBytesFromLastStore, scheduledConnections,
             nConnections, minConnections, maxConnections, desiredConnections, releaseBudget, artifactsCleaned)
    }

    ghost function Work(): EngineSpec.Work
      reads this`chunksInfo, this`pendingWork, this`nextWorkItem
    {
      EngineSpec.Work(chunksInfo, pendingWork, nextWorkItem)
    }

    ghost function Both(): Job
      reads this
    {
      Job(View(), Work())
    }

    /** The image the engine would write now. */
    function CurrentImage(now: u64): JobImage
      requires AllRepresentable(chunksInfo)
      reads this`chunksInfo, this`url, this`etag, this`lastModified, this`maxConnections
    {
      JobImage(outputPath, fileSize, maxConnections, ranged, Urls.Print(url), etag, lastModified, createdAt, now,
               Snapshot(chunksInfo))
    }

    /** The image file holds `stored`, and the index is its index. */
    ghost predicate Saved()
      reads this`stored, this`imageStored, this`imageFile, this`imageIndex
    {
      Storable(stored) && imageStored && imageFile == Some(Serialize(stored)) && imageIndex == IndexOf(stored)
    }

    /** The image as it is on disk and in the engine's records. */
    ghost function Files(): (Option<seq<byte>>, JobImage, bool, Index)
      reads this`stored, this`imageStored, this`imageFile, this`imageIndex
    {
      (imageFile, stored, imageStored, imageIndex)
    }

    /** Whether the next store patches the image file in place. */
    predicate Patches()
      reads this`imageStored, this`imageIndex, this`chunksInfo
    {
      imageStored && imageIndex.chunkCount == |chunksInfo|
    }

    /** Connection bounds are in order and every size fits a size_t. */
    ghost predicate Valid()
      reads this`minConnections, this`maxConnections, this`chunksInfo, this`url, this`etag, this`lastModified
    {
      && 1 <= minConnections <= maxConnections
      && |chunksInfo| < TWO64 && AllRepresentable(chunksInfo)
      && |outputPath| < TWO64 && |Urls.Print(url)| < TWO64 && |etag| < TWO64 && |lastModified| < TWO64
    }

    /** A file that would be patched is the one this engine wrote. */
    ghost predicate ImageInv()
      reads this`artifactsCleaned, this`chunksInfo, this`stored, this`imageStored, this`imageFile, this`imageIndex
    {
      !artifactsCleaned && Patches() ==> Saved()
    }

    // -------------------------------------------------------------------------
    // Construction.

    /** A new job, cut into `nChunks` chunks. */
    constructor (url: Urls.Url, outputPath: Text, maxConnections: i32, fileSize: u64, ranged: bool, nChunks: nat,
                 now: u64)
      requires 0 < nChunks < TWO64
      requires |outputPath| < TWO64 && |Urls.Print(url)| < TWO64
      ensures Valid() && ImageInv() && |chunksInfo| == nChunks
      ensures NoWrap(fileSize, nChunks) ==> chunksInfo == Partition(fileSize, nChunks)
      ensures View() == NewEngine(EffectiveMax(ranged, maxConnections))
      ensures state == Initialized && nTotalReceivedBytes == nReceivedBytesFromLastStore == nDownloadedChunks == 0
      ensures scheduledConnections == nConnections == releaseBudget == 0 && !artifactsCleaned
      ensures this.minConnections == 1 && this.maxConnections == if ranged then Max(1, maxConnections) else 1
      ensures desiredConnections == Min(2, this.maxConnections) && createdAt == updatedAt == now
      ensures Work() == EngineSpec.Work(chunksInfo, [], 0)
      ensures this.url == url && this.outputPath == outputPath && this.fileSize == fileSize && this.ranged == ranged
      ensures etag == [] && lastModified == [] && !imageStored && imageFile == None && !outputRemoved
    {
      this.ranged, this.url, this.outputPath, this.fileSize := ranged, url, outputPath, fileSize;
      this.etag, this.lastModified := [], [];
      nTotalReceivedBytes, nReceivedBytesFromLastStore, nDownloadedChunks, nextWorkItem := 0, 0, 0, 0;
      pendingWork := [];
      nConnections, scheduledConnections, releaseBudget := 0, 0, 0;
      state := Initialized;
      createdAt, updatedAt := now, now;
      var effectiveMax: i32 := if ranged then Max(1, maxConnections) else 1;
      minConnections, this.maxConnections := 1, effectiveMax;
      desiredConnections := Min(2, effectiveMax);
      artifactsCleaned, imageStored, imageIndex := false, false, NO_INDEX;
      imageFile, outputRemoved := None, false;

      var chunks := LayOut(fileSize, nChunks);
      chunksInfo := chunks;
    }

    /** An engine from an image: its own image file is first rewritten in full,
        because the index is not taken over. */
    constructor FromImage(img: JobImage, url: Urls.Url, file: seq<byte>)
      requires Storable(img)
      requires Urls.Parse(img.url) == Some(url) && |Urls.Print(url)| < TWO64
      ensures Valid() && chunksInfo == LoadedChunks(img.chunks)
      ensures img.chunks != [] ==> ImageInv()
      ensures View() == LoadedEngine(chunksInfo, EffectiveMax(img.ranged, img.maxConnections))
      ensures state == Initialized && nDownloadedChunks == FinishedCount(chunksInfo)
      ensures nTotalReceivedBytes == nReceivedBytesFromLastStore == ReceivedSum(chunksInfo)
      ensures scheduledConnections == nConnections == releaseBudget == 0 && !artifactsCleaned
      ensures minConnections == 1 && maxConnections == if img.ranged then Max(1, img.maxConnections) else 1
      ensures desiredConnections == Min(2, maxConnections) && updatedAt == img.updatedAt
      ensures Work() == EngineSpec.Work(chunksInfo, [], 0)
      ensures this.url == url && outputPath == img.filePath && fileSize == img.fileSize && ranged == img.ranged
      ensures etag == img.etag && lastModified == img.lastModified && createdAt == img.createdAt
      ensures imageStored && imageIndex == NO_INDEX && imageFile == Some(file)
    {
      this.ranged, this.url, outputPath, fileSize := img.ranged, url, img.filePath, img.fileSize;
      etag, lastModified := img.etag, img.lastModified;
      createdAt, updatedAt := img.createdAt, img.updatedAt;
      nextWorkItem, pendingWork := 0, [];
      nConnections, scheduledConnections, releaseBudget := 0, 0, 0;
      state := Initialized;
      var effectiveMax: i32 := if img.ranged then Max(1, img.maxConnections) else 1;
      minConnections, maxConnections := 1, effectiveMax;
      desiredConnections := Min(2, effectiveMax);
      artifactsCleaned, imageStored, imageIndex := false, true, NO_INDEX;
      imageFile, outputRemoved := Some(file), false;

      var chunks, received := CopyLoaded(img.chunks);
      var finished := CountLoaded(chunks);
      chunksInfo := chunks;
      nDownloadedChunks := finished;
      nTotalReceivedBytes, nReceivedBytesFromLastStore := received, received;
    }

    /** The server's validators, which the manager sets after it has published the
        engine. */
    method SetValidators(etag: Text, lastModified: Text)
      requires |etag| < TWO64 && |lastModified| < TWO64
      modifies this`etag, this`lastModified
      ensures this.etag == etag && this.lastModified == lastModified && (old(Valid()) ==> Valid())
    {
      this.etag, this.lastModified := etag, lastModified;
    }

    // -------------------------------------------------------------------------
    // State and connections.

    /** A job is queued unless it runs or has completed, starts downloading from the
        queue, is paused and fails while it runs, and is canceled unless it never
        started or is over; other states are forced. */
    method SetState(next: RunState) returns (changed: bool)
      modifies this`state
      ensures View() == WithState(old(View()), next)
      ensures state == if changed then next else old(state)
      ensures next == Queued ==> (changed <==> old(state) !in {Queued, Downloading, Completed})
      ensures next == Downloading ==> (changed <==> old(state) == Queued)
      ensures next == Paused || next == Failed ==> (changed <==> old(state) in {Queued, Downloading})
      ensures next == Canceled ==> (changed <==> old(state) !in {Initialized, Completed, Canceled})
      ensures next == Initialized || next == Completed ==> changed
    {
      changed := false;
      match next
      case Queued =>
        if state == Initialized || state == Paused || state == Canceled || state == Failed {
          state := Queued;
          changed := true;
        }
      case Downloading =>
        if state == Queued {
          state := Downloading;
          changed := true;
        }
      case Paused =>
        if state == Downloading || state == Queued {
          state := Paused;
          changed := true;
        }
      case Canceled =>
        if state == Downloading || state == Queued || state == Paused || state == Failed {
          state := Canceled;
          changed := true;
        }
      case Failed =>
        if state == Downloading || state == Queued {
          state := Failed;
          changed := true;
        }
      case _ =>
        state := next;
        changed := true;
    }

    method NotifyConnectionOpen()
      modifies this`nConnections, this`state
      ensures View() == Opened(old(View()))
      ensures nConnections == old(nConnections) + 1
      ensures state == if old(state) == Queued then Downloading else old(state)
    {
      nConnections := nConnections + 1;
      if state == Queued {
        state := Downloading;
      }
    }

    /** The last connection of a canceled engine removes the files. */
    method NotifyConnectionClose()
      modifies this`scheduledConnections, this`nConnections, this`artifactsCleaned, this`imageFile, this`outputRemoved
      ensures View() == Closed(old(View()))
      ensures scheduledConnections == Max(0, old(scheduledConnections) - 1) && nConnections == old(nConnections) - 1
      ensures artifactsCleaned == (old(artifactsCleaned) || (nConnections == 0 && state == Canceled))
      ensures old(ImageInv()) ==> ImageInv()
      ensures if artifactsCleaned && !old(artifactsCleaned) then imageFile == None && outputRemoved
              else imageFile == old(imageFile) && outputRemoved == old(outputRemoved)
    {
      scheduledConnections := scheduledConnections - 1;
      if scheduledConnections < 0 {
        scheduledConnections := 0;
      }
      nConnections := nConnections - 1;
      if nConnections == 0 && state == Canceled {
        CleanupArtifacts(true);
      }
    }

    /** Bounds of a job without ranges are both 1. */
    method SetConnectionBounds(minWanted: i32, maxWanted: i32)
      modifies this`minConnections, this`maxConnections, this`desiredConnections, this`releaseBudget
      ensures minConnections == Max(1, if ranged then minWanted else 1)
      ensures maxConnections == Max(minConnections, if ranged then maxWanted else 1)
      ensures View()
                == SetDesired(old(View()).(minC := minConnections, maxC := maxConnections), old(desiredConnections))
    {
      var lo, hi := minWanted, maxWanted;
      if !ranged {
        lo, hi := 1, 1;
      }
      lo := Max(1, lo);
      hi := Max(lo, hi);
      minConnections, maxConnections := lo, hi;
      SetDesiredConnections(desiredConnections);
    }

    method SetDesiredConnections(wanted: i32)
      requires minConnections <= maxConnections
      modifies this`desiredConnections, this`releaseBudget
      ensures View() == SetDesired(old(View()), wanted)
    {
      var clamped := Clamp(wanted, minConnections, maxConnections);
      var previous := desiredConnections;
      desiredConnections := clamped;
      if clamped < previous {
        releaseBudget := releaseBudget + (previous - clamped);
      }
    }

    method PlanNewWorkers(limit: int) returns (n: nat)
      modifies this`scheduledConnections
      ensures n == PlanCount(old(View()), limit) && View() == Plan(old(View()), limit)
    {
      if limit <= 0 || (state != Queued && state != Downloading) {
        return 0;
      }
      if scheduledConnections >= desiredConnections {
        return 0;
      }
      n := Min(desiredConnections - scheduledConnections, limit);
      scheduledConnections := scheduledConnections + n;
    }

    method ShouldReleaseConnection() returns (release: bool)
      modifies this`releaseBudget
      ensures View() == TakeToken(old(View()))
      ensures release <==> old(releaseBudget) > 0
      ensures releaseBudget == old(releaseBudget) - if release then 1 else 0
    {
      release := releaseBudget > 0;
      if release {
        releaseBudget := releaseBudget - 1;
      }
    }

    method GetNextWorkItem() returns (item: Option<WorkItem>)
      modifies this`nextWorkItem
      ensures nextWorkItem == old(nextWorkItem) + 1
      ensures item == if old(nextWorkItem) < |pendingWork| then Some(pendingWork[old(nextWorkItem)]) else None
    {
      var i := nextWorkItem;
      nextWorkItem := nextWorkItem + 1;
      if i >= |pendingWork| {
        return None;
      }
      item := Some(pendingWork[i]);
    }

    // -------------------------------------------------------------------------
    // Generations.

    method BuildPendingWork()
      modifies this`pendingWork, this`nextWorkItem, this`nDownloadedChunks
      ensures Work() == Rebuilt(old(Work())) && nDownloadedChunks == FinishedCount(chunksInfo)
    {
      pendingWork := [];
      var workId, finished := 0, 0;
      for i := 0 to |chunksInfo|
        invariant pendingWork == BuildUpTo(chunksInfo, i)
        invariant workId == |pendingWork| && finished == FinishedUpTo(chunksInfo, i)
      {
        var chunk := chunksInfo[i];
        if chunk.Finished() {
          finished := finished + 1;
          continue;
        }
        pendingWork := pendingWork + [WorkItem(workId, i, chunk.start + chunk.received, chunk.end)];
        workId := workId + 1;
      }
      nextWorkItem := 0;
      nDownloadedChunks := finished;
    }

    /** What old workers do while a new generation waits for them. */
    method OldWorkers(events: seq<LateEvent>, now: u64)
      requires Valid() && state != Canceled && scheduledConnections >= 0 && LateFits(Both(), events)
      modifies this`chunksInfo, this`nTotalReceivedBytes, this`nReceivedBytesFromLastStore
      modifies this`nDownloadedChunks, this`state, this`artifactsCleaned, this`outputRemoved
      modifies this`imageFile, this`imageIndex, this`imageStored, this`stored, this`updatedAt
      modifies this`scheduledConnections, this`nConnections
      ensures Valid() && state != Canceled && scheduledConnections >= 0 && Both() == Late(old(Both()), events)
      ensures old(ImageInv()) ==> ImageInv()
      ensures outputRemoved == old(outputRemoved) && (events == [] ==> Files() == old(Files()))
    {
      for i := 0 to |events|
        invariant Valid() && state != Canceled && scheduledConnections >= 0 && LateFits(Both(), events[i..])
        invariant Late(Both(), events[i..]) == Late(old(Both()), events)
        invariant old(ImageInv()) ==> ImageInv()
        invariant outputRemoved == old(outputRemoved) && (i == 0 ==> Files() == old(Files()))
      {
        assert events[i..][0] == events[i] && events[i..][1..] == events[i + 1..];
        OldWorker(events[i], now);
      }
    }

    method OldWorker(event: LateEvent, now: u64)
      requires Valid() && state != Canceled && EventFits(Both(), event)
      modifies this`chunksInfo, this`nTotalReceivedBytes, this`nReceivedBytesFromLastStore
      modifies this`nDownloadedChunks, this`state, this`artifactsCleaned, this`outputRemoved
      modifies this`imageFile, this`imageIndex, this`imageStored, this`stored, this`updatedAt
      modifies this`scheduledConnections, this`nConnections
      ensures Valid() && state != Canceled && scheduledConnections >= 0 && Both() == LateStep(old(Both()), event)
      ensures outputRemoved == old(outputRemoved)
      ensures old(ImageInv()) ==> ImageInv()
    {
      match event
      case Opens => NotifyConnectionOpen();
      case Closes => NotifyConnectionClose();
      case Reports(c, bytes) => var _ := NotifyChunkReceived(c, bytes, now);
    }

    /** The old workers close; each task still in the queue opens its connection first. */
    method CloseRest()
      requires scheduledConnections >= 0 && state != Canceled
      modifies this`scheduledConnections, this`nConnections, this`state, this`artifactsCleaned
      modifies this`imageFile, this`outputRemoved
      ensures View() == Drain(old(View())) && scheduledConnections == 0
      ensures imageFile == old(imageFile) && outputRemoved == old(outputRemoved)
      ensures artifactsCleaned == old(artifactsCleaned)
    {
      while scheduledConnections != 0
        invariant scheduledConnections >= 0 && state != Canceled
        invariant Drain(View()) == Drain(old(View()))
        invariant imageFile == old(imageFile) && outputRemoved == old(outputRemoved)
        invariant artifactsCleaned == old(artifactsCleaned)
        decreases scheduledConnections
      {
        if nConnections <= 0 { NotifyConnectionOpen(); }
        NotifyConnectionClose();
      }
    }

    /** Start and Resume: `limit` is the pool size, `events` what the old workers do
        before they have drained, `planned` the number of tasks put in the queue. */
    method Resume(limit: int, events: seq<LateEvent>, now: u64) returns (resumed: bool, planned: nat)
      requires Valid() && scheduledConnections >= 0
      requires Allows(state, Queued) ==> LateFits(Job(WithState(View(), Queued), Work()), events)
      modifies this`chunksInfo, this`nTotalReceivedBytes, this`nReceivedBytesFromLastStore
      modifies this`nDownloadedChunks, this`state, this`artifactsCleaned, this`outputRemoved
      modifies this`imageFile, this`imageIndex, this`imageStored, this`stored, this`updatedAt
      modifies this`scheduledConnections, this`nConnections
      modifies this`releaseBudget, this`pendingWork, this`nextWorkItem
      ensures Valid() && (resumed <==> old(state) in {Initialized, Paused, Failed, Canceled})
      ensures !resumed ==> planned == 0 && Both() == old(Both()) && Files() == old(Files())
      ensures resumed ==> Both() == Regenerated(Late(Job(WithState(old(View()), Queued), old(Work())), events), limit)
      ensures resumed ==> planned == scheduledConnections
      ensures old(ImageInv()) ==> ImageInv()
      ensures outputRemoved == old(outputRemoved) && (events == [] ==> Files() == old(Files()))
    {
      ghost var job := Job(WithState(View(), Queued), Work());
      resumed := SetState(Queued);
      if !resumed { return false, 0; }
      assert Both() == job;
      planned := NewGeneration(limit, events, now);
    }

    /** The wait of Start and Resume for the workers of the previous generation. */
    method WaitForDrain(events: seq<LateEvent>, now: u64)
      requires Valid() && state != Canceled && scheduledConnections >= 0 && LateFits(Both(), events)
      modifies this`chunksInfo, this`nTotalReceivedBytes, this`nReceivedBytesFromLastStore
      modifies this`nDownloadedChunks, this`state, this`artifactsCleaned, this`outputRemoved
      modifies this`imageFile, this`imageIndex, this`imageStored, this`stored, this`updatedAt
      modifies this`scheduledConnections, this`nConnections
      ensures Valid() && View() == Drain(Late(old(Both()), events).e) && Work() == Late(old(Both()), events).w
      ensures scheduledConnections == 0 && (old(ImageInv()) ==> ImageInv())
      ensures outputRemoved == old(outputRemoved) && (events == [] ==> Files() == old(Files()))
    {
      OldWorkers(events, now);
      CloseRest();
    }

    method NewGeneration(limit: int, events: seq<LateEvent>, now: u64) returns (planned: nat)
      requires Valid() && state != Canceled && scheduledConnections >= 0 && LateFits(Both(), events)
      modifies this`chunksInfo, this`nTotalReceivedBytes, this`nReceivedBytesFromLastStore
      modifies this`nDownloadedChunks, this`state, this`artifactsCleaned, this`outputRemoved
      modifies this`imageFile, this`imageIndex, this`imageStored, this`stored, this`updatedAt
      modifies this`scheduledConnections, this`nConnections
      modifies this`releaseBudget, this`pendingWork, this`nextWorkItem
      ensures Valid() && Both() == Regenerated(Late(old(Both()), events), limit) && planned == scheduledConnections
      ensures old(ImageInv()) ==> ImageInv()
      ensures outputRemoved == old(outputRemoved) && (events == [] ==> Files() == old(Files()))
    {
      WaitForDrain(events, now);
      planned := Regenerate(limit);
    }

    /** Drop the tokens, rebuild, plan. */
    method Regenerate(limit: int) returns (planned: nat)
      requires scheduledConnections == 0
      modifies this`releaseBudget, this`pendingWork, this`nextWorkItem, this`nDownloadedChunks
      modifies this`scheduledConnections
      ensures Work() == Rebuilt(old(Work())) && View() == Plan(RebuiltCounters(old(View()), old(Work())), limit)
      ensures planned == scheduledConnections
    {
      releaseBudget := 0;
      BuildPendingWork();
      planned := PlanNewWorkers(limit);
    }

    method Pause() returns (paused: bool)
      modifies this`state
      ensures paused <==> old(state) in {Queued, Downloading}
      ensures View() == if paused then old(View()).(state := Paused) else old(View())
    {
      paused := SetState(Paused);
    }

    method Cancel() returns (canceled: bool)
      modifies this`state, this`artifactsCleaned, this`imageFile, this`outputRemoved
      ensures canceled <==> old(state) in {Downloading, Queued, Paused, Failed}
      ensures old(ImageInv()) ==> ImageInv()
      ensures View() == if canceled then CanceledNow(old(View())) else old(View())
      ensures state == if canceled then Canceled else old(state)
      ensures if canceled && nConnections == 0 && !old(artifactsCleaned)
              then imageFile == None && outputRemoved && artifactsCleaned
              else imageFile == old(imageFile) && outputRemoved == old(outputRemoved)
                   && artifactsCleaned == old(artifactsCleaned)
    {
      canceled := SetState(Canceled);
      if !canceled { return; }
      if nConnections == 0 {
        CleanupArtifacts(true);
      }
    }

    /** The progress is stored when the failure is taken. */
    method Fail(now: u64) returns (failed: bool)
      requires Valid() && (Allows(state, Failed) ==> !artifactsCleaned)
      modifies this`state
      modifies this`imageFile, this`imageIndex, this`imageStored, this`stored, this`updatedAt
      modifies this`nReceivedBytesFromLastStore
      ensures failed <==> old(state) in {Queued, Downloading}
      ensures state == if failed then Failed else old(state)
      ensures !failed ==> Files() == old(Files())
      ensures View() == if failed then Stored(WithState(old(View()), Failed)) else old(View())
      ensures old(ImageInv()) ==> ImageInv() && (failed ==> Saved() && stored.chunks == Snapshot(chunksInfo))
      ensures old(ImageInv()) && failed ==> stored == if old(Patches())
                                                      then Updated(old(stored), Update(Snapshot(chunksInfo), now))
                                                      else old(CurrentImage(now))
    {
      failed := SetState(Failed);
      if !failed { return; }
      Store(now);
    }

    // -------------------------------------------------------------------------
    // Receiving and storing.

    /** `bytes` of chunk `c` are on disk. True when this call completed the job. */
    method NotifyChunkReceived(c: nat, bytes: nat, now: u64) returns (finished: bool)
      requires Valid() && c < |chunksInfo| && chunksInfo[c].received + bytes < TWO64
      requires artifactsCleaned ==> !ReportStores(View(), AddReceived(Work(), c, bytes).chunks[c], bytes, |chunksInfo|)
      modifies this`chunksInfo, this`nTotalReceivedBytes, this`nReceivedBytesFromLastStore
      modifies this`nDownloadedChunks, this`state, this`artifactsCleaned, this`outputRemoved
      modifies this`imageFile, this`imageIndex, this`imageStored, this`stored, this`updatedAt
      ensures Valid() && Work() == AddReceived(old(Work()), c, bytes)
      ensures old(ImageInv()) ==> ImageInv()
      ensures View() == Notified(old(View()), chunksInfo[c], bytes, |chunksInfo|)
      ensures finished <==>
                && chunksInfo[c].Finished() && old(nDownloadedChunks) + 1 == |chunksInfo|
                && old(state) in {Downloading, Paused, Failed}
      ensures nTotalReceivedBytes == old(nTotalReceivedBytes) + bytes
      ensures finished ==> state == Completed && imageFile == None
      ensures outputRemoved == old(outputRemoved)
    {
      UpdateReceived(c, bytes);
      finished := CountUpdate(c, bytes, now);
    }

    /** What follows the update of the chunk. */
    method CountUpdate(c: nat, bytes: nat, now: u64) returns (finished: bool)
      requires Valid() && c < |chunksInfo|
      requires artifactsCleaned ==> !ReportStores(View(), chunksInfo[c], bytes, |chunksInfo|)
      modifies this`nTotalReceivedBytes, this`nReceivedBytesFromLastStore
      modifies this`nDownloadedChunks, this`state, this`artifactsCleaned, this`outputRemoved
      modifies this`imageFile, this`imageIndex, this`imageStored, this`stored, this`updatedAt
      ensures old(ImageInv()) ==> ImageInv()
      ensures View() == Notified(old(View()), chunksInfo[c], bytes, |chunksInfo|)
      ensures finished <==>
                && chunksInfo[c].Finished() && old(nDownloadedChunks) + 1 == |chunksInfo|
                && old(state) in {Downloading, Paused, Failed}
      ensures nTotalReceivedBytes == old(nTotalReceivedBytes) + bytes
      ensures finished ==> state == Completed && imageFile == None
      ensures outputRemoved == old(outputRemoved)
    {
      CountReceived(bytes, now);
      finished := false;
      if chunksInfo[c].Finished() {
        finished := CountChunk(now);
      }
    }

    method UpdateReceived(c: nat, bytes: nat)
      requires Valid() && c < |chunksInfo| && chunksInfo[c].received + bytes < TWO64
      modifies this`chunksInfo
      ensures Valid() && |chunksInfo| == |old(chunksInfo)|
      ensures old(ImageInv()) ==> ImageInv()
      ensures Work() == AddReceived(old(Work()), c, bytes)
    {
      chunksInfo := chunksInfo[c := chunksInfo[c].(received := chunksInfo[c].received + bytes)];
    }

    /** The byte counters, and a store when enough is unsaved. */
    method CountReceived(bytes: nat, now: u64)
      requires Valid() && (artifactsCleaned ==> !NeedsStore(AddUnsaved(View(), bytes)))
      modifies this`nTotalReceivedBytes, this`nReceivedBytesFromLastStore
      modifies this`imageFile, this`imageIndex, this`imageStored, this`stored, this`updatedAt
      ensures View() == Counted(old(View()), bytes)
      ensures nTotalReceivedBytes == old(nTotalReceivedBytes) + bytes
      ensures old(ImageInv()) ==> ImageInv()
      ensures if old(nReceivedBytesFromLastStore) + bytes >= 10485760
              then nReceivedBytesFromLastStore == 0
                   && (old(ImageInv()) ==> Saved() && stored.chunks == Snapshot(chunksInfo))
              else nReceivedBytesFromLastStore == old(nReceivedBytesFromLastStore) + bytes && Files() == old(Files())
    {
      nTotalReceivedBytes := nTotalReceivedBytes + bytes;
      nReceivedBytesFromLastStore := nReceivedBytesFromLastStore + bytes;
      if nReceivedBytesFromLastStore >= STORE_EVERY {
        Store(now);
      }
    }

    /** A finished chunk is counted; the last one completes the job, whose final
        image is stored and then removed. */
    method CountChunk(now: u64) returns (finished: bool)
      requires Valid() && (artifactsCleaned ==> !CompletesNow(View(), |chunksInfo|))
      modifies this`nDownloadedChunks, this`state, this`nReceivedBytesFromLastStore
      modifies this`artifactsCleaned, this`outputRemoved
      modifies this`imageFile, this`imageIndex, this`imageStored, this`stored, this`updatedAt
      ensures View() == FinishOne(old(View()), |chunksInfo|)
      ensures old(ImageInv()) ==> ImageInv()
      ensures nDownloadedChunks == old(nDownloadedChunks) + 1
      ensures finished <==> nDownloadedChunks == |chunksInfo| && old(state) in {Downloading, Paused, Failed}
      ensures !finished ==> state == old(state) && artifactsCleaned == old(artifactsCleaned) && Files() == old(Files())
      ensures finished ==> state == Completed && imageFile == None
      ensures outputRemoved == old(outputRemoved)
    {
      finished := false;
      var counted := nDownloadedChunks;
      nDownloadedChunks := nDownloadedChunks + 1;
      if counted == |chunksInfo| - 1 {
        if state == Downloading || state == Paused || state == Failed {
          state := Completed;
          Store(now);
          CleanupArtifacts(false);
          finished := true;
        }
      }
    }

    /** Writes the chunk list to the image file: in place when this engine wrote the
        file in full before, and in full otherwise. */
    method Store(now: u64)
      requires Valid() && !artifactsCleaned
      modifies this`imageFile, this`imageIndex, this`imageStored, this`stored, this`updatedAt
      modifies this`nReceivedBytesFromLastStore
      ensures View() == Stored(old(View())) && updatedAt == now
      ensures old(ImageInv()) ==> Saved() && stored.chunks == Snapshot(chunksInfo)
      ensures old(ImageInv()) ==> stored == if old(Patches())
                                            then Updated(old(stored), Update(Snapshot(chunksInfo), now))
                                            else old(CurrentImage(now))
      ensures old(ImageInv()) ==>
                (!old(Patches()) || SameFields(old(stored), old(CurrentImage(now))) <==>
                  stored == old(CurrentImage(now)))
    {
      var img := Compose(now);
      StoredIsCurrentExactly(Patches(), stored, img);
      SaveImage(img, now);
      updatedAt := now;
      nReceivedBytesFromLastStore := 0;
    }

    /** The in-place update, or else the whole file. */
    method SaveImage(img: JobImage, now: u64)
      requires Storable(img) && |img.chunks| == |chunksInfo|
      modifies this`imageFile, this`imageIndex, this`imageStored, this`stored
      ensures old(Patches() ==> Saved()) ==> Saved()
      ensures old(Patches() ==> Saved()) ==>
                stored == if old(Patches()) then Updated(old(stored), Update(img.chunks, now)) else img
    {
      var updated := PatchFile(img.chunks, now);
      if !updated {
        WriteFile(img);
      }
    }

    method Compose(now: u64) returns (img: JobImage)
      requires Valid()
      ensures img == CurrentImage(now) && Storable(img) && img.chunks == Snapshot(chunksInfo)
    {
      var chunks := CopyChunks();
      var text := Urls.GetUrlString(url);
      img := JobImage(outputPath, fileSize, maxConnections, ranged, text, etag, lastModified, createdAt, now, chunks);
    }

    method CopyChunks() returns (chunks: seq<ChunkState>)
      requires AllRepresentable(chunksInfo)
      ensures chunks == Snapshot(chunksInfo)
    {
      chunks := [];
      for i := 0 to |chunksInfo|
        invariant chunks == Snapshot(chunksInfo)[..i]
      {
        var c := chunksInfo[i];
        chunks := chunks + [ChunkState(c.start, EndBits(c.end), c.received)];
      }
    }

    /** The in-place update of a file that was written before. */
    method PatchFile(chunks: seq<ChunkState>, now: u64) returns (updated: bool)
      requires |chunks| == |chunksInfo| < TWO64
      modifies this`imageFile, this`stored
      ensures updated ==> old(Patches())
      ensures old(Patches() && Saved()) ==> updated && Saved() && stored == Updated(old(stored), Update(chunks, now))
      ensures !updated ==> imageFile == old(imageFile) && stored == old(stored)
    {
      updated := false;
      if imageStored && imageFile.Some? {
        var file := new FileStream(imageFile.value);
        updated := UpdateImageChunksOnDisk(file, imageIndex, chunks, now);
        if updated {
          if Saved() { PatchIsRewrite(stored, chunks, now); }
          imageFile := Some(file.bytes);
          stored := Updated(stored, Update(chunks, now));
        }
      }
    }

    method WriteFile(img: JobImage)
      requires Storable(img)
      modifies this`imageFile, this`imageIndex, this`imageStored, this`stored
      ensures Saved() && stored == img
    {
      var file, index := WriteImageToDisk(img);
      imageFile, imageIndex, imageStored := Some(file.bytes), index, true;
      stored := img;
    }

    method CleanupArtifacts(removeOutputFile: bool)
      modifies this`artifactsCleaned, this`imageFile, this`outputRemoved
      ensures View() == Released(old(View()))
      ensures imageFile == if old(artifactsCleaned) then old(imageFile) else None
      ensures outputRemoved == (old(outputRemoved) || (removeOutputFile && !old(artifactsCleaned)))
    {
      if artifactsCleaned { return; }
      imageFile := None;
      if removeOutputFile {
        outputRemoved := true;
      }
      artifactsCleaned := true;
    }
  }

  lemma SmallMod(x: nat)
    requires x < TWO64
    ensures x % TWO64 == x
  {
  }

  lemma CutBounds(fileSize: u64, n: nat, i: nat)
    requires i < n && NoWrap(fileSize, n)
    ensures i * CeilDiv(fileSize, n) < TWO64
    ensures i < n - 1 ==> i * CeilDiv(fileSize, n) + CeilDiv(fileSize, n) < TWO64
  {
    var size := CeilDiv(fileSize, n);
    MulMonotone(i, n - 1, size);
    if i < n - 1 {
      MulMonotone(i + 1, n - 1, size);
      Distribute(i, size);
    }
  }

  lemma EndFits(end: int)
    requires -1 <= end < TWO64 - 1
    ensures EndOfBits(end % TWO64) == end
  {
  }

  /** Without wrap-around the constructor's chunks are the partition's. */
  lemma CutFits(fileSize: u64, n: nat, i: nat)
    requires i < n && NoWrap(fileSize, n)
    ensures CutBits(fileSize, n, i) == CutChunk(fileSize, n, i)
  {
    var size := CeilDiv(fileSize, n);
    CutBounds(fileSize, n, i);
    SmallMod(fileSize + n - 1);
    SmallMod(i * size);
    EndFits(if i == n - 1 then fileSize - 1 else i * size + size - 1);
  }

  lemma Distribute(i: nat, size: nat)
    ensures (i + 1) * size == i * size + size
  {
  }

  /** An empty file is finished from the start, and leaves nothing to fetch. */
  lemma EmptyFileIsFinished(n: nat, i: nat)
    requires n > 0 && i <= n
    ensures FinishedUpTo(Partition(0, n), i) == i && BuildUpTo(Partition(0, n), i) == []
  {
    if i > 0 { EmptyFileIsFinished(n, i - 1); }
  }
}
