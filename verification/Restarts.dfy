/** From one process to the next: a stored engine, read back from its image
    file, has the same chunks and the same URL, and carries the job to its end. */
module Restarts {
  import opened Basics
  import opened Chunks
  import opened EngineSpec
  import opened JobImages
  import opened ImageFiles
  import opened Engines
  import opened Workers
  import Urls

  /** The URL text that the next store leaves in the image file. */
  ghost function StoredUrl(job: DownloadEngine): Text
    reads job
  {
    if job.Patches() then job.stored.url else Urls.Print(job.url)
  }

  /** A URL that came from an ordinary text is read back from the image. */
  lemma UrlSurvivesImage(job: DownloadEngine, text: Text)
    requires text != [] && Urls.Parse(text) == Some(job.url) && Urls.Survives(text) && !job.Patches()
    ensures Urls.Parse(StoredUrl(job)) == Some(job.url)
  {
    Urls.RoundTripExactly(text);
  }

  /** A written image reads back, with its chunk list. */
  lemma StoredReadsBack(bytes: seq<byte>, img: JobImage, cs: seq<Chunk>)
    requires Storable(img) && bytes == Serialize(img) && AllRepresentable(cs) && img.chunks == Snapshot(cs)
    ensures Deserialize(bytes).Some? && Deserialize(bytes).value.0 == img
    ensures LoadedChunks(img.chunks) == cs
  {
    DecodesTo(bytes, img, IndexOf(img));
    SnapshotBack(cs);
  }

  /** A loaded engine does not take over the image's index, so its first store
      rewrites the file, exactly when there is a chunk; without one it overwrites
      the version field instead. */
  lemma FirstStoreAfterLoad(bytes: seq<byte>, chunks: seq<ChunkState>, now: u64)
    requires |chunks| < TWO64
    ensures Patch(bytes, NO_INDEX, chunks, now).None? <==> chunks != []
    ensures chunks == [] ==> var bs := Patch(bytes, NO_INDEX, chunks, now).value;
                             |bs| >= 8 && Decode(bs[..4]) != VERSION
  {
    if chunks == [] {
      var bs := Patch(bytes, NO_INDEX, chunks, now).value;
      assert bs[0] == EncChunkList(chunks)[0];
      assert LE(0, 8)[0] as int == 0 && LE(0, 8)[1] as int == 0;
      assert bs[0] as int == 0;
      assert bs[..4][0] == bs[0] && Decode(bs[..4]) == 256 * Decode(bs[..4][1..]);
    }
  }

  // ---------------------------------------------------------------------------
  // Loading a job: the manager asks the server about the file first.

  /** What the server says about the file. */
  datatype FileInfo = FileInfo(totalSize: u64, supportsRange: bool, etag: Text, lastModified: Text)

  /** The server's answer and the URL it was found under, or none. */
  datatype Answer = NoAnswer | Found(info: FileInfo, url: Urls.Url)

  /** What both sides know must agree. */
  predicate MatchesStoredFile(img: JobImage, info: FileInfo)
  {
    && (img.fileSize > 0 && info.totalSize > 0 ==> img.fileSize == info.totalSize)
    && (img.etag != [] && info.etag != [] ==> img.etag == info.etag)
    && (img.lastModified != [] && info.lastModified != [] ==> img.lastModified == info.lastModified)
  }

  /** The URL is printed into the image and parsed again. */
  function Reparsed(url: Urls.Url): Option<Urls.Url> { Urls.Parse(Urls.Print(url)) }

  /** The answer's texts fit a size_t and its URL is not empty. */
  ghost predicate Sound(answer: Answer)
  {
    answer.Found? ==>
      && |answer.info.etag| < TWO64 && |answer.info.lastModified| < TWO64 && |Urls.Print(answer.url)| < TWO64
      && Reparsed(answer.url).Some? && |Urls.Print(Reparsed(answer.url).value)| < TWO64
  }

  /** The image with what the server says now. */
  function Refreshed(img: JobImage, answer: Answer): JobImage
    requires answer.Found?
  {
    img.(url := Urls.Print(answer.url), fileSize := answer.info.totalSize, ranged := answer.info.supportsRange,
         etag := answer.info.etag, lastModified := answer.info.lastModified)
  }

  /** Whether the job may be loaded onto a local file of `localSize` bytes, None for
      no file. */
  predicate Loadable(img: JobImage, answer: Answer, localSize: Option<nat>)
  {
    && Urls.Parse(img.url).Some? && answer.Found? && MatchesStoredFile(img, answer.info)
    && localSize.Some? && (answer.info.totalSize > 0 ==> localSize.value == answer.info.totalSize)
  }

  /** The checks one by one: the image has a URL; the server answers; each of size, entity
      tag and modification date that both sides know agrees; and the local file is there
      and as long as the server's, if that is known. */
  lemma LoadableExactly(img: JobImage, answer: Answer, localSize: Option<nat>)
    ensures Loadable(img, answer, localSize) <==>
              && img.url != [] && answer != NoAnswer
              && (img.fileSize == 0 || answer.info.totalSize == 0 || answer.info.totalSize == img.fileSize)
              && (img.etag == [] || answer.info.etag == [] || answer.info.etag == img.etag)
              && (img.lastModified == [] || answer.info.lastModified == []
                  || answer.info.lastModified == img.lastModified)
              && localSize != None && (answer.info.totalSize == 0 || localSize.value == answer.info.totalSize)
  {
  }

  /** A job's identity: where it is stored, and from which URL. */
  function IdentityKey(path: Text, url: Text): Text { path + ['\n'] + url }

  /** The images that the manager has loaded and the identities of its jobs, which it
      never lets go. */
  class Registry {
    var images: set<Text>
    var jobs: set<Text>

    constructor ()
      ensures images == {} && jobs == {}
    {
      images, jobs := {}, {};
    }
  }

  /** Whether the image file `path` may be loaded by a manager that knows these. */
  predicate Unknown(images: set<Text>, jobs: set<Text>, path: Text, img: JobImage, answer: Answer)
    requires answer.Found?
  {
    path !in images && IdentityKey(img.filePath, Urls.Print(answer.url)) !in jobs
  }

  /** The speed limit of the request and the number of pool threads. */
  datatype Limits = Limits(speed: nat, threads: int)

  /** The connection bound that the manager sets. */
  function MaxFor(answer: Answer, pool: Limits): (maxC: int)
    ensures 1 <= maxC <= PER_JOB_CONNECTION_CAP
  {
    ComputeMaxConnections(answer.Found? && answer.info.supportsRange, pool.speed, pool.threads)
  }

  /** A job just loaded from an image: nothing runs, and the counters are those of
      its chunks. */
  ghost predicate JustLoaded(job: DownloadEngine, img: JobImage, url: Urls.Url, maxC: int)
    requires maxC >= 1
    reads job
  {
    && job.Valid() && (img.chunks != [] ==> job.ImageInv())
    && job.chunksInfo == LoadedChunks(img.chunks) && job.url == url && job.outputPath == img.filePath
    && job.fileSize == img.fileSize && job.ranged == img.ranged
    && job.etag == img.etag && job.lastModified == img.lastModified && job.createdAt == img.createdAt
    && job.state == Initialized && !job.artifactsCleaned && job.scheduledConnections == 0 && job.nConnections == 0
    && job.nDownloadedChunks == FinishedCount(job.chunksInfo) && job.nTotalReceivedBytes == ReceivedSum(job.chunksInfo)
    && job.minConnections == 1 && job.maxConnections == maxC
    && job.desiredConnections == Clamp(Max(1, img.maxConnections), 1, maxC)
  }

  /** The engine of a loaded image, with the manager's bounds. */
  method BuildJob(img: JobImage, url: Urls.Url, bytes: seq<byte>, maxC: i32) returns (job: DownloadEngine)
    requires Storable(img) && Urls.Parse(img.url) == Some(url) && |Urls.Print(url)| < TWO64
    requires maxC >= 1 && (!img.ranged ==> maxC == 1)
    ensures fresh(job) && JustLoaded(job, img, url, maxC)
  {
    job := new DownloadEngine.FromImage(img, url, bytes);
    Bound(job, maxC, Clamp(Max(1, img.maxConnections), 1, maxC));
  }

  method Bound(job: DownloadEngine, maxC: i32, wanted: i32)
    requires 1 <= wanted <= maxC && (!job.ranged ==> maxC == 1)
    modifies job`minConnections, job`maxConnections, job`desiredConnections, job`releaseBudget
    ensures job.minConnections == 1 && job.maxConnections == maxC && job.desiredConnections == wanted
  {
    job.SetConnectionBounds(1, maxC);
    job.SetDesiredConnections(wanted);
  }

  /** The manager's checks; None for each refusal. */
  method Admit(img: JobImage, answer: Answer, localSize: Option<nat>, jobs: set<Text>)
    returns (admitted: Option<JobImage>)
    ensures admitted.Some? <==>
              Loadable(img, answer, localSize) && IdentityKey(img.filePath, Urls.Print(answer.url)) !in jobs
    ensures admitted.Some? ==> admitted.value == Refreshed(img, answer)
  {
    var stored := Urls.ParseUrl(img.url);
    if stored.None? || answer.NoAnswer? { return None; }
    if !MatchesStoredFile(img, answer.info) { return None; }
    var refreshed := Refreshed(img, answer);
    if IdentityKey(refreshed.filePath, refreshed.url) in jobs { return None; }
    if localSize.None? { return None; }
    if refreshed.fileSize > 0 && localSize.value != refreshed.fileSize { return None; }
    admitted := Some(refreshed);
  }

  method ReadImage(bytes: seq<byte>) returns (img: Option<JobImage>)
    ensures img == if Deserialize(bytes).Some? then Some(Deserialize(bytes).value.0) else None
  {
    var file := new FileStream(bytes);
    var ok, read, index := ReadImageFromDisk(file);
    img := if ok then Some(read) else None;
  }

  /** The identity under which the job of a loaded image is kept. */
  function LoadedKey(img: JobImage, answer: Answer): Text
    requires answer.Found? && Reparsed(answer.url).Some?
  {
    IdentityKey(img.filePath, Urls.Print(Reparsed(answer.url).value))
  }

  /** Loads a job from the image read from the file `path`; null for each refusal,
      after which the manager knows what it knew before. */
  method LoadJob(known: Registry, path: Text, read: Option<JobImage>, bytes: seq<byte>, answer: Answer,
                 localSize: Option<nat>, pool: Limits)
    returns (job: DownloadEngine?)
    requires Sound(answer) && (read.Some? ==> Storable(read.value))
    modifies known
    ensures job != null <==>
              && read.Some? && Loadable(read.value, answer, localSize)
              && Unknown(old(known.images), old(known.jobs), path, read.value, answer)
    ensures job == null ==> known.images == old(known.images) && known.jobs == old(known.jobs)
    ensures job != null ==>
              && fresh(job)
              && JustLoaded(job, Refreshed(read.value, answer), Reparsed(answer.url).value, MaxFor(answer, pool))
              && job.etag == answer.info.etag && job.lastModified == answer.info.lastModified
              && job.fileSize == answer.info.totalSize && job.ranged == answer.info.supportsRange
              && job.maxConnections == ComputeMaxConnections(answer.info.supportsRange, pool.speed, pool.threads)
              && known.images == old(known.images) + {path}
              && known.jobs == old(known.jobs) + {LoadedKey(read.value, answer)}
  {
    if read.None? || path in known.images { return null; }
    known.images := known.images + {path};
    var admitted := Admit(read.value, answer, localSize, known.jobs);
    if admitted.None? {
      known.images := known.images - {path};
      return null;
    }
    var url := Urls.ParseUrl(admitted.value.url);
    job := BuildJob(admitted.value, url.value, bytes, MaxFor(answer, pool));
    var text := Urls.GetUrlString(job.url);
    known.jobs := known.jobs + {IdentityKey(job.outputPath, text)};
  }

  /** A copy of a loaded image is refused under every path exactly when the URL keeps
      its printed form. */
  lemma CopyIsRefusedExactly(images: set<Text>, jobs: set<Text>, path: Text, copy: Text, img: JobImage,
                             img2: JobImage, answer: Answer)
    requires answer.Found? && Reparsed(answer.url).Some? && Unknown(images, jobs, path, img, answer)
    requires img2.filePath == img.filePath && copy !in images && copy != path
    ensures !Unknown(images + {path}, jobs + {LoadedKey(img, answer)}, copy, img2, answer) <==>
              Urls.Print(Reparsed(answer.url).value) == Urls.Print(answer.url)
  {
    var printed := Urls.Print(answer.url);
    var again := Urls.Print(Reparsed(answer.url).value);
    var n := |img.filePath| + 1;
    assert IdentityKey(img.filePath, printed)[n..] == printed;
    assert IdentityKey(img.filePath, again)[n..] == again;
  }

  /** So it is for a URL that came from an ordinary text. */
  lemma CopyIsRefused(images: set<Text>, jobs: set<Text>, path: Text, copy: Text, img: JobImage, img2: JobImage,
                      answer: Answer, text: Text)
    requires answer.Found? && text != [] && Urls.Parse(text) == Some(answer.url) && Urls.Survives(text)
    requires Unknown(images, jobs, path, img, answer) && img2.filePath == img.filePath
    ensures Reparsed(answer.url) == Some(answer.url)
    ensures !Unknown(images + {path}, jobs + {LoadedKey(img, answer)}, copy, img2, answer)
  {
    Urls.RoundTripExactly(text);
    if copy !in images && copy != path {
      CopyIsRefusedExactly(images, jobs, path, copy, img, img2, answer);
    }
  }

  /** The server still has the file that the image is about, under the same URL. */
  ghost predicate SameFile(img: JobImage, url: Urls.Url, answer: Answer)
  {
    && answer.Found? && MatchesStoredFile(img, answer.info) && answer.url == url
    && answer.info.totalSize == img.fileSize && answer.info.supportsRange == img.ranged
  }

  /** Loads a job in a new process, whose manager knows nothing yet. */
  method LoadFirst(path: Text, read: Option<JobImage>, bytes: seq<byte>, answer: Answer, localSize: Option<nat>,
                   pool: Limits)
    returns (job: DownloadEngine?)
    requires Sound(answer) && (read.Some? ==> Storable(read.value))
    ensures job != null <==> read.Some? && Loadable(read.value, answer, localSize)
    ensures job != null ==>
              && fresh(job)
              && JustLoaded(job, Refreshed(read.value, answer), Reparsed(answer.url).value, MaxFor(answer, pool))
  {
    var known := new Registry();
    job := LoadJob(known, path, read, bytes, answer, localSize, pool);
  }

  /** Stores the job, reads the image file back and loads it. A job whose file the
      server and the local disk still have goes on with the same chunks. */
  method Restart(job: DownloadEngine, answer: Answer, localSize: Option<nat>, pool: Limits, now: u64)
    returns (loaded: DownloadEngine?)
    requires job.Valid() && job.ImageInv() && !job.artifactsCleaned && Sound(answer)
    modifies job
    ensures Storable(job.stored) && job.stored.chunks == Snapshot(old(job.chunksInfo))
    ensures loaded != null <==> Loadable(job.stored, answer, localSize)
    ensures loaded != null ==>
              && fresh(loaded)
              && JustLoaded(loaded, Refreshed(job.stored, answer), Reparsed(answer.url).value, MaxFor(answer, pool))
              && loaded.chunksInfo == old(job.chunksInfo)
  {
    var read, bytes := StoreAndRead(job, now);
    loaded := LoadFirst(job.outputPath + ".muld", Some(read), bytes, answer, localSize, pool);
  }

  /** The image of a job, as the next process reads it. */
  method StoreAndRead(job: DownloadEngine, now: u64) returns (img: JobImage, bytes: seq<byte>)
    requires job.Valid() && job.ImageInv() && !job.artifactsCleaned
    modifies job
    ensures img == job.stored && Storable(img) && LoadedChunks(img.chunks) == old(job.chunksInfo)
    ensures img.chunks == Snapshot(old(job.chunksInfo))
    ensures !old(job.Patches()) ==> img == old(job.CurrentImage(now))
  {
    job.Store(now);
    StoredReadsBack(job.imageFile.value, job.stored, job.chunksInfo);
    bytes := job.imageFile.value;
    var read := ReadImage(bytes);
    img := read.value;
  }

  /** A job stored in full and loaded again is the same job, as far as an image can say. */
  method Reload(job: DownloadEngine, now: u64) returns (loaded: DownloadEngine)
    requires job.Valid() && job.ImageInv() && !job.artifactsCleaned && !job.Patches()
    requires Reparsed(job.url) == Some(job.url)
    modifies job
    ensures fresh(loaded) && loaded.Valid() && loaded.chunksInfo == old(job.chunksInfo)
    ensures loaded.url == old(job.url) && loaded.outputPath == job.outputPath && loaded.fileSize == job.fileSize
    ensures loaded.ranged == job.ranged && loaded.etag == old(job.etag) && loaded.lastModified == old(job.lastModified)
    ensures loaded.createdAt == job.createdAt && loaded.updatedAt == now
    ensures loaded.maxConnections == if job.ranged then Max(1, old(job.maxConnections)) else 1
    ensures loaded.nTotalReceivedBytes == ReceivedSum(old(job.chunksInfo))
  {
    var url := job.url;
    var img, bytes := StoreAndRead(job, now);
    loaded := new DownloadEngine.FromImage(img, url, bytes);
  }

  /** Whatever was received before the restart, and however often the server then
      cuts the connection, one worker leaves the remote file on disk; the loaded
      job completes exactly when something was left to receive. */
  method RestartAndFinish(job: DownloadEngine, answer: Answer, server: Server, disk: Disk, pool: Limits, now: u64)
    returns (loaded: DownloadEngine?)
    requires Ready(job, disk.data[..], server.remote) && job.ImageInv() && !job.artifactsCleaned
    requires Sound(answer) && answer.Found? && answer.info.supportsRange
    requires Quiet(server, true) && 0 !in disk.script
    modifies job, server, disk`script, disk.data
    ensures loaded != null <==> Loadable(job.stored, answer, Some(disk.data.Length))
    ensures loaded != null ==> disk.data[..] == server.remote
    ensures loaded != null ==>
              (loaded.state == Completed <==> FinishedCount(old(job.chunksInfo)) < |old(job.chunksInfo)|)
  {
    loaded := Restart(job, answer, Some(disk.data.Length), pool, now);
    if loaded != null {
      var resumed := ResumeAndRun(loaded, server, disk, now);
    }
  }

  /** The server's answer for an unchanged file admits the job. */
  lemma UnchangedIsLoadable(img: JobImage, url: Urls.Url, answer: Answer, localSize: nat)
    requires SameFile(img, url, answer) && Urls.Parse(img.url).Some?
    ensures Loadable(img, answer, Some(localSize)) <==> (img.fileSize > 0 ==> localSize == img.fileSize)
  {
  }

  // ---------------------------------------------------------------------------
  // Validators that come too late.

  /** The image has no validators, the engine has. */
  ghost predicate Unvalidated(stored: JobImage, current: JobImage)
  {
    && stored.etag == [] && stored.lastModified == []
    && SameFields(stored.(etag := current.etag, lastModified := current.lastModified), current)
  }

  /** An image without validators admits a file that the engine's own fields would
      refuse, exactly when only a validator tells them apart. */
  lemma WronglyAdmittedExactly(stored: JobImage, current: JobImage, answer: Answer, localSize: Option<nat>)
    requires Unvalidated(stored, current)
    ensures Loadable(stored, answer, localSize) && !Loadable(current, answer, localSize) <==>
              && Loadable(stored, answer, localSize)
              && ((current.etag != [] && answer.info.etag != [] && current.etag != answer.info.etag)
                  || (current.lastModified != [] && answer.info.lastModified != []
                      && current.lastModified != answer.info.lastModified))
  {
  }

  /** A new engine is published and started, and fails, before its validators are
      set. */
  method FailsEarly(url: Urls.Url, path: Text, fileSize: u64, now: u64) returns (job: DownloadEngine)
    requires |path| < TWO64 && |Urls.Print(url)| < TWO64
    ensures fresh(job) && job.Valid() && job.Saved() && job.Patches() && !job.artifactsCleaned
    ensures job.stored == job.CurrentImage(now) && job.etag == [] && job.lastModified == [] && job.fileSize == fileSize
  {
    job := StartsEarly(url, path, fileSize, now);
    var failed := job.Fail(now);
  }

  method StartsEarly(url: Urls.Url, path: Text, fileSize: u64, now: u64) returns (job: DownloadEngine)
    requires |path| < TWO64 && |Urls.Print(url)| < TWO64
    ensures fresh(job) && job.Valid() && job.ImageInv() && !job.imageStored
    ensures Active(job.state) && !job.artifactsCleaned
    ensures job.etag == [] && job.lastModified == [] && job.fileSize == fileSize
  {
    job := new DownloadEngine(url, path, PER_JOB_CONNECTION_CAP, fileSize, true, 1, now);
    var resumed, planned := job.Resume(1, [], now);
  }

  /** Every later store then patches around the validators: the image never has
      them. */
  method ValidatorsComeTooLate(url: Urls.Url, path: Text, fileSize: u64, etag: Text, lastModified: Text,
                               now: u64, later: u64)
    returns (job: DownloadEngine)
    requires |path| < TWO64 && |Urls.Print(url)| < TWO64 && |etag| < TWO64 && |lastModified| < TWO64
    ensures fresh(job) && job.Valid() && job.Saved() && !job.artifactsCleaned
    ensures job.etag == etag && job.lastModified == lastModified && job.stored.fileSize == fileSize
    ensures Unvalidated(job.stored, job.CurrentImage(later))
  {
    job := FailsEarly(url, path, fileSize, now);
    job.SetValidators(etag, lastModified);
    job.Store(later);
  }

  /** Such an image matches any file of its size. */
  lemma UnvalidatedMatches(stored: JobImage, current: JobImage, info: FileInfo)
    requires Unvalidated(stored, current)
    ensures MatchesStoredFile(stored, info) <==>
            (stored.fileSize > 0 && info.totalSize > 0 ==> stored.fileSize == info.totalSize)
  {
  }
}
