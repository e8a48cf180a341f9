/** A job whose server does not serve ranges, resumed in the middle of its file: the
    body begins at zero again, and is written behind what was received before. */
module Unranged {
  import opened Basics
  import opened Chunks
  import opened EngineSpec
  import opened JobImages
  import opened Engines
  import opened Workers
  import opened ProtocolData
  import Protocol
  import Urls

  /** What such a job leaves after `r` bytes were received. */
  function Misplaced(remote: seq<byte>, r: nat): (file: seq<byte>)
    requires r <= |remote|
    ensures |file| == |remote|
  {
    remote[..r] + remote[..|remote| - r]
  }

  /** The file repeats itself every `r` bytes. */
  predicate Repeats(remote: seq<byte>, r: nat)
  {
    forall i :: r <= i < |remote| ==> remote[i] == remote[i - r]
  }

  lemma MisplacedExactly(remote: seq<byte>, r: nat)
    requires r <= |remote|
    ensures Misplaced(remote, r) == remote <==> Repeats(remote, r)
  {
    var file := Misplaced(remote, r);
    if file == remote {
      forall i | r <= i < |remote|
        ensures remote[i] == remote[i - r]
      {
        assert file[i] == remote[i - r];
      }
    }
  }

  /** After `n` bytes of the new body. The array has room behind the file, into which
      the last write may reach. */
  ghost predicate Partly(job: DownloadEngine, disk: Disk, remote: seq<byte>, r: nat, n: nat)
    reads job, disk, disk.data
  {
    && job.Valid() && job.chunksInfo == [Chunk(0, |remote| - 1, r + n)]
    && r <= |remote| && n <= |remote| && r + n <= |remote| + BUFFER_SIZE <= disk.data.Length
    && |remote| + BUFFER_SIZE < TWO64
    && disk.data[..r + n] == remote[..r] + remote[..n] && 0 !in disk.script
    && Tallied(job.View(), job.chunksInfo) && (job.state == Downloading || job.state == Completed)
  }

  lemma WriteBehind(was: seq<byte>, remote: seq<byte>, r: nat, n: nat, m: nat, now: seq<byte>)
    requires r <= |remote| && n + m <= |remote| && r + n + m <= |was|
    requires was[..r + n] == remote[..r] + remote[..n]
    requires now == Protocol.Overwrite(was, r + n, remote[n..n + m])
    ensures now[..r + n + m] == remote[..r] + remote[..n + m]
  {
    assert remote[..n] + remote[n..n + m] == remote[..n + m];
  }

  method Write(disk: Disk, remote: seq<byte>, r: nat, n: nat, m: nat)
    requires r <= |remote| && n + m <= |remote| && r + n + m <= disk.data.Length && 0 !in disk.script
    requires disk.data[..r + n] == remote[..r] + remote[..n]
    modifies disk`script, disk.data
    ensures disk.data[..r + n + m] == remote[..r] + remote[..n + m] && 0 !in disk.script
  {
    ghost var was := disk.data[..];
    var ok, offset := WriteAll(disk, remote[n..n + m], r + n);
    assert remote[n..n + m][..m] == remote[n..n + m];
    WriteBehind(was, remote, r, n, m, disk.data[..]);
  }

  /** Writes and reports `m` bytes of the body. */
  method Put(job: DownloadEngine, disk: Disk, remote: seq<byte>, r: nat, n: nat, m: nat, now: u64)
    requires Partly(job, disk, remote, r, n) && r + n < |remote|
    requires 0 < m <= BUFFER_SIZE && n + m <= |remote|
    modifies job, disk`script, disk.data
    ensures Partly(job, disk, remote, r, n + m)
    ensures job.scheduledConnections == old(job.scheduledConnections) && job.nConnections == old(job.nConnections)
    ensures job.desiredConnections == old(job.desiredConnections)
  {
    Write(disk, remote, r, n, m);
    NotifiedTally(job.View(), job.Work(), 0, m);
    UnfinishedCount(job.chunksInfo, 0);
    var finished := job.NotifyChunkReceived(0, m, now);
  }

  /** Streams the body until it is done or the job is not Downloading any more. */
  method Stream(job: DownloadEngine, server: Server, disk: Disk, r: nat, now: u64) returns (n: nat)
    requires Partly(job, disk, server.remote, r, 0) && r < |server.remote| && Calm(server.script, false)
    modifies job, server`script, disk`script, disk.data
    ensures Partly(job, disk, server.remote, r, n) && job.state == Completed
  {
    n := 0;
    while n < |server.remote| && job.state == Downloading
      invariant Partly(job, disk, server.remote, r, n) && Calm(server.script, false)
      decreases |server.script|, |server.remote| - n
    {
      var reply := server.Next();
      var m := Min(Min(reply.ready, Clamp(reply.allowed, 1, BUFFER_SIZE)), |server.remote| - n);
      if m > 0 {
        Put(job, disk, server.remote, r, n, m, now);
        n := n + m;
      }
    }
  }

  lemma PartlyWhole(job: DownloadEngine, disk: Disk, remote: seq<byte>, r: nat, n: nat)
    requires Partly(job, disk, remote, r, n) && job.state == Completed
    ensures disk.data[..|remote|] == Misplaced(remote, r)
  {
    assert disk.data[..|remote|] == disk.data[..r + n][..|remote|];
  }

  /** The worker: one item, asked for once. A response that is not read to its end is
      an exception, whose failure a completed job does not take. */
  method Worker(job: DownloadEngine, server: Server, disk: Disk, r: nat, now: u64)
    requires Partly(job, disk, server.remote, r, 0) && r < |server.remote| && Quiet(server, false)
    requires job.releaseBudget <= 0 && job.nextWorkItem < |job.pendingWork|
    requires job.pendingWork[job.nextWorkItem].rangeStart == r
    modifies job, server, disk`script, disk.data
    ensures job.Valid() && job.state == Completed && disk.data[..|server.remote|] == Misplaced(server.remote, r)
  {
    var release := job.ShouldReleaseConnection();
    var item := job.GetNextWorkItem();
    release := job.ShouldReleaseConnection();
    var ok := server.Connect();
    Fetch(job, server, disk, item.value.rangeStart, now);
  }

  method Fetch(job: DownloadEngine, server: Server, disk: Disk, r: nat, now: u64)
    requires Partly(job, disk, server.remote, r, 0) && r < |server.remote| && Calm(server.script, false)
    modifies job, server, disk`script, disk.data
    ensures job.Valid() && job.state == Completed && disk.data[..|server.remote|] == Misplaced(server.remote, r)
  {
    var n := Stream(job, server, disk, r, now);
    PartlyWhole(job, disk, server.remote, r, n);
    server.EndResponse(n == |server.remote|);
    if n < |server.remote| {
      var failed := job.Fail(now);
    }
  }

  /** A halted job, without a worker, whose file has been received up to `r`. */
  ghost predicate StoppedAt(job: DownloadEngine, disk: Disk, remote: seq<byte>, r: nat)
    reads job, disk, disk.data
  {
    && job.Valid() && !job.ranged && job.chunksInfo == [Chunk(0, |remote| - 1, r)] && r < |remote|
    && |remote| + BUFFER_SIZE <= disk.data.Length && |remote| + BUFFER_SIZE < TWO64
    && disk.data[..r] == remote[..r] && 0 !in disk.script
    && Allows(job.state, Queued) && job.desiredConnections > 0 && !job.artifactsCleaned
    && job.scheduledConnections == 0 && job.nConnections == 0
  }

  /** Resume, as far as the worker's first item. */
  method Restarted(job: DownloadEngine, disk: Disk, remote: seq<byte>, r: nat)
    requires StoppedAt(job, disk, remote, r)
    modifies job
    ensures Partly(job, disk, remote, r, 0) && job.releaseBudget <= 0
    ensures job.scheduledConnections == 1 && job.nConnections == 1
    ensures job.desiredConnections == old(job.desiredConnections)
    ensures job.nextWorkItem < |job.pendingWork| && job.pendingWork[job.nextWorkItem].rangeStart == r
  {
    ghost var cs := job.chunksInfo;
    assert BuildUpTo(cs, 1) == BuildUpTo(cs, 0) + [WorkItem(0, 0, r, |remote| - 1)];
    assert FinishedUpTo(cs, 1) == FinishedUpTo(cs, 0);
    var resumed, planned := job.Resume(1, [], 0);
    job.NotifyConnectionOpen();
  }

  /** The resumed job completes, and its file is right exactly when it repeats itself
      every `r` bytes. */
  method ResumeCut(job: DownloadEngine, server: Server, disk: Disk, r: nat, now: u64)
    requires StoppedAt(job, disk, server.remote, r) && Quiet(server, false)
    modifies job, server, disk`script, disk.data
    ensures job.state == Completed && disk.data[..|server.remote|] == Misplaced(server.remote, r)
    ensures disk.data[..|server.remote|] == server.remote <==> Repeats(server.remote, r)
  {
    Restarted(job, disk, server.remote, r);
    Worker(job, server, disk, r, now);
    job.NotifyConnectionClose();
    MisplacedExactly(server.remote, r);
  }

  method PutAll(job: DownloadEngine, disk: Disk, remote: seq<byte>, r: nat, now: u64)
    requires Partly(job, disk, remote, 0, 0) && r < |remote|
    requires job.scheduledConnections == 1 && job.nConnections == 1 && job.desiredConnections > 0
    modifies job, disk`script, disk.data
    ensures Partly(job, disk, remote, 0, r)
    ensures job.scheduledConnections == 1 && job.nConnections == 1 && job.desiredConnections > 0
  {
    var n := 0;
    while n < r
      invariant n <= r && Partly(job, disk, remote, 0, n)
      invariant job.scheduledConnections == 1 && job.nConnections == 1 && job.desiredConnections > 0
      decreases r - n
    {
      var m := Min(BUFFER_SIZE, r - n);
      Put(job, disk, remote, 0, n, m, now);
      n := n + m;
    }
  }

  /** A new job receives `r` bytes, is cut off, and fails. */
  method CutOff(url: Urls.Url, path: Text, remote: seq<byte>, disk: Disk, r: nat, now: u64)
    returns (job: DownloadEngine)
    requires |path| < TWO64 && |Urls.Print(url)| < TWO64 && r < |remote| && 0 !in disk.script
    requires |remote| + BUFFER_SIZE <= disk.data.Length && |remote| + BUFFER_SIZE < TWO64
    modifies disk`script, disk.data
    ensures fresh(job) && StoppedAt(job, disk, remote, r)
  {
    job := new DownloadEngine(url, path, 1, |remote|, false, 1, now);
    Restarted(job, disk, remote, 0);
    PutAll(job, disk, remote, r, now);
    BreakOff(job, disk, remote, r, now);
  }

  /** The exception of a broken response, and the close. */
  method BreakOff(job: DownloadEngine, disk: Disk, ghost remote: seq<byte>, r: nat, now: u64)
    requires Partly(job, disk, remote, 0, r) && r < |remote| && !job.ranged
    requires job.scheduledConnections == 1 && job.nConnections == 1 && job.desiredConnections > 0
    modifies job
    ensures StoppedAt(job, disk, remote, r)
  {
    assert remote[..0] + remote[..r] == remote[..r];
    FailAndClose(job, now);
  }

  method FailAndClose(job: DownloadEngine, now: u64)
    requires job.Valid() && job.state == Downloading && !job.artifactsCleaned
    requires job.scheduledConnections == 1 && job.nConnections == 1
    modifies job
    ensures job.Valid() && job.state == Failed && !job.artifactsCleaned
    ensures job.scheduledConnections == 0 && job.nConnections == 0
    ensures job.chunksInfo == old(job.chunksInfo) && job.desiredConnections == old(job.desiredConnections)
  {
    var failed := job.Fail(now);
    job.NotifyConnectionClose();
  }

  /** So every job without ranges that is cut off and resumed ends Completed, with the
      beginning of the file twice unless `r` is zero. */
  method CutAndResumed(url: Urls.Url, path: Text, server: Server, disk: Disk, r: nat, now: u64)
    returns (job: DownloadEngine)
    requires |path| < TWO64 && |Urls.Print(url)| < TWO64 && r < |server.remote|
    requires Quiet(server, false) && 0 !in disk.script
    requires |server.remote| + BUFFER_SIZE <= disk.data.Length && |server.remote| + BUFFER_SIZE < TWO64
    modifies server, disk`script, disk.data
    ensures job.state == Completed && disk.data[..|server.remote|] == Misplaced(server.remote, r)
    ensures disk.data[..|server.remote|] == server.remote <==> Repeats(server.remote, r)
  {
    job := CutOff(url, path, server.remote, disk, r, now);
    ResumeCut(job, server, disk, r, now);
  }
}
