/** One worker: the nested loops that claim work items, stream them
    from the server to the output file and report them to the engine. Other threads
    may pause, cancel or fail the job meanwhile; left alone, the loops complete it. */
module Workers {
  import opened Basics
  import opened Chunks
  import opened EngineSpec
  import opened JobImages
  import opened Engines
  import opened ProtocolData
  import Protocol

  /** How one read ends: the buffer was full or the body is done, the server broke
      off, or the network failed for good. */
  datatype ReadEnd = NeedBuffer | Interrupted | Fatal

  /** What other threads do to the job after the worker's state check. */
  datatype Meanwhile = Nothing | Pauses | Cancels | Fails

  /** What happens around one read: what others do meanwhile, how much budget the
      token bucket grants, how many bytes the server has ready, and how the read
      ends. */
  datatype Reply = Reply(meanwhile: Meanwhile, allowed: nat, ready: nat, end: ReadEnd)

  const FULL_READ := Reply(Nothing, BUFFER_SIZE, BUFFER_SIZE, NeedBuffer)

  /** How a connection attempt goes, and whether the server keeps the connection
      after a response. */
  datatype Link = Link(up: bool, keep: bool)

  /** A read that does not end the worker: nobody interferes and the network does not
      fail; a job with ranges may be cut off. */
  predicate CalmReply(reply: Reply, ranged: bool)
  {
    reply.meanwhile == Nothing && reply.end != Fatal && (!ranged ==> reply.end != Interrupted)
  }

  predicate Calm(script: seq<Reply>, ranged: bool)
  {
    forall k :: 0 <= k < |script| ==> CalmReply(script[k], ranged)
  }

  predicate Up(links: seq<Link>)
  {
    forall k :: 0 <= k < |links| ==> links[k].up
  }

  /** The server, the worker's connection to it and the token bucket as an oracle:
      scripts of replies and of connection attempts; when they have run out, full
      reads and good connections for ever. */
  class Server {
    const remote: seq<byte>
    var script: seq<Reply>
    var links: seq<Link>
    var connected: bool
    var keepsAlive: bool
    /** Bytes received in reads during which the job was no longer Downloading. */
    ghost var late: nat

    constructor (remote: seq<byte>, script: seq<Reply>, links: seq<Link>)
      ensures this.remote == remote && this.script == script && this.links == links && !connected
    {
      this.remote, this.script, this.links, connected, keepsAlive := remote, script, links, false, false;
    }

    method Next() returns (reply: Reply)
      modifies this`script
      ensures old(script) == [] ==> script == [] && reply == FULL_READ
      ensures old(script) != [] ==> script == old(script)[1..] && reply == old(script)[0]
      ensures forall ranged :: Calm(old(script), ranged) ==> Calm(script, ranged) && CalmReply(reply, ranged)
    {
      if script == [] {
        reply := FULL_READ;
      } else {
        reply := script[0];
        script := script[1..];
      }
    }

    /** Connects unless connected; false for an exception. */
    method Connect() returns (ok: bool)
      modifies this`links, this`connected, this`keepsAlive
      ensures Up(old(links)) ==> ok && Up(links)
      ensures connected == ok
      ensures old(connected) ==> ok && links == old(links) && keepsAlive == old(keepsAlive)
      ensures !old(connected) && old(links) != [] ==>
                links == old(links)[1..] && ok == old(links)[0].up && keepsAlive == old(links)[0].keep
    {
      ok := true;
      if !connected {
        var link := if links == [] then Link(true, true) else links[0];
        links := if links == [] then [] else links[1..];
        ok, connected, keepsAlive := link.up, link.up, link.keep;
      }
    }

    /** After a response: the connection is closed unless it was used up and the
        server keeps it. */
    method EndResponse(finished: bool)
      modifies this`connected
      ensures connected == (old(connected) && finished && keepsAlive)
    {
      if !finished || !keepsAlive {
        connected := false;
      }
    }
  }

  /** The output file; `script` says how many bytes each write takes, zero for an
      error; then every write is complete. */
  class Disk {
    const data: array<byte>
    var script: seq<nat>

    constructor (data: array<byte>, script: seq<nat>)
      ensures this.data == data && this.script == script
    {
      this.data, this.script := data, script;
    }

    /** Writes a prefix of `bytes`. */
    method Write(bytes: seq<byte>, at: nat) returns (n: nat)
      requires bytes != [] && at + |bytes| <= data.Length
      modifies data, this`script
      ensures n <= |bytes| && (0 !in old(script) ==> n > 0 && 0 !in script)
      ensures data[..] == Protocol.Overwrite(old(data[..]), at, bytes[..n])
    {
      if script == [] {
        n := |bytes|;
      } else {
        n := Min(script[0], |bytes|);
        script := script[1..];
      }
      ghost var was := data[..];
      forall i | 0 <= i < n { data[at + i] := bytes[i]; }
      assert data[..] == Protocol.Overwrite(was, at, bytes[..n]);
    }
  }

  /** The short-write loop: all bytes, or an error after some of them. */
  method WriteAll(disk: Disk, bytes: seq<byte>, at: nat) returns (ok: bool, offset: nat)
    requires at + |bytes| <= disk.data.Length
    modifies disk.data, disk`script
    ensures at <= offset <= at + |bytes|
    ensures disk.data[..] == Protocol.Overwrite(old(disk.data[..]), at, bytes[..offset - at])
    ensures ok <==> offset == at + |bytes|
    ensures 0 !in old(disk.script) ==> ok && 0 !in disk.script
  {
    ghost var was := disk.data[..];
    var written := 0;
    offset := at;
    WriteNothing(was, at, bytes);
    while written < |bytes|
      invariant written <= |bytes| && offset == at + written
      invariant disk.data[..] == Protocol.Overwrite(was, at, bytes[..written])
      invariant 0 !in old(disk.script) ==> 0 !in disk.script
    {
      var n := WriteSome(disk, was, bytes, at, written);
      if n == 0 { return false, offset; }
      written, offset := written + n, offset + n;
    }
    ok := true;
  }

  /** One write of what is left of the buffer. */
  method WriteSome(disk: Disk, ghost was: seq<byte>, bytes: seq<byte>, at: nat, written: nat) returns (n: nat)
    requires written < |bytes| && at + |bytes| <= disk.data.Length == |was|
    requires disk.data[..] == Protocol.Overwrite(was, at, bytes[..written])
    modifies disk.data, disk`script
    ensures written + n <= |bytes| && disk.data[..] == Protocol.Overwrite(was, at, bytes[..written + n])
    ensures 0 !in old(disk.script) ==> n > 0 && 0 !in disk.script
  {
    n := disk.Write(bytes[written..], at + written);
    WriteOnward(was, at, bytes, written, n, disk.data[..]);
  }

  lemma WriteNothing(was: seq<byte>, at: nat, bytes: seq<byte>)
    requires at + |bytes| <= |was|
    ensures Protocol.Overwrite(was, at, bytes[..0]) == was
  {
  }

  lemma WriteOnward(was: seq<byte>, at: nat, bytes: seq<byte>, written: nat, n: nat, now: seq<byte>)
    requires written + n <= |bytes| && at + |bytes| <= |was|
    requires now
               == Protocol.Overwrite(Protocol.Overwrite(was, at, bytes[..written]), at + written, bytes[written..][..n])
    ensures now == Protocol.Overwrite(was, at, bytes[..written + n])
  {
    assert bytes[..written] + bytes[written..][..n] == bytes[..written + n];
  }

  // ---------------------------------------------------------------------------
  // Receiving one buffer.

  /** The engine's received prefixes are on disk. */
  ghost predicate Ready(job: DownloadEngine, file: seq<byte>, remote: seq<byte>)
    reads job
  {
    job.Valid() && |file| == |remote| < TWO64 && SafeChunks(file, remote, job.chunksInfo)
  }

  /** A started engine with a connection open has counted its finished chunks, and
      completes with the last one even if it was paused or failed in between; not
      if it was canceled. */
  predicate Tallied(e: Engine, cs: seq<Chunk>)
  {
    && e.downloaded == FinishedCount(cs) && e.conns > 0
    && (if FinishedCount(cs) == |cs| then e.state == Completed || e.state == Canceled
        else e.state == Downloading || e.state == Paused || e.state == Failed || e.state == Canceled)
    && (e.cleaned <==> e.state == Completed)
  }

  lemma UnfinishedCount(cs: seq<Chunk>, c: nat)
    requires c < |cs| && !cs[c].Finished()
    ensures FinishedCount(cs) < |cs|
  {
    AllFinished(cs, |cs|);
  }

  /** A notified engine is tallied again. */
  lemma NotifiedTally(e: Engine, w: EngineSpec.Work, c: nat, bytes: nat)
    requires c < |w.chunks| && !w.chunks[c].Finished() && Tallied(e, w.chunks)
    ensures var w' := AddReceived(w, c, bytes);
            Tallied(Notified(e, w'.chunks[c], bytes, |w.chunks|), w'.chunks)
  {
    var w' := AddReceived(w, c, bytes);
    UnfinishedCount(w.chunks, c);
    FinishedUpdate(w.chunks, c, w'.chunks[c], |w.chunks|);
    if !w'.chunks[c].Finished() { UnfinishedCount(w'.chunks, c); }
  }

  /** Writes a received buffer and reports it; false when the disk failed. */
  method Deliver(job: DownloadEngine, disk: Disk, ghost remote: seq<byte>, c: nat, bytes: seq<byte>, at: nat, now: u64)
    returns (ok: bool, offset: nat)
    requires Ready(job, disk.data[..], remote) && Tallied(job.View(), job.chunksInfo)
    requires c < |job.chunksInfo| && !job.chunksInfo[c].Finished() && at == job.chunksInfo[c].Pos()
    requires bytes != [] && at + |bytes| <= job.chunksInfo[c].end + 1 && bytes == remote[at..at + |bytes|]
    modifies job, disk`script, disk.data
    ensures job.nConnections == old(job.nConnections) && job.scheduledConnections == old(job.scheduledConnections)
    ensures Ready(job, disk.data[..], remote) && Tallied(job.View(), job.chunksInfo)
    ensures ok ==> offset == at + |bytes| && job.Work() == AddReceived(old(job.Work()), c, |bytes|)
    ensures !ok ==> job.Work() == old(job.Work())
    ensures job.releaseBudget == old(job.releaseBudget)
    ensures job.state == old(job.state) || job.state == Completed
    ensures 0 !in old(disk.script) ==> ok && 0 !in disk.script
  {
    ghost var was := disk.data[..];
    ok, offset := WriteAll(disk, bytes, at);
    WriteHelps(was, remote, at, bytes[..offset - at]);
    SafeStays(was, disk.data[..], remote, job.chunksInfo);
    if !ok { return; }
    assert bytes[..offset - at] == bytes;
    Report(job, disk.data[..], remote, c, |bytes|, now);
  }

  /** Reports bytes that are on disk. */
  method Report(job: DownloadEngine, ghost file: seq<byte>, ghost remote: seq<byte>, c: nat, n: nat, now: u64)
    requires Ready(job, file, remote) && Tallied(job.View(), job.chunksInfo)
    requires c < |job.chunksInfo| && !job.chunksInfo[c].Finished()
    requires job.chunksInfo[c].Pos() + n <= job.chunksInfo[c].end + 1
    requires Matches(file, remote, job.chunksInfo[c].Pos(), job.chunksInfo[c].Pos() + n)
    modifies job
    ensures job.nConnections == old(job.nConnections) && job.scheduledConnections == old(job.scheduledConnections)
    ensures Ready(job, file, remote) && Tallied(job.View(), job.chunksInfo)
    ensures job.Work() == AddReceived(old(job.Work()), c, n)
    ensures job.releaseBudget == old(job.releaseBudget)
    ensures job.state == old(job.state) || job.state == Completed
  {
    ReceiveSafe(file, remote, job.Work(), c, n);
    NotifiedTally(job.View(), job.Work(), c, n);
    UnfinishedCount(job.chunksInfo, c);
    var finished := job.NotifyChunkReceived(c, n, now);
  }

  // ---------------------------------------------------------------------------
  // Streaming one response.

  /** Nothing goes wrong: nobody has interfered with the job nor will, the network
      and the disk do not fail. */
  ghost predicate Smooth(job: DownloadEngine, server: Server, disk: Disk)
    reads job, server, disk
  {
    (job.state == Downloading || job.state == Completed) && Quiet(server, job.ranged) && 0 !in disk.script
  }

  ghost predicate Quiet(server: Server, ranged: bool)
    reads server
  {
    Calm(server.script, ranged) && Up(server.links)
  }

  /** The state of a downloading job after others have acted. */
  function After(what: Meanwhile): RunState
  {
    match what
    case Nothing => Downloading
    case Pauses => Paused
    case Cancels => Canceled
    case Fails => Failed
  }

  /** Other threads act on the job while this worker's connection is open. */
  method Interfere(job: DownloadEngine, ghost file: seq<byte>, ghost remote: seq<byte>, what: Meanwhile, now: u64)
    requires Ready(job, file, remote) && Tallied(job.View(), job.chunksInfo)
    requires FinishedCount(job.chunksInfo) < |job.chunksInfo|
    modifies job
    ensures job.nConnections == old(job.nConnections) && job.scheduledConnections == old(job.scheduledConnections)
    ensures Ready(job, file, remote) && Tallied(job.View(), job.chunksInfo) && job.Work() == old(job.Work())
    ensures job.releaseBudget == old(job.releaseBudget) && (what == Nothing ==> job.state == old(job.state))
    ensures old(job.state) == Downloading ==> job.state == After(what)
  {
    match what
    case Nothing =>
    case Pauses => var paused := job.Pause();
    case Cancels => var canceled := job.Cancel();
    case Fails => var failed := job.Fail(now);
  }

  datatype StreamEnd = Finished | Cut | Broken

  lemma AddNothing(w: EngineSpec.Work, c: nat)
    requires c < |w.chunks|
    ensures AddReceived(w, c, 0) == w
  {
  }

  lemma AddTwice(w: EngineSpec.Work, c: nat, m: nat, n: nat)
    requires c < |w.chunks|
    ensures AddReceived(AddReceived(w, c, m), c, n) == AddReceived(w, c, m + n)
  {
  }

  /** Reads within the budget, writes, and reports. The body of a job without ranges
      begins at zero, that of others at `from`. */
  method ReadAndWrite(job: DownloadEngine, server: Server, disk: Disk, c: nat, from: nat, at: nat, reply: Reply,
                      now: u64)
    returns (end: StreamEnd, offset: nat, ghost got: nat)
    requires from <= at && (job.ranged || from == 0)
    requires Ready(job, disk.data[..], server.remote) && Tallied(job.View(), job.chunksInfo)
    requires c < |job.chunksInfo| && !job.chunksInfo[c].Finished() && at == job.chunksInfo[c].Pos()
    modifies job, disk`script, disk.data
    ensures job.nConnections == old(job.nConnections) && job.scheduledConnections == old(job.scheduledConnections)
    ensures Ready(job, disk.data[..], server.remote) && Tallied(job.View(), job.chunksInfo)
    ensures job.Work() == AddReceived(old(job.Work()), c, got) && got <= 32768
    ensures at + got <= old(job.chunksInfo)[c].end + 1
    ensures end != Broken ==> offset == at + got
    ensures end != Finished ==> at + got <= old(job.chunksInfo)[c].end
    ensures end == Cut ==> reply.end == Interrupted
    ensures reply == FULL_READ && end == Finished ==> got > 0
    ensures job.releaseBudget == old(job.releaseBudget)
    ensures job.state == old(job.state) || job.state == Completed
    ensures 0 !in old(disk.script) && reply.end != Fatal ==> end != Broken && 0 !in disk.script
  {
    offset, got := at, 0;
    AddNothing(job.Work(), c);
    var last := job.chunksInfo[c].end;
    var n := Min(Min(reply.ready, Clamp(reply.allowed, 1, BUFFER_SIZE)), last + 1 - at);
    if n > 0 {
      var ok;
      var body := if job.ranged then at else at - from;
      ok, offset := Deliver(job, disk, server.remote, c, server.remote[body..body + n], at, now);
      if !ok { return Broken, offset, got; }
      got := n;
    }
    end :=
      if offset > last || reply.end == NeedBuffer then Finished else if reply.end == Interrupted then Cut else Broken;
  }

  /** A worker that finds its job not Downloading receives and writes nothing. */
  ghost predicate Stopped(job: DownloadEngine, server: Server, disk: Disk, late: nat, file: seq<byte>, end: StreamEnd,
                          got: nat)
    reads job, server, disk, disk.data
  {
    end == Cut && got == 0 && server.late == late && disk.data[..] == file
  }

  /** The next reply comes with an act of another thread. */
  ghost predicate Acted(server: Server)
    reads server
  {
    server.script != [] && server.script[0].meanwhile != Nothing
  }

  /** One turn of the body loop for a request made at `from`. `Finished` means go on;
      `got` bytes were received. */
  method ReadOnce(job: DownloadEngine, server: Server, disk: Disk, c: nat, from: nat, at: nat, now: u64)
    returns (end: StreamEnd, offset: nat, ghost got: nat)
    requires from <= at && (job.ranged || from == 0)
    requires Ready(job, disk.data[..], server.remote) && Tallied(job.View(), job.chunksInfo)
    requires c < |job.chunksInfo| && !job.chunksInfo[c].Finished() && at == job.chunksInfo[c].Pos()
    modifies job, server, disk`script, disk.data
    ensures job.nConnections == old(job.nConnections) && job.scheduledConnections == old(job.scheduledConnections)
    ensures Ready(job, disk.data[..], server.remote) && Tallied(job.View(), job.chunksInfo)
    ensures job.Work() == AddReceived(old(job.Work()), c, got)
    ensures at + got <= old(job.chunksInfo)[c].end + 1
    ensures old(job.state) != Downloading ==> Stopped(job, server, disk, old(server.late), old(disk.data[..]), end, got)
    ensures old(server.late) <= server.late <= old(server.late) + 32768
    ensures server.late > old(server.late) ==> job.state != Downloading
    ensures old(job.state) == Downloading && old(Acted(server)) ==> server.late == old(server.late) + got
    ensures end != Broken ==> offset == at + got
    ensures end != Finished ==> at + got <= old(job.chunksInfo)[c].end
    ensures |server.script| <= |old(server.script)|
    ensures end == Finished ==> |server.script| < |old(server.script)| || got > 0
    ensures end == Cut ==> |server.script| < |old(server.script)| || job.state != Downloading
    ensures job.releaseBudget == old(job.releaseBudget)
    ensures old(Smooth(job, server, disk)) ==> end != Broken && (end == Cut ==> job.ranged) && Smooth(job, server, disk)
  {
    offset, got := at, 0;
    AddNothing(job.Work(), c);
    UnfinishedCount(job.chunksInfo, c);
    if job.state != Downloading { return Cut, offset, got; }
    var reply := server.Next();
    Interfere(job, disk.data[..], server.remote, reply.meanwhile, now);
    ghost var stopped := job.state != Downloading;
    if reply.allowed == 0 && job.state != Downloading { return Cut, offset, got; }
    end, offset, got := ReadAndWrite(job, server, disk, c, from, at, reply, now);
    server.late := server.late + if stopped then got else 0;
  }

  /** `got` bytes of chunk `c` have been received since `w`. */
  ghost predicate Came(job: DownloadEngine, w: EngineSpec.Work, c: nat, got: nat)
    reads job
  {
    c < |w.chunks| && job.Work() == AddReceived(w, c, got)
  }

  /** One turn of the body loop, added to what came before. */
  method ReadMore(job: DownloadEngine, server: Server, disk: Disk, c: nat, from: nat, at: nat, ghost w: EngineSpec.Work,
                  ghost before: nat, now: u64)
    returns (end: StreamEnd, offset: nat, ghost got: nat)
    requires from <= at && (job.ranged || from == 0)
    requires Ready(job, disk.data[..], server.remote) && Tallied(job.View(), job.chunksInfo)
    requires Came(job, w, c, before) && !job.chunksInfo[c].Finished() && at == w.chunks[c].Pos() + before
    modifies job, server, disk`script, disk.data
    ensures job.nConnections == old(job.nConnections) && job.scheduledConnections == old(job.scheduledConnections)
    ensures Ready(job, disk.data[..], server.remote) && Tallied(job.View(), job.chunksInfo)
    ensures Came(job, w, c, got) && before <= got && w.chunks[c].Pos() + got <= w.chunks[c].end + 1
    ensures old(job.state) != Downloading ==>
              Stopped(job, server, disk, old(server.late), old(disk.data[..]), end, got - before)
    ensures old(server.late) <= server.late <= old(server.late) + 32768
    ensures server.late > old(server.late) ==> job.state != Downloading
    ensures end != Broken ==> offset == w.chunks[c].Pos() + got
    ensures end != Finished ==> w.chunks[c].Pos() + got <= w.chunks[c].end
    ensures |server.script| <= |old(server.script)|
    ensures end == Finished ==> |server.script| < |old(server.script)| || got > before
    ensures end == Cut ==> |server.script| < |old(server.script)| || job.state != Downloading
    ensures job.releaseBudget == old(job.releaseBudget)
    ensures old(Smooth(job, server, disk)) ==> end != Broken && (end == Cut ==> job.ranged) && Smooth(job, server, disk)
  {
    ghost var more;
    end, offset, more := ReadOnce(job, server, disk, c, from, at, now);
    AddTwice(w, c, before, more);
    got := before + more;
  }

  /** Streams the body of a response for [at, last]. `Cut` leaves the rest of the
      chunk to be asked for again; `Broken` is an exception. */
  method StreamBodyToDisk(job: DownloadEngine, server: Server, disk: Disk, c: nat, at: nat, last: nat, now: u64)
    returns (end: StreamEnd, offset: nat, ghost got: nat)
    requires Ready(job, disk.data[..], server.remote) && Tallied(job.View(), job.chunksInfo)
    requires c < |job.chunksInfo| && !job.chunksInfo[c].Finished() && (job.ranged || at == 0)
    requires at == job.chunksInfo[c].Pos() && last == job.chunksInfo[c].end
    modifies job, server, disk`script, disk.data
    ensures job.nConnections == old(job.nConnections) && job.scheduledConnections == old(job.scheduledConnections)
    ensures Ready(job, disk.data[..], server.remote) && Tallied(job.View(), job.chunksInfo)
    ensures Came(job, old(job.Work()), c, got)
    ensures old(job.state) != Downloading ==> Stopped(job, server, disk, old(server.late), old(disk.data[..]), end, got)
    ensures old(server.late) <= server.late <= old(server.late) + 32768
    ensures if end == Finished then at + got == last + 1 else at + got <= last
    ensures end != Broken ==> offset == at + got
    ensures |server.script| <= |old(server.script)|
    ensures end == Cut ==> |server.script| < |old(server.script)| || job.state != Downloading
    ensures job.releaseBudget == old(job.releaseBudget)
    ensures old(Smooth(job, server, disk)) ==> end != Broken && (end == Cut ==> job.ranged) && Smooth(job, server, disk)
  {
    offset, got := at, 0;
    AddNothing(job.Work(), c);
    ghost var w, smooth := job.Work(), Smooth(job, server, disk);
    ghost var before, file := server.late, disk.data[..];
    while offset <= last
      invariant job.nConnections == old(job.nConnections) && job.scheduledConnections == old(job.scheduledConnections)
      invariant Ready(job, disk.data[..], server.remote) && Tallied(job.View(), job.chunksInfo)
      invariant Came(job, w, c, got) && offset == at + got <= last + 1
      invariant |server.script| <= |old(server.script)|
      invariant old(job.state) != Downloading ==> job.state != Downloading && got == 0 && disk.data[..] == file
      invariant before <= server.late <= before + 32768 && (server.late == before || job.state != Downloading)
      invariant old(job.state) != Downloading ==> server.late == before
      invariant job.releaseBudget == old(job.releaseBudget)
      invariant smooth ==> Smooth(job, server, disk)
      decreases |server.script|, last + 1 - offset
    {
      end, offset, got := ReadMore(job, server, disk, c, at, offset, w, got, now);
      if end != Finished { return; }
    }
    end := Finished;
  }

  // ---------------------------------------------------------------------------
  // Items.

  /** `Left`: the worker gives up its connection; `Thrown`: an exception. */
  datatype ItemEnd = Done | Left | Thrown

  /** The item's chunk stands at `offset`, before its end. */
  ghost predicate StandsAt(cs: seq<Chunk>, item: WorkItem, offset: nat)
  {
    && item.chunk < |cs| && !cs[item.chunk].Finished()
    && cs[item.chunk].Pos() == offset && cs[item.chunk].end == item.rangeEnd
  }

  lemma StandsFurther(w: EngineSpec.Work, item: WorkItem, offset: nat, more: nat)
    requires StandsAt(w.chunks, item, offset) && offset + more <= item.rangeEnd
    ensures StandsAt(AddReceived(w, item.chunk, more).chunks, item, offset + more)
  {
  }

  /** Connects if need be, asks for the rest of an item and streams it. Without
      ranges a response that is cut off is an exception. */
  method Respond(job: DownloadEngine, server: Server, disk: Disk, item: WorkItem, at: nat, now: u64)
    returns (end: StreamEnd, offset: nat, ghost got: nat)
    requires Ready(job, disk.data[..], server.remote) && Tallied(job.View(), job.chunksInfo)
    requires StandsAt(job.chunksInfo, item, at) && (job.ranged || at == 0)
    modifies job, server, disk`script, disk.data
    ensures job.nConnections == old(job.nConnections) && job.scheduledConnections == old(job.scheduledConnections)
    ensures Ready(job, disk.data[..], server.remote) && Tallied(job.View(), job.chunksInfo)
    ensures job.Work() == AddReceived(old(job.Work()), item.chunk, got)
    ensures if end == Finished then at + got == item.rangeEnd + 1
            else at + got <= item.rangeEnd && StandsAt(job.chunksInfo, item, at + got)
    ensures end != Broken ==> offset == at + got
    ensures end == Cut ==> job.ranged
    ensures !old(server.connected) && old(server.links) != [] && !old(server.links)[0].up ==>
              end == Broken && got == 0 && disk.data[..] == old(disk.data[..])
    ensures end != Finished ==> !server.connected
    ensures old(job.state) != Downloading ==> got == 0 && disk.data[..] == old(disk.data[..])
    ensures |server.script| <= |old(server.script)|
    ensures end == Cut ==> |server.script| < |old(server.script)| || job.state != Downloading
    ensures job.releaseBudget == old(job.releaseBudget)
    ensures old(Smooth(job, server, disk)) ==> end != Broken && Smooth(job, server, disk)
  {
    AddNothing(job.Work(), item.chunk);
    ghost var w := job.Work();
    var ok := server.Connect();
    if !ok { return Broken, at, 0; }
    end, offset, got := StreamBodyToDisk(job, server, disk, item.chunk, at, item.rangeEnd, now);
    if end != Finished { StandsFurther(w, item, at, got); }
    server.EndResponse(end == Finished);
    if end == Cut && !job.ranged { end := Broken; }
  }

  /** One request for the rest of an item; `Cut` asks again. */
  method Request(job: DownloadEngine, server: Server, disk: Disk, item: WorkItem, at: nat, now: u64)
    returns (end: StreamEnd, left: bool, offset: nat, ghost got: nat)
    requires Ready(job, disk.data[..], server.remote) && Tallied(job.View(), job.chunksInfo)
    requires StandsAt(job.chunksInfo, item, at) && (job.ranged || at == 0)
    modifies job, server, disk`script, disk.data
    ensures job.nConnections == old(job.nConnections) && job.scheduledConnections == old(job.scheduledConnections)
    ensures Ready(job, disk.data[..], server.remote) && Tallied(job.View(), job.chunksInfo)
    ensures job.Work() == AddReceived(old(job.Work()), item.chunk, got)
    ensures if !left && end == Finished then at + got == item.rangeEnd + 1
            else at + got <= item.rangeEnd && StandsAt(job.chunksInfo, item, at + got)
    ensures end != Broken ==> offset == at + got
    ensures left <==> old(job.releaseBudget) > 0 || old(job.state) != Downloading
    ensures left ==> got == 0 && disk.data[..] == old(disk.data[..]) && job.state == old(job.state)
    ensures job.releaseBudget == old(job.releaseBudget) - if old(job.releaseBudget) > 0 then 1 else 0
    ensures !left && end == Cut ==> job.ranged
    ensures |server.script| <= |old(server.script)|
    ensures !left && end == Cut ==>
              |server.script| < |old(server.script)| || (old(job.state) == Downloading != job.state)
    ensures old(Smooth(job, server, disk)) && old(job.releaseBudget) <= 0 ==>
              end != Broken && !left && Smooth(job, server, disk) && job.releaseBudget <= 0
  {
    AddNothing(job.Work(), item.chunk);
    UnfinishedCount(job.chunksInfo, item.chunk);
    var release := job.ShouldReleaseConnection();
    if release { return Cut, true, at, 0; }
    if job.state != Downloading { return Cut, true, at, 0; }
    left := false;
    end, offset, got := Respond(job, server, disk, item, at, now);
  }

  /** How far an item has come: `got` bytes have been received since `w`, and its
      chunk stands there, or is complete. */
  ghost predicate Along(job: DownloadEngine, w: EngineSpec.Work, item: WorkItem, got: nat, finished: bool)
    reads job
  {
    && item.chunk < |w.chunks| && job.Work() == AddReceived(w, item.chunk, got)
    && if finished then item.rangeStart + got == item.rangeEnd + 1
       else StandsAt(job.chunksInfo, item, item.rangeStart + got)
  }

  /** One turn of the inner loop; `Done` also stands for asking again, unless the
      item is `finished`. */
  method AskOnce(job: DownloadEngine, server: Server, disk: Disk, item: WorkItem, ghost w: EngineSpec.Work,
                 at: nat, ghost before: nat, now: u64)
    returns (end: ItemEnd, finished: bool, offset: nat, ghost got: nat)
    requires Ready(job, disk.data[..], server.remote) && Tallied(job.View(), job.chunksInfo)
    requires Along(job, w, item, before, false) && at == item.rangeStart + before && (job.ranged || at == 0)
    modifies job, server, disk`script, disk.data
    ensures job.nConnections == old(job.nConnections) && job.scheduledConnections == old(job.scheduledConnections)
    ensures Ready(job, disk.data[..], server.remote) && Tallied(job.View(), job.chunksInfo)
    ensures Along(job, w, item, got, finished) && (finished ==> end == Done)
    ensures end == Done && !finished ==> job.ranged
    ensures job.releaseBudget <= old(job.releaseBudget)
    ensures end == Left ==> job.releaseBudget < old(job.releaseBudget) || job.state != Downloading
    ensures end == Done ==> offset == item.rangeStart + got
    ensures |server.script| <= |old(server.script)|
    ensures end == Done && !finished ==>
              |server.script| < |old(server.script)| || (old(job.state) == Downloading != job.state)
    ensures old(Smooth(job, server, disk)) && old(job.releaseBudget) <= 0 ==>
              end == Done && Smooth(job, server, disk) && job.releaseBudget <= 0
  {
    var body, left, next, more := Request(job, server, disk, item, at, now);
    AddTwice(w, item.chunk, before, more);
    offset, got := next, before + more;
    finished := !left && body == Finished;
    end := if left then Left else if body == Broken then Thrown else Done;
  }

  /** Asks for the rest of one item until it is complete. */
  method FetchItem(job: DownloadEngine, server: Server, disk: Disk, item: WorkItem, now: u64)
    returns (end: ItemEnd, ghost got: nat)
    requires Ready(job, disk.data[..], server.remote) && Tallied(job.View(), job.chunksInfo)
    requires TailOf(job.chunksInfo, item) && (job.ranged || item.rangeStart == 0)
    modifies job, server, disk`script, disk.data
    ensures job.nConnections == old(job.nConnections) && job.scheduledConnections == old(job.scheduledConnections)
    ensures Ready(job, disk.data[..], server.remote) && Tallied(job.View(), job.chunksInfo)
    ensures Along(job, old(job.Work()), item, got, end == Done)
    ensures job.releaseBudget <= old(job.releaseBudget)
    ensures end == Left ==> job.releaseBudget < old(job.releaseBudget) || job.state != Downloading
    ensures old(Smooth(job, server, disk)) && old(job.releaseBudget) <= 0 ==>
              end == Done && Smooth(job, server, disk) && job.releaseBudget <= 0
  {
    got := 0;
    AddNothing(job.Work(), item.chunk);
    ghost var w, smooth := job.Work(), Smooth(job, server, disk) && job.releaseBudget <= 0;
    var offset := item.rangeStart;
    var finished := false;
    while !finished
      invariant job.nConnections == old(job.nConnections) && job.scheduledConnections == old(job.scheduledConnections)
      invariant Ready(job, disk.data[..], server.remote) && Tallied(job.View(), job.chunksInfo)
      invariant Along(job, w, item, got, finished)
      invariant job.releaseBudget <= old(job.releaseBudget)
      invariant finished || (offset == item.rangeStart + got && (job.ranged || offset == 0))
      invariant smooth ==> Smooth(job, server, disk) && job.releaseBudget <= 0
      decreases !finished, |server.script|, job.state == Downloading
    {
      end, finished, offset, got := AskOnce(job, server, disk, item, w, offset, got, now);
      if end != Done { return end, got; }
    }
    end := Done;
  }

  /** Every unfinished chunk is still to be claimed. */
  ghost predicate AllPending(w: EngineSpec.Work)
  {
    forall c :: 0 <= c < |w.chunks| && !w.chunks[c].Finished() ==> HasItem(w.pending[Min(w.next, |w.pending|)..], c)
  }

  ghost predicate Claimable(w: EngineSpec.Work) { ItemsInv(w) && AllPending(w) }

  lemma RebuiltClaimable(w: EngineSpec.Work)
    ensures Claimable(Rebuilt(w))
  {
    var items := Build(w.chunks);
    BuildShape(w.chunks, |w.chunks|);
    assert items[0..] == items;
    forall c | 0 <= c < |w.chunks| && !w.chunks[c].Finished()
      ensures HasItem(items, c)
    {
      BuildCovers(w.chunks, |w.chunks|, c);
    }
  }

  /** The claim cursor, one on. */
  function Claimed(w: EngineSpec.Work): EngineSpec.Work { w.(next := w.next + 1) }

  lemma NextTail(w: EngineSpec.Work)
    requires Claimable(w)
    ensures w.next < |w.pending| ==> TailOf(w.chunks, w.pending[w.next])
  {
  }

  /** A completed item leaves the rest claimable. */
  lemma ClaimedDone(w: EngineSpec.Work, got: nat)
    requires Claimable(w) && w.next < |w.pending|
    requires w.pending[w.next].rangeStart + got == w.pending[w.next].rangeEnd + 1
    ensures Claimable(AddReceived(Claimed(w), w.pending[w.next].chunk, got))
  {
    var item := w.pending[w.next];
    var w' := AddReceived(Claimed(w), item.chunk, got);
    assert TailOf(w.chunks, item);
    forall k | w'.next <= k < |w'.pending|
      ensures TailOf(w'.chunks, w'.pending[k])
    {
      assert TailOf(w.chunks, w.pending[k]) && item.chunk < w.pending[k].chunk;
    }
    forall c | 0 <= c < |w'.chunks| && !w'.chunks[c].Finished()
      ensures HasItem(w'.pending[w'.next..], c)
    {
      var rest := w.pending[w.next..];
      assert HasItem(rest, c);
      var k :| 0 <= k < |rest| && rest[k].chunk == c;
      assert k > 0 && w'.pending[w'.next..][k - 1] == rest[k];
    }
  }

  lemma NothingPending(w: EngineSpec.Work)
    requires Claimable(w) && w.next >= |w.pending|
    ensures FinishedCount(w.chunks) == |w.chunks|
  {
    AllFinished(w.chunks, |w.chunks|);
  }

  // ---------------------------------------------------------------------------
  // The worker.

  /** A generation in progress: the tally holds, unless there was nothing to do. */
  ghost predicate Working(job: DownloadEngine)
    reads job
  {
    job.pendingWork != [] ==> Tallied(job.View(), job.chunksInfo)
  }

  /** `Again`: an item is complete; `Empty`: none was left. */
  datatype Turn = Again | Empty | Leave | Threw

  /** Without ranges an item is its whole file. */
  ghost predicate Servable(w: EngineSpec.Work, ranged: bool)
  {
    ranged || forall k :: 0 <= k < |w.pending| ==> w.pending[k].rangeStart == 0
  }

  /** Leaves on a token, or claims the next item. */
  method ClaimNext(job: DownloadEngine) returns (release: bool, item: Option<WorkItem>)
    modifies job`releaseBudget, job`nextWorkItem
    ensures release <==> old(job.releaseBudget) > 0
    ensures release ==> job.nextWorkItem == old(job.nextWorkItem) && job.releaseBudget == old(job.releaseBudget) - 1
    ensures !release ==> job.nextWorkItem == old(job.nextWorkItem) + 1 && job.releaseBudget == old(job.releaseBudget)
    ensures item == if !release && old(job.nextWorkItem) < |job.pendingWork|
                    then Some(job.pendingWork[old(job.nextWorkItem)]) else None
    ensures old(Working(job)) ==> Working(job)
  {
    release := job.ShouldReleaseConnection();
    item := None;
    if !release { item := job.GetNextWorkItem(); }
  }

  /** One turn of the worker's loop: claim the next item and fetch it. */
  method ClaimAndFetch(job: DownloadEngine, server: Server, disk: Disk, now: u64) returns (turn: Turn, ghost got: nat)
    requires Ready(job, disk.data[..], server.remote) && Working(job)
    requires job.nextWorkItem < |job.pendingWork| ==> TailOf(job.chunksInfo, job.pendingWork[job.nextWorkItem])
    requires Servable(job.Work(), job.ranged)
    modifies job, server, disk`script, disk.data
    ensures job.nConnections == old(job.nConnections) && job.scheduledConnections == old(job.scheduledConnections)
    ensures Ready(job, disk.data[..], server.remote) && Working(job)
    ensures job.pendingWork == old(job.pendingWork)
    ensures turn == Again || turn == Threw ==> old(job.nextWorkItem) < |old(job.pendingWork)|
    ensures turn == Again ==>
              Along(job, Claimed(old(job.Work())), old(job.pendingWork)[old(job.nextWorkItem)], got, true)
    ensures turn == Empty ==> old(job.nextWorkItem) >= |old(job.pendingWork)| && job.chunksInfo == old(job.chunksInfo)
    ensures job.releaseBudget <= old(job.releaseBudget)
    ensures turn == Leave ==> job.releaseBudget < old(job.releaseBudget) || job.state != Downloading
    ensures turn == Threw ==> !job.artifactsCleaned && job.state != Completed
    ensures old(job.nextWorkItem) >= |old(job.pendingWork)| ==> job.state == old(job.state)
    ensures old(Smooth(job, server, disk)) && old(job.releaseBudget) <= 0 ==>
              (turn == Again || turn == Empty) && Smooth(job, server, disk) && job.releaseBudget <= 0
  {
    got := 0;
    var release, item := ClaimNext(job);
    if release { return Leave, got; }
    if item.None? { return Empty, got; }
    var end;
    end, got := FetchItem(job, server, disk, item.value, now);
    if end == Done { return Again, got; }
    UnfinishedCount(job.chunksInfo, item.value.chunk);
    turn := if end == Left then Leave else Threw;
  }

  /** The handler of an exception. */
  method Caught(job: DownloadEngine, ghost disk: Disk, ghost remote: seq<byte>, now: u64)
    requires Ready(job, disk.data[..], remote) && Working(job) && !job.artifactsCleaned && job.state != Completed
    modifies job
    ensures job.nConnections == old(job.nConnections) && job.scheduledConnections == old(job.scheduledConnections)
    ensures Ready(job, disk.data[..], remote) && Working(job) && job.pendingWork == old(job.pendingWork)
    ensures job.state == if old(job.state) in {Queued, Downloading} then Failed else old(job.state)
    ensures job.releaseBudget == old(job.releaseBudget)
  {
    var failed := job.Fail(now);
  }

  /** Claims and fetches items until none is left; true if all went well. */
  method DownloadWorkerImpl(job: DownloadEngine, server: Server, disk: Disk, now: u64) returns (drained: bool)
    requires Ready(job, disk.data[..], server.remote) && Working(job) && Claimable(job.Work())
    requires Servable(job.Work(), job.ranged)
    modifies job, server, disk`script, disk.data
    ensures job.nConnections == old(job.nConnections) && job.scheduledConnections == old(job.scheduledConnections)
    ensures Ready(job, disk.data[..], server.remote) && Working(job)
    ensures job.pendingWork == old(job.pendingWork)
    ensures drained ==> FinishedCount(job.chunksInfo) == |job.chunksInfo|
    ensures !drained ==> job.releaseBudget < old(job.releaseBudget) || job.state != Downloading
    ensures old(job.pendingWork) == [] ==> job.state == old(job.state)
    ensures old(Smooth(job, server, disk)) && old(job.releaseBudget) <= 0 ==> drained && job.state != Canceled
  {
    server.connected := false;
    while true
      invariant job.nConnections == old(job.nConnections) && job.scheduledConnections == old(job.scheduledConnections)
      invariant Ready(job, disk.data[..], server.remote) && Working(job) && Claimable(job.Work())
      invariant job.pendingWork == old(job.pendingWork) && job.releaseBudget <= old(job.releaseBudget)
      invariant old(job.pendingWork) == [] ==> job.state == old(job.state)
      invariant old(Smooth(job, server, disk)) && old(job.releaseBudget) <= 0 ==>
                  Smooth(job, server, disk) && job.releaseBudget <= 0
      decreases |job.pendingWork| - job.nextWorkItem
    {
      ghost var w := job.Work();
      NextTail(w);
      var turn, got := ClaimAndFetch(job, server, disk, now);
      if turn == Again {
        ClaimedDone(w, got);
      } else if turn == Empty {
        NothingPending(w);
        return true;
      } else {
        if turn == Threw { Caught(job, disk, server.remote, now); }
        return false;
      }
    }
  }

  /** A fresh generation with something to do is tallied once it is downloading. */
  lemma StartsTallied(e: Engine, w: EngineSpec.Work)
    requires Claimable(w) && w.next == 0 && w.pending != []
    requires e.state == Downloading && !e.cleaned && e.conns > 0 && e.downloaded == FinishedCount(w.chunks)
    ensures Tallied(e, w.chunks)
  {
    NextTail(w);
    UnfinishedCount(w.chunks, w.pending[0].chunk);
  }

  /** A fresh generation that is downloading. */
  ghost predicate FreshGeneration(job: DownloadEngine)
    reads job
  {
    && Claimable(job.Work()) && job.nextWorkItem == 0 && !job.artifactsCleaned
    && job.nDownloadedChunks == FinishedCount(job.chunksInfo) && Servable(job.Work(), job.ranged)
  }

  /** A whole generation by one worker. */
  method DownloadGeneration(job: DownloadEngine, server: Server, disk: Disk, now: u64) returns (drained: bool)
    requires Ready(job, disk.data[..], server.remote) && FreshGeneration(job)
    requires job.state == Downloading && job.nConnections > 0
    modifies job, server, disk`script, disk.data
    ensures job.nConnections == old(job.nConnections) && job.scheduledConnections == old(job.scheduledConnections)
    ensures Ready(job, disk.data[..], server.remote)
    ensures drained || job.state == Completed ==> disk.data[..] == server.remote
    ensures drained && job.state != Canceled ==> (job.state == Completed <==> old(job.pendingWork) != [])
    ensures old(Smooth(job, server, disk)) && old(job.releaseBudget) <= 0 ==> drained && job.state != Canceled
  {
    if job.pendingWork != [] { StartsTallied(job.View(), job.Work()); }
    drained := DownloadWorkerImpl(job, server, disk, now);
    if drained || job.state == Completed {
      FinishedFileEqualsRemote(disk.data[..], server.remote, job.chunksInfo);
    }
  }

  /** A task of the pool: a counted connection around the worker. */
  method DownloadWorker(job: DownloadEngine, server: Server, disk: Disk, now: u64) returns (drained: bool)
    requires Ready(job, disk.data[..], server.remote) && FreshGeneration(job)
    requires Active(job.state) && job.nConnections >= 0
    modifies job, server, disk`script, disk.data
    ensures job.nConnections == old(job.nConnections)
    ensures job.scheduledConnections == Max(0, old(job.scheduledConnections) - 1)
    ensures Ready(job, disk.data[..], server.remote)
    ensures drained || job.state == Completed ==> disk.data[..] == server.remote
    ensures drained && job.state != Canceled ==> (job.state == Completed <==> old(job.pendingWork) != [])
    ensures old(Quiet(server, job.ranged)) && 0 !in old(disk.script) && old(job.releaseBudget) <= 0 ==>
              drained && job.state != Canceled
  {
    Open(job);
    drained := DownloadGeneration(job, server, disk, now);
    Close(job);
  }

  method Close(job: DownloadEngine)
    modifies job`scheduledConnections, job`nConnections, job`artifactsCleaned, job`imageFile, job`outputRemoved
    ensures job.nConnections == old(job.nConnections) - 1
    ensures job.scheduledConnections == Max(0, old(job.scheduledConnections) - 1)
    ensures job.state == old(job.state)
  {
    job.NotifyConnectionClose();
  }

  method Open(job: DownloadEngine)
    requires Active(job.state) && job.nConnections >= 0
    modifies job`state, job`nConnections
    ensures job.state == Downloading && job.nConnections == old(job.nConnections) + 1
  {
    job.NotifyConnectionOpen();
  }

  /** Draining leaves the engine running, with no connection counted twice. */
  lemma {:induction false} DrainKeeps(e: Engine)
    requires Active(e.state) && e.conns >= 0
    ensures Active(Drain(e).state) && Drain(e).conns >= 0 && Drain(e).cleaned == e.cleaned
    decreases e.scheduled
  {
    if e.scheduled > 0 { DrainKeeps(CloseOne(e)); }
  }

  lemma RebuiltServable(w: EngineSpec.Work, ranged: bool)
    requires ranged || forall c :: 0 <= c < |w.chunks| && !w.chunks[c].Finished() ==> w.chunks[c].Pos() == 0
    ensures Servable(Rebuilt(w), ranged)
  {
    BuildShape(w.chunks, |w.chunks|);
    forall k | 0 <= k < |Build(w.chunks)|
      ensures TailOf(w.chunks, Build(w.chunks)[k])
    {
    }
  }

  /** Resume, up to a fresh generation of work. */
  method ResumeFresh(job: DownloadEngine) returns (resumed: bool)
    requires job.Valid() && !job.artifactsCleaned && job.scheduledConnections >= 0 && job.nConnections >= 0
    requires job.ranged || forall c :: 0 <= c < |job.chunksInfo| && !job.chunksInfo[c].Finished() ==>
              job.chunksInfo[c].Pos() == 0
    modifies job`state, job`releaseBudget, job`pendingWork, job`nextWorkItem, job`nDownloadedChunks
    modifies job`scheduledConnections, job`nConnections, job`artifactsCleaned, job`imageFile, job`outputRemoved
    modifies job`chunksInfo, job`nTotalReceivedBytes, job`nReceivedBytesFromLastStore
    modifies job`imageIndex, job`imageStored, job`stored, job`updatedAt
    ensures job.Valid() && job.chunksInfo == old(job.chunksInfo) && resumed == Allows(old(job.state), Queued)
    ensures resumed ==> FreshGeneration(job) && Active(job.state) && job.nConnections >= 0 && job.releaseBudget == 0
    ensures resumed ==> (job.pendingWork != [] <==> FinishedCount(job.chunksInfo) < |job.chunksInfo|)
    ensures !resumed ==> job.state == old(job.state)
  {
    ghost var e, w := job.View(), job.Work();
    var planned;
    resumed, planned := job.Resume(1, [], 0);
    if resumed {
      DrainKeeps(WithState(e, Queued));
      BuildShape(w.chunks, |w.chunks|);
      RebuiltClaimable(w);
      RebuiltServable(w, job.ranged);
    }
  }

  /** Resume and one worker. Whatever was received before, and however the server
      cuts the connections of a job with ranges, the file becomes the remote file;
      the job completes exactly when there was something left to receive. Without
      ranges nothing may have been received of an unfinished file. */
  method ResumeAndRun(job: DownloadEngine, server: Server, disk: Disk, now: u64) returns (resumed: bool)
    requires Ready(job, disk.data[..], server.remote) && !job.artifactsCleaned
    requires job.scheduledConnections >= 0 && job.nConnections >= 0
    requires job.ranged || forall c :: 0 <= c < |job.chunksInfo| && !job.chunksInfo[c].Finished() ==>
              job.chunksInfo[c].Pos() == 0
    modifies job, server, disk`script, disk.data
    ensures Ready(job, disk.data[..], server.remote)
    ensures resumed == Allows(old(job.state), Queued)
    ensures resumed && job.state == Completed ==> disk.data[..] == server.remote
    ensures resumed && old(Quiet(server, job.ranged)) && 0 !in old(disk.script) ==>
              && disk.data[..] == server.remote
              && (job.state == Completed <==> FinishedCount(old(job.chunksInfo)) < |old(job.chunksInfo)|)
  {
    resumed := ResumeFresh(job);
    if !resumed { return; }
    var drained := DownloadWorker(job, server, disk, now);
  }
}
