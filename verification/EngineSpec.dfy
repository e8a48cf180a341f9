/** The download engine's shared scalars and the effect of each of its atomic
    sections. The step system runs these effects concurrently; the class
    `DownloadEngine` is proved to have them. */
module EngineSpec {
  import opened Basics
  import opened Chunks

  datatype RunState = Initialized | Queued | Downloading | Completed | Failed | Paused | Canceled

  /** Received bytes between two stores, and the largest read. */
  const STORE_EVERY: int := 10485760
  const BUFFER_SIZE: int := 32768

  /** The chunk list, the pending work and the claim cursor. */
  datatype Work = Work(chunks: seq<Chunk>, pending: seq<WorkItem>, next: nat)

  /** The atomics and flags of an engine. */
  datatype Engine = Engine(
    state: RunState,
    downloaded: int,      // chunks counted as finished
    total: int,           // bytes counted as received
    unsaved: int,         // bytes counted since the last store
    scheduled: int,       // planned, queued or running workers
    conns: int,           // open connections
    minC: int,
    maxC: int,
    desired: int,
    budget: int,          // outstanding release tokens
    cleaned: bool)        // artifacts cleaned, writer released

  // State changes ---------------------------------------------------------------

  /** Whether SetState moves `cur` to `target`. */
  predicate Allows(cur: RunState, target: RunState)
  {
    match target
    case Queued => cur == Initialized || cur == Paused || cur == Canceled || cur == Failed
    case Downloading => cur == Queued
    case Paused => cur == Downloading || cur == Queued
    case Canceled => cur == Downloading || cur == Queued || cur == Paused || cur == Failed
    case Failed => cur == Downloading || cur == Queued
    case _ => true
  }

  function WithState(e: Engine, target: RunState): Engine
  {
    if Allows(e.state, target) then e.(state := target) else e
  }

  predicate Active(st: RunState) { st == Queued || st == Downloading }

  // Connections -------------------------------------------------------------------

  function CountOpen(e: Engine): Engine { e.(conns := e.conns + 1) }

  function PromoteOpen(e: Engine): Engine { WithState(e, Downloading) }

  /** The scheduled count drops; a negative count is repaired to zero. */
  function CloseScheduled(e: Engine): Engine
  {
    e.(scheduled := if e.scheduled - 1 < 0 then 0 else e.scheduled - 1)
  }

  function CloseConnection(e: Engine): Engine { e.(conns := e.conns - 1) }

  /** The wanted count, brought into the bounds; each connection given up becomes a
      release token. */
  function SetDesired(e: Engine, wanted: int): (r: Engine)
    requires e.minC <= e.maxC
    ensures e.minC <= r.desired <= e.maxC && (e.minC <= wanted <= e.maxC ==> r.desired == wanted)
    ensures r.budget + Min(r.desired, e.desired) == e.budget + e.desired
  {
    var clamped := Clamp(wanted, e.minC, e.maxC);
    e.(desired := clamped, budget := e.budget + Max(0, e.desired - clamped))
  }

  /** How many new workers a planning call adds. */
  function PlanCount(e: Engine, limit: int): (n: nat)
    ensures n > 0 ==> Active(e.state) && n <= limit && e.scheduled + n <= e.desired
    ensures Active(e.state) && limit > 0 ==> n == limit || e.scheduled + n >= e.desired
  {
    if limit <= 0 || !Active(e.state) || e.scheduled >= e.desired then 0
    else Min(e.desired - e.scheduled, limit)
  }

  function Plan(e: Engine, limit: int): Engine
  {
    e.(scheduled := e.scheduled + PlanCount(e, limit))
  }

  predicate HasToken(e: Engine) { e.budget > 0 }

  function TakeToken(e: Engine): Engine
  {
    if HasToken(e) then e.(budget := e.budget - 1) else e
  }

  // Receiving -----------------------------------------------------------------------

  function AddReceived(w: Work, c: nat, bytes: nat): Work
    requires c < |w.chunks|
  {
    w.(chunks := w.chunks[c := w.chunks[c].(received := w.chunks[c].received + bytes)])
  }

  function AddTotal(e: Engine, bytes: nat): Engine { e.(total := e.total + bytes) }

  function AddUnsaved(e: Engine, bytes: nat): Engine { e.(unsaved := e.unsaved + bytes) }

  predicate NeedsStore(e: Engine) { e.unsaved >= STORE_EVERY }

  function Stored(e: Engine): Engine { e.(unsaved := 0) }

  /** Counting a finished chunk; `LastSeen` tells the worker that counted last. */
  function CountFinished(e: Engine): Engine { e.(downloaded := e.downloaded + 1) }

  predicate LastSeen(e: Engine, chunks: nat) { e.downloaded == chunks - 1 }

  // Generations -----------------------------------------------------------------------

  function Rebuilt(w: Work): Work { w.(pending := Build(w.chunks), next := 0) }

  function RebuiltCounters(e: Engine, w: Work): Engine
  {
    e.(budget := 0, downloaded := FinishedCount(w.chunks))
  }

  function Released(e: Engine): Engine { e.(cleaned := true) }

  // Construction ------------------------------------------------------------------------

  function EffectiveMax(ranged: bool, maxConnections: int): (m: int)
    ensures m >= 1
  {
    if ranged then Max(1, maxConnections) else 1
  }

  function NewEngine(maxC: int): Engine
  {
    Engine(Initialized, 0, 0, 0, 0, 0, 1, maxC, Min(2, maxC), 0, false)
  }

  function LoadedEngine(cs: seq<Chunk>, maxC: int): Engine
  {
    NewEngine(maxC).(downloaded := FinishedCount(cs), total := ReceivedSum(cs), unsaved := ReceivedSum(cs))
  }

  // Whole calls -----------------------------------------------------------------------

  /** A connection opens, undisturbed. */
  function Opened(e: Engine): Engine { PromoteOpen(CountOpen(e)) }

  /** A connection closes, undisturbed: the last one of a canceled engine cleans up. */
  function Closed(e: Engine): Engine
  {
    var e1 := CloseConnection(CloseScheduled(e));
    if e1.conns == 0 && e1.state == Canceled then Released(e1) else e1
  }

  /** The engine after Cancel was accepted, undisturbed. */
  function CanceledNow(e: Engine): Engine
  {
    var e1 := WithState(e, Canceled);
    if e1.conns == 0 then Released(e1) else e1
  }

  /** Counting one more finished chunk completes the engine: it is the last, and the
      engine is not queued, canceled or already complete. */
  predicate CompletesNow(e: Engine, chunks: nat)
  {
    LastSeen(e, chunks) && (e.state == Downloading || e.state == Paused || e.state == Failed)
  }

  /** A finished chunk is counted. */
  function FinishOne(e: Engine, chunks: nat): Engine
  {
    var e1 := CountFinished(e);
    if CompletesNow(e, chunks) then Released(Stored(e1.(state := Completed))) else e1
  }

  /** Received bytes are counted and, past the threshold, stored. */
  function Counted(e: Engine, bytes: nat): Engine
  {
    var e1 := AddUnsaved(AddTotal(e, bytes), bytes);
    if NeedsStore(e1) then Stored(e1) else e1
  }

  /** Whether a report stores through the writer; `c` is the chunk after the update. */
  predicate ReportStores(e: Engine, c: Chunk, bytes: nat, chunks: nat)
  {
    NeedsStore(AddUnsaved(e, bytes)) || (c.Finished() && CompletesNow(e, chunks))
  }

  /** NotifyChunkReceived, undisturbed; `c` is the chunk after the update. */
  function Notified(e: Engine, c: Chunk, bytes: nat, chunks: nat): Engine
  {
    if c.Finished() then FinishOne(Counted(e, bytes), chunks) else Counted(e, bytes)
  }

  // The wait of Start and Resume -------------------------------------------------------

  /** One old worker closes; one still in the queue opens first. */
  function CloseOne(e: Engine): Engine { Closed(if e.conns <= 0 then Opened(e) else e) }

  /** All of them close, doing nothing more. */
  function Drain(e: Engine): Engine
    decreases e.scheduled
  {
    if e.scheduled <= 0 then e else Drain(CloseOne(e))
  }

  /** What an old worker may still do. */
  datatype LateEvent = Opens | Reports(chunk: nat, bytes: nat) | Closes

  datatype Job = Job(e: Engine, w: Work)

  /** The new generation, once the old workers have drained. */
  function Regenerated(job: Job, limit: int): Job
  {
    Job(Plan(RebuiltCounters(Drain(job.e), job.w), limit), Rebuilt(job.w))
  }

  function LateStep(job: Job, event: LateEvent): Job
  {
    match event
    case Opens => job.(e := Opened(job.e))
    case Closes => job.(e := Closed(job.e))
    case Reports(c, bytes) =>
      if c >= |job.w.chunks| then job
      else
        var w := AddReceived(job.w, c, bytes);
        Job(Notified(job.e, w.chunks[c], bytes, |w.chunks|), w)
  }

  function Late(job: Job, events: seq<LateEvent>): Job
    decreases |events|
  {
    if events == [] then job else Late(LateStep(job, events[0]), events[1..])
  }
}
