/** The download protocol as a step system: one engine, a pool of threads, a
    server, one output file and the stored images. Each step is one atomic
    operation or one lock section of the sources. */
module Protocol {
  import opened Basics
  import opened Chunks
  import opened EngineSpec

  /** Where a pool thread stands in its task; the name says what it does next. */
  datatype Pc =
    | Idle            // no task of this engine
    | Taken           // task popped: count the connection
    | Promote         // move Queued to Downloading
    | OuterRelease    // outer loop: ask for a release token
    | Claim           // claim a work item
    | InnerRelease    // inner loop: ask for a release token
    | InnerState      // inner loop: check the state
    | StreamTop       // body loop: done, or check the state
    | Budget          // state checked: acquire read budget
    | Read            // budget in hand: read from the server
    | Write           // bytes in the buffer: write them
    | Update          // all written: update the chunk
    | TotalAdd        // chunk updated: add to the total
    | UnsavedAdd      // add to the unsaved counter
    | StoreWait       // threshold seen: start storing
    | StoreHeld       // storing
    | FinishCheck     // count the chunk if it is finished
    | LastCas         // counted last: try Downloading to Completed
    | ForceDone       // was Paused or Failed: force Completed
    | FinalStore      // completed: start storing
    | FinalHeld       // storing
    | FinalClean      // release the writer, remove the image
    | FinalCall       // call on_finish
    | AfterNotify     // back in the body loop
    | Failing         // exception caught: set Failed
    | FailStore       // failed: start storing
    | FailHeld        // storing
    | CloseSched      // guard destructor: drop the scheduled count
    | CloseConn       // drop the connection count
    | CloseCheck      // was the last connection: load the state
    | CloseClean      // saw Canceled: clean up

  /** A pool thread and the locals of its worker. `item` is meaningful while
      `Holds(pc)`, `data` from the read to the unsaved add. */
  datatype Worker = Worker(pc: Pc, item: nat, off: nat, allowed: nat, data: seq<byte>, written: nat,
                           fin: bool, token: bool)

  datatype CancelPc = NoCancel | CancelSeen | CancelZero

  /** A store in progress under the disk lock: who runs it (None: a caller
      outside the pool) and the chunks copied so far. */
  datatype StoreOp = StoreOp(owner: Option<nat>, snap: seq<Chunk>)

  /** History variables, read by no step. */
  datatype History = History(
    base: int,         // bytes that `unsaved` started from when the engine was loaded
    generation: nat,   // rebuilds so far
    winners: nat,      // times a worker saw the last count
    finishes: nat,     // on_finish calls
    cleanups: nat)     // cleanups that took effect

  datatype World = World(
    remote: seq<byte>,
    file: seq<byte>,
    w: Work,
    e: Engine,
    pool: seq<Worker>,
    planned: nat,               // counted by a planner, not yet enqueued
    queued: nat,                // in the pool queue
    cancel: CancelPc,
    resumes: nat,               // Start/Resume calls waiting for the drain
    store: Option<StoreOp>,
    last: Option<seq<Chunk>>,   // the image on disk
    images: seq<seq<Chunk>>,    // every image ever stored
    outputRemoved: bool,
    h: History)

  datatype Step =
    | Enqueue
    | Take(thread: nat)
    | Act(thread: nat, k: nat, to: Pc)
    | Snap
    | StoreOutside
    | CommitOutside
    | Pause
    | CancelSet
    | CancelLoad
    | CancelClean
    | ResumeSet
    | Rebuild(limit: int)
    | PlanMore(limit: int)
    | SetDesiredTo(wanted: int)
    | Crash(image: nat, maxC: int)

  // ---------------------------------------------------------------------------
  // Classes of program counters.

  /** The worker has claimed a work item and not dropped it. */
  predicate Holds(pc: Pc)
  {
    match pc
    case InnerRelease | InnerState | StreamTop | Budget | Read | Write | Update | TotalAdd | UnsavedAdd => true
    case StoreWait | StoreHeld | FinishCheck | LastCas | ForceDone | FinalStore | FinalHeld => true
    case FinalClean | FinalCall | AfterNotify => true
    case _ => false
  }

  /** The thread's task still counts as scheduled. */
  predicate Live(pc: Pc)
  {
    pc != Idle && pc != CloseConn && pc != CloseCheck && pc != CloseClean
  }

  /** The thread's connection is counted. */
  predicate Open(pc: Pc) { (Live(pc) && pc != Taken) || pc == CloseConn }

  /** The thread holds the disk lock for a store. */
  predicate Storing(pc: Pc) { pc == StoreHeld || pc == FinalHeld || pc == FailHeld }

  // The program counters by what the worker is about, for proofs that go through
  // its steps.

  predicate Entering(pc: Pc)
  {
    || pc == Idle || pc == Taken || pc == Promote || pc == OuterRelease
    || pc == Claim || pc == InnerRelease || pc == InnerState
  }

  predicate Streaming(pc: Pc)
  {
    pc == StreamTop || pc == Budget || pc == Read || pc == Write || pc == AfterNotify
  }

  predicate Reporting(pc: Pc)
  {
    || pc == Update || pc == TotalAdd || pc == UnsavedAdd || pc == StoreWait || pc == StoreHeld || pc == FinishCheck
    || pc == LastCas || pc == ForceDone || pc == FinalStore || pc == FinalHeld || pc == FinalClean || pc == FinalCall
  }

  predicate Leaving(pc: Pc)
  {
    || pc == Failing || pc == FailStore || pc == FailHeld
    || pc == CloseSched || pc == CloseConn || pc == CloseCheck || pc == CloseClean
  }

  lemma FourClasses(pc: Pc)
    ensures Entering(pc) || Streaming(pc) || Reporting(pc) || Leaving(pc)
  {
  }

  // ---------------------------------------------------------------------------
  // Steps.

  const IDLE := Worker(Idle, 0, 0, 0, [], 0, false, false)

  function ItemOf(s: World, x: Worker): WorkItem
    requires x.item < |s.w.pending|
  {
    s.w.pending[x.item]
  }

  /** The chunk of the item that a worker holds. */
  function ChunkOf(w: Work, x: Worker): Chunk
    requires x.item < |w.pending| && w.pending[x.item].chunk < |w.chunks|
  {
    w.chunks[w.pending[x.item].chunk]
  }

  predicate ItemValid(w: Work, x: Worker)
  {
    x.item < |w.pending| && w.pending[x.item].chunk < |w.chunks|
  }

  /** Overwrite `file` at `off` with `data`. */
  function Overwrite(file: seq<byte>, off: nat, data: seq<byte>): (r: seq<byte>)
    requires off + |data| <= |file|
    ensures |r| == |file|
  {
    file[..off] + data + file[off + |data|..]
  }

  predicate ActEnabled(s: World, t: nat, k: nat, to: Pc)
  {
    t < |s.pool| &&
    var x := s.pool[t];
    && (Holds(x.pc) ==> ItemValid(s.w, x))
    && match x.pc
       case Idle => false
       case OuterRelease => to == Claim || to == Failing
       case StreamTop => to == Budget || to == OuterRelease || to == Failing
       case Budget => k <= BUFFER_SIZE && (k == 0 ==> s.e.state != Downloading)
       case Read =>
         && k <= x.allowed
         && (k > 0 ==> x.off + k <= ItemOf(s, x).rangeEnd + 1 && x.off + k <= |s.remote|)
         && (k == 0 ==> to == StreamTop || to == InnerRelease || to == Failing)
       case Write =>
         && !s.e.cleaned
         && x.written + k <= |x.data|
         && x.off + k <= |s.file|
       case UnsavedAdd => s.store.None?
       case StoreWait | FinalStore => s.store.None? && !s.e.cleaned
       case FailStore => s.store.None?
       case StoreHeld | FinalHeld | FailHeld =>
         s.store.Some? && s.store.value.owner == Some(t) && |s.store.value.snap| == |s.w.chunks|
       case FinalClean | CloseClean => s.store.None?
       case AfterNotify => to == StreamTop || to == InnerRelease || to == Failing
       case _ => true
  }

  predicate Enabled(s: World, st: Step)
  {
    match st
    case Enqueue => s.planned > 0
    case Take(t) => t < |s.pool| && s.pool[t].pc == Idle && s.queued > 0
    case Act(t, k, to) => ActEnabled(s, t, k, to)
    case Snap => s.store.Some? && |s.store.value.snap| < |s.w.chunks|
    case StoreOutside => s.store.None? && !s.e.cleaned
    case CommitOutside => s.store.Some? && s.store.value.owner.None? && |s.store.value.snap| == |s.w.chunks|
    case Pause => Allows(s.e.state, Paused)
    case CancelSet => Allows(s.e.state, Canceled) && s.cancel == NoCancel
    case CancelLoad => s.cancel == CancelSeen
    case CancelClean => s.cancel == CancelZero && s.store.None?
    case ResumeSet => Allows(s.e.state, Queued) && s.e.state != Canceled
    case Rebuild(limit) => s.resumes > 0 && s.e.scheduled == 0
    case PlanMore(limit) => true
    case SetDesiredTo(d) => s.e.minC <= s.e.maxC
    case Crash(i, maxC) => i < |s.images| && !s.outputRemoved && maxC >= 1
  }

  /** What a worker's step does besides moving the worker and the engine. */
  datatype Side =
    | Quiet
    | NewWork(w: Work)
    | NewFile(file: seq<byte>)
    | Lock                 // take the disk lock and start copying the chunks
    | CommitStore          // write the image, reset the unsaved counter, unlock
    | Clean(removeOutput: bool)
    | Win                  // saw the last count
    | Finish               // on_finish

  datatype Effect = Effect(x: Worker, e: Engine, side: Side)

  function Going(x: Worker, pc: Pc, s: World): Effect { Effect(x.(pc := pc), s.e, Quiet) }

  /** One atomic step of the worker on thread `t`. */
  function ActOf(s: World, t: nat, k: nat, to: Pc): Effect
    requires ActEnabled(s, t, k, to)
  {
    var x := s.pool[t];
    match x.pc
    case Idle => Effect(x, s.e, Quiet)
    case Taken => Effect(x.(pc := Promote), CountOpen(s.e), Quiet)
    case Promote => Effect(x.(pc := OuterRelease), PromoteOpen(s.e), Quiet)
    case OuterRelease =>
      if to == Failing then Going(x, Failing, s)
      else if HasToken(s.e) then Effect(x.(pc := CloseSched, token := true), TakeToken(s.e), Quiet)
      else Going(x, Claim, s)
    case Claim =>
      var i := s.w.next;
      var w := s.w.(next := i + 1);
      if i < |s.w.pending|
      then Effect(x.(pc := InnerRelease, item := i, off := s.w.pending[i].rangeStart), s.e, NewWork(w))
      else Effect(x.(pc := CloseSched), s.e, NewWork(w))
    case InnerRelease =>
      if HasToken(s.e) then Effect(x.(pc := CloseSched, token := true), TakeToken(s.e), Quiet)
      else Going(x, InnerState, s)
    case InnerState => Going(x, if s.e.state == Downloading then StreamTop else CloseSched, s)
    case StreamTop =>
      Going(x, if to != Budget then to else if s.e.state == Downloading then Budget else InnerRelease, s)
    case Budget => Effect(x.(pc := if k == 0 then InnerRelease else Read, allowed := k), s.e, Quiet)
    case Read =>
      if k == 0 then Going(x, to, s)
      else Effect(x.(pc := Write, data := s.remote[x.off..x.off + k], written := 0), s.e, Quiet)
    case Write =>
      if k == 0 then Going(x, Failing, s)
      else
        Effect(x.(pc := if x.written + k == |x.data| then Update else Write,
                  written := x.written + k, off := x.off + k),
               s.e, NewFile(Overwrite(s.file, x.off, x.data[x.written..x.written + k])))
    case Update =>
      var w := AddReceived(s.w, ItemOf(s, x).chunk, |x.data|);
      Effect(x.(pc := TotalAdd, fin := ChunkOf(w, x).Finished()), s.e, NewWork(w))
    case TotalAdd => Effect(x.(pc := UnsavedAdd), AddTotal(s.e, |x.data|), Quiet)
    case UnsavedAdd =>
      var e := AddUnsaved(s.e, |x.data|);
      Effect(x.(pc := if NeedsStore(e) then StoreWait else FinishCheck), e, Quiet)
    case StoreWait => Effect(x.(pc := StoreHeld), s.e, Lock)
    case StoreHeld => Effect(x.(pc := FinishCheck), Stored(s.e), CommitStore)
    case FinishCheck =>
      if !ChunkOf(s.w, x).Finished() then Going(x, AfterNotify, s)
      else if LastSeen(s.e, |s.w.chunks|) then Effect(x.(pc := LastCas), CountFinished(s.e), Win)
      else Effect(x.(pc := AfterNotify), CountFinished(s.e), Quiet)
    case LastCas =>
      if s.e.state == Downloading then Effect(x.(pc := FinalStore), s.e.(state := Completed), Quiet)
      else Going(x, if s.e.state == Paused || s.e.state == Failed then ForceDone else AfterNotify, s)
    case ForceDone => Effect(x.(pc := FinalStore), s.e.(state := Completed), Quiet)
    case FinalStore => Effect(x.(pc := FinalHeld), s.e, Lock)
    case FinalHeld => Effect(x.(pc := FinalClean), Stored(s.e), CommitStore)
    case FinalClean => Effect(x.(pc := FinalCall), Released(s.e), Clean(false))
    case FinalCall => Effect(x.(pc := AfterNotify), s.e, Finish)
    case AfterNotify => Going(x, to, s)
    case Failing =>
      Effect(x.(pc := if Allows(s.e.state, Failed) then FailStore else CloseSched), WithState(s.e, Failed), Quiet)
    case FailStore =>
      if s.e.cleaned then Going(x, CloseSched, s) else Effect(x.(pc := FailHeld), s.e, Lock)
    case FailHeld => Effect(x.(pc := CloseSched), Stored(s.e), CommitStore)
    case CloseSched => Effect(x.(pc := CloseConn, token := false), CloseScheduled(s.e), Quiet)
    case CloseConn => Effect(x.(pc := if s.e.conns == 1 then CloseCheck else Idle), CloseConnection(s.e), Quiet)
    case CloseCheck => Going(x, if s.e.state == Canceled then CloseClean else Idle, s)
    case CloseClean => Effect(x.(pc := Idle), Released(s.e), Clean(true))
  }

  /** The part of a store's end outside the engine's scalars. */
  function Commit(s: World): World
    requires s.store.Some?
  {
    var img := s.store.value.snap;
    s.(store := None, last := Some(img), images := s.images + [img], h := s.h.(base := 0))
  }

  function Tally(s: World, side: Side): History
  {
    match side
    case CommitStore => s.h.(base := 0)
    case Clean(_) => if s.e.cleaned then s.h else s.h.(cleanups := s.h.cleanups + 1)
    case Win => s.h.(winners := s.h.winners + 1)
    case Finish => s.h.(finishes := s.h.finishes + 1)
    case _ => s.h
  }

  function Apply(s: World, t: nat, f: Effect): World
    requires t < |s.pool| && (f.side.CommitStore? ==> s.store.Some?)
  {
    var p := s.(pool := s.pool[t := f.x], e := f.e, h := Tally(s, f.side));
    match f.side
    case NewWork(w) => p.(w := w)
    case NewFile(file) => p.(file := file)
    case Lock => p.(store := Some(StoreOp(Some(t), [])))
    case CommitStore => Commit(p)
    case Clean(removeOutput) => p.(outputRemoved := s.outputRemoved || (removeOutput && !s.e.cleaned))
    case _ => p
  }

  function DoAct(s: World, t: nat, k: nat, to: Pc): World
    requires ActEnabled(s, t, k, to)
  {
    Apply(s, t, ActOf(s, t, k, to))
  }

  /** A new process loads image `img`; the output file is as the old one left it. */
  function Reloaded(s: World, img: seq<Chunk>, maxC: int): World
  {
    World(s.remote, s.file, Work(img, [], 0), LoadedEngine(img, maxC),
          seq(|s.pool|, i => IDLE), 0, 0, NoCancel, 0, None, Some(img), s.images, s.outputRemoved,
          History(ReceivedSum(img), 0, 0, 0, 0))
  }

  function Do(s: World, st: Step): World
    requires Enabled(s, st)
  {
    match st
    case Enqueue => s.(planned := s.planned - 1, queued := s.queued + 1)
    case Take(t) => s.(pool := s.pool[t := IDLE.(pc := Taken)], queued := s.queued - 1)
    case Act(t, k, to) => DoAct(s, t, k, to)
    case Snap =>
      var op := s.store.value;
      s.(store := Some(op.(snap := op.snap + [s.w.chunks[|op.snap|]])))
    case StoreOutside => s.(store := Some(StoreOp(None, [])))
    case CommitOutside => Commit(s.(e := Stored(s.e)))
    case Pause => s.(e := WithState(s.e, Paused))
    case CancelSet => s.(e := WithState(s.e, Canceled), cancel := CancelSeen)
    case CancelLoad => s.(cancel := if s.e.conns == 0 then CancelZero else NoCancel)
    case CancelClean =>
      s.(cancel := NoCancel, e := Released(s.e), h := Tally(s, Clean(true)),
         outputRemoved := s.outputRemoved || !s.e.cleaned)
    case ResumeSet => s.(e := WithState(s.e, Queued), resumes := s.resumes + 1)
    case Rebuild(limit) =>
      var e := RebuiltCounters(s.e, s.w);
      s.(resumes := s.resumes - 1, w := Rebuilt(s.w), e := Plan(e, limit),
         planned := s.planned + PlanCount(e, limit), h := s.h.(generation := s.h.generation + 1))
    case PlanMore(limit) => s.(e := Plan(s.e, limit), planned := s.planned + PlanCount(s.e, limit))
    case SetDesiredTo(d) => s.(e := SetDesired(s.e, d))
    case Crash(i, maxC) => Reloaded(s, s.images[i], maxC)
  }

  // ---------------------------------------------------------------------------
  // Runs.

  predicate Legal(s: World, steps: seq<Step>)
    decreases |steps|
  {
    steps == [] || (Enabled(s, steps[0]) && Legal(Do(s, steps[0]), steps[1..]))
  }

  /** The state after a legal run. */
  function Run(s: World, steps: seq<Step>): World
    requires Legal(s, steps)
    decreases |steps|
  {
    if steps == [] then s else Run(Do(s, steps[0]), steps[1..])
  }

  /** A job: a non-empty remote file, whatever the output file holds at first,
      a tiling chunk layout with nothing received, and a pool of threads. */
  ghost predicate FreshJob(remote: seq<byte>, file: seq<byte>, cs: seq<Chunk>, threads: nat, maxC: int)
  {
    && |remote| > 0 && |file| == |remote|
    && Tiled(cs, |remote|) && (forall i :: 0 <= i < |cs| ==> cs[i].received == 0)
    && threads > 0 && maxC >= 1
  }

  function Start(remote: seq<byte>, file: seq<byte>, cs: seq<Chunk>, threads: nat, maxC: int): World
  {
    World(remote, file, Work(cs, [], 0), NewEngine(maxC), seq(threads, i => IDLE), 0, 0, NoCancel, 0, None,
          None, [], false, History(0, 0, 0, 0, 0))
  }
}
