/** Cancel and cleanup: when the writer is released, and exactly when a Cancel
    call may come so that no worker can still write through it. */
module ProtocolCancel {
  import opened Basics
  import opened Chunks
  import opened EngineSpec
  import opened Protocol
  import opened ProtocolData
  import opened ProtocolCounts
  import opened ProtocolRuns

  /** The worker will use the writer, or count bytes and perhaps store. */
  predicate Busy(pc: Pc)
  {
    match pc
    case Write | Update | TotalAdd | UnsavedAdd | StoreWait | StoreHeld | FinishCheck => true
    case LastCas | ForceDone | FinalStore | FinalHeld => true
    case _ => false
  }

  /** The worker can still write: it is busy, or past its state check with bytes
      of its chunk still to come. */
  predicate CanWrite(w: Work, x: Worker)
  {
    Busy(x.pc) || ((x.pc == Budget || x.pc == Read) && ItemValid(w, x) && !ChunkOf(w, x).Finished())
  }

  ghost predicate NoWriters(s: World)
  {
    forall t :: 0 <= t < |s.pool| ==> !CanWrite(s.w, s.pool[t])
  }

  /** The guarantee about the writer. */
  ghost predicate WriterSafe(s: World) { s.e.cleaned ==> NoWriters(s) }

  predicate Terminal(st: RunState) { st == Canceled || st == Completed }

  /** Some thread stands at `pc`. */
  ghost predicate Someone(pool: seq<Worker>, pc: Pc)
  {
    exists t :: 0 <= t < |pool| && pool[t].pc == pc
  }

  /** What a Cancel call has to find: no thread is between dropping the last
      connection and loading the state, or no worker can write. */
  ghost predicate CancelSafe(s: World)
  {
    Someone(s.pool, CloseCheck) ==> NoWriters(s)
  }

  ghost predicate Frozen(s: World) { Terminal(s.e.state) && NoWriters(s) }

  /** On every run: cleanup belongs to the end, takes effect once, and a canceled
      engine is cleaned or still has someone who will clean it. */
  ghost predicate CleanInv(s: World)
  {
    && (s.e.cleaned || s.cancel != NoCancel || Someone(s.pool, CloseClean) ==> Terminal(s.e.state))
    && s.h.cleanups == (if s.e.cleaned then 1 else 0)
    && (s.e.state == Canceled ==>
          || s.e.cleaned || s.cancel != NoCancel || s.e.conns > 0
          || Someone(s.pool, CloseCheck) || Someone(s.pool, CloseClean))
  }

  /** On runs whose Cancel calls come safely: whoever releases the writer, or is
      about to, does so when no worker can write. */
  ghost predicate FreezeInv(s: World)
  {
    && (s.e.cleaned || s.cancel == CancelZero || Someone(s.pool, CloseClean) ==> Frozen(s))
    && (s.e.state == Canceled && Someone(s.pool, CloseCheck) ==> NoWriters(s))
  }

  // ---------------------------------------------------------------------------
  // A frozen engine stays frozen.

  lemma EnteringStaysQuiet(s: World, t: nat, k: nat, to: Pc)
    requires ActEnabled(s, t, k, to) && Entering(s.pool[t].pc) && Terminal(s.e.state) && !CanWrite(s.w, s.pool[t])
    requires WorkerOk(s.remote, s.file, s.w, s.pool[t])
    requires Holds(s.pool[t].pc) ==> ItemOf(s, s.pool[t]).rangeEnd == ChunkOf(s.w, s.pool[t]).end
    ensures !Busy(ActOf(s, t, k, to).x.pc)
  {
  }

  lemma StreamingStaysQuiet(s: World, t: nat, k: nat, to: Pc)
    requires ActEnabled(s, t, k, to) && Streaming(s.pool[t].pc) && Terminal(s.e.state) && !CanWrite(s.w, s.pool[t])
    requires WorkerOk(s.remote, s.file, s.w, s.pool[t])
    requires Holds(s.pool[t].pc) ==> ItemOf(s, s.pool[t]).rangeEnd == ChunkOf(s.w, s.pool[t]).end
    ensures !Busy(ActOf(s, t, k, to).x.pc)
  {
  }

  lemma ReportingStaysQuiet(s: World, t: nat, k: nat, to: Pc)
    requires ActEnabled(s, t, k, to) && Reporting(s.pool[t].pc) && Terminal(s.e.state) && !CanWrite(s.w, s.pool[t])
    requires WorkerOk(s.remote, s.file, s.w, s.pool[t])
    requires Holds(s.pool[t].pc) ==> ItemOf(s, s.pool[t]).rangeEnd == ChunkOf(s.w, s.pool[t]).end
    ensures !Busy(ActOf(s, t, k, to).x.pc)
  {
  }

  lemma LeavingStaysQuiet(s: World, t: nat, k: nat, to: Pc)
    requires ActEnabled(s, t, k, to) && Leaving(s.pool[t].pc) && Terminal(s.e.state) && !CanWrite(s.w, s.pool[t])
    requires WorkerOk(s.remote, s.file, s.w, s.pool[t])
    requires Holds(s.pool[t].pc) ==> ItemOf(s, s.pool[t]).rangeEnd == ChunkOf(s.w, s.pool[t]).end
    ensures !Busy(ActOf(s, t, k, to).x.pc)
  {
  }

  /** A worker that cannot write in a terminal state does not become able to. */
  lemma ActStaysQuiet(s: World, t: nat, k: nat, to: Pc)
    requires ActEnabled(s, t, k, to) && Terminal(s.e.state) && !CanWrite(s.w, s.pool[t])
    requires WorkerOk(s.remote, s.file, s.w, s.pool[t])
    requires Holds(s.pool[t].pc) ==> ItemOf(s, s.pool[t]).rangeEnd == ChunkOf(s.w, s.pool[t]).end
    ensures !Busy(ActOf(s, t, k, to).x.pc)
  {
    FourClasses(s.pool[t].pc);
    if Entering(s.pool[t].pc) {
      EnteringStaysQuiet(s, t, k, to);
    } else if Streaming(s.pool[t].pc) {
      StreamingStaysQuiet(s, t, k, to);
    } else if Reporting(s.pool[t].pc) {
      ReportingStaysQuiet(s, t, k, to);
    } else {
      LeavingStaysQuiet(s, t, k, to);
    }
  }

  lemma EnteringStaysTerminal(s: World, t: nat, k: nat, to: Pc)
    requires ActEnabled(s, t, k, to) && Entering(s.pool[t].pc) && Terminal(s.e.state) && !Busy(s.pool[t].pc)
    ensures ActOf(s, t, k, to).e.state == s.e.state
  {
  }

  lemma StreamingStaysTerminal(s: World, t: nat, k: nat, to: Pc)
    requires ActEnabled(s, t, k, to) && Streaming(s.pool[t].pc) && Terminal(s.e.state) && !Busy(s.pool[t].pc)
    ensures ActOf(s, t, k, to).e.state == s.e.state
  {
  }

  lemma ReportingStaysTerminal(s: World, t: nat, k: nat, to: Pc)
    requires ActEnabled(s, t, k, to) && Reporting(s.pool[t].pc) && Terminal(s.e.state) && !Busy(s.pool[t].pc)
    ensures ActOf(s, t, k, to).e.state == s.e.state
  {
  }

  lemma LeavingStaysTerminal(s: World, t: nat, k: nat, to: Pc)
    requires ActEnabled(s, t, k, to) && Leaving(s.pool[t].pc) && Terminal(s.e.state) && !Busy(s.pool[t].pc)
    ensures ActOf(s, t, k, to).e.state == s.e.state
  {
  }

  lemma ActStaysTerminal(s: World, t: nat, k: nat, to: Pc)
    requires ActEnabled(s, t, k, to) && Terminal(s.e.state) && !Busy(s.pool[t].pc)
    ensures ActOf(s, t, k, to).e.state == s.e.state
  {
    FourClasses(s.pool[t].pc);
    if Entering(s.pool[t].pc) {
      EnteringStaysTerminal(s, t, k, to);
    } else if Streaming(s.pool[t].pc) {
      StreamingStaysTerminal(s, t, k, to);
    } else if Reporting(s.pool[t].pc) {
      ReportingStaysTerminal(s, t, k, to);
    } else {
      LeavingStaysTerminal(s, t, k, to);
    }
  }

  lemma EnteringStaysOut(s: World, t: nat, k: nat, to: Pc)
    requires ActEnabled(s, t, k, to) && Entering(s.pool[t].pc) && s.e.state != Downloading
    ensures var x' := ActOf(s, t, k, to).x;
            x'.pc == Budget || x'.pc == Read ==> s.pool[t].pc == Budget && x'.item == s.pool[t].item
  {
  }

  lemma BudgetStaysOut(s: World, t: nat, k: nat, to: Pc)
    requires ActEnabled(s, t, k, to) && s.pool[t].pc == Budget
    ensures ActOf(s, t, k, to).x.item == s.pool[t].item
  {
  }

  lemma StreamingStaysOut(s: World, t: nat, k: nat, to: Pc)
    requires ActEnabled(s, t, k, to) && Streaming(s.pool[t].pc) && s.e.state != Downloading
    ensures var x' := ActOf(s, t, k, to).x;
            x'.pc == Budget || x'.pc == Read ==> s.pool[t].pc == Budget && x'.item == s.pool[t].item
  {
    if s.pool[t].pc == Budget { BudgetStaysOut(s, t, k, to); }
  }

  lemma ReportingStaysOut(s: World, t: nat, k: nat, to: Pc)
    requires ActEnabled(s, t, k, to) && Reporting(s.pool[t].pc) && s.e.state != Downloading
    ensures var x' := ActOf(s, t, k, to).x;
            x'.pc == Budget || x'.pc == Read ==> s.pool[t].pc == Budget && x'.item == s.pool[t].item
  {
  }

  lemma LeavingStaysOut(s: World, t: nat, k: nat, to: Pc)
    requires ActEnabled(s, t, k, to) && Leaving(s.pool[t].pc) && s.e.state != Downloading
    ensures var x' := ActOf(s, t, k, to).x;
            x'.pc == Budget || x'.pc == Read ==> s.pool[t].pc == Budget && x'.item == s.pool[t].item
  {
  }

  lemma ActStaysOut(s: World, t: nat, k: nat, to: Pc)
    requires ActEnabled(s, t, k, to) && s.e.state != Downloading
    ensures var x' := ActOf(s, t, k, to).x;
            x'.pc == Budget || x'.pc == Read ==> s.pool[t].pc == Budget && x'.item == s.pool[t].item
  {
    FourClasses(s.pool[t].pc);
    if Entering(s.pool[t].pc) {
      EnteringStaysOut(s, t, k, to);
    } else if Streaming(s.pool[t].pc) {
      StreamingStaysOut(s, t, k, to);
    } else if Reporting(s.pool[t].pc) {
      ReportingStaysOut(s, t, k, to);
    } else {
      LeavingStaysOut(s, t, k, to);
    }
  }

  lemma ActKeepsItems(s: World, t: nat, k: nat, to: Pc)
    requires ActEnabled(s, t, k, to) && !Busy(s.pool[t].pc)
    ensures var side := ActOf(s, t, k, to).side;
            side.NewWork? ==> side.w.chunks == s.w.chunks && side.w.pending == s.w.pending
  {
  }

  lemma QuietApply(s: World, t: nat, f: Effect)
    requires t < |s.pool| && Frozen(s) && (f.side.CommitStore? ==> s.store.Some?)
    requires !Busy(f.x.pc) && f.e.state == s.e.state
    requires f.x.pc == Budget || f.x.pc == Read ==> s.pool[t].pc == Budget && f.x.item == s.pool[t].item
    requires f.side.NewWork? ==> f.side.w.chunks == s.w.chunks && f.side.w.pending == s.w.pending
    ensures Frozen(Apply(s, t, f))
  {
    var s' := Apply(s, t, f);
    assert s'.w.chunks == s.w.chunks && s'.w.pending == s.w.pending;
    forall u | 0 <= u < |s'.pool|
      ensures !CanWrite(s'.w, s'.pool[u])
    {
      assert !CanWrite(s.w, s.pool[u]);
    }
  }

  lemma FrozenAct(s: World, t: nat, k: nat, to: Pc)
    requires DataInv(s) && Frozen(s) && ActEnabled(s, t, k, to)
    ensures Frozen(DoAct(s, t, k, to))
  {
    assert WorkerOk(s.remote, s.file, s.w, s.pool[t]);
    ActStaysQuiet(s, t, k, to);
    ActStaysTerminal(s, t, k, to);
    ActStaysOut(s, t, k, to);
    ActKeepsItems(s, t, k, to);
    QuietApply(s, t, ActOf(s, t, k, to));
  }

  lemma FrozenRebuild(s: World, limit: int)
    requires AccountInv(s) && Frozen(s) && Enabled(s, Rebuild(limit))
    ensures Frozen(Do(s, Rebuild(limit)))
  {
    Drained(s);
  }

  lemma FrozenOutside(s: World, st: Step)
    requires Frozen(s) && Enabled(s, st) && !st.Act? && !st.Take? && !st.Rebuild? && !st.Crash?
    ensures Frozen(Do(s, st))
  {
    assert Do(s, st).w == s.w && Do(s, st).pool == s.pool;
  }

  lemma FrozenTake(s: World, t: nat)
    requires Frozen(s) && Enabled(s, Take(t))
    ensures Frozen(Do(s, Take(t)))
  {
    TakeWrites(s, t);
  }

  lemma FrozenStep(s: World, st: Step)
    requires DataInv(s) && AccountInv(s) && Frozen(s) && Enabled(s, st) && !st.Crash?
    ensures Frozen(Do(s, st))
  {
    if st.Act? {
      FrozenAct(s, st.thread, st.k, st.to);
    } else if st.Rebuild? {
      FrozenRebuild(s, st.limit);
    } else if st.Take? {
      FrozenTake(s, st.thread);
    } else {
      FrozenOutside(s, st);
    }
  }

  // ---------------------------------------------------------------------------
  // Who can write when.

  lemma NobodyOpen(s: World)
    requires AccountInv(s) && s.e.conns == 0
    ensures NoWriters(s)
  {
    TotZero(s.pool, OpenW);
    forall t | 0 <= t < |s.pool|
      ensures !CanWrite(s.w, s.pool[t])
    {
      assert OpenW(s.pool[t]) == 0;
    }
  }

  /** A worker whose chunk is finished and counted cannot write. */
  lemma FinishedCannotWrite(s: World, t: nat)
    requires Inv(s) && s.e.downloaded == |s.w.chunks| && t < |s.pool| && !Winning(s.pool[t].pc)
    ensures !CanWrite(s.w, s.pool[t])
  {
    var x := s.pool[t];
    assert WorkerOk(s.remote, s.file, s.w, x);
    NoneUntotaled(s);
    FinishedLimit(s.w.chunks, |s.w.chunks|);
    AllFinished(s.w.chunks, |s.w.chunks|);
    if Holds(x.pc) { assert ChunkOf(s.w, x).Finished(); }
  }

  /** When the winner cleans up it is alone. */
  lemma WinnerIsAlone(s: World, t: nat)
    requires Inv(s) && t < |s.pool| && s.pool[t].pc == FinalClean
    ensures Frozen(s)
  {
    TotUpdate(s.pool, FinalW, t, s.pool[t]);
    forall u | 0 <= u < |s.pool|
      ensures !CanWrite(s.w, s.pool[u])
    {
      if u != t {
        FinishCounting(s);
        assert !Winning(s.pool[u].pc);
        FinishedCannotWrite(s, u);
      }
    }
  }

  // ---------------------------------------------------------------------------
  // CleanInv on every run.

  /** How a worker's step touches the closing program counters. */
  predicate MovesClosing(s: World, x: Worker, f: Effect)
  {
    && (f.x.pc == CloseClean <==> x.pc == CloseCheck && s.e.state == Canceled)
    && (f.x.pc == CloseCheck <==> x.pc == CloseConn && s.e.conns == 1)
  }

  predicate MovesTerminal(s: World, f: Effect)
  {
    && (Terminal(s.e.state) ==> Terminal(f.e.state))
    && (f.e.state == Canceled ==> s.e.state == Canceled)
  }

  predicate MovesCleaned(s: World, x: Worker, f: Effect)
  {
    && (f.e.cleaned <==> s.e.cleaned || f.side.Clean?)
    && (f.side.Clean? <==> x.pc == CloseClean || x.pc == FinalClean)
  }

  lemma ActCloses(s: World, t: nat, k: nat, to: Pc)
    requires ActEnabled(s, t, k, to)
    ensures MovesClosing(s, s.pool[t], ActOf(s, t, k, to))
  {
  }

  lemma ActTerminal(s: World, t: nat, k: nat, to: Pc)
    requires ActEnabled(s, t, k, to)
    ensures MovesTerminal(s, ActOf(s, t, k, to))
  {
  }

  lemma EnteringCleans(s: World, t: nat, k: nat, to: Pc)
    requires ActEnabled(s, t, k, to) && Entering(s.pool[t].pc)
    ensures MovesCleaned(s, s.pool[t], ActOf(s, t, k, to))
  {
  }

  lemma StreamingCleans(s: World, t: nat, k: nat, to: Pc)
    requires ActEnabled(s, t, k, to) && Streaming(s.pool[t].pc)
    ensures MovesCleaned(s, s.pool[t], ActOf(s, t, k, to))
  {
  }

  lemma ReportingCleans(s: World, t: nat, k: nat, to: Pc)
    requires ActEnabled(s, t, k, to) && Reporting(s.pool[t].pc)
    ensures MovesCleaned(s, s.pool[t], ActOf(s, t, k, to))
  {
  }

  lemma LeavingCleans(s: World, t: nat, k: nat, to: Pc)
    requires ActEnabled(s, t, k, to) && Leaving(s.pool[t].pc)
    ensures MovesCleaned(s, s.pool[t], ActOf(s, t, k, to))
  {
  }

  lemma ActCleans(s: World, t: nat, k: nat, to: Pc)
    requires ActEnabled(s, t, k, to)
    ensures MovesCleaned(s, s.pool[t], ActOf(s, t, k, to))
  {
    FourClasses(s.pool[t].pc);
    if Entering(s.pool[t].pc) {
      EnteringCleans(s, t, k, to);
    } else if Streaming(s.pool[t].pc) {
      StreamingCleans(s, t, k, to);
    } else if Reporting(s.pool[t].pc) {
      ReportingCleans(s, t, k, to);
    } else {
      LeavingCleans(s, t, k, to);
    }
  }

  /** What a worker's step does about the writer. */
  lemma ActMoves(s: World, t: nat, k: nat, to: Pc, f: Effect)
    requires ActEnabled(s, t, k, to) && f == ActOf(s, t, k, to)
    ensures MovesClosing(s, s.pool[t], f) && MovesTerminal(s, f) && MovesCleaned(s, s.pool[t], f)
  {
    ActCloses(s, t, k, to);
    ActTerminal(s, t, k, to);
    ActCleans(s, t, k, to);
  }

  /** How a worker's step touches the promoting program counters. */
  predicate MovesPromoting(e: Engine, x: Worker, f: Effect)
  {
    && (f.x.pc == ForceDone ==> x.pc == LastCas && (e.state == Paused || e.state == Failed))
    && (f.x.pc == LastCas ==> f.side.Win?)
  }

  lemma ActPromotes(s: World, t: nat, k: nat, to: Pc)
    requires ActEnabled(s, t, k, to)
    ensures MovesPromoting(s.e, s.pool[t], ActOf(s, t, k, to))
  {
  }

  /** A state is never left for Completed but by a promoting worker, and Canceled is
      left for nothing else. */
  predicate MovesCanceled(e: Engine, x: Worker, f: Effect)
  {
    e.state == Canceled && x.pc != ForceDone ==> f.e.state == Canceled
  }

  lemma ActCanceled(s: World, t: nat, k: nat, to: Pc)
    requires ActEnabled(s, t, k, to)
    ensures MovesCanceled(s.e, s.pool[t], ActOf(s, t, k, to))
  {
  }

  /** Only the last close of a canceled engine removes the output file. */
  lemma ActRemoves(s: World, t: nat, k: nat, to: Pc)
    requires ActEnabled(s, t, k, to) && ActOf(s, t, k, to).side == Clean(true)
    ensures s.pool[t].pc == CloseClean
  {
  }

  /** Threads other than `t` keep their program counters. */
  lemma SomeoneStays(pool: seq<Worker>, t: nat, x: Worker, pc: Pc)
    requires t < |pool|
    ensures Someone(pool, pc) && pool[t].pc != pc ==> Someone(pool[t := x], pc)
    ensures Someone(pool[t := x], pc) ==> Someone(pool, pc) || x.pc == pc
    ensures x.pc == pc ==> Someone(pool[t := x], pc)
  {
    var pool' := pool[t := x];
    assert pool'[t] == x;
    if Someone(pool, pc) && pool[t].pc != pc {
      var u :| 0 <= u < |pool| && pool[u].pc == pc;
      assert pool'[u] == pool[u];
    }
  }

  lemma ClosingKeepsClean(s: World, t: nat, f: Effect)
    requires CleanInv(s) && t < |s.pool| && (f.side.CommitStore? ==> s.store.Some?)
    requires MovesClosing(s, s.pool[t], f) && MovesTerminal(s, f) && MovesCleaned(s, s.pool[t], f)
    requires MovesConns(s.e, s.pool[t], f)
    requires s.pool[t].pc == FinalClean ==> s.e.state == Completed
    requires s.pool[t].pc == CloseConn ==> s.e.conns >= 1
    ensures CleanInv(Apply(s, t, f))
  {
    SomeoneStays(s.pool, t, f.x, CloseClean);
    SomeoneStays(s.pool, t, f.x, CloseCheck);
    if s.pool[t].pc == CloseClean { assert Someone(s.pool, CloseClean); }
  }

  /** How the step moves the open connections, and what it finds. */
  lemma ActOpens(s: World, t: nat, k: nat, to: Pc)
    requires AccountInv(s) && FinishInv(s) && ActEnabled(s, t, k, to)
    ensures MovesConns(s.e, s.pool[t], ActOf(s, t, k, to))
    ensures s.pool[t].pc == FinalClean ==> s.e.state == Completed
    ensures s.pool[t].pc == CloseConn ==> s.e.conns >= 1
  {
    TotUpdate(s.pool, LiveW, t, s.pool[t]);
    ActScheduled(s, t, k, to);
    TotUpdate(s.pool, FinalW, t, s.pool[t]);
    TotUpdate(s.pool, OpenW, t, s.pool[t]);
  }

  lemma ActKeepsClean(s: World, t: nat, k: nat, to: Pc)
    requires AccountInv(s) && FinishInv(s) && CleanInv(s) && ActEnabled(s, t, k, to)
    ensures CleanInv(DoAct(s, t, k, to))
  {
    ActMoves(s, t, k, to, ActOf(s, t, k, to));
    ActOpens(s, t, k, to);
    ClosingKeepsClean(s, t, ActOf(s, t, k, to));
  }

  /** The steps that leave the pool alone. */
  predicate Outside(st: Step) { !st.Act? && !st.Take? && !st.Crash? }

  lemma OutsidePool(s: World, st: Step)
    requires Enabled(s, st) && Outside(st)
    ensures Do(s, st).pool == s.pool
  {
  }

  lemma TakeKeepsClean(s: World, t: nat)
    requires CleanInv(s) && Enabled(s, Take(t))
    ensures CleanInv(Do(s, Take(t)))
  {
    SomeoneStays(s.pool, t, IDLE.(pc := Taken), CloseClean);
    SomeoneStays(s.pool, t, IDLE.(pc := Taken), CloseCheck);
  }

  lemma OutsideKeepsClean(s: World, st: Step)
    requires CleanInv(s) && AccountInv(s) && Enabled(s, st) && Outside(st)
    ensures CleanInv(Do(s, st))
  {
    OutsidePool(s, st);
    TotZero(s.pool, OpenW);
  }

  lemma CrashIsClean(s: World, st: Step)
    requires Enabled(s, st) && st.Crash?
    ensures CleanInv(Do(s, st)) && FreezeInv(Do(s, st))
  {
  }

  lemma StepKeepsClean(s: World, st: Step)
    requires AccountInv(s) && FinishInv(s) && CleanInv(s) && Enabled(s, st)
    ensures CleanInv(Do(s, st))
  {
    if st.Act? {
      ActKeepsClean(s, st.thread, st.k, st.to);
    } else if st.Take? {
      TakeKeepsClean(s, st.thread);
    } else if st.Crash? {
      CrashIsClean(s, st);
    } else {
      OutsideKeepsClean(s, st);
    }
  }

  // ---------------------------------------------------------------------------
  // FreezeInv on careful runs.

  lemma MovesFreeze(s: World, t: nat, f: Effect)
    requires FreezeInv(s) && t < |s.pool| && (f.side.CommitStore? ==> s.store.Some?)
    requires MovesClosing(s, s.pool[t], f) && MovesTerminal(s, f) && MovesCleaned(s, s.pool[t], f)
    requires s.pool[t].pc == FinalClean ==> Frozen(s)
    requires Frozen(s) ==> Frozen(Apply(s, t, f))
    requires s.pool[t].pc == CloseConn && s.e.conns == 1 ==> NoWriters(Apply(s, t, f))
    ensures FreezeInv(Apply(s, t, f))
  {
    SomeoneStays(s.pool, t, f.x, CloseClean);
    SomeoneStays(s.pool, t, f.x, CloseCheck);
    if s.pool[t].pc == CloseCheck { assert Someone(s.pool, CloseCheck); }
    if s.pool[t].pc == CloseClean { assert Someone(s.pool, CloseClean); }
  }

  /** The thread that drops the last connection leaves no writer behind. */
  lemma LastCloseIsQuiet(s: World, t: nat, k: nat, to: Pc)
    requires AccountInv(s) && ActEnabled(s, t, k, to)
    requires s.pool[t].pc == CloseConn && s.e.conns == 1
    ensures NoWriters(DoAct(s, t, k, to))
  {
    TotUpdate(s.pool, LiveW, t, s.pool[t]);
    ActScheduled(s, t, k, to);
    ActAccounts(s, t, k, to);
    NobodyOpen(DoAct(s, t, k, to));
  }

  lemma ActQuiets(s: World, t: nat, k: nat, to: Pc)
    requires Inv(s) && ActEnabled(s, t, k, to)
    ensures s.pool[t].pc == FinalClean ==> Frozen(s)
    ensures s.pool[t].pc == CloseConn && s.e.conns == 1 ==> NoWriters(DoAct(s, t, k, to))
    ensures Frozen(s) ==> Frozen(DoAct(s, t, k, to))
  {
    if s.pool[t].pc == FinalClean { WinnerIsAlone(s, t); }
    if s.pool[t].pc == CloseConn && s.e.conns == 1 { LastCloseIsQuiet(s, t, k, to); }
    if Frozen(s) { FrozenAct(s, t, k, to); }
  }

  lemma ActFreezes(s: World, t: nat, k: nat, to: Pc, f: Effect)
    requires FreezeInv(s) && ActEnabled(s, t, k, to) && f == ActOf(s, t, k, to)
    requires s.pool[t].pc == FinalClean ==> Frozen(s)
    requires s.pool[t].pc == CloseConn && s.e.conns == 1 ==> NoWriters(Apply(s, t, f))
    requires Frozen(s) ==> Frozen(Apply(s, t, f))
    ensures FreezeInv(Apply(s, t, f))
  {
    ActMoves(s, t, k, to, f);
    MovesFreeze(s, t, f);
  }

  lemma ActKeepsFreeze(s: World, t: nat, k: nat, to: Pc)
    requires Inv(s) && FreezeInv(s) && ActEnabled(s, t, k, to)
    ensures FreezeInv(DoAct(s, t, k, to))
  {
    ActQuiets(s, t, k, to);
    ActFreezes(s, t, k, to, ActOf(s, t, k, to));
  }

  /** Nobody new closes, and nobody new can write. */
  lemma FreezeStays(s: World, s': World)
    requires FreezeInv(s) && s'.e == s.e && s'.cancel == s.cancel
    requires Someone(s'.pool, CloseClean) ==> Someone(s.pool, CloseClean)
    requires Someone(s'.pool, CloseCheck) ==> Someone(s.pool, CloseCheck)
    requires NoWriters(s) ==> NoWriters(s')
    ensures FreezeInv(s')
  {
  }

  lemma TakeWrites(s: World, t: nat)
    requires Enabled(s, Take(t)) && NoWriters(s)
    ensures NoWriters(Do(s, Take(t)))
  {
    var s' := Do(s, Take(t));
    forall u | 0 <= u < |s'.pool|
      ensures !CanWrite(s'.w, s'.pool[u])
    {
      assert !CanWrite(s.w, s.pool[u]);
    }
  }

  lemma TakeKeepsFreeze(s: World, t: nat)
    requires FreezeInv(s) && Enabled(s, Take(t))
    ensures FreezeInv(Do(s, Take(t)))
  {
    SomeoneStays(s.pool, t, IDLE.(pc := Taken), CloseClean);
    SomeoneStays(s.pool, t, IDLE.(pc := Taken), CloseCheck);
    if NoWriters(s) { TakeWrites(s, t); }
    FreezeStays(s, Do(s, Take(t)));
  }

  /** Outside steps decide about the writer in three places: a safe Cancel, its
      load of the connection count, and its cleanup. */
  lemma OutsideKeepsFreeze(s: World, st: Step)
    requires CleanInv(s) && FreezeInv(s) && Enabled(s, st) && Outside(st)
    requires st.CancelSet? ==> CancelSafe(s)
    requires Frozen(s) ==> Frozen(Do(s, st))
    requires st.CancelLoad? && s.e.conns == 0 ==> NoWriters(s)
    ensures FreezeInv(Do(s, st))
  {
    OutsidePool(s, st);
  }

  lemma StepKeepsFreeze(s: World, st: Step)
    requires Inv(s) && CleanInv(s) && FreezeInv(s) && Enabled(s, st)
    requires st.CancelSet? ==> CancelSafe(s)
    ensures FreezeInv(Do(s, st))
  {
    if st.Act? {
      ActKeepsFreeze(s, st.thread, st.k, st.to);
    } else if st.Take? {
      TakeKeepsFreeze(s, st.thread);
    } else if st.Crash? {
      CrashIsClean(s, st);
    } else {
      if st.CancelLoad? && s.e.conns == 0 { NobodyOpen(s); }
      if Frozen(s) { FrozenStep(s, st); }
      OutsideKeepsFreeze(s, st);
    }
  }

  // ---------------------------------------------------------------------------
  // Runs.

  /** Every Cancel of the run comes safely. */
  ghost predicate Careful(s: World, steps: seq<Step>)
    requires Legal(s, steps)
    decreases |steps|
  {
    steps == [] || ((steps[0].CancelSet? ==> CancelSafe(s)) && Careful(Do(s, steps[0]), steps[1..]))
  }

  lemma {:induction false} CleanRun(s: World, steps: seq<Step>)
    requires Inv(s) && CleanInv(s) && Legal(s, steps)
    ensures CleanInv(Run(s, steps))
    decreases |steps|
  {
    if steps != [] {
      InvStep(s, steps[0]);
      StepKeepsClean(s, steps[0]);
      CleanRun(Do(s, steps[0]), steps[1..]);
    }
  }

  lemma {:induction false} FreezeRun(s: World, steps: seq<Step>)
    requires Inv(s) && CleanInv(s) && FreezeInv(s) && Legal(s, steps) && Careful(s, steps)
    ensures FreezeInv(Run(s, steps))
    decreases |steps|
  {
    if steps != [] {
      InvStep(s, steps[0]);
      StepKeepsClean(s, steps[0]);
      StepKeepsFreeze(s, steps[0]);
      FreezeRun(Do(s, steps[0]), steps[1..]);
    }
  }

  lemma CleanStart(remote: seq<byte>, file: seq<byte>, cs: seq<Chunk>, threads: nat, maxC: int)
    ensures CleanInv(Start(remote, file, cs, threads, maxC)) && FreezeInv(Start(remote, file, cs, threads, maxC))
  {
  }

  /** Every run: cleanup takes effect at most once per engine, and a canceled
      engine with no open worker and no close or Cancel call in progress has
      been cleaned. */
  lemma CanceledIsCleaned(remote: seq<byte>, file: seq<byte>, cs: seq<Chunk>, threads: nat, maxC: int, steps: seq<Step>)
    requires FreshJob(remote, file, cs, threads, maxC)
    requires Legal(Start(remote, file, cs, threads, maxC), steps)
    ensures var s := Run(Start(remote, file, cs, threads, maxC), steps);
            && s.h.cleanups <= 1
            && (s.e.state == Canceled && s.e.conns == 0 && s.cancel == NoCancel ==>
                  s.e.cleaned || Someone(s.pool, CloseCheck) || Someone(s.pool, CloseClean))
  {
    var s0 := Start(remote, file, cs, threads, maxC);
    InvStart(remote, file, cs, threads, maxC);
    CleanStart(remote, file, cs, threads, maxC);
    CleanRun(s0, steps);
  }

  // ---------------------------------------------------------------------------
  // The store of a failing worker.

  /** The writer is not gone while a failing worker is about to store through it. */
  ghost predicate StoreSafe(s: World) { s.e.cleaned ==> !Someone(s.pool, FailStore) }

  /** The step releases the writer. */
  predicate Releases(s: World, st: Step)
    requires Enabled(s, st)
  {
    !s.e.cleaned && Do(s, st).e.cleaned
  }

  /** Every release of the run finds no worker about to store a failure. */
  ghost predicate StoresFirst(s: World, steps: seq<Step>)
    requires Legal(s, steps)
    decreases |steps|
  {
    steps == [] || ((Releases(s, steps[0]) ==> !Someone(s.pool, FailStore)) && StoresFirst(Do(s, steps[0]), steps[1..]))
  }

  /** Only a worker that sets Failed comes to store a failure. */
  predicate MovesFailing(s: World, x: Worker, f: Effect)
  {
    f.x.pc == FailStore ==> x.pc == Failing && !Terminal(s.e.state)
  }

  lemma ActFails(s: World, t: nat, k: nat, to: Pc)
    requires ActEnabled(s, t, k, to)
    ensures MovesFailing(s, s.pool[t], ActOf(s, t, k, to))
  {
  }

  /** In a terminal state no worker comes to store a failure. */
  lemma NoNewFailStore(s: World, st: Step)
    requires Enabled(s, st) && Terminal(s.e.state) && !Someone(s.pool, FailStore)
    ensures !Someone(Do(s, st).pool, FailStore)
  {
    if st.Act? {
      ActFails(s, st.thread, st.k, st.to);
      SomeoneStays(s.pool, st.thread, ActOf(s, st.thread, st.k, st.to).x, FailStore);
    } else if st.Take? {
      SomeoneStays(s.pool, st.thread, IDLE.(pc := Taken), FailStore);
    } else if !st.Crash? {
      OutsidePool(s, st);
    }
  }

  lemma ActReleaseIsTerminal(s: World, t: nat, k: nat, to: Pc)
    requires FinishInv(s) && CleanInv(s) && ActEnabled(s, t, k, to)
    requires MovesCleaned(s, s.pool[t], ActOf(s, t, k, to)) && !s.e.cleaned && ActOf(s, t, k, to).e.cleaned
    ensures Terminal(s.e.state)
  {
    if s.pool[t].pc == CloseClean { assert Someone(s.pool, CloseClean); }
    TotUpdate(s.pool, FinalW, t, s.pool[t]);
  }

  /** The writer is released in a terminal state. */
  lemma ReleaseIsTerminal(s: World, st: Step)
    requires FinishInv(s) && CleanInv(s) && Enabled(s, st) && Releases(s, st)
    ensures Terminal(s.e.state)
  {
    if st.Act? {
      ActCleans(s, st.thread, st.k, st.to);
      ActReleaseIsTerminal(s, st.thread, st.k, st.to);
    }
  }

  lemma StepStoresSafely(s: World, st: Step)
    requires Inv(s) && CleanInv(s) && StoreSafe(s) && Enabled(s, st)
    requires Releases(s, st) ==> !Someone(s.pool, FailStore)
    ensures StoreSafe(Do(s, st))
  {
    if Do(s, st).e.cleaned {
      if !s.e.cleaned { ReleaseIsTerminal(s, st); }
      NoNewFailStore(s, st);
    }
  }

  lemma {:induction false} StoreSafeRun(s: World, steps: seq<Step>)
    requires Inv(s) && CleanInv(s) && StoreSafe(s) && Legal(s, steps) && StoresFirst(s, steps)
    ensures StoreSafe(Run(s, steps))
    decreases |steps|
  {
    if steps != [] {
      InvStep(s, steps[0]);
      StepKeepsClean(s, steps[0]);
      StepStoresSafely(s, steps[0]);
      StoreSafeRun(Do(s, steps[0]), steps[1..]);
    }
  }

  lemma {:induction false} ReleasedOnce(s: World, steps: seq<Step>)
    requires Legal(s, steps) && NoCrash(steps) && s.e.cleaned
    ensures StoresFirst(s, steps)
    decreases |steps|
  {
    if steps != [] {
      StaysCleaned(s, steps[0]);
      ReleasedOnce(Do(s, steps[0]), steps[1..]);
    }
  }

  lemma StaysCleaned(s: World, st: Step)
    requires Enabled(s, st) && !st.Crash? && s.e.cleaned
    ensures Do(s, st).e.cleaned
  {
    if st.Act? { ActCleans(s, st.thread, st.k, st.to); }
  }

  lemma QuietRelease(s: World, st: Step, steps: seq<Step>)
    requires Inv(s) && CleanInv(s) && Enabled(s, st) && !st.Crash? && Releases(s, st)
    requires !Someone(s.pool, FailStore) && Legal(Do(s, st), steps) && NoCrash(steps)
    ensures StoreSafe(Run(Do(s, st), steps))
  {
    InvStep(s, st);
    StepKeepsClean(s, st);
    StepStoresSafely(s, st);
    ReleasedOnce(Do(s, st), steps);
    StoreSafeRun(Do(s, st), steps);
  }

  lemma NoSteps(s: World) returns (none: seq<Step>)
    ensures Legal(s, none) && NoCrash(none) && Run(s, none) == s
  {
    none := [];
  }

  /** Where the writer is released: no failing worker stores through it afterwards,
      on any continuation up to a restart, if and only if no worker is about to
      store a failure at that moment. */
  lemma ReleaseIsSafeExactly(s: World, st: Step)
    requires Inv(s) && CleanInv(s) && Enabled(s, st) && !st.Crash? && Releases(s, st)
    ensures !Someone(s.pool, FailStore) <==>
            forall steps :: Legal(Do(s, st), steps) && NoCrash(steps) ==> StoreSafe(Run(Do(s, st), steps))
  {
    if !Someone(s.pool, FailStore) {
      forall steps | Legal(Do(s, st), steps) && NoCrash(steps)
        ensures StoreSafe(Run(Do(s, st), steps))
      {
        QuietRelease(s, st, steps);
      }
    } else {
      ReleaseLeavesFailing(s, st);
      var none := NoSteps(Do(s, st));
    }
  }

  /** A release moves no worker that is about to store a failure. */
  lemma ReleaseLeavesFailing(s: World, st: Step)
    requires Enabled(s, st) && !st.Crash? && Releases(s, st) && Someone(s.pool, FailStore)
    ensures Someone(Do(s, st).pool, FailStore)
  {
    if st.Act? {
      ActCleans(s, st.thread, st.k, st.to);
      SomeoneStays(s.pool, st.thread, ActOf(s, st.thread, st.k, st.to).x, FailStore);
    } else {
      OutsidePool(s, st);
    }
  }

  /** Careful runs: once the writer is released no worker can write or count bytes,
      nor store from a report; and none stores a failure when every release came
      after such stores. */
  lemma ReleasedWriterIsUnused(remote: seq<byte>, file: seq<byte>, cs: seq<Chunk>, threads: nat, maxC: int,
                               steps: seq<Step>)
    requires FreshJob(remote, file, cs, threads, maxC)
    requires Legal(Start(remote, file, cs, threads, maxC), steps)
    requires Careful(Start(remote, file, cs, threads, maxC), steps)
    ensures WriterSafe(Run(Start(remote, file, cs, threads, maxC), steps))
    ensures StoresFirst(Start(remote, file, cs, threads, maxC), steps) ==>
              StoreSafe(Run(Start(remote, file, cs, threads, maxC), steps))
  {
    var s0 := Start(remote, file, cs, threads, maxC);
    InvStart(remote, file, cs, threads, maxC);
    CleanStart(remote, file, cs, threads, maxC);
    FreezeRun(s0, steps);
    if StoresFirst(s0, steps) { StoreSafeRun(s0, steps); }
  }

  // ---------------------------------------------------------------------------
  // Exactly when a Cancel is safe.

  lemma TerminalStays(s: World, st: Step)
    requires Enabled(s, st) && !st.Crash? && Terminal(s.e.state)
    ensures Terminal(Do(s, st).e.state) && !st.CancelSet?
  {
    if st.Act? { ActTerminal(s, st.thread, st.k, st.to); }
  }

  lemma {:induction false} TerminalRunIsCareful(s: World, steps: seq<Step>)
    requires Legal(s, steps) && NoCrash(steps) && Terminal(s.e.state)
    ensures Careful(s, steps)
    decreases |steps|
  {
    if steps != [] {
      TerminalStays(s, steps[0]);
      TerminalRunIsCareful(Do(s, steps[0]), steps[1..]);
    }
  }

  lemma SafeCancelStaysSafe(s: World, steps: seq<Step>)
    requires Inv(s) && CleanInv(s) && Enabled(s, CancelSet) && CancelSafe(s)
    requires Legal(Do(s, CancelSet), steps) && NoCrash(steps)
    ensures WriterSafe(Run(Do(s, CancelSet), steps))
  {
    CancelStaysInvariant(s, Do(s, CancelSet));
    CancelFreezes(s, Do(s, CancelSet));
    FreezeRunTerminal(Do(s, CancelSet), steps);
  }

  lemma CancelStaysInvariant(s: World, s1: World)
    requires Inv(s) && CleanInv(s) && Enabled(s, CancelSet) && s1 == Do(s, CancelSet)
    ensures Inv(s1) && CleanInv(s1)
  {
    InvStep(s, CancelSet);
    StepKeepsClean(s, CancelSet);
  }

  /** A safe Cancel freezes or leaves no one to release the writer. */
  lemma CancelFreezes(s: World, s1: World)
    requires CleanInv(s) && CancelSafe(s) && Enabled(s, CancelSet) && s1 == Do(s, CancelSet)
    ensures FreezeInv(s1) && Terminal(s1.e.state)
  {
    assert s1.pool == s.pool && s1.w == s.w;
  }

  lemma FreezeRunTerminal(s: World, steps: seq<Step>)
    requires Inv(s) && CleanInv(s) && FreezeInv(s) && Terminal(s.e.state)
    requires Legal(s, steps) && NoCrash(steps)
    ensures WriterSafe(Run(s, steps))
  {
    TerminalRunIsCareful(s, steps);
    FreezeRun(s, steps);
  }

  /** Thread `a` is about to clean up while thread `b` can write. */
  ghost predicate Colliding(s: World, a: nat, b: nat)
  {
    && s.e.state == Canceled
    && a < |s.pool| && s.pool[a].pc == CloseClean
    && b < |s.pool| && CanWrite(s.w, s.pool[b])
  }

  lemma Joined(s: World, a: seq<Step>, mid: World, b: seq<Step>, s': World) returns (steps: seq<Step>)
    requires Leads(s, a, mid) && Leads(mid, b, s') && NoCrash(a) && NoCrash(b)
    ensures Leads(s, steps, s') && NoCrash(steps)
  {
    LeadsOn(s, a, mid, b, s');
    steps := a + b;
  }

  function NextStore(s: World): Step
    requires s.store.Some?
  {
    var op := s.store.value;
    if |op.snap| < |s.w.chunks| then Snap
    else if op.owner.Some? then Act(op.owner.value, 0, Idle)
    else CommitOutside
  }

  /** A worker after the store it may be in. */
  function Unlocked(x: Worker): Worker
  {
    if x.pc == StoreHeld then x.(pc := FinishCheck) else if x.pc == FailHeld then x.(pc := CloseSched) else x
  }

  /** Only a store has gone on between the two states. */
  ghost predicate Near(s: World, s': World)
  {
    && s'.w == s.w && s'.e == s.e.(unsaved := s'.e.unsaved)
    && s'.cancel == s.cancel && s'.outputRemoved == s.outputRemoved
    && |s'.pool| == |s.pool| && forall u :: 0 <= u < |s.pool| ==>
         s'.pool[u] == s.pool[u] || s'.pool[u] == Unlocked(s.pool[u])
  }

  lemma OwnerStores(s: World, o: nat)
    requires Inv(s) && s.e.state == Canceled && s.store.Some? && s.store.value.owner == Some(o)
    ensures o < |s.pool| && (s.pool[o].pc == StoreHeld || s.pool[o].pc == FailHeld)
    ensures Holds(s.pool[o].pc) ==> ItemValid(s.w, s.pool[o])
  {
    assert WorkerOk(s.remote, s.file, s.w, s.pool[o]);
    TotUpdate(s.pool, FinalW, o, s.pool[o]);
  }

  lemma CommitProgress(s: World, o: nat)
    requires s.store.Some? && s.store.value.owner == Some(o) && |s.store.value.snap| == |s.w.chunks|
    requires o < |s.pool| && (s.pool[o].pc == StoreHeld || s.pool[o].pc == FailHeld)
    requires Holds(s.pool[o].pc) ==> ItemValid(s.w, s.pool[o])
    ensures Enabled(s, Act(o, 0, Idle))
    ensures Do(s, Act(o, 0, Idle)).store.None? && Near(s, Do(s, Act(o, 0, Idle)))
  {
  }

  /** A store in progress can go on. */
  lemma StoreProgress(s: World, st: Step)
    requires Inv(s) && s.e.state == Canceled && s.store.Some? && st == NextStore(s)
    ensures Enabled(s, st) && !st.Crash? && Near(s, Do(s, st))
    ensures Do(s, st).store.None? || |Do(s, st).store.value.snap| == |s.store.value.snap| + 1
  {
    if st.Act? {
      OwnerStores(s, st.thread);
      CommitProgress(s, st.thread);
    }
  }

  /** The disk lock of a canceled engine can always be brought free. */
  lemma {:induction false} FreeLock(s: World) returns (s': World, steps: seq<Step>)
    requires Inv(s) && s.e.state == Canceled
    ensures Leads(s, steps, s') && NoCrash(steps) && s'.store.None? && Near(s, s')
    decreases if s.store.Some? then |s.w.chunks| - |s.store.value.snap| + 1 else 0
  {
    if s.store.None? {
      s', steps := s, [];
    } else {
      var st := NextStore(s);
      StoreProgress(s, st);
      InvStep(s, st);
      LeadsStep(s, st);
      var mid, rest := Do(s, st), [];
      s', rest := FreeLock(mid);
      steps := Joined(s, [st], mid, rest, s');
    }
  }

  lemma LoadEffect(s: World, a: nat, b: nat, st: Step)
    requires s.e.state == Canceled && st == Act(a, 0, Idle)
    requires a < |s.pool| && s.pool[a].pc == CloseCheck
    requires b < |s.pool| && CanWrite(s.w, s.pool[b])
    ensures Enabled(s, st) && Colliding(Do(s, st), a, b)
  {
    assert Do(s, st).pool[b] == s.pool[b];
  }

  /** The closing thread loads the canceled state. */
  lemma LoadCollides(s: World, a: nat, b: nat) returns (s': World, steps: seq<Step>)
    requires Inv(s) && s.e.state == Canceled
    requires a < |s.pool| && s.pool[a].pc == CloseCheck
    requires b < |s.pool| && CanWrite(s.w, s.pool[b])
    ensures Leads(s, steps, s') && NoCrash(steps) && Inv(s') && Colliding(s', a, b)
  {
    var st := Act(a, 0, Idle);
    LoadEffect(s, a, b, st);
    InvStep(s, st);
    LeadsStep(s, st);
    s', steps := Do(s, st), [st];
  }

  /** The cleanup then takes the writer away. */
  lemma CleanupCollides(s: World, a: nat, b: nat) returns (s': World, steps: seq<Step>)
    requires Colliding(s, a, b) && s.store.None?
    ensures Leads(s, steps, s') && NoCrash(steps) && !WriterSafe(s')
  {
    var st := Act(a, 0, Idle);
    LeadsStep(s, st);
    s', steps := Do(s, st), [st];
    assert CanWrite(s'.w, s'.pool[b]);
  }

  lemma NearCollides(s: World, s': World, a: nat, b: nat)
    requires Near(s, s') && Colliding(s, a, b)
    ensures Colliding(s', a, b)
  {
    assert s'.pool[a] == s.pool[a];
  }

  lemma CollisionRun(s: World, a: nat, b: nat) returns (s': World, steps: seq<Step>)
    requires Inv(s) && Colliding(s, a, b)
    ensures Leads(s, steps, s') && NoCrash(steps) && !WriterSafe(s')
  {
    var free, rest := FreeLock(s);
    NearCollides(s, free, a, b);
    var last;
    s', last := CleanupCollides(free, a, b);
    steps := Joined(s, rest, free, last, s');
  }

  lemma CanceledCollides(s: World, a: nat, b: nat) returns (s': World, steps: seq<Step>)
    requires Inv(s) && s.e.state == Canceled
    requires a < |s.pool| && s.pool[a].pc == CloseCheck
    requires b < |s.pool| && CanWrite(s.w, s.pool[b])
    ensures Leads(s, steps, s') && NoCrash(steps) && !WriterSafe(s')
  {
    var loaded, first := LoadCollides(s, a, b);
    var rest;
    s', rest := CollisionRun(loaded, a, b);
    steps := Joined(s, first, loaded, rest, s');
  }

  /** A Cancel that finds a closing thread and a writer leads to a run that
      releases the writer under a worker that can still write. */
  lemma UnsafeCancelHappens(s: World) returns (steps: seq<Step>)
    requires Inv(s) && Enabled(s, CancelSet) && !CancelSafe(s)
    ensures Legal(Do(s, CancelSet), steps) && NoCrash(steps)
    ensures !WriterSafe(Run(Do(s, CancelSet), steps))
  {
    var a :| 0 <= a < |s.pool| && s.pool[a].pc == CloseCheck;
    var b :| 0 <= b < |s.pool| && CanWrite(s.w, s.pool[b]);
    var s1 := Do(s, CancelSet);
    InvStep(s, CancelSet);
    var s';
    s', steps := CanceledCollides(s1, a, b);
  }

  /** In any reachable state in which Cancel can take effect: the writer is safe
      on every continuation up to a restart if and only if `CancelSafe` holds
      when Cancel sets the state. */
  lemma CancelIsSafeExactly(s: World)
    requires Inv(s) && CleanInv(s) && Enabled(s, CancelSet)
    ensures CancelSafe(s) <==>
            forall steps :: Legal(Do(s, CancelSet), steps) && NoCrash(steps) ==>
              WriterSafe(Run(Do(s, CancelSet), steps))
  {
    if CancelSafe(s) {
      forall steps | Legal(Do(s, CancelSet), steps) && NoCrash(steps)
        ensures WriterSafe(Run(Do(s, CancelSet), steps))
      {
        SafeCancelStaysSafe(s, steps);
      }
    } else {
      var steps := UnsafeCancelHappens(s);
      assert Legal(Do(s, CancelSet), steps);
    }
  }
}
