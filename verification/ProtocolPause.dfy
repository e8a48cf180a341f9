/** After a Pause (or a failure or a Cancel) the download comes to rest: few
    bytes still arrive, and the workers drain. */
module ProtocolPause {
  import opened Basics
  import opened Chunks
  import opened EngineSpec
  import opened Protocol
  import opened ProtocolData
  import opened ProtocolCounts
  import opened ProtocolRuns
  import opened ProtocolCancel

  /** Neither a Resume nor a restart. */
  predicate Restless(st: Step) { st.ResumeSet? || st.Crash? }

  predicate NoResume(steps: seq<Step>)
  {
    forall i :: 0 <= i < |steps| ==> !Restless(steps[i])
  }

  // ---------------------------------------------------------------------------
  // Bytes that may still arrive.

  /** Past its state check and not yet counted. */
  predicate PastCheck(pc: Pc) { pc == Budget || pc == Read || pc == Write || pc == Update }

  function PastCheckW(x: Worker): nat { if PastCheck(x.pc) then 1 else 0 }

  /** Bytes the worker may still add to its chunk without another state check. */
  function ComingW(x: Worker): nat
  {
    if x.pc == Budget || x.pc == Read then 32768
    else if x.pc == Write || x.pc == Update then |x.data| else 0
  }

  ghost function Coming(s: World): nat { ReceivedSum(s.w.chunks) + Tot(s.pool, ComingW) }

  lemma HaltedStep(s: World, st: Step)
    requires Enabled(s, st) && !Active(s.e.state) && !Restless(st)
    ensures !Active(Do(s, st).e.state)
  {
    if st.Act? { ActHalted(s, st.thread, st.k, st.to); }
  }

  lemma ActHalted(s: World, t: nat, k: nat, to: Pc)
    requires ActEnabled(s, t, k, to) && !Active(s.e.state)
    ensures !Active(ActOf(s, t, k, to).e.state)
  {
  }

  /** A halted worker passes no new state check, and reads at most its budget. */
  lemma ActComing(s: World, t: nat, k: nat, to: Pc)
    requires ActEnabled(s, t, k, to) && s.e.state != Downloading && s.pool[t].pc != Update
    requires s.pool[t].pc == Read ==> s.pool[t].allowed <= BUFFER_SIZE
    ensures ComingW(ActOf(s, t, k, to).x) <= ComingW(s.pool[t])
  {
  }

  lemma ComingLocal(s: World, t: nat, k: nat, to: Pc)
    requires DataInv(s) && ActEnabled(s, t, k, to) && !Active(s.e.state)
    ensures ReceivedSum(DoAct(s, t, k, to).w.chunks) + ComingW(ActOf(s, t, k, to).x)
              <= ReceivedSum(s.w.chunks) + ComingW(s.pool[t])
  {
    assert WorkerOk(s.remote, s.file, s.w, s.pool[t]);
    if s.pool[t].pc == Update {
      UpdateReceives(s, t, k, to);
    } else {
      ActComing(s, t, k, to);
      ActChunks(s, t, k, to);
    }
  }

  lemma ComingAct(s: World, t: nat, k: nat, to: Pc)
    requires DataInv(s) && ActEnabled(s, t, k, to) && !Active(s.e.state)
    ensures Coming(DoAct(s, t, k, to)) <= Coming(s)
  {
    ComingLocal(s, t, k, to);
    ComingApply(s, t, ActOf(s, t, k, to));
  }

  lemma ComingApply(s: World, t: nat, f: Effect)
    requires t < |s.pool| && (f.side.CommitStore? ==> s.store.Some?)
    requires ReceivedSum(Apply(s, t, f).w.chunks) + ComingW(f.x) <= ReceivedSum(s.w.chunks) + ComingW(s.pool[t])
    ensures Coming(Apply(s, t, f)) <= Coming(s)
  {
    TotUpdate(s.pool, ComingW, t, f.x);
  }

  /** An update moves the worker's bytes into its chunk. */
  lemma UpdateReceives(s: World, t: nat, k: nat, to: Pc)
    requires ActEnabled(s, t, k, to) && s.pool[t].pc == Update
    ensures ReceivedSum(DoAct(s, t, k, to).w.chunks) == ReceivedSum(s.w.chunks) + |s.pool[t].data|
    ensures ActOf(s, t, k, to).x.pc == TotalAdd
  {
    var c := ItemOf(s, s.pool[t]).chunk;
    FinishedUpdate(s.w.chunks, c, DoAct(s, t, k, to).w.chunks[c], |s.w.chunks|);
  }

  lemma ComingStep(s: World, st: Step)
    requires DataInv(s) && Enabled(s, st) && !Active(s.e.state) && !Restless(st)
    ensures Coming(Do(s, st)) <= Coming(s)
  {
    match st
    case Act(t, k, to) => ComingAct(s, t, k, to);
    case Take(t) => TotUpdate(s.pool, ComingW, t, IDLE.(pc := Taken));
    case _ =>
  }

  lemma {:induction false} ComingRun(s: World, steps: seq<Step>)
    requires Inv(s) && Legal(s, steps) && !Active(s.e.state) && NoResume(steps)
    ensures Coming(Run(s, steps)) <= Coming(s)
    ensures !Active(Run(s, steps).e.state)
    decreases |steps|
  {
    if steps != [] {
      ComingStep(s, steps[0]);
      HaltedStep(s, steps[0]);
      InvStep(s, steps[0]);
      ComingRun(Do(s, steps[0]), steps[1..]);
    }
  }

  lemma {:induction false} ComingIsSmall(remote: seq<byte>, file: seq<byte>, w: Work, pool: seq<Worker>)
    requires forall t :: 0 <= t < |pool| ==> WorkerOk(remote, file, w, pool[t])
    ensures Tot(pool, ComingW) <= 32768 * Tot(pool, PastCheckW)
  {
    if pool != [] {
      var n := |pool| - 1;
      assert WorkerOk(remote, file, w, pool[n]);
      forall t | 0 <= t < |pool[..n]|
        ensures WorkerOk(remote, file, w, pool[..n][t])
      {
        assert WorkerOk(remote, file, w, pool[t]);
      }
      ComingIsSmall(remote, file, w, pool[..n]);
    }
  }

  /** Pause quiescence: from a Pause until the next Resume the received bytes
      grow by at most one buffer per worker already past its state check. */
  lemma PauseQuiesces(s: World, steps: seq<Step>)
    requires Inv(s) && Enabled(s, Pause)
    requires Legal(Do(s, Pause), steps) && NoResume(steps)
    ensures var s' := Run(Do(s, Pause), steps);
            ReceivedSum(s'.w.chunks) <= ReceivedSum(s.w.chunks) + 32768 * Tot(s.pool, PastCheckW)
  {
    InvStep(s, Pause);
    ComingRun(Do(s, Pause), steps);
    ComingIsSmall(s.remote, s.file, s.w, s.pool);
  }

  // ---------------------------------------------------------------------------
  // Draining.

  /** The steps that run without anybody's call: planned tasks are enqueued,
      threads take and work, a store in progress goes on. */
  predicate Working(st: Step)
  {
    st.Enqueue? || st.Take? || st.Act? || st.Snap? || st.CommitOutside?
  }

  predicate WorkingOnly(steps: seq<Step>)
  {
    forall i :: 0 <= i < |steps| ==> Working(steps[i])
  }

  /** How far a worker of a halted engine is from Idle, for `n` chunks. */
  function Rank(n: nat, x: Worker): nat
  {
    match x.pc
    case Idle => 0
    case CloseClean => 1
    case CloseCheck => 2
    case CloseConn => 3
    case CloseSched => 4
    case FailHeld => 5
    case FailStore => n + 8
    case Failing => n + 9
    case InnerState => n + 10
    case InnerRelease => n + 11
    case Claim => n + 12
    case OuterRelease => n + 13
    case Promote => n + 14
    case Taken => n + 15
    case StreamTop => n + 16
    case AfterNotify => n + 17
    case FinalCall => n + 18
    case FinalClean => n + 19
    case FinalHeld => n + 20
    case FinalStore => 2 * n + 23
    case ForceDone => 2 * n + 24
    case LastCas => 2 * n + 25
    case FinishCheck => 2 * n + 26
    case StoreHeld => 2 * n + 27
    case StoreWait => 3 * n + 30
    case UnsavedAdd => 3 * n + 31
    case TotalAdd => 3 * n + 32
    case Update => 3 * n + 33
    case Write => 3 * n + 34 + Max(0, |x.data| - x.written)
    case Read => 3 * n + 32803
    case Budget => 3 * n + 32804
  }

  function RankSum(n: nat, pool: seq<Worker>): nat
  {
    if pool == [] then 0 else RankSum(n, pool[..|pool| - 1]) + Rank(n, pool[|pool| - 1])
  }

  lemma {:induction false} RankUpdate(n: nat, pool: seq<Worker>, t: nat, x: Worker)
    requires t < |pool|
    ensures RankSum(n, pool[t := x]) == RankSum(n, pool) - Rank(n, pool[t]) + Rank(n, x)
  {
    var m := |pool| - 1;
    if t == m {
      assert pool[t := x][..m] == pool[..m];
    } else {
      assert pool[t := x][..m] == pool[..m][t := x];
      RankUpdate(n, pool[..m], t, x);
    }
  }

  /** Steps a store in progress still needs. */
  function StoreLeft(n: nat, store: Option<StoreOp>): int
  {
    if store.Some? then n - |store.value.snap| + 1 else 0
  }

  function Measure(s: World): int
  {
    var n := |s.w.chunks|;
    s.planned * (n + 17) + s.queued * (n + 16) + RankSum(n, s.pool) + StoreLeft(n, s.store)
  }

  lemma EnteringRank(s: World, t: nat, k: nat, to: Pc, n: nat)
    requires ActEnabled(s, t, k, to) && Entering(s.pool[t].pc) && s.e.state != Downloading
    requires s.pool[t].pc == Read ==> s.pool[t].allowed <= BUFFER_SIZE
    ensures Rank(n, ActOf(s, t, k, to).x) + (if ActOf(s, t, k, to).side.Lock? then n + 1 else 0) < Rank(n, s.pool[t])
  {
  }

  lemma StreamingRank(s: World, t: nat, k: nat, to: Pc, n: nat)
    requires ActEnabled(s, t, k, to) && Streaming(s.pool[t].pc) && s.e.state != Downloading
    requires s.pool[t].pc == Read ==> s.pool[t].allowed <= BUFFER_SIZE
    ensures Rank(n, ActOf(s, t, k, to).x) + (if ActOf(s, t, k, to).side.Lock? then n + 1 else 0) < Rank(n, s.pool[t])
  {
  }

  lemma ReportingRank(s: World, t: nat, k: nat, to: Pc, n: nat)
    requires ActEnabled(s, t, k, to) && Reporting(s.pool[t].pc) && s.e.state != Downloading
    requires s.pool[t].pc == Read ==> s.pool[t].allowed <= BUFFER_SIZE
    ensures Rank(n, ActOf(s, t, k, to).x) + (if ActOf(s, t, k, to).side.Lock? then n + 1 else 0) < Rank(n, s.pool[t])
  {
  }

  lemma LeavingRank(s: World, t: nat, k: nat, to: Pc, n: nat)
    requires ActEnabled(s, t, k, to) && Leaving(s.pool[t].pc) && s.e.state != Downloading
    requires s.pool[t].pc == Read ==> s.pool[t].allowed <= BUFFER_SIZE
    ensures Rank(n, ActOf(s, t, k, to).x) + (if ActOf(s, t, k, to).side.Lock? then n + 1 else 0) < Rank(n, s.pool[t])
  {
  }

  /** Every step of a halted worker lowers its rank, by more than a whole store
      when it starts one. */
  lemma ActRank(s: World, t: nat, k: nat, to: Pc, n: nat)
    requires ActEnabled(s, t, k, to) && s.e.state != Downloading
    requires s.pool[t].pc == Read ==> s.pool[t].allowed <= BUFFER_SIZE
    ensures Rank(n, ActOf(s, t, k, to).x) + (if ActOf(s, t, k, to).side.Lock? then n + 1 else 0) < Rank(n, s.pool[t])
  {
    FourClasses(s.pool[t].pc);
    if Entering(s.pool[t].pc) {
      EnteringRank(s, t, k, to, n);
    } else if Streaming(s.pool[t].pc) {
      StreamingRank(s, t, k, to, n);
    } else if Reporting(s.pool[t].pc) {
      ReportingRank(s, t, k, to, n);
    } else {
      LeavingRank(s, t, k, to, n);
    }
  }

  lemma ActSize(s: World, t: nat, k: nat, to: Pc)
    requires ActEnabled(s, t, k, to)
    ensures |DoAct(s, t, k, to).w.chunks| == |s.w.chunks|
  {
    if s.pool[t].pc != Update { ActChunks(s, t, k, to); }
  }

  lemma ApplyMeasure(s: World, t: nat, f: Effect)
    requires t < |s.pool| && MovesLock(s.store, t, s.pool[t], f)
    requires |Apply(s, t, f).w.chunks| == |s.w.chunks|
    requires f.side.CommitStore? ==> |s.store.value.snap| <= |s.w.chunks|
    requires Rank(|s.w.chunks|, f.x) + (if f.side.Lock? then |s.w.chunks| + 1 else 0) < Rank(|s.w.chunks|, s.pool[t])
    ensures Measure(Apply(s, t, f)) < Measure(s)
  {
    RankUpdate(|s.w.chunks|, s.pool, t, f.x);
  }

  lemma ActMeasure(s: World, t: nat, k: nat, to: Pc)
    requires DataInv(s) && ActEnabled(s, t, k, to) && !Active(s.e.state)
    ensures Measure(DoAct(s, t, k, to)) < Measure(s)
  {
    var n := |s.w.chunks|;
    assert WorkerOk(s.remote, s.file, s.w, s.pool[t]);
    ActRank(s, t, k, to, n);
    ActLock(s, t, k, to);
    ActSize(s, t, k, to);
    ApplyMeasure(s, t, ActOf(s, t, k, to));
  }

  /** Enqueuing and taking a task bring it one nearer to running. */
  lemma EnqueueMeasure(s: World)
    requires s.planned > 0
    ensures Measure(Do(s, Enqueue)) < Measure(s)
  {
    var n := |s.w.chunks|;
    assert (s.planned - 1) * (n + 17) == s.planned * (n + 17) - (n + 17);
    assert (s.queued + 1) * (n + 16) == s.queued * (n + 16) + (n + 16);
  }

  lemma TakeMeasure(s: World, t: nat)
    requires Enabled(s, Take(t))
    ensures Measure(Do(s, Take(t))) < Measure(s)
  {
    var n := |s.w.chunks|;
    RankUpdate(n, s.pool, t, IDLE.(pc := Taken));
    assert (s.queued - 1) * (n + 16) == s.queued * (n + 16) - (n + 16);
  }

  lemma WorkingMeasure(s: World, st: Step)
    requires DataInv(s) && Enabled(s, st) && Working(st) && !Active(s.e.state)
    ensures Measure(Do(s, st)) < Measure(s)
  {
    match st
    case Act(t, k, to) => ActMeasure(s, t, k, to);
    case Take(t) => TakeMeasure(s, t);
    case Enqueue => EnqueueMeasure(s);
    case Snap => assert Do(s, st).pool == s.pool && Do(s, st).w == s.w;
    case CommitOutside => assert Do(s, st).pool == s.pool && Do(s, st).w == s.w;
    case _ =>
  }

  lemma MeasurePositive(s: World)
    requires SnapInv(s)
    ensures Measure(s) >= 0
  {
  }

  /** The choice that lets a halted worker go on. */
  function GoOn(pc: Pc): Pc { if pc == OuterRelease then Claim else StreamTop }

  lemma CanAct(s: World, t: nat)
    requires DataInv(s) && LockInv(s) && WriterSafe(s) && s.store.None?
    requires t < |s.pool| && s.pool[t].pc != Idle && s.e.state != Downloading
    ensures ActEnabled(s, t, 0, if s.pool[t].pc == StreamTop then Budget else GoOn(s.pool[t].pc))
  {
    assert WorkerOk(s.remote, s.file, s.w, s.pool[t]);
    assert !Storing(s.pool[t].pc);
    assert s.e.cleaned ==> !CanWrite(s.w, s.pool[t]);
  }

  /** No store goes on, nothing is scheduled, and every thread is free. */
  ghost predicate AtRest(s: World)
  {
    s.store.None? && s.e.scheduled == 0 && forall t :: 0 <= t < |s.pool| ==> s.pool[t].pc == Idle
  }

  /** Until it is at rest a halted engine can always go on by itself. */
  lemma CanGoOn(s: World) returns (st: Step)
    requires Inv(s) && WriterSafe(s) && !Active(s.e.state) && !AtRest(s)
    ensures Enabled(s, st) && Working(st)
  {
    if s.store.Some? {
      st := NextStore(s);
      if st.Act? {
        var o := st.thread;
        assert Storing(s.pool[o].pc);
        assert WorkerOk(s.remote, s.file, s.w, s.pool[o]);
      }
    } else if s.planned > 0 {
      st := Enqueue;
    } else if t :| 0 <= t < |s.pool| && s.pool[t].pc != Idle {
      CanAct(s, t);
      st := Act(t, 0, if s.pool[t].pc == StreamTop then Budget else GoOn(s.pool[t].pc));
    } else {
      TotZero(s.pool, LiveW);
      st := Take(0);
    }
  }

  /** While anything is scheduled a halted engine can go on by itself. */
  lemma NeverStuck(s: World) returns (st: Step)
    requires Inv(s) && WriterSafe(s) && !Active(s.e.state) && s.e.scheduled > 0
    ensures Enabled(s, st) && Working(st)
  {
    st := CanGoOn(s);
  }

  lemma {:induction false} DrainRun(s: World, steps: seq<Step>)
    requires Inv(s) && !Active(s.e.state) && Legal(s, steps) && WorkingOnly(steps)
    ensures |steps| <= Measure(s) - Measure(Run(s, steps))
    ensures Inv(Run(s, steps)) && !Active(Run(s, steps).e.state)
    decreases |steps|
  {
    if steps != [] {
      WorkingMeasure(s, steps[0]);
      HaltedStep(s, steps[0]);
      InvStep(s, steps[0]);
      DrainRun(Do(s, steps[0]), steps[1..]);
    }
  }

  /** Pool steps keep a writer that was released safely out of use. */
  lemma {:induction false} DrainSafely(s: World, steps: seq<Step>)
    requires Inv(s) && CleanInv(s) && FreezeInv(s) && Legal(s, steps) && WorkingOnly(steps)
    ensures WriterSafe(Run(s, steps))
    decreases |steps|
  {
    if steps != [] {
      InvStep(s, steps[0]);
      StepKeepsClean(s, steps[0]);
      StepKeepsFreeze(s, steps[0]);
      DrainSafely(Do(s, steps[0]), steps[1..]);
    }
  }

  /** A halted engine drains: runs of its own steps are at most `Measure` long,
      and one that cannot be continued has drained the scheduled count. */
  lemma PauseDrains(s: World, steps: seq<Step>)
    requires Inv(s) && !Active(s.e.state) && Legal(s, steps) && WorkingOnly(steps)
    ensures |steps| <= Measure(s)
    ensures CleanInv(s) && FreezeInv(s) && (forall st :: Working(st) ==> !Enabled(Run(s, steps), st)) ==>
              Run(s, steps).e.scheduled == 0
  {
    DrainRun(s, steps);
    var s' := Run(s, steps);
    MeasurePositive(s');
    if CleanInv(s) && FreezeInv(s) && s'.e.scheduled > 0 {
      DrainSafely(s, steps);
      var st := NeverStuck(s');
    }
  }
}
