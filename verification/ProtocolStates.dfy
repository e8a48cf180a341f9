/** The life of a job in the step system: which steps change its state, which calls
    are taken in which states, and which steps are possible at all. */
module ProtocolStates {
  import opened Basics
  import opened Chunks
  import opened EngineSpec
  import opened Protocol
  import opened ProtocolData
  import opened ProtocolRuns

  // ---------------------------------------------------------------------------
  // State changes.

  /** The state after a worker's step that began at `pc`. */
  predicate Turned(cur: RunState, pc: Pc, next: RunState)
  {
    match pc
    case Promote => next == if cur == Queued then Downloading else cur
    case LastCas => next == if cur == Downloading then Completed else cur
    case ForceDone => next == Completed
    case Failing => next == if cur == Queued || cur == Downloading then Failed else cur
    case _ => next == cur
  }

  lemma ActTurns(s: World, t: nat, k: nat, to: Pc)
    requires ActEnabled(s, t, k, to)
    ensures Turned(s.e.state, s.pool[t].pc, DoAct(s, t, k, to).e.state)
  {
    FourClasses(s.pool[t].pc);
    if Entering(s.pool[t].pc) {
      EnteringTurns(s, t, k, to);
    } else if Streaming(s.pool[t].pc) {
      StreamingTurns(s, t, k, to);
    } else if Reporting(s.pool[t].pc) {
      ReportingTurns(s, t, k, to);
    } else {
      LeavingTurns(s, t, k, to);
    }
  }

  lemma EnteringTurns(s: World, t: nat, k: nat, to: Pc)
    requires ActEnabled(s, t, k, to) && Entering(s.pool[t].pc)
    ensures Turned(s.e.state, s.pool[t].pc, DoAct(s, t, k, to).e.state)
  {
  }

  lemma StreamingTurns(s: World, t: nat, k: nat, to: Pc)
    requires ActEnabled(s, t, k, to) && Streaming(s.pool[t].pc)
    ensures Turned(s.e.state, s.pool[t].pc, DoAct(s, t, k, to).e.state)
  {
  }

  lemma ReportingTurns(s: World, t: nat, k: nat, to: Pc)
    requires ActEnabled(s, t, k, to) && Reporting(s.pool[t].pc)
    ensures Turned(s.e.state, s.pool[t].pc, DoAct(s, t, k, to).e.state)
  {
  }

  lemma LeavingTurns(s: World, t: nat, k: nat, to: Pc)
    requires ActEnabled(s, t, k, to) && Leaving(s.pool[t].pc)
    ensures Turned(s.e.state, s.pool[t].pc, DoAct(s, t, k, to).e.state)
  {
  }

  /** The state after any step. */
  lemma StateMoves(s: World, st: Step)
    requires Enabled(s, st)
    ensures match st
            case Act(t, _, _) => Turned(s.e.state, s.pool[t].pc, Do(s, st).e.state)
            case Pause => Do(s, st).e.state == Paused
            case CancelSet => Do(s, st).e.state == Canceled
            case ResumeSet => Do(s, st).e.state == Queued
            case Crash(_, _) => Do(s, st).e.state == Initialized
            case _ => Do(s, st).e.state == s.e.state
  {
    if st.Act? { ActTurns(s, st.thread, st.k, st.to); }
  }

  /** Exactly when a call is taken: pausing and failing while the job runs, resuming
      one that is not running, over or canceled, and canceling one that has started
      and is not over. */
  lemma TakenExactly(s: World)
    ensures Enabled(s, Pause) <==> s.e.state in {Queued, Downloading}
    ensures Enabled(s, ResumeSet) <==> s.e.state in {Initialized, Paused, Failed}
    ensures Enabled(s, CancelSet) <==> s.cancel == NoCancel && s.e.state !in {Initialized, Completed, Canceled}
  {
  }

  // ---------------------------------------------------------------------------
  // A job's life.

  /** The states that follow a state within one process. */
  function Next(cur: RunState): set<RunState>
  {
    match cur
    case Initialized => {Queued}
    case Queued => {Downloading, Paused, Failed, Canceled, Completed}
    case Downloading => {Paused, Failed, Canceled, Completed}
    case Paused => {Queued, Canceled, Completed}
    case Failed => {Queued, Canceled, Completed}
    case Canceled => {Completed}
    case Completed => {}
  }

  /** A job that was never started has nobody working on it. */
  ghost predicate Quiescent(s: World)
  {
    s.e.state == Initialized ==>
      s.planned == 0 && s.queued == 0 && forall t :: 0 <= t < |s.pool| ==> s.pool[t].pc == Idle
  }

  lemma QuiescentStep(s: World, st: Step)
    requires Quiescent(s) && Enabled(s, st)
    ensures Quiescent(Do(s, st))
  {
    StateMoves(s, st);
  }

  lemma NextStep(s: World, st: Step)
    requires Quiescent(s) && Enabled(s, st) && !st.Crash?
    ensures Do(s, st).e.state == s.e.state || Do(s, st).e.state in Next(s.e.state)
  {
    StateMoves(s, st);
    TakenExactly(s);
  }

  lemma {:induction false} QuiescentRun(s: World, steps: seq<Step>)
    requires Quiescent(s) && Legal(s, steps)
    ensures Quiescent(Run(s, steps))
    decreases |steps|
  {
    if steps != [] {
      QuiescentStep(s, steps[0]);
      QuiescentRun(Do(s, steps[0]), steps[1..]);
    }
  }

  /** The life cycle: at any time in any run, a step leaves the state, moves it as
      `Next` says, or starts a new process. */
  lemma LifeCycle(remote: seq<byte>, file: seq<byte>, cs: seq<Chunk>, threads: nat, maxC: int, steps: seq<Step>,
                  st: Step)
    requires FreshJob(remote, file, cs, threads, maxC)
    requires Legal(Start(remote, file, cs, threads, maxC), steps)
    requires Enabled(Run(Start(remote, file, cs, threads, maxC), steps), st)
    ensures var s := Run(Start(remote, file, cs, threads, maxC), steps);
            var next := Do(s, st).e.state;
            if st.Crash? then next == Initialized else next == s.e.state || next in Next(s.e.state)
  {
    var s0 := Start(remote, file, cs, threads, maxC);
    QuiescentRun(s0, steps);
    var s := Run(s0, steps);
    if st.Crash? { StateMoves(s, st); } else { NextStep(s, st); }
  }

  // ---------------------------------------------------------------------------
  // What the server, the disk and the users may do at any time.

  /** A read brings any number of bytes that the budget and the range leave room for,
      or ends the body, the connection or the worker. */
  lemma AnyRead(s: World, t: nat, k: nat, to: Pc)
    requires Inv(s) && t < |s.pool| && s.pool[t].pc == Read
    ensures ItemValid(s.w, s.pool[t])
    ensures 1 <= k <= s.pool[t].allowed && s.pool[t].off + k <= ItemOf(s, s.pool[t]).rangeEnd + 1 ==>
              ActEnabled(s, t, k, to)
    ensures to in {StreamTop, InnerRelease, Failing} ==> ActEnabled(s, t, 0, to)
  {
    assert WorkerOk(s.remote, s.file, s.w, s.pool[t]);
    ItemInFile(s, t);
  }

  /** What is read is what the remote file has there. */
  lemma ReadsRemote(s: World, t: nat, k: nat, to: Pc)
    requires ActEnabled(s, t, k, to) && s.pool[t].pc == Read
    ensures var x := DoAct(s, t, k, to).pool[t];
            if k == 0 then x.pc == to
            else x.pc == Write && x.written == 0 && x.data == s.remote[s.pool[t].off..s.pool[t].off + k]
  {
  }

  lemma ItemInFile(s: World, t: nat)
    requires Inv(s) && t < |s.pool| && Holds(s.pool[t].pc)
    ensures ItemValid(s.w, s.pool[t]) && ItemOf(s, s.pool[t]).rangeEnd < |s.remote|
  {
    assert WorkerOk(s.remote, s.file, s.w, s.pool[t]);
  }

  /** A write takes any part of the buffer, or fails. */
  lemma AnyWrite(s: World, t: nat, k: nat, to: Pc)
    requires Inv(s) && t < |s.pool| && s.pool[t].pc == Write && !s.e.cleaned
    requires s.pool[t].written + k <= |s.pool[t].data|
    ensures ActEnabled(s, t, k, to)
    ensures k == 0 ==> DoAct(s, t, k, to).pool[t].pc == Failing && DoAct(s, t, k, to).file == s.file
  {
    assert WorkerOk(s.remote, s.file, s.w, s.pool[t]);
  }

  /** Only the next bytes of the buffer come on disk. */
  predicate OnlyWritten(was: seq<byte>, off: nat, data: seq<byte>, now: seq<byte>)
  {
    && |now| == |was| && off + |data| <= |was|
    && forall i :: 0 <= i < |was| ==> now[i] == if off <= i < off + |data| then data[i - off] else was[i]
  }

  lemma OverwriteOnly(was: seq<byte>, off: nat, data: seq<byte>)
    requires off + |data| <= |was|
    ensures OnlyWritten(was, off, data, Overwrite(was, off, data))
  {
  }

  lemma WritesPart(s: World, t: nat, k: nat, to: Pc)
    requires ActEnabled(s, t, k, to) && s.pool[t].pc == Write && k > 0
    ensures var x, s' := s.pool[t], DoAct(s, t, k, to);
            && OnlyWritten(s.file, x.off, x.data[x.written..x.written + k], s'.file)
            && s'.pool[t].off == x.off + k && s'.pool[t].written == x.written + k
            && s'.pool[t].pc == if x.written + k == |x.data| then Update else Write
  {
    var x := s.pool[t];
    OverwriteOnly(s.file, x.off, x.data[x.written..x.written + k]);
  }

  /** The token bucket grants any number of bytes up to a buffer; none only to a job
      that is not downloading. */
  lemma AnyBudget(s: World, t: nat, k: nat, to: Pc)
    requires Inv(s) && t < |s.pool| && s.pool[t].pc == Budget
    ensures ActEnabled(s, t, k, to) <==> k <= 32768 && (k == 0 ==> s.e.state != Downloading)
  {
    assert WorkerOk(s.remote, s.file, s.w, s.pool[t]);
  }

  /** What was granted may be read. */
  lemma Granted(s: World, t: nat, k: nat, to: Pc)
    requires ActEnabled(s, t, k, to) && s.pool[t].pc == Budget
    ensures var x := DoAct(s, t, k, to).pool[t]; x.allowed == k && x.pc == if k == 0 then InnerRelease else Read
  {
  }

  /** Steering brings the wanted count into the bounds, and each connection given up
      becomes a release token, by which a worker leaves. */
  lemma Steering(s: World, d: int)
    requires Inv(s)
    ensures Enabled(s, SetDesiredTo(d))
    ensures var s' := Do(s, SetDesiredTo(d));
            && s'.e.desired == (if d < s.e.minC then s.e.minC else if d > s.e.maxC then s.e.maxC else d)
            && s'.e.budget == s.e.budget + (if s'.e.desired < s.e.desired then s.e.desired - s'.e.desired else 0)
            && s'.pool == s.pool && s'.w == s.w && s'.e.scheduled == s.e.scheduled && s'.e.state == s.e.state
  {
  }

  /** A new process can start from any image ever stored, unless the output file is
      gone; the user can store, replan and steer at any time. */
  lemma AnyTime(s: World)
    ensures forall i: nat, maxC: int :: i < |s.images| && maxC >= 1 && !s.outputRemoved ==> Enabled(s, Crash(i, maxC))
    ensures s.store.None? && !s.e.cleaned ==> Enabled(s, StoreOutside)
    ensures forall limit: int :: Enabled(s, PlanMore(limit))
    ensures s.planned > 0 ==> Enabled(s, Enqueue)
    ensures forall t: nat :: t < |s.pool| && s.pool[t].pc == Idle && s.queued > 0 ==> Enabled(s, Take(t))
    ensures forall limit: int :: s.resumes > 0 && s.e.scheduled == 0 ==> Enabled(s, Rebuild(limit))
    ensures s.cancel == CancelSeen ==> Enabled(s, CancelLoad)
    ensures s.cancel == CancelZero && s.store.None? ==> Enabled(s, CancelClean)
  {
  }

  /** A new process has the chosen image's chunks, the output file as the old process left
      it, the history of images, and nobody at work. */
  lemma NewProcess(s: World, i: nat, maxC: int)
    requires Enabled(s, Crash(i, maxC))
    ensures var s' := Do(s, Crash(i, maxC));
            && s'.file == s.file && s'.remote == s.remote && s'.images == s.images && s'.last == Some(s.images[i])
            && s'.w.chunks == s.images[i] && s'.w.pending == [] && s'.planned == s'.queued == s'.resumes == 0
            && s'.store.None? && s'.cancel == NoCancel && s'.outputRemoved == s.outputRemoved
            && |s'.pool| == |s.pool| && (forall t :: 0 <= t < |s'.pool| ==> s'.pool[t].pc == Idle)
            && s'.e.state == Initialized && s'.e.downloaded == FinishedCount(s.images[i])
            && s'.e.total == s'.e.unsaved == ReceivedSum(s.images[i])
            && s'.e.scheduled == s'.e.conns == s'.e.budget == 0 && !s'.e.cleaned
            && s'.e.minC == 1 && s'.e.maxC == maxC && s'.e.desired == Min(2, maxC)
  {
  }

  /** Connecting, asking and streaming may throw at any turn, and the server may close
      the connection between two reads. */
  lemma AnyFault(s: World, t: nat)
    requires Inv(s) && t < |s.pool| && s.pool[t].pc in {OuterRelease, StreamTop, AfterNotify}
    ensures ActEnabled(s, t, 0, Failing) && DoAct(s, t, 0, Failing).pool[t].pc == Failing
    ensures s.pool[t].pc == AfterNotify ==>
              && ActEnabled(s, t, 0, InnerRelease) && DoAct(s, t, 0, InnerRelease).pool[t].pc == InnerRelease
              && ActEnabled(s, t, 0, StreamTop) && DoAct(s, t, 0, StreamTop).pool[t].pc == StreamTop
  {
    assert WorkerOk(s.remote, s.file, s.w, s.pool[t]);
  }
}
