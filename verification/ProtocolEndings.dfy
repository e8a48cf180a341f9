/** How every job with two threads and two connections can end: as it should, and
    in each of the ways that the code does not exclude. */
module ProtocolEndings {
  import opened Basics
  import opened Chunks
  import opened EngineSpec
  import opened Protocol
  import opened ProtocolData
  import opened ProtocolCounts
  import opened ProtocolRuns
  import opened ProtocolCancel
  import opened ProtocolKept
  import opened ProtocolFinish
  import opened ProtocolReach
  import opened ProtocolWitness
  import ProtocolCalls

  // ---------------------------------------------------------------------------
  // To the last chunk, with the first worker where the scene has it.

  /** Only the two threads of the scene work. */
  lemma {:induction false} TwoWork(s: World, c: Scene)
    requires Inv(s) && Shows(s, c) && c.planned == 0 && c.queued == 0 && Live(c.pc1)
    requires c.scheduled == (if Live(c.pc0) then 2 else 1)
    ensures forall u :: 2 <= u < |s.pool| ==> !Live(s.pool[u].pc)
  {
    var one := s.pool[0 := IDLE];
    var none := one[1 := IDLE];
    TotUpdate(s.pool, LiveW, 0, IDLE);
    TotUpdate(one, LiveW, 1, IDLE);
    TotZero(none, LiveW);
    forall u | 2 <= u < |s.pool|
      ensures !Live(s.pool[u].pc)
    {
      assert LiveW(none[u]) == 0 && none[u] == s.pool[u];
    }
  }

  lemma SceneIsClear(s: World, c: Scene)
    requires Inv(s) && CleanInv(s) && Shows(s, c) && c.planned == 0 && c.queued == 0 && c.budget == 0
    requires c.state == Downloading && c.next == 1 && c.pc1 == StreamTop && !Holds(c.pc0)
    requires c.scheduled == (if Live(c.pc0) then 2 else 1)
    ensures Fetching(s, 1, StreamTop) && Clear(s, 1)
  {
    TwoWork(s, c);
  }

  /** The second worker has counted the last chunk; the first is still at `pc`. */
  ghost predicate LastWith(s: World, pc: Pc)
  {
    && AtLast(s, 1) && CleanInv(s)
    && s.pool[0].pc == pc && s.e.budget == 0 && s.cancel == NoCancel && !s.outputRemoved
  }

  lemma AloneKeeps(s: World, s': World, c: Scene)
    requires Shows(s, c) && c.budget == 0 && Alone(s, s', 1) && AtLast(s', 1) && CleanInv(s')
    ensures LastWith(s', c.pc0)
  {
  }

  lemma SceneReachesLast(s: World, c: Scene) returns (s': World, steps: seq<Step>)
    requires Inv(s) && CleanInv(s) && Shows(s, c) && c.planned == 0 && c.queued == 0 && c.budget == 0
    requires c.state == Downloading && c.next == 1 && c.pc1 == StreamTop && !Holds(c.pc0)
    requires c.scheduled == (if Live(c.pc0) then 2 else 1)
    ensures Leads(s, steps, s') && LastWith(s', c.pc0)
  {
    SceneIsClear(s, c);
    s', steps := ReachLast(s, 1);
    CleanRun(s, steps);
    AloneKeeps(s, s', c);
  }

  lemma RunReachesLast(s0: World, begin: seq<Step>, c: Scene) returns (s': World, steps: seq<Step>)
    requires Inv(s0) && CleanInv(s0) && Peaceful(s0, begin) && Shows(Run(s0, begin), c)
    requires c.planned == 0 && c.queued == 0 && c.budget == 0
    requires c.state == Downloading && c.next == 1 && c.pc1 == StreamTop && !Holds(c.pc0)
    requires c.scheduled == (if Live(c.pc0) then 2 else 1)
    ensures Leads(s0, steps, s') && LastWith(s', c.pc0)
  {
    var s := Run(s0, begin);
    InvRun(s0, begin);
    CleanRun(s0, begin);
    var rest;
    s', rest := SceneReachesLast(s, c);
    steps := ProtocolCalls.Then(s0, begin, s, rest, s');
  }

  /** A job with two threads and two connections. */
  ghost predicate Wide(remote: seq<byte>, file: seq<byte>, cs: seq<Chunk>, threads: nat, maxC: int)
  {
    FreshJob(remote, file, cs, threads, maxC) && threads >= 2 && maxC >= 2
  }

  lemma WideStart(remote: seq<byte>, file: seq<byte>, cs: seq<Chunk>, threads: nat, maxC: int)
    requires Wide(remote, file, cs, threads, maxC)
    ensures var s := Start(remote, file, cs, threads, maxC); Inv(s) && CleanInv(s) && Fresh(s)
  {
    StartIsFresh(remote, file, cs, threads, maxC);
    InvStart(remote, file, cs, threads, maxC);
    CleanStart(remote, file, cs, threads, maxC);
  }

  /** To the last chunk with the first worker between its two loads. */
  lemma LastWithClosing(s: World) returns (s': World, steps: seq<Step>)
    requires Inv(s) && CleanInv(s) && Fresh(s)
    ensures Leads(s, steps, s') && LastWith(s', CloseCheck)
  {
    var begin := SecondArrives(s);
    s', steps := RunReachesLast(s, begin, Scene(Downloading, 1, 1, 0, 0, 0, 1, CloseCheck, StreamTop));
  }

  /** To the last chunk with the first worker at its outer loop. */
  lemma LastWithWaiting(s: World) returns (s': World, steps: seq<Step>)
    requires Inv(s) && CleanInv(s) && Fresh(s)
    ensures Leads(s, steps, s') && LastWith(s', OuterRelease)
  {
    var begin := BothArrive(s);
    s', steps := RunReachesLast(s, begin, Scene(Downloading, 2, 2, 0, 0, 0, 1, OuterRelease, StreamTop));
  }

  // ---------------------------------------------------------------------------
  // Completed, with the file.

  lemma LastAct(s: World)
    requires |s.pool| >= 2 && LastWith(s, s.pool[0].pc)
    ensures ActEnabled(s, 1, 0, Idle)
    ensures var s' := DoAct(s, 1, 0, Idle);
            && s'.e == s.e.(state := Completed) && s'.pool == s.pool[1 := s.pool[1].(pc := FinalStore)]
            && s'.outputRemoved == s.outputRemoved && s'.w == s.w && s'.store.None? && ItemValid(s'.w, s'.pool[1])
  {
    assert WorkerOk(s.remote, s.file, s.w, s.pool[1]);
  }

  lemma Completed1(s: World, pc: Pc) returns (s': World, steps: seq<Step>)
    requires LastWith(s, pc)
    ensures Leads(s, steps, s') && s'.e.state == Completed && !s'.outputRemoved && !s'.e.cleaned && s'.w == s.w
    ensures |s'.pool| >= 2 && ProtocolCalls.At(s', 1, s'.pool[1], FinalStore)
  {
    LastAct(s);
    var st := Act(1, 0, Idle);
    LeadsStep(s, st);
    s', steps := Do(s, st), [st];
  }

  /** Every such job has a run that completes it, with the remote file in place. */
  lemma CompletionIsReachable(remote: seq<byte>, file: seq<byte>, cs: seq<Chunk>, threads: nat, maxC: int)
    returns (steps: seq<Step>)
    requires Wide(remote, file, cs, threads, maxC)
    ensures Legal(Start(remote, file, cs, threads, maxC), steps)
    ensures var s := Run(Start(remote, file, cs, threads, maxC), steps);
            s.e.state == Completed && !s.outputRemoved && s.file == remote
  {
    var s0 := Start(remote, file, cs, threads, maxC);
    WideStart(remote, file, cs, threads, maxC);
    var mid, first := LastWithWaiting(s0);
    var s', rest := Completed1(mid, OuterRelease);
    steps := ProtocolCalls.Then(s0, first, mid, rest, s');
    CompletedMeansDownloaded(remote, file, cs, threads, maxC, steps);
  }

  // ---------------------------------------------------------------------------
  // Completed, without the file.

  /** After `steps` a Cancel is enabled that does not keep the file, and `after` it
      the job is Completed and the file removed. */
  ghost predicate LosesFile(s: World, steps: seq<Step>, after: seq<Step>)
  {
    && Legal(s, steps) && Enabled(Run(s, steps), CancelSet) && !CancelKeeps(Run(s, steps))
    && Legal(Do(Run(s, steps), CancelSet), after) && NoCrash(after)
    && !FileKept(Run(Do(Run(s, steps), CancelSet), after))
  }

  lemma PauseEffect(s: World)
    requires LastWith(s, CloseCheck)
    ensures Enabled(s, Pause) && LastPaused(Do(s, Pause))
  {
    assert WorkerOk(s.remote, s.file, s.w, s.pool[1]);
  }

  ghost predicate LastPaused(s: World)
  {
    && |s.pool| >= 2 && s.pool[0].pc == CloseCheck && s.pool[1].pc == LastCas && ItemValid(s.w, s.pool[1])
    && s.e.state == Paused && s.cancel == NoCancel
  }

  lemma ForcingEffect(s: World)
    requires LastPaused(s)
    ensures ActEnabled(s, 1, 0, Idle)
    ensures var s' := DoAct(s, 1, 0, Idle); Enabled(s', CancelSet) && !CancelKeeps(s')
  {
    var s' := DoAct(s, 1, 0, Idle);
    assert s'.pool[0].pc == CloseCheck && s'.pool[1].pc == ForceDone;
  }

  /** A Pause between the last count and its promotion makes the worker force. */
  lemma PausedForces(s: World) returns (s': World, steps: seq<Step>)
    requires LastWith(s, CloseCheck)
    ensures Leads(s, steps, s') && Enabled(s', CancelSet) && !CancelKeeps(s')
  {
    PauseEffect(s);
    LeadsStep(s, Pause);
    var mid := Do(s, Pause);
    ForcingEffect(mid);
    LeadsStep(mid, Act(1, 0, Idle));
    s' := DoAct(mid, 1, 0, Idle);
    steps := ProtocolCalls.Then(s, [Pause], mid, [Act(1, 0, Idle)], s');
  }

  lemma ReachesRace(s0: World) returns (s': World, steps: seq<Step>)
    requires Inv(s0) && CleanInv(s0) && Fresh(s0)
    ensures Leads(s0, steps, s') && Inv(s') && CleanInv(s') && Enabled(s', CancelSet) && !CancelKeeps(s')
  {
    var mid, first := LastWithClosing(s0);
    var rest;
    s', rest := PausedForces(mid);
    steps := ProtocolCalls.Then(s0, first, mid, rest, s');
    InvRun(s0, steps);
    CleanRun(s0, steps);
  }

  /** Every such job has a run that ends Completed with the output file removed. */
  lemma CompletedWithoutFile(remote: seq<byte>, file: seq<byte>, cs: seq<Chunk>, threads: nat, maxC: int)
    returns (steps: seq<Step>, after: seq<Step>)
    requires Wide(remote, file, cs, threads, maxC)
    ensures LosesFile(Start(remote, file, cs, threads, maxC), steps, after)
  {
    WideStart(remote, file, cs, threads, maxC);
    var s';
    s', steps := ReachesRace(Start(remote, file, cs, threads, maxC));
    after := LosingCancelHappens(s');
  }

  // ---------------------------------------------------------------------------
  // Never Completed.

  ghost predicate AllCounted(cs: seq<Chunk>) { FinishedCount(cs) == |cs| }

  /** Everything is received and counted, and no continuation up to a restart
      completes the job. */
  ghost predicate EndsStuck(s: World)
  {
    && AllCounted(s.w.chunks) && Stuck(s)
    && forall steps :: Legal(s, steps) && NoCrash(steps) ==> Run(s, steps).e.state != Completed
  }

  lemma StuckEnds(s: World)
    requires Inv(s) && Stuck(s)
    ensures EndsStuck(s)
  {
    FinishedLimit(s.w.chunks, |s.w.chunks|);
    forall steps | Legal(s, steps) && NoCrash(steps)
      ensures Run(s, steps).e.state != Completed
    {
      StuckNeverCompletes(s, steps);
    }
  }

  lemma RequeueEffect(s: World)
    requires LastWith(s, OuterRelease)
    ensures Enabled(s, Pause) && Enabled(Do(s, Pause), ResumeSet)
    ensures var q := Do(Do(s, Pause), ResumeSet);
            && q.pool == s.pool && q.w == s.w && q.e == s.e.(state := Queued)
            && ItemValid(q.w, q.pool[1])
  {
    assert WorkerOk(s.remote, s.file, s.w, s.pool[1]);
  }

  /** The last count is not promoted while the engine is queued. */
  lemma QueuedEffect(s: World, q: World)
    requires LastWith(s, OuterRelease) && q.pool == s.pool && q.w == s.w && q.e == s.e.(state := Queued)
    requires ItemValid(q.w, q.pool[1])
    ensures ActEnabled(q, 1, 0, Idle)
    ensures var s' := DoAct(q, 1, 0, Idle);
            s'.e == q.e && s'.w == q.w && s'.pool == q.pool[1 := q.pool[1].(pc := AfterNotify)]
  {
  }

  /** Of the threads at the last count or a forced completion there was only one. */
  lemma NobodyElsePromotes(s: World, pool': seq<Worker>)
    requires LastWith(s, OuterRelease) && pool' == s.pool[1 := s.pool[1].(pc := AfterNotify)]
    ensures !Someone(pool', LastCas) && !Someone(pool', ForceDone)
  {
    FinishCounting(s);
    forall u | 0 <= u < |pool'|
      ensures pool'[u].pc != LastCas && pool'[u].pc != ForceDone
    {
      if u != 1 { assert pool'[u] == s.pool[u] && Winning(s.pool[1].pc); }
    }
  }

  lemma RequeuedIsStuck(s: World) returns (s': World, steps: seq<Step>)
    requires LastWith(s, OuterRelease)
    ensures Leads(s, steps, s') && s'.e.state == Queued && Stuck(s')
  {
    RequeueEffect(s);
    var p := Do(s, Pause);
    var q := Do(p, ResumeSet);
    LeadsStep(s, Pause);
    LeadsStep(p, ResumeSet);
    QueuedEffect(s, q);
    LeadsStep(q, Act(1, 0, Idle));
    s' := DoAct(q, 1, 0, Idle);
    NobodyElsePromotes(s, s'.pool);
    var a := ProtocolCalls.Then(s, [Pause], p, [ResumeSet], q);
    steps := ProtocolCalls.Then(s, a, q, [Act(1, 0, Idle)], s');
  }

  /** Every such job has a run, without a restart, after which all chunks are
      received and counted, the state is Queued, and nothing completes it: a Pause
      and a Resume between the last count and its promotion. */
  lemma RequeuedNeverCompletes(remote: seq<byte>, file: seq<byte>, cs: seq<Chunk>, threads: nat, maxC: int)
    returns (steps: seq<Step>)
    requires Wide(remote, file, cs, threads, maxC)
    ensures Legal(Start(remote, file, cs, threads, maxC), steps)
    ensures var s := Run(Start(remote, file, cs, threads, maxC), steps); s.e.state == Queued && EndsStuck(s)
  {
    var s0 := Start(remote, file, cs, threads, maxC);
    WideStart(remote, file, cs, threads, maxC);
    var mid, first := LastWithWaiting(s0);
    var s', rest := RequeuedIsStuck(mid);
    steps := ProtocolCalls.Then(s0, first, mid, rest, s');
    InvRun(s0, steps);
    StuckEnds(s');
  }

  lemma LastCounted(s: World)
    requires AtLast(s, 1)
    ensures AllCounted(s.w.chunks)
  {
    FinishedLimit(s.w.chunks, |s.w.chunks|);
  }

  lemma StoresAll(s: World, pc: Pc) returns (s': World, steps: seq<Step>, i: nat)
    requires LastWith(s, pc)
    ensures Leads(s, steps, s') && !s'.outputRemoved && i < |s'.images| && AllCounted(s'.images[i])
  {
    LastCounted(s);
    var mid, a := Completed1(s, pc);
    var b;
    s', b := ProtocolCalls.StoreCall(mid, 1, mid.pool[1], FinalStore);
    steps := ProtocolCalls.Then(s, a, mid, b, s');
    i := |mid.images|;
  }

  lemma InvThen(s: World, a: seq<Step>, mid: World, b: seq<Step>, s': World) returns (steps: seq<Step>)
    requires Inv(s) && Leads(s, a, mid) && Leads(mid, b, s')
    ensures Leads(s, steps, s') && Inv(s')
  {
    steps := ProtocolCalls.Then(s, a, mid, b, s');
    InvRun(s, steps);
  }

  lemma LastStoresAll(s0: World) returns (s': World, steps: seq<Step>, i: nat)
    requires Inv(s0) && CleanInv(s0) && Fresh(s0)
    ensures Leads(s0, steps, s') && Inv(s') && !s'.outputRemoved
    ensures i < |s'.images| && AllCounted(s'.images[i])
  {
    var mid, first := LastWithWaiting(s0);
    var rest;
    s', rest, i := StoresAll(mid, OuterRelease);
    steps := InvThen(s0, first, mid, rest, s');
  }

  /** Every such job has a run that stores an image whose chunks are all finished;
      a process that loads it after a crash never completes the job. */
  lemma FinishedImageIsStored(remote: seq<byte>, file: seq<byte>, cs: seq<Chunk>, threads: nat, maxC: int)
    returns (steps: seq<Step>, i: nat)
    requires Wide(remote, file, cs, threads, maxC)
    ensures Legal(Start(remote, file, cs, threads, maxC), steps)
    ensures var s := Run(Start(remote, file, cs, threads, maxC), steps);
            && Enabled(s, Crash(i, maxC)) && AllCounted(s.images[i])
            && EndsStuck(Do(s, Crash(i, maxC)))
  {
    WideStart(remote, file, cs, threads, maxC);
    var s';
    s', steps, i := LastStoresAll(Start(remote, file, cs, threads, maxC));
    LoadedStuck(s', i, maxC);
  }

  lemma LoadedStuck(s: World, i: nat, maxC: int)
    requires Inv(s) && Enabled(s, Crash(i, maxC)) && AllCounted(s.images[i])
    ensures EndsStuck(Do(s, Crash(i, maxC)))
  {
    InvStep(s, Crash(i, maxC));
    LoadedIsStuck(s, i, maxC);
    StuckEnds(Do(s, Crash(i, maxC)));
  }

  lemma LoadedIsStuck(s: World, i: nat, maxC: int)
    requires Enabled(s, Crash(i, maxC)) && AllCounted(s.images[i])
    ensures Stuck(Do(s, Crash(i, maxC)))
  {
    var s' := Do(s, Crash(i, maxC));
    assert s'.w.chunks == s.images[i] && s'.e.downloaded == FinishedCount(s.images[i]);
    assert forall t :: 0 <= t < |s'.pool| ==> s'.pool[t].pc == Idle;
  }

  // ---------------------------------------------------------------------------
  // A failure stored through a released writer.

  /** A worker is about to store a failure, and the other one, forced to complete
      the failed job, has the writer still to release. */
  ghost predicate FailingBeside(s: World, pc: Pc)
  {
    && |s.pool| >= 2 && s.pool[0].pc == FailStore && s.pool[1].pc == pc && ItemValid(s.w, s.pool[1])
    && !s.e.cleaned && s.store.None?
  }

  ghost predicate LastBeside(s: World, pc: Pc)
  {
    && |s.pool| >= 2 && s.pool[0].pc == pc && s.pool[1].pc == LastCas && ItemValid(s.w, s.pool[1])
    && !s.e.cleaned && s.store.None? && s.e.state == Downloading
  }

  lemma ThrowEffect(s: World)
    requires LastBeside(s, OuterRelease)
    ensures ActEnabled(s, 0, 0, Failing) && LastBeside(DoAct(s, 0, 0, Failing), Failing)
  {
    assert DoAct(s, 0, 0, Failing).pool[1] == s.pool[1];
  }

  lemma FailedEffect(s: World)
    requires LastBeside(s, Failing)
    ensures ActEnabled(s, 0, 0, Idle) && FailingBeside(DoAct(s, 0, 0, Idle), LastCas)
    ensures DoAct(s, 0, 0, Idle).e.state == Failed
  {
    assert DoAct(s, 0, 0, Idle).pool[1] == s.pool[1];
  }

  lemma LastSeesFailed(s: World)
    requires FailingBeside(s, LastCas) && s.e.state == Failed
    ensures ActEnabled(s, 1, 0, Idle) && FailingBeside(DoAct(s, 1, 0, Idle), ForceDone)
  {
    assert DoAct(s, 1, 0, Idle).pool[0] == s.pool[0];
  }

  lemma ForceEffect(s: World)
    requires FailingBeside(s, ForceDone)
    ensures ActEnabled(s, 1, 0, Idle) && FailingBeside(DoAct(s, 1, 0, Idle), FinalStore)
  {
    assert DoAct(s, 1, 0, Idle).pool[0] == s.pool[0];
  }

  lemma TwoActs(s: World, t: nat, to: Pc) returns (s': World, steps: seq<Step>)
    requires ActEnabled(s, t, 0, to) && ActEnabled(DoAct(s, t, 0, to), t, 0, Idle)
    ensures s' == DoAct(DoAct(s, t, 0, to), t, 0, Idle) && Leads(s, steps, s')
  {
    var mid := DoAct(s, t, 0, to);
    LeadsStep(s, Act(t, 0, to));
    LeadsStep(mid, Act(t, 0, Idle));
    s' := DoAct(mid, t, 0, Idle);
    steps := ProtocolCalls.Then(s, [Act(t, 0, to)], mid, [Act(t, 0, Idle)], s');
  }

  lemma FailsAndForces(s: World) returns (s': World, steps: seq<Step>)
    requires LastWith(s, OuterRelease)
    ensures Leads(s, steps, s') && FailingBeside(s', FinalStore)
  {
    assert WorkerOk(s.remote, s.file, s.w, s.pool[1]);
    ThrowEffect(s);
    FailedEffect(DoAct(s, 0, 0, Failing));
    var failed, a := TwoActs(s, 0, Failing);
    LastSeesFailed(failed);
    ForceEffect(DoAct(failed, 1, 0, Idle));
    var b;
    s', b := TwoActs(failed, 1, Idle);
    steps := ProtocolCalls.Then(s, a, failed, b, s');
  }

  lemma ReleaseEffect(s: World)
    requires FailingBeside(s, FinalClean)
    ensures Enabled(s, Act(1, 0, Idle)) && Releases(s, Act(1, 0, Idle)) && Someone(s.pool, FailStore)
  {
  }

  lemma StoresBeside(s: World) returns (s': World, steps: seq<Step>)
    requires FailingBeside(s, FinalStore)
    ensures Leads(s, steps, s') && FailingBeside(s', FinalClean)
  {
    s', steps := ProtocolCalls.StoreCall(s, 1, s.pool[1], FinalStore);
  }

  /** Every such job has a run to a step that releases the writer while another
      worker is about to store a failure through it. */
  lemma FailureMeetsRelease(remote: seq<byte>, file: seq<byte>, cs: seq<Chunk>, threads: nat, maxC: int)
    returns (steps: seq<Step>, st: Step)
    requires Wide(remote, file, cs, threads, maxC)
    ensures Legal(Start(remote, file, cs, threads, maxC), steps)
    ensures var s := Run(Start(remote, file, cs, threads, maxC), steps);
            Enabled(s, st) && Releases(s, st) && Someone(s.pool, FailStore)
  {
    var s0 := Start(remote, file, cs, threads, maxC);
    WideStart(remote, file, cs, threads, maxC);
    var last, a := LastWithWaiting(s0);
    var both, b := FailsAndForces(last);
    var s', c := StoresBeside(both);
    var ab := ProtocolCalls.Then(s0, a, last, b, both);
    steps := ProtocolCalls.Then(s0, ab, both, c, s');
    st := Act(1, 0, Idle);
    ReleaseEffect(s');
  }
}
