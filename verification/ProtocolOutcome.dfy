/** Exactly which reachable states can still lead to Completed: the others are
    proved not to, and for these a run is constructed. It pauses the job, lets it
    come to rest, resumes it, and receives what is missing with one worker. */
module ProtocolOutcome {
  import opened Basics
  import opened Chunks
  import opened EngineSpec
  import opened Protocol
  import opened ProtocolData
  import opened ProtocolCounts
  import opened ProtocolRuns
  import opened ProtocolCancel
  import opened ProtocolFinish
  import opened ProtocolPause
  import opened ProtocolReach
  import ProtocolCalls

  /** The engine is Completed, some worker is about to force it, or it is not
      canceled and a chunk is still to be counted, or has just been counted last. */
  ghost predicate Completable(s: World)
  {
    || s.e.state == Completed
    || Someone(s.pool, ForceDone)
    || (s.e.state != Canceled && (Someone(s.pool, LastCas) || s.e.downloaded < |s.w.chunks|))
  }

  // ---------------------------------------------------------------------------
  // The others never complete.

  /** Canceled, and nobody is about to force Completed. */
  ghost predicate Dead(s: World) { s.e.state == Canceled && !Someone(s.pool, ForceDone) }

  lemma DeadEffect(s: World, t: nat, f: Effect)
    requires Dead(s) && t < |s.pool| && (f.side.CommitStore? ==> s.store.Some?)
    requires MovesPromoting(s.e, s.pool[t], f) && MovesCanceled(s.e, s.pool[t], f)
    ensures Dead(Apply(s, t, f))
  {
    SomeoneStays(s.pool, t, f.x, ForceDone);
    assert Someone(s.pool, s.pool[t].pc);
  }

  lemma DeadStep(s: World, st: Step)
    requires Dead(s) && Enabled(s, st) && !st.Crash?
    ensures Dead(Do(s, st))
  {
    if st.Act? {
      ActPromotes(s, st.thread, st.k, st.to);
      ActCanceled(s, st.thread, st.k, st.to);
      DeadEffect(s, st.thread, ActOf(s, st.thread, st.k, st.to));
    } else if st.Take? {
      SomeoneStays(s.pool, st.thread, IDLE.(pc := Taken), ForceDone);
    } else {
      OutsidePool(s, st);
    }
  }

  lemma {:induction false} DeadNeverCompletes(s: World, steps: seq<Step>)
    requires Dead(s) && Legal(s, steps) && NoCrash(steps)
    ensures Run(s, steps).e.state != Completed
    decreases |steps|
  {
    if steps != [] {
      DeadStep(s, steps[0]);
      DeadNeverCompletes(Do(s, steps[0]), steps[1..]);
    }
  }

  lemma OthersNeverComplete(s: World, steps: seq<Step>)
    requires Inv(s) && !Completable(s) && Legal(s, steps) && NoCrash(steps)
    ensures Run(s, steps).e.state != Completed
  {
    if s.e.state == Canceled {
      DeadNeverCompletes(s, steps);
    } else {
      FinishedLimit(s.w.chunks, |s.w.chunks|);
      StuckNeverCompletes(s, steps);
    }
  }

  // ---------------------------------------------------------------------------
  // Coming to rest.

  /** A chunk is to be counted or promoted. */
  ghost predicate Ahead(s: World)
  {
    s.e.downloaded < |s.w.chunks| || Someone(s.pool, LastCas) || Someone(s.pool, ForceDone)
  }

  predicate Halted(e: Engine) { e.state == Paused || e.state == Failed }

  /** Paused or failed, with something ahead. */
  ghost predicate Resting(s: World) { Inv(s) && CleanInv(s) && Halted(s.e) && Ahead(s) }

  /** How a worker of a halted engine moves the finish count and its promotion. */
  predicate MovesHalted(e: Engine, x: Worker, f: Effect)
  {
    Halted(e) ==>
      && (x.pc == LastCas ==> f.x.pc == ForceDone)
      && (x.pc == ForceDone ==> f.e.state == Completed)
      && (x.pc != ForceDone ==> f.e.state == e.state)
  }

  lemma ActHalts(s: World, t: nat, k: nat, to: Pc)
    requires ActEnabled(s, t, k, to)
    ensures MovesHalted(s.e, s.pool[t], ActOf(s, t, k, to))
  {
  }

  /** Seeing the last count leads to its promotion. */
  predicate MovesLast(f: Effect) { f.side.Win? ==> f.x.pc == LastCas }

  lemma ActLast(s: World, t: nat, k: nat, to: Pc)
    requires ActEnabled(s, t, k, to)
    ensures MovesLast(ActOf(s, t, k, to))
  {
  }

  lemma AheadEffect(s: World, t: nat, f: Effect)
    requires Halted(s.e) && Ahead(s) && t < |s.pool| && (f.side.CommitStore? ==> s.store.Some?)
    requires MovesHalted(s.e, s.pool[t], f) && MovesLast(f) && s.pool[t].pc != ForceDone
    requires f.e.downloaded == s.e.downloaded || f.e.downloaded == s.e.downloaded + 1
    requires f.e.downloaded == |s.w.chunks| && s.e.downloaded < |s.w.chunks| ==> f.side.Win?
    requires |Apply(s, t, f).w.chunks| == |s.w.chunks|
    ensures Ahead(Apply(s, t, f))
  {
    SomeoneStays(s.pool, t, f.x, LastCas);
    SomeoneStays(s.pool, t, f.x, ForceDone);
  }

  /** A worker counts at most one chunk, and the last one as the winner. */
  lemma ActCountsOne(s: World, t: nat, k: nat, to: Pc)
    requires DataInv(s) && ActEnabled(s, t, k, to)
    ensures var f := ActOf(s, t, k, to);
            && (f.e.downloaded == s.e.downloaded || f.e.downloaded == s.e.downloaded + 1)
            && (f.e.downloaded == |s.w.chunks| && s.e.downloaded < |s.w.chunks| ==> f.side.Win?)
            && |Apply(s, t, f).w.chunks| == |s.w.chunks|
  {
    assert WorkerOk(s.remote, s.file, s.w, s.pool[t]);
    ActSize(s, t, k, to);
    if s.pool[t].pc != Update {
      ActFinished(s, t, k, to);
      ActWins(s, t, k, to);
    }
  }

  lemma StateEffect(s: World, t: nat, f: Effect)
    requires Halted(s.e) && t < |s.pool| && (f.side.CommitStore? ==> s.store.Some?) && MovesHalted(s.e, s.pool[t], f)
    ensures Apply(s, t, f).e.state == if s.pool[t].pc == ForceDone then Completed else s.e.state
  {
  }

  lemma RestingAct(s: World, t: nat, k: nat, to: Pc, f: Effect)
    requires Resting(s) && ActEnabled(s, t, k, to) && f == ActOf(s, t, k, to)
    ensures var s' := Apply(s, t, f); s'.e.state == Completed || (Halted(s'.e) && Ahead(s'))
  {
    ActHalts(s, t, k, to);
    StateEffect(s, t, f);
    if s.pool[t].pc != ForceDone {
      ActLast(s, t, k, to);
      ActCountsOne(s, t, k, to);
      AheadEffect(s, t, f);
    }
  }

  lemma RestingOther(s: World, st: Step)
    requires Halted(s.e) && Ahead(s) && Enabled(s, st) && Working(st) && !st.Act?
    ensures Halted(Do(s, st).e) && Ahead(Do(s, st))
  {
    if st.Take? {
      SomeoneStays(s.pool, st.thread, IDLE.(pc := Taken), LastCas);
      SomeoneStays(s.pool, st.thread, IDLE.(pc := Taken), ForceDone);
    } else {
      OutsidePool(s, st);
    }
  }

  /** Its own steps leave a halted engine halted with something to do, or complete
      it. */
  lemma RestingStep(s: World, st: Step)
    requires Resting(s) && Enabled(s, st) && Working(st)
    ensures Do(s, st).e.state == Completed || Resting(Do(s, st))
  {
    InvStep(s, st);
    StepKeepsClean(s, st);
    if st.Act? {
      RestingAct(s, st.thread, st.k, st.to, ActOf(s, st.thread, st.k, st.to));
    } else {
      RestingOther(s, st);
    }
  }

  /** At rest nothing is on the way: a chunk is missing. */
  lemma RestMisses(s: World)
    requires Resting(s) && AtRest(s)
    ensures s.e.downloaded < |s.w.chunks| && !s.e.cleaned && s.cancel == NoCancel
  {
  }

  /** One step towards rest. */
  lemma NearerToRest(s: World) returns (st: Step)
    requires Resting(s) && !AtRest(s)
    ensures Enabled(s, st) && !st.Crash? && (Do(s, st).e.state == Completed || Resting(Do(s, st)))
    ensures 0 <= Measure(Do(s, st)) < Measure(s)
  {
    st := CanGoOn(s);
    RestingStep(s, st);
    WorkingMeasure(s, st);
    InvStep(s, st);
    MeasurePositive(Do(s, st));
  }

  lemma {:induction false} ComesToRest(s: World) returns (s': World, steps: seq<Step>)
    requires Resting(s)
    ensures Leads(s, steps, s')
    ensures s'.e.state == Completed || (Resting(s') && AtRest(s'))
    decreases Max(0, Measure(s))
  {
    if AtRest(s) {
      s', steps := s, [];
    } else {
      var st := NearerToRest(s);
      LeadsStep(s, st);
      if Do(s, st).e.state == Completed {
        s', steps := Do(s, st), [st];
      } else {
        var rest;
        s', rest := ComesToRest(Do(s, st));
        steps := ProtocolCalls.Then(s, [st], Do(s, st), rest, s');
      }
    }
  }

  // ---------------------------------------------------------------------------
  // Starting again.

  /** One worker of a new generation, at `pc`, and nothing else. */
  ghost predicate OneWorker(s: World, pc: Pc)
  {
    && |s.pool| > 0 && s.pool[0].pc == pc && (forall u :: 1 <= u < |s.pool| ==> s.pool[u].pc == Idle)
    && s.e.budget == 0 && !s.e.cleaned && s.store.None?
    && s.w.next == 0 && s.h.generation > 0 && s.e.downloaded < |s.w.chunks|
    && s.e.state == (if pc == Taken || pc == Promote then Queued else Downloading)
  }

  /** A new generation has been planned, with one task. */
  ghost predicate Planned(q: World)
  {
    && q.planned == 1 && |q.pool| > 0 && (forall u :: 0 <= u < |q.pool| ==> q.pool[u].pc == Idle)
    && q.e.state == Queued && q.e.budget == 0 && !q.e.cleaned && q.store.None?
    && q.w.next == 0 && q.h.generation > 0 && q.e.downloaded < |q.w.chunks|
  }

  lemma Requeues(s: World)
    requires Resting(s) && AtRest(s)
    ensures Enabled(s, ResumeSet)
    ensures var p := Do(s, ResumeSet);
            Inv(p) && AtRest(p) && p.e == s.e.(state := Queued) && p.w == s.w && p.resumes > 0
  {
    InvStep(s, ResumeSet);
  }

  lemma Replans(p: World)
    requires Inv(p) && AtRest(p) && p.e.state == Queued && !p.e.cleaned && p.resumes > 0
    requires p.e.downloaded < |p.w.chunks|
    ensures Enabled(p, Rebuild(1)) && Planned(Do(p, Rebuild(1)))
  {
    Drained(p);
    RebuildFinishInv(p, 1);
  }

  lemma TakesUp(q: World)
    requires Planned(q)
    ensures Enabled(q, Enqueue) && Enabled(Do(q, Enqueue), Take(0)) && OneWorker(Do(Do(q, Enqueue), Take(0)), Taken)
  {
  }

  lemma {:induction false} Begins(s: World) returns (s': World, steps: seq<Step>)
    requires Resting(s) && AtRest(s)
    ensures Leads(s, steps, s') && OneWorker(s', Taken)
  {
    Requeues(s);
    RestMisses(s);
    var p := Do(s, ResumeSet);
    Replans(p);
    var q := Do(p, Rebuild(1));
    LeadsStep(s, ResumeSet);
    LeadsStep(p, Rebuild(1));
    TakesUp(q);
    var r := Do(q, Enqueue);
    LeadsStep(q, Enqueue);
    LeadsStep(r, Take(0));
    s' := Do(r, Take(0));
    var a := ProtocolCalls.Then(s, [ResumeSet], p, [Rebuild(1)], q);
    var b := ProtocolCalls.Then(q, [Enqueue], r, [Take(0)], s');
    steps := ProtocolCalls.Then(s, a, q, b, s');
  }

  function Following(pc: Pc): Pc { if pc == Taken then Promote else if pc == Promote then OuterRelease else Claim }

  /** The lone worker opens, promotes, and asks for an item. */
  lemma Follows(s: World, pc: Pc) returns (s': World, steps: seq<Step>)
    requires OneWorker(s, pc) && (pc == Taken || pc == Promote || pc == OuterRelease)
    ensures Leads(s, steps, s') && OneWorker(s', Following(pc))
  {
    LeadsStep(s, Act(0, 0, Claim));
    s', steps := Do(s, Act(0, 0, Claim)), [Act(0, 0, Claim)];
  }

  lemma AsksForItem(s: World) returns (s': World, steps: seq<Step>)
    requires OneWorker(s, Taken)
    ensures Leads(s, steps, s') && OneWorker(s', Claim)
  {
    var s1, a := Follows(s, Taken);
    var s2, b := Follows(s1, Promote);
    var c;
    s', c := Follows(s2, OuterRelease);
    var ab := ProtocolCalls.Then(s, a, s1, b, s2);
    steps := ProtocolCalls.Then(s, ab, s2, c, s');
  }

  /** It receives everything that is missing and counts the last chunk. */
  lemma ReceivesAll(s: World) returns (s': World, steps: seq<Step>)
    requires Inv(s) && OneWorker(s, Claim)
    ensures Leads(s, steps, s') && AtLast(s', 0)
  {
    assert Clear(s, 0);
    var s1, a := Claims(s, 0);
    var s2, b := Enters(s1, 0);
    var c;
    s', c := ReachLast(s2, 0);
    var ab := ProtocolCalls.Then(s, a, s1, b, s2);
    steps := ProtocolCalls.Then(s, ab, s2, c, s');
  }

  lemma StartsAgain(s: World) returns (s': World, steps: seq<Step>)
    requires Resting(s) && AtRest(s)
    ensures Leads(s, steps, s') && AtLast(s', 0)
  {
    var s1, a := Begins(s);
    var s2, b := AsksForItem(s1);
    var ab := ProtocolCalls.Then(s, a, s1, b, s2);
    InvRun(s, ab);
    var c;
    s', c := ReceivesAll(s2);
    steps := ProtocolCalls.Then(s, ab, s2, c, s');
  }

  // ---------------------------------------------------------------------------
  // To Completed.

  lemma CompletesThen(s: World, a: seq<Step>, mid: World, b: seq<Step>) returns (steps: seq<Step>)
    requires Leads(s, a, mid) && Completes(mid, b)
    ensures Completes(s, steps)
  {
    steps := ProtocolCalls.Then(s, a, mid, b, Run(mid, b));
  }

  lemma RestCompletes(s: World) returns (steps: seq<Step>)
    requires Resting(s) && AtRest(s)
    ensures Completes(s, steps)
  {
    var last, a := StartsAgain(s);
    var b := RunningCompletes(last, 0);
    steps := CompletesThen(s, a, last, b);
  }

  lemma RestingCompletes(s: World) returns (steps: seq<Step>)
    requires Resting(s)
    ensures Completes(s, steps)
  {
    var s', a := ComesToRest(s);
    if s'.e.state == Completed {
      steps := a;
    } else {
      var b := RestCompletes(s');
      steps := CompletesThen(s, a, s', b);
    }
  }

  lemma HaltEffect(s: World)
    requires Inv(s) && CleanInv(s) && Active(s.e.state)
    requires Ahead(s)
    ensures Enabled(s, Pause) && Resting(Do(s, Pause))
  {
    InvStep(s, Pause);
    StepKeepsClean(s, Pause);
  }

  /** A running engine is paused first. */
  lemma ActiveCompletes(s: World) returns (steps: seq<Step>)
    requires Inv(s) && CleanInv(s) && Active(s.e.state)
    requires Ahead(s)
    ensures Completes(s, steps)
  {
    HaltEffect(s);
    var rest := RestingCompletes(Do(s, Pause));
    CompletesLater(s, Pause, rest);
    steps := [Pause] + rest;
  }

  lemma StartEffect(s: World)
    requires Inv(s) && CleanInv(s) && s.e.state == Initialized
    ensures Enabled(s, ResumeSet) && Inv(Do(s, ResumeSet)) && CleanInv(Do(s, ResumeSet))
    ensures Do(s, ResumeSet).e == s.e.(state := Queued) && Do(s, ResumeSet).w == s.w && Do(s, ResumeSet).pool == s.pool
  {
    InvStep(s, ResumeSet);
    StepKeepsClean(s, ResumeSet);
  }

  /** An engine that was never started is started first. */
  lemma NewCompletes(s: World) returns (steps: seq<Step>)
    requires Inv(s) && CleanInv(s) && s.e.state == Initialized
    requires Ahead(s)
    ensures Completes(s, steps)
  {
    StartEffect(s);
    var rest := ActiveCompletes(Do(s, ResumeSet));
    CompletesLater(s, ResumeSet, rest);
    steps := [ResumeSet] + rest;
  }

  lemma CompletableCompletes(s: World) returns (steps: seq<Step>)
    requires Inv(s) && CleanInv(s) && Completable(s)
    ensures Completes(s, steps)
  {
    if s.e.state == Completed {
      steps := NoSteps(s);
    } else if Someone(s.pool, ForceDone) {
      var t :| 0 <= t < |s.pool| && s.pool[t].pc == ForceDone;
      steps := ForceCompletes(s, t);
    } else if s.e.state == Initialized {
      steps := NewCompletes(s);
    } else if Active(s.e.state) {
      steps := ActiveCompletes(s);
    } else {
      steps := RestingCompletes(s);
    }
  }

  /** In any reachable state: some continuation up to a restart completes the job if
      and only if it is Completed, some worker is about to force it, or it is not
      canceled and a chunk is still to be counted, or has just been counted last. */
  lemma CompletableExactly(s: World)
    requires Inv(s) && CleanInv(s)
    ensures Completable(s) <==> exists steps :: Completes(s, steps)
  {
    if Completable(s) {
      var steps := CompletableCompletes(s);
    } else {
      forall steps | Legal(s, steps) && NoCrash(steps)
        ensures !Completes(s, steps)
      {
        OthersNeverComplete(s, steps);
      }
    }
  }
}
