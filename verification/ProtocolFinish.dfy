/** Completing: an engine whose chunks are all counted, with nobody left to promote
    it, stays as it is; and whoever is left can promote it. */
module ProtocolFinish {
  import opened Basics
  import opened Chunks
  import opened EngineSpec
  import opened Protocol
  import opened ProtocolData
  import opened ProtocolCounts
  import opened ProtocolRuns
  import opened ProtocolCancel

  /** Some worker may still promote the engine: one that forces it, or one that has
      counted the last chunk of an engine that is not canceled. */
  ghost predicate CanStillComplete(s: World)
  {
    || s.e.state == Completed
    || Someone(s.pool, ForceDone)
    || (Someone(s.pool, LastCas) && s.e.state != Canceled)
  }

  /** All chunks are counted and nobody is left to promote the engine. */
  ghost predicate Stuck(s: World)
  {
    s.e.downloaded == |s.w.chunks| && !CanStillComplete(s)
  }

  // ---------------------------------------------------------------------------
  // A stuck engine stays stuck.

  lemma StuckCounted(s: World, t: nat, f: Effect)
    requires Stuck(s) && t < |s.pool| && !Counting(s.pool[t].pc) && (f.side.CommitStore? ==> s.store.Some?)
    requires MovesFinished(s.e, s.pool[t], f) && MovesWin(s.e, |s.w.chunks|, s.pool[t], f)
    requires Apply(s, t, f).w.chunks == s.w.chunks
    ensures Apply(s, t, f).e.downloaded == |Apply(s, t, f).w.chunks| && !f.side.Win?
  {
  }

  lemma StuckEffect(s: World, t: nat, f: Effect)
    requires Stuck(s) && t < |s.pool| && (f.side.CommitStore? ==> s.store.Some?)
    requires !Final(s.pool[t].pc) && !f.side.Win?
    requires MovesPromoting(s.e, s.pool[t], f) && MovesCanceled(s.e, s.pool[t], f) && MovesCompleted(s.e, s.pool[t], f)
    ensures !CanStillComplete(Apply(s, t, f))
  {
    SomeoneStays(s.pool, t, f.x, ForceDone);
    SomeoneStays(s.pool, t, f.x, LastCas);
    assert Someone(s.pool, s.pool[t].pc);
  }

  /** What `StuckEffect` needs of a worker's step. */
  lemma StuckActMoves(s: World, t: nat, k: nat, to: Pc)
    requires ActEnabled(s, t, k, to)
    ensures MovesPromoting(s.e, s.pool[t], ActOf(s, t, k, to))
    ensures MovesCanceled(s.e, s.pool[t], ActOf(s, t, k, to))
    ensures MovesCompleted(s.e, s.pool[t], ActOf(s, t, k, to))
  {
    ActPromotes(s, t, k, to);
    ActCanceled(s, t, k, to);
    ActWinner(s, t, k, to);
  }

  lemma StuckUpdate(s: World, t: nat, k: nat, to: Pc)
    requires Stuck(s) && ActEnabled(s, t, k, to) && s.pool[t].pc == Update
    ensures DoAct(s, t, k, to).e.downloaded == |DoAct(s, t, k, to).w.chunks| && !ActOf(s, t, k, to).side.Win?
  {
  }

  lemma StuckActCounted(s: World, t: nat, k: nat, to: Pc)
    requires Stuck(s) && ActEnabled(s, t, k, to) && !Counting(s.pool[t].pc)
    ensures DoAct(s, t, k, to).e.downloaded == |DoAct(s, t, k, to).w.chunks| && !ActOf(s, t, k, to).side.Win?
  {
    if s.pool[t].pc == Update {
      StuckUpdate(s, t, k, to);
    } else {
      ActFinished(s, t, k, to);
      ActWins(s, t, k, to);
      ActChunks(s, t, k, to);
      StuckCounted(s, t, ActOf(s, t, k, to));
    }
  }

  lemma StuckAct(s: World, t: nat, k: nat, to: Pc)
    requires Stuck(s) && ActEnabled(s, t, k, to) && !Counting(s.pool[t].pc) && !Final(s.pool[t].pc)
    ensures Stuck(DoAct(s, t, k, to))
  {
    StuckActCounted(s, t, k, to);
    StuckActMoves(s, t, k, to);
    StuckEffect(s, t, ActOf(s, t, k, to));
  }

  lemma StuckTake(s: World, t: nat)
    requires Stuck(s) && Enabled(s, Take(t))
    ensures Stuck(Do(s, Take(t)))
  {
    SomeoneStays(s.pool, t, IDLE.(pc := Taken), ForceDone);
    SomeoneStays(s.pool, t, IDLE.(pc := Taken), LastCas);
  }

  lemma StuckRebuild(s: World, limit: int)
    requires AccountInv(s) && FinishInv(s) && Stuck(s) && Enabled(s, Rebuild(limit))
    ensures Stuck(Do(s, Rebuild(limit)))
  {
    RebuildFinishInv(s, limit);
  }

  lemma StuckOutside(s: World, st: Step)
    requires Stuck(s) && Enabled(s, st) && Outside(st) && !st.Rebuild?
    ensures Stuck(Do(s, st))
  {
    OutsidePool(s, st);
  }

  /** No thread of a stuck engine is counting or past the promotion. */
  lemma StuckThreads(s: World, t: nat)
    requires Inv(s) && Stuck(s) && t < |s.pool|
    ensures !Counting(s.pool[t].pc) && !Final(s.pool[t].pc)
  {
    NoneUntotaled(s);
    TotUpdate(s.pool, FinalW, t, s.pool[t]);
  }

  lemma StuckStep(s: World, st: Step)
    requires Inv(s) && Stuck(s) && Enabled(s, st) && !st.Crash?
    ensures Stuck(Do(s, st))
  {
    if st.Act? {
      StuckThreads(s, st.thread);
      StuckAct(s, st.thread, st.k, st.to);
    } else if st.Take? {
      StuckTake(s, st.thread);
    } else if st.Rebuild? {
      StuckRebuild(s, st.limit);
    } else {
      StuckOutside(s, st);
    }
  }

  lemma StuckStays(s: World, st: Step)
    requires Inv(s) && Stuck(s) && Enabled(s, st) && !st.Crash?
    ensures Inv(Do(s, st)) && Stuck(Do(s, st))
  {
    InvStep(s, st);
    StuckStep(s, st);
  }

  /** A stuck engine never completes, however often it is paused and resumed. */
  lemma {:induction false} StuckNeverCompletes(s: World, steps: seq<Step>)
    requires Inv(s) && Stuck(s) && Legal(s, steps) && NoCrash(steps)
    ensures Run(s, steps).e.state != Completed
    decreases |steps|
  {
    if steps != [] {
      StuckStays(s, steps[0]);
      StuckNeverCompletes(Do(s, steps[0]), steps[1..]);
    }
  }

  // ---------------------------------------------------------------------------
  // The others can complete.

  /** `steps` lead on to Completed without a restart. */
  ghost predicate Completes(s: World, steps: seq<Step>)
  {
    Legal(s, steps) && NoCrash(steps) && Run(s, steps).e.state == Completed
  }

  lemma CompletesLater(s: World, st: Step, rest: seq<Step>)
    requires Enabled(s, st) && !st.Crash? && Completes(Do(s, st), rest)
    ensures Completes(s, [st] + rest)
  {
    RunCons(s, st, rest);
  }

  lemma ForceCompletes(s: World, t: nat) returns (steps: seq<Step>)
    requires Inv(s) && t < |s.pool| && s.pool[t].pc == ForceDone
    ensures Completes(s, steps)
  {
    assert WorkerOk(s.remote, s.file, s.w, s.pool[t]);
    var none: seq<Step> := [];
    CompletesLater(s, Act(t, 0, Idle), none);
    steps := [Act(t, 0, Idle)] + none;
  }

  lemma RunningCompletes(s: World, t: nat) returns (steps: seq<Step>)
    requires Inv(s) && t < |s.pool| && s.pool[t].pc == LastCas && s.e.state == Downloading
    ensures Completes(s, steps)
  {
    assert WorkerOk(s.remote, s.file, s.w, s.pool[t]);
    var none: seq<Step> := [];
    CompletesLater(s, Act(t, 0, Idle), none);
    steps := [Act(t, 0, Idle)] + none;
  }

  /** A process that loads an image whose chunks are all finished never completes
      the job. */
  lemma FinishedImageNeverCompletes(s: World, i: nat, maxC: int, s': World, steps: seq<Step>)
    requires Inv(s) && Enabled(s, Crash(i, maxC)) && s' == Do(s, Crash(i, maxC))
    requires FinishedCount(s.images[i]) == |s.images[i]| && Legal(s', steps) && NoCrash(steps)
    ensures Run(s', steps).e.state != Completed
  {
    InvStep(s, Crash(i, maxC));
    StuckNeverCompletes(s', steps);
  }
}
