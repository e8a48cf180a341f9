/** The invariants over whole runs, and the guarantees they give. */
module ProtocolRuns {
  import opened Basics
  import opened Chunks
  import opened EngineSpec
  import opened Protocol
  import opened ProtocolData
  import opened ProtocolCounts

  /** After the first rebuild every unfinished chunk has an item. */
  ghost predicate CoverInv(s: World)
  {
    s.h.generation > 0 ==>
      forall c :: 0 <= c < |s.w.chunks| && !s.w.chunks[c].Finished() ==> HasItem(s.w.pending, c)
  }

  ghost predicate Inv(s: World)
  {
    && DataInv(s) && AccountInv(s) && FinishInv(s) && LockInv(s) && LossInv(s) && CoverInv(s)
    && |s.pool| > 0
  }

  // ---------------------------------------------------------------------------
  // Every step keeps the invariants.

  lemma ActCovers(s: World, t: nat, k: nat, to: Pc)
    requires DataInv(s) && CoverInv(s) && ActEnabled(s, t, k, to)
    ensures CoverInv(DoAct(s, t, k, to))
  {
    var s' := DoAct(s, t, k, to);
    if s.pool[t].pc == Update {
      assert forall c :: 0 <= c < |s.w.chunks| && s.w.chunks[c].Finished() ==> s'.w.chunks[c].Finished();
    } else {
      ActChunks(s, t, k, to);
      ActPending(s, t, k, to);
    }
  }

  /** A worker's step leaves the items alone and moves the cursor only to claim. */
  predicate MovesCursor(w: Work, x: Worker, f: Effect)
  {
    && (f.side.NewWork? ==>
          && f.side.w.pending == w.pending
          && f.side.w.next == w.next + if x.pc == Claim then 1 else 0)
    && (x.pc == Claim ==> f.side.NewWork?)
  }

  lemma ActCursor(s: World, t: nat, k: nat, to: Pc)
    requires ActEnabled(s, t, k, to)
    ensures MovesCursor(s.w, s.pool[t], ActOf(s, t, k, to))
  {
  }

  lemma CursorApply(s: World, t: nat, f: Effect)
    requires t < |s.pool| && (f.side.CommitStore? ==> s.store.Some?) && MovesCursor(s.w, s.pool[t], f)
    ensures var s' := Apply(s, t, f);
            && s'.w.pending == s.w.pending && s'.h.generation == s.h.generation
            && s'.w.next == s.w.next + if s.pool[t].pc == Claim then 1 else 0
  {
  }

  lemma ActPending(s: World, t: nat, k: nat, to: Pc)
    requires ActEnabled(s, t, k, to)
    ensures var s' := DoAct(s, t, k, to);
            && s'.w.pending == s.w.pending && s'.h.generation == s.h.generation
            && s'.w.next == s.w.next + if s.pool[t].pc == Claim then 1 else 0
  {
    ActCursor(s, t, k, to);
    CursorApply(s, t, ActOf(s, t, k, to));
  }

  lemma StepCovers(s: World, st: Step)
    requires DataInv(s) && CoverInv(s) && Enabled(s, st)
    ensures CoverInv(Do(s, st))
  {
    match st
    case Act(t, k, to) => ActCovers(s, t, k, to);
    case Rebuild(limit) =>
      var cs := s.w.chunks;
      forall c | 0 <= c < |cs| && !cs[c].Finished()
        ensures HasItem(Build(cs), c)
      {
        BuildCovers(cs, |cs|, c);
      }
    case _ =>
  }

  lemma ApplyPool(s: World, st: Step)
    requires Enabled(s, st)
    ensures |Do(s, st).pool| == |s.pool|
  {
  }

  lemma InvStep(s: World, st: Step)
    requires Inv(s) && Enabled(s, st)
    ensures Inv(Do(s, st))
  {
    if st.Rebuild? { Drained(s); }
    StepKeeps(s, st);
    StepAccounts(s, st);
    StepFinishes(s, st);
    StepLocks(s, st);
    StepLoses(s, st);
    StepCovers(s, st);
    ApplyPool(s, st);
  }

  lemma InvStart(remote: seq<byte>, file: seq<byte>, cs: seq<Chunk>, threads: nat, maxC: int)
    requires FreshJob(remote, file, cs, threads, maxC)
    ensures Inv(Start(remote, file, cs, threads, maxC))
  {
    var s := Start(remote, file, cs, threads, maxC);
    StartHolds(remote, file, cs, threads, maxC);
    NothingReceived(cs, |cs|);
    TotIdle(s.pool, LiveW);
    TotIdle(s.pool, OpenW);
    TotIdle(s.pool, TokenW);
    TotIdle(s.pool, BetweenW);
    TotIdle(s.pool, UntotaledW);
    TotIdle(s.pool, WinnerW);
    TotIdle(s.pool, FinalW);
    TotIdle(s.pool, UncountedW);
    TotIdle(s.pool, StoreW);
  }

  lemma {:induction false} NothingReceived(cs: seq<Chunk>, i: nat)
    requires i <= |cs| && forall k :: 0 <= k < |cs| ==> cs[k].received == 0 && !cs[k].Finished()
    ensures FinishedUpTo(cs, i) == 0 && ReceivedUpTo(cs, i) == 0
  {
    if i > 0 { NothingReceived(cs, i - 1); }
  }

  lemma {:induction false} InvRun(s: World, steps: seq<Step>)
    requires Inv(s) && Legal(s, steps)
    ensures Inv(Run(s, steps))
    decreases |steps|
  {
    if steps != [] {
      InvStep(s, steps[0]);
      InvRun(Do(s, steps[0]), steps[1..]);
    }
  }

  /** A run is its first step and the rest. */
  lemma RunCons(s: World, st: Step, rest: seq<Step>)
    ensures Legal(s, [st] + rest) <==> Enabled(s, st) && Legal(Do(s, st), rest)
    ensures Legal(s, [st] + rest) ==> Run(s, [st] + rest) == Run(Do(s, st), rest)
  {
    var all := [st] + rest;
    assert all[0] == st && all[1..] == rest;
  }

  lemma {:induction false} LegalAppend(s: World, a: seq<Step>, b: seq<Step>, all: seq<Step>)
    requires Legal(s, a) && Legal(Run(s, a), b) && all == a + b
    ensures Legal(s, all)
    decreases |a|
  {
    if a == [] {
      assert all == b;
    } else {
      assert all[0] == a[0] && all[1..] == a[1..] + b;
      LegalAppend(Do(s, a[0]), a[1..], b, all[1..]);
    }
  }

  lemma {:induction false} RunAppend(s: World, a: seq<Step>, b: seq<Step>, all: seq<Step>)
    requires Legal(s, a) && Legal(Run(s, a), b) && all == a + b && Legal(s, all)
    ensures Run(s, all) == Run(Run(s, a), b)
    decreases |a|
  {
    if a == [] {
      assert all == b;
    } else {
      assert all[0] == a[0] && all[1..] == a[1..] + b;
      RunAppend(Do(s, a[0]), a[1..], b, all[1..]);
    }
  }

  predicate NoCrash(steps: seq<Step>)
  {
    forall i :: 0 <= i < |steps| ==> !steps[i].Crash?
  }

  /** The steps `steps`, without a restart, lead from `s` to `s'`. */
  ghost predicate Leads(s: World, steps: seq<Step>, s': World)
  {
    Legal(s, steps) && NoCrash(steps) && Run(s, steps) == s'
  }

  lemma LeadsStep(s: World, st: Step)
    requires Enabled(s, st) && !st.Crash?
    ensures Leads(s, [st], Do(s, st))
  {
    RunCons(s, st, []);
    assert [st] + [] == [st];
  }

  lemma LeadsOn(s: World, a: seq<Step>, mid: World, b: seq<Step>, s': World)
    requires Leads(s, a, mid) && Leads(mid, b, s')
    ensures Leads(s, a + b, s')
  {
    LegalAppend(s, a, b, a + b);
    RunAppend(s, a, b, a + b);
  }

  // ---------------------------------------------------------------------------
  // Main guarantees.

  lemma CompletedFile(s: World)
    requires Inv(s) && s.e.state == Completed
    ensures s.file == s.remote
    ensures s.e.total == |s.remote|
  {
    TotZero(s.pool, BetweenW);
    FinishedLimit(s.w.chunks, |s.w.chunks|);
    FinishedFileEqualsRemote(s.file, s.remote, s.w.chunks);
    AllFinished(s.w.chunks, |s.w.chunks|);
    AllReceived(s.w.chunks, |s.remote|, |s.w.chunks|);
    NoneUntotaled(s);
  }

  lemma FinishedLimit(cs: seq<Chunk>, i: nat)
    requires i <= |cs|
    ensures FinishedUpTo(cs, i) <= i
  {
  }

  lemma {:induction false} AllReceived(cs: seq<Chunk>, size: nat, i: nat)
    requires Tiled(cs, size) && Fits(cs) && i <= |cs|
    requires forall k :: 0 <= k < |cs| ==> cs[k].Finished()
    ensures ReceivedUpTo(cs, i) == if i == 0 then 0 else cs[i - 1].end + 1
  {
    if i > 0 {
      AllReceived(cs, size, i - 1);
      if i > 1 { assert cs[i - 1].start == cs[i - 2].end + 1; }
    }
  }

  /** When all chunks are counted no thread is between update and count. */
  lemma NoneUntotaled(s: World)
    requires Inv(s) && s.e.downloaded == |s.w.chunks|
    ensures Tot(s.pool, UntotaledW) == 0
    ensures forall t :: 0 <= t < |s.pool| ==> !Counting(s.pool[t].pc)
  {
    FinishedLimit(s.w.chunks, |s.w.chunks|);
    TotZero(s.pool, BetweenW);
    AllFinished(s.w.chunks, |s.w.chunks|);
    forall t | 0 <= t < |s.pool|
      ensures !Counting(s.pool[t].pc)
    {
      assert WorkerOk(s.remote, s.file, s.w, s.pool[t]);
      assert BetweenW(s.pool[t]) == 0;
    }
    TotZero(s.pool, UntotaledW);
  }

  lemma {:induction false} RemoteStays(s: World, steps: seq<Step>)
    requires Legal(s, steps)
    ensures Run(s, steps).remote == s.remote && |Run(s, steps).pool| == |s.pool|
    decreases |steps|
  {
    if steps != [] {
      ApplyPool(s, steps[0]);
      RemoteStays(Do(s, steps[0]), steps[1..]);
    }
  }

  /** Images are only ever added. */
  lemma {:induction false} ImagesGrow(s: World, steps: seq<Step>)
    requires Legal(s, steps)
    ensures s.images <= Run(s, steps).images
    decreases |steps|
  {
    if steps != [] {
      ImagesGrowStep(s, steps[0]);
      ImagesGrow(Do(s, steps[0]), steps[1..]);
    }
  }

  lemma ImagesGrowStep(s: World, st: Step)
    requires Enabled(s, st)
    ensures s.images <= Do(s, st).images
  {
  }

  /** Bounded loss: in every reachable state, fresh or reloaded, the bytes that
      the last stored image lacks stay below one store interval plus one buffer
      per thread. */
  lemma LossIsBounded(s: World)
    requires Inv(s)
    ensures ReceivedSum(s.w.chunks) - LastSum(s) < STORE_EVERY + BUFFER_SIZE * |s.pool|
  {
    LossWeights(s.remote, s.file, s.w, s.pool);
  }

  lemma BoundedLoss(remote: seq<byte>, file: seq<byte>, cs: seq<Chunk>, threads: nat, maxC: int, steps: seq<Step>)
    requires FreshJob(remote, file, cs, threads, maxC)
    requires Legal(Start(remote, file, cs, threads, maxC), steps)
    ensures var s := Run(Start(remote, file, cs, threads, maxC), steps);
            ReceivedSum(s.w.chunks) - LastSum(s) < 10485760 + threads * 32768
  {
    var s0 := Start(remote, file, cs, threads, maxC);
    InvStart(remote, file, cs, threads, maxC);
    InvRun(s0, steps);
    RemoteStays(s0, steps);
    LossIsBounded(Run(s0, steps));
  }

  // ---------------------------------------------------------------------------
  // Finishing.

  lemma CompletedStaysStep(s: World, st: Step)
    requires Enabled(s, st) && !st.Crash?
    requires s.e.state == Completed
    ensures Do(s, st).e.state == Completed
  {
    if st.Act? { ActWinner(s, st.thread, st.k, st.to); }
  }

  /** Completed is absorbing until the process restarts. */
  lemma {:induction false} CompletedStays(s: World, steps: seq<Step>)
    requires Legal(s, steps) && s.e.state == Completed
    requires NoCrash(steps)
    ensures Run(s, steps).e.state == Completed
    decreases |steps|
  {
    if steps != [] {
      CompletedStaysStep(s, steps[0]);
      CompletedStays(Do(s, steps[0]), steps[1..]);
    }
  }

  /** The finish count is the number of finished chunks minus the workers that
      have finished a chunk and not counted it; at most one worker ever sees the
      last count. A Completed engine has called on_finish exactly once, unless one
      thread is still between the completion and the call; another has not. */
  lemma FinishCounting(s: World)
    requires Inv(s)
    ensures s.e.downloaded == FinishedCount(s.w.chunks) - Tot(s.pool, BetweenW)
    ensures s.h.winners <= 1 && s.h.finishes <= 1
    ensures forall t, u :: 0 <= t < u < |s.pool| ==> !(Winning(s.pool[t].pc) && Winning(s.pool[u].pc))
    ensures s.e.state == Completed <==> s.h.finishes + Tot(s.pool, FinalW) == 1
    ensures (forall t :: 0 <= t < |s.pool| ==> !Final(s.pool[t].pc)) ==>
              s.h.finishes == if s.e.state == Completed then 1 else 0
  {
    forall t, u | 0 <= t < u < |s.pool|
      ensures !(Winning(s.pool[t].pc) && Winning(s.pool[u].pc))
    {
      TotPair(s.pool, WinnerW, t, u);
    }
    if forall t :: 0 <= t < |s.pool| ==> !Final(s.pool[t].pc) { TotZero(s.pool, FinalW); }
  }

  lemma TotPair(pool: seq<Worker>, f: Worker -> nat, t: nat, u: nat)
    requires t < u < |pool|
    ensures Tot(pool, f) >= f(pool[t]) + f(pool[u])
  {
    var x := pool[t];
    var without := pool[u := x];
    TotUpdate(pool, f, u, x);
    TotUpdate(pool[..u], f, t, x);
    TotPrefix(pool, f, u);
  }

  lemma {:induction false} TotPrefix(pool: seq<Worker>, f: Worker -> nat, u: nat)
    requires u < |pool|
    ensures Tot(pool, f) >= Tot(pool[..u], f) + f(pool[u])
  {
    var n := |pool| - 1;
    if u < n {
      TotPrefix(pool[..n], f, u);
      assert pool[..n][..u] == pool[..u];
    }
  }

  /** Worker accounting: a scheduled count is a planned task, a queued task or a
      worker that has not closed; it never goes negative, and it is covered by
      the desired count, open release tokens and workers leaving on a token. */
  lemma WorkerAccounting(remote: seq<byte>, file: seq<byte>, cs: seq<Chunk>, threads: nat, maxC: int, steps: seq<Step>)
    requires FreshJob(remote, file, cs, threads, maxC)
    requires Legal(Start(remote, file, cs, threads, maxC), steps)
    ensures var s := Run(Start(remote, file, cs, threads, maxC), steps);
            && s.e.scheduled == s.planned + s.queued + Tot(s.pool, LiveW)
            && s.e.conns == Tot(s.pool, OpenW)
            && s.e.scheduled <= s.e.desired + s.e.budget + Tot(s.pool, TokenW)
            && (forall t :: 0 <= t < |s.pool| && s.pool[t].pc == CloseSched ==> s.e.scheduled - 1 >= 0)
  {
    var s0 := Start(remote, file, cs, threads, maxC);
    InvStart(remote, file, cs, threads, maxC);
    InvRun(s0, steps);
    var s := Run(s0, steps);
    forall t | 0 <= t < |s.pool| && s.pool[t].pc == CloseSched
      ensures s.e.scheduled - 1 >= 0
    {
      TotUpdate(s.pool, LiveW, t, s.pool[t]);
    }
  }
}
