/** What every step keeps of the counters: scheduled and open connections,
    release tokens, finished chunks, and the bytes a crash can lose. */
module ProtocolCounts {
  import opened Basics
  import opened Chunks
  import opened EngineSpec
  import opened Protocol
  import opened ProtocolData

  // ---------------------------------------------------------------------------
  // Summing a weight over the pool.

  function Tot(pool: seq<Worker>, f: Worker -> nat): nat
  {
    if pool == [] then 0 else Tot(pool[..|pool| - 1], f) + f(pool[|pool| - 1])
  }

  lemma {:induction false} TotUpdate(pool: seq<Worker>, f: Worker -> nat, t: nat, x: Worker)
    requires t < |pool|
    ensures Tot(pool[t := x], f) == Tot(pool, f) - f(pool[t]) + f(x)
    ensures Tot(pool, f) >= f(pool[t])
  {
    var n := |pool| - 1;
    if t == n {
      assert pool[t := x][..n] == pool[..n];
    } else {
      assert pool[t := x][..n] == pool[..n][t := x];
      TotUpdate(pool[..n], f, t, x);
    }
  }

  lemma {:induction false} TotZero(pool: seq<Worker>, f: Worker -> nat)
    ensures Tot(pool, f) == 0 <==> forall t :: 0 <= t < |pool| ==> f(pool[t]) == 0
  {
    if pool != [] {
      TotZero(pool[..|pool| - 1], f);
      assert forall t :: 0 <= t < |pool| - 1 ==> pool[t] == pool[..|pool| - 1][t];
    }
  }

  lemma TotIdle(pool: seq<Worker>, f: Worker -> nat)
    requires f(IDLE) == 0 && forall t :: 0 <= t < |pool| ==> pool[t] == IDLE
    ensures Tot(pool, f) == 0
  {
    TotZero(pool, f);
  }

  // ---------------------------------------------------------------------------
  // Weights.

  function LiveW(x: Worker): nat { if Live(x.pc) then 1 else 0 }

  function OpenW(x: Worker): nat { if Open(x.pc) then 1 else 0 }

  /** Took a release token and has not yet dropped the scheduled count. */
  function TokenW(x: Worker): nat { if x.pc == CloseSched && x.token then 1 else 0 }

  predicate Counting(pc: Pc)
  {
    pc == TotalAdd || pc == UnsavedAdd || pc == StoreWait || pc == StoreHeld || pc == FinishCheck
  }

  /** Finished its chunk but has not counted it. */
  function BetweenW(x: Worker): nat { if Counting(x.pc) && x.fin then 1 else 0 }

  /** Bytes in a chunk but not yet in the total. */
  function UntotaledW(x: Worker): nat { if x.pc == TotalAdd then |x.data| else 0 }

  /** Bytes in a chunk but not yet in the unsaved counter. */
  function UncountedW(x: Worker): nat { if x.pc == TotalAdd || x.pc == UnsavedAdd then |x.data| else 0 }

  /** Saw the threshold and has not finished storing. */
  function StoreW(x: Worker): nat { if x.pc == StoreWait || x.pc == StoreHeld then 1 else 0 }

  predicate Final(pc: Pc) { pc == FinalStore || pc == FinalHeld || pc == FinalClean || pc == FinalCall }

  /** Saw the last count and has not yet called on_finish. */
  function WinnerW(x: Worker): nat { if x.pc == LastCas || x.pc == ForceDone || Final(x.pc) then 1 else 0 }

  function FinalW(x: Worker): nat { if Final(x.pc) then 1 else 0 }

  // ---------------------------------------------------------------------------
  // Invariants.

  /** Every scheduled count is a planned, queued or running worker, and their
      number is covered by the desired count, the open release tokens and the
      workers leaving on a token. */
  ghost predicate AccountInv(s: World)
  {
    && s.e.scheduled == s.planned + s.queued + Tot(s.pool, LiveW)
    && s.e.conns == Tot(s.pool, OpenW)
    && s.e.budget >= 0
    && 1 <= s.e.minC <= s.e.desired <= s.e.maxC
    && s.e.scheduled <= s.e.desired + s.e.budget + Tot(s.pool, TokenW)
  }

  /** Finished chunks and received bytes are counted, but for the workers on their
      way to count them. */
  ghost predicate TallyInv(s: World)
  {
    && s.e.downloaded + Tot(s.pool, BetweenW) == FinishedCount(s.w.chunks)
    && s.e.total + Tot(s.pool, UntotaledW) == ReceivedSum(s.w.chunks)
  }

  ghost predicate FinishInv(s: World)
  {
    TallyInv(s) && WinInv(s) && CallInv(s)
  }

  /** At most one worker has seen the last count, and Completed comes from it. */
  ghost predicate WinInv(s: World)
  {
    && Tot(s.pool, WinnerW) + s.h.finishes <= s.h.winners <= 1
    && (s.h.winners == 1 ==> s.e.downloaded == |s.w.chunks|)
    && (s.e.state == Completed ==> s.h.winners == 1)
  }

  /** A completed engine has called on_finish once, or one thread is between the
      completion and the call. */
  ghost predicate CallInv(s: World)
  {
    Tot(s.pool, FinalW) + s.h.finishes == if s.e.state == Completed then 1 else 0
  }

  /** A thread is storing exactly while it holds the disk lock. */
  ghost predicate LockInv(s: World)
  {
    && (forall t :: 0 <= t < |s.pool| ==> (Storing(s.pool[t].pc) <==> s.store.Some? && s.store.value.owner == Some(t)))
    && (s.store.Some? && s.store.value.owner.Some? ==> s.store.value.owner.value < |s.pool|)
  }

  function LastSum(s: World): nat { if s.last.Some? then ReceivedSum(s.last.value) else 0 }

  ghost predicate LossInv(s: World)
  {
    && 0 <= s.h.base <= s.e.unsaved
    && ReceivedSum(s.w.chunks) - LastSum(s) <= s.e.unsaved - s.h.base + Tot(s.pool, UncountedW)
    && (s.store.Some? ==>
          && |s.store.value.snap| <= |s.w.chunks|
          && ReceivedUpTo(s.w.chunks, |s.store.value.snap|) - ReceivedSum(s.store.value.snap)
               <= Tot(s.pool, UncountedW))
    && s.e.unsaved - s.h.base < STORE_EVERY + BUFFER_SIZE * Tot(s.pool, StoreW)
  }

  // ---------------------------------------------------------------------------
  // Accounting.

  /** How a worker's step moves the scheduled count. */
  predicate MovesScheduled(e: Engine, x: Worker, f: Effect)
  {
    && (x.pc == CloseSched ==> f.e.scheduled == e.scheduled - 1 && !Live(f.x.pc))
    && (x.pc != CloseSched ==> f.e.scheduled == e.scheduled && Live(f.x.pc) == Live(x.pc))
  }

  predicate MovesConns(e: Engine, x: Worker, f: Effect)
  {
    && (x.pc == Taken ==> f.e.conns == e.conns + 1 && Open(f.x.pc))
    && (x.pc == CloseConn ==> f.e.conns == e.conns - 1 && !Open(f.x.pc))
    && (x.pc != Taken && x.pc != CloseConn ==> f.e.conns == e.conns && Open(f.x.pc) == Open(x.pc))
  }

  predicate MovesBudget(e: Engine, x: Worker, f: Effect)
  {
    && (f.e.budget != e.budget ==>
          HasToken(e) && f.e.budget == e.budget - 1 && f.x.pc == CloseSched && f.x.token && x.pc != CloseSched)
    && f.e.minC == e.minC && f.e.desired == e.desired && f.e.maxC == e.maxC
  }

  lemma EnteringAccounts(s: World, t: nat, k: nat, to: Pc)
    requires ActEnabled(s, t, k, to) && Entering(s.pool[t].pc) && s.e.scheduled >= LiveW(s.pool[t])
    ensures MovesScheduled(s.e, s.pool[t], ActOf(s, t, k, to))
    ensures MovesConns(s.e, s.pool[t], ActOf(s, t, k, to))
    ensures MovesBudget(s.e, s.pool[t], ActOf(s, t, k, to))
  {
  }

  lemma StreamingAccounts(s: World, t: nat, k: nat, to: Pc)
    requires ActEnabled(s, t, k, to) && Streaming(s.pool[t].pc) && s.e.scheduled >= LiveW(s.pool[t])
    ensures MovesScheduled(s.e, s.pool[t], ActOf(s, t, k, to))
    ensures MovesConns(s.e, s.pool[t], ActOf(s, t, k, to))
    ensures MovesBudget(s.e, s.pool[t], ActOf(s, t, k, to))
  {
  }

  lemma ReportingAccounts(s: World, t: nat, k: nat, to: Pc)
    requires ActEnabled(s, t, k, to) && Reporting(s.pool[t].pc) && s.e.scheduled >= LiveW(s.pool[t])
    ensures MovesScheduled(s.e, s.pool[t], ActOf(s, t, k, to))
    ensures MovesConns(s.e, s.pool[t], ActOf(s, t, k, to))
    ensures MovesBudget(s.e, s.pool[t], ActOf(s, t, k, to))
  {
  }

  lemma LeavingAccounts(s: World, t: nat, k: nat, to: Pc)
    requires ActEnabled(s, t, k, to) && Leaving(s.pool[t].pc) && s.e.scheduled >= LiveW(s.pool[t])
    ensures MovesScheduled(s.e, s.pool[t], ActOf(s, t, k, to))
    ensures MovesConns(s.e, s.pool[t], ActOf(s, t, k, to))
    ensures MovesBudget(s.e, s.pool[t], ActOf(s, t, k, to))
  {
  }

  /** How every step moves the accounts. The negative-repair branch of the close is
      dead: the count is positive. */
  lemma ActScheduled(s: World, t: nat, k: nat, to: Pc)
    requires ActEnabled(s, t, k, to) && s.e.scheduled >= LiveW(s.pool[t])
    ensures MovesScheduled(s.e, s.pool[t], ActOf(s, t, k, to))
    ensures MovesConns(s.e, s.pool[t], ActOf(s, t, k, to))
    ensures MovesBudget(s.e, s.pool[t], ActOf(s, t, k, to))
  {
    FourClasses(s.pool[t].pc);
    if Entering(s.pool[t].pc) {
      EnteringAccounts(s, t, k, to);
    } else if Streaming(s.pool[t].pc) {
      StreamingAccounts(s, t, k, to);
    } else if Reporting(s.pool[t].pc) {
      ReportingAccounts(s, t, k, to);
    } else {
      LeavingAccounts(s, t, k, to);
    }
  }

  lemma MovesAccount(s: World, t: nat, f: Effect)
    requires AccountInv(s) && t < |s.pool| && (f.side.CommitStore? ==> s.store.Some?)
    requires MovesScheduled(s.e, s.pool[t], f) && MovesConns(s.e, s.pool[t], f) && MovesBudget(s.e, s.pool[t], f)
    ensures AccountInv(Apply(s, t, f))
  {
    TotUpdate(s.pool, LiveW, t, f.x);
    TotUpdate(s.pool, OpenW, t, f.x);
    TotUpdate(s.pool, TokenW, t, f.x);
    assert Apply(s, t, f).pool == s.pool[t := f.x];
  }

  lemma ActAccounts(s: World, t: nat, k: nat, to: Pc)
    requires AccountInv(s) && ActEnabled(s, t, k, to)
    ensures AccountInv(DoAct(s, t, k, to))
  {
    TotUpdate(s.pool, LiveW, t, s.pool[t]);
    ActScheduled(s, t, k, to);
    MovesAccount(s, t, ActOf(s, t, k, to));
  }

  lemma TakeAccounts(s: World, t: nat)
    requires AccountInv(s) && Enabled(s, Take(t))
    ensures AccountInv(Do(s, Take(t)))
  {
    var x := IDLE.(pc := Taken);
    TotUpdate(s.pool, LiveW, t, x);
    TotUpdate(s.pool, OpenW, t, x);
    TotUpdate(s.pool, TokenW, t, x);
  }

  lemma CrashAccounts(s: World, i: nat, maxC: int)
    requires Enabled(s, Crash(i, maxC))
    ensures AccountInv(Do(s, Crash(i, maxC)))
  {
    var pool := Do(s, Crash(i, maxC)).pool;
    TotIdle(pool, LiveW);
    TotIdle(pool, OpenW);
    TotIdle(pool, TokenW);
  }

  lemma PlanAccounts(s: World, limit: int)
    requires AccountInv(s)
    ensures AccountInv(Do(s, PlanMore(limit)))
  {
  }

  lemma RebuildAccounts(s: World, limit: int)
    requires AccountInv(s) && Enabled(s, Rebuild(limit))
    ensures AccountInv(Do(s, Rebuild(limit)))
  {
    var e := RebuiltCounters(s.e, s.w);
    assert Plan(e, limit).scheduled <= e.desired;
  }

  lemma DesiredAccounts(s: World, d: int)
    requires AccountInv(s)
    ensures AccountInv(Do(s, SetDesiredTo(d)))
  {
  }

  lemma StepAccounts(s: World, st: Step)
    requires AccountInv(s) && Enabled(s, st)
    ensures AccountInv(Do(s, st))
  {
    match st
    case Act(t, k, to) => ActAccounts(s, t, k, to);
    case Take(t) => TakeAccounts(s, t);
    case Rebuild(limit) => RebuildAccounts(s, limit);
    case PlanMore(limit) => PlanAccounts(s, limit);
    case SetDesiredTo(d) => DesiredAccounts(s, d);
    case Crash(i, maxC) => CrashAccounts(s, i, maxC);
    case _ => assert Do(s, st).pool == s.pool;
  }

  /** Once nothing is scheduled, no thread still works for the engine. */
  lemma Drained(s: World)
    requires AccountInv(s) && s.e.scheduled == 0
    ensures s.planned == 0 && s.queued == 0
    ensures forall t :: 0 <= t < |s.pool| ==> !Live(s.pool[t].pc)
  {
    TotZero(s.pool, LiveW);
    forall t | 0 <= t < |s.pool|
      ensures !Live(s.pool[t].pc)
    {
      assert LiveW(s.pool[t]) == 0;
    }
  }

  // ---------------------------------------------------------------------------
  // Finish counting.

  lemma FinishTots(pool: seq<Worker>, t: nat, x: Worker)
    requires t < |pool|
    ensures Tot(pool[t := x], BetweenW) == Tot(pool, BetweenW) - BetweenW(pool[t]) + BetweenW(x)
    ensures Tot(pool[t := x], UntotaledW) == Tot(pool, UntotaledW) - UntotaledW(pool[t]) + UntotaledW(x)
    ensures Tot(pool[t := x], WinnerW) == Tot(pool, WinnerW) - WinnerW(pool[t]) + WinnerW(x)
    ensures Tot(pool[t := x], FinalW) == Tot(pool, FinalW) - FinalW(pool[t]) + FinalW(x)
    ensures Tot(pool, BetweenW) >= BetweenW(pool[t])
    ensures Tot(pool, WinnerW) >= WinnerW(pool[t])
    ensures Tot(pool, FinalW) >= FinalW(pool[t])
  {
    TotUpdate(pool, BetweenW, t, x);
    TotUpdate(pool, UntotaledW, t, x);
    TotUpdate(pool, WinnerW, t, x);
    TotUpdate(pool, FinalW, t, x);
  }

  /** How a worker's step, away from an update, moves the finish count. */
  predicate MovesFinished(e: Engine, x: Worker, f: Effect)
  {
    && f.e.downloaded == e.downloaded + (if x.pc == FinishCheck && x.fin then 1 else 0)
    && MovesCounting(x, f)
  }

  predicate MovesCounting(x: Worker, f: Effect)
  {
    && (x.pc == FinishCheck ==> !Counting(f.x.pc))
    && (x.pc != FinishCheck ==> Counting(f.x.pc) == Counting(x.pc) && f.x.fin == x.fin)
  }

  predicate MovesTotal(e: Engine, x: Worker, f: Effect)
  {
    && (x.pc == TotalAdd ==> f.e.total == e.total + |x.data| && f.x.pc == UnsavedAdd)
    && (x.pc != TotalAdd ==> f.e.total == e.total && f.x.pc != TotalAdd)
  }

  predicate Winning(pc: Pc) { pc == LastCas || pc == ForceDone || Final(pc) }

  /** The winner is the worker that counts the last chunk. */
  predicate MovesWin(e: Engine, n: nat, x: Worker, f: Effect)
  {
    f.side.Win? <==> x.pc == FinishCheck && x.fin && LastSeen(e, n)
  }

  /** A winner comes from the last count, and leaves when it calls on_finish. */
  predicate MovesWinner(x: Worker, f: Effect)
  {
    && (Winning(f.x.pc) ==> f.side.Win? || Winning(x.pc))
    && (f.side.Finish? ==> Winning(x.pc) && !Winning(f.x.pc))
  }

  /** Completed is entered by the winner only, and never left. */
  predicate MovesCompleted(e: Engine, x: Worker, f: Effect)
  {
    && (e.state == Completed ==> f.e.state == Completed)
    && (f.e.state == Completed && e.state != Completed ==> Winning(x.pc))
  }

  /** Completing begins the final calls, and on_finish ends them. */
  predicate MovesFinal(e: Engine, x: Worker, f: Effect)
  {
    && (f.side.Finish? ==> Final(x.pc))
    && (Final(x.pc) ==> (Final(f.x.pc) <==> !f.side.Finish?) && f.e.state == e.state)
    && (!Final(x.pc) && !Final(f.x.pc) ==> (f.e.state == Completed <==> e.state == Completed))
    && (!Final(x.pc) && Final(f.x.pc) ==> Winning(x.pc) && f.e.state == Completed)
  }

  lemma EnteringCounts(s: World, t: nat, k: nat, to: Pc)
    requires ActEnabled(s, t, k, to) && Entering(s.pool[t].pc) && s.pool[t].pc != Update
    ensures MovesCounting(s.pool[t], ActOf(s, t, k, to))
    ensures MovesTotal(s.e, s.pool[t], ActOf(s, t, k, to))
  {
  }

  lemma StreamingCounts(s: World, t: nat, k: nat, to: Pc)
    requires ActEnabled(s, t, k, to) && Streaming(s.pool[t].pc) && s.pool[t].pc != Update
    ensures MovesCounting(s.pool[t], ActOf(s, t, k, to))
    ensures MovesTotal(s.e, s.pool[t], ActOf(s, t, k, to))
  {
  }

  lemma ReportingCounts(s: World, t: nat, k: nat, to: Pc)
    requires ActEnabled(s, t, k, to) && Reporting(s.pool[t].pc) && s.pool[t].pc != Update
    ensures MovesCounting(s.pool[t], ActOf(s, t, k, to))
    ensures MovesTotal(s.e, s.pool[t], ActOf(s, t, k, to))
  {
  }

  lemma LeavingCounts(s: World, t: nat, k: nat, to: Pc)
    requires ActEnabled(s, t, k, to) && Leaving(s.pool[t].pc) && s.pool[t].pc != Update
    ensures MovesCounting(s.pool[t], ActOf(s, t, k, to))
    ensures MovesTotal(s.e, s.pool[t], ActOf(s, t, k, to))
  {
  }

  lemma ActCounting(s: World, t: nat, k: nat, to: Pc)
    requires ActEnabled(s, t, k, to) && s.pool[t].pc != Update
    ensures MovesCounting(s.pool[t], ActOf(s, t, k, to))
    ensures MovesTotal(s.e, s.pool[t], ActOf(s, t, k, to))
  {
    FourClasses(s.pool[t].pc);
    if Entering(s.pool[t].pc) {
      EnteringCounts(s, t, k, to);
    } else if Streaming(s.pool[t].pc) {
      StreamingCounts(s, t, k, to);
    } else if Reporting(s.pool[t].pc) {
      ReportingCounts(s, t, k, to);
    } else {
      LeavingCounts(s, t, k, to);
    }
  }

  lemma ActFinished(s: World, t: nat, k: nat, to: Pc)
    requires ActEnabled(s, t, k, to) && s.pool[t].pc != Update
    requires s.pool[t].pc == FinishCheck ==> s.pool[t].fin == ChunkOf(s.w, s.pool[t]).Finished()
    ensures MovesFinished(s.e, s.pool[t], ActOf(s, t, k, to))
  {
    ActCounting(s, t, k, to);
  }

  lemma ActWins(s: World, t: nat, k: nat, to: Pc)
    requires ActEnabled(s, t, k, to)
    requires s.pool[t].pc == FinishCheck ==> s.pool[t].fin == ChunkOf(s.w, s.pool[t]).Finished()
    ensures MovesWin(s.e, |s.w.chunks|, s.pool[t], ActOf(s, t, k, to))
  {
  }

  lemma EnteringWins(s: World, t: nat, k: nat, to: Pc)
    requires ActEnabled(s, t, k, to) && Entering(s.pool[t].pc)
    ensures MovesWinner(s.pool[t], ActOf(s, t, k, to))
    ensures MovesCompleted(s.e, s.pool[t], ActOf(s, t, k, to))
    ensures MovesFinal(s.e, s.pool[t], ActOf(s, t, k, to))
  {
  }

  lemma StreamingWins(s: World, t: nat, k: nat, to: Pc)
    requires ActEnabled(s, t, k, to) && Streaming(s.pool[t].pc)
    ensures MovesWinner(s.pool[t], ActOf(s, t, k, to))
    ensures MovesCompleted(s.e, s.pool[t], ActOf(s, t, k, to))
    ensures MovesFinal(s.e, s.pool[t], ActOf(s, t, k, to))
  {
  }

  lemma ReportingWins(s: World, t: nat, k: nat, to: Pc)
    requires ActEnabled(s, t, k, to) && Reporting(s.pool[t].pc)
    ensures MovesWinner(s.pool[t], ActOf(s, t, k, to))
    ensures MovesCompleted(s.e, s.pool[t], ActOf(s, t, k, to))
    ensures MovesFinal(s.e, s.pool[t], ActOf(s, t, k, to))
  {
  }

  lemma LeavingWins(s: World, t: nat, k: nat, to: Pc)
    requires ActEnabled(s, t, k, to) && Leaving(s.pool[t].pc)
    ensures MovesWinner(s.pool[t], ActOf(s, t, k, to))
    ensures MovesCompleted(s.e, s.pool[t], ActOf(s, t, k, to))
    ensures MovesFinal(s.e, s.pool[t], ActOf(s, t, k, to))
  {
    LeavingIsNoWin(s, t, k, to);
  }

  lemma LeavingIsNoWin(s: World, t: nat, k: nat, to: Pc)
    requires ActEnabled(s, t, k, to) && Leaving(s.pool[t].pc)
    ensures var f := ActOf(s, t, k, to);
            && !Winning(f.x.pc) && !f.side.Finish?
            && (f.e.state == Completed <==> s.e.state == Completed)
  {
  }

  lemma ActWinner(s: World, t: nat, k: nat, to: Pc)
    requires ActEnabled(s, t, k, to)
    ensures MovesWinner(s.pool[t], ActOf(s, t, k, to))
    ensures MovesCompleted(s.e, s.pool[t], ActOf(s, t, k, to))
    ensures MovesFinal(s.e, s.pool[t], ActOf(s, t, k, to))
  {
    FourClasses(s.pool[t].pc);
    if Entering(s.pool[t].pc) {
      EnteringWins(s, t, k, to);
    } else if Streaming(s.pool[t].pc) {
      StreamingWins(s, t, k, to);
    } else if Reporting(s.pool[t].pc) {
      ReportingWins(s, t, k, to);
    } else {
      LeavingWins(s, t, k, to);
    }
  }

  lemma ActChunks(s: World, t: nat, k: nat, to: Pc)
    requires ActEnabled(s, t, k, to) && s.pool[t].pc != Update
    ensures DoAct(s, t, k, to).w.chunks == s.w.chunks
  {
  }

  lemma MovesTally(s: World, t: nat, f: Effect)
    requires TallyInv(s) && t < |s.pool| && (f.side.CommitStore? ==> s.store.Some?)
    requires MovesFinished(s.e, s.pool[t], f) && MovesTotal(s.e, s.pool[t], f)
    requires Apply(s, t, f).w.chunks == s.w.chunks
    ensures TallyInv(Apply(s, t, f))
  {
    CountTally(s.e, s.pool, t, f);
    TotalTally(s.e, s.pool, t, f);
    assert Apply(s, t, f).pool == s.pool[t := f.x];
  }

  lemma CountTally(e: Engine, pool: seq<Worker>, t: nat, f: Effect)
    requires t < |pool| && MovesFinished(e, pool[t], f)
    ensures f.e.downloaded + Tot(pool[t := f.x], BetweenW) == e.downloaded + Tot(pool, BetweenW)
  {
    TotUpdate(pool, BetweenW, t, f.x);
  }

  lemma TotalTally(e: Engine, pool: seq<Worker>, t: nat, f: Effect)
    requires t < |pool| && MovesTotal(e, pool[t], f)
    ensures f.e.total + Tot(pool[t := f.x], UntotaledW) == e.total + Tot(pool, UntotaledW)
  {
    TotUpdate(pool, UntotaledW, t, f.x);
  }

  /** A winner that has not completed yet is the only one with calls to make. */
  lemma {:induction false} FinalsAreWinners(pool: seq<Worker>, t: nat)
    requires t < |pool|
    ensures Tot(pool, FinalW) + WinnerW(pool[t]) <= Tot(pool, WinnerW) + FinalW(pool[t])
  {
    var n := |pool| - 1;
    if t < n { FinalsAreWinners(pool[..n], t); } else { FinalsFew(pool[..n]); }
  }

  lemma {:induction false} FinalsFew(pool: seq<Worker>)
    ensures Tot(pool, FinalW) <= Tot(pool, WinnerW)
  {
    if pool != [] { FinalsFew(pool[..|pool| - 1]); }
  }

  lemma MovesCallInv(s: World, t: nat, f: Effect)
    requires FinishInv(s) && t < |s.pool| && (f.side.CommitStore? ==> s.store.Some?)
    requires MovesFinal(s.e, s.pool[t], f)
    ensures CallInv(Apply(s, t, f))
  {
    FinishTots(s.pool, t, f.x);
    FinalsAreWinners(s.pool, t);
    assert Apply(s, t, f).pool == s.pool[t := f.x];
  }

  lemma MovesWinInv(s: World, t: nat, f: Effect)
    requires WinInv(s) && t < |s.pool| && (f.side.CommitStore? ==> s.store.Some?)
    requires MovesFinished(s.e, s.pool[t], f)
    requires s.pool[t].pc == FinishCheck && s.pool[t].fin && s.h.winners == 1 ==> s.e.downloaded < |s.w.chunks|
    requires MovesWin(s.e, |s.w.chunks|, s.pool[t], f) && MovesWinner(s.pool[t], f)
    requires MovesCompleted(s.e, s.pool[t], f) && Apply(s, t, f).w.chunks == s.w.chunks
    ensures WinInv(Apply(s, t, f))
  {
    FinishTots(s.pool, t, f.x);
    assert Apply(s, t, f).pool == s.pool[t := f.x];
  }

  /** Whoever is about to count has not been counted. */
  lemma CountsBelow(s: World, t: nat)
    requires TallyInv(s) && t < |s.pool| && s.pool[t].pc == FinishCheck && s.pool[t].fin
    ensures s.e.downloaded < |s.w.chunks|
  {
    TotUpdate(s.pool, BetweenW, t, s.pool[t]);
  }

  lemma ActTally(s: World, t: nat, k: nat, to: Pc)
    requires DataInv(s) && TallyInv(s) && ActEnabled(s, t, k, to) && s.pool[t].pc != Update
    ensures TallyInv(DoAct(s, t, k, to))
  {
    assert WorkerOk(s.remote, s.file, s.w, s.pool[t]);
    ActFinished(s, t, k, to);
    ActCounting(s, t, k, to);
    ActChunks(s, t, k, to);
    MovesTally(s, t, ActOf(s, t, k, to));
  }

  lemma FinIsFinished(s: World, t: nat)
    requires DataInv(s) && t < |s.pool| && s.pool[t].pc == FinishCheck
    ensures ItemValid(s.w, s.pool[t]) && s.pool[t].fin == ChunkOf(s.w, s.pool[t]).Finished()
  {
    assert WorkerOk(s.remote, s.file, s.w, s.pool[t]);
  }

  lemma ActWinMoves(s: World, t: nat, k: nat, to: Pc, f: Effect)
    requires DataInv(s) && ActEnabled(s, t, k, to) && s.pool[t].pc != Update && f == ActOf(s, t, k, to)
    ensures MovesFinished(s.e, s.pool[t], f) && MovesWin(s.e, |s.w.chunks|, s.pool[t], f)
  {
    if s.pool[t].pc == FinishCheck { FinIsFinished(s, t); }
    ActFinished(s, t, k, to);
    ActWins(s, t, k, to);
  }

  lemma ActWinInv(s: World, t: nat, k: nat, to: Pc, f: Effect)
    requires DataInv(s) && TallyInv(s) && WinInv(s) && ActEnabled(s, t, k, to) && s.pool[t].pc != Update
    requires f == ActOf(s, t, k, to)
    ensures WinInv(Apply(s, t, f))
  {
    ActWinMoves(s, t, k, to, f);
    ActWinner(s, t, k, to);
    ActChunks(s, t, k, to);
    if s.pool[t].pc == FinishCheck && s.pool[t].fin { CountsBelow(s, t); }
    MovesWinInv(s, t, f);
  }

  lemma ActFinishInv(s: World, t: nat, k: nat, to: Pc)
    requires DataInv(s) && FinishInv(s) && ActEnabled(s, t, k, to)
    requires s.pool[t].pc != Update
    ensures FinishInv(DoAct(s, t, k, to))
  {
    ActTally(s, t, k, to);
    ActWinInv(s, t, k, to, ActOf(s, t, k, to));
    ActWinner(s, t, k, to);
    MovesCallInv(s, t, ActOf(s, t, k, to));
  }

  lemma UpdateTally(s: World, t: nat, k: nat, to: Pc)
    requires DataInv(s) && TallyInv(s) && ActEnabled(s, t, k, to) && s.pool[t].pc == Update
    ensures TallyInv(DoAct(s, t, k, to))
  {
    var s' := DoAct(s, t, k, to);
    var x := s.pool[t];
    assert WorkerOk(s.remote, s.file, s.w, x);
    UpdateFits(s.remote, s.file, s.w, x);
    var c := ItemOf(s, x).chunk;
    FinishedUpdate(s.w.chunks, c, s'.w.chunks[c], |s.w.chunks|);
    FinishTots(s.pool, t, s'.pool[t]);
  }

  lemma UpdateFinishInv(s: World, t: nat, k: nat, to: Pc)
    requires DataInv(s) && FinishInv(s) && ActEnabled(s, t, k, to)
    requires s.pool[t].pc == Update
    ensures FinishInv(DoAct(s, t, k, to))
  {
    UpdateTally(s, t, k, to);
    FinishTots(s.pool, t, DoAct(s, t, k, to).pool[t]);
  }

  lemma RebuildFinishInv(s: World, limit: int)
    requires AccountInv(s) && FinishInv(s) && Enabled(s, Rebuild(limit))
    ensures FinishInv(Do(s, Rebuild(limit)))
    ensures Do(s, Rebuild(limit)).e.downloaded == s.e.downloaded
  {
    Drained(s);
    forall t | 0 <= t < |s.pool|
      ensures BetweenW(s.pool[t]) == 0
    {
      assert !Live(s.pool[t].pc);
    }
    TotZero(s.pool, BetweenW);
  }

  lemma CrashFinishInv(s: World, i: nat, maxC: int)
    requires Enabled(s, Crash(i, maxC))
    ensures FinishInv(Do(s, Crash(i, maxC)))
  {
    var pool := Do(s, Crash(i, maxC)).pool;
    TotIdle(pool, BetweenW);
    TotIdle(pool, UntotaledW);
    TotIdle(pool, WinnerW);
    TotIdle(pool, FinalW);
  }

  lemma TakeFinishInv(s: World, t: nat)
    requires FinishInv(s) && Enabled(s, Take(t))
    ensures FinishInv(Do(s, Take(t)))
  {
    FinishTots(s.pool, t, IDLE.(pc := Taken));
  }

  lemma OtherFinishInv(s: World, st: Step)
    requires FinishInv(s) && Enabled(s, st)
    requires !st.Act? && !st.Take? && !st.Rebuild? && !st.Crash?
    ensures FinishInv(Do(s, st))
  {
    assert Do(s, st).pool == s.pool && Do(s, st).w == s.w;
  }

  lemma StepFinishes(s: World, st: Step)
    requires DataInv(s) && AccountInv(s) && FinishInv(s) && Enabled(s, st)
    ensures FinishInv(Do(s, st))
  {
    if st.Act? {
      if s.pool[st.thread].pc == Update {
        UpdateFinishInv(s, st.thread, st.k, st.to);
      } else {
        ActFinishInv(s, st.thread, st.k, st.to);
      }
    } else if st.Take? {
      TakeFinishInv(s, st.thread);
    } else if st.Rebuild? {
      RebuildFinishInv(s, st.limit);
    } else if st.Crash? {
      CrashFinishInv(s, st.image, st.maxC);
    } else {
      OtherFinishInv(s, st);
    }
  }

  // ---------------------------------------------------------------------------
  // The disk lock.

  lemma StepLocks(s: World, st: Step)
    requires LockInv(s) && Enabled(s, st)
    ensures LockInv(Do(s, st))
  {
    if st.Act? {
      ActLocks(s, st.thread, st.k, st.to);
    }
  }

  /** Taking and dropping the lock go with entering and leaving a store. */
  predicate TakesLock(store: Option<StoreOp>, f: Effect)
  {
    (f.side.Lock? <==> Storing(f.x.pc)) && (f.side.Lock? ==> store.None?)
  }

  predicate DropsLock(store: Option<StoreOp>, t: nat, x: Worker, f: Effect)
  {
    && (f.side.CommitStore? <==> Storing(x.pc))
    && (f.side.CommitStore? ==> store.Some? && store.value.owner == Some(t))
  }

  predicate MovesLock(store: Option<StoreOp>, t: nat, x: Worker, f: Effect)
  {
    TakesLock(store, f) && DropsLock(store, t, x, f)
  }

  lemma EnteringLocks(s: World, t: nat, k: nat, to: Pc)
    requires ActEnabled(s, t, k, to) && Entering(s.pool[t].pc)
    ensures MovesLock(s.store, t, s.pool[t], ActOf(s, t, k, to))
  {
  }

  lemma StreamingLocks(s: World, t: nat, k: nat, to: Pc)
    requires ActEnabled(s, t, k, to) && Streaming(s.pool[t].pc)
    ensures MovesLock(s.store, t, s.pool[t], ActOf(s, t, k, to))
  {
  }

  lemma ReportingLocks(s: World, t: nat, k: nat, to: Pc)
    requires ActEnabled(s, t, k, to) && Reporting(s.pool[t].pc)
    ensures MovesLock(s.store, t, s.pool[t], ActOf(s, t, k, to))
  {
  }

  lemma LeavingLocks(s: World, t: nat, k: nat, to: Pc)
    requires ActEnabled(s, t, k, to) && Leaving(s.pool[t].pc)
    ensures MovesLock(s.store, t, s.pool[t], ActOf(s, t, k, to))
  {
  }

  lemma ActLock(s: World, t: nat, k: nat, to: Pc)
    requires ActEnabled(s, t, k, to)
    ensures MovesLock(s.store, t, s.pool[t], ActOf(s, t, k, to))
  {
    FourClasses(s.pool[t].pc);
    if Entering(s.pool[t].pc) {
      EnteringLocks(s, t, k, to);
    } else if Streaming(s.pool[t].pc) {
      StreamingLocks(s, t, k, to);
    } else if Reporting(s.pool[t].pc) {
      ReportingLocks(s, t, k, to);
    } else {
      LeavingLocks(s, t, k, to);
    }
  }

  lemma MovesLockInv(s: World, t: nat, f: Effect)
    requires LockInv(s) && t < |s.pool| && MovesLock(s.store, t, s.pool[t], f)
    ensures LockInv(Apply(s, t, f))
  {
  }

  lemma ActLocks(s: World, t: nat, k: nat, to: Pc)
    requires LockInv(s) && ActEnabled(s, t, k, to)
    ensures LockInv(DoAct(s, t, k, to))
  {
    ActLock(s, t, k, to);
    MovesLockInv(s, t, ActOf(s, t, k, to));
  }

  // ---------------------------------------------------------------------------
  // Bounded loss.

  lemma LossTots(pool: seq<Worker>, t: nat, x: Worker)
    requires t < |pool|
    ensures Tot(pool[t := x], UncountedW) == Tot(pool, UncountedW) - UncountedW(pool[t]) + UncountedW(x)
    ensures Tot(pool[t := x], StoreW) == Tot(pool, StoreW) - StoreW(pool[t]) + StoreW(x)
  {
    TotUpdate(pool, UncountedW, t, x);
    TotUpdate(pool, StoreW, t, x);
  }

  /** What the unsaved add does. */
  predicate AddsUnsaved(e: Engine, locked: bool, x: Worker, f: Effect)
  {
    x.pc == UnsavedAdd ==>
      && !locked && f.e.unsaved == e.unsaved + |x.data|
      && UncountedW(f.x) == 0 && (f.e.unsaved < STORE_EVERY || StoreW(f.x) == 1)
  }

  /** All other steps, away from updates and commits, leave the counter alone. */
  predicate KeepsUnsaved(e: Engine, x: Worker, f: Effect)
  {
    x.pc != UnsavedAdd ==>
      && f.e.unsaved == e.unsaved
      && (f.x.pc == StoreWait || f.x.pc == StoreHeld <==> x.pc == StoreWait)
      && (f.x.pc == UnsavedAdd <==> x.pc == TotalAdd)
      && (x.pc == TotalAdd ==> f.x.data == x.data)
      && f.x.pc != TotalAdd
  }

  lemma ActAddsUnsaved(s: World, t: nat, k: nat, to: Pc)
    requires ActEnabled(s, t, k, to)
    ensures AddsUnsaved(s.e, s.store.Some?, s.pool[t], ActOf(s, t, k, to))
  {
  }

  lemma EnteringUnsaved(s: World, t: nat, k: nat, to: Pc)
    requires ActEnabled(s, t, k, to) && Entering(s.pool[t].pc) && s.pool[t].pc != Update && !Storing(s.pool[t].pc)
    ensures KeepsUnsaved(s.e, s.pool[t], ActOf(s, t, k, to))
  {
  }

  lemma StreamingUnsaved(s: World, t: nat, k: nat, to: Pc)
    requires ActEnabled(s, t, k, to) && Streaming(s.pool[t].pc) && s.pool[t].pc != Update && !Storing(s.pool[t].pc)
    ensures KeepsUnsaved(s.e, s.pool[t], ActOf(s, t, k, to))
  {
  }

  lemma ReportingUnsaved(s: World, t: nat, k: nat, to: Pc)
    requires ActEnabled(s, t, k, to) && Reporting(s.pool[t].pc) && s.pool[t].pc != Update && !Storing(s.pool[t].pc)
    ensures KeepsUnsaved(s.e, s.pool[t], ActOf(s, t, k, to))
  {
  }

  lemma LeavingUnsaved(s: World, t: nat, k: nat, to: Pc)
    requires ActEnabled(s, t, k, to) && Leaving(s.pool[t].pc) && s.pool[t].pc != Update && !Storing(s.pool[t].pc)
    ensures KeepsUnsaved(s.e, s.pool[t], ActOf(s, t, k, to))
  {
  }

  lemma ActKeepsUnsaved(s: World, t: nat, k: nat, to: Pc)
    requires ActEnabled(s, t, k, to) && s.pool[t].pc != Update && !Storing(s.pool[t].pc)
    ensures KeepsUnsaved(s.e, s.pool[t], ActOf(s, t, k, to))
  {
    FourClasses(s.pool[t].pc);
    if Entering(s.pool[t].pc) {
      EnteringUnsaved(s, t, k, to);
    } else if Streaming(s.pool[t].pc) {
      StreamingUnsaved(s, t, k, to);
    } else if Reporting(s.pool[t].pc) {
      ReportingUnsaved(s, t, k, to);
    } else {
      LeavingUnsaved(s, t, k, to);
    }
  }

  /** Away from updates and commits, the uncounted bytes, the unsaved counter and
      the workers about to store move together. */
  lemma MovesLossTots(s: World, t: nat, f: Effect)
    requires t < |s.pool| && s.pool[t].pc != StoreHeld
    requires AddsUnsaved(s.e, s.store.Some?, s.pool[t], f) && KeepsUnsaved(s.e, s.pool[t], f)
    requires s.pool[t].pc == UnsavedAdd ==> |s.pool[t].data| <= BUFFER_SIZE
    ensures s.pool[t].pc == UnsavedAdd ==> s.store.None?
    ensures f.e.unsaved >= s.e.unsaved
    ensures s.pool[t].pc != UnsavedAdd ==> f.e.unsaved == s.e.unsaved
    ensures f.e.unsaved + Tot(s.pool[t := f.x], UncountedW) == s.e.unsaved + Tot(s.pool, UncountedW)
    ensures f.e.unsaved <= s.e.unsaved + BUFFER_SIZE
    ensures Tot(s.pool[t := f.x], StoreW) >= Tot(s.pool, StoreW)
    ensures f.e.unsaved != s.e.unsaved && f.e.unsaved >= STORE_EVERY ==>
              Tot(s.pool[t := f.x], StoreW) == Tot(s.pool, StoreW) + 1
  {
    LossTots(s.pool, t, f.x);
  }

  lemma LossCarries(s: World, s': World)
    requires LossInv(s)
    requires s'.w.chunks == s.w.chunks && s'.last == s.last && s'.h.base == s.h.base
    requires s'.store == s.store || (s'.store.Some? && s'.store.value.snap == [])
    requires s'.e.unsaved + Tot(s'.pool, UncountedW) == s.e.unsaved + Tot(s.pool, UncountedW)
    requires s'.e.unsaved >= s.e.unsaved
    requires s'.e.unsaved == s.e.unsaved || s.store.None?
    requires s'.store.Some? && s.store.None? ==> s'.e.unsaved == s.e.unsaved
    requires s'.e.unsaved <= s.e.unsaved + BUFFER_SIZE
    requires Tot(s'.pool, StoreW) >= Tot(s.pool, StoreW)
    requires s'.e.unsaved != s.e.unsaved && s'.e.unsaved >= STORE_EVERY ==>
              Tot(s'.pool, StoreW) == Tot(s.pool, StoreW) + 1
    ensures LossInv(s')
  {
  }

  /** What `Apply` leaves alone when no store ends. */
  lemma ApplyLoss(s: World, t: nat, f: Effect)
    requires t < |s.pool| && !f.side.CommitStore?
    ensures var s' := Apply(s, t, f);
            && s'.pool == s.pool[t := f.x] && s'.e == f.e && s'.last == s.last && s'.h.base == s.h.base
            && (if f.side.Lock? then s'.store.Some? && s'.store.value.snap == [] else s'.store == s.store)
  {
  }

  lemma UnsavedLossInv(s: World, t: nat, k: nat, to: Pc)
    requires DataInv(s) && LossInv(s) && ActEnabled(s, t, k, to)
    requires s.pool[t].pc != Update && !Storing(s.pool[t].pc)
    ensures LossInv(DoAct(s, t, k, to))
  {
    var f := ActOf(s, t, k, to);
    assert WorkerOk(s.remote, s.file, s.w, s.pool[t]);
    ActAddsUnsaved(s, t, k, to);
    ActKeepsUnsaved(s, t, k, to);
    ActChunks(s, t, k, to);
    ActLock(s, t, k, to);
    MovesLossTots(s, t, f);
    ApplyLoss(s, t, f);
    LossCarries(s, Apply(s, t, f));
  }

  lemma UpdateLossInv(s: World, t: nat, k: nat, to: Pc)
    requires DataInv(s) && LossInv(s) && ActEnabled(s, t, k, to)
    requires s.pool[t].pc == Update
    ensures LossInv(DoAct(s, t, k, to))
  {
    var s' := DoAct(s, t, k, to);
    var c := ItemOf(s, s.pool[t]).chunk;
    FinishedUpdate(s.w.chunks, c, s'.w.chunks[c], |s.w.chunks|);
    if s.store.Some? {
      FinishedUpdate(s.w.chunks, c, s'.w.chunks[c], |s.store.value.snap|);
    }
    LossTots(s.pool, t, s'.pool[t]);
  }

  lemma CommitLossInv(s: World, t: nat, k: nat, to: Pc)
    requires LossInv(s) && ActEnabled(s, t, k, to) && Storing(s.pool[t].pc)
    ensures LossInv(DoAct(s, t, k, to))
  {
    LossTots(s.pool, t, DoAct(s, t, k, to).pool[t]);
  }

  lemma ReceivedAppend(cs: seq<Chunk>, c: Chunk)
    ensures ReceivedSum(cs + [c]) == ReceivedSum(cs) + c.received
  {
    ReceivedPrefix(cs, cs + [c], |cs|);
  }

  lemma SnapLossInv(s: World)
    requires LossInv(s) && Enabled(s, Snap)
    ensures LossInv(Do(s, Snap))
  {
    var n := |s.store.value.snap|;
    ReceivedAppend(s.store.value.snap, s.w.chunks[n]);
    assert ReceivedUpTo(s.w.chunks, n + 1) == ReceivedUpTo(s.w.chunks, n) + s.w.chunks[n].received;
  }

  lemma {:induction false} ReceivedPrefix(cs: seq<Chunk>, ds: seq<Chunk>, i: nat)
    requires i <= |cs| && cs <= ds
    ensures ReceivedUpTo(ds, i) == ReceivedUpTo(cs, i)
  {
    if i > 0 { ReceivedPrefix(cs, ds, i - 1); }
  }

  lemma ActLoses(s: World, t: nat, k: nat, to: Pc)
    requires DataInv(s) && LossInv(s) && ActEnabled(s, t, k, to)
    ensures LossInv(DoAct(s, t, k, to))
  {
    if s.pool[t].pc == Update {
      UpdateLossInv(s, t, k, to);
    } else if Storing(s.pool[t].pc) {
      CommitLossInv(s, t, k, to);
    } else {
      UnsavedLossInv(s, t, k, to);
    }
  }

  lemma CrashLossInv(s: World, st: Step)
    requires Enabled(s, st) && st.Crash?
    ensures LossInv(Do(s, st))
  {
    TotIdle(Do(s, st).pool, UncountedW);
    TotIdle(Do(s, st).pool, StoreW);
  }

  lemma OtherLossInv(s: World, st: Step)
    requires LossInv(s) && Enabled(s, st)
    requires !st.Act? && !st.Take? && !st.Snap? && !st.Crash?
    ensures LossInv(Do(s, st))
  {
    assert Do(s, st).pool == s.pool && Do(s, st).w.chunks == s.w.chunks;
  }

  lemma StepLoses(s: World, st: Step)
    requires DataInv(s) && LossInv(s) && Enabled(s, st)
    ensures LossInv(Do(s, st))
  {
    if st.Act? {
      ActLoses(s, st.thread, st.k, st.to);
    } else if st.Take? {
      LossTots(s.pool, st.thread, IDLE.(pc := Taken));
    } else if st.Snap? {
      SnapLossInv(s);
    } else if st.Crash? {
      CrashLossInv(s, st);
    } else {
      OtherLossInv(s, st);
    }
  }

  /** The workers between update and count, and those about to store, are
      different threads. */
  lemma {:induction false} LossWeights(remote: seq<byte>, file: seq<byte>, w: Work, pool: seq<Worker>)
    requires forall t :: 0 <= t < |pool| ==> WorkerOk(remote, file, w, pool[t])
    ensures Tot(pool, UncountedW) + BUFFER_SIZE * Tot(pool, StoreW) <= BUFFER_SIZE * |pool|
  {
    if pool != [] {
      var n := |pool| - 1;
      assert WorkerOk(remote, file, w, pool[n]);
      forall t | 0 <= t < |pool[..n]|
        ensures WorkerOk(remote, file, w, pool[..n][t])
      {
        assert WorkerOk(remote, file, w, pool[t]);
      }
      LossWeights(remote, file, w, pool[..n]);
    }
  }
}
