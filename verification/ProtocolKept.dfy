/** The main guarantee: Completed means that the output file is the remote file;
    and exactly which Cancel calls can take that file away again. */
module ProtocolKept {
  import opened Basics
  import opened Chunks
  import opened EngineSpec
  import opened Protocol
  import opened ProtocolData
  import opened ProtocolCounts
  import opened ProtocolRuns
  import opened ProtocolCancel

  // ---------------------------------------------------------------------------
  // Who may remove the output file.

  /** The output file is gone, or somebody is on the way to remove it. */
  ghost predicate Removing(s: World)
  {
    s.outputRemoved || (!s.e.cleaned && (s.cancel == CancelZero || Someone(s.pool, CloseClean)))
  }

  predicate Finishing(pc: Pc) { pc == FinalStore || pc == FinalHeld || pc == FinalClean }

  /** A removal belongs to a canceled engine that no worker is about to force to
      Completed; a completed engine that is not cleaned has its completing worker. */
  ghost predicate KeptInv(s: World)
  {
    && (Removing(s) ==> s.e.state == Canceled && !Someone(s.pool, ForceDone))
    && (s.e.state == Canceled && Someone(s.pool, CloseCheck) ==> !Someone(s.pool, ForceDone))
    && (s.e.state == Completed && !s.e.cleaned ==> exists t :: 0 <= t < |s.pool| && Finishing(s.pool[t].pc))
  }

  /** What a Cancel call has to find: no thread is between dropping the last
      connection and loading the state, or no worker is about to force Completed. */
  ghost predicate CancelKeeps(s: World)
  {
    !(Someone(s.pool, CloseCheck) && Someone(s.pool, ForceDone))
  }

  // ---------------------------------------------------------------------------
  // Preservation.

  /** How a worker's step touches the program counters of the third clause. */
  predicate MovesFinishing(e: Engine, x: Worker, f: Effect)
  {
    && (f.e.state == Completed && e.state != Completed ==> f.x.pc == FinalStore)
    && (Finishing(x.pc) ==> Finishing(f.x.pc) || f.e.cleaned)
  }

  lemma ActFinishing(s: World, t: nat, k: nat, to: Pc)
    requires ActEnabled(s, t, k, to)
    ensures MovesFinishing(s.e, s.pool[t], ActOf(s, t, k, to))
  {
  }

  /** How a worker's step touches what decides about the file. */
  predicate MovesForcing(s: World, x: Worker, f: Effect)
  {
    && MovesPromoting(s.e, x, f) && MovesCanceled(s.e, x, f) && MovesClosing(s, x, f) && MovesTerminal(s, f)
    && MovesCleaned(s, x, f) && (f.side == Clean(true) ==> x.pc == CloseClean)
  }

  lemma ActForces(s: World, t: nat, k: nat, to: Pc)
    requires ActEnabled(s, t, k, to)
    ensures MovesForcing(s, s.pool[t], ActOf(s, t, k, to))
  {
    ActPromotes(s, t, k, to);
    ActCanceled(s, t, k, to);
    ActMoves(s, t, k, to, ActOf(s, t, k, to));
    if ActOf(s, t, k, to).side == Clean(true) { ActRemoves(s, t, k, to); }
  }

  /** The last connection is not closed while a worker is about to force. */
  lemma ForcerIsOpen(s: World, t: nat)
    requires AccountInv(s) && t < |s.pool| && s.pool[t].pc == CloseConn && s.e.conns == 1
    ensures !Someone(s.pool, ForceDone)
  {
    if Someone(s.pool, ForceDone) {
      var u :| 0 <= u < |s.pool| && s.pool[u].pc == ForceDone;
      if u < t { TotPair(s.pool, OpenW, u, t); } else { TotPair(s.pool, OpenW, t, u); }
    }
  }

  lemma FinishingStays(s: World, t: nat, f: Effect)
    requires KeptInv(s) && t < |s.pool| && (f.side.CommitStore? ==> s.store.Some?)
    requires MovesFinishing(s.e, s.pool[t], f) && MovesCleaned(s, s.pool[t], f)
    ensures var s' := Apply(s, t, f);
            s'.e.state == Completed && !s'.e.cleaned ==> exists u :: 0 <= u < |s'.pool| && Finishing(s'.pool[u].pc)
  {
    var s' := Apply(s, t, f);
    if s'.e.state == Completed && !s'.e.cleaned {
      assert s'.pool[t] == f.x;
      if s.e.state == Completed && !Finishing(f.x.pc) {
        var u :| 0 <= u < |s.pool| && Finishing(s.pool[u].pc);
        assert s'.pool[u] == s.pool[u];
      }
    }
  }

  lemma RemovingStays(s: World, t: nat, f: Effect)
    requires KeptInv(s) && t < |s.pool| && (f.side.CommitStore? ==> s.store.Some?)
    requires MovesForcing(s, s.pool[t], f)
    ensures var s' := Apply(s, t, f);
            Removing(s') ==> s'.e.state == Canceled && !Someone(s'.pool, ForceDone)
  {
    SomeoneStays(s.pool, t, f.x, ForceDone);
    SomeoneStays(s.pool, t, f.x, CloseClean);
    assert Someone(s.pool, s.pool[t].pc);
  }

  lemma CheckStays(s: World, t: nat, f: Effect)
    requires KeptInv(s) && t < |s.pool| && (f.side.CommitStore? ==> s.store.Some?)
    requires MovesForcing(s, s.pool[t], f)
    requires s.pool[t].pc == CloseConn && s.e.conns == 1 ==> !Someone(s.pool, ForceDone)
    ensures var s' := Apply(s, t, f);
            s'.e.state == Canceled && Someone(s'.pool, CloseCheck) ==> !Someone(s'.pool, ForceDone)
  {
    SomeoneStays(s.pool, t, f.x, ForceDone);
    SomeoneStays(s.pool, t, f.x, CloseCheck);
    assert Someone(s.pool, s.pool[t].pc);
  }

  lemma KeptEffect(s: World, t: nat, f: Effect)
    requires KeptInv(s) && t < |s.pool| && (f.side.CommitStore? ==> s.store.Some?)
    requires MovesForcing(s, s.pool[t], f) && MovesFinishing(s.e, s.pool[t], f)
    requires s.pool[t].pc == CloseConn && s.e.conns == 1 ==> !Someone(s.pool, ForceDone)
    ensures KeptInv(Apply(s, t, f))
  {
    FinishingStays(s, t, f);
    RemovingStays(s, t, f);
    CheckStays(s, t, f);
  }

  lemma ActKeepsKept(s: World, t: nat, k: nat, to: Pc)
    requires AccountInv(s) && KeptInv(s) && ActEnabled(s, t, k, to)
    ensures KeptInv(DoAct(s, t, k, to))
  {
    ActForces(s, t, k, to);
    ActFinishing(s, t, k, to);
    if s.pool[t].pc == CloseConn && s.e.conns == 1 { ForcerIsOpen(s, t); }
    KeptEffect(s, t, ActOf(s, t, k, to));
  }

  lemma TakeKeepsFinishing(s: World, t: nat)
    requires Enabled(s, Take(t)) && exists u :: 0 <= u < |s.pool| && Finishing(s.pool[u].pc)
    ensures exists u :: 0 <= u < |Do(s, Take(t)).pool| && Finishing(Do(s, Take(t)).pool[u].pc)
  {
    var u :| 0 <= u < |s.pool| && Finishing(s.pool[u].pc);
    assert Do(s, Take(t)).pool[u] == s.pool[u];
  }

  lemma TakeKeepsKept(s: World, t: nat)
    requires KeptInv(s) && Enabled(s, Take(t))
    ensures KeptInv(Do(s, Take(t)))
  {
    var x := IDLE.(pc := Taken);
    SomeoneStays(s.pool, t, x, ForceDone);
    SomeoneStays(s.pool, t, x, CloseClean);
    SomeoneStays(s.pool, t, x, CloseCheck);
    if s.e.state == Completed && !s.e.cleaned { TakeKeepsFinishing(s, t); }
  }

  /** With no connection open nobody is about to force, and no completing worker is
      before its cleanup. */
  lemma NobodyForces(s: World)
    requires AccountInv(s) && s.e.conns == 0
    ensures forall t :: 0 <= t < |s.pool| ==> s.pool[t].pc != ForceDone && !Finishing(s.pool[t].pc)
  {
    TotZero(s.pool, OpenW);
    forall t | 0 <= t < |s.pool|
      ensures s.pool[t].pc != ForceDone && !Finishing(s.pool[t].pc)
    {
      assert OpenW(s.pool[t]) == 0;
    }
  }

  lemma OutsideKeepsKept(s: World, st: Step)
    requires CleanInv(s) && KeptInv(s) && Enabled(s, st) && Outside(st)
    requires st.CancelSet? ==> CancelKeeps(s)
    requires st.CancelLoad? && s.e.conns == 0 ==>
               forall t :: 0 <= t < |s.pool| ==> s.pool[t].pc != ForceDone && !Finishing(s.pool[t].pc)
    ensures KeptInv(Do(s, st))
  {
    OutsidePool(s, st);
  }

  lemma StepKeepsKept(s: World, st: Step)
    requires AccountInv(s) && CleanInv(s) && KeptInv(s) && Enabled(s, st)
    requires st.CancelSet? ==> CancelKeeps(s)
    ensures KeptInv(Do(s, st))
  {
    if st.Act? {
      ActKeepsKept(s, st.thread, st.k, st.to);
    } else if st.Take? {
      TakeKeepsKept(s, st.thread);
    } else if st.Crash? {
      CrashIsKept(s, st);
    } else {
      if st.CancelLoad? && s.e.conns == 0 { NobodyForces(s); }
      OutsideKeepsKept(s, st);
    }
  }

  lemma CrashIsKept(s: World, st: Step)
    requires Enabled(s, st) && st.Crash?
    ensures KeptInv(Do(s, st))
  {
  }

  // ---------------------------------------------------------------------------
  // Runs.

  /** Every Cancel of the run finds what it has to find. */
  ghost predicate KeepingCancels(s: World, steps: seq<Step>)
    requires Legal(s, steps)
    decreases |steps|
  {
    steps == [] || ((steps[0].CancelSet? ==> CancelKeeps(s)) && KeepingCancels(Do(s, steps[0]), steps[1..]))
  }

  /** The output file of a completed engine is there. */
  ghost predicate FileKept(s: World) { s.e.state == Completed ==> !s.outputRemoved }

  lemma KeptStays(s: World, st: Step)
    requires Inv(s) && CleanInv(s) && KeptInv(s) && Enabled(s, st)
    requires st.CancelSet? ==> CancelKeeps(s)
    ensures Inv(Do(s, st)) && CleanInv(Do(s, st)) && KeptInv(Do(s, st))
  {
    InvStep(s, st);
    StepKeepsClean(s, st);
    StepKeepsKept(s, st);
  }

  lemma {:induction false} KeptRun(s: World, steps: seq<Step>)
    requires Inv(s) && CleanInv(s) && KeptInv(s) && Legal(s, steps) && KeepingCancels(s, steps)
    ensures KeptInv(Run(s, steps)) && FileKept(Run(s, steps))
    decreases |steps|
  {
    if steps != [] {
      KeptStays(s, steps[0]);
      KeptRun(Do(s, steps[0]), steps[1..]);
    }
  }

  lemma KeptStart(remote: seq<byte>, file: seq<byte>, cs: seq<Chunk>, threads: nat, maxC: int)
    ensures KeptInv(Start(remote, file, cs, threads, maxC))
  {
  }

  lemma CompletedBytes(s: World, steps: seq<Step>)
    requires Inv(s) && Legal(s, steps) && Run(s, steps).e.state == Completed
    ensures Run(s, steps).file == s.remote && Run(s, steps).e.total == |s.remote|
  {
    InvRun(s, steps);
    RemoteStays(s, steps);
    CompletedFile(Run(s, steps));
  }

  /** In every run of every job, with any interleaving of workers, controller,
      pauses, failures, cancels, resumes and restarts: when the state is
      Completed, the bytes of the output file are the remote file and the total
      is its size; and the output file has not been removed, when no Cancel came
      between a closing thread's two loads and a forced completion. */
  lemma CompletedMeansDownloaded(remote: seq<byte>, file: seq<byte>, cs: seq<Chunk>, threads: nat, maxC: int,
                                 steps: seq<Step>)
    requires FreshJob(remote, file, cs, threads, maxC)
    requires Legal(Start(remote, file, cs, threads, maxC), steps)
    ensures var s := Run(Start(remote, file, cs, threads, maxC), steps);
            s.e.state == Completed ==> s.file == remote && s.e.total == |remote|
    ensures KeepingCancels(Start(remote, file, cs, threads, maxC), steps) ==>
              FileKept(Run(Start(remote, file, cs, threads, maxC), steps))
  {
    var s0 := Start(remote, file, cs, threads, maxC);
    InvStart(remote, file, cs, threads, maxC);
    if Run(s0, steps).e.state == Completed { CompletedBytes(s0, steps); }
    if KeepingCancels(s0, steps) {
      CleanStart(remote, file, cs, threads, maxC);
      KeptStart(remote, file, cs, threads, maxC);
      KeptRun(s0, steps);
    }
  }

  /** A process that has just loaded an image. */
  lemma LoadedIsKept(s: World, st: Step)
    requires Inv(s) && Enabled(s, st) && st.Crash?
    ensures Inv(Do(s, st)) && CleanInv(Do(s, st)) && KeptInv(Do(s, st))
  {
    InvStep(s, st);
    CrashIsClean(s, st);
    CrashIsKept(s, st);
  }

  /** The image is one of those of the later state, whose file it still matches. */
  lemma ImageStays(s: World, between: seq<Step>, i: nat)
    requires Inv(s) && i < |s.images| && Legal(s, between)
    ensures Inv(Run(s, between)) && i < |Run(s, between).images| && Run(s, between).images[i] == s.images[i]
    ensures Run(s, between).remote == s.remote && SafeChunks(Run(s, between).file, s.remote, s.images[i])
  {
    InvRun(s, between);
    ImagesGrow(s, between);
    RemoteStays(s, between);
    assert s.images[i] == Run(s, between).images[i];
  }

  /** Crash safety: an image stored at some point of a run can be loaded after any
      further steps `between`; the new process again keeps all invariants, and
      whatever it does then, Completed means downloaded, and kept as above. */
  lemma StaleImageIsSafe(s: World, between: seq<Step>, i: nat, maxC: int, after: seq<Step>)
    requires Inv(s) && i < |s.images|
    requires Legal(s, between) && !Run(s, between).outputRemoved && maxC >= 1
    requires Legal(Reloaded(Run(s, between), s.images[i], maxC), after)
    ensures SafeChunks(Run(s, between).file, s.remote, s.images[i])
    ensures var loaded := Reloaded(Run(s, between), s.images[i], maxC);
            && Inv(loaded)
            && (Run(loaded, after).e.state == Completed ==> Run(loaded, after).file == s.remote)
            && (KeepingCancels(loaded, after) ==> FileKept(Run(loaded, after)))
  {
    ImageStays(s, between, i);
    LoadedIsKept(Run(s, between), Crash(i, maxC));
    var loaded := Reloaded(Run(s, between), s.images[i], maxC);
    if Run(loaded, after).e.state == Completed { CompletedBytes(loaded, after); }
    if KeepingCancels(loaded, after) { KeptRun(loaded, after); }
  }

  // ---------------------------------------------------------------------------
  // Exactly which Cancel can take the file of a completed job.

  lemma {:induction false} TerminalRunKeeps(s: World, steps: seq<Step>)
    requires Legal(s, steps) && NoCrash(steps) && Terminal(s.e.state)
    ensures KeepingCancels(s, steps)
    decreases |steps|
  {
    if steps != [] {
      TerminalStays(s, steps[0]);
      TerminalRunKeeps(Do(s, steps[0]), steps[1..]);
    }
  }

  lemma CancelIsKept(s: World, s1: World)
    requires CleanInv(s) && Enabled(s, CancelSet) && !s.outputRemoved && CancelKeeps(s) && s1 == Do(s, CancelSet)
    ensures KeptInv(s1) && Terminal(s1.e.state)
  {
    assert s1.pool == s.pool;
  }

  lemma KeepingCancelKeeps(s: World, steps: seq<Step>)
    requires Inv(s) && CleanInv(s) && Enabled(s, CancelSet) && !s.outputRemoved && CancelKeeps(s)
    requires Legal(Do(s, CancelSet), steps) && NoCrash(steps)
    ensures FileKept(Run(Do(s, CancelSet), steps))
  {
    var s1 := Do(s, CancelSet);
    CancelStaysInvariant(s, s1);
    CancelIsKept(s, s1);
    TerminalRunKeeps(s1, steps);
    KeptRun(s1, steps);
  }

  /** Thread `a` is about to clean up while thread `b` is about to force Completed. */
  ghost predicate Racing(s: World, a: nat, b: nat)
  {
    && s.e.state == Canceled && !s.e.cleaned
    && a < |s.pool| && s.pool[a].pc == CloseClean
    && b < |s.pool| && s.pool[b].pc == ForceDone
  }

  lemma LoadEffectRaces(s: World, a: nat, b: nat, st: Step)
    requires s.e.state == Canceled && !s.e.cleaned && st == Act(a, 0, Idle)
    requires a < |s.pool| && s.pool[a].pc == CloseCheck
    requires b < |s.pool| && s.pool[b].pc == ForceDone
    ensures Enabled(s, st) && Racing(Do(s, st), a, b)
  {
    assert Do(s, st).pool[b] == s.pool[b];
  }

  lemma LoadRaces(s: World, a: nat, b: nat) returns (s': World, steps: seq<Step>)
    requires Inv(s) && s.e.state == Canceled && !s.e.cleaned
    requires a < |s.pool| && s.pool[a].pc == CloseCheck
    requires b < |s.pool| && s.pool[b].pc == ForceDone
    ensures Leads(s, steps, s') && NoCrash(steps) && Inv(s') && Racing(s', a, b)
  {
    var st := Act(a, 0, Idle);
    LoadEffectRaces(s, a, b, st);
    InvStep(s, st);
    LeadsStep(s, st);
    s', steps := Do(s, st), [st];
  }

  lemma NearRaces(s: World, s': World, a: nat, b: nat)
    requires Near(s, s') && Racing(s, a, b)
    ensures Racing(s', a, b)
  {
  }

  lemma RemovesFile(s: World, a: nat, b: nat)
    requires Racing(s, a, b) && s.store.None?
    ensures Enabled(s, Act(a, 0, Idle))
    ensures var mid := Do(s, Act(a, 0, Idle));
            mid.outputRemoved && mid.w == s.w && |mid.pool| == |s.pool| && mid.pool[b] == s.pool[b]
  {
  }

  lemma ForcesCompleted(s: World, b: nat)
    requires b < |s.pool| && s.pool[b].pc == ForceDone && ItemValid(s.w, s.pool[b])
    ensures Enabled(s, Act(b, 0, Idle))
    ensures Do(s, Act(b, 0, Idle)).e.state == Completed && Do(s, Act(b, 0, Idle)).outputRemoved == s.outputRemoved
  {
  }

  /** The closing thread removes the file; the other one then forces Completed. */
  lemma CleanedThenForced(s: World, a: nat, b: nat) returns (s': World, steps: seq<Step>)
    requires Inv(s) && Racing(s, a, b) && s.store.None?
    ensures Leads(s, steps, s') && NoCrash(steps) && !FileKept(s')
  {
    var first, second := Act(a, 0, Idle), Act(b, 0, Idle);
    assert WorkerOk(s.remote, s.file, s.w, s.pool[b]);
    RemovesFile(s, a, b);
    var mid := Do(s, first);
    LeadsStep(s, first);
    ForcesCompleted(mid, b);
    LeadsStep(mid, second);
    s' := Do(mid, second);
    steps := Joined(s, [first], mid, [second], s');
  }

  lemma RaceRun(s: World, a: nat, b: nat) returns (s': World, steps: seq<Step>)
    requires Inv(s) && Racing(s, a, b)
    ensures Leads(s, steps, s') && NoCrash(steps) && !FileKept(s')
  {
    var free, first := FreeLock(s);
    InvLeads(s, first, free);
    NearRaces(s, free, a, b);
    var last;
    s', last := CleanedThenForced(free, a, b);
    steps := Joined(s, first, free, last, s');
  }

  lemma InvLeads(s: World, steps: seq<Step>, s': World)
    requires Inv(s) && Leads(s, steps, s')
    ensures Inv(s')
  {
    InvRun(s, steps);
  }

  lemma LosingRun(s1: World, a: nat, b: nat) returns (s': World, steps: seq<Step>)
    requires Inv(s1) && s1.e.state == Canceled && !s1.e.cleaned
    requires a < |s1.pool| && s1.pool[a].pc == CloseCheck
    requires b < |s1.pool| && s1.pool[b].pc == ForceDone
    ensures Leads(s1, steps, s') && NoCrash(steps) && !FileKept(s')
  {
    var mid, first := LoadRaces(s1, a, b);
    var rest;
    s', rest := RaceRun(mid, a, b);
    steps := Joined(s1, first, mid, rest, s');
  }

  lemma CancelRaces(s: World, s1: World)
    requires CleanInv(s) && Enabled(s, CancelSet) && s1 == Do(s, CancelSet)
    ensures s1.e.state == Canceled && !s1.e.cleaned && s1.pool == s.pool
  {
  }

  /** Every other Cancel has a continuation that ends Completed without the file. */
  lemma LosingCancelHappens(s: World) returns (steps: seq<Step>)
    requires Inv(s) && CleanInv(s) && Enabled(s, CancelSet) && !CancelKeeps(s)
    ensures Legal(Do(s, CancelSet), steps) && NoCrash(steps)
    ensures !FileKept(Run(Do(s, CancelSet), steps))
  {
    var a :| 0 <= a < |s.pool| && s.pool[a].pc == CloseCheck;
    var b :| 0 <= b < |s.pool| && s.pool[b].pc == ForceDone;
    InvStep(s, CancelSet);
    CancelRaces(s, Do(s, CancelSet));
    var s';
    s', steps := LosingRun(Do(s, CancelSet), a, b);
  }

  /** In any reachable state in which Cancel can take effect and the output file is
      there: on every continuation up to a restart Completed means that the file
      is there, if and only if `CancelKeeps` holds when Cancel sets the state. */
  lemma CancelKeepsExactly(s: World)
    requires Inv(s) && CleanInv(s) && Enabled(s, CancelSet) && !s.outputRemoved
    ensures CancelKeeps(s) <==>
            forall steps :: Legal(Do(s, CancelSet), steps) && NoCrash(steps) ==> FileKept(Run(Do(s, CancelSet), steps))
  {
    if CancelKeeps(s) {
      forall steps | Legal(Do(s, CancelSet), steps) && NoCrash(steps)
        ensures FileKept(Run(Do(s, CancelSet), steps))
      {
        KeepingCancelKeeps(s, steps);
      }
    } else {
      var steps := LosingCancelHappens(s);
      assert Legal(Do(s, CancelSet), steps);
    }
  }
}
