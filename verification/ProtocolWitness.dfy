/** How every job with two threads and two connections begins: the runs up to the
    second worker's first item. In one, the first worker leaves on a release
    token and drops the last connection, and has not yet loaded the state; a
    Cancel is then unsafe. In the other it is still at the outer loop. */
module ProtocolWitness {
  import opened Basics
  import opened Chunks
  import opened EngineSpec
  import opened Protocol
  import opened ProtocolData
  import opened ProtocolRuns
  import opened ProtocolCancel

  /** The part of the world that the run depends on. */
  datatype Scene = Scene(state: RunState, scheduled: int, conns: int, budget: int,
                         planned: nat, queued: nat, next: nat, pc0: Pc, pc1: Pc)

  /** The first item is of an unfinished chunk. */
  predicate FirstItemOpen(w: Work)
  {
    |w.pending| > 0 && w.pending[0].chunk < |w.chunks| && !w.chunks[w.pending[0].chunk].Finished()
  }

  ghost predicate Shows(s: World, c: Scene)
  {
    && s.e.state == c.state && s.e.scheduled == c.scheduled && s.e.conns == c.conns && s.e.budget == c.budget
    && s.planned == c.planned && s.queued == c.queued && FirstItemOpen(s.w) && s.w.next == c.next
    && |s.pool| >= 2 && s.pool[0].pc == c.pc0 && s.pool[1].pc == c.pc1
    && (Holds(c.pc0) ==> s.pool[0].item == 0) && (Holds(c.pc1) ==> s.pool[1].item == 0)
    && s.cancel == NoCancel && s.store.None? && !s.outputRemoved && s.h.generation > 0
  }

  function PcOf(c: Scene, t: nat): Pc { if t == 0 then c.pc0 else c.pc1 }

  function Standing(c: Scene, t: nat, pc: Pc): Scene
  {
    if t == 0 then c.(pc0 := pc) else c.(pc1 := pc)
  }

  predicate Plays(c: Scene, t: nat)
  {
    t < 2 &&
    match PcOf(c, t)
    case Taken | Promote | OuterRelease | CloseSched | CloseConn => c.scheduled > 0
    case Claim => c.next == 0
    case InnerRelease => c.budget == 0
    case InnerState | StreamTop => c.state == Downloading
    case _ => false
  }

  function Played(c: Scene, t: nat): Scene
    requires Plays(c, t)
  {
    match PcOf(c, t)
    case Taken => Standing(c, t, Promote).(conns := c.conns + 1)
    case Promote => Standing(c, t, OuterRelease).(state := if c.state == Queued then Downloading else c.state)
    case OuterRelease =>
      if c.budget > 0 then Standing(c, t, CloseSched).(budget := c.budget - 1) else Standing(c, t, Claim)
    case Claim => Standing(c, t, InnerRelease).(next := 1)
    case InnerRelease => Standing(c, t, InnerState)
    case InnerState => Standing(c, t, StreamTop)
    case StreamTop => Standing(c, t, Budget)
    case CloseSched => Standing(c, t, CloseConn).(scheduled := c.scheduled - 1)
    case CloseConn => Standing(c, t, if c.conns == 1 then CloseCheck else Idle).(conns := c.conns - 1)
    case _ => c
  }

  function Choice(pc: Pc): Pc { if pc == OuterRelease then Claim else Budget }

  lemma PlayStep(s: World, c: Scene, t: nat)
    requires Shows(s, c) && Plays(c, t)
    ensures ActEnabled(s, t, 0, Choice(PcOf(c, t)))
    ensures Shows(DoAct(s, t, 0, Choice(PcOf(c, t))), Played(c, t))
  {
    PlayEnabled(s, c, t);
    PlayEffect(s, c, t);
    EffectShows(s, c, t, ActOf(s, t, 0, Choice(PcOf(c, t))));
  }

  /** The scene's move is the worker's step. */
  ghost predicate PlaysAs(s: World, c: Scene, t: nat, f: Effect)
    requires Plays(c, t)
  {
    var c' := Played(c, t);
    && f.x.pc == PcOf(c', t) && (Holds(f.x.pc) ==> f.x.item == 0)
    && f.e.state == c'.state && f.e.scheduled == c'.scheduled && f.e.conns == c'.conns && f.e.budget == c'.budget
    && (f.side.Quiet? || f.side.NewWork?)
    && (f.side.NewWork? ==> f.side.w == s.w.(next := c'.next))
    && (f.side.Quiet? ==> c'.next == s.w.next)
  }

  lemma PlayEnabled(s: World, c: Scene, t: nat)
    requires Shows(s, c) && Plays(c, t)
    ensures ActEnabled(s, t, 0, Choice(PcOf(c, t)))
  {
  }

  lemma PlayEffect(s: World, c: Scene, t: nat)
    requires Shows(s, c) && Plays(c, t) && ActEnabled(s, t, 0, Choice(PcOf(c, t)))
    ensures PlaysAs(s, c, t, ActOf(s, t, 0, Choice(PcOf(c, t))))
  {
  }

  lemma EffectShows(s: World, c: Scene, t: nat, f: Effect)
    requires Shows(s, c) && Plays(c, t) && PlaysAs(s, c, t, f)
    ensures Shows(Apply(s, t, f), Played(c, t))
  {
    var s' := Apply(s, t, f);
    assert s'.pool[t] == f.x && s'.pool[1 - t] == s.pool[1 - t];
  }

  /** A run without a restart. */
  ghost predicate Peaceful(s: World, steps: seq<Step>) { Legal(s, steps) && NoCrash(steps) }

  lemma Extend(s: World, steps: seq<Step>, st: Step)
    requires Peaceful(s, steps) && Enabled(Run(s, steps), st) && !st.Crash?
    ensures Peaceful(s, steps + [st]) && Run(s, steps + [st]) == Do(Run(s, steps), st)
  {
    RunCons(Run(s, steps), st, []);
    assert [st] + [] == [st];
    LegalAppend(s, steps, [st], steps + [st]);
    RunAppend(s, steps, [st], steps + [st]);
  }

  lemma Play(s: World, steps: seq<Step>, c: Scene, t: nat) returns (more: seq<Step>)
    requires Peaceful(s, steps) && Shows(Run(s, steps), c) && Plays(c, t)
    ensures Peaceful(s, more) && Shows(Run(s, more), Played(c, t))
  {
    var st := Act(t, 0, Choice(PcOf(c, t)));
    PlayStep(Run(s, steps), c, t);
    Extend(s, steps, st);
    more := steps + [st];
  }

  lemma TakeStep(s: World, steps: seq<Step>, c: Scene, t: nat) returns (more: seq<Step>)
    requires Peaceful(s, steps) && Shows(Run(s, steps), c) && t < 2 && PcOf(c, t) == Idle && c.queued > 0
    ensures Peaceful(s, more) && Shows(Run(s, more), Standing(c, t, Taken).(queued := c.queued - 1))
  {
    Extend(s, steps, Take(t));
    more := steps + [Take(t)];
  }

  /** A fresh engine with nothing received. */
  ghost predicate Fresh(s: World)
  {
    && s.e == NewEngine(s.e.maxC) && s.e.maxC >= 2 && |s.pool| >= 2 && s.pool[0] == IDLE && s.pool[1] == IDLE
    && |s.w.chunks| > 0 && s.w.next == 0 && FinishedCount(s.w.chunks) == 0
    && s.planned == 0 && s.queued == 0 && s.resumes == 0 && s.cancel == NoCancel
    && s.store.None? && !s.outputRemoved
  }

  lemma RebuiltOpen(w: Work)
    requires |w.chunks| > 0 && FinishedCount(w.chunks) == 0
    ensures FirstItemOpen(Rebuilt(w)) && Rebuilt(w).next == 0
  {
    BuildShape(w.chunks, |w.chunks|);
    assert TailOf(w.chunks, Build(w.chunks)[0]);
  }

  ghost predicate Begun(s: World)
  {
    Shows(s, Scene(Queued, 2, 0, 0, 2, 0, 0, Idle, Idle)) && s.e.minC == 1 && s.e.maxC >= 2 && s.e.desired == 2
  }

  lemma FirstRebuild(s: World, s1: World)
    requires Fresh(s) && s1 == s.(e := s.e.(state := Queued), resumes := 1)
    ensures Enabled(s1, Rebuild(2)) && Begun(Do(s1, Rebuild(2)))
  {
    RebuiltOpen(s1.w);
  }

  /** Start the job: two workers are planned. */
  lemma Begin(s: World) returns (steps: seq<Step>)
    requires Fresh(s)
    ensures Peaceful(s, steps) && Begun(Run(s, steps))
  {
    var s1 := Do(s, ResumeSet);
    FirstRebuild(s, s1);
    LeadsStep(s, ResumeSet);
    LeadsStep(s1, Rebuild(2));
    LeadsOn(s, [ResumeSet], s1, [Rebuild(2)], Do(s1, Rebuild(2)));
    steps := [ResumeSet] + [Rebuild(2)];
  }

  lemma LowerStep(s: World, steps: seq<Step>, c: Scene) returns (more: seq<Step>)
    requires Peaceful(s, steps) && Shows(Run(s, steps), c) && c.budget == 0
    requires Run(s, steps).e.minC == 1 && Run(s, steps).e.maxC >= 2 && Run(s, steps).e.desired == 2
    ensures Peaceful(s, more) && Shows(Run(s, more), c.(budget := 1))
  {
    Extend(s, steps, SetDesiredTo(1));
    more := steps + [SetDesiredTo(1)];
  }

  lemma EnqueueStep(s: World, steps: seq<Step>, c: Scene) returns (more: seq<Step>)
    requires Peaceful(s, steps) && Shows(Run(s, steps), c) && c.planned > 0
    ensures Peaceful(s, more) && Shows(Run(s, more), c.(planned := c.planned - 1, queued := c.queued + 1))
  {
    Extend(s, steps, Enqueue);
    more := steps + [Enqueue];
  }

  /** The wanted count is lowered; the first worker opens, takes the token and
      closes the last connection: it is left between its two loads. */
  lemma FirstLeaves(s: World) returns (steps: seq<Step>)
    requires Fresh(s)
    ensures Peaceful(s, steps)
    ensures Shows(Run(s, steps), Scene(Downloading, 1, 0, 0, 0, 1, 0, CloseCheck, Idle))
  {
    steps := Begin(s);
    steps := LowerStep(s, steps, Scene(Queued, 2, 0, 0, 2, 0, 0, Idle, Idle));
    steps := EnqueueStep(s, steps, Scene(Queued, 2, 0, 1, 2, 0, 0, Idle, Idle));
    steps := EnqueueStep(s, steps, Scene(Queued, 2, 0, 1, 1, 1, 0, Idle, Idle));
    steps := TakeStep(s, steps, Scene(Queued, 2, 0, 1, 0, 2, 0, Idle, Idle), 0);
    steps := Play(s, steps, Scene(Queued, 2, 0, 1, 0, 1, 0, Taken, Idle), 0);
    steps := Play(s, steps, Scene(Queued, 2, 1, 1, 0, 1, 0, Promote, Idle), 0);
    steps := Play(s, steps, Scene(Downloading, 2, 1, 1, 0, 1, 0, OuterRelease, Idle), 0);
    steps := Play(s, steps, Scene(Downloading, 2, 1, 0, 0, 1, 0, CloseSched, Idle), 0);
    steps := Play(s, steps, Scene(Downloading, 1, 1, 0, 0, 1, 0, CloseConn, Idle), 0);
  }

  /** The second worker comes to its stream loop meanwhile. */
  lemma SecondArrives(s: World) returns (steps: seq<Step>)
    requires Fresh(s)
    ensures Peaceful(s, steps)
    ensures Shows(Run(s, steps), Scene(Downloading, 1, 1, 0, 0, 0, 1, CloseCheck, StreamTop))
  {
    steps := FirstLeaves(s);
    steps := TakeStep(s, steps, Scene(Downloading, 1, 0, 0, 0, 1, 0, CloseCheck, Idle), 1);
    steps := Play(s, steps, Scene(Downloading, 1, 0, 0, 0, 0, 0, CloseCheck, Taken), 1);
    steps := Play(s, steps, Scene(Downloading, 1, 1, 0, 0, 0, 0, CloseCheck, Promote), 1);
    steps := Play(s, steps, Scene(Downloading, 1, 1, 0, 0, 0, 0, CloseCheck, OuterRelease), 1);
    steps := Play(s, steps, Scene(Downloading, 1, 1, 0, 0, 0, 0, CloseCheck, Claim), 1);
    steps := Play(s, steps, Scene(Downloading, 1, 1, 0, 0, 0, 1, CloseCheck, InnerRelease), 1);
    steps := Play(s, steps, Scene(Downloading, 1, 1, 0, 0, 0, 1, CloseCheck, InnerState), 1);
  }

  /** And passes its state check. */
  lemma SecondPasses(s: World) returns (steps: seq<Step>)
    requires Fresh(s)
    ensures Peaceful(s, steps)
    ensures Shows(Run(s, steps), Scene(Downloading, 1, 1, 0, 0, 0, 1, CloseCheck, Budget))
  {
    steps := SecondArrives(s);
    steps := Play(s, steps, Scene(Downloading, 1, 1, 0, 0, 0, 1, CloseCheck, StreamTop), 1);
  }

  /** Without the token the first worker waits at the outer loop. */
  lemma FirstWaits(s: World) returns (steps: seq<Step>)
    requires Fresh(s)
    ensures Peaceful(s, steps)
    ensures Shows(Run(s, steps), Scene(Downloading, 2, 1, 0, 0, 1, 0, OuterRelease, Idle))
  {
    steps := Begin(s);
    steps := EnqueueStep(s, steps, Scene(Queued, 2, 0, 0, 2, 0, 0, Idle, Idle));
    steps := EnqueueStep(s, steps, Scene(Queued, 2, 0, 0, 1, 1, 0, Idle, Idle));
    steps := TakeStep(s, steps, Scene(Queued, 2, 0, 0, 0, 2, 0, Idle, Idle), 0);
    steps := Play(s, steps, Scene(Queued, 2, 0, 0, 0, 1, 0, Taken, Idle), 0);
    steps := Play(s, steps, Scene(Queued, 2, 1, 0, 0, 1, 0, Promote, Idle), 0);
  }

  lemma BothArrive(s: World) returns (steps: seq<Step>)
    requires Fresh(s)
    ensures Peaceful(s, steps)
    ensures Shows(Run(s, steps), Scene(Downloading, 2, 2, 0, 0, 0, 1, OuterRelease, StreamTop))
  {
    steps := FirstWaits(s);
    steps := TakeStep(s, steps, Scene(Downloading, 2, 1, 0, 0, 1, 0, OuterRelease, Idle), 1);
    steps := Play(s, steps, Scene(Downloading, 2, 1, 0, 0, 0, 0, OuterRelease, Taken), 1);
    steps := Play(s, steps, Scene(Downloading, 2, 2, 0, 0, 0, 0, OuterRelease, Promote), 1);
    steps := Play(s, steps, Scene(Downloading, 2, 2, 0, 0, 0, 0, OuterRelease, OuterRelease), 1);
    steps := Play(s, steps, Scene(Downloading, 2, 2, 0, 0, 0, 0, OuterRelease, Claim), 1);
    steps := Play(s, steps, Scene(Downloading, 2, 2, 0, 0, 0, 1, OuterRelease, InnerRelease), 1);
    steps := Play(s, steps, Scene(Downloading, 2, 2, 0, 0, 0, 1, OuterRelease, InnerState), 1);
  }

  lemma SceneIsUnsafe(s: World)
    requires Shows(s, Scene(Downloading, 1, 1, 0, 0, 0, 1, CloseCheck, Budget))
    ensures Enabled(s, CancelSet) && !CancelSafe(s)
  {
    assert s.pool[0].pc == CloseCheck && CanWrite(s.w, s.pool[1]);
  }

  /** After `steps` a Cancel is enabled and not safe, and `after` it the writer is
      released under a worker that can still write. */
  ghost predicate GoesWrong(s: World, steps: seq<Step>, after: seq<Step>)
  {
    && Peaceful(s, steps) && Enabled(Run(s, steps), CancelSet) && !CancelSafe(Run(s, steps))
    && Legal(Do(Run(s, steps), CancelSet), after) && NoCrash(after)
    && !WriterSafe(Run(Do(Run(s, steps), CancelSet), after))
  }

  lemma UnsafeFrom(s: World) returns (steps: seq<Step>, after: seq<Step>)
    requires Fresh(s) && Inv(s)
    ensures GoesWrong(s, steps, after)
  {
    steps := SecondPasses(s);
    SceneIsUnsafe(Run(s, steps));
    InvRun(s, steps);
    after := UnsafeCancelHappens(Run(s, steps));
  }

  lemma StartIsFresh(remote: seq<byte>, file: seq<byte>, cs: seq<Chunk>, threads: nat, maxC: int)
    requires FreshJob(remote, file, cs, threads, maxC) && threads >= 2 && maxC >= 2
    ensures Fresh(Start(remote, file, cs, threads, maxC))
  {
    NothingReceived(cs, |cs|);
  }

  /** Every job with two threads and two connections has a run after which a
      Cancel releases the writer under a worker that can still write: the
      guarantee fails without `CancelSafe`. */
  lemma UnsafeCancelIsReachable(remote: seq<byte>, file: seq<byte>, cs: seq<Chunk>, threads: nat, maxC: int)
    returns (steps: seq<Step>, after: seq<Step>)
    requires FreshJob(remote, file, cs, threads, maxC) && threads >= 2 && maxC >= 2
    ensures GoesWrong(Start(remote, file, cs, threads, maxC), steps, after)
  {
    StartIsFresh(remote, file, cs, threads, maxC);
    InvStart(remote, file, cs, threads, maxC);
    steps, after := UnsafeFrom(Start(remote, file, cs, threads, maxC));
  }
}
