/** The calls of the engine object, seen in the step system: the steps that one
    thread takes, undisturbed, add up to the effect of the whole call. */
module ProtocolCalls {
  import opened Basics
  import opened Chunks
  import opened EngineSpec
  import opened Protocol
  import opened ProtocolData
  import opened ProtocolRuns

  lemma Then(s: World, a: seq<Step>, mid: World, b: seq<Step>, s': World) returns (steps: seq<Step>)
    requires Leads(s, a, mid) && Leads(mid, b, s')
    ensures Leads(s, steps, s')
  {
    LeadsOn(s, a, mid, b, s');
    steps := a + b;
  }

  /** Thread `t` stands at `pc` with its locals as in `x`, free to take the lock. */
  ghost predicate At(s: World, t: nat, x: Worker, pc: Pc)
  {
    t < |s.pool| && s.pool[t] == x.(pc := pc) && s.store.None? && ItemValid(s.w, x)
  }

  /** Only thread `t` has moved, and only inside a report. */
  ghost predicate OthersStay(s: World, s': World, t: nat)
  {
    && |s'.pool| == |s.pool| && (forall u :: 0 <= u < |s.pool| && u != t ==> s'.pool[u] == s.pool[u])
    && s'.remote == s.remote && s'.file == s.file && s'.w.pending == s.w.pending && s'.w.next == s.w.next
    && s'.planned == s.planned && s'.queued == s.queued && s'.cancel == s.cancel && s'.resumes == s.resumes
    && s'.outputRemoved == s.outputRemoved && s'.h.generation == s.h.generation
  }

  lemma ActOnce(s: World, t: nat) returns (s': World, steps: seq<Step>)
    requires ActEnabled(s, t, 0, Idle)
    ensures s' == DoAct(s, t, 0, Idle) && Leads(s, steps, s')
  {
    s', steps := DoAct(s, t, 0, Idle), [Act(t, 0, Idle)];
    LeadsStep(s, Act(t, 0, Idle));
  }

  /** Copying the rest of the chunks. */
  lemma {:induction false} SnapAll(s: World) returns (s': World, steps: seq<Step>)
    requires s.store.Some? && |s.store.value.snap| <= |s.w.chunks|
    ensures Leads(s, steps, s')
    ensures s' == s.(store := Some(StoreOp(s.store.value.owner,
                                           s.store.value.snap + s.w.chunks[|s.store.value.snap|..])))
    decreases |s.w.chunks| - |s.store.value.snap|
  {
    var op := s.store.value;
    if |op.snap| == |s.w.chunks| {
      s', steps := s, [];
      assert op.snap + s.w.chunks[|op.snap|..] == op.snap;
    } else {
      var s1 := Do(s, Snap);
      LeadsStep(s, Snap);
      var rest;
      s', rest := SnapAll(s1);
      assert s1.store.value.snap + s.w.chunks[|s1.store.value.snap|..] == op.snap + s.w.chunks[|op.snap|..];
      steps := Then(s, [Snap], s1, rest, s');
    }
  }

  /** A store call inside NotifyChunkReceived. */
  lemma StoreCall(s: World, t: nat, x: Worker, pc: Pc) returns (s': World, steps: seq<Step>)
    requires (pc == StoreWait || pc == FinalStore) && At(s, t, x, pc) && !s.e.cleaned
    ensures Leads(s, steps, s') && At(s', t, x, if pc == StoreWait then FinishCheck else FinalClean)
    ensures s'.e == Stored(s.e) && s'.w == s.w && OthersStay(s, s', t)
    ensures s'.last == Some(s.w.chunks) && s'.images == s.images + [s.w.chunks] && s'.h.finishes == s.h.finishes
  {
    var locked, a := ActOnce(s, t);
    var full, b := SnapAll(locked);
    assert full.store.value.snap == s.w.chunks;
    var c, ab;
    s', c := ActOnce(full, t);
    ab := Then(s, a, locked, b, full);
    steps := Then(s, ab, full, c, s');
  }

  /** From the chunk update to the finish check. */
  lemma CountCall(s: World, t: nat, x: Worker) returns (s': World, steps: seq<Step>, x': Worker)
    requires At(s, t, x, Update) && !s.e.cleaned
    ensures Leads(s, steps, s') && At(s', t, x', FinishCheck) && x'.item == x.item
    ensures s'.e == Counted(s.e, |x.data|) && s'.w == AddReceived(s.w, ItemOf(s, x).chunk, |x.data|)
    ensures OthersStay(s, s', t) && s'.h.finishes == s.h.finishes
  {
    var s1, a := ActOnce(s, t);
    var s2, b := ActOnce(s1, t);
    var s3, c := ActOnce(s2, t);
    x' := s3.pool[t];
    var ab := Then(s, a, s1, b, s2);
    var abc := Then(s, ab, s2, c, s3);
    if s3.pool[t].pc == StoreWait {
      var d;
      s', d := StoreCall(s3, t, x', StoreWait);
      steps := Then(s, abc, s3, d, s');
    } else {
      s', steps := s3, abc;
    }
  }

  /** From the final store to the end of the call: the last image, the release, and
      on_finish. */
  lemma FinalCalls(s: World, t: nat, x: Worker) returns (s': World, steps: seq<Step>)
    requires At(s, t, x, FinalStore) && !s.e.cleaned
    ensures Leads(s, steps, s') && At(s', t, x, AfterNotify) && s'.w == s.w && s'.e == Released(Stored(s.e))
    ensures OthersStay(s, s', t) && s'.last == Some(s.w.chunks) && s'.h.finishes == s.h.finishes + 1
  {
    var s1, a := StoreCall(s, t, x, FinalStore);
    var s2, b := ActOnce(s1, t);
    var c;
    s', c := ActOnce(s2, t);
    var ab := Then(s, a, s1, b, s2);
    steps := Then(s, ab, s2, c, s');
  }

  /** From the last count to the end of the call. */
  lemma WinCall(s: World, t: nat, x: Worker) returns (s': World, steps: seq<Step>)
    requires At(s, t, x, LastCas) && !s.e.cleaned
    ensures Leads(s, steps, s') && At(s', t, x, AfterNotify) && s'.w == s.w
    ensures s'.e == if s.e.state == Downloading || s.e.state == Paused || s.e.state == Failed
                    then Released(Stored(s.e.(state := Completed))) else s.e
    ensures OthersStay(s, s', t)
    ensures s'.h.finishes == s.h.finishes + if s.e.state == Downloading || s.e.state == Paused || s.e.state == Failed
                                            then 1 else 0
    ensures s'.h.finishes > s.h.finishes ==> s'.last == Some(s.w.chunks)
  {
    var s1, a := ActOnce(s, t);
    if s1.pool[t].pc == AfterNotify {
      s', steps := s1, a;
    } else {
      var s2, ab := Forced(s, s1, t, x, a);
      var c;
      s', c := FinalCalls(s2, t, x);
      steps := Then(s, ab, s2, c, s');
    }
  }

  /** A paused or failed engine takes one step more to be completed. */
  lemma Forced(s: World, s1: World, t: nat, x: Worker, a: seq<Step>) returns (s2: World, steps: seq<Step>)
    requires Leads(s, a, s1) && !s1.e.cleaned
    requires At(s1, t, x, ForceDone) || (At(s1, t, x, FinalStore) && s1.e.state == Completed)
    ensures Leads(s, steps, s2) && At(s2, t, x, FinalStore) && s2.w == s1.w && s2.e == s1.e.(state := Completed)
    ensures OthersStay(s1, s2, t) && s2.h == s1.h
  {
    if s1.pool[t].pc == ForceDone {
      var b;
      s2, b := ActOnce(s1, t);
      steps := Then(s, a, s1, b, s2);
    } else {
      s2, steps := s1, a;
    }
  }

  /** Whether a report after which the chunk is `c` completes the engine. */
  predicate Completing(e: Engine, c: Chunk, chunks: nat)
  {
    && c.Finished() && e.downloaded == chunks - 1
    && (e.state == Downloading || e.state == Paused || e.state == Failed)
  }

  /** From the finish check to the end of the call. */
  lemma CheckCall(s: World, t: nat, x: Worker) returns (s': World, steps: seq<Step>)
    requires At(s, t, x, FinishCheck) && !s.e.cleaned
    ensures Leads(s, steps, s') && At(s', t, x, AfterNotify) && s'.w == s.w && OthersStay(s, s', t)
    ensures s'.e == if ChunkOf(s.w, x).Finished() then FinishOne(s.e, |s.w.chunks|) else s.e
    ensures s'.h.finishes == s.h.finishes + if Completing(s.e, ChunkOf(s.w, x), |s.w.chunks|) then 1 else 0
  {
    var s1, a := ActOnce(s, t);
    if s1.pool[t].pc == LastCas {
      var b;
      s', b := WinCall(s1, t, x);
      steps := Then(s, a, s1, b, s');
    } else {
      s', steps := s1, a;
    }
  }

  /** NotifyChunkReceived undisturbed is `Notified`, the effect proved for the
      engine object; on_finish is called exactly when the report completes the job. */
  lemma NotifyCall(s: World, t: nat, x: Worker) returns (s': World, steps: seq<Step>, x': Worker)
    requires At(s, t, x, Update) && !s.e.cleaned
    ensures Leads(s, steps, s') && At(s', t, x', AfterNotify) && OthersStay(s, s', t)
    ensures s'.w == AddReceived(s.w, ItemOf(s, x).chunk, |x.data|)
    ensures s'.e == Notified(s.e, s'.w.chunks[ItemOf(s, x).chunk], |x.data|, |s.w.chunks|)
    ensures s'.h.finishes == s.h.finishes
                               + if Completing(s.e, s'.w.chunks[ItemOf(s, x).chunk], |s.w.chunks|) then 1 else 0
  {
    var s1, a;
    s1, a, x' := CountCall(s, t, x);
    var b;
    s', b := CheckCall(s1, t, x');
    steps := Then(s, a, s1, b, s');
  }

  // ---------------------------------------------------------------------------
  // The other calls.

  /** NotifyConnectionOpen. */
  lemma OpenCall(s: World, t: nat) returns (s': World, steps: seq<Step>)
    requires t < |s.pool| && s.pool[t].pc == Taken
    ensures Leads(s, steps, s') && OthersStay(s, s', t) && s'.pool[t].pc == OuterRelease
    ensures s'.e == Opened(s.e) && s'.w == s.w
  {
    var s1, a := ActOnce(s, t);
    var b;
    s', b := ActOnce(s1, t);
    steps := Then(s, a, s1, b, s');
  }

  lemma CloseCounts(s: World, t: nat) returns (s': World, steps: seq<Step>)
    requires t < |s.pool| && s.pool[t].pc == CloseSched
    ensures Leads(s, steps, s') && OthersStay(s, s', t) && s'.store == s.store
    ensures s'.e == CloseConnection(CloseScheduled(s.e)) && s'.w == s.w
    ensures s'.pool[t].pc == if s'.e.conns == 0 then CloseCheck else Idle
  {
    var s1, a := ActOnce(s, t);
    var b;
    s', b := ActOnce(s1, t);
    steps := Then(s, a, s1, b, s');
  }

  lemma CloseLast(s: World, t: nat) returns (s': World, steps: seq<Step>)
    requires t < |s.pool| && s.pool[t].pc == CloseCheck && s.store.None?
    ensures Leads(s, steps, s') && s'.pool == s.pool[t := s.pool[t].(pc := Idle)] && s'.w == s.w
    ensures s'.e == if s.e.state == Canceled then Released(s.e) else s.e
    ensures s'.outputRemoved == (s.outputRemoved || (s.e.state == Canceled && !s.e.cleaned))
  {
    var s1, a := ActOnce(s, t);
    if s1.pool[t].pc == CloseClean {
      var b;
      s', b := ActOnce(s1, t);
      steps := Then(s, a, s1, b, s');
    } else {
      s', steps := s1, a;
    }
    assert s'.pool == s.pool[t := s.pool[t].(pc := Idle)];
  }

  /** NotifyConnectionClose: the files go exactly when the writer is released. */
  lemma CloseCall(s: World, t: nat) returns (s': World, steps: seq<Step>)
    requires t < |s.pool| && s.pool[t].pc == CloseSched && s.store.None?
    ensures Leads(s, steps, s') && |s'.pool| == |s.pool| && s'.pool[t].pc == Idle
    ensures s'.e == Closed(s.e) && s'.w == s.w
    ensures s'.outputRemoved == (s.outputRemoved || (s'.e.cleaned && !s.e.cleaned))
  {
    var s1, a := CloseCounts(s, t);
    if s1.pool[t].pc == CloseCheck {
      var b;
      s', b := CloseLast(s1, t);
      steps := Then(s, a, s1, b, s');
    } else {
      s', steps := s1, a;
    }
  }

  /** Cancel of a job that has started and is not over: the files go exactly when no
      connection is open and the writer was not yet released. */
  lemma CancelCall(s: World) returns (s': World, steps: seq<Step>)
    requires s.e.state !in {Initialized, Completed, Canceled} && s.cancel == NoCancel && s.store.None?
    ensures Leads(s, steps, s') && s'.cancel == NoCancel && s'.pool == s.pool && s'.w == s.w
    ensures s'.e == CanceledNow(s.e) && s'.e.state == Canceled
    ensures s'.e.cleaned == (s.e.cleaned || s.e.conns == 0)
    ensures s'.outputRemoved == (s.outputRemoved || (s'.e.cleaned && !s.e.cleaned))
  {
    var s1 := Do(s, CancelSet);
    LeadsStep(s, CancelSet);
    var s2 := Do(s1, CancelLoad);
    LeadsStep(s1, CancelLoad);
    var ab := Then(s, [CancelSet], s1, [CancelLoad], s2);
    if s2.cancel == CancelZero {
      LeadsStep(s2, CancelClean);
      s' := Do(s2, CancelClean);
      steps := Then(s, ab, s2, [CancelClean], s');
    } else {
      s', steps := s2, ab;
    }
  }

  /** The store of a failure. */
  lemma FailStores(s: World, t: nat) returns (s': World, steps: seq<Step>)
    requires t < |s.pool| && s.pool[t].pc == FailStore && s.store.None? && !s.e.cleaned
    ensures Leads(s, steps, s') && OthersStay(s, s', t) && s'.pool[t].pc == CloseSched
    ensures s'.e == Stored(s.e) && s'.w == s.w && s'.last == Some(s.w.chunks)
  {
    var locked, a := ActOnce(s, t);
    var full, b := SnapAll(locked);
    assert full.store.value.snap == s.w.chunks;
    var c, ab;
    s', c := ActOnce(full, t);
    ab := Then(s, a, locked, b, full);
    steps := Then(s, ab, full, c, s');
  }

  /** Fail: the failure is taken and the progress stored, or nothing happens. */
  lemma FailCall(s: World, t: nat) returns (s': World, steps: seq<Step>)
    requires t < |s.pool| && s.pool[t].pc == Failing && s.store.None?
    requires s.e.state in {Queued, Downloading} ==> !s.e.cleaned
    ensures Leads(s, steps, s') && OthersStay(s, s', t) && s'.pool[t].pc == CloseSched && s'.w == s.w
    ensures s'.e == if s.e.state in {Queued, Downloading} then s.e.(state := Failed, unsaved := 0) else s.e
    ensures s.e.state in {Queued, Downloading} ==> s'.last == Some(s.w.chunks)
  {
    var s1, a := ActOnce(s, t);
    if s1.pool[t].pc == FailStore {
      var b;
      s', b := FailStores(s1, t);
      steps := Then(s, a, s1, b, s');
    } else {
      s', steps := s1, a;
    }
  }

  /** Start and Resume of a drained engine. */
  lemma ResumeCall(s: World, limit: int) returns (s': World, steps: seq<Step>)
    requires s.e.state in {Initialized, Paused, Failed} && s.e.scheduled == 0
    ensures Leads(s, steps, s') && s'.pool == s.pool && s'.resumes == s.resumes
    ensures s'.w == Rebuilt(s.w) && s'.e == Plan(RebuiltCounters(s.e.(state := Queued), s.w), limit)
    ensures s'.planned == s.planned + s'.e.scheduled
  {
    var s1 := Do(s, ResumeSet);
    LeadsStep(s, ResumeSet);
    LeadsStep(s1, Rebuild(limit));
    s' := Do(s1, Rebuild(limit));
    steps := Then(s, [ResumeSet], s1, [Rebuild(limit)], s');
  }

  /** EnqueueTasks, undisturbed: exactly the workers that PlanNewWorkers adds become
      tasks of the pool queue, and none stays behind. */
  lemma EnqueueCall(s: World, limit: int) returns (s': World, steps: seq<Step>)
    requires Inv(s)
    ensures Leads(s, steps, s') && Inv(s') && s'.pool == s.pool
    ensures s'.e == Plan(s.e, limit) && s'.planned == s.planned
    ensures s'.queued == s.queued + PlanCount(s.e, limit)
    ensures s'.queued - s.queued == s'.e.scheduled - s.e.scheduled
  {
    var mid := Do(s, PlanMore(limit));
    LeadsStep(s, PlanMore(limit));
    var rest;
    s', rest := EnqueueAll(mid, PlanCount(s.e, limit));
    steps := Then(s, [PlanMore(limit)], mid, rest, s');
    InvRun(s, steps);
  }

  lemma {:induction false} EnqueueAll(s: World, n: nat) returns (s': World, steps: seq<Step>)
    requires n <= s.planned
    ensures Leads(s, steps, s') && s' == s.(planned := s.planned - n, queued := s.queued + n)
    decreases n
  {
    if n == 0 {
      s', steps := s, [];
    } else {
      var mid := Do(s, Enqueue);
      LeadsStep(s, Enqueue);
      var rest;
      s', rest := EnqueueAll(mid, n - 1);
      steps := Then(s, [Enqueue], mid, rest, s');
    }
  }

  /** The thread holds its item alone. */
  ghost predicate HoldsAlone(s: World, t: nat)
  {
    && t < |s.pool| && Holds(s.pool[t].pc) && ItemValid(s.w, s.pool[t])
    && !ChunkOf(s.w, s.pool[t]).Finished() && ChunkOf(s.w, s.pool[t]).Pos() == s.pool[t].off
    && forall u :: 0 <= u < |s.pool| && u != t && Holds(s.pool[u].pc) ==> s.pool[u].item != s.pool[t].item
  }

  /** A successful claim is of an unfinished chunk that nobody else holds. */
  lemma ClaimsAlone(s: World, t: nat)
    requires Inv(s) && t < |s.pool| && s.pool[t].pc == Claim && s.w.next < |s.w.pending|
    ensures HoldsAlone(DoAct(s, t, 0, Idle), t)
  {
    ClaimOnce(s, t);
    InvStep(s, Act(t, 0, Idle));
    assert TailOf(s.w.chunks, s.w.pending[s.w.next]);
  }

  lemma AskStep(s: World, t: nat)
    requires t < |s.pool| && s.pool[t].pc == OuterRelease
    ensures var mid := DoAct(s, t, 0, Claim);
            && |mid.pool| == |s.pool| && mid.e == TakeToken(s.e) && mid.w == s.w
            && mid.pool[t].pc == (if HasToken(s.e) then CloseSched else Claim)
            && (HasToken(s.e) ==> mid.pool[t].token)
  {
  }

  /** What a turn of the outer loop begins with, undisturbed: the worker leaves on a
      token exactly when there is one; else it comes to hold the next item alone,
      with its chunk unfinished and standing where the item begins; else it leaves
      because every item is claimed. */
  lemma AskCall(s: World, t: nat) returns (s': World, steps: seq<Step>)
    requires Inv(s) && t < |s.pool| && s.pool[t].pc == OuterRelease
    ensures Leads(s, steps, s') && t < |s'.pool| && s'.e == TakeToken(s.e)
    ensures s.e.budget > 0 ==> s'.pool[t].pc == CloseSched && s'.pool[t].token && s'.w == s.w
    ensures s.e.budget <= 0 ==> s'.w == s.w.(next := s.w.next + 1)
    ensures s.e.budget <= 0 && s.w.next < |s.w.pending| ==> HoldsAlone(s', t) && s'.pool[t].item == s.w.next
    ensures s.e.budget <= 0 && s.w.next >= |s.w.pending| ==> s'.pool[t].pc == CloseSched
  {
    AskStep(s, t);
    InvStep(s, Act(t, 0, Claim));
    LeadsStep(s, Act(t, 0, Claim));
    var mid := DoAct(s, t, 0, Claim);
    if HasToken(s.e) {
      s', steps := mid, [Act(t, 0, Claim)];
    } else {
      ClaimOnce(mid, t);
      if s.w.next < |s.w.pending| { ClaimsAlone(mid, t); }
      var b;
      s', b := ActOnce(mid, t);
      steps := Then(s, [Act(t, 0, Claim)], mid, b, s');
    }
  }

  /** What a turn of the inner loop begins with, undisturbed: the worker gives its
      connection up on a token or when the job is not Downloading, and else streams. */
  lemma TurnCall(s: World, t: nat) returns (s': World, steps: seq<Step>)
    requires t < |s.pool| && s.pool[t].pc == InnerRelease && ItemValid(s.w, s.pool[t])
    ensures Leads(s, steps, s') && OthersStay(s, s', t) && s'.w == s.w
    ensures s'.e == s.e.(budget := if s.e.budget > 0 then s.e.budget - 1 else s.e.budget)
    ensures s'.pool[t].pc == if s.e.budget > 0 || s.e.state != Downloading then CloseSched else StreamTop
    ensures s.e.budget > 0 ==> s'.pool[t].token
  {
    var s1, a := ActOnce(s, t);
    if s1.pool[t].pc == CloseSched {
      s', steps := s1, a;
    } else {
      var b;
      s', b := ActOnce(s1, t);
      steps := Then(s, a, s1, b, s');
    }
  }

  /** A store that the manager asks for: the chunks are copied and written, and
      nothing is unsaved. */
  lemma OutsideStoreCall(s: World) returns (s': World, steps: seq<Step>)
    requires s.store.None? && !s.e.cleaned
    ensures Leads(s, steps, s') && s'.pool == s.pool && s'.w == s.w && s'.store.None?
    ensures s'.e == s.e.(unsaved := 0) && s'.last == Some(s.w.chunks) && s'.images == s.images + [s.w.chunks]
  {
    var locked := Do(s, StoreOutside);
    LeadsStep(s, StoreOutside);
    var full, a := SnapAll(locked);
    assert full.store.value.snap == s.w.chunks;
    LeadsStep(full, CommitOutside);
    s' := Do(full, CommitOutside);
    var ab := Then(s, [StoreOutside], locked, a, full);
    steps := Then(s, ab, full, [CommitOutside], s');
  }

  lemma ClaimOnce(s: World, t: nat)
    requires t < |s.pool| && s.pool[t].pc == Claim
    ensures var s' := DoAct(s, t, 0, Idle);
            && s'.e == s.e && |s'.pool| == |s.pool| && s'.w == s.w.(next := s.w.next + 1)
            && (if s.w.next < |s.w.pending|
                then s'.pool[t].pc == InnerRelease && s'.pool[t].item == s.w.next
                     && s'.pool[t].off == s.w.pending[s.w.next].rangeStart
                else s'.pool[t].pc == CloseSched)
  {
  }
}
