/** Completion can be reached: a worker left to itself receives everything that
    is missing and comes to count the last chunk. */
module ProtocolReach {
  import opened Basics
  import opened Chunks
  import opened EngineSpec
  import opened Protocol
  import opened ProtocolData
  import opened ProtocolCounts
  import opened ProtocolRuns
  import opened ProtocolCalls

  // ---------------------------------------------------------------------------
  // Runs of one worker.

  /** The engine's scalars that a worker on its own does not move. */
  predicate SameControls(e: Engine, e': Engine)
  {
    && e'.state == e.state && e'.scheduled == e.scheduled && e'.conns == e.conns && e'.cleaned == e.cleaned
    && e'.minC == e.minC && e'.maxC == e.maxC && e'.desired == e.desired && e'.budget == e.budget
  }

  /** Only thread `t` has moved; chunks have only grown. */
  ghost predicate Alone(s: World, s': World, t: nat)
  {
    && |s'.pool| == |s.pool| && (forall u :: 0 <= u < |s.pool| && u != t ==> s'.pool[u] == s.pool[u])
    && s'.remote == s.remote && s'.w.pending == s.w.pending && s'.planned == s.planned && s'.queued == s.queued
    && s'.cancel == s.cancel && s'.resumes == s.resumes && s'.outputRemoved == s.outputRemoved
    && s'.h.generation == s.h.generation && SameControls(s.e, s'.e)
    && |s'.w.chunks| == |s.w.chunks| && forall c :: 0 <= c < |s.w.chunks| ==> Older(s.w.chunks[c], s'.w.chunks[c])
  }

  ghost predicate Reaches(s: World, steps: seq<Step>, s': World, t: nat)
  {
    Leads(s, steps, s') && Inv(s') && Alone(s, s', t)
  }

  lemma ReachOn(s: World, a: seq<Step>, mid: World, b: seq<Step>, s': World, t: nat) returns (steps: seq<Step>)
    requires Reaches(s, a, mid, t) && Reaches(mid, b, s', t)
    ensures Reaches(s, steps, s', t)
  {
    steps := Then(s, a, mid, b, s');
    AloneOn(s, mid, s', t);
  }

  lemma AloneOn(s: World, mid: World, s': World, t: nat)
    requires Alone(s, mid, t) && Alone(mid, s', t)
    ensures Alone(s, s', t)
  {
    forall c | 0 <= c < |s.w.chunks|
      ensures Older(s.w.chunks[c], s'.w.chunks[c])
    {
      assert Older(s.w.chunks[c], mid.w.chunks[c]) && Older(mid.w.chunks[c], s'.w.chunks[c]);
    }
  }

  /** Steps of a worker that neither open, close, promote nor fail it. */
  predicate Inner(pc: Pc)
  {
    || pc == OuterRelease || pc == Claim || pc == InnerRelease || pc == InnerState || pc == StreamTop
    || pc == Budget || pc == Read || pc == Write || pc == FinishCheck || pc == AfterNotify
  }

  predicate MovesInner(e: Engine, w: Work, f: Effect)
  {
    && SameControls(e, f.e) && !f.side.CommitStore? && !f.side.Clean?
    && (f.side.NewWork? ==> f.side.w.chunks == w.chunks && f.side.w.pending == w.pending)
  }

  lemma ActInner(s: World, t: nat, k: nat, to: Pc)
    requires ActEnabled(s, t, k, to) && Inner(s.pool[t].pc) && !HasToken(s.e)
    ensures MovesInner(s.e, s.w, ActOf(s, t, k, to))
  {
  }

  lemma InnerAlone(s: World, t: nat, f: Effect)
    requires t < |s.pool| && MovesInner(s.e, s.w, f)
    ensures Alone(s, Apply(s, t, f), t)
  {
  }

  lemma Step(s: World, t: nat, k: nat, to: Pc) returns (s': World, steps: seq<Protocol.Step>)
    requires Inv(s) && ActEnabled(s, t, k, to) && Inner(s.pool[t].pc) && !HasToken(s.e)
    ensures s' == DoAct(s, t, k, to) && Reaches(s, steps, s', t)
  {
    var st := Act(t, k, to);
    s', steps := DoAct(s, t, k, to), [st];
    InvStep(s, st);
    LeadsStep(s, st);
    ActInner(s, t, k, to);
    InnerAlone(s, t, ActOf(s, t, k, to));
  }

  // ---------------------------------------------------------------------------
  // One buffer.

  /** Thread `t` is in its stream loop and its chunk is not finished. */
  ghost predicate Fetching(s: World, t: nat, pc: Pc)
  {
    && Inv(s) && t < |s.pool| && s.pool[t].pc == pc && ItemValid(s.w, s.pool[t])
    && !ChunkOf(s.w, s.pool[t]).Finished()
    && s.e.state == Downloading && !HasToken(s.e) && !s.e.cleaned && s.store.None?
  }

  /** How many bytes the next read can bring. */
  function NextBytes(w: Work, x: Worker): int
    requires ItemValid(w, x)
  {
    Min(BUFFER_SIZE, ChunkOf(w, x).end + 1 - ChunkOf(w, x).Pos())
  }

  lemma ReadFits(s: World, t: nat)
    requires Fetching(s, t, Read)
    ensures var x := s.pool[t]; var n := NextBytes(s.w, x);
            n > 0 && x.off == ChunkOf(s.w, x).Pos() && x.off + n <= ItemOf(s, x).rangeEnd + 1 && x.off + n <= |s.remote|
  {
    assert WorkerOk(s.remote, s.file, s.w, s.pool[t]);
  }

  lemma Budgeted(s: World, t: nat) returns (s': World, steps: seq<Protocol.Step>)
    requires Fetching(s, t, StreamTop)
    ensures Reaches(s, steps, s', t) && Fetching(s', t, Read)
    ensures s'.w == s.w && s'.pool[t].item == s.pool[t].item && s'.pool[t].allowed == BUFFER_SIZE
  {
    var s1, a := Step(s, t, 0, Budget);
    var b;
    s', b := Step(s1, t, BUFFER_SIZE, Idle);
    steps := ReachOn(s, a, s1, b, s', t);
  }

  lemma ReadEffect(s: World, t: nat, n: nat)
    requires t < |s.pool| && s.pool[t].pc == Read && ItemValid(s.w, s.pool[t]) && 0 < n <= s.pool[t].allowed
    requires s.pool[t].off + n <= ItemOf(s, s.pool[t]).rangeEnd + 1 && s.pool[t].off + n <= |s.remote|
    ensures ActEnabled(s, t, n, Idle)
    ensures var s' := DoAct(s, t, n, Idle);
            && |s'.pool| == |s.pool| && s'.pool[t].pc == Write && s'.pool[t].item == s.pool[t].item
            && s'.pool[t].off == s.pool[t].off && |s'.pool[t].data| == n && s'.pool[t].written == 0
            && s'.w == s.w && s'.e == s.e && s'.store == s.store && s'.file == s.file
  {
  }

  lemma WriteEffect(s: World, t: nat, n: nat)
    requires t < |s.pool| && s.pool[t].pc == Write && ItemValid(s.w, s.pool[t]) && !s.e.cleaned
    requires s.pool[t].written == 0 && 0 < n == |s.pool[t].data| && s.pool[t].off + n <= |s.file|
    ensures ActEnabled(s, t, n, Idle)
    ensures var s' := DoAct(s, t, n, Idle);
            && |s'.pool| == |s.pool| && s'.pool[t].pc == Update && s'.pool[t].item == s.pool[t].item
            && s'.pool[t].data == s.pool[t].data && s'.w == s.w && s'.e == s.e && s'.store == s.store
  {
  }

  /** The bytes are read and written in full. */
  lemma Written(s: World, t: nat) returns (s': World, steps: seq<Protocol.Step>)
    requires Fetching(s, t, Read) && s.pool[t].allowed == BUFFER_SIZE
    ensures Reaches(s, steps, s', t) && Fetching(s', t, Update)
    ensures s'.w == s.w && s'.pool[t].item == s.pool[t].item && |s'.pool[t].data| == NextBytes(s.w, s.pool[t])
  {
    var n := NextBytes(s.w, s.pool[t]);
    ReadFits(s, t);
    ReadEffect(s, t, n);
    var s1, a := Step(s, t, n, Idle);
    WriteEffect(s1, t, n);
    var b;
    s', b := Step(s1, t, n, Idle);
    steps := ReachOn(s, a, s1, b, s', t);
  }

  lemma CountedAlone(s: World, s': World, t: nat, c: nat, bytes: nat)
    requires OthersStay(s, s', t) && s'.e == Counted(s.e, bytes)
    requires c < |s.w.chunks| && s'.w == AddReceived(s.w, c, bytes)
    ensures Alone(s, s', t)
  {
  }

  /** The bytes are counted; a store may come in between. */
  lemma Reported(s: World, t: nat) returns (s': World, steps: seq<Protocol.Step>)
    requires Fetching(s, t, Update)
    ensures Reaches(s, steps, s', t) && t < |s'.pool| && s'.pool[t].pc == FinishCheck
    ensures s'.store.None? && s'.pool[t].item == s.pool[t].item
    ensures s'.w == AddReceived(s.w, ItemOf(s, s.pool[t]).chunk, |s.pool[t].data|)
  {
    var x;
    s', steps, x := CountCall(s, t, s.pool[t]);
    InvRun(s, steps);
    CountedAlone(s, s', t, ItemOf(s, s.pool[t]).chunk, |s.pool[t].data|);
  }

  lemma SumGrows(w: Work, c: nat, bytes: nat)
    requires c < |w.chunks|
    ensures ReceivedSum(AddReceived(w, c, bytes).chunks) == ReceivedSum(w.chunks) + bytes
  {
    FinishedUpdate(w.chunks, c, AddReceived(w, c, bytes).chunks[c], |w.chunks|);
  }

  /** A whole turn up to the finish check receives something. */
  lemma Fetched(s: World, t: nat) returns (s': World, steps: seq<Protocol.Step>)
    requires Fetching(s, t, StreamTop)
    ensures Reaches(s, steps, s', t) && t < |s'.pool| && s'.pool[t].pc == FinishCheck
    ensures s'.store.None? && s'.pool[t].item == s.pool[t].item && s'.w.next == s.w.next
    ensures ReceivedSum(s'.w.chunks) > ReceivedSum(s.w.chunks)
  {
    var s1, a := Budgeted(s, t);
    ReadFits(s1, t);
    var s2, b := Written(s1, t);
    var c;
    s', c := Reported(s2, t);
    SumGrows(s2.w, ItemOf(s2, s2.pool[t]).chunk, |s2.pool[t].data|);
    var ab := ReachOn(s, a, s1, b, s2, t);
    steps := ReachOn(s, ab, s2, c, s', t);
  }

  // ---------------------------------------------------------------------------
  // One item after the other.

  /** No other thread holds an item. */
  ghost predicate Solo(s: World, t: nat)
  {
    forall u :: 0 <= u < |s.pool| && u != t ==> !Holds(s.pool[u].pc)
  }

  /** The claimed items are those of finished chunks, and the one in hand. */
  ghost predicate NoneDropped(s: World, t: nat)
  {
    t < |s.pool| &&
    forall k :: 0 <= k < s.w.next && k < |s.w.pending| ==>
      s.w.pending[k].chunk < |s.w.chunks| &&
      (s.w.chunks[s.w.pending[k].chunk].Finished() || (Holds(s.pool[t].pc) && s.pool[t].item == k))
  }

  /** Nothing stands in the way of thread `t`. */
  ghost predicate Clear(s: World, t: nat)
  {
    Solo(s, t) && NoneDropped(s, t) && s.h.generation > 0
  }

  /** Growing chunks and the same item keep the way clear. */
  lemma ClearStays(s: World, s': World, t: nat)
    requires Clear(s, t) && Alone(s, s', t) && s'.w.next == s.w.next
    requires Holds(s.pool[t].pc) ==> Holds(s'.pool[t].pc) && s'.pool[t].item == s.pool[t].item
    ensures Clear(s', t)
  {
    forall k | 0 <= k < s'.w.next && k < |s'.w.pending|
      ensures s'.w.chunks[s'.w.pending[k].chunk].Finished() || (Holds(s'.pool[t].pc) && s'.pool[t].item == k)
    {
      assert Older(s.w.chunks[s.w.pending[k].chunk], s'.w.chunks[s'.w.pending[k].chunk]);
    }
  }

  /** A worker that has finished its chunk lets go of it with the way clear. */
  lemma ClearLeaves(s: World, s': World, t: nat)
    requires Clear(s, t) && Alone(s, s', t) && s'.w.next == s.w.next && !Holds(s'.pool[t].pc)
    requires Holds(s.pool[t].pc) ==> ItemValid(s.w, s.pool[t]) && ChunkOf(s.w, s.pool[t]).Finished()
    ensures Clear(s', t)
  {
    forall k | 0 <= k < s'.w.next && k < |s'.w.pending|
      ensures s'.w.chunks[s'.w.pending[k].chunk].Finished()
    {
      assert Older(s.w.chunks[s.w.pending[k].chunk], s'.w.chunks[s'.w.pending[k].chunk]);
    }
  }

  /** At the claim there is still an item if not all chunks are counted. */
  lemma SomethingLeft(s: World, t: nat)
    requires Inv(s) && Clear(s, t) && s.pool[t].pc == Claim && s.e.downloaded != |s.w.chunks|
    ensures s.w.next < |s.w.pending|
  {
    forall u | 0 <= u < |s.pool|
      ensures BetweenW(s.pool[u]) == 0
    {
      if u != t { assert !Holds(s.pool[u].pc); }
    }
    TotZero(s.pool, BetweenW);
    AllFinished(s.w.chunks, |s.w.chunks|);
    var c :| 0 <= c < |s.w.chunks| && !s.w.chunks[c].Finished();
    assert HasItem(s.w.pending, c);
    var k :| 0 <= k < |s.w.pending| && s.w.pending[k].chunk == c;
  }

  lemma ClaimEffect(s: World, t: nat)
    requires t < |s.pool| && s.pool[t].pc == Claim && s.w.next < |s.w.pending|
    ensures ActEnabled(s, t, 0, Idle)
    ensures var s' := DoAct(s, t, 0, Idle);
            && |s'.pool| == |s.pool| && s'.pool[t].pc == InnerRelease && s'.pool[t].item == s.w.next
            && s'.w == s.w.(next := s.w.next + 1) && s'.e == s.e && s'.store == s.store && s'.h == s.h
            && forall u :: 0 <= u < |s.pool| && u != t ==> s'.pool[u] == s.pool[u]
  {
  }

  /** The next item is claimed, and its chunk is not finished. */
  lemma Claims(s: World, t: nat) returns (s': World, steps: seq<Protocol.Step>)
    requires Inv(s) && Clear(s, t) && s.pool[t].pc == Claim && s.e.downloaded != |s.w.chunks|
    requires s.e.state == Downloading && !HasToken(s.e) && !s.e.cleaned && s.store.None?
    ensures Reaches(s, steps, s', t) && Fetching(s', t, InnerRelease) && Clear(s', t)
    ensures s'.w.chunks == s.w.chunks
  {
    SomethingLeft(s, t);
    ClaimEffect(s, t);
    s', steps := Step(s, t, 0, Idle);
    assert TailOf(s.w.chunks, s.w.pending[s.w.next]);
  }

  lemma PassesOn(s: World, t: nat, pc: Pc) returns (s': World, steps: seq<Protocol.Step>)
    requires Fetching(s, t, pc) && (pc == InnerRelease || pc == InnerState)
    ensures Reaches(s, steps, s', t) && Fetching(s', t, if pc == InnerRelease then InnerState else StreamTop)
    ensures s'.w == s.w && s'.pool[t].item == s.pool[t].item
  {
    s', steps := Step(s, t, 0, Idle);
  }

  lemma Enters(s: World, t: nat) returns (s': World, steps: seq<Protocol.Step>)
    requires Fetching(s, t, InnerRelease) && Clear(s, t)
    ensures Reaches(s, steps, s', t) && Fetching(s', t, StreamTop) && Clear(s', t)
    ensures s'.w == s.w
  {
    var s1, a := PassesOn(s, t, InnerRelease);
    var b;
    s', b := PassesOn(s1, t, InnerState);
    steps := ReachOn(s, a, s1, b, s', t);
    ClearStays(s, s', t);
  }

  /** The worker has counted the last chunk of a downloading engine. */
  ghost predicate AtLast(s: World, t: nat)
  {
    && Inv(s) && t < |s.pool| && s.pool[t].pc == LastCas && s.e.state == Downloading && !s.e.cleaned && s.store.None?
    && s.e.downloaded == |s.w.chunks|
  }

  ghost predicate Checking(s: World, t: nat)
  {
    && Inv(s) && Clear(s, t) && s.pool[t].pc == FinishCheck && ItemValid(s.w, s.pool[t])
    && s.e.state == Downloading && !HasToken(s.e) && !s.e.cleaned && s.store.None?
  }

  lemma CountEffect(s: World, t: nat)
    requires t < |s.pool| && s.pool[t].pc == FinishCheck
    requires ItemValid(s.w, s.pool[t]) && ChunkOf(s.w, s.pool[t]).Finished()
    ensures ActEnabled(s, t, 0, Idle)
    ensures var s' := DoAct(s, t, 0, Idle);
            && s'.pool[t] == s.pool[t].(pc := if LastSeen(s.e, |s.w.chunks|) then LastCas else AfterNotify)
            && s'.e == CountFinished(s.e) && s'.w == s.w && s'.store == s.store && |s'.pool| == |s.pool|
  {
  }

  /** From the end of a report to the outer loop. */
  lemma LetsGo(s: World, t: nat) returns (s': World, steps: seq<Protocol.Step>)
    requires Inv(s) && t < |s.pool| && s.pool[t].pc == AfterNotify && ItemValid(s.w, s.pool[t]) && !HasToken(s.e)
    ensures Reaches(s, steps, s', t) && s'.pool[t].pc == OuterRelease
    ensures s'.e == s.e && s'.store == s.store && s'.w == s.w
  {
    var s1, a := Step(s, t, 0, StreamTop);
    var b;
    s', b := Step(s1, t, 0, OuterRelease);
    steps := ReachOn(s, a, s1, b, s', t);
  }

  /** And to the claim of the next item. */
  lemma Returns(s: World, t: nat) returns (s': World, steps: seq<Protocol.Step>)
    requires Inv(s) && t < |s.pool| && s.pool[t].pc == AfterNotify && ItemValid(s.w, s.pool[t]) && !HasToken(s.e)
    ensures Reaches(s, steps, s', t) && s'.pool[t].pc == Claim && s'.e == s.e && s'.store == s.store && s'.w == s.w
  {
    var s1, a := LetsGo(s, t);
    var b;
    s', b := Step(s1, t, 0, Claim);
    steps := ReachOn(s, a, s1, b, s', t);
  }

  /** A finished chunk that is not the last: on to the next item. */
  lemma GoesOn(s: World, t: nat) returns (s': World, steps: seq<Protocol.Step>)
    requires Checking(s, t) && ChunkOf(s.w, s.pool[t]).Finished() && !LastSeen(s.e, |s.w.chunks|)
    ensures Reaches(s, steps, s', t) && Clear(s', t) && s'.pool[t].pc == Claim
    ensures s'.e.downloaded == s.e.downloaded + 1 && s'.store.None? && s'.w == s.w
  {
    CountEffect(s, t);
    var s1, a := Step(s, t, 0, Idle);
    var b;
    s', b := Returns(s1, t);
    steps := ReachOn(s, a, s1, b, s', t);
    ClearLeaves(s, s', t);
  }

  lemma NextItem(s: World, t: nat) returns (s': World, steps: seq<Protocol.Step>)
    requires Checking(s, t) && ChunkOf(s.w, s.pool[t]).Finished() && !LastSeen(s.e, |s.w.chunks|)
    ensures Reaches(s, steps, s', t) && Fetching(s', t, StreamTop) && Clear(s', t) && s'.w.chunks == s.w.chunks
  {
    var s1, a := GoesOn(s, t);
    var s2, b := Claims(s1, t);
    var c;
    s', c := Enters(s2, t);
    var ab := ReachOn(s, a, s1, b, s2, t);
    steps := ReachOn(s, ab, s2, c, s', t);
  }

  /** An unfinished chunk: back to the stream. */
  lemma SameItem(s: World, t: nat) returns (s': World, steps: seq<Protocol.Step>)
    requires Checking(s, t) && !ChunkOf(s.w, s.pool[t]).Finished()
    ensures Reaches(s, steps, s', t) && Fetching(s', t, StreamTop) && Clear(s', t) && s'.w.chunks == s.w.chunks
  {
    var s1, a := Step(s, t, 0, Idle);
    var b;
    s', b := Step(s1, t, 0, StreamTop);
    steps := ReachOn(s, a, s1, b, s', t);
    ClearStays(s, s', t);
  }

  lemma CountsLast(s: World, t: nat) returns (s': World, steps: seq<Protocol.Step>)
    requires Checking(s, t) && ChunkOf(s.w, s.pool[t]).Finished() && LastSeen(s.e, |s.w.chunks|)
    ensures Reaches(s, steps, s', t) && AtLast(s', t)
  {
    CountEffect(s, t);
    s', steps := Step(s, t, 0, Idle);
  }

  // ---------------------------------------------------------------------------
  // To the last chunk.

  lemma {:induction false} ReceivedBound(cs: seq<Chunk>, i: nat)
    requires i <= |cs| && forall k :: 0 <= k < i ==> InLine(cs, k)
    ensures ReceivedUpTo(cs, i) <= EndOf(cs, i)
  {
    if i > 0 {
      ReceivedBound(cs, i - 1);
      assert InLine(cs, i - 1);
    }
  }

  lemma ReceivedFits(s: World)
    requires Inv(s)
    ensures ReceivedSum(s.w.chunks) <= |s.remote|
  {
    forall k | 0 <= k < |s.w.chunks|
      ensures InLine(s.w.chunks, k)
    {
      TiledInLine(s.w.chunks, |s.remote|, k);
    }
    ReceivedBound(s.w.chunks, |s.w.chunks|);
  }

  lemma FetchedChecks(s: World, t: nat) returns (s': World, steps: seq<Protocol.Step>)
    requires Fetching(s, t, StreamTop) && Clear(s, t)
    ensures Reaches(s, steps, s', t) && Checking(s', t) && ReceivedSum(s'.w.chunks) > ReceivedSum(s.w.chunks)
  {
    s', steps := Fetched(s, t);
    ClearStays(s, s', t);
    assert WorkerOk(s'.remote, s'.file, s'.w, s'.pool[t]);
  }

  /** A worker with a clear way comes to count the last chunk; nothing else moves. */
  lemma {:induction false} ReachLast(s: World, t: nat) returns (s': World, steps: seq<Protocol.Step>)
    requires Fetching(s, t, StreamTop) && Clear(s, t)
    ensures Reaches(s, steps, s', t) && AtLast(s', t)
    decreases |s.remote| - ReceivedSum(s.w.chunks)
  {
    ReceivedFits(s);
    var s1, a := FetchedChecks(s, t);
    ReceivedFits(s1);
    var b;
    if ChunkOf(s1.w, s1.pool[t]).Finished() && LastSeen(s1.e, |s1.w.chunks|) {
      s', b := CountsLast(s1, t);
    } else {
      var s2, c;
      if ChunkOf(s1.w, s1.pool[t]).Finished() {
        s2, c := NextItem(s1, t);
      } else {
        s2, c := SameItem(s1, t);
      }
      var d;
      s', d := ReachLast(s2, t);
      b := ReachOn(s1, c, s2, d, s', t);
    }
    steps := ReachOn(s, a, s1, b, s', t);
  }
}
