/** What every step keeps of the data: received prefixes match the remote file,
    every stored image does, and work items are held exclusively. */
module ProtocolData {
  import opened Basics
  import opened Chunks
  import opened EngineSpec
  import opened Protocol

  // ---------------------------------------------------------------------------
  // File contents.

  /** `file` agrees with `remote` on [lo, hi). */
  ghost predicate Matches(file: seq<byte>, remote: seq<byte>, lo: int, hi: int)
  {
    forall j :: lo <= j < hi && 0 <= j < |file| && j < |remote| ==> file[j] == remote[j]
  }

  /** Every received prefix agrees with the remote file. */
  ghost predicate PrefixesMatch(file: seq<byte>, remote: seq<byte>, cs: seq<Chunk>)
  {
    forall i :: 0 <= i < |cs| ==> Matches(file, remote, cs[i].start, cs[i].Pos())
  }

  /** A chunk list from which it is safe to resume onto `file`. */
  ghost predicate SafeChunks(file: seq<byte>, remote: seq<byte>, cs: seq<Chunk>)
  {
    Tiled(cs, |remote|) && Fits(cs) && PrefixesMatch(file, remote, cs)
  }

  /** `after` agrees with the remote wherever `before` did. */
  ghost predicate NoWorse(before: seq<byte>, after: seq<byte>, remote: seq<byte>)
  {
    && |after| == |before|
    && forall j :: 0 <= j < |before| && j < |remote| && before[j] == remote[j] ==> after[j] == remote[j]
  }

  lemma SafeStays(before: seq<byte>, after: seq<byte>, remote: seq<byte>, cs: seq<Chunk>)
    requires NoWorse(before, after, remote) && SafeChunks(before, remote, cs)
    ensures SafeChunks(after, remote, cs)
  {
    forall i | 0 <= i < |cs|
      ensures Matches(after, remote, cs[i].start, cs[i].Pos())
    {
      assert Matches(before, remote, cs[i].start, cs[i].Pos());
    }
  }

  /** Writing remote bytes at their own place harms nothing. */
  lemma WriteHelps(file: seq<byte>, remote: seq<byte>, off: nat, data: seq<byte>)
    requires |file| == |remote| && off + |data| <= |file|
    requires data == remote[off..off + |data|]
    ensures NoWorse(file, Overwrite(file, off, data), remote)
    ensures Matches(Overwrite(file, off, data), remote, off, off + |data|)
  {
  }

  /** When all chunks are finished the file is the remote file. */
  lemma FinishedFileEqualsRemote(file: seq<byte>, remote: seq<byte>, cs: seq<Chunk>)
    requires |file| == |remote| && SafeChunks(file, remote, cs)
    requires FinishedCount(cs) == |cs|
    ensures file == remote
  {
    AllFinished(cs, |cs|);
    forall j | 0 <= j < |file|
      ensures file[j] == remote[j]
    {
      var i := TiledFind(cs, |remote|, j);
      assert cs[i].Finished();
      assert Matches(file, remote, cs[i].start, cs[i].Pos());
    }
  }

  // ---------------------------------------------------------------------------
  // The invariants.

  ghost predicate FileInv(s: World)
  {
    && |s.file| == |s.remote|
    && SafeChunks(s.file, s.remote, s.w.chunks)
    && (forall i :: 0 <= i < |s.images| ==> SafeChunks(s.file, s.remote, s.images[i]))
  }

  /** A copied chunk has the chunk's place and at most its progress. */
  predicate Older(a: Chunk, b: Chunk)
  {
    a.start == b.start && a.end == b.end && a.received <= b.received
  }

  ghost predicate SnapInv(s: World)
  {
    s.store.Some? ==>
      var snap := s.store.value.snap;
      |snap| <= |s.w.chunks| && forall i :: 0 <= i < |snap| ==> Older(snap[i], s.w.chunks[i])
  }

  /** Items are in chunk order and end with their chunks; an unclaimed item
      starts where its unfinished chunk stands. */
  ghost predicate ItemsInv(w: Work)
  {
    && (forall k :: 0 <= k < |w.pending| ==>
          w.pending[k].chunk < |w.chunks| && w.pending[k].rangeEnd == w.chunks[w.pending[k].chunk].end)
    && (forall k :: w.next <= k < |w.pending| ==> TailOf(w.chunks, w.pending[k]))
    && (forall k, l :: 0 <= k < l < |w.pending| ==> w.pending[k].chunk < w.pending[l].chunk)
  }

  /** Bytes between the chunk's position and the worker's offset. */
  function InFlight(x: Worker): int
  {
    if x.pc == Write then x.written else if x.pc == Update then |x.data| else 0
  }

  /** A worker's claim and locals agree with the chunk it holds. */
  ghost predicate WorkerOk(remote: seq<byte>, file: seq<byte>, w: Work, x: Worker)
  {
    && (Holds(x.pc) ==>
          && ItemValid(w, x) && x.item < w.next
          && x.off == ChunkOf(w, x).Pos() + InFlight(x))
    && (x.pc == Read ==> 1 <= x.allowed <= BUFFER_SIZE)
    && (x.pc == Write || x.pc == Update || x.pc == TotalAdd || x.pc == UnsavedAdd ==> 1 <= |x.data| <= BUFFER_SIZE)
    && (x.pc == Write || x.pc == Update ==>
          var at := ChunkOf(w, x).Pos();
          && at + |x.data| <= ChunkOf(w, x).end + 1
          && at + |x.data| <= |remote|
          && x.data == remote[at..at + |x.data|]
          && (x.pc == Write ==> x.written < |x.data|)
          && Matches(file, remote, at, x.off))
    && (x.pc == TotalAdd || x.pc == UnsavedAdd || x.pc == StoreWait || x.pc == StoreHeld || x.pc == FinishCheck ==>
          x.fin == ChunkOf(w, x).Finished())
  }

  ghost predicate WorkersInv(s: World)
  {
    forall t :: 0 <= t < |s.pool| ==> WorkerOk(s.remote, s.file, s.w, s.pool[t])
  }

  /** No two threads hold the same item. */
  ghost predicate Exclusive(s: World)
  {
    forall t, u :: 0 <= t < u < |s.pool| && Holds(s.pool[t].pc) && Holds(s.pool[u].pc) ==>
         s.pool[t].item != s.pool[u].item
  }

  ghost predicate DataInv(s: World)
  {
    FileInv(s) && SnapInv(s) && ItemsInv(s.w) && WorkersInv(s) && Exclusive(s)
  }

  // ---------------------------------------------------------------------------
  // Preservation.

  /** A step that moves thread `t` and leaves file, work and images alone. */
  ghost predicate Moved(s: World, s': World, t: nat)
  {
    && t < |s.pool| && |s'.pool| == |s.pool|
    && s'.pool == s.pool[t := s'.pool[t]]
    && s'.remote == s.remote && s'.file == s.file && s'.w == s.w && s'.images == s.images
    && (Holds(s'.pool[t].pc) ==> Holds(s.pool[t].pc) && s'.pool[t].item == s.pool[t].item)
    && (s'.store == s.store || (s'.store.Some? && s'.store.value.snap == []))
  }

  lemma MoveKeeps(s: World, s': World, t: nat)
    requires DataInv(s) && Moved(s, s', t)
    requires WorkerOk(s.remote, s.file, s.w, s'.pool[t])
    ensures DataInv(s')
  {
  }

  /** The claimed item puts its worker where the chunk stands. */
  lemma ClaimSelf(s: World, t: nat)
    requires DataInv(s) && t < |s.pool| && s.w.next < |s.w.pending|
    ensures var i := s.w.next;
            WorkerOk(s.remote, s.file, s.w.(next := i + 1),
                     s.pool[t].(pc := InnerRelease, item := i, off := s.w.pending[i].rangeStart))
  {
    assert TailOf(s.w.chunks, s.w.pending[s.w.next]);
  }

  lemma ClaimOthers(s: World, u: nat)
    requires DataInv(s) && u < |s.pool|
    ensures WorkerOk(s.remote, s.file, s.w.(next := s.w.next + 1), s.pool[u])
  {
    assert WorkerOk(s.remote, s.file, s.w, s.pool[u]);
  }

  lemma ClaimExclusive(s: World, s': World, t: nat)
    requires DataInv(s) && t < |s.pool| && |s'.pool| == |s.pool|
    requires s'.pool == s.pool[t := s'.pool[t]]
    requires Holds(s'.pool[t].pc) ==> s'.pool[t].item == s.w.next
    ensures Exclusive(s')
  {
    forall u | 0 <= u < |s.pool|
      ensures Holds(s.pool[u].pc) ==> s.pool[u].item < s.w.next
    {
      assert WorkerOk(s.remote, s.file, s.w, s.pool[u]);
    }
  }

  lemma ClaimKeeps(s: World, t: nat, k: nat, to: Pc)
    requires DataInv(s) && ActEnabled(s, t, k, to) && s.pool[t].pc == Claim
    ensures DataInv(DoAct(s, t, k, to))
  {
    var s' := DoAct(s, t, k, to);
    var w' := s.w.(next := s.w.next + 1);
    assert s'.w == w' && s'.pool == s.pool[t := s'.pool[t]];
    ClaimExclusive(s, s', t);
    if s.w.next < |s.w.pending| { ClaimSelf(s, t); }
    forall u | 0 <= u < |s'.pool|
      ensures WorkerOk(s'.remote, s'.file, s'.w, s'.pool[u])
    {
      ClaimOthers(s, u);
    }
  }

  lemma WorkerStays(remote: seq<byte>, before: seq<byte>, after: seq<byte>, w: Work, x: Worker)
    requires |before| == |remote| && NoWorse(before, after, remote) && WorkerOk(remote, before, w, x)
    ensures WorkerOk(remote, after, w, x)
  {
  }

  lemma SliceOfSlice(xs: seq<byte>, lo: nat, n: nat, i: nat, k: nat)
    requires lo + n <= |xs| && i + k <= n
    ensures xs[lo..lo + n][i..i + k] == xs[lo + i..lo + i + k]
  {
    var a, b := xs[lo..lo + n][i..i + k], xs[lo + i..lo + i + k];
    assert forall j :: 0 <= j < k ==> a[j] == b[j];
  }

  /** The bytes a write puts down are the remote bytes of that place. */
  lemma WritePart(remote: seq<byte>, file: seq<byte>, w: Work, x: Worker, k: nat)
    requires x.pc == Write && x.written + k <= |x.data| && WorkerOk(remote, file, w, x)
    ensures x.off + k <= |remote|
    ensures x.data[x.written..x.written + k] == remote[x.off..x.off + k]
  {
    SliceOfSlice(remote, ChunkOf(w, x).Pos(), |x.data|, x.written, k);
  }

  lemma MatchesJoin(file: seq<byte>, remote: seq<byte>, lo: int, mid: int, hi: int)
    requires Matches(file, remote, lo, mid) && Matches(file, remote, mid, hi)
    ensures Matches(file, remote, lo, hi)
  {
  }

  lemma MatchesStays(before: seq<byte>, after: seq<byte>, remote: seq<byte>, lo: int, hi: int)
    requires NoWorse(before, after, remote) && Matches(before, remote, lo, hi)
    ensures Matches(after, remote, lo, hi)
  {
  }

  lemma WriteSelf(s: World, t: nat, k: nat, to: Pc)
    requires |s.file| == |s.remote|
    requires ActEnabled(s, t, k, to) && s.pool[t].pc == Write && k > 0
    requires WorkerOk(s.remote, s.file, s.w, s.pool[t])
    ensures NoWorse(s.file, DoAct(s, t, k, to).file, s.remote)
    ensures WorkerOk(s.remote, DoAct(s, t, k, to).file, s.w, DoAct(s, t, k, to).pool[t])
  {
    var x := s.pool[t];
    var at := ChunkOf(s.w, x).Pos();
    WritePart(s.remote, s.file, s.w, x, k);
    var part := x.data[x.written..x.written + k];
    var after := Overwrite(s.file, x.off, part);
    WriteHelps(s.file, s.remote, x.off, part);
    MatchesStays(s.file, after, s.remote, at, x.off);
    MatchesJoin(after, s.remote, at, x.off, x.off + k);
  }

  lemma WriteKeeps(s: World, t: nat, k: nat, to: Pc)
    requires DataInv(s) && ActEnabled(s, t, k, to) && s.pool[t].pc == Write && k > 0
    ensures DataInv(DoAct(s, t, k, to))
  {
    var s' := DoAct(s, t, k, to);
    assert WorkerOk(s.remote, s.file, s.w, s.pool[t]);
    WriteSelf(s, t, k, to);
    SafeStays(s.file, s'.file, s.remote, s.w.chunks);
    forall i | 0 <= i < |s.images|
      ensures SafeChunks(s'.file, s'.remote, s'.images[i])
    {
      SafeStays(s.file, s'.file, s.remote, s.images[i]);
    }
    forall u | 0 <= u < |s'.pool|
      ensures WorkerOk(s'.remote, s'.file, s'.w, s'.pool[u])
    {
      if u != t { WorkerStays(s.remote, s.file, s'.file, s.w, s.pool[u]); }
    }
    var moved := s.(pool := s'.pool);
    assert Exclusive(moved);
  }

  /** Receiving on the held chunk leaves the other threads' chunks alone. */
  lemma UpdateOthers(s: World, t: nat, w': Work, u: nat)
    requires DataInv(s) && t < |s.pool| && s.pool[t].pc == Update
    requires w' == AddReceived(s.w, ItemOf(s, s.pool[t]).chunk, |s.pool[t].data|)
    requires u < |s.pool| && u != t
    ensures WorkerOk(s.remote, s.file, w', s.pool[u])
  {
    var y := s.pool[u];
    assert WorkerOk(s.remote, s.file, s.w, y);
    if Holds(y.pc) {
      assert s.w.pending[y.item].chunk != ItemOf(s, s.pool[t]).chunk;
      assert ChunkOf(w', y) == ChunkOf(s.w, y);
    }
  }

  lemma UpdateItems(s: World, t: nat, w': Work)
    requires DataInv(s) && t < |s.pool| && s.pool[t].pc == Update
    requires w' == AddReceived(s.w, ItemOf(s, s.pool[t]).chunk, |s.pool[t].data|)
    ensures ItemsInv(w')
  {
    var x := s.pool[t];
    assert WorkerOk(s.remote, s.file, s.w, x);
    forall k | w'.next <= k < |w'.pending|
      ensures TailOf(w'.chunks, w'.pending[k])
    {
      assert TailOf(s.w.chunks, s.w.pending[k]);
      assert w'.pending[k].chunk != ItemOf(s, x).chunk;
    }
  }

  /** Counting bytes that already match keeps a chunk list safe. */
  lemma ReceiveSafe(file: seq<byte>, remote: seq<byte>, w: Work, c: nat, bytes: nat)
    requires SafeChunks(file, remote, w.chunks) && c < |w.chunks|
    requires w.chunks[c].Pos() + bytes <= w.chunks[c].end + 1
    requires Matches(file, remote, w.chunks[c].Pos(), w.chunks[c].Pos() + bytes)
    ensures SafeChunks(file, remote, AddReceived(w, c, bytes).chunks)
  {
    var cs := w.chunks;
    var cs' := AddReceived(w, c, bytes).chunks;
    forall i | 0 <= i < |cs'|
      ensures Matches(file, remote, cs'[i].start, cs'[i].Pos())
    {
      assert Matches(file, remote, cs[i].start, cs[i].Pos());
    }
  }

  /** A worker that has written its buffer may count all of it. */
  lemma UpdateFits(remote: seq<byte>, file: seq<byte>, w: Work, x: Worker)
    requires x.pc == Update && WorkerOk(remote, file, w, x)
    ensures ChunkOf(w, x).Pos() + |x.data| <= ChunkOf(w, x).end + 1
    ensures Matches(file, remote, ChunkOf(w, x).Pos(), ChunkOf(w, x).Pos() + |x.data|)
  {
  }

  lemma UpdateKeeps(s: World, t: nat, k: nat, to: Pc)
    requires DataInv(s) && ActEnabled(s, t, k, to) && s.pool[t].pc == Update
    ensures DataInv(DoAct(s, t, k, to))
  {
    var s' := DoAct(s, t, k, to);
    assert WorkerOk(s.remote, s.file, s.w, s.pool[t]);
    UpdateItems(s, t, s'.w);
    UpdateFits(s.remote, s.file, s.w, s.pool[t]);
    ReceiveSafe(s.file, s.remote, s.w, ItemOf(s, s.pool[t]).chunk, |s.pool[t].data|);
    forall u | 0 <= u < |s'.pool|
      ensures WorkerOk(s'.remote, s'.file, s'.w, s'.pool[u])
    {
      if u != t { UpdateOthers(s, t, s'.w, u); }
    }
  }

  /** A complete copy is a safe image. */
  lemma SnapIsSafe(s: World)
    requires DataInv(s) && s.store.Some? && |s.store.value.snap| == |s.w.chunks|
    ensures SafeChunks(s.file, s.remote, s.store.value.snap)
  {
    var snap := s.store.value.snap;
    assert forall i :: 0 <= i < |snap| ==> Older(snap[i], s.w.chunks[i]);
    forall i | 0 <= i < |snap|
      ensures Matches(s.file, s.remote, snap[i].start, snap[i].Pos())
    {
      assert Matches(s.file, s.remote, s.w.chunks[i].start, s.w.chunks[i].Pos());
    }
  }

  lemma CommitKeeps(s: World)
    requires DataInv(s) && s.store.Some? && |s.store.value.snap| == |s.w.chunks|
    ensures DataInv(Commit(s))
  {
    SnapIsSafe(s);
  }

  /** The steps that touch neither file nor work. */
  predicate Plain(pc: Pc)
  {
    pc != Claim && pc != Write && pc != Update && !Storing(pc)
  }

  /** Program counters at which a worker has bytes in its buffer or has just
      counted them. */
  predicate Carries(pc: Pc)
  {
    match pc
    case Read | Write | Update | TotalAdd | UnsavedAdd | StoreWait | StoreHeld | FinishCheck => true
    case _ => false
  }

  /** What a plain step leaves of the locals. */
  predicate SameLocals(x: Worker, x': Worker, k: nat)
  {
    && (Holds(x'.pc) ==> Holds(x.pc) && x'.item == x.item)
    && (x.pc != Read ==> x'.data == x.data && x'.off == x.off && x'.fin == x.fin)
    && (x'.pc == Read ==> x'.allowed == k && 1 <= k <= BUFFER_SIZE)
    && (Carries(x'.pc) ==> Carries(x.pc) || x'.pc == Read)
  }

  lemma PlainSide(s: World, t: nat, k: nat, to: Pc)
    requires ActEnabled(s, t, k, to) && Plain(s.pool[t].pc)
    ensures var side := ActOf(s, t, k, to).side; !side.NewWork? && !side.NewFile? && !side.CommitStore?
  {
  }

  lemma CarrierMoves(s: World, t: nat, k: nat, to: Pc)
    requires ActEnabled(s, t, k, to) && Plain(s.pool[t].pc) && Carries(s.pool[t].pc)
    ensures SameLocals(s.pool[t], ActOf(s, t, k, to).x, k)
  {
  }

  lemma HolderMoves(s: World, t: nat, k: nat, to: Pc)
    requires ActEnabled(s, t, k, to) && Plain(s.pool[t].pc) && Holds(s.pool[t].pc) && !Carries(s.pool[t].pc)
    ensures SameLocals(s.pool[t], ActOf(s, t, k, to).x, k)
  {
  }

  lemma FreeMoves(s: World, t: nat, k: nat, to: Pc)
    requires ActEnabled(s, t, k, to) && Plain(s.pool[t].pc) && !Holds(s.pool[t].pc)
    ensures SameLocals(s.pool[t], ActOf(s, t, k, to).x, k)
  {
  }

  lemma PlainLocals(s: World, t: nat, k: nat, to: Pc)
    requires ActEnabled(s, t, k, to) && Plain(s.pool[t].pc)
    ensures SameLocals(s.pool[t], ActOf(s, t, k, to).x, k)
  {
    if Carries(s.pool[t].pc) {
      CarrierMoves(s, t, k, to);
    } else if Holds(s.pool[t].pc) {
      HolderMoves(s, t, k, to);
    } else {
      FreeMoves(s, t, k, to);
    }
  }

  lemma PlainOk(remote: seq<byte>, file: seq<byte>, w: Work, x: Worker, x': Worker, k: nat)
    requires WorkerOk(remote, file, w, x) && SameLocals(x, x', k) && !Carries(x.pc)
    ensures WorkerOk(remote, file, w, x')
  {
  }

  lemma ReadSelf(s: World, t: nat, k: nat, to: Pc)
    requires ActEnabled(s, t, k, to) && s.pool[t].pc == Read
    requires ItemOf(s, s.pool[t]).rangeEnd == ChunkOf(s.w, s.pool[t]).end
    requires WorkerOk(s.remote, s.file, s.w, s.pool[t])
    ensures WorkerOk(s.remote, s.file, s.w, DoAct(s, t, k, to).pool[t])
  {
  }

  lemma CountSelf(s: World, t: nat, k: nat, to: Pc)
    requires ActEnabled(s, t, k, to) && Plain(s.pool[t].pc) && Carries(s.pool[t].pc) && s.pool[t].pc != Read
    requires WorkerOk(s.remote, s.file, s.w, s.pool[t])
    ensures WorkerOk(s.remote, s.file, s.w, DoAct(s, t, k, to).pool[t])
  {
  }

  lemma PlainWorker(s: World, t: nat, k: nat, to: Pc)
    requires ActEnabled(s, t, k, to) && Plain(s.pool[t].pc)
    requires Holds(s.pool[t].pc) ==> ItemOf(s, s.pool[t]).rangeEnd == ChunkOf(s.w, s.pool[t]).end
    requires WorkerOk(s.remote, s.file, s.w, s.pool[t])
    ensures WorkerOk(s.remote, s.file, s.w, ActOf(s, t, k, to).x)
  {
    var x := s.pool[t];
    if x.pc == Read {
      ReadSelf(s, t, k, to);
    } else if Carries(x.pc) {
      CountSelf(s, t, k, to);
    } else {
      PlainLocals(s, t, k, to);
      PlainOk(s.remote, s.file, s.w, x, ActOf(s, t, k, to).x, k);
    }
  }

  lemma ApplyMoves(s: World, t: nat, f: Effect)
    requires t < |s.pool| && !f.side.NewWork? && !f.side.NewFile? && !f.side.CommitStore?
    requires Holds(f.x.pc) ==> Holds(s.pool[t].pc) && f.x.item == s.pool[t].item
    ensures Moved(s, Apply(s, t, f), t) && Apply(s, t, f).pool[t] == f.x
  {
  }

  lemma PlainKeeps(s: World, t: nat, k: nat, to: Pc)
    requires DataInv(s) && ActEnabled(s, t, k, to) && Plain(s.pool[t].pc)
    ensures DataInv(DoAct(s, t, k, to))
  {
    assert WorkerOk(s.remote, s.file, s.w, s.pool[t]);
    PlainSide(s, t, k, to);
    PlainLocals(s, t, k, to);
    PlainWorker(s, t, k, to);
    var f := ActOf(s, t, k, to);
    ApplyMoves(s, t, f);
    MoveKeeps(s, Apply(s, t, f), t);
  }

  /** Where a worker goes after its store commits. */
  function AfterStore(pc: Pc): Pc
  {
    if pc == StoreHeld then FinishCheck else if pc == FinalHeld then FinalClean else CloseSched
  }

  lemma StoredKeeps(s: World, t: nat, k: nat, to: Pc)
    requires DataInv(s) && ActEnabled(s, t, k, to) && Storing(s.pool[t].pc)
    ensures DataInv(DoAct(s, t, k, to))
  {
    var x := s.pool[t];
    var moved := s.(pool := s.pool[t := x.(pc := AfterStore(x.pc))], e := Stored(s.e), h := s.h.(base := 0));
    assert WorkerOk(s.remote, s.file, s.w, x);
    assert DoAct(s, t, k, to) == Commit(moved);
    MoveKeeps(s, moved, t);
    CommitKeeps(moved);
  }

  lemma ActKeeps(s: World, t: nat, k: nat, to: Pc)
    requires DataInv(s) && ActEnabled(s, t, k, to)
    ensures DataInv(DoAct(s, t, k, to))
  {
    var x := s.pool[t];
    assert WorkerOk(s.remote, s.file, s.w, x);
    if Plain(x.pc) {
      PlainKeeps(s, t, k, to);
    } else if Storing(x.pc) {
      StoredKeeps(s, t, k, to);
    } else if x.pc == Claim {
      ClaimKeeps(s, t, k, to);
    } else if x.pc == Update {
      UpdateKeeps(s, t, k, to);
    } else if k > 0 {
      WriteKeeps(s, t, k, to);
    } else {
      MoveKeeps(s, DoAct(s, t, k, to), t);
    }
  }

  lemma RebuildKeeps(s: World, limit: int)
    requires DataInv(s) && Enabled(s, Rebuild(limit))
    requires forall t :: 0 <= t < |s.pool| ==> !Live(s.pool[t].pc)
    ensures DataInv(Do(s, Rebuild(limit)))
  {
    BuildShape(s.w.chunks, |s.w.chunks|);
    var s' := Do(s, Rebuild(limit));
    assert forall k :: 0 <= k < |s'.w.pending| ==> TailOf(s.w.chunks, s'.w.pending[k]);
    forall t | 0 <= t < |s'.pool|
      ensures WorkerOk(s'.remote, s'.file, s'.w, s'.pool[t])
    {
    }
  }

  /** Loading any stored image, however stale, gives a correct state again. */
  lemma CrashKeeps(s: World, i: nat, maxC: int)
    requires DataInv(s) && Enabled(s, Crash(i, maxC))
    ensures DataInv(Do(s, Crash(i, maxC)))
  {
  }

  lemma StepKeeps(s: World, st: Step)
    requires DataInv(s) && Enabled(s, st)
    requires st.Rebuild? ==> forall t :: 0 <= t < |s.pool| ==> !Live(s.pool[t].pc)
    ensures DataInv(Do(s, st))
  {
    match st
    case Act(t, k, to) => ActKeeps(s, t, k, to);
    case Take(t) => MoveKeeps(s, Do(s, st), t);
    case CommitOutside => CommitKeeps(s.(e := Stored(s.e)));
    case Rebuild(limit) => RebuildKeeps(s, limit);
    case Crash(i, maxC) => CrashKeeps(s, i, maxC);
    case _ =>
  }

  lemma StartHolds(remote: seq<byte>, file: seq<byte>, cs: seq<Chunk>, threads: nat, maxC: int)
    requires FreshJob(remote, file, cs, threads, maxC)
    ensures DataInv(Start(remote, file, cs, threads, maxC))
  {
  }
}
