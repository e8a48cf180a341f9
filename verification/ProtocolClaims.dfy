/** Exclusive claiming: who may write where, and where each unfinished chunk is. */
module ProtocolClaims {
  import opened Basics
  import opened Chunks
  import opened EngineSpec
  import opened Protocol
  import opened ProtocolData
  import opened ProtocolCounts
  import opened ProtocolRuns

  /** The chunk waits behind the claim cursor. */
  ghost predicate Unclaimed(s: World, c: nat)
  {
    exists k :: s.w.next <= k < |s.w.pending| && s.w.pending[k].chunk == c
  }

  ghost predicate HeldBy(s: World, c: nat, t: nat)
  {
    t < |s.pool| && Holds(s.pool[t].pc) && s.pool[t].item < |s.w.pending| && ItemOf(s, s.pool[t]).chunk == c
  }

  ghost predicate Held(s: World, c: nat)
  {
    exists t :: HeldBy(s, c, t)
  }

  ghost predicate HoldsItem(s: World, k: nat)
  {
    exists t :: 0 <= t < |s.pool| && Holds(s.pool[t].pc) && s.pool[t].item == k
  }

  /** The chunk's item was claimed and its worker gave it up. */
  ghost predicate Dropped(s: World, c: nat)
  {
    exists k :: 0 <= k < s.w.next && k < |s.w.pending| && s.w.pending[k].chunk == c && !HoldsItem(s, k)
  }

  /** Two threads never hold the same chunk, and their chunks do not overlap. */
  lemma HoldersDiffer(s: World, t: nat, u: nat)
    requires Inv(s) && t < |s.pool| && u < |s.pool| && t != u
    requires Holds(s.pool[t].pc) && Holds(s.pool[u].pc)
    ensures ItemValid(s.w, s.pool[t]) && ItemValid(s.w, s.pool[u])
    ensures ItemOf(s, s.pool[t]).chunk != ItemOf(s, s.pool[u]).chunk
    ensures var a := ChunkOf(s.w, s.pool[t]); var b := ChunkOf(s.w, s.pool[u]); a.end < b.start || b.end < a.start
  {
    assert WorkerOk(s.remote, s.file, s.w, s.pool[t]) && WorkerOk(s.remote, s.file, s.w, s.pool[u]);
    assert s.pool[t].item != s.pool[u].item;
    var i, j := ItemOf(s, s.pool[t]).chunk, ItemOf(s, s.pool[u]).chunk;
    if i < j {
      TiledOrder(s.w.chunks, |s.remote|, i, j);
    } else {
      TiledOrder(s.w.chunks, |s.remote|, j, i);
    }
  }

  /** A write stays inside the unreceived part of the held chunk. */
  lemma WritesInside(s: World, t: nat)
    requires Inv(s) && t < |s.pool| && s.pool[t].pc == Write
    ensures ItemValid(s.w, s.pool[t])
    ensures var x := s.pool[t];
            ChunkOf(s.w, x).Pos() <= x.off && x.off + |x.data| - x.written <= ChunkOf(s.w, x).end + 1
  {
    assert WorkerOk(s.remote, s.file, s.w, s.pool[t]);
  }

  lemma OneItem(w: Work, k: nat, l: nat)
    requires ItemsInv(w) && k < |w.pending| && l < |w.pending|
    requires w.pending[k].chunk == w.pending[l].chunk
    ensures k == l
  {
  }

  lemma HolderItem(s: World, c: nat, k: nat, t: nat)
    requires Inv(s) && k < |s.w.pending| && s.w.pending[k].chunk == c && HeldBy(s, c, t)
    ensures s.pool[t].item == k && k < s.w.next
  {
    assert WorkerOk(s.remote, s.file, s.w, s.pool[t]);
    OneItem(s.w, k, s.pool[t].item);
  }

  /** Where a chunk is, read off its one item. */
  lemma PlaceOf(s: World, c: nat, k: nat)
    requires Inv(s) && k < |s.w.pending| && s.w.pending[k].chunk == c
    ensures Unclaimed(s, c) <==> k >= s.w.next
    ensures Held(s, c) <==> HoldsItem(s, k)
    ensures Dropped(s, c) <==> k < s.w.next && !HoldsItem(s, k)
    ensures HoldsItem(s, k) ==> k < s.w.next
  {
    if Unclaimed(s, c) {
      var l :| s.w.next <= l < |s.w.pending| && s.w.pending[l].chunk == c;
      OneItem(s.w, k, l);
    }
    if Held(s, c) {
      var t :| HeldBy(s, c, t);
      HolderItem(s, c, k, t);
    }
    if HoldsItem(s, k) {
      var t :| 0 <= t < |s.pool| && Holds(s.pool[t].pc) && s.pool[t].item == k;
      assert HeldBy(s, c, t);
      HolderItem(s, c, k, t);
    }
    if Dropped(s, c) {
      var l :| 0 <= l < s.w.next && l < |s.w.pending| && s.w.pending[l].chunk == c && !HoldsItem(s, l);
      OneItem(s.w, k, l);
    }
  }

  /** After the first rebuild every unfinished chunk is exactly one of
      unclaimed, held by one thread, or dropped. */
  lemma ChunkIsInOnePlace(s: World, c: nat)
    requires Inv(s) && s.h.generation > 0
    requires c < |s.w.chunks| && !s.w.chunks[c].Finished()
    ensures Unclaimed(s, c) || Held(s, c) || Dropped(s, c)
    ensures !(Unclaimed(s, c) && Held(s, c)) && !(Unclaimed(s, c) && Dropped(s, c)) && !(Held(s, c) && Dropped(s, c))
    ensures forall t, u :: HeldBy(s, c, t) && HeldBy(s, c, u) ==> t == u
  {
    assert HasItem(s.w.pending, c);
    var k :| 0 <= k < |s.w.pending| && s.w.pending[k].chunk == c;
    PlaceOf(s, c, k);
    forall t, u | HeldBy(s, c, t) && HeldBy(s, c, u)
      ensures t == u
    {
      if t != u { HoldersDiffer(s, t, u); }
    }
  }

  /** A rebuild puts every unfinished chunk back behind the cursor, leaves no
      holder, and its items with the received prefixes tile the file. */
  lemma RebuildReclaims(s: World, limit: int)
    requires Inv(s) && Enabled(s, Rebuild(limit))
    ensures var s' := Do(s, Rebuild(limit));
            && (forall t :: 0 <= t < |s'.pool| ==> !Holds(s'.pool[t].pc))
            && (forall c :: 0 <= c < |s'.w.chunks| && !s'.w.chunks[c].Finished() ==> Unclaimed(s', c))
            && ItemBytes(s'.w.pending) + ReceivedSum(s'.w.chunks) == |s.remote|
            && (forall at :: 0 <= at < |s.remote| ==> (InPrefix(s'.w.chunks, at) <==> !InItem(s'.w.pending, at)))
  {
    var s' := Do(s, Rebuild(limit));
    Drained(s);
    forall c | 0 <= c < |s'.w.chunks| && !s'.w.chunks[c].Finished()
      ensures Unclaimed(s', c)
    {
      BuildCovers(s.w.chunks, |s.w.chunks|, c);
      assert HasItem(s'.w.pending, c);
    }
    RebuildTiles(s.w.chunks, |s.remote|);
  }

  /** The same generation: no rebuild and no restart. */
  predicate SameGeneration(steps: seq<Step>)
  {
    forall i :: 0 <= i < |steps| ==> !steps[i].Rebuild? && !steps[i].Crash?
  }

  lemma {:induction false} CursorGrows(s: World, steps: seq<Step>)
    requires Legal(s, steps) && SameGeneration(steps)
    ensures Run(s, steps).w.next >= s.w.next && Run(s, steps).w.pending == s.w.pending
    decreases |steps|
  {
    if steps != [] {
      var st := steps[0];
      if st.Act? { ActPending(s, st.thread, st.k, st.to); }
      CursorGrows(Do(s, st), steps[1..]);
    }
  }

  /** In one generation an item goes to at most one worker: of two claims that
      both succeed, the later gets a later item. */
  lemma ItemsAreClaimedOnce(s: World, t: nat, between: seq<Step>, u: nat, k: nat, to: Pc)
    requires ActEnabled(s, t, k, to) && s.pool[t].pc == Claim
    requires var s1 := DoAct(s, t, k, to);
             && Legal(s1, between) && SameGeneration(between)
             && ActEnabled(Run(s1, between), u, k, to) && Run(s1, between).pool[u].pc == Claim
             && Run(s1, between).w.next < |s.w.pending|
    ensures var s1 := DoAct(s, t, k, to);
            && s1.pool[t].item == s.w.next
            && DoAct(Run(s1, between), u, k, to).pool[u].item > s.w.next
  {
    var s1 := DoAct(s, t, k, to);
    ActPending(s, t, k, to);
    CursorGrows(s1, between);
  }
}
