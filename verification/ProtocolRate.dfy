/** From grants to bytes: what the workers write is what the token bucket granted
    them. */
module ProtocolRate {
  import opened Basics
  import opened Chunks
  import opened EngineSpec
  import opened Protocol
  import opened ProtocolData
  import opened ProtocolCounts
  import opened ProtocolRuns
  import TokenBucket

  /** Bytes that a worker may still write from its last grant. */
  function OwedW(x: Worker): nat
  {
    if x.pc == Read then x.allowed else if x.pc == Write then Max(0, |x.data| - x.written) else 0
  }

  /** Bytes granted and bytes written by one step. */
  function Grants(s: World, st: Step): nat
  {
    if st.Act? && st.thread < |s.pool| && s.pool[st.thread].pc == Budget then st.k else 0
  }

  function Writes(s: World, st: Step): nat
  {
    if st.Act? && st.thread < |s.pool| && s.pool[st.thread].pc == Write then st.k else 0
  }

  function GrantedIn(s: World, steps: seq<Step>): nat
    requires Legal(s, steps)
    decreases |steps|
  {
    if steps == [] then 0 else Grants(s, steps[0]) + GrantedIn(Do(s, steps[0]), steps[1..])
  }

  function WrittenIn(s: World, steps: seq<Step>): nat
    requires Legal(s, steps)
    decreases |steps|
  {
    if steps == [] then 0 else Writes(s, steps[0]) + WrittenIn(Do(s, steps[0]), steps[1..])
  }

  /** How a worker's step moves what it is owed. */
  predicate MovesOwed(x: Worker, k: nat, x': Worker)
  {
    && (x.pc == Budget ==> OwedW(x') <= k)
    && (x.pc == Write ==> OwedW(x') + k <= OwedW(x))
    && (x.pc != Budget ==> OwedW(x') <= OwedW(x))
  }

  lemma EnteringOwes(s: World, t: nat, k: nat, to: Pc)
    requires ActEnabled(s, t, k, to) && Entering(s.pool[t].pc)
    ensures MovesOwed(s.pool[t], k, ActOf(s, t, k, to).x)
  {
  }

  lemma StreamingOwes(s: World, t: nat, k: nat, to: Pc)
    requires ActEnabled(s, t, k, to) && Streaming(s.pool[t].pc)
    ensures MovesOwed(s.pool[t], k, ActOf(s, t, k, to).x)
  {
  }

  lemma ReportingOwes(s: World, t: nat, k: nat, to: Pc)
    requires ActEnabled(s, t, k, to) && Reporting(s.pool[t].pc)
    ensures MovesOwed(s.pool[t], k, ActOf(s, t, k, to).x)
  {
  }

  lemma LeavingOwes(s: World, t: nat, k: nat, to: Pc)
    requires ActEnabled(s, t, k, to) && Leaving(s.pool[t].pc)
    ensures MovesOwed(s.pool[t], k, ActOf(s, t, k, to).x)
  {
  }

  lemma ActOwes(s: World, t: nat, k: nat, to: Pc)
    requires ActEnabled(s, t, k, to)
    ensures MovesOwed(s.pool[t], k, ActOf(s, t, k, to).x)
  {
    FourClasses(s.pool[t].pc);
    if Entering(s.pool[t].pc) {
      EnteringOwes(s, t, k, to);
    } else if Streaming(s.pool[t].pc) {
      StreamingOwes(s, t, k, to);
    } else if Reporting(s.pool[t].pc) {
      ReportingOwes(s, t, k, to);
    } else {
      LeavingOwes(s, t, k, to);
    }
  }

  lemma ActPool(s: World, t: nat, f: Effect)
    requires t < |s.pool| && (f.side.CommitStore? ==> s.store.Some?)
    ensures Apply(s, t, f).pool == s.pool[t := f.x]
  {
  }

  lemma StepOwes(s: World, st: Step)
    requires Enabled(s, st)
    ensures Writes(s, st) + Tot(Do(s, st).pool, OwedW) <= Tot(s.pool, OwedW) + Grants(s, st)
  {
    if st.Act? {
      var f := ActOf(s, st.thread, st.k, st.to);
      ActOwes(s, st.thread, st.k, st.to);
      ActPool(s, st.thread, f);
      TotUpdate(s.pool, OwedW, st.thread, f.x);
    } else if st.Take? {
      TotUpdate(s.pool, OwedW, st.thread, IDLE.(pc := Taken));
    } else if st.Crash? {
      TotIdle(Do(s, st).pool, OwedW);
    } else {
      SamePool(s, st);
    }
  }

  lemma SamePool(s: World, st: Step)
    requires Enabled(s, st) && !st.Act? && !st.Take? && !st.Crash?
    ensures Do(s, st).pool == s.pool
  {
  }

  /** In every run the bytes written are at most the bytes granted, and what the
      workers were still owed at its beginning. */
  lemma {:induction false} WritesAreGranted(s: World, steps: seq<Step>)
    requires Legal(s, steps)
    ensures WrittenIn(s, steps) + Tot(Run(s, steps).pool, OwedW) <= Tot(s.pool, OwedW) + GrantedIn(s, steps)
    decreases |steps|
  {
    if steps != [] {
      StepOwes(s, steps[0]);
      WritesAreGranted(Do(s, steps[0]), steps[1..]);
    }
  }

  /** From the start of a job nobody is owed anything. */
  lemma JobWritesAreGranted(remote: seq<byte>, file: seq<byte>, cs: seq<Chunk>, threads: nat, maxC: int,
                            steps: seq<Step>)
    requires Legal(Start(remote, file, cs, threads, maxC), steps)
    ensures WrittenIn(Start(remote, file, cs, threads, maxC), steps)
              <= GrantedIn(Start(remote, file, cs, threads, maxC), steps)
  {
    var s0 := Start(remote, file, cs, threads, maxC);
    TotIdle(s0.pool, OwedW);
    WritesAreGranted(s0, steps);
  }

  /** At any time each thread is owed at most one buffer. */
  lemma {:induction false} OwedBound(remote: seq<byte>, file: seq<byte>, w: Work, pool: seq<Worker>)
    requires forall t :: 0 <= t < |pool| ==> WorkerOk(remote, file, w, pool[t])
    ensures Tot(pool, OwedW) <= BUFFER_SIZE * |pool|
  {
    if pool != [] {
      var n := |pool| - 1;
      assert WorkerOk(remote, file, w, pool[n]);
      forall t | 0 <= t < |pool[..n]|
        ensures WorkerOk(remote, file, w, pool[..n][t])
      {
        assert WorkerOk(remote, file, w, pool[t]);
      }
      OwedBound(remote, file, w, pool[..n]);
    }
  }

  /** The rate bound in bytes: over a window of a run whose grants are those of the
      passes i..j of a bucket with a fixed limit, at most `T` apart, the workers
      write at most the limit's bytes for `T`, one burst, and a buffer per thread
      granted before the window. */
  lemma WindowWrites(s: World, steps: seq<Step>, b: TokenBucket.Bucket, ps: seq<TokenBucket.Pass>, i: nat,
                     j: nat, T: real)
    requires Inv(s) && Legal(s, steps)
    requires TokenBucket.Filled(b) && b.limit > 0 && TokenBucket.Ordered(b.last, ps)
    requires i < j <= |ps| && ps[j - 1].now - ps[i].now <= T
    requires GrantedIn(s, steps) == TokenBucket.GrantedIn(TokenBucket.AfterPasses(b, ps[..i]), ps[i..j])
    ensures WrittenIn(s, steps) as real
              <= b.limit as real * T + MaxReal(32768.0, b.limit as real * 0.20) + (32768 * |s.pool|) as real
  {
    TokenBucket.WindowIsBounded(b, ps, i, j, T);
    WritesAreGranted(s, steps);
    OwedBound(s.remote, s.file, s.w, s.pool);
  }
}
