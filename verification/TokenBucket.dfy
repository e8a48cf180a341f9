/** The token bucket that limits how fast an engine's workers may read. Time and
    tokens are reals; the clock does not run backwards. */
module TokenBucket {
  import opened Basics

  datatype Bucket = Bucket(limit: nat, tokens: real, last: real)

  /** Up to 200 ms of burst, and at least one buffer. */
  function Burst(limit: nat): real { MaxReal(32768.0, limit as real * 0.20) }

  /** RefillRateTokens. */
  function Refill(b: Bucket, now: real): Bucket
  {
    if b.limit == 0 then b.(tokens := 0.0, last := now)
    else if now - b.last > 0.0 then
      var grown := b.tokens + Inflow(b.limit, now - b.last);
      b.(tokens := if grown > Burst(b.limit) then Burst(b.limit) else grown, last := now)
    else b
  }

  /** Bytes one pass of the acquire loop grants: none while less than a token is
      there. */
  function Granted(b: Bucket, requested: nat): nat
  {
    if b.tokens >= 1.0 then Min(requested, b.tokens.Floor) else 0
  }

  /** One pass of the acquire loop under the rate lock, by some worker. */
  datatype Pass = Pass(now: real, requested: nat)

  function AfterPass(b: Bucket, p: Pass): Bucket
  {
    var r := Refill(b, p.now);
    r.(tokens := r.tokens - Granted(r, p.requested) as real)
  }

  function AfterPasses(b: Bucket, ps: seq<Pass>): Bucket
    decreases |ps|
  {
    if ps == [] then b else AfterPasses(AfterPass(b, ps[0]), ps[1..])
  }

  /** Bytes granted to all workers together. */
  function GrantedIn(b: Bucket, ps: seq<Pass>): nat
    decreases |ps|
  {
    if ps == [] then 0
    else Granted(Refill(b, ps[0].now), ps[0].requested) + GrantedIn(AfterPass(b, ps[0]), ps[1..])
  }

  predicate Filled(b: Bucket) { 0.0 <= b.tokens <= Burst(b.limit) }

  /** The clock readings under the lock do not decrease, from `since` on. */
  predicate Ordered(since: real, ps: seq<Pass>)
  {
    ps != [] ==>
      && since <= ps[0].now
      && forall i :: 0 < i < |ps| ==> ps[i - 1].now <= ps[i].now
  }

  /** What flows in over `dt`. */
  function Inflow(limit: nat, dt: real): real { limit as real * dt }

  lemma MulPositive(a: real, x: real)
    requires a >= 0.0 && x >= 0.0
    ensures a * x >= 0.0
  {
  }

  lemma InflowGrows(limit: nat, x: real, y: real)
    requires x <= y
    ensures Inflow(limit, x) <= Inflow(limit, y)
    ensures x >= 0.0 ==> Inflow(limit, x) >= 0.0
  {
    MulPositive(limit as real, y - x);
    if x >= 0.0 { MulPositive(limit as real, x); }
  }

  lemma InflowAdds(limit: nat, x: real, y: real)
    ensures Inflow(limit, x) + Inflow(limit, y) == Inflow(limit, x + y)
  {
  }

  /** A refill stays within the burst and adds at most what flowed in. */
  lemma RefillBounds(b: Bucket, now: real)
    requires Filled(b) && b.limit > 0 && b.last <= now
    ensures Filled(Refill(b, now)) && Refill(b, now).limit == b.limit && Refill(b, now).last == now
    ensures Refill(b, now).tokens <= b.tokens + Inflow(b.limit, now - b.last)
  {
    InflowGrows(b.limit, now - b.last, now - b.last);
  }

  /** What a bucket holds at `now`, if nobody takes anything: it fills at the rate of
      the limit, up to 200 ms of it or 32768 bytes. */
  function Held(b: Bucket, now: real): real
  {
    MinReal(MaxReal(32768.0, b.limit as real * 0.20), b.tokens + b.limit as real * (now - b.last))
  }

  lemma RefillExactly(b: Bucket, now: real)
    requires Filled(b) && b.limit > 0 && b.last <= now
    ensures Refill(b, now) == Bucket(b.limit, Held(b, now), now)
  {
    var inflow := Inflow(b.limit, now - b.last);
    HeldIs(b, now, inflow);
    if now == b.last { InflowZero(b.limit, now - b.last); }
  }

  lemma HeldIs(b: Bucket, now: real, inflow: real)
    requires inflow == Inflow(b.limit, now - b.last)
    ensures Held(b, now) == MinReal(Burst(b.limit), b.tokens + inflow)
  {
  }

  lemma PassKeepsFilled(b: Bucket, p: Pass)
    requires Filled(b) && b.limit > 0 && b.last <= p.now
    ensures Filled(AfterPass(b, p)) && AfterPass(b, p).limit == b.limit && AfterPass(b, p).last == p.now
    ensures AfterPass(b, p).tokens == Refill(b, p.now).tokens - Granted(Refill(b, p.now), p.requested) as real
  {
    RefillBounds(b, p.now);
  }

  lemma {:induction false} PassesKeepFilled(b: Bucket, ps: seq<Pass>)
    requires Filled(b) && b.limit > 0 && Ordered(b.last, ps)
    ensures Filled(AfterPasses(b, ps)) && AfterPasses(b, ps).limit == b.limit
    ensures AfterPasses(b, ps).last == if ps == [] then b.last else ps[|ps| - 1].now
    decreases |ps|
  {
    if ps != [] {
      PassKeepsFilled(b, ps[0]);
      OrderedTail(b.last, ps);
      PassesKeepFilled(AfterPass(b, ps[0]), ps[1..]);
    }
  }

  lemma OrderedTail(since: real, ps: seq<Pass>)
    requires ps != [] && Ordered(since, ps)
    ensures Ordered(ps[0].now, ps[1..])
  {
    var tail := ps[1..];
    assert forall i :: 0 <= i < |tail| ==> tail[i] == ps[i + 1];
  }

  lemma InflowZero(limit: nat, dt: real)
    requires dt == 0.0
    ensures Inflow(limit, dt) == 0.0
  {
  }

  /** Grants add up over the refills between them. */
  lemma AddUp(first: nat, rest: nat, tokens: real, left: real, refilled: real, in1: real, in2: real)
    requires left == tokens - first as real && refilled <= left + in1 && rest as real <= refilled + in2
    ensures (first + rest) as real <= tokens + (in1 + in2)
  {
  }

  /** What passes grant comes out of the tokens at their start and the refill
      while they last. */
  lemma {:induction false} GrantsAreTokens(b: Bucket, ps: seq<Pass>, last: real)
    requires Filled(b) && b.limit > 0 && ps != [] && Ordered(b.last, ps) && last == ps[|ps| - 1].now
    ensures GrantedIn(b, ps) as real <= Refill(b, ps[0].now).tokens + Inflow(b.limit, last - ps[0].now)
    decreases |ps|
  {
    var now := ps[0].now;
    var b1 := AfterPass(b, ps[0]);
    var rest := ps[1..];
    var first := Granted(Refill(b, now), ps[0].requested);
    PassKeepsFilled(b, ps[0]);
    if rest == [] {
      InflowZero(b.limit, last - now);
      assert GrantedIn(b1, rest) == 0;
    } else {
      var next := rest[0].now;
      OrderedTail(b.last, ps);
      assert last == rest[|rest| - 1].now;
      GrantsAreTokens(b1, rest, last);
      RefillBounds(b1, next);
      InflowAdds(b.limit, next - now, last - next);
      AddUp(first, GrantedIn(b1, rest), Refill(b, now).tokens, b1.tokens, Refill(b1, next).tokens,
            Inflow(b.limit, next - now), Inflow(b.limit, last - next));
    }
  }

  lemma WindowOrdered(since: real, ps: seq<Pass>, i: nat, j: nat, at: real)
    requires Ordered(since, ps) && i < j <= |ps|
    requires at == if i == 0 then since else ps[i - 1].now
    ensures Ordered(at, ps[i..j]) && ps[i..j] != []
    ensures ps[i..j][0] == ps[i] && ps[i..j][|ps[i..j]| - 1] == ps[j - 1]
  {
    var window := ps[i..j];
    assert forall k :: 0 <= k < |window| ==> window[k] == ps[i + k];
  }

  lemma PrefixFilled(b: Bucket, ps: seq<Pass>, i: nat)
    requires Filled(b) && b.limit > 0 && Ordered(b.last, ps) && i <= |ps|
    ensures Filled(AfterPasses(b, ps[..i])) && AfterPasses(b, ps[..i]).limit == b.limit
    ensures AfterPasses(b, ps[..i]).last == if i == 0 then b.last else ps[i - 1].now
  {
    assert Ordered(b.last, ps[..i]);
    PassesKeepFilled(b, ps[..i]);
  }

  lemma BurstBounds(b: Bucket, ps: seq<Pass>, T: real)
    requires Filled(b) && b.limit > 0 && ps != [] && Ordered(b.last, ps)
    requires ps[|ps| - 1].now - ps[0].now <= T
    ensures GrantedIn(b, ps) as real <= Inflow(b.limit, T) + Burst(b.limit)
  {
    GrantsAreTokens(b, ps, ps[|ps| - 1].now);
    RefillBounds(b, ps[0].now);
    InflowGrows(b.limit, ps[|ps| - 1].now - ps[0].now, T);
  }

  lemma WindowBurst(b: Bucket, ps: seq<Pass>, i: nat, j: nat, T: real)
    requires Filled(b) && b.limit > 0 && Ordered(b.last, ps)
    requires i < j <= |ps| && ps[j - 1].now - ps[i].now <= T
    ensures GrantedIn(AfterPasses(b, ps[..i]), ps[i..j]) as real <= Inflow(b.limit, T) + Burst(b.limit)
  {
    var start := AfterPasses(b, ps[..i]);
    PrefixFilled(b, ps, i);
    WindowOrdered(b.last, ps, i, j, start.last);
    BurstBounds(start, ps[i..j], T);
  }

  /** No more than the limit's bytes for `dt` seconds, and one burst. */
  predicate RateKept(granted: nat, limit: nat, dt: real)
  {
    granted as real <= limit as real * dt + MaxReal(32768.0, limit as real * 0.20)
  }

  /** Rate bound: in any run with a fixed positive limit, whatever workers pass
      when, the passes of any window of length `T` grant at most the limit's
      bytes for `T` plus one burst, and the tokens stay within the burst. */
  lemma WindowIsBounded(b: Bucket, ps: seq<Pass>, i: nat, j: nat, T: real)
    requires Filled(b) && b.limit > 0 && Ordered(b.last, ps)
    requires i < j <= |ps| && ps[j - 1].now - ps[i].now <= T
    ensures RateKept(GrantedIn(AfterPasses(b, ps[..i]), ps[i..j]), b.limit, T)
    ensures Filled(AfterPasses(b, ps[..j]))
  {
    WindowBurst(b, ps, i, j, T);
    PrefixFilled(b, ps, j);
  }

  // ---------------------------------------------------------------------------
  // The acquire loop.

  /** What one pass finds: the clock, and whether the state is Downloading. */
  datatype Wake = Wake(now: real, downloading: bool)

  datatype Answer = Allowed(bytes: nat) | Waiting

  /** AcquireReadBudget, for the wake-ups it lives through; `Waiting` when they
      end before it returns. */
  function Acquire(b: Bucket, requested: nat, wakes: seq<Wake>): (Bucket, Answer)
    decreases |wakes|
  {
    if b.limit == 0 || requested == 0 then (b, Allowed(requested))
    else if wakes == [] then (b, Waiting)
    else
      var p := Pass(wakes[0].now, requested);
      var r := Refill(b, p.now);
      if r.tokens >= 1.0 then (AfterPass(b, p), Allowed(Granted(r, requested)))
      else if !wakes[0].downloading then (AfterPass(b, p), Allowed(0))
      else Acquire(AfterPass(b, p), requested, wakes[1..])
  }

  /** The passes of one call. */
  function PassesOf(requested: nat, wakes: seq<Wake>): seq<Pass>
  {
    seq(|wakes|, i requires 0 <= i < |wakes| => Pass(wakes[i].now, requested))
  }

  /** A call is a run of passes: its answer is what they grant; it is never more
      than was asked; and an answer of zero means the engine had stopped. */
  lemma {:induction false} AcquireIsPasses(b: Bucket, requested: nat, wakes: seq<Wake>) returns (n: nat)
    requires b.limit > 0 && requested > 0
    ensures n <= |wakes|
    ensures Acquire(b, requested, wakes).0 == AfterPasses(b, PassesOf(requested, wakes[..n]))
    ensures match Acquire(b, requested, wakes).1
            case Waiting => n == |wakes| && GrantedIn(b, PassesOf(requested, wakes[..n])) == 0
            case Allowed(bytes) =>
              && bytes == GrantedIn(b, PassesOf(requested, wakes[..n])) && bytes <= requested
              && (bytes == 0 ==> n > 0 && !wakes[n - 1].downloading)
    decreases |wakes|
  {
    if wakes == [] {
      n := 0;
    } else {
      var p := Pass(wakes[0].now, requested);
      if Refill(b, p.now).tokens >= 1.0 || !wakes[0].downloading {
        n := 1;
        assert PassesOf(requested, wakes[..1]) == [p];
        assert [p][1..] == [];
      } else {
        var m := AcquireIsPasses(AfterPass(b, p), requested, wakes[1..]);
        n := m + 1;
        assert wakes[..n] == [wakes[0]] + wakes[1..][..m];
        assert PassesOf(requested, wakes[..n])[1..] == PassesOf(requested, wakes[1..][..m]);
      }
    }
  }

  predicate OrderedWakes(since: real, wakes: seq<Wake>)
  {
    wakes != [] ==>
      && since <= wakes[0].now
      && forall i :: 0 < i < |wakes| ==> wakes[i - 1].now <= wakes[i].now
  }

  /** Waiting takes nothing: what a bucket will hold later stays the same. */
  lemma HeldOn(b: Bucket, now: real, later: real)
    requires Filled(b) && b.limit > 0 && b.last <= now <= later && Held(b, now) < 1.0
    ensures Held(Bucket(b.limit, Held(b, now), now), later) == Held(b, later)
    ensures Filled(Bucket(b.limit, Held(b, now), now))
  {
    var rate := b.limit as real;
    var soon, more, all := rate * (now - b.last), rate * (later - now), rate * (later - b.last);
    InTwoParts(rate, b.last, now, later);
    MulPositive(rate, now - b.last);
    HeldParts(MaxReal(32768.0, rate * 0.20), b.tokens, soon, more, all);
  }

  lemma InTwoParts(rate: real, x: real, y: real, z: real)
    ensures rate * (y - x) + rate * (z - y) == rate * (z - x)
  {
  }

  lemma HeldParts(burst: real, tokens: real, soon: real, more: real, all: real)
    requires burst >= 32768.0 && tokens >= 0.0 && soon >= 0.0 && soon + more == all
    requires MinReal(burst, tokens + soon) < 1.0
    ensures MinReal(burst, MinReal(burst, tokens + soon) + more) == MinReal(burst, tokens + all)
    ensures 0.0 <= MinReal(burst, tokens + soon) <= burst
  {
  }

  /** When a call is answered, and with how much: at the first wake-up at which the
      bucket holds a byte, or the engine has stopped. It is then given what it asked
      for, as far as whole bytes are there, and nothing if there is none. */
  lemma {:induction false} AcquireExactly(b: Bucket, requested: nat, wakes: seq<Wake>) returns (n: nat)
    requires Filled(b) && b.limit > 0 && requested > 0 && OrderedWakes(b.last, wakes)
    ensures n <= |wakes|
    ensures forall i :: 0 <= i < n ==> Held(b, wakes[i].now) < 1.0 && wakes[i].downloading
    ensures var (b', answer) := Acquire(b, requested, wakes);
            if n == |wakes| then answer == Waiting
            else
              var held := Held(b, wakes[n].now);
              && (held >= 1.0 || !wakes[n].downloading)
              && answer == Allowed(if held >= 1.0 then Min(requested, held.Floor) else 0)
              && b' == Bucket(b.limit, held - answer.bytes as real, wakes[n].now)
    decreases |wakes|
  {
    if wakes == [] { return 0; }
    var now := wakes[0].now;
    RefillExactly(b, now);
    if Held(b, now) >= 1.0 || !wakes[0].downloading { return 0; }
    var b1 := Bucket(b.limit, Held(b, now), now);
    assert AfterPass(b, Pass(now, requested)) == b1;
    HeldOn(b, now, now);
    WakesTail(b.last, wakes);
    var m := AcquireExactly(b1, requested, wakes[1..]);
    n := m + 1;
    forall i | 0 < i < |wakes|
      ensures Held(b1, wakes[i].now) == Held(b, wakes[i].now)
    {
      WakesLater(b.last, wakes, i);
      HeldOn(b, now, wakes[i].now);
    }
    forall i | 0 <= i < n
      ensures Held(b, wakes[i].now) < 1.0 && wakes[i].downloading
    {
      if i > 0 { assert wakes[1..][i - 1] == wakes[i]; }
    }
  }

  lemma WakesTail(since: real, wakes: seq<Wake>)
    requires wakes != [] && OrderedWakes(since, wakes)
    ensures OrderedWakes(wakes[0].now, wakes[1..])
  {
    var tail := wakes[1..];
    assert forall i :: 0 <= i < |tail| ==> tail[i] == wakes[i + 1];
  }

  lemma {:induction false} WakesLater(since: real, wakes: seq<Wake>, i: nat)
    requires i < |wakes| && OrderedWakes(since, wakes)
    ensures since <= wakes[0].now <= wakes[i].now
  {
    if i > 0 { WakesLater(since, wakes, i - 1); }
  }

  /** In `dt` seconds the limit lets at least one byte through. */
  predicate WorthAByte(limit: nat, dt: real) { limit as real * dt >= 1.0 }

  lemma HeldByte(b: Bucket, now: real)
    requires Filled(b) && WorthAByte(b.limit, now - b.last)
    ensures Held(b, now) >= 1.0
  {
    var inflow := b.limit as real * (now - b.last);
    assert inflow >= 1.0;
    assert Held(b, now) == MinReal(MaxReal(32768.0, b.limit as real * 0.20), b.tokens + inflow);
  }

  /** A downloading engine is served: whoever asks for a byte and wakes up 1/limit
      seconds after the last refill, or later, has been given at least one. */
  lemma ServedInTime(b: Bucket, requested: nat, wakes: seq<Wake>, i: nat)
    requires Filled(b) && b.limit > 0 && requested > 0 && OrderedWakes(b.last, wakes) && i < |wakes|
    requires WorthAByte(b.limit, wakes[i].now - b.last)
    requires forall j :: 0 <= j <= i ==> wakes[j].downloading
    ensures Acquire(b, requested, wakes).1.Allowed? && 1 <= Acquire(b, requested, wakes).1.bytes <= requested
  {
    var n := AcquireExactly(b, requested, wakes);
    HeldByte(b, wakes[i].now);
  }

  /** The rate fields of an engine. */
  class RateLimiter {
    var speedLimitBps: nat
    var rateTokens: real
    var rateLastRefill: real

    ghost function View(): Bucket
      reads this
    {
      Bucket(speedLimitBps, rateTokens, rateLastRefill)
    }

    constructor (now: real)
      ensures View() == Bucket(0, 0.0, now) && Filled(View())
    {
      speedLimitBps, rateTokens, rateLastRefill := 0, 0.0, now;
    }

    /** A new limit starts no refill from the past and caps the tokens. */
    method SetSpeedLimit(limit: nat, now: real)
      modifies this
      ensures speedLimitBps == limit && rateLastRefill == now
      ensures rateTokens == if limit == 0 then 0.0
                            else MinReal(MaxReal(32768.0, limit as real * 0.20), old(rateTokens))
      ensures old(rateTokens) >= 0.0 ==> Filled(View())
    {
      speedLimitBps := limit;
      rateLastRefill := now;
      if limit == 0 {
        rateTokens := 0.0;
      } else {
        var maxBurst := MaxReal(32768.0, limit as real * 0.20);
        if rateTokens > maxBurst {
          rateTokens := maxBurst;
        }
      }
    }

    method RefillRateTokens(now: real)
      modifies this
      ensures View() == Refill(old(View()), now)
      ensures old(speedLimitBps) > 0 && old(Filled(View())) && old(rateLastRefill) <= now ==>
                View() == Bucket(old(speedLimitBps), old(Held(View(), now)), now)
      ensures speedLimitBps == 0 ==> rateTokens == 0.0 && rateLastRefill == now
    {
      if speedLimitBps > 0 && Filled(View()) && rateLastRefill <= now { RefillExactly(View(), now); }
      if speedLimitBps == 0 {
        rateTokens := 0.0;
        rateLastRefill := now;
        return;
      }
      var dt := now - rateLastRefill;
      if dt > 0.0 {
        rateTokens := rateTokens + speedLimitBps as real * dt;
        var maxBurst := MaxReal(32768.0, speedLimitBps as real * 0.20);
        if rateTokens > maxBurst {
          rateTokens := maxBurst;
        }
        rateLastRefill := now;
      }
    }

    method AcquireReadBudget(requested: nat, wakes: seq<Wake>) returns (answer: Answer)
      modifies this
      ensures (View(), answer) == Acquire(old(View()), requested, wakes)
    {
      if speedLimitBps == 0 || requested == 0 {
        return Allowed(requested);
      }
      var i := 0;
      while i < |wakes|
        invariant i <= |wakes|
        invariant speedLimitBps == old(speedLimitBps)
        invariant Acquire(View(), requested, wakes[i..]) == Acquire(old(View()), requested, wakes)
      {
        assert wakes[i..][0] == wakes[i] && wakes[i..][1..] == wakes[i + 1..];
        RefillRateTokens(wakes[i].now);
        if rateTokens >= 1.0 {
          var allowed := Min(requested, rateTokens.Floor);
          if allowed == 0 {
            allowed := 1;
          }
          rateTokens := rateTokens - allowed as real;
          return Allowed(allowed);
        }
        if !wakes[i].downloading {
          return Allowed(0);
        }
        i := i + 1;
      }
      return Waiting;
    }
  }
}
