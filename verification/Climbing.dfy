/** The upward half of the hill climb: a job that does not wait for tokens is raised
    again and again, keeps a connection exactly when it pays, and reaches its maximum
    while its throughput grows. */
module Climbing {
  import opened Basics
  import opened Trimming
  import opened Controller

  /** A tick that reports job `id` once, at position k with bounds [lo, hi], and that
      needs no trimming. */
  ghost predicate Free(capacity: int, t: TickRecord, id: nat, k: nat, lo: int, hi: int)
  {
    && IsTick(capacity, t) && StatesOk(t.before) && Sole(t.inputs, id, k)
    && t.inputs[k].Least() == lo && t.inputs[k].Most() == hi && lo <= t.inputs[k].desired <= hi
    && Sum(Desires(Absorb(t.before, t.inputs).active)) <= capacity
  }

  /** Without trimming the job gets what its climb decides. */
  lemma FreeTick(capacity: int, t: TickRecord, id: nat, k: nat, lo: int, hi: int)
    requires Free(capacity, t, id, k, lo, hi)
    ensures StateOk(StateOf(t.before, id)) && StateOk(StateOf(t.after, id))
    ensures StateOf(t.after, id) == Climb(StateOf(t.before, id), t.inputs[k]).0
    ensures DecisionOf(t.decisions, id) == Some(Climb(StateOf(t.before, id), t.inputs[k]).1)
    ensures t.inputs[k].From() == t.inputs[k].desired
  {
    TickOfJob(capacity, t, id, k);
    var m := AbsorbSole(t.before, t.inputs, id, k);
    var active := Absorb(t.before, t.inputs).active;
    assert Decided(t.decisions)[m] == Desires(active)[m];
    assert forall i :: m < i < |t.decisions| ==> t.decisions[i].id == active[i].decision.id;
    DecisionAt(t.decisions, id, m);
    ClimbKeeps(StateOf(t.before, id), t.inputs[k]);
  }

  /** The moving averages: a third of the throughput and half of the waiting are new;
      the first measurement counts in full. */
  lemma Averages(capacity: int, t: TickRecord, id: nat, k: nat, lo: int, hi: int)
    requires Free(capacity, t, id, k, lo, hi)
    ensures var was, now, input := StateOf(t.before, id), StateOf(t.after, id), t.inputs[k];
            && now.emaThroughput == (if was.emaThroughput <= 0.0 then MaxReal(0.0, input.throughput)
                                     else 0.65 * was.emaThroughput + 0.35 * MaxReal(0.0, input.throughput))
            && (0.0 <= input.wait <= 1.0 ==> now.emaWait == (was.emaWait + input.wait) / 2.0)
            && (input.wait < 0.0 ==> now.emaWait == was.emaWait / 2.0)
            && (input.wait > 1.0 ==> now.emaWait == (was.emaWait + 1.0) / 2.0)
  {
    FreeTick(capacity, t, id, k, lo, hi);
    SmoothKeeps(StateOf(t.before, id), t.inputs[k]);
  }

  /** What the average wait says: from 0.55 on the job falls, above 0.20 it stays and a
      probe is given up, and it can rise below. After a lowering it cools down for two
      ticks. */
  lemma WaitVerdict(capacity: int, t: TickRecord, id: nat, k: nat, lo: int, hi: int)
    requires Free(capacity, t, id, k, lo, hi)
    ensures var was, now, d := StateOf(t.before, id), StateOf(t.after, id), t.inputs[k].desired;
            && (now.emaWait >= 0.55 && d > lo ==>
                  DecisionOf(t.decisions, id) == Some(d - 1) && now.cooldown == 2 && !now.probing)
            && (now.emaWait > 0.20 && (now.emaWait < 0.55 || d == lo) ==>
                  DecisionOf(t.decisions, id) == Some(d) && !now.probing)
            && (now.emaWait <= 0.20 && (was.cooldown >= 2 || d == hi) ==> DecisionOf(t.decisions, id) == Some(d))
            && (now.emaWait <= 0.20 && was.cooldown <= 1 && !was.probing && d < hi ==>
                  DecisionOf(t.decisions, id) == Some(d + 1) && now.probing
                  && now.baseline == MaxReal(1.0, now.emaThroughput))
            && (DecisionOf(t.decisions, id) == Some(d) ==> now.cooldown == Max(0, was.cooldown - 1))
  {
    FreeTick(capacity, t, id, k, lo, hi);
  }

  lemma Gained(now: real, baseline: real)
    requires baseline >= 1.0
    ensures (now - baseline) / baseline < 0.08 <==> now < 1.08 * baseline
  {
    var gain := (now - baseline) / baseline;
    assert gain * baseline == now - baseline;
    if gain < 0.08 { Times(gain, 0.08, baseline); } else { Times(0.08, gain, baseline); }
  }

  lemma Times(x: real, y: real, b: real)
    requires b > 0.0
    ensures x < y ==> x * b < y * b
    ensures x <= y ==> x * b <= y * b
  {
  }

  /** What a raise leaves behind. */
  ghost predicate Probing(st: JobState)
  {
    st.probing && st.cooldown == 1 && st.emaWait <= 0.20 && st.baseline == MaxReal(1.0, st.emaThroughput)
  }

  lemma RaiseProbes(st: JobState, input: Input)
    requires StateOk(st) && Climb(st, input).1 == input.From() + 1
    ensures Probing(Climb(st, input).0)
  {
  }

  lemma VerdictOf(st: JobState, input: Input)
    requires Probing(st) && input.Least() < input.From() < input.Most()
    requires Climb(st, input).0.emaWait <= 0.20
    ensures var now := Climb(st, input).0.emaThroughput;
            Climb(st, input).1
              == input.From() - if now < 1.08 * MaxReal(1.0, st.emaThroughput) then 1 else 0
    ensures !Climb(st, input).0.probing
    ensures Climb(st, input).1 == input.From() ==> Climb(st, input).0.cooldown == 0
  {
    Gained(Smoothed(st, input).emaThroughput, st.baseline);
  }

  /** The tick after a raise, if the job does not wait then: the new connection is given
      back if the smoothed throughput has grown by less than 8%, and kept otherwise. */
  lemma ProbeVerdict(capacity: int, t: TickRecord, next: TickRecord, id: nat, k: nat, k': nat, lo: int, hi: int)
    requires Free(capacity, t, id, k, lo, hi) && Free(capacity, next, id, k', lo, hi) && FedBack(t, next, id, k')
    requires DecisionOf(t.decisions, id) == Some(t.inputs[k].desired + 1) && next.inputs[k'].desired < hi
    requires StateOf(next.after, id).emaWait <= 0.20
    ensures var was, now := StateOf(t.after, id).emaThroughput, StateOf(next.after, id).emaThroughput;
            DecisionOf(next.decisions, id)
              == Some(if now < 1.08 * MaxReal(1.0, was) then t.inputs[k].desired else t.inputs[k].desired + 1)
  {
    FreeTick(capacity, t, id, k, lo, hi);
    FreeTick(capacity, next, id, k', lo, hi);
    RaiseProbes(StateOf(t.before, id), t.inputs[k]);
    VerdictOf(StateOf(next.before, id), next.inputs[k']);
  }

  // ---------------------------------------------------------------------------
  // Runs without waiting.

  /** A run of ticks in which job `id` is reported once a tick and never waits, nothing
      is trimmed, the bounds stay and the decisions are fed back. */
  ghost predicate FreeRun(capacity: int, ticks: seq<TickRecord>, id: nat, at: seq<nat>, lo: int, hi: int)
  {
    && |at| == |ticks|
    && (forall n :: 0 <= n < |ticks| ==> Idle(capacity, ticks[n], id, at[n], lo, hi))
    && (forall m, n :: 0 <= m && n == m + 1 && n < |ticks| ==> FedBack(ticks[m], ticks[n], id, at[n]))
  }

  ghost predicate Idle(capacity: int, t: TickRecord, id: nat, k: nat, lo: int, hi: int)
  {
    Free(capacity, t, id, k, lo, hi) && t.inputs[k].wait <= 0.0
  }

  /** How many ticks can pass before the next raise: until the average wait is low,
      the cooldown is over, and a probe that is still open is judged and its cooldown
      over. */
  function Delay(st: JobState): nat
    requires 0 <= st.cooldown <= 2
  {
    var cool := Max(0, st.cooldown - 1);
    var wait := if st.emaWait <= 0.4 then 0 else if st.emaWait <= 0.8 then 1 else 2;
    if st.probing && wait == 0 then cool + 2 else Max(wait, cool)
  }

  lemma DelayFalls(st: JobState, input: Input)
    requires StateOk(st) && input.wait <= 0.0 && input.From() < input.Most()
    ensures var (st', d) := Climb(st, input);
            || d == input.From() + 1
            || (0 <= st'.cooldown <= 2 && Delay(st') < Delay(st)
                && (d == input.From() || (d == input.From() - 1 && st.probing && !st'.probing))
                && (st'.probing ==> st.probing))
  {
    SmoothKeeps(st, input);
  }

  /** From tick n on, a raise comes after at most the delay. */
  lemma {:induction false} RaiseComes(capacity: int, ticks: seq<TickRecord>, id: nat, at: seq<nat>, lo: int, hi: int,
                                      n: nat) returns (m: nat)
    requires FreeRun(capacity, ticks, id, at, lo, hi) && n < |ticks| && ticks[n].inputs[at[n]].desired < hi
    requires StateOk(StateOf(ticks[n].before, id)) && n + Delay(StateOf(ticks[n].before, id)) < |ticks|
    ensures n <= m <= n + Delay(StateOf(ticks[n].before, id))
    ensures DecisionOf(ticks[m].decisions, id) == Some(ticks[m].inputs[at[m]].desired + 1)
    ensures ticks[m].inputs[at[m]].desired
              >= ticks[n].inputs[at[n]].desired - if StateOf(ticks[n].before, id).probing then 1 else 0
    decreases |ticks| - n
  {
    var st, input := StateOf(ticks[n].before, id), ticks[n].inputs[at[n]];
    assert Idle(capacity, ticks[n], id, at[n], lo, hi);
    FreeTick(capacity, ticks[n], id, at[n], lo, hi);
    DelayFalls(st, input);
    if Climb(st, input).1 == input.From() + 1 {
      m := n;
    } else {
      assert FedBack(ticks[n], ticks[n + 1], id, at[n + 1]);
      m := RaiseComes(capacity, ticks, id, at, lo, hi, n + 1);
    }
  }

  /** From any reachable state, a job below its maximum that does not wait is raised in
      one of four consecutive ticks. */
  lemma RaisedSoon(capacity: int, ticks: seq<TickRecord>, id: nat, at: seq<nat>, lo: int, hi: int, n: nat)
    returns (m: nat)
    requires FreeRun(capacity, ticks, id, at, lo, hi) && n + 4 <= |ticks| && ticks[n].inputs[at[n]].desired < hi
    ensures n <= m < n + 4 && DecisionOf(ticks[m].decisions, id) == Some(ticks[m].inputs[at[m]].desired + 1)
    ensures ticks[m].inputs[at[m]].desired >= ticks[n].inputs[at[n]].desired - 1
  {
    assert Idle(capacity, ticks[n], id, at[n], lo, hi);
    FreeTick(capacity, ticks[n], id, at[n], lo, hi);
    m := RaiseComes(capacity, ticks, id, at, lo, hi, n);
  }

  // ---------------------------------------------------------------------------
  // Growing throughput.

  /** A run in which each measured throughput is at least a quarter above the last, and
      the first is at least 1 and not below the average so far. */
  ghost predicate GrowingRun(capacity: int, ticks: seq<TickRecord>, id: nat, at: seq<nat>, lo: int, hi: int)
  {
    && FreeRun(capacity, ticks, id, at, lo, hi) && ticks != []
    && ticks[0].inputs[at[0]].throughput >= 1.0
    && (var was := StateOf(ticks[0].before, id).emaThroughput;
        was == 0.0 || 1.0 <= was <= ticks[0].inputs[at[0]].throughput)
    && (forall m, n :: 0 <= m && n == m + 1 && n < |ticks| ==> Grows(ticks[m], at[m], ticks[n], at[n]))
  }

  ghost predicate Grows(t: TickRecord, k: nat, next: TickRecord, k': nat)
  {
    k < |t.inputs| && k' < |next.inputs| && next.inputs[k'].throughput >= 1.25 * t.inputs[k].throughput
  }

  lemma Mixes(was: real, before: real, throughput: real)
    requires 1.0 <= was <= before && throughput >= 1.25 * before
    ensures 1.08 * was <= 0.65 * was + 0.35 * throughput <= throughput
  {
  }

  /** The average follows, by at least 8% a tick. */
  lemma {:induction false} AverageGrows(capacity: int, ticks: seq<TickRecord>, id: nat, at: seq<nat>, lo: int, hi: int,
                                        n: nat)
    requires GrowingRun(capacity, ticks, id, at, lo, hi) && n < |ticks|
    ensures 1.0 <= StateOf(ticks[n].after, id).emaThroughput <= ticks[n].inputs[at[n]].throughput
    ensures n > 0 ==>
              StateOf(ticks[n].after, id).emaThroughput >= 1.08 * StateOf(ticks[n - 1].after, id).emaThroughput
  {
    assert Idle(capacity, ticks[n], id, at[n], lo, hi);
    Averages(capacity, ticks[n], id, at[n], lo, hi);
    if n > 0 {
      AverageGrows(capacity, ticks, id, at, lo, hi, n - 1);
      assert FedBack(ticks[n - 1], ticks[n], id, at[n]);
      assert Grows(ticks[n - 1], at[n - 1], ticks[n], at[n]);
      Mixes(StateOf(ticks[n - 1].after, id).emaThroughput, ticks[n - 1].inputs[at[n - 1]].throughput,
            ticks[n].inputs[at[n]].throughput);
    }
  }

  /** A kept connection: the next tick raises. */
  ghost predicate Ready(st: JobState) { !st.probing && st.cooldown == 0 && st.emaWait <= 0.20 }

  lemma ReadyRaises(st: JobState, input: Input)
    requires StateOk(st) && Ready(st) && input.wait <= 0.0
    ensures input.From() < input.Most() ==> Climb(st, input).1 == input.From() + 1
  {
    SmoothKeeps(st, input);
  }

  lemma TopStays(st: JobState, input: Input)
    requires StateOk(st) && input.wait <= 0.0 && input.From() == input.Most()
    ensures Climb(st, input).1 == input.Most()
  {
    SmoothKeeps(st, input);
  }

  /** Where a job stands i ticks after a raise to `top`: at its maximum, or raised
      every other tick. */
  ghost predicate Climbed(st: JobState, d: int, top: int, i: nat, hi: int)
  {
    || d == hi
    || (d == top + i / 2 && d < hi && if i % 2 == 0 then Probing(st) else Ready(st))
  }

  lemma ClimbedOn(st: JobState, input: Input, top: int, i: nat)
    requires StateOk(st) && input.wait <= 0.0 && Climbed(st, input.From(), top, i, input.Most())
    requires input.From() > input.Least() || input.From() == input.Most()
    requires Climb(st, input).0.emaThroughput >= 1.08 * MaxReal(1.0, st.emaThroughput)
    ensures Climbed(Climb(st, input).0, Climb(st, input).1, top, i + 1, input.Most())
    ensures Climb(st, input).1 >= input.From()
  {
    SmoothKeeps(st, input);
    if input.From() == input.Most() {
      TopStays(st, input);
    } else if i % 2 == 0 {
      VerdictOf(st, input);
    } else {
      ReadyRaises(st, input);
      RaiseProbes(st, input);
    }
  }

  lemma {:induction false} ClimbsOn(capacity: int, ticks: seq<TickRecord>, id: nat, at: seq<nat>, lo: int, hi: int,
                                    m: nat, n: nat)
    requires GrowingRun(capacity, ticks, id, at, lo, hi) && m <= n < |ticks|
    requires DecisionOf(ticks[m].decisions, id) == Some(ticks[m].inputs[at[m]].desired + 1)
    ensures var d := DecisionOf(ticks[n].decisions, id);
            && d.Some? && d.value > lo
            && Climbed(StateOf(ticks[n].after, id), d.value, ticks[m].inputs[at[m]].desired + 1, n - m, hi)
  {
    assert Idle(capacity, ticks[n], id, at[n], lo, hi);
    FreeTick(capacity, ticks[n], id, at[n], lo, hi);
    if n == m {
      RaiseProbes(StateOf(ticks[n].before, id), ticks[n].inputs[at[n]]);
    } else {
      ClimbsOn(capacity, ticks, id, at, lo, hi, m, n - 1);
      assert FedBack(ticks[n - 1], ticks[n], id, at[n]);
      AverageGrows(capacity, ticks, id, at, lo, hi, n);
      AverageGrows(capacity, ticks, id, at, lo, hi, n - 1);
      ClimbedOn(StateOf(ticks[n].before, id), ticks[n].inputs[at[n]], ticks[m].inputs[at[m]].desired + 1, n - 1 - m);
    }
  }

  lemma {:induction false} StaysAtTop(capacity: int, ticks: seq<TickRecord>, id: nat, at: seq<nat>, lo: int, hi: int,
                                      n: nat)
    requires FreeRun(capacity, ticks, id, at, lo, hi) && n < |ticks| && ticks[0].inputs[at[0]].desired == hi
    ensures DecisionOf(ticks[n].decisions, id) == Some(hi)
  {
    assert Idle(capacity, ticks[n], id, at[n], lo, hi);
    FreeTick(capacity, ticks[n], id, at[n], lo, hi);
    if n > 0 {
      StaysAtTop(capacity, ticks, id, at, lo, hi, n - 1);
      assert FedBack(ticks[n - 1], ticks[n], id, at[n]);
    }
    TopStays(StateOf(ticks[n].before, id), ticks[n].inputs[at[n]]);
  }

  /** While its throughput grows, a job is at its maximum after four ticks and two for
      each connection that it was short of, and stays there. */
  lemma ReachesTop(capacity: int, ticks: seq<TickRecord>, id: nat, at: seq<nat>, lo: int, hi: int, n: nat)
    requires GrowingRun(capacity, ticks, id, at, lo, hi) && n < |ticks|
    requires n >= 3 + 2 * (hi - ticks[0].inputs[at[0]].desired)
    ensures DecisionOf(ticks[n].decisions, id) == Some(hi)
  {
    assert Idle(capacity, ticks[0], id, at[0], lo, hi);
    if ticks[0].inputs[at[0]].desired == hi {
      StaysAtTop(capacity, ticks, id, at, lo, hi, n);
    } else {
      var m := RaisedSoon(capacity, ticks, id, at, lo, hi, 0);
      ClimbsOn(capacity, ticks, id, at, lo, hi, m, n);
    }
  }

  // ---------------------------------------------------------------------------
  // There are such runs.

  /** A tick with one job alone. */
  lemma LoneTick(capacity: int, states: map<nat, JobState>, input: Input, lo: int, hi: int) returns (t: TickRecord)
    requires StatesOk(states) && input.active && input.Least() == lo && input.Most() == hi <= capacity
    requires lo <= input.desired <= hi
    ensures t.before == states && t.inputs == [input] && StatesOk(t.after) && Free(capacity, t, input.id, 0, lo, hi)
    ensures DecisionOf(t.decisions, input.id).Some? && lo <= DecisionOf(t.decisions, input.id).value <= hi
  {
    var r := Absorb(states, [input]);
    assert [input][..0] == [];
    assert Absorb(states, [input][..0]) == Round(states, []);
    var tuned := Climb(StateOf(states, input.id), input);
    assert r.active == [Tuned(Decision(input.id, tuned.1), input.Least(), tuned.0.emaWait)];
    var d := Decision(input.id, tuned.1);
    t := TickRecord(states, [input], Pruned(r.states, [input]), [d]);
    ClimbKeeps(StateOf(states, input.id), input);
    AbsorbKeeps(states, [input]);
    assert Desires(r.active) == [d.desired] == Decided(t.decisions);
    assert [d.desired][..0] == [];
    assert Sum(Desires(r.active)) == d.desired;
    assert [d][..0] == [] && DecisionOf([d], input.id) == Some(d.desired);
  }

  /** A growing run of any length, for any bounds, from a job that wants any number of
      connections within them. */
  lemma {:induction false} GrowingRunExists(capacity: int, lo: int, hi: int, wanted: int, n: nat)
    returns (ticks: seq<TickRecord>, at: seq<nat>)
    requires 1 <= lo <= wanted <= hi <= capacity && n > 0
    ensures |ticks| == n && GrowingRun(capacity, ticks, 0, at, lo, hi) && ticks[0].inputs[at[0]].desired == wanted
    ensures forall k :: 0 <= k < n ==> at[k] == 0 && |ticks[k].inputs| == 1
    ensures StatesOk(ticks[n - 1].after) && DecisionOf(ticks[n - 1].decisions, 0).Some?
    ensures lo <= DecisionOf(ticks[n - 1].decisions, 0).value <= hi
  {
    if n == 1 {
      var t := LoneTick(capacity, map[], Input(0, true, wanted, lo, hi, 1.0, 0.0), lo, hi);
      ticks, at := [t], [0];
      assert Idle(capacity, ticks[0], 0, at[0], lo, hi);
    } else {
      var before, at0 := GrowingRunExists(capacity, lo, hi, wanted, n - 1);
      var last := before[n - 2];
      var input := Input(0, true, DecisionOf(last.decisions, 0).value, lo, hi, 1.25 * last.inputs[0].throughput, 0.0);
      var t := LoneTick(capacity, last.after, input, lo, hi);
      ticks, at := before + [t], at0 + [0];
      Extends(capacity, before, at0, t, lo, hi);
    }
  }

  lemma Extends(capacity: int, before: seq<TickRecord>, at: seq<nat>, t: TickRecord, lo: int, hi: int)
    requires GrowingRun(capacity, before, 0, at, lo, hi) && Idle(capacity, t, 0, 0, lo, hi)
    requires FedBack(before[|before| - 1], t, 0, 0) && Grows(before[|before| - 1], at[|before| - 1], t, 0)
    ensures GrowingRun(capacity, before + [t], 0, at + [0], lo, hi)
  {
    var ticks, all := before + [t], at + [0];
    forall k | 0 <= k < |ticks|
      ensures Idle(capacity, ticks[k], 0, all[k], lo, hi)
    {
      if k < |before| { assert Idle(capacity, before[k], 0, at[k], lo, hi); }
    }
    forall m, k | 0 <= m && k == m + 1 && k < |ticks|
      ensures FedBack(ticks[m], ticks[k], 0, all[k]) && Grows(ticks[m], all[m], ticks[k], all[k])
    {
      if k < |before| { assert FedBack(before[m], before[k], 0, at[k]) && Grows(before[m], at[m], before[k], at[k]); }
    }
  }
}
