/** The connection controller: per-job hill climbing on smoothed measurements,
    then trimming to the global capacity. */
module Controller {
  import opened Basics
  import opened Trimming

  const THROUGHPUT_ALPHA: real := 0.35
  const WAIT_ALPHA: real := 0.50
  const HIGH_WAIT: real := 0.55
  const LOW_WAIT: real := 0.20
  const PROBE_GAIN: real := 0.08
  const UP_COOLDOWN: int := 1
  const DOWN_COOLDOWN: int := 2

  datatype JobState = JobState(emaThroughput: real, emaWait: real, cooldown: int, probing: bool, baseline: real)

  const FRESH: JobState := JobState(0.0, 0.0, 0, false, 0.0)

  datatype Input = Input(id: nat, active: bool, desired: int, minC: int, maxC: int, throughput: real, wait: real) {
    function Least(): int { Max(1, minC) }
    function Most(): int { Max(Least(), maxC) }
    /** Where the climb starts from. */
    function From(): int { Clamp(desired, Least(), Most()) }
  }

  datatype Decision = Decision(id: nat, desired: int)

  /** A decision before trimming. */
  datatype Tuned = Tuned(decision: Decision, least: int, wait: real)

  function ClampReal(x: real, lo: real, hi: real): real
    requires lo <= hi
  {
    if x < lo then lo else if hi < x then hi else x
  }

  // ---------------------------------------------------------------------------
  // One job.

  /** The moving averages and the cooldown, one tick on. */
  function Smoothed(st: JobState, input: Input): JobState
  {
    var throughput := MaxReal(0.0, input.throughput);
    JobState(
      if st.emaThroughput <= 0.0 then throughput
      else (1.0 - THROUGHPUT_ALPHA) * st.emaThroughput + THROUGHPUT_ALPHA * throughput,
      (1.0 - WAIT_ALPHA) * st.emaWait + WAIT_ALPHA * ClampReal(input.wait, 0.0, 1.0),
      if st.cooldown > 0 then st.cooldown - 1 else st.cooldown,
      st.probing,
      st.baseline)
  }

  function Gain(st: JobState): real
  {
    var baseline := MaxReal(1.0, st.baseline);
    (st.emaThroughput - baseline) / MaxReal(1.0, baseline)
  }

  /** One hill-climbing step: the job's next state and its untrimmed decision. */
  function Climb(st: JobState, input: Input): (JobState, int)
  {
    var s := Smoothed(st, input);
    var d := input.From();
    var low := s.emaWait <= LOW_WAIT;
    if s.emaWait >= HIGH_WAIT && d > input.Least() then
      (s.(cooldown := DOWN_COOLDOWN, probing := false), d - 1)
    else if s.cooldown == 0 && low && d < input.Most() then
      if !s.probing then
        (s.(cooldown := UP_COOLDOWN, probing := true, baseline := MaxReal(1.0, s.emaThroughput)), d + 1)
      else if Gain(s) < PROBE_GAIN && d > input.Least() then
        (s.(cooldown := DOWN_COOLDOWN, probing := false), d - 1)
      else
        (s.(probing := false), d)
    else if !low then
      (s.(probing := false), d)
    else
      (s, d)
  }

  ghost predicate StateOk(st: JobState)
  {
    0.0 <= st.emaWait <= 1.0 && 0 <= st.cooldown <= 2 && st.emaThroughput >= 0.0
  }

  predicate Raises(st: JobState, input: Input) { Climb(st, input).1 > input.From() }

  predicate Lowers(st: JobState, input: Input) { Climb(st, input).1 < input.From() }

  /** What each step keeps: the averages and the cooldown stay in range, the
      decision stays in the job's own bounds and moves by at most one. */
  lemma ClimbKeeps(st: JobState, input: Input)
    requires StateOk(st)
    ensures StateOk(Climb(st, input).0)
    ensures input.Least() <= Climb(st, input).1 <= input.Most()
    ensures -1 <= Climb(st, input).1 - input.From() <= 1
  {
    SmoothKeeps(st, input);
  }

  lemma SmoothKeeps(st: JobState, input: Input)
    requires StateOk(st)
    ensures StateOk(Smoothed(st, input))
    ensures Smoothed(st, input).emaWait == st.emaWait / 2.0 + ClampReal(input.wait, 0.0, 1.0) / 2.0
  {
  }

  /** After a raise the job probes, after a lowering it cools down: either way the
      next step does not raise. */
  lemma NoRaiseAfterMove(st: JobState, input: Input, next: Input)
    requires Raises(st, input) || Lowers(st, input)
    ensures !Raises(Climb(st, input).0, next)
  {
  }

  /** A job's state after a number of steps. */
  function After(st: JobState, inputs: seq<Input>): JobState
    decreases |inputs|
  {
    if inputs == [] then st else After(Climb(st, inputs[0]).0, inputs[1..])
  }

  function Raised(st: JobState, inputs: seq<Input>): nat
    decreases |inputs|
  {
    if inputs == [] then 0
    else (if Raises(st, inputs[0]) then 1 else 0) + Raised(Climb(st, inputs[0]).0, inputs[1..])
  }

  /** In n steps at most ceil(n/2) raise. */
  lemma {:induction false} HalfRaise(st: JobState, inputs: seq<Input>)
    ensures Raised(st, inputs) <= (|inputs| + 1) / 2
    decreases |inputs|
  {
    if |inputs| >= 2 {
      var st' := Climb(st, inputs[0]).0;
      HalfRaise(st', inputs[1..]);
      if Raises(st, inputs[0]) {
        NoRaiseAfterMove(st, inputs[0], inputs[1]);
        assert inputs[1..][1..] == inputs[2..];
        HalfRaise(Climb(st', inputs[1]).0, inputs[2..]);
      }
    }
  }

  lemma {:induction false} StateStaysOk(st: JobState, inputs: seq<Input>)
    requires StateOk(st)
    ensures StateOk(After(st, inputs))
    decreases |inputs|
  {
    if inputs != [] {
      ClimbKeeps(st, inputs[0]);
      StateStaysOk(Climb(st, inputs[0]).0, inputs[1..]);
    }
  }

  // ---------------------------------------------------------------------------
  // All jobs of a tick.

  datatype Round = Round(states: map<nat, JobState>, active: seq<Tuned>)

  function StateOf(states: map<nat, JobState>, id: nat): JobState
  {
    if id in states then states[id] else FRESH
  }

  function AbsorbOne(r: Round, input: Input): Round
  {
    if !input.active then r.(states := r.states - {input.id})
    else
      var (st, d) := Climb(StateOf(r.states, input.id), input);
      Round(r.states[input.id := st], r.active + [Tuned(Decision(input.id, d), input.Least(), st.emaWait)])
  }

  function Absorb(states: map<nat, JobState>, inputs: seq<Input>): Round
  {
    if inputs == [] then Round(states, [])
    else AbsorbOne(Absorb(states, inputs[..|inputs| - 1]), inputs[|inputs| - 1])
  }

  ghost predicate Seen(inputs: seq<Input>, id: nat)
  {
    exists i :: 0 <= i < |inputs| && inputs[i].id == id
  }

  ghost function Pruned(states: map<nat, JobState>, inputs: seq<Input>): map<nat, JobState>
  {
    map id | id in states && Seen(inputs, id) :: states[id]
  }

  function Desires(active: seq<Tuned>): seq<int>
  {
    seq(|active|, i requires 0 <= i < |active| => active[i].decision.desired)
  }

  function Leasts(active: seq<Tuned>): seq<int>
  {
    seq(|active|, i requires 0 <= i < |active| => active[i].least)
  }

  function Entries(active: seq<Tuned>): seq<Entry>
  {
    seq(|active|, i requires 0 <= i < |active| => Entry(active[i].wait, active[i].decision.desired))
  }

  function Decided(decisions: seq<Decision>): seq<int>
  {
    seq(|decisions|, i requires 0 <= i < |decisions| => decisions[i].desired)
  }

  ghost predicate TrimmedBy(order: seq<nat>, active: seq<Tuned>, capacity: int, decisions: seq<Decision>)
    requires |decisions| == |active|
  {
    && Permutation(order, |active|) && Sorted(order, Entries(active))
    && WaterFilled(Desires(active), Leasts(active), order, capacity, Decided(decisions))
  }

  /** The decisions are the tuned ones; a total over the capacity is trimmed, in a
      sorted order. */
  ghost predicate Trimmed(active: seq<Tuned>, capacity: int, decisions: seq<Decision>)
  {
    && |decisions| == |active|
    && (forall i :: 0 <= i < |active| ==> decisions[i].id == active[i].decision.id)
    && if Sum(Desires(active)) <= capacity then Decided(decisions) == Desires(active)
       else exists order: seq<nat> :: TrimmedBy(order, active, capacity, decisions)
  }

  /** One tick of the controller: its states before and after, inputs and decisions. */
  datatype TickRecord = TickRecord(before: map<nat, JobState>, inputs: seq<Input>, after: map<nat, JobState>,
                                   decisions: seq<Decision>)

  ghost predicate IsTick(capacity: int, t: TickRecord)
  {
    && t.after == Pruned(Absorb(t.before, t.inputs).states, t.inputs)
    && Trimmed(Absorb(t.before, t.inputs).active, capacity, t.decisions)
  }

  ghost predicate StatesOk(states: map<nat, JobState>)
  {
    forall id :: id in states ==> StateOk(states[id])
  }

  /** An untrimmed decision lies in the bounds of an input of its job. */
  ghost predicate InOwnBounds(inputs: seq<Input>, t: Tuned)
  {
    exists i :: 0 <= i < |inputs| && BoundedBy(inputs[i], t)
  }

  ghost predicate BoundedBy(input: Input, t: Tuned)
  {
    && input.active && input.id == t.decision.id && input.Least() == t.least
    && t.least <= t.decision.desired <= input.Most()
  }

  lemma {:induction false} AbsorbKeeps(states: map<nat, JobState>, inputs: seq<Input>)
    requires StatesOk(states)
    ensures StatesOk(Absorb(states, inputs).states)
    ensures forall i :: 0 <= i < |Absorb(states, inputs).active| ==>
              InOwnBounds(inputs, Absorb(states, inputs).active[i])
  {
    if inputs != [] {
      var n := |inputs| - 1;
      AbsorbKeeps(states, inputs[..n]);
      var r := Absorb(states, inputs[..n]);
      if inputs[n].active { ClimbKeeps(StateOf(r.states, inputs[n].id), inputs[n]); }
      forall i | 0 <= i < |Absorb(states, inputs).active|
        ensures InOwnBounds(inputs, Absorb(states, inputs).active[i])
      {
        if i < |r.active| {
          var k :| 0 <= k < n && BoundedBy(inputs[..n][k], r.active[i]);
          assert BoundedBy(inputs[k], r.active[i]);
        } else {
          assert BoundedBy(inputs[n], Absorb(states, inputs).active[i]);
        }
      }
    }
  }

  /** Every tick keeps the job states in range and each decision in its own job's
      bounds; the total is what the capacity and the minimums allow. */
  lemma TickKeeps(capacity: int, t: TickRecord)
    requires IsTick(capacity, t) && StatesOk(t.before)
    ensures StatesOk(t.after)
    ensures forall i :: 0 <= i < |t.decisions| ==> DecisionInBounds(t.inputs, t.decisions[i])
    ensures Sum(Decided(t.decisions)) <= Max(capacity, Sum(Leasts(Absorb(t.before, t.inputs).active)))
  {
    AbsorbKeeps(t.before, t.inputs);
    var active := Absorb(t.before, t.inputs).active;
    TrimKeeps(t.inputs, active, capacity, t.decisions);
  }

  ghost predicate DecisionInBounds(inputs: seq<Input>, d: Decision)
  {
    exists i :: 0 <= i < |inputs| && AllowedBy(inputs[i], d)
  }

  ghost predicate AllowedBy(input: Input, d: Decision)
  {
    input.active && input.id == d.id && input.Least() <= d.desired <= input.Most()
  }

  /** Trimming leaves each decision between its least and its untrimmed value. */
  lemma TrimBounds(active: seq<Tuned>, capacity: int, decisions: seq<Decision>)
    requires Trimmed(active, capacity, decisions)
    requires forall i :: 0 <= i < |active| ==> active[i].least <= active[i].decision.desired
    ensures forall i :: 0 <= i < |active| ==> active[i].least <= decisions[i].desired <= active[i].decision.desired
    ensures Sum(Decided(decisions)) == Min(Sum(Desires(active)), Max(capacity, Sum(Leasts(active))))
  {
    if Sum(Desires(active)) > capacity {
      var order: seq<nat> :| TrimmedBy(order, active, capacity, decisions);
      WaterFilledBounds(Desires(active), Leasts(active), order, capacity, Decided(decisions));
    }
    SumMonotone(Leasts(active), Desires(active));
    forall i | 0 <= i < |active|
      ensures active[i].least <= decisions[i].desired <= active[i].decision.desired
    {
      assert Leasts(active)[i] <= Decided(decisions)[i] <= Desires(active)[i];
    }
  }

  /** Every decision leaves a job between its own bounds and with at least one
      connection. */
  lemma DecisionsAreUseful(capacity: int, t: TickRecord, i: nat) returns (k: nat)
    requires IsTick(capacity, t) && StatesOk(t.before) && i < |t.decisions|
    ensures k < |t.inputs| && t.inputs[k].active && t.inputs[k].id == t.decisions[i].id
    ensures t.decisions[i].desired >= 1 && t.decisions[i].desired >= t.inputs[k].minC
    ensures t.inputs[k].maxC >= 1 && t.inputs[k].maxC >= t.inputs[k].minC ==>
              t.decisions[i].desired <= t.inputs[k].maxC
  {
    TickKeeps(capacity, t);
    assert DecisionInBounds(t.inputs, t.decisions[i]);
    k :| 0 <= k < |t.inputs| && AllowedBy(t.inputs[k], t.decisions[i]);
  }

  lemma TrimKeeps(inputs: seq<Input>, active: seq<Tuned>, capacity: int, decisions: seq<Decision>)
    requires Trimmed(active, capacity, decisions)
    requires forall i :: 0 <= i < |active| ==> InOwnBounds(inputs, active[i])
    ensures forall i :: 0 <= i < |decisions| ==> DecisionInBounds(inputs, decisions[i])
    ensures Sum(Decided(decisions)) <= Max(capacity, Sum(Leasts(active)))
  {
    TrimBounds(active, capacity, decisions);
    forall i | 0 <= i < |decisions|
      ensures DecisionInBounds(inputs, decisions[i])
    {
      var k :| 0 <= k < |inputs| && BoundedBy(inputs[k], active[i]);
      assert AllowedBy(inputs[k], decisions[i]);
    }
  }

  // ---------------------------------------------------------------------------
  // One job among others.

  /** Job `id` is reported once in this tick, as active, at position k. */
  ghost predicate Sole(inputs: seq<Input>, id: nat, k: nat)
  {
    && k < |inputs| && inputs[k].active && inputs[k].id == id
    && forall j :: 0 <= j < |inputs| && j != k ==> inputs[j].id != id
  }

  /** The desired count the manager applies for a job: the last decision wins. */
  function DecisionOf(decisions: seq<Decision>, id: nat): Option<int>
  {
    if decisions == [] then None
    else
      var n := |decisions| - 1;
      if decisions[n].id == id then Some(decisions[n].desired) else DecisionOf(decisions[..n], id)
  }

  /** What a tick does to one job, whatever the others do: it climbs, and trimming
      takes it no lower than its least. */
  ghost predicate JobTick(st: JobState, input: Input, st': JobState, d: int)
  {
    st' == Climb(st, input).0 && input.Least() <= d <= Climb(st, input).1
  }

  lemma {:induction false} AbsorbAbsent(states: map<nat, JobState>, inputs: seq<Input>, id: nat)
    requires !Seen(inputs, id)
    ensures StateOf(Absorb(states, inputs).states, id) == StateOf(states, id)
    ensures forall i :: 0 <= i < |Absorb(states, inputs).active| ==> Absorb(states, inputs).active[i].decision.id != id
  {
    if inputs != [] {
      var n := |inputs| - 1;
      assert inputs[n].id != id;
      assert forall j :: 0 <= j < n ==> inputs[..n][j] == inputs[j];
      AbsorbAbsent(states, inputs[..n], id);
    }
  }

  lemma {:induction false} AbsorbSole(states: map<nat, JobState>, inputs: seq<Input>, id: nat, k: nat) returns (m: nat)
    requires Sole(inputs, id, k)
    ensures id in Absorb(states, inputs).states
    ensures Absorb(states, inputs).states[id] == Climb(StateOf(states, id), inputs[k]).0
    ensures m < |Absorb(states, inputs).active|
    ensures forall i :: 0 <= i < |Absorb(states, inputs).active| ==>
              (Absorb(states, inputs).active[i].decision.id == id <==> i == m)
    ensures Absorb(states, inputs).active[m].decision.desired == Climb(StateOf(states, id), inputs[k]).1
    ensures Absorb(states, inputs).active[m].least == inputs[k].Least()
    ensures Absorb(states, inputs).active[m].wait == Climb(StateOf(states, id), inputs[k]).0.emaWait
    decreases |inputs|
  {
    var n := |inputs| - 1;
    if k == n {
      assert !Seen(inputs[..n], id);
      AbsorbAbsent(states, inputs[..n], id);
      m := |Absorb(states, inputs[..n]).active|;
    } else {
      assert Sole(inputs[..n], id, k);
      m := AbsorbSole(states, inputs[..n], id, k);
    }
  }

  lemma {:induction false} DecisionAt(decisions: seq<Decision>, id: nat, m: nat)
    requires m < |decisions| && decisions[m].id == id
    requires forall i :: m < i < |decisions| ==> decisions[i].id != id
    ensures DecisionOf(decisions, id) == Some(decisions[m].desired)
  {
    if m < |decisions| - 1 { DecisionAt(decisions[..|decisions| - 1], id, m); }
  }

  lemma TickOfJob(capacity: int, t: TickRecord, id: nat, k: nat)
    requires IsTick(capacity, t) && StatesOk(t.before) && Sole(t.inputs, id, k)
    ensures DecisionOf(t.decisions, id).Some?
    ensures JobTick(StateOf(t.before, id), t.inputs[k], StateOf(t.after, id), DecisionOf(t.decisions, id).value)
  {
    var m := AbsorbSole(t.before, t.inputs, id, k);
    var active := Absorb(t.before, t.inputs).active;
    AbsorbKeeps(t.before, t.inputs);
    TrimBounds(active, capacity, t.decisions);
    assert forall i :: m < i < |t.decisions| ==> t.decisions[i].id == active[i].decision.id;
    DecisionAt(t.decisions, id, m);
    assert Seen(t.inputs, id);
  }

  /** After a tick the controller knows exactly the jobs whose last report in it was
      active. */
  lemma KnownExactly(capacity: int, t: TickRecord, id: nat, k: nat)
    requires IsTick(capacity, t)
    ensures !Seen(t.inputs, id) ==> id !in t.after
    ensures k < |t.inputs| && t.inputs[k].id == id && (forall j :: k < j < |t.inputs| ==> t.inputs[j].id != id) ==>
              (id in t.after <==> t.inputs[k].active)
  {
    if k < |t.inputs| && t.inputs[k].id == id && forall j :: k < j < |t.inputs| ==> t.inputs[j].id != id {
      LastReport(t.before, t.inputs, id, k);
      assert Seen(t.inputs, id);
    }
  }

  lemma {:induction false} LastReport(states: map<nat, JobState>, inputs: seq<Input>, id: nat, k: nat)
    requires k < |inputs| && inputs[k].id == id && forall j :: k < j < |inputs| ==> inputs[j].id != id
    ensures id in Absorb(states, inputs).states <==> inputs[k].active
    decreases |inputs|
  {
    if k < |inputs| - 1 { LastReport(states, inputs[..|inputs| - 1], id, k); }
  }

  /** Who pays when the capacity is short: of two jobs that climbed as far above their
      minimum, the one with the longer average wait loses at least as much. */
  lemma LongestWaitPays(capacity: int, t: TickRecord, a: nat, j: nat, b: nat, k: nat)
    requires IsTick(capacity, t) && StatesOk(t.before) && Sole(t.inputs, a, j) && Sole(t.inputs, b, k)
    requires StateOf(t.after, a).emaWait > StateOf(t.after, b).emaWait
    requires Climb(StateOf(t.before, a), t.inputs[j]).1 - t.inputs[j].Least()
             >= Climb(StateOf(t.before, b), t.inputs[k]).1 - t.inputs[k].Least()
    ensures DecisionOf(t.decisions, a).Some? && DecisionOf(t.decisions, b).Some?
    ensures Climb(StateOf(t.before, a), t.inputs[j]).1 - DecisionOf(t.decisions, a).value
            >= Climb(StateOf(t.before, b), t.inputs[k]).1 - DecisionOf(t.decisions, b).value
  {
    TickOfJob(capacity, t, a, j);
    TickOfJob(capacity, t, b, k);
    var m := AbsorbSole(t.before, t.inputs, a, j);
    var n := AbsorbSole(t.before, t.inputs, b, k);
    var active := Absorb(t.before, t.inputs).active;
    SoleDecision(t.decisions, active, a, m);
    SoleDecision(t.decisions, active, b, n);
    if Sum(Desires(active)) > capacity {
      AbsorbKeeps(t.before, t.inputs);
      var order: seq<nat> :| TrimmedBy(order, active, capacity, t.decisions);
      PayInOrder(order, active, capacity, t.decisions, m, n);
    } else {
      assert Decided(t.decisions)[m] == Desires(active)[m] && Decided(t.decisions)[n] == Desires(active)[n];
    }
  }

  lemma SoleDecision(decisions: seq<Decision>, active: seq<Tuned>, id: nat, m: nat)
    requires |decisions| == |active| && m < |active|
    requires forall i :: 0 <= i < |active| ==> decisions[i].id == active[i].decision.id
    requires forall i :: 0 <= i < |active| ==> (active[i].decision.id == id <==> i == m)
    ensures DecisionOf(decisions, id) == Some(decisions[m].desired)
  {
    DecisionAt(decisions, id, m);
  }

  lemma PayInOrder(order: seq<nat>, active: seq<Tuned>, capacity: int, decisions: seq<Decision>, m: nat, n: nat)
    requires |decisions| == |active| && TrimmedBy(order, active, capacity, decisions)
    requires forall i :: 0 <= i < |active| ==> active[i].least <= active[i].decision.desired
    requires m < |active| && n < |active| && active[m].wait > active[n].wait
    requires active[m].decision.desired - active[m].least >= active[n].decision.desired - active[n].least
    ensures active[m].decision.desired - decisions[m].desired >= active[n].decision.desired - decisions[n].desired
  {
    LongestLoses(Entries(active), Desires(active), Leasts(active), order, capacity, Decided(decisions), m, n);
  }

  /** A run of ticks in which job `id` is reported once a tick; between ticks other
      jobs may come and go. */
  ghost predicate JobRun(capacity: int, ticks: seq<TickRecord>, id: nat, at: seq<nat>)
  {
    && |at| == |ticks|
    && (forall n :: 0 <= n < |ticks| ==> JobIn(capacity, ticks[n], id, at[n]))
    && (forall m, n :: 0 <= m && n == m + 1 && n < |ticks| ==>
         StateOf(ticks[n].before, id) == StateOf(ticks[m].after, id))
  }

  ghost predicate JobIn(capacity: int, t: TickRecord, id: nat, k: nat)
  {
    IsTick(capacity, t) && StatesOk(t.before) && Sole(t.inputs, id, k)
  }

  ghost function JobInputs(ticks: seq<TickRecord>, at: seq<nat>): seq<Input>
    requires |at| == |ticks| && forall n :: 0 <= n < |ticks| ==> at[n] < |ticks[n].inputs|
  {
    seq(|ticks|, n requires 0 <= n < |ticks| => ticks[n].inputs[at[n]])
  }

  /** On a run of the controller the job's hill-climb raises it in at most half of
      the ticks, rounded up. */
  lemma {:induction false} RunRaises(capacity: int, ticks: seq<TickRecord>, id: nat, at: seq<nat>)
    requires JobRun(capacity, ticks, id, at)
    ensures RaisedTicks(ticks, id, at) <= (|ticks| + 1) / 2
  {
    if ticks != [] {
      RaisedAgree(capacity, ticks, id, at);
      HalfRaise(StateOf(ticks[0].before, id), JobInputs(ticks, at));
    }
  }

  /** Ticks in which job `id` was raised, counted on the controller's own states. */
  ghost function RaisedTicks(ticks: seq<TickRecord>, id: nat, at: seq<nat>): nat
    requires |at| == |ticks| && forall n :: 0 <= n < |ticks| ==> at[n] < |ticks[n].inputs|
    decreases |ticks|
  {
    if ticks == [] then 0
    else
      (if Raises(StateOf(ticks[0].before, id), ticks[0].inputs[at[0]]) then 1 else 0)
      + RaisedTicks(ticks[1..], id, at[1..])
  }

  lemma {:induction false} RaisedAgree(capacity: int, ticks: seq<TickRecord>, id: nat, at: seq<nat>)
    requires JobRun(capacity, ticks, id, at) && ticks != []
    ensures RaisedTicks(ticks, id, at) == Raised(StateOf(ticks[0].before, id), JobInputs(ticks, at))
    decreases |ticks|
  {
    assert JobIn(capacity, ticks[0], id, at[0]);
    TickOfJob(capacity, ticks[0], id, at[0]);
    assert JobInputs(ticks, at)[1..] == JobInputs(ticks[1..], at[1..]);
    if |ticks| > 1 {
      assert JobRun(capacity, ticks[1..], id, at[1..]) by {
        forall n | 0 <= n < |ticks| - 1
          ensures JobIn(capacity, ticks[1..][n], id, at[1..][n])
        {
          assert JobIn(capacity, ticks[n + 1], id, at[n + 1]);
        }
      }
      RaisedAgree(capacity, ticks[1..], id, at[1..]);
    }
  }

  // ---------------------------------------------------------------------------
  // Convergence under a starved token bucket.

  /** A run of ticks in which job `id` is reported once a tick, always waiting for
      tokens, with bounds [lo, hi] and its decisions fed back. */
  ghost predicate StarvedRun(capacity: int, ticks: seq<TickRecord>, id: nat, at: seq<nat>, lo: int, hi: int)
  {
    && |at| == |ticks| && 1 <= lo <= hi
    && (forall n :: 0 <= n < |ticks| ==> Starved(capacity, ticks[n], id, at[n], lo, hi))
    && (forall m, n :: 0 <= m && n == m + 1 && n < |ticks| ==> FedBack(ticks[m], ticks[n], id, at[n]))
  }

  ghost predicate Starved(capacity: int, t: TickRecord, id: nat, k: nat, lo: int, hi: int)
  {
    && IsTick(capacity, t) && StatesOk(t.before) && Sole(t.inputs, id, k)
    && t.inputs[k].wait >= 1.0 && t.inputs[k].Least() == lo && t.inputs[k].Most() == hi
  }

  ghost predicate FedBack(t: TickRecord, next: TickRecord, id: nat, k: nat)
  {
    && StateOf(next.before, id) == StateOf(t.after, id)
    && k < |next.inputs| && DecisionOf(t.decisions, id) == Some(next.inputs[k].desired)
  }

  /** Waiting all the time at least halves the distance of the average to 1: it is
      above the low threshold at once and above the high one from the second
      tick. The job never rises, and from then on falls until its least. */
  lemma StarvedStep(st: JobState, input: Input, st': JobState, d: int)
    requires StateOk(st) && JobTick(st, input, st', d) && input.wait >= 1.0
    ensures st'.emaWait >= 0.5 && d <= input.From()
    ensures st.emaWait >= 0.5 && input.From() > input.Least() ==> d <= input.From() - 1
  {
    SmoothKeeps(st, input);
  }

  /** The job's decision after n + 1 ticks is at least n below its start, or at its
      minimum. */
  lemma {:induction false} StarvedFalls(capacity: int, ticks: seq<TickRecord>, id: nat, at: seq<nat>, lo: int,
                                        hi: int, n: nat)
    requires StarvedRun(capacity, ticks, id, at, lo, hi) && n < |ticks|
    ensures StateOk(StateOf(ticks[n].after, id))
    ensures StateOf(ticks[n].after, id).emaWait >= 0.5
    ensures DecisionOf(ticks[n].decisions, id).Some?
    ensures lo <= DecisionOf(ticks[n].decisions, id).value <= Max(lo, ticks[0].inputs[at[0]].From() - n)
  {
    assert Starved(capacity, ticks[n], id, at[n], lo, hi);
    if n > 0 {
      StarvedFalls(capacity, ticks, id, at, lo, hi, n - 1);
      assert FedBack(ticks[n - 1], ticks[n], id, at[n]);
    }
    TickKeeps(capacity, ticks[n]);
    TickOfJob(capacity, ticks[n], id, at[n]);
    StarvedStep(StateOf(ticks[n].before, id), ticks[n].inputs[at[n]], StateOf(ticks[n].after, id),
                DecisionOf(ticks[n].decisions, id).value);
  }

  /** Whatever the other jobs do and from any reachable controller state, a job
      that always waits stands at its minimum after (start - minimum) + 1 ticks,
      and stays there. */
  lemma Converges(capacity: int, ticks: seq<TickRecord>, id: nat, at: seq<nat>, lo: int, hi: int, n: nat)
    requires StarvedRun(capacity, ticks, id, at, lo, hi) && n < |ticks|
    requires n >= ticks[0].inputs[at[0]].From() - lo
    ensures DecisionOf(ticks[n].decisions, id) == Some(lo)
  {
    StarvedFalls(capacity, ticks, id, at, lo, hi, n);
  }

  // ---------------------------------------------------------------------------
  // The controller object.

  class ConnectionController {
    const capacity: int
    var states: map<nat, JobState>

    ghost predicate Valid()
      reads this
    {
      capacity >= 1 && StatesOk(states)
    }

    constructor (globalCapacity: int)
      ensures Valid() && capacity == Max(1, globalCapacity) && states == map[]
    {
      capacity, states := Max(1, globalCapacity), map[];
    }

    /** The job's moving averages, cooldown and probe, and its untrimmed decision. */
    method Adjust(input: Input) returns (tuned: Tuned)
      requires input.active
      modifies this
      ensures Round(states, [tuned]) == AbsorbOne(Round(old(states), []), input)
    {
      var state := StateOf(states, input.id);
      if state.emaThroughput <= 0.0 {
        state := state.(emaThroughput := MaxReal(0.0, input.throughput));
      } else {
        state := state.(emaThroughput := (1.0 - THROUGHPUT_ALPHA) * state.emaThroughput
                                         + THROUGHPUT_ALPHA * MaxReal(0.0, input.throughput));
      }
      state := state.(emaWait := (1.0 - WAIT_ALPHA) * state.emaWait + WAIT_ALPHA * ClampReal(input.wait, 0.0, 1.0));

      var least := Max(1, input.minC);
      var most := Max(least, input.maxC);
      var desired := Clamp(input.desired, least, most);
      if state.cooldown > 0 { state := state.(cooldown := state.cooldown - 1); }

      var highWait := state.emaWait >= HIGH_WAIT;
      var lowWait := state.emaWait <= LOW_WAIT;
      if highWait && desired > least {
        desired := desired - 1;
        state := state.(cooldown := DOWN_COOLDOWN, probing := false);
      } else if state.cooldown == 0 && lowWait && desired < most {
        if !state.probing {
          state := state.(probing := true, baseline := MaxReal(1.0, state.emaThroughput));
          desired := desired + 1;
          state := state.(cooldown := UP_COOLDOWN);
        } else {
          var baseline := MaxReal(1.0, state.baseline);
          var gain := (state.emaThroughput - baseline) / MaxReal(1.0, baseline);
          if gain < PROBE_GAIN && desired > least {
            desired := desired - 1;
            state := state.(cooldown := DOWN_COOLDOWN);
          }
          state := state.(probing := false);
        }
      } else if !lowWait {
        state := state.(probing := false);
      }
      states := states[input.id := state];
      tuned := Tuned(Decision(input.id, desired), least, state.emaWait);
    }

    /** Drops the states of jobs that are no longer reported. */
    method Prune(seenIds: set<nat>)
      modifies this
      ensures states == map id | id in old(states) && id in seenIds :: old(states)[id]
    {
      var left := states.Keys;
      while left != {}
        invariant left <= old(states).Keys
        invariant states == map id | id in old(states) && (id in left || id in seenIds) :: old(states)[id]
        decreases left
      {
        var id :| id in left;
        if id !in seenIds { states := states - {id}; }
        left := left - {id};
      }
    }

    method Remove(id: nat)
      requires Valid()
      modifies this
      ensures Valid() && states == old(states) - {id}
    {
      states := states - {id};
    }

    /** One tick over the reported jobs. */
    method Tick(inputs: seq<Input>) returns (decisions: seq<Decision>)
      requires Valid()
      modifies this
      ensures Valid()
      ensures IsTick(capacity, TickRecord(old(states), inputs, states, decisions))
    {
      ghost var before := states;
      var active: seq<Tuned> := [];
      var seenIds: set<nat> := {};
      for i := 0 to |inputs|
        invariant Round(states, active) == Absorb(before, inputs[..i])
        invariant forall id: nat :: id in seenIds <==> Seen(inputs[..i], id)
      {
        assert inputs[..i + 1][..i] == inputs[..i];
        SeenGrows(inputs, i);
        seenIds := seenIds + {inputs[i].id};
        if !inputs[i].active {
          states := states - {inputs[i].id};
        } else {
          var tuned := Adjust(inputs[i]);
          active := active + [tuned];
        }
      }
      assert inputs[..|inputs|] == inputs;
      AbsorbKeeps(before, inputs);
      Prune(seenIds);
      decisions := Settle(active);
    }

    /** Trims the untrimmed decisions when they exceed the capacity. */
    method Settle(active: seq<Tuned>) returns (decisions: seq<Decision>)
      requires forall i :: 0 <= i < |active| ==> active[i].least <= active[i].decision.desired
      ensures Trimmed(active, capacity, decisions)
    {
      var ds := new int[|active|](i requires 0 <= i < |active| => active[i].decision.desired);
      assert ds[..] == Desires(active);
      var total := Total(ds);
      ghost var used: seq<nat> := [];
      if total > capacity {
        var order := SortOrder(Entries(active));
        used := order;
        Trim(ds, Leasts(active), order, total, capacity);
      }
      decisions := [];
      for i := 0 to |active|
        invariant |decisions| == i
        invariant forall j :: 0 <= j < i ==> decisions[j] == Decision(active[j].decision.id, ds[j])
      {
        decisions := decisions + [Decision(active[i].decision.id, ds[i])];
      }
      assert Decided(decisions) == ds[..];
      assert total > capacity ==> TrimmedBy(used, active, capacity, decisions);
    }
  }

  lemma SeenGrows(inputs: seq<Input>, i: nat)
    requires i < |inputs|
    ensures forall id: nat :: Seen(inputs[..i + 1], id) <==> Seen(inputs[..i], id) || id == inputs[i].id
  {
    forall id: nat
      ensures Seen(inputs[..i + 1], id) <==> Seen(inputs[..i], id) || id == inputs[i].id
    {
      assert forall k :: 0 <= k < i ==> inputs[..i + 1][k] == inputs[..i][k];
      assert inputs[..i + 1][i] == inputs[i];
    }
  }
}
