/** The manager's side: tasks in the pool queue, and one turn of the control
    loop from measurements to decisions to new tasks. */
module Manager {
  import opened Basics
  import opened EngineSpec
  import opened JobImages
  import opened Engines
  import opened Controller

  /** What happens to the queue: a task is put in, or a thread asks for one. */
  datatype QueueOp<T> = Put(task: T) | Ask

  function AfterOp<T>(tasks: seq<T>, op: QueueOp<T>): seq<T>
  {
    match op
    case Put(task) => tasks + [task]
    case Ask => if tasks == [] then [] else tasks[1..]
  }

  function Answer<T>(tasks: seq<T>, op: QueueOp<T>): seq<T>
  {
    if op.Ask? && tasks != [] then [tasks[0]] else []
  }

  function AfterOps<T>(tasks: seq<T>, ops: seq<QueueOp<T>>): seq<T>
    decreases |ops|
  {
    if ops == [] then tasks else AfterOps(AfterOp(tasks, ops[0]), ops[1..])
  }

  /** The tasks handed out, in the order in which they were. */
  function Answers<T>(tasks: seq<T>, ops: seq<QueueOp<T>>): seq<T>
    decreases |ops|
  {
    if ops == [] then [] else Answer(tasks, ops[0]) + Answers(AfterOp(tasks, ops[0]), ops[1..])
  }

  /** The tasks put in, in the order in which they were. */
  function Puts<T>(ops: seq<QueueOp<T>>): seq<T>
  {
    if ops == [] then [] else (if ops[0].Put? then [ops[0].task] else []) + Puts(ops[1..])
  }

  lemma Regroup<T>(first: seq<T>, rest: seq<T>, left: seq<T>, next: seq<T>, tasks: seq<T>, put: seq<T>, puts: seq<T>)
    requires rest + left == next + puts && first + next == tasks + put
    ensures first + rest + left == tasks + (put + puts)
  {
    assert first + rest + left == first + (rest + left);
    assert first + (next + puts) == (first + next) + puts;
    assert tasks + put + puts == tasks + (put + puts);
  }

  lemma OneOp<T>(tasks: seq<T>, op: QueueOp<T>)
    ensures Answer(tasks, op) + AfterOp(tasks, op) == tasks + if op.Put? then [op.task] else []
  {
  }

  /** First in, first out: over any run of the queue, what was handed out and what
      is left is what was there and what was put in, in that order. */
  lemma {:induction false} FirstInFirstOut<T>(tasks: seq<T>, ops: seq<QueueOp<T>>)
    ensures Answers(tasks, ops) + AfterOps(tasks, ops) == tasks + Puts(ops)
    decreases |ops|
  {
    if ops != [] {
      var next := AfterOp(tasks, ops[0]);
      FirstInFirstOut(next, ops[1..]);
      OneOp(tasks, ops[0]);
      Regroup(Answer(tasks, ops[0]), Answers(next, ops[1..]), AfterOps(next, ops[1..]), next,
              tasks, if ops[0].Put? then [ops[0].task] else [], Puts(ops[1..]));
    }
  }

  /** The queue of the thread pool; a task is a job. */
  class TaskQueue {
    var tasks: seq<DownloadEngine>

    constructor ()
      ensures tasks == []
    {
      tasks := [];
    }

    method Enqueue(job: DownloadEngine)
      modifies this
      ensures tasks == AfterOp(old(tasks), Put(job))
    {
      tasks := tasks + [job];
    }

    /** A pool thread takes the oldest task. */
    method Take() returns (task: Option<DownloadEngine>)
      modifies this
      ensures tasks == AfterOp(old(tasks), Ask)
      ensures Answer(old(tasks), Ask) == if task.Some? then [task.value] else []
    {
      if tasks == [] { return None; }
      task := Some(tasks[0]);
      tasks := tasks[1..];
    }
  }

  /** Tasks of `job` in the queue. */
  ghost function TasksOf(tasks: seq<DownloadEngine>, job: DownloadEngine): nat { multiset(tasks)[job] }

  /** Scheduled workers of `job` that are not waiting in the queue. */
  ghost function Elsewhere(queue: TaskQueue, job: DownloadEngine): int
    reads queue, job
  {
    job.scheduledConnections - TasksOf(queue.tasks, job)
  }

  /** Plans workers for a job and enqueues one task each. */
  method EnqueueTasks(job: DownloadEngine, queue: TaskQueue, maxThreads: int)
    modifies job`scheduledConnections, queue
    ensures job.View() == Plan(old(job.View()), maxThreads)
    ensures |queue.tasks| == |old(queue.tasks)| + job.scheduledConnections - old(job.scheduledConnections)
    ensures old(queue.tasks) <= queue.tasks
    ensures forall other: DownloadEngine ::
              TasksOf(queue.tasks, other) == TasksOf(old(queue.tasks), other)
                + if other == job then job.scheduledConnections - old(job.scheduledConnections) else 0
  {
    var n := job.PlanNewWorkers(maxThreads);
    for i := 0 to n
      invariant job.View() == Plan(old(job.View()), maxThreads)
      invariant |queue.tasks| == |old(queue.tasks)| + i && old(queue.tasks) <= queue.tasks
      invariant forall other: DownloadEngine ::
                  TasksOf(queue.tasks, other) == TasksOf(old(queue.tasks), other) + if other == job then i else 0
    {
      queue.Enqueue(job);
    }
  }

  // ---------------------------------------------------------------------------
  // Applying decisions.

  ghost predicate Distinct<T>(xs: seq<T>)
  {
    forall i, j :: 0 <= i < j < |xs| ==> xs[i] != xs[j]
  }

  /** What a decision does to its job's engine; jobs without one are left alone. */
  function Steered(e: Engine, decision: Option<int>, maxThreads: int): Engine
    requires e.minC <= e.maxC
  {
    if decision.None? then e else Plan(SetDesired(e, decision.value), maxThreads)
  }

  /** Decisions that an engine can take over. */
  predicate Int32(decisions: seq<Decision>)
  {
    forall i :: 0 <= i < |decisions| ==> -0x8000_0000 <= decisions[i].desired < 0x8000_0000
  }

  lemma {:induction false} DecisionIsInt32(decisions: seq<Decision>, id: nat)
    requires Int32(decisions)
    ensures DecisionOf(decisions, id).Some? ==> -0x8000_0000 <= DecisionOf(decisions, id).value < 0x8000_0000
  {
    if decisions != [] { DecisionIsInt32(decisions[..|decisions| - 1], id); }
  }

  ghost predicate IsSteered(e: Engine, decisions: seq<Decision>, id: nat, maxThreads: int, e': Engine)
  {
    e.minC <= e.maxC && e' == Steered(e, DecisionOf(decisions, id), maxThreads)
  }

  method ApplyDecision(job: DownloadEngine, decision: Option<int>, queue: TaskQueue, maxThreads: int)
    requires job.minConnections <= job.maxConnections
    requires decision.Some? ==> -0x8000_0000 <= decision.value < 0x8000_0000
    modifies job`desiredConnections, job`releaseBudget, job`scheduledConnections, queue
    ensures job.View() == Steered(old(job.View()), decision, maxThreads)
    ensures forall other: DownloadEngine ::
              TasksOf(queue.tasks, other) == TasksOf(old(queue.tasks), other)
                + if other == job then job.scheduledConnections - old(job.scheduledConnections) else 0
  {
    if decision.Some? {
      job.SetDesiredConnections(decision.value);
      EnqueueTasks(job, queue, maxThreads);
    }
  }

  /** Applies a tick's decisions to the snapshot of jobs. Each job is steered by its
      own decision, and its scheduled workers outside the queue stay as many. */
  method ApplyDecisions(jobs: seq<DownloadEngine>, ids: seq<nat>, decisions: seq<Decision>, queue: TaskQueue,
                        maxThreads: int)
    requires |ids| == |jobs| && Distinct(jobs) && Int32(decisions)
    requires forall i :: 0 <= i < |jobs| ==> jobs[i].minConnections <= jobs[i].maxConnections
    modifies jobs, queue
    ensures forall i :: 0 <= i < |jobs| ==>
              IsSteered(old(jobs[i].View()), decisions, ids[i], maxThreads, jobs[i].View())
    ensures forall i :: 0 <= i < |jobs| ==> Elsewhere(queue, jobs[i]) == old(Elsewhere(queue, jobs[i]))
  {
    for k := 0 to |jobs|
      invariant forall i :: 0 <= i < k ==> IsSteered(old(jobs[i].View()), decisions, ids[i], maxThreads, jobs[i].View())
      invariant forall i :: k <= i < |jobs| ==> jobs[i].View() == old(jobs[i].View())
      invariant forall i :: 0 <= i < |jobs| ==> Elsewhere(queue, jobs[i]) == old(Elsewhere(queue, jobs[i]))
    {
      assert jobs[k].View() == old(jobs[k].View());
      var decision := DecisionOf(decisions, ids[k]);
      DecisionIsInt32(decisions, ids[k]);
      ApplyDecision(jobs[k], decision, queue, maxThreads);
    }
  }

  // ---------------------------------------------------------------------------
  // Measuring.

  /** What is measured of a job since the last turn. */
  datatype Sample = Sample(id: nat, throughput: real, wait: real)

  function Report(e: Engine, sample: Sample): Input
  {
    Input(sample.id, true, e.desired, e.minC, e.maxC, sample.throughput, sample.wait)
  }

  /** The inputs of a turn: one for each active job, in order. */
  function Reports(es: seq<Engine>, samples: seq<Sample>): seq<Input>
    requires |es| == |samples|
  {
    if es == [] then []
    else
      var n := |es| - 1;
      Reports(es[..n], samples[..n]) + if Active(es[n].state) then [Report(es[n], samples[n])] else []
  }

  ghost predicate DistinctIds(samples: seq<Sample>)
  {
    forall i, j :: 0 <= i < j < |samples| ==> samples[i].id != samples[j].id
  }

  /** Only reported jobs appear among the inputs. */
  lemma {:induction false} ReportsOnly(es: seq<Engine>, samples: seq<Sample>, id: nat)
    requires |es| == |samples| && forall i :: 0 <= i < |samples| ==> samples[i].id != id
    ensures forall k :: 0 <= k < |Reports(es, samples)| ==> Reports(es, samples)[k].id != id
  {
    if es != [] {
      var n := |es| - 1;
      ReportsOnly(es[..n], samples[..n], id);
    }
  }

  /** Each active job is reported exactly once, as active, with its own desired count
      and bounds and what was measured of it. */
  lemma {:induction false} ReportedOnce(es: seq<Engine>, samples: seq<Sample>, i: nat) returns (k: nat)
    requires |es| == |samples| && DistinctIds(samples) && i < |es| && Active(es[i].state)
    ensures Sole(Reports(es, samples), samples[i].id, k)
    ensures Reports(es, samples)[k] == Input(samples[i].id, true, es[i].desired, es[i].minC, es[i].maxC,
                                             samples[i].throughput, samples[i].wait)
    decreases |es|
  {
    var n := |es| - 1;
    if i == n {
      ReportsOnly(es[..n], samples[..n], samples[n].id);
      k := |Reports(es[..n], samples[..n])|;
    } else {
      k := ReportedOnce(es[..n], samples[..n], i);
      assert samples[i].id != samples[n].id;
    }
  }

  ghost predicate InOrder(e: Engine) { 1 <= e.minC <= e.maxC < 0x8000_0000 }

  /** Every input is the report of some job. */
  lemma {:induction false} ReportsAreReports(es: seq<Engine>, samples: seq<Sample>)
    requires |es| == |samples| && forall i :: 0 <= i < |es| ==> InOrder(es[i])
    ensures forall k :: 0 <= k < |Reports(es, samples)| ==>
              1 <= Reports(es, samples)[k].Least() <= Reports(es, samples)[k].Most() < 0x8000_0000
  {
    if es != [] {
      var n := |es| - 1;
      ReportsAreReports(es[..n], samples[..n]);
    }
  }

  /** A tick's decisions fit the engines. */
  lemma DecisionsAreInt32(capacity: int, t: TickRecord, es: seq<Engine>, samples: seq<Sample>)
    requires IsTick(capacity, t) && StatesOk(t.before)
    requires |es| == |samples| && t.inputs == Reports(es, samples) && forall i :: 0 <= i < |es| ==> InOrder(es[i])
    ensures Int32(t.decisions)
  {
    TickKeeps(capacity, t);
    ReportsAreReports(es, samples);
    forall i | 0 <= i < |t.decisions|
      ensures -0x8000_0000 <= t.decisions[i].desired < 0x8000_0000
    {
      assert DecisionInBounds(t.inputs, t.decisions[i]);
      var k :| 0 <= k < |t.inputs| && AllowedBy(t.inputs[k], t.decisions[i]);
    }
  }

  /** An active job's decision exists and lies within its bounds. */
  lemma DecisionTaken(capacity: int, t: TickRecord, es: seq<Engine>, samples: seq<Sample>, i: nat)
    requires IsTick(capacity, t) && StatesOk(t.before)
    requires |es| == |samples| && DistinctIds(samples) && t.inputs == Reports(es, samples)
    requires i < |es| && Active(es[i].state) && InOrder(es[i])
    ensures var d := DecisionOf(t.decisions, samples[i].id); d.Some? && es[i].minC <= d.value <= es[i].maxC
  {
    var k := ReportedOnce(es, samples, i);
    TickOfJob(capacity, t, samples[i].id, k);
    ClimbKeeps(StateOf(t.before, samples[i].id), t.inputs[k]);
  }

  /** A job that is not active has no decision. */
  lemma {:induction false} NoDecision(capacity: int, t: TickRecord, id: nat)
    requires IsTick(capacity, t) && forall k :: 0 <= k < |t.inputs| ==> t.inputs[k].id != id
    ensures DecisionOf(t.decisions, id) == None
  {
    AbsorbAbsent(t.before, t.inputs, id);
    NoneDecided(t.decisions, id);
  }

  lemma {:induction false} NoneDecided(decisions: seq<Decision>, id: nat)
    requires forall i :: 0 <= i < |decisions| ==> decisions[i].id != id
    ensures DecisionOf(decisions, id) == None
  {
    if decisions != [] { NoneDecided(decisions[..|decisions| - 1], id); }
  }

  lemma {:induction false} InactiveUnreported(es: seq<Engine>, samples: seq<Sample>, i: nat)
    requires |es| == |samples| && DistinctIds(samples) && i < |es| && !Active(es[i].state)
    ensures forall k :: 0 <= k < |Reports(es, samples)| ==> Reports(es, samples)[k].id != samples[i].id
    decreases |es|
  {
    var n := |es| - 1;
    if i == n {
      ReportsOnly(es[..n], samples[..n], samples[n].id);
    } else {
      InactiveUnreported(es[..n], samples[..n], i);
    }
  }

  lemma NobodyActive(es: seq<Engine>, samples: seq<Sample>)
    requires |es| == |samples| && DistinctIds(samples) && Reports(es, samples) == []
    ensures forall i :: 0 <= i < |es| ==> !Active(es[i].state)
  {
    forall i | 0 <= i < |es|
      ensures !Active(es[i].state)
    {
      if Active(es[i].state) {
        var k := ReportedOnce(es, samples, i);
        assert false;
      }
    }
  }

  ghost function Views(jobs: seq<DownloadEngine>): (es: seq<Engine>)
    reads jobs
    ensures |es| == |jobs|
  {
    seq(|jobs|, i requires 0 <= i < |jobs| reads jobs => jobs[i].View())
  }

  /** An active job has a decision, within its bounds; another one has none. */
  ghost predicate Fits(t: TickRecord, e: Engine, id: nat)
  {
    var d := DecisionOf(t.decisions, id);
    InOrder(e) && if Active(e.state) then d.Some? && e.minC <= d.value <= e.maxC else d.None?
  }

  lemma DecisionsFit(capacity: int, t: TickRecord, es: seq<Engine>, samples: seq<Sample>)
    requires IsTick(capacity, t) && StatesOk(t.before)
    requires |es| == |samples| && DistinctIds(samples) && t.inputs == Reports(es, samples)
    requires forall i :: 0 <= i < |es| ==> InOrder(es[i])
    ensures Int32(t.decisions)
    ensures forall i :: 0 <= i < |es| ==> Fits(t, es[i], samples[i].id)
  {
    DecisionsAreInt32(capacity, t, es, samples);
    forall i | 0 <= i < |es|
      ensures Fits(t, es[i], samples[i].id)
    {
      if Active(es[i].state) {
        DecisionTaken(capacity, t, es, samples, i);
      } else {
        InactiveUnreported(es, samples, i);
        NoDecision(capacity, t, samples[i].id);
      }
    }
  }

  /** Job `id` is among those that are not active. */
  ghost predicate AtRest(es: seq<Engine>, samples: seq<Sample>, id: nat)
    requires |es| == |samples|
  {
    exists i :: 0 <= i < |es| && samples[i].id == id && !Active(es[i].state)
  }

  lemma AtRestGrows(es: seq<Engine>, samples: seq<Sample>, i: nat, id: nat)
    requires |es| == |samples| && i < |es|
    ensures AtRest(es[..i + 1], samples[..i + 1], id) <==>
              AtRest(es[..i], samples[..i], id) || (samples[i].id == id && !Active(es[i].state))
  {
    if AtRest(es[..i], samples[..i], id) {
      var k :| 0 <= k < i && samples[..i][k].id == id && !Active(es[..i][k].state);
      assert samples[..i + 1][k].id == id && !Active(es[..i + 1][k].state);
    }
    if samples[i].id == id && !Active(es[i].state) {
      assert samples[..i + 1][i].id == id && !Active(es[..i + 1][i].state);
    }
    if AtRest(es[..i + 1], samples[..i + 1], id) {
      var k :| 0 <= k < i + 1 && samples[..i + 1][k].id == id && !Active(es[..i + 1][k].state);
      if k < i { assert samples[..i][k].id == id && !Active(es[..i][k].state); }
    }
  }

  /** The active jobs are reported; exactly the others are forgotten by the controller. */
  method Measure(controller: ConnectionController, jobs: seq<DownloadEngine>, samples: seq<Sample>)
    returns (inputs: seq<Input>)
    requires controller.Valid() && |samples| == |jobs|
    modifies controller
    ensures controller.Valid() && inputs == Reports(Views(jobs), samples)
    ensures controller.states
              == map id | id in old(controller.states) && !AtRest(Views(jobs), samples, id) ::
                   old(controller.states)[id]
  {
    ghost var es := Views(jobs);
    inputs := [];
    for i := 0 to |jobs|
      invariant controller.Valid() && inputs == Reports(es[..i], samples[..i])
      invariant controller.states
                  == map id | id in old(controller.states) && !AtRest(es[..i], samples[..i], id) ::
                       old(controller.states)[id]
    {
      forall id: nat
        ensures AtRest(es[..i + 1], samples[..i + 1], id) <==>
                  AtRest(es[..i], samples[..i], id) || (samples[i].id == id && !Active(es[i].state))
      {
        AtRestGrows(es, samples, i, id);
      }
      assert es[..i + 1][..i] == es[..i] && samples[..i + 1][..i] == samples[..i];
      assert es[i] == jobs[i].View();
      if jobs[i].state == Queued || jobs[i].state == Downloading {
        inputs := inputs + [Input(samples[i].id, true, jobs[i].desiredConnections, jobs[i].minConnections,
                                  jobs[i].maxConnections, samples[i].throughput, samples[i].wait)];
      } else {
        controller.Remove(samples[i].id);
      }
    }
    assert es[..|jobs|] == es && samples[..|jobs|] == samples;
  }

  // ---------------------------------------------------------------------------
  // One turn of the control loop.

  /** What other threads do to a job's state after it was measured. */
  function Disturbed(e: Engine, change: Option<RunState>): Engine
  {
    if change.None? then e else WithState(e, change.value)
  }

  /** Other threads pause, resume, cancel, fail or complete jobs. */
  method Meanwhile(jobs: seq<DownloadEngine>, changes: seq<Option<RunState>>)
    requires |changes| == |jobs| && Distinct(jobs)
    modifies jobs
    ensures forall i :: 0 <= i < |jobs| ==> jobs[i].View() == Disturbed(old(jobs[i].View()), changes[i])
  {
    for k := 0 to |jobs|
      invariant forall i :: 0 <= i < k ==> jobs[i].View() == Disturbed(old(jobs[i].View()), changes[i])
      invariant forall i :: k <= i < |jobs| ==> jobs[i].View() == old(jobs[i].View())
    {
      assert jobs[k].View() == old(jobs[k].View());
      if changes[k].Some? {
        var changed := jobs[k].SetState(changes[k].value);
      }
    }
  }

  /** How a job comes out of a turn: disturbed, and then steered by its decision. An
      active job's decision is within its bounds; another job has none. */
  ghost predicate TurnedOne(e: Engine, change: Option<RunState>, t: TickRecord, id: nat, maxThreads: int, e': Engine)
  {
    && IsSteered(Disturbed(e, change), t.decisions, id, maxThreads, e')
    && (if t.inputs != [] then Fits(t, e, id) else !Active(e.state) && t.decisions == [])
  }

  /** What an active job then wants is what the controller decided, whatever became
      of its state. */
  lemma TurnedWants(e: Engine, change: Option<RunState>, t: TickRecord, id: nat, maxThreads: int, e': Engine)
    requires TurnedOne(e, change, t, id, maxThreads, e') && Active(e.state)
    ensures DecisionOf(t.decisions, id) == Some(e'.desired) && e'.minC <= e'.desired <= e'.maxC
  {
  }

  /** Its missing workers are planned, as far as the pool is large, if it still runs;
      a job that does not run gets none. */
  lemma TurnedPlans(e: Engine, change: Option<RunState>, t: TickRecord, id: nat, maxThreads: int, e': Engine)
    requires TurnedOne(e, change, t, id, maxThreads, e') && maxThreads > 0
    ensures e'.state == Disturbed(e, change).state
    ensures Active(e.state) && e'.state in {Queued, Downloading} ==>
              e'.scheduled == Max(e.scheduled, Min(e'.desired, e.scheduled + maxThreads))
    ensures !Active(e.state) || e'.state !in {Queued, Downloading} ==> e'.scheduled == e.scheduled
    ensures !Active(e.state) ==> e' == Disturbed(e, change)
  {
  }

  /** The tick of a turn, if any job is active. */
  method Decide(controller: ConnectionController, ghost es: seq<Engine>, ghost samples: seq<Sample>, inputs: seq<Input>)
    returns (decisions: seq<Decision>, ghost t: TickRecord)
    requires controller.Valid() && |es| == |samples| && DistinctIds(samples) && inputs == Reports(es, samples)
    requires forall i :: 0 <= i < |es| ==> InOrder(es[i])
    modifies controller
    ensures controller.Valid() && t.inputs == inputs && t.decisions == decisions && Int32(decisions)
    ensures inputs != [] ==> IsTick(controller.capacity, t) && t.after == controller.states
    ensures forall i :: 0 <= i < |es| ==> if inputs != [] then Fits(t, es[i], samples[i].id) else !Active(es[i].state)
    ensures inputs == [] ==> decisions == []
  {
    ghost var before := controller.states;
    decisions := [];
    t := TickRecord(before, inputs, before, decisions);
    if inputs == [] {
      NobodyActive(es, samples);
      return;
    }
    decisions := controller.Tick(inputs);
    t := TickRecord(before, inputs, controller.states, decisions);
    DecisionsFit(controller.capacity, t, es, samples);
  }

  /** One turn: measure, decide, steer, while other threads go on. Every active job
      then wants exactly what the controller decided for it, the other jobs are not
      steered, and no job gains or loses a worker outside the queue. */
  method ControlTurn(controller: ConnectionController, jobs: seq<DownloadEngine>, samples: seq<Sample>,
                     changes: seq<Option<RunState>>, queue: TaskQueue, maxThreads: int)
    returns (ghost t: TickRecord)
    requires controller.Valid() && |samples| == |jobs| == |changes| && Distinct(jobs) && DistinctIds(samples)
    requires forall i :: 0 <= i < |jobs| ==> InOrder(jobs[i].View())
    modifies controller, jobs, queue
    ensures controller.Valid() && t.inputs == Reports(old(Views(jobs)), samples)
    ensures t.inputs != [] ==> IsTick(controller.capacity, t) && t.after == controller.states
    ensures forall i :: 0 <= i < |jobs| ==>
              TurnedOne(old(jobs[i].View()), changes[i], t, samples[i].id, maxThreads, jobs[i].View())
    ensures forall i :: 0 <= i < |jobs| ==> Elsewhere(queue, jobs[i]) == old(Elsewhere(queue, jobs[i]))
  {
    ghost var es := Views(jobs);
    var inputs := Measure(controller, jobs, samples);
    var decisions;
    decisions, t := Decide(controller, es, samples, inputs);
    Meanwhile(jobs, changes);
    var ids := seq(|samples|, i requires 0 <= i < |samples| => samples[i].id);
    ApplyDecisions(jobs, ids, decisions, queue, maxThreads);
  }
}
