/**
 * What holds when a replaced worker may still be running: no operation is stranded as long as
 * recovery waits long enough, and exactly when the retry bound is kept.
 */
module SlowWorkers {
  import opened Prelude
  import opened Operations
  import opened OperationTheorems

  // ---------------------------------------------------------------- no stranded operation

  /**
   * How long the code waits before it recovers, against how long it backs off: recovery looks at
   * heartbeats at least `age` old, and no operation ever backs off longer than that.
   */
  predicate Patient(s: Engine, step: Step, age: Time) {
    && (step.Recover? ==> step.cutoff <= s.now - age)
    && (step.CreateOp? ==> ShortBackoff(step.maxRetries, age))
  }

  predicate ShortBackoff(maxRetries: int, age: Time) {
    0 <= age && (maxRetries >= 1 ==> CappedPower(maxRetries - 1) * SECOND <= age)
  }

  ghost predicate PatientRun(s: Engine, steps: seq<Step>, age: Time)
    requires Run(s, steps, false)
    decreases |steps|
  {
    steps != [] ==> Patient(s, steps[0], age) && PatientRun(Apply(s, steps[0]), steps[1..], age)
  }

  /** With the two-minute age of the reconciler, up to seven retries are short enough. */
  lemma TwoMinutesSuffice(maxRetries: int)
    requires maxRetries <= 7
    ensures ShortBackoff(maxRetries, 2 * MINUTE)
  {
    CappedPowerTable();
    if maxRetries >= 1 { CappedPowerGrows(maxRetries - 1, 6); }
  }

  /** An active or retrying row is due at most `age` after its heartbeat. */
  predicate DueSoon(row: Operation, age: Time) {
    && ShortBackoff(row.maxRetries, age)
    && (Active(row.status) || row.status == Retrying ==>
          row.heartbeatAt.Some? && row.nextAttemptAt <= row.heartbeatAt.value + age)
  }

  predicate Heard(row: Operation, now: Time) { row.heartbeatAt.Some? ==> row.heartbeatAt.value <= now }

  ghost predicate SlowInv(s: Engine, age: Time) {
    && WakeInv(s)
    && (forall id :: id in s.ops ==> DueSoon(s.ops[id], age) && Heard(s.ops[id], s.now))
    && (forall w :: w in s.live ==> s.live[w].op in s.ops && s.live[w].maxRetries == s.ops[s.live[w].op].maxRetries)
  }

  /** What a report or the end of a workflow writes, over a row in any state. */
  lemma SlowRow(row: Operation, exec: Execution, st: Status, outcome: Outcome, now: Time, age: Time)
    requires DueSoon(row, age) && exec.maxRetries == row.maxRetries && Active(st)
    requires row.status == Queued ==> row.nextAttemptAt <= now
    requires Heard(row, now)
    ensures ProgressRow(row, st, now).Some? ==>
      DueSoon(ProgressRow(row, st, now).value, age) && ProgressRow(row, st, now).value.status == st
    ensures FinishRow(row, exec, outcome, now).Some? ==>
      && DueSoon(FinishRow(row, exec, outcome, now).value, age)
      && FinishRow(row, exec, outcome, now).value.status != Queued
      && !Active(FinishRow(row, exec, outcome, now).value.status)
    ensures ProgressRow(row, st, now).Some? ==> ProgressRow(row, st, now).value.heartbeatAt == Some(now)
    ensures FinishRow(row, exec, outcome, now).Some? ==>
      FinishRow(row, exec, outcome, now).value.heartbeatAt == Some(now)
  {
    if outcome == Error(true) && exec.retryCount < exec.maxRetries {
      CappedPowerGrows(exec.retryCount, exec.maxRetries - 1);
    }
  }

  lemma SlowTarget(s: Engine, step: Step, id: OpId, age: Time)
    requires SlowInv(s, age) && Enabled(s, step, false) && Patient(s, step, age) && Target(s, step) == Some(id)
    requires id in Apply(s, step).ops
    ensures WakeOk(Apply(s, step), id) && DueSoon(Apply(s, step).ops[id], age) && Heard(Apply(s, step).ops[id], s.now)
  {
    hide AlwaysInv, WakeFresh, CappedPower;
    if step.CreateOp? {
      assert QueueOk(s) by { WakesQueue(s); }
      QueuedWakeOk(s, id, NewRow(step.key, step.request, step.maxRetries, s.now), 0);
    } else if step.Report? || step.Finish? {
      SlowWorker(s, step, id, age);
    } else {
      assert DueSoon(s.ops[id], age);
      TargetWakeOk(s, step, id);
    }
  }

  lemma WakesQueue(s: Engine)
    requires WakeInv(s)
    ensures QueueOk(s)
  {
  }

  lemma SlowWorker(s: Engine, step: Step, id: OpId, age: Time)
    requires SlowInv(s, age) && Enabled(s, step, false) && (step.Report? || step.Finish?) && s.live[step.w].op == id
    ensures id in Apply(s, step).ops
    ensures WakeOk(Apply(s, step), id) && DueSoon(Apply(s, step).ops[id], age) && Heard(Apply(s, step).ops[id], s.now)
  {
    hide AlwaysInv, WakeFresh, ShortBackoff, DueSoon, ProgressRow, FinishRow;
    assert WakeOk(s, id);
    StepGrows(s, step);
    SlowRow(s.ops[id], s.live[step.w], if step.Report? then step.st else Running,
            if step.Finish? then step.outcome else Success, s.now, age);
    RowStays(s, step, id);
  }

  /** A refused report leaves a terminal row, which is neither queued nor active. */
  lemma RowStays(s: Engine, step: Step, id: OpId)
    requires Enabled(s, step, false) && (step.Report? || step.Finish?) && s.live[step.w].op == id && id in s.ops
    ensures id in Apply(s, step).ops
    ensures ProgressRow(s.ops[id], if step.Report? then step.st else Running, s.now).None? ==>
      Terminal(s.ops[id].status)
    ensures step.Finish? && FinishRow(s.ops[id], s.live[step.w], step.outcome, s.now).None? ==>
      Terminal(s.ops[id].status)
  {
  }

  lemma SlowInvStep(s: Engine, step: Step, age: Time)
    requires SlowInv(s, age) && Enabled(s, step, false) && Patient(s, step, age)
    ensures SlowInv(Apply(s, step), age)
  {
    hide AlwaysInv, WakeOk, DueSoon, Patient, Apply, Enabled;
    AlwaysInvStep(s, step);
    KeysStay(s, step);
    var t := Apply(s, step);
    TimeMoves(s, step);
    forall id | id in t.ops ensures WakeOk(t, id) && DueSoon(t.ops[id], age) && Heard(t.ops[id], t.now) {
      if Target(s, step) == Some(id) {
        SlowTarget(s, step, id, age);
      } else {
        OthersUntouched(s, step, id);
        OtherWakeOk(s, step, id);
      }
    }
    SlowLive(s, step);
  }

  lemma TimeMoves(s: Engine, step: Step)
    requires Enabled(s, step, false)
    ensures s.now <= Apply(s, step).now
  {
  }

  lemma SlowLive(s: Engine, step: Step)
    requires Enabled(s, step, false)
    requires forall w :: w in s.live ==> s.live[w].op in s.ops && s.live[w].maxRetries == s.ops[s.live[w].op].maxRetries
    ensures var t := Apply(s, step);
            forall w :: w in t.live ==> t.live[w].op in t.ops && t.live[w].maxRetries == t.ops[t.live[w].op].maxRetries
  {
  }

  lemma {:induction false} SlowInvRun(s: Engine, steps: seq<Step>, age: Time)
    requires SlowInv(s, age) && Run(s, steps, false) && PatientRun(s, steps, age)
    ensures SlowInv(Exec(s, steps), age)
    decreases |steps|
  {
    hide SlowInv, Apply, Enabled, Patient;
    if steps != [] {
      SlowInvStep(s, steps[0], age);
      SlowInvRun(Apply(s, steps[0]), steps[1..], age);
    }
  }

  /**
   * No stranded operation, whatever the workers do: slow ones that were replaced and report later
   * are included, as long as recovery waits at least as long as the longest backoff.
   */
  lemma NoStrandedEvenIfSlow(now: Time, steps: seq<Step>, age: Time, id: OpId)
    requires Run(Init(now), steps, false) && PatientRun(Init(now), steps, age) && id in Exec(Init(now), steps).ops
    ensures HasWakeUp(Exec(Init(now), steps), id) && CanEnd(Exec(Init(now), steps), id)
  {
    SlowInvRun(Init(now), steps, age);
    WakesGiveEnds(Exec(Init(now), steps), id);
  }

  // ---------------------------------------------------------------- the retry bound

  /** A worker schedules a retry from its claim-time count although the stored count is spent. */
  ghost predicate StaleRetry(s: Engine, step: Step)
    requires Enabled(s, step, false)
  {
    && step.Finish? && step.outcome == Error(true) && s.live[step.w].op in s.ops
    && s.live[step.w].retryCount < s.live[step.w].maxRetries
    && !Terminal(s.ops[s.live[step.w].op].status)
    && s.ops[s.live[step.w].op].retryCount == s.ops[s.live[step.w].op].maxRetries
  }

  ghost predicate WithinBound(s: Engine) {
    forall id :: id in s.ops ==> s.ops[id].retryCount <= s.ops[id].maxRetries
  }

  /** Without fail-stop workers: a step keeps every retry count in bound iff it is no stale retry. */
  lemma StepKeepsBoundIff(s: Engine, step: Step)
    requires Enabled(s, step, false) && WithinBound(s)
    ensures WithinBound(Apply(s, step)) <==> !StaleRetry(s, step)
  {
    var t := Apply(s, step);
    forall id | id in t.ops && Target(s, step) != Some(id)
      ensures t.ops[id].retryCount <= t.ops[id].maxRetries
    {
      OthersUntouched(s, step, id);
    }
    if step.Finish? && s.live[step.w].op in s.ops { FinishBound(s, step); }
  }

  lemma FinishBound(s: Engine, step: Step)
    requires Enabled(s, step, false) && step.Finish? && s.live[step.w].op in s.ops
    requires s.ops[s.live[step.w].op].retryCount <= s.ops[s.live[step.w].op].maxRetries
    ensures var row := Apply(s, step).ops[s.live[step.w].op];
            row.retryCount <= row.maxRetries <==> !StaleRetry(s, step)
  {
  }

  /** Over a whole run the bound holds in every state exactly as long as no step is a stale retry. */
  lemma {:induction false} BoundHoldsIff(s: Engine, steps: seq<Step>)
    requires Run(s, steps, false) && WithinBound(s)
    ensures AlwaysWithinBound(s, steps) <==> NoStaleRetry(s, steps)
    decreases |steps|
  {
    hide Apply, Enabled, StaleRetry, WithinBound;
    if steps != [] {
      StepKeepsBoundIff(s, steps[0]);
      if WithinBound(Apply(s, steps[0])) { BoundHoldsIff(Apply(s, steps[0]), steps[1..]); }
    }
  }

  ghost predicate AlwaysWithinBound(s: Engine, steps: seq<Step>)
    requires Run(s, steps, false)
    decreases |steps|
  {
    WithinBound(s) && (steps != [] ==> AlwaysWithinBound(Apply(s, steps[0]), steps[1..]))
  }

  ghost predicate NoStaleRetry(s: Engine, steps: seq<Step>)
    requires Run(s, steps, false)
    decreases |steps|
  {
    steps != [] ==> !StaleRetry(s, steps[0]) && NoStaleRetry(Apply(s, steps[0]), steps[1..])
  }

  /** A claimed operation: worker 1 runs it from time 0. */
  lemma ClaimedOnce(maxRetries: nat) returns (steps: seq<Step>)
    ensures Run(Init(0), steps, false)
    ensures var s := Exec(Init(0), steps);
            && s.now == 0 && s.live == map[1 := Execution(Random(0), 0, maxRetries)] && Random(0) in s.ops
            && s.ops[Random(0)] == Operation(Text("k"), 0, Running, false, 0, maxRetries, 0, Some(0), None)
            && s.outbox == [Fresh(OperationQueued(Random(0)), 0), Fresh(OperationUpdated(Random(0)), 0)]
            && s.domain == [0] && s.queue == [Message(0, Random(0), true, false)]
  {
    var create := CreateOp(Random(0), Text("k"), 0, maxRetries);
    RunThen(Init(0), [], create, false);
    steps := [] + [create];
    RunThen(Init(0), steps, AppendDomain(0), false);
    steps := steps + [AppendDomain(0)];
    assert Exec(Init(0), steps).domain[0] == 0;
    RunThen(Init(0), steps, AppendQueue(0), false);
    steps := steps + [AppendQueue(0)];
    RunThen(Init(0), steps, Take(1, 0), false);
    steps := steps + [Take(1, 0)];
  }

  /** A slow worker that was replaced does break it: max_retries 1, retry count 2. */
  lemma SlowWorkerBreaksBound()
    ensures exists steps :: Run(Init(0), steps, false) && Random(0) in Exec(Init(0), steps).ops
              && Exec(Init(0), steps).ops[Random(0)].retryCount > Exec(Init(0), steps).ops[Random(0)].maxRetries
  {
    var steps := ClaimedOnce(1);
    RunThen(Init(0), steps, Tick(5 * MINUTE), false);
    steps := steps + [Tick(5 * MINUTE)];
    RunThen(Init(0), steps, Recover(Random(0), 3 * MINUTE), false);
    steps := steps + [Recover(Random(0), 3 * MINUTE)];
    RunThen(Init(0), steps, Finish(1, Error(true)), false);
    steps := steps + [Finish(1, Error(true))];
  }

  // ---------------------------------------------------------------- recovery that does not wait

  /** A run so far and the engine it leads to. */
  ghost predicate At(steps: seq<Step>, s: Engine) { Run(Init(0), steps, false) && Exec(Init(0), steps) == s }

  lemma Next(steps: seq<Step>, s: Engine, step: Step) returns (more: seq<Step>)
    requires At(steps, s) && Enabled(s, step, false)
    ensures At(more, Apply(s, step)) && more == steps + [step]
  {
    hide Apply, Enabled;
    RunThen(Init(0), steps, step, false);
    more := steps + [step];
  }

  /** Publishes queueing event e of the operation completely: both streams and the mark. */
  lemma PublishFully(steps: seq<Step>, s: Engine, e: nat) returns (more: seq<Step>, t: Engine)
    requires At(steps, s) && Claimable(s, e) && s.outbox[e].kind == OperationQueued(Random(0))
    ensures At(more, t)
    ensures t == s.(domain := s.domain + [e], queue := s.queue + [Message(e, Random(0), false, false)],
                    outbox := s.outbox[e := s.outbox[e].(published := true)])
  {
    more := Next(steps, s, AppendDomain(e));
    t := Apply(s, AppendDomain(e));
    assert t.domain[|s.domain|] == e;
    more := Next(more, t, AppendQueue(e));
    t := Apply(t, AppendQueue(e));
    assert t.queue[|s.queue|].event == e;
    more := Next(more, t, MarkPublished(e));
    t := Apply(t, MarkPublished(e));
  }

  /** Worker 1 went silent and is recovered at once. */
  lemma RecoveredAtOnce() returns (steps: seq<Step>, s: Engine)
    ensures At(steps, s) && s.now == SECOND && Random(0) in s.ops && s.live == map[1 := Execution(Random(0), 0, 3)]
    ensures s.ops[Random(0)] == Operation(Text("k"), 0, Queued, true, 1, 3, 0, None, None)
    ensures s.outbox == [Fresh(OperationQueued(Random(0)), 0), Fresh(OperationUpdated(Random(0)), 0),
                         Fresh(OperationQueued(Random(0)), SECOND)]
    ensures s.domain == [0] && s.queue == [Message(0, Random(0), true, false)]
  {
    steps := ClaimedOnce(3);
    s := Exec(Init(0), steps);
    steps := Next(steps, s, Tick(SECOND));
    s := Apply(s, Tick(SECOND));
    steps := Next(steps, s, Recover(Random(0), SECOND));
    s := Apply(s, Recover(Random(0), SECOND));
  }

  /** Worker 2 replaces worker 1. */
  lemma Replaced() returns (steps: seq<Step>, s: Engine)
    ensures At(steps, s) && s.now == SECOND && Random(0) in s.ops
    ensures s.live == map[1 := Execution(Random(0), 0, 3), 2 := Execution(Random(0), 1, 3)]
    ensures s.ops[Random(0)] == Operation(Text("k"), 0, Running, true, 1, 3, 0, Some(SECOND), None)
    ensures s.outbox == [Fresh(OperationQueued(Random(0)), 0), Fresh(OperationUpdated(Random(0)), 0),
                         Fresh(OperationQueued(Random(0)), SECOND).(published := true),
                         Fresh(OperationUpdated(Random(0)), SECOND)]
    ensures s.domain == [0, 2]
    ensures s.queue == [Message(0, Random(0), true, false), Message(2, Random(0), true, false)]
  {
    var r: Engine;
    steps, r := RecoveredAtOnce();
    steps, s := PublishFully(steps, r, 2);
    assert s.queue == [Message(0, Random(0), true, false), Message(2, Random(0), false, false)];
    steps := Next(steps, s, Take(2, 1));
    s := Apply(s, Take(2, 1));
  }

  /** Worker 1 schedules its retry, and worker 2 reports progress over it. */
  lemma StaleReport() returns (steps: seq<Step>, s: Engine)
    ensures At(steps, s) && s.now == SECOND && Random(0) in s.ops && 3 !in s.live
    ensures s.ops[Random(0)] == Operation(Text("k"), 0, Running, true, 2, 3, 2 * SECOND, Some(SECOND), None)
    ensures |s.outbox| == 6 && s.outbox[0] == Fresh(OperationQueued(Random(0)), 0) && s.outbox[2].published
    ensures forall e :: 0 <= e < 6 && e !in {0, 2} ==> s.outbox[e].kind == OperationUpdated(Random(0))
    ensures s.domain == [0, 2]
    ensures s.queue == [Message(0, Random(0), true, false), Message(2, Random(0), true, false)]
  {
    CappedPowerTable();
    steps, s := Replaced();
    steps := Next(steps, s, Finish(1, Error(true)));
    s := Apply(s, Finish(1, Error(true)));
    steps := Next(steps, s, Report(2, Running));
    s := Apply(s, Report(2, Running));
  }

  /** Recovery half a second later queues it half a second too early. */
  lemma QueuedTooEarly() returns (steps: seq<Step>, s: Engine)
    ensures At(steps, s) && s.now == SECOND + SECOND / 2 && Random(0) in s.ops && 3 !in s.live
    ensures s.ops[Random(0)].status == Queued && s.ops[Random(0)].nextAttemptAt == 2 * SECOND
    ensures |s.outbox| == 7 && s.outbox[0] == Fresh(OperationQueued(Random(0)), 0) && s.outbox[2].published
    ensures s.outbox[6] == Fresh(OperationQueued(Random(0)), s.now)
    ensures forall e :: 0 <= e < 6 && e !in {0, 2} ==> s.outbox[e].kind == OperationUpdated(Random(0))
    ensures s.domain == [0, 2]
    ensures s.queue == [Message(0, Random(0), true, false), Message(2, Random(0), true, false)]
  {
    var early := SECOND + SECOND / 2;
    steps, s := StaleReport();
    steps := Next(steps, s, Tick(early));
    s := Apply(s, Tick(early));
    steps := Next(steps, s, Recover(Random(0), early));
    s := Apply(s, Recover(Random(0), early));
  }

  /**
   * Without that patience an operation can be stranded: recovery at once after a stale report
   * queues it before it is due, its only wake-up is spent on the refused claim, and nothing will
   * ever push it again.
   */
  lemma ImpatientRecoveryStrands() returns (steps: seq<Step>, s: Engine)
    ensures At(steps, s) && Random(0) in s.ops && s.ops[Random(0)].status == Queued
    ensures s.ops[Random(0)].nextAttemptAt <= s.now && !HasWakeUp(s, Random(0))
  {
    var q: Engine;
    steps, q := QueuedTooEarly();
    steps, s := PublishFully(steps, q, 6);
    assert s.queue[0] == q.queue[0] && s.queue[1] == q.queue[1] && s.queue[2].op == Random(0);
    steps := Next(steps, s, Take(3, 2));
    s := Apply(s, Take(3, 2));
    assert s.queue[0].event == 0 && s.domain[0] == 0;
    steps := Next(steps, s, MarkPublished(0));
    s := Apply(s, MarkPublished(0));
    steps := Next(steps, s, Tick(2 * SECOND));
    s := Apply(s, Tick(2 * SECOND));
    assert forall e :: 0 <= e < |s.outbox| && s.outbox[e].kind == OperationQueued(Random(0)) ==> e in {0, 2, 6};
    assert forall m :: 0 <= m < |s.queue| ==> s.queue[m].tried;
  }
}
