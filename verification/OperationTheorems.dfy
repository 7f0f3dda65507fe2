/** What every run of the operation engine keeps, and why no operation is ever stranded. */
module OperationTheorems {
  import opened Prelude
  import opened Operations

  // ---------------------------------------------------------------- invariants of every run

  /** Row facts that hold even when workers are slow and report after being replaced. */
  predicate RowOk(row: Operation) {
    && (Terminal(row.status) <==> row.finishedAt.Some?)
    && (Terminal(row.status) ==> !row.retryable)
    && (Active(row.status) ==> row.heartbeatAt.Some?)
  }

  ghost predicate KeysUnique(s: Engine) {
    forall a, b :: a in s.ops && b in s.ops && s.ops[a].key == s.ops[b].key ==> a == b
  }

  /** At-least-once: a published row is in domain-events, and in operation-queue if it queues. */
  ghost predicate OutboxOk(s: Engine) {
    forall e :: 0 <= e < |s.outbox| && s.outbox[e].published ==> Delivered(s, e)
  }

  ghost predicate QueueOk(s: Engine) {
    forall m :: 0 <= m < |s.queue| ==>
      s.queue[m].event < |s.outbox| && s.outbox[s.queue[m].event].kind == OperationQueued(s.queue[m].op)
  }

  ghost predicate AlwaysInv(s: Engine) {
    && (forall id :: id in s.ops ==> RowOk(s.ops[id]))
    && KeysUnique(s) && OutboxOk(s) && QueueOk(s)
    && (forall w :: w in s.live ==> s.live[w].op in s.ops)
  }

  /** Streams and outbox are append-only: rows keep their kind, entries keep their event. */
  ghost predicate Grows(s: Engine, t: Engine) {
    && s.domain <= t.domain && |s.outbox| <= |t.outbox| && |s.queue| <= |t.queue|
    && (forall e :: 0 <= e < |s.outbox| ==> t.outbox[e].kind == s.outbox[e].kind)
    && (forall m :: 0 <= m < |s.queue| ==> t.queue[m].event == s.queue[m].event && t.queue[m].op == s.queue[m].op)
  }

  lemma StepGrows(s: Engine, step: Step)
    requires Enabled(s, step, false)
    ensures Grows(s, Apply(s, step))
  {
  }

  lemma DeliveredStays(s: Engine, t: Engine, e: nat)
    requires Grows(s, t) && e < |s.outbox| && Delivered(s, e)
    ensures Delivered(t, e)
  {
    if s.outbox[e].kind.OperationQueued? {
      var m :| 0 <= m < |s.queue| && s.queue[m].event == e;
      assert t.queue[m].event == e;
    }
  }

  lemma OutboxOkStep(s: Engine, step: Step)
    requires OutboxOk(s) && Enabled(s, step, false)
    ensures OutboxOk(Apply(s, step))
  {
    var t := Apply(s, step);
    StepGrows(s, step);
    forall e | 0 <= e < |t.outbox| && t.outbox[e].published ensures Delivered(t, e) {
      assert e < |s.outbox| && (s.outbox[e].published || step == MarkPublished(e));
      DeliveredStays(s, t, e);
    }
  }

  lemma QueueOkStep(s: Engine, step: Step)
    requires QueueOk(s) && Enabled(s, step, false)
    ensures QueueOk(Apply(s, step))
  {
    StepGrows(s, step);
    var t := Apply(s, step);
    forall m | 0 <= m < |t.queue|
      ensures t.queue[m].event < |t.outbox| && t.outbox[t.queue[m].event].kind == OperationQueued(t.queue[m].op)
    {
      if m < |s.queue| { assert s.queue[m].event < |s.outbox|; }
    }
  }

  lemma RowsOkStep(s: Engine, step: Step)
    requires AlwaysInv(s) && Enabled(s, step, false)
    ensures forall id :: id in Apply(s, step).ops ==> RowOk(Apply(s, step).ops[id])
    ensures forall w :: w in Apply(s, step).live ==> Apply(s, step).live[w].op in Apply(s, step).ops
  {
    hide OutboxOk, QueueOk, KeysUnique, RowOk;
    var t := Apply(s, step);
    forall id | id in t.ops ensures RowOk(t.ops[id]) {
      if Target(s, step) == Some(id) { TargetRowOk(s, step, id); } else { OthersUntouched(s, step, id); }
    }
  }

  lemma TargetRowOk(s: Engine, step: Step, id: OpId)
    requires Enabled(s, step, false) && Target(s, step) == Some(id) && id in Apply(s, step).ops
    requires id in s.ops ==> RowOk(s.ops[id])
    ensures RowOk(Apply(s, step).ops[id])
  {
  }

  /** Rows are never deleted and keep their idempotency key. */
  lemma KeysStay(s: Engine, step: Step)
    requires Enabled(s, step, false)
    ensures forall id :: id in s.ops ==> id in Apply(s, step).ops && Apply(s, step).ops[id].key == s.ops[id].key
    ensures forall id :: id in Apply(s, step).ops && id !in s.ops ==>
              step.CreateOp? && step.id == id && Apply(s, step).ops[id].key == step.key
  {
  }

  lemma AlwaysInvStep(s: Engine, step: Step)
    requires AlwaysInv(s) && Enabled(s, step, false)
    ensures AlwaysInv(Apply(s, step))
  {
    OutboxOkStep(s, step);
    QueueOkStep(s, step);
    RowsOkStep(s, step);
    KeysStay(s, step);
  }

  /** Terminal rows absorb every step, stale workers included: the whole row stays as it is. */
  lemma TerminalAbsorbsStep(s: Engine, step: Step, id: OpId)
    requires Enabled(s, step, false) && id in s.ops
    ensures id in Apply(s, step).ops
    ensures Terminal(s.ops[id].status) ==> Apply(s, step).ops[id] == s.ops[id]
  {
  }

  lemma {:induction false} TerminalAbsorbsRun(s: Engine, steps: seq<Step>, id: OpId)
    requires Run(s, steps, false) && id in s.ops
    ensures id in Exec(s, steps).ops
    ensures Terminal(s.ops[id].status) ==> Exec(s, steps).ops[id] == s.ops[id]
    decreases |steps|
  {
    if steps != [] {
      TerminalAbsorbsStep(s, steps[0], id);
      TerminalAbsorbsRun(Apply(s, steps[0]), steps[1..], id);
    }
  }

  /** Outbox at-least-once, heartbeats, finish times and key uniqueness in every reachable state. */
  lemma {:induction false} AlwaysInvRun(s: Engine, steps: seq<Step>)
    requires AlwaysInv(s) && Run(s, steps, false)
    ensures AlwaysInv(Exec(s, steps))
    decreases |steps|
  {
    if steps != [] {
      AlwaysInvStep(s, steps[0]);
      AlwaysInvRun(Apply(s, steps[0]), steps[1..]);
    }
  }

  /** Publish retries: the delay never shrinks with further attempts and never exceeds 256 s. */
  lemma PublishDelays(a: nat, b: nat)
    requires a <= b
    ensures SECOND <= RetryDelay(a) <= RetryDelay(b) <= 256 * SECOND
    ensures RetryDelay(a) == CappedPower(a) * SECOND
    ensures a < b <= 8 ==> RetryDelay(a) < RetryDelay(b)
  {
    CappedPowerGrows(a, b);
  }

  // ---------------------------------------------------------------- fail-stop workers

  /** No entry the operation's last queueing event put on the stream has been tried or acked. */
  ghost predicate WakeFresh(s: Engine, wake: nat) {
    forall m :: 0 <= m < |s.queue| && s.queue[m].event == wake ==> !s.queue[m].tried && !s.queue[m].acked
  }

  /** Exact accounting of one operation: claims made, retries spent, and where its wake-up is. */
  ghost predicate OpOk(s: Engine, id: OpId)
    requires id in s.ops
  {
    var row := s.ops[id];
    && id in s.hist
    && row.retryCount <= row.maxRetries
    && s.hist[id].wake < |s.outbox| && s.outbox[s.hist[id].wake].kind == OperationQueued(id)
    && (row.status == Queued ==>
          row.nextAttemptAt <= s.now && s.hist[id].claims == row.retryCount && WakeFresh(s, s.hist[id].wake))
    && (Active(row.status) ==>
          && s.hist[id].claims == row.retryCount + 1 && row.nextAttemptAt <= s.now
          && row.heartbeatAt.Some? && row.heartbeatAt.value <= s.now)
    && (row.status == Retrying ==> s.hist[id].claims == row.retryCount)
    && (Terminal(row.status) ==> s.hist[id].claims == row.retryCount + 1)
  }

  /** Each live worker owns an active operation alone and still holds its current retry count. */
  ghost predicate LiveOk(s: Engine) {
    && (forall w :: w in s.live ==>
          && s.live[w].op in s.ops && Active(s.ops[s.live[w].op].status)
          && s.live[w].retryCount == s.ops[s.live[w].op].retryCount
          && s.live[w].maxRetries == s.ops[s.live[w].op].maxRetries)
    && (forall v, w :: v in s.live && w in s.live && s.live[v].op == s.live[w].op ==> v == w)
  }

  ghost predicate FailStopInv(s: Engine) {
    AlwaysInv(s) && LiveOk(s) && forall id :: id in s.ops ==> OpOk(s, id)
  }

  /** The one operation whose row a step may write. */
  ghost function Target(s: Engine, step: Step): Option<OpId>
    requires Enabled(s, step, false)
  {
    match step
    case CreateOp(id, _, _, _) => Some(id)
    case Take(_, m) => Some(s.queue[m].op)
    case Report(w, _) => Some(s.live[w].op)
    case Finish(w, _) => Some(s.live[w].op)
    case Requeue(id) => Some(id)
    case Recover(id, _) => Some(id)
    case _ => None
  }

  lemma OthersUntouched(s: Engine, step: Step, id: OpId)
    requires Enabled(s, step, false) && Target(s, step) != Some(id)
    ensures (id in Apply(s, step).ops <==> id in s.ops)
    ensures id in s.ops ==> Apply(s, step).ops[id] == s.ops[id]
    ensures (id in Apply(s, step).hist <==> id in s.hist)
    ensures id in s.hist ==> Apply(s, step).hist[id] == s.hist[id]
    ensures s.now <= Apply(s, step).now
  {
  }

  lemma WakeStaysFresh(s: Engine, step: Step, id: OpId)
    requires QueueOk(s) && Enabled(s, step, false) && Target(s, step) != Some(id)
    requires id in s.hist && s.hist[id].wake < |s.outbox|
    requires s.outbox[s.hist[id].wake].kind == OperationQueued(id)
    requires WakeFresh(s, s.hist[id].wake)
    ensures WakeFresh(Apply(s, step), s.hist[id].wake)
  {
    StepGrows(s, step);
    var t := Apply(s, step);
    forall m | 0 <= m < |t.queue| && t.queue[m].event == s.hist[id].wake
      ensures !t.queue[m].tried && !t.queue[m].acked
    {
      if m < |s.queue| { assert s.queue[m].op == id; }
    }
  }

  lemma OtherOpOk(s: Engine, step: Step, id: OpId)
    requires FailStopInv(s) && Enabled(s, step, false) && Target(s, step) != Some(id)
    requires id in s.ops
    ensures id in Apply(s, step).ops && OpOk(Apply(s, step), id)
  {
    OthersUntouched(s, step, id);
    StepGrows(s, step);
    assert OpOk(s, id);
    if s.ops[id].status == Queued { WakeStaysFresh(s, step, id); }
  }

  /** A freshly queued row wakes through a new event, which no stream entry can carry yet. */
  lemma QueueingOk(s: Engine, id: OpId, row: Operation, claims: nat)
    requires QueueOk(s) && row.status == Queued && row.nextAttemptAt <= s.now
    requires claims == row.retryCount <= row.maxRetries
    ensures OpOk(SaveQueued(s, id, row, claims), id)
  {
    var t := SaveQueued(s, id, row, claims);
    assert t.hist[id].wake == |s.outbox|;
    forall m | 0 <= m < |t.queue| ensures t.queue[m].event != |s.outbox| {
      assert s.queue[m].event < |s.outbox|;
    }
    assert WakeFresh(t, t.hist[id].wake);
  }

  /** A transition to an active, retrying or final row needs no wake-up. */
  lemma UpdatingOk(s: Engine, t: Engine, id: OpId, row: Operation)
    requires id in s.hist && s.hist[id].wake < |s.outbox| && s.outbox[s.hist[id].wake].kind == OperationQueued(id)
    requires Grows(s, t) && id in t.ops && t.ops[id] == row && row.status != Queued && t.now == s.now
    requires id in t.hist && t.hist[id].wake == s.hist[id].wake
    requires row.retryCount <= row.maxRetries
    requires t.hist[id].claims == if row.status == Retrying then row.retryCount else row.retryCount + 1
    requires Active(row.status) ==> row.nextAttemptAt <= s.now && row.heartbeatAt == Some(s.now)
    ensures OpOk(t, id)
  {
  }

  lemma TakenOpOk(s: Engine, w: nat, m: nat)
    requires FailStopInv(s) && Enabled(s, Take(w, m), false) && s.queue[m].op in s.ops
    ensures OpOk(TakeTx(s, w, m), s.queue[m].op)
  {
    var id := s.queue[m].op;
    assert OpOk(s, id);
    StepGrows(s, Take(w, m));
    if s.ops[id].status == Queued {
      UpdatingOk(s, TakeTx(s, w, m), id, ClaimRow(s.ops[id], s.now).value);
    }
  }

  /** What a report or the end of a workflow may write over an active row. */
  lemma WorkerRowOk(row: Operation, exec: Execution, st: Status, outcome: Outcome, now: Time)
    requires Active(row.status) && Active(st) && row.retryCount <= row.maxRetries
    requires exec.retryCount == row.retryCount && exec.maxRetries == row.maxRetries
    ensures var p := ProgressRow(row, st, now);
            p.Some? && p.value == row.(status := st, heartbeatAt := Some(now))
    ensures var f := FinishRow(row, exec, outcome, now);
            && f.Some? && f.value.maxRetries == row.maxRetries && f.value.retryCount <= row.maxRetries
            && !Active(f.value.status) && f.value.status != Queued
            && f.value.retryCount == if f.value.status == Retrying then row.retryCount + 1 else row.retryCount
  {
  }

  lemma WorkerOpOk(s: Engine, step: Step, id: OpId)
    requires FailStopInv(s) && Enabled(s, step, false) && (step.Report? || step.Finish?)
    requires s.live[step.w].op == id
    ensures id in Apply(s, step).ops && OpOk(Apply(s, step), id)
  {
    hide AlwaysInv, WakeFresh, Grows, ProgressRow, FinishRow;
    assert OpOk(s, id);
    StepGrows(s, step);
    WorkerRowOk(s.ops[id], s.live[step.w], if step.Report? then step.st else Running,
                if step.Finish? then step.outcome else Success, s.now);
    UpdatingOk(s, Apply(s, step), id, Apply(s, step).ops[id]);
  }

  lemma TargetOpOk(s: Engine, step: Step, id: OpId)
    requires FailStopInv(s) && Enabled(s, step, true) && Enabled(s, step, false)
    requires Target(s, step) == Some(id) && id in Apply(s, step).ops
    ensures OpOk(Apply(s, step), id)
  {
    match step
    case CreateOp(_, key, request, maxRetries) =>
      QueueingOk(s, id, NewRow(key, request, maxRetries, s.now), 0);
    case Take(w, m) =>
      TakenOpOk(s, w, m);
    case Report(_, _) =>
      WorkerOpOk(s, step, id);
    case Finish(_, _) =>
      WorkerOpOk(s, step, id);
    case Requeue(_) =>
      assert OpOk(s, id);
      QueueingOk(s, id, RequeueRow(s.ops[id]).value, s.hist[id].claims);
    case Recover(_, _) =>
      RecoveredOpOk(s, step, id);
    case _ =>
  }

  lemma RecoveredOpOk(s: Engine, step: Step, id: OpId)
    requires FailStopInv(s) && step.Recover? && step.id == id && Enabled(s, step, false)
    ensures OpOk(Apply(s, step), id)
  {
    assert OpOk(s, id);
    var row := RecoverRow(s.ops[id], s.now).value;
    if row.status == Queued {
      QueueingOk(s, id, row, s.hist[id].claims);
    } else {
      StepGrows(s, step);
      UpdatingOk(s, Apply(s, step), id, row);
    }
  }

  lemma LiveOkTake(s: Engine, w: nat, m: nat)
    requires FailStopInv(s) && Enabled(s, Take(w, m), false)
    ensures LiveOk(TakeTx(s, w, m))
  {
    hide AlwaysInv, OpOk;
    var id := s.queue[m].op;
    if id in s.ops && s.ops[id].status == Queued {
      assert forall v :: v in s.live ==> s.live[v].op != id;
    }
  }

  lemma LiveOkStep(s: Engine, step: Step)
    requires FailStopInv(s) && Enabled(s, step, true) && Enabled(s, step, false)
    ensures LiveOk(Apply(s, step))
  {
    if step.Take? {
      LiveOkTake(s, step.w, step.m);
    } else {
      var t := Apply(s, step);
      forall w | w in t.live
        ensures w in s.live && t.live[w] == s.live[w] && t.live[w].op in t.ops
        ensures Active(t.ops[t.live[w].op].status)
        ensures t.live[w].retryCount == t.ops[t.live[w].op].retryCount
        ensures t.live[w].maxRetries == t.ops[t.live[w].op].maxRetries
      {
        LiveOkWorker(s, step, w);
      }
    }
  }

  lemma LiveOkWorker(s: Engine, step: Step, w: nat)
    requires FailStopInv(s) && Enabled(s, step, true) && Enabled(s, step, false) && !step.Take?
    requires w in Apply(s, step).live
    ensures w in s.live && Apply(s, step).live[w] == s.live[w]
    ensures s.live[w].op in Apply(s, step).ops
    ensures Active(Apply(s, step).ops[s.live[w].op].status)
    ensures s.live[w].retryCount == Apply(s, step).ops[s.live[w].op].retryCount
    ensures s.live[w].maxRetries == Apply(s, step).ops[s.live[w].op].maxRetries
  {
    hide AlwaysInv, OpOk;
    if Target(s, step) != Some(s.live[w].op) { OthersUntouched(s, step, s.live[w].op); }
  }

  lemma FailStopInvStep(s: Engine, step: Step)
    requires FailStopInv(s) && Enabled(s, step, true) && Enabled(s, step, false)
    ensures FailStopInv(Apply(s, step))
  {
    AlwaysInvStep(s, step);
    LiveOkStep(s, step);
    forall id | id in Apply(s, step).ops ensures OpOk(Apply(s, step), id) {
      if Target(s, step) == Some(id) { TargetOpOk(s, step, id); } else {
        OthersUntouched(s, step, id);
        OtherOpOk(s, step, id);
      }
    }
  }

  lemma {:induction false} FailStopInvRun(s: Engine, steps: seq<Step>)
    requires FailStopInv(s) && Run(s, steps, true) && Run(s, steps, false)
    ensures FailStopInv(Exec(s, steps))
    decreases |steps|
  {
    if steps != [] {
      FailStopInvStep(s, steps[0]);
      FailStopInvRun(Apply(s, steps[0]), steps[1..]);
    }
  }

  // ---------------------------------------------------------------- no stranded operation

  /** What every non-final operation must have for a continuation to exist: a wake-up still to come. */
  ghost predicate WakeOk(s: Engine, id: OpId)
    requires id in s.ops
  {
    && id in s.hist && s.hist[id].wake < |s.outbox| && s.outbox[s.hist[id].wake].kind == OperationQueued(id)
    && (s.ops[id].status == Queued ==> s.ops[id].nextAttemptAt <= s.now && WakeFresh(s, s.hist[id].wake))
    && (Active(s.ops[id].status) ==> s.ops[id].heartbeatAt.Some? && s.ops[id].heartbeatAt.value <= s.now)
  }

  ghost predicate WakeInv(s: Engine) {
    AlwaysInv(s) && forall id :: id in s.ops ==> WakeOk(s, id)
  }

  lemma FailStopWakes(s: Engine)
    requires FailStopInv(s)
    ensures WakeInv(s)
  {
    hide AlwaysInv, LiveOk, WakeFresh;
    forall id | id in s.ops ensures WakeOk(s, id) { assert OpOk(s, id); }
  }

  lemma OtherWakeOk(s: Engine, step: Step, id: OpId)
    requires WakeInv(s) && Enabled(s, step, false) && Target(s, step) != Some(id) && id in s.ops
    ensures id in Apply(s, step).ops && WakeOk(Apply(s, step), id)
  {
    hide Apply, Enabled;
    OthersUntouched(s, step, id);
    StepGrows(s, step);
    assert WakeOk(s, id);
    if s.ops[id].status == Queued { WakeStaysFresh(s, step, id); }
  }

  /** A freshly queued row that is due wakes through a new event. */
  lemma QueuedWakeOk(s: Engine, id: OpId, row: Operation, claims: nat)
    requires QueueOk(s) && row.status == Queued && row.nextAttemptAt <= s.now
    ensures WakeOk(SaveQueued(s, id, row, claims), id)
  {
    var t := SaveQueued(s, id, row, claims);
    forall m | 0 <= m < |t.queue| ensures t.queue[m].event != |s.outbox| {
      assert s.queue[m].event < |s.outbox|;
    }
  }

  /** The steps a continuation is made of; recovery only of rows that are due. */
  predicate Helps(s: Engine, step: Step) {
    || step.Tick? || step.AppendDomain? || step.AppendQueue? || step.Take? || step.Requeue?
    || (step.Recover? && step.id in s.ops && s.ops[step.id].nextAttemptAt <= s.now)
  }

  lemma TargetWakeOk(s: Engine, step: Step, id: OpId)
    requires WakeInv(s) && Enabled(s, step, false) && Helps(s, step) && Target(s, step) == Some(id) && id in s.ops
    ensures id in Apply(s, step).ops && WakeOk(Apply(s, step), id)
  {
    hide WakeFresh;
    assert WakeOk(s, id);
    match step
    case Take(w, m) => StepGrows(s, step);
    case Requeue(_) => QueuedWakeOk(s, id, RequeueRow(s.ops[id]).value, ClaimsOf(s, id));
    case Recover(_, _) =>
      var row := RecoverRow(s.ops[id], s.now).value;
      if row.status == Queued { QueuedWakeOk(s, id, row, ClaimsOf(s, id)); } else { StepGrows(s, step); }
  }

  lemma HelpKeepsWakes(s: Engine, step: Step)
    requires WakeInv(s) && Enabled(s, step, false) && Helps(s, step)
    ensures WakeInv(Apply(s, step))
  {
    hide AlwaysInv, WakeOk, Apply, Enabled, Helps;
    AlwaysInvStep(s, step);
    KeysStay(s, step);
    forall id | id in Apply(s, step).ops ensures WakeOk(Apply(s, step), id) {
      assert id in s.ops by { HelpsCreateNothing(s, step); }
      if Target(s, step) == Some(id) { TargetWakeOk(s, step, id); } else { OtherWakeOk(s, step, id); }
    }
  }

  lemma HelpsCreateNothing(s: Engine, step: Step)
    requires Helps(s, step)
    ensures !step.CreateOp?
  {
  }

  /** Steps that neither create operations nor report success. */
  predicate Modest(steps: seq<Step>) {
    forall i :: 0 <= i < |steps| ==> !steps[i].CreateOp? && !(steps[i].Finish? && steps[i].outcome == Success)
  }

  /** Some modest fail-stop continuation brings the operation to a final status. */
  ghost predicate CanEnd(s: Engine, id: OpId) {
    exists steps :: EndsBy(s, id, steps)
  }

  ghost predicate EndsBy(s: Engine, id: OpId, steps: seq<Step>) {
    && Modest(steps) && Run(s, steps, true) && Run(s, steps, false)
    && id in Exec(s, steps).ops && Terminal(Exec(s, steps).ops[id].status)
  }

  lemma EndsNow(s: Engine, id: OpId)
    requires id in s.ops && Terminal(s.ops[id].status)
    ensures CanEnd(s, id)
  {
    assert EndsBy(s, id, []);
  }

  lemma EndsAfter(s: Engine, step: Step, id: OpId)
    requires Enabled(s, step, true) && Enabled(s, step, false) && Modest([step]) && CanEnd(Apply(s, step), id)
    ensures CanEnd(s, id)
  {
    hide Apply, Enabled;
    var rest :| EndsBy(Apply(s, step), id, rest);
    assert [step][0] == step && ([step] + rest)[1..] == rest;
    assert forall i :: 1 <= i < |[step] + rest| ==> ([step] + rest)[i] == rest[i - 1];
    assert EndsBy(s, id, [step] + rest);
  }

  /** The worker may always report a fatal error. */
  lemma EndOwned(s: Engine, id: OpId)
    requires id in s.ops && Owned(s, id)
    ensures CanEnd(s, id)
  {
    var w :| w in s.live && s.live[w].op == id;
    var step := Finish(w, Error(false));
    EndsNow(Apply(s, step), id);
    EndsAfter(s, step, id);
  }

  /** Some number is above every member of a finite set. */
  ghost function FreshAbove(live: set<nat>): (w: nat)
    ensures forall v :: v in live ==> v < w
  {
    if live == {} then 0
    else
      var v :| v in live;
      var w := FreshAbove(live - {v});
      assert forall u :: u in live ==> u == v || u in live - {v};
      if v < w then w else v + 1
  }

  lemma EndTake(s: Engine, id: OpId, m: nat)
    requires WakeInv(s) && id in s.ops && s.ops[id].status == Queued
    requires m < |s.queue| && s.queue[m].op == id
    ensures CanEnd(s, id)
  {
    hide AlwaysInv, CanEnd, WakeFresh;
    var w := FreshAbove(s.live.Keys);
    var step := Take(w, m);
    assert WakeOk(s, id);
    var t := Apply(s, step);
    assert w in t.live && t.live[w].op == id;
    EndOwned(t, id);
    EndsAfter(s, step, id);
  }

  lemma EndQueued(s: Engine, id: OpId)
    requires WakeInv(s) && id in s.ops && s.ops[id].status == Queued
    ensures CanEnd(s, id)
  {
    hide CanEnd;
    assert WakeOk(s, id);
    var e := s.hist[id].wake;
    if Enqueued(s, e) {
      var m :| 0 <= m < |s.queue| && s.queue[m].event == e;
      EndTake(s, id, m);
    } else {
      assert !s.outbox[e].published;
      var due := if s.outbox[e].nextAttemptAt < s.now then s.now else s.outbox[e].nextAttemptAt;
      HelpKeepsWakes(s, Tick(due));
      EndPublish(Apply(s, Tick(due)), id, e);
      EndsAfter(s, Tick(due), id);
    }
  }

  lemma EndPublish(s: Engine, id: OpId, e: nat)
    requires WakeInv(s) && id in s.ops && s.ops[id].status == Queued
    requires Claimable(s, e) && s.outbox[e].kind == OperationQueued(id)
    ensures CanEnd(s, id)
  {
    hide CanEnd, WakeInv;
    var a := Apply(s, AppendDomain(e));
    HelpKeepsWakes(s, AppendDomain(e));
    assert e == a.domain[|s.domain|];
    var b := Apply(a, AppendQueue(e));
    HelpKeepsWakes(a, AppendQueue(e));
    EndTake(b, id, |a.queue|);
    EndsAfter(a, AppendQueue(e), id);
    EndsAfter(s, AppendDomain(e), id);
  }

  lemma EndOrphan(s: Engine, id: OpId)
    requires WakeInv(s) && id in s.ops && Active(s.ops[id].status) && !Owned(s, id)
    ensures CanEnd(s, id)
  {
    hide CanEnd, AlwaysInv, WakeFresh;
    assert WakeOk(s, id);
    var soon := s.now + 3 * MINUTE;
    var tick := Tick(if soon < s.ops[id].nextAttemptAt then s.ops[id].nextAttemptAt else soon);
    HelpKeepsWakes(s, tick);
    var a := Apply(s, tick);
    var step := Recover(id, a.now - 2 * MINUTE);
    assert !Owned(a, id);
    assert Enabled(a, step, true);
    HelpKeepsWakes(a, step);
    if Apply(a, step).ops[id].status == Queued { EndQueued(Apply(a, step), id); } else { EndsNow(Apply(a, step), id); }
    EndsAfter(a, step, id);
    EndsAfter(s, tick, id);
  }

  lemma EndRetrying(s: Engine, id: OpId)
    requires WakeInv(s) && id in s.ops && s.ops[id].status == Retrying
    ensures CanEnd(s, id)
  {
    hide CanEnd, WakeInv;
    var tick := Tick(if s.ops[id].nextAttemptAt < s.now then s.now else s.ops[id].nextAttemptAt);
    HelpKeepsWakes(s, tick);
    var a := Apply(s, tick);
    HelpKeepsWakes(a, Requeue(id));
    EndQueued(Apply(a, Requeue(id)), id);
    EndsAfter(a, Requeue(id), id);
    EndsAfter(s, tick, id);
  }

  /** Where the next push for a non-final operation comes from. */
  ghost predicate HasWakeUp(s: Engine, id: OpId)
    requires id in s.ops
  {
    var row := s.ops[id];
    || Terminal(row.status)
    || (row.status == Retrying)
    || (Active(row.status) && row.heartbeatAt.Some? && row.heartbeatAt.value <= s.now)
    || (row.status == Queued && row.nextAttemptAt <= s.now
        && (PendingWake(s, id) || exists m :: UntriedWake(s, id, m)))
  }

  ghost predicate PendingWake(s: Engine, id: OpId) {
    exists e :: 0 <= e < |s.outbox| && s.outbox[e].kind == OperationQueued(id) && !s.outbox[e].published
  }

  ghost predicate UntriedWake(s: Engine, id: OpId, m: int) {
    0 <= m < |s.queue| && s.queue[m].op == id && !s.queue[m].tried && !s.queue[m].acked
  }

  /**
   * No stranded operation.  After any fail-stop run from the empty system, every operation is
   * final or has an unspent wake-up, and some continuation of the run finishes it.
   */
  lemma NoStrandedOperation(now: Time, steps: seq<Step>, id: OpId)
    requires Run(Init(now), steps, true) && Run(Init(now), steps, false)
    requires id in Exec(Init(now), steps).ops
    ensures HasWakeUp(Exec(Init(now), steps), id)
    ensures CanEnd(Exec(Init(now), steps), id)
  {
    FailStopInvRun(Init(now), steps);
    FailStopWakes(Exec(Init(now), steps));
    WakesGiveEnds(Exec(Init(now), steps), id);
  }

  lemma WakesGiveEnds(s: Engine, id: OpId)
    requires WakeInv(s) && id in s.ops
    ensures HasWakeUp(s, id) && CanEnd(s, id)
  {
    hide CanEnd;
    assert WakeOk(s, id);
    var st := s.ops[id].status;
    if st == Queued {
      var e := s.hist[id].wake;
      if s.outbox[e].published {
        var m :| 0 <= m < |s.queue| && s.queue[m].event == e;
        assert UntriedWake(s, id, m);
      }
      EndQueued(s, id);
    } else if st == Retrying {
      EndRetrying(s, id);
    } else if Terminal(st) {
      EndsNow(s, id);
    } else if Owned(s, id) {
      EndOwned(s, id);
    } else {
      EndOrphan(s, id);
    }
  }

  // ---------------------------------------------------------------- bounded attempts

  function Rank(st: Status): nat {
    if st == Retrying then 3 else if st == Queued then 2 else if Active(st) then 1 else 0
  }

  /** Lexicographic (retries left, status rank) as one number. */
  function Fuel(row: Operation): int {
    4 * (row.maxRetries - row.retryCount) + Rank(row.status)
  }

  /** A step moves an operation when it changes its status or retry count, progress aside. */
  ghost predicate Moves(s: Engine, step: Step, id: OpId)
    requires Enabled(s, step, false) && id in s.ops && id in Apply(s, step).ops
  {
    !step.Report? && (Apply(s, step).ops[id].status != s.ops[id].status
                      || Apply(s, step).ops[id].retryCount != s.ops[id].retryCount)
  }

  /** The row a finished workflow leaves: done, or one retry fewer. */
  lemma FinishBurnsFuel(row: Operation, exec: Execution, outcome: Outcome, now: Time)
    requires Active(row.status) && row.retryCount <= row.maxRetries
    requires exec.retryCount == row.retryCount && exec.maxRetries == row.maxRetries
    ensures FinishRow(row, exec, outcome, now).Some?
    ensures 0 <= Fuel(FinishRow(row, exec, outcome, now).value) < Fuel(row)
  {
  }

  lemma RowBurnsFuel(row: Operation, now: Time)
    requires row.retryCount <= row.maxRetries
    ensures ClaimRow(row, now).Some? ==> Fuel(ClaimRow(row, now).value) < Fuel(row)
    ensures row.status == Retrying ==> RequeueRow(row).Some? && Fuel(RequeueRow(row).value) < Fuel(row)
    ensures Active(row.status) ==> RecoverRow(row, now).Some? && Fuel(RecoverRow(row, now).value) < Fuel(row)
    ensures forall st :: Active(st) && Active(row.status) && ProgressRow(row, st, now).Some? ==>
              Fuel(ProgressRow(row, st, now).value) == Fuel(row)
  {
  }

  lemma MoveBurnsFuel(s: Engine, step: Step, id: OpId)
    requires FailStopInv(s) && Enabled(s, step, false) && id in s.ops
    ensures id in Apply(s, step).ops
    ensures 0 <= Fuel(s.ops[id])
    ensures Fuel(Apply(s, step).ops[id]) <= Fuel(s.ops[id])
    ensures Moves(s, step, id) ==> Fuel(Apply(s, step).ops[id]) < Fuel(s.ops[id])
  {
    hide AlwaysInv, WakeFresh, Fuel, FinishRow, ClaimRow, RequeueRow, RecoverRow, ProgressRow;
    assert OpOk(s, id);
    FuelIsNat(s.ops[id]);
    if Target(s, step) != Some(id) {
      OthersUntouched(s, step, id);
    } else {
      RowBurnsFuel(s.ops[id], s.now);
      if step.Finish? { FinishBurnsFuel(s.ops[id], s.live[step.w], step.outcome, s.now); }
    }
  }

  lemma FuelIsNat(row: Operation)
    requires row.retryCount <= row.maxRetries
    ensures 0 <= Fuel(row)
  {
  }

  ghost function MoveCount(s: Engine, steps: seq<Step>, id: OpId): nat
    requires Run(s, steps, false) && id in s.ops
    decreases |steps|
  {
    if steps == [] then 0 else
    (TerminalAbsorbsStep(s, steps[0], id);
     (if Moves(s, steps[0], id) then 1 else 0) + MoveCount(Apply(s, steps[0]), steps[1..], id))
  }

  /** Every operation's run ends: it makes at most 4 * max_retries + 2 moves, whatever happens. */
  lemma {:induction false} MovesAreBounded(s: Engine, steps: seq<Step>, id: OpId)
    requires FailStopInv(s) && Run(s, steps, true) && Run(s, steps, false) && id in s.ops
    ensures id in Exec(s, steps).ops && 0 <= Fuel(Exec(s, steps).ops[id])
    ensures MoveCount(s, steps, id) + Fuel(Exec(s, steps).ops[id]) <= Fuel(s.ops[id])
    ensures Fuel(s.ops[id]) <= 4 * s.ops[id].maxRetries + 3
    ensures s.ops[id].status == Queued && s.ops[id].retryCount == 0 ==>
              MoveCount(s, steps, id) <= 4 * s.ops[id].maxRetries + 2
    decreases |steps|
  {
    assert OpOk(s, id);
    if steps != [] {
      MoveBurnsFuel(s, steps[0], id);
      FailStopInvStep(s, steps[0]);
      MovesAreBounded(Apply(s, steps[0]), steps[1..], id);
    }
  }

  /** Claims recorded for an operation, counted along the run itself. */
  ghost function ClaimCount(s: Engine, steps: seq<Step>, id: OpId): nat
    requires Run(s, steps, false)
    decreases |steps|
  {
    if steps == [] then 0 else
    (if Claims(s, steps[0], id) then 1 else 0) + ClaimCount(Apply(s, steps[0]), steps[1..], id)
  }

  ghost predicate Claims(s: Engine, step: Step, id: OpId)
    requires Enabled(s, step, false)
  {
    step.Take? && s.queue[step.m].op == id && id in s.ops && ClaimRow(s.ops[id], s.now).Some?
  }

  lemma {:induction false} ClaimsAreRecorded(s: Engine, steps: seq<Step>, id: OpId)
    requires Run(s, steps, false) && (id in s.ops ==> id in s.hist)
    ensures id in Exec(s, steps).ops ==> id in Exec(s, steps).hist
    ensures id in Exec(s, steps).ops ==>
              Exec(s, steps).hist[id].claims
                == (if id in s.ops then s.hist[id].claims else 0) + ClaimCount(s, steps, id)
    ensures id !in Exec(s, steps).ops ==> ClaimCount(s, steps, id) == 0
    decreases |steps|
  {
    if steps != [] {
      ClaimRecordedStep(s, steps[0], id);
      ClaimsAreRecorded(Apply(s, steps[0]), steps[1..], id);
      if id in Apply(s, steps[0]).ops { TerminalAbsorbsRun(Apply(s, steps[0]), steps[1..], id); }
    }
  }

  lemma ClaimRecordedStep(s: Engine, step: Step, id: OpId)
    requires Enabled(s, step, false) && (id in s.ops ==> id in s.hist)
    ensures id in s.ops ==> id in Apply(s, step).ops
    ensures id in Apply(s, step).ops ==> id in Apply(s, step).hist
    ensures id in Apply(s, step).ops ==>
              Apply(s, step).hist[id].claims == (if id in s.ops then s.hist[id].claims else 0)
                                                + (if Claims(s, step, id) then 1 else 0)
  {
    if Target(s, step) != Some(id) { OthersUntouched(s, step, id); }
  }

  /**
   * Bounded attempts.  In any fail-stop run the retry count never exceeds max_retries, the
   * operation is claimed at most max_retries + 1 times, and the two counts agree exactly.
   */
  lemma BoundedAttempts(now: Time, steps: seq<Step>, id: OpId)
    requires Run(Init(now), steps, true) && Run(Init(now), steps, false)
    requires id in Exec(Init(now), steps).ops
    ensures var row := Exec(Init(now), steps).ops[id];
            && row.retryCount <= row.maxRetries
            && ClaimCount(Init(now), steps, id) <= row.maxRetries + 1
            && ClaimCount(Init(now), steps, id)
                 == row.retryCount + (if Active(row.status) || Terminal(row.status) then 1 else 0)
  {
    FailStopInvRun(Init(now), steps);
    ClaimsAreRecorded(Init(now), steps, id);
    assert OpOk(Exec(Init(now), steps), id);
  }
}
