/**
 * The operation engine: operations table, transactional outbox, the two Redis streams and the
 * workers.  Every committed transaction and every stream append is one step of a state machine,
 * so that runs cover all interleavings, crashes, redeliveries and partial publishes.
 */
module Operations {
  import opened Prelude

  datatype Status =
    | Queued | Running | WaitingProvider | WaitingResource | Verifying
    | Retrying | Succeeded | Failed | Cancelled

  predicate Active(st: Status) {
    st.Running? || st.WaitingProvider? || st.WaitingResource? || st.Verifying?
  }

  predicate Terminal(st: Status) {
    st.Succeeded? || st.Failed? || st.Cancelled?
  }

  datatype Operation = Operation(
    key: Key, request: nat, status: Status, retryable: bool, retryCount: nat, maxRetries: int,
    nextAttemptAt: Time, heartbeatAt: Option<Time>, finishedAt: Option<Time>)

  datatype EventKind = OperationQueued(op: OpId) | OperationUpdated(op: OpId) | Domain(name: string)

  /** An outbox row; rows are never deleted, so a row's id is its position in the table. */
  datatype Event = Event(kind: EventKind, published: bool, attempts: nat, nextAttemptAt: Time)

  /** An entry of the operation-queue stream: `tried` once some worker attempted its claim. */
  datatype Message = Message(event: nat, op: OpId, tried: bool, acked: bool)

  /** A worker between claim and completion, with the row values it read at claim time. */
  datatype Execution = Execution(op: OpId, retryCount: nat, maxRetries: int)

  /** History no code reads: the event that last queued the operation, and its claims so far. */
  datatype History = History(wake: nat, claims: nat)

  datatype Engine = Engine(
    now: Time, ops: map<OpId, Operation>, outbox: seq<Event>, domain: seq<nat>,
    queue: seq<Message>, live: map<nat, Execution>, hist: map<OpId, History>)

  // ---------------------------------------------------------------- guarded row updates

  function NewRow(key: Key, request: nat, maxRetries: int, now: Time): Operation {
    Operation(key, request, Queued, false, 0, maxRetries, now, None, None)
  }

  function ClaimRow(row: Operation, now: Time): Option<Operation> {
    if row.status == Queued && row.nextAttemptAt <= now
    then Some(row.(status := Running, heartbeatAt := Some(now)))
    else None
  }

  function ProgressRow(row: Operation, st: Status, now: Time): Option<Operation> {
    if Terminal(row.status) then None
    else Some(row.(status := st, heartbeatAt := Some(now)))
  }

  function CompleteRow(row: Operation, st: Status, now: Time): Option<Operation> {
    if Terminal(row.status) then None
    else Some(row.(status := st, retryable := false, heartbeatAt := Some(now), finishedAt := Some(now)))
  }

  function RetryRow(row: Operation, next: Time, now: Time): Option<Operation> {
    if Terminal(row.status) then None
    else Some(row.(status := Retrying, retryable := true, retryCount := row.retryCount + 1,
                   nextAttemptAt := next, heartbeatAt := Some(now)))
  }

  function RequeueRow(row: Operation): Option<Operation> {
    if row.status != Retrying then None
    else Some(row.(status := Queued, retryable := false, heartbeatAt := None))
  }

  function RecoverRow(row: Operation, now: Time): Option<Operation> {
    if !Active(row.status) then None
    else if row.retryCount < row.maxRetries then
      Some(row.(status := Queued, retryable := true, retryCount := row.retryCount + 1,
                heartbeatAt := None, finishedAt := None))
    else
      Some(row.(status := Failed, retryable := false, heartbeatAt := None, finishedAt := Some(now)))
  }

  /** The row a finished workflow leaves, decided from the values read at claim time. */
  function FinishRow(row: Operation, exec: Execution, outcome: Outcome, now: Time): Option<Operation> {
    match outcome
    case Success => CompleteRow(row, Succeeded, now)
    case Error(retryable) =>
      if retryable && exec.retryCount < exec.maxRetries
      then RetryRow(row, now + CappedPower(exec.retryCount) * SECOND, now)
      else CompleteRow(row, Failed, now)
  }

  // ---------------------------------------------------------------- steps

  datatype Outcome = Success | Error(retryable: bool)

  datatype Step =
    | Tick(to: Time)
    | CreateOp(id: OpId, key: Key, request: nat, maxRetries: int)
    | Emit(name: string)
    | AppendDomain(e: nat)
    | AppendQueue(e: nat)
    | MarkPublished(e: nat)
    | MarkRetry(e: nat)
    | Take(w: nat, m: nat)
    | Ack(m: nat)
    | Report(w: nat, st: Status)
    | ReportStep(w: nat)
    | Finish(w: nat, outcome: Outcome)
    | Abandon(w: nat)
    | Requeue(id: OpId)
    | Recover(id: OpId, cutoff: Time)

  function Fresh(kind: EventKind, now: Time): Event {
    Event(kind, false, 0, now)
  }

  function Save(s: Engine, id: OpId, row: Operation, kind: EventKind): Engine {
    s.(ops := s.ops[id := row], outbox := s.outbox + [Fresh(kind, s.now)])
  }

  /** Writes a queued row, its operation.queued.v1 event, and the history of both. */
  function SaveQueued(s: Engine, id: OpId, row: Operation, claims: nat): Engine {
    Save(s, id, row, OperationQueued(id)).(hist := s.hist[id := History(|s.outbox|, claims)])
  }

  predicate KeyFree(s: Engine, key: Key) {
    forall id :: id in s.ops ==> s.ops[id].key != key
  }

  ghost predicate Owned(s: Engine, id: OpId) {
    exists w :: w in s.live && s.live[w].op == id
  }

  ghost predicate Enqueued(s: Engine, e: nat) {
    exists m :: 0 <= m < |s.queue| && s.queue[m].event == e
  }

  /** Everything the dispatcher must have appended before it marks row `e` published. */
  ghost predicate Delivered(s: Engine, e: nat)
    requires e < |s.outbox|
  {
    e in s.domain && (s.outbox[e].kind.OperationQueued? ==> Enqueued(s, e))
  }

  predicate Claimable(s: Engine, e: nat) {
    e < |s.outbox| && !s.outbox[e].published && s.outbox[e].nextAttemptAt <= s.now
  }

  /** The rows RecoverStuck selects: active with a heartbeat older than the cutoff. */
  predicate Stuck(s: Engine, id: OpId, cutoff: Time) {
    && id in s.ops && Active(s.ops[id].status)
    && s.ops[id].heartbeatAt.Some? && s.ops[id].heartbeatAt.value < cutoff
  }

  /**
   * When a step can happen.  With `failStop`, recovery acts only on operations whose worker has
   * stopped; without it, a slow worker may still be running and report later.
   */
  ghost predicate Enabled(s: Engine, step: Step, failStop: bool) {
    match step
    case Tick(to) => s.now <= to
    case CreateOp(id, key, _, maxRetries) => id !in s.ops && KeyFree(s, key) && 0 <= maxRetries
    case Emit(_) => true
    case AppendDomain(e) => Claimable(s, e)
    case AppendQueue(e) => Claimable(s, e) && e in s.domain && s.outbox[e].kind.OperationQueued?
    case MarkPublished(e) => Claimable(s, e) && Delivered(s, e)
    case MarkRetry(e) => Claimable(s, e)
    case Take(w, m) => w !in s.live && m < |s.queue|
    case Ack(m) => m < |s.queue| && s.queue[m].tried
    case Report(w, st) => w in s.live && Active(st)
    case ReportStep(w) => w in s.live
    case Finish(w, _) => w in s.live
    case Abandon(w) => w in s.live
    case Requeue(id) => id in s.ops && s.ops[id].status == Retrying && s.ops[id].nextAttemptAt <= s.now
    case Recover(id, cutoff) =>
      Stuck(s, id, cutoff) && (failStop ==> !Owned(s, id))
  }

  function Tried(s: Engine, m: nat): Engine
    requires m < |s.queue|
  {
    s.(queue := s.queue[m := s.queue[m].(tried := true)])
  }

  ghost function ClaimsOf(s: Engine, id: OpId): nat {
    if id in s.hist then s.hist[id].claims else 0
  }

  ghost function WakeOf(s: Engine, id: OpId): nat {
    if id in s.hist then s.hist[id].wake else 0
  }

  ghost function TakeTx(s: Engine, w: nat, m: nat): Engine
    requires m < |s.queue|
  {
    var id := s.queue[m].op;
    var t := Tried(s, m);
    if id in s.ops && ClaimRow(s.ops[id], s.now).Some? then
      var row := ClaimRow(s.ops[id], s.now).value;
      Save(t, id, row, OperationUpdated(id))
      .(live := s.live[w := Execution(id, row.retryCount, row.maxRetries)],
        hist := s.hist[id := History(WakeOf(s, id), ClaimsOf(s, id) + 1)])
    else t
  }

  function SaveIf(s: Engine, id: OpId, row: Option<Operation>): Engine {
    if row.Some? then Save(s, id, row.value, OperationUpdated(id)) else s
  }

  ghost function Apply(s: Engine, step: Step): Engine
    requires Enabled(s, step, false)
  {
    match step
    case Tick(to) => s.(now := to)
    case CreateOp(id, key, request, maxRetries) =>
      SaveQueued(s, id, NewRow(key, request, maxRetries, s.now), 0)
    case Emit(name) => s.(outbox := s.outbox + [Fresh(Domain(name), s.now)])
    case AppendDomain(e) => s.(domain := s.domain + [e])
    case AppendQueue(e) => s.(queue := s.queue + [Message(e, s.outbox[e].kind.op, false, false)])
    case MarkPublished(e) => s.(outbox := s.outbox[e := s.outbox[e].(published := true)])
    case MarkRetry(e) => s.(outbox := s.outbox[e := Delayed(s.outbox[e], s.now)])
    case Take(w, m) => TakeTx(s, w, m)
    case Ack(m) => s.(queue := s.queue[m := s.queue[m].(acked := true)])
    case Report(w, st) =>
      var id := s.live[w].op;
      if id in s.ops then SaveIf(s, id, ProgressRow(s.ops[id], st, s.now)) else s
    case ReportStep(w) =>
      s.(outbox := s.outbox + [Fresh(OperationUpdated(s.live[w].op), s.now)])
    case Finish(w, outcome) =>
      var exec := s.live[w];
      var t := s.(live := s.live - {w});
      if exec.op in s.ops then SaveIf(t, exec.op, FinishRow(s.ops[exec.op], exec, outcome, s.now)) else t
    case Abandon(w) => s.(live := s.live - {w})
    case Requeue(id) => SaveQueued(s, id, RequeueRow(s.ops[id]).value, ClaimsOf(s, id))
    case Recover(id, _) => RecoverTx(s, id)
  }

  ghost function RecoverTx(s: Engine, id: OpId): Engine
    requires id in s.ops && Active(s.ops[id].status)
  {
    var row := RecoverRow(s.ops[id], s.now).value;
    if row.status == Queued then SaveQueued(s, id, row, ClaimsOf(s, id))
    else Save(s, id, row, OperationUpdated(id))
  }

  /** A failed publish: one more attempt, due after min(300, 2^min(attempts, 8)) seconds. */
  function RetryDelay(attempts: nat): Time {
    (if CappedPower(attempts) < 300 then CappedPower(attempts) else 300) * SECOND
  }

  function Delayed(row: Event, now: Time): Event {
    row.(attempts := row.attempts + 1, nextAttemptAt := now + RetryDelay(row.attempts))
  }

  // ---------------------------------------------------------------- runs

  ghost predicate Run(s: Engine, steps: seq<Step>, failStop: bool)
    decreases |steps|
  {
    steps == [] || (Enabled(s, steps[0], failStop)
                    && Enabled(s, steps[0], false)
                    && Run(Apply(s, steps[0]), steps[1..], failStop))
  }

  ghost function Exec(s: Engine, steps: seq<Step>): Engine
    requires Run(s, steps, false)
    decreases |steps|
  {
    if steps == [] then s else Exec(Apply(s, steps[0]), steps[1..])
  }

  function Init(now: Time): Engine {
    Engine(now, map[], [], [], [], map[], map[])
  }

  lemma {:induction false} RunConcat(s: Engine, a: seq<Step>, b: seq<Step>, failStop: bool)
    requires Run(s, a, failStop) && Run(s, a, false)
    requires Run(Exec(s, a), b, failStop) && Run(Exec(s, a), b, false)
    ensures Run(s, a + b, failStop) && Run(s, a + b, false)
    ensures Exec(s, a + b) == Exec(Exec(s, a), b)
    decreases |a|
  {
    if a == [] {
      assert a + b == b;
    } else {
      assert (a + b)[0] == a[0] && (a + b)[1..] == a[1..] + b;
      RunConcat(Apply(s, a[0]), a[1..], b, failStop);
    }
  }

  lemma RunThen(s: Engine, a: seq<Step>, step: Step, failStop: bool)
    requires Run(s, a, failStop) && Run(s, a, false)
    requires Enabled(Exec(s, a), step, failStop) && Enabled(Exec(s, a), step, false)
    ensures Run(s, a + [step], failStop) && Run(s, a + [step], false)
    ensures Exec(s, a + [step]) == Apply(Exec(s, a), step)
  {
    var t := Exec(s, a);
    assert Run(Apply(t, step), [], failStop) && Run(Apply(t, step), [], false);
    assert [step][1..] == [];
    assert Run(t, [step], failStop) && Run(t, [step], false);
    assert Exec(t, [step]) == Apply(t, step);
    RunConcat(s, a, [step], failStop);
  }
}
