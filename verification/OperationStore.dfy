/**
 * The code that drives the operation engine: repository transactions, the recovery and retry
 * batches, the outbox dispatcher and the queue consumer.  Each method is proved to perform a run
 * of engine steps, so that the theorems about runs apply to it.
 */
module OperationStore {
  import opened Prelude
  import opened Operations
  import opened OperationTheorems

  datatype CreateReply = Created(id: OpId) | Existing(id: OpId) | Conflict | Invalid

  /** What the environment does while one queue message is processed. */
  datatype Script = Script(claimOk: bool, reports: seq<Status>, outcome: Option<Outcome>, ackOk: bool)

  /** `trace` is a run from `s` to `t`, and a fail-stop one if `failStop` is set. */
  ghost predicate Leads(s: Engine, trace: seq<Step>, t: Engine, failStop: bool) {
    Run(s, trace, failStop) && Run(s, trace, false) && Exec(s, trace) == t
  }

  lemma LeadsNowhere(s: Engine)
    ensures Leads(s, [], s, true) && Leads(s, [], s, false)
  {
  }

  lemma LeadsThen(s: Engine, trace: seq<Step>, t: Engine, step: Step, failStop: bool)
    requires Leads(s, trace, t, failStop) && Enabled(t, step, failStop) && Enabled(t, step, false)
    ensures Leads(s, trace + [step], Apply(t, step), failStop)
  {
    RunThen(s, trace, step, failStop);
  }

  lemma LeadsConcat(s: Engine, a: seq<Step>, t: Engine, b: seq<Step>, u: Engine) returns (ab: seq<Step>)
    requires Leads(s, a, t, true) && Leads(t, b, u, true)
    ensures Leads(s, ab, u, true)
  {
    RunConcat(s, a, b, true);
    ab := a + b;
  }

  /** The entry's operation is queued and due. */
  predicate WasClaimable(s: Engine, m: nat)
    requires m < |s.queue|
  {
    var id := s.queue[m].op;
    id in s.ops && s.ops[id].status == Queued && s.ops[id].nextAttemptAt <= s.now
  }

  /** Where a row stands once its workflow's verdict is written, given the retries it had used. */
  predicate Concluded(was: Operation, used: nat, limit: int, outcome: Outcome, row: Operation, now: Time) {
    && row.key == was.key && row.request == was.request && row.maxRetries == was.maxRetries
    && row.heartbeatAt == Some(now) && (row.retryable <==> row.status == Retrying)
    && match outcome
       case Success => row.status == Succeeded && row.finishedAt == Some(now) && row.retryCount == was.retryCount
       case Error(retryable) =>
         if retryable && used < limit then
           && row.status == Retrying && row.retryCount == was.retryCount + 1 && row.finishedAt == was.finishedAt
           && row.nextAttemptAt == now + CappedPower(used) * SECOND
         else row.status == Failed && row.finishedAt == Some(now) && row.retryCount == was.retryCount
  }

  /** Where a claimed operation stands after its message: the verdict, or the last report of a dead worker. */
  predicate Worked(was: Operation, script: Script, row: Operation, now: Time) {
    match script.outcome
    case Some(outcome) => Concluded(was, was.retryCount, was.maxRetries, outcome, row, now)
    case None =>
      && row == was.(status := row.status, heartbeatAt := Some(now))
      && row.status == if |script.reports| == 0 then Running else script.reports[|script.reports| - 1]
  }

  /** What recovery leaves of a stuck row. */
  predicate Recovered(was: Operation, row: Operation, now: Time) {
    if was.retryCount < was.maxRetries
    then row == was.(status := Queued, retryable := true, retryCount := was.retryCount + 1,
                     heartbeatAt := None, finishedAt := None)
    else row == was.(status := Failed, retryable := false, heartbeatAt := None, finishedAt := Some(now))
  }

  /** A requeued operation is announced for the queue, a failed one only as updated. */
  function RecoveryEvent(id: OpId, row: Operation): EventKind {
    if row.status == Queued then OperationQueued(id) else OperationUpdated(id)
  }

  /** No earlier message of the batch is about the same operation. */
  ghost predicate FirstFor(queue: seq<Message>, messages: seq<nat>, i: nat)
    requires i < |messages| && InRange(messages, |queue|)
  {
    forall j :: 0 <= j < i ==> queue[messages[j]].op != queue[messages[i]].op
  }

  ghost predicate Touched(queue: seq<Message>, messages: seq<nat>, count: nat, id: OpId)
    requires count <= |messages| && InRange(messages, |queue|)
  {
    exists j :: 0 <= j < count && queue[messages[j]].op == id
  }

  /** What the batch made of the operation of one message: its script's verdict, or nothing. */
  ghost predicate Handled(s: Engine, t: Engine, m: nat, script: Script)
    requires m < |s.queue|
  {
    var id := s.queue[m].op;
    if WasClaimable(s, m) then id in t.ops && Worked(s.ops[id], script, t.ops[id], t.now)
    else id in s.ops ==> id in t.ops && t.ops[id] == s.ops[id]
  }

  /** How far a batch has come: what the first `count` messages did to rows and entries. */
  ghost predicate Progressed(s: Engine, t: Engine, messages: seq<nat>, scripts: seq<Script>, count: nat)
    requires InRange(messages, |s.queue|) && |scripts| == |messages|
  {
    && count <= |messages| && |t.queue| == |s.queue| && t.ops.Keys == s.ops.Keys && t.now == s.now
    && (forall k :: 0 <= k < |s.queue| ==> t.queue[k].op == s.queue[k].op)
    && (forall i :: 0 <= i < count ==>
          t.queue[messages[i]].acked && t.queue[messages[i]].tried && !WasClaimable(t, messages[i]))
    && (forall i :: 0 <= i < count && FirstFor(s.queue, messages, i) ==> Handled(s, t, messages[i], scripts[i]))
    && (forall id :: id in s.ops && !Touched(s.queue, messages, count, id) ==> t.ops[id] == s.ops[id])
  }

  lemma NothingProcessed(s: Engine, messages: seq<nat>, scripts: seq<Script>)
    requires InRange(messages, |s.queue|) && |scripts| == |messages|
    ensures Progressed(s, s, messages, scripts, 0)
  {
  }

  lemma ProgressFacts(s: Engine, t: Engine, messages: seq<nat>, scripts: seq<Script>, count: nat)
    requires InRange(messages, |s.queue|) && |scripts| == |messages| && Progressed(s, t, messages, scripts, count)
    ensures count <= |messages| && |t.queue| == |s.queue| && t.ops.Keys == s.ops.Keys
    ensures forall i :: 0 <= i < count ==>
              t.queue[messages[i]].acked && t.queue[messages[i]].tried && !WasClaimable(t, messages[i])
    ensures forall i :: 0 <= i < count && FirstFor(s.queue, messages, i) ==> Handled(s, t, messages[i], scripts[i])
  {
  }

  /** What one message does to rows and entries. */
  ghost predicate ProcessedOne(s: Engine, t: Engine, m: nat, script: Script)
    requires m < |s.queue|
  {
    && t.now == s.now && t.ops.Keys == s.ops.Keys && |t.queue| == |s.queue|
    && (t.queue == s.queue || t.queue == s.queue[m := s.queue[m].(tried := true)])
    && (forall id :: id in s.ops && id != s.queue[m].op ==> t.ops[id] == s.ops[id])
    && (if script.claimOk && WasClaimable(s, m) then Worked(s.ops[s.queue[m].op], script, t.ops[s.queue[m].op], s.now)
        else t.ops == s.ops)
    && (script.claimOk ==> t.queue[m].tried && !WasClaimable(t, m))
  }

  lemma ProcessedFacts(s: Engine, t: Engine, m: nat, script: Script)
    requires m < |s.queue| && t.now == s.now && t.ops.Keys == s.ops.Keys
    requires t.queue == if script.claimOk then s.queue[m := s.queue[m].(tried := true)] else s.queue
    requires forall id :: id in t.ops && id != s.queue[m].op ==> t.ops[id] == s.ops[id]
    requires if script.claimOk && WasClaimable(s, m)
             then Worked(s.ops[s.queue[m].op], script, t.ops[s.queue[m].op], s.now) else t.ops == s.ops
    requires script.claimOk ==> !WasClaimable(t, m)
    ensures ProcessedOne(s, t, m, script)
  {
    hide Worked;
    assert forall id :: id in s.ops <==> id in s.ops.Keys;
    assert forall id :: id in t.ops <==> id in t.ops.Keys;
  }

  /** An operation handled before is no longer claimable, so a repeated message changes no row. */
  lemma RepeatChangesNothing(s: Engine, mid: Engine, t: Engine, messages: seq<nat>, scripts: seq<Script>, count: nat)
    requires InRange(messages, |s.queue|) && |scripts| == |messages| && count < |messages|
    requires Progressed(s, mid, messages, scripts, count)
    requires messages[count] < |mid.queue| && ProcessedOne(mid, t, messages[count], scripts[count])
    requires !FirstFor(s.queue, messages, count)
    ensures t.ops == mid.ops
  {
    hide Worked, Handled;
    var j :| 0 <= j < count && s.queue[messages[j]].op == s.queue[messages[count]].op;
    assert !WasClaimable(mid, messages[j]);
  }

  lemma OthersStay(s: Engine, mid: Engine, t: Engine, messages: seq<nat>, scripts: seq<Script>, count: nat)
    requires InRange(messages, |s.queue|) && |scripts| == |messages| && count < |messages|
    requires Progressed(s, mid, messages, scripts, count)
    requires messages[count] < |mid.queue| && ProcessedOne(mid, t, messages[count], scripts[count])
    ensures forall i :: 0 <= i < count && FirstFor(s.queue, messages, i) ==> Handled(s, t, messages[i], scripts[i])
    ensures forall i :: 0 <= i < count ==> !WasClaimable(t, messages[i])
    ensures forall id :: id in s.ops && !Touched(s.queue, messages, count + 1, id) ==> t.ops[id] == s.ops[id]
  {
    hide Worked;
    var id := s.queue[messages[count]].op;
    if !FirstFor(s.queue, messages, count) { RepeatChangesNothing(s, mid, t, messages, scripts, count); }
    assert Touched(s.queue, messages, count + 1, id) by { assert s.queue[messages[count]].op == id; }
    assert forall x :: !Touched(s.queue, messages, count + 1, x) ==> !Touched(s.queue, messages, count, x);
  }

  lemma ProcessedMore(s: Engine, mid: Engine, t: Engine, messages: seq<nat>, scripts: seq<Script>, count: nat)
    requires InRange(messages, |s.queue|) && |scripts| == |messages| && count < |messages|
    requires Progressed(s, mid, messages, scripts, count) && scripts[count].claimOk
    requires messages[count] < |mid.queue| && ProcessedOne(mid, t, messages[count], scripts[count])
    ensures messages[count] < |t.queue|
    ensures var m := messages[count];
            Progressed(s, t.(queue := t.queue[m := t.queue[m].(acked := true)]), messages, scripts, count + 1)
  {
    hide Worked, Handled;
    OthersStay(s, mid, t, messages, scripts, count);
    var m := messages[count];
    var u := t.(queue := t.queue[m := t.queue[m].(acked := true)]);
    if FirstFor(s.queue, messages, count) { FirstIsHandled(s, mid, t, messages, scripts, count); }
    forall i | 0 <= i < count + 1 && FirstFor(s.queue, messages, i) ensures Handled(s, u, messages[i], scripts[i]) {
      HandledByRows(s, t, u, messages[i], scripts[i]);
    }
  }

  /** Entries do not matter for what became of an operation. */
  lemma HandledByRows(s: Engine, t: Engine, u: Engine, m: nat, script: Script)
    requires m < |s.queue| && Handled(s, t, m, script) && u.ops == t.ops && u.now == t.now
    ensures Handled(s, u, m, script)
  {
    hide Worked;
  }

  lemma FirstIsHandled(s: Engine, mid: Engine, t: Engine, messages: seq<nat>, scripts: seq<Script>, count: nat)
    requires InRange(messages, |s.queue|) && |scripts| == |messages| && count < |messages|
    requires Progressed(s, mid, messages, scripts, count) && scripts[count].claimOk
    requires messages[count] < |mid.queue| && ProcessedOne(mid, t, messages[count], scripts[count])
    requires FirstFor(s.queue, messages, count)
    ensures Handled(s, t, messages[count], scripts[count])
  {
    hide Worked;
    assert !Touched(s.queue, messages, count, s.queue[messages[count]].op);
  }

  /** A batch that stops at a message keeps what the earlier ones did. */
  lemma StoppedHere(s: Engine, mid: Engine, t: Engine, messages: seq<nat>, scripts: seq<Script>, count: nat)
    requires InRange(messages, |s.queue|) && |scripts| == |messages| && count < |messages|
    requires Progressed(s, mid, messages, scripts, count)
    requires messages[count] < |mid.queue| && ProcessedOne(mid, t, messages[count], scripts[count])
    ensures |t.queue| == |s.queue| && t.ops.Keys == s.ops.Keys
    ensures forall i :: 0 <= i < count ==>
              t.queue[messages[i]].acked && t.queue[messages[i]].tried && !WasClaimable(t, messages[i])
    ensures forall i :: 0 <= i < count && FirstFor(s.queue, messages, i) ==> Handled(s, t, messages[i], scripts[i])
  {
    hide Worked, Handled;
    OthersStay(s, mid, t, messages, scripts, count);
  }

  ghost predicate NoneOwned(s: Engine, ids: seq<OpId>) {
    forall i :: 0 <= i < |ids| ==> !Owned(s, ids[i])
  }

  lemma OwnedByLive(s: Engine, t: Engine, id: OpId)
    requires s.live == t.live
    ensures Owned(s, id) == Owned(t, id)
  {
  }

  lemma RecoverLeads(s: Engine, trace: seq<Step>, t: Engine, id: OpId, cutoff: Time, failStop: bool)
      returns (longer: seq<Step>)
    requires Leads(s, trace, t, failStop) && Stuck(t, id, cutoff) && (failStop ==> !Owned(t, id))
    ensures Leads(s, longer, RecoverTx(t, id), failStop)
  {
    LeadsThen(s, trace, t, Recover(id, cutoff), failStop);
    longer := trace + [Recover(id, cutoff)];
  }

  predicate InRange(events: seq<nat>, n: nat) {
    forall i :: 0 <= i < |events| ==> events[i] < n
  }

  /** Publishing one event: both stream appends and, once committed, the published mark. */
  ghost function PublishOne(s: Engine, e: nat, mark: bool): Engine
    requires e < |s.outbox|
  {
    var t := s.(domain := s.domain + [e],
                queue := s.queue + if s.outbox[e].kind.OperationQueued?
                         then [Message(e, s.outbox[e].kind.op, false, false)] else []);
    if mark then t.(outbox := s.outbox[e := s.outbox[e].(published := true)]) else t
  }

  lemma PublishOneLeads(s: Engine, trace: seq<Step>, t: Engine, e: nat, mark: bool) returns (longer: seq<Step>)
    requires Leads(s, trace, t, true) && Claimable(t, e)
    ensures Leads(s, longer, PublishOne(t, e, mark), true)
  {
    LeadsThen(s, trace, t, AppendDomain(e), true);
    longer := trace + [AppendDomain(e)];
    var a := Apply(t, AppendDomain(e));
    assert a.domain[|t.domain|] == e;
    if t.outbox[e].kind.OperationQueued? {
      LeadsThen(s, longer, a, AppendQueue(e), true);
      longer := longer + [AppendQueue(e)];
      a := Apply(a, AppendQueue(e));
      assert a.queue[|t.queue|].event == e;
    }
    assert a == PublishOne(t, e, false);
    if mark {
      LeadsThen(s, longer, a, MarkPublished(e), true);
      longer := longer + [MarkPublished(e)];
    }
  }

  predicate Distinct<T(==)>(s: seq<T>) {
    forall i, j :: 0 <= i < j < |s| ==> s[i] != s[j]
  }

  class Store {
    var now: Time
    var ops: map<OpId, Operation>
    var outbox: seq<Event>
    var domain: seq<nat>
    var queue: seq<Message>
    var live: map<nat, Execution>
    ghost var hist: map<OpId, History>

    ghost function View(): Engine
      reads this
    {
      Engine(now, ops, outbox, domain, queue, live, hist)
    }

    constructor (start: Time)
      ensures View() == Init(start)
    {
      now, ops, outbox, domain, queue, live, hist := start, map[], [], [], [], map[], map[];
    }

    /** createEvent: one pending outbox row, due at once. */
    method CreateEvent(kind: EventKind)
      modifies this`outbox
      ensures outbox == old(outbox) + [Fresh(kind, now)]
    {
      outbox := outbox + [Event(kind, false, 0, now)];
    }

    /**
     * Create, with the lookup made before the transaction as `found`.  A concurrent insert of the
     * same key shows up as a unique violation, after which the surviving row decides the reply.
     */
    method Create(id: OpId, key: Key, request: nat, maxRetries: int, found: Option<OpId>)
        returns (reply: CreateReply)
      requires id !in ops && AlwaysInv(View())
      requires found.Some? ==> found.value in ops && ops[found.value].key == key
      modifies this
      ensures reply.Created? <==> maxRetries >= 0 && old(KeyFree(View(), key))
      ensures reply.Created? ==> reply.id == id && Enabled(old(View()), CreateOp(id, key, request, maxRetries), false)
      ensures reply.Created? ==> View() == Apply(old(View()), CreateOp(id, key, request, maxRetries))
      ensures reply.Created? ==>
        && ops == old(ops)[id := Operation(key, request, Queued, false, 0, maxRetries, now, None, None)]
        && outbox == old(outbox) + [Fresh(OperationQueued(id), now)]
      ensures !reply.Created? ==> View() == old(View())
      ensures reply.Created? || reply.Existing? ==>
                reply.id in ops && ops[reply.id].key == key && ops[reply.id].request == request
      ensures reply.Conflict? ==> exists o :: o in ops && ops[o].key == key && ops[o].request != request
      ensures reply.Invalid? <==> maxRetries < 0
    {
      if maxRetries < 0 { return Invalid; }
      var holder := found;
      if holder.None? {
        if o :| o in ops && ops[o].key == key {
          holder := Some(o);
        } else {
          ops := ops[id := NewRow(key, request, maxRetries, now)];
          hist := hist[id := History(|outbox|, 0)];
          CreateEvent(OperationQueued(id));
          return Created(id);
        }
      }
      var o := holder.value;
      return if ops[o].request == request then Existing(o) else Conflict;
    }

    /** The recovery UPDATE of one row and its event. */
    method RecoverOne(cutoff: Time, id: OpId)
      requires Stuck(View(), id, cutoff)
      modifies this`ops, this`outbox, this`hist
      ensures View() == RecoverTx(old(View()), id)
      ensures ops == old(ops)[id := RecoverRow(old(ops[id]), now).value] && Recovered(old(ops[id]), ops[id], now)
      ensures outbox == old(outbox) + [Fresh(RecoveryEvent(id, ops[id]), now)]
    {
      var row := ops[id];
      if row.retryCount < row.maxRetries {
        hist := hist[id := History(|outbox|, ClaimsOf(View(), id))];
        ops := ops[id := row.(status := Queued, retryable := true, retryCount := row.retryCount + 1,
                              heartbeatAt := None, finishedAt := None)];
        CreateEvent(OperationQueued(id));
      } else {
        ops := ops[id := row.(status := Failed, retryable := false, heartbeatAt := None, finishedAt := Some(now))];
        CreateEvent(OperationUpdated(id));
      }
    }

    /** The reconciler's recovery batch over the ids its SELECT returned. */
    method RecoverStuck(cutoff: Time, ids: seq<OpId>) returns (count: nat, ghost trace: seq<Step>)
      requires Distinct(ids)
      requires forall i :: 0 <= i < |ids| ==> Stuck(View(), ids[i], cutoff)
      modifies this
      ensures Leads(old(View()), trace, View(), old(NoneOwned(View(), ids)))
      ensures count == |ids| && ops.Keys == old(ops.Keys)
      ensures forall i :: 0 <= i < |ids| ==> ids[i] in ops && Recovered(old(ops)[ids[i]], ops[ids[i]], now)
      ensures |outbox| == |old(outbox)| + |ids|
      ensures forall i :: 0 <= i < |ids| ==>
        outbox[|old(outbox)| + i].kind == RecoveryEvent(ids[i], ops[ids[i]])
      ensures forall id :: id in ops && id !in ids ==> ops[id] == old(ops)[id]
    {
      hide Leads, RecoverTx, RecoverRow;
      trace := [];
      ghost var before := View();
      ghost var stopped := NoneOwned(before, ids);
      LeadsNowhere(before);
      var i := 0;
      while i < |ids|
        invariant i <= |ids| && Leads(before, trace, View(), stopped)
        invariant ops.Keys == before.ops.Keys && live == before.live && now == before.now
        invariant forall k :: 0 <= k < i ==> Recovered(before.ops[ids[k]], ops[ids[k]], now)
        invariant |outbox| == |before.outbox| + i
        invariant forall k :: 0 <= k < i ==> outbox[|before.outbox| + k].kind == RecoveryEvent(ids[k], ops[ids[k]])
        invariant forall k :: i <= k < |ids| ==> ops[ids[k]] == before.ops[ids[k]]
        invariant forall id :: id in ops && id !in ids ==> ops[id] == before.ops[id]
      {
        var id := ids[i];
        OwnedByLive(before, View(), id);
        assert Stuck(before, id, cutoff);
        trace := RecoverLeads(before, trace, View(), id, cutoff, stopped);
        RecoverOne(cutoff, id);
        i := i + 1;
      }
      count := |ids|;
    }

    /** The retry scheduler's batch: every due retry is queued again with a fresh event. */
    method RequeueDue(ids: seq<OpId>) returns (count: nat, ghost trace: seq<Step>)
      requires Distinct(ids)
      requires forall id :: id in ids ==> id in ops && ops[id].status == Retrying && ops[id].nextAttemptAt <= now
      modifies this
      ensures Leads(old(View()), trace, View(), true) && count == |ids|
      ensures forall id :: id in ids ==>
        id in ops && ops[id] == old(ops[id]).(status := Queued, retryable := false, heartbeatAt := None)
      ensures ops.Keys == old(ops.Keys) && forall id :: id in ops && id !in ids ==> ops[id] == old(ops[id])
      ensures |outbox| == |old(outbox)| + |ids|
      ensures forall i :: 0 <= i < |ids| ==> outbox[|old(outbox)| + i] == Fresh(OperationQueued(ids[i]), now)
    {
      hide Leads, Apply;
      LeadsNowhere(View());
      trace := [];
      var i := 0;
      while i < |ids|
        invariant i <= |ids|
        invariant Leads(old(View()), trace, View(), true)
        invariant ops.Keys == old(ops.Keys) && now == old(now)
        invariant forall id :: id in ids[..i] ==>
          ops[id] == old(ops[id]).(status := Queued, retryable := false, heartbeatAt := None)
        invariant forall id :: id in ops && id !in ids[..i] ==> ops[id] == old(ops[id])
        invariant |outbox| == |old(outbox)| + i
        invariant forall k :: 0 <= k < i ==> outbox[|old(outbox)| + k] == Fresh(OperationQueued(ids[k]), now)
      {
        var id := ids[i];
        assert id !in ids[..i];
        ghost var before := View();
        LeadsThen(old(View()), trace, before, Requeue(id), true);
        RequeueOne(id);
        trace := trace + [Requeue(id)];
        assert ids[..i + 1] == ids[..i] + [id];
        i := i + 1;
      }
      assert ids[..|ids|] == ids;
      count := |ids|;
    }

    /** One due row of the retry scheduler's batch. */
    method RequeueOne(id: OpId)
      requires Enabled(View(), Requeue(id), false)
      modifies this
      ensures View() == Apply(old(View()), Requeue(id)) && now == old(now)
      ensures ops == old(ops)[id := RequeueRow(old(ops)[id]).value]
      ensures outbox == old(outbox) + [Fresh(OperationQueued(id), now)]
    {
      hist := hist[id := History(|outbox|, ClaimsOf(View(), id))];
      ops := ops[id := ops[id].(status := Queued, retryable := false, heartbeatAt := None)];
      CreateEvent(OperationQueued(id));
    }

    /** Claim for the worker holding entry m: the queued-only UPDATE, its event and the read row. */
    method Claim(w: nat, m: nat) returns (claimed: bool)
      requires w !in live && m < |queue|
      modifies this
      ensures View() == TakeTx(old(View()), w, m)
      ensures claimed <==> WasClaimable(old(View()), m)
      ensures claimed <==> w in live
      ensures !claimed ==> ops == old(ops)
      ensures claimed ==>
        && ops == old(ops)[queue[m].op := old(ops)[queue[m].op].(status := Running, heartbeatAt := Some(now))]
        && live[w] == Execution(queue[m].op, ops[queue[m].op].retryCount, ops[queue[m].op].maxRetries)
    {
      var id := queue[m].op;
      queue := queue[m := queue[m].(tried := true)];
      if id !in ops || ops[id].status != Queued || ops[id].nextAttemptAt > now { return false; }
      hist := hist[id := History(WakeOf(View(), id), ClaimsOf(View(), id) + 1)];
      ops := ops[id := ops[id].(status := Running, heartbeatAt := Some(now))];
      CreateEvent(OperationUpdated(id));
      live := live[w := Execution(id, ops[id].retryCount, ops[id].maxRetries)];
      return true;
    }

    /** UpdateProgress from a running workflow; a final row refuses it. */
    method UpdateProgress(w: nat, st: Status) returns (ok: bool)
      requires w in live && live[w].op in ops && Active(st)
      modifies this`ops, this`outbox
      ensures View() == Apply(old(View()), Report(w, st))
      ensures ok <==> !Terminal(old(ops)[live[w].op].status)
      ensures ops == if ok then old(ops)[live[w].op := old(ops)[live[w].op].(status := st, heartbeatAt := Some(now))]
                     else old(ops)
    {
      var id := live[w].op;
      if Terminal(ops[id].status) { return false; }
      ops := ops[id := ops[id].(status := st, heartbeatAt := Some(now))];
      CreateEvent(OperationUpdated(id));
      return true;
    }

    /** Succeed, Fail or ScheduleRetry, chosen as processMessage does from the claimed row. */
    method Conclude(w: nat, outcome: Outcome) returns (ok: bool)
      requires w in live && live[w].op in ops
      modifies this`ops, this`outbox, this`live
      ensures View() == Apply(old(View()), Finish(w, outcome))
      ensures ok <==> !Terminal(old(ops)[old(live)[w].op].status)
      ensures w !in live && ops.Keys == old(ops).Keys && (!ok ==> ops == old(ops))
      ensures ok ==> Concluded(old(ops)[old(live)[w].op], old(live)[w].retryCount, old(live)[w].maxRetries, outcome,
                               ops[old(live)[w].op], now)
    {
      var exec := live[w];
      var row := ops[exec.op];
      live := live - {w};
      if Terminal(row.status) { return false; }
      if outcome == Success {
        ops := ops[exec.op := row.(status := Succeeded, retryable := false, heartbeatAt := Some(now),
          finishedAt := Some(now))];
      } else if outcome.retryable && exec.retryCount < exec.maxRetries {
        var backoff := CappedPower(exec.retryCount) * SECOND;
        ops := ops[exec.op := row.(status := Retrying, retryable := true, retryCount := row.retryCount + 1,
                                   nextAttemptAt := now + backoff, heartbeatAt := Some(now))];
      } else {
        ops := ops[exec.op := row.(status := Failed, retryable := false, heartbeatAt := Some(now),
          finishedAt := Some(now))];
      }
      CreateEvent(OperationUpdated(exec.op));
      return true;
    }

    /** The workflow's progress reports, in order. */
    method RunReports(w: nat, reports: seq<Status>) returns (ghost trace: seq<Step>)
      requires w in live && live[w].op in ops && Active(ops[live[w].op].status)
      requires forall i :: 0 <= i < |reports| ==> Active(reports[i])
      modifies this`ops, this`outbox
      ensures Leads(old(View()), trace, View(), true)
      ensures ops.Keys == old(ops).Keys && Active(ops[live[w].op].status)
      ensures forall id :: id in ops && id != live[w].op ==> ops[id] == old(ops)[id]
      ensures ops[live[w].op] == if |reports| == 0 then old(ops)[live[w].op]
        else old(ops)[live[w].op].(status := reports[|reports| - 1], heartbeatAt := Some(now))
    {
      hide Leads, Apply;
      ghost var before := View();
      LeadsNowhere(before);
      trace := [];
      for i := 0 to |reports|
        invariant Leads(before, trace, View(), true)
        invariant ops.Keys == before.ops.Keys && Active(ops[live[w].op].status)
        invariant forall id :: id in ops && id != live[w].op ==> ops[id] == before.ops[id]
        invariant ops[live[w].op] == if i == 0 then before.ops[live[w].op]
          else before.ops[live[w].op].(status := reports[i - 1], heartbeatAt := Some(now))
      {
        LeadsThen(before, trace, View(), Report(w, reports[i]), true);
        trace := trace + [Report(w, reports[i])];
        var _ := UpdateProgress(w, reports[i]);
      }
    }

    /** From claim to conclusion: reports, then a conclusion or the worker's death. */
    method Work(w: nat, script: Script) returns (ok: bool, ghost trace: seq<Step>)
      requires w in live && live[w].op in ops && ops[live[w].op].status == Running
      requires ops[live[w].op].heartbeatAt == Some(now)
      requires live[w].retryCount == ops[live[w].op].retryCount && live[w].maxRetries == ops[live[w].op].maxRetries
      requires forall i :: 0 <= i < |script.reports| ==> Active(script.reports[i])
      modifies this`ops, this`outbox, this`live
      ensures Leads(old(View()), trace, View(), true)
      ensures live == old(live) - {w} && ok == script.outcome.Some?
      ensures ops.Keys == old(ops).Keys && Worked(old(ops)[old(live)[w].op], script, ops[old(live)[w].op], now)
      ensures forall id :: id in ops && id != old(live)[w].op ==> ops[id] == old(ops)[id]
    {
      hide Leads;
      ghost var before := View();
      trace := RunReports(w, script.reports);
      if script.outcome.None? {
        LeadsThen(before, trace, View(), Abandon(w), true);
        trace := trace + [Abandon(w)];
        live := live - {w};
        return false, trace;
      }
      LeadsThen(before, trace, View(), Finish(w, script.outcome.value), true);
      trace := trace + [Finish(w, script.outcome.value)];
      ok := Conclude(w, script.outcome.value);
    }

    /**
     * One queue message.  Claiming may fail on the database, the workflow may die before it
     * concludes; in both cases the message stays unacknowledged and the error is returned.
     */
    method ProcessMessage(w: nat, m: nat, script: Script) returns (ok: bool, ghost trace: seq<Step>)
      requires w !in live && m < |queue|
      requires forall i :: 0 <= i < |script.reports| ==> Active(script.reports[i])
      modifies this
      ensures Leads(old(View()), trace, View(), true)
      ensures live == old(live) && now == old(now)
      ensures queue == if script.claimOk then old(queue)[m := old(queue)[m].(tried := true)] else old(queue)
      ensures ok <==> script.claimOk && (WasClaimable(old(View()), m) ==> script.outcome.Some?)
      ensures if script.claimOk then !WasClaimable(View(), m) else View() == old(View())
      ensures ops.Keys == old(ops).Keys
      ensures forall id :: id in ops && id != old(queue)[m].op ==> ops[id] == old(ops)[id]
      ensures if script.claimOk && WasClaimable(old(View()), m)
              then Worked(old(ops)[old(queue)[m].op], script, ops[old(queue)[m].op], now)
              else ops == old(ops)
    {
      hide Leads;
      ghost var before := View();
      LeadsNowhere(before);
      if !script.claimOk { return false, []; }
      LeadsThen(before, [], before, Take(w, m), true);
      trace := [] + [Take(w, m)];
      var claimed := Claim(w, m);
      if !claimed { return true, trace; }
      ghost var mid, more := View(), [];
      ok, more := Work(w, script);
      trace := LeadsConcat(before, trace, mid, more, View());
      assert live == old(live);
    }

    /** processMessages: stop at the first error, acknowledge what went through, count it. */
    method ProcessMessages(w: nat, messages: seq<nat>, scripts: seq<Script>)
        returns (processed: nat, ok: bool, ghost trace: seq<Step>)
      requires w !in live && |scripts| == |messages| && InRange(messages, |queue|)
      requires forall i, j :: 0 <= i < |scripts| && 0 <= j < |scripts[i].reports| ==> Active(scripts[i].reports[j])
      modifies this
      ensures Leads(old(View()), trace, View(), true)
      ensures processed <= |messages| && (ok <==> processed == |messages|)
      ensures |queue| == |old(queue)| && ops.Keys == old(ops).Keys
      ensures forall i :: 0 <= i < processed ==>
                queue[messages[i]].acked && queue[messages[i]].tried && !WasClaimable(View(), messages[i])
      ensures forall i :: 0 <= i < processed && FirstFor(old(queue), messages, i) ==>
                Handled(old(View()), View(), messages[i], scripts[i])
    {
      hide Leads, Progressed, ProcessedOne;
      ghost var before := View();
      LeadsNowhere(before);
      processed, trace := 0, [];
      NothingProcessed(before, messages, scripts);
      while processed < |messages|
        invariant processed <= |messages| && w !in live && Leads(before, trace, View(), true)
        invariant |queue| == |before.queue| && Progressed(before, View(), messages, scripts, processed)
      {
        var m := messages[processed];
        ghost var mid := View();
        var done, more := ProcessMessage(w, m, scripts[processed]);
        trace := LeadsConcat(before, trace, mid, more, View());
        ProcessedFacts(mid, View(), m, scripts[processed]);
        if !done || !scripts[processed].ackOk {
          StoppedHere(before, mid, View(), messages, scripts, processed);
          return processed, false, trace;
        }
        LeadsThen(before, trace, View(), Ack(m), true);
        trace := trace + [Ack(m)];
        ghost var after := View();
        queue := queue[m := queue[m].(acked := true)];
        ProcessedMore(before, mid, after, messages, scripts, processed);
        processed := processed + 1;
      }
      ProgressFacts(before, View(), messages, scripts, processed);
      ok := true;
    }

    /** The dispatcher's loop: appends go out at once, marks are kept in `rows` until commit. */
    method PublishLoop(events: seq<nat>, domainOk: nat -> bool, queueOk: nat -> bool)
        returns (k: nat, rows: seq<Event>)
      requires InRange(events, |outbox|)
      modifies this`domain, this`queue
      ensures k == FirstFailure(outbox, events, domainOk, queueOk)
      ensures View() == PublishAll(old(View()), events[..k], false)
      ensures rows == PublishAll(old(View()), events[..k], true).outbox
    {
      hide PublishAll, FirstFailure;
      ghost var before := View();
      rows := outbox;
      k := 0;
      assert events[..0] == [];
      PublishNone(before, false);
      PublishNone(before, true);
      while k < |events| && domainOk(events[k]) && (!rows[events[k]].kind.OperationQueued? || queueOk(events[k]))
        invariant k <= |events| && |rows| == |outbox|
        invariant forall e :: 0 <= e < |rows| ==> rows[e].kind == outbox[e].kind
        invariant forall i :: 0 <= i < k ==> AppendsOk(outbox, events[i], domainOk, queueOk)
        invariant View() == PublishAll(before, events[..k], false)
        invariant rows == PublishAll(before, events[..k], true).outbox
      {
        var e := events[k];
        PublishMore(before, events, k, false);
        PublishMore(before, events, k, true);
        domain := domain + [e];
        if rows[e].kind.OperationQueued? {
          queue := queue + [Message(e, rows[e].kind.op, false, false)];
        }
        rows := rows[e := rows[e].(published := true)];
        k := k + 1;
      }
      FirstFailureIs(outbox, events, domainOk, queueOk, k);
    }

    /**
     * The dispatcher's batch.  `domainOk` and `queueOk` say which stream appends succeed and
     * `commitOk` whether the database transaction commits; appends survive a lost transaction.
     */
    method Dispatch(events: seq<nat>, domainOk: nat -> bool, queueOk: nat -> bool, commitOk: bool)
        returns (count: nat, ok: bool)
      requires InRange(events, |outbox|)
      modifies this`outbox, this`domain, this`queue
      ensures View() == DispatchTx(old(View()), events, domainOk, queueOk, commitOk)
      ensures ok == (commitOk && FirstFailure(old(outbox), events, domainOk, queueOk) == |events|)
      ensures count == if ok then |events| else 0
    {
      hide PublishAll, Messages, FirstFailure;
      ghost var before := View();
      var i, rows := PublishLoop(events, domainOk, queueOk);
      PublishAllStreams(before, events, i, false);
      PublishAllStreams(before, events, i, true);
      if i < |events| {
        var e := events[i];
        if domainOk(e) { domain := domain + [e]; }
        var attempts := rows[e].attempts;
        rows := rows[e := rows[e].(attempts := attempts + 1, nextAttemptAt := now + RetryDelay(attempts))];
      }
      ok := commitOk && i == |events|;
      count := if ok then |events| else 0;
      if commitOk { outbox := rows; }
    }
  }

  /** The state after a batch that fails first at position k, if anywhere. */
  ghost function DispatchTx(
      s: Engine, events: seq<nat>, domainOk: nat -> bool, queueOk: nat -> bool, commitOk: bool): Engine
    requires InRange(events, |s.outbox|)
  {
    var k := FirstFailure(s.outbox, events, domainOk, queueOk);
    var t := PublishAll(s, events[..k], commitOk);
    if k < |events| then FailOne(t, events[k], domainOk(events[k]), commitOk) else t
  }

  /**
   * Outbox at-least-once for a failure at any position: a committed batch publishes the rows
   * before it, delays the failing one and leaves the rest; both streams hold what was published.
   * A batch that does not commit changes no row.
   */
  lemma DispatchOutcome(s: Engine, events: seq<nat>, domainOk: nat -> bool, queueOk: nat -> bool, commitOk: bool)
    requires InRange(events, |s.outbox|) && Distinct(events)
    ensures var k := FirstFailure(s.outbox, events, domainOk, queueOk);
            var t := DispatchTx(s, events, domainOk, queueOk, commitOk);
            && |t.outbox| == |s.outbox|
            && (!commitOk ==> t.outbox == s.outbox)
            && (commitOk ==> forall e :: 0 <= e < |s.outbox| ==>
                 t.outbox[e] == Dispatched(s.outbox[e], e, events, k, s.now))
            && t.queue == s.queue + Messages(s.outbox, events[..k])
            && t.domain == s.domain + events[..k]
                 + (if k < |events| && domainOk(events[k]) then [events[k]] else [])
  {
    var k := FirstFailure(s.outbox, events, domainOk, queueOk);
    PublishAllStreams(s, events, k, commitOk);
    PublishAllRows(s, events, k);
    assert k < |events| ==> events[k] !in events[..k];
    if k < |events| { PublishDelays(s.outbox[events[k]].attempts, s.outbox[events[k]].attempts); }
  }

  /** The batch is a run of engine steps, so every run theorem covers it. */
  lemma DispatchLeads(s: Engine, events: seq<nat>, domainOk: nat -> bool, queueOk: nat -> bool, commitOk: bool)
      returns (trace: seq<Step>)
    requires InRange(events, |s.outbox|) && Distinct(events)
    requires forall i :: 0 <= i < |events| ==> Claimable(s, events[i])
    ensures Leads(s, trace, DispatchTx(s, events, domainOk, queueOk, commitOk), true)
  {
    var k := FirstFailure(s.outbox, events, domainOk, queueOk);
    trace := PublishAllLeads(s, events, k, commitOk);
    PublishAllStreams(s, events, k, commitOk);
    if k < |events| {
      if commitOk { PublishAllRows(s, events, k); }
      assert events[k] !in events[..k];
      trace := FailOneLeads(s, trace, PublishAll(s, events[..k], commitOk), events[k], domainOk(events[k]), commitOk);
    }
  }

  /** A failed publish: the first append may be out already; the row is delayed once committed. */
  ghost function FailOne(s: Engine, e: nat, appended: bool, mark: bool): Engine
    requires e < |s.outbox|
  {
    var t := if appended then s.(domain := s.domain + [e]) else s;
    if mark then t.(outbox := s.outbox[e := Delayed(s.outbox[e], s.now)]) else t
  }

  lemma FailOneLeads(s: Engine, trace: seq<Step>, t: Engine, e: nat, appended: bool, mark: bool)
      returns (longer: seq<Step>)
    requires Leads(s, trace, t, true) && Claimable(t, e)
    ensures Leads(s, longer, FailOne(t, e, appended, mark), true)
  {
    longer := trace;
    var a := t;
    if appended {
      LeadsThen(s, longer, a, AppendDomain(e), true);
      longer := longer + [AppendDomain(e)];
      a := Apply(a, AppendDomain(e));
    }
    if mark {
      LeadsThen(s, longer, a, MarkRetry(e), true);
      longer := longer + [MarkRetry(e)];
    }
  }

  /** Publishing the events in order, with or without the published marks. */
  ghost function PublishAll(s: Engine, events: seq<nat>, mark: bool): (t: Engine)
    requires InRange(events, |s.outbox|)
    ensures |t.outbox| == |s.outbox|
    ensures forall e :: 0 <= e < |s.outbox| ==> t.outbox[e].kind == s.outbox[e].kind
  {
    if events == [] then s
    else
      var n := |events| - 1;
      PublishOne(PublishAll(s, events[..n], mark), events[n], mark)
  }

  /** `t` is `s` with the rows of `events` on both streams and nothing else changed but the outbox. */
  ghost predicate Streamed(s: Engine, t: Engine, events: seq<nat>)
    requires InRange(events, |s.outbox|)
  {
    && t.domain == s.domain + events && t.queue == s.queue + Messages(s.outbox, events)
    && t.now == s.now && t.ops == s.ops && t.live == s.live && t.hist == s.hist
  }

  lemma StreamNone(s: Engine)
    ensures Streamed(s, s, [])
  {
  }

  lemma PublishOneKeepsRows(s: Engine, e: nat)
    requires e < |s.outbox|
    ensures PublishOne(s, e, false).outbox == s.outbox
  {
  }

  lemma StreamOne(s: Engine, t: Engine, events: seq<nat>, e: nat, mark: bool)
    requires InRange(events, |s.outbox|) && Streamed(s, t, events) && e < |s.outbox| == |t.outbox|
    requires t.outbox[e].kind == s.outbox[e].kind
    ensures Streamed(s, PublishOne(t, e, mark), events + [e])
  {
    hide Messages;
    MessagesAppend(s.outbox, events, e);
    MessagesOne(s.outbox, e);
    var (sofar, more) := (Messages(s.outbox, events), Messages(s.outbox, [e]));
    assert s.domain + (events + [e]) == (s.domain + events) + [e];
    assert s.queue + (sofar + more) == (s.queue + sofar) + more;
  }

  lemma {:induction false} PublishAllStreams(s: Engine, events: seq<nat>, k: nat, mark: bool)
    requires InRange(events, |s.outbox|) && k <= |events|
    ensures Streamed(s, PublishAll(s, events[..k], mark), events[..k])
    ensures !mark ==> PublishAll(s, events[..k], mark).outbox == s.outbox
  {
    hide Streamed, PublishAll, Messages, PublishOne;
    if k == 0 {
      assert events[..0] == [];
      PublishNone(s, mark);
      StreamNone(s);
    } else {
      PublishOneKeepsRows(PublishAll(s, events[..k - 1], mark), events[k - 1]);
      PublishAllStreams(s, events, k - 1, mark);
      PublishMore(s, events, k - 1, mark);
      StreamOne(s, PublishAll(s, events[..k - 1], mark), events[..k - 1], events[k - 1], mark);
      assert events[..k] == events[..k - 1] + [events[k - 1]];
    }
  }

  lemma MessagesOne(rows: seq<Event>, e: nat)
    requires e < |rows|
    ensures Messages(rows, [e])
      == if rows[e].kind.OperationQueued? then [Message(e, rows[e].kind.op, false, false)] else []
  {
    assert [e][1..] == [] && Messages(rows, []) == [];
  }

  lemma PublishNone(s: Engine, mark: bool)
    ensures PublishAll(s, [], mark) == s
  {
  }

  /** One more row of the batch. */
  lemma PublishMore(s: Engine, events: seq<nat>, k: nat, mark: bool)
    requires InRange(events, |s.outbox|) && k < |events|
    ensures PublishAll(s, events[..k + 1], mark) == PublishOne(PublishAll(s, events[..k], mark), events[k], mark)
  {
    assert events[..k + 1][..k] == events[..k];
  }

  lemma {:induction false} PublishAllRows(s: Engine, events: seq<nat>, k: nat)
    requires InRange(events, |s.outbox|) && k <= |events|
    ensures forall e :: 0 <= e < |s.outbox| ==>
              PublishAll(s, events[..k], true).outbox[e]
              == if e in events[..k] then s.outbox[e].(published := true) else s.outbox[e]
  {
    if k > 0 {
      PublishAllRows(s, events, k - 1);
      assert events[..k][..k - 1] == events[..k - 1];
      assert events[..k] == events[..k - 1] + [events[k - 1]];
    }
  }

  lemma {:induction false} PublishAllLeads(s: Engine, events: seq<nat>, k: nat, mark: bool) returns (trace: seq<Step>)
    requires InRange(events, |s.outbox|) && k <= |events| && Distinct(events)
    requires forall i :: 0 <= i < |events| ==> Claimable(s, events[i])
    ensures Leads(s, trace, PublishAll(s, events[..k], mark), true)
  {
    if k == 0 {
      trace := [];
    } else {
      trace := PublishAllLeads(s, events, k - 1, mark);
      assert events[..k][..k - 1] == events[..k - 1];
      PublishAllStreams(s, events, k - 1, mark);
      if mark { PublishAllRows(s, events, k - 1); }
      assert events[k - 1] !in events[..k - 1];
      trace := PublishOneLeads(s, trace, PublishAll(s, events[..k - 1], mark), events[k - 1], mark);
    }
  }

  predicate AppendsOk(rows: seq<Event>, e: nat, domainOk: nat -> bool, queueOk: nat -> bool)
    requires e < |rows|
  {
    domainOk(e) && (rows[e].kind.OperationQueued? ==> queueOk(e))
  }

  /** The first batch position with a failing append, or the batch's length. */
  function FirstFailure(rows: seq<Event>, events: seq<nat>, domainOk: nat -> bool, queueOk: nat -> bool): (k: nat)
    requires InRange(events, |rows|)
    ensures k <= |events|
    ensures forall i :: 0 <= i < k ==> AppendsOk(rows, events[i], domainOk, queueOk)
    ensures k < |events| ==> !AppendsOk(rows, events[k], domainOk, queueOk)
  {
    if events == [] || !AppendsOk(rows, events[0], domainOk, queueOk) then 0
    else 1 + FirstFailure(rows, events[1..], domainOk, queueOk)
  }

  lemma {:induction false} FirstFailureIs(
      rows: seq<Event>, events: seq<nat>, domainOk: nat -> bool, queueOk: nat -> bool, k: nat)
    requires InRange(events, |rows|)
    requires k <= |events|
    requires forall i :: 0 <= i < k ==> AppendsOk(rows, events[i], domainOk, queueOk)
    requires k < |events| ==> !AppendsOk(rows, events[k], domainOk, queueOk)
    ensures FirstFailure(rows, events, domainOk, queueOk) == k
    decreases k
  {
    if k > 0 { FirstFailureIs(rows, events[1..], domainOk, queueOk, k - 1); }
  }

  /**
   * A row after the batch: published before position k, tried once more and due in 2^min(attempts, 8)
   * seconds at k, untouched after.
   */
  function Dispatched(row: Event, e: nat, events: seq<nat>, k: nat, now: Time): Event
    requires k <= |events|
  {
    if e in events[..k] then row.(published := true)
    else if k < |events| && e == events[k]
    then row.(attempts := row.attempts + 1, nextAttemptAt := now + CappedPower(row.attempts) * SECOND)
    else row
  }

  /** The operation-queue entries of a list of published rows. */
  function Messages(rows: seq<Event>, events: seq<nat>): seq<Message>
    requires InRange(events, |rows|)
  {
    if events == [] then []
    else
      (if rows[events[0]].kind.OperationQueued?
       then [Message(events[0], rows[events[0]].kind.op, false, false)] else [])
      + Messages(rows, events[1..])
  }

  lemma {:induction false} MessagesAppend(rows: seq<Event>, events: seq<nat>, e: nat)
    requires e < |rows| && InRange(events, |rows|)
    ensures Messages(rows, events + [e]) == Messages(rows, events) + Messages(rows, [e])
  {
    if events == [] {
      assert events + [e] == [e];
    } else {
      var rest, last := events[1..], Messages(rows, [e]);
      assert (events + [e])[0] == events[0] && (events + [e])[1..] == rest + [e];
      MessagesAppend(rows, rest, e);
      var kind := rows[events[0]].kind;
      var first := if kind.OperationQueued? then [Message(events[0], kind.op, false, false)] else [];
      assert Messages(rows, events) == first + Messages(rows, rest);
      assert first + (Messages(rows, rest) + last) == (first + Messages(rows, rest)) + last;
    }
  }
}
