/**
 * Complete runs of the composed system in which a Finalize is redundant: one with a replaced, still
 * running worker, and one in which every worker stops but the subscription lapses in between.
 */
module ProvisioningWitnesses {
  import opened Prelude
  import opened Provisioning
  import opened ProvisioningTheorems
  import opened ProvisioningRuns
  import opened ProvisioningOutcomes
  import Engine = Operations
  import Cap = Capacity
  import Calendar
  import Place = Placement
  import Subs = Subscriptions
  import Res = Resources

  const ITEM := Item(0, 1)
  const OP := Provision(0, 1)

  function PLAN(): Plan { OneItem(Pending).plan }

  // ---------------------------------------------------------------- the engine's part

  /** Engine steps that any caller of the engine may take and that end no claim. */
  predicate Plain(trace: seq<Engine.Step>) {
    forall i :: 0 <= i < |trace| ==> !trace[i].CreateOp? && !EndsClaim(trace[i])
  }

  lemma {:induction false} LiftTrace(start: System, s: System, trace: seq<Engine.Step>, failStop: bool)
    requires SystemInv(s) && Leads(start, s, failStop) && Plain(trace)
    requires Engine.Run(s.engine, trace, failStop) && Engine.Run(s.engine, trace, false)
    ensures SystemInv(s.(engine := Engine.Exec(s.engine, trace)))
    ensures Leads(start, s.(engine := Engine.Exec(s.engine, trace)), failStop)
    decreases |trace|
  {
    hide SystemInv, Leads, Engine.Apply, Engine.Enabled;
    if trace != [] {
      var step := EngineStep(trace[0]);
      assert Enabled(s, step, failStop) && Enabled(s, step, false);
      StepKeepsInv(s, step);
      LeadsThen(start, s, step, failStop);
      LiftTrace(start, Apply(s, step), trace[1..], failStop);
    }
  }

  /** The operation is queued and due, and outbox row k is its pending wake-up. */
  predicate Waiting(e: Engine.Engine, k: nat) {
    && OP in e.ops && e.ops[OP].status == Engine.Queued && e.ops[OP].nextAttemptAt <= e.now
    && k < |e.outbox| && e.outbox[k] == Engine.Fresh(Engine.OperationQueued(OP), e.now)
  }

  /** Publishes the wake-up and lets worker w claim the operation. */
  lemma PublishAndTake(e: Engine.Engine, before: seq<Engine.Step>, f: Engine.Engine, k: nat, w: nat, failStop: bool)
      returns (trace: seq<Engine.Step>)
    requires Engine.Run(e, before, failStop) && Engine.Run(e, before, false) && Engine.Exec(e, before) == f
    requires Plain(before) && Waiting(f, k) && w !in f.live
    ensures Engine.Run(e, trace, failStop) && Engine.Run(e, trace, false) && Plain(trace)
    ensures var t := Engine.Exec(e, trace);
            && t.live == f.live[w := Engine.Execution(OP, f.ops[OP].retryCount, f.ops[OP].maxRetries)] && t.now == f.now
            && OP in t.ops && t.ops[OP] == f.ops[OP].(status := Engine.Running, heartbeatAt := Some(f.now))
  {
    trace := before;
    Engine.RunThen(e, trace, Engine.AppendDomain(k), failStop);
    trace := trace + [Engine.AppendDomain(k)];
    assert Engine.Exec(e, trace).domain[|f.domain|] == k;
    Engine.RunThen(e, trace, Engine.AppendQueue(k), failStop);
    trace := trace + [Engine.AppendQueue(k)];
    Engine.RunThen(e, trace, Engine.Take(w, |f.queue|), failStop);
    trace := trace + [Engine.Take(w, |f.queue|)];
  }

  /** A worker went silent at `beat`; at time T recovery requeues the operation and w claims it. */
  lemma Redeliver(start: System, s: System, w: nat, T: Time, failStop: bool) returns (t: System)
    requires SystemInv(s) && Leads(start, s, failStop) && w !in s.engine.live
    requires OP in s.engine.ops && s.engine.ops[OP].status == Engine.Running && s.engine.ops[OP].retryCount == 0
    requires s.engine.ops[OP].maxRetries == MAX_RETRIES && s.engine.ops[OP].nextAttemptAt <= s.engine.now
    requires s.engine.ops[OP].heartbeatAt == Some(s.engine.now) && s.engine.now + 10 * MINUTE <= T
    requires failStop ==> !Engine.Owned(s.engine, OP)
    ensures SystemInv(t) && Leads(start, t, failStop) && t == s.(engine := t.engine)
    ensures t.engine.live == s.engine.live[w := Engine.Execution(OP, 1, MAX_RETRIES)] && t.engine.now == T
  {
    hide SystemInv, Leads;
    var e := s.engine;
    var cutoff := e.now + 5 * MINUTE;
    assert Engine.Run(e, [], failStop) && Engine.Run(e, [], false) && Engine.Exec(e, []) == e;
    Engine.RunThen(e, [], Engine.Tick(T), failStop);
    var trace := [] + [Engine.Tick(T)];
    var f := Engine.Exec(e, trace);
    assert f == e.(now := T);
    assert Engine.Owned(f, OP) <==> Engine.Owned(e, OP);
    Engine.RunThen(e, trace, Engine.Recover(OP, cutoff), failStop);
    trace := trace + [Engine.Recover(OP, cutoff)];
    trace := PublishAndTake(e, trace, Engine.Apply(f, Engine.Recover(OP, cutoff)), |f.outbox|, w, failStop);
    LiftTrace(start, s, trace, failStop);
    t := s.(engine := Engine.Exec(e, trace));
  }

  // ---------------------------------------------------------------- from order to claim

  function ROOM(): Place.Node {
    Place.Node(Place.Tags(Some(0), true, true, true, map["virtualization" := "kvm"], 0),
               Res.Res(10, 10, 10, 0, 0, 0), Res.ZERO, Res.ZERO)
  }

  lemma RoomFits()
    ensures Place.Candidate(ROOM(), RequestOf(PLAN())) && Res.Leq(Res.ZERO, ROOM().total)
  {
    var room, need := ROOM().total, PLAN().amount;
    var free := Res.Minus(Res.Minus(room, Res.ZERO), Res.ZERO);
    forall k ensures Res.At(need, k) <= Res.At(free, k) && Res.At(Res.ZERO, k) <= Res.At(room, k) {
      match k
      case Cpu => case Memory => case Disk => case Ipv4 => case Ipv6 => case Nats =>
    }
    assert Res.Leq(need, free);
  }

  /** A paid order for one item. */
  lemma PaidOrder(now: Time, grace: Time) returns (s: System)
    ensures SystemInv(s) && Leads(Init(now, grace), s, true)
    ensures s == Init(now, grace).(orders := s.orders) && 0 in s.orders && s.orders[0] == OneItem(Paid)
  {
    hide SystemInv, Leads;
    var start := Init(now, grace);
    InitialInv(now, grace);
    LeadsItself(start, true);
    Take(start, start, PlaceOrder(0, OneItem(Pending)), true);
    s := Apply(start, PlaceOrder(0, OneItem(Pending)));
    Take(start, s, Capture(0), true);
    s := Apply(s, Capture(0));
  }

  /** Its rows created. */
  lemma Ordered(now: Time, grace: Time) returns (s: System)
    ensures SystemInv(s) && Leads(Init(now, grace), s, true)
    ensures s.pool == Cap.Pool(map[], []) && s.jobs == map[] && s.grace == grace
    ensures 0 in s.orders && s.orders[0] == OneItem(Fulfilling)
    ensures s.accounts == map[ITEM := FreshAccount(OneItem(Paid))]
    ensures s.instances == map[ITEM := Instance(None, ToCreate)]
    ensures s.engine == Engine.Apply(Engine.Init(now), Engine.CreateOp(OP, ProvisionKey(0, 1), 0, MAX_RETRIES))
  {
    hide SystemInv, Leads, Engine.Apply;
    var p := PaidOrder(now, grace);
    Take(Init(now, grace), p, Ensure(0), true);
    assert EnsureItems(p, 0, 1) == EnsureItem(EnsureItems(p, 0, 0), ITEM) == EnsureItem(p, ITEM);
    s := Apply(p, Ensure(0));
  }

  /** One node with room for it. */
  lemma Equipped(now: Time, grace: Time) returns (s: System)
    ensures SystemInv(s) && Leads(Init(now, grace), s, true)
    ensures s.pool == Cap.Pool(map[0 := ROOM()], []) && s.jobs == map[] && s.grace == grace
    ensures 0 in s.orders && s.orders[0] == OneItem(Fulfilling)
    ensures s.accounts == map[ITEM := FreshAccount(OneItem(Paid))]
    ensures s.instances == map[ITEM := Instance(None, ToCreate)]
    ensures s.engine == Engine.Apply(Engine.Init(now), Engine.CreateOp(OP, ProvisionKey(0, 1), 0, MAX_RETRIES))
  {
    hide SystemInv, Leads, Engine.Apply, Place.Candidate;
    s := Ordered(now, grace);
    RoomFits();
    var register := PoolStep(Cap.Register(0, ROOM().tags, ROOM().total));
    Take(Init(now, grace), s, register, true);
    s := Apply(s, register);
  }

  /** Worker 1 has claimed the operation. */
  lemma Claimed(now: Time, grace: Time) returns (s: System)
    ensures SystemInv(s) && Leads(Init(now, grace), s, true)
    ensures s.pool == Cap.Pool(map[0 := ROOM()], []) && s.jobs == map[] && s.grace == grace
    ensures 0 in s.orders && s.orders[0] == OneItem(Fulfilling)
    ensures s.accounts == map[ITEM := FreshAccount(OneItem(Paid))]
    ensures s.instances == map[ITEM := Instance(None, ToCreate)]
    ensures s.engine.live == map[1 := Engine.Execution(OP, 0, MAX_RETRIES)] && s.engine.now == now
    ensures OP in s.engine.ops && s.engine.ops[OP].status == Engine.Running && s.engine.ops[OP].retryCount == 0
    ensures s.engine.ops[OP].maxRetries == MAX_RETRIES && s.engine.ops[OP].nextAttemptAt == now
    ensures s.engine.ops[OP].heartbeatAt == Some(now)
  {
    hide SystemInv, Leads;
    s := Equipped(now, grace);
    var e := s.engine;
    assert Engine.Run(e, [], true) && Engine.Run(e, [], false) && Engine.Exec(e, []) == e;
    var trace := PublishAndTake(e, [], e, 0, 1, true);
    LiftTrace(Init(now, grace), s, trace, true);
    s := s.(engine := Engine.Exec(e, trace));
  }

  // ---------------------------------------------------------------- the workflow's part

  /** The scene every workflow of the item plays in. */
  ghost predicate Scene(s: System) {
    && SystemInv(s) && ITEM in s.accounts && ITEM in s.instances
    && 0 in s.orders && s.orders[0].plan == PLAN()
  }

  /** The one reservation of the item's operation, in a given status. */
  predicate Row(pool: Cap.Pool, status: Cap.ReservationStatus) {
    |pool.reservations| == 1 && pool.reservations[0].op == OP && pool.reservations[0].status == status
  }

  lemma Take(start: System, s: System, step: Step, failStop: bool)
    requires SystemInv(s) && Leads(start, s, failStop) && Enabled(s, step, failStop) && Enabled(s, step, false)
    ensures SystemInv(Apply(s, step)) && Leads(start, Apply(s, step), failStop)
  {
    hide SystemInv, Leads, Apply, Enabled;
    StepKeepsInv(s, step);
    LeadsThen(start, s, step, failStop);
  }

  lemma Starts(start: System, s: System, w: nat, failStop: bool) returns (t: System)
    requires Scene(s) && Leads(start, s, failStop)
    requires w !in s.jobs && w in s.engine.live && s.engine.live[w].op == OP
    ensures Scene(t) && Leads(start, t, failStop)
    ensures t == s.(jobs := s.jobs[w := Job(ITEM, s.accounts[ITEM].row.status, Started, 0)])
  {
    hide SystemInv, Leads;
    Take(start, s, Begin(w), failStop);
    t := Apply(s, Begin(w));
  }

  lemma Reserves(start: System, s: System, w: nat, failStop: bool) returns (t: System)
    requires Scene(s) && Leads(start, s, failStop) && w in s.jobs
    requires s.jobs[w].item == ITEM && s.jobs[w].stage == Started
    requires s.pool == Cap.Pool(map[0 := ROOM()], [])
    ensures Scene(t) && Leads(start, t, failStop) && Row(t.pool, Cap.Reserved)
    ensures t == s.(pool := t.pool, jobs := s.jobs[w := s.jobs[w].(stage := HasReservation, rid := 0)])
  {
    hide SystemInv, Leads, Cap.ReserveTx, Place.Candidate;
    Take(start, s, Reserve(w, None), failStop);
    t := Apply(s, Reserve(w, None));
    RoomFits();
    assert Place.Candidate(s.pool.nodes[0], RequestOf(PLAN()));
    assert !Cap.Taken(s.pool, OP);
    Cap.PlacementOptimal(s.pool, OP, RequestOf(PLAN()), s.engine.now);
  }

  lemma FindsReservation(
      start: System, s: System, w: nat, status: Cap.ReservationStatus, failStop: bool) returns (t: System)
    requires Scene(s) && Leads(start, s, failStop) && w in s.jobs
    requires s.jobs[w].item == ITEM && s.jobs[w].stage == Started && Row(s.pool, status)
    ensures Scene(t) && Leads(start, t, failStop)
    ensures t == s.(jobs := s.jobs[w := s.jobs[w].(stage := HasReservation, rid := 0)])
  {
    hide SystemInv, Leads;
    Take(start, s, Reserve(w, Some(0)), failStop);
    t := Apply(s, Reserve(w, Some(0)));
  }

  lemma PlacesAndVerifies(
      start: System, s: System, w: nat, status: Cap.ReservationStatus, failStop: bool) returns (t: System)
    requires Scene(s) && Leads(start, s, failStop) && w in s.jobs
    requires s.jobs[w].item == ITEM && s.jobs[w].stage == HasReservation && s.jobs[w].rid == 0 && Row(s.pool, status)
    ensures Scene(t) && Leads(start, t, failStop)
    ensures t == s.(instances := t.instances, jobs := s.jobs[w := s.jobs[w].(stage := Verified)])
  {
    hide SystemInv, Leads;
    assert Holds(s, w) by { Placed(s); }
    Take(start, s, SetPlacement(w), failStop);
    t := Apply(s, SetPlacement(w));
    Take(start, t, Persist(w), failStop);
    t := Apply(t, Persist(w));
  }

  lemma Placed(s: System)
    requires SystemInv(s)
    ensures Cap.RowsPlaced(s.pool)
  {
  }

  lemma Finalizes(start: System, s: System, w: nat, status: Cap.ReservationStatus, failStop: bool) returns (t: System)
    requires Scene(s) && Leads(start, s, failStop) && w in s.jobs && Row(s.pool, status)
    requires s.jobs[w].item == ITEM && s.jobs[w].stage == Verified && s.jobs[w].rid == 0
    requires status in {Cap.Reserved, Cap.Committed} && Subs.Activatable(s.accounts[ITEM].row)
    requires s.jobs[w].snapshot != Subs.Active
    ensures Scene(t) && Leads(start, t, failStop) && Row(t.pool, Cap.Committed)
    ensures Enabled(s, Finalize(w), false) && t == Apply(s, Finalize(w)) && FinalizeTx(s, s.jobs[w]).Some?
    ensures t.accounts == s.accounts[ITEM := FinalAccount(s, w)] && t.grace == s.grace
    ensures t.jobs == s.jobs[w := s.jobs[w].(stage := Finalized)]
    ensures t.engine.ops == s.engine.ops && t.engine.live == s.engine.live && t.engine.now == s.engine.now
  {
    hide SystemInv, Leads;
    assert Holds(s, w) by { Placed(s); }
    Take(start, s, Finalize(w), failStop);
    t := Apply(s, Finalize(w));
    FinalizeFrame(s, w);
    FinalizeRest(s, w, status);
  }

  lemma FinalizeRest(s: System, w: nat, status: Cap.ReservationStatus)
    requires Enabled(s, Finalize(w), false) && FinalizeTx(s, s.jobs[w]).Some?
    requires Row(s.pool, status) && s.jobs[w].rid == 0 && 0 in s.orders
    ensures var t := FinalizeTx(s, s.jobs[w]).value;
            && Row(t.pool, Cap.Committed) && t.grace == s.grace && t.instances == s.instances
            && t.engine.now == s.engine.now && 0 in t.orders && t.orders[0].plan == s.orders[0].plan
  {
    var job := s.jobs[w];
    CommitGrows(s, job.rid);
    var t := CommitTx(s, job.rid).value;
    MarkGrows(if job.snapshot == Subs.Active then t else Activated(t, job), job.item.order);
  }

  // ---------------------------------------------------------------- two workflows at once

  /**
   * Worker 1 is slow and replaced; both workflows saw the subscription pending and both finalize:
   * one activation, version 2, two activation events.
   */
  lemma TwoWorkflowsBreakPairing(now: Time, grace: Time) returns (t: System)
    ensures Leads(Init(now, grace), t, false)
    ensures ITEM in t.accounts && t.accounts[ITEM].row.version == 2
    ensures t.accounts[ITEM].events == [Subs.Activated, Subs.Activated]
  {
    hide SystemInv, Leads, FinalizeTx, Apply, Enabled, Calendar.AddMonths;
    var start := Init(now, grace);
    var s := Claimed(now, grace);
    Relax(start, s);
    t := Redeliver(start, s, 2, now + 10 * MINUTE, false);
    t := Starts(start, t, 1, false);
    t := Starts(start, t, 2, false);
    t := Reserves(start, t, 1, false);
    t := PlacesAndVerifies(start, t, 1, Cap.Reserved, false);
    t := Finalizes(start, t, 1, Cap.Reserved, false);
    t := FindsReservation(start, t, 2, Cap.Committed, false);
    t := PlacesAndVerifies(start, t, 2, Cap.Committed, false);
    t := Finalizes(start, t, 2, Cap.Committed, false);
  }

  lemma Relax(s: System, t: System)
    requires Leads(s, t, true)
    ensures Leads(s, t, false)
  {
  }

  // ---------------------------------------------------------------- a lapse with workers that stop

  lemma Crashes(start: System, s: System, w: nat) returns (t: System)
    requires Scene(s) && Leads(start, s, true) && w in s.engine.live
    ensures Scene(t) && Leads(start, t, true)
    ensures t == s.(engine := s.engine.(live := s.engine.live - {w}), jobs := s.jobs - {w})
  {
    hide SystemInv, Leads;
    Take(start, s, EngineStep(Engine.Abandon(w)), true);
    t := Apply(s, EngineStep(Engine.Abandon(w)));
  }

  lemma Changes(start: System, s: System, step: Subs.Step) returns (t: System)
    requires Scene(s) && Leads(start, s, true) && !step.Finalize?
    ensures Scene(t) && Leads(start, t, true)
    ensures t == s.(accounts := s.accounts[ITEM := Subs.Apply(s.accounts[ITEM], step, s.grace)])
  {
    hide SystemInv, Leads, Subs.Apply;
    Take(start, s, SubStep(ITEM, step), true);
    t := Apply(s, SubStep(ITEM, step));
  }

  /**
   * Every worker stops before it is replaced.  The first crashes after its Finalize; the period
   * ends, the second workflow sees the subscription past due, a renewal makes it active again and
   * the second Finalize writes an event without a version increment: four events, version 4.
   */
  lemma LapseBreaksPairing(now: Time, grace: Time) returns (t: System)
    ensures Leads(Init(now, grace), t, true)
    ensures ITEM in t.accounts && t.accounts[ITEM].row.version == 4
    ensures t.accounts[ITEM].events == [Subs.Activated, Subs.PastDueTopic, Subs.Renewed, Subs.Activated]
  {
    hide SystemInv, Leads, FinalizeTx, Apply, Enabled, Calendar.AddMonths;
    var start := Init(now, grace);
    t := CrashAfterFinalize(now, grace);
    var end := t.accounts[ITEM].row.periodEnd.value;
    var T := if end < now + 10 * MINUTE then now + 10 * MINUTE else end;
    t := Redeliver(start, t, 2, T, true);
    t := Changes(start, t, Subs.Lifecycle(T));
    t := Starts(start, t, 2, true);
    t := FindsReservation(start, t, 2, Cap.Committed, true);
    t := PlacesAndVerifies(start, t, 2, Cap.Committed, true);
    t := Changes(start, t, Subs.Renew(T));
    t := Finalizes(start, t, 2, Cap.Committed, true);
  }

  /** The first worker finalizes and crashes before it can report success. */
  lemma CrashAfterFinalize(now: Time, grace: Time) returns (t: System)
    ensures Scene(t) && Leads(Init(now, grace), t, true) && Row(t.pool, Cap.Committed) && t.jobs == map[]
    ensures t.engine.live == map[] && t.engine.now == now && !Engine.Owned(t.engine, OP)
    ensures OP in t.engine.ops && t.engine.ops[OP].status == Engine.Running && t.engine.ops[OP].retryCount == 0
    ensures t.engine.ops[OP].maxRetries == MAX_RETRIES && t.engine.ops[OP].nextAttemptAt == now
    ensures t.engine.ops[OP].heartbeatAt == Some(now)
    ensures var a := t.accounts[ITEM];
            && a.row.status == Subs.Active && a.row.version == 2 && a.events == [Subs.Activated]
            && a.row.periodEnd.Some? && !a.row.cancelAtPeriodEnd
  {
    hide SystemInv, Leads, FinalizeTx, Apply, Enabled, Calendar.AddMonths;
    var start := Init(now, grace);
    t := Claimed(now, grace);
    t := Starts(start, t, 1, true);
    t := Reserves(start, t, 1, true);
    t := PlacesAndVerifies(start, t, 1, Cap.Reserved, true);
    t := Finalizes(start, t, 1, Cap.Reserved, true);
    t := Crashes(start, t, 1);
  }
}
