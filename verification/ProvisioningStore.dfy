/** The provision repository and workflow as they update the tables in place. */
module ProvisioningStore {
  import opened Prelude
  import opened Provisioning
  import opened ProvisioningTheorems
  import opened ProvisioningRuns
  import opened ProvisioningOutcomes
  import Engine = Operations
  import EngineTheorems = OperationTheorems
  import Cap = Capacity
  import Place = Placement
  import CapacityStore
  import Subs = Subscriptions

  datatype EnsureReply = Ensured(count: nat) | PurchaseNotReady | PlacementMissing

  /**
   * What the provider answers to the create and get calls.  After a fatal error the workflow
   * ignores whether its two clean-up transactions commit.
   */
  datatype Answer =
    | Works | NotRunning | ProviderError(retryable: bool, errorOk: bool, releaseOk: bool) | UnknownError

  datatype WorkflowReply =
    | Done | ContextInvalid | WaitingResource | SchedulerFailed | NotRunningYet | ProviderFailed(retryable: bool)
    | FinalizeFailed

  // ---------------------------------------------------------------- what the workflow must answer

  predicate ContextOk(s: System, item: Item) {
    item in s.accounts && item.order in s.orders && s.orders[item.order].plan.group.Some?
  }

  /** The request a plan makes of the scheduler: its group, size and virtualization, for half an hour. */
  function Wanted(plan: Plan): Place.Request
    requires plan.group.Some?
  {
    Place.Request(plan.group.value, plan.amount, map["virtualization" := plan.virtualization], 30 * MINUTE)
  }

  predicate SizeOk(plan: Plan) {
    && plan.amount.cpu > 0 && plan.amount.memory > 0 && plan.amount.disk > 0
    && plan.amount.ipv4 >= 0 && plan.amount.ipv6 >= 0 && plan.amount.nats >= 0
  }

  predicate SomeNodeFits(pool: Cap.Pool, plan: Plan)
    requires plan.group.Some?
  {
    exists n :: n in pool.nodes && Place.Eligible(pool.nodes[n], Wanted(plan))
  }

  /** The item's operation once held capacity and lost it. */
  ghost predicate Lost(rs: seq<Cap.Reservation>, item: Item) {
    exists r :: 0 <= r < |rs| && rs[r].op == OpOf(item) && !Usable(rs[r].status)
  }

  /** The workflow's answer, from the tables it finds and what the provider says. */
  ghost function Verdict(s: System, item: Item, seen: Option<nat>, answer: Answer): WorkflowReply {
    if !ContextOk(s, item) then ContextInvalid
    else
      var plan := s.orders[item.order].plan;
      if !SizeOk(plan) then SchedulerFailed
      else if seen.None? && !SomeNodeFits(s.pool, plan) then WaitingResource
      else
        var able := !Lost(s.pool.reservations, item) && s.accounts[item].row.status in {Subs.Pending, Subs.Active};
        AfterGrant(able, answer)
  }

  /** Once capacity is granted the provider decides, and for a running instance whether it can be finalized. */
  function AfterGrant(able: bool, answer: Answer): WorkflowReply {
    match answer
    case NotRunning => NotRunningYet
    case UnknownError => ProviderFailed(true)
    case ProviderError(retryable, _, _) => ProviderFailed(retryable)
    case Works => if able then Done else FinalizeFailed
  }

  /** The scheduler's answer to the workflow, and the standing of the row it names. */
  ghost predicate Granting(
      s: System, rs: seq<Cap.Reservation>, item: Item, seen: Option<nat>, reply: Cap.Reply)
    requires ContextOk(s, item)
  {
    var plan := s.orders[item.order].plan;
    && (reply == Cap.InvalidRequest <==> !SizeOk(plan))
    && (reply == Cap.ResourceExhausted <==> SizeOk(plan) && seen.None? && !SomeNodeFits(s.pool, plan))
    && (SizeOk(plan) && (seen.Some? || SomeNodeFits(s.pool, plan)) ==>
          && reply.Granted? && reply.rid < |rs|
          && (Usable(rs[reply.rid].status) <==> !Lost(s.pool.reservations, item)))
  }

  lemma GrantVerdict(s: System, item: Item, seen: Option<nat>)
    requires Cap.PoolInv(s.pool) && ContextOk(s, item)
    requires Cap.Enabled(s.pool, Cap.Reserve(OpOf(item), RequestOf(s.orders[item.order].plan), s.engine.now, seen))
    ensures var (pool, reply) :=
              Cap.ReserveTx(s.pool, OpOf(item), RequestOf(s.orders[item.order].plan), s.engine.now, seen);
            Granting(s, pool.reservations, item, seen, reply)
  {
    hide Cap.ReserveTx, Cap.PoolInv, Place.Eligible, Place.LeastLoaded;
    var plan := s.orders[item.order].plan;
    assert RequestOf(plan) == Wanted(plan);
    Cap.ReserveVerdict(s.pool, OpOf(item), RequestOf(plan), s.engine.now, seen);
    OneRowEach(s.pool);
    var (pool, reply) := Cap.ReserveTx(s.pool, OpOf(item), RequestOf(plan), s.engine.now, seen);
    if reply.Granted? && reply.rid < |s.pool.reservations| { LostIff(s.pool, item, reply.rid); }
  }

  lemma LostIff(pool: Cap.Pool, item: Item, r: nat)
    requires Cap.OnePerOperation(pool) && r < |pool.reservations| && pool.reservations[r].op == OpOf(item)
    ensures Lost(pool.reservations, item) <==> !Usable(pool.reservations[r].status)
  {
  }

  lemma OneRowEach(pool: Cap.Pool)
    requires Cap.PoolInv(pool)
    ensures Cap.OnePerOperation(pool)
  {
  }

  /** What success leaves: the first period started, the instance running, the order fulfilled if complete. */
  ghost predicate Delivered(s: System, t: System, item: Item) {
    && item in s.accounts && item in t.accounts && item in t.instances && t.instances[item].observed == Running
    && t.accounts == s.accounts[item := t.accounts[item]]
    && (if s.accounts[item].row.status == Subs.Active then t.accounts[item] == s.accounts[item]
        else FirstPeriod(s.accounts[item], t.accounts[item], s.engine.now))
    && FulfilledIfComplete(s, t, item.order)
  }

  /** No capacity is held in reserve for the item's operation. */
  predicate NothingReserved(rs: seq<Cap.Reservation>, item: Item) {
    forall r :: 0 <= r < |rs| && rs[r].op == OpOf(item) ==> rs[r].status != Cap.Reserved
  }

  class Store {
    const grace: Time
    const scheduler: CapacityStore.Store
    var orders: map<OrderId, Order>
    var accounts: map<Item, Subs.Account>
    var instances: map<Item, Instance>
    var engine: Engine.Engine
    ghost var jobs: map<nat, Job>

    ghost function View(): System
      reads this, scheduler
    {
      System(orders, accounts, instances, engine, scheduler.View(), jobs, grace)
    }

    ghost predicate Valid()
      reads this, scheduler
    {
      SystemInv(View())
    }

    constructor (now: Time, gracePeriod: Time, capacity: CapacityStore.Store)
      requires capacity.View() == Cap.Pool(map[], [])
      ensures Valid() && View() == Init(now, gracePeriod) && scheduler == capacity
    {
      orders, accounts, instances, jobs := map[], map[], map[], map[];
      engine, grace, scheduler := Engine.Init(now), gracePeriod, capacity;
      new;
      InitialInv(now, gracePeriod);
    }

    /** Subscription, instance and operation of one item, each only if missing. */
    method EnsureOne(item: Item)
      requires item.order in orders && OpsNamed(engine.ops)
      modifies this
      ensures View() == EnsureItem(old(View()), item)
    {
      var order := orders[item.order];
      if item !in accounts {
        accounts := accounts[item := FreshAccount(order)];
      }
      if item !in instances {
        instances := instances[item := Instance(None, ToCreate)];
      }
      if Engine.KeyFree(engine, KeyOf(item)) {
        engine := Engine.SaveQueued(engine, OpOf(item), Engine.NewRow(KeyOf(item), 0, MAX_RETRIES, engine.now), 0);
      }
    }

    method EnsureForPaidOrder(o: OrderId) returns (reply: EnsureReply)
      requires Valid() && OpsNamed(engine.ops)
      modifies this
      ensures Valid() && View() == EnsureTx(old(View()), o)
      ensures reply == if o !in old(orders) || old(orders)[o].status == Pending then PurchaseNotReady
                       else if old(orders)[o].plan.group.None? then PlacementMissing
                       else Ensured(old(orders)[o].quantity)
    {
      hide SystemInv, OpsNamed, EnsureItem;
      EnsureKeepsInv(View(), o);
      if o !in orders || orders[o].status == Pending { return PurchaseNotReady; }
      if orders[o].plan.group.None? { return PlacementMissing; }
      var quantity := orders[o].quantity;
      var index := 1;
      while index <= quantity
        invariant 1 <= index <= quantity + 1
        invariant OpsNamed(engine.ops) && View() == EnsureItems(old(View()), o, index - 1)
      {
        EnsureOne(Item(o, index));
        index := index + 1;
      }
      if orders[o].status == Paid {
        orders := orders[o := orders[o].(status := Fulfilling)];
      }
      reply := Ensured(quantity);
    }

    /** Order becomes fulfilled once no subscription of it is anything but active. */
    method MarkFulfilled(o: OrderId)
      modifies this`orders
      ensures View() == MarkFulfilledIfReady(old(View()), o)
    {
      if o in orders && orders[o].status != Pending && AllActive(accounts, o) {
        orders := orders[o := orders[o].(status := Fulfilled)];
      }
    }

    /** createDomainEvent: one pending outbox row. */
    method CreateEvent(name: string)
      modifies this`engine
      ensures View() == old(View()).(engine := Engine.Apply(old(engine), Engine.Emit(name)))
    {
      engine := engine.(outbox := engine.outbox + [Engine.Fresh(Engine.Domain(name), engine.now)]);
    }

    /** The second half of Finalize, after the reservation is committed. */
    method Activate(item: Item, snapshot: Subs.Status, ghost job: Job) returns (ok: bool)
      requires item in accounts && job.item == item && job.snapshot == snapshot
      modifies this
      ensures ok == ActivateTx(old(View()), job).Some?
      ensures View() == if ok then ActivateTx(old(View()), job).value else old(View())
    {
      if snapshot == Subs.Active {
        MarkFulfilled(item.order);
        return true;
      }
      if !Subs.Activatable(accounts[item].row) { return false; }
      accounts := accounts[item := Subs.Apply(accounts[item], Subs.Finalize(snapshot, engine.now), grace)];
      CreateEvent("subscription.activated.v1");
      CreateEvent("instance.running.v1");
      MarkFulfilled(item.order);
      ok := true;
    }

    /** Finalize: one transaction; when it fails the reservation change is rolled back too. */
    method Finalize(item: Item, snapshot: Subs.Status, rid: nat, ghost job: Job) returns (ok: bool)
      requires Valid() && job.item == item && job.snapshot == snapshot && job.rid == rid && item in accounts
      requires rid < |scheduler.reservations| && scheduler.reservations[rid].node in scheduler.nodes
      modifies this, scheduler
      ensures ok == FinalizeTx(old(View()), job).Some?
      ensures View() == if ok then FinalizeTx(old(View()), job).value else old(View())
    {
      hide Core, ItemsOk, FulfilledOk, EngineTheorems.AlwaysInv, Cap.PoolInv;
      var nodes, reservations := scheduler.nodes, scheduler.reservations;
      var status := reservations[rid].status;
      if status != Cap.Reserved && status != Cap.Committed { return false; }
      if status == Cap.Reserved {
        PoolOf(View());
        var committed := scheduler.ChangeStatus(rid, Cap.Committed);
      }
      ok := Activate(item, snapshot, job);
      if !ok { scheduler.nodes, scheduler.reservations := nodes, reservations; }
    }

    // -------------------------------------------------------------- workflow

    method Reserve(ghost w: nat, item: Item, seen: Option<nat>) returns (reply: Cap.Reply)
      requires ContextOk(View(), item) && Enabled(View(), Step.Reserve(w, seen), false) && jobs[w].item == item
      requires Valid()
      modifies this`jobs, scheduler
      ensures View() == Apply(old(View()), Step.Reserve(w, seen))
      ensures reply.Granted? ==> w in jobs && jobs[w] == old(jobs[w]).(stage := HasReservation, rid := reply.rid)
      ensures Granting(old(View()), scheduler.reservations, item, seen, reply)
    {
      hide Core, ItemsOk, FulfilledOk, Cap.ReserveTx, Cap.PoolInv, Granting;
      PoolOf(View());
      GrantVerdict(View(), item, seen);
      ghost var job := jobs[w];
      reply := scheduler.Reserve(OpOf(item), RequestOf(orders[item.order].plan), engine.now, seen);
      if reply.Granted? { jobs := jobs[w := job.(stage := HasReservation, rid := reply.rid)]; }
    }

    method SetPlacement(ghost w: nat, item: Item, rid: nat)
      requires Enabled(View(), Step.SetPlacement(w), false) && jobs[w].item == item && jobs[w].rid == rid
      modifies this`jobs, this`instances
      ensures View() == Apply(old(View()), Step.SetPlacement(w))
      ensures jobs == old(jobs)[w := old(jobs[w]).(stage := Placed)] && item in instances
      ensures instances == match old(instances)[item].observed
                           case Running => old(instances)
                           case Other => old(instances)
                           case _ => old(instances)[item := Instance(Some(scheduler.reservations[rid].node), Creating)]
    {
      if Placeable(instances[item].observed) {
        instances := instances[item := Instance(Some(scheduler.reservations[rid].node), Creating)];
      }
      jobs := jobs[w := jobs[w].(stage := Placed)];
    }

    method SetProviderResult(ghost w: nat, item: Item)
      requires Enabled(View(), Step.Persist(w), false) && jobs[w].item == item
      modifies this`jobs, this`instances
      ensures View() == Apply(old(View()), Step.Persist(w))
    {
      instances := instances[item := instances[item].(observed := Running)];
      jobs := jobs[w := jobs[w].(stage := Verified)];
    }

    method SetError(ghost w: nat, item: Item)
      requires Enabled(View(), Step.Refuse(w), false) && jobs[w].item == item
      modifies this`instances
      ensures View() == Apply(old(View()), Step.Refuse(w))
    {
      if instances[item].observed != Running {
        instances := instances[item := instances[item].(observed := Broken)];
      }
    }

    method Release(ghost w: nat, rid: nat)
      requires Valid() && Enabled(View(), Step.ReleaseFor(w), false) && jobs[w].rid == rid
      modifies scheduler
      ensures View() == Apply(old(View()), Step.ReleaseFor(w))
      ensures rid < |scheduler.reservations| ==> scheduler.reservations[rid].status != Cap.Reserved
    {
      hide Core, ItemsOk, FulfilledOk, Cap.PoolInv;
      PoolOf(View());
      var released := scheduler.ChangeStatus(rid, Cap.Released);
    }

    /**
     * The provision workflow, with the provider's answers as inputs.  It only takes steps of the
     * composed system; success means an active subscription on committed capacity, and a fatal
     * provider error leaves nothing reserved for the operation.
     */
    method Execute(ghost w: nat, item: Item, seen: Option<nat>, answer: Answer) returns (reply: WorkflowReply)
      requires Valid() && w !in jobs && w in engine.live && engine.live[w].op == OpOf(item)
      requires seen.Some? ==>
        seen.value < |scheduler.reservations| && scheduler.reservations[seen.value].op == OpOf(item)
      modifies this, scheduler
      ensures Valid() && Leads(old(View()), View(), true)
      ensures reply == Done ==> item in accounts && item in instances
      ensures reply == Done ==> accounts[item].row.status == Subs.Active
      ensures reply == Done ==> Backed(scheduler.reservations, item, instances[item])
      ensures reply == ProviderFailed(false) ==> answer.ProviderError?
      ensures reply == ProviderFailed(false) && answer.releaseOk ==> NothingReserved(scheduler.reservations, item)
      ensures reply == Verdict(old(View()), item, seen, answer)
      ensures if reply == Done then Delivered(old(View()), View(), item)
              else accounts == old(accounts) && orders == old(orders)
    {
      hide SystemInv, Leads, Apply, Lost, SomeNodeFits, Delivered, Backed, NothingReserved;
      ghost var start := View();
      LeadsItself(start, true);
      if item !in accounts || item.order !in orders || orders[item.order].plan.group.None? { return ContextInvalid; }
      var snapshot := accounts[item].row.status;
      Begin(w, item, snapshot, start);
      var granted := Acquire(w, item, seen, start);
      if granted == Cap.ResourceExhausted { return WaitingResource; }
      if !granted.Granted? { return SchedulerFailed; }
      reply := PlaceAndCreate(w, item, snapshot, granted.rid, answer, start);
    }

    method PlaceAndCreate(
        ghost w: nat, item: Item, snapshot: Subs.Status, rid: nat, answer: Answer, ghost start: System)
        returns (reply: WorkflowReply)
      requires Valid() && Leads(start, View(), true) && w in jobs && jobs[w] == Job(item, snapshot, HasReservation, rid)
      requires item in accounts && accounts[item].row.status == snapshot
      requires accounts == start.accounts && orders == start.orders && engine == start.engine
      modifies this, scheduler
      ensures Valid() && Leads(start, View(), true)
      ensures reply == Done ==> item in accounts && item in instances
      ensures reply == Done ==> accounts[item].row.status == Subs.Active
      ensures reply == Done ==> Backed(scheduler.reservations, item, instances[item])
      ensures reply == ProviderFailed(false) ==> answer.ProviderError?
      ensures reply == ProviderFailed(false) && answer.releaseOk ==> NothingReserved(scheduler.reservations, item)
      ensures reply == AfterGrant(CanFinalize(old(scheduler.reservations), rid, snapshot), answer)
      ensures if reply == Done then Delivered(start, View(), item)
              else accounts == old(accounts) && orders == old(orders)
    {
      hide SystemInv, Leads, Apply, Delivered, Backed, NothingReserved, CanFinalize;
      JobHolds(View(), w);
      StepFrom(start, View(), Step.SetPlacement(w));
      SetPlacement(w, item, rid);
      ghost var mid := View();
      reply := Create(w, item, snapshot, rid, answer, start);
      if reply == Done { DeliveredFrom(start, mid, View(), item); }
    }

    ghost method Begin(w: nat, item: Item, snapshot: Subs.Status, start: System)
      requires Valid() && Leads(start, View(), true)
      requires w !in jobs && w in engine.live && engine.live[w].op == OpOf(item)
      requires item in accounts && snapshot == accounts[item].row.status
      modifies this`jobs
      ensures Valid() && Leads(start, View(), true) && item in instances
      ensures jobs == old(jobs)[w := Job(item, snapshot, Started, 0)]
    {
      hide SystemInv, Leads, Apply;
      HasInstance(View(), item);
      StepFrom(start, View(), Step.Begin(w));
      BeginIs(View(), w, item);
      jobs := jobs[w := Job(item, snapshot, Started, 0)];
    }

    method Acquire(ghost w: nat, item: Item, seen: Option<nat>, ghost start: System) returns (reply: Cap.Reply)
      requires Valid() && Leads(start, View(), true) && item in instances && item in accounts
      requires w in jobs && jobs[w].item == item && jobs[w].stage == Started
      requires item.order in orders && orders[item.order].plan.group.Some?
      requires seen.Some? ==>
        seen.value < |scheduler.reservations| && scheduler.reservations[seen.value].op == OpOf(item)
      modifies this`jobs, scheduler
      ensures Valid() && Leads(start, View(), true)
      ensures reply.Granted? ==> w in jobs && jobs[w] == old(jobs[w]).(stage := HasReservation, rid := reply.rid)
      ensures Granting(old(View()), scheduler.reservations, item, seen, reply)
    {
      hide SystemInv, Leads, Apply, Granting;
      StepFrom(start, View(), Step.Reserve(w, seen));
      reply := Reserve(w, item, seen);
    }

    /** The part of the workflow from the provider call on. */
    method Create(ghost w: nat, item: Item, snapshot: Subs.Status, rid: nat, answer: Answer, ghost start: System)
        returns (reply: WorkflowReply)
      requires Valid() && Leads(start, View(), true) && AtStage(View(), w, Placed)
      requires jobs[w] == Job(item, snapshot, Placed, rid)
      requires item in accounts && accounts[item].row.status == snapshot
      modifies this, scheduler
      ensures Valid() && Leads(start, View(), true)
      ensures reply == Done ==> item in accounts && item in instances
      ensures reply == Done ==> accounts[item].row.status == Subs.Active
      ensures reply == Done ==> Backed(scheduler.reservations, item, instances[item])
      ensures reply == ProviderFailed(false) ==> answer.ProviderError?
      ensures reply == ProviderFailed(false) && answer.releaseOk ==> NothingReserved(scheduler.reservations, item)
      ensures reply == AfterGrant(CanFinalize(old(scheduler.reservations), rid, snapshot), answer)
      ensures if reply == Done then Delivered(old(View()), View(), item)
              else accounts == old(accounts) && orders == old(orders)
    {
      hide SystemInv, Leads, Backed, NothingReserved, Delivered, CanFinalize;
      match answer
      case UnknownError => reply := ProviderFailed(true);
      case NotRunning => reply := NotRunningYet;
      case ProviderError(retryable, errorOk, releaseOk) =>
        if !retryable { GiveUp(w, item, rid, errorOk, releaseOk, start); }
        reply := ProviderFailed(retryable);
      case Works =>
        var ok := Complete(w, item, snapshot, rid, start);
        reply := if ok then Done else FinalizeFailed;
    }

    /**
     * A fatal provider error marks the instance and gives the capacity back, as far as the two
     * transactions commit; without the release the pool is left as it was.
     */
    method GiveUp(ghost w: nat, item: Item, rid: nat, errorOk: bool, releaseOk: bool, ghost start: System)
      requires Valid() && Leads(start, View(), true) && AtStage(View(), w, Placed)
      requires jobs[w].item == item && jobs[w].rid == rid
      modifies this`instances, scheduler
      ensures Valid() && Leads(start, View(), true)
      ensures releaseOk ==> NothingReserved(scheduler.reservations, item)
      ensures !releaseOk ==> scheduler.View() == old(scheduler.View())
      ensures instances == if errorOk && old(instances)[item].observed != Running
                           then old(instances)[item := old(instances)[item].(observed := Broken)] else old(instances)
    {
      hide SystemInv, Leads, Cap.ChangeStatusTx;
      if errorOk {
        StepFrom(start, View(), Step.Refuse(w));
        SetError(w, item);
      }
      if releaseOk {
        JobHolds(View(), w);
        StepFrom(start, View(), Step.ReleaseFor(w));
        Release(w, rid);
        JobHolds(View(), w);
        OnlyRow(View(), item, w);
      }
    }

    method Complete(ghost w: nat, item: Item, snapshot: Subs.Status, rid: nat, ghost start: System) returns (ok: bool)
      requires Valid() && Leads(start, View(), true) && AtStage(View(), w, Placed)
      requires jobs[w] == Job(item, snapshot, Placed, rid)
      requires item in accounts && accounts[item].row.status == snapshot
      modifies this, scheduler
      ensures Valid() && Leads(start, View(), true)
      ensures ok ==> item in accounts && item in instances
      ensures ok ==> accounts[item].row.status == Subs.Active && Backed(scheduler.reservations, item, instances[item])
      ensures ok <==> CanFinalize(old(scheduler.reservations), rid, snapshot)
      ensures if ok then Delivered(old(View()), View(), item) else accounts == old(accounts) && orders == old(orders)
    {
      hide SystemInv, Leads, Backed, Delivered, CanFinalize;
      ghost var first := View();
      StepFrom(start, View(), Step.Persist(w));
      SetProviderResult(w, item);
      ghost var mid := View();
      ok := Conclude(w, item, snapshot, rid, start);
      if ok { DeliveredFrom(first, mid, View(), item); }
    }

    /** The last transaction of the workflow. */
    method Conclude(ghost w: nat, item: Item, snapshot: Subs.Status, rid: nat, ghost start: System) returns (ok: bool)
      requires Valid() && Leads(start, View(), true) && AtStage(View(), w, Verified)
      requires jobs[w] == Job(item, snapshot, Verified, rid) && instances[item].observed == Running
      requires accounts[item].row.status == snapshot
      modifies this, scheduler
      ensures Valid() && Leads(start, View(), true)
      ensures ok ==> item in accounts && item in instances
      ensures ok ==> accounts[item].row.status == Subs.Active && Backed(scheduler.reservations, item, instances[item])
      ensures ok <==> CanFinalize(old(scheduler.reservations), rid, snapshot)
      ensures if ok then Delivered(old(View()), View(), item) else accounts == old(accounts) && orders == old(orders)
    {
      hide SystemInv, Leads, Backed, FinalizeTx, Delivered, FinalizeWritten;
      ghost var mid := View();
      JobHolds(View(), w);
      StepFrom(start, View(), Step.Finalize(w));
      ghost var job := jobs[w];
      RecordsOf(View(), item);
      FinalizeVerdict(View(), job);
      FinalizeIs(View(), w);
      if FinalizeTx(View(), job).Some? { FinalizeActivates(View(), w); }
      ok := Finalize(item, snapshot, rid, job);
      if ok {
        FinalizeDelivers(mid, mid, View(), job);
        DeliveredIgnoresJobs(mid, View(), item, jobs[w := job.(stage := Finalized)]);
        jobs := jobs[w := job.(stage := Finalized)];
      }
    }
  }

  /** Only accounts, orders and the clock of the earlier state matter. */
  lemma DeliveredFrom(s: System, mid: System, t: System, item: Item)
    requires Delivered(mid, t, item) && mid.accounts == s.accounts && mid.orders == s.orders && mid.engine == s.engine
    ensures Delivered(s, t, item)
  {
    hide FirstPeriod;
  }

  lemma DeliveredIgnoresJobs(s: System, t: System, item: Item, jobs: map<nat, Job>)
    requires Delivered(s, t, item)
    ensures Delivered(s, t.(jobs := jobs), item)
  {
    hide FirstPeriod;
  }

  lemma FinalizeDelivers(s: System, mid: System, t: System, job: Job)
    requires job.item in s.accounts && job.rid < |mid.pool.reservations|
    requires job.snapshot == s.accounts[job.item].row.status
    requires mid.accounts == s.accounts && mid.orders == s.orders && mid.engine == s.engine
    requires job.item in mid.instances && mid.instances[job.item].observed == Running && FinalizeWritten(mid, t, job)
    ensures Delivered(s, t, job.item)
  {
    hide FirstPeriod;
  }

  /** A granted row that is not lost, and a subscription that is pending or active. */
  predicate CanFinalize(rs: seq<Cap.Reservation>, rid: nat, snapshot: Subs.Status) {
    rid < |rs| && Usable(rs[rid].status) && snapshot in {Subs.Pending, Subs.Active}
  }

  lemma RecordsOf(s: System, item: Item)
    requires SystemInv(s) && item in s.accounts
    ensures Subs.RecordOk(s.accounts[item].row, s.grace)
  {
  }

  lemma PoolOf(s: System)
    requires SystemInv(s)
    ensures Cap.PoolInv(s.pool)
  {
  }

  /** A release that was lost is made good by expiry once the operation is final and time is up. */
  lemma LostReleaseExpires(s: System, item: Item, rid: nat)
    requires SystemInv(s) && rid < |s.pool.reservations| && s.pool.reservations[rid].op == OpOf(item)
    requires s.pool.reservations[rid].status == Cap.Reserved && s.pool.reservations[rid].expiresAt <= s.engine.now
    requires OpOf(item) in s.engine.ops && Engine.Terminal(s.engine.ops[OpOf(item)].status)
    ensures Enabled(s, PoolStep(Cap.Expire(rid, s.engine.now)), false)
    ensures NothingReserved(Apply(s, PoolStep(Cap.Expire(rid, s.engine.now))).pool.reservations, item)
  {
    PoolOf(s);
    assert Cap.OnePerOperation(s.pool) && Cap.RowsPlaced(s.pool);
  }

  /** A job past its reservation holds a row of its own operation. */
  lemma JobHolds(s: System, w: nat)
    requires SystemInv(s) && w in s.jobs && s.jobs[w].stage != Started
    ensures Holds(s, w) && Cap.RowsPlaced(s.pool) && s.pool.reservations[s.jobs[w].rid].op == OpOf(s.jobs[w].item)
    ensures s.jobs[w].item in s.accounts && s.jobs[w].item in s.instances
  {
    assert s.jobs[w].item in s.instances.Keys;
  }

  lemma HasInstance(s: System, item: Item)
    requires SystemInv(s) && item in s.accounts
    ensures item in s.instances
  {
    assert item in s.accounts.Keys;
  }

  lemma StepFrom(start: System, s: System, step: Step)
    requires SystemInv(s) && Leads(start, s, true) && Enabled(s, step, false) && !step.EngineStep?
    ensures SystemInv(Apply(s, step)) && Leads(start, Apply(s, step), true)
  {
    hide SystemInv, Leads, Apply;
    StepKeepsInv(s, step);
    LeadsThen(start, s, step, true);
  }

  lemma OnlyRow(s: System, item: Item, w: nat)
    requires SystemInv(s) && w in s.jobs && s.jobs[w].stage != Started && s.jobs[w].item == item
    requires s.jobs[w].rid < |s.pool.reservations| && s.pool.reservations[s.jobs[w].rid].status != Cap.Reserved
    ensures NothingReserved(s.pool.reservations, item)
  {
    JobHolds(s, w);
    assert Cap.OnePerOperation(s.pool);
  }

  lemma BeginIs(s: System, w: nat, item: Item)
    requires Enabled(s, Step.Begin(w), false) && s.engine.live[w].op == OpOf(item) && item in s.accounts
    ensures Apply(s, Step.Begin(w)) == s.(jobs := s.jobs[w := Job(item, s.accounts[item].row.status, Started, 0)])
  {
  }

  lemma FinalizeIs(s: System, w: nat)
    requires Enabled(s, Step.Finalize(w), false)
    ensures var job := s.jobs[w];
            var done := FinalizeTx(s, job);
            && (done.Some? ==> Apply(s, Step.Finalize(w)) == done.value.(jobs := s.jobs[w := job.(stage := Finalized)]))
            && (done.None? ==> Apply(s, Step.Finalize(w)) == s)
  {
    hide FinalizeTx;
  }

  /** A successful Finalize right after the snapshot leaves the subscription active and backed. */
  lemma FinalizeActivates(s: System, w: nat)
    requires AtStage(s, w, Verified) && Holds(s, w) && s.accounts[s.jobs[w].item].row.status == s.jobs[w].snapshot
    requires FinalizeTx(s, s.jobs[w]).Some?
    requires SystemInv(s)
    ensures var job := s.jobs[w];
            var t := FinalizeTx(s, job).value;
            && t.jobs == s.jobs && job.item in t.accounts && job.item in t.instances
            && t.accounts[job.item].row.status == Subs.Active
            && Backed(t.pool.reservations, job.item, t.instances[job.item])
  {
    hide SystemInv, ActivateTx;
    var job := s.jobs[w];
    CommitKeeps(s, job.rid);
    var t := CommitTx(s, job.rid).value;
    JobIsPlaced(s, w);
    assert OnNode(t.pool.reservations, job.item, t.instances[job.item], job.rid);
    ActivateLeavesActive(t, job);
  }

  lemma JobIsPlaced(s: System, w: nat)
    requires SystemInv(s) && w in s.jobs && s.jobs[w].stage == Verified
    ensures s.jobs[w].item in s.instances
    ensures OnNode(s.pool.reservations, s.jobs[w].item, s.instances[s.jobs[w].item], s.jobs[w].rid)
  {
  }

  lemma ActivateLeavesActive(s: System, job: Job)
    requires job.item in s.accounts && ActivateTx(s, job).Some?
    ensures var t := ActivateTx(s, job).value;
            && t.pool == s.pool && t.instances == s.instances && t.jobs == s.jobs && job.item in t.accounts
            && (s.accounts[job.item].row.status == job.snapshot ==> t.accounts[job.item].row.status == Subs.Active)
  {
    MarkGrows(if job.snapshot == Subs.Active then s else Activated(s, job), job.item.order);
  }
}
