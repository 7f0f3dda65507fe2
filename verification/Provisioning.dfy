/**
 * Provisioning: a paid order becomes subscriptions, instances and provision operations; workflows
 * reserve capacity, place the instance and finalize.  The state composes the operation engine,
 * the capacity pool and the subscription accounts, and every committed transaction is one step.
 */
module Provisioning {
  import opened Prelude
  import opened Resources
  import Engine = Operations
  import Cap = Capacity
  import Place = Placement
  import Subs = Subscriptions

  datatype Item = Item(order: OrderId, index: int)

  datatype OrderStatus = Pending | Paid | Fulfilling | Fulfilled

  /** What a purchase needs to know about its plan. */
  datatype Plan = Plan(group: Option<nat>, amount: Res, virtualization: string, cycle: Subs.Cycle, price: Price)

  datatype Order = Order(status: OrderStatus, owner: nat, quantity: nat, plan: Plan)

  /** Other stands for the observed states no provisioning statement tests for. */
  datatype Observed = ToCreate | Creating | Running | Unknown | Broken | Other

  datatype Instance = Instance(node: Option<NodeId>, observed: Observed)

  datatype Stage = Started | HasReservation | Placed | Verified | Finalized

  /** A workflow execution, with the subscription status it read at its start. */
  datatype Job = Job(item: Item, snapshot: Subs.Status, stage: Stage, rid: nat)

  datatype System = System(
    orders: map<OrderId, Order>, accounts: map<Item, Subs.Account>, instances: map<Item, Instance>,
    engine: Engine.Engine, pool: Cap.Pool, jobs: map<nat, Job>, grace: Time)

  const MAX_RETRIES := 5
  const RESERVATION_TTL: Time := 30 * MINUTE

  function OpOf(item: Item): OpId { Provision(item.order, item.index) }

  function KeyOf(item: Item): Key { ProvisionKey(item.order, item.index) }

  // ---------------------------------------------------------------- EnsureForPaidOrder

  /** Identifier and idempotency key of a provision operation are derived from the same item. */
  ghost predicate OpsNamed(ops: map<OpId, Engine.Operation>) {
    forall id :: id in ops && id.Provision? ==> ops[id].key == ProvisionKey(id.order, id.index)
  }

  ghost function EnsureOp(e: Engine.Engine, item: Item): Engine.Engine
    requires OpsNamed(e.ops)
  {
    if Engine.KeyFree(e, KeyOf(item))
    then Engine.Apply(e, Engine.CreateOp(OpOf(item), KeyOf(item), 0, MAX_RETRIES))
    else e
  }

  function Upsert<T>(table: map<Item, T>, item: Item, row: T): map<Item, T> {
    if item in table then table else table[item := row]
  }

  /** The account a new item gets. */
  function FreshAccount(order: Order): Subs.Account {
    Subs.Account(Subs.NewSubscription(order.owner, order.plan.price, order.plan.cycle), [])
  }

  ghost function EnsureItem(s: System, item: Item): (t: System)
    requires item.order in s.orders && OpsNamed(s.engine.ops)
    ensures t.orders == s.orders && OpsNamed(t.engine.ops)
  {
    var order := s.orders[item.order];
    s.(accounts := Upsert(s.accounts, item, FreshAccount(order)),
       instances := Upsert(s.instances, item, Instance(None, ToCreate)),
       engine := EnsureOp(s.engine, item))
  }

  ghost function EnsureItems(s: System, o: OrderId, count: nat): (t: System)
    requires o in s.orders && OpsNamed(s.engine.ops)
    ensures t.orders == s.orders && OpsNamed(t.engine.ops)
  {
    if count == 0 then s else EnsureItem(EnsureItems(s, o, count - 1), Item(o, count))
  }

  function SetStatus(s: System, o: OrderId, st: OrderStatus): System
    requires o in s.orders
  {
    s.(orders := s.orders[o := s.orders[o].(status := st)])
  }

  predicate ReadyToProvision(s: System, o: OrderId) {
    o in s.orders && s.orders[o].status != Pending && s.orders[o].plan.group.Some?
  }

  ghost function EnsureTx(s: System, o: OrderId): System
    requires OpsNamed(s.engine.ops)
  {
    if !ReadyToProvision(s, o) then s
    else
      var t := EnsureItems(s, o, s.orders[o].quantity);
      if t.orders[o].status == Paid then SetStatus(t, o, Fulfilling) else t
  }

  // ---------------------------------------------------------------- workflow transactions

  function RequestOf(plan: Plan): Place.Request
    requires plan.group.Some?
  {
    Place.Request(plan.group.value, plan.amount, map["virtualization" := plan.virtualization], RESERVATION_TTL)
  }

  ghost function BeginTx(s: System, w: nat): System
    requires w in s.engine.live && s.engine.live[w].op.Provision?
    requires Item(s.engine.live[w].op.order, s.engine.live[w].op.index) in s.accounts
  {
    var item := Item(s.engine.live[w].op.order, s.engine.live[w].op.index);
    s.(jobs := s.jobs[w := Job(item, s.accounts[item].row.status, Started, 0)])
  }

  /** The workflow's context is complete: its order has a plan with a node group. */
  predicate HasGroup(s: System, w: nat) {
    w in s.jobs && s.jobs[w].item.order in s.orders && s.orders[s.jobs[w].item.order].plan.group.Some?
  }

  ghost function ReserveTx(s: System, w: nat, seen: Option<nat>): System
    requires HasGroup(s, w)
  {
    var job := s.jobs[w];
    var request := RequestOf(s.orders[job.item.order].plan);
    var (pool, reply) := Cap.ReserveTx(s.pool, OpOf(job.item), request, s.engine.now, seen);
    s.(pool := pool,
       jobs := if reply.Granted? then s.jobs[w := job.(stage := HasReservation, rid := reply.rid)] else s.jobs)
  }

  predicate Placeable(o: Observed) { o in {ToCreate, Creating, Unknown, Broken} }

  function PlaceTx(s: System, w: nat): System
    requires w in s.jobs && s.jobs[w].item in s.instances && s.jobs[w].rid < |s.pool.reservations|
  {
    var job := s.jobs[w];
    var instance := s.instances[job.item];
    s.(jobs := s.jobs[w := job.(stage := Placed)],
       instances := if Placeable(instance.observed)
                    then s.instances[job.item := Instance(Some(s.pool.reservations[job.rid].node), Creating)]
                    else s.instances)
  }

  function PersistTx(s: System, w: nat): System
    requires w in s.jobs && s.jobs[w].item in s.instances
  {
    var job := s.jobs[w];
    s.(jobs := s.jobs[w := job.(stage := Verified)],
       instances := s.instances[job.item := s.instances[job.item].(observed := Running)])
  }

  function RefuseTx(s: System, w: nat): System
    requires w in s.jobs && s.jobs[w].item in s.instances
  {
    var item := s.jobs[w].item;
    if s.instances[item].observed == Running then s
    else s.(instances := s.instances[item := s.instances[item].(observed := Broken)])
  }

  // ---------------------------------------------------------------- Finalize

  /** No subscription of the order has a status other than active. */
  predicate AllActive(accounts: map<Item, Subs.Account>, o: OrderId) {
    forall item :: item in accounts && item.order == o ==> accounts[item].row.status == Subs.Active
  }

  function MarkFulfilledIfReady(s: System, o: OrderId): System {
    if o in s.orders && s.orders[o].status != Pending && AllActive(s.accounts, o) then SetStatus(s, o, Fulfilled) else s
  }

  ghost function Announce(e: Engine.Engine): Engine.Engine {
    Engine.Apply(Engine.Apply(e, Engine.Emit("subscription.activated.v1")), Engine.Emit("instance.running.v1"))
  }

  /** Commits a reserved row, accepts a committed one, and refuses any other. */
  function CommitTx(s: System, rid: nat): Option<System>
    requires rid < |s.pool.reservations| && s.pool.reservations[rid].node in s.pool.nodes
  {
    match s.pool.reservations[rid].status
    case Reserved => Some(s.(pool := Cap.Settle(s.pool, rid, Cap.Committed)))
    case Committed => Some(s)
    case _ => None
  }

  ghost function Activated(s: System, job: Job): System
    requires job.item in s.accounts
  {
    var account := Subs.Apply(s.accounts[job.item], Subs.Finalize(job.snapshot, s.engine.now), s.grace);
    s.(accounts := s.accounts[job.item := account], engine := Announce(s.engine))
  }

  ghost function ActivateTx(s: System, job: Job): Option<System>
    requires job.item in s.accounts
  {
    if job.snapshot == Subs.Active then Some(MarkFulfilledIfReady(s, job.item.order))
    else if !Subs.Activatable(s.accounts[job.item].row) then None
    else Some(MarkFulfilledIfReady(Activated(s, job), job.item.order))
  }

  /** One transaction: any refusal rolls all of it back. */
  ghost function FinalizeTx(s: System, job: Job): Option<System>
    requires job.rid < |s.pool.reservations| && s.pool.reservations[job.rid].node in s.pool.nodes
    requires job.item in s.accounts
  {
    var committed := CommitTx(s, job.rid);
    if committed.None? then None else ActivateTx(committed.value, job)
  }

  // ---------------------------------------------------------------- steps

  datatype Step =
    | PlaceOrder(o: OrderId, order: Order)
    | Capture(o: OrderId)
    | Ensure(o: OrderId)
    | EngineStep(estep: Engine.Step)
    | PoolStep(pstep: Cap.Step)
    | SubStep(item: Item, sstep: Subs.Step)
    | Observe(item: Item, observed: Observed)
    | Begin(w: nat)
    | Reserve(w: nat, seen: Option<nat>)
    | SetPlacement(w: nat)
    | Persist(w: nat)
    | Refuse(w: nat)
    | ReleaseFor(w: nat)
    | Finalize(w: nat)

  /** Steps of the pool that are not part of a workflow. */
  ghost predicate PoolStepOk(s: System, step: Cap.Step) {
    && Cap.Enabled(s.pool, step)
    && match step
       case Register(_, _, _) => true
       case Retag(_, _) => true
       case Heartbeat(_, _, _, _, _) => true
       case Expire(rid, now) =>
         && now == s.engine.now && s.pool.reservations[rid].op in s.engine.ops
         && Engine.Terminal(s.engine.ops[s.pool.reservations[rid].op].status)
       case _ => false
  }

  /**
   * Engine steps as the system takes them: random identifiers never collide with derived ones,
   * and a provision worker reports success only once its workflow has finalized.
   */
  ghost predicate EngineStepOk(s: System, e: Engine.Step, failStop: bool) {
    && Engine.Enabled(s.engine, e, failStop) && Engine.Enabled(s.engine, e, false)
    && (e.CreateOp? ==> e.id.Random?)
    && (e.Finish? && e.outcome == Engine.Success && s.engine.live[e.w].op.Provision? ==> AtStage(s, e.w, Finalized))
  }

  /** The worker's claim ends, and its workflow with it. */
  predicate EndsClaim(e: Engine.Step) { e.Finish? || e.Abandon? }

  ghost function EngineTx(s: System, e: Engine.Step): System
    requires Engine.Enabled(s.engine, e, false)
  {
    s.(engine := Engine.Apply(s.engine, e), jobs := if EndsClaim(e) then s.jobs - {e.w} else s.jobs)
  }

  predicate AtStage(s: System, w: nat, stage: Stage) {
    w in s.jobs && s.jobs[w].stage == stage && s.jobs[w].item in s.instances && s.jobs[w].item in s.accounts
  }

  /** The reservation row a job holds, with its node. */
  predicate Holds(s: System, w: nat)
    requires w in s.jobs
  {
    s.jobs[w].rid < |s.pool.reservations| && s.pool.reservations[s.jobs[w].rid].node in s.pool.nodes
  }

  ghost predicate Enabled(s: System, step: Step, failStop: bool) {
    match step
    case PlaceOrder(o, order) => o !in s.orders && order.status == Pending && order.quantity >= 1
    case Capture(o) => o in s.orders && s.orders[o].status == Pending
    case Ensure(o) => OpsNamed(s.engine.ops)
    case EngineStep(e) => EngineStepOk(s, e, failStop)
    case PoolStep(p) => PoolStepOk(s, p)
    case SubStep(item, sub) => item in s.accounts && !sub.Finalize?
    case Observe(item, _) => item in s.instances && s.instances[item].node.Some?
    case Begin(w) =>
      && w !in s.jobs && w in s.engine.live && s.engine.live[w].op.Provision?
      && Item(s.engine.live[w].op.order, s.engine.live[w].op.index) in s.accounts
    case Reserve(w, seen) =>
      && AtStage(s, w, Started) && HasGroup(s, w)
      && Cap.Enabled(s.pool,
           Cap.Reserve(OpOf(s.jobs[w].item), RequestOf(s.orders[s.jobs[w].item.order].plan), s.engine.now, seen))
    case SetPlacement(w) => AtStage(s, w, HasReservation) && Holds(s, w)
    case Persist(w) => AtStage(s, w, Placed)
    case Refuse(w) => AtStage(s, w, Placed)
    case ReleaseFor(w) => AtStage(s, w, Placed) && Cap.RowsPlaced(s.pool)
    case Finalize(w) => AtStage(s, w, Verified) && Holds(s, w)
  }

  ghost function Apply(s: System, step: Step): System
    requires Enabled(s, step, false)
  {
    match step
    case PlaceOrder(o, order) => s.(orders := s.orders[o := order])
    case Capture(o) => SetStatus(s, o, Paid)
    case Ensure(o) => EnsureTx(s, o)
    case EngineStep(e) => EngineTx(s, e)
    case PoolStep(p) => s.(pool := Cap.Apply(s.pool, p))
    case SubStep(item, sub) => s.(accounts := s.accounts[item := Subs.Apply(s.accounts[item], sub, s.grace)])
    case Observe(item, o) => s.(instances := s.instances[item := s.instances[item].(observed := o)])
    case Begin(w) => BeginTx(s, w)
    case Reserve(w, seen) => ReserveTx(s, w, seen)
    case SetPlacement(w) => PlaceTx(s, w)
    case Persist(w) => PersistTx(s, w)
    case Refuse(w) => RefuseTx(s, w)
    case ReleaseFor(w) => s.(pool := Cap.ChangeStatusTx(s.pool, s.jobs[w].rid, Cap.Released).0)
    case Finalize(w) =>
      var done := FinalizeTx(s, s.jobs[w]);
      if done.Some? then done.value.(jobs := s.jobs[w := s.jobs[w].(stage := Finalized)]) else s
  }

  ghost predicate Run(s: System, steps: seq<Step>, failStop: bool)
    decreases |steps|
  {
    steps == [] || (Enabled(s, steps[0], failStop) && Enabled(s, steps[0], false)
                    && Run(Apply(s, steps[0]), steps[1..], failStop))
  }

  ghost function Exec(s: System, steps: seq<Step>): System
    requires Run(s, steps, false)
    decreases |steps|
  {
    if steps == [] then s else Exec(Apply(s, steps[0]), steps[1..])
  }

  function Init(now: Time, grace: Time): System {
    System(map[], map[], map[], Engine.Init(now), Cap.Pool(map[], []), map[], grace)
  }
}
