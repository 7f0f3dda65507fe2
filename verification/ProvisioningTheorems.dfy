/** Safety of provisioning over all runs of the composed system. */
module ProvisioningTheorems {
  import opened Prelude
  import opened Provisioning
  import Engine = Operations
  import EngineTheorems = OperationTheorems
  import Cap = Capacity
  import Place = Placement
  import Subs = Subscriptions

  // ---------------------------------------------------------------- what each table may do

  /** Reservation rows are only added, and only a reserved row changes, only in its status. */
  ghost predicate RowsGrow(a: seq<Cap.Reservation>, b: seq<Cap.Reservation>) {
    && |a| <= |b|
    && forall r :: 0 <= r < |a| ==>
         b[r] == a[r] || (a[r].status == Cap.Reserved && b[r] == a[r].(status := b[r].status))
  }

  /** Operations are never removed or renamed, and a terminal row never changes. */
  ghost predicate OpsGrow(a: map<OpId, Engine.Operation>, b: map<OpId, Engine.Operation>) {
    forall id :: id in a ==>
      id in b && b[id].key == a[id].key && (Engine.Terminal(a[id].status) ==> b[id] == a[id])
  }

  /** Rows that expire belong to finished operations. */
  ghost predicate ExpiredOk(rs: seq<Cap.Reservation>, ops: map<OpId, Engine.Operation>) {
    forall r :: 0 <= r < |rs| && rs[r].status == Cap.Expired ==>
      rs[r].op in ops && Engine.Terminal(ops[rs[r].op].status)
  }

  /** Reservation r holds the node of the item's instance for the item's own operation. */
  predicate OnNode(rs: seq<Cap.Reservation>, item: Item, instance: Instance, r: int) {
    0 <= r < |rs| && rs[r].op == OpOf(item) && instance.node == Some(rs[r].node)
  }

  ghost predicate PlacedOk(instances: map<Item, Instance>, rs: seq<Cap.Reservation>) {
    forall item :: item in instances ==>
      if instances[item].node.None? then instances[item].observed == ToCreate
      else exists r :: OnNode(rs, item, instances[item], r)
  }

  ghost predicate JobsOk(jobs: map<nat, Job>, instances: map<Item, Instance>, rs: seq<Cap.Reservation>) {
    forall w :: w in jobs ==>
      && jobs[w].item in instances
      && (jobs[w].stage != Started ==> jobs[w].rid < |rs| && rs[jobs[w].rid].op == OpOf(jobs[w].item))
      && (jobs[w].stage in {Placed, Verified} ==> OnNode(rs, jobs[w].item, instances[jobs[w].item], jobs[w].rid))
  }

  ghost predicate Backed(rs: seq<Cap.Reservation>, item: Item, instance: Instance) {
    exists r :: OnNode(rs, item, instance, r) && rs[r].status == Cap.Committed
  }

  ghost predicate ActivatedOk(
      accounts: map<Item, Subs.Account>, instances: map<Item, Instance>, rs: seq<Cap.Reservation>)
  {
    forall item :: item in accounts && item in instances && accounts[item].row.status != Subs.Pending ==>
      Backed(rs, item, instances[item])
  }

  ghost predicate ServedOk(accounts: map<Item, Subs.Account>, e: Engine.Engine) {
    forall item :: item in accounts ==> !Engine.KeyFree(e, KeyOf(item))
  }

  ghost predicate RecordsOk(accounts: map<Item, Subs.Account>, grace: Time) {
    forall item :: item in accounts ==> Subs.RecordOk(accounts[item].row, grace)
  }

  /** Everything that holds of single items, even in the middle of EnsureForPaidOrder. */
  ghost predicate Core(s: System) {
    && Cap.PoolInv(s.pool) && EngineTheorems.AlwaysInv(s.engine) && OpsNamed(s.engine.ops)
    && s.accounts.Keys == s.instances.Keys
    && ExpiredOk(s.pool.reservations, s.engine.ops) && PlacedOk(s.instances, s.pool.reservations)
    && JobsOk(s.jobs, s.instances, s.pool.reservations)
    && ActivatedOk(s.accounts, s.instances, s.pool.reservations)
    && ServedOk(s.accounts, s.engine) && RecordsOk(s.accounts, s.grace)
  }

  predicate InProgress(st: OrderStatus) { st == Fulfilling || st == Fulfilled }

  /** An order in progress has exactly its items 1..quantity; any other order has none. */
  ghost predicate ItemsOk(orders: map<OrderId, Order>, items: set<Item>) {
    && (forall o :: o in orders ==> orders[o].quantity >= 1)
    && (forall item :: item in items ==>
          && item.order in orders && InProgress(orders[item.order].status)
          && 1 <= item.index <= orders[item.order].quantity)
    && (forall o, i :: o in orders && InProgress(orders[o].status) && 1 <= i <= orders[o].quantity ==>
         Item(o, i) in items)
  }

  ghost predicate FulfilledOk(orders: map<OrderId, Order>, accounts: map<Item, Subs.Account>) {
    forall item :: item in accounts && item.order in orders && orders[item.order].status == Fulfilled ==>
      accounts[item].row.status != Subs.Pending
  }

  ghost predicate SystemInv(s: System) {
    Core(s) && ItemsOk(s.orders, s.accounts.Keys) && FulfilledOk(s.orders, s.accounts)
  }

  // ---------------------------------------------------------------- one table at a time

  lemma PoolMoves(s: System, pool: Cap.Pool)
    requires Core(s) && Cap.PoolInv(pool) && RowsGrow(s.pool.reservations, pool.reservations)
    requires ExpiredOk(pool.reservations, s.engine.ops)
    ensures Core(s.(pool := pool))
  {
    PlacedSurvives(s.instances, s.pool.reservations, pool.reservations);
    BackedSurvives(s.accounts, s.instances, s.pool.reservations, pool.reservations);
    JobsSurvive(s.jobs, s.instances, s.pool.reservations, pool.reservations);
  }

  lemma PlacedSurvives(instances: map<Item, Instance>, a: seq<Cap.Reservation>, b: seq<Cap.Reservation>)
    requires PlacedOk(instances, a) && RowsGrow(a, b)
    ensures PlacedOk(instances, b)
  {
    forall item | item in instances && instances[item].node.Some?
      ensures exists r :: OnNode(b, item, instances[item], r)
    {
      var r :| OnNode(a, item, instances[item], r);
      assert OnNode(b, item, instances[item], r);
    }
  }

  lemma BackedSurvives(
      accounts: map<Item, Subs.Account>, instances: map<Item, Instance>, a: seq<Cap.Reservation>,
      b: seq<Cap.Reservation>)
    requires ActivatedOk(accounts, instances, a) && RowsGrow(a, b)
    ensures ActivatedOk(accounts, instances, b)
  {
    forall item | item in accounts && item in instances && accounts[item].row.status != Subs.Pending
      ensures Backed(b, item, instances[item])
    {
      var r :| OnNode(a, item, instances[item], r) && a[r].status == Cap.Committed;
      assert OnNode(b, item, instances[item], r) && b[r].status == Cap.Committed;
    }
  }

  lemma JobsSurvive(
      jobs: map<nat, Job>, instances: map<Item, Instance>, a: seq<Cap.Reservation>, b: seq<Cap.Reservation>)
    requires JobsOk(jobs, instances, a) && RowsGrow(a, b)
    ensures JobsOk(jobs, instances, b)
  {
  }

  lemma EngineMoves(s: System, e: Engine.Engine)
    requires Core(s) && EngineTheorems.AlwaysInv(e) && OpsNamed(e.ops) && OpsGrow(s.engine.ops, e.ops)
    ensures Core(s.(engine := e))
  {
    ServedSurvives(s.accounts, s.engine, e);
  }

  lemma ServedSurvives(accounts: map<Item, Subs.Account>, a: Engine.Engine, b: Engine.Engine)
    requires ServedOk(accounts, a) && OpsGrow(a.ops, b.ops)
    ensures ServedOk(accounts, b)
  {
    forall item | item in accounts ensures !Engine.KeyFree(b, KeyOf(item)) {
      var id :| id in a.ops && a.ops[id].key == KeyOf(item);
      assert id in b.ops && b.ops[id].key == KeyOf(item);
    }
  }

  lemma AccountMoves(s: System, item: Item, a: Subs.Account)
    requires Core(s) && item in s.accounts && Subs.RecordOk(a.row, s.grace)
    requires a.row.status != Subs.Pending ==> Backed(s.pool.reservations, item, s.instances[item])
    ensures Core(s.(accounts := s.accounts[item := a]))
    ensures s.accounts[item := a].Keys == s.accounts.Keys
  {
  }

  /** An instance row may change its observed state, or move onto its operation's node. */
  lemma OneRow(s: System, a: nat, b: nat)
    requires Core(s) && a < |s.pool.reservations| && b < |s.pool.reservations|
    requires s.pool.reservations[a].op == s.pool.reservations[b].op
    ensures a == b
  {
    hide EngineTheorems.AlwaysInv, PlacedOk, JobsOk, ActivatedOk, ServedOk, RecordsOk;
    assert Cap.OnePerOperation(s.pool);
  }

  lemma InstanceMoves(s: System, item: Item, instance: Instance, r: nat)
    requires Core(s) && item in s.instances && OnNode(s.pool.reservations, item, instance, r)
    ensures Core(s.(instances := s.instances[item := instance]))
  {
    hide Cap.PoolInv, EngineTheorems.AlwaysInv, OpsNamed, ServedOk, RecordsOk, ExpiredOk;
    var rs := s.pool.reservations;
    var after := s.instances[item := instance];
    forall w | w in s.jobs && s.jobs[w].item == item && s.jobs[w].stage in {Placed, Verified}
      ensures OnNode(rs, item, instance, s.jobs[w].rid)
    {
      OneRow(s, s.jobs[w].rid, r);
    }
    if Backed(rs, item, s.instances[item]) {
      var q :| OnNode(rs, item, s.instances[item], q) && rs[q].status == Cap.Committed;
      OneRow(s, q, r);
      assert Backed(rs, item, instance);
    }
    assert after.Keys == s.instances.Keys;
  }

  lemma JobMoves(s: System, w: nat, job: Job)
    requires Core(s) && job.item in s.instances
    requires job.stage != Started ==>
      job.rid < |s.pool.reservations| && s.pool.reservations[job.rid].op == OpOf(job.item)
    requires job.stage in {Placed, Verified} ==> OnNode(s.pool.reservations, job.item, s.instances[job.item], job.rid)
    ensures Core(s.(jobs := s.jobs[w := job]))
  {
    hide Cap.PoolInv, EngineTheorems.AlwaysInv, PlacedOk, ServedOk, ActivatedOk, RecordsOk;
  }

  /** An order's status may move on as long as its items agree. */
  lemma OrderMoves(s: System, o: OrderId, st: OrderStatus)
    requires SystemInv(s) && o in s.orders
    requires InProgress(st) == InProgress(s.orders[o].status)
    requires st == Fulfilled && s.orders[o].status != Fulfilled ==> AllActive(s.accounts, o)
    ensures SystemInv(SetStatus(s, o, st))
  {
    hide Core;
    CoreIgnoresOrders(s, SetStatus(s, o, st).orders);
  }

  lemma CoreIgnoresOrders(s: System, orders: map<OrderId, Order>)
    requires Core(s)
    ensures Core(s.(orders := orders))
  {
  }

  // ---------------------------------------------------------------- engine and pool steps

  lemma EngineStepGrows(e: Engine.Engine, step: Engine.Step)
    requires Engine.Enabled(e, step, false) && OpsNamed(e.ops)
    requires step.CreateOp? && step.id.Provision? ==> step.key == ProvisionKey(step.id.order, step.id.index)
    ensures OpsGrow(e.ops, Engine.Apply(e, step).ops) && OpsNamed(Engine.Apply(e, step).ops)
  {
    hide Engine.Apply, Engine.Enabled;
    EngineTheorems.KeysStay(e, step);
    forall id | id in e.ops && Engine.Terminal(e.ops[id].status)
      ensures id in Engine.Apply(e, step).ops && Engine.Apply(e, step).ops[id] == e.ops[id]
    {
      EngineTheorems.TerminalAbsorbsStep(e, step, id);
    }
  }

  lemma SettleGrows(p: Cap.Pool, rid: nat, target: Cap.ReservationStatus)
    requires rid < |p.reservations| && p.reservations[rid].node in p.nodes && p.reservations[rid].status == Cap.Reserved
    ensures RowsGrow(p.reservations, Cap.Settle(p, rid, target).reservations)
  {
  }

  lemma ReserveGrows(p: Cap.Pool, op: OpId, req: Place.Request, now: Time, seen: Option<nat>)
    requires Cap.Enabled(p, Cap.Reserve(op, req, now, seen))
    ensures var (q, reply) := Cap.ReserveTx(p, op, req, now, seen);
            && RowsGrow(p.reservations, q.reservations)
            && (forall r :: |p.reservations| <= r < |q.reservations| ==> q.reservations[r].status == Cap.Reserved)
            && (reply.Granted? ==> reply.rid < |q.reservations| && q.reservations[reply.rid].op == op)
  {
  }

  lemma PoolStepKeeps(s: System, step: Cap.Step)
    requires Core(s) && PoolStepOk(s, step)
    ensures Core(s.(pool := Cap.Apply(s.pool, step)))
  {
    Cap.StepKeepsInv(s.pool, step);
    var pool := Cap.Apply(s.pool, step);
    if step.Expire? { SettleGrows(s.pool, step.rid, Cap.Expired); }
    PoolMoves(s, pool);
  }

  lemma ReserveKeeps(s: System, w: nat, seen: Option<nat>)
    requires HasGroup(s, w)
    requires Enabled(s, Reserve(w, seen), false) && Core(s)
    ensures Core(ReserveTx(s, w, seen))
  {
    hide EngineTheorems.AlwaysInv, PlacedOk, ActivatedOk, ServedOk, RecordsOk;
    var job := s.jobs[w];
    var (op, req) := (OpOf(job.item), RequestOf(s.orders[job.item.order].plan));
    var (pool, reply) := Cap.ReserveTx(s.pool, op, req, s.engine.now, seen);
    Cap.ReserveKeepsInv(s.pool, op, req, s.engine.now, seen);
    ReserveGrows(s.pool, op, req, s.engine.now, seen);
    PoolMoves(s, pool);
    if reply.Granted? { JobMoves(s.(pool := pool), w, job.(stage := HasReservation, rid := reply.rid)); }
  }

  lemma ReleaseKeeps(s: System, w: nat)
    requires Enabled(s, ReleaseFor(w), false)
    requires Core(s)
    ensures Core(Apply(s, ReleaseFor(w)))
  {
    hide EngineTheorems.AlwaysInv, PlacedOk, ActivatedOk, ServedOk, RecordsOk, JobsOk;
    var rid := s.jobs[w].rid;
    var pool := Cap.ChangeStatusTx(s.pool, rid, Cap.Released).0;
    if pool != s.pool {
      SettleGrows(s.pool, rid, Cap.Released);
      Cap.SettleKeepsInv(s.pool, rid, Cap.Released);
      PoolMoves(s, pool);
    }
  }

  lemma PlaceKeeps(s: System, w: nat)
    requires AtStage(s, w, HasReservation) && Holds(s, w)
    requires Core(s)
    ensures Core(PlaceTx(s, w))
  {
    hide Cap.PoolInv, EngineTheorems.AlwaysInv;
    var job := s.jobs[w];
    var rs := s.pool.reservations;
    var instance := s.instances[job.item];
    if Placeable(instance.observed) {
      InstanceMoves(s, job.item, Instance(Some(rs[job.rid].node), Creating), job.rid);
      var instances := s.instances[job.item := Instance(Some(rs[job.rid].node), Creating)];
      JobMoves(s.(instances := instances), w, job.(stage := Placed));
    } else {
      var r :| OnNode(rs, job.item, instance, r);
      OneRow(s, r, job.rid);
      JobMoves(s, w, job.(stage := Placed));
    }
  }

  lemma PersistKeeps(s: System, w: nat)
    requires Core(s) && Enabled(s, Persist(w), false)
    ensures Core(PersistTx(s, w))
  {
    var job := s.jobs[w];
    var instance := s.instances[job.item].(observed := Running);
    InstanceMoves(s, job.item, instance, job.rid);
    JobMoves(s.(instances := s.instances[job.item := instance]), w, job.(stage := Verified));
  }

  lemma ObserveKeeps(s: System, item: Item, o: Observed)
    requires Core(s) && item in s.instances && s.instances[item].node.Some?
    ensures Core(s.(instances := s.instances[item := s.instances[item].(observed := o)]))
  {
    var r :| OnNode(s.pool.reservations, item, s.instances[item], r);
    InstanceMoves(s, item, s.instances[item].(observed := o), r);
  }

  lemma SubStepKeeps(s: System, item: Item, step: Subs.Step)
    requires SystemInv(s) && item in s.accounts && !step.Finalize?
    ensures SystemInv(s.(accounts := s.accounts[item := Subs.Apply(s.accounts[item], step, s.grace)]))
  {
    hide Cap.PoolInv, EngineTheorems.AlwaysInv, PlacedOk, JobsOk, ServedOk, Subs.RecordOk;
    var a := Subs.Apply(s.accounts[item], step, s.grace);
    Subs.StepKeepsRecord(s.accounts[item], step, s.grace);
    assert a.row.status == Subs.Pending <==> s.accounts[item].row.status == Subs.Pending;
    AccountMoves(s, item, a);
  }

  // ---------------------------------------------------------------- Finalize

  lemma CommitKeeps(s: System, rid: nat)
    requires SystemInv(s) && rid < |s.pool.reservations| && s.pool.reservations[rid].node in s.pool.nodes
    requires CommitTx(s, rid).Some?
    ensures SystemInv(CommitTx(s, rid).value)
    ensures CommitTx(s, rid).value == s.(pool := CommitTx(s, rid).value.pool)
    ensures RowsGrow(s.pool.reservations, CommitTx(s, rid).value.pool.reservations)
    ensures CommitTx(s, rid).value.pool.reservations[rid].status == Cap.Committed
  {
    if s.pool.reservations[rid].status == Cap.Reserved {
      SettleGrows(s.pool, rid, Cap.Committed);
      Cap.SettleKeepsInv(s.pool, rid, Cap.Committed);
      PoolMoves(s, Cap.Settle(s.pool, rid, Cap.Committed));
    }
  }

  lemma MarkKeeps(s: System, o: OrderId)
    requires SystemInv(s) && o in s.orders && InProgress(s.orders[o].status)
    ensures SystemInv(MarkFulfilledIfReady(s, o))
  {
    if AllActive(s.accounts, o) { OrderMoves(s, o, Fulfilled); }
  }

  lemma AnnounceGrows(e: Engine.Engine)
    requires EngineTheorems.AlwaysInv(e) && OpsNamed(e.ops)
    ensures EngineTheorems.AlwaysInv(Announce(e)) && OpsNamed(Announce(e).ops) && OpsGrow(e.ops, Announce(e).ops)
  {
    var first := Engine.Emit("subscription.activated.v1");
    EngineTheorems.AlwaysInvStep(e, first);
    EngineTheorems.AlwaysInvStep(Engine.Apply(e, first), Engine.Emit("instance.running.v1"));
  }

  lemma FulfilledMoves(orders: map<OrderId, Order>, accounts: map<Item, Subs.Account>, item: Item, a: Subs.Account)
    requires FulfilledOk(orders, accounts) && a.row.status != Subs.Pending
    ensures FulfilledOk(orders, accounts[item := a])
  {
  }

  lemma EngineMovesSystem(s: System, e: Engine.Engine)
    requires SystemInv(s) && EngineTheorems.AlwaysInv(e) && OpsNamed(e.ops) && OpsGrow(s.engine.ops, e.ops)
    ensures SystemInv(s.(engine := e))
  {
    EngineMoves(s, e);
  }

  lemma BecomesActive(s: System, item: Item, a: Subs.Account, e: Engine.Engine)
    requires SystemInv(s) && item in s.accounts && Backed(s.pool.reservations, item, s.instances[item])
    requires Subs.RecordOk(a.row, s.grace) && a.row.status == Subs.Active
    requires EngineTheorems.AlwaysInv(e) && OpsNamed(e.ops) && OpsGrow(s.engine.ops, e.ops)
    ensures SystemInv(s.(accounts := s.accounts[item := a], engine := e))
  {
    AccountMoves(s, item, a);
    FulfilledMoves(s.orders, s.accounts, item, a);
    EngineMovesSystem(s.(accounts := s.accounts[item := a]), e);
  }

  lemma ActivatedKeeps(s: System, job: Job)
    requires SystemInv(s) && job.item in s.accounts && Subs.Activatable(s.accounts[job.item].row)
    requires job.snapshot != Subs.Active
    requires Backed(s.pool.reservations, job.item, s.instances[job.item])
    ensures SystemInv(Activated(s, job))
  {
    hide Cap.PoolInv, EngineTheorems.AlwaysInv, PlacedOk, JobsOk, ServedOk, ActivatedOk, Subs.RecordOk, Announce;
    var step := Subs.Finalize(job.snapshot, s.engine.now);
    Subs.StepKeepsRecord(s.accounts[job.item], step, s.grace);
    AnnounceGrows(s.engine);
    BecomesActive(s, job.item, Subs.Apply(s.accounts[job.item], step, s.grace), Announce(s.engine));
  }

  lemma MarkFrame(s: System, o: OrderId)
    ensures MarkFulfilledIfReady(s, o) == s.(orders := MarkFulfilledIfReady(s, o).orders)
  {
  }

  lemma ActivateKeeps(s: System, job: Job)
    requires SystemInv(s) && job.item in s.accounts && ActivateTx(s, job).Some?
    requires Backed(s.pool.reservations, job.item, s.instances[job.item])
    ensures SystemInv(ActivateTx(s, job).value)
    ensures ActivateTx(s, job).value.pool == s.pool && ActivateTx(s, job).value.jobs == s.jobs
    ensures ActivateTx(s, job).value.instances == s.instances
  {
    var t := if job.snapshot == Subs.Active then s else Activated(s, job);
    if job.snapshot != Subs.Active { ActivatedKeeps(s, job); }
    MarkKeeps(t, job.item.order);
    MarkFrame(t, job.item.order);
  }

  lemma FinalizeKeeps(s: System, w: nat)
    requires SystemInv(s) && Enabled(s, Finalize(w), false)
    ensures SystemInv(Apply(s, Finalize(w)))
  {
    hide Cap.PoolInv, EngineTheorems.AlwaysInv, ActivateTx, PlacedOk, ServedOk, ActivatedOk, RecordsOk, ItemsOk;
    hide FulfilledOk;
    var job := s.jobs[w];
    if FinalizeTx(s, job).Some? {
      CommitKeeps(s, job.rid);
      var t := CommitTx(s, job.rid).value;
      assert OnNode(t.pool.reservations, job.item, t.instances[job.item], job.rid);
      ActivateKeeps(t, job);
      JobMoves(FinalizeTx(s, job).value, w, job.(stage := Finalized));
      assert Apply(s, Finalize(w)) == FinalizeTx(s, job).value.(jobs := s.jobs[w := job.(stage := Finalized)]);
    }
  }
}
