/** The main results about provisioning: what holds in every reachable state of the whole system. */
module ProvisioningRuns {
  import opened Prelude
  import opened Provisioning
  import opened ProvisioningTheorems
  import Engine = Operations
  import EngineTheorems = OperationTheorems
  import Cap = Capacity
  import Subs = Subscriptions
  import Res = Resources

  // ---------------------------------------------------------------- EnsureForPaidOrder

  lemma EnsureOpGrows(e: Engine.Engine, item: Item)
    requires EngineTheorems.AlwaysInv(e) && OpsNamed(e.ops)
    ensures var f := EnsureOp(e, item);
            EngineTheorems.AlwaysInv(f) && OpsNamed(f.ops) && OpsGrow(e.ops, f.ops) && !Engine.KeyFree(f, KeyOf(item))
  {
    if Engine.KeyFree(e, KeyOf(item)) {
      var step := Engine.CreateOp(OpOf(item), KeyOf(item), 0, MAX_RETRIES);
      EngineTheorems.AlwaysInvStep(e, step);
      EngineStepGrows(e, step);
      assert Engine.Apply(e, step).ops[OpOf(item)].key == KeyOf(item);
    }
  }

  lemma AddItem(s: System, item: Item, a: Subs.Account)
    requires Core(s) && item !in s.accounts && !Engine.KeyFree(s.engine, KeyOf(item))
    requires a.row.status == Subs.Pending && Subs.RecordOk(a.row, s.grace)
    ensures Core(s.(accounts := s.accounts[item := a], instances := s.instances[item := Instance(None, ToCreate)]))
  {
    hide Cap.PoolInv, EngineTheorems.AlwaysInv;
  }

  /** `t` is `s` with its item tables possibly extended by fresh rows, all still pending. */
  ghost predicate Extends(s: System, t: System) {
    && t.orders == s.orders && t.pool == s.pool && t.jobs == s.jobs && t.grace == s.grace
    && (forall x :: x in s.accounts ==> x in t.accounts && t.accounts[x] == s.accounts[x])
    && (forall x :: x in t.accounts && x !in s.accounts ==> t.accounts[x].row.status == Subs.Pending)
    && (forall x :: x in s.instances ==> x in t.instances && t.instances[x] == s.instances[x])
    && OpsGrow(s.engine.ops, t.engine.ops)
  }

  lemma EnsureItemCases(s: System, item: Item)
    requires item.order in s.orders && OpsNamed(s.engine.ops) && s.accounts.Keys == s.instances.Keys
    ensures EnsureItem(s, item) ==
      var t := s.(engine := EnsureOp(s.engine, item));
      if item in s.accounts then t
      else t.(accounts := t.accounts[item := FreshAccount(s.orders[item.order])],
              instances := t.instances[item := Instance(None, ToCreate)])
  {
    assert item in s.accounts.Keys <==> item in s.instances.Keys;
  }

  lemma EnsureItemKeeps(s: System, item: Item)
    requires Core(s) && item.order in s.orders && OpsNamed(s.engine.ops)
    ensures Core(EnsureItem(s, item))
  {
    EnsureOpGrows(s.engine, item);
    EnsureItemCases(s, item);
    var t := s.(engine := EnsureOp(s.engine, item));
    EngineMoves(s, t.engine);
    var order := s.orders[item.order];
    Subs.NewRecordOk(order.owner, order.plan.price, order.plan.cycle, s.grace);
    if item !in s.accounts { AddItem(t, item, FreshAccount(s.orders[item.order])); }
  }

  lemma EnsureItemExtends(s: System, item: Item)
    requires item.order in s.orders && OpsNamed(s.engine.ops)
    requires s.accounts.Keys == s.instances.Keys && EngineTheorems.AlwaysInv(s.engine)
    ensures Extends(s, EnsureItem(s, item))
    ensures EnsureItem(s, item).accounts.Keys == s.accounts.Keys + {item}
    ensures EnsureItem(s, item).instances.Keys == s.instances.Keys + {item}
  {
    EnsureOpGrows(s.engine, item);
    EnsureItemCases(s, item);
  }

  predicate InRange(item: Item, o: OrderId, count: nat) { item.order == o && 1 <= item.index <= count }

  lemma ExtendsItself(s: System)
    ensures Extends(s, s)
  {
  }

  lemma ExtendsTransitive(s: System, t: System, u: System)
    requires Extends(s, t) && Extends(t, u)
    ensures Extends(s, u)
  {
  }

  lemma CoreParts(s: System)
    requires Core(s)
    ensures OpsNamed(s.engine.ops) && EngineTheorems.AlwaysInv(s.engine) && s.accounts.Keys == s.instances.Keys
  {
  }

  lemma {:induction false} EnsureItemsKeeps(s: System, o: OrderId, count: nat)
    requires Core(s) && o in s.orders && OpsNamed(s.engine.ops)
    ensures Core(EnsureItems(s, o, count)) && Extends(s, EnsureItems(s, o, count))
    ensures forall x :: x in EnsureItems(s, o, count).accounts.Keys <==> x in s.accounts.Keys || InRange(x, o, count)
  {
    hide Core, Extends, OpsNamed, EngineTheorems.AlwaysInv;
    if count == 0 {
      ExtendsItself(s);
    } else {
      var t := EnsureItems(s, o, count - 1);
      EnsureItemsKeeps(s, o, count - 1);
      CoreParts(t);
      EnsureItemKeeps(t, Item(o, count));
      EnsureItemExtends(t, Item(o, count));
      ExtendsTransitive(s, t, EnsureItem(t, Item(o, count)));
    }
  }

  lemma EnsureKeepsInv(s: System, o: OrderId)
    requires SystemInv(s)
    ensures SystemInv(EnsureTx(s, o))
  {
    if ReadyToProvision(s, o) {
      var t := EnsureItems(s, o, s.orders[o].quantity);
      EnsureItemsKeeps(s, o, s.orders[o].quantity);
      ItemsAfterEnsure(s, t, o);
    }
  }

  lemma ItemsAfterEnsure(s: System, t: System, o: OrderId)
    requires SystemInv(s) && o in s.orders && s.orders[o].status != Pending && Core(t) && Extends(s, t)
    requires forall x :: x in t.accounts.Keys <==> x in s.accounts.Keys || InRange(x, o, s.orders[o].quantity)
    ensures SystemInv(if t.orders[o].status == Paid then SetStatus(t, o, Fulfilling) else t)
  {
    hide Core, OpsGrow, ItemsOk;
    var u := if t.orders[o].status == Paid then SetStatus(t, o, Fulfilling) else t;
    assert Core(u) by { CoreIgnoresOrders(t, u.orders); }
    AllItems(s.orders, s.accounts.Keys, t.accounts.Keys, o);
    if s.orders[o].status == Fulfilled { assert t.accounts.Keys == s.accounts.Keys; }
    NoneFulfilled(s, t, o);
  }

  lemma NoneFulfilled(s: System, t: System, o: OrderId)
    requires FulfilledOk(s.orders, s.accounts) && Extends(s, t) && o in s.orders
    requires forall x :: x in t.accounts.Keys && x !in s.accounts.Keys ==> x.order == o
    requires s.orders[o].status == Fulfilled ==> t.accounts.Keys == s.accounts.Keys
    ensures FulfilledOk(t.orders, t.accounts) && FulfilledOk(SetStatus(t, o, Fulfilling).orders, t.accounts)
  {
    hide OpsGrow;
  }

  lemma AllItems(orders: map<OrderId, Order>, was: set<Item>, items: set<Item>, o: OrderId)
    requires ItemsOk(orders, was) && o in orders && orders[o].status != Pending
    requires forall x :: x in items <==> x in was || InRange(x, o, orders[o].quantity)
    ensures ItemsOk(if orders[o].status == Paid then orders[o := orders[o].(status := Fulfilling)] else orders, items)
    ensures orders[o].status == Fulfilled ==> items == was
  {
  }

  // ---------------------------------------------------------------- all steps

  lemma StepKeepsInv(s: System, step: Step)
    requires SystemInv(s) && Enabled(s, step, false)
    ensures SystemInv(Apply(s, step))
  {
    hide Core, ItemsOk, FulfilledOk, FinalizeTx, Cap.ReserveTx, EnsureTx, Engine.Apply, Engine.Enabled;
    match step
    case PlaceOrder(o, order) => NewOrderKeeps(s, o, order);
    case Capture(o) => OrderMoves(s, o, Paid);
    case Ensure(o) => EnsureKeepsInv(s, o);
    case EngineStep(e) => EngineStepKeeps(s, e);
    case PoolStep(p) => PoolStepKeeps(s, p);
    case SubStep(item, sub) => SubStepKeeps(s, item, sub);
    case Observe(item, o) => ObserveKeeps(s, item, o);
    case Begin(w) => BeginKeeps(s, w);
    case Reserve(w, seen) => ReserveKeeps(s, w, seen);
    case SetPlacement(w) => PlaceKeeps(s, w);
    case Persist(w) => PersistKeeps(s, w);
    case Refuse(w) => RefuseKeeps(s, w);
    case ReleaseFor(w) => ReleaseKeeps(s, w);
    case Finalize(w) => FinalizeKeeps(s, w);
  }

  lemma EngineStepKeeps(s: System, e: Engine.Step)
    requires Core(s) && Engine.Enabled(s.engine, e, false) && (e.CreateOp? ==> e.id.Random?)
    ensures Core(EngineTx(s, e))
  {
    hide Core, OpsGrow, EngineTheorems.AlwaysInv, Engine.Apply, Engine.Enabled;
    CoreParts(s);
    EngineTheorems.AlwaysInvStep(s.engine, e);
    EngineStepGrows(s.engine, e);
    EngineMoves(s, Engine.Apply(s.engine, e));
    if EndsClaim(e) { StopKeeps(s.(engine := Engine.Apply(s.engine, e)), e.w); }
  }

  lemma BeginKeeps(s: System, w: nat)
    requires Core(s) && Enabled(s, Begin(w), false)
    ensures Core(BeginTx(s, w))
  {
    assert BeginTx(s, w).jobs[w].item in s.accounts.Keys;
    JobMoves(s, w, BeginTx(s, w).jobs[w]);
  }

  lemma RefuseKeeps(s: System, w: nat)
    requires Core(s) && Enabled(s, Refuse(w), false)
    ensures Core(RefuseTx(s, w))
  {
    assert OnNode(s.pool.reservations, s.jobs[w].item, s.instances[s.jobs[w].item], s.jobs[w].rid);
    ObserveKeeps(s, s.jobs[w].item, Broken);
  }

  lemma StopKeeps(s: System, w: nat)
    requires Core(s)
    ensures Core(s.(jobs := s.jobs - {w}))
  {
    hide Cap.PoolInv, EngineTheorems.AlwaysInv, PlacedOk, ActivatedOk, ServedOk, RecordsOk;
  }

  lemma NewOrderKeeps(s: System, o: OrderId, order: Order)
    requires SystemInv(s) && o !in s.orders && order.status == Pending && order.quantity >= 1
    ensures SystemInv(s.(orders := s.orders[o := order]))
  {
    hide Core;
    CoreIgnoresOrders(s, s.orders[o := order]);
  }

  lemma {:induction false} RunKeepsInv(s: System, steps: seq<Step>)
    requires SystemInv(s) && Run(s, steps, false)
    ensures SystemInv(Exec(s, steps))
    decreases |steps|
  {
    if steps != [] {
      StepKeepsInv(s, steps[0]);
      RunKeepsInv(Apply(s, steps[0]), steps[1..]);
    }
  }

  lemma InitialInv(now: Time, grace: Time)
    ensures SystemInv(Init(now, grace))
  {
  }

  // ---------------------------------------------------------------- what a run never undoes

  function Progress(st: OrderStatus): nat {
    match st case Pending => 0 case Paid => 1 case Fulfilling => 2 case Fulfilled => 3
  }

  /** Orders only move forward and keep what was bought. */
  ghost predicate OrdersGrow(a: map<OrderId, Order>, b: map<OrderId, Order>) {
    forall o :: o in a ==>
      o in b && Progress(a[o].status) <= Progress(b[o].status) && b[o] == a[o].(status := b[o].status)
  }

  lemma MarkGrows(s: System, o: OrderId)
    ensures OrdersGrow(s.orders, MarkFulfilledIfReady(s, o).orders)
    ensures MarkFulfilledIfReady(s, o) == s.(orders := MarkFulfilledIfReady(s, o).orders)
  {
  }

  lemma AnnounceKeepsOps(e: Engine.Engine)
    ensures Announce(e).ops == e.ops
  {
  }

  lemma ActivateGrows(s: System, job: Job)
    requires job.item in s.accounts && ActivateTx(s, job).Some?
    ensures ActivateTx(s, job).value.pool == s.pool && ActivateTx(s, job).value.engine.ops == s.engine.ops
    ensures OrdersGrow(s.orders, ActivateTx(s, job).value.orders)
  {
    AnnounceKeepsOps(s.engine);
    MarkGrows(if job.snapshot == Subs.Active then s else Activated(s, job), job.item.order);
  }

  lemma CommitGrows(s: System, rid: nat)
    requires rid < |s.pool.reservations| && s.pool.reservations[rid].node in s.pool.nodes && CommitTx(s, rid).Some?
    ensures CommitTx(s, rid).value == s.(pool := CommitTx(s, rid).value.pool)
    ensures RowsGrow(s.pool.reservations, CommitTx(s, rid).value.pool.reservations)
  {
  }

  lemma FinalizeGrows(s: System, w: nat)
    requires Enabled(s, Finalize(w), false)
    ensures RowsGrow(s.pool.reservations, Apply(s, Finalize(w)).pool.reservations)
    ensures OpsGrow(s.engine.ops, Apply(s, Finalize(w)).engine.ops)
    ensures OrdersGrow(s.orders, Apply(s, Finalize(w)).orders)
  {
    var job := s.jobs[w];
    if FinalizeTx(s, job).Some? {
      CommitGrows(s, job.rid);
      ActivateGrows(CommitTx(s, job.rid).value, job);
    }
  }

  lemma EnsureGrows(s: System, o: OrderId)
    requires Core(s) && OpsNamed(s.engine.ops)
    ensures EnsureTx(s, o).pool == s.pool && OrdersGrow(s.orders, EnsureTx(s, o).orders)
    ensures OpsGrow(s.engine.ops, EnsureTx(s, o).engine.ops)
  {
    hide Core;
    if ReadyToProvision(s, o) { EnsureItemsKeeps(s, o, s.orders[o].quantity); }
  }

  lemma PoolStepGrows(s: System, step: Cap.Step)
    requires PoolStepOk(s, step)
    ensures RowsGrow(s.pool.reservations, Cap.Apply(s.pool, step).reservations)
  {
  }

  lemma NothingGrows(s: System)
    ensures RowsGrow(s.pool.reservations, s.pool.reservations)
    ensures OpsGrow(s.engine.ops, s.engine.ops) && OrdersGrow(s.orders, s.orders)
  {
  }

  lemma OrderGrows(orders: map<OrderId, Order>, o: OrderId, order: Order)
    requires o in orders ==>
      Progress(orders[o].status) <= Progress(order.status) && order == orders[o].(status := order.status)
    ensures OrdersGrow(orders, orders[o := order])
  {
  }

  lemma ReleaseGrows(p: Cap.Pool, rid: nat)
    requires Cap.RowsPlaced(p)
    ensures RowsGrow(p.reservations, Cap.ChangeStatusTx(p, rid, Cap.Released).0.reservations)
  {
  }

  lemma SystemParts(s: System)
    requires SystemInv(s)
    ensures Core(s) && OpsNamed(s.engine.ops)
  {
  }

  /** Steps that only touch accounts, instances and workflows. */
  predicate Local(step: Step) {
    step.SubStep? || step.Observe? || step.Begin? || step.SetPlacement? || step.Persist? || step.Refuse?
  }

  lemma LocalFrame(s: System, step: Step)
    requires Enabled(s, step, false) && Local(step)
    ensures var t := Apply(s, step);
            t.pool == s.pool && t.engine == s.engine && t.orders == s.orders
  {
  }

  lemma PoolFrame(s: System, step: Step)
    requires Enabled(s, step, false) && (step.PoolStep? || step.Reserve? || step.ReleaseFor?)
    ensures Apply(s, step).engine == s.engine && Apply(s, step).orders == s.orders
    ensures RowsGrow(s.pool.reservations, Apply(s, step).pool.reservations)
  {
    match step
    case PoolStep(p) => PoolStepGrows(s, p);
    case ReleaseFor(w) => ReleaseGrows(s.pool, s.jobs[w].rid);
    case Reserve(w, seen) =>
      hide Cap.ReserveTx;
      ReserveGrows(s.pool, OpOf(s.jobs[w].item), RequestOf(s.orders[s.jobs[w].item.order].plan), s.engine.now, seen);
  }

  lemma OtherFrame(s: System, step: Step)
    requires SystemInv(s) && Enabled(s, step, false)
    requires step.PlaceOrder? || step.Capture? || step.EngineStep?
    ensures Apply(s, step).pool == s.pool
    ensures OpsGrow(s.engine.ops, Apply(s, step).engine.ops) && OrdersGrow(s.orders, Apply(s, step).orders)
  {
    hide SystemInv, Engine.Apply, Engine.Enabled;
    SystemParts(s);
    NothingGrows(s);
    match step
    case PlaceOrder(o, order) => OrderGrows(s.orders, o, order);
    case Capture(o) => OrderGrows(s.orders, o, s.orders[o].(status := Paid));
    case EngineStep(e) => EngineStepGrows(s.engine, e);
  }

  lemma StepGrows(s: System, step: Step)
    requires SystemInv(s) && Enabled(s, step, false)
    ensures RowsGrow(s.pool.reservations, Apply(s, step).pool.reservations)
    ensures OpsGrow(s.engine.ops, Apply(s, step).engine.ops)
    ensures OrdersGrow(s.orders, Apply(s, step).orders)
  {
    hide SystemInv, Enabled, RowsGrow, OpsGrow, OrdersGrow, EnsureTx, Core, OpsNamed;
    NothingGrows(s);
    SystemParts(s);
    if Local(step) {
      LocalFrame(s, step);
    } else if step.PoolStep? || step.Reserve? || step.ReleaseFor? {
      PoolFrame(s, step);
    } else if step.Finalize? {
      FinalizeGrows(s, step.w);
    } else if step.Ensure? {
      EnsureGrows(s, step.o);
      assert Apply(s, step) == EnsureTx(s, step.o);
    } else {
      OtherFrame(s, step);
    }
  }

  lemma {:induction false} RunGrows(s: System, steps: seq<Step>)
    requires SystemInv(s) && Run(s, steps, false)
    ensures RowsGrow(s.pool.reservations, Exec(s, steps).pool.reservations)
    ensures OpsGrow(s.engine.ops, Exec(s, steps).engine.ops)
    ensures OrdersGrow(s.orders, Exec(s, steps).orders)
    decreases |steps|
  {
    hide SystemInv;
    if steps != [] {
      StepGrows(s, steps[0]);
      StepKeepsInv(s, steps[0]);
      RunGrows(Apply(s, steps[0]), steps[1..]);
    }
  }

  // ---------------------------------------------------------------- runs, one step at a time

  /** A run of the composed system from `s` to `t`, a fail-stop one if `failStop` is set. */
  ghost predicate Leads(s: System, t: System, failStop: bool) {
    exists steps :: Run(s, steps, failStop) && Run(s, steps, false) && Exec(s, steps) == t
  }

  lemma LeadsItself(s: System, failStop: bool)
    ensures Leads(s, s, failStop)
  {
    assert Run(s, [], failStop) && Run(s, [], false) && Exec(s, []) == s;
  }

  lemma {:induction false} RunThen(s: System, steps: seq<Step>, step: Step, failStop: bool)
    requires Run(s, steps, failStop) && Run(s, steps, false)
    requires Enabled(Exec(s, steps), step, failStop) && Enabled(Exec(s, steps), step, false)
    ensures Run(s, steps + [step], failStop) && Run(s, steps + [step], false)
    ensures Exec(s, steps + [step]) == Apply(Exec(s, steps), step)
    decreases |steps|
  {
    hide Apply, Enabled;
    if steps == [] {
      assert steps + [step] == [step] && [step][1..] == [];
      assert Run(Apply(s, step), [], failStop) && Run(Apply(s, step), [], false);
    } else {
      assert (steps + [step])[0] == steps[0] && (steps + [step])[1..] == steps[1..] + [step];
      RunThen(Apply(s, steps[0]), steps[1..], step, failStop);
    }
  }

  lemma LeadsThen(s: System, t: System, step: Step, failStop: bool)
    requires Leads(s, t, failStop) && Enabled(t, step, failStop) && Enabled(t, step, false)
    ensures Leads(s, Apply(t, step), failStop)
  {
    hide Apply, Enabled;
    var steps :| Run(s, steps, failStop) && Run(s, steps, false) && Exec(s, steps) == t;
    RunThen(s, steps, step, failStop);
    assert Exec(s, steps + [step]) == Apply(t, step);
  }

  // ---------------------------------------------------------------- main results

  /** Reachable states are those of runs from the empty system; slow workers are included. */
  ghost predicate Reaches(now: Time, grace: Time, steps: seq<Step>, s: System) {
    Run(Init(now, grace), steps, false) && s == Exec(Init(now, grace), steps)
  }

  lemma ReachableInv(now: Time, grace: Time, steps: seq<Step>, s: System)
    requires Reaches(now, grace, steps, s)
    ensures SystemInv(s)
  {
    InitialInv(now, grace);
    RunKeepsInv(Init(now, grace), steps);
  }

  /**
   * Capacity behind every activation: a purchased subscription that has left pending has a
   * committed reservation of its own provision operation, and its instance sits on that node.
   */
  lemma CapacityBehindActivation(now: Time, grace: Time, steps: seq<Step>, s: System, item: Item)
    requires Reaches(now, grace, steps, s) && item in s.accounts && s.accounts[item].row.status != Subs.Pending
    ensures item in s.instances
    ensures exists r :: (
      && 0 <= r < |s.pool.reservations| && s.pool.reservations[r].op == Provision(item.order, item.index)
      && s.pool.reservations[r].status == Cap.Committed && s.instances[item].node == Some(s.pool.reservations[r].node))
  {
    ReachableInv(now, grace, steps, s);
    assert item in s.instances by { assert item in s.accounts.Keys; }
    var r :| OnNode(s.pool.reservations, item, s.instances[item], r) && s.pool.reservations[r].status == Cap.Committed;
    assert s.pool.reservations[r].op == Provision(item.order, item.index);
  }

  /**
   * Conservation in the whole system: after any interleaving of workflows, retries, Finalize,
   * releases, expiry, heartbeats and registrations, every counter of every node is the sum of the
   * rows it counts and the two columns together never exceed the total.
   */
  lemma CountersAreSums(now: Time, grace: Time, steps: seq<Step>, s: System, n: NodeId, k: Res.Kind)
    requires Reaches(now, grace, steps, s) && n in s.pool.nodes
    ensures Res.At(s.pool.nodes[n].reserved, k) == Cap.Held(s.pool.reservations, n, Cap.Reserved, k)
    ensures Res.At(s.pool.nodes[n].inUse, k) == Cap.Held(s.pool.reservations, n, Cap.Committed, k)
    ensures Res.At(s.pool.nodes[n].inUse, k) + Res.At(s.pool.nodes[n].reserved, k) <= Res.At(s.pool.nodes[n].total, k)
  {
    ReachableInv(now, grace, steps, s);
    assert Cap.NodeConserved(s.pool, n);
    var node := s.pool.nodes[n];
    assert Res.At(Res.Plus(node.inUse, node.reserved), k) <= Res.At(node.total, k);
  }

  /** Once released or expired, a reservation never lets its subscription become active. */
  lemma LostReservationNeverActivates(
      now: Time, grace: Time, before: seq<Step>, s: System, after: seq<Step>, item: Item, r: nat)
    requires Reaches(now, grace, before, s) && Run(s, after, false)
    requires r < |s.pool.reservations| && s.pool.reservations[r].op == OpOf(item)
    requires s.pool.reservations[r].status in {Cap.Released, Cap.Expired}
    ensures item in Exec(s, after).accounts ==> Exec(s, after).accounts[item].row.status == Subs.Pending
  {
    ReachableInv(now, grace, before, s);
    RunKeepsInv(s, after);
    RunGrows(s, after);
    NoBacking(Exec(s, after), item, r);
  }

  lemma NoBacking(s: System, item: Item, r: nat)
    requires SystemInv(s) && r < |s.pool.reservations| && s.pool.reservations[r].op == OpOf(item)
    requires s.pool.reservations[r].status != Cap.Committed
    ensures item in s.accounts ==> s.accounts[item].row.status == Subs.Pending
  {
    assert item in s.accounts ==> item in s.instances.Keys;
  }

  /**
   * A reservation is expired only when its operation has finished for good: the operation's row
   * is terminal and no later step, of stale workers or otherwise, ever changes it.
   */
  lemma ExpiredOnlyWhenFinished(now: Time, grace: Time, before: seq<Step>, s: System, after: seq<Step>, r: nat)
    requires Reaches(now, grace, before, s) && Run(s, after, false)
    requires r < |s.pool.reservations| && s.pool.reservations[r].status == Cap.Expired
    ensures var op := s.pool.reservations[r].op;
            && op in s.engine.ops && Engine.Terminal(s.engine.ops[op].status)
            && op in Exec(s, after).engine.ops && Exec(s, after).engine.ops[op] == s.engine.ops[op]
            && r < |Exec(s, after).pool.reservations| && Exec(s, after).pool.reservations[r] == s.pool.reservations[r]
  {
    ReachableInv(now, grace, before, s);
    RunGrows(s, after);
  }

  /** The rows of one order. */
  ghost function ItemsOf(items: set<Item>, o: OrderId): set<Item> { set item | item in items && item.order == o }

  lemma {:induction false} ItemRange(o: OrderId, q: nat) returns (items: set<Item>)
    ensures |items| == q && forall item :: item in items <==> InRange(item, o, q)
  {
    if q == 0 {
      items := {};
    } else {
      var fewer := ItemRange(o, q - 1);
      items := fewer + {Item(o, q)};
    }
  }

  /**
   * Fulfilment is exact: an order in progress has exactly `quantity` subscriptions and instances,
   * one per index; an order not yet in progress has none; and each item's provision operation
   * exists exactly when no other operation holds its idempotency key.
   */
  lemma FulfilmentIsExact(now: Time, grace: Time, steps: seq<Step>, s: System, o: OrderId)
    requires Reaches(now, grace, steps, s) && o in s.orders
    ensures var count := if InProgress(s.orders[o].status) then s.orders[o].quantity else 0;
            && (forall item :: item in ItemsOf(s.accounts.Keys, o) <==> InRange(item, o, count))
            && |ItemsOf(s.accounts.Keys, o)| == count
            && ItemsOf(s.instances.Keys, o) == ItemsOf(s.accounts.Keys, o)
    ensures forall item :: item in ItemsOf(s.accounts.Keys, o) ==>
      (OpOf(item) in s.engine.ops <==>
        !exists id :: id in s.engine.ops && id != OpOf(item) && s.engine.ops[id].key == KeyOf(item))
  {
    ReachableInv(now, grace, steps, s);
    ItemCount(s, o);
    forall item | item in ItemsOf(s.accounts.Keys, o)
      ensures OpOf(item) in s.engine.ops <==>
        !exists id :: id in s.engine.ops && id != OpOf(item) && s.engine.ops[id].key == KeyOf(item)
    {
      OperationExistsIff(s, item);
    }
  }

  lemma ItemCount(s: System, o: OrderId)
    requires SystemInv(s) && o in s.orders
    ensures var count := if InProgress(s.orders[o].status) then s.orders[o].quantity else 0;
            && (forall item :: item in ItemsOf(s.accounts.Keys, o) <==> InRange(item, o, count))
            && |ItemsOf(s.accounts.Keys, o)| == count
            && ItemsOf(s.instances.Keys, o) == ItemsOf(s.accounts.Keys, o)
  {
    hide Cap.PoolInv, EngineTheorems.AlwaysInv;
    var count := if InProgress(s.orders[o].status) then s.orders[o].quantity else 0;
    var range := ItemRange(o, count);
    assert ItemsOf(s.accounts.Keys, o) == range;
  }

  lemma OperationExistsIff(s: System, item: Item)
    requires SystemInv(s) && item in s.accounts
    ensures OpOf(item) in s.engine.ops <==>
      !exists id :: id in s.engine.ops && id != OpOf(item) && s.engine.ops[id].key == KeyOf(item)
  {
    hide Cap.PoolInv;
    assert !Engine.KeyFree(s.engine, KeyOf(item));
    assert EngineTheorems.KeysUnique(s.engine);
  }

  /** A fulfilled order has had every one of its `quantity` subscriptions activated, on capacity. */
  lemma FulfilledMeansActivated(now: Time, grace: Time, steps: seq<Step>, s: System, o: OrderId, i: int)
    requires Reaches(now, grace, steps, s) && o in s.orders && s.orders[o].status == Fulfilled
    requires 1 <= i <= s.orders[o].quantity
    ensures Item(o, i) in s.accounts && s.accounts[Item(o, i)].row.status != Subs.Pending
    ensures Item(o, i) in s.instances && Backed(s.pool.reservations, Item(o, i), s.instances[Item(o, i)])
  {
    ReachableInv(now, grace, steps, s);
    assert Item(o, i) in s.accounts.Keys;
  }

  /** Order status only ever moves pending, paid, fulfilling, fulfilled, and nothing else changes. */
  lemma OrderStatusAdvances(now: Time, grace: Time, before: seq<Step>, s: System, after: seq<Step>)
    requires Reaches(now, grace, before, s) && Run(s, after, false)
    ensures OrdersGrow(s.orders, Exec(s, after).orders)
  {
    ReachableInv(now, grace, before, s);
    RunGrows(s, after);
  }

  // ---------------------------------------------------------------- idempotence of Ensure

  lemma {:induction false} EnsureItemsNoop(s: System, o: OrderId, count: nat)
    requires Core(s) && o in s.orders && OpsNamed(s.engine.ops)
    requires forall i :: 1 <= i <= count ==> Item(o, i) in s.accounts
    ensures EnsureItems(s, o, count) == s
  {
    hide Core, OpsNamed, EnsureItem;
    if count > 0 {
      EnsureItemsNoop(s, o, count - 1);
      EnsureItemNoop(s, Item(o, count));
    }
  }

  lemma EnsureItemNoop(s: System, item: Item)
    requires Core(s) && item.order in s.orders && OpsNamed(s.engine.ops) && item in s.accounts
    ensures EnsureItem(s, item) == s
  {
    hide Cap.PoolInv, EngineTheorems.AlwaysInv;
    assert item in s.accounts.Keys;
    assert !Engine.KeyFree(s.engine, KeyOf(item));
  }

  /** Redelivered order events are harmless: a second EnsureForPaidOrder changes nothing. */
  lemma EnsureIsIdempotent(s: System, o: OrderId)
    requires SystemInv(s)
    ensures OpsNamed(EnsureTx(s, o).engine.ops) && EnsureTx(EnsureTx(s, o), o) == EnsureTx(s, o)
  {
    var t := EnsureTx(s, o);
    EnsureKeepsInv(s, o);
    EnsureGrows(s, o);
    CoreParts(t);
    if ReadyToProvision(s, o) {
      assert InProgress(t.orders[o].status);
      assert forall i :: 1 <= i <= t.orders[o].quantity ==> Item(o, i) in t.accounts.Keys;
      EnsureItemsNoop(t, o, t.orders[o].quantity);
    }
  }

  // ---------------------------------------------------------------- the engine inside the system

  /** The engine part of the system can run from `e` to `f`. */
  ghost predicate EngineRuns(e: Engine.Engine, f: Engine.Engine, failStop: bool) {
    exists trace :: Engine.Run(e, trace, failStop) && Engine.Run(e, trace, false) && Engine.Exec(e, trace) == f
  }

  lemma EngineRests(e: Engine.Engine, failStop: bool)
    ensures EngineRuns(e, e, failStop)
  {
    assert Engine.Run(e, [], failStop) && Engine.Exec(e, []) == e;
  }

  lemma EngineRunsThen(e: Engine.Engine, f: Engine.Engine, step: Engine.Step, failStop: bool)
    requires EngineRuns(e, f, failStop) && Engine.Enabled(f, step, failStop) && Engine.Enabled(f, step, false)
    ensures EngineRuns(e, Engine.Apply(f, step), failStop)
  {
    var trace :| Engine.Run(e, trace, failStop) && Engine.Run(e, trace, false) && Engine.Exec(e, trace) == f;
    Engine.RunThen(e, trace, step, failStop);
    assert Engine.Exec(e, trace + [step]) == Engine.Apply(f, step);
  }

  lemma AnnounceRuns(e: Engine.Engine, f: Engine.Engine, failStop: bool)
    requires EngineRuns(e, f, failStop)
    ensures EngineRuns(e, Announce(f), failStop)
  {
    var first := Engine.Emit("subscription.activated.v1");
    EngineRunsThen(e, f, first, failStop);
    EngineRunsThen(e, Engine.Apply(f, first), Engine.Emit("instance.running.v1"), failStop);
  }

  lemma {:induction false} EnsureRuns(e: Engine.Engine, s: System, o: OrderId, count: nat, failStop: bool)
    requires EngineRuns(e, s.engine, failStop) && o in s.orders && OpsNamed(s.engine.ops)
    ensures EngineRuns(e, EnsureItems(s, o, count).engine, failStop)
  {
    hide EngineRuns;
    if count > 0 {
      EnsureRuns(e, s, o, count - 1, failStop);
      var t := EnsureItems(s, o, count - 1);
      if Engine.KeyFree(t.engine, KeyOf(Item(o, count))) {
        var create := Engine.CreateOp(OpOf(Item(o, count)), KeyOf(Item(o, count)), 0, MAX_RETRIES);
        EngineRunsThen(e, t.engine, create, failStop);
      }
    }
  }

  lemma FinalizeRuns(e: Engine.Engine, s: System, w: nat, failStop: bool)
    requires EngineRuns(e, s.engine, failStop) && Enabled(s, Finalize(w), false)
    ensures EngineRuns(e, Apply(s, Finalize(w)).engine, failStop)
  {
    hide EngineRuns, Announce;
    AnnounceRuns(e, s.engine, failStop);
    var job := s.jobs[w];
    if FinalizeTx(s, job).Some? {
      CommitGrows(s, job.rid);
      var t := CommitTx(s, job.rid).value;
      MarkGrows(if job.snapshot == Subs.Active then t else Activated(t, job), job.item.order);
    }
  }

  lemma StepRuns(e: Engine.Engine, s: System, step: Step, failStop: bool)
    requires EngineRuns(e, s.engine, failStop) && Enabled(s, step, failStop) && Enabled(s, step, false)
    ensures EngineRuns(e, Apply(s, step).engine, failStop)
  {
    hide EngineRuns;
    match step
    case Ensure(o) => if ReadyToProvision(s, o) { EnsureRuns(e, s, o, s.orders[o].quantity, failStop); }
    case EngineStep(estep) => EngineRunsThen(e, s.engine, estep, failStop);
    case Finalize(w) => FinalizeRuns(e, s, w, failStop);
    case _ =>
  }

  /** Whatever the whole system does, its engine takes steps of the engine's own protocol. */
  lemma {:induction false} SystemRunsEngine(e: Engine.Engine, s: System, steps: seq<Step>, failStop: bool)
    requires EngineRuns(e, s.engine, failStop) && Run(s, steps, failStop) && Run(s, steps, false)
    ensures EngineRuns(e, Exec(s, steps).engine, failStop)
    decreases |steps|
  {
    hide EngineRuns;
    if steps != [] {
      StepRuns(e, s, steps[0], failStop);
      SystemRunsEngine(e, Apply(s, steps[0]), steps[1..], failStop);
    }
  }

  /** A modest run of the engine is a run of the whole system. */
  lemma {:induction false} LiftModest(s: System, trace: seq<Engine.Step>) returns (more: seq<Step>)
    requires EngineTheorems.Modest(trace) && Engine.Run(s.engine, trace, true) && Engine.Run(s.engine, trace, false)
    ensures Run(s, more, true) && Run(s, more, false) && Exec(s, more).engine == Engine.Exec(s.engine, trace)
    decreases |trace|
  {
    hide Engine.Apply, Engine.Enabled;
    if trace == [] {
      more := [];
    } else {
      var step := EngineStep(trace[0]);
      assert EngineStepOk(s, trace[0], true) && EngineStepOk(s, trace[0], false);
      var rest := LiftModest(EngineTx(s, trace[0]), trace[1..]);
      more := [step] + rest;
      assert more[0] == step && more[1..] == rest && Apply(s, step) == EngineTx(s, trace[0]);
    }
  }

  /** Some fail-stop continuation of the whole system brings the operation to a final status. */
  ghost predicate SystemCanEnd(s: System, id: OpId) {
    exists more :: SystemEndsBy(s, id, more)
  }

  ghost predicate SystemEndsBy(s: System, id: OpId, more: seq<Step>) {
    && Run(s, more, true) && Run(s, more, false)
    && id in Exec(s, more).engine.ops && Engine.Terminal(Exec(s, more).engine.ops[id].status)
  }

  lemma EngineEndsSystem(s: System, id: OpId)
    requires EngineTheorems.CanEnd(s.engine, id)
    ensures SystemCanEnd(s, id)
  {
    hide Engine.Run, Run;
    var trace :| EngineTheorems.EndsBy(s.engine, id, trace);
    var more := LiftModest(s, trace);
    assert SystemEndsBy(s, id, more);
  }

  /**
   * With fail-stop workers no operation of the whole system is ever stranded or tried too often:
   * each has its wake-up, and some continuation of the whole system brings it to a final outcome.
   */
  lemma NoStrandedProvisioning(now: Time, grace: Time, steps: seq<Step>, s: System, id: OpId)
    requires Reaches(now, grace, steps, s) && Run(Init(now, grace), steps, true) && id in s.engine.ops
    ensures EngineTheorems.HasWakeUp(s.engine, id) && SystemCanEnd(s, id)
    ensures s.engine.ops[id].retryCount <= s.engine.ops[id].maxRetries
  {
    EngineRests(Engine.Init(now), true);
    SystemRunsEngine(Engine.Init(now), Init(now, grace), steps, true);
    var trace :| Engine.Run(Engine.Init(now), trace, true) && Engine.Run(Engine.Init(now), trace, false)
                 && Engine.Exec(Engine.Init(now), trace) == s.engine;
    EngineTheorems.NoStrandedOperation(now, trace, id);
    EngineTheorems.BoundedAttempts(now, trace, id);
    EngineEndsSystem(s, id);
  }
}
