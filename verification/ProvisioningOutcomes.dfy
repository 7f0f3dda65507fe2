/**
 * What becomes of a paid item: which operations EnsureForPaidOrder creates, what a succeeded
 * operation guarantees, and when activation writes an event too many.
 */
module ProvisioningOutcomes {
  import opened Prelude
  import opened Provisioning
  import opened ProvisioningTheorems
  import opened ProvisioningRuns
  import Engine = Operations
  import EngineTheorems = OperationTheorems
  import Cap = Capacity
  import Subs = Subscriptions
  import Res = Resources

  // ---------------------------------------------------------------- operations of an order

  lemma EnsureOpEffect(e: Engine.Engine, item: Item, other: Item)
    requires OpsNamed(e.ops)
    ensures OpOf(other) in EnsureOp(e, item).ops <==>
            OpOf(other) in e.ops || (other == item && Engine.KeyFree(e, KeyOf(item)))
    ensures Engine.KeyFree(EnsureOp(e, item), KeyOf(other)) <==> Engine.KeyFree(e, KeyOf(other)) && other != item
  {
    if Engine.KeyFree(e, KeyOf(item)) {
      var f := EnsureOp(e, item);
      assert f.ops[OpOf(item)].key == KeyOf(item);
      assert forall id :: id in e.ops ==> id in f.ops && f.ops[id] == e.ops[id];
    }
  }

  lemma {:induction false} EnsureItemsEffect(s: System, o: OrderId, count: nat, i: int)
    requires o in s.orders && OpsNamed(s.engine.ops)
    ensures OpOf(Item(o, i)) in EnsureItems(s, o, count).engine.ops <==>
            OpOf(Item(o, i)) in s.engine.ops || (1 <= i <= count && Engine.KeyFree(s.engine, KeyOf(Item(o, i))))
    ensures Engine.KeyFree(EnsureItems(s, o, count).engine, KeyOf(Item(o, i))) <==>
            Engine.KeyFree(s.engine, KeyOf(Item(o, i))) && !(1 <= i <= count)
  {
    hide Engine.KeyFree, OpsNamed;
    if count > 0 {
      EnsureItemsEffect(s, o, count - 1, i);
      EnsureOpEffect(EnsureItems(s, o, count - 1).engine, Item(o, count), Item(o, i));
    }
  }

  /** What a caller can look up before the call: the operation is there, or its key is free. */
  predicate WillHaveOperation(e: Engine.Engine, item: Item) {
    OpOf(item) in e.ops || Engine.KeyFree(e, KeyOf(item))
  }

  /** After EnsureForPaidOrder an item has its operation iff it had it, or its key was free. */
  lemma EnsureCreatesOperationIff(s: System, o: OrderId, i: int)
    requires OpsNamed(s.engine.ops) && ReadyToProvision(s, o) && 1 <= i <= s.orders[o].quantity
    ensures OpOf(Item(o, i)) in EnsureTx(s, o).engine.ops <==> WillHaveOperation(s.engine, Item(o, i))
  {
    EnsureItemsEffect(s, o, s.orders[o].quantity, i);
  }

  /** The provision operations of an order. */
  ghost function OperationsOf(ops: map<OpId, Engine.Operation>, o: OrderId): set<OpId> {
    set id | id in ops && id.Provision? && id.order == o
  }

  lemma {:induction false} OpRange(o: OrderId, q: nat) returns (ids: set<OpId>)
    ensures |ids| == q && forall id :: id in ids <==> id.Provision? && id.order == o && 1 <= id.index <= q
  {
    if q == 0 {
      ids := {};
    } else {
      var fewer := OpRange(o, q - 1);
      ids := fewer + {Provision(o, q)};
    }
  }

  lemma FullSubset(part: set<OpId>, all: set<OpId>)
    requires part <= all
    ensures |part| <= |all| && (|part| == |all| <==> part == all)
  {
    assert all == part + (all - part);
  }

  /**
   * Exactly `quantity` provision operations: after EnsureForPaidOrder the order has them all if
   * and only if, before the call, every item had its operation or a free key; never more.
   */
  lemma QuantityOperationsIff(s: System, o: OrderId)
    requires SystemInv(s) && Linked(s) && OpsNamed(s.engine.ops) && ReadyToProvision(s, o)
    ensures var q := s.orders[o].quantity;
            && |OperationsOf(EnsureTx(s, o).engine.ops, o)| <= q
            && (|OperationsOf(EnsureTx(s, o).engine.ops, o)| == q <==>
                forall i :: 1 <= i <= q ==> WillHaveOperation(s.engine, Item(o, i)))
  {
    hide Core, FulfilledOk, WillHaveOperation, EnsureTx;
    var q := s.orders[o].quantity;
    var ids := OpRange(o, q);
    var made := OperationsOf(EnsureTx(s, o).engine.ops, o);
    forall id | id in made ensures id in ids { EnsureStaysInRange(s, o, id); }
    FullSubset(made, ids);
    forall i | 1 <= i <= q ensures OpOf(Item(o, i)) in made <==> WillHaveOperation(s.engine, Item(o, i)) {
      EnsureCreatesOperationIff(s, o, i);
    }
    if forall i :: 1 <= i <= q ==> WillHaveOperation(s.engine, Item(o, i)) {
      forall id | id in ids ensures id in made { assert id == OpOf(Item(o, id.index)); }
      assert made == ids;
    } else {
      var i :| 1 <= i <= q && !WillHaveOperation(s.engine, Item(o, i));
      assert OpOf(Item(o, i)) in ids && OpOf(Item(o, i)) !in made;
    }
  }

  lemma EnsureStaysInRange(s: System, o: OrderId, id: OpId)
    requires SystemInv(s) && Linked(s) && OpsNamed(s.engine.ops) && ReadyToProvision(s, o)
    requires id in OperationsOf(EnsureTx(s, o).engine.ops, o)
    ensures 1 <= id.index <= s.orders[o].quantity
  {
    hide Core, FulfilledOk, Engine.KeyFree;
    EnsureItemsEffect(s, o, s.orders[o].quantity, id.index);
    assert id == OpOf(Item(o, id.index));
    if id in s.engine.ops { assert Item(o, id.index) in s.accounts.Keys; }
  }

  /** No later step repairs or undoes it: an existing item keeps or lacks its operation for good. */
  lemma OperationIsSettled(s: System, steps: seq<Step>, item: Item)
    requires SystemInv(s) && Run(s, steps, false) && item in s.accounts
    ensures OpOf(item) in Exec(s, steps).engine.ops <==> OpOf(item) in s.engine.ops
  {
    RunKeepsInv(s, steps);
    RunGrows(s, steps);
    if OpOf(item) !in s.engine.ops { ForeignKeyStays(s, Exec(s, steps), item); }
  }

  lemma ForeignKeyStays(s: System, t: System, item: Item)
    requires SystemInv(s) && SystemInv(t) && OpsGrow(s.engine.ops, t.engine.ops)
    requires item in s.accounts && OpOf(item) !in s.engine.ops
    ensures OpOf(item) !in t.engine.ops
  {
    hide Cap.PoolInv, PlacedOk, JobsOk, ActivatedOk, RecordsOk, ItemsOk, FulfilledOk, ExpiredOk;
    assert !Engine.KeyFree(s.engine, KeyOf(item));
    var id :| id in s.engine.ops && s.engine.ops[id].key == KeyOf(item);
    assert t.engine.ops[id].key == KeyOf(item);
    assert EngineTheorems.KeysUnique(t.engine);
  }

  function OneItem(status: OrderStatus): Order {
    Order(status, 0, 1, Plan(Some(0), Res.Res(1, 1, 1, 0, 0, 0), "kvm", Subs.Monthly, Price(500, "USD")))
  }

  /** The run in which a client's operation already holds the key of the only item of an order. */
  function ForeignKeyRun(): seq<Step> {
    [PlaceOrder(0, OneItem(Pending)), EngineStep(Engine.CreateOp(Random(0), ProvisionKey(0, 1), 0, 3)),
     Capture(0), Ensure(0)]
  }

  /** It ends with a subscription and an instance that no operation will ever provision. */
  lemma ForeignKeyLosesOperation(now: Time, grace: Time)
    ensures Run(Init(now, grace), ForeignKeyRun(), true) && Run(Init(now, grace), ForeignKeyRun(), false)
    ensures var s := Exec(Init(now, grace), ForeignKeyRun());
            && 0 in s.orders && s.orders[0].status == Fulfilling && s.orders[0].quantity == 1
            && Item(0, 1) in s.accounts && Item(0, 1) in s.instances && Provision(0, 1) !in s.engine.ops
  {
    hide Apply, Enabled;
    var steps := ForeignKeyRun();
    var c, d := ForeignKeyStates(now, grace);
    assert Run(d, [], true) && Run(d, [], false) && Exec(d, []) == d;
    assert steps[3..][1..] == [] && steps[2..][1..] == steps[3..] && steps[1..][1..] == steps[2..];
    assert Run(c, steps[3..], true) && Run(c, steps[3..], false) && Exec(c, steps[3..]) == d;
    var a := Apply(Init(now, grace), steps[0]);
    var b := Apply(a, steps[1]);
    assert Run(b, steps[2..], true) && Run(b, steps[2..], false) && Exec(b, steps[2..]) == d;
    assert Run(a, steps[1..], true) && Run(a, steps[1..], false) && Exec(a, steps[1..]) == d;
  }

  lemma ForeignKeyStates(now: Time, grace: Time) returns (c: System, d: System)
    ensures var s, steps := Init(now, grace), ForeignKeyRun();
            && Enabled(s, steps[0], true) && Enabled(s, steps[0], false)
            && var a := Apply(s, steps[0]);
            && Enabled(a, steps[1], true) && Enabled(a, steps[1], false)
            && var b := Apply(a, steps[1]);
            && Enabled(b, steps[2], true) && Enabled(b, steps[2], false) && c == Apply(b, steps[2])
            && Enabled(c, steps[3], true) && Enabled(c, steps[3], false) && d == Apply(c, steps[3])
    ensures 0 in d.orders && d.orders[0] == OneItem(Fulfilling)
    ensures Item(0, 1) in d.accounts && Item(0, 1) in d.instances && Provision(0, 1) !in d.engine.ops
  {
    hide EnsureTx;
    var steps := ForeignKeyRun();
    var a := Apply(Init(now, grace), steps[0]);
    var b := Apply(a, steps[1]);
    assert b.engine.ops[Random(0)].key == ProvisionKey(0, 1);
    c := Apply(b, steps[2]);
    assert !Engine.KeyFree(c.engine, KeyOf(Item(0, 1)));
    EnsureSkips(c);
    d := Apply(c, steps[3]);
  }

  /** With its key taken, the item gets its rows but no operation. */
  lemma EnsureSkips(s: System)
    requires 0 in s.orders && s.orders[0] == OneItem(Paid) && OpsNamed(s.engine.ops)
    requires !Engine.KeyFree(s.engine, KeyOf(Item(0, 1)))
    ensures var t := EnsureTx(s, 0);
            && 0 in t.orders && t.orders[0] == OneItem(Fulfilling) && t.engine == s.engine
            && Item(0, 1) in t.accounts && Item(0, 1) in t.instances
  {
    assert EnsureItems(s, 0, 1) == EnsureItem(EnsureItems(s, 0, 0), Item(0, 1)) == EnsureItem(s, Item(0, 1));
  }

  // ---------------------------------------------------------------- workers, jobs and operations

  function ItemOf(id: OpId): Item
    requires id.Provision?
  {
    Item(id.order, id.index)
  }

  /** Every provision operation has its item, and one that succeeded has it activated. */
  ghost predicate OpsOwned(ops: map<OpId, Engine.Operation>, accounts: map<Item, Subs.Account>) {
    forall id :: id in ops && id.Provision? ==>
      ItemOf(id) in accounts && (ops[id].status == Engine.Succeeded ==> accounts[ItemOf(id)].row.status != Subs.Pending)
  }

  /** Every workflow runs under its worker's claim of its own operation. */
  ghost predicate JobsLive(jobs: map<nat, Job>, live: map<nat, Engine.Execution>) {
    forall w :: w in jobs ==> w in live && live[w].op == OpOf(jobs[w].item)
  }

  /** A workflow that saw an activated subscription, or finalized one, has an activated one. */
  ghost predicate SnapshotsOk(jobs: map<nat, Job>, accounts: map<Item, Subs.Account>) {
    forall w :: w in jobs ==>
      && jobs[w].item in accounts
      && (jobs[w].snapshot != Subs.Pending || jobs[w].stage == Finalized ==>
            accounts[jobs[w].item].row.status != Subs.Pending)
      && (jobs[w].snapshot == Subs.Cancelled ==> accounts[jobs[w].item].row.status == Subs.Cancelled)
  }

  ghost predicate Linked(s: System) {
    OpsOwned(s.engine.ops, s.accounts) && JobsLive(s.jobs, s.engine.live) && SnapshotsOk(s.jobs, s.accounts)
  }

  /** Accounts are never removed, none goes back to pending, and a cancelled one stays cancelled. */
  ghost predicate AccountsGrow(a: map<Item, Subs.Account>, b: map<Item, Subs.Account>) {
    forall x :: x in a ==>
      && x in b
      && (a[x].row.status != Subs.Pending ==> b[x].row.status != Subs.Pending)
      && (a[x].row.status == Subs.Cancelled ==> b[x].row.status == Subs.Cancelled)
  }

  lemma AccountsMove(s: System, accounts: map<Item, Subs.Account>)
    requires Linked(s) && AccountsGrow(s.accounts, accounts)
    ensures Linked(s.(accounts := accounts))
  {
  }

  lemma JobAdvances(s: System, w: nat, stage: Stage, rid: nat)
    requires Linked(s) && w in s.jobs
    requires stage == Finalized ==> s.accounts[s.jobs[w].item].row.status != Subs.Pending
    ensures Linked(s.(jobs := s.jobs[w := s.jobs[w].(stage := stage, rid := rid)]))
  {
  }

  // What an engine step can do to workers and to success.

  lemma WorkersStay(e: Engine.Engine, step: Engine.Step, w: nat)
    requires Engine.Enabled(e, step, false) && w in e.live && !(EndsClaim(step) && step.w == w)
    ensures w in Engine.Apply(e, step).live && Engine.Apply(e, step).live[w] == e.live[w]
  {
  }

  lemma SuccessIsFinish(e: Engine.Engine, step: Engine.Step, id: OpId)
    requires Engine.Enabled(e, step, false) && id in Engine.Apply(e, step).ops
    requires Engine.Apply(e, step).ops[id].status == Engine.Succeeded
    ensures id in e.ops
    ensures e.ops[id].status == Engine.Succeeded
            || (step.Finish? && step.outcome == Engine.Success && e.live[step.w].op == id)
  {
    if EngineTheorems.Target(e, step) != Some(id) { EngineTheorems.OthersUntouched(e, step, id); }
  }

  lemma EngineKeepsLinked(s: System, e: Engine.Step)
    requires Linked(s) && EngineStepOk(s, e, false)
    ensures Linked(EngineTx(s, e))
  {
    hide Engine.Apply, Engine.Enabled;
    EngineTheorems.KeysStay(s.engine, e);
    var t := EngineTx(s, e);
    forall w | w in t.jobs ensures w in t.engine.live && t.engine.live[w].op == OpOf(t.jobs[w].item) {
      WorkersStay(s.engine, e, w);
    }
    forall id | id in t.engine.ops && id.Provision?
      ensures ItemOf(id) in s.accounts
      ensures t.engine.ops[id].status == Engine.Succeeded ==> s.accounts[ItemOf(id)].row.status != Subs.Pending
    {
      assert id in s.engine.ops;
      if t.engine.ops[id].status == Engine.Succeeded { SuccessIsFinish(s.engine, e, id); }
    }
  }

  lemma EnsureKeepsLinked(s: System, o: OrderId)
    requires Core(s) && Linked(s) && OpsNamed(s.engine.ops)
    ensures Linked(EnsureTx(s, o))
  {
    if ReadyToProvision(s, o) { EnsureItemsLinked(s, o, s.orders[o].quantity); }
  }

  lemma {:induction false} EnsureItemsLinked(s: System, o: OrderId, count: nat)
    requires Core(s) && Linked(s) && o in s.orders && OpsNamed(s.engine.ops)
    ensures Linked(EnsureItems(s, o, count)) && Core(EnsureItems(s, o, count))
  {
    hide Core, Linked, OpsNamed, EnsureItem;
    if count > 0 {
      var t := EnsureItems(s, o, count - 1);
      EnsureItemsLinked(s, o, count - 1);
      EnsureItemKeeps(t, Item(o, count));
      EnsureItemLinked(t, Item(o, count));
    }
  }

  lemma EnsureItemLinked(s: System, item: Item)
    requires Linked(s) && item.order in s.orders && OpsNamed(s.engine.ops)
    ensures Linked(EnsureItem(s, item))
  {
    EnsureOpFrame(s.engine, item);
  }

  lemma EnsureOpFrame(e: Engine.Engine, item: Item)
    requires OpsNamed(e.ops)
    ensures EnsureOp(e, item).live == e.live
    ensures forall id :: id in EnsureOp(e, item).ops ==>
              if id in e.ops then EnsureOp(e, item).ops[id] == e.ops[id]
              else id == OpOf(item) && EnsureOp(e, item).ops[id].status == Engine.Queued
  {
  }

  /** The account of a workflow's item after its Finalize went through. */
  function FinalAccount(s: System, w: nat): Subs.Account
    requires w in s.jobs && s.jobs[w].item in s.accounts
  {
    Subs.Apply(s.accounts[s.jobs[w].item], Subs.Finalize(s.jobs[w].snapshot, s.engine.now), s.grace)
  }

  /** Finalize leaves its own item activated and changes no other account. */
  lemma FinalizeFrame(s: System, w: nat)
    requires Enabled(s, Finalize(w), false) && FinalizeTx(s, s.jobs[w]).Some?
    ensures var t := FinalizeTx(s, s.jobs[w]).value;
            && t.engine.ops == s.engine.ops && t.engine.live == s.engine.live && t.jobs == s.jobs
            && t.accounts == s.accounts[s.jobs[w].item := FinalAccount(s, w)]
            && (s.jobs[w].snapshot == Subs.Active ==> FinalAccount(s, w) == s.accounts[s.jobs[w].item])
            && (s.jobs[w].snapshot != Subs.Active ==>
                  FinalAccount(s, w).row.status == Subs.Active && Subs.Activatable(s.accounts[s.jobs[w].item].row))
  {
    var job := s.jobs[w];
    CommitGrows(s, job.rid);
    var t := CommitTx(s, job.rid).value;
    MarkGrows(if job.snapshot == Subs.Active then t else Activated(t, job), job.item.order);
  }

  // What Finalize does, in terms of the rows it finds.

  predicate Usable(st: Cap.ReservationStatus) { st == Cap.Reserved || st == Cap.Committed }

  /** A subscription that was pending starts its first period now; an active one stays as it is. */
  predicate FirstPeriod(was: Subs.Account, a: Subs.Account, now: Time) {
    && a.events == was.events + [Subs.Activated]
    && (was.row.status == Subs.Active ==> a.row == was.row)
    && (was.row.status == Subs.Pending ==>
          && a.row == was.row.(status := Subs.Active, startedAt := Some(now), periodStart := Some(now),
                               periodEnd := a.row.periodEnd, nextDueAt := a.row.periodEnd,
                               version := was.row.version + 1)
          && a.row.periodEnd.Some? && Subs.CycleLater(was.row.cycle, now, a.row.periodEnd.value))
  }

  /** The order is fulfilled once all its subscriptions are active, and otherwise left alone. */
  ghost predicate FulfilledIfComplete(s: System, t: System, o: OrderId) {
    if o in s.orders && s.orders[o].status != Pending
       && forall x :: x in t.accounts && x.order == o ==> t.accounts[x].row.status == Subs.Active
    then t.orders == s.orders[o := s.orders[o].(status := Fulfilled)]
    else t.orders == s.orders
  }

  ghost predicate FinalizeWritten(s: System, t: System, job: Job)
    requires job.rid < |s.pool.reservations| && job.item in s.accounts
  {
    && t.pool.reservations == s.pool.reservations[job.rid := s.pool.reservations[job.rid].(status := Cap.Committed)]
    && t.instances == s.instances && t.engine.ops == s.engine.ops && t.engine.live == s.engine.live
    && FulfilledIfComplete(s, t, job.item.order)
    && (if job.snapshot == Subs.Active then t.accounts == s.accounts && t.engine == s.engine
        else
          && job.item in t.accounts && t.accounts == s.accounts[job.item := t.accounts[job.item]]
          && FirstPeriod(s.accounts[job.item], t.accounts[job.item], s.engine.now)
          && t.engine.outbox == s.engine.outbox
               + [Engine.Fresh(Engine.Domain("subscription.activated.v1"), s.engine.now),
                  Engine.Fresh(Engine.Domain("instance.running.v1"), s.engine.now)])
  }

  /** Finalize goes through exactly on usable capacity and a subscription that can be active. */
  lemma FinalizeVerdict(s: System, job: Job)
    requires job.rid < |s.pool.reservations| && s.pool.reservations[job.rid].node in s.pool.nodes
    requires job.item in s.accounts && Subs.RecordOk(s.accounts[job.item].row, s.grace)
    ensures FinalizeTx(s, job).Some? <==>
      && Usable(s.pool.reservations[job.rid].status)
      && (job.snapshot == Subs.Active || s.accounts[job.item].row.status in {Subs.Pending, Subs.Active})
    ensures FinalizeTx(s, job).Some? ==> FinalizeWritten(s, FinalizeTx(s, job).value, job)
  {
    hide Subs.Apply, Subs.RecordOk, FirstPeriod;
    if CommitTx(s, job.rid).Some? {
      var c := CommitTx(s, job.rid).value;
      CommitGrows(s, job.rid);
      var row := s.pool.reservations[job.rid];
      assert c.pool.reservations == s.pool.reservations[job.rid := row.(status := Cap.Committed)];
      if job.snapshot == Subs.Active {
        MarkVerdict(c, job.item.order);
      } else if Subs.Activatable(s.accounts[job.item].row) {
        StartedByFinalize(s.accounts[job.item], job.snapshot, s.engine.now, s.grace);
        AnnounceVerdict(s.engine);
        MarkVerdict(Activated(c, job), job.item.order);
      }
    }
  }

  lemma StartedByFinalize(a: Subs.Account, snapshot: Subs.Status, now: Time, grace: Time)
    requires Subs.RecordOk(a.row, grace) && snapshot != Subs.Active && Subs.Activatable(a.row)
    ensures FirstPeriod(a, Subs.Apply(a, Subs.Finalize(snapshot, now), grace), now)
  {
    hide Subs.Apply, Subs.CycleLater;
    Subs.ActivationStarts(a, snapshot, now, grace);
  }

  lemma AnnounceVerdict(e: Engine.Engine)
    ensures var f := Announce(e);
            && f.ops == e.ops && f.live == e.live
            && f.outbox == e.outbox + [Engine.Fresh(Engine.Domain("subscription.activated.v1"), e.now),
                                       Engine.Fresh(Engine.Domain("instance.running.v1"), e.now)]
  {
  }

  lemma MarkVerdict(s: System, o: OrderId)
    ensures var t := MarkFulfilledIfReady(s, o);
            t == s.(orders := t.orders) && FulfilledIfComplete(s, t, o)
  {
  }

  lemma FinalizeKeepsLinked(s: System, w: nat)
    requires Linked(s) && Enabled(s, Finalize(w), false)
    ensures Linked(Apply(s, Finalize(w)))
  {
    hide FinalizeTx, Subs.Apply;
    if FinalizeTx(s, s.jobs[w]).Some? {
      FinalizeFrame(s, w);
      var t := FinalizeTx(s, s.jobs[w]).value;
      AccountsMove(s, t.accounts);
      JobAdvances(s.(accounts := t.accounts), w, Finalized, s.jobs[w].rid);
    }
  }

  /** Placing, pool and status steps are none of Linked's business. */
  lemma LinkedFrame(s: System, t: System)
    requires Linked(s) && t.engine == s.engine && t.accounts == s.accounts && t.jobs == s.jobs
    ensures Linked(t)
  {
  }

  lemma SubKeepsLinked(s: System, item: Item, sub: Subs.Step)
    requires Linked(s) && item in s.accounts && !sub.Finalize?
    ensures Linked(s.(accounts := s.accounts[item := Subs.Apply(s.accounts[item], sub, s.grace)]))
  {
    hide Linked;
    AccountsMove(s, s.accounts[item := Subs.Apply(s.accounts[item], sub, s.grace)]);
  }

  lemma AdvanceKeepsLinked(s: System, t: System, w: nat, stage: Stage)
    requires Linked(s) && w in s.jobs && stage != Finalized && t.engine == s.engine && t.accounts == s.accounts
    requires t.jobs == s.jobs[w := s.jobs[w].(stage := stage)]
    ensures Linked(t)
  {
    JobAdvances(s, w, stage, s.jobs[w].rid);
  }

  lemma ReserveKeepsLinked(s: System, w: nat, seen: Option<nat>)
    requires Linked(s) && HasGroup(s, w)
    ensures Linked(ReserveTx(s, w, seen))
  {
    hide Cap.ReserveTx;
    var t := ReserveTx(s, w, seen);
    if t.jobs != s.jobs { JobAdvances(s, w, HasReservation, t.jobs[w].rid); }
  }

  lemma BeginKeepsLinked(s: System, w: nat)
    requires Linked(s) && Enabled(s, Begin(w), false)
    ensures Linked(BeginTx(s, w))
  {
  }

  lemma StepKeepsLinked(s: System, step: Step)
    requires Core(s) && Linked(s) && Enabled(s, step, false)
    ensures Linked(Apply(s, step))
  {
    hide Core, Linked, Cap.ReserveTx, FinalizeTx, EnsureTx, EngineTx, Subs.Apply;
    match step
    case Ensure(o) => EnsureKeepsLinked(s, o);
    case EngineStep(e) => EngineKeepsLinked(s, e);
    case SubStep(item, sub) => SubKeepsLinked(s, item, sub);
    case Begin(w) => BeginKeepsLinked(s, w);
    case Reserve(w, seen) => ReserveKeepsLinked(s, w, seen);
    case SetPlacement(w) => AdvanceKeepsLinked(s, Apply(s, step), w, Placed);
    case Persist(w) => AdvanceKeepsLinked(s, Apply(s, step), w, Verified);
    case Finalize(w) => FinalizeKeepsLinked(s, w);
    case _ => LinkedFrame(s, Apply(s, step));
  }

  lemma {:induction false} RunKeepsLinked(s: System, steps: seq<Step>)
    requires SystemInv(s) && Linked(s) && Run(s, steps, false)
    ensures Linked(Exec(s, steps))
    decreases |steps|
  {
    hide Core, ItemsOk, FulfilledOk, Linked, Apply;
    if steps != [] {
      StepKeepsInv(s, steps[0]);
      StepKeepsLinked(s, steps[0]);
      RunKeepsLinked(Apply(s, steps[0]), steps[1..]);
    }
  }

  lemma ReachableLinked(now: Time, grace: Time, steps: seq<Step>, s: System)
    requires Reaches(now, grace, steps, s)
    ensures SystemInv(s) && Linked(s)
  {
    InitialInv(now, grace);
    ReachableInv(now, grace, steps, s);
    RunKeepsLinked(Init(now, grace), steps);
  }

  /**
   * End to end: a provision operation that succeeded has its subscription activated and its
   * instance on the node of its own committed reservation, whatever ran in between.
   */
  lemma SucceededMeansActivated(now: Time, grace: Time, steps: seq<Step>, s: System, item: Item)
    requires Reaches(now, grace, steps, s)
    requires OpOf(item) in s.engine.ops && s.engine.ops[OpOf(item)].status == Engine.Succeeded
    ensures item in s.accounts && s.accounts[item].row.status != Subs.Pending
    ensures item in s.instances && Backed(s.pool.reservations, item, s.instances[item])
  {
    ReachableLinked(now, grace, steps, s);
    assert ItemOf(OpOf(item)) == item && item in s.accounts.Keys;
  }

  // ---------------------------------------------------------------- versions and events

  /** A Finalize whose workflow started before the subscription became active and lands after it. */
  ghost predicate RedundantStep(s: System, step: Step, item: Item)
    requires Enabled(s, step, false)
  {
    && step.Finalize? && s.jobs[step.w].item == item
    && s.jobs[step.w].snapshot != Subs.Active && s.accounts[item].row.status == Subs.Active
  }

  /** By how much the events of a subscription exceed its version increments. */
  function Excess(accounts: map<Item, Subs.Account>, item: Item): int {
    if item in accounts then |accounts[item].events| + 1 - accounts[item].row.version else 0
  }

  lemma ExcessOfStep(a: Subs.Account, step: Subs.Step, grace: Time)
    ensures var b := Subs.Apply(a, step, grace);
            |b.events| - b.row.version == |a.events| - a.row.version + if Subs.Redundant(a.row, step) then 1 else 0
  {
    Subs.StepPairsVersion(a, step, grace);
  }

  lemma {:induction false} EnsureExcess(s: System, o: OrderId, count: nat, item: Item)
    requires o in s.orders && OpsNamed(s.engine.ops)
    ensures Excess(EnsureItems(s, o, count).accounts, item) == Excess(s.accounts, item)
  {
    hide EnsureOp, OpsNamed;
    if count > 0 { EnsureExcess(s, o, count - 1, item); }
  }

  /** A step writes one event more than version increments exactly when it is redundant. */
  lemma StepExcess(s: System, step: Step, item: Item)
    requires SystemInv(s) && Enabled(s, step, false)
    ensures Excess(Apply(s, step).accounts, item)
              == Excess(s.accounts, item) + if RedundantStep(s, step, item) then 1 else 0
  {
    hide SystemInv, FinalizeTx, Cap.ReserveTx, Subs.Apply, EnsureItems;
    match step
    case Ensure(o) => if ReadyToProvision(s, o) { EnsureExcess(s, o, s.orders[o].quantity, item); }
    case SubStep(x, sub) => ExcessOfStep(s.accounts[x], sub, s.grace);
    case Finalize(w) =>
      if RedundantStep(s, step, item) { RedundantGoesThrough(s, w); }
      if FinalizeTx(s, s.jobs[w]).Some? {
        FinalizeFrame(s, w);
        ExcessOfStep(s.accounts[s.jobs[w].item], Subs.Finalize(s.jobs[w].snapshot, s.engine.now), s.grace);
      }
    case _ =>
  }

  /** An active subscription has its reservation committed, so such a Finalize is never refused. */
  lemma RedundantGoesThrough(s: System, w: nat)
    requires AtStage(s, w, Verified) && Holds(s, w) && s.jobs[w].snapshot != Subs.Active
    requires s.accounts[s.jobs[w].item].row.status == Subs.Active
    requires SystemInv(s)
    ensures FinalizeTx(s, s.jobs[w]).Some?
  {
    hide SystemInv, Announce;
    ActivatedIsCommitted(s, w);
    assert CommitTx(s, s.jobs[w].rid) == Some(s);
    assert ActivateTx(s, s.jobs[w]).Some?;
  }

  lemma ActivatedIsCommitted(s: System, w: nat)
    requires SystemInv(s) && AtStage(s, w, Verified) && s.accounts[s.jobs[w].item].row.status != Subs.Pending
    ensures s.jobs[w].rid < |s.pool.reservations| && s.pool.reservations[s.jobs[w].rid].status == Cap.Committed
  {
    hide Cap.PoolInv, EngineTheorems.AlwaysInv, ServedOk, RecordsOk, ItemsOk, FulfilledOk, ExpiredOk, PlacedOk;
    var job := s.jobs[w];
    assert Backed(s.pool.reservations, job.item, s.instances[job.item]);
    var r :| OnNode(s.pool.reservations, job.item, s.instances[job.item], r)
             && s.pool.reservations[r].status == Cap.Committed;
    OneRow(s, r, job.rid);
  }

  ghost function RedundantSteps(s: System, steps: seq<Step>, item: Item): nat
    requires Run(s, steps, false)
    decreases |steps|
  {
    if steps == [] then 0
    else (if RedundantStep(s, steps[0], item) then 1 else 0) + RedundantSteps(Apply(s, steps[0]), steps[1..], item)
  }

  /** Over any run the excess grows by exactly the number of redundant Finalize steps. */
  lemma {:induction false} ExcessIsRedundancy(s: System, steps: seq<Step>, item: Item)
    requires SystemInv(s) && Run(s, steps, false)
    ensures Excess(Exec(s, steps).accounts, item) == Excess(s.accounts, item) + RedundantSteps(s, steps, item)
    decreases |steps|
  {
    hide SystemInv, Apply, RedundantStep, Excess;
    if steps != [] {
      StepExcess(s, steps[0], item);
      StepKeepsInv(s, steps[0]);
      ExcessIsRedundancy(Apply(s, steps[0]), steps[1..], item);
    }
  }

  /** In every reachable state: version increments paired with events, but for redundant Finalizes. */
  lemma VersionsPairedInSystem(now: Time, grace: Time, steps: seq<Step>, s: System, item: Item)
    requires Reaches(now, grace, steps, s) && item in s.accounts
    ensures |s.accounts[item].events| + 1
      == s.accounts[item].row.version + RedundantSteps(Init(now, grace), steps, item)
  {
    InitialInv(now, grace);
    ExcessIsRedundancy(Init(now, grace), steps, item);
  }

  /** A workflow that saw a pending subscription and has not finalized still has a pending one. */
  ghost predicate SnapshotsFresh(jobs: map<nat, Job>, accounts: map<Item, Subs.Account>) {
    forall w :: w in jobs && jobs[w].item in accounts
                && jobs[w].snapshot == Subs.Pending && jobs[w].stage != Finalized ==>
      accounts[jobs[w].item].row.status == Subs.Pending
  }

  lemma FinalizeKeepsFresh(s: System, w: nat)
    requires Linked(s) && SnapshotsFresh(s.jobs, s.accounts) && EngineTheorems.LiveOk(s.engine)
    requires Enabled(s, Finalize(w), false)
    ensures SnapshotsFresh(Apply(s, Finalize(w)).jobs, Apply(s, Finalize(w)).accounts)
  {
    hide FinalizeTx, Subs.Apply, Subs.Activatable;
    if FinalizeTx(s, s.jobs[w]).Some? {
      FinalizeFrame(s, w);
      assert forall v :: v in s.jobs && s.jobs[v].item == s.jobs[w].item ==> v == w;
    }
  }

  lemma EnsureKeepsFresh(s: System, o: OrderId)
    requires Core(s) && Linked(s) && SnapshotsFresh(s.jobs, s.accounts) && OpsNamed(s.engine.ops)
    ensures SnapshotsFresh(EnsureTx(s, o).jobs, EnsureTx(s, o).accounts)
  {
    hide Core, OpsGrow;
    if ReadyToProvision(s, o) { EnsureItemsKeeps(s, o, s.orders[o].quantity); }
  }

  lemma StepKeepsFresh(s: System, step: Step)
    requires Core(s) && Linked(s) && SnapshotsFresh(s.jobs, s.accounts) && EngineTheorems.LiveOk(s.engine)
    requires Enabled(s, step, false)
    ensures SnapshotsFresh(Apply(s, step).jobs, Apply(s, step).accounts)
  {
    hide Core, Cap.ReserveTx, FinalizeTx, EnsureItems, EngineTheorems.LiveOk, Engine.Apply;
    match step
    case Ensure(o) => EnsureKeepsFresh(s, o);
    case Finalize(w) => FinalizeKeepsFresh(s, w);
    case _ =>
  }

  lemma EngineReachesLiveOk(now: Time, e: Engine.Engine)
    requires EngineRuns(Engine.Init(now), e, true)
    ensures EngineTheorems.LiveOk(e)
  {
    var trace :| Engine.Run(Engine.Init(now), trace, true) && Engine.Run(Engine.Init(now), trace, false)
                 && Engine.Exec(Engine.Init(now), trace) == e;
    EngineTheorems.FailStopInvRun(Engine.Init(now), trace);
  }

  lemma {:induction false} FailStopKeepsFresh(now: Time, s: System, steps: seq<Step>)
    requires SystemInv(s) && Linked(s) && SnapshotsFresh(s.jobs, s.accounts)
    requires EngineRuns(Engine.Init(now), s.engine, true)
    requires Run(s, steps, true) && Run(s, steps, false)
    ensures SnapshotsFresh(Exec(s, steps).jobs, Exec(s, steps).accounts)
    decreases |steps|
  {
    hide Core, ItemsOk, FulfilledOk, Linked, SnapshotsFresh, EngineRuns, Apply, Enabled;
    if steps != [] {
      EngineReachesLiveOk(now, s.engine);
      StepKeepsInv(s, steps[0]);
      StepKeepsLinked(s, steps[0]);
      StepKeepsFresh(s, steps[0]);
      StepRuns(Engine.Init(now), s, steps[0], true);
      FailStopKeepsFresh(now, Apply(s, steps[0]), steps[1..]);
    }
  }

  /**
   * With workers that stop, a Finalize is redundant only if its workflow saw the subscription
   * past due or suspended and a renewal has made it active again since.
   */
  lemma RedundantOnlyAfterLapse(now: Time, grace: Time, steps: seq<Step>, s: System, w: nat)
    requires Reaches(now, grace, steps, s) && Run(Init(now, grace), steps, true)
    requires Enabled(s, Finalize(w), false) && RedundantStep(s, Finalize(w), s.jobs[w].item)
    ensures s.jobs[w].snapshot in {Subs.PastDue, Subs.Suspended}
  {
    hide SystemInv, Linked, SnapshotsFresh, EngineRuns, RedundantStep, Enabled;
    ReachableLinked(now, grace, steps, s);
    assert SystemInv(Init(now, grace)) && Linked(Init(now, grace)) by { InitialLinked(now, grace); }
    EngineRests(Engine.Init(now), true);
    NothingStale(now, grace);
    FailStopKeepsFresh(now, Init(now, grace), steps);
    FreshMeansLapsed(s, w);
  }

  lemma InitialLinked(now: Time, grace: Time)
    ensures SystemInv(Init(now, grace)) && Linked(Init(now, grace))
  {
    InitialInv(now, grace);
  }

  lemma NothingStale(now: Time, grace: Time)
    ensures SnapshotsFresh(Init(now, grace).jobs, Init(now, grace).accounts)
  {
  }

  lemma FreshMeansLapsed(s: System, w: nat)
    requires Linked(s) && SnapshotsFresh(s.jobs, s.accounts)
    requires Enabled(s, Finalize(w), false) && RedundantStep(s, Finalize(w), s.jobs[w].item)
    ensures s.jobs[w].snapshot in {Subs.PastDue, Subs.Suspended}
  {
    hide FinalizeTx;
  }
}
