/**
 * What was bought is what is delivered: subscriptions carry the terms of their order, reservations
 * have the size of its plan, and EnsureForPaidOrder writes exactly the rows an item needs.
 */
module ProvisioningTerms {
  import opened Prelude
  import opened Provisioning
  import opened ProvisioningTheorems
  import opened ProvisioningRuns
  import opened ProvisioningOutcomes
  import Engine = Operations
  import Cap = Capacity
  import Subs = Subscriptions

  // ---------------------------------------------------------------- rows of a new item

  /** The rows of a newly ensured item. */
  ghost predicate Opened(t: System, item: Item, order: Order) {
    && item in t.accounts && item in t.instances && t.instances[item] == Instance(None, ToCreate)
    && t.accounts[item].events == [] && t.accounts[item].row.version == 1 && t.accounts[item].row.status == Subs.Pending
    && t.accounts[item].row.owner == order.owner && t.accounts[item].row.price == order.plan.price
    && t.accounts[item].row.cycle == order.plan.cycle && t.accounts[item].row.periodEnd == None
  }

  /** A provision operation as it is created: queued, due at once, five retries. */
  predicate Queued(e: Engine.Engine, item: Item) {
    && OpOf(item) in e.ops && e.ops[OpOf(item)].status == Engine.Queued && e.ops[OpOf(item)].retryCount == 0
    && e.ops[OpOf(item)].maxRetries == 5 && e.ops[OpOf(item)].nextAttemptAt == e.now
    && e.ops[OpOf(item)].key == ProvisionKey(item.order, item.index)
  }

  lemma EnsureItemWrites(s: System, item: Item)
    requires item.order in s.orders && OpsNamed(s.engine.ops) && s.accounts.Keys == s.instances.Keys
    ensures item !in s.accounts ==> Opened(EnsureItem(s, item), item, s.orders[item.order])
    ensures Engine.KeyFree(s.engine, KeyOf(item)) ==> Queued(EnsureItem(s, item).engine, item)
    ensures EnsureItem(s, item).engine.now == s.engine.now
  {
    EnsureItemCases(s, item);
  }

  /** Rows written for an item stay as they are while later items are ensured. */
  lemma {:induction false} EnsureItemsWrite(s: System, o: OrderId, count: nat, i: int)
    requires Core(s) && o in s.orders && OpsNamed(s.engine.ops) && 1 <= i <= count
    ensures Item(o, i) !in s.accounts ==> Opened(EnsureItems(s, o, count), Item(o, i), s.orders[o])
    ensures Engine.KeyFree(s.engine, KeyOf(Item(o, i))) ==> Queued(EnsureItems(s, o, count).engine, Item(o, i))
    ensures EnsureItems(s, o, count).engine.now == s.engine.now
  {
    hide Core, OpsNamed, EnsureItems, Engine.KeyFree, Opened, Queued;
    EnsureItemsSameTime(s, o, count);
    if i == count {
      LastWritten(s, o, count);
    } else {
      EnsureItemsWrite(s, o, count - 1, i);
      EarlierStay(s, o, count, Item(o, i));
    }
  }

  /** One more item leaves the rows of the earlier ones alone. */
  lemma EarlierStay(s: System, o: OrderId, count: nat, other: Item)
    requires Core(s) && o in s.orders && OpsNamed(s.engine.ops) && count >= 1 && other != Item(o, count)
    ensures Opened(EnsureItems(s, o, count - 1), other, s.orders[o]) ==>
              Opened(EnsureItems(s, o, count), other, s.orders[o])
    ensures Queued(EnsureItems(s, o, count - 1).engine, other) ==> Queued(EnsureItems(s, o, count).engine, other)
  {
    hide Core, OpsNamed, EnsureItem, Engine.KeyFree, Extends, Opened, Queued;
    var t := EnsureItems(s, o, count - 1);
    assert EnsureItems(s, o, count) == EnsureItem(t, Item(o, count));
    EnsureItemsKeeps(s, o, count - 1);
    EnsureItemsSameTime(s, o, count);
    EnsureItemsSameTime(s, o, count - 1);
    CoreParts(t);
    EnsureItemExtends(t, Item(o, count));
    OthersStay(t, Item(o, count), other, s.orders[o]);
  }

  lemma LastWritten(s: System, o: OrderId, count: nat)
    requires Core(s) && o in s.orders && OpsNamed(s.engine.ops) && count >= 1
    ensures Item(o, count) !in s.accounts ==> Opened(EnsureItems(s, o, count), Item(o, count), s.orders[o])
    ensures Engine.KeyFree(s.engine, KeyOf(Item(o, count))) ==> Queued(EnsureItems(s, o, count).engine, Item(o, count))
  {
    hide Core, OpsNamed, EnsureItem, Engine.KeyFree, Extends, Opened, Queued;
    var t := EnsureItems(s, o, count - 1);
    EnsureItemsKeeps(s, o, count - 1);
    CoreParts(t);
    EnsureItemWrites(t, Item(o, count));
    EnsureItemsEffect(s, o, count - 1, count);
    assert Item(o, count) in t.accounts.Keys <==> Item(o, count) in s.accounts.Keys;
  }

  lemma {:induction false} EnsureItemsSameTime(s: System, o: OrderId, count: nat)
    requires o in s.orders && OpsNamed(s.engine.ops)
    ensures EnsureItems(s, o, count).engine.now == s.engine.now
  {
    hide OpsNamed;
    if count > 0 {
      EnsureItemsSameTime(s, o, count - 1);
      EnsureOpSameTime(EnsureItems(s, o, count - 1).engine, Item(o, count));
    }
  }

  lemma EnsureOpSameTime(e: Engine.Engine, item: Item)
    requires OpsNamed(e.ops)
    ensures EnsureOp(e, item).now == e.now
  {
  }

  lemma OthersStay(s: System, item: Item, other: Item, order: Order)
    requires item.order in s.orders && OpsNamed(s.engine.ops) && other != item && Extends(s, EnsureItem(s, item))
    requires EnsureItem(s, item).engine.now == s.engine.now
    ensures Opened(s, other, order) ==> Opened(EnsureItem(s, item), other, order)
    ensures Queued(s.engine, other) ==> Queued(EnsureItem(s, item).engine, other)
  {
    EnsureOpFrame(s.engine, item);
  }

  /** What EnsureForPaidOrder writes for each item that lacks its rows or its operation. */
  lemma EnsureWrites(s: System, o: OrderId, i: int)
    requires SystemInv(s) && OpsNamed(s.engine.ops) && ReadyToProvision(s, o) && 1 <= i <= s.orders[o].quantity
    ensures var t := EnsureTx(s, o);
            && (Item(o, i) !in s.accounts ==> Opened(t, Item(o, i), s.orders[o]))
            && (Engine.KeyFree(s.engine, KeyOf(Item(o, i))) ==> Queued(t.engine, Item(o, i)))
            && (forall x :: x in s.accounts ==> x in t.accounts && t.accounts[x] == s.accounts[x])
  {
    hide Core, ItemsOk, FulfilledOk, Engine.KeyFree, OpsGrow;
    EnsureItemsWrite(s, o, s.orders[o].quantity, i);
    EnsureItemsKeeps(s, o, s.orders[o].quantity);
  }

  // ---------------------------------------------------------------- terms and sizes over all runs

  /** Every subscription has the owner, price and cycle its order was placed with. */
  ghost predicate TermsOk(s: System) {
    forall x :: x in s.accounts ==>
      && x.order in s.orders && s.accounts[x].row.owner == s.orders[x.order].owner
      && s.accounts[x].row.price == s.orders[x.order].plan.price
      && s.accounts[x].row.cycle == s.orders[x.order].plan.cycle
  }

  /** Every reservation of a provision operation has the size of its order's plan. */
  ghost predicate SizesOk(s: System) {
    forall r :: 0 <= r < |s.pool.reservations| && s.pool.reservations[r].op.Provision? ==>
      && s.pool.reservations[r].op.order in s.orders
      && s.pool.reservations[r].amount == s.orders[s.pool.reservations[r].op.order].plan.amount
  }

  lemma SubsKeepTerms(a: Subs.Account, step: Subs.Step, grace: Time)
    ensures SameTermsRow(a.row, Subs.Apply(a, step, grace).row)
  {
  }

  /** No step but Reserve adds a reservation. */
  lemma OnlyReserveAdds(s: System, step: Step)
    requires Enabled(s, step, false) && !step.Reserve? && !step.Ensure? && !step.Finalize?
    ensures |Apply(s, step).pool.reservations| == |s.pool.reservations|
  {
  }

  lemma ReserveAdds(s: System, w: nat, seen: Option<nat>)
    requires SystemInv(s) && HasGroup(s, w) && Enabled(s, Reserve(w, seen), false)
    ensures var (rs, more) := (s.pool.reservations, ReserveTx(s, w, seen).pool.reservations);
            || |more| == |rs|
            || (&& |more| == |rs| + 1 && more[|rs|].op == OpOf(s.jobs[w].item)
                && more[|rs|].amount == s.orders[s.jobs[w].item.order].plan.amount)
  {
    hide Core, ItemsOk, FulfilledOk, Cap.ReserveTx, Cap.PoolInv;
    var req := RequestOf(s.orders[s.jobs[w].item.order].plan);
    assert Cap.PoolInv(s.pool) by { PoolPart(s); }
    Cap.ReserveVerdict(s.pool, OpOf(s.jobs[w].item), req, s.engine.now, seen);
  }

  lemma PoolPart(s: System)
    requires SystemInv(s)
    ensures Cap.PoolInv(s.pool)
  {
  }

  lemma StepKeepsSizes(s: System, step: Step)
    requires SystemInv(s) && SizesOk(s) && Enabled(s, step, false)
    ensures SizesOk(Apply(s, step))
  {
    hide SystemInv, Enabled, OpsGrow;
    StepGrows(s, step);
    var t := Apply(s, step);
    if step.Reserve? {
      assert HasGroup(s, step.w) by { ReserveEnabled(s, step.w, step.seen); }
      ReserveAdds(s, step.w, step.seen);
      assert t == ReserveTx(s, step.w, step.seen);
    } else if step.Ensure? {
      assert OpsNamed(s.engine.ops) by { SystemParts(s); }
      EnsureGrows(s, step.o) by { SystemParts(s); }
    } else if step.Finalize? {
      FinalizeAdds(s, step.w);
    } else {
      OnlyReserveAdds(s, step);
    }
  }

  lemma ReserveEnabled(s: System, w: nat, seen: Option<nat>)
    requires Enabled(s, Reserve(w, seen), false)
    ensures HasGroup(s, w)
  {
  }

  lemma FinalizeAdds(s: System, w: nat)
    requires Enabled(s, Finalize(w), false)
    ensures |Apply(s, Finalize(w)).pool.reservations| == |s.pool.reservations|
  {
    var job := s.jobs[w];
    if FinalizeTx(s, job).Some? {
      CommitGrows(s, job.rid);
      ActivateGrows(CommitTx(s, job.rid).value, job);
    }
  }

  lemma StepKeepsTerms(s: System, step: Step)
    requires SystemInv(s) && TermsOk(s) && Enabled(s, step, false)
    ensures TermsOk(Apply(s, step))
  {
    hide SystemInv, RowsGrow, OpsGrow, OrdersGrow, TermsOk, Enabled, Apply, EnsureTx;
    StepGrows(s, step);
    var t := Apply(s, step);
    if step.SubStep? {
      SubStepAccounts(s, step);
      SubsKeepTerms(s.accounts[step.item], step.sstep, s.grace);
      TermsGrow(s, t, step.item);
    } else if step.Finalize? {
      FinalizeAccounts(s, step.w);
      TermsGrow(s, t, s.jobs[step.w].item);
    } else if step.Ensure? {
      assert OpsNamed(s.engine.ops) by { SystemParts(s); }
      EnsureKeepsTerms(s, step.o);
      EnsureIs(s, step.o);
    } else {
      AccountsKept(s, step);
      SameTerms(s, t);
    }
  }

  lemma EnsureIs(s: System, o: OrderId)
    requires Enabled(s, Ensure(o), false)
    ensures Apply(s, Ensure(o)) == EnsureTx(s, o)
  {
  }

  lemma AccountsKept(s: System, step: Step)
    requires Enabled(s, step, false) && !step.SubStep? && !step.Finalize? && !step.Ensure?
    ensures Apply(s, step).accounts == s.accounts
  {
    hide Cap.ReserveTx, Engine.Apply, Engine.Enabled;
  }

  lemma SubStepAccounts(s: System, step: Step)
    requires Enabled(s, step, false) && step.SubStep?
    ensures step.item in s.accounts
    ensures Apply(s, step).accounts == s.accounts[step.item := Subs.Apply(s.accounts[step.item], step.sstep, s.grace)]
  {
    hide Subs.Apply;
  }

  lemma FinalizeAccounts(s: System, w: nat)
    requires Enabled(s, Finalize(w), false)
    ensures w in s.jobs && s.jobs[w].item in s.accounts
    ensures var (t, x) := (Apply(s, Finalize(w)), s.jobs[w].item);
            && x in t.accounts && t.accounts == s.accounts[x := t.accounts[x]]
            && SameTermsRow(s.accounts[x].row, t.accounts[x].row)
  {
    hide FinalizeTx, Subs.Apply;
    if FinalizeTx(s, s.jobs[w]).Some? {
      FinalizeFrame(s, w);
      SubsKeepTerms(s.accounts[s.jobs[w].item], Subs.Finalize(s.jobs[w].snapshot, s.engine.now), s.grace);
    }
  }

  predicate SameTermsRow(a: Subs.Subscription, b: Subs.Subscription) {
    b.owner == a.owner && b.price == a.price && b.cycle == a.cycle
  }

  /** Orders keep their terms, so changing one account within its terms keeps them all. */
  lemma TermsGrow(s: System, t: System, x: Item)
    requires TermsOk(s) && OrdersGrow(s.orders, t.orders) && x in s.accounts && x in t.accounts
    requires t.accounts == s.accounts[x := t.accounts[x]] && SameTermsRow(s.accounts[x].row, t.accounts[x].row)
    ensures TermsOk(t)
  {
  }

  lemma SameTerms(s: System, t: System)
    requires TermsOk(s) && OrdersGrow(s.orders, t.orders) && t.accounts == s.accounts
    ensures TermsOk(t)
  {
  }

  lemma EnsureKeepsTerms(s: System, o: OrderId)
    requires SystemInv(s) && TermsOk(s) && OpsNamed(s.engine.ops)
    ensures TermsOk(EnsureTx(s, o))
  {
    hide Core, ItemsOk, FulfilledOk, EnsureItems, Opened, Queued, OpsGrow;
    if ReadyToProvision(s, o) {
      var q := s.orders[o].quantity;
      EnsureItemsKeeps(s, o, q);
      var t := EnsureItems(s, o, q);
      forall x | x in t.accounts
        ensures x.order in s.orders && t.accounts[x].row.owner == s.orders[x.order].owner
        ensures t.accounts[x].row.price == s.orders[x.order].plan.price
        ensures t.accounts[x].row.cycle == s.orders[x.order].plan.cycle
      {
        if x !in s.accounts {
          assert x in t.accounts.Keys && x !in s.accounts.Keys;
          assert x == Item(o, x.index);
          EnsureItemsWrite(s, o, q, x.index);
          OpenedTerms(t, x, s.orders[o]);
        }
      }
    }
  }

  lemma OpenedTerms(t: System, item: Item, order: Order)
    requires Opened(t, item, order)
    ensures item in t.accounts && t.accounts[item].row.owner == order.owner
    ensures t.accounts[item].row.price == order.plan.price && t.accounts[item].row.cycle == order.plan.cycle
  {
  }

  lemma {:induction false} RunKeepsTerms(s: System, steps: seq<Step>)
    requires SystemInv(s) && TermsOk(s) && SizesOk(s) && Run(s, steps, false)
    ensures TermsOk(Exec(s, steps)) && SizesOk(Exec(s, steps))
    decreases |steps|
  {
    hide SystemInv, TermsOk, SizesOk, Apply, Enabled;
    if steps != [] {
      StepKeepsInv(s, steps[0]);
      StepKeepsTerms(s, steps[0]);
      StepKeepsSizes(s, steps[0]);
      RunKeepsTerms(Apply(s, steps[0]), steps[1..]);
    }
  }

  /**
   * What was bought is what is delivered: in every reachable state a subscription has its order's
   * owner, price and cycle, and an activated one has a committed reservation of its own operation
   * with exactly its plan's six amounts, on its instance's node.
   */
  lemma DeliveredAsBought(now: Time, grace: Time, steps: seq<Step>, s: System, item: Item)
    requires Reaches(now, grace, steps, s) && item in s.accounts
    ensures item.order in s.orders && s.accounts[item].row.owner == s.orders[item.order].owner
    ensures s.accounts[item].row.price == s.orders[item.order].plan.price
    ensures s.accounts[item].row.cycle == s.orders[item.order].plan.cycle
    ensures s.accounts[item].row.status != Subs.Pending ==> item in s.instances && exists r ::
              OnNode(s.pool.reservations, item, s.instances[item], r) && s.pool.reservations[r].status == Cap.Committed
              && s.pool.reservations[r].amount == s.orders[item.order].plan.amount
  {
    hide SystemInv, TermsOk, SizesOk;
    assert SystemInv(Init(now, grace)) by { InitialInv(now, grace); }
    NothingBought(now, grace);
    RunKeepsTerms(Init(now, grace), steps);
    TermsOf(s, item);
    if s.accounts[item].row.status != Subs.Pending {
      CapacityBehindActivation(now, grace, steps, s, item);
      var r :| 0 <= r < |s.pool.reservations| && s.pool.reservations[r].op == Provision(item.order, item.index)
               && s.pool.reservations[r].status == Cap.Committed
               && s.instances[item].node == Some(s.pool.reservations[r].node);
      SizeOf(s, r);
      assert OnNode(s.pool.reservations, item, s.instances[item], r);
    }
  }

  lemma NothingBought(now: Time, grace: Time)
    ensures TermsOk(Init(now, grace)) && SizesOk(Init(now, grace))
  {
  }

  lemma TermsOf(s: System, item: Item)
    requires TermsOk(s) && item in s.accounts
    ensures item.order in s.orders && s.accounts[item].row.owner == s.orders[item.order].owner
    ensures s.accounts[item].row.price == s.orders[item.order].plan.price
    ensures s.accounts[item].row.cycle == s.orders[item.order].plan.cycle
  {
  }

  lemma SizeOf(s: System, r: nat)
    requires SizesOk(s) && r < |s.pool.reservations| && s.pool.reservations[r].op.Provision?
    ensures s.pool.reservations[r].op.order in s.orders
    ensures s.pool.reservations[r].amount == s.orders[s.pool.reservations[r].op.order].plan.amount
  {
  }
}
