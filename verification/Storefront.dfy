/**
 * The shop and the provisioning system as one: orders, payments and subscriptions are the same rows
 * on both sides.  A webhook that captures a purchase is what makes its order paid, and one that
 * captures a renewal is what renews the subscription.
 */
module Storefront {
  import opened Prelude
  import Com = Commerce
  import ComT = CommerceTheorems
  import Ledger
  import Prov = Provisioning
  import ProvT = ProvisioningTheorems
  import Runs = ProvisioningRuns
  import Subs = Subscriptions

  /** `index` lists the items in the order of their subscription numbers in the shop. */
  datatype Store = Store(shop: Com.Shop, system: Prov.System, index: seq<Prov.Item>)

  datatype Step =
    | Sell(sale: Com.Step, plan: Prov.Plan)
    | Hook(payload: Com.Payload, now: Time)
    | Provide(step: Prov.Step)

  // ---------------------------------------------------------------- one table seen from two sides

  function Mirror(accounts: map<Prov.Item, Subs.Account>, index: seq<Prov.Item>): (v: seq<Subs.Account>)
    requires forall i :: 0 <= i < |index| ==> index[i] in accounts
    ensures |v| == |index| && forall i :: 0 <= i < |index| ==> v[i] == accounts[index[i]]
  {
    seq(|index|, i requires 0 <= i < |index| => accounts[index[i]])
  }

  /** The index numbers exactly the existing subscriptions, each once. */
  ghost predicate Indexed(accounts: map<Prov.Item, Subs.Account>, index: seq<Prov.Item>) {
    && (forall i :: 0 <= i < |index| ==> index[i] in accounts)
    && (forall x :: x in accounts ==> x in index)
    && (forall i, j :: 0 <= i < j < |index| ==> index[i] != index[j])
  }

  /** Purchase orders are the same on both sides, and paid exactly when no longer pending. */
  ghost predicate OrdersAgree(shop: Com.Shop, orders: map<OrderId, Prov.Order>) {
    && (forall o :: o in orders <==> 0 <= o < |shop.orders| && shop.orders[o].kind == Com.Purchase)
    && (forall o :: o in orders ==>
          && shop.orders[o].quantity == orders[o].quantity && shop.orders[o].user == orders[o].owner
          && shop.orders[o].total == orders[o].plan.price.minor * orders[o].quantity
          && shop.orders[o].currency == orders[o].plan.price.currency
          && (shop.orders[o].paid <==> orders[o].status != Prov.Pending))
  }

  ghost predicate Agree(s: Store) {
    && s.shop.grace == s.system.grace && OrdersAgree(s.shop, s.system.orders)
    && Indexed(s.system.accounts, s.index) && s.shop.accounts == Mirror(s.system.accounts, s.index)
  }

  ghost predicate StoreInv(s: Store) {
    ComT.ShopInv(s.shop) && ProvT.SystemInv(s.system) && Agree(s)
  }

  // ---------------------------------------------------------------- steps

  function Count(q: int): nat { if q < 0 then 0 else q }

  function OrderFor(row: Com.Order, plan: Prov.Plan): Prov.Order {
    Prov.Order(Prov.Pending, row.user, Count(row.quantity), plan)
  }

  /** The sale inserted a new purchase order. */
  predicate NewPurchase(a: Com.Shop, b: Com.Shop) {
    |a.orders| < |b.orders| && b.orders[|a.orders|].kind == Com.Purchase
  }

  ghost function SellTx(s: Store, sale: Com.Step, plan: Prov.Plan): Store
    requires Com.Enabled(s.shop, sale)
  {
    var shop := Com.Apply(s.shop, sale);
    var o := |s.shop.orders|;
    s.(shop := shop,
       system := if NewPurchase(s.shop, shop)
                 then s.system.(orders := s.system.orders[o := OrderFor(shop.orders[o], plan)]) else s.system)
  }

  /** What a capture means for the system: a paid order or a renewed subscription. */
  function Captured(s: Store, shop: Com.Shop, p: nat): Prov.System
    requires p < |s.shop.invoices|
  {
    match s.shop.invoices[p].sub
    case None => if p in s.system.orders then Prov.SetStatus(s.system, p, Prov.Paid) else s.system
    case Some(k) =>
      if k < |s.index| && k < |shop.accounts|
      then s.system.(accounts := s.system.accounts[s.index[k] := shop.accounts[k]]) else s.system
  }

  function HookTx(s: Store, payload: Com.Payload, now: Time): Store
    requires Com.Numbered(s.shop)
  {
    var (shop, reply) := Com.CompleteTx(s.shop, payload, now);
    var p := payload.event.payment;
    s.(shop := shop,
       system := if reply == Com.Captured(p) && p < |s.shop.invoices| then Captured(s, shop, p) else s.system)
  }

  /** The items of an order that have no subscription yet. */
  function Missing(accounts: map<Prov.Item, Subs.Account>, o: OrderId, count: nat): seq<Prov.Item> {
    if count == 0 then []
    else Missing(accounts, o, count - 1) + if Prov.Item(o, count) in accounts then [] else [Prov.Item(o, count)]
  }

  function NewItems(s: Prov.System, step: Prov.Step): seq<Prov.Item> {
    if step.Ensure? && Prov.ReadyToProvision(s, step.o)
    then Missing(s.accounts, step.o, s.orders[step.o].quantity) else []
  }

  /** Steps of the system that the shop does not drive. */
  predicate Own(step: Prov.Step) {
    !step.PlaceOrder? && !step.Capture? && !(step.SubStep? && step.sstep.Renew?)
  }

  /** A sale at the plan's own price, which the plans table keeps in range. */
  predicate Offered(sale: Com.Step, plan: Prov.Plan) {
    || sale.PlaceRenewal?
    || (sale.PlaceOrder?
        && (sale.plan.Some? ==> sale.plan.value == plan.price && 0 <= plan.price.minor <= Ledger.MAX_INT64))
  }

  ghost predicate Enabled(s: Store, step: Step) {
    match step
    case Sell(sale, plan) => Offered(sale, plan) && Com.Enabled(s.shop, sale)
    case Hook(_, _) => Com.Numbered(s.shop)
    case Provide(p) =>
      && Own(p) && Prov.Enabled(s.system, p, false)
      && (forall i :: 0 <= i < |s.index + NewItems(s.system, p)| ==>
            (s.index + NewItems(s.system, p))[i] in Prov.Apply(s.system, p).accounts)
  }

  ghost function Apply(s: Store, step: Step): Store
    requires Enabled(s, step)
  {
    match step
    case Sell(sale, plan) => SellTx(s, sale, plan)
    case Hook(payload, now) => HookTx(s, payload, now)
    case Provide(p) =>
      var system := Prov.Apply(s.system, p);
      var index := s.index + NewItems(s.system, p);
      Store(s.shop.(accounts := Mirror(system.accounts, index)), system, index)
  }

  ghost predicate Run(s: Store, steps: seq<Step>)
    decreases |steps|
  {
    steps == [] || (Enabled(s, steps[0]) && Run(Apply(s, steps[0]), steps[1..]))
  }

  ghost function Exec(s: Store, steps: seq<Step>): Store
    requires Run(s, steps)
    decreases |steps|
  {
    if steps == [] then s else Exec(Apply(s, steps[0]), steps[1..])
  }

  function Init(now: Time, grace: Time): Store {
    Store(Com.Shop([], [], [], map[], [], [], [], grace), Prov.Init(now, grace), [])
  }

  // ---------------------------------------------------------------- selling

  /** A sale changes nothing or appends one unpaid order; accounts stay as they are. */
  lemma SaleFrame(shop: Com.Shop, sale: Com.Step, plan: Prov.Plan)
    requires Com.Enabled(shop, sale) && Offered(sale, plan)
    ensures var t := Com.Apply(shop, sale);
            && t.accounts == shop.accounts && t.grace == shop.grace
            && (t.orders != shop.orders ==>
                  && |t.orders| == |shop.orders| + 1 && t.orders[..|shop.orders|] == shop.orders
                  && !t.orders[|shop.orders|].paid && t.orders[|shop.orders|].quantity >= 1
                  && (t.orders[|shop.orders|].kind == Com.Purchase ==> AtPrice(t.orders[|shop.orders|], plan.price)))
  {
    if sale.PlaceOrder? && sale.plan.Some? && sale.quantity >= 1 {
      Com.OverflowGuardExact(sale.plan.value.minor, sale.quantity);
    }
  }

  /** The order's total is the unit price times the quantity. */
  predicate AtPrice(order: Com.Order, price: Price) {
    order.total == price.minor * order.quantity && order.currency == price.currency
  }

  lemma SellAgrees(s: Store, sale: Com.Step, plan: Prov.Plan)
    requires Agree(s) && Com.Enabled(s.shop, sale) && Offered(sale, plan)
    ensures Agree(SellTx(s, sale, plan))
  {
    hide Com.Apply, Com.Enabled, OrdersAgree, Indexed;
    SaleFrame(s.shop, sale, plan);
    var shop := Com.Apply(s.shop, sale);
    if shop.orders == s.shop.orders {
      SameOrdersAgree(s.shop, shop, s.system.orders);
    } else {
      NewOrderAgrees(s.shop, shop, s.system.orders, plan);
    }
  }

  lemma SameOrdersAgree(a: Com.Shop, b: Com.Shop, orders: map<OrderId, Prov.Order>)
    requires OrdersAgree(a, orders) && b.orders == a.orders
    ensures OrdersAgree(b, orders)
  {
  }

  lemma NewOrderAgrees(a: Com.Shop, b: Com.Shop, orders: map<OrderId, Prov.Order>, plan: Prov.Plan)
    requires OrdersAgree(a, orders) && |b.orders| == |a.orders| + 1 && b.orders[..|a.orders|] == a.orders
    requires !b.orders[|a.orders|].paid && b.orders[|a.orders|].quantity >= 1
    requires b.orders[|a.orders|].kind == Com.Purchase ==> AtPrice(b.orders[|a.orders|], plan.price)
    ensures var o := |a.orders|;
            OrdersAgree(b, if NewPurchase(a, b) then orders[o := OrderFor(b.orders[o], plan)] else orders)
  {
    assert forall o :: 0 <= o < |a.orders| ==> b.orders[o] == b.orders[..|a.orders|][o];
  }

  /** On the system's side a sale is a PlaceOrder step or nothing. */
  lemma SellIsStep(s: Store, sale: Com.Step, plan: Prov.Plan)
    requires Agree(s) && Com.Enabled(s.shop, sale) && Offered(sale, plan)
    ensures var o, t := |s.shop.orders|, SellTx(s, sale, plan);
            || t.system == s.system
            || (&& o < |t.shop.orders|
                && Prov.Enabled(s.system, Prov.PlaceOrder(o, OrderFor(t.shop.orders[o], plan)), false)
                && t.system == Prov.Apply(s.system, Prov.PlaceOrder(o, OrderFor(t.shop.orders[o], plan))))
  {
    hide Com.Apply;
    SaleFrame(s.shop, sale, plan);
  }

  // ---------------------------------------------------------------- webhooks

  /** What a webhook does to orders and accounts. */
  lemma HookFrame(shop: Com.Shop, payload: Com.Payload, now: Time)
    requires Com.Numbered(shop)
    ensures var (t, reply) := Com.CompleteTx(shop, payload, now);
            var p := payload.event.payment;
            && t.grace == shop.grace && |t.orders| == |shop.orders|
            && (reply != Com.Captured(p) ==> t.orders == shop.orders && t.accounts == shop.accounts)
            && (reply == Com.Captured(p) ==>
                  && p < |shop.orders| && p < |shop.payments| && shop.payments[p].status != Com.Succeeded
                  && t.orders == shop.orders[p := shop.orders[p].(paid := true)]
                  && t.accounts == match shop.invoices[p].sub
                                   case None => shop.accounts
                                   case Some(k) =>
                                     if k < |shop.accounts|
                                     then shop.accounts[k := Subs.Apply(shop.accounts[k], Subs.Renew(now), shop.grace)]
                                     else shop.accounts)
            && (reply == Com.Captured(p) && shop.invoices[p].sub.Some? ==> shop.invoices[p].sub.value < |shop.accounts|)
  {
  }

  /** On the system's side a capture is a Capture step or a renewal of one subscription. */
  lemma HookIsStep(s: Store, payload: Com.Payload, now: Time)
    requires StoreInv(s) && Com.Numbered(s.shop)
    ensures var t := HookTx(s, payload, now);
            var p := payload.event.payment;
            || t.system == s.system
            || (Prov.Enabled(s.system, Prov.Capture(p), false) && t.system == Prov.Apply(s.system, Prov.Capture(p)))
            || (exists k :: 0 <= k < |s.index| && RenewsItem(s, t, s.index[k], now))
  {
    hide Com.CompleteTx, ProvT.SystemInv, Subs.Apply;
    HookFrame(s.shop, payload, now);
    var p := payload.event.payment;
    var (shop, reply) := Com.CompleteTx(s.shop, payload, now);
    if reply == Com.Captured(p) {
      PaidMatches(s.shop, p);
      if s.shop.invoices[p].sub.Some? {
        var k := s.shop.invoices[p].sub.value;
        assert RenewsItem(s, HookTx(s, payload, now), s.index[k], now);
      }
    }
  }

  ghost predicate RenewsItem(s: Store, t: Store, item: Prov.Item, now: Time) {
    && Prov.Enabled(s.system, Prov.SubStep(item, Subs.Renew(now)), false)
    && t.system == Prov.Apply(s.system, Prov.SubStep(item, Subs.Renew(now)))
  }

  lemma PaidMatches(shop: Com.Shop, p: nat)
    requires ComT.ShopInv(shop) && p < |shop.orders|
    ensures p < |shop.invoices| && p < |shop.payments|
    ensures shop.orders[p].paid <==> shop.payments[p].status == Com.Succeeded
    ensures shop.invoices[p].sub.None? <==> shop.orders[p].kind == Com.Purchase
  {
    assert ComT.CapturedOnce(shop, p) && ComT.InvoiceMatches(shop, p);
  }

  lemma HookAgrees(s: Store, payload: Com.Payload, now: Time)
    requires StoreInv(s) && Com.Numbered(s.shop)
    ensures Agree(HookTx(s, payload, now))
  {
    hide Com.CompleteTx, ProvT.SystemInv, ComT.ShopInv, Subs.Apply, OrdersAgree, Indexed;
    HookFrame(s.shop, payload, now);
    var p := payload.event.payment;
    var (shop, reply) := Com.CompleteTx(s.shop, payload, now);
    if reply == Com.Captured(p) {
      PaidMatches(s.shop, p);
      PaidAgrees(s.shop, shop, s.system.orders, p);
      if s.shop.invoices[p].sub.Some? {
        RenewAgrees(s.system.accounts, s.index, s.shop.invoices[p].sub.value, shop.accounts);
      }
    } else {
      SameOrdersAgree(s.shop, shop, s.system.orders);
    }
  }

  /** A capture pays the purchase on both sides, and leaves purchases alone if it is a renewal's. */
  lemma PaidAgrees(a: Com.Shop, b: Com.Shop, orders: map<OrderId, Prov.Order>, p: nat)
    requires OrdersAgree(a, orders) && p < |a.orders| && b.orders == a.orders[p := a.orders[p].(paid := true)]
    ensures p in orders <==> a.orders[p].kind == Com.Purchase
    ensures OrdersAgree(b, if p in orders then orders[p := orders[p].(status := Prov.Paid)] else orders)
  {
  }

  lemma RenewAgrees(
      accounts: map<Prov.Item, Subs.Account>, index: seq<Prov.Item>, k: nat, after: seq<Subs.Account>)
    requires Indexed(accounts, index) && k < |index| && |after| == |index|
    requires forall i :: 0 <= i < |index| && i != k ==> after[i] == accounts[index[i]]
    ensures Indexed(accounts[index[k] := after[k]], index)
    ensures after == Mirror(accounts[index[k] := after[k]], index)
  {
  }

  // ---------------------------------------------------------------- the system's own steps

  lemma OwnFrame(s: Prov.System, step: Prov.Step)
    requires Prov.Enabled(s, step, false) && Own(step) && !step.Ensure? && !step.Finalize?
    ensures var t := Prov.Apply(s, step);
            t.orders == s.orders && t.grace == s.grace && t.accounts.Keys == s.accounts.Keys
  {
  }

  /** Orders keep their keys and contents, and only leave pending by a capture. */
  ghost predicate OrdersKept(a: map<OrderId, Prov.Order>, b: map<OrderId, Prov.Order>) {
    && a.Keys == b.Keys
    && forall o :: o in a ==>
         b[o] == a[o].(status := b[o].status) && (b[o].status == Prov.Pending <==> a[o].status == Prov.Pending)
  }

  lemma FinalizeOrders(s: Prov.System, w: nat)
    requires Prov.Enabled(s, Prov.Finalize(w), false)
    ensures var t := Prov.Apply(s, Prov.Finalize(w));
            OrdersKept(s.orders, t.orders) && t.grace == s.grace && t.accounts.Keys == s.accounts.Keys
  {
    var job := s.jobs[w];
    if Prov.FinalizeTx(s, job).Some? {
      Runs.CommitGrows(s, job.rid);
      var t := Prov.CommitTx(s, job.rid).value;
      ActivateOrders(t, job);
    }
  }

  lemma ActivateOrders(s: Prov.System, job: Prov.Job)
    requires job.item in s.accounts && Prov.ActivateTx(s, job).Some?
    ensures var t := Prov.ActivateTx(s, job).value;
            OrdersKept(s.orders, t.orders) && t.grace == s.grace && t.accounts.Keys == s.accounts.Keys
  {
    hide Prov.Announce;
  }

  lemma {:induction false} MissingItems(accounts: map<Prov.Item, Subs.Account>, o: OrderId, count: nat)
    ensures var ms := Missing(accounts, o, count);
            && (forall x :: x in ms <==> x !in accounts && Runs.InRange(x, o, count))
            && (forall i, j :: 0 <= i < j < |ms| ==> ms[i] != ms[j])
  {
    if count > 0 {
      MissingItems(accounts, o, count - 1);
      var fewer := Missing(accounts, o, count - 1);
      assert forall i :: 0 <= i < |fewer| ==> fewer[i] in fewer;
    }
  }

  lemma EnsureFrame(s: Prov.System, o: OrderId)
    requires ProvT.SystemInv(s) && Prov.OpsNamed(s.engine.ops)
    ensures var (t, more) := (Prov.EnsureTx(s, o), NewItems(s, Prov.Ensure(o)));
            && OrdersKept(s.orders, t.orders) && t.grace == s.grace
            && (forall x :: x in t.accounts <==> x in s.accounts || x in more)
            && (forall x :: x in more ==> x !in s.accounts)
            && (forall i, j :: 0 <= i < j < |more| ==> more[i] != more[j])
  {
    hide ProvT.Core, ProvT.ItemsOk, ProvT.FulfilledOk, Missing;
    if Prov.ReadyToProvision(s, o) {
      var q := s.orders[o].quantity;
      MissingItems(s.accounts, o, q);
      Runs.EnsureItemsKeeps(s, o, q);
      var t := Prov.EnsureItems(s, o, q);
      assert forall x :: x in t.accounts <==> x in t.accounts.Keys;
      assert forall x :: x in s.accounts <==> x in s.accounts.Keys;
    }
  }

  /** What every step of its own does to the tables the shop shares. */
  lemma ProvideFrame(s: Prov.System, step: Prov.Step)
    requires ProvT.SystemInv(s) && Prov.Enabled(s, step, false) && Own(step)
    ensures var (t, more) := (Prov.Apply(s, step), NewItems(s, step));
            && OrdersKept(s.orders, t.orders) && t.grace == s.grace
            && (forall x :: x in t.accounts <==> x in s.accounts || x in more)
            && (forall x :: x in more ==> x !in s.accounts)
            && (forall i, j :: 0 <= i < j < |more| ==> more[i] != more[j])
  {
    hide ProvT.SystemInv, Prov.Enabled, Missing, Prov.EnsureTx;
    var t := Prov.Apply(s, step);
    if step.Ensure? {
      assert Prov.OpsNamed(s.engine.ops) by { Runs.SystemParts(s); }
      EnsureFrame(s, step.o);
      assert t == Prov.EnsureTx(s, step.o);
    } else {
      if step.Finalize? { FinalizeOrders(s, step.w); } else { OwnFrame(s, step); }
      assert forall x :: x in t.accounts <==> x in t.accounts.Keys;
      assert forall x :: x in s.accounts <==> x in s.accounts.Keys;
    }
  }

  lemma ProvideAgrees(s: Store, step: Prov.Step)
    requires StoreInv(s) && Enabled(s, Provide(step))
    ensures Agree(Apply(s, Provide(step)))
  {
    hide ProvT.SystemInv, ComT.ShopInv, Prov.Apply, Prov.Enabled, NewItems;
    ProvideFrame(s.system, step);
    IndexGrows(s.system.accounts, Prov.Apply(s.system, step).accounts, s.index, NewItems(s.system, step));
  }

  lemma IndexGrows(
      a: map<Prov.Item, Subs.Account>, b: map<Prov.Item, Subs.Account>, index: seq<Prov.Item>, more: seq<Prov.Item>)
    requires Indexed(a, index)
    requires forall x :: x in b <==> x in a || x in more
    requires forall x :: x in more ==> x !in a
    requires forall i, j :: 0 <= i < j < |more| ==> more[i] != more[j]
    ensures Indexed(b, index + more)
  {
    var all := index + more;
    forall i | 0 <= i < |all| ensures all[i] in b { if i >= |index| { assert more[i - |index|] in more; } }
    forall i, j | 0 <= i < j < |all| ensures all[i] != all[j] {
      if j >= |index| { assert more[j - |index|] in more; }
    }
  }

  // ---------------------------------------------------------------- all steps

  lemma StepKeepsShop(s: Store, step: Step)
    requires StoreInv(s) && Enabled(s, step)
    ensures ComT.ShopInv(Apply(s, step).shop)
  {
    hide ComT.ShopInv, ProvT.SystemInv, Com.Apply, Com.CompleteTx;
    match step
    case Sell(sale, _) => ComT.StepKeepsInv(s.shop, sale);
    case Hook(payload, now) => ComT.CompleteKeepsInv(s.shop, payload, now);
    case Provide(p) => ComT.AccountsKeepInv(s.shop, Apply(s, step).shop.accounts);
  }

  /** The system inside the storefront only takes steps of its own. */
  lemma StepLeads(start: Prov.System, s: Store, step: Step)
    requires StoreInv(s) && Enabled(s, step) && Runs.Leads(start, s.system, false)
    ensures Runs.Leads(start, Apply(s, step).system, false) && ProvT.SystemInv(Apply(s, step).system)
  {
    hide ComT.ShopInv, ProvT.SystemInv, Agree, Runs.Leads, Prov.Apply, Prov.Enabled, SellTx, HookTx;
    match step
    case Sell(sale, plan) =>
      SellIsStep(s, sale, plan);
      var t, o := SellTx(s, sale, plan), |s.shop.orders|;
      if t.system != s.system { Follow(start, s.system, Prov.PlaceOrder(o, OrderFor(t.shop.orders[o], plan))); }
    case Hook(payload, now) =>
      HookIsStep(s, payload, now);
      var t, p := HookTx(s, payload, now), payload.event.payment;
      if t.system == s.system {
      } else if Prov.Enabled(s.system, Prov.Capture(p), false) && t.system == Prov.Apply(s.system, Prov.Capture(p)) {
        Follow(start, s.system, Prov.Capture(p));
      } else {
        var k :| 0 <= k < |s.index| && RenewsItem(s, t, s.index[k], now);
        Follow(start, s.system, Prov.SubStep(s.index[k], Subs.Renew(now)));
      }
    case Provide(p) => Follow(start, s.system, p);
  }

  lemma Follow(start: Prov.System, s: Prov.System, step: Prov.Step)
    requires ProvT.SystemInv(s) && Runs.Leads(start, s, false) && Prov.Enabled(s, step, false)
    ensures Runs.Leads(start, Prov.Apply(s, step), false) && ProvT.SystemInv(Prov.Apply(s, step))
  {
    hide ProvT.SystemInv, Runs.Leads, Prov.Apply, Prov.Enabled;
    Runs.StepKeepsInv(s, step);
    Runs.LeadsThen(start, s, step, false);
  }

  lemma StepKeepsInv(start: Prov.System, s: Store, step: Step)
    requires StoreInv(s) && Enabled(s, step) && Runs.Leads(start, s.system, false)
    ensures StoreInv(Apply(s, step)) && Runs.Leads(start, Apply(s, step).system, false)
  {
    hide ComT.ShopInv, ProvT.SystemInv, Agree, Runs.Leads, Prov.Apply, Prov.Enabled, Com.Apply, Com.CompleteTx;
    StepKeepsShop(s, step);
    StepLeads(start, s, step);
    match step
    case Sell(sale, plan) => SellAgrees(s, sale, plan);
    case Hook(payload, now) => HookAgrees(s, payload, now);
    case Provide(p) => ProvideAgrees(s, p);
  }

  lemma {:induction false} RunKeepsInv(start: Prov.System, s: Store, steps: seq<Step>)
    requires StoreInv(s) && Run(s, steps) && Runs.Leads(start, s.system, false)
    ensures StoreInv(Exec(s, steps)) && Runs.Leads(start, Exec(s, steps).system, false)
    decreases |steps|
  {
    hide StoreInv, Runs.Leads, Apply, Enabled;
    if steps != [] {
      StepKeepsInv(start, s, steps[0]);
      RunKeepsInv(start, Apply(s, steps[0]), steps[1..]);
    }
  }

  /** Every step of its own that the system can take, the storefront can take. */
  lemma OwnStepsEnabled(s: Store, step: Prov.Step)
    requires StoreInv(s) && Own(step) && Prov.Enabled(s.system, step, false)
    ensures Enabled(s, Provide(step))
  {
    hide ProvT.SystemInv, ComT.ShopInv, Prov.Apply, Prov.Enabled, NewItems;
    ProvideFrame(s.system, step);
    IndexGrows(s.system.accounts, Prov.Apply(s.system, step).accounts, s.index, NewItems(s.system, step));
  }

  // ---------------------------------------------------------------- main results

  ghost predicate Reaches(now: Time, grace: Time, steps: seq<Step>, s: Store) {
    Run(Init(now, grace), steps) && s == Exec(Init(now, grace), steps)
  }

  lemma ReachableInv(now: Time, grace: Time, steps: seq<Step>, s: Store)
    requires Reaches(now, grace, steps, s)
    ensures StoreInv(s) && Runs.Leads(Prov.Init(now, grace), s.system, false)
  {
    Runs.InitialInv(now, grace);
    ComT.EmptyShop([], grace);
    Runs.LeadsItself(Prov.Init(now, grace), false);
    assert StoreInv(Init(now, grace));
    RunKeepsInv(Prov.Init(now, grace), Init(now, grace), steps);
  }

  /** The order's payment was captured exactly once, in full and balanced, as cash in. */
  ghost predicate PaidInFull(shop: Com.Shop, o: nat) {
    && o < |shop.orders| && ComT.IsPaid(shop, o) && o < |shop.invoices| && shop.invoices[o].paid
    && ComT.CapturesOf(shop.ledger, o) == 1
    && exists i :: (
         && 0 <= i < |shop.ledger| && shop.ledger[i].payment == o && Ledger.Balanced(shop.ledger[i].entries)
         && ComT.CashIn(shop.ledger[i], o, shop.orders[o].total))
  }

  lemma {:induction false} CaptureExists(ledger: seq<Com.Capture>, p: nat)
    requires ComT.CapturesOf(ledger, p) > 0
    ensures exists i :: 0 <= i < |ledger| && ledger[i].payment == p
  {
    if ledger[0].payment != p {
      CaptureExists(ledger[1..], p);
      var i :| 0 <= i < |ledger[1..]| && ledger[1..][i].payment == p;
      assert ledger[i + 1].payment == p;
    }
  }

  lemma PaidMeansInFull(shop: Com.Shop, o: nat)
    requires ComT.ShopInv(shop) && o < |shop.orders| && shop.orders[o].paid
    ensures PaidInFull(shop, o)
  {
    assert ComT.CapturedOnce(shop, o) && ComT.InvoiceMatches(shop, o);
    CaptureExists(shop.ledger, o);
    var i :| 0 <= i < |shop.ledger| && shop.ledger[i].payment == o;
    assert ComT.CaptureOk(shop, shop.ledger[i]);
    ComT.CaptureMovesCash(o, shop.orders[o].total, shop.payments[o].currency);
  }

  /** Nothing is provisioned before it is paid: every subscription belongs to an order paid in full. */
  lemma NothingBeforePayment(now: Time, grace: Time, steps: seq<Step>, s: Store, item: Prov.Item)
    requires Reaches(now, grace, steps, s) && item in s.system.accounts
    ensures PaidInFull(s.shop, item.order) && s.shop.orders[item.order].kind == Com.Purchase
    ensures 1 <= item.index <= s.shop.orders[item.order].quantity
  {
    hide StoreInv, PaidInFull;
    ReachableInv(now, grace, steps, s);
    ItemOrdered(s, item);
    OrderPaid(s, item.order);
  }

  lemma ItemOrdered(s: Store, item: Prov.Item)
    requires StoreInv(s) && item in s.system.accounts
    ensures item.order in s.system.orders && s.system.orders[item.order].status != Prov.Pending
    ensures 1 <= item.index <= s.system.orders[item.order].quantity
  {
    hide ComT.ShopInv, Agree, ProvT.Core, ProvT.FulfilledOk;
    assert item in s.system.accounts.Keys;
  }

  /**
   * From money to machines: a fulfilled order was captured exactly once, in full and balanced, for
   * the plan's unit price times the quantity, and every one of the `quantity` subscriptions the
   * customer ordered has been activated on committed capacity of its own operation.
   */
  lemma FulfilledIsPaidFor(now: Time, grace: Time, steps: seq<Step>, s: Store, o: OrderId)
    requires Reaches(now, grace, steps, s) && o in s.system.orders && s.system.orders[o].status == Prov.Fulfilled
    ensures PaidInFull(s.shop, o) && s.shop.orders[o].kind == Com.Purchase
    ensures s.shop.orders[o].total == s.system.orders[o].plan.price.minor * s.shop.orders[o].quantity
    ensures forall i :: 1 <= i <= s.shop.orders[o].quantity ==>
      && Prov.Item(o, i) in s.system.accounts && Prov.Item(o, i) in s.system.instances
      && s.system.accounts[Prov.Item(o, i)].row.status != Subs.Pending
      && ProvT.Backed(s.system.pool.reservations, Prov.Item(o, i), s.system.instances[Prov.Item(o, i)])
  {
    hide StoreInv, PaidInFull, ProvT.Backed;
    ReachableInv(now, grace, steps, s);
    OrderPaid(s, o);
    var start := Prov.Init(now, grace);
    var trace :| Prov.Run(start, trace, false) && Prov.Exec(start, trace) == s.system;
    forall i | 1 <= i <= s.shop.orders[o].quantity
      ensures Prov.Item(o, i) in s.system.accounts && Prov.Item(o, i) in s.system.instances
      ensures s.system.accounts[Prov.Item(o, i)].row.status != Subs.Pending
      ensures ProvT.Backed(s.system.pool.reservations, Prov.Item(o, i), s.system.instances[Prov.Item(o, i)])
    {
      Runs.FulfilledMeansActivated(now, grace, trace, s.system, o, i);
    }
  }

  lemma OrderPaid(s: Store, o: OrderId)
    requires StoreInv(s) && o in s.system.orders && s.system.orders[o].status != Prov.Pending
    ensures PaidInFull(s.shop, o) && s.shop.orders[o].kind == Com.Purchase
    ensures s.shop.orders[o].quantity == s.system.orders[o].quantity
    ensures s.shop.orders[o].total == s.system.orders[o].plan.price.minor * s.shop.orders[o].quantity
  {
    PaidMeansInFull(s.shop, o);
  }
}
