/** The commerce tables with the transactions that update them in place. */
module CommerceStore {
  import opened Prelude
  import opened Ledger
  import opened Commerce
  import opened CommerceTheorems
  import Subs = Subscriptions

  /** Where an order's transaction fails, if anywhere. */
  datatype Fault = Nothing | AtOrder | AtInvoice | AtPayment | AtCommit

  class Store {
    const grace: Time
    var orders: seq<Order>
    var invoices: seq<Invoice>
    var payments: seq<Payment>
    var receipts: map<string, Payload>
    var ledger: seq<Capture>
    var outbox: seq<Notice>
    var accounts: seq<Subs.Account>

    function View(): Shop
      reads this
    {
      Shop(orders, invoices, payments, receipts, ledger, outbox, accounts, grace)
    }

    ghost predicate Valid() reads this { ShopInv(View()) }

    constructor (gracePeriod: Time)
      ensures Valid() && View() == Shop([], [], [], map[], [], [], [], gracePeriod)
    {
      orders, invoices, payments, receipts := [], [], [], map[];
      ledger, outbox, accounts, grace := [], [], [], gracePeriod;
      new;
      EmptyShop([], gracePeriod);
    }

    /**
     * Order, invoice and payment in one transaction, or the order that already has the key.  The
     * statement named by `fault` fails, and the rows inserted before it are rolled back.
     */
    method InsertOrder(d: Draft, fault: Fault) returns (reply: OrderReply)
      requires KeysUnique(orders)
      modifies this
      ensures (View(), reply) == InsertTx(old(View()), d, fault != Nothing)
    {
      if Taken(View(), d.user, d.key) {
        var o: nat :| o < |orders| && orders[o].user == d.user && orders[o].key == d.key;
        return if orders[o].kind == d.kind then Placed(o) else Conflict;
      }
      if fault == AtOrder { return StoreFailed; }
      var oldOrders, oldInvoices, oldPayments := orders, invoices, payments;
      orders := orders + [NewOrder(d)];
      if fault == AtInvoice {
        orders := oldOrders;
        return StoreFailed;
      }
      invoices := invoices + [NewInvoice(d)];
      if fault == AtPayment {
        orders, invoices := oldOrders, oldInvoices;
        return StoreFailed;
      }
      payments := payments + [NewPayment(d)];
      if fault == AtCommit {
        orders, invoices, payments := oldOrders, oldInvoices, oldPayments;
        return StoreFailed;
      }
      reply := Placed(|oldOrders|);
    }

    method CreateOrder(user: nat, plan: Option<Price>, quantity: int, key: string, seen: Option<nat>, fault: Fault)
        returns (reply: OrderReply)
      requires Valid() && Enabled(View(), PlaceOrder(user, plan, quantity, key, seen, fault != Nothing))
      modifies this
      ensures Valid() && (View(), reply)
        == CreateOrderTx(old(View()), user, plan, quantity, key, seen, fault != Nothing)
      ensures reply == Placed(|old(orders)|) && plan.Some? && 0 <= plan.value.minor <= MAX_INT64 ==>
        Billed(View(), |old(orders)|, user, key, Purchase, quantity,
               Price(plan.value.minor * quantity, plan.value.currency))
      ensures reply == Placed(|old(orders)|) ==> plan.Some?
    {
      hide ShopInv, Ordered;
      if plan.None? || 0 <= plan.value.minor <= MAX_INT64 {
        PurchaseVerdict(View(), user, plan, quantity, key, seen, fault != Nothing);
      }
      OrderedMeansBilled(View(), user, key);
      UniqueKeys(View());
      StepKeepsInv(View(), PlaceOrder(user, plan, quantity, key, seen, fault != Nothing));
      if quantity < 1 || quantity > 100 { return InvalidQuantity; }
      if |key| < 8 || |key| > 255 { return InvalidKey; }
      if seen.Some? { return if orders[seen.value].kind == Purchase then Placed(seen.value) else Conflict; }
      if plan.None? { return PlanNotFound; }
      if plan.value.minor > 0 && quantity > MAX_INT64 / plan.value.minor { return InvalidQuantity; }
      reply := InsertOrder(PurchaseDraft(user, plan.value, quantity, key), fault);
    }

    method CreateRenewalOrder(user: nat, sub: nat, key: string, seen: Option<nat>, fault: Fault)
        returns (reply: OrderReply)
      requires Valid() && Enabled(View(), PlaceRenewal(user, sub, key, seen, fault != Nothing))
      modifies this
      ensures Valid() && (View(), reply) == CreateRenewalTx(old(View()), user, sub, key, seen, fault != Nothing)
      ensures reply == Placed(|old(orders)|) ==> sub < |accounts|
      ensures reply == Placed(|old(orders)|) ==>
        Billed(View(), |old(orders)|, user, key, Renewal(sub), 1, accounts[sub].row.price)
    {
      hide ShopInv, Ordered;
      RenewalVerdict(View(), user, sub, key, seen, fault != Nothing);
      OrderedMeansBilled(View(), user, key);
      UniqueKeys(View());
      StepKeepsInv(View(), PlaceRenewal(user, sub, key, seen, fault != Nothing));
      if |key| < 8 || |key| > 255 { return InvalidKey; }
      if seen.Some? { return if orders[seen.value].kind == Renewal(sub) then Placed(seen.value) else Conflict; }
      if sub >= |accounts| || accounts[sub].row.owner != user { return SubscriptionNotFound; }
      if !Subs.Renewable(accounts[sub].row) { return SubscriptionState; }
      reply := InsertOrder(RenewalDraft(user, sub, accounts[sub].row.price, key), fault);
    }

    /**
     * The capture itself: payment, order, invoice, subscription, ledger and outbox, all rolled back
     * when the subscription cannot be renewed.
     */
    method CapturePayment(payload: Payload, now: Time) returns (reply: Reply)
      requires Numbered(View()) && payload.event.payment < |payments| && payload.event.amount >= 0
      modifies this
      ensures (View(), reply) == CaptureTx(old(View()), payload, now)
    {
      var e := payload.event;
      var p := e.payment;
      var currency := payments[p].currency;
      if GatewayIdUsed(payments, p, e.externalId) { return GatewayIdTaken; }
      var oldPayments, oldOrders, oldInvoices := payments, orders, invoices;
      payments := payments[p := payments[p].(status := Succeeded, gatewayId := Some(e.externalId))];
      orders := orders[p := orders[p].(paid := true)];
      invoices := invoices[p := invoices[p].(paid := true)];
      var sub := invoices[p].sub;
      if sub.Some? {
        if sub.value >= |accounts| || !Subs.Renewable(accounts[sub.value].row) {
          payments, orders, invoices := oldPayments, oldOrders, oldInvoices;
          return if sub.value >= |accounts| then RenewalNotFound else RenewalState;
        }
        var account := accounts[sub.value];
        account := Subs.Account(Subs.RenewRow(account.row, now), account.events + [Subs.Renewed]);
        accounts := accounts[sub.value := account];
      }
      var entries := CaptureEntries(p, e.amount, currency);
      var balanced := ValidateBalanced(entries);
      assert balanced by { CapturePasses(p, e.amount, currency); }
      ledger := ledger + [Capture(p, entries)];
      outbox := outbox + [PaymentSucceeded(p)];
      if sub.Some? { outbox := outbox + [SubscriptionRenewed(sub.value, p)]; }
      receipts := receipts[e.eventId := payload];
      reply := Captured(p);
    }

    method CompletePayment(payload: Payload, now: Time) returns (reply: Reply)
      requires Valid() && Numbered(View())
      modifies this
      ensures Valid() && (View(), reply) == CompleteTx(old(View()), payload, now)
    {
      hide ShopInv, CaptureTx;
      CompleteKeepsInv(View(), payload, now);
      var e := payload.event;
      if e.eventId == "" || e.externalId == "" || e.status != "succeeded" || e.amount < 0 || |e.currency| != 3 {
        return Mismatch;
      }
      if e.eventId in receipts {
        if receipts[e.eventId] != payload { return Mismatch; }
        if e.payment >= |payments| { return PaymentNotFound; }
        return Duplicate(e.payment);
      }
      if e.payment >= |payments| { return PaymentNotFound; }
      var payment := payments[e.payment];
      if payment.amount != e.amount || payment.currency != Upper(e.currency) { return Mismatch; }
      if payment.status == Succeeded {
        if payment.gatewayId != Some(e.externalId) { return Mismatch; }
        receipts := receipts[e.eventId := payload];
        return Duplicate(e.payment);
      }
      if payment.status != Pending && payment.status != Processing { return PaymentState; }
      reply := CapturePayment(payload, now);
    }
  }

  /** A reply that names a new order comes with its three rows. */
  lemma OrderedMeansBilled(s: Shop, user: nat, key: string)
    ensures forall t, kind, quantity, price, failed ::
      Ordered(s, t, Placed(|s.orders|), user, key, kind, quantity, price, failed) ==>
        Billed(t, |s.orders|, user, key, kind, quantity, price)
  {
  }

  lemma UniqueKeys(s: Shop)
    requires ShopInv(s)
    ensures KeysUnique(s.orders)
  {
  }

  /** The two entries of a capture always pass the balance check. */
  lemma CapturePasses(p: nat, amount: int, currency: string)
    requires amount >= 0
    ensures AllValid(CaptureEntries(p, amount, currency)) && BalancedModulo(CaptureEntries(p, amount, currency))
  {
    PairBalances(GatewayCash(p), Receivable(p), amount, currency, false);
    assert Balanced(CaptureEntries(p, amount, currency));
  }
}
