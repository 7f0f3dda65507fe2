/**
 * Orders, payment webhooks and renewals.  An order, its invoice and its payment are inserted by one
 * transaction, so the model numbers the three rows alike.
 */
module Commerce {
  import opened Prelude
  import opened Ledger
  import Subs = Subscriptions

  datatype Kind = Purchase | Renewal(sub: nat)

  datatype PaymentStatus = Pending | Processing | Succeeded | Failed

  datatype Order = Order(user: nat, key: string, kind: Kind, quantity: int, total: int, currency: string, paid: bool)

  datatype Invoice = Invoice(sub: Option<nat>, amount: int, paid: bool)

  datatype Payment = Payment(amount: int, currency: string, status: PaymentStatus, gatewayId: Option<string>)

  datatype Webhook = Webhook(
    eventId: string, payment: nat, externalId: string, status: string, amount: int, currency: string)

  /** A webhook body up to JSON equality: the event it decodes to, and whatever else it holds. */
  datatype Payload = Payload(event: Webhook, rest: nat)

  datatype Notice = PaymentSucceeded(payment: nat) | SubscriptionRenewed(sub: nat, payment: nat)

  datatype Capture = Capture(payment: nat, entries: seq<Entry>)

  datatype Shop = Shop(
    orders: seq<Order>, invoices: seq<Invoice>, payments: seq<Payment>, receipts: map<string, Payload>,
    ledger: seq<Capture>, outbox: seq<Notice>, accounts: seq<Subs.Account>,
    grace: Time)

  // ---------------------------------------------------------------- placing orders

  datatype OrderReply =
    | Placed(order: nat) | InvalidQuantity | InvalidKey | PlanNotFound | Conflict | StoreFailed
    | SubscriptionNotFound | SubscriptionState

  predicate KeyLengthOk(key: string) { 8 <= |key| <= 255 }

  /** The guard before the 64-bit multiplication; all operands are positive here. */
  predicate Overflows(price: int, quantity: int) {
    price > 0 && quantity > MAX_INT64 / price
  }

  predicate Taken(s: Shop, user: nat, key: string) {
    exists o :: 0 <= o < |s.orders| && s.orders[o].user == user && s.orders[o].key == key
  }

  ghost function Find(s: Shop, user: nat, key: string): (o: nat)
    requires Taken(s, user, key)
    ensures o < |s.orders| && s.orders[o].user == user && s.orders[o].key == key
  {
    var o :| 0 <= o < |s.orders| && s.orders[o].user == user && s.orders[o].key == key;
    o
  }

  /** The answer for an order that already has this key. */
  function Existing(s: Shop, o: nat, kind: Kind): OrderReply
    requires o < |s.orders|
  {
    if s.orders[o].kind == kind then Placed(o) else Conflict
  }

  function NewOrder(d: Draft): Order { Order(d.user, d.key, d.kind, d.quantity, d.total, d.currency, false) }

  function NewInvoice(d: Draft): Invoice {
    Invoice(if d.kind.Renewal? then Some(d.kind.sub) else None, d.total, false)
  }

  function NewPayment(d: Draft): Payment { Payment(d.total, d.currency, Pending, None) }

  function Insert(s: Shop, d: Draft): Shop {
    s.(orders := s.orders + [NewOrder(d)], invoices := s.invoices + [NewInvoice(d)],
       payments := s.payments + [NewPayment(d)])
  }

  /** What an insert is asked to store. */
  datatype Draft = Draft(user: nat, key: string, kind: Kind, quantity: int, total: int, currency: string)

  /** Insert, or fall back to the row that won the race; `failed` if some insert or the commit fails. */
  ghost function InsertTx(s: Shop, d: Draft, failed: bool): (Shop, OrderReply) {
    if Taken(s, d.user, d.key) then (s, Existing(s, Find(s, d.user, d.key), d.kind))
    else if failed then (s, StoreFailed)
    else (Insert(s, d), Placed(|s.orders|))
  }

  function PurchaseDraft(user: nat, plan: Price, quantity: int, key: string): Draft {
    Draft(user, key, Purchase, quantity, Wrap(plan.minor * quantity), plan.currency)
  }

  function RenewalDraft(user: nat, sub: nat, price: Price, key: string): Draft {
    Draft(user, key, Renewal(sub), 1, price.minor, price.currency)
  }

  /** `seen` is what the lookup before the transaction found, possibly out of date. */
  ghost function CreateOrderTx(
      s: Shop, user: nat, plan: Option<Price>, quantity: int, key: string, seen: Option<nat>, failed: bool)
      : (Shop, OrderReply)
    requires seen.Some? ==> seen.value < |s.orders|
  {
    if quantity < 1 || quantity > 100 then (s, InvalidQuantity)
    else if !KeyLengthOk(key) then (s, InvalidKey)
    else if seen.Some? then (s, Existing(s, seen.value, Purchase))
    else if plan.None? then (s, PlanNotFound)
    else if Overflows(plan.value.minor, quantity) then (s, InvalidQuantity)
    else InsertTx(s, PurchaseDraft(user, plan.value, quantity, key), failed)
  }

  ghost function CreateRenewalTx(
      s: Shop, user: nat, sub: nat, key: string, seen: Option<nat>, failed: bool): (Shop, OrderReply)
    requires seen.Some? ==> seen.value < |s.orders|
  {
    if !KeyLengthOk(key) then (s, InvalidKey)
    else if seen.Some? then (s, Existing(s, seen.value, Renewal(sub)))
    else if sub >= |s.accounts| || s.accounts[sub].row.owner != user then (s, SubscriptionNotFound)
    else if !Subs.Renewable(s.accounts[sub].row) then (s, SubscriptionState)
    else InsertTx(s, RenewalDraft(user, sub, s.accounts[sub].row.price, key), failed)
  }

  /** The guard is exact: it refuses precisely the products that do not fit in an int64. */
  lemma OverflowGuardExact(price: int, quantity: int)
    requires 0 <= price <= MAX_INT64 && quantity >= 1
    ensures Overflows(price, quantity) <==> price * quantity > MAX_INT64
    ensures !Overflows(price, quantity) ==> Wrap(price * quantity) == price * quantity
  {
    if price > 0 {
      var limit := MAX_INT64 / price;
      assert price * limit <= MAX_INT64 < price * (limit + 1);
      if quantity > limit { MulMonotone(price, limit + 1, quantity); } else { MulMonotone(price, quantity, limit); }
    }
    MulMonotone(price, 0, quantity);
  }

  lemma MulMonotone(a: int, x: int, y: int)
    requires a >= 0 && x <= y
    ensures a * x <= a * y
  {
  }

  // ---------------------------------------------------------------- CompletePayment

  datatype Reply =
    | Captured(payment: nat) | Duplicate(payment: nat) | Mismatch | PaymentNotFound | PaymentState
    | GatewayIdTaken | RenewalNotFound | RenewalState

  function UpperChar(c: char): char {
    if 'a' <= c <= 'z' then ((c as int) - 32) as char else c
  }

  function Upper(s: string): string {
    seq(|s|, i requires 0 <= i < |s| => UpperChar(s[i]))
  }

  predicate Malformed(e: Webhook) {
    e.eventId == "" || e.externalId == "" || e.status != "succeeded" || e.amount < 0 || |e.currency| != 3
  }

  /** Another payment already carries this gateway payment id. */
  predicate GatewayIdUsed(payments: seq<Payment>, p: nat, id: string) {
    exists q :: 0 <= q < |payments| && q != p && payments[q].gatewayId == Some(id)
  }

  predicate Numbered(s: Shop) { |s.orders| == |s.invoices| == |s.payments| }

  function CaptureEntries(p: nat, amount: int, currency: string): seq<Entry> {
    [Entry(GatewayCash(p), "debit", amount, currency), Entry(Receivable(p), "credit", amount, currency)]
  }

  function Record(s: Shop, payload: Payload): Shop {
    s.(receipts := s.receipts[payload.event.eventId := payload])
  }

  /** Everything a first valid webhook writes besides the subscription. */
  function Settle(s: Shop, payload: Payload): Shop
    requires Numbered(s) && payload.event.payment < |s.payments|
  {
    var p := payload.event.payment;
    Record(s, payload)
    .(payments := s.payments[p := s.payments[p].(status := Succeeded, gatewayId := Some(payload.event.externalId))],
      orders := s.orders[p := s.orders[p].(paid := true)],
      invoices := s.invoices[p := s.invoices[p].(paid := true)],
      ledger := s.ledger + [Capture(p, CaptureEntries(p, payload.event.amount, s.payments[p].currency))],
      outbox := s.outbox + [PaymentSucceeded(p)])
  }

  function RenewTx(s: Shop, sub: nat, p: nat, now: Time): Shop
    requires sub < |s.accounts|
  {
    s.(accounts := s.accounts[sub := Subs.Apply(s.accounts[sub], Subs.Renew(now), s.grace)],
       outbox := s.outbox + [SubscriptionRenewed(sub, p)])
  }

  function CaptureTx(s: Shop, payload: Payload, now: Time): (Shop, Reply)
    requires Numbered(s) && payload.event.payment < |s.payments|
  {
    var p := payload.event.payment;
    if GatewayIdUsed(s.payments, p, payload.event.externalId) then (s, GatewayIdTaken)
    else
      match s.invoices[p].sub
      case None => (Settle(s, payload), Captured(p))
      case Some(sub) =>
        if sub >= |s.accounts| then (s, RenewalNotFound)
        else if !Subs.Renewable(s.accounts[sub].row) then (s, RenewalState)
        else (RenewTx(Settle(s, payload), sub, p, now), Captured(p))
  }

  function CompleteTx(s: Shop, payload: Payload, now: Time): (Shop, Reply)
    requires Numbered(s)
  {
    var e := payload.event;
    if Malformed(e) then (s, Mismatch)
    else if e.eventId in s.receipts then
      if s.receipts[e.eventId] != payload then (s, Mismatch)
      else if e.payment >= |s.payments| then (s, PaymentNotFound)
      else (s, Duplicate(e.payment))
    else if e.payment >= |s.payments| then (s, PaymentNotFound)
    else
      var payment := s.payments[e.payment];
      if payment.amount != e.amount || payment.currency != Upper(e.currency) then (s, Mismatch)
      else if payment.status == Succeeded then
        if payment.gatewayId != Some(e.externalId) then (s, Mismatch)
        else (Record(s, payload), Duplicate(e.payment))
      else if payment.status == Failed then (s, PaymentState)
      else CaptureTx(s, payload, now)
  }

  // ---------------------------------------------------------------- steps

  datatype Step =
    | PlaceOrder(user: nat, plan: Option<Price>, quantity: int, key: string, seen: Option<nat>, failed: bool)
    | PlaceRenewal(user: nat, sub: nat, key: string, seen: Option<nat>, failed: bool)
    | Notify(payload: Payload, now: Time)
    | NewAccount(account: Subs.Account)
    | SubStep(sub: nat, step: Subs.Step)

  /** A lookup can only have found a row with the key it asked for. */
  predicate SeenOk(s: Shop, user: nat, key: string, seen: Option<nat>) {
    seen.Some? ==> seen.value < |s.orders| && s.orders[seen.value].user == user && s.orders[seen.value].key == key
  }

  predicate Enabled(s: Shop, step: Step) {
    && Numbered(s)
    && match step
       case PlaceOrder(user, _, _, key, seen, _) => SeenOk(s, user, key, seen)
       case PlaceRenewal(user, _, key, seen, _) => SeenOk(s, user, key, seen)
       case Notify(_, _) => true
       case NewAccount(_) => true
       case SubStep(sub, step) => sub < |s.accounts| && !step.Renew?
  }

  ghost function Apply(s: Shop, step: Step): Shop
    requires Enabled(s, step)
  {
    match step
    case PlaceOrder(user, plan, quantity, key, seen, failed) =>
      CreateOrderTx(s, user, plan, quantity, key, seen, failed).0
    case PlaceRenewal(user, sub, key, seen, failed) => CreateRenewalTx(s, user, sub, key, seen, failed).0
    case Notify(payload, now) => CompleteTx(s, payload, now).0
    case NewAccount(account) => s.(accounts := s.accounts + [account])
    case SubStep(sub, step) => s.(accounts := s.accounts[sub := Subs.Apply(s.accounts[sub], step, s.grace)])
  }

  ghost predicate Run(s: Shop, steps: seq<Step>)
    decreases |steps|
  {
    steps == [] || (Enabled(s, steps[0]) && Run(Apply(s, steps[0]), steps[1..]))
  }

  ghost function Exec(s: Shop, steps: seq<Step>): Shop
    requires Run(s, steps)
    decreases |steps|
  {
    if steps == [] then s else Exec(Apply(s, steps[0]), steps[1..])
  }
}
