/** Exactly-once capture, idempotent orders and renewals over every run of the shop. */
module CommerceTheorems {
  import opened Prelude
  import opened Ledger
  import opened Commerce
  import Subs = Subscriptions

  // ---------------------------------------------------------------- counting

  function CapturesOf(ledger: seq<Capture>, p: nat): nat {
    if |ledger| == 0 then 0 else (if ledger[0].payment == p then 1 else 0) + CapturesOf(ledger[1..], p)
  }

  function NoticesOf(outbox: seq<Notice>, n: Notice): nat {
    if |outbox| == 0 then 0 else (if outbox[0] == n then 1 else 0) + NoticesOf(outbox[1..], n)
  }

  lemma {:induction false} CapturesAppend(ledger: seq<Capture>, c: Capture, p: nat)
    ensures CapturesOf(ledger + [c], p) == CapturesOf(ledger, p) + if c.payment == p then 1 else 0
  {
    if |ledger| == 0 {
      assert ledger + [c] == [c];
    } else {
      assert (ledger + [c])[1..] == ledger[1..] + [c];
      CapturesAppend(ledger[1..], c, p);
    }
  }

  lemma {:induction false} NoticesAppend(outbox: seq<Notice>, m: Notice, n: Notice)
    ensures NoticesOf(outbox + [m], n) == NoticesOf(outbox, n) + if m == n then 1 else 0
  {
    if |outbox| == 0 {
      assert outbox + [m] == [m];
    } else {
      assert (outbox + [m])[1..] == outbox[1..] + [m];
      NoticesAppend(outbox[1..], m, n);
    }
  }

  // ---------------------------------------------------------------- invariant

  predicate IsPaid(s: Shop, p: nat) { p < |s.payments| && s.payments[p].status == Succeeded }

  predicate IsRenewal(s: Shop, p: nat, sub: nat) { p < |s.invoices| && s.invoices[p].sub == Some(sub) }

  /** One capture, one event, one renewal if it is one, and paid order and invoice; or none of it. */
  ghost predicate CapturedOnce(s: Shop, p: nat) {
    && CapturesOf(s.ledger, p) == (if IsPaid(s, p) then 1 else 0)
    && NoticesOf(s.outbox, PaymentSucceeded(p)) == (if IsPaid(s, p) then 1 else 0)
    && (forall sub :: NoticesOf(s.outbox, SubscriptionRenewed(sub, p))
         == if IsPaid(s, p) && IsRenewal(s, p, sub) then 1 else 0)
    && (p < |s.orders| ==> s.orders[p].paid == IsPaid(s, p))
    && (p < |s.invoices| ==> s.invoices[p].paid == IsPaid(s, p))
  }

  predicate InvoiceMatches(s: Shop, p: nat)
    requires p < |s.orders| && p < |s.invoices| && p < |s.payments|
  {
    && s.invoices[p].sub == (if s.orders[p].kind.Renewal? then Some(s.orders[p].kind.sub) else None)
    && s.invoices[p].amount == s.payments[p].amount == s.orders[p].total
    && (s.payments[p].gatewayId.Some? <==> s.payments[p].status == Succeeded)
  }

  ghost predicate CaptureOk(s: Shop, c: Capture) {
    && c.payment < |s.payments| && AllValid(c.entries) && Balanced(c.entries)
    && c.entries == CaptureEntries(c.payment, s.payments[c.payment].amount, s.payments[c.payment].currency)
  }

  /** A stored receipt belongs to a succeeded payment and agrees with it. */
  predicate ReceiptOk(s: Shop, id: string)
    requires id in s.receipts
  {
    var e := s.receipts[id].event;
    && e.eventId == id && !Malformed(e) && IsPaid(s, e.payment)
    && s.payments[e.payment].gatewayId == Some(e.externalId) && s.payments[e.payment].amount == e.amount
  }

  ghost predicate KeysUnique(orders: seq<Order>) {
    forall a, b :: 0 <= a < |orders| && 0 <= b < |orders|
                   && orders[a].user == orders[b].user && orders[a].key == orders[b].key ==>
      a == b
  }

  ghost predicate GatewayIdsUnique(payments: seq<Payment>) {
    forall a, b :: 0 <= a < |payments| && 0 <= b < |payments|
                   && payments[a].gatewayId.Some? && payments[a].gatewayId == payments[b].gatewayId ==>
      a == b
  }

  ghost predicate ShopInv(s: Shop) {
    && Numbered(s) && KeysUnique(s.orders) && GatewayIdsUnique(s.payments)
    && (forall p: nat :: CapturedOnce(s, p))
    && (forall p :: 0 <= p < |s.orders| ==> InvoiceMatches(s, p))
    && (forall i :: 0 <= i < |s.ledger| ==> CaptureOk(s, s.ledger[i]))
    && (forall id :: id in s.receipts ==> ReceiptOk(s, id))
  }

  lemma SettleCapturesOnce(s: Shop, payload: Payload, p: nat)
    requires ShopInv(s) && payload.event.payment < |s.payments| && !IsPaid(s, payload.event.payment)
    requires s.invoices[payload.event.payment].sub.None? || p != payload.event.payment
    ensures CapturedOnce(Settle(s, payload), p)
  {
    var q := payload.event.payment;
    assert CapturedOnce(s, p);
    CapturesAppend(s.ledger, Capture(q, CaptureEntries(q, payload.event.amount, s.payments[q].currency)), p);
    NoticesAppend(s.outbox, PaymentSucceeded(q), PaymentSucceeded(p));
    forall sub ensures NoticesOf(Settle(s, payload).outbox, SubscriptionRenewed(sub, p))
      == NoticesOf(s.outbox, SubscriptionRenewed(sub, p)) {
      NoticesAppend(s.outbox, PaymentSucceeded(q), SubscriptionRenewed(sub, p));
    }
  }

  lemma RenewCapturesOnce(s: Shop, payload: Payload, sub: nat, now: Time, p: nat)
    requires ShopInv(s) && payload.event.payment < |s.payments| && !IsPaid(s, payload.event.payment)
    requires sub < |s.accounts| && s.invoices[payload.event.payment].sub == Some(sub)
    ensures CapturedOnce(RenewTx(Settle(s, payload), sub, payload.event.payment, now), p)
  {
    var q := payload.event.payment;
    assert CapturedOnce(s, p);
    CapturesAppend(s.ledger, Capture(q, CaptureEntries(q, payload.event.amount, s.payments[q].currency)), p);
    RenewNotices(s.outbox, q, sub, PaymentSucceeded(p));
    var after := s.outbox + [PaymentSucceeded(q)] + [SubscriptionRenewed(sub, q)];
    forall x ensures NoticesOf(after, SubscriptionRenewed(x, p))
        == NoticesOf(s.outbox, SubscriptionRenewed(x, p)) + if x == sub && p == q then 1 else 0
    {
      RenewNotices(s.outbox, q, sub, SubscriptionRenewed(x, p));
    }
  }

  lemma RenewNotices(outbox: seq<Notice>, q: nat, sub: nat, n: Notice)
    ensures NoticesOf(outbox + [PaymentSucceeded(q)] + [SubscriptionRenewed(sub, q)], n)
      == NoticesOf(outbox, n)
         + (if n == PaymentSucceeded(q) then 1 else 0) + if n == SubscriptionRenewed(sub, q) then 1 else 0
  {
    NoticesAppend(outbox, PaymentSucceeded(q), n);
    NoticesAppend(outbox + [PaymentSucceeded(q)], SubscriptionRenewed(sub, q), n);
  }

  /** The clauses about other tables do not look at the outbox or the accounts. */
  lemma SettleKeepsRest(s: Shop, payload: Payload)
    requires ShopInv(s) && payload.event.payment < |s.payments| && !IsPaid(s, payload.event.payment)
    requires !Malformed(payload.event) && s.payments[payload.event.payment].amount == payload.event.amount
    requires payload.event.eventId !in s.receipts
    requires !GatewayIdUsed(s.payments, payload.event.payment, payload.event.externalId)
    ensures var t := Settle(s, payload);
            && Numbered(t) && KeysUnique(t.orders) && GatewayIdsUnique(t.payments)
            && (forall p :: 0 <= p < |t.orders| ==> InvoiceMatches(t, p))
            && (forall i :: 0 <= i < |t.ledger| ==> CaptureOk(t, t.ledger[i]))
            && (forall id :: id in t.receipts ==> ReceiptOk(t, id))
  {
    hide CapturedOnce;
    var t := Settle(s, payload);
    var q := payload.event.payment;
    PairBalances(GatewayCash(q), Receivable(q), payload.event.amount, s.payments[q].currency, false);
    forall p | 0 <= p < |t.orders| ensures InvoiceMatches(t, p) { assert InvoiceMatches(s, p); }
    forall i | 0 <= i < |t.ledger| ensures CaptureOk(t, t.ledger[i]) {
      if i < |s.ledger| { assert CaptureOk(s, s.ledger[i]); }
    }
    forall id | id in t.receipts ensures ReceiptOk(t, id) {
      if id != payload.event.eventId { assert ReceiptOk(s, id); }
    }
  }

  lemma CaptureKeepsInv(s: Shop, payload: Payload, now: Time)
    requires ShopInv(s) && payload.event.payment < |s.payments| && !IsPaid(s, payload.event.payment)
    requires !Malformed(payload.event) && s.payments[payload.event.payment].amount == payload.event.amount
    requires payload.event.eventId !in s.receipts
    ensures ShopInv(CaptureTx(s, payload, now).0)
  {
    hide CapturedOnce, InvoiceMatches, CaptureOk, ReceiptOk;
    var t := CaptureTx(s, payload, now).0;
    if t != s {
      SettleKeepsRest(s, payload);
      var p := payload.event.payment;
      if s.invoices[p].sub.None? {
        forall q: nat ensures CapturedOnce(t, q) { SettleCapturesOnce(s, payload, q); }
      } else {
        forall q: nat ensures CapturedOnce(t, q) { RenewCapturesOnce(s, payload, s.invoices[p].sub.value, now, q); }
        RestIgnoresRenewal(Settle(s, payload), s.invoices[p].sub.value, p, now);
      }
    }
  }

  lemma RestIgnoresRenewal(s: Shop, sub: nat, p: nat, now: Time)
    requires Numbered(s) && sub < |s.accounts|
    requires forall p :: 0 <= p < |s.orders| ==> InvoiceMatches(s, p)
    requires forall i :: 0 <= i < |s.ledger| ==> CaptureOk(s, s.ledger[i])
    requires forall id :: id in s.receipts ==> ReceiptOk(s, id)
    ensures forall q :: 0 <= q < |s.orders| ==> InvoiceMatches(RenewTx(s, sub, p, now), q)
    ensures forall i :: 0 <= i < |s.ledger| ==> CaptureOk(RenewTx(s, sub, p, now), s.ledger[i])
    ensures forall id :: id in s.receipts ==> ReceiptOk(RenewTx(s, sub, p, now), id)
  {
    var t := RenewTx(s, sub, p, now);
    forall q | 0 <= q < |s.orders| ensures InvoiceMatches(t, q) { assert InvoiceMatches(s, q); }
    forall i | 0 <= i < |s.ledger| ensures CaptureOk(t, s.ledger[i]) { assert CaptureOk(s, s.ledger[i]); }
    forall id | id in s.receipts ensures ReceiptOk(t, id) { assert ReceiptOk(s, id); }
  }

  lemma RecordKeepsInv(s: Shop, payload: Payload)
    requires ShopInv(s) && !Malformed(payload.event) && IsPaid(s, payload.event.payment)
    requires s.payments[payload.event.payment].gatewayId == Some(payload.event.externalId)
    requires s.payments[payload.event.payment].amount == payload.event.amount
    ensures ShopInv(Record(s, payload))
  {
    var t := Record(s, payload);
    forall p: nat ensures CapturedOnce(t, p) { assert CapturedOnce(s, p); }
    forall p | 0 <= p < |t.orders| ensures InvoiceMatches(t, p) { assert InvoiceMatches(s, p); }
    forall i | 0 <= i < |t.ledger| ensures CaptureOk(t, t.ledger[i]) { assert CaptureOk(s, s.ledger[i]); }
    forall id | id in t.receipts ensures ReceiptOk(t, id) {
      if id != payload.event.eventId { assert ReceiptOk(s, id); }
    }
  }

  lemma InsertKeepsInv(s: Shop, d: Draft)
    requires ShopInv(s) && !Taken(s, d.user, d.key)
    ensures ShopInv(Insert(s, d))
  {
    var t := Insert(s, d);
    forall p: nat ensures CapturedOnce(t, p) { assert CapturedOnce(s, p); }
    forall p | 0 <= p < |t.orders| ensures InvoiceMatches(t, p) { if p < |s.orders| { assert InvoiceMatches(s, p); } }
    forall i | 0 <= i < |t.ledger| ensures CaptureOk(t, t.ledger[i]) { assert CaptureOk(s, s.ledger[i]); }
    forall id | id in t.receipts ensures ReceiptOk(t, id) { assert ReceiptOk(s, id); }
  }

  lemma AccountsKeepInv(s: Shop, accounts: seq<Subs.Account>)
    requires ShopInv(s)
    ensures ShopInv(s.(accounts := accounts))
  {
    var t := s.(accounts := accounts);
    forall p: nat ensures CapturedOnce(t, p) { assert CapturedOnce(s, p); }
    forall p | 0 <= p < |t.orders| ensures InvoiceMatches(t, p) { assert InvoiceMatches(s, p); }
    forall i | 0 <= i < |t.ledger| ensures CaptureOk(t, t.ledger[i]) { assert CaptureOk(s, s.ledger[i]); }
    forall id | id in t.receipts ensures ReceiptOk(t, id) { assert ReceiptOk(s, id); }
  }

  /** A webhook either changes nothing, stores one receipt, or captures. */
  lemma CompleteCases(s: Shop, payload: Payload, now: Time)
    requires Numbered(s)
    ensures var (t, reply) := CompleteTx(s, payload, now);
            var e := payload.event;
            || t == s
            || (&& t == Record(s, payload) && reply == Duplicate(e.payment) && !Malformed(e) && IsPaid(s, e.payment)
                && s.payments[e.payment].gatewayId == Some(e.externalId) && s.payments[e.payment].amount == e.amount)
            || (&& (t, reply) == CaptureTx(s, payload, now) && e.payment < |s.payments| && !IsPaid(s, e.payment)
                && !Malformed(e) && s.payments[e.payment].amount == e.amount && e.eventId !in s.receipts)
  {
  }

  lemma CompleteKeepsInv(s: Shop, payload: Payload, now: Time)
    requires ShopInv(s)
    ensures ShopInv(CompleteTx(s, payload, now).0)
  {
    hide ShopInv, CompleteTx, CaptureTx;
    assert Numbered(s) by { ShopIsNumbered(s); }
    CompleteCases(s, payload, now);
    var (t, reply) := CompleteTx(s, payload, now);
    if t == s {
    } else if t == Record(s, payload) && reply == Duplicate(payload.event.payment) && IsPaid(s, payload.event.payment) {
      RecordKeepsInv(s, payload);
    } else {
      CaptureKeepsInv(s, payload, now);
    }
  }

  lemma ShopIsNumbered(s: Shop)
    requires ShopInv(s)
    ensures Numbered(s)
  {
  }

  lemma StepKeepsInv(s: Shop, step: Step)
    requires ShopInv(s) && Enabled(s, step)
    ensures ShopInv(Apply(s, step))
  {
    hide ShopInv, CompleteTx;
    match step
    case PlaceOrder(user, plan, quantity, key, seen, failed) =>
      if Apply(s, step) != s { InsertKeepsInv(s, PurchaseDraft(user, plan.value, quantity, key)); }
    case PlaceRenewal(user, sub, key, seen, failed) =>
      if Apply(s, step) != s { InsertKeepsInv(s, RenewalDraft(user, sub, s.accounts[sub].row.price, key)); }
    case Notify(payload, now) => CompleteKeepsInv(s, payload, now);
    case NewAccount(account) => AccountsKeepInv(s, s.accounts + [account]);
    case SubStep(sub, step) => AccountsKeepInv(s, s.accounts[sub := Subs.Apply(s.accounts[sub], step, s.grace)]);
  }

  /**
   * Exactly-once capture.  Over any sequence of webhooks (duplicated, conflicting, reordered, with
   * wrong amounts), orders and subscription changes: a payment has one balanced capture, one
   * payment.succeeded event and, for a renewal, one subscription.renewed event if it succeeded
   * and none otherwise; its order and invoice are paid exactly then; and every stored receipt
   * belongs to a succeeded payment.
   */
  lemma {:induction false} ExactlyOnceCapture(s: Shop, steps: seq<Step>)
    requires ShopInv(s) && Run(s, steps)
    ensures ShopInv(Exec(s, steps))
    decreases |steps|
  {
    hide ShopInv;
    if steps != [] {
      StepKeepsInv(s, steps[0]);
      ExactlyOnceCapture(Apply(s, steps[0]), steps[1..]);
    }
  }

  lemma EmptyShop(accounts: seq<Subs.Account>, grace: Time)
    ensures ShopInv(Shop([], [], [], map[], [], [], accounts, grace))
  {
  }

  // ---------------------------------------------------------------- what is never undone

  /** Orders keep their identity, succeeded payments and stored receipts never change. */
  ghost predicate Grows(s: Shop, t: Shop) {
    && Numbered(s) && Numbered(t) && |s.orders| <= |t.orders| && |s.accounts| <= |t.accounts|
    && (forall o :: 0 <= o < |s.orders| ==> t.orders[o] == s.orders[o].(paid := t.orders[o].paid))
    && (forall o :: 0 <= o < |s.orders| ==> t.invoices[o] == s.invoices[o].(paid := t.invoices[o].paid))
    && (forall p :: 0 <= p < |s.payments| ==>
          && t.payments[p].amount == s.payments[p].amount && t.payments[p].currency == s.payments[p].currency
          && (s.payments[p].status in {Succeeded, Failed} ==> t.payments[p] == s.payments[p]))
    && (forall id :: id in s.receipts ==> id in t.receipts && t.receipts[id] == s.receipts[id])
    && s.ledger <= t.ledger && s.outbox <= t.outbox
  }

  lemma CaptureGrows(s: Shop, payload: Payload, now: Time)
    requires Numbered(s) && payload.event.payment < |s.payments| && payload.event.eventId !in s.receipts
    requires s.payments[payload.event.payment].status !in {Succeeded, Failed}
    ensures Grows(s, CaptureTx(s, payload, now).0)
  {
  }

  lemma CompleteGrows(s: Shop, payload: Payload, now: Time)
    requires Numbered(s)
    ensures Grows(s, CompleteTx(s, payload, now).0)
  {
    hide CaptureTx;
    var e := payload.event;
    if e.payment < |s.payments| && e.eventId !in s.receipts && s.payments[e.payment].status !in {Succeeded, Failed} {
      CaptureGrows(s, payload, now);
    }
  }

  lemma StepGrows(s: Shop, step: Step)
    requires Enabled(s, step)
    ensures Grows(s, Apply(s, step))
  {
    hide CompleteTx;
    if step.Notify? { CompleteGrows(s, step.payload, step.now); }
  }

  lemma GrowsTransitive(s: Shop, t: Shop, u: Shop)
    requires Grows(s, t) && Grows(t, u)
    ensures Grows(s, u)
  {
  }

  lemma {:induction false} RunGrows(s: Shop, steps: seq<Step>)
    requires Numbered(s) && Run(s, steps)
    ensures Grows(s, Exec(s, steps))
    decreases |steps|
  {
    hide Apply;
    if steps != [] {
      StepGrows(s, steps[0]);
      RunGrows(Apply(s, steps[0]), steps[1..]);
      GrowsTransitive(s, Apply(s, steps[0]), Exec(s, steps));
    }
  }

  /**
   * A webhook that was accepted once (captured, or recorded as a duplicate) is answered as a
   * duplicate ever after, with no effect, whatever happened in between.
   */
  lemma RedeliveryIsHarmless(s: Shop, payload: Payload, now: Time, steps: seq<Step>, later: Time)
    requires ShopInv(s) && Numbered(s)
    requires CompleteTx(s, payload, now).1 in {Captured(payload.event.payment), Duplicate(payload.event.payment)}
    requires Run(CompleteTx(s, payload, now).0, steps)
    ensures var t := Exec(CompleteTx(s, payload, now).0, steps);
            Numbered(t) && CompleteTx(t, payload, later) == (t, Duplicate(payload.event.payment))
  {
    var u := CompleteTx(s, payload, now).0;
    assert !Malformed(payload.event);
    AcceptedIsRecorded(s, payload, now);
    CompleteGrows(s, payload, now);
    RunGrows(u, steps);
  }

  lemma AcceptedIsRecorded(s: Shop, payload: Payload, now: Time)
    requires Numbered(s)
    requires CompleteTx(s, payload, now).1 in {Captured(payload.event.payment), Duplicate(payload.event.payment)}
    ensures !Malformed(payload.event) && payload.event.payment < |s.payments|
    ensures var u := CompleteTx(s, payload, now).0;
            payload.event.eventId in u.receipts && u.receipts[payload.event.eventId] == payload
  {
  }

  // ---------------------------------------------------------------- idempotent creation

  /** The order reply of a creation step. */
  ghost function ReplyOf(s: Shop, step: Step): OrderReply
    requires Enabled(s, step) && (step.PlaceOrder? || step.PlaceRenewal?)
  {
    if step.PlaceOrder? then CreateOrderTx(s, step.user, step.plan, step.quantity, step.key, step.seen, step.failed).1
    else CreateRenewalTx(s, step.user, step.sub, step.key, step.seen, step.failed).1
  }

  /** A successful reply names an order with the caller's user and key. */
  lemma ReplyNamesKey(s: Shop, step: Step)
    requires Enabled(s, step) && (step.PlaceOrder? || step.PlaceRenewal?) && ReplyOf(s, step).Placed?
    ensures var o := ReplyOf(s, step).order;
            var t := Apply(s, step);
            o < |t.orders| && t.orders[o].user == step.user && t.orders[o].key == step.key
  {
  }

  /**
   * Idempotent creation under races: two successful replies for one user and key, with any run of
   * other requests between them and however stale their lookups were, name the same order.
   */
  lemma OneOrderPerKey(s: Shop, first: Step, steps: seq<Step>, second: Step)
    requires ShopInv(s) && Enabled(s, first) && Run(Apply(s, first), steps)
    requires Enabled(Exec(Apply(s, first), steps), second)
    requires (first.PlaceOrder? || first.PlaceRenewal?) && (second.PlaceOrder? || second.PlaceRenewal?)
    requires first.user == second.user && first.key == second.key
    requires ReplyOf(s, first).Placed? && ReplyOf(Exec(Apply(s, first), steps), second).Placed?
    ensures ReplyOf(s, first).order == ReplyOf(Exec(Apply(s, first), steps), second).order
  {
    hide Apply, ShopInv, ReplyOf;
    var t := Apply(s, first);
    var u := Exec(t, steps);
    var v := Apply(u, second);
    StepKeepsInv(s, first);
    ShopIsNumbered(t);
    ExactlyOnceCapture(t, steps);
    StepKeepsInv(u, second);
    RunGrows(t, steps);
    StepGrows(u, second);
    ReplyNamesKey(s, first);
    ReplyNamesKey(u, second);
    SameKeySameOrder(v, ReplyOf(s, first).order, ReplyOf(u, second).order);
  }

  lemma SameKeySameOrder(s: Shop, a: nat, b: nat)
    requires ShopInv(s) && a < |s.orders| && b < |s.orders|
    requires s.orders[a].user == s.orders[b].user && s.orders[a].key == s.orders[b].key
    ensures a == b
  {
    assert KeysUnique(s.orders);
  }

  /**
   * A creation inserts order, invoice and payment together, and then no statement of it failed and
   * the key was free; in every other case it leaves no trace.
   */
  lemma CreationIsAtomic(s: Shop, step: Step)
    requires Enabled(s, step) && (step.PlaceOrder? || step.PlaceRenewal?)
    ensures var t := Apply(s, step);
            if ReplyOf(s, step) == Placed(|s.orders|)
            then
              && |t.orders| == |t.invoices| == |t.payments| == |s.orders| + 1
              && !Taken(s, step.user, step.key) && !step.failed
              && t.payments[|s.orders|]
                   == Payment(t.orders[|s.orders|].total, t.orders[|s.orders|].currency, Pending, None)
            else t == s
  {
  }

  // ---------------------------------------------------------------- what each request does

  /** Order o asks for exactly this: its row, its invoice and its pending payment agree on it. */
  predicate Billed(s: Shop, o: nat, user: nat, key: string, kind: Kind, quantity: int, price: Price) {
    && o < |s.orders| && o < |s.invoices| && o < |s.payments|
    && s.orders[o] == Order(user, key, kind, quantity, price.minor, price.currency, false)
    && s.invoices[o] == Invoice(match kind case Purchase => None case Renewal(sub) => Some(sub), price.minor, false)
    && s.payments[o] == Payment(price.minor, price.currency, Pending, None)
  }

  /** The answer for a key that already has order o: that order if it is of the same kind. */
  predicate Answers(s: Shop, o: nat, kind: Kind, reply: OrderReply)
    requires o < |s.orders|
  {
    reply == if s.orders[o].kind == kind then Placed(o) else Conflict
  }

  /** Order o is the one with this user and key. */
  predicate Has(s: Shop, o: nat, user: nat, key: string) {
    o < |s.orders| && s.orders[o].user == user && s.orders[o].key == key
  }

  /** What becomes of a valid request, new or repeated. */
  ghost predicate Ordered(
      s: Shop, t: Shop, reply: OrderReply,
      user: nat, key: string, kind: Kind, quantity: int, price: Price, failed: bool)
  {
    if exists o :: Has(s, o, user, key) then t == s && forall o :: Has(s, o, user, key) ==> Answers(s, o, kind, reply)
    else if failed then t == s && reply == StoreFailed
    else
      && reply == Placed(|s.orders|) && |t.orders| == |s.orders| + 1 && t.orders[..|s.orders|] == s.orders
      && Billed(t, |s.orders|, user, key, kind, quantity, price)
  }

  lemma InsertVerdict(s: Shop, d: Draft, failed: bool)
    requires Numbered(s) && KeysUnique(s.orders)
    ensures var (t, reply) := InsertTx(s, d, failed);
            Ordered(s, t, reply, d.user, d.key, d.kind, d.quantity, Price(d.total, d.currency), failed)
  {
    if Taken(s, d.user, d.key) { assert Has(s, Find(s, d.user, d.key), d.user, d.key); }
  }

  /** What a purchase request does, in every case, in terms of the request alone. */
  lemma PurchaseVerdict(
      s: Shop, user: nat, plan: Option<Price>, quantity: int, key: string, seen: Option<nat>, failed: bool)
    requires ShopInv(s) && SeenOk(s, user, key, seen)
    requires plan.Some? ==> 0 <= plan.value.minor <= MAX_INT64
    ensures var (t, reply) := CreateOrderTx(s, user, plan, quantity, key, seen, failed);
            if !(1 <= quantity <= 100) then t == s && reply == InvalidQuantity
            else if !(8 <= |key| <= 255) then t == s && reply == InvalidKey
            else if seen.Some? then t == s && Answers(s, seen.value, Purchase, reply)
            else if plan.None? then t == s && reply == PlanNotFound
            else if plan.value.minor * quantity > MAX_INT64 then t == s && reply == InvalidQuantity
            else Ordered(s, t, reply, user, key, Purchase, quantity,
                         Price(plan.value.minor * quantity, plan.value.currency), failed)
  {
    hide CapturedOnce, InvoiceMatches, CaptureOk, ReceiptOk, InsertTx, Ordered;
    if plan.Some? && quantity >= 1 {
      OverflowGuardExact(plan.value.minor, quantity);
      InsertVerdict(s, PurchaseDraft(user, plan.value, quantity, key), failed);
    }
  }

  /** What a renewal request does: one cycle at the subscription's own price. */
  lemma RenewalVerdict(s: Shop, user: nat, sub: nat, key: string, seen: Option<nat>, failed: bool)
    requires ShopInv(s) && SeenOk(s, user, key, seen)
    ensures var (t, reply) := CreateRenewalTx(s, user, sub, key, seen, failed);
            if !(8 <= |key| <= 255) then t == s && reply == InvalidKey
            else if seen.Some? then t == s && Answers(s, seen.value, Renewal(sub), reply)
            else if sub >= |s.accounts| || s.accounts[sub].row.owner != user
            then t == s && reply == SubscriptionNotFound
            else if s.accounts[sub].row.status in {Subs.Pending, Subs.Cancelled}
            then t == s && reply == SubscriptionState
            else Ordered(s, t, reply, user, key, Renewal(sub), 1, s.accounts[sub].row.price, failed)
  {
    hide CapturedOnce, InvoiceMatches, CaptureOk, ReceiptOk, InsertTx, Ordered;
    if sub < |s.accounts| {
      var d := RenewalDraft(user, sub, s.accounts[sub].row.price, key);
      InsertVerdict(s, d, failed);
      assert Price(d.total, d.currency) == s.accounts[sub].row.price;
      match s.accounts[sub].row.status
      case Pending => case Active => case PastDue => case Suspended => case Cancelled =>
    }
  }

  /** The two currency codes are the same up to the case of the webhook's. */
  predicate SameCurrency(stored: string, given: string) {
    |stored| == |given| && forall i :: 0 <= i < |given| ==>
      stored[i] as int == if 'a' <= given[i] <= 'z' then given[i] as int - 32 else given[i] as int
  }

  lemma UpperIsSame(stored: string, given: string)
    ensures stored == Upper(given) <==> SameCurrency(stored, given)
  {
    if SameCurrency(stored, given) { assert forall i :: 0 <= i < |given| ==> stored[i] == Upper(given)[i]; }
  }

  /** A webhook the service looks at: named, successful, with an amount and a currency code. */
  predicate Proper(e: Webhook) {
    |e.eventId| > 0 && |e.externalId| > 0 && e.status == "succeeded" && e.amount >= 0 && |e.currency| == 3
  }

  /** It is about an existing payment of exactly this amount and currency. */
  predicate Fitting(s: Shop, e: Webhook) {
    e.payment < |s.payments| && s.payments[e.payment].amount == e.amount
    && SameCurrency(s.payments[e.payment].currency, e.currency)
  }

  /** The first webhook that may capture this payment. */
  ghost predicate Capturable(s: Shop, e: Webhook) {
    && Proper(e) && e.eventId !in s.receipts && Fitting(s, e) && e.payment < |s.invoices|
    && s.payments[e.payment].status in {Pending, Processing}
    && (forall q :: 0 <= q < |s.payments| && q != e.payment ==> s.payments[q].gatewayId != Some(e.externalId))
    && (s.invoices[e.payment].sub.Some? ==>
          && s.invoices[e.payment].sub.value < |s.accounts|
          && s.accounts[s.invoices[e.payment].sub.value].row.status in {Subs.Active, Subs.PastDue, Subs.Suspended})
  }

  /** A webhook that repeats what is already known. */
  predicate Repeated(s: Shop, payload: Payload) {
    var e := payload.event;
    && Proper(e) && e.payment < |s.payments|
    && (if e.eventId in s.receipts then s.receipts[e.eventId] == payload
        else Fitting(s, e) && s.payments[e.payment].status == Succeeded
             && s.payments[e.payment].gatewayId == Some(e.externalId))
  }

  /** Everything a capture writes: the money moves from the receivable to the gateway's cash. */
  ghost predicate CaptureWritten(s: Shop, t: Shop, payload: Payload, now: Time)
    requires payload.event.payment < |s.payments| && payload.event.payment < |s.orders|
    requires payload.event.payment < |s.invoices|
  {
    var e := payload.event;
    var p := e.payment;
    && t.payments == s.payments[p := Payment(e.amount, s.payments[p].currency, Succeeded, Some(e.externalId))]
    && t.orders == s.orders[p := s.orders[p].(paid := true)]
    && t.invoices == s.invoices[p := s.invoices[p].(paid := true)]
    && t.receipts == s.receipts[e.eventId := payload]
    && |t.ledger| == |s.ledger| + 1 && t.ledger[..|s.ledger|] == s.ledger && CashIn(t.ledger[|s.ledger|], p, e.amount)
    && (match s.invoices[p].sub
        case None => t.accounts == s.accounts && t.outbox == s.outbox + [PaymentSucceeded(p)]
        case Some(k) =>
          && k < |s.accounts| && t.accounts == s.accounts[k := Subs.Apply(s.accounts[k], Subs.Renew(now), s.grace)]
          && t.outbox == s.outbox + [PaymentSucceeded(p), SubscriptionRenewed(k, p)])
  }

  /** The gateway's cash for the payment rises by the amount and the receivable falls by it. */
  ghost predicate CashIn(c: Capture, p: nat, amount: int) {
    && c.payment == p
    && HolderNet(c.entries, GatewayCash(p)) == amount && HolderNet(c.entries, Receivable(p)) == -amount
    && forall h :: h != GatewayCash(p) && h != Receivable(p) ==> HolderNet(c.entries, h) == 0
  }

  lemma CaptureMovesCash(p: nat, amount: int, currency: string)
    ensures CashIn(Capture(p, CaptureEntries(p, amount, currency)), p, amount)
  {
    var es := CaptureEntries(p, amount, currency);
    forall h
      ensures HolderNet(es, h) == if h == GatewayCash(p) then amount else if h == Receivable(p) then -amount else 0
    {
      HolderNetPair(es[0], es[1], h);
    }
  }

  lemma CaptureVerdict(s: Shop, payload: Payload, now: Time)
    requires Numbered(s) && payload.event.payment < |s.payments| && payload.event.eventId !in s.receipts
    requires s.payments[payload.event.payment].amount == payload.event.amount
    ensures var (t, reply) := CaptureTx(s, payload, now);
            var p := payload.event.payment;
            && reply !in {Duplicate(p)}
            && (reply != Captured(p) ==> t == s)
            && (reply == Captured(p) ==> CaptureWritten(s, t, payload, now))
            && (reply == Captured(p) <==>
                  && (forall q :: 0 <= q < |s.payments| && q != p ==>
                        s.payments[q].gatewayId != Some(payload.event.externalId))
                  && (s.invoices[p].sub.Some? ==>
                        && s.invoices[p].sub.value < |s.accounts|
                        && s.accounts[s.invoices[p].sub.value].row.status
                             in {Subs.Active, Subs.PastDue, Subs.Suspended}))
  {
    hide Subs.Apply, CashIn;
    var p := payload.event.payment;
    CaptureMovesCash(p, payload.event.amount, s.payments[p].currency);
    forall k: nat ensures s.outbox + [PaymentSucceeded(p)] + [SubscriptionRenewed(k, p)]
      == s.outbox + [PaymentSucceeded(p), SubscriptionRenewed(k, p)] {}
  }

  /**
   * What a webhook does, in every case: it captures exactly the first fitting one of an open
   * payment, acknowledges exactly the repeated ones, and refuses all others without a trace.
   */
  lemma WebhookVerdict(s: Shop, payload: Payload, now: Time)
    requires Numbered(s)
    ensures var (t, reply) := CompleteTx(s, payload, now);
            var p := payload.event.payment;
            && (reply == Captured(p) <==> Capturable(s, payload.event))
            && (reply == Duplicate(p) <==> Repeated(s, payload))
            && (Capturable(s, payload.event) ==> CaptureWritten(s, t, payload, now))
            && (Repeated(s, payload) ==> t == s.(receipts := s.receipts[payload.event.eventId := payload]))
            && (!Capturable(s, payload.event) && !Repeated(s, payload) ==> t == s)
  {
    hide CaptureTx, CaptureWritten, SameCurrency, Upper;
    var e := payload.event;
    if e.payment < |s.payments| {
      UpperIsSame(s.payments[e.payment].currency, e.currency);
      if s.payments[e.payment].amount == e.amount && e.eventId !in s.receipts { CaptureVerdict(s, payload, now); }
    }
    if e.eventId in s.receipts && s.receipts[e.eventId] == payload {
      assert s.receipts[e.eventId := payload] == s.receipts;
    }
  }
}
