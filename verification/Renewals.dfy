/** Renewal payments and the subscriptions they extend, over every run of the shop. */
module Renewals {
  import opened Prelude
  import opened Commerce
  import opened CommerceTheorems
  import Subs = Subscriptions

  /** Succeeded renewal payments of a subscription among the first k. */
  function PaidRenewals(s: Shop, sub: nat, k: nat): nat {
    if k == 0 then 0 else PaidRenewals(s, sub, k - 1) + if IsPaid(s, k - 1) && IsRenewal(s, k - 1, sub) then 1 else 0
  }

  /** The step captures a renewal payment of the subscription. */
  predicate Extends(s: Shop, step: Step, sub: nat)
    requires Enabled(s, step)
  {
    && step.Notify? && IsRenewal(s, step.payload.event.payment, sub)
    && CompleteTx(s, step.payload, step.now).1 == Captured(step.payload.event.payment)
  }

  /** What a step does to one subscription, as steps of that subscription alone. */
  function StepTrace(s: Shop, step: Step, sub: nat): seq<Subs.Step>
    requires Enabled(s, step)
  {
    if Extends(s, step, sub) then [Subs.Renew(step.now)]
    else if step.SubStep? && step.sub == sub then [step.step]
    else []
  }

  ghost function Trace(s: Shop, steps: seq<Step>, sub: nat): seq<Subs.Step>
    requires Run(s, steps)
    decreases |steps|
  {
    if steps == [] then [] else StepTrace(s, steps[0], sub) + Trace(Apply(s, steps[0]), steps[1..], sub)
  }

  lemma CaptureTrace(s: Shop, payload: Payload, now: Time, sub: nat)
    requires Numbered(s) && sub < |s.accounts| && payload.event.payment < |s.payments|
    requires !IsPaid(s, payload.event.payment)
    ensures var (t, reply) := CaptureTx(s, payload, now);
            && reply != Duplicate(payload.event.payment) && |t.accounts| == |s.accounts| && |t.payments| == |s.payments|
            && (reply != Captured(payload.event.payment) ==> t == s)
            && (reply == Captured(payload.event.payment) ==>
                  && (IsRenewal(s, payload.event.payment, sub) ==> Subs.Renewable(s.accounts[sub].row))
                  && (forall p :: IsPaid(t, p) <==> IsPaid(s, p) || p == payload.event.payment)
                  && (forall p, x :: IsRenewal(t, p, x) <==> IsRenewal(s, p, x)))
            && t.accounts[sub] ==
                 if reply == Captured(payload.event.payment) && IsRenewal(s, payload.event.payment, sub)
                 then Subs.Apply(s.accounts[sub], Subs.Renew(now), s.grace) else s.accounts[sub]
  {
  }

  lemma {:induction false} PaidSame(s: Shop, t: Shop, sub: nat, k: nat)
    requires forall p: nat :: p < k ==> (IsPaid(t, p) && IsRenewal(t, p, sub) <==> IsPaid(s, p) && IsRenewal(s, p, sub))
    ensures PaidRenewals(t, sub, k) == PaidRenewals(s, sub, k)
  {
    if k > 0 { PaidSame(s, t, sub, k - 1); }
  }

  lemma {:induction false} PaidOneMore(s: Shop, t: Shop, sub: nat, q: nat, k: nat)
    requires q < k && IsRenewal(s, q, sub) && !IsPaid(s, q)
    requires forall p :: IsPaid(t, p) <==> IsPaid(s, p) || p == q
    requires forall p :: IsRenewal(t, p, sub) <==> IsRenewal(s, p, sub)
    ensures PaidRenewals(t, sub, k) == PaidRenewals(s, sub, k) + 1
  {
    if q == k - 1 { PaidSame(s, t, sub, k - 1); } else { PaidOneMore(s, t, sub, q, k - 1); }
  }

  /** A webhook moves one subscription by one renewal exactly when it makes one renewal paid. */
  lemma NotifyTrace(s: Shop, payload: Payload, now: Time, sub: nat)
    requires Numbered(s) && sub < |s.accounts|
    ensures var step := Notify(payload, now);
            var t := CompleteTx(s, payload, now).0;
            && |t.accounts| == |s.accounts| && |t.payments| == |s.payments|
            && (Extends(s, step, sub) ==> Subs.Renewable(s.accounts[sub].row))
            && t.accounts[sub] == (if Extends(s, step, sub)
                                   then Subs.Apply(s.accounts[sub], Subs.Renew(now), s.grace) else s.accounts[sub])
            && PaidRenewals(t, sub, |t.payments|)
                 == PaidRenewals(s, sub, |s.payments|) + if Extends(s, step, sub) then 1 else 0
  {
    hide CaptureTx;
    var e := payload.event;
    var (t, reply) := CompleteTx(s, payload, now);
    if e.payment < |s.payments| && !IsPaid(s, e.payment) { CaptureTrace(s, payload, now, sub); }
    if Extends(s, Notify(payload, now), sub) {
      PaidOneMore(s, t, sub, e.payment, |s.payments|);
    } else {
      PaidSame(s, t, sub, |s.payments|);
    }
  }

  lemma StepTraceExact(s: Shop, step: Step, sub: nat)
    requires Enabled(s, step) && sub < |s.accounts|
    ensures var (a, t, trace) := (s.accounts[sub], Apply(s, step), StepTrace(s, step, sub));
            && sub < |t.accounts| && t.grace == s.grace
            && t.accounts[sub] == Subs.Exec(a, trace, s.grace)
            && PaidRenewals(t, sub, |t.payments|)
                 == PaidRenewals(s, sub, |s.payments|) + Subs.Renewals(a, trace, s.grace)
  {
    hide CompleteTx, CreateOrderTx, CreateRenewalTx, Subs.Apply;
    var a, t, trace := s.accounts[sub], Apply(s, step), StepTrace(s, step, sub);
    if step.Notify? {
      NotifyTrace(s, step.payload, step.now, sub);
      NotifyKeepsGrace(s, step.payload, step.now);
    } else {
      OtherFrame(s, step, sub);
    }
    if |trace| == 1 { SingleStep(a, trace[0], s.grace); }
  }

  /** Steps other than webhooks make no payment succeed, and orders leave the accounts alone. */
  lemma OtherFrame(s: Shop, step: Step, sub: nat)
    requires Enabled(s, step) && !step.Notify? && sub < |s.accounts|
    ensures var t := Apply(s, step);
            && PaidRenewals(t, sub, |t.payments|) == PaidRenewals(s, sub, |s.payments|)
            && t.grace == s.grace && (step.PlaceOrder? || step.PlaceRenewal? ==> t.accounts == s.accounts)
  {
    hide Subs.Apply;
    var t := Apply(s, step);
    PaidSame(s, t, sub, |s.payments|);
    if |t.payments| == |s.payments| + 1 { assert !IsPaid(t, |s.payments|); }
  }

  lemma NotifyKeepsGrace(s: Shop, payload: Payload, now: Time)
    requires Numbered(s)
    ensures CompleteTx(s, payload, now).0.grace == s.grace
  {
  }

  lemma SingleStep(a: Subs.Account, step: Subs.Step, grace: Time)
    ensures Subs.Exec(a, [step], grace) == Subs.Apply(a, step, grace)
    ensures Subs.Renewals(a, [step], grace) == if step.Renew? && Subs.Renewable(a.row) then 1 else 0
  {
    assert [step][1..] == [];
    assert Subs.Exec(Subs.Apply(a, step, grace), [], grace) == Subs.Apply(a, step, grace);
  }

  lemma TraceThen(a: Subs.Account, first: seq<Subs.Step>, rest: seq<Subs.Step>, grace: Time)
    requires |first| <= 1
    ensures Subs.Exec(a, first + rest, grace) == Subs.Exec(Subs.Exec(a, first, grace), rest, grace)
    ensures Subs.Renewals(a, first + rest, grace)
      == Subs.Renewals(a, first, grace) + Subs.Renewals(Subs.Exec(a, first, grace), rest, grace)
    ensures Subs.Timely(a, first, grace) && Subs.Timely(Subs.Exec(a, first, grace), rest, grace) ==>
      Subs.Timely(a, first + rest, grace)
  {
    if first == [] {
      assert first + rest == rest;
    } else {
      assert first == [first[0]] && (first + rest)[0] == first[0] && (first + rest)[1..] == rest;
      SingleStep(a, first[0], grace);
    }
  }

  /**
   * Renewals extend exactly once: any run changes a subscription like its own trace does, and the
   * trace renews it as many times as renewal payments of it became paid, no more and no fewer.
   */
  lemma {:induction false} RenewedOncePerPayment(s: Shop, steps: seq<Step>, sub: nat)
    requires Run(s, steps) && sub < |s.accounts|
    ensures var (t, trace) := (Exec(s, steps), Trace(s, steps, sub));
            && sub < |t.accounts| && t.accounts[sub] == Subs.Exec(s.accounts[sub], trace, s.grace)
            && PaidRenewals(t, sub, |t.payments|)
                 == PaidRenewals(s, sub, |s.payments|) + Subs.Renewals(s.accounts[sub], trace, s.grace)
    decreases |steps|
  {
    hide Apply, StepTrace;
    if steps != [] {
      StepTraceExact(s, steps[0], sub);
      RenewedOncePerPayment(Apply(s, steps[0]), steps[1..], sub);
      TraceIsShort(s, steps[0], sub);
      TraceThen(s.accounts[sub], StepTrace(s, steps[0], sub), Trace(Apply(s, steps[0]), steps[1..], sub), s.grace);
    }
  }

  lemma TraceIsShort(s: Shop, step: Step, sub: nat)
    requires Enabled(s, step)
    ensures |StepTrace(s, step, sub)| <= 1
  {
  }

  /** Every captured renewal of the subscription is paid by the end of the period it extends. */
  ghost predicate PaidOnTime(s: Shop, steps: seq<Step>, sub: nat)
    requires Run(s, steps) && sub < |s.accounts|
    decreases |steps|
  {
    steps == [] || (
      && (Extends(s, steps[0], sub) && s.accounts[sub].row.periodEnd.Some? ==>
           steps[0].now <= s.accounts[sub].row.periodEnd.value)
      && (StepTraceExact(s, steps[0], sub); PaidOnTime(Apply(s, steps[0]), steps[1..], sub)))
  }

  lemma StepTimely(s: Shop, step: Step, sub: nat)
    requires Enabled(s, step) && sub < |s.accounts|
    requires Extends(s, step, sub) && s.accounts[sub].row.periodEnd.Some? ==>
      step.now <= s.accounts[sub].row.periodEnd.value
    ensures Subs.Timely(s.accounts[sub], StepTrace(s, step, sub), s.grace)
  {
    hide CompleteTx;
    var trace := StepTrace(s, step, sub);
    if |trace| == 1 { assert trace[1..] == []; }
  }

  lemma {:induction false} TraceTimely(s: Shop, steps: seq<Step>, sub: nat)
    requires Run(s, steps) && sub < |s.accounts| && PaidOnTime(s, steps, sub)
    ensures Subs.Timely(s.accounts[sub], Trace(s, steps, sub), s.grace)
    decreases |steps|
  {
    hide Apply, StepTrace;
    if steps != [] {
      StepTraceExact(s, steps[0], sub);
      StepTimely(s, steps[0], sub);
      TraceTimely(Apply(s, steps[0]), steps[1..], sub);
      TraceIsShort(s, steps[0], sub);
      TraceThen(s.accounts[sub], StepTrace(s, steps[0], sub), Trace(Apply(s, steps[0]), steps[1..], sub), s.grace);
    }
  }

  /**
   * If all k renewal payments of a run arrive by the then-current end, the final end is exactly k
   * successive cycles past the first, whatever duplicate webhooks, lifecycle batches, cancel
   * toggles and other orders interleave.
   */
  lemma KPaymentsExtendKCycles(s: Shop, steps: seq<Step>, sub: nat)
    requires Run(s, steps) && sub < |s.accounts| && PaidOnTime(s, steps, sub)
    requires Subs.RecordOk(s.accounts[sub].row, s.grace) && s.accounts[sub].row.status != Subs.Pending
    ensures var t := Exec(s, steps);
            var k := PaidRenewals(t, sub, |t.payments|) - PaidRenewals(s, sub, |s.payments|);
            && k >= 0 && sub < |t.accounts|
            && t.accounts[sub].row.periodEnd
                 == Some(Subs.Cycles(s.accounts[sub].row.periodEnd.value, Subs.Months(s.accounts[sub].row.cycle), k))
            && Subs.CyclesLater(s.accounts[sub].row.cycle, s.accounts[sub].row.periodEnd.value,
                                t.accounts[sub].row.periodEnd.value, k)
  {
    hide Run, Subs.RecordOk, Subs.Exec, Subs.Cycles, Subs.CyclesLater, Subs.Timely, PaidOnTime;
    RenewedOncePerPayment(s, steps, sub);
    TraceTimely(s, steps, sub);
    Subs.RenewalsAccumulate(s.accounts[sub], Trace(s, steps, sub), s.grace);
  }
}
