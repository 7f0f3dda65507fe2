/**
 * The subscription lifecycle: a timed state machine driven by bounded batches and interleaved
 * with renewals, cancel toggles and provisioning.
 */
module Subscriptions {
  import opened Prelude
  import opened Calendar

  datatype Status = Pending | Active | PastDue | Suspended | Cancelled

  datatype Cycle = Monthly | Quarterly | Yearly

  datatype Subscription = Subscription(
    owner: nat, price: Price, status: Status, cycle: Cycle, startedAt: Option<Time>, periodStart: Option<Time>,
    periodEnd: Option<Time>, nextDueAt: Option<Time>, graceUntil: Option<Time>,
    cancelAtPeriodEnd: bool, endedAt: Option<Time>, version: nat)

  datatype Topic =
    | Activated | CancelScheduled | CancelScheduleRemoved | CancelledTopic | PastDueTopic | SuspendedTopic | Renewed

  /** A subscription row together with the events ever written about it. */
  datatype Account = Account(row: Subscription, events: seq<Topic>)

  // ---------------------------------------------------------------- row updates

  function NewSubscription(owner: nat, price: Price, cycle: Cycle): Subscription {
    Subscription(owner, price, Pending, cycle, None, None, None, None, None, false, None, 1)
  }

  function Months(cycle: Cycle): (n: nat)
    ensures n > 0
  {
    match cycle case Monthly => 1 case Quarterly => 3 case Yearly => 12
  }

  function Coalesce(a: Option<Time>, b: Time): Time { if a.Some? then a.value else b }

  predicate Reached(a: Option<Time>, now: Time) { a.Some? && a.value <= now }

  /** What a lifecycle transition writes: the new status with its times, and its event. */
  datatype Decision = Decision(status: Status, topic: Topic, graceUntil: Option<Time>, endedAt: Option<Time>)

  function Decide(row: Subscription, now: Time, grace: Time): Option<Decision> {
    if row.status == Active && row.cancelAtPeriodEnd && Reached(row.periodEnd, now) then
      Some(Decision(Cancelled, CancelledTopic, None, Some(now)))
    else if row.status == Active && Reached(row.periodEnd, now) then
      Some(Decision(PastDue, PastDueTopic, Some(row.periodEnd.value + grace), None))
    else if row.status == PastDue && Reached(row.graceUntil, now) then
      Some(Decision(Suspended, SuspendedTopic, row.graceUntil, None))
    else None
  }

  /** The WHERE clause of the claim query. */
  predicate Due(row: Subscription, now: Time) {
    || (row.status == Active && Reached(row.periodEnd, now))
    || (row.status == PastDue && Reached(row.graceUntil, now))
  }

  /** The claim query selects exactly the rows the decision acts on: no claimed row is skipped. */
  lemma ClaimMatchesDecision(row: Subscription, now: Time, grace: Time)
    ensures Due(row, now) <==> Decide(row, now, grace).Some?
  {
  }

  /** What a due row becomes, and that no other row changes. */
  lemma LifecycleWrites(a: Account, now: Time, grace: Time)
    ensures var b := Advance(a, now, grace);
            if a.row.status == Active && a.row.periodEnd.Some? && a.row.periodEnd.value <= now then
              if a.row.cancelAtPeriodEnd
              then && b.events == a.events + [CancelledTopic]
                   && b.row == a.row.(status := Cancelled, graceUntil := None, endedAt := Some(now),
                                      version := a.row.version + 1)
              else && b.events == a.events + [PastDueTopic]
                   && b.row == a.row.(status := PastDue, graceUntil := Some(a.row.periodEnd.value + grace),
                                      endedAt := None, version := a.row.version + 1)
            else if a.row.status == PastDue && a.row.graceUntil.Some? && a.row.graceUntil.value <= now
            then && b.events == a.events + [SuspendedTopic]
                 && b.row == a.row.(status := Suspended, endedAt := None, version := a.row.version + 1)
            else b == a
  {
  }

  function UpdateLifecycle(row: Subscription, d: Decision): Subscription {
    row.(status := d.status, graceUntil := d.graceUntil, endedAt := d.endedAt, version := row.version + 1)
  }

  function Advance(a: Account, now: Time, grace: Time): Account {
    match Decide(a.row, now, grace)
    case Some(d) => Account(UpdateLifecycle(a.row, d), a.events + [d.topic])
    case None => a
  }

  function RenewRow(row: Subscription, paidAt: Time): Subscription {
    var base := if Coalesce(row.periodEnd, paidAt) < paidAt then paidAt else Coalesce(row.periodEnd, paidAt);
    var end := Some(AddMonths(base, Months(row.cycle)));
    row.(status := Active, startedAt := Some(Coalesce(row.startedAt, paidAt)),
         periodStart := if row.periodEnd == None || Reached(row.periodEnd, paidAt) then Some(paidAt)
           else row.periodStart,
         periodEnd := end, nextDueAt := end, graceUntil := None, cancelAtPeriodEnd := false,
         endedAt := None, version := row.version + 1)
  }

  predicate Renewable(row: Subscription) { row.status in {Active, PastDue, Suspended} }

  function ToggleRow(row: Subscription, cancel: bool): Subscription {
    row.(cancelAtPeriodEnd := cancel, version := row.version + 1)
  }

  predicate Activatable(row: Subscription) { row.status in {Pending, Active} }

  function ActivateRow(row: Subscription, now: Time): Subscription {
    var end := AddMonths(now, Months(row.cycle));
    row.(status := Active, startedAt := Some(Coalesce(row.startedAt, now)),
         periodStart := Some(Coalesce(row.periodStart, now)),
         periodEnd := Some(Coalesce(row.periodEnd, end)), nextDueAt := Some(Coalesce(row.nextDueAt, end)),
         version := row.version + if row.status == Pending then 1 else 0)
  }

  // ---------------------------------------------------------------- steps of one subscription

  /** `snapshot` is the status the provisioning workflow read when it started. */
  datatype Step =
    | Lifecycle(now: Time)
    | SetCancel(cancel: bool)
    | Renew(paidAt: Time)
    | Finalize(snapshot: Status, now: Time)

  function Apply(a: Account, step: Step, grace: Time): Account {
    match step
    case Lifecycle(now) => Advance(a, now, grace)
    case SetCancel(cancel) =>
      if a.row.status != Active || a.row.cancelAtPeriodEnd == cancel then a
      else Account(ToggleRow(a.row, cancel), a.events + [if cancel then CancelScheduled else CancelScheduleRemoved])
    case Renew(paidAt) =>
      if Renewable(a.row) then Account(RenewRow(a.row, paidAt), a.events + [Renewed]) else a
    case Finalize(snapshot, now) =>
      if snapshot == Active || !Activatable(a.row) then a
      else Account(ActivateRow(a.row, now), a.events + [Activated])
  }

  function Exec(a: Account, steps: seq<Step>, grace: Time): Account
    decreases |steps|
  {
    if steps == [] then a else Exec(Apply(a, steps[0], grace), steps[1..], grace)
  }

  // ---------------------------------------------------------------- record invariant

  predicate RecordOk(row: Subscription, grace: Time) {
    && (row.graceUntil.Some? <==> row.status in {PastDue, Suspended})
    && (row.endedAt.Some? <==> row.status == Cancelled)
    && (row.cancelAtPeriodEnd ==> row.status in {Active, Cancelled})
    && row.nextDueAt == row.periodEnd
    && (row.status == Pending <==> row.periodEnd == None)
    && (row.periodEnd.Some? ==>
          && row.startedAt.Some? && row.periodStart.Some? && row.periodStart.value < row.periodEnd.value
          && (row.graceUntil.Some? ==> row.graceUntil.value == row.periodEnd.value + grace))
    && (row.status == Pending ==> row.startedAt == None && row.periodStart == None)
  }

  /** A Finalize that started before the activation and lands after it. */
  predicate Redundant(row: Subscription, step: Step) {
    step.Finalize? && step.snapshot != Active && row.status == Active
  }

  function Repeats(a: Account, steps: seq<Step>, grace: Time): nat
    decreases |steps|
  {
    if steps == [] then 0
    else (if Redundant(a.row, steps[0]) then 1 else 0) + Repeats(Apply(a, steps[0], grace), steps[1..], grace)
  }

  lemma StepKeepsRecord(a: Account, step: Step, grace: Time)
    requires RecordOk(a.row, grace)
    ensures RecordOk(Apply(a, step, grace).row, grace)
  {
    match step
    case Renew(paidAt) =>
      AddMonthsIncreases(paidAt, Months(a.row.cycle));
      if a.row.periodEnd.Some? { AddMonthsIncreases(a.row.periodEnd.value, Months(a.row.cycle)); }
    case Finalize(_, now) => AddMonthsIncreases(now, Months(a.row.cycle));
    case Lifecycle(_) =>
    case SetCancel(_) =>
  }

  /** Every version increment comes with one event, except for a redundant Finalize. */
  lemma StepPairsVersion(a: Account, step: Step, grace: Time)
    ensures var b := Apply(a, step, grace);
            && a.events <= b.events
            && (|b.events| - |a.events| == b.row.version - a.row.version <==> !Redundant(a.row, step))
            && (Redundant(a.row, step) ==> |b.events| == |a.events| + 1 && b.row.version == a.row.version)
  {
  }

  /**
   * Record invariant over all runs.  The row clauses hold whatever interleaves; the event count
   * exceeds the version count by exactly the number of redundant Finalize calls in the run.
   */
  lemma {:induction false} RecordInvariant(a: Account, steps: seq<Step>, grace: Time)
    requires RecordOk(a.row, grace)
    ensures RecordOk(Exec(a, steps, grace).row, grace)
    ensures |Exec(a, steps, grace).events| - |a.events|
              == Exec(a, steps, grace).row.version - a.row.version + Repeats(a, steps, grace)
    decreases |steps|
  {
    if steps != [] {
      StepKeepsRecord(a, steps[0], grace);
      StepPairsVersion(a, steps[0], grace);
      RecordInvariant(Apply(a, steps[0], grace), steps[1..], grace);
    }
  }

  lemma NewRecordOk(owner: nat, price: Price, cycle: Cycle, grace: Time)
    ensures RecordOk(NewSubscription(owner, price, cycle), grace)
  {
  }

  /** Two workflows of one operation, both started while it was pending: version 2, two events. */
  lemma RedundantFinalizeBreaksPairing(owner: nat, price: Price, cycle: Cycle, now: Time, grace: Time)
    ensures var steps := [Finalize(Pending, now), Finalize(Pending, now)];
            var a := Exec(Account(NewSubscription(owner, price, cycle), []), steps, grace);
            a.row.version == 2 && a.events == [Activated, Activated]
  {
    var a := Account(NewSubscription(owner, price, cycle), []);
    var steps := [Finalize(Pending, now), Finalize(Pending, now)];
    assert steps[1..] == [Finalize(Pending, now)];
    var b := Apply(a, steps[0], grace);
    var c := Apply(b, steps[1], grace);
    assert Exec(a, steps, grace) == Exec(b, steps[1..], grace) == Exec(c, [], grace);
  }

  /** A cancelled row never changes again, and no step makes a subscription pending. */
  lemma {:induction false} CancelledIsFinal(a: Account, steps: seq<Step>, grace: Time)
    ensures a.row.status == Cancelled ==> Exec(a, steps, grace) == a
    ensures a.row.status != Pending ==> Exec(a, steps, grace).row.status != Pending
    decreases |steps|
  {
    if steps != [] { CancelledIsFinal(Apply(a, steps[0], grace), steps[1..], grace); }
  }

  // ---------------------------------------------------------------- renewals

  /** `u` is one billing cycle after `t`: one, three or twelve calendar months. */
  predicate CycleLater(cycle: Cycle, t: Time, u: Time) {
    match cycle
    case Monthly => MonthsLater(t, u, 1)
    case Quarterly => MonthsLater(t, u, 3)
    case Yearly => MonthsLater(t, u, 12)
  }

  lemma CycleIsCalendar(cycle: Cycle, t: Time)
    ensures CycleLater(cycle, t, AddMonths(t, Months(cycle)))
  {
    AddMonthsIff(t, AddMonths(t, Months(cycle)), Months(cycle));
  }

  /** A first Finalize starts the first period now; one on an active row changes nothing in it. */
  lemma ActivationStarts(a: Account, snapshot: Status, now: Time, grace: Time)
    requires RecordOk(a.row, grace) && snapshot != Active && Activatable(a.row)
    ensures var b := Apply(a, Finalize(snapshot, now), grace);
            && b.events == a.events + [Activated]
            && (a.row.status == Active ==> b.row == a.row)
            && (a.row.status == Pending ==>
                  && b.row == a.row.(status := Active, startedAt := Some(now), periodStart := Some(now),
                                     periodEnd := b.row.periodEnd, nextDueAt := b.row.periodEnd,
                                     version := a.row.version + 1)
                  && b.row.periodEnd.Some? && CycleLater(a.row.cycle, now, b.row.periodEnd.value))
  {
    CycleIsCalendar(a.row.cycle, now);
  }

  /** A toggle writes the flag and its event, and only on an active row whose flag differs. */
  lemma ToggleSchedules(a: Account, cancel: bool, grace: Time)
    ensures var b := Apply(a, SetCancel(cancel), grace);
            if a.row.status == Active && a.row.cancelAtPeriodEnd != cancel
            then && b.row == a.row.(cancelAtPeriodEnd := !a.row.cancelAtPeriodEnd, version := a.row.version + 1)
                 && b.events == a.events + [if cancel then CancelScheduled else CancelScheduleRemoved]
            else b == a
  {
  }

  /**
   * A renewal ends one cycle past the later of the old end and the payment, beyond both, starts a
   * new period only if the old one has ended, and clears grace, cancellation and nothing else.
   */
  lemma RenewalExtends(a: Account, paidAt: Time, grace: Time)
    requires RecordOk(a.row, grace) && Renewable(a.row)
    ensures var end := a.row.periodEnd.value;
            var later := if end < paidAt then paidAt else end;
            var b := Apply(a, Renew(paidAt), grace);
            && b.row.periodEnd.Some? && CycleLater(a.row.cycle, later, b.row.periodEnd.value)
            && b.row.periodEnd == Some(AddMonths(later, Months(a.row.cycle)))
            && end < b.row.periodEnd.value && paidAt < b.row.periodEnd.value
            && b.row == a.row.(status := Active,
                               periodStart := if end <= paidAt then Some(paidAt) else a.row.periodStart,
                               periodEnd := b.row.periodEnd, nextDueAt := b.row.periodEnd, graceUntil := None,
                               cancelAtPeriodEnd := false, endedAt := None, version := a.row.version + 1)
            && b.events == a.events + [Renewed]
  {
    var end := a.row.periodEnd.value;
    CycleIsCalendar(a.row.cycle, if end < paidAt then paidAt else end);
    AddMonthsIncreases(if end < paidAt then paidAt else end, Months(a.row.cycle));
  }

  /** k cycles, one after the other. */
  function Cycles(from: Time, months: nat, k: nat): Time
    decreases k
  {
    if k == 0 then from else Cycles(AddMonths(from, months), months, k - 1)
  }

  /** `to` is k billing cycles after `from`, one after the other by the calendar. */
  ghost predicate CyclesLater(cycle: Cycle, from: Time, to: Time, k: nat)
    decreases k
  {
    if k == 0 then to == from else exists mid :: CycleLater(cycle, from, mid) && CyclesLater(cycle, mid, to, k - 1)
  }

  lemma {:induction false} CyclesAreCalendar(cycle: Cycle, from: Time, k: nat)
    ensures CyclesLater(cycle, from, Cycles(from, Months(cycle), k), k)
    decreases k
  {
    hide CycleLater, AddMonths, Months;
    if k > 0 {
      CycleIsCalendar(cycle, from);
      CyclesAreCalendar(cycle, AddMonths(from, Months(cycle)), k - 1);
    }
  }

  function Renewals(a: Account, steps: seq<Step>, grace: Time): nat
    decreases |steps|
  {
    if steps == [] then 0
    else (if steps[0].Renew? && Renewable(a.row) then 1 else 0) + Renewals(Apply(a, steps[0], grace), steps[1..], grace)
  }

  /** Every renewal of the run is paid by the end of the period it extends. */
  predicate Timely(a: Account, steps: seq<Step>, grace: Time)
    decreases |steps|
  {
    steps == [] || (
      && (steps[0].Renew? && Renewable(a.row) && a.row.periodEnd.Some? ==> steps[0].paidAt <= a.row.periodEnd.value)
      && Timely(Apply(a, steps[0], grace), steps[1..], grace))
  }

  /**
   * With every payment on time, a run moves the period end by exactly as many successive cycles
   * as it has renewals, whatever lifecycle batches, toggles or workflow repeats interleave.
   */
  lemma {:induction false} RenewalsAccumulate(a: Account, steps: seq<Step>, grace: Time)
    requires RecordOk(a.row, grace) && a.row.status != Pending && Timely(a, steps, grace)
    ensures Exec(a, steps, grace).row.periodEnd
              == Some(Cycles(a.row.periodEnd.value, Months(a.row.cycle), Renewals(a, steps, grace)))
    ensures CyclesLater(a.row.cycle, a.row.periodEnd.value, Exec(a, steps, grace).row.periodEnd.value,
                        Renewals(a, steps, grace))
    decreases |steps|
  {
    hide Apply, AddMonths, CyclesLater, CycleLater;
    CyclesAreCalendar(a.row.cycle, a.row.periodEnd.value, Renewals(a, steps, grace));
    if steps != [] {
      StepKeepsRecord(a, steps[0], grace);
      TimelyStep(a, steps[0], grace);
      RenewalsAccumulate(Apply(a, steps[0], grace), steps[1..], grace);
    }
  }

  /** One step moves the period end by one cycle if it is a renewal paid on time, else not at all. */
  lemma TimelyStep(a: Account, step: Step, grace: Time)
    requires RecordOk(a.row, grace) && a.row.status != Pending
    requires step.Renew? && Renewable(a.row) ==> step.paidAt <= a.row.periodEnd.value
    ensures var b := Apply(a, step, grace);
            && a.row.periodEnd.Some? && b.row.periodEnd.Some? && b.row.status != Pending && b.row.cycle == a.row.cycle
            && b.row.periodEnd.value == if step.Renew? && Renewable(a.row)
                                        then AddMonths(a.row.periodEnd.value, Months(a.row.cycle))
                                        else a.row.periodEnd.value
  {
    hide AddMonths;
  }

  /** Late payments included, the period end never moves back. */
  lemma {:induction false} PeriodEndNeverRetreats(a: Account, steps: seq<Step>, grace: Time)
    requires RecordOk(a.row, grace) && a.row.status != Pending
    ensures Exec(a, steps, grace).row.periodEnd.Some?
    ensures a.row.periodEnd.value <= Exec(a, steps, grace).row.periodEnd.value
    ensures Renewals(a, steps, grace) > 0 ==> a.row.periodEnd.value < Exec(a, steps, grace).row.periodEnd.value
    decreases |steps|
  {
    if steps != [] {
      StepKeepsRecord(a, steps[0], grace);
      if steps[0].Renew? && Renewable(a.row) { RenewalExtends(a, steps[0].paidAt, grace); }
      PeriodEndNeverRetreats(Apply(a, steps[0], grace), steps[1..], grace);
    }
  }

  // ---------------------------------------------------------------- path independence

  /** The one-shot specification: status, grace and events at time T if nobody intervenes. */
  function SettledAt(a: Account, T: Time, grace: Time): Account {
    var row := a.row;
    if row.status == Active && Reached(row.periodEnd, T) then
      if row.cancelAtPeriodEnd then
        Account(row.(status := Cancelled, graceUntil := None, version := row.version + 1), a.events + [CancelledTopic])
      else
        var until := row.periodEnd.value + grace;
        if until <= T then
          Account(row.(status := Suspended, graceUntil := Some(until), endedAt := None, version := row.version + 2),
                  a.events + [PastDueTopic, SuspendedTopic])
        else
          Account(row.(status := PastDue, graceUntil := Some(until), endedAt := None, version := row.version + 1),
                  a.events + [PastDueTopic])
    else if row.status == PastDue && Reached(row.graceUntil, T) then
      Account(row.(status := Suspended, endedAt := None, version := row.version + 1), a.events + [SuspendedTopic])
    else a
  }

  /** Equal up to the moment of cancellation, the one column that records when a batch ran. */
  predicate SameButEnd(a: Account, b: Account) {
    a.events == b.events && a.row.(endedAt := None) == b.row.(endedAt := None)
  }

  lemma AdvanceKeepsTarget(a: Account, t: Time, T: Time, grace: Time)
    requires t <= T
    ensures SameButEnd(SettledAt(Advance(a, t, grace), T, grace), SettledAt(a, T, grace))
  {
    if Due(a.row, t) && a.row.status == Active && !a.row.cancelAtPeriodEnd && a.row.periodEnd.value + grace <= T {
      assert a.events + [PastDueTopic] + [SuspendedTopic] == a.events + [PastDueTopic, SuspendedTopic];
    }
  }

  /** A batch: its time and the rows it claimed. */
  datatype Batch = Batch(now: Time, rows: set<nat>)

  predicate Claims(s: seq<Account>, b: Batch) {
    forall i :: i in b.rows ==> i < |s| && Due(s[i].row, b.now)
  }

  function AfterBatch(s: seq<Account>, b: Batch, grace: Time): (t: seq<Account>)
    ensures |t| == |s|
    ensures forall i :: 0 <= i < |s| ==> t[i] == if i in b.rows then Advance(s[i], b.now, grace) else s[i]
  {
    seq(|s|, i requires 0 <= i < |s| => if i in b.rows then Advance(s[i], b.now, grace) else s[i])
  }

  ghost predicate BatchRun(s: seq<Account>, batches: seq<Batch>, T: Time, grace: Time)
    decreases |batches|
  {
    batches == [] || (
      && batches[0].now <= T && (|batches| > 1 ==> batches[0].now <= batches[1].now)
      && Claims(s, batches[0]) && BatchRun(AfterBatch(s, batches[0], grace), batches[1..], T, grace))
  }

  ghost function AfterBatches(s: seq<Account>, batches: seq<Batch>, grace: Time): (t: seq<Account>)
    ensures |t| == |s|
    decreases |batches|
  {
    if batches == [] then s else AfterBatches(AfterBatch(s, batches[0], grace), batches[1..], grace)
  }

  predicate Drained(s: seq<Account>, T: Time) {
    forall i :: 0 <= i < |s| ==> !Due(s[i].row, T)
  }

  lemma {:induction false} BatchesKeepTarget(s: seq<Account>, batches: seq<Batch>, T: Time, grace: Time, i: nat)
    requires BatchRun(s, batches, T, grace) && i < |s|
    ensures SameButEnd(SettledAt(AfterBatches(s, batches, grace)[i], T, grace), SettledAt(s[i], T, grace))
    decreases |batches|
  {
    if batches != [] {
      var t := AfterBatch(s, batches[0], grace);
      BatchesKeepTarget(t, batches[1..], T, grace, i);
      AdvanceKeepsTarget(s[i], batches[0].now, T, grace);
    }
  }

  /**
   * Lifecycle path independence: batches of any size and choice, at any increasing times up to
   * T, once drained leave every row and its event list as the one-shot specification says.
   */
  lemma LifecyclePathIndependent(s: seq<Account>, batches: seq<Batch>, T: Time, grace: Time)
    requires BatchRun(s, batches, T, grace) && Drained(AfterBatches(s, batches, grace), T)
    ensures forall i :: 0 <= i < |s| ==> SameButEnd(AfterBatches(s, batches, grace)[i], SettledAt(s[i], T, grace))
  {
    forall i | 0 <= i < |s| ensures SameButEnd(AfterBatches(s, batches, grace)[i], SettledAt(s[i], T, grace)) {
      BatchesKeepTarget(s, batches, T, grace, i);
      assert !Due(AfterBatches(s, batches, grace)[i].row, T);
    }
  }

  // ---------------------------------------------------------------- termination

  function Rank(st: Status): nat {
    match st case Active => 2 case PastDue => 1 case _ => 0
  }

  function Potential(s: seq<Account>, k: nat): nat
    requires k <= |s|
  {
    if k == 0 then 0 else Potential(s, k - 1) + Rank(s[k - 1].row.status)
  }

  ghost function Below(rows: set<nat>, k: nat): set<nat> { set i | i in rows && i < k }

  lemma AdvanceLowers(a: Account, now: Time, grace: Time)
    requires Due(a.row, now)
    ensures Rank(Advance(a, now, grace).row.status) < Rank(a.row.status)
  {
  }

  lemma BelowGrows(rows: set<nat>, k: nat)
    ensures |Below(rows, k + 1)| == |Below(rows, k)| + if k in rows then 1 else 0
  {
    assert Below(rows, k + 1) == if k in rows then Below(rows, k) + {k} else Below(rows, k);
  }

  lemma {:induction false} BatchLowers(s: seq<Account>, t: seq<Account>, b: Batch, grace: Time, k: nat)
    requires Claims(s, b) && t == AfterBatch(s, b, grace) && k <= |s|
    ensures Potential(t, k) + |Below(b.rows, k)| <= Potential(s, k)
  {
    if k == 0 {
      assert Below(b.rows, 0) == {};
    } else {
      BatchLowers(s, t, b, grace, k - 1);
      BelowGrows(b.rows, k - 1);
      if k - 1 in b.rows { AdvanceLowers(s[k - 1], b.now, grace); }
    }
  }

  lemma {:induction false} PotentialBound(s: seq<Account>, k: nat)
    requires k <= |s|
    ensures Potential(s, k) <= 2 * k
  {
    if k > 0 { PotentialBound(s, k - 1); }
  }

  ghost function Transitions(batches: seq<Batch>): nat {
    if batches == [] then 0 else |batches[0].rows| + Transitions(batches[1..])
  }

  /**
   * Each batch lowers the potential by at least its size, so all batches together make at most
   * two transitions per subscription and draining terminates.
   */
  lemma {:induction false} DrainTerminates(s: seq<Account>, batches: seq<Batch>, T: Time, grace: Time)
    requires BatchRun(s, batches, T, grace)
    ensures Potential(AfterBatches(s, batches, grace), |s|) + Transitions(batches) <= Potential(s, |s|) <= 2 * |s|
    decreases |batches|
  {
    PotentialBound(s, |s|);
    if batches != [] {
      BatchLowers(s, AfterBatch(s, batches[0], grace), batches[0], grace, |s|);
      assert Below(batches[0].rows, |s|) == batches[0].rows;
      DrainTerminates(AfterBatch(s, batches[0], grace), batches[1..], T, grace);
    }
  }

  lemma {:induction false} EventsGrow(s: seq<Account>, batches: seq<Batch>, T: Time, grace: Time, i: nat)
    requires BatchRun(s, batches, T, grace) && i < |s|
    ensures s[i].events <= AfterBatches(s, batches, grace)[i].events
    decreases |batches|
  {
    if batches != [] { EventsGrow(AfterBatch(s, batches[0], grace), batches[1..], T, grace, i); }
  }

  /** What batches may add to an event list: nothing, one transition, or past due and suspended. */
  predicate Transitioned(was: seq<Topic>, now: seq<Topic>) {
    || now == was || now == was + [CancelledTopic] || now == was + [PastDueTopic] || now == was + [SuspendedTopic]
    || now == was + [PastDueTopic, SuspendedTopic]
  }

  lemma SettledEvents(a: Account, T: Time, grace: Time)
    ensures Transitioned(a.events, SettledAt(a, T, grace).events)
  {
  }

  lemma PartialTransition(was: seq<Topic>, now: seq<Topic>, all: seq<Topic>)
    requires Transitioned(was, all) && was <= now && now <= all
    ensures Transitioned(was, now)
  {
    var more := now[|was|..];
    assert now == was + more;
    assert forall k :: 0 <= k < |more| ==> more[k] == all[|was| + k];
    if |more| == 1 { assert more == [more[0]]; }
    if |more| == 2 { assert more == [more[0], more[1]]; }
  }

  /**
   * Batches up to T, drained or not, make at most two transitions of a subscription, and only in
   * these orders: cancelled; past due and then possibly suspended; or suspended.
   */
  lemma TwoTransitions(s: seq<Account>, batches: seq<Batch>, T: Time, grace: Time, i: nat)
    requires BatchRun(s, batches, T, grace) && i < |s|
    ensures Transitioned(s[i].events, AfterBatches(s, batches, grace)[i].events)
  {
    var a, b := s[i], AfterBatches(s, batches, grace)[i];
    BatchesKeepTarget(s, batches, T, grace, i);
    EventsGrow(s, batches, T, grace, i);
    SettledEvents(a, T, grace);
    SettledEvents(b, T, grace);
    PartialTransition(a.events, b.events, SettledAt(a, T, grace).events);
  }
}
