/** The database part of src/stellar/policy/settlement-policy.engine.ts as a guard chain over what it read. */
module SettlementPolicy {
  import opened Wrappers
  import S = SettlementStates
  import V = ReservationStates
  import O = OrderStates

  const HOUR_MS: int := 60 * 60 * 1000
  const DAY_MS: int := 24 * 60 * 60 * 1000

  /** Limits of config.treasury, in stroops. */
  datatype Limits = Limits(minSettlement: int, maxSingle: int, maxHourly: int, maxDaily: int)

  datatype Snapshot = Snapshot(
    order: Option<O.Status>,
    activeRefund: bool,
    walletValid: bool,
    destinationMatches: bool,
    xdrStroops: int,                     // amount argument of the transaction to be signed
    orderStroops: int,                   // order.destinationAmount
    succeededPayment: bool,
    reservation: Option<V.Status>,
    settlement: Option<S.Status>,
    settlementAgeMs: int,
    hourlyOutflow: int,                  // recorded payouts of the last hour
    dailyOutflow: int
  )

  datatype Rejection =
    | OrderNotFound
    | InvalidOrderStatus
    | ActiveRefundPresent
    | InvalidOrderWallet
    | DestinationMismatch
    | AmountMismatch
    | NoSucceededPayment
    | InvalidReservationStatus
    | SettlementRecordMissing
    | SettlementAlreadyCompleted
    | StaleSettlement
    | BelowMinSettlement
    | ExceedsSingleLimit
    | ExceedsHourlyLimit
    | ExceedsDailyLimit

  /** None is approval. */
  function ValidateAndApprove(limits: Limits, snap: Snapshot): Option<Rejection> {
    if snap.order.None? then Some(OrderNotFound)
    else if snap.order.value != O.SettlementPending then Some(InvalidOrderStatus)
    else if snap.activeRefund then Some(ActiveRefundPresent)
    else if !snap.walletValid then Some(InvalidOrderWallet)
    else if !snap.destinationMatches then Some(DestinationMismatch)
    else if snap.xdrStroops != snap.orderStroops then Some(AmountMismatch)
    else if !snap.succeededPayment then Some(NoSucceededPayment)
    else if snap.reservation != Some(V.Confirmed) then Some(InvalidReservationStatus)
    else if snap.settlement.None? then Some(SettlementRecordMissing)
    else if snap.settlement.value == S.Completed then Some(SettlementAlreadyCompleted)
    else if snap.settlementAgeMs > DAY_MS then Some(StaleSettlement)
    else if snap.orderStroops < limits.minSettlement then Some(BelowMinSettlement)
    else if snap.orderStroops > limits.maxSingle then Some(ExceedsSingleLimit)
    else if snap.hourlyOutflow + snap.orderStroops > limits.maxHourly then Some(ExceedsHourlyLimit)
    else if snap.dailyOutflow + snap.orderStroops > limits.maxDaily then Some(ExceedsDailyLimit)
    else None
  }

  /** A payout is approved if and only if everything that the policy asks for holds. */
  lemma ApprovedIff(limits: Limits, snap: Snapshot)
    ensures ValidateAndApprove(limits, snap) == None <==>
            && snap.order == Some(O.SettlementPending) && !snap.activeRefund
            && snap.walletValid && snap.destinationMatches
            && snap.xdrStroops == snap.orderStroops
            && snap.succeededPayment && snap.reservation == Some(V.Confirmed)
            && snap.settlement.Some? && snap.settlement != Some(S.Completed)
            && snap.settlementAgeMs <= 24 * 60 * 60 * 1000
            && limits.minSettlement <= snap.orderStroops <= limits.maxSingle
            && snap.hourlyOutflow + snap.orderStroops <= limits.maxHourly
            && snap.dailyOutflow + snap.orderStroops <= limits.maxDaily
  {
  }

  /** Each rejection names something that is wrong. */
  lemma RejectionMeans(limits: Limits, snap: Snapshot)
    requires ValidateAndApprove(limits, snap).Some?
    ensures match ValidateAndApprove(limits, snap).value
            case OrderNotFound => snap.order == None
            case InvalidOrderStatus => snap.order.Some? && snap.order != Some(O.SettlementPending)
            case ActiveRefundPresent => snap.activeRefund
            case InvalidOrderWallet => !snap.walletValid
            case DestinationMismatch => !snap.destinationMatches
            case AmountMismatch => snap.xdrStroops != snap.orderStroops
            case NoSucceededPayment => !snap.succeededPayment
            case InvalidReservationStatus => snap.reservation != Some(V.Confirmed)
            case SettlementRecordMissing => snap.settlement == None
            case SettlementAlreadyCompleted => snap.settlement == Some(S.Completed)
            case StaleSettlement => snap.settlementAgeMs > 24 * 60 * 60 * 1000
            case BelowMinSettlement => snap.orderStroops < limits.minSettlement
            case ExceedsSingleLimit => snap.orderStroops > limits.maxSingle
            case ExceedsHourlyLimit => snap.hourlyOutflow + snap.orderStroops > limits.maxHourly
            case ExceedsDailyLimit => snap.dailyOutflow + snap.orderStroops > limits.maxDaily
  {
  }
}

/**
 Rolling outflow limits over time. A payout is approved against the treasury rows recorded so far and
 gets its own row only later, when its settlement completes, so approvals in flight are not counted.
 */
module OutflowLimits {
  import opened Wrappers
  import opened SettlementPolicy
  import S = SettlementStates
  import V = ReservationStates
  import O = OrderStates

  /** A SETTLEMENT_PAYOUT row; `manual` rows come from recordTreasuryTransaction. */
  datatype Payout = Payout(amount: int, at: int, manual: bool)

  /** `awaiting` holds the approved amounts that have no treasury row yet. */
  datatype Treasury = Treasury(log: seq<Payout>, awaiting: seq<int>, now: int)

  /** The aggregate query of the policy engine: all payouts from time `t` on. */
  function OutflowSince(log: seq<Payout>, t: int): int {
    if log == [] then 0
    else OutflowSince(log[..|log| - 1], t) + if log[|log| - 1].at >= t then log[|log| - 1].amount else 0
  }

  /** Settlement payouts recorded from time `t` on. */
  function SettledSince(log: seq<Payout>, t: int): int {
    if log == [] then 0
    else
      var last := log[|log| - 1];
      SettledSince(log[..|log| - 1], t) + if !last.manual && last.at >= t then last.amount else 0
  }

  /** Settlement payouts recorded in the closed window of length `span` that starts at `t`. */
  function SettledWithin(log: seq<Payout>, t: int, span: int): int {
    if log == [] then 0
    else
      var last := log[|log| - 1];
      SettledWithin(log[..|log| - 1], t, span) + if !last.manual && t <= last.at <= t + span then last.amount else 0
  }

  function Sum(xs: seq<int>): int {
    if xs == [] then 0 else Sum(xs[..|xs| - 1]) + xs[|xs| - 1]
  }

  datatype Step =
    | Tick(ms: nat)
    | Approve(snap: Snapshot)
    | RecordPayout(i: nat)               // consumeReservation writes the treasury row
    | Drop(i: nat)                       // the settlement fails after approval
    | RecordManual(amount: int)

  predicate Enabled(limits: Limits, s: Treasury, step: Step) {
    match step
    case Tick(_) => true
    case Approve(snap) =>
      && snap.orderStroops > 0
      && snap.hourlyOutflow == OutflowSince(s.log, s.now - HOUR_MS)
      && snap.dailyOutflow == OutflowSince(s.log, s.now - DAY_MS)
      && ValidateAndApprove(limits, snap) == None
    case RecordPayout(i) => i < |s.awaiting|
    case Drop(i) => i < |s.awaiting|
    case RecordManual(amount) => amount > 0
  }

  function Without(xs: seq<int>, i: nat): seq<int>
    requires i < |xs|
  {
    xs[..i] + xs[i + 1..]
  }

  function Exec(s: Treasury, step: Step): Treasury
    requires step.RecordPayout? || step.Drop? ==> step.i < |s.awaiting|
  {
    match step
    case Tick(ms) => s.(now := s.now + ms)
    case Approve(snap) => s.(awaiting := s.awaiting + [snap.orderStroops])
    case RecordPayout(i) =>
      s.(log := s.log + [Payout(s.awaiting[i], s.now, false)], awaiting := Without(s.awaiting, i))
    case Drop(i) => s.(awaiting := Without(s.awaiting, i))
    case RecordManual(amount) => s.(log := s.log + [Payout(amount, s.now, true)])
  }

  /** A run in which at most `k` approved payouts await their row at any time. */
  predicate IsRun(limits: Limits, k: nat, s: Treasury, steps: seq<Step>)
    decreases |steps|
  {
    && |s.awaiting| <= k
    && (steps == [] || (Enabled(limits, s, steps[0]) && IsRun(limits, k, Exec(s, steps[0]), steps[1..])))
  }

  function After(limits: Limits, k: nat, s: Treasury, steps: seq<Step>): Treasury
    requires IsRun(limits, k, s, steps)
    decreases |steps|
  {
    if steps == [] then s else After(limits, k, Exec(s, steps[0]), steps[1..])
  }

  function Start(now: int): Treasury {
    Treasury([], [], now)
  }

  // ----- sums

  lemma {:induction false} SumBound(xs: seq<int>, max: int)
    requires forall i :: 0 <= i < |xs| ==> 0 < xs[i] <= max
    ensures 0 <= Sum(xs) <= |xs| * max
  {
    if xs != [] {
      SumBound(xs[..|xs| - 1], max);
      assert |xs| * max == (|xs| - 1) * max + max;
    }
  }

  lemma SumAppend(xs: seq<int>, x: int)
    ensures Sum(xs + [x]) == Sum(xs) + x
  {
    assert (xs + [x])[..|xs|] == xs;
  }

  lemma {:induction false} SumWithout(xs: seq<int>, i: nat)
    requires i < |xs|
    ensures Sum(Without(xs, i)) == Sum(xs) - xs[i]
  {
    var n := |xs| - 1;
    if i == n {
      assert Without(xs, i) == xs[..n];
    } else {
      assert Without(xs, i) == Without(xs[..n], i) + [xs[n]];
      SumAppend(Without(xs[..n], i), xs[n]);
      SumWithout(xs[..n], i);
    }
  }

  lemma LogAppend(log: seq<Payout>, row: Payout, t: int, span: int)
    ensures SettledSince(log + [row], t) == SettledSince(log, t) + if !row.manual && row.at >= t then row.amount else 0
    ensures SettledWithin(log + [row], t, span) ==
            SettledWithin(log, t, span) + if !row.manual && t <= row.at <= t + span then row.amount else 0
  {
    assert (log + [row])[..|log|] == log;
  }

  /** What the policy engine counts covers the settled payouts of every window that starts later. */
  lemma {:induction false} OutflowCovers(log: seq<Payout>, t: int, t': int, span: int)
    requires t <= t' && forall i :: 0 <= i < |log| ==> log[i].amount > 0
    ensures 0 <= SettledWithin(log, t', span) <= SettledSince(log, t') <= OutflowSince(log, t)
  {
    if log != [] {
      OutflowCovers(log[..|log| - 1], t, t', span);
    }
  }

  // ----- the invariant

  predicate Timely(s: Treasury, maxSingle: int) {
    && (forall i :: 0 <= i < |s.log| ==> s.log[i].amount > 0 && s.log[i].at <= s.now)
    && (forall i :: 0 <= i < |s.awaiting| ==> 0 < s.awaiting[i] <= maxSingle)
  }

  /** Windows that are still open leave room for every approval in flight; no window is over the bound. */
  ghost predicate Within(s: Treasury, span: int, bound: int) {
    && (forall t :: t >= s.now - span ==> SettledSince(s.log, t) + Sum(s.awaiting) <= bound)
    && (forall t :: SettledWithin(s.log, t, span) <= bound)
  }

  lemma ApproveWithin(s: Treasury, amount: int, span: int, cap: int, slack: int)
    requires forall i :: 0 <= i < |s.log| ==> s.log[i].amount > 0
    requires Within(s, span, cap + slack) && Sum(s.awaiting) <= slack
    requires OutflowSince(s.log, s.now - span) + amount <= cap
    ensures Within(s.(awaiting := s.awaiting + [amount]), span, cap + slack)
  {
    var s' := s.(awaiting := s.awaiting + [amount]);
    SumAppend(s.awaiting, amount);
    forall t | t >= s'.now - span
      ensures SettledSince(s'.log, t) + Sum(s'.awaiting) <= cap + slack
    {
      OutflowCovers(s.log, s.now - span, t, span);
    }
    assert forall t :: SettledWithin(s'.log, t, span) == SettledWithin(s.log, t, span);
  }

  lemma RecordWithin(s: Treasury, i: nat, span: int, bound: int, maxSingle: int)
    requires Timely(s, maxSingle) && Within(s, span, bound) && i < |s.awaiting|
    ensures Within(Exec(s, RecordPayout(i)), span, bound)
  {
    var row := Payout(s.awaiting[i], s.now, false);
    var s' := Exec(s, RecordPayout(i));
    SumWithout(s.awaiting, i);
    SumBound(s'.awaiting, maxSingle);
    forall t | t >= s.now - span
      ensures SettledSince(s'.log, t) + Sum(s'.awaiting) <= bound
    {
      LogAppend(s.log, row, t, span);
    }
    forall t
      ensures SettledWithin(s'.log, t, span) <= bound
    {
      LogAppend(s.log, row, t, span);
      if t >= s.now - span {
        OutflowCovers(s'.log, t, t, span);
      }
    }
  }

  lemma ManualWithin(s: Treasury, amount: int, span: int, bound: int)
    requires Within(s, span, bound)
    ensures Within(Exec(s, RecordManual(amount)), span, bound)
  {
    var row := Payout(amount, s.now, true);
    var s' := Exec(s, RecordManual(amount));
    forall t | t >= s.now - span
      ensures SettledSince(s'.log, t) + Sum(s'.awaiting) <= bound
    {
      LogAppend(s.log, row, t, span);
    }
    forall t
      ensures SettledWithin(s'.log, t, span) <= bound
    {
      LogAppend(s.log, row, t, span);
    }
  }

  lemma DropWithin(s: Treasury, i: nat, span: int, bound: int, maxSingle: int)
    requires Timely(s, maxSingle) && Within(s, span, bound) && i < |s.awaiting|
    ensures Within(Exec(s, Drop(i)), span, bound)
  {
    SumWithout(s.awaiting, i);
  }

  lemma StepTimely(limits: Limits, s: Treasury, step: Step)
    requires Timely(s, limits.maxSingle) && Enabled(limits, s, step)
    ensures Timely(Exec(s, step), limits.maxSingle)
  {
  }

  lemma StepWithin(limits: Limits, s: Treasury, step: Step, span: int, cap: int, slack: int)
    requires Timely(s, limits.maxSingle) && Within(s, span, cap + slack)
    requires IsLimit(limits, span, cap) && Enabled(limits, s, step)
    requires step.Approve? ==> Sum(s.awaiting) <= slack
    ensures Within(Exec(s, step), span, cap + slack)
  {
    match step
    case Tick(_) =>
    case Approve(snap) => ApproveWithin(s, snap.orderStroops, span, cap, slack);
    case RecordPayout(i) => RecordWithin(s, i, span, cap + slack, limits.maxSingle);
    case Drop(i) => DropWithin(s, i, span, cap + slack, limits.maxSingle);
    case RecordManual(amount) => ManualWithin(s, amount, span, cap + slack);
  }

  /** Room for the other approvals in flight. */
  lemma SlackSuffices(limits: Limits, k: nat, s: Treasury)
    requires Timely(s, limits.maxSingle) && |s.awaiting| < k && 0 <= limits.maxSingle
    ensures Sum(s.awaiting) <= (k - 1) * limits.maxSingle
  {
    SumBound(s.awaiting, limits.maxSingle);
    ProductGrows(|s.awaiting|, k - 1, limits.maxSingle);
  }

  lemma ProductGrows(a: int, b: int, m: int)
    requires a <= b && 0 <= m
    ensures a * m <= b * m
  {
  }

  /** The span and cap of one of the two limits the policy engine enforces. */
  predicate IsLimit(limits: Limits, span: int, cap: int) {
    (span == HOUR_MS && cap == limits.maxHourly) || (span == DAY_MS && cap == limits.maxDaily)
  }

  lemma {:induction false} RunWithin(limits: Limits, k: nat, s: Treasury, steps: seq<Step>, span: int, cap: int,
                                     slack: int)
    requires IsLimit(limits, span, cap) && IsRun(limits, k, s, steps)
    requires 0 <= limits.maxSingle && slack == (k - 1) * limits.maxSingle
    requires Timely(s, limits.maxSingle) && Within(s, span, cap + slack)
    ensures Within(After(limits, k, s, steps), span, cap + slack)
    decreases |steps|
  {
    if steps != [] {
      if steps[0].Approve? {
        assert |Exec(s, steps[0]).awaiting| <= k;
        SlackSuffices(limits, k, s);
      }
      StepTimely(limits, s, steps[0]);
      StepWithin(limits, s, steps[0], span, cap, slack);
      RunWithin(limits, k, Exec(s, steps[0]), steps[1..], span, cap, slack);
    }
  }

  lemma StartWithin(now: int, span: int, bound: int)
    requires 0 <= bound
    ensures Within(Start(now), span, bound)
  {
  }

  /**
   If at most `k` approved payouts ever await their treasury row, the settlement payouts recorded in any
   hour stay within maxHourly + (k - 1) * maxSingle and those of any 24 hours within
   maxDaily + (k - 1) * maxSingle, whatever payouts are recorded by hand in between.
   */
  lemma RollingLimit(limits: Limits, k: nat, now: int, steps: seq<Step>, t: int)
    requires 1 <= k && 0 <= limits.maxSingle && 0 <= limits.maxHourly && 0 <= limits.maxDaily
    requires IsRun(limits, k, Start(now), steps)
    ensures var log := After(limits, k, Start(now), steps).log;
            && SettledWithin(log, t, 60 * 60 * 1000) <= limits.maxHourly + (k - 1) * limits.maxSingle
            && SettledWithin(log, t, 24 * 60 * 60 * 1000) <= limits.maxDaily + (k - 1) * limits.maxSingle
  {
    var slack := (k - 1) * limits.maxSingle;
    assert 0 <= slack;
    StartWithin(now, HOUR_MS, limits.maxHourly + slack);
    StartWithin(now, DAY_MS, limits.maxDaily + slack);
    RunWithin(limits, k, Start(now), steps, HOUR_MS, limits.maxHourly, slack);
    RunWithin(limits, k, Start(now), steps, DAY_MS, limits.maxDaily, slack);
  }

  /** With one payout in flight at a time the configured limits are exact. */
  lemma RollingLimitOneInFlight(limits: Limits, now: int, steps: seq<Step>, t: int)
    requires 0 <= limits.maxSingle && 0 <= limits.maxHourly && 0 <= limits.maxDaily
    requires IsRun(limits, 1, Start(now), steps)
    ensures var log := After(limits, 1, Start(now), steps).log;
            && SettledWithin(log, t, HOUR_MS) <= limits.maxHourly
            && SettledWithin(log, t, DAY_MS) <= limits.maxDaily
  {
    RollingLimit(limits, 1, now, steps, t);
  }

  // ----- the bound is reached

  function Flat(single: int): Limits {
    Limits(single, single, single, single)
  }

  /** A request that passes every check of the policy engine. */
  function Clean(amount: int): Snapshot {
    Snapshot(Some(O.SettlementPending), false, true, true, amount, amount, true, Some(V.Confirmed), Some(S.Submitting),
             0, 0, 0)
  }

  lemma {:induction false} RecordAll(single: int, k: nat, s: Treasury) returns (steps: seq<Step>)
    requires single > 0 && s.now == 0 && |s.awaiting| <= k
    requires forall i :: 0 <= i < |s.awaiting| ==> s.awaiting[i] == single
    ensures IsRun(Flat(single), k, s, steps)
    ensures SettledWithin(After(Flat(single), k, s, steps).log, 0, HOUR_MS)
         == SettledWithin(s.log, 0, HOUR_MS) + Sum(s.awaiting)
    decreases |s.awaiting|
  {
    if s.awaiting == [] {
      steps := [];
    } else {
      var s' := Exec(s, RecordPayout(0));
      var rest := RecordAll(single, k, s');
      LogAppend(s.log, Payout(single, 0, false), 0, HOUR_MS);
      SumWithout(s.awaiting, 0);
      steps := [RecordPayout(0)] + rest;
      assert steps[1..] == rest;
    }
  }

  lemma {:induction false} SumFlat(xs: seq<int>, x: int)
    requires forall i :: 0 <= i < |xs| ==> xs[i] == x
    ensures Sum(xs) == |xs| * x
  {
    if xs != [] {
      SumFlat(xs[..|xs| - 1], x);
      assert |xs| * x == (|xs| - 1) * x + x;
    }
  }

  lemma {:induction false} ApproveAll(single: int, k: nat, s: Treasury) returns (steps: seq<Step>)
    requires single > 0 && s.now == 0 && s.log == [] && |s.awaiting| <= k
    requires forall i :: 0 <= i < |s.awaiting| ==> s.awaiting[i] == single
    ensures IsRun(Flat(single), k, s, steps)
    ensures SettledWithin(After(Flat(single), k, s, steps).log, 0, HOUR_MS) == k * single
    decreases k - |s.awaiting|
  {
    if |s.awaiting| == k {
      steps := RecordAll(single, k, s);
      SumFlat(s.awaiting, single);
    } else {
      var rest := ApproveAll(single, k, Exec(s, Approve(Clean(single))));
      steps := [Approve(Clean(single))] + rest;
      assert steps[1..] == rest;
    }
  }

  /**
   The (k - 1) * maxSingle cannot be saved: for every k there is a run with at most k approvals in flight
   in which one hour pays out exactly maxHourly + (k - 1) * maxSingle.
   */
  lemma RollingLimitIsReached(single: int, k: nat) returns (steps: seq<Step>)
    requires single > 0 && 1 <= k
    ensures IsRun(Flat(single), k, Start(0), steps)
    ensures SettledWithin(After(Flat(single), k, Start(0), steps).log, 0, HOUR_MS)
         == Flat(single).maxHourly + (k - 1) * Flat(single).maxSingle
  {
    steps := ApproveAll(single, k, Start(0));
    assert k * single == single + (k - 1) * single;
  }
}
