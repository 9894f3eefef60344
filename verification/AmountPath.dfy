/**
 One amount on its way from the quote to the pool: the order and its reservation (src/modules/orders/orders.service.ts),
 the settlement row (src/modules/settlements/settlements.service.ts), the amount argument that is signed
 (src/stellar/soroban/transaction.service.ts), the policy check and the consumption of the reservation.
 */
module AmountPath {
  import opened Wrappers
  import opened Stroops
  import opened SettlementPolicy
  import opened LiquidityLedger
  import V = ReservationStates

  /**
   What the database keeps of `n` stroops in settlements.amount, a Decimal(18,4) column: the number of 10^-4
   units, rounded half up. orders.destination_amount and the reservation keep all seven decimals.
   */
  function SettlementColumn(n: nat): nat {
    (n + 500) / 1000
  }

  /**
   The amount argument of the transaction that the worker builds: Decimal.toString of a settlement amount with
   `e` decimals (four never need an exponent), parsed with three more.
   */
  function SignedAt(n: nat, e: nat): Option<nat> {
    ParseAt(TrimmedText(SettlementColumn(n), e), e + 3)
  }

  function SignedStroops(n: nat): Option<nat> {
    SignedAt(n, 4)
  }

  /** expectedStroops of the policy engine; None when the parser throws. */
  function ExpectedStroops(n: nat): Option<nat> {
    ParseAmount(DecimalText(n))
  }

  lemma SignedAtRounds(n: nat, e: nat)
    ensures SignedAt(n, e) == Some(1000 * SettlementColumn(n))
  {
    ScaledRoundTrip(SettlementColumn(n), e, e + 3);
    ShiftThree(SettlementColumn(n), e + 3 - e);
  }

  lemma ShiftThree(m: nat, k: nat)
    requires k == 3
    ensures Shift(m, k) == 1000 * m
  {
    assert Shift(m, k - 3) == m;
    assert Shift(m, k - 2) == 10 * m;
    assert Shift(m, k - 1) == 100 * m;
  }

  /** The worker signs a multiple of 1000 stroops, at most 500 away from the order's amount. */
  lemma SignedIsRounded(n: nat)
    ensures SignedStroops(n) == Some(1000 * SettlementColumn(n))
    ensures -500 < 1000 * SettlementColumn(n) - n <= 500
  {
    SignedAtRounds(n, 4);
  }

  lemma ExpectedIsOrder(n: nat)
    ensures ExpectedStroops(n) == if 1 <= n <= 9 then None else Some(n)
  {
    if 1 <= n <= 9 {
      ExponentFails(n);
    } else {
      TrimmedRoundTrip(n, 7);
    }
  }

  /** The amount check passes exactly for destination amounts that have at most four decimals. */
  lemma AmountsAgreeIff(n: nat)
    ensures SignedStroops(n) == ExpectedStroops(n) <==> n % 1000 == 0
  {
    var signed, expected := SignedStroops(n), ExpectedStroops(n);
    SignedIsRounded(n);
    ExpectedIsOrder(n);
    RoundedIff(n, signed, expected);
  }

  lemma RoundedIff(n: nat, signed: Option<nat>, expected: Option<nat>)
    requires signed == Some(1000 * SettlementColumn(n))
    requires expected == if 1 <= n <= 9 then None else Some(n)
    ensures signed == expected <==> n % 1000 == 0
    ensures n % 1000 == 0 ==> signed == expected == Some(n)
  {
  }

  /** The policy decision for a signed and an expected amount. */
  predicate Accepts(limits: Limits, snap: Snapshot, signed: Option<nat>, expected: Option<nat>) {
    && signed.Some? && expected.Some?
    && ValidateAndApprove(limits, snap.(xdrStroops := signed.value, orderStroops := expected.value)) == None
  }

  /** The signed amount, the expected amount and the settlement row all denote n stroops. */
  predicate OneAmount(n: nat, signed: Option<nat>, expected: Option<nat>) {
    signed == expected == Some(n) && 1000 * SettlementColumn(n) == n
  }

  /** An order is approved exactly when its amount has four decimals and the rest of the policy accepts that amount. */
  lemma ApprovesIff(limits: Limits, snap: Snapshot, n: nat)
    ensures Accepts(limits, snap, SignedStroops(n), ExpectedStroops(n)) <==>
            n % 1000 == 0 && Accepts(limits, snap, Some(n), Some(n))
    ensures n % 1000 == 0 ==> OneAmount(n, SignedStroops(n), ExpectedStroops(n))
  {
    var signed, expected := SignedStroops(n), ExpectedStroops(n);
    SignedIsRounded(n);
    ExpectedIsOrder(n);
    AcceptsIff(limits, snap, n, signed, expected);
  }

  lemma AcceptsIff(limits: Limits, snap: Snapshot, n: nat, signed: Option<nat>, expected: Option<nat>)
    requires signed == Some(1000 * SettlementColumn(n))
    requires expected == if 1 <= n <= 9 then None else Some(n)
    ensures Accepts(limits, snap, signed, expected) <==> n % 1000 == 0 && Accepts(limits, snap, Some(n), Some(n))
    ensures n % 1000 == 0 ==> OneAmount(n, signed, expected)
  {
    RoundedIff(n, signed, expected);
  }

  // ----- the pool side

  function ReservationOf(l: Ledger, order: OrderId): Option<Reservation> {
    var i := Find(l.reservations, order);
    if i < |l.reservations| then Some(l.reservations[i]) else None
  }

  /** What the treasury log has taken from pool `p` for an order. */
  function Drawn(rows: seq<TreasuryRow>, p: PoolId, order: OrderId): int {
    if rows == [] then 0
    else
      var last := rows[|rows| - 1];
      Drawn(rows[..|rows| - 1], p, order)
      + if last.order == Some(order) && last.pool == p && last.kind == SettlementPayout then last.amount else 0
  }

  lemma {:induction false} DrawnIsCount(rows: seq<TreasuryRow>, p: PoolId, order: OrderId, n: int)
    requires forall k :: 0 <= k < |rows| && rows[k].order == Some(order) ==>
               rows[k].kind == SettlementPayout && rows[k].pool == p && rows[k].amount == n
    ensures Drawn(rows, p, order) == Payouts(rows, order) * n
  {
    if rows != [] {
      DrawnIsCount(rows[..|rows| - 1], p, order, n);
    }
  }

  lemma TermsStay(l: Ledger, op: Op, order: OrderId)
    requires ReservationOf(l, order).Some?
    ensures ReservationOf(Apply(l, op), order).Some?
    ensures ReservationOf(Apply(l, op), order).value ==
            ReservationOf(l, order).value.(status := ReservationOf(Apply(l, op), order).value.status)
  {
    var rows, rows' := l.reservations, Apply(l, op).reservations;
    if op.OpReserve? && |rows'| > |rows| {
      FindAppend(rows, rows'[|rows|], order);
    } else if op.OpConfirm? || op.OpConsume? || op.OpRelease? {
      var k := Find(rows, op.order);
      if rows' != rows {
        FindUpdate(rows, k, rows'[k], order);
      }
    }
  }

  lemma {:induction false} RunTermsStay(l: Ledger, ops: seq<Op>, order: OrderId)
    requires ReservationOf(l, order).Some?
    ensures ReservationOf(Run(l, ops), order).Some?
    ensures ReservationOf(Run(l, ops), order).value ==
            ReservationOf(l, order).value.(status := ReservationOf(Run(l, ops), order).value.status)
    decreases |ops|
  {
    if ops != [] {
      TermsStay(l, ops[0], order);
      RunTermsStay(Apply(l, ops[0]), ops[1..], order);
    }
  }

  lemma ReserveTerms(l: Ledger, p: PoolId, order: OrderId, n: int)
    requires Reserve(l, p, order, n).Ok?
    ensures ReservationOf(Reserve(l, p, order, n).value, order) == Some(Reservation(p, order, n, V.Reserved))
  {
    FindAppend(l.reservations, Reservation(p, order, n, V.Reserved), order);
  }

  /** In a sound ledger an order draws its reserved amount from its pool once it is consumed, and nothing else. */
  lemma DrawnIsReserved(seeds: Seeds, l: Ledger, order: OrderId)
    requires Sound(seeds, l) && ReservationOf(l, order).Some?
    ensures var r := ReservationOf(l, order).value;
            Drawn(l.treasury, r.pool, order) == if r.status == V.Consumed then r.amount else 0
  {
    var r := ReservationOf(l, order).value;
    DrawnIsCount(l.treasury, r.pool, order, r.amount);
  }

  /** The order's reservation is over n, and pool p has paid n for it if it is consumed and nothing before. */
  predicate PaysOnce(l: Ledger, p: PoolId, order: OrderId, n: int) {
    && ReservationOf(l, order).Some?
    && ReservationOf(l, order).value.amount == n
    && Drawn(l.treasury, p, order) == if StatusOf(l, order) == Some(V.Consumed) then n else 0
  }

  /** A reservation keeps its terms, and its pool pays its amount once. */
  lemma PoolPaysReserved(seeds: Seeds, l: Ledger, p: PoolId, order: OrderId, n: nat, ops: seq<Op>)
    requires Sound(seeds, l) && Reserve(l, p, order, n).Ok?
    ensures PaysOnce(Run(Reserve(l, p, order, n).value, ops), p, order, n)
  {
    var l1 := Reserve(l, p, order, n).value;
    ReserveSound(seeds, l, p, order, n);
    RunSound(seeds, l1, ops);
    ReserveTerms(l, p, order, n);
    RunTermsStay(l1, ops, order);
    DrawnIsReserved(seeds, Run(l1, ops), order);
  }

  /**
   For an order that createOrder reserved `n` stroops for: if the policy approves its transaction, then the signed
   amount, the expected amount, the settlement row and the reservation denote n; and however often and in whatever
   order the liquidity operations run afterwards, the pool has paid n for it if it is consumed, and nothing before.
   */
  lemma EndToEnd(seeds: Seeds, l: Ledger, p: PoolId, order: OrderId, n: nat, ops: seq<Op>, limits: Limits,
                 snap: Snapshot)
    requires Sound(seeds, l) && Reserve(l, p, order, n).Ok?
    ensures Accepts(limits, snap, SignedStroops(n), ExpectedStroops(n)) ==>
              OneAmount(n, SignedStroops(n), ExpectedStroops(n))
    ensures PaysOnce(Run(Reserve(l, p, order, n).value, ops), p, order, n)
  {
    ApprovesIff(limits, snap, n);
    PoolPaysReserved(seeds, l, p, order, n, ops);
  }
}
