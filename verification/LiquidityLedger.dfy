/**
 The liquidity pools as values: what each operation of src/modules/liquidity/liquidity.service.ts does to
 the stored rows when its transaction commits. Amounts are stroops (10^-7 of the asset).
 */
module LiquidityLedger {
  import opened Wrappers
  import V = ReservationStates

  type PoolId = nat
  type OrderId = nat

  /** The three stored balances. */
  datatype Pool = Pool(total: int, reserved: int, available: int)

  datatype Reservation = Reservation(pool: PoolId, order: OrderId, amount: int, status: V.Status)

  datatype TxType = Replenishment | SettlementPayout | ManualAdjustment | FeeCollection

  /** A treasury transaction; `order` is the order whose consumption wrote it, None for a manual one. */
  datatype TreasuryRow = TreasuryRow(pool: PoolId, kind: TxType, amount: int, order: Option<OrderId>)

  datatype Ledger = Ledger(pools: map<PoolId, Pool>, reservations: seq<Reservation>, treasury: seq<TreasuryRow>)

  datatype Error =
    | NotPositive
    | PoolNotFound
    | InsufficientLiquidity
    | DuplicateOrder
    | NegativeTotal
    | NegativeAvailable

  /** 10,000 units: what getPool opens a new pool with. */
  const OPENING_BALANCE: int := 10000 * 10000000

  /** findUnique({ where: { orderId } }): the index of the order's reservation, or the table's length. */
  function Find(rows: seq<Reservation>, order: OrderId): (i: nat)
    ensures i <= |rows|
    ensures i < |rows| ==> rows[i].order == order
    ensures forall j :: 0 <= j < i ==> rows[j].order != order
  {
    if rows == [] || rows[0].order == order then 0 else 1 + Find(rows[1..], order)
  }

  /** The status of the order's reservation, if it has one. */
  function StatusOf(l: Ledger, order: OrderId): Option<V.Status> {
    var i := Find(l.reservations, order);
    if i < |l.reservations| then Some(l.reservations[i].status) else None
  }

  function GetPool(l: Ledger, p: PoolId): Ledger {
    if p in l.pools then l
    else l.(pools := l.pools[p := Pool(OPENING_BALANCE, 0, OPENING_BALANCE)])
  }

  function Reserve(l: Ledger, p: PoolId, order: OrderId, amount: int): Result<Ledger, Error> {
    if amount <= 0 then Err(NotPositive)
    else if p !in l.pools then Err(PoolNotFound)
    else
      var pool := l.pools[p];
      if pool.total - pool.reserved < amount then Err(InsufficientLiquidity)
      else
        var reserved := pool.reserved + amount;
        var available := pool.total - reserved;
        if available < 0 || reserved > pool.total then Err(InsufficientLiquidity)
        else if Find(l.reservations, order) < |l.reservations| then Err(DuplicateOrder)
        else
          Ok(l.(pools := l.pools[p := pool.(reserved := reserved, available := available)],
          reservations := l.reservations + [Reservation(p, order, amount, V.Reserved)]))
  }

  /** What confirmReservation writes for a reservation that it has read as RESERVED. */
  function Promote(l: Ledger, i: nat): Ledger
    requires i < |l.reservations|
  {
    l.(reservations := l.reservations[i := l.reservations[i].(status := V.Confirmed)])
  }

  function Confirm(l: Ledger, order: OrderId): Ledger {
    var i := Find(l.reservations, order);
    if i == |l.reservations| || l.reservations[i].status != V.Reserved then l else Promote(l, i)
  }

  function Clamp(x: int): int {
    if x < 0 then 0 else x
  }

  /** What consumeReservation writes for a reservation that it has read as active. */
  function Spend(l: Ledger, i: nat): Ledger
    requires i < |l.reservations| && l.reservations[i].pool in l.pools
  {
    var r := l.reservations[i];
    var pool := l.pools[r.pool];
    var total := Clamp(pool.total - r.amount);
    var reserved := Clamp(pool.reserved - r.amount);
    Ledger(l.pools[r.pool := Pool(total, reserved, total - reserved)],
           l.reservations[i := r.(status := V.Consumed)],
           l.treasury + [TreasuryRow(r.pool, SettlementPayout, r.amount, Some(r.order))])
  }

  function Consume(l: Ledger, order: OrderId): Result<Ledger, Error> {
    var i := Find(l.reservations, order);
    if i == |l.reservations| || !V.Active(l.reservations[i].status) then Ok(l)
    else if l.reservations[i].pool !in l.pools then Err(PoolNotFound)
    else Ok(Spend(l, i))
  }

  /** What releaseReservation writes for a reservation that it has read as active. */
  function Free(l: Ledger, i: nat, target: V.Status): Ledger
    requires i < |l.reservations| && l.reservations[i].pool in l.pools
  {
    var r := l.reservations[i];
    var pool := l.pools[r.pool];
    var reserved := Clamp(pool.reserved - r.amount);
    l.(pools := l.pools[r.pool := pool.(reserved := reserved, available := pool.total - reserved)],
       reservations := l.reservations[i := r.(status := target)])
  }

  /** releaseReservation and, with EXPIRED_RELEASED, expireReservation. */
  function Release(l: Ledger, order: OrderId, target: V.Status): Result<Ledger, Error> {
    var i := Find(l.reservations, order);
    if i == |l.reservations| || !V.Active(l.reservations[i].status) then Ok(l)
    else if l.reservations[i].pool !in l.pools then Err(PoolNotFound)
    else Ok(Free(l, i, target))
  }

  function Record(l: Ledger, p: PoolId, kind: TxType, amount: int): Result<Ledger, Error> {
    if amount <= 0 then Err(NotPositive)
    else if p !in l.pools then Err(PoolNotFound)
    else
      var pool := l.pools[p];
      var total := if kind == SettlementPayout then pool.total - amount else pool.total + amount;
      if kind == SettlementPayout && total < 0 then Err(NegativeTotal)
      else if total - pool.reserved < 0 then Err(NegativeAvailable)
      else
        Ok(l.(pools := l.pools[p := pool.(total := total, available := total - pool.reserved)],
        treasury := l.treasury + [TreasuryRow(p, kind, amount, None)]))
  }

  // ----- what the stored rows add up to

  function Weight(r: Reservation, p: PoolId): int {
    if r.pool == p && V.Active(r.status) then r.amount else 0
  }

  /** Sum of the RESERVED and CONFIRMED reservations of a pool. */
  function Held(rows: seq<Reservation>, p: PoolId): int {
    if rows == [] then 0 else Weight(rows[0], p) + Held(rows[1..], p)
  }

  function Signed(row: TreasuryRow, p: PoolId): int {
    if row.pool != p then 0 else if row.kind == SettlementPayout then -row.amount else row.amount
  }

  /** Inflows minus payouts of a pool. */
  function Net(rows: seq<TreasuryRow>, p: PoolId): int {
    if rows == [] then 0 else Net(rows[..|rows| - 1], p) + Signed(rows[|rows| - 1], p)
  }

  /** How many treasury rows the consumption of an order has written. */
  function Payouts(rows: seq<TreasuryRow>, order: OrderId): nat {
    if rows == [] then 0
    else Payouts(rows[..|rows| - 1], order) + if rows[|rows| - 1].order == Some(order) then 1 else 0
  }

  lemma {:induction false} HeldAppend(rows: seq<Reservation>, r: Reservation, p: PoolId)
    ensures Held(rows + [r], p) == Held(rows, p) + Weight(r, p)
  {
    if rows == [] {
      assert rows + [r] == [r];
      assert Held([r][1..], p) == 0;
    } else {
      assert (rows + [r])[1..] == rows[1..] + [r];
      HeldAppend(rows[1..], r, p);
    }
  }

  lemma {:induction false} HeldUpdate(rows: seq<Reservation>, i: nat, r: Reservation, p: PoolId)
    requires i < |rows|
    ensures Held(rows[i := r], p) == Held(rows, p) - Weight(rows[i], p) + Weight(r, p)
  {
    if i == 0 {
      assert rows[i := r][1..] == rows[1..];
    } else {
      assert rows[i := r][1..] == rows[1..][i - 1 := r];
      HeldUpdate(rows[1..], i - 1, r, p);
    }
  }

  lemma {:induction false} HeldAtLeast(rows: seq<Reservation>, i: nat, p: PoolId)
    requires i < |rows| && forall j :: 0 <= j < |rows| ==> rows[j].amount > 0
    ensures Weight(rows[i], p) <= Held(rows, p)
    ensures 0 <= Held(rows, p)
  {
    if |rows| > 1 {
      HeldAtLeast(rows[1..], if i == 0 then 0 else i - 1, p);
    }
  }

  lemma NetAppend(rows: seq<TreasuryRow>, row: TreasuryRow, p: PoolId, order: OrderId)
    ensures Net(rows + [row], p) == Net(rows, p) + Signed(row, p)
    ensures Payouts(rows + [row], order) == Payouts(rows, order) + if row.order == Some(order) then 1 else 0
  {
    assert (rows + [row])[..|rows + [row]| - 1] == rows;
  }

  // ----- the invariant

  /** The balances of pools that were entered by hand before the service started. */
  type Seeds = map<PoolId, int>

  /** What a pool began with. */
  function Opening(seeds: Seeds, p: PoolId): int {
    if p in seeds then seeds[p] else OPENING_BALANCE
  }

  /** The balances of one pool agree with each other, with the reservations and with the treasury log. */
  predicate PoolSound(seeds: Seeds, l: Ledger, p: PoolId)
    requires p in l.pools
  {
    var pool := l.pools[p];
    && pool.available == pool.total - pool.reserved
    && 0 <= pool.reserved <= pool.total
    && pool.reserved == Held(l.reservations, p)
    && pool.total == Opening(seeds, p) + Net(l.treasury, p)
  }

  predicate RowsSound(l: Ledger) {
    && (forall i :: 0 <= i < |l.reservations| ==> l.reservations[i].amount > 0 && l.reservations[i].pool in l.pools)
    && (forall i, j :: 0 <= i < j < |l.reservations| ==> l.reservations[i].order != l.reservations[j].order)
    && (forall i :: 0 <= i < |l.treasury| ==> l.treasury[i].pool in l.pools)
  }

  /** A CONSUMED reservation has exactly one payout row, of its own pool and amount; no other order has one. */
  ghost predicate PayoutsSound(l: Ledger) {
    PayoutCounts(l) && PayoutRows(l)
  }

  ghost predicate PayoutCounts(l: Ledger) {
    forall order: OrderId ::
      Payouts(l.treasury, order) ==
      var i := Find(l.reservations, order);
      if i < |l.reservations| && l.reservations[i].status == V.Consumed then 1 else 0
  }

  predicate PayoutRows(l: Ledger) {
    forall k :: 0 <= k < |l.treasury| && l.treasury[k].order.Some? ==>
                  var row := l.treasury[k];
                  var i := Find(l.reservations, row.order.value);
                  && i < |l.reservations|
                  && row.kind == SettlementPayout
                  && row.pool == l.reservations[i].pool && row.amount == l.reservations[i].amount
  }

  ghost predicate Sound(seeds: Seeds, l: Ledger) {
    && RowsSound(l)
    && (forall p :: p in seeds ==> p in l.pools)
    && (forall p :: p in l.pools ==> PoolSound(seeds, l, p))
    && PayoutsSound(l)
  }

  lemma {:induction false} FindUpdate(rows: seq<Reservation>, i: nat, r: Reservation, order: OrderId)
    requires i < |rows| && r.order == rows[i].order
    ensures Find(rows[i := r], order) == Find(rows, order)
  {
    if i > 0 && rows[0].order != order {
      assert rows[i := r][1..] == rows[1..][i - 1 := r];
      FindUpdate(rows[1..], i - 1, r, order);
    } else if i == 0 {
      assert rows[i := r][1..] == rows[1..];
    }
  }

  lemma {:induction false} FindAppend(rows: seq<Reservation>, r: Reservation, order: OrderId)
    ensures Find(rows + [r], order) ==
            if Find(rows, order) < |rows| then Find(rows, order)
            else if r.order == order then |rows| else |rows| + 1
  {
    if rows != [] {
      assert (rows + [r])[1..] == rows[1..] + [r];
      FindAppend(rows[1..], r, order);
    }
  }

  lemma {:induction false} NetOfOthers(rows: seq<TreasuryRow>, p: PoolId)
    requires forall i :: 0 <= i < |rows| ==> rows[i].pool != p
    ensures Net(rows, p) == 0
  {
    if rows != [] {
      NetOfOthers(rows[..|rows| - 1], p);
    }
  }

  lemma {:induction false} HeldOfOthers(rows: seq<Reservation>, p: PoolId)
    requires forall i :: 0 <= i < |rows| ==> rows[i].pool != p
    ensures Held(rows, p) == 0
  {
    if rows != [] {
      HeldOfOthers(rows[1..], p);
    }
  }

  lemma GetPoolSound(seeds: Seeds, l: Ledger, p: PoolId)
    requires Sound(seeds, l)
    ensures Sound(seeds, GetPool(l, p))
  {
    var l' := GetPool(l, p);
    if p !in l.pools {
      NetOfOthers(l.treasury, p);
      HeldOfOthers(l.reservations, p);
      forall q | q in l'.pools
        ensures PoolSound(seeds, l', q)
      {
        if q != p {
          assert PoolSound(seeds, l, q);
        }
      }
    }
  }

  lemma ReserveSound(seeds: Seeds, l: Ledger, p: PoolId, order: OrderId, amount: int)
    requires Sound(seeds, l) && Reserve(l, p, order, amount).Ok?
    ensures Sound(seeds, Reserve(l, p, order, amount).value)
  {
    var l' := Reserve(l, p, order, amount).value;
    var r := Reservation(p, order, amount, V.Reserved);
    forall q | q in l'.pools
      ensures PoolSound(seeds, l', q)
    {
      assert PoolSound(seeds, l, q);
      HeldAppend(l.reservations, r, q);
    }
    forall o: OrderId
      ensures Find(l'.reservations, o) == if Find(l.reservations, o) < |l.reservations| then Find(l.reservations, o)
                                          else if o == order then |l.reservations| else |l.reservations| + 1
    {
      FindAppend(l.reservations, r, o);
    }
  }

  /** Replacing the status of one reservation, with its weight taken off or kept. */
  lemma StatusSound(seeds: Seeds, l: Ledger, i: nat, r: Reservation, pool: Pool)
    requires Sound(seeds, l) && i < |l.reservations| && r == l.reservations[i].(status := r.status)
    requires l.reservations[i].status != V.Consumed && r.status != V.Consumed
    requires pool.total == l.pools[r.pool].total && pool.available == pool.total - pool.reserved
    requires pool.reserved == l.pools[r.pool].reserved - Weight(l.reservations[i], r.pool) + Weight(r, r.pool)
    requires 0 <= pool.reserved <= pool.total
    ensures Sound(seeds, l.(pools := l.pools[r.pool := pool], reservations := l.reservations[i := r]))
  {
    var l' := l.(pools := l.pools[r.pool := pool], reservations := l.reservations[i := r]);
    forall q | q in l'.pools
      ensures PoolSound(seeds, l', q)
    {
      assert PoolSound(seeds, l, q);
      HeldUpdate(l.reservations, i, r, q);
    }
    forall o: OrderId
      ensures Find(l'.reservations, o) == Find(l.reservations, o)
    {
      FindUpdate(l.reservations, i, r, o);
    }
  }

  lemma ConfirmSound(seeds: Seeds, l: Ledger, order: OrderId)
    requires Sound(seeds, l)
    ensures Sound(seeds, Confirm(l, order))
  {
    var i := Find(l.reservations, order);
    if i < |l.reservations| && l.reservations[i].status == V.Reserved {
      var r := l.reservations[i].(status := V.Confirmed);
      assert PoolSound(seeds, l, r.pool);
      StatusSound(seeds, l, i, r, l.pools[r.pool]);
      assert l.pools[r.pool := l.pools[r.pool]] == l.pools;
    }
  }

  /** An active reservation is covered by the pool, so the clamps to zero never fire. */
  lemma ClampsNeverFire(seeds: Seeds, l: Ledger, order: OrderId)
    requires Sound(seeds, l)
    ensures var i := Find(l.reservations, order);
            i < |l.reservations| && V.Active(l.reservations[i].status) ==>
              var r := l.reservations[i];
              && r.pool in l.pools
              && 0 < r.amount <= l.pools[r.pool].reserved <= l.pools[r.pool].total
  {
    var i := Find(l.reservations, order);
    if i < |l.reservations| && V.Active(l.reservations[i].status) {
      HeldAtLeast(l.reservations, i, l.reservations[i].pool);
      assert PoolSound(seeds, l, l.reservations[i].pool);
    }
  }

  lemma ReleaseSound(seeds: Seeds, l: Ledger, order: OrderId, target: V.Status)
    requires Sound(seeds, l) && !V.Active(target) && target != V.Consumed
    ensures Release(l, order, target).Ok? && Sound(seeds, Release(l, order, target).value)
  {
    ClampsNeverFire(seeds, l, order);
    var i := Find(l.reservations, order);
    if i < |l.reservations| && V.Active(l.reservations[i].status) {
      var r := l.reservations[i].(status := target);
      assert PoolSound(seeds, l, r.pool);
      var pool := l.pools[r.pool].(reserved := l.pools[r.pool].reserved - r.amount,
      available := l.pools[r.pool].total - (l.pools[r.pool].reserved - r.amount));
      var l' := l.(pools := l.pools[r.pool := pool], reservations := l.reservations[i := r]);
      assert Release(l, order, target) == Ok(l');
      assert Sound(seeds, l') by {
        StatusSound(seeds, l, i, r, pool);
      }
    }
  }

  /** What consumption does to the rows once the clamps are known not to fire. */
  function Consumed(l: Ledger, i: nat): Ledger
    requires i < |l.reservations| && l.reservations[i].pool in l.pools
  {
    var r := l.reservations[i];
    var pool := l.pools[r.pool];
    Ledger(l.pools[r.pool := Pool(pool.total - r.amount, pool.reserved - r.amount, pool.total - pool.reserved)],
           l.reservations[i := r.(status := V.Consumed)],
           l.treasury + [TreasuryRow(r.pool, SettlementPayout, r.amount, Some(r.order))])
  }

  lemma ConsumePool(seeds: Seeds, l: Ledger, i: nat, q: PoolId)
    requires RowsSound(l) && i < |l.reservations| && V.Active(l.reservations[i].status)
    requires q in l.pools && PoolSound(seeds, l, q)
    ensures PoolSound(seeds, Consumed(l, i), q)
  {
    var r := l.reservations[i];
    HeldAtLeast(l.reservations, i, q);
    HeldUpdate(l.reservations, i, r.(status := V.Consumed), q);
    NetAppend(l.treasury, TreasuryRow(r.pool, SettlementPayout, r.amount, Some(r.order)), q, r.order);
  }

  lemma ConsumePools(seeds: Seeds, l: Ledger, i: nat)
    requires Sound(seeds, l) && i < |l.reservations| && V.Active(l.reservations[i].status)
    ensures RowsSound(Consumed(l, i))
    ensures forall q :: q in l.pools ==> PoolSound(seeds, Consumed(l, i), q)
  {
    forall q | q in l.pools
      ensures PoolSound(seeds, Consumed(l, i), q)
    {
      ConsumePool(seeds, l, i, q);
    }
  }

  /** Consumption leaves every order's reservation where it is and writes one payout row, for its own order. */
  lemma ConsumedFrame(l: Ledger, i: nat, o: OrderId)
    requires i < |l.reservations| && l.reservations[i].pool in l.pools
    ensures Find(Consumed(l, i).reservations, o) == Find(l.reservations, o)
    ensures Payouts(Consumed(l, i).treasury, o)
         == Payouts(l.treasury, o) + if o == l.reservations[i].order then 1 else 0
  {
    var r := l.reservations[i];
    FindUpdate(l.reservations, i, r.(status := V.Consumed), o);
    NetAppend(l.treasury, TreasuryRow(r.pool, SettlementPayout, r.amount, Some(r.order)), 0, o);
  }

  lemma ConsumePayouts(l: Ledger, i: nat)
    requires RowsSound(l) && PayoutsSound(l)
    requires i < |l.reservations| && i == Find(l.reservations, l.reservations[i].order)
    requires V.Active(l.reservations[i].status)
    ensures PayoutsSound(Consumed(l, i))
  {
    ConsumedCounts(l, i);
    ConsumedRows(l, i);
  }

  lemma ConsumedCounts(l: Ledger, i: nat)
    requires RowsSound(l) && PayoutCounts(l)
    requires i < |l.reservations| && i == Find(l.reservations, l.reservations[i].order)
    requires V.Active(l.reservations[i].status)
    ensures PayoutCounts(Consumed(l, i))
  {
    forall o: OrderId
      ensures Payouts(Consumed(l, i).treasury, o) ==
              var k := Find(Consumed(l, i).reservations, o);
              if k < |Consumed(l, i).reservations| && Consumed(l, i).reservations[k].status == V.Consumed then 1 else 0
    {
      ConsumedFrame(l, i, o);
    }
  }

  lemma ConsumedRows(l: Ledger, i: nat)
    requires RowsSound(l) && PayoutRows(l)
    requires i < |l.reservations| && i == Find(l.reservations, l.reservations[i].order)
    ensures PayoutRows(Consumed(l, i))
  {
    var l' := Consumed(l, i);
    forall k | 0 <= k < |l'.treasury| && l'.treasury[k].order.Some?
      ensures Find(l'.reservations, l'.treasury[k].order.value) == Find(l.reservations, l'.treasury[k].order.value)
    {
      ConsumedFrame(l, i, l'.treasury[k].order.value);
    }
  }

  lemma ConsumeSound(seeds: Seeds, l: Ledger, order: OrderId)
    requires Sound(seeds, l)
    ensures Consume(l, order).Ok? && Sound(seeds, Consume(l, order).value)
  {
    if StatusOf(l, order).Some? && V.Active(StatusOf(l, order).value) {
      var i := Find(l.reservations, order);
      ClampsNeverFire(seeds, l, order);
      assert Consume(l, order) == Ok(Consumed(l, i));
      ConsumePools(seeds, l, i);
      ConsumePayouts(l, i);
    }
  }

  lemma RecordSound(seeds: Seeds, l: Ledger, p: PoolId, kind: TxType, amount: int)
    requires Sound(seeds, l) && Record(l, p, kind, amount).Ok?
    ensures Sound(seeds, Record(l, p, kind, amount).value)
  {
    var l' := Record(l, p, kind, amount).value;
    var row := TreasuryRow(p, kind, amount, None);
    forall q | q in l'.pools
      ensures PoolSound(seeds, l', q)
    {
      assert PoolSound(seeds, l, q);
      NetAppend(l.treasury, row, q, 0);
    }
    forall o: OrderId
      ensures Payouts(l'.treasury, o) == Payouts(l.treasury, o)
    {
      NetAppend(l.treasury, row, 0, o);
    }
  }

  // ----- runs of the service

  datatype Op =
    | OpGetPool(p: PoolId)
    | OpReserve(p: PoolId, order: OrderId, amount: int)
    | OpConfirm(order: OrderId)
    | OpConsume(order: OrderId)
    | OpRelease(order: OrderId, expired: bool)
    | OpRecord(p: PoolId, kind: TxType, amount: int)

  function Released(expired: bool): V.Status {
    if expired then V.ExpiredReleased else V.CancelledReleased
  }

  /** A rejected operation rolls back: the rows stay as they are. */
  function Settle(l: Ledger, r: Result<Ledger, Error>): Ledger {
    if r.Ok? then r.value else l
  }

  function Apply(l: Ledger, op: Op): Ledger {
    match op
    case OpGetPool(p) => GetPool(l, p)
    case OpReserve(p, order, amount) => Settle(l, Reserve(l, p, order, amount))
    case OpConfirm(order) => Confirm(l, order)
    case OpConsume(order) => Settle(l, Consume(l, order))
    case OpRelease(order, expired) => Settle(l, Release(l, order, Released(expired)))
    case OpRecord(p, kind, amount) => Settle(l, Record(l, p, kind, amount))
  }

  function Run(l: Ledger, ops: seq<Op>): Ledger
    decreases |ops|
  {
    if ops == [] then l else Run(Apply(l, ops[0]), ops[1..])
  }

  // ----- what each operation comes to

  /** The order's reservation row. */
  predicate IsRow(l: Ledger, order: OrderId, i: nat) {
    && i < |l.reservations| && l.reservations[i].order == order
    && forall j :: 0 <= j < i ==> l.reservations[j].order != order
  }

  lemma RowIsFound(l: Ledger, order: OrderId, i: nat)
    requires IsRow(l, order, i)
    ensures Find(l.reservations, order) == i
  {
  }

  /** A missing pool is opened with 10,000 units, all of them free; a stored one stays. */
  lemma OpenOutcome(l: Ledger, p: PoolId)
    ensures Apply(l, OpGetPool(p)) ==
            if p in l.pools then l
            else Ledger(l.pools[p := Pool(10000 * 10000000, 0, 10000 * 10000000)], l.reservations, l.treasury)
  {
  }

  /** A reservation is granted exactly for a positive amount that the pool has free, once per order. */
  lemma ReserveOutcome(l: Ledger, p: PoolId, order: OrderId, amount: int)
    ensures Reserve(l, p, order, amount).Ok? <==>
            && amount > 0 && p in l.pools && amount <= l.pools[p].total - l.pools[p].reserved
            && forall i :: 0 <= i < |l.reservations| ==> l.reservations[i].order != order
    ensures Reserve(l, p, order, amount).Ok? ==>
              var l', pool := Apply(l, OpReserve(p, order, amount)), l.pools[p];
              && l'.pools == l.pools[p := Pool(pool.total, pool.reserved + amount, pool.total - pool.reserved - amount)]
              && l'.reservations == l.reservations + [Reservation(p, order, amount, V.Reserved)]
              && l'.treasury == l.treasury
    ensures Reserve(l, p, order, amount).Err? ==> Apply(l, OpReserve(p, order, amount)) == l
    ensures Reserve(l, p, order, amount) == Err(NotPositive) <==> amount <= 0
    ensures Reserve(l, p, order, amount) == Err(PoolNotFound) <==> amount > 0 && p !in l.pools
    ensures Reserve(l, p, order, amount) == Err(InsufficientLiquidity) <==>
            amount > 0 && p in l.pools && amount > l.pools[p].total - l.pools[p].reserved
  {
  }

  /** Confirming turns RESERVED into CONFIRMED and touches nothing else. */
  lemma ConfirmOutcome(l: Ledger, order: OrderId, i: nat)
    requires IsRow(l, order, i)
    ensures var l' := Apply(l, OpConfirm(order));
            && l'.pools == l.pools && l'.treasury == l.treasury
            && l'.reservations == l.reservations[i := l.reservations[i].(
                 status := if l.reservations[i].status == V.Reserved then V.Confirmed else l.reservations[i].status)]
  {
    RowIsFound(l, order, i);
    assert l.reservations[i := l.reservations[i]] == l.reservations;
  }

  /** Consuming takes the amount off total and reserved, once, and writes a payout row for it. */
  lemma ConsumeOutcome(seeds: Seeds, l: Ledger, order: OrderId, i: nat)
    requires Sound(seeds, l) && IsRow(l, order, i)
    ensures var r := l.reservations[i];
            r.pool in l.pools &&
            var pool := l.pools[r.pool];
            Apply(l, OpConsume(order)) ==
            if r.status == V.Reserved || r.status == V.Confirmed then
              Ledger(l.pools[r.pool := Pool(pool.total - r.amount, pool.reserved - r.amount,
                                            pool.total - pool.reserved)],
                     l.reservations[i := r.(status := V.Consumed)],
                     l.treasury + [TreasuryRow(r.pool, SettlementPayout, r.amount, Some(order))])
            else l
  {
    RowIsFound(l, order, i);
    ClampsNeverFire(seeds, l, order);
  }

  /** Releasing gives the amount back; an expiry is EXPIRED_RELEASED, any other release CANCELLED_RELEASED. */
  lemma ReleaseOutcome(seeds: Seeds, l: Ledger, order: OrderId, i: nat, expired: bool)
    requires Sound(seeds, l) && IsRow(l, order, i)
    ensures var r := l.reservations[i];
            r.pool in l.pools &&
            var pool := l.pools[r.pool];
            Apply(l, OpRelease(order, expired)) ==
            if r.status == V.Reserved || r.status == V.Confirmed then
              Ledger(l.pools[r.pool := Pool(pool.total, pool.reserved - r.amount,
                                            pool.total - pool.reserved + r.amount)],
                     l.reservations[i := r.(status := if expired then V.ExpiredReleased else V.CancelledReleased)],
                     l.treasury)
            else l
  {
    RowIsFound(l, order, i);
    ClampsNeverFire(seeds, l, order);
  }

  /** A manual payout is recorded exactly if the pool has it free, any other transaction always. */
  lemma RecordOutcome(seeds: Seeds, l: Ledger, p: PoolId, kind: TxType, amount: int)
    requires Sound(seeds, l) && p in l.pools
    ensures Record(l, p, kind, amount).Ok? <==>
            amount > 0 && (kind == SettlementPayout ==> amount <= l.pools[p].total - l.pools[p].reserved)
    ensures Record(l, p, kind, amount).Ok? ==>
              var pool, change := l.pools[p], if kind == SettlementPayout then -amount else amount;
              Apply(l, OpRecord(p, kind, amount)) ==
              Ledger(l.pools[p := Pool(pool.total + change, pool.reserved, pool.total + change - pool.reserved)],
                     l.reservations, l.treasury + [TreasuryRow(p, kind, amount, None)])
    ensures Record(l, p, kind, amount).Err? ==> Apply(l, OpRecord(p, kind, amount)) == l
    ensures Record(l, p, kind, amount) == Err(NotPositive) <==> amount <= 0
    ensures Record(l, p, kind, amount) == Err(NegativeTotal) <==>
            amount > 0 && kind == SettlementPayout && l.pools[p].total < amount
    ensures Record(l, p, kind, amount) == Err(NegativeAvailable) <==>
            amount > 0 && kind == SettlementPayout
            && l.pools[p].total - l.pools[p].reserved < amount <= l.pools[p].total
  {
    assert PoolSound(seeds, l, p);
  }

  const Empty: Ledger := Ledger(map[], [], [])

  /** The tables before the first operation. */
  function Seeded(seeds: Seeds): Ledger {
    Ledger(map p | p in seeds :: Pool(seeds[p], 0, seeds[p]), [], [])
  }

  lemma ApplySound(seeds: Seeds, l: Ledger, op: Op)
    requires Sound(seeds, l)
    ensures Sound(seeds, Apply(l, op))
  {
    match op
    case OpGetPool(p) => GetPoolSound(seeds, l, p);
    case OpReserve(p, order, amount) =>
      if Reserve(l, p, order, amount).Ok? { ReserveSound(seeds, l, p, order, amount); }
    case OpConfirm(order) => ConfirmSound(seeds, l, order);
    case OpConsume(order) => ConsumeSound(seeds, l, order);
    case OpRelease(order, expired) => ReleaseSound(seeds, l, order, Released(expired));
    case OpRecord(p, kind, amount) =>
      if Record(l, p, kind, amount).Ok? { RecordSound(seeds, l, p, kind, amount); }
  }

  /**
   After any sequence of operations, repeated and in any order: available = total - reserved,
   0 <= reserved <= total, reserved is the sum of the active reservations, total is what the pool began with
   plus the treasury log, and each CONSUMED reservation has exactly one payout row.
   */
  lemma {:induction false} RunSound(seeds: Seeds, l: Ledger, ops: seq<Op>)
    requires Sound(seeds, l)
    ensures Sound(seeds, Run(l, ops))
    decreases |ops|
  {
    if ops != [] {
      ApplySound(seeds, l, ops[0]);
      RunSound(seeds, Apply(l, ops[0]), ops[1..]);
    }
  }

  lemma ServiceSound(seeds: Seeds, ops: seq<Op>)
    requires forall p :: p in seeds ==> seeds[p] >= 0
    ensures Sound(seeds, Run(Seeded(seeds), ops))
  {
    RunSound(seeds, Seeded(seeds), ops);
  }

  lemma DeadStaysDead(l: Ledger, op: Op, order: OrderId)
    requires StatusOf(l, order).Some? && !V.Active(StatusOf(l, order).value)
    ensures StatusOf(Apply(l, op), order) == StatusOf(l, order)
  {
    var i := Find(l.reservations, order);
    var rows, rows' := l.reservations, Apply(l, op).reservations;
    if op.OpReserve? && |rows'| > |rows| {
      FindAppend(rows, rows'[|rows|], order);
    } else if op.OpConfirm? || op.OpConsume? || op.OpRelease? {
      var k := Find(rows, op.order);
      if rows' != rows {
        FindUpdate(rows, k, rows'[k], order);
        assert k != i;
      }
    }
  }

  /** Completing again never subtracts again: once consumed or released, a reservation is left alone for good. */
  lemma {:induction false} ConsumedOnce(l: Ledger, ops: seq<Op>, order: OrderId)
    requires StatusOf(l, order).Some? && !V.Active(StatusOf(l, order).value)
    ensures StatusOf(Run(l, ops), order) == StatusOf(l, order)
    ensures Consume(Run(l, ops), order) == Ok(Run(l, ops))
    decreases |ops|
  {
    if ops != [] {
      DeadStaysDead(l, ops[0], order);
      ConsumedOnce(Apply(l, ops[0]), ops[1..], order);
    }
  }
}
