/**
 The service itself, working on its tables in place, with the steps of each transaction in the source's
 order. Each method does to the rows what the operation of the same name in LiquidityLedger does, so
 every history of calls is one of the runs that LiquidityLedger.ServiceSound speaks about.
 */
module LiquidityService {
  import opened Wrappers
  import opened LiquidityLedger
  import V = ReservationStates

  class Service {
    var pools: map<PoolId, Pool>
    var reservations: seq<Reservation>
    var treasury: seq<TreasuryRow>

    constructor ()
      ensures Rows() == Empty
    {
      pools, reservations, treasury := map[], [], [];
    }

    ghost function Rows(): Ledger
      reads this
    {
      Ledger(pools, reservations, treasury)
    }

    method GetOrCreatePool(p: PoolId) returns (pool: Pool)
      modifies this
      ensures Rows() == Apply(old(Rows()), OpGetPool(p)) && p in pools && pool == pools[p]
    {
      if p !in pools {
        pools := pools[p := Pool(OPENING_BALANCE, 0, OPENING_BALANCE)];
      }
      pool := pools[p];
    }

    method ReserveForOrder(p: PoolId, order: OrderId, amount: int) returns (r: Result<Reservation, Error>)
      modifies this
      ensures Rows() == Apply(old(Rows()), OpReserve(p, order, amount))
      ensures r.Ok? <==> Reserve(old(Rows()), p, order, amount).Ok?
      ensures r.Ok? ==> r.value == Reservation(p, order, amount, V.Reserved) && r.value in reservations
      ensures r.Err? ==> Reserve(old(Rows()), p, order, amount) == Err(r.error)
    {
      if amount <= 0 {
        return Err(NotPositive);
      }
      if p !in pools {
        return Err(PoolNotFound);
      }
      var pool := pools[p];
      var currentAvailable := pool.total - pool.reserved;
      if currentAvailable < amount {
        return Err(InsufficientLiquidity);
      }
      var newReserved := pool.reserved + amount;
      var newAvailable := pool.total - newReserved;
      if newAvailable < 0 || newReserved > pool.total {
        return Err(InsufficientLiquidity);
      }
      if Find(reservations, order) < |reservations| {
        return Err(DuplicateOrder);
      }
      pools := pools[p := pool.(reserved := newReserved, available := newAvailable)];
      var reservation := Reservation(p, order, amount, V.Reserved);
      reservations := reservations + [reservation];
      r := Ok(reservation);
    }

    method ConfirmReservation(order: OrderId) returns (found: Option<Reservation>)
      modifies this
      ensures Rows() == Apply(old(Rows()), OpConfirm(order))
      ensures found.Some? <==> StatusOf(old(Rows()), order).Some?
      ensures found.Some? ==> StatusOf(Rows(), order) == Some(found.value.status)
    {
      var i := Find(reservations, order);
      if i == |reservations| {
        return None;
      }
      var reservation := reservations[i];
      if reservation.status == V.Reserved {
        reservation := reservation.(status := V.Confirmed);
        FindUpdate(reservations, i, reservation, order);
        reservations := reservations[i := reservation];
      }
      found := Some(reservation);
    }

    method ConsumeReservation(order: OrderId) returns (r: Result<Option<Reservation>, Error>)
      modifies this
      ensures Rows() == Apply(old(Rows()), OpConsume(order))
      ensures r.Ok? <==> Consume(old(Rows()), order).Ok?
      ensures r.Ok? && r.value.Some? ==> StatusOf(Rows(), order) == Some(r.value.value.status)
    {
      var i := Find(reservations, order);
      if i == |reservations| {
        return Ok(None);
      }
      var reservation := reservations[i];
      if reservation.status == V.Consumed {
        return Ok(Some(reservation));
      }
      if reservation.status == V.ExpiredReleased || reservation.status == V.CancelledReleased {
        return Ok(Some(reservation));
      }
      if reservation.pool !in pools {
        return Err(PoolNotFound);
      }
      var pool := pools[reservation.pool];
      var newTotal := pool.total - reservation.amount;
      var newReserved := pool.reserved - reservation.amount;
      var safeTotal := if newTotal < 0 then 0 else newTotal;
      var safeReserved := if newReserved < 0 then 0 else newReserved;
      pools := pools[reservation.pool := Pool(safeTotal, safeReserved, safeTotal - safeReserved)];
      reservation := reservation.(status := V.Consumed);
      FindUpdate(reservations, i, reservation, order);
      reservations := reservations[i := reservation];
      treasury := treasury + [TreasuryRow(reservation.pool, SettlementPayout, reservation.amount, Some(order))];
      r := Ok(Some(reservation));
    }

    method ReleaseReservation(order: OrderId, expired: bool) returns (r: Result<Option<Reservation>, Error>)
      modifies this
      ensures Rows() == Apply(old(Rows()), OpRelease(order, expired))
      ensures r.Ok? <==> Release(old(Rows()), order, Released(expired)).Ok?
      ensures r.Ok? && r.value.Some? ==> StatusOf(Rows(), order) == Some(r.value.value.status)
    {
      var i := Find(reservations, order);
      if i == |reservations| {
        return Ok(None);
      }
      var reservation := reservations[i];
      if reservation.status == V.Consumed || reservation.status == V.ExpiredReleased
         || reservation.status == V.CancelledReleased {
        return Ok(Some(reservation));
      }
      if reservation.pool !in pools {
        return Err(PoolNotFound);
      }
      var pool := pools[reservation.pool];
      var newReserved := pool.reserved - reservation.amount;
      var safeReserved := if newReserved < 0 then 0 else newReserved;
      pools := pools[reservation.pool := pool.(reserved := safeReserved, available := pool.total - safeReserved)];
      reservation := reservation.(status := Released(expired));
      FindUpdate(reservations, i, reservation, order);
      reservations := reservations[i := reservation];
      r := Ok(Some(reservation));
    }

    method RecordTreasuryTransaction(p: PoolId, kind: TxType, amount: int) returns (r: Result<TreasuryRow, Error>)
      modifies this
      ensures Rows() == Apply(old(Rows()), OpRecord(p, kind, amount))
      ensures r.Ok? <==> Record(old(Rows()), p, kind, amount).Ok?
      ensures r.Err? ==> Record(old(Rows()), p, kind, amount) == Err(r.error)
    {
      if amount <= 0 {
        return Err(NotPositive);
      }
      if p !in pools {
        return Err(PoolNotFound);
      }
      var pool := pools[p];
      var newTotal := pool.total;
      if kind == Replenishment || kind == ManualAdjustment || kind == FeeCollection {
        newTotal := pool.total + amount;
      } else if kind == SettlementPayout {
        newTotal := pool.total - amount;
        if newTotal < 0 {
          return Err(NegativeTotal);
        }
      }
      var newAvailable := newTotal - pool.reserved;
      if newAvailable < 0 {
        return Err(NegativeAvailable);
      }
      pools := pools[p := pool.(total := newTotal, available := newAvailable)];
      var row := TreasuryRow(p, kind, amount, None);
      treasury := treasury + [row];
      r := Ok(row);
    }
  }
}
