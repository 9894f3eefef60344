/**
 src/modules/refunds/refunds.service.ts: refund creation as one transaction under the order's row lock, refund
 execution as three steps (read, guarded update, outcome) with the payment provider before the last, over the
 orders, payments and refunds of the database.
 Amounts are 10^-4 units of the source currency.
 */
module Refunds {
  import opened Wrappers
  import S = SettlementStates
  import R = RefundStates
  import O = OrderStates
  import P = PaymentStates
  import V = ReservationStates
  import SP = SettlementProtocol

  type OrderId = nat
  type UserId = nat

  datatype Payment = Payment(amount: int, status: P.Status)

  datatype Order = Order(
    user: UserId,
    status: O.Status,
    source: int,                          // sourceAmount
    payments: seq<Payment>,
    settlement: Option<S.Status>,
    reservation: Option<V.Status>
  )

  /** `ambiguous` is the ambiguousResponse mark in the metadata; `returned` records a normally returned call. */
  datatype Refund = Refund(order: OrderId, payment: nat, amount: int, status: R.Status, key: nat, user: UserId,
                           ambiguous: bool, returned: bool)

  /** A call of executeRefund: it has read the refund, or it asks the provider and has read the order. */
  datatype Call = Reading(refund: nat, seen: R.Status) | Asking(refund: nat, orderSeen: O.Status)

  datatype Db = Db(orders: map<OrderId, Order>, refunds: seq<Refund>, calls: map<nat, Call>)

  datatype Request = Request(order: OrderId, user: UserId, isAdmin: bool, payment: Option<nat>, amount: Option<int>,
                             key: nat)

  datatype Error =
    | OrderNotFound
    | NotOwner
    | StateNotAllowedForUser
    | AlreadySettled
    | SettlementActive
    | NoEligiblePayment
    | KeyUsedByOther
    | FullyRefunded
    | NotPositive
    | ExceedsRemaining
    | InvalidOrderTransition

  // ----- creation

  /** The sum that createRefund computes over PENDING, PROCESSING and SUCCEEDED refunds of the order. */
  function LiveSum(refunds: seq<Refund>, order: OrderId): int {
    if refunds == [] then 0
    else LiveSum(refunds[..|refunds| - 1], order) + Weight(refunds[|refunds| - 1], order)
  }

  function Weight(r: Refund, order: OrderId): int {
    if r.order == order && R.Live(r.status) then r.amount else 0
  }

  function FirstSucceeded(payments: seq<Payment>): (i: nat)
    ensures i <= |payments|
  {
    if payments == [] || payments[0].status == P.Succeeded then 0 else 1 + FirstSucceeded(payments[1..])
  }

  /** The payment whose amount counts as captured. */
  function Captured(order: Order, choice: Option<nat>): (r: Option<nat>)
    ensures r.Some? ==> r.value < |order.payments|
  {
    match choice
    case Some(i) => if i < |order.payments| then Some(i) else None
    case None =>
      var i := FirstSucceeded(order.payments);
      if i < |order.payments| then Some(i)
      else if order.payments != [] then Some(0)
      else None
  }

  function FindKey(refunds: seq<Refund>, key: nat): (i: nat)
    ensures i <= |refunds|
    ensures i < |refunds| ==> refunds[i].key == key
    ensures forall j :: 0 <= j < i ==> refunds[j].key != key
  {
    if refunds == [] || refunds[0].key == key then 0 else 1 + FindKey(refunds[1..], key)
  }

  predicate AllowedForUser(status: O.Status) {
    || status == O.Failed || status == O.Expired || status == O.Cancelled
    || status == O.RefundFailed || status == O.RefundPending
  }

  /** The index of the refund, and the database after the transaction. */
  function Created(db: Db, req: Request): Result<(nat, Db), Error> {
    if req.order !in db.orders then Err(OrderNotFound)
    else
      var order := db.orders[req.order];
      if !req.isAdmin && order.user != req.user then Err(NotOwner)
      else if !req.isAdmin && !AllowedForUser(order.status) then Err(StateNotAllowedForUser)
      else if order.status == O.Completed || order.status == O.SettlementCompleted then Err(AlreadySettled)
      else if order.settlement.Some? && S.BlocksRefund(order.settlement.value) then Err(SettlementActive)
      else
        var payment := Captured(order, req.payment);
        if payment.None? then Err(NoEligiblePayment)
        else
          var existing := FindKey(db.refunds, req.key);
          if existing < |db.refunds| then
            if !req.isAdmin && db.refunds[existing].user != req.user then Err(KeyUsedByOther)
            else Ok((existing, db))
          else
            var total := LiveSum(db.refunds, req.order);
            var captured := order.payments[payment.value].amount;
            var remaining := captured - total;
            if remaining <= 0 then Err(FullyRefunded)
            else
              var amount := if req.amount.Some? && req.amount.value != 0 then req.amount.value else remaining;
              if amount <= 0 then Err(NotPositive)
              else if total + amount > captured then Err(ExceedsRemaining)
              else if !O.CanTransition(order.status, O.RefundPending) then Err(InvalidOrderTransition)
              else
                Ok((|db.refunds|,
                    db.(orders := db.orders[req.order := order.(status := O.RefundPending)],
                    refunds := db.refunds
                    + [Refund(req.order, payment.value, amount, R.Pending, req.key, order.user, false, false)])))
  }

  // ----- execution

  /** A call on this refund gets past the early returns and asks the provider. */
  predicate ReachesProvider(r: Refund) {
    !R.IsTerminal(r.status) && !(r.status == R.Processing && r.ambiguous)
  }

  /** The outcome cannot be stored because the order may not move on, so the call throws and rolls back. */
  predicate Throws(seen: O.Status, outcome: R.Status) {
    || (outcome == R.Succeeded && !O.CanTransition(seen, O.Refunded))
    || (outcome == R.Failed && !O.CanTransition(seen, O.RefundFailed))
  }

  /** The refund after the provider answered; anything but SUCCEEDED and FAILED is ambiguous. */
  function Outcome(r: Refund, outcome: R.Status): Refund {
    if outcome == R.Succeeded || outcome == R.Failed then r.(status := outcome, ambiguous := false, returned := true)
    else r.(status := R.Processing, ambiguous := true, returned := true)
  }

  /** The order beside it: a success marks its payment REFUNDED and releases an active reservation. */
  function Moved(order: Order, payment: nat, outcome: R.Status): Order {
    if outcome == R.Succeeded then
      order.(status := O.Refunded,
             payments := if payment < |order.payments|
                         then order.payments[payment := order.payments[payment].(status := P.Refunded)]
                         else order.payments,
             reservation := if order.reservation.Some? && V.Active(order.reservation.value)
                            then Some(V.CancelledReleased) else order.reservation)
    else if outcome == R.Failed then order.(status := O.RefundFailed)
    else order
  }

  datatype Op =
    | NewOrder(order: OrderId, user: UserId, source: int)
    | NewPayment(order: OrderId)                                          // createPayment
    | Elsewhere(order: OrderId, status: O.Status, settlement: Option<S.Status>,
                reservation: Option<V.Status>)                            // the rest of the system
    | PaymentMoves(order: OrderId, i: nat, to: P.Status)
    | Create(req: Request)
    | Look(x: nat, refund: nat)                                           // executeRefund reads the refund
    | Begin(x: nat)                                                       // its guarded update to PROCESSING
    | Finish(x: nat, outcome: R.Status)                                   // the provider answered
    | Abandon(x: nat)                                                     // the lock is lost or the provider call threw

  predicate Enabled(db: Db, op: Op) {
    match op
    case NewOrder(order, _, source) => order !in db.orders && source >= 0
    case NewPayment(order) => order in db.orders
    case Elsewhere(order, _, _, _) => order in db.orders
    case PaymentMoves(order, i, _) => order in db.orders && i < |db.orders[order].payments|
    case Create(_) => true
    case Look(x, refund) => x !in db.calls && refund < |db.refunds|
    case Begin(x) =>
      && x in db.calls && db.calls[x].Reading? && db.calls[x].refund < |db.refunds|
      && db.refunds[db.calls[x].refund].order in db.orders
    case Finish(x, _) => x in db.calls && db.calls[x].Asking? && db.calls[x].refund < |db.refunds|
    case Abandon(x) => x in db.calls
  }

  function Exec(db: Db, op: Op): Db
    requires Enabled(db, op)
  {
    match op
    case NewOrder(order, user, source) =>
      db.(orders := db.orders[order := Order(user, O.Created, source, [], None, None)])
    case NewPayment(order) =>
      var o := db.orders[order];
      db.(orders := db.orders[order := o.(status := O.AwaitingPayment,
      payments := o.payments + [Payment(o.source, P.Created)])])
    case Elsewhere(order, status, settlement, reservation) =>
      db.(orders := db.orders[order := db.orders[order].(status := status, settlement := settlement,
                                                         reservation := reservation)])
    case PaymentMoves(order, i, to) =>
      var o := db.orders[order];
      db.(orders := db.orders[order := o.(payments := o.payments[i := o.payments[i].(status := to)])])
    case Create(req) =>
      var r := Created(db, req);
      if r.Ok? then r.value.1 else db
    case Look(x, refund) =>
      var r := db.refunds[refund];
      if ReachesProvider(r) then db.(calls := db.calls[x := Reading(refund, r.status)])
      else db.(refunds := db.refunds[refund := r.(returned := true)])
    case Begin(x) =>
      var c := db.calls[x];
      var r := db.refunds[c.refund];
      if r.status == c.seen then
        db.(refunds := db.refunds[c.refund := r.(status := R.Processing)],
            calls := db.calls[x := Asking(c.refund, db.orders[r.order].status)])
      else db.(refunds := db.refunds[c.refund := r.(returned := true)], calls := db.calls - {x})
    case Finish(x, outcome) =>
      var c := db.calls[x];
      if Throws(c.orderSeen, outcome) then db.(calls := db.calls - {x})
      else
        var r := db.refunds[c.refund];
        db.(orders := if r.order in db.orders
                      then db.orders[r.order := Moved(db.orders[r.order], r.payment, outcome)] else db.orders,
        refunds := db.refunds[c.refund := Outcome(r, outcome)],
        calls := db.calls - {x})
    case Abandon(x) => db.(calls := db.calls - {x})
  }

  predicate IsRun(db: Db, ops: seq<Op>)
    decreases |ops|
  {
    ops == [] || (Enabled(db, ops[0]) && IsRun(Exec(db, ops[0]), ops[1..]))
  }

  function After(db: Db, ops: seq<Op>): Db
    requires IsRun(db, ops)
    decreases |ops|
  {
    if ops == [] then db else After(Exec(db, ops[0]), ops[1..])
  }

  const Empty: Db := Db(map[], [], map[])

  // ----- when a refund is granted

  /** Without a choice the first SUCCEEDED payment counts, or else the first one. */
  lemma {:induction false} FirstSucceededIs(payments: seq<Payment>)
    ensures forall j :: 0 <= j < FirstSucceeded(payments) ==> payments[j].status != P.Succeeded
    ensures FirstSucceeded(payments) < |payments| ==> payments[FirstSucceeded(payments)].status == P.Succeeded
  {
    if payments != [] && payments[0].status != P.Succeeded {
      FirstSucceededIs(payments[1..]);
    }
  }

  lemma CapturedIs(order: Order, choice: Option<nat>, k: nat)
    requires k < |order.payments|
    requires choice.None? && order.payments[k].status == P.Succeeded ==>
               forall j :: 0 <= j < k ==> order.payments[j].status != P.Succeeded
    ensures choice.Some? ==> Captured(order, choice) == if choice.value < |order.payments| then choice else None
    ensures choice.None? && order.payments[k].status == P.Succeeded ==> Captured(order, choice) == Some(k)
    ensures choice.None? && (forall j :: 0 <= j < |order.payments| ==> order.payments[j].status != P.Succeeded) ==>
              Captured(order, choice) == Some(0)
  {
    FirstSucceededIs(order.payments);
  }

  /** Who may ask for a refund of the order, in which state of the order and of its settlement. */
  predicate Open(order: Order, req: Request) {
    && (req.isAdmin
        || (req.user == order.user
            && order.status in {O.Failed, O.Expired, O.Cancelled, O.RefundFailed, O.RefundPending}))
    && order.status in {O.AwaitingPayment, O.PaymentDetected, O.PaymentConfirmed, O.SettlementPending, O.Failed,
                        O.Cancelled, O.RefundPending, O.RefundFailed, O.Expired}
    && (order.settlement.Some? ==> order.settlement.value == S.Pending || order.settlement.value == S.Failed)
  }

  /** How much is left of a captured payment. */
  function Left(db: Db, order: OrderId, payment: nat): int
    requires order in db.orders && payment < |db.orders[order].payments|
  {
    db.orders[order].payments[payment].amount - LiveSum(db.refunds, order)
  }

  /** The request may be granted out of payment `k`. */
  predicate Grantable(db: Db, req: Request, k: nat) {
    && req.order in db.orders && k < |db.orders[req.order].payments|
    && Open(db.orders[req.order], req)
    && (forall i :: 0 <= i < |db.refunds| ==> db.refunds[i].key != req.key)
    && Left(db, req.order, k) > 0
    && (req.amount == None || req.amount == Some(0) || 0 < req.amount.value <= Left(db, req.order, k))
  }

  /**
   A refund is inserted exactly when somebody entitled asks under a new key for an order that has not been settled,
   whose settlement is absent, PENDING or FAILED, and the chosen payment has the amount left.
   */
  lemma GrantedIff(db: Db, req: Request)
    ensures |Exec(db, Create(req)).refunds| > |db.refunds| <==>
            && req.order in db.orders && Captured(db.orders[req.order], req.payment).Some?
            && Grantable(db, req, Captured(db.orders[req.order], req.payment).value)
  {
    var i := FindKey(db.refunds, req.key);
    if i < |db.refunds| {
      assert db.refunds[i].key == req.key;
    } else if req.order in db.orders && Captured(db.orders[req.order], req.payment).Some? {
      var order, k := db.orders[req.order], Captured(db.orders[req.order], req.payment).value;
      assert forall j :: 0 <= j < |db.refunds| ==> db.refunds[j].key != req.key;
      assert Created(db, req).Ok? ==> Open(order, req);
      assert Created(db, req).Ok? ==> Left(db, req.order, k) > 0;
      assert Grantable(db, req, k) ==> Created(db, req).Ok?;
    }
  }

  /** What is inserted, and what else changes. */
  lemma GrantedOutcome(db: Db, req: Request)
    requires |Exec(db, Create(req)).refunds| > |db.refunds|
    ensures req.order in db.orders && Captured(db.orders[req.order], req.payment).Some?
    ensures var k := Captured(db.orders[req.order], req.payment).value;
            var amount := if req.amount == None || req.amount == Some(0) then Left(db, req.order, k)
                          else req.amount.value;
            Exec(db, Create(req)) ==
            Db(db.orders[req.order := db.orders[req.order].(status := O.RefundPending)],
               db.refunds + [Refund(req.order, k, amount, R.Pending, req.key, db.orders[req.order].user, false, false)],
               db.calls)
  {
  }

  lemma RefusedUnchanged(db: Db, req: Request)
    requires |Exec(db, Create(req)).refunds| <= |db.refunds|
    ensures Exec(db, Create(req)) == db
  {
  }

  /** A key that is in use answers with its refund, to an administrator or to the refund's own user. */
  lemma DuplicateOutcome(db: Db, req: Request, i: nat)
    requires req.order in db.orders && Open(db.orders[req.order], req)
    requires Captured(db.orders[req.order], req.payment).Some?
    requires i < |db.refunds| && db.refunds[i].key == req.key
    requires forall j :: 0 <= j < i ==> db.refunds[j].key != req.key
    ensures Created(db, req) == if req.isAdmin || db.refunds[i].user == req.user then Ok((i, db))
                                else Err(KeyUsedByOther)
  {
    assert FindKey(db.refunds, req.key) == i;
  }

  /** Each error says what is wrong. */
  lemma RefusalMeans(db: Db, req: Request)
    requires Created(db, req).Err?
    ensures Created(db, req).error == OrderNotFound <==> req.order !in db.orders
    ensures req.order in db.orders ==>
              var order := db.orders[req.order];
              match Created(db, req).error
              case OrderNotFound => false
              case NotOwner => !req.isAdmin && order.user != req.user
              case StateNotAllowedForUser =>
                !req.isAdmin && order.status !in {O.Failed, O.Expired, O.Cancelled, O.RefundFailed, O.RefundPending}
              case AlreadySettled => order.status in {O.Completed, O.SettlementCompleted}
              case SettlementActive =>
                order.settlement in {Some(S.Submitting), Some(S.Submitted), Some(S.Confirming), Some(S.Completed),
                                     Some(S.RequiresReconciliation)}
              case NoEligiblePayment => Captured(order, req.payment) == None
              case KeyUsedByOther => exists i :: 0 <= i < |db.refunds| && db.refunds[i].key == req.key
                                                 && db.refunds[i].user != req.user
              case FullyRefunded =>
                var k := Captured(order, req.payment); k.Some? && Left(db, req.order, k.value) <= 0
              case NotPositive => req.amount.Some? && req.amount.value < 0
              case ExceedsRemaining =>
                var k := Captured(order, req.payment);
                k.Some? && req.amount.Some? && req.amount.value > Left(db, req.order, k.value)
              case InvalidOrderTransition => order.status in {O.Created, O.Refunded}
  {
    var i := FindKey(db.refunds, req.key);
    assert i < |db.refunds| ==> db.refunds[i].key == req.key;
  }

  /** createRefund inserts only where the settlement protocol lets it pass its check. */
  lemma GrantedIsChecked(db: Db, req: Request, pdb: SP.Db, x: nat)
    requires |Exec(db, Create(req)).refunds| > |db.refunds| && x !in pdb.creators
    requires req.order in db.orders && pdb.row.Some? == db.orders[req.order].settlement.Some?
    requires pdb.row.Some? ==> pdb.row.value.status == db.orders[req.order].settlement.value
    ensures SP.EventEnabled(pdb, SP.CheckRefund(x))
    ensures pdb.row.Some? ==> pdb.row.value.status == S.Pending || pdb.row.value.status == S.Failed
  {
    GrantedIff(db, req);
  }

  // ----- the cumulative bound

  /** Every payment captures the order's source amount, and refunds are positive amounts of known orders. */
  ghost predicate Wellformed(db: Db) {
    && (forall o, i :: o in db.orders && 0 <= i < |db.orders[o].payments| ==>
                         db.orders[o].payments[i].amount == db.orders[o].source)
    && (forall i :: 0 <= i < |db.refunds| ==> db.refunds[i].order in db.orders && db.refunds[i].amount > 0)
    && (forall x :: x in db.calls ==> db.calls[x].refund < |db.refunds|)
    && (forall x :: x in db.calls && db.calls[x].Reading? ==> !R.IsTerminal(db.calls[x].seen))
  }

  ghost predicate Bounded(db: Db) {
    forall o :: o in db.orders ==> LiveSum(db.refunds, o) <= db.orders[o].source
  }

  lemma CreateWellformed(db: Db, req: Request)
    requires Wellformed(db)
    ensures Wellformed(Exec(db, Create(req)))
  {
  }

  lemma FinishWellformed(db: Db, x: nat, outcome: R.Status)
    requires Wellformed(db) && Enabled(db, Finish(x, outcome))
    ensures Wellformed(Exec(db, Finish(x, outcome)))
  {
  }

  lemma WellformedStep(db: Db, op: Op)
    requires Wellformed(db) && Enabled(db, op)
    ensures Wellformed(Exec(db, op))
  {
    match op
    case Create(req) => CreateWellformed(db, req);
    case Finish(x, outcome) => FinishWellformed(db, x, outcome);
    case _ =>
  }

  lemma SumAppend(refunds: seq<Refund>, r: Refund, order: OrderId)
    ensures LiveSum(refunds + [r], order) == LiveSum(refunds, order) + Weight(r, order)
  {
    assert (refunds + [r])[..|refunds|] == refunds;
  }

  lemma {:induction false} SumUpdate(refunds: seq<Refund>, i: nat, r: Refund, order: OrderId)
    requires i < |refunds|
    ensures LiveSum(refunds[i := r], order) == LiveSum(refunds, order) - Weight(refunds[i], order) + Weight(r, order)
  {
    var n := |refunds| - 1;
    if i == n {
      assert refunds[i := r][..n] == refunds[..n];
    } else {
      assert refunds[i := r][..n] == refunds[..n][i := r];
      SumUpdate(refunds[..n], i, r, order);
    }
  }

  lemma {:induction false} NothingRefunded(refunds: seq<Refund>, order: OrderId)
    requires forall i :: 0 <= i < |refunds| ==> refunds[i].order != order
    ensures LiveSum(refunds, order) == 0
  {
    if refunds != [] {
      NothingRefunded(refunds[..|refunds| - 1], order);
    }
  }

  /** An outcome that revives a refund which had died meanwhile, with no room left for it. */
  predicate Overdraws(db: Db, op: Op)
    requires Enabled(db, op)
  {
    match op
    case Finish(x, outcome) =>
      var c := db.calls[x];
      var r := db.refunds[c.refund];
      && !R.Live(r.status) && outcome != R.Failed && !Throws(c.orderSeen, outcome)
      && r.order in db.orders && LiveSum(db.refunds, r.order) + r.amount > db.orders[r.order].source
    case _ => false
  }

  lemma FinishBounded(db: Db, x: nat, outcome: R.Status)
    requires Wellformed(db) && Bounded(db) && Enabled(db, Finish(x, outcome))
    ensures Bounded(Exec(db, Finish(x, outcome))) <==> !Overdraws(db, Finish(x, outcome))
  {
    var c := db.calls[x];
    if !Throws(c.orderSeen, outcome) {
      ReplaceBounded(db, Exec(db, Finish(x, outcome)), c.refund, Outcome(db.refunds[c.refund], outcome));
    }
  }

  /** Replacing a refund breaks the bound exactly when it adds more than was left. */
  lemma ReplaceBounded(db: Db, db': Db, i: nat, r: Refund)
    requires Bounded(db) && i < |db.refunds| && r.order == db.refunds[i].order && r.order in db.orders
    requires db'.refunds == db.refunds[i := r] && db'.orders.Keys == db.orders.Keys
    requires forall o :: o in db.orders ==> db'.orders[o].source == db.orders[o].source
    ensures Bounded(db') <==>
            LiveSum(db.refunds, r.order) - Weight(db.refunds[i], r.order) + Weight(r, r.order)
            <= db.orders[r.order].source
  {
    forall o | o in db.orders
      ensures LiveSum(db'.refunds, o) == LiveSum(db.refunds, o) - Weight(db.refunds[i], o) + Weight(r, o)
    {
      SumUpdate(db.refunds, i, r, o);
    }
    assert r.order in db'.orders;
  }

  /** Appending a refund that fits keeps the bound. */
  lemma AppendBounded(db: Db, db': Db, r: Refund)
    requires Bounded(db) && r.order in db.orders && db'.refunds == db.refunds + [r]
    requires LiveSum(db.refunds, r.order) + r.amount <= db.orders[r.order].source
    requires forall o :: o in db'.orders ==> o in db.orders && db'.orders[o].source == db.orders[o].source
    ensures Bounded(db')
  {
    forall o | o in db'.orders
      ensures LiveSum(db'.refunds, o) <= db'.orders[o].source
    {
      SumAppend(db.refunds, r, o);
    }
  }

  lemma CapturedIsSource(db: Db, order: OrderId, choice: Option<nat>)
    requires Wellformed(db) && order in db.orders && Captured(db.orders[order], choice).Some?
    ensures db.orders[order].payments[Captured(db.orders[order], choice).value].amount == db.orders[order].source
  {
  }

  lemma CreateBounded(db: Db, req: Request)
    requires Wellformed(db) && Bounded(db)
    ensures Bounded(Exec(db, Create(req)))
  {
    var db' := Exec(db, Create(req));
    if db' != db {
      var r := db'.refunds[|db.refunds|];
      assert db'.refunds == db.refunds + [r];
      CapturedIsSource(db, req.order, req.payment);
      AppendBounded(db, db', r);
    }
  }

  /** Rewriting a refund without changing whether it is live moves no sum. */
  lemma RemarkBounded(db: Db, db': Db, i: nat, r: Refund)
    requires Bounded(db) && i < |db.refunds| && db'.orders == db.orders
    requires db'.refunds == db.refunds || db'.refunds == db.refunds[i := r]
    requires r.order == db.refunds[i].order && r.amount == db.refunds[i].amount
    requires R.Live(r.status) <==> R.Live(db.refunds[i].status)
    ensures Bounded(db')
  {
    forall o | o in db.orders
      ensures LiveSum(db'.refunds, o) == LiveSum(db.refunds, o)
    {
      SumUpdate(db.refunds, i, r, o);
    }
  }

  /** From a state within the bound, an operation leaves it exactly when it overdraws. */
  lemma BoundedStep(db: Db, op: Op)
    requires Wellformed(db) && Bounded(db) && Enabled(db, op)
    ensures Bounded(Exec(db, op)) <==> !Overdraws(db, op)
  {
    match op
    case NewOrder(order, _, _) => NothingRefunded(db.refunds, order);
    case Create(req) => CreateBounded(db, req);
    case Look(x, refund) => RemarkBounded(db, Exec(db, op), refund, db.refunds[refund].(returned := true));
    case Begin(x) =>
      var i := db.calls[x].refund;
      RemarkBounded(db, Exec(db, op), i, if db.refunds[i].status == db.calls[x].seen
                                         then db.refunds[i].(status := R.Processing)
                                         else db.refunds[i].(returned := true));
    case Finish(x, outcome) => FinishBounded(db, x, outcome);
    case _ =>
  }

  predicate NeverOverdraws(db: Db, ops: seq<Op>)
    requires IsRun(db, ops)
    decreases |ops|
  {
    ops == [] || (!Overdraws(db, ops[0]) && NeverOverdraws(Exec(db, ops[0]), ops[1..]))
  }

  ghost predicate AlwaysBounded(db: Db, ops: seq<Op>)
    requires IsRun(db, ops)
    decreases |ops|
  {
    Bounded(db) && (ops == [] || AlwaysBounded(Exec(db, ops[0]), ops[1..]))
  }

  /** Every state of a run keeps the bound exactly when no operation of it overdraws, calls overlapping or not. */
  lemma {:induction false} BoundedIffNeverOverdraws(db: Db, ops: seq<Op>)
    requires Wellformed(db) && Bounded(db) && IsRun(db, ops)
    ensures AlwaysBounded(db, ops) <==> NeverOverdraws(db, ops)
    decreases |ops|
  {
    if ops != [] {
      WellformedStep(db, ops[0]);
      BoundedStep(db, ops[0]);
      if Bounded(Exec(db, ops[0])) {
        BoundedIffNeverOverdraws(Exec(db, ops[0]), ops[1..]);
      }
    }
  }

  // ----- calls that do not overlap

  /** No two calls of executeRefund are on the same refund at once. */
  predicate Separate(db: Db, op: Op) {
    op.Look? ==> forall x :: x in db.calls ==> db.calls[x].refund != op.refund
  }

  predicate SeparateRun(db: Db, ops: seq<Op>)
    requires IsRun(db, ops)
    decreases |ops|
  {
    ops == [] || (Separate(db, ops[0]) && SeparateRun(Exec(db, ops[0]), ops[1..]))
  }

  /** The refund of a call stands as the call has left it; a settled one is out of the provider's reach. */
  ghost predicate Orderly(db: Db) {
    && (forall x :: x in db.calls && db.calls[x].refund < |db.refunds| ==>
          var c := db.calls[x];
          var r := db.refunds[c.refund];
          r.status == (if c.Reading? then c.seen else R.Processing) && ReachesProvider(r) && !r.returned)
    && (forall x, y :: x in db.calls && y in db.calls && x != y ==> db.calls[x].refund != db.calls[y].refund)
    && (forall i :: 0 <= i < |db.refunds| && db.refunds[i].returned ==> !ReachesProvider(db.refunds[i]))
    && (forall i :: 0 <= i < |db.refunds| && db.refunds[i].ambiguous ==> db.refunds[i].returned)
  }

  lemma LookOrderly(db: Db, x: nat, refund: nat)
    requires Orderly(db) && Enabled(db, Look(x, refund)) && Separate(db, Look(x, refund))
    ensures Orderly(Exec(db, Look(x, refund)))
  {
    if ReachesProvider(db.refunds[refund]) {
      ReadOrderly(db, x, refund);
    } else {
      ReturnOrderly(db, refund);
    }
  }

  lemma ReadOrderly(db: Db, x: nat, refund: nat)
    requires Orderly(db) && x !in db.calls && refund < |db.refunds| && ReachesProvider(db.refunds[refund])
    requires forall y :: y in db.calls ==> db.calls[y].refund != refund
    ensures Orderly(db.(calls := db.calls[x := Reading(refund, db.refunds[refund].status)]))
  {
  }

  lemma ReturnOrderly(db: Db, refund: nat)
    requires Orderly(db) && refund < |db.refunds| && !ReachesProvider(db.refunds[refund])
    requires forall y :: y in db.calls ==> db.calls[y].refund != refund
    ensures Orderly(db.(refunds := db.refunds[refund := db.refunds[refund].(returned := true)]))
  {
  }

  lemma BeginOrderly(db: Db, x: nat)
    requires Orderly(db) && Enabled(db, Begin(x))
    ensures Orderly(Exec(db, Begin(x)))
  {
    var db' := Exec(db, Begin(x));
    forall y | y in db'.calls && y != x
      ensures y in db.calls && db'.calls[y] == db.calls[y] && db.calls[y].refund != db.calls[x].refund
    {
    }
  }

  lemma FinishOrderly(db: Db, x: nat, outcome: R.Status)
    requires Orderly(db) && Enabled(db, Finish(x, outcome))
    ensures Orderly(Exec(db, Finish(x, outcome)))
  {
    var db' := Exec(db, Finish(x, outcome));
    forall y | y in db'.calls
      ensures y in db.calls && db'.calls[y] == db.calls[y] && db.calls[y].refund != db.calls[x].refund
    {
    }
  }

  lemma AppendOrderly(db: Db, db': Db)
    requires Wellformed(db) && Orderly(db) && db'.calls == db.calls
    requires db'.refunds == db.refunds
          || (|db'.refunds| == |db.refunds| + 1 && db'.refunds[..|db.refunds|] == db.refunds
              && !db'.refunds[|db.refunds|].returned && !db'.refunds[|db.refunds|].ambiguous)
    ensures Orderly(db')
  {
    assert forall i :: 0 <= i < |db.refunds| ==> db'.refunds[i] == db.refunds[i];
  }

  lemma OrderlyStep(db: Db, op: Op)
    requires Wellformed(db) && Orderly(db) && Enabled(db, op) && Separate(db, op)
    ensures Orderly(Exec(db, op)) && !Overdraws(db, op)
  {
    match op
    case Look(x, refund) => LookOrderly(db, x, refund);
    case Begin(x) => BeginOrderly(db, x);
    case Finish(x, outcome) => FinishOrderly(db, x, outcome);
    case Abandon(x) =>
    case _ => AppendOrderly(db, Exec(db, op));
  }

  lemma {:induction false} SeparateRunBounded(db: Db, ops: seq<Op>)
    requires Wellformed(db) && Bounded(db) && Orderly(db) && IsRun(db, ops) && SeparateRun(db, ops)
    ensures Bounded(After(db, ops)) && Orderly(After(db, ops))
    decreases |ops|
  {
    if ops != [] {
      WellformedStep(db, ops[0]);
      OrderlyStep(db, ops[0]);
      BoundedStep(db, ops[0]);
      SeparateRunBounded(Exec(db, ops[0]), ops[1..]);
    }
  }

  /**
   Over every run in which calls on one refund do not overlap: the live refunds of an order never sum to more
   than its source amount, and a refund on which a call has returned normally is never sent to the provider
   again, the ambiguous outcome included.
   */
  lemma RefundsBoundedAndSettledOnce(ops: seq<Op>)
    requires IsRun(Empty, ops) && SeparateRun(Empty, ops)
    ensures var db := After(Empty, ops);
            && (forall o :: o in db.orders ==> LiveSum(db.refunds, o) <= db.orders[o].source)
            && (forall i :: 0 <= i < |db.refunds| && db.refunds[i].returned ==> !ReachesProvider(db.refunds[i]))
  {
    SeparateRunBounded(Empty, ops);
  }

  /** After the provider has answered, a further call asks it again exactly when the answer could not be stored. */
  lemma AskedAgainIffThrown(db: Db, x: nat, outcome: R.Status)
    requires Orderly(db) && Enabled(db, Finish(x, outcome))
    ensures ReachesProvider(Exec(db, Finish(x, outcome)).refunds[db.calls[x].refund])
       <==> Throws(db.calls[x].orderSeen, outcome)
  {
    var r := db.refunds[db.calls[x].refund];
    assert r.status == R.Processing && ReachesProvider(r);
  }

  // ----- settled once, overlapping or not

  /** A refund on which a call has returned normally is out of the provider's reach. */
  predicate Settled(db: Db) {
    forall i :: 0 <= i < |db.refunds| && db.refunds[i].returned ==> !ReachesProvider(db.refunds[i])
  }

  /** What is out of reach, or marked ambiguous, got there by a call that returned. */
  predicate Recorded(db: Db) {
    forall i :: 0 <= i < |db.refunds| && (db.refunds[i].ambiguous || !ReachesProvider(db.refunds[i])) ==>
                  db.refunds[i].returned
  }

  /** The provider is asked about a refund on which a call has returned. */
  predicate AsksAgain(db: Db, op: Op)
    requires Enabled(db, op)
  {
    match op
    case Begin(x) =>
      var c := db.calls[x];
      db.refunds[c.refund].status == c.seen && db.refunds[c.refund].returned
    case _ => false
  }

  /** The guarded update matches a PROCESSING refund that has been marked ambiguous since it was read. */
  predicate PassesMark(db: Db, op: Op)
    requires Enabled(db, op)
  {
    match op
    case Begin(x) =>
      var c := db.calls[x];
      var r := db.refunds[c.refund];
      c.seen == R.Processing && r.status == R.Processing && r.ambiguous
    case _ => false
  }

  /** The guarded update matches nothing, and the call returns a refund that can still be sent to the provider. */
  predicate ReturnsOpen(db: Db, op: Op)
    requires Enabled(db, op)
  {
    match op
    case Begin(x) =>
      var c := db.calls[x];
      var r := db.refunds[c.refund];
      r.status != c.seen && ReachesProvider(r)
    case _ => false
  }

  lemma RecordedStep(db: Db, op: Op)
    requires Wellformed(db) && Recorded(db) && Enabled(db, op)
    ensures Recorded(Exec(db, op))
  {
    var db' := Exec(db, op);
    if op.Create? && |db'.refunds| > |db.refunds| {
      assert forall i :: 0 <= i < |db.refunds| ==> db'.refunds[i] == db.refunds[i];
    }
  }

  lemma AsksAgainIff(db: Db, op: Op)
    requires Wellformed(db) && Recorded(db) && Settled(db) && Enabled(db, op)
    ensures AsksAgain(db, op) <==> PassesMark(db, op)
  {
    if op.Begin? {
      assert db.calls[op.x].Reading?;
    }
  }

  lemma SettledStep(db: Db, op: Op)
    requires Wellformed(db) && Settled(db) && Enabled(db, op)
    ensures Settled(Exec(db, op)) <==> !ReturnsOpen(db, op)
  {
    var db' := Exec(db, op);
    if op.Create? && |db'.refunds| > |db.refunds| {
      assert forall i :: 0 <= i < |db.refunds| ==> db'.refunds[i] == db.refunds[i];
    } else if op.Begin? && ReturnsOpen(db, op) {
      assert db'.refunds[db.calls[op.x].refund].returned;
    }
  }

  predicate SettledOnce(db: Db, ops: seq<Op>)
    requires IsRun(db, ops)
    decreases |ops|
  {
    && Settled(db)
    && (ops == [] || (!AsksAgain(db, ops[0]) && SettledOnce(Exec(db, ops[0]), ops[1..])))
  }

  predicate NeverUnsettles(db: Db, ops: seq<Op>)
    requires IsRun(db, ops)
    decreases |ops|
  {
    ops == []
    || (!PassesMark(db, ops[0]) && !ReturnsOpen(db, ops[0]) && NeverUnsettles(Exec(db, ops[0]), ops[1..]))
  }

  /**
   Along a run no refund on which a call has returned is within the provider's reach or sent to it, exactly when no
   guarded update matches a PROCESSING refund marked ambiguous since it was read, and none misses a refund that is
   still open. Nothing is assumed about overlap.
   */
  lemma {:induction false} SettledOnceIffNeverUnsettles(db: Db, ops: seq<Op>)
    requires Wellformed(db) && Recorded(db) && Settled(db) && IsRun(db, ops)
    ensures SettledOnce(db, ops) <==> NeverUnsettles(db, ops)
    decreases |ops|
  {
    if ops != [] {
      WellformedStep(db, ops[0]);
      RecordedStep(db, ops[0]);
      AsksAgainIff(db, ops[0]);
      SettledStep(db, ops[0]);
      if Settled(Exec(db, ops[0])) {
        SettledOnceIffNeverUnsettles(Exec(db, ops[0]), ops[1..]);
      }
    }
  }

  // ----- overlapping calls

  predicate Hop(db: Db, op: Op, db': Db) {
    Enabled(db, op) && Exec(db, op) == db'
  }

  lemma {:induction false} Glue(dbs: seq<Db>, ops: seq<Op>)
    requires |dbs| == |ops| + 1 && forall i :: 0 <= i < |ops| ==> Hop(dbs[i], ops[i], dbs[i + 1])
    ensures IsRun(dbs[0], ops) && After(dbs[0], ops) == dbs[|ops|]
    decreases |ops|
  {
    if ops != [] {
      assert Hop(dbs[0], ops[0], dbs[1]);
      forall i | 0 <= i < |ops[1..]|
        ensures Hop(dbs[1..][i], ops[1..][i], dbs[1..][i + 1])
      {
        assert Hop(dbs[i + 1], ops[i + 1], dbs[i + 2]);
      }
      Glue(dbs[1..], ops[1..]);
    }
  }

  function Ask(key: nat): Request {
    Request(0, 0, true, None, None, key)
  }

  function At(payment: P.Status, source: int, status: O.Status, refunds: seq<Refund>, calls: map<nat, Call>): Db {
    Db(map[0 := Order(0, status, source, [Payment(source, payment)], None, None)], refunds, calls)
  }

  function Whole(source: int, status: R.Status, key: nat, returned: bool): Refund {
    Refund(0, 0, source, status, key, 0, false, returned)
  }

  function Opened(source: int): Db {
    Db(map[0 := Order(0, O.Created, source, [], None, None)], [], map[])
  }

  lemma OpenHops(source: int)
    requires source > 0
    ensures Hop(Empty, NewOrder(0, 0, source), Opened(source))
    ensures Hop(Opened(source), NewPayment(0), At(P.Created, source, O.AwaitingPayment, [], map[]))
  {
    assert [] + [Payment(source, P.Created)] == [Payment(source, P.Created)];
    assert Exec(Opened(source), NewPayment(0)).orders == At(P.Created, source, O.AwaitingPayment, [], map[]).orders;
  }

  lemma OnlyPayment(order: Order)
    requires |order.payments| == 1
    ensures Captured(order, None) == Some(0)
  {
    assert FirstSucceeded(order.payments[1..]) == 0;
  }

  /** What an administrator's request for all that is left does. */
  lemma AskCreates(db: Db, key: nat, order: Order)
    requires 0 in db.orders && db.orders[0] == order && Captured(order, None) == Some(0)
    requires order.status == O.AwaitingPayment || order.status == O.RefundFailed
    requires order.settlement.None? && LiveSum(db.refunds, 0) == 0 && order.payments[0].amount > 0
    requires FindKey(db.refunds, key) == |db.refunds|
    ensures Created(db, Ask(key)) ==
            Ok((|db.refunds|,
                Db(db.orders[0 := order.(status := O.RefundPending)],
                   db.refunds + [Refund(0, 0, order.payments[0].amount, R.Pending, key, order.user, false, false)],
                   db.calls)))
  {
  }

  lemma {:induction false} AskHop(source: int, status: O.Status, refunds: seq<Refund>, calls: map<nat, Call>, key: nat)
    requires source > 0 && (status == O.AwaitingPayment || status == O.RefundFailed)
    requires LiveSum(refunds, 0) == 0 && forall i :: 0 <= i < |refunds| ==> refunds[i].key != key
    ensures Hop(At(P.Created, source, status, refunds, calls), Create(Ask(key)),
                At(P.Created, source, O.RefundPending, refunds + [Whole(source, R.Pending, key, false)], calls))
  {
    var db := At(P.Created, source, status, refunds, calls);
    OnlyPayment(db.orders[0]);
    AskCreates(db, key, db.orders[0]);
    assert db.orders[0 := db.orders[0].(status := O.RefundPending)]
        == At(P.Created, source, O.RefundPending, [], map[]).orders;
  }

  /** The state of one pending or processing refund over the whole amount. */
  function One(source: int, status: R.Status, calls: map<nat, Call>): Db {
    At(P.Created, source, O.RefundPending, [Whole(source, status, 0, false)], calls)
  }

  lemma LookHop(source: int, status: R.Status, calls: map<nat, Call>, x: nat)
    requires (status == R.Pending || status == R.Processing) && x !in calls
    ensures Hop(One(source, status, calls), Look(x, 0), One(source, status, calls[x := Reading(0, status)]))
  {
  }

  lemma BeginHop(source: int, status: R.Status, calls: map<nat, Call>, x: nat)
    requires x in calls && calls[x] == Reading(0, status)
    ensures Hop(One(source, status, calls), Begin(x),
                One(source, R.Processing, calls[x := Asking(0, O.RefundPending)]))
  {
  }

  lemma FinishHop(source: int, status: O.Status, r: Refund, rest: seq<Refund>,
                                     calls: map<nat, Call>, x: nat, outcome: R.Status)
    requires x in calls && calls[x] == Asking(0, O.RefundPending) && r.order == 0 && r.payment == 0
    requires outcome == R.Succeeded || outcome == R.Failed
    ensures Hop(At(P.Created, source, status, [r] + rest, calls), Finish(x, outcome),
                At(if outcome == R.Failed then P.Created else P.Refunded, source,
                   if outcome == R.Failed then O.RefundFailed else O.Refunded, [Outcome(r, outcome)] + rest,
                   calls - {x}))
  {
    var db := At(P.Created, source, status, [r] + rest, calls);
    var db' := Exec(db, Finish(x, outcome));
    assert [Payment(source, P.Created)][0 := Payment(source, P.Refunded)] == [Payment(source, P.Refunded)];
    assert db'.orders == At(if outcome == R.Failed then P.Created else P.Refunded, source,
                            if outcome == R.Failed then O.RefundFailed else O.Refunded, [], map[]).orders;
    assert db'.refunds == [Outcome(r, outcome)] + rest;
  }

  /** The first call asks the provider. */
  const First: map<nat, Call> := map[1 := Asking(0, O.RefundPending)]

  /** Two calls on one refund ask it. */
  const Two: map<nat, Call> := map[1 := Asking(0, O.RefundPending), 2 := Asking(0, O.RefundPending)]

  /** Only the second is left. */
  const Second: map<nat, Call> := map[2 := Asking(0, O.RefundPending)]

  lemma OneCall(source: int)
    requires source > 0
    ensures var ops := [NewOrder(0, 0, source), NewPayment(0), Create(Ask(0)), Look(1, 0), Begin(1)];
            IsRun(Empty, ops) && After(Empty, ops) == One(source, R.Processing, First)
  {
    var read := map[1 := Reading(0, R.Pending)];
    OpenHops(source);
    AskHop(source, O.AwaitingPayment, [], map[], 0);
    LookHop(source, R.Pending, map[], 1);
    BeginHop(source, R.Pending, read, 1);
    assert [] + [Whole(source, R.Pending, 0, false)] == [Whole(source, R.Pending, 0, false)];
    assert map[][1 := Reading(0, R.Pending)] == read && read[1 := Asking(0, O.RefundPending)] == First;
    Glue([Empty, Opened(source), At(P.Created, source, O.AwaitingPayment, [], map[]),
          One(source, R.Pending, map[]), One(source, R.Pending, read), One(source, R.Processing, First)],
         [NewOrder(0, 0, source), NewPayment(0), Create(Ask(0)), Look(1, 0), Begin(1)]);
  }

  lemma AnotherCall(source: int)
    ensures var ops := [Look(2, 0), Begin(2)];
            IsRun(One(source, R.Processing, First), ops)
            && After(One(source, R.Processing, First), ops) == One(source, R.Processing, Two)
  {
    var read := First[2 := Reading(0, R.Processing)];
    LookHop(source, R.Processing, First, 2);
    BeginHop(source, R.Processing, read, 2);
    assert read[2 := Asking(0, O.RefundPending)] == Two;
    Glue([One(source, R.Processing, First), One(source, R.Processing, read), One(source, R.Processing, Two)],
         [Look(2, 0), Begin(2)]);
  }

  lemma LiveSums(failed: Refund, done: Refund, other: Refund)
    requires failed.status == R.Failed && done.status == R.Succeeded && other.status == R.Pending
    requires done.order == other.order == 0
    ensures LiveSum([failed], 0) == 0 && LiveSum([done] + [other], 0) == done.amount + other.amount
  {
    SumAppend([], failed, 0);
    SumAppend([], done, 0);
    SumAppend([done], other, 0);
    assert [] + [failed] == [failed] && [] + [done] == [done];
  }

  lemma FailHop(source: int)
    ensures Hop(One(source, R.Processing, Two), Finish(1, R.Failed),
                At(P.Created, source, O.RefundFailed, [Whole(source, R.Failed, 0, true)], Second))
  {
    var r := Whole(source, R.Processing, 0, false);
    FinishHop(source, O.RefundPending, r, [], Two, 1, R.Failed);
    assert [r] + [] == [r] && [Outcome(r, R.Failed)] + [] == [Whole(source, R.Failed, 0, true)];
    assert Two - {1} == Second;
  }

  lemma SecondHalf(source: int)
    requires source > 0
    ensures var ops := [Finish(1, R.Failed), Create(Ask(1)), Finish(2, R.Succeeded)];
            IsRun(One(source, R.Processing, Two), ops)
            && LiveSum(After(One(source, R.Processing, Two), ops).refunds, 0) == 2 * source
  {
    var failed, done := Whole(source, R.Failed, 0, true), Whole(source, R.Succeeded, 0, true);
    var other := Whole(source, R.Pending, 1, false);
    LiveSums(failed, done, other);
    FailHop(source);
    AskHop(source, O.RefundFailed, [failed], Second, 1);
    FinishHop(source, O.RefundPending, failed, [other], Second, 2, R.Succeeded);
    Glue([One(source, R.Processing, Two), At(P.Created, source, O.RefundFailed, [failed], Second),
          At(P.Created, source, O.RefundPending, [failed] + [other], Second),
          At(P.Refunded, source, O.Refunded, [done] + [other], Second - {2})],
         [Finish(1, R.Failed), Create(Ask(1)), Finish(2, R.Succeeded)]);
  }

  lemma {:induction false} Concat(db: Db, ops: seq<Op>, ops': seq<Op>)
    requires IsRun(db, ops) && IsRun(After(db, ops), ops')
    ensures IsRun(db, ops + ops') && After(db, ops + ops') == After(After(db, ops), ops')
    decreases |ops|
  {
    if ops == [] {
      assert ops + ops' == ops';
    } else {
      assert (ops + ops')[1..] == ops[1..] + ops';
      Concat(Exec(db, ops[0]), ops[1..], ops');
    }
  }

  /**
   Overlap breaks the bound for every amount: of two calls on one refund the first ends FAILED, a new refund
   takes the whole amount, then the other call ends SUCCEEDED.
   */
  lemma OverlapOverdraws(source: int) returns (ops: seq<Op>)
    requires source > 0
    ensures IsRun(Empty, ops) && LiveSum(After(Empty, ops).refunds, 0) == 2 * source
  {
    var first := [NewOrder(0, 0, source), NewPayment(0), Create(Ask(0)), Look(1, 0), Begin(1)];
    var second, third := [Look(2, 0), Begin(2)], [Finish(1, R.Failed), Create(Ask(1)), Finish(2, R.Succeeded)];
    OneCall(source);
    AnotherCall(source);
    Concat(Empty, first, second);
    SecondHalf(source);
    Concat(Empty, first + second, third);
    ops := first + second + third;
  }

  /**
   A call that read before the ambiguous mark and updates after it passes its guard, since PROCESSING is still
   PROCESSING: the provider is asked again although the first call has returned.
   */
  lemma OverlapAsksAgain(source: int) returns (ops: seq<Op>)
    requires source > 0
    ensures IsRun(Empty, ops)
    ensures var db := After(Empty, ops);
            && |db.refunds| == 1 && db.refunds[0].ambiguous && db.refunds[0].returned
            && 2 in db.calls && db.calls[2].Asking? && db.calls[2].refund == 0
  {
    var first := [NewOrder(0, 0, source), NewPayment(0), Create(Ask(0)), Look(1, 0), Begin(1)];
    var read := First[2 := Reading(0, R.Processing)];
    var s0, s1 := One(source, R.Processing, First), One(source, R.Processing, read);
    OneCall(source);
    LookHop(source, R.Processing, First, 2);
    var s2 := Exec(s1, Finish(1, R.Processing));
    var s3 := Exec(s2, Begin(2));
    Glue([s0, s1, s2, s3], [Look(2, 0), Finish(1, R.Processing), Begin(2)]);
    Concat(Empty, first, [Look(2, 0), Finish(1, R.Processing), Begin(2)]);
    ops := first + [Look(2, 0), Finish(1, R.Processing), Begin(2)];
  }

  /** Two calls have read the pending refund; the first one's update matches, the second one's does not. */
  lemma MissHop(source: int)
    ensures var both := map[1 := Asking(0, O.RefundPending), 2 := Reading(0, R.Pending)];
            Hop(One(source, R.Processing, both), Begin(2),
                At(P.Created, source, O.RefundPending, [Whole(source, R.Processing, 0, true)], First))
  {
    var both := map[1 := Asking(0, O.RefundPending), 2 := Reading(0, R.Pending)];
    assert both - {2} == First;
    assert [Whole(source, R.Processing, 0, false)][0 := Whole(source, R.Processing, 0, true)]
        == [Whole(source, R.Processing, 0, true)];
  }

  lemma TwoReads(source: int)
    requires source > 0
    ensures var ops := [NewOrder(0, 0, source), NewPayment(0), Create(Ask(0)), Look(1, 0), Look(2, 0), Begin(1),
                        Begin(2)];
            IsRun(Empty, ops)
            && After(Empty, ops)
               == At(P.Created, source, O.RefundPending, [Whole(source, R.Processing, 0, true)], First)
  {
    var one, two := map[1 := Reading(0, R.Pending)], map[1 := Reading(0, R.Pending), 2 := Reading(0, R.Pending)];
    var both := map[1 := Asking(0, O.RefundPending), 2 := Reading(0, R.Pending)];
    OpenHops(source);
    AskHop(source, O.AwaitingPayment, [], map[], 0);
    LookHop(source, R.Pending, map[], 1);
    LookHop(source, R.Pending, one, 2);
    BeginHop(source, R.Pending, two, 1);
    MissHop(source);
    assert [] + [Whole(source, R.Pending, 0, false)] == [Whole(source, R.Pending, 0, false)];
    assert map[][1 := Reading(0, R.Pending)] == one && one[2 := Reading(0, R.Pending)] == two;
    assert two[1 := Asking(0, O.RefundPending)] == both;
    Glue([Empty, Opened(source), At(P.Created, source, O.AwaitingPayment, [], map[]),
          One(source, R.Pending, map[]), One(source, R.Pending, one), One(source, R.Pending, two),
          One(source, R.Processing, both),
          At(P.Created, source, O.RefundPending, [Whole(source, R.Processing, 0, true)], First)],
         [NewOrder(0, 0, source), NewPayment(0), Create(Ask(0)), Look(1, 0), Look(2, 0), Begin(1), Begin(2)]);
  }

  /**
   No ambiguous mark is needed: of two calls that read PENDING the second misses its guard and returns normally, the
   first dies, and a third call asks the provider about the refund that has been returned.
   */
  lemma MissedGuardAsksAgain(source: int) returns (ops: seq<Op>)
    requires source > 0
    ensures IsRun(Empty, ops)
    ensures var db := After(Empty, ops);
            && |db.refunds| == 1 && !db.refunds[0].ambiguous && db.refunds[0].returned
            && 3 in db.calls && db.calls[3].Asking? && db.calls[3].refund == 0
  {
    var first := [NewOrder(0, 0, source), NewPayment(0), Create(Ask(0)), Look(1, 0), Look(2, 0), Begin(1), Begin(2)];
    var rest := [Abandon(1), Look(3, 0), Begin(3)];
    var s0 := At(P.Created, source, O.RefundPending, [Whole(source, R.Processing, 0, true)], First);
    TwoReads(source);
    var s1 := Exec(s0, Abandon(1));
    var s2 := Exec(s1, Look(3, 0));
    var s3 := Exec(s2, Begin(3));
    Glue([s0, s1, s2, s3], rest);
    Concat(Empty, first, rest);
    ops := first + rest;
  }

  // ----- the service, one call at a time

  class Service {
    var db: Db

    constructor ()
      ensures db == Empty
    {
      db := Empty;
    }

    /** The reduce over the order's refunds. */
    method TotalAlreadyRefunded(order: OrderId) returns (total: int)
      ensures total == LiveSum(db.refunds, order)
    {
      total := 0;
      for i := 0 to |db.refunds|
        invariant total == LiveSum(db.refunds[..i], order)
      {
        assert db.refunds[..i + 1] == db.refunds[..i] + [db.refunds[i]];
        SumAppend(db.refunds[..i], db.refunds[i], order);
        if db.refunds[i].order == order && R.Live(db.refunds[i].status) {
          total := total + db.refunds[i].amount;
        }
      }
      assert db.refunds[..|db.refunds|] == db.refunds;
    }

    method CreateRefund(req: Request) returns (r: Result<nat, Error>)
      modifies this
      ensures db == Exec(old(db), Create(req))
      ensures match Created(old(db), req) {
                case Ok(pair) => r == Ok(pair.0)
                case Err(e) => r == Err(e)
              }
    {
      if req.order !in db.orders {
        return Err(OrderNotFound);
      }
      var order := db.orders[req.order];
      if !req.isAdmin && order.user != req.user {
        return Err(NotOwner);
      }
      if !req.isAdmin && !AllowedForUser(order.status) {
        return Err(StateNotAllowedForUser);
      }
      if order.status == O.Completed || order.status == O.SettlementCompleted {
        return Err(AlreadySettled);
      }
      if order.settlement.Some? && S.BlocksRefund(order.settlement.value) {
        return Err(SettlementActive);
      }
      var payment := Captured(order, req.payment);
      if payment.None? {
        return Err(NoEligiblePayment);
      }
      var existing := FindKey(db.refunds, req.key);
      if existing < |db.refunds| {
        if !req.isAdmin && db.refunds[existing].user != req.user {
          return Err(KeyUsedByOther);
        }
        return Ok(existing);
      }
      var total := TotalAlreadyRefunded(req.order);
      var captured := order.payments[payment.value].amount;
      var remaining := captured - total;
      if remaining <= 0 {
        return Err(FullyRefunded);
      }
      var amount := remaining;
      if req.amount.Some? && req.amount.value != 0 {
        amount := req.amount.value;
      }
      if amount <= 0 {
        return Err(NotPositive);
      }
      if total + amount > captured {
        return Err(ExceedsRemaining);
      }
      if !O.CanTransition(order.status, O.RefundPending) {
        return Err(InvalidOrderTransition);
      }
      r := Ok(|db.refunds|);
      db := db.(orders := db.orders[req.order := order.(status := O.RefundPending)],
      refunds := db.refunds + [Refund(req.order, payment.value, amount, R.Pending, req.key, order.user, false, false)]);
    }

    /**
     A whole call of executeRefund that nothing overlaps; `answer` is what the provider says if asked, None if that
     call throws; `lost` and
     `lostLater` whether the handle of the refund lock is lost at the first and at the second check. `asked` reports
     whether the provider was asked, `returned` whether the call ended normally.
     */
    method ExecuteRefund(refund: nat, answer: Option<R.Status>, lost: bool, lostLater: bool)
      returns (asked: bool, returned: bool)
      requires db.calls == map[] && (refund < |db.refunds| ==> db.refunds[refund].order in db.orders)
      modifies this
      ensures db.calls == map[]
      ensures asked <==> refund < |old(db.refunds)| && ReachesProvider(old(db.refunds)[refund]) && !lost && !lostLater
      ensures returned <==> refund < |old(db.refunds)| &&
                            (ReachesProvider(old(db.refunds)[refund]) ==>
                               asked && answer.Some?
                               && !Throws(old(db.orders)[old(db.refunds)[refund].order].status, answer.value))
      ensures db == Executed(old(db), refund, answer, lost, lostLater)
      ensures returned && Wellformed(old(db)) && Orderly(old(db)) ==> !ReachesProvider(db.refunds[refund])
    {
      ghost var before := db;
      if refund >= |db.refunds| {
        return false, false;
      }
      var r := db.refunds[refund];
      if R.IsTerminal(r.status) || (r.status == R.Processing && r.ambiguous) {
        db := db.(refunds := db.refunds[refund := r.(returned := true)]);
        return false, true;
      }
      if lost {
        return false, false;
      }
      r := r.(status := R.Processing);
      db := db.(refunds := db.refunds[refund := r]);
      if lostLater {
        return false, false;
      }
      var seen := db.orders[r.order].status;
      asked := true;
      if answer.None? || (answer.value == R.Succeeded && !O.CanTransition(seen, O.Refunded))
         || (answer.value == R.Failed && !O.CanTransition(seen, O.RefundFailed)) {
        returned := false;
      } else {
        db := db.(orders := db.orders[r.order := Moved(db.orders[r.order], r.payment, answer.value)],
                  refunds := db.refunds[refund := Outcome(r, answer.value)]);
        returned := true;
      }
    }
  }

  /** The rows after a call that nothing overlaps. */
  function Executed(db: Db, refund: nat, answer: Option<R.Status>, lost: bool, lostLater: bool): Db {
    if refund >= |db.refunds| then db
    else
      var r := db.refunds[refund];
      if !ReachesProvider(r) then db.(refunds := db.refunds[refund := r.(returned := true)])
      else if lost then db
      else
        var begun := db.(refunds := db.refunds[refund := r.(status := R.Processing)]);
        if lostLater || answer.None? || r.order !in db.orders || Throws(db.orders[r.order].status, answer.value)
        then begun
        else
          begun.(orders := db.orders[r.order := Moved(db.orders[r.order], r.payment, answer.value)],
                 refunds := begun.refunds[refund := Outcome(begun.refunds[refund], answer.value)])
  }

  /**
   What a call that asked the provider leaves. A stored success refunds order and payment and gives an active
   reservation back; a stored failure fails the refund of the order; neither it nor an ambiguous answer touches
   payments or reservation; and where the answer could not be stored, only the refund is PROCESSING.
   */
  lemma ExecutedOutcome(db: Db, refund: nat, answer: Option<R.Status>)
    requires refund < |db.refunds| && ReachesProvider(db.refunds[refund]) && db.refunds[refund].order in db.orders
    ensures var r, db' := db.refunds[refund], Executed(db, refund, answer, false, false);
            var order := db.orders[r.order];
            && r.order in db'.orders && |db'.refunds| == |db.refunds| && db'.calls == db.calls
            && (forall o :: o in db.orders && o != r.order ==> o in db'.orders && db'.orders[o] == db.orders[o])
            && (forall i :: 0 <= i < |db.refunds| && i != refund ==> db'.refunds[i] == db.refunds[i])
            && var order', r' := db'.orders[r.order], db'.refunds[refund];
               && (r'.order, r'.payment, r'.amount, r'.key, r'.user) == (r.order, r.payment, r.amount, r.key, r.user)
               && order'.user == order.user && order'.source == order.source && order'.settlement == order.settlement
               && if answer == None || Throws(order.status, answer.value) then
                    order' == order && r'.status == R.Processing && r'.returned == r.returned
                  else if answer == Some(R.Succeeded) then
                    && r'.status == R.Succeeded && order'.status == O.Refunded && r'.returned
                    && |order'.payments| == |order.payments|
                    && (forall i :: 0 <= i < |order.payments| ==>
                          && order'.payments[i].amount == order.payments[i].amount
                          && order'.payments[i].status
                             == if i == r.payment then P.Refunded else order.payments[i].status)
                    && order'.reservation == if order.reservation in {Some(V.Reserved), Some(V.Confirmed)}
                                             then Some(V.CancelledReleased) else order.reservation
                  else
                    && order'.payments == order.payments && order'.reservation == order.reservation && r'.returned
                    && if answer == Some(R.Failed)
                       then r'.status == R.Failed && order'.status == O.RefundFailed
                       else r'.status == R.Processing && r'.ambiguous && order'.status == order.status
  {
  }

  /** A success is stored for every order but one that was created just now, settled, or refused by the table. */
  lemma ThrowsIff(seen: O.Status, outcome: R.Status)
    ensures Throws(seen, R.Succeeded) <==> seen in {O.Created, O.SettlementCompleted, O.Completed}
    ensures Throws(seen, R.Failed) <==> seen !in {O.RefundPending, O.RefundFailed}
    ensures outcome != R.Succeeded && outcome != R.Failed ==> !Throws(seen, outcome)
  {
  }

  /** That is what the steps of a call come to when they follow each other. */
  lemma ExecutedIsRun(db: Db, refund: nat, answer: Option<R.Status>, lost: bool, lostLater: bool)
    requires db.calls == map[] && refund < |db.refunds| && db.refunds[refund].order in db.orders
    ensures var looked := Exec(db, Look(0, refund));
            if !ReachesProvider(db.refunds[refund]) then Executed(db, refund, answer, lost, lostLater) == looked
            else if lost then Executed(db, refund, answer, lost, lostLater) == Exec(looked, Abandon(0))
            else if lostLater || answer.None? then
              Executed(db, refund, answer, lost, lostLater) == Exec(Exec(looked, Begin(0)), Abandon(0))
            else
              Executed(db, refund, answer, lost, lostLater) == Exec(Exec(looked, Begin(0)), Finish(0, answer.value))
  {
    var looked := Exec(db, Look(0, refund));
    if ReachesProvider(db.refunds[refund]) {
      assert looked.calls - {0} == map[];
      assert Exec(looked, Begin(0)).calls - {0} == map[];
    }
  }
}
