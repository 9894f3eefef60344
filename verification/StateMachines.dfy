/** src/modules/settlements/settlements.state-machine.ts */
module SettlementStates {
  datatype Status = Pending | Submitting | Submitted | Confirming | Completed | Failed | RequiresReconciliation

  function Allowed(from: Status): set<Status> {
    match from
    case Pending => {Submitting, Failed}
    case Submitting => {Submitted, Pending, Failed, RequiresReconciliation}
    case Submitted => {Confirming, Completed, Failed, RequiresReconciliation}
    case Confirming => {Completed, Failed, RequiresReconciliation}
    case Completed => {}
    case Failed => {}
    case RequiresReconciliation => {Confirming, Completed, Failed, Pending}
  }

  predicate CanTransition(from: Status, to: Status) {
    from == to || to in Allowed(from)
  }

  /** Where a settlement can come from when it changes: COMPLETED and FAILED are final. */
  lemma ReachedFrom(from: Status, to: Status)
    requires from != to
    ensures CanTransition(from, to) <==>
            match to
            case Pending => from == Submitting || from == RequiresReconciliation
            case Submitting => from == Pending
            case Submitted => from == Submitting
            case Confirming => from == Submitted || from == RequiresReconciliation
            case Completed => from == Submitted || from == Confirming || from == RequiresReconciliation
            case Failed => from != Completed
            case RequiresReconciliation => from == Submitting || from == Submitted || from == Confirming
  {
  }

  /** No transaction of the settlement is known to the database yet. */
  predicate Early(s: Status) {
    s == Pending || s == Submitting
  }

  /** The statuses in which `createRefund` finds an active or completed settlement. */
  predicate BlocksRefund(s: Status) {
    s != Pending && s != Failed
  }
}

/** src/modules/refunds/refund.state-machine.ts */
module RefundStates {
  datatype Status = Pending | Processing | Succeeded | Failed | Cancelled

  function Allowed(from: Status): set<Status> {
    match from
    case Pending => {Pending, Processing, Cancelled}
    case Processing => {Processing, Succeeded, Failed}
    case Succeeded => {Succeeded}
    case Failed => {Failed}
    case Cancelled => {Cancelled}
  }

  predicate CanTransition(from: Status, to: Status) {
    from == to || to in Allowed(from)
  }

  /** Where a refund can come from when it changes: SUCCEEDED, FAILED and CANCELLED are final. */
  lemma ReachedFrom(from: Status, to: Status)
    requires from != to
    ensures CanTransition(from, to) <==>
            match to
            case Pending => false
            case Processing => from == Pending
            case Succeeded => from == Processing
            case Failed => from == Processing
            case Cancelled => from == Pending
  {
  }

  predicate IsTerminal(s: Status) {
    s == Succeeded || s == Failed || s == Cancelled
  }

  /** A refund that counts against the captured amount and blocks a payout. */
  predicate Live(s: Status) {
    s == Pending || s == Processing || s == Succeeded
  }
}

/** LiquidityReservationStatus of prisma/schema.prisma */
module ReservationStates {
  datatype Status = Reserved | Confirmed | Consumed | ExpiredReleased | CancelledReleased

  /** The pool still holds the reserved amount back. */
  predicate Active(s: Status) {
    s == Reserved || s == Confirmed
  }
}

/** src/modules/orders/orders.state-machine.ts */
module OrderStates {
  datatype Status =
    | Created
    | AwaitingPayment
    | PaymentDetected
    | PaymentConfirmed
    | SettlementPending
    | SettlementCompleted
    | Completed
    | Failed
    | Cancelled
    | RefundPending
    | Refunded
    | RefundFailed
    | Expired

  function Allowed(from: Status): set<Status> {
    match from
    case Created => {Created, AwaitingPayment, Cancelled, Expired}
    case AwaitingPayment =>
      {AwaitingPayment, PaymentDetected, PaymentConfirmed, SettlementPending, Failed, Cancelled, Expired,
       RefundPending, Refunded}
    case PaymentDetected =>
      {PaymentDetected, PaymentConfirmed, SettlementPending, Failed, Cancelled, RefundPending, Refunded}
    case PaymentConfirmed =>
      {PaymentConfirmed, SettlementPending, Failed, Cancelled, RefundPending, Refunded}
    case SettlementPending =>
      {SettlementPending, SettlementCompleted, Completed, Failed, Cancelled, RefundPending, Refunded}
    case SettlementCompleted => {SettlementCompleted, Completed}
    case Completed => {Completed}
    case Failed => {Failed, RefundPending, Refunded}
    case Cancelled => {Cancelled, RefundPending, Refunded}
    case RefundPending => {RefundPending, Refunded, RefundFailed}
    case Refunded => {Refunded}
    case RefundFailed => {RefundFailed, RefundPending, Refunded}
    case Expired => {Expired, RefundPending, Refunded}
  }

  predicate CanTransition(current: Status, target: Status) {
    if current == target then true
    else if current == Refunded then false
    else if (current == Completed || current == SettlementCompleted)
         && (target == SettlementPending || target == RefundPending) then false
    else target in Allowed(current)
  }

  /** Where the statuses that end a refund can come from. */
  lemma RefundsReachedFrom(from: Status, to: Status)
    requires from != to
    ensures CanTransition(from, RefundPending) || from == RefundPending <==>
            from !in {Created, SettlementCompleted, Completed, Refunded}
    ensures CanTransition(from, Refunded) || from == Refunded <==> from !in {Created, SettlementCompleted, Completed}
    ensures CanTransition(from, RefundFailed) <==> from == RefundPending || from == RefundFailed
  {
  }
}

/** src/modules/payments/payment.state-machine.ts */
module PaymentStates {
  datatype Status = Created | Pending | Processing | Succeeded | Failed | Cancelled | Expired | Refunded

  function Allowed(from: Status): set<Status> {
    match from
    case Created => {Pending, Processing, Succeeded, Failed, Cancelled, Expired}
    case Pending => {Processing, Succeeded, Failed, Cancelled, Expired}
    case Processing => {Succeeded, Failed, Cancelled, Expired}
    case Succeeded => {Refunded}
    case Failed => {}
    case Cancelled => {}
    case Expired => {}
    case Refunded => {}
  }

  predicate CanTransition(from: Status, to: Status) {
    from == to || to in Allowed(from)
  }

  /** Where a payment can come from when it changes: only a SUCCEEDED one is refunded, all other ends are final. */
  lemma ReachedFrom(from: Status, to: Status)
    requires from != to
    ensures CanTransition(from, to) <==>
            match to
            case Created => false
            case Pending => from == Created
            case Processing => from == Created || from == Pending
            case Refunded => from == Succeeded
            case _ => from == Created || from == Pending || from == Processing
  {
  }
}
