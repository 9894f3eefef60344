/**
 The code of processWebhook and verifyPayment over the payment, event, order and liquidity tables. Each method shows
 one call that nothing disturbs and is a run of Payments, which lets others act between any two of its steps.
 */
module PaymentHandlers {
  import opened Wrappers
  import opened PaymentStates
  import opened Payments
  import O = OrderStates
  import L = LiquidityLedger
  import V = ReservationStates

  type UserId = nat

  datatype Order = Order(status: O.Status, hasWallet: bool)

  /** What verifyPayment needs to know of a payment besides its status. */
  datatype Terms = Terms(user: UserId, order: L.OrderId)

  datatype Error = PaymentNotFound | Forbidden | InvalidTransition | ConcurrentModification

  // ----- what follows a committed update

  /** The order after its payment succeeded. */
  function Paid(order: Order): Order {
    match order.status
    case Completed => order
    case SettlementCompleted => order
    case SettlementPending => order
    case Cancelled => order
    case Refunded => order
    case _ => order.(status := if order.hasWallet then O.SettlementPending else O.PaymentConfirmed)
  }

  /** The order after its payment failed. */
  function Unpaid(order: Order): Order {
    match order.status
    case Completed => order
    case SettlementCompleted => order
    case Cancelled => order
    case Refunded => order
    case _ => order.(status := O.Failed)
  }

  function OrdersAfter(orders: map<L.OrderId, Order>, order: L.OrderId, to: Status): map<L.OrderId, Order> {
    if order !in orders then orders
    else if to == Succeeded then orders[order := Paid(orders[order])]
    else if to == Failed then orders[order := Unpaid(orders[order])]
    else orders
  }

  /** A success confirms the order's reservation, a failure releases it. */
  function LedgerAfter(l: L.Ledger, order: L.OrderId, to: Status): L.Ledger {
    if to == Succeeded then L.Apply(l, L.OpConfirm(order))
    else if to == Failed then L.Apply(l, L.OpRelease(order, false))
    else l
  }

  /** Neither outcome touches an order that is settled, cancelled or refunded, and nothing is settled by a payment. */
  lemma SettledOrdersStay(orders: map<L.OrderId, Order>, order: L.OrderId, to: Status, o: L.OrderId)
    requires o in orders
    ensures var was, now := orders[o].status, OrdersAfter(orders, order, to)[o].status;
            && (was in {O.Completed, O.SettlementCompleted, O.Cancelled, O.Refunded} ==> now == was)
            && (now in {O.Completed, O.SettlementCompleted} ==> now == was)
            && (now == O.SettlementPending && was != now ==> orders[o].hasWallet && to == Succeeded)
  {
  }

  lemma LedgerStaysSound(seeds: L.Seeds, l: L.Ledger, order: L.OrderId, to: Status)
    requires L.Sound(seeds, l)
    ensures L.Sound(seeds, LedgerAfter(l, order, to))
  {
    L.ApplySound(seeds, l, L.OpConfirm(order));
    L.ApplySound(seeds, l, L.OpRelease(order, false));
  }

  /** The tables that a payment update and its consequences change. */
  datatype Tables = Tables(payments: map<PaymentId, Status>, orders: map<L.OrderId, Order>, ledger: L.Ledger)

  function Moved(t: Tables, p: PaymentId, order: L.OrderId, to: Status): Tables {
    Tables(t.payments[p := to], OrdersAfter(t.orders, order, to), LedgerAfter(t.ledger, order, to))
  }

  /**
   What a payment's outcome means for its order and reservation. A success lets the order go on to settlement if it
   has a wallet and confirms the reservation; a failure fails the order and gives an active reservation back; orders
   that have been settled, cancelled or refunded stay, and so does one already waiting for its settlement when its
   payment succeeds; any other status touches neither.
   */
  ghost predicate Follows(before: Tables, after: Tables, order: L.OrderId, to: Status) {
    && after.orders.Keys == before.orders.Keys
    && (forall o :: o in before.orders && o != order ==> after.orders[o] == before.orders[o])
    && (order in before.orders ==>
          var was, now := before.orders[order], after.orders[order];
          && now.hasWallet == was.hasWallet
          && now.status ==
             if was.status in {O.Completed, O.SettlementCompleted, O.Cancelled, O.Refunded} then was.status
             else if to == Failed then O.Failed
             else if to != Succeeded || was.status == O.SettlementPending then was.status
             else if was.hasWallet then O.SettlementPending else O.PaymentConfirmed)
    && (to != Succeeded && to != Failed ==> after.ledger == before.ledger)
    && (to == Succeeded ==>
          after.ledger.pools == before.ledger.pools && after.ledger.treasury == before.ledger.treasury)
    && (forall i: nat :: L.IsRow(before.ledger, order, i) ==> RowFollows(before.ledger, after.ledger, i, to))
  }

  /** What becomes of the order's reservation. */
  predicate RowFollows(before: L.Ledger, after: L.Ledger, i: nat, to: Status)
    requires i < |before.reservations|
  {
    && i < |after.reservations|
    && var was, now := before.reservations[i], after.reservations[i];
       && now == was.(status := now.status)
       && (to == Succeeded ==> now.status == if was.status == V.Reserved then V.Confirmed else was.status)
       && (to == Failed && was.pool in before.pools ==>
             now.status == if was.status == V.Reserved || was.status == V.Confirmed then V.CancelledReleased
                           else was.status)
  }

  lemma LedgerFollows(l: L.Ledger, order: L.OrderId, to: Status, i: nat)
    requires L.IsRow(l, order, i)
    ensures RowFollows(l, LedgerAfter(l, order, to), i, to)
  {
    L.RowIsFound(l, order, i);
  }

  lemma MovedFollows(t: Tables, p: PaymentId, order: L.OrderId, to: Status)
    ensures Follows(t, Moved(t, p, order, to), order, to)
    ensures Moved(t, p, order, to).payments == t.payments[p := to]
  {
    forall i: nat | L.IsRow(t.ledger, order, i)
      ensures RowFollows(t.ledger, LedgerAfter(t.ledger, order, to), i, to)
    {
      LedgerFollows(t.ledger, order, to, i);
    }
  }

  // ----- the code

  ghost predicate Runs(s: State, steps: seq<Step>, t: State) {
    IsRun(s, steps) && After(s, steps) == t
  }

  lemma Extend(s: State, steps: seq<Step>, t: State, step: Step)
    requires Runs(s, steps, t) && Enabled(t, step)
    ensures Runs(s, steps + [step], Exec(t, step))
  {
    OneStep(t, step);
    JoinRuns(s, steps, [step]);
  }

  class Service {
    const terms: map<PaymentId, Terms>
    var payments: map<PaymentId, Status>
    var events: map<EventKey, bool>
    var orders: map<L.OrderId, Order>
    var ledger: L.Ledger
    ghost var handlers: map<HandlerId, Handler>
    ghost var log: seq<Commit>
    ghost var reached: seq<EventKey>

    constructor (terms: map<PaymentId, Terms>, orders: map<L.OrderId, Order>, ledger: L.Ledger)
      ensures Valid() && Now() == Empty && this.terms == terms && this.orders == orders && this.ledger == ledger
    {
      this.terms, this.orders, this.ledger := terms, orders, ledger;
      payments, events, handlers, log, reached := map[], map[], map[], [], [];
    }

    ghost predicate Valid()
      reads this
    {
      payments.Keys <= terms.Keys
    }

    ghost function Now(): State
      reads this
    {
      State(payments, events, handlers, log, reached)
    }

    ghost function Data(): Tables
      reads this
    {
      Tables(payments, orders, ledger)
    }

    /** The tables have been changed from `before` as a step changes them. */
    ghost method Did(s: State, steps: seq<Step>, before: State, step: Step) returns (more: seq<Step>)
      requires Runs(s, steps, before) && Enabled(before, step)
      requires Exec(before, step).payments == payments && Exec(before, step).events == events
      modifies this`handlers, this`log, this`reached
      ensures Now() == Exec(before, step) && Runs(s, more, Now())
    {
      Extend(s, steps, before, step);
      var t := Exec(before, step);
      handlers, log, reached := t.handlers, t.log, t.reached;
      more := steps + [step];
    }

    /** The guarded update: updateMany by id and the status that was read. */
    method Update(h: HandlerId, p: PaymentId, seen: Status, to: Status, ghost s: State, ghost before: seq<Step>)
      returns (count: nat, ghost steps: seq<Step>)
      requires Runs(s, before, Now()) && p in payments && h in handlers
      requires handlers[h].Ready? && handlers[h].p == p && handlers[h].seen == seen && handlers[h].to == to
      modifies this`payments, this`handlers, this`log, this`reached
      ensures Runs(s, steps, Now()) && Now() == Exec(old(Now()), Write(h))
      ensures count == if old(payments)[p] == seen then 1 else 0
      ensures payments == if count == 1 then old(payments)[p := to] else old(payments)
    {
      ghost var t := Now();
      count := 0;
      if payments[p] == seen {
        payments := payments[p := to];
        count := 1;
      }
      steps := Did(s, before, t, Write(h));
    }

    /** confirmReservation or releaseReservation, then the order update. */
    method FollowUp(order: L.OrderId, to: Status)
      modifies this`orders, this`ledger
      ensures orders == OrdersAfter(old(orders), order, to) && ledger == LedgerAfter(old(ledger), order, to)
    {
      if to == Succeeded {
        ledger := L.Apply(ledger, L.OpConfirm(order));
        if order in orders {
          var status := orders[order].status;
          if status != O.Completed && status != O.SettlementCompleted && status != O.SettlementPending
             && status != O.Cancelled && status != O.Refunded {
            var next := if orders[order].hasWallet then O.SettlementPending else O.PaymentConfirmed;
            orders := orders[order := orders[order].(status := next)];
          }
        }
      } else if to == Failed {
        ledger := L.Apply(ledger, L.OpRelease(order, false));
        if order in orders {
          var status := orders[order].status;
          if status != O.Completed && status != O.SettlementCompleted && status != O.Cancelled && status != O.Refunded {
            orders := orders[order := orders[order].(status := O.Failed)];
          }
        }
      }
    }

    /** The guarded update and, if it matched, what follows it. */
    method UpdateAndFollow(h: HandlerId, p: PaymentId, seen: Status, to: Status, ghost s: State,
                           ghost before: seq<Step>) returns (count: nat, ghost steps: seq<Step>)
      requires Valid() && Runs(s, before, Now()) && p in payments && h in handlers
      requires handlers[h].Ready? && handlers[h].p == p && handlers[h].seen == seen && handlers[h].to == to
      modifies this`payments, this`orders, this`ledger, this`handlers, this`log, this`reached
      ensures Valid() && Runs(s, steps, Now()) && p in payments
      ensures handlers == if old(handlers)[h].event.Some? then old(handlers)[h := Applied(old(handlers)[h].event.value)]
                          else old(handlers) - {h}
      ensures count == if old(payments)[p] == seen then 1 else 0
      ensures Data() == if count == 1 then Moved(old(Data()), p, terms[p].order, to) else old(Data())
    {
      count, steps := Update(h, p, seen, to, s, before);
      if count > 0 {
        FollowUp(terms[p].order, to);
      }
    }

    /** Creating the event row fails if there is one for the key. */
    method ClaimEvent(h: HandlerId, key: EventKey, payment: Option<PaymentId>, to: Status)
      returns (claimed: bool, ghost steps: seq<Step>)
      requires h !in handlers
      modifies this`events, this`handlers, this`log, this`reached
      ensures Runs(old(Now()), steps, Now())
      ensures claimed <==> key !in old(events)
      ensures events == if claimed then old(events)[key := false] else old(events)
      ensures handlers == if claimed then old(handlers)[h := Claimed(key, payment, to)] else old(handlers)
    {
      ghost var s := Now();
      claimed := key !in events;
      if claimed {
        events := events[key := false];
      }
      steps := Did(s, [], s, Receive(h, key, payment, to));
    }

    /** The event names a payment that the table lets it move. */
    ghost predicate Applies(payment: Option<PaymentId>, to: Status)
      reads this
    {
      && payment.Some? && payment.value in payments && payment.value in terms
      && CanTransition(payments[payment.value], to)
    }

    /** The part of processWebhook between the claim and the processed mark. */
    method ApplyEvent(h: HandlerId, key: EventKey, payment: Option<PaymentId>, to: Status, ghost s: State,
                      ghost before: seq<Step>) returns (ghost steps: seq<Step>)
      requires Valid() && Runs(s, before, Now()) && h in handlers && handlers[h] == Claimed(key, payment, to)
      modifies this`payments, this`orders, this`ledger, this`handlers, this`log, this`reached
      ensures Valid() && Runs(s, steps, Now())
      ensures handlers == old(handlers)[h := Applied(key)]
      ensures Data() == if old(Applies(payment, to))
                        then Moved(old(Data()), payment.value, terms[payment.value].order, to) else old(Data())
    {
      steps := Did(s, before, Now(), Lookup(h));
      if payment.Some? && payment.value in payments && CanTransition(payments[payment.value], to) {
        var count;
        count, steps := UpdateAndFollow(h, payment.value, payments[payment.value], to, s, steps);
      }
    }

    /** The event is marked processed. */
    method FinishEvent(h: HandlerId, key: EventKey, ghost s: State, ghost before: seq<Step>)
      returns (ghost steps: seq<Step>)
      requires Runs(s, before, Now()) && h in handlers && handlers[h] == Applied(key)
      modifies this`events, this`handlers, this`log, this`reached
      ensures Runs(s, steps, Now()) && handlers == old(handlers) - {h}
      ensures events == old(events)[key := true]
    {
      ghost var t := Now();
      events := events[key := true];
      steps := Did(s, before, t, Finish(h));
    }

    method ApplyAndFinish(h: HandlerId, key: EventKey, payment: Option<PaymentId>, to: Status, ghost s: State,
                          ghost before: seq<Step>) returns (ghost steps: seq<Step>)
      requires Valid() && Runs(s, before, Now()) && h in handlers && handlers[h] == Claimed(key, payment, to)
      modifies this
      ensures Valid() && Runs(s, steps, Now())
      ensures events == old(events)[key := true] && handlers == old(handlers) - {h}
      ensures Data() == if old(Applies(payment, to))
                        then Moved(old(Data()), payment.value, terms[payment.value].order, to) else old(Data())
    {
      steps := ApplyEvent(h, key, payment, to, s, before);
      steps := FinishEvent(h, key, s, steps);
    }

    /** Claim, update and processed mark of a verified event. */
    method HandleEvent(h: HandlerId, key: EventKey, payment: Option<PaymentId>, to: Status)
      returns (duplicate: bool, ghost steps: seq<Step>)
      requires Valid() && h !in handlers
      modifies this
      ensures Valid() && Runs(old(Now()), steps, Now()) && handlers == old(handlers)
      ensures duplicate <==> key in old(events)
      ensures events == if duplicate then old(events) else old(events)[key := true]
      ensures Data() == if !duplicate && old(Applies(payment, to))
                        then Moved(old(Data()), payment.value, terms[payment.value].order, to) else old(Data())
    {
      ghost var s := Now();
      var claimed;
      claimed, steps := ClaimEvent(h, key, payment, to);
      duplicate := !claimed;
      if duplicate {
        return;
      }
      steps := ApplyAndFinish(h, key, payment, to, s, steps);
      assert handlers == s.handlers;
      assert events == s.events[key := true];
    }

    /**
     processWebhook: a new event moves its payment if there is one and the table allows it, confirms or releases the
     reservation, moves the order, and is marked processed; an event whose row exists changes nothing.
     */
    method ProcessWebhook(h: HandlerId, key: EventKey, payment: Option<PaymentId>, to: Status)
      returns (duplicate: bool, ghost steps: seq<Step>)
      requires Valid() && h !in handlers
      modifies this
      ensures Valid() && Runs(old(Now()), steps, Now()) && handlers == old(handlers)
      ensures duplicate <==> key in old(events)
      ensures events == if duplicate then old(events) else old(events)[key := true]
      ensures (!duplicate && payment.Some? && payment.value in old(payments)
               && CanTransition(old(payments)[payment.value], to)) ==>
                && payments == old(payments)[payment.value := to]
                && Follows(old(Data()), Data(), terms[payment.value].order, to)
      ensures (duplicate || payment.None? || payment.value !in old(payments)
               || !CanTransition(old(payments)[payment.value], to)) ==> Data() == old(Data())
    {
      ghost var before := Data();
      duplicate, steps := HandleEvent(h, key, payment, to);
      if payment.Some? && payment.value in terms {
        MovedFollows(before, payment.value, terms[payment.value].order, to);
      }
    }

    /** The payment is read, the provider asked, and its answer checked against the table. */
    method Ask(h: HandlerId, p: PaymentId, to: Status)
      returns (seen: Status, allowed: bool, ghost steps: seq<Step>)
      requires p in payments && h !in handlers
      modifies this`handlers, this`log, this`reached
      ensures Runs(old(Now()), steps, Now())
      ensures seen == payments[p] && allowed == CanTransition(seen, to)
      ensures handlers == if allowed then old(handlers)[h := Ready(None, p, seen, to)] else old(handlers)
    {
      ghost var s := Now();
      seen := payments[p];
      steps := Did(s, [], s, Verify(h, p));
      steps := Did(s, steps, Now(), Answer(h, to));
      allowed := CanTransition(seen, to);
      assert handlers == if allowed then s.handlers[h := Ready(None, p, seen, to)] else s.handlers;
    }

    /**
     verifyPayment: `to` is what the provider answers; undisturbed, it moves the payment exactly if the table allows
     it, and then the reservation and the order with it.
     */
    method VerifyPayment(h: HandlerId, p: PaymentId, user: UserId, isAdmin: bool, to: Status)
      returns (r: Result<Status, Error>, ghost steps: seq<Step>)
      requires Valid() && h !in handlers
      modifies this
      ensures Valid() && Runs(old(Now()), steps, Now()) && events == old(events)
      ensures handlers == old(handlers)
      ensures r == if p !in old(payments) then Err(PaymentNotFound)
                   else if !isAdmin && terms[p].user != user then Err(Forbidden)
                   else if CanTransition(old(payments)[p], to) then Ok(to) else Err(InvalidTransition)
      ensures Data() == if r.Ok? then Moved(old(Data()), p, terms[p].order, to) else old(Data())
      ensures r.Ok? ==>
                payments == old(payments)[p := to] && Follows(old(Data()), Data(), terms[p].order, to)
    {
      ghost var s := Now();
      if p !in payments {
        return Err(PaymentNotFound), [];
      }
      if !isAdmin && terms[p].user != user {
        return Err(Forbidden), [];
      }
      MovedFollows(Data(), p, terms[p].order, to);
      var seen, allowed;
      seen, allowed, steps := Ask(h, p, to);
      if !allowed {
        return Err(InvalidTransition), steps;
      }
      var count;
      count, steps := UpdateAndFollow(h, p, seen, to, s, steps);
      assert handlers == s.handlers;
      var current := payments[p];
      r := if count == 0 && current != to then Err(ConcurrentModification) else Ok(to);
    }
  }
}
