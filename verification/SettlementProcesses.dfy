/**
 The code of the settlement worker and of the reconciliation daemon, statement by statement, over the shared
 rows and the lock. Ghost state records where each process stands, so each method can say that what it did is a
 run of SettlementProtocol: the protocol's steps are the code's, and every theorem about runs speaks about it.
 A method shows its process alone; SettlementProtocol lets others act between any two of its steps.
 */
module SettlementProcesses {
  import opened Wrappers
  import opened SettlementProtocol
  import opened ChainTruth
  import P = SettlementPolicy
  import S = SettlementStates
  import R = RefundStates
  import V = ReservationStates
  import O = OrderStates

  /**
   What the world outside does: the limits and what else the policy engine reads besides the settlement's own rows,
   whether signer and network take the transaction, whether the RPC call that sends it
   returns, whether an error text counts as permanent, what the network makes of the transaction while the worker
   polls, and whether the polling reaches the RPC server.
   */
  datatype World = World(limits: P.Limits, snap: P.Snapshot, hash: Hash, accepted: bool, answered: bool,
                         permanent: bool, network: Option<bool>, reachable: bool)

  datatype CreateError = OrderNotFound | InvalidOrderState | ActiveRefund | NoWallet

  /** The settlement's database together with the status of its order. */
  datatype Rows = Rows(db: Db, order: O.Status)

  // ----- what each stretch of code does to the rows

  /** Why createSettlementForOrder throws; `known` says whether the order exists, `hasWallet` whether it has one. */
  function CreateRefused(r: Rows, known: bool, hasWallet: bool): Option<CreateError> {
    if !known then Some(OrderNotFound)
    else if r.db.row.Some? then None
    else if r.order != O.SettlementPending then Some(InvalidOrderState)
    else if LiveRefund(r.db) then Some(ActiveRefund)
    else if !hasWallet then Some(NoWallet)
    else None
  }

  function Opened(r: Rows): Rows {
    if r.db.row.Some? then r else r.(db := r.db.(row := Some(Row(S.Pending, None))))
  }

  predicate May(r: Rows, target: S.Status) {
    r.db.row.Some? && S.CanTransition(r.db.row.value.status, target)
  }

  function Marked(r: Rows, m: Mark): Rows {
    if May(r, Target(m)) then r.(db := r.db.(row := Some(Written(r.db.row.value, m)))) else r
  }

  function Claimed(r: Rows): Rows {
    if May(r, S.Submitting) then r.(db := r.db.(row := Some(r.db.row.value.(status := S.Submitting)))) else r
  }

  /** The row and the order get a final status, and an active reservation its own. */
  function Closed(r: Rows, status: S.Status, reservation: V.Status, order: O.Status): Rows {
    if May(r, status)
    then
      Rows(r.db.(row := Some(r.db.row.value.(status := status)),
                 reservation := if V.Active(r.db.reservation) then reservation else r.db.reservation),
           order)
    else r
  }

  function Completed(r: Rows): Rows {
    Closed(r, S.Completed, V.Consumed, O.Completed)
  }

  /** What the policy engine reads. */
  function Seen(r: Rows, snap: P.Snapshot): P.Snapshot {
    snap.(order := Some(r.order), activeRefund := LiveRefund(r.db), reservation := Some(r.db.reservation),
          settlement := if r.db.row.Some? then Some(r.db.row.value.status) else None)
  }

  predicate Approvable(r: Rows, world: World) {
    P.ValidateAndApprove(world.limits, Seen(r, world.snap)) == None
  }

  /** What the rows and the rest of the policy's reading must say for an approval. */
  lemma ApprovableIff(r: Rows, world: World)
    ensures Approvable(r, world) <==>
            && r.order == O.SettlementPending && !LiveRefund(r.db) && r.db.reservation == V.Confirmed
            && r.db.row.Some? && r.db.row.value.status != S.Completed
            && world.snap.walletValid && world.snap.destinationMatches
            && world.snap.xdrStroops == world.snap.orderStroops && world.snap.succeededPayment
            && world.snap.settlementAgeMs <= 24 * 60 * 60 * 1000
            && world.limits.minSettlement <= world.snap.orderStroops <= world.limits.maxSingle
            && world.snap.hourlyOutflow + world.snap.orderStroops <= world.limits.maxHourly
            && world.snap.dailyOutflow + world.snap.orderStroops <= world.limits.maxDaily
  {
    P.ApprovedIff(world.limits, Seen(r, world.snap));
  }

  /** submitSettlement returns the hash. */
  predicate Submits(r: Rows, world: World) {
    Approvable(r, world) && world.accepted && world.answered
  }

  function Sent(r: Rows, world: World): Rows {
    if !Approvable(r, world) then r
    else if world.accepted then r.(db := SentTo(r.db.(approved := true), world.hash))
    else r.(db := r.db.(approved := true))
  }

  /** The mark that follows an error of submitSettlement. */
  function ErrorMark(r: Rows, world: World): Mark {
    RefusalMark(world.permanent && !(Approvable(r, world) && world.accepted))
  }

  function Executed(db: Db, h: Hash, network: Option<bool>): Db {
    if network.Some? && h in db.chain && db.chain[h] == Unseen
    then db.(chain := db.chain[h := if network.value then Success else Failure])
    else db
  }

  /** Polling `h`, then completion or hand-over. */
  function Polled(r: Rows, h: Hash, world: World): Rows {
    var r' := r.(db := Executed(r.db, h, world.network));
    if world.reachable && Succeeded(r'.db, h) then Completed(r') else Marked(r', ToReconcile(ConfirmError))
  }

  /** executeSettlementFlow from markConfirming on: it polls the hash of the row that the update returns. */
  function Confirmed(r: Rows, world: World): Rows {
    if May(r, S.Confirming) && r.db.row.value.hash.Some?
    then Polled(Marked(r, ToConfirming), r.db.row.value.hash.value, world)
    else Marked(r, ToConfirming)
  }

  /** executeSettlementFlow from submitSettlement on. */
  function Submitted(r: Rows, world: World): Rows {
    var r' := Sent(r, world);
    if !Submits(r, world) then Marked(r', ErrorMark(r, world))
    else if May(r', S.Submitted) then Confirmed(Marked(r', ToSubmitted(world.hash)), world)
    else r'
  }

  function Flowed(r: Rows, owned: bool, world: World): Rows {
    if r.db.row.None? then r
    else if r.db.row.value.hash.None? then if owned then Submitted(r, world) else r
    else if r.db.row.value.status == S.Submitted then Confirmed(r, world)
    else if r.db.row.value.status == S.Confirming then Polled(r, r.db.row.value.hash.value, world)
    else r
  }

  /** processSingleOrder under the lock. */
  function Processed(r: Rows, stopAtSubmitting: bool, world: World): Rows {
    if r.db.row.None? then r
    else
      match r.db.row.value.status
      case Pending => if stopAtSubmitting then Claimed(r) else Flowed(Claimed(r), true, world)
      case Submitting => if stopAtSubmitting then r else Flowed(r, true, world)
      case Submitted => if stopAtSubmitting then r else Flowed(r, true, world)
      case Confirming => if stopAtSubmitting then r else Flowed(r, true, world)
      case _ => r
  }

  /** The status that a reconciliation sweep moves the settlement to, None for leaving it alone. */
  function Verdict(hasHash: bool, answer: RpcAnswer, aged: bool): Option<S.Status> {
    if !hasHash then Some(if aged then S.Failed else S.RequiresReconciliation)
    else
      match answer
      case RpcSuccess => Some(S.Completed)
      case RpcFailed => Some(S.Failed)
      case RpcNotFound => if aged then Some(S.Failed) else None
      case RpcPending => None
  }

  function Reconciled(r: Rows, target: Option<S.Status>): Rows {
    if target == Some(S.Completed) then Completed(r)
    else if target == Some(S.Failed) then Closed(r, S.Failed, V.CancelledReleased, O.Failed)
    else if target.Some? then Marked(r, ToReconcile(NoHash))
    else r
  }

  predicate ByDaemonMark(m: Mark) {
    (m.ToFailed? && ByDaemon(m.origin)) || m == ToReconcile(NoHash)
  }

  // ----- what that comes to

  /** Nothing outside stands in the way. */
  predicate Favourable(world: World) {
    world.accepted && world.answered && world.network == Some(true) && world.reachable
  }

  /** An approvable settlement that starts over is paid, COMPLETED beside its own hash, and consumed. */
  lemma FavourableCompletes(r: Rows, world: World)
    requires r.db.row == Some(Row(S.Pending, None)) || r.db.row == Some(Row(S.Submitting, None))
    requires Approvable(Claimed(r), world) && Favourable(world) && world.hash !in r.db.chain
    ensures var r' := Processed(r, false, world);
            && r'.db.row == Some(Row(S.Completed, Some(world.hash))) && Succeeded(r'.db, world.hash)
            && r'.db.reservation == V.Consumed && r'.order == O.Completed
  {
    var r1 := Claimed(r);
    assert r.db.row.value.status == S.Submitting ==> r1 == r;
    ApprovableIff(r1, world);
    var r2 := Marked(Sent(r1, world), ToSubmitted(world.hash));
    assert r2.db.row == Some(Row(S.Submitted, Some(world.hash))) && r2.db.chain[world.hash] == Unseen;
    assert Flowed(r1, true, world) == Confirmed(r2, world);
  }

  /** What markSubmitting and stopAtSubmitting leave. */
  lemma StoppedOutcome(r: Rows, world: World)
    requires r.db.row.Some?
    ensures Processed(r, true, world) ==
            if r.db.row.value.status == S.Pending
            then r.(db := r.db.(row := Some(Row(S.Submitting, r.db.row.value.hash)))) else r
    ensures r.db.row.value.status in {S.Completed, S.Failed, S.RequiresReconciliation} ==>
              Processed(r, false, world) == r
    ensures r.db.row.value.hash.None? ==> Flowed(r, false, world) == r
    ensures r.db.row.value.status in {S.Pending, S.Submitting} ==>
              Claimed(r) == r.(db := r.db.(row := Some(Row(S.Submitting, r.db.row.value.hash))))
  {
  }

  /** The row gets this status, and nothing else happens to it, to the reservation, to the refunds or to the order. */
  predicate Turns(r: Rows, r': Rows, status: S.Status, hash: Option<Hash>) {
    && r'.db.row == Some(Row(status, hash))
    && r'.db.reservation == r.db.reservation && r'.db.refunds == r.db.refunds && r'.order == r.order
  }

  /** COMPLETED beside this hash, with order and reservation closed. */
  predicate Closes(r: Rows, r': Rows, hash: Hash) {
    && r'.db.row == Some(Row(S.Completed, Some(hash))) && r'.order == O.Completed
    && r'.db.refunds == r.db.refunds
    && r'.db.reservation == if r.db.reservation == V.Reserved || r.db.reservation == V.Confirmed then V.Consumed
                            else r.db.reservation
  }

  /** The transaction has succeeded, or does so while the worker polls. */
  predicate Paid(db: Db, h: Hash, network: Option<bool>) {
    h in db.chain && (db.chain[h] == Success || (db.chain[h] == Unseen && network == Some(true)))
  }

  /**
   Refusals before a broadcast: a permanent error fails the settlement, any other hands it to reconciliation. The
   policy sees the row SUBMITTING.
   */
  lemma RefusedOutcome(r: Rows, world: World)
    requires r.db.row == Some(Row(S.Pending, None)) || r.db.row == Some(Row(S.Submitting, None))
    requires !Approvable(r.(db := r.db.(row := Some(Row(S.Submitting, None)))), world) || !world.accepted
    ensures var r' := Processed(r, false, world);
            && Turns(r, r', if world.permanent then S.Failed else S.RequiresReconciliation, None)
            && r'.db.chain == r.db.chain
    ensures r.db.row.value.status == S.Submitting ==> Flowed(r, true, world) == Processed(r, false, world)
  {
  }

  /** A broadcast whose RPC call failed always goes to reconciliation, without its hash. */
  lemma UnansweredOutcome(r: Rows, world: World)
    requires r.db.row == Some(Row(S.Pending, None)) || r.db.row == Some(Row(S.Submitting, None))
    requires Approvable(r.(db := r.db.(row := Some(Row(S.Submitting, None)))), world)
    requires world.accepted && !world.answered
    ensures var r' := Processed(r, false, world);
            && Turns(r, r', S.RequiresReconciliation, None)
            && r'.db.chain == if world.hash in r.db.chain then r.db.chain else r.db.chain[world.hash := Unseen]
    ensures r.db.row.value.status == S.Submitting ==> Flowed(r, true, world) == Processed(r, false, world)
  {
  }

  /** Polling completes a paid settlement if the server is reached, and hands any other to reconciliation. */
  lemma PolledOutcome(r: Rows, h: Hash, world: World)
    requires r.db.row == Some(Row(S.Submitted, Some(h))) || r.db.row == Some(Row(S.Confirming, Some(h)))
    ensures var r' := Processed(r, false, world);
            if world.reachable && Paid(r.db, h, world.network) then Closes(r, r', h)
            else Turns(r, r', S.RequiresReconciliation, Some(h))
    ensures Flowed(r, true, world) == Processed(r, false, world)
  {
    var r1 := r.(db := r.db.(row := Some(Row(S.Confirming, Some(h)))));
    assert Processed(r, false, world) == Polled(r1, h, world);
  }

  /** An accepted and answered submission is polled under its own hash. */
  lemma AnsweredOutcome(r: Rows, world: World)
    requires r.db.row == Some(Row(S.Pending, None)) || r.db.row == Some(Row(S.Submitting, None))
    requires Approvable(r.(db := r.db.(row := Some(Row(S.Submitting, None)))), world)
    requires world.accepted && world.answered
    ensures var r' := Processed(r, false, world);
            var db := SentTo(r.db, world.hash);
            if world.reachable && Paid(db, world.hash, world.network) then Closes(r, r', world.hash)
            else Turns(r, r', S.RequiresReconciliation, Some(world.hash))
  {
    var r1 := r.(db := r.db.(row := Some(Row(S.Submitting, None))));
    assert Claimed(r) == r1;
    var r2 := Marked(Sent(r1, world), ToSubmitted(world.hash));
    assert r2.db.row == Some(Row(S.Submitted, Some(world.hash)));
    assert Processed(r, false, world) == Confirmed(r2, world);
    PolledOutcome(r2, world.hash, world);
  }

  /** FAILED, with the order failed and an active reservation given back. */
  predicate Fails(r: Rows, r': Rows) {
    && r.db.row.Some? && r'.db.row == Some(Row(S.Failed, r.db.row.value.hash)) && r'.order == O.Failed
    && r'.db.refunds == r.db.refunds && r'.db.chain == r.db.chain
    && r'.db.reservation == if r.db.reservation == V.Reserved || r.db.reservation == V.Confirmed
                            then V.CancelledReleased else r.db.reservation
  }

  /** A sweep on a row without a hash: flagged, or failed once it is old. */
  lemma HashlessSweepOutcome(r: Rows, answer: RpcAnswer, aged: bool)
    requires r.db.row.Some?
    ensures var status, r' := r.db.row.value.status, Reconciled(r, Verdict(false, answer, aged));
            if aged then if status == S.Completed then r' == r else Fails(r, r')
            else if status in {S.Submitting, S.Submitted, S.Confirming, S.RequiresReconciliation}
            then Turns(r, r', S.RequiresReconciliation, r.db.row.value.hash)
            else r' == r
  {
  }

  /** A sweep on a row with a hash follows the chain's answer, NOT_FOUND only for an old row. */
  lemma SweepOutcome(r: Rows, answer: RpcAnswer, aged: bool)
    requires r.db.row.Some? && r.db.row.value.hash.Some?
    ensures var status, r' := r.db.row.value.status, Reconciled(r, Verdict(true, answer, aged));
            match answer
            case RpcSuccess =>
              if status in {S.Submitted, S.Confirming, S.RequiresReconciliation, S.Completed}
              then Closes(r, r', r.db.row.value.hash.value) else r' == r
            case RpcFailed => if status == S.Completed then r' == r else Fails(r, r')
            case RpcNotFound => if !aged || status == S.Completed then r' == r else Fails(r, r')
            case RpcPending => r' == r
  {
  }

  /** createSettlementForOrder goes on exactly for an existing settlement or for an order that may get one. */
  lemma CreatesIff(r: Rows, known: bool, hasWallet: bool)
    ensures CreateRefused(r, known, hasWallet) == None <==>
            known && (r.db.row.Some?
                      || (r.order == O.SettlementPending && hasWallet
                          && forall f :: f in r.db.refunds ==>
                                           r.db.refunds[f] == R.Failed || r.db.refunds[f] == R.Cancelled))
    ensures CreateRefused(r, known, hasWallet) == Some(OrderNotFound) <==> !known
    ensures CreateRefused(r, known, hasWallet) == Some(InvalidOrderState) ==> r.order != O.SettlementPending
    ensures CreateRefused(r, known, hasWallet) == Some(ActiveRefund) ==>
              exists f :: f in r.db.refunds && r.db.refunds[f] in {R.Pending, R.Processing, R.Succeeded}
    ensures CreateRefused(r, known, hasWallet) == Some(NoWallet) ==> !hasWallet
  {
  }

  lemma PolledPaid(r: Rows, h: Hash, world: World)
    requires r.db.row.Some? && r.db.row.value.status != S.Completed && r.db.row.value.hash == Some(h)
    ensures RowSingle(Polled(r, h, world).db)
  {
  }

  lemma ConfirmedPaid(r: Rows, world: World)
    requires r.db.row.Some? && r.db.row.value.status != S.Completed
    ensures RowSingle(Confirmed(r, world).db)
  {
    if May(r, S.Confirming) && r.db.row.value.hash.Some? {
      PolledPaid(Marked(r, ToConfirming), r.db.row.value.hash.value, world);
    }
  }

  lemma SubmittedPaid(r: Rows, world: World)
    requires r.db.row.Some? && r.db.row.value.status != S.Completed
    ensures RowSingle(Submitted(r, world).db)
  {
    var r' := Sent(r, world);
    assert r'.db.row == r.db.row;
    if Submits(r, world) && May(r', S.Submitted) {
      ConfirmedPaid(Marked(r', ToSubmitted(world.hash)), world);
    }
  }

  lemma FlowedPaid(r: Rows, owned: bool, world: World)
    requires r.db.row.Some? && r.db.row.value.status != S.Completed
    ensures RowSingle(Flowed(r, owned, world).db)
  {
    if r.db.row.value.hash.None? {
      SubmittedPaid(r, world);
    } else {
      ConfirmedPaid(r, world);
      PolledPaid(r, r.db.row.value.hash.value, world);
    }
  }

  /** Whatever the world does, the worker makes a settlement COMPLETED only beside a stored hash that has succeeded. */
  lemma CompletesOnlyPaid(r: Rows, stopAtSubmitting: bool, world: World)
    requires r.db.row.Some? && r.db.row.value.status != S.Completed
    ensures RowSingle(Processed(r, stopAtSubmitting, world).db)
  {
    FlowedPaid(r, true, world);
    FlowedPaid(Claimed(r), true, world);
  }

  // ----- the code

  class System {
    var db: Db
    var order: O.Status
    var lock: Lock
    ghost var pcs: map<Actor, Pc>
    ghost var tally: Tally

    const known: bool                      // the order exists
    const hasWallet: bool                  // and has a destination wallet

    constructor (order: O.Status, known: bool, hasWallet: bool)
      ensures Now() == Initial && this.order == order && this.known == known && this.hasWallet == hasWallet
    {
      this.order, this.known, this.hasWallet := order, known, hasWallet;
      db, lock, pcs, tally := Initial.db, Initial.lock, Initial.pcs, Initial.tally;
    }

    ghost function Now(): State
      reads this
    {
      State(db, pcs, lock, tally)
    }

    ghost function Tables(): Rows
      reads this
    {
      Rows(db, order)
    }

    /** A read or a decision has been made. */
    ghost method Decided(s: State, steps: seq<Step>, a: Actor, input: Input) returns (more: seq<Step>)
      requires Runs(s, steps, Now()) && Enabled(Now(), Local(a, input))
      modifies this`pcs
      ensures Now() == Exec(old(Now()), Local(a, input)) && Runs(s, more, Now())
    {
      var before := Now();
      Extend(s, steps, before, Local(a, input));
      pcs := pcs[a := LocalNext(db, a, a in lock.noticed, PcOf(before, a), input).value];
      more := steps + [Local(a, input)];
    }

    /** The database and the lock have been changed from `before` as an effect changes them. */
    ghost method Did(s: State, steps: seq<Step>, before: State, a: Actor, e: Effect) returns (more: seq<Step>)
      requires Runs(s, steps, before) && Enabled(before, Do(a, e))
      requires Exec(before, Do(a, e)).db == db && Exec(before, Do(a, e)).lock == lock
      modifies this`pcs, this`tally
      ensures Now() == Exec(before, Do(a, e)) && Runs(s, more, Now())
    {
      Extend(s, steps, before, Do(a, e));
      pcs := Exec(before, Do(a, e)).pcs;
      tally := Exec(before, Do(a, e)).tally;
      more := steps + [Do(a, e)];
    }

    /** markSubmitting: validate what was read, then update only if the status is still that. */
    method MarkSubmitting(w: Actor) returns (marked: bool, ghost steps: seq<Step>)
      requires PcOf(Now(), w) == Marking && db.row.Some?
      modifies this
      ensures Runs(old(Now()), steps, Now()) && lock == old(lock) && tally == old(tally)
      ensures marked <==> May(old(Tables()), S.Submitting)
      ensures Tables() == Claimed(old(Tables()))
      ensures PcOf(Now(), w) == if marked then InFlow(S.Submitting) else Finished
    {
      ghost var s := Now();
      var seen := db.row.value.status;
      steps := Decided(s, [], w, Proceed);
      marked := S.CanTransition(seen, S.Submitting);
      if marked {
        ghost var before := Now();
        if db.row.value.status == seen {
          db := db.(row := Some(db.row.value.(status := S.Submitting)));
        }
        steps := Did(s, steps, before, w, Claim);
      }
    }

    /** The other mark* calls: validate what was read, then update by id; a refused transition throws. */
    method MarkRow(a: Actor, m: Mark) returns (marked: bool, ghost steps: seq<Step>)
      requires PcOf(Now(), a) == Validating(m) && db.row.Some?
      modifies this
      ensures Runs(old(Now()), steps, Now()) && lock == old(lock) && tally == old(tally)
      ensures marked <==> May(old(Tables()), Target(m))
      ensures Tables() == Marked(old(Tables()), m)
      ensures PcOf(Now(), a) == if marked then AfterWrite(m, db.row.value) else Finished
    {
      ghost var s := Now();
      var row := db.row.value;
      steps := Decided(s, [], a, Proceed);
      marked := S.CanTransition(row.status, Target(m));
      if marked {
        ghost var before := Now();
        db := db.(row := Some(Row(Target(m), if m.ToSubmitted? then Some(m.h) else row.hash)));
        steps := Did(s, steps, before, a, Write);
      }
    }

    /** markCompleted: row and order in one transaction, then consumeReservation. */
    method MarkCompleted(a: Actor, h: Hash) returns (marked: bool, ghost steps: seq<Step>)
      requires PcOf(Now(), a) == Validating(ToCompleted(h)) && db.row.Some?
      modifies this
      ensures Runs(old(Now()), steps, Now()) && lock == old(lock) && tally == old(tally)
      ensures marked <==> May(old(Tables()), S.Completed)
      ensures Tables() == Completed(old(Tables()))
      ensures PcOf(Now(), a) == Finished
    {
      ghost var s := Now();
      marked, steps := MarkRow(a, ToCompleted(h));
      if marked {
        order := O.Completed;
        ghost var before := Now();
        if V.Active(db.reservation) {
          db := db.(reservation := V.Consumed);
        }
        steps := Did(s, steps, before, a, Consume);
      }
    }

    /** The daemon's markFailed, the release and the order update that follow it. */
    method FailAndRelease(d: Actor, origin: Origin) returns (marked: bool, ghost steps: seq<Step>)
      requires PcOf(Now(), d) == Validating(ToFailed(origin)) && ByDaemon(origin) && db.row.Some?
      modifies this
      ensures Runs(old(Now()), steps, Now()) && lock == old(lock) && tally == old(tally)
      ensures marked <==> May(old(Tables()), S.Failed)
      ensures Tables() == Closed(old(Tables()), S.Failed, V.CancelledReleased, O.Failed)
      ensures PcOf(Now(), d) == Finished
    {
      ghost var s := Now();
      marked, steps := MarkRow(d, ToFailed(origin));
      if marked {
        ghost var before := Now();
        if V.Active(db.reservation) {
          db := db.(reservation := V.CancelledReleased);
        }
        steps := Did(s, steps, before, d, Release);
        order := O.Failed;
      }
    }

    /** The policy engine has approved: sign, and send to the network. */
    method SignAndSend(w: Actor, world: World) returns (hash: Option<Hash>, ghost steps: seq<Step>)
      requires PcOf(Now(), w) == Calling && w !in lock.noticed && Approvable(Tables(), world)
      modifies this
      ensures Runs(old(Now()), steps, Now()) && lock == old(lock) && tally == old(tally)
      ensures hash == if Submits(old(Tables()), world) then Some(world.hash) else None
      ensures Tables() == Sent(old(Tables()), world)
      ensures PcOf(Now(), w)
           == Validating(if hash.Some? then ToSubmitted(world.hash) else ErrorMark(old(Tables()), world))
    {
      ghost var s := Now();
      ApprovableIff(Tables(), world);
      db := db.(approved := true);
      steps := Did(s, [], s, w, Approve);
      if !world.accepted {
        steps := Decided(s, steps, w, Refused(world.permanent));
        return None, steps;
      }
      ghost var before := Now();
      if world.hash !in db.chain {
        db := db.(chain := db.chain[world.hash := Unseen]);
      }
      if world.answered {
        steps := Did(s, steps, before, w, Broadcast(world.hash));
        hash := Some(world.hash);
      } else {
        steps := Did(s, steps, before, w, BroadcastUnnoticed(world.hash));
        hash := None;
      }
    }

    /** submitSettlement: the policy engine, the signature and the broadcast; None is an error. */
    method SubmitSettlement(w: Actor, world: World) returns (hash: Option<Hash>, ghost steps: seq<Step>)
      requires PcOf(Now(), w) == Unsubmitted && w !in lock.noticed && db.row.Some?
      modifies this
      ensures Runs(old(Now()), steps, Now()) && lock == old(lock)
      ensures tally == old(tally).(submits := old(tally).submits + 1)
      ensures hash == if Submits(old(Tables()), world) then Some(world.hash) else None
      ensures hash.Some? || (world.hash !in old(db).chain && world.hash in db.chain) ==>
                && old(order) == O.SettlementPending && !LiveRefund(old(db))
                && world.snap.walletValid && world.snap.destinationMatches
                && world.snap.xdrStroops == world.snap.orderStroops && world.snap.succeededPayment
                && old(db).reservation == V.Confirmed && old(db).row.value.status != S.Completed
                && world.snap.settlementAgeMs <= 24 * 60 * 60 * 1000
                && world.limits.minSettlement <= world.snap.orderStroops <= world.limits.maxSingle
                && world.snap.hourlyOutflow + world.snap.orderStroops <= world.limits.maxHourly
                && world.snap.dailyOutflow + world.snap.orderStroops <= world.limits.maxDaily
      ensures Tables() == Sent(old(Tables()), world)
      ensures PcOf(Now(), w)
           == Validating(if hash.Some? then ToSubmitted(world.hash) else ErrorMark(old(Tables()), world))
    {
      ghost var s := Now();
      ApprovableIff(Tables(), world);
      steps := Did(s, [], s, w, CallSubmit);
      var approved := P.ValidateAndApprove(world.limits, Seen(Rows(db, order), world.snap)) == None;
      if approved {
        ghost var t := Now();
        ghost var more;
        hash, more := SignAndSend(w, world);
        Chain(s, steps, t, more, Now());
        steps := steps + more;
      } else {
        hash := None;
        steps := Decided(s, steps, w, Refused(world.permanent));
      }
    }

    /** The network executes a transaction that is waiting. */
    method Execute(h: Hash, network: Option<bool>) returns (ghost steps: seq<Step>)
      modifies this
      ensures Runs(old(Now()), steps, Now()) && lock == old(lock) && tally == old(tally) && pcs == old(pcs)
      ensures db == Executed(old(db), h, network) && order == old(order)
    {
      steps := [];
      if network.Some? && h in db.chain && db.chain[h] == Unseen {
        Extend(Now(), [], Now(), Happen(Include(h, network.value)));
        steps := [] + [Happen(Include(h, network.value))];
        db := db.(chain := db.chain[h := if network.value then Success else Failure]);
      }
    }

    /** The last part of executeSettlementFlow: complete, or hand over to reconciliation. */
    method Conclude(w: Actor, h: Hash, confirmed: bool) returns (ghost steps: seq<Step>)
      requires w.Worker? && PcOf(Now(), w) == Polling(h) && db.row.Some? && (confirmed ==> Succeeded(db, h))
      modifies this
      ensures Runs(old(Now()), steps, Now()) && lock == old(lock) && tally == old(tally)
      ensures PcOf(Now(), w) == Finished
      ensures Tables() == if confirmed then Completed(old(Tables()))
                          else Marked(old(Tables()), ToReconcile(ConfirmError))
    {
      ghost var s := Now();
      steps := Decided(s, [], w, Answer(if confirmed then RpcSuccess else RpcFailed, false));
      ghost var t := Now();
      ghost var more;
      var marked;
      if confirmed {
        marked, more := MarkCompleted(w, h);
      } else {
        marked, more := MarkRow(w, ToReconcile(ConfirmError));
      }
      Chain(s, steps, t, more, Now());
      steps := steps + more;
    }

    /** confirmSettlement and what follows it. */
    method Confirm(w: Actor, h: Hash, world: World) returns (ghost steps: seq<Step>)
      requires w.Worker? && PcOf(Now(), w) == Polling(h) && db.row.Some?
      modifies this
      ensures Runs(old(Now()), steps, Now()) && lock == old(lock) && tally == old(tally)
      ensures PcOf(Now(), w) == Finished
      ensures Tables() == Polled(old(Tables()), h, world)
    {
      ghost var s := Now();
      steps := Execute(h, world.network);
      ghost var t := Now();
      ghost var more := Conclude(w, h, world.reachable && Succeeded(db, h));
      Chain(s, steps, t, more, Now());
      steps := steps + more;
    }

    /** executeSettlementFlow from markConfirming on. */
    method FinishFlow(w: Actor, world: World) returns (ghost steps: seq<Step>)
      requires w.Worker? && PcOf(Now(), w) == Validating(ToConfirming) && db.row.Some?
      modifies this
      ensures Runs(old(Now()), steps, Now()) && lock == old(lock) && tally == old(tally)
      ensures PcOf(Now(), w) == Finished
      ensures Tables() == Confirmed(old(Tables()), world)
    {
      ghost var s := Now();
      var marked;
      marked, steps := MarkRow(w, ToConfirming);
      if marked && db.row.value.hash.Some? {
        ghost var t := Now();
        ghost var more := Confirm(w, db.row.value.hash.value, world);
        Chain(s, steps, t, more, Now());
        steps := steps + more;
      }
    }

    /** executeSettlementFlow from the call of submitSettlement on. */
    method SubmitFlow(w: Actor, world: World) returns (ghost steps: seq<Step>)
      requires w.Worker? && PcOf(Now(), w) == Unsubmitted && w !in lock.noticed && db.row.Some?
      modifies this
      ensures Runs(old(Now()), steps, Now()) && lock == old(lock)
      ensures tally == old(tally).(submits := old(tally).submits + 1)
      ensures PcOf(Now(), w) == Finished
      ensures Tables() == Submitted(old(Tables()), world)
    {
      ghost var s := Now();
      var hash, marked;
      var error := ErrorMark(Rows(db, order), world);
      hash, steps := SubmitSettlement(w, world);
      ghost var t := Now();
      ghost var more;
      marked, more := MarkRow(w, if hash.Some? then ToSubmitted(hash.value) else error);
      Chain(s, steps, t, more, Now());
      steps := steps + more;
      if hash.Some? && marked {
        t := Now();
        more := FinishFlow(w, world);
        Chain(s, steps, t, more, Now());
        steps := steps + more;
      }
    }

    method ExecuteSettlementFlow(w: Actor, world: World) returns (ghost steps: seq<Step>)
      requires w.Worker? && PcOf(Now(), w).InFlow? && db.row.Some?
      modifies this
      ensures Runs(old(Now()), steps, Now()) && lock == old(lock)
      ensures tally == if old(db).row.value.hash.None? && w !in old(lock).noticed
                       then old(tally).(submits := old(tally).submits + 1) else old(tally)
      ensures PcOf(Now(), w) == Finished
      ensures Tables() == Flowed(old(Tables()), w !in old(lock).noticed, world)
    {
      ghost var s := Now();
      var row := db.row.value;
      steps := Decided(s, [], w, Proceed);
      ghost var t, more := Now(), [];
      if row.hash.None? {
        if w in lock.noticed {
          steps := Decided(s, steps, w, Proceed);
          return;
        }
        more := SubmitFlow(w, world);
      } else if row.status == S.Submitted {
        more := FinishFlow(w, world);
      } else if row.status == S.Confirming {
        more := Confirm(w, row.hash.value, world);
      } else {
        return;
      }
      Chain(s, steps, t, more, Now());
      steps := steps + more;
    }

    method FlowUnlessStopped(w: Actor, stopAtSubmitting: bool, world: World) returns (ghost steps: seq<Step>)
      requires w.Worker? && PcOf(Now(), w).InFlow? && db.row.Some? && w !in lock.noticed
      modifies this
      ensures Runs(old(Now()), steps, Now()) && lock == old(lock)
      ensures old(tally).submits <= tally.submits <= old(tally).submits + 1
      ensures PcOf(Now(), w) == Finished
      ensures Tables() == if stopAtSubmitting then old(Tables()) else Flowed(old(Tables()), true, world)
    {
      if stopAtSubmitting {
        steps := Decided(Now(), [], w, StopAtSubmitting);
      } else {
        steps := ExecuteSettlementFlow(w, world);
      }
    }

    /** processSingleOrder inside the lock. */
    method ProcessLocked(w: Actor, stopAtSubmitting: bool, world: World) returns (ghost steps: seq<Step>)
      requires w.Worker? && PcOf(Now(), w) == Holding && db.row.Some? && w !in lock.noticed
      modifies this
      ensures Runs(old(Now()), steps, Now()) && lock == old(lock)
      ensures old(tally).submits <= tally.submits <= old(tally).submits + 1
      ensures PcOf(Now(), w) == Finished
      ensures Tables() == Processed(old(Tables()), stopAtSubmitting, world)
    {
      ghost var s := Now();
      var current := db.row.value.status;
      steps := Decided(s, [], w, Proceed);
      ghost var t, more := Now(), [];
      if current == S.Pending {
        var marked;
        marked, more := MarkSubmitting(w);
        Chain(s, steps, t, more, Now());
        steps := steps + more;
        t := Now();
      } else if current != S.Submitting && current != S.Submitted && current != S.Confirming {
        return;
      }
      more := FlowUnlessStopped(w, stopAtSubmitting, world);
      Chain(s, steps, t, more, Now());
      steps := steps + more;
    }

    /** createSettlementForOrder: an existing settlement is returned, a new one is PENDING. */
    method CreateSettlementForOrder() returns (refused: Option<CreateError>, ghost steps: seq<Step>)
      modifies this
      ensures Runs(old(Now()), steps, Now()) && lock == old(lock) && pcs == old(pcs) && tally == old(tally)
      ensures refused == CreateRefused(old(Tables()), known, hasWallet)
      ensures Tables() == if refused.None? then Opened(old(Tables())) else old(Tables())
    {
      steps := [];
      if !known {
        return Some(OrderNotFound), steps;
      }
      if db.row.Some? {
        return None, steps;
      }
      if order != O.SettlementPending {
        return Some(InvalidOrderState), steps;
      }
      if LiveRefund(db) {
        return Some(ActiveRefund), steps;
      }
      if !hasWallet {
        return Some(NoWallet), steps;
      }
      Extend(Now(), [], Now(), Happen(CreateRow));
      steps := [] + [Happen(CreateRow)];
      db := db.(row := Some(Row(S.Pending, None)));
      refused := None;
    }

    /** The part of processSingleOrder from the lock on. */
    method ProcessCreated(w: Actor, stopAtSubmitting: bool, world: World)
      returns (locked: bool, ghost steps: seq<Step>)
      requires w.Worker? && PcOf(Now(), w) == Idle && db.row.Some?
      modifies this
      ensures Runs(old(Now()), steps, Now())
      ensures locked <==> old(lock).holder == None
      ensures lock == if locked then Lock(None, old(lock).noticed - {w}) else old(lock)
      ensures PcOf(Now(), w) == Idle
      ensures old(tally).submits <= tally.submits <= old(tally).submits + 1
      ensures Tables() == if locked then Processed(old(Tables()), stopAtSubmitting, world) else old(Tables())
    {
      ghost var s := Now();
      steps := [];
      locked := lock.holder == None;
      if locked {
        ghost var before := Now();
        lock := Lock(Some(w), lock.noticed - {w});
        steps := Did(s, steps, before, w, Acquire);
        ghost var t := Now();
        ghost var more := ProcessLocked(w, stopAtSubmitting, world);
        Chain(s, steps, t, more, Now());
        steps := steps + more;
        before := Now();
        lock := lock.(holder := None);
        steps := Did(s, steps, before, w, Finish);
      }
    }

    /**
     processSingleOrder: creates the settlement if there is none, takes the lock, works, gives it back. It calls
     submitSettlement at most once.
     */
    method ProcessSingleOrder(w: Actor, stopAtSubmitting: bool, world: World)
      returns (locked: Result<bool, CreateError>, ghost steps: seq<Step>)
      requires w.Worker? && PcOf(Now(), w) == Idle
      modifies this
      ensures Runs(old(Now()), steps, Now())
      ensures PcOf(Now(), w) == Idle
      ensures old(tally).submits <= tally.submits <= old(tally).submits + 1
      ensures match CreateRefused(old(Tables()), known, hasWallet)
              case Some(e) => locked == Err(e) && Tables() == old(Tables()) && lock == old(lock)
              case None =>
                var r := Opened(old(Tables()));
                && locked == Ok(old(lock).holder == None)
                && lock == (if locked.value then Lock(None, old(lock).noticed - {w}) else old(lock))
                && Tables() == if locked.value then Processed(r, stopAtSubmitting, world) else r
    {
      ghost var s := Now();
      var refused;
      refused, steps := CreateSettlementForOrder();
      if refused.Some? {
        return Err(refused.value), steps;
      }
      ghost var t := Now();
      var got;
      ghost var more;
      got, more := ProcessCreated(w, stopAtSubmitting, world);
      Chain(s, steps, t, more, Now());
      return Ok(got), steps + more;
    }

    /** The catch block of the settlement sweep: it fails a row that is still PENDING or SUBMITTING. */
    method HandleSweepError(d: Actor) returns (ghost steps: seq<Step>)
      requires d.Daemon? && PcOf(Now(), d) == Idle
      modifies this
      ensures Runs(old(Now()), steps, Now()) && lock == old(lock) && tally == old(tally) && order == old(order)
      ensures db == if old(db).row.Some? && old(db).row.value.status in {S.Pending, S.Submitting}
                    then old(db).(row := Some(Row(S.Failed, old(db).row.value.hash))) else old(db)
    {
      steps := [];
      if db.row.Some? && HandlerMayFail(db.row.value.status) {
        ghost var s := Now();
        steps := Decided(s, [], d, HandlerSweep);
        ghost var t := Now();
        var marked;
        ghost var more;
        marked, more := MarkRow(d, ToFailed(SweepError));
        Chain(s, steps, t, more, Now());
        steps := steps + more;
      }
    }

    /** The daemon reads the row and, if there is a hash, asks about it. */
    method Sweep(d: Actor, answer: RpcAnswer, aged: bool) returns (m: Option<Mark>, ghost steps: seq<Step>)
      requires d.Daemon? && PcOf(Now(), d) == Idle && db.row.Some?
      requires answer.RpcSuccess? && db.row.value.hash.Some? ==> Succeeded(db, db.row.value.hash.value)
      modifies this`pcs
      ensures Runs(old(Now()), steps, Now())
      ensures var target := Verdict(db.row.value.hash.Some?, answer, aged);
              if target.None? then m.None? else m.Some? && Target(m.value) == target.value
      ensures m.Some? ==> m.value.ToCompleted? || ByDaemonMark(m.value)
      ensures PcOf(Now(), d) == if m.Some? then Validating(m.value) else Finished
    {
      var row := db.row.value;
      steps := Decided(Now(), [], d, DaemonSweep(aged));
      if row.hash.None? {
        return Some(if aged then ToFailed(NoHash) else ToReconcile(NoHash)), steps;
      }
      steps := Decided(old(Now()), steps, d, Answer(answer, aged));
      if answer.RpcSuccess? {
        m := Some(ToCompleted(row.hash.value));
      } else if answer.RpcFailed? {
        m := Some(ToFailed(Reported(row.hash.value)));
      } else if answer.RpcNotFound? && aged {
        m := Some(ToFailed(Forgotten(row.hash.value)));
      } else {
        m := None;
      }
    }

    method ApplyVerdict(d: Actor, target: S.Status, m: Mark) returns (marked: bool, ghost steps: seq<Step>)
      requires PcOf(Now(), d) == Validating(m) && db.row.Some? && target == Target(m)
      requires m.ToCompleted? || ByDaemonMark(m)
      modifies this
      ensures Runs(old(Now()), steps, Now()) && lock == old(lock) && tally == old(tally)
      ensures PcOf(Now(), d) == Finished
      ensures marked <==> May(old(Tables()), target)
      ensures Tables() == Reconciled(old(Tables()), Some(target))
    {
      if m.ToCompleted? {
        marked, steps := MarkCompleted(d, m.h);
      } else if m.ToFailed? {
        marked, steps := FailAndRelease(d, m.origin);
      } else {
        marked, steps := MarkRow(d, m);
      }
    }

    /** reconcileSingleSettlement; it takes no lock on the settlement. */
    method ReconcileSingleSettlement(d: Actor, answer: RpcAnswer, aged: bool)
      returns (marked: bool, ghost steps: seq<Step>)
      requires d.Daemon? && PcOf(Now(), d) == Idle && db.row.Some?
      requires answer.RpcSuccess? && db.row.value.hash.Some? ==> Succeeded(db, db.row.value.hash.value)
      modifies this
      ensures Runs(old(Now()), steps, Now()) && lock == old(lock) && tally == old(tally)
      ensures PcOf(Now(), d) == Finished
      ensures var target := Verdict(old(db).row.value.hash.Some?, answer, aged);
              && (marked <==> target.Some? && May(old(Tables()), target.value))
              && Tables() == Reconciled(old(Tables()), target)
    {
      ghost var s := Now();
      var m;
      m, steps := Sweep(d, answer, aged);
      marked := false;
      if m.Some? {
        ghost var t := Now();
        ghost var more;
        marked, more := ApplyVerdict(d, Target(m.value), m.value);
        Chain(s, steps, t, more, Now());
        steps := steps + more;
      }
    }
  }
}
