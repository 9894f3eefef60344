/** src/stellar/soroban/confirmation.service.ts: status mapping and bounded polling. */
module Confirmation {
  import opened Wrappers

  /** What one getTransaction call of the RPC server yields. */
  datatype Rpc = Success(ledger: nat) | Failed | NotFound | Other | Throws

  datatype TxStatus = SuccessStatus(ledger: nat) | FailedStatus(byRpcError: bool) | NotFoundStatus | PendingStatus

  datatype Outcome = Confirmed(ledger: nat) | Rejected(byRpcError: bool) | TimedOut

  /** An exception of the client is reported as FAILED. */
  function GetTransactionStatus(answer: Rpc): TxStatus {
    match answer
    case Success(ledger) => SuccessStatus(ledger)
    case Failed => FailedStatus(false)
    case NotFound => NotFoundStatus
    case Other => PendingStatus
    case Throws => FailedStatus(true)
  }

  /** An answer that ends the polling. */
  predicate Decisive(answer: Rpc) {
    answer.Success? || answer.Failed? || answer.Throws?
  }

  /** `k` is the first attempt with a decisive answer. */
  ghost predicate FirstDecisive(rpc: nat -> Rpc, k: nat) {
    1 <= k && Decisive(rpc(k)) && forall j: nat :: 1 <= j < k ==> !Decisive(rpc(j))
  }

  /** The outcome follows the first decisive answer among the attempts 1 .. max, and is a time-out if there is none. */
  ghost predicate IsOutcome(rpc: nat -> Rpc, max: int, r: Outcome) {
    && (r.TimedOut? <==> forall k: nat :: 1 <= k <= max ==> !Decisive(rpc(k)))
    && (!r.TimedOut? ==> exists k: nat :: k <= max && FirstDecisive(rpc, k) && r == Verdict(rpc(k)))
  }

  /**
   `rpc(k)` is what the server says at the k-th attempt; the status call never throws, so neither does this. No number
   of attempts, or none at all, means ten.
   */
  method ConfirmTransaction(rpc: nat -> Rpc, maxAttempts: Option<int>) returns (r: Outcome)
    ensures maxAttempts == None || maxAttempts == Some(0) ==> IsOutcome(rpc, 10, r)
    ensures maxAttempts.Some? && maxAttempts.value != 0 ==> IsOutcome(rpc, maxAttempts.value, r)
  {
    var max: int := if maxAttempts.Some? && maxAttempts.value != 0 then maxAttempts.value else 10;
    var attempt: nat := 1;
    while attempt <= max
      invariant 1 <= attempt
      invariant forall j: nat :: 1 <= j < attempt ==> !Decisive(rpc(j))
    {
      var status := GetTransactionStatus(rpc(attempt));
      if status.SuccessStatus? {
        assert FirstDecisive(rpc, attempt);
        return Confirmed(status.ledger);
      }
      if status.FailedStatus? {
        assert FirstDecisive(rpc, attempt);
        return Rejected(status.byRpcError);
      }
      attempt := attempt + 1;
    }
    return TimedOut;
  }

  function Verdict(answer: Rpc): Outcome {
    match answer
    case Success(ledger) => Confirmed(ledger)
    case Failed => Rejected(false)
    case Throws => Rejected(true)
    case NotFound => TimedOut
    case Other => TimedOut
  }

  /** What is true of a transaction on the chain: the attempt from which it is included, and whether it succeeded. */
  datatype Fate = Fate(included: nat, ok: bool, ledger: nat)

  /** A server that tells the truth about `fate` when it is reachable. */
  ghost predicate Honest(rpc: nat -> Rpc, fate: Fate) {
    forall k: nat :: 1 <= k ==>
                       || rpc(k) == Throws
                       || (k < fate.included && !Decisive(rpc(k)))
                       || (k >= fate.included && rpc(k) == if fate.ok then Success(fate.ledger) else Failed)
  }

  /** The server cannot be reached at one of the attempts 1 .. k. */
  predicate OutageBy(rpc: nat -> Rpc, k: nat) {
    exists j :: 1 <= j <= k && rpc(j) == Throws
  }

  function Max(a: nat, b: nat): nat {
    if a < b then b else a
  }

  /**
   Asking an honest server about a transaction that is on the chain in time: the outcome is the chain's exactly when
   no attempt up to the inclusion failed to reach the server. Otherwise it is a failure, although the transaction may
   have succeeded. A confirmation is always true.
   */
  lemma HonestOutcome(rpc: nat -> Rpc, max: int, fate: Fate, r: Outcome)
    requires Honest(rpc, fate) && 1 <= max && IsOutcome(rpc, max, r)
    ensures r.Confirmed? ==> fate.ok && r.ledger == fate.ledger
    ensures r == Rejected(false) ==> !fate.ok
    ensures fate.included <= max ==>
              r == if OutageBy(rpc, Max(1, fate.included)) then Rejected(true)
                   else if fate.ok then Confirmed(fate.ledger) else Rejected(false)
    ensures r.TimedOut? ==> fate.included > max
  {
    if fate.included <= max {
      assert Decisive(rpc(Max(1, fate.included)));
    }
  }
}
