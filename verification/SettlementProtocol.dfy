/**
 The settlement of one order, seen as a database row that several processes read and write
 without a common lock: settlement workers, the reconciliation daemon, the error handler of the
 settlement sweep and the refund service. Every database read, every database write, every call
 to the policy engine and every call to the network is a step of its own, so a run may interleave
 them in any order.

 A `mark*` call of the settlement service is two steps: it reads the row and validates the
 transition (`Validating`), then it updates the row by id (`Write`). Only `markSubmitting` guards
 its update by the status it read (`Claim`). A createRefund call is two steps: it finds that no settlement is
 active (`CheckRefund`), then it inserts and commits (`InsertRefund`); it locks the order row, not the settlement.

 `Approve` is the moment at which the policy engine looks for refunds. Its other checks read at other moments and
 only forbid; leaving them out of this step adds runs and takes none away.
 */
module SettlementProtocol {
  import opened Wrappers
  import S = SettlementStates
  import R = RefundStates
  import V = ReservationStates

  type Hash = nat
  type RefundId = nat

  /** What the network knows of a broadcast transaction; final answers never change. */
  datatype ChainStatus = Unseen | Success | Failure

  /** What `getTransactionStatus` answers. An RPC exception is answered as `RpcFailed`. */
  datatype RpcAnswer = RpcSuccess | RpcFailed | RpcNotFound | RpcPending

  datatype Row = Row(status: S.Status, hash: Option<Hash>)

  /** Why a settlement is failed or handed to reconciliation. */
  datatype Origin =
    | SubmitError
    | ConfirmError
    | NoHash                             // a reconciliation sweep finds no hash
    | Reported(h: Hash)                  // the RPC server answers FAILED
    | Forgotten(h: Hash)                 // it answers NOT_FOUND, and the row is old
    | SweepError                         // the error handler of the settlement sweep

  predicate ByDaemon(origin: Origin) {
    origin.NoHash? || origin.Reported? || origin.Forgotten?
  }

  /** The `mark*` calls other than `markSubmitting`. */
  datatype Mark =
    | ToSubmitted(h: Hash)
    | ToConfirming
    | ToCompleted(h: Hash)
    | ToFailed(origin: Origin)
    | ToReconcile(origin: Origin)

  function Target(m: Mark): S.Status {
    match m
    case ToSubmitted(_) => S.Submitted
    case ToConfirming => S.Confirming
    case ToCompleted(_) => S.Completed
    case ToFailed(_) => S.Failed
    case ToReconcile(_) => S.RequiresReconciliation
  }

  /** Where a process stands. */
  datatype Pc =
    | Idle
    | Holding                            // settlement lock acquired, row not re-read yet
    | Marking                            // the re-read row was PENDING: markSubmitting called
    | Claiming(seen: S.Status)           // markSubmitting validated `seen`; guarded update pending
    | ClaimMissed                        // the guarded update matched no row
    | InFlow(entry: S.Status)            // executeSettlementFlow entered with a row in status `entry`
    | Unsubmitted                        // the row read by executeSettlementFlow carries no hash
    | Calling                            // inside submitSettlement, policy not consulted yet
    | Signed                             // policy approved and transaction signed, not broadcast yet
    | Polling(h: Hash)                   // asking the chain about `h`
    | Validating(m: Mark)                // mark* called, row not read yet
    | Writing(m: Mark, seen: S.Status)   // mark* validated `seen`; update by id pending
    | Consuming                          // COMPLETED written, consumeReservation pending
    | Releasing                          // FAILED written by the daemon, releaseReservation pending
    | Finished

  /** Workers run under the settlement lock; daemon sweeps and sweep error handlers do not. */
  datatype Actor = Worker(w: nat) | Daemon(d: nat)

  datatype Db = Db(
    row: Option<Row>,
    refunds: map<RefundId, R.Status>,    // refunds of the order
    executors: map<nat, RefundId>,       // executeRefund calls waiting for the payment provider
    creators: set<nat>,                  // createRefund calls that have checked the settlement, not inserted yet
    reservation: V.Status,
    chain: map<Hash, ChainStatus>,       // every transaction broadcast for this settlement
    approved: bool                       // the policy engine has approved this settlement
  )

  datatype Lock = Lock(
    holder: Option<Actor>,               // the worker whose token the settlement lock stores
    noticed: set<Actor>                  // workers whose lock handle has been marked lost
  )

  datatype Tally = Tally(
    submits: nat,                        // calls of submitSettlement so far
    crashes: nat,                        // lock holders that died or threw between that call and their next write
    losses: nat                          // leases that ran out under a live worker
  )

  datatype State = State(db: Db, pcs: map<Actor, Pc>, lock: Lock, tally: Tally)

  const Initial: State :=
    State(Db(None, map[], map[], {}, V.Reserved, map[], false), map[], Lock(None, {}), Tally(0, 0, 0))

  function PcOf(s: State, a: Actor): Pc {
    if a in s.pcs then s.pcs[a] else Idle
  }

  // ----- steps that only read or decide

  /** What a process is told at a decision point. */
  datatype Input =
    | Proceed
    | StopAtSubmitting                          // the worker's stopAtSubmitting option
    | Refused(permanent: bool)                  // submitSettlement returns an error
    | Answer(answer: RpcAnswer, aged: bool)     // the chain's answer, and whether the row is older than the limit
    | DaemonSweep(aged: bool)                   // reconcileSingleSettlement starts on the row
    | HandlerSweep                              // the sweep's catch block starts on the row

  /** processSingleOrder after it re-read the row under the lock. */
  function AfterReRead(status: S.Status): Pc {
    match status
    case Pending => Marking
    case Submitting => InFlow(status)
    case Submitted => InFlow(status)
    case Confirming => InFlow(status)
    case _ => Finished
  }

  /** executeSettlementFlow after its own read of the row. */
  function AfterFlowRead(row: Row): Pc {
    match row.hash
    case None => Unsubmitted
    case Some(h) =>
      if row.status == S.Submitted then Validating(ToConfirming)
      else if row.status == S.Confirming then Polling(h)
      else Finished
  }

  /** reconcileSingleSettlement after it read the row. */
  function AfterDaemonRead(row: Row, aged: bool): Pc {
    match row.hash
    case None => Validating(if aged then ToFailed(NoHash) else ToReconcile(NoHash))
    case Some(h) => Polling(h)
  }

  function AfterDaemonPoll(h: Hash, answer: RpcAnswer, aged: bool): Pc {
    match answer
    case RpcSuccess => Validating(ToCompleted(h))
    case RpcFailed => Validating(ToFailed(Reported(h)))
    case RpcNotFound => if aged then Validating(ToFailed(Forgotten(h))) else Finished
    case RpcPending => Finished
  }

  /** SettlementStateMachineCanTransition(status, FAILED) of the settlement worker. */
  predicate HandlerMayFail(status: S.Status) {
    status == S.Failed || S.Early(status)
  }

  predicate Succeeded(db: Db, h: Hash) {
    h in db.chain && db.chain[h] == Success
  }

  /** Where a read or a decision takes process `a`; None when the input does not fit its place. */
  function LocalNext(db: Db, a: Actor, noticed: bool, pc: Pc, input: Input): Option<Pc> {
    if db.row.None? then None
    else
      var row := db.row.value;
      match pc
      case Idle =>
        if a.Daemon? && input.DaemonSweep? then Some(AfterDaemonRead(row, input.aged))
        else if a.Daemon? && input.HandlerSweep? && HandlerMayFail(row.status) then
          Some(Validating(ToFailed(SweepError)))
        else None
      case Holding => Some(AfterReRead(row.status))
      case Marking => Some(if S.CanTransition(row.status, S.Submitting) then Claiming(row.status) else Finished)
      case ClaimMissed => Some(if row.status == S.Submitting then InFlow(S.Submitting) else Finished)
      case InFlow(_) => Some(if input.StopAtSubmitting? then Finished else AfterFlowRead(row))
      case Unsubmitted => if noticed then Some(Finished) else None
      case Calling => if input.Refused? then Some(Validating(RefusalMark(input.permanent))) else None
      case Signed => if input.Refused? then Some(Validating(RefusalMark(input.permanent))) else None
      case Polling(h) =>
        if !input.Answer? || (input.answer.RpcSuccess? && !Succeeded(db, h)) then None
        else if a.Daemon? then Some(AfterDaemonPoll(h, input.answer, input.aged))
        else Some(Validating(if input.answer.RpcSuccess? then ToCompleted(h) else ToReconcile(ConfirmError)))
      case Validating(m) => Some(if S.CanTransition(row.status, Target(m)) then Writing(m, row.status) else Finished)
      case _ => None
  }

  function RefusalMark(permanent: bool): Mark {
    if permanent then ToFailed(SubmitError) else ToReconcile(SubmitError)
  }

  // ----- steps that act on the database, the network or the lock

  datatype Effect =
    | Acquire
    | Claim
    | CallSubmit
    | Approve                                   // the policy engine finds no live refund
    | Broadcast(h: Hash)
    | BroadcastUnnoticed(h: Hash)               // the network has it, but the RPC call fails
    | Write
    | Consume
    | Release
    | Finish
    | Throw                                     // an exception that is not part of the flow, such as a database error
    | Crash

  predicate LiveRefund(db: Db) {
    exists r :: r in db.refunds && R.Live(db.refunds[r])
  }

  predicate EffectEnabled(db: Db, lock: Lock, a: Actor, pc: Pc, e: Effect) {
    match e
    case Acquire => a.Worker? && pc == Idle && db.row.Some? && lock.holder == None
    case Claim => pc.Claiming? && db.row.Some?
    case CallSubmit => pc == Unsubmitted && a !in lock.noticed
    case Approve => pc == Calling && db.row.Some? && !LiveRefund(db)
    case Broadcast(_) => pc == Signed && a !in lock.noticed
    case BroadcastUnnoticed(_) => pc == Signed && a !in lock.noticed
    case Write => pc.Writing? && db.row.Some?
    case Consume => pc == Consuming
    case Release => pc == Releasing
    case Finish => pc == Finished
    case Throw => pc != Idle && pc != Finished
    case Crash => pc != Idle
  }

  /** Only markSubmitted touches the hash. */
  function Written(row: Row, m: Mark): Row {
    Row(Target(m), if m.ToSubmitted? then Some(m.h) else row.hash)
  }

  /** The network has transaction `h`. */
  function SentTo(db: Db, h: Hash): Db {
    if h in db.chain then db else db.(chain := db.chain[h := Unseen])
  }

  function DbAfter(db: Db, lock: Lock, a: Actor, pc: Pc, e: Effect): Db
    requires EffectEnabled(db, lock, a, pc, e)
  {
    match e
    case Claim =>
      if db.row.value.status == pc.seen then db.(row := Some(db.row.value.(status := S.Submitting))) else db
    case Approve => db.(approved := true)
    case Broadcast(h) => SentTo(db, h)
    case BroadcastUnnoticed(h) => SentTo(db, h)
    case Write => db.(row := Some(Written(db.row.value, pc.m)))
    case Consume => if V.Active(db.reservation) then db.(reservation := V.Consumed) else db
    case Release => if V.Active(db.reservation) then db.(reservation := V.CancelledReleased) else db
    case _ => db
  }

  /** What a process does after its mark has updated the row to `row`, which the update returns. */
  function AfterWrite(m: Mark, row: Row): Pc {
    match m
    case ToSubmitted(_) => Validating(ToConfirming)
    case ToConfirming => if row.hash.Some? then Polling(row.hash.value) else Finished
    case ToCompleted(_) => Consuming
    case ToFailed(origin) => if ByDaemon(origin) then Releasing else Finished
    case ToReconcile(_) => Finished
  }

  function PcAfter(db: Db, lock: Lock, a: Actor, pc: Pc, e: Effect): Pc
    requires EffectEnabled(db, lock, a, pc, e)
  {
    match e
    case Acquire => Holding
    case Claim => if db.row.value.status == pc.seen then InFlow(S.Submitting) else ClaimMissed
    case CallSubmit => Calling
    case Approve => Signed
    case Broadcast(h) => Validating(ToSubmitted(h))
    case BroadcastUnnoticed(_) => Validating(RefusalMark(false))
    case Write => AfterWrite(pc.m, Written(db.row.value, pc.m))
    case Consume => Finished
    case Release => Finished
    case Finish => Idle
    case Throw => Finished
    case Crash => Idle
  }

  /** Release deletes the lock only through a handle that still counts as owned. */
  function LockAfter(lock: Lock, a: Actor, e: Effect): Lock {
    match e
    case Acquire => Lock(Some(a), lock.noticed - {a})
    case Finish => if lock.holder == Some(a) && a !in lock.noticed then lock.(holder := None) else lock
    case _ => lock
  }

  /** The worker has called submitSettlement and has not yet written the outcome to the row. */
  predicate InWindow(pc: Pc) {
    match pc
    case Calling => true
    case Signed => true
    case Validating(m) => OutcomeOfSubmit(m)
    case Writing(m, _) => OutcomeOfSubmit(m)
    case _ => false
  }

  predicate OutcomeOfSubmit(m: Mark) {
    m.ToSubmitted? || m == ToFailed(SubmitError) || m == ToReconcile(SubmitError)
  }

  function TallyAfter(tally: Tally, lock: Lock, a: Actor, pc: Pc, e: Effect): Tally {
    match e
    case CallSubmit => tally.(submits := tally.submits + 1)
    case Throw => if lock.holder == Some(a) && InWindow(pc) then tally.(crashes := tally.crashes + 1) else tally
    case Crash => if lock.holder == Some(a) && InWindow(pc) then tally.(crashes := tally.crashes + 1) else tally
    case _ => tally
  }

  // ----- steps of everyone else

  datatype Event =
    | CreateRow                                   // createSettlementForOrder or the payment reconciliation
    | Include(h: Hash, ok: bool)                  // the network executes a broadcast transaction
    | ConfirmReservation
    | ReleaseReservation                          // failed payment, expiry or refund
    | CheckRefund(x: nat)                         // createRefund finds no active or completed settlement
    | InsertRefund(x: nat, r: RefundId)           // createRefund inserts the refund and commits
    | AbandonCreate(x: nat)
    | ClaimRefund(x: nat, r: RefundId)            // executeRefund's guarded move to PROCESSING
    | SettleRefund(x: nat, outcome: R.Status)     // executeRefund's update after the provider answered
    | AbandonRefund(x: nat)

  /** createRefund refuses while there is an active or completed settlement. */
  predicate SettlementBlocks(db: Db) {
    db.row.Some? && S.BlocksRefund(db.row.value.status)
  }

  predicate EventEnabled(db: Db, ev: Event) {
    match ev
    case CreateRow => db.row == None
    case Include(h, _) => h in db.chain && db.chain[h] == Unseen
    case ConfirmReservation => db.reservation == V.Reserved
    case ReleaseReservation => V.Active(db.reservation)
    case CheckRefund(x) => x !in db.creators && !SettlementBlocks(db)
    case InsertRefund(x, r) => x in db.creators && r !in db.refunds
    case AbandonCreate(x) => x in db.creators
    case ClaimRefund(x, r) =>
      x !in db.executors && r in db.refunds && !R.IsTerminal(db.refunds[r])
    case SettleRefund(x, outcome) =>
      && x in db.executors && db.executors[x] in db.refunds
      && R.CanTransition(R.Processing, outcome)
    case AbandonRefund(x) => x in db.executors
  }

  function DbOnEvent(db: Db, ev: Event): Db
    requires EventEnabled(db, ev)
  {
    match ev
    case CreateRow => db.(row := Some(Row(S.Pending, None)))
    case Include(h, ok) => db.(chain := db.chain[h := if ok then Success else Failure])
    case ConfirmReservation => db.(reservation := V.Confirmed)
    case ReleaseReservation => db.(reservation := V.CancelledReleased)
    case CheckRefund(x) => db.(creators := db.creators + {x})
    case InsertRefund(x, r) => db.(refunds := db.refunds[r := R.Pending], creators := db.creators - {x})
    case AbandonCreate(x) => db.(creators := db.creators - {x})
    case ClaimRefund(x, r) => db.(refunds := db.refunds[r := R.Processing], executors := db.executors[x := r])
    case SettleRefund(x, outcome) =>
      db.(refunds := db.refunds[db.executors[x] := outcome], executors := db.executors - {x})
    case AbandonRefund(x) => db.(executors := db.executors - {x})
  }

  // ----- the protocol

  datatype Step =
    | Local(a: Actor, input: Input)
    | Do(a: Actor, e: Effect)
    | Happen(ev: Event)
    | Expire                                      // the lock's lease runs out in Redis
    | Notice(a: Actor)                            // a failed renewal marks the handle lost

  predicate Enabled(s: State, step: Step) {
    match step
    case Local(a, input) => LocalNext(s.db, a, a in s.lock.noticed, PcOf(s, a), input).Some?
    case Do(a, e) => EffectEnabled(s.db, s.lock, a, PcOf(s, a), e)
    case Happen(ev) => EventEnabled(s.db, ev)
    case Expire => s.lock.holder.Some?
    case Notice(a) => a.Worker?
  }

  function Exec(s: State, step: Step): State
    requires Enabled(s, step)
  {
    match step
    case Local(a, input) =>
      s.(pcs := s.pcs[a := LocalNext(s.db, a, a in s.lock.noticed, PcOf(s, a), input).value])
    case Do(a, e) =>
      var pc := PcOf(s, a);
      State(DbAfter(s.db, s.lock, a, pc, e),
            s.pcs[a := PcAfter(s.db, s.lock, a, pc, e)],
            LockAfter(s.lock, a, e),
            TallyAfter(s.tally, s.lock, a, pc, e))
    case Happen(ev) => s.(db := DbOnEvent(s.db, ev))
    case Expire =>
      var lost := PcOf(s, s.lock.holder.value) != Idle;
      s.(lock := s.lock.(holder := None),
      tally := if lost then s.tally.(losses := s.tally.losses + 1) else s.tally)
    case Notice(a) => s.(lock := s.lock.(noticed := s.lock.noticed + {a}))
  }

  predicate IsRun(s: State, steps: seq<Step>)
    decreases |steps|
  {
    steps == [] || (Enabled(s, steps[0]) && IsRun(Exec(s, steps[0]), steps[1..]))
  }

  function After(s: State, steps: seq<Step>): State
    requires IsRun(s, steps)
    decreases |steps|
  {
    if steps == [] then s else After(Exec(s, steps[0]), steps[1..])
  }

  /** `steps` leads from `s` to `t`. */
  ghost predicate Runs(s: State, steps: seq<Step>, t: State) {
    IsRun(s, steps) && After(s, steps) == t
  }

  lemma {:induction false} Extend(s: State, steps: seq<Step>, t: State, step: Step)
    requires Runs(s, steps, t) && Enabled(t, step)
    ensures Runs(s, steps + [step], Exec(t, step))
    decreases |steps|
  {
    if steps == [] {
      assert steps + [step] == [step];
      assert [step][1..] == [];
      assert Runs(Exec(s, step), [], Exec(s, step));
    } else {
      assert (steps + [step])[1..] == steps[1..] + [step];
      Extend(Exec(s, steps[0]), steps[1..], t, step);
    }
  }

  lemma {:induction false} Chain(s: State, steps: seq<Step>, t: State, steps': seq<Step>, u: State)
    requires Runs(s, steps, t) && Runs(t, steps', u)
    ensures Runs(s, steps + steps', u)
    decreases |steps|
  {
    if steps == [] {
      assert steps + steps' == steps';
    } else {
      assert (steps + steps')[1..] == steps[1..] + steps';
      Chain(Exec(s, steps[0]), steps[1..], t, steps', u);
    }
  }

  /**
   What the caller of an unguarded write has validated still holds: the row or refund that it overwrites still has
   the status that was read, and the settlement beside a new refund still does not block it.
   */
  predicate Fresh(s: State, step: Step)
    requires Enabled(s, step)
  {
    match step
    case Do(a, Write) => s.db.row.value.status == PcOf(s, a).seen
    case Happen(InsertRefund(_, _)) => !SettlementBlocks(s.db)
    case Happen(SettleRefund(x, _)) => s.db.refunds[s.db.executors[x]] == R.Processing
    case _ => true
  }

  predicate FreshRun(s: State, steps: seq<Step>)
    requires IsRun(s, steps)
    decreases |steps|
  {
    steps == [] || (Fresh(s, steps[0]) && FreshRun(Exec(s, steps[0]), steps[1..]))
  }

  // ----- what holds in every run

  /** What a process at `pc` may rely on. */
  predicate PcOk(db: Db, a: Actor, pc: Pc) {
    && (pc != Idle ==> db.row.Some?)
    && (a.Worker? && PastClaim(pc) ==> db.row.value.status != S.Pending)
    && (KnowsHash(pc) ==> db.row.value.hash.Some?)
    && (a.Daemon? ==> DaemonPc(pc))
    && (pc == Signed || StoresHash(pc) ==> db.approved)
    && (pc.Claiming? ==> S.Early(pc.seen))
    && (pc.InFlow? ==> pc.entry == S.Submitting || pc.entry == S.Submitted || pc.entry == S.Confirming)
    && (pc.Writing? ==> S.CanTransition(pc.seen, Target(pc.m)))
  }

  predicate PastClaim(pc: Pc) {
    match pc
    case InFlow(_) => true
    case Unsubmitted => true
    case Calling => true
    case Signed => true
    case Polling(_) => true
    case Validating(_) => true
    case Writing(_, _) => true
    case Consuming => true
    case _ => false
  }

  predicate KnowsHash(pc: Pc) {
    match pc
    case InFlow(entry) => entry != S.Submitting
    case Polling(_) => true
    case Validating(m) => m.ToConfirming? || m.ToCompleted?
    case Writing(m, _) => m.ToConfirming? || m.ToCompleted?
    case _ => false
  }

  predicate StoresHash(pc: Pc) {
    (pc.Validating? || pc.Writing?) && pc.m.ToSubmitted?
  }

  predicate DaemonPc(pc: Pc) {
    match pc
    case Idle => true
    case Polling(_) => true
    case Validating(m) => !m.ToConfirming? && !OutcomeOfSubmit(m)
    case Writing(m, _) => !m.ToConfirming? && !OutcomeOfSubmit(m)
    case Consuming => true
    case Releasing => true
    case Finished => true
    case _ => false
  }

  predicate DbOk(db: Db) {
    && (db.row.Some? && db.row.value.hash.None? ==>
          S.Early(db.row.value.status) || db.row.value.status == S.Failed
          || db.row.value.status == S.RequiresReconciliation)
    && (db.row.Some? && db.row.value.hash.Some? ==> db.approved)
    && (db.approved ==> db.row.Some? && db.row.value.status != S.Pending)
  }

  ghost predicate Coherent(s: State) {
    && DbOk(s.db)
    && (forall a: Actor :: PcOk(s.db, a, PcOf(s, a)))
  }

  /** Nothing a settlement has gained is taken away again. */
  ghost predicate Advances(db: Db, db': Db) {
    && (db.row.Some? ==> db'.row.Some?)
    && (db.row.Some? && db.row.value.status != S.Pending ==> db'.row.value.status != S.Pending)
    && (db.row.Some? && !S.Early(db.row.value.status) ==> !S.Early(db'.row.value.status))
    && (db.row.Some? && db.row.value.hash.Some? ==> db'.row.value.hash.Some?)
    && (db.approved ==> db'.approved)
    && (forall h :: Succeeded(db, h) ==> Succeeded(db', h))
  }

  lemma EffectAdvances(db: Db, lock: Lock, a: Actor, pc: Pc, e: Effect)
    requires DbOk(db) && PcOk(db, a, pc) && EffectEnabled(db, lock, a, pc, e)
    ensures Advances(db, DbAfter(db, lock, a, pc, e))
    ensures DbOk(DbAfter(db, lock, a, pc, e))
    ensures PcOk(DbAfter(db, lock, a, pc, e), a, PcAfter(db, lock, a, pc, e))
  {
  }

  lemma LocalOk(db: Db, a: Actor, noticed: bool, pc: Pc, input: Input)
    requires DbOk(db) && PcOk(db, a, pc) && LocalNext(db, a, noticed, pc, input).Some?
    ensures PcOk(db, a, LocalNext(db, a, noticed, pc, input).value)
  {
  }

  lemma EventAdvances(db: Db, ev: Event)
    requires DbOk(db) && EventEnabled(db, ev)
    ensures Advances(db, DbOnEvent(db, ev)) && DbOk(DbOnEvent(db, ev))
  {
  }

  lemma PcStaysOk(db: Db, db': Db, a: Actor, pc: Pc)
    requires PcOk(db, a, pc) && Advances(db, db')
    ensures PcOk(db', a, pc)
  {
  }

  lemma CoherentStep(s: State, step: Step)
    requires Coherent(s) && Enabled(s, step)
    ensures Coherent(Exec(s, step)) && Advances(s.db, Exec(s, step).db)
  {
    var t := Exec(s, step);
    match step {
      case Local(a, input) => LocalOk(s.db, a, a in s.lock.noticed, PcOf(s, a), input);
      case Do(a, e) => EffectAdvances(s.db, s.lock, a, PcOf(s, a), e);
      case Happen(ev) => EventAdvances(s.db, ev);
      case Expire =>
      case Notice(_) =>
    }
    forall b: Actor
      ensures PcOk(t.db, b, PcOf(t, b))
    {
      PcStaysOk(s.db, t.db, b, PcOf(s, b));
    }
  }

  /**
   Along every run, whatever interleaves: a settlement that has left {PENDING, SUBMITTING} never
   returns there, a stored hash is never cleared, an approval and a chain success are never taken back.
   */
  lemma {:induction false} RunAdvances(s: State, steps: seq<Step>)
    requires Coherent(s) && IsRun(s, steps)
    ensures Coherent(After(s, steps)) && Advances(s.db, After(s, steps).db)
    decreases |steps|
  {
    if steps != [] {
      CoherentStep(s, steps[0]);
      RunAdvances(Exec(s, steps[0]), steps[1..]);
    }
  }
}
