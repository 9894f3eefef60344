/**
 Concrete runs: the submission bound is reached for every number of crashes, the conditions of the exclusion and
 chain theorems cannot be dropped, and FAILED proves nothing about the chain.
 */
module ProtocolWitnesses {
  import opened Wrappers
  import opened SettlementProtocol
  import opened PayoutRefundExclusion
  import opened ChainTruth
  import opened FailedSettlements
  import S = SettlementStates
  import R = RefundStates
  import V = ReservationStates

  const W: Actor := Worker(0)
  const W2: Actor := Worker(1)
  const D: Actor := Daemon(0)

  /** A run from `s` to `t` in which every unguarded update is fresh. */
  ghost predicate Path(s: State, steps: seq<Step>, t: State) {
    Runs(s, steps, t) && FreshRun(s, steps)
  }

  /** Every write but the last is fresh. */
  ghost predicate OneStale(steps: seq<Step>) {
    steps != [] && IsRun(Initial, steps[..|steps| - 1]) && FreshRun(Initial, steps[..|steps| - 1])
  }

  lemma {:induction false} Join(s: State, steps: seq<Step>, t: State, steps': seq<Step>, u: State)
    requires Path(s, steps, t) && Path(t, steps', u)
    ensures Path(s, steps + steps', u)
    decreases |steps|
  {
    if steps == [] {
      assert steps + steps' == steps';
    } else {
      assert (steps + steps')[1..] == steps[1..] + steps';
      Join(Exec(s, steps[0]), steps[1..], t, steps', u);
    }
  }

  lemma Stay(s: State)
    ensures Path(s, [], s)
  {
  }

  lemma Then(s: State, steps: seq<Step>, t: State, step: Step)
    requires Path(s, steps, t) && Enabled(t, step) && Fresh(t, step)
    ensures Path(s, steps + [step], Exec(t, step))
  {
    assert [step][1..] == [];
    Stay(Exec(t, step));
    assert Path(t, [step], Exec(t, step));
    Join(s, steps, t, [step], Exec(t, step));
  }

  // ----- stretches that no other process disturbs

  lemma Claims(s: State, w: Actor) returns (steps: seq<Step>, t: State)
    requires PcOf(s, w) == Holding && s.db.row == Some(Row(S.Pending, None))
    ensures Path(s, steps, t)
    ensures t == s.(db := s.db.(row := Some(Row(S.Submitting, None))), pcs := s.pcs[w := InFlow(S.Submitting)])
  {
    Stay(s);
    Then(s, [], s, Local(w, Proceed));
    var s1 := Exec(s, Local(w, Proceed));
    Then(s, [] + [Local(w, Proceed)], s1, Local(w, Proceed));
    var s2 := Exec(s1, Local(w, Proceed));
    steps := [] + [Local(w, Proceed)] + [Local(w, Proceed)];
    Then(s, steps, s2, Do(w, Claim));
    steps, t := steps + [Do(w, Claim)], Exec(s2, Do(w, Claim));
    assert t.pcs == s.pcs[w := InFlow(S.Submitting)];
  }

  lemma Rejoins(s: State, w: Actor) returns (steps: seq<Step>, t: State)
    requires PcOf(s, w) == Holding && s.db.row == Some(Row(S.Submitting, None))
    ensures Path(s, steps, t)
    ensures t == s.(pcs := s.pcs[w := InFlow(S.Submitting)])
  {
    Stay(s);
    Then(s, [], s, Local(w, Proceed));
    steps, t := [] + [Local(w, Proceed)], Exec(s, Local(w, Proceed));
  }

  /** A worker takes the free lock and comes to the point where it will call submitSettlement. */
  lemma Enter(s: State, w: Actor) returns (steps: seq<Step>, t: State)
    requires w.Worker? && PcOf(s, w) == Idle && s.lock.holder == None
    requires s.db.row == Some(Row(S.Pending, None)) || s.db.row == Some(Row(S.Submitting, None))
    ensures Path(s, steps, t)
    ensures t == State(s.db.(row := Some(Row(S.Submitting, None))), s.pcs[w := Unsubmitted],
                       Lock(Some(w), s.lock.noticed - {w}), s.tally)
  {
    Stay(s);
    Then(s, [], s, Do(w, Acquire));
    var s1 := Exec(s, Do(w, Acquire));
    var more, s2;
    if s.db.row.value.status == S.Pending {
      more, s2 := Claims(s1, w);
    } else {
      more, s2 := Rejoins(s1, w);
    }
    steps := [] + [Do(w, Acquire)];
    Join(s, steps, s1, more, s2);
    Then(s, steps + more, s2, Local(w, Proceed));
    steps, t := steps + more + [Local(w, Proceed)], Exec(s2, Local(w, Proceed));
    assert t.pcs == s.pcs[w := Unsubmitted];
  }

  /** submitSettlement is called and the policy engine approves. */
  lemma Sign(s: State, w: Actor) returns (steps: seq<Step>, t: State)
    requires PcOf(s, w) == Unsubmitted && w !in s.lock.noticed && s.db.row.Some? && !LiveRefund(s.db)
    ensures Path(s, steps, t)
    ensures t == State(s.db.(approved := true), s.pcs[w := Signed], s.lock,
                       s.tally.(submits := s.tally.submits + 1))
  {
    Stay(s);
    Then(s, [], s, Do(w, CallSubmit));
    var s1 := Exec(s, Do(w, CallSubmit));
    Then(s, [] + [Do(w, CallSubmit)], s1, Do(w, Approve));
    steps, t := [] + [Do(w, CallSubmit)] + [Do(w, Approve)], Exec(s1, Do(w, Approve));
    assert t.pcs == s.pcs[w := Signed];
  }

  /** The approved transaction `h` is broadcast as well. */
  lemma Submit(s: State, w: Actor, h: Hash) returns (steps: seq<Step>, t: State)
    requires PcOf(s, w) == Unsubmitted && w !in s.lock.noticed && s.db.row.Some? && !LiveRefund(s.db)
    requires h !in s.db.chain
    ensures Path(s, steps, t)
    ensures t == State(s.db.(chain := s.db.chain[h := Unseen], approved := true),
                       s.pcs[w := Validating(ToSubmitted(h))], s.lock, s.tally.(submits := s.tally.submits + 1))
  {
    var s1;
    steps, s1 := Sign(s, w);
    Then(s, steps, s1, Do(w, Broadcast(h)));
    steps, t := steps + [Do(w, Broadcast(h))], Exec(s1, Do(w, Broadcast(h)));
    assert t.pcs == s.pcs[w := Validating(ToSubmitted(h))];
  }

  /** The same, but the RPC call fails although the network has the transaction. */
  lemma SubmitUnnoticed(s: State, w: Actor, h: Hash) returns (steps: seq<Step>, t: State)
    requires PcOf(s, w) == Unsubmitted && w !in s.lock.noticed && s.db.row.Some? && !LiveRefund(s.db)
    requires h !in s.db.chain
    ensures Path(s, steps, t)
    ensures t == State(s.db.(chain := s.db.chain[h := Unseen], approved := true),
                       s.pcs[w := Validating(ToReconcile(SubmitError))], s.lock,
                       s.tally.(submits := s.tally.submits + 1))
  {
    var s1;
    steps, s1 := Sign(s, w);
    Then(s, steps, s1, Do(w, BroadcastUnnoticed(h)));
    steps, t := steps + [Do(w, BroadcastUnnoticed(h))], Exec(s1, Do(w, BroadcastUnnoticed(h)));
    assert t.pcs == s.pcs[w := Validating(ToReconcile(SubmitError))];
  }

  /** A mark* call whose read and update nothing separates. */
  lemma MarkRow(s: State, a: Actor, m: Mark) returns (steps: seq<Step>, t: State)
    requires PcOf(s, a) == Validating(m) && s.db.row.Some? && S.CanTransition(s.db.row.value.status, Target(m))
    ensures Path(s, steps, t)
    ensures var row := Written(s.db.row.value, m);
            t == s.(db := s.db.(row := Some(row)), pcs := s.pcs[a := AfterWrite(m, row)])
  {
    Stay(s);
    Then(s, [], s, Local(a, Proceed));
    var s1 := Exec(s, Local(a, Proceed));
    steps := [] + [Local(a, Proceed)];
    Then(s, steps, s1, Do(a, Write));
    steps, t := steps + [Do(a, Write)], Exec(s1, Do(a, Write));
    assert t.pcs == s.pcs[a := AfterWrite(m, Written(s.db.row.value, m))];
  }

  /** The order is paid, its settlement row exists. */
  function Opened(): State {
    Initial.(db := Initial.db.(row := Some(Row(S.Pending, None)), reservation := V.Confirmed))
  }

  lemma Open() returns (steps: seq<Step>)
    ensures Path(Initial, steps, Opened())
  {
    Stay(Initial);
    Then(Initial, [], Initial, Happen(CreateRow));
    var s1 := Exec(Initial, Happen(CreateRow));
    Then(Initial, [] + [Happen(CreateRow)], s1, Happen(ConfirmReservation));
    steps := [] + [Happen(CreateRow)] + [Happen(ConfirmReservation)];
  }

  /** Transaction 7 has been broadcast and has succeeded; its worker has not stored the hash yet. */
  function Sent(): State {
    State(Opened().db.(row := Some(Row(S.Submitting, None)), chain := map[7 := Success], approved := true),
          map[W := Validating(ToSubmitted(7))], Lock(Some(W), {}), Tally(1, 0, 0))
  }

  lemma Send() returns (steps: seq<Step>)
    ensures Path(Initial, steps, Sent())
  {
    steps := Open();
    var more, s1 := Enter(Opened(), W);
    Join(Initial, steps, Opened(), more, s1);
    steps := steps + more;
    var more', s2 := Submit(s1, W, 7);
    Join(Initial, steps, s1, more', s2);
    steps := steps + more';
    Then(Initial, steps, s2, Happen(Include(7, true)));
    steps := steps + [Happen(Include(7, true))];
    var t := Exec(s2, Happen(Include(7, true)));
    assert t.pcs == Sent().pcs;
    assert t.db.chain == Sent().db.chain;
  }

  // ----- FAILED does not mean unpaid

  /** The worker is about to store the hash when a daemon sweep fails the row as too old. */
  function Overtaken(refunds: map<RefundId, R.Status>): State {
    State(Sent().db.(row := Some(Row(S.Failed, None)), refunds := refunds),
          map[W := Writing(ToSubmitted(7), S.Submitting), D := Releasing], Lock(Some(W), {}), Tally(1, 0, 0))
  }

  lemma Overtake() returns (steps: seq<Step>)
    ensures Path(Sent(), steps, Overtaken(map[]))
  {
    Stay(Sent());
    Then(Sent(), [], Sent(), Local(W, Proceed));
    var s1 := Exec(Sent(), Local(W, Proceed));
    steps := [] + [Local(W, Proceed)];
    Then(Sent(), steps, s1, Local(D, DaemonSweep(true)));
    var s2 := Exec(s1, Local(D, DaemonSweep(true)));
    steps := steps + [Local(D, DaemonSweep(true))];
    var more, s3 := MarkRow(s2, D, ToFailed(NoHash));
    Join(Sent(), steps, s2, more, s3);
    steps := steps + more;
    assert s3.pcs == Overtaken(map[]).pcs;
  }

  lemma RefundOvertaken() returns (steps: seq<Step>)
    ensures Path(Overtaken(map[]), steps, Overtaken(map[0 := R.Succeeded]))
  {
    var s := Overtaken(map[]);
    Stay(s);
    Then(s, [], s, Happen(CheckRefund(0)));
    var s1 := Exec(s, Happen(CheckRefund(0)));
    steps := [] + [Happen(CheckRefund(0))];
    Then(s, steps, s1, Happen(InsertRefund(0, 0)));
    var s2 := Exec(s1, Happen(InsertRefund(0, 0)));
    steps := steps + [Happen(InsertRefund(0, 0))];
    assert s2 == s.(db := s.db.(refunds := map[0 := R.Pending]));
    var more := Refund(s2);
    Join(s, steps, s2, more, Overtaken(map[0 := R.Succeeded]));
    steps := steps + more;
  }

  /** A pending refund is executed. */
  lemma Refund(s: State) returns (steps: seq<Step>)
    requires s.db.refunds == map[0 := R.Pending] && s.db.executors == map[]
    ensures Path(s, steps, s.(db := s.db.(refunds := map[0 := R.Succeeded])))
  {
    Stay(s);
    Then(s, [], s, Happen(ClaimRefund(0, 0)));
    var s2 := Exec(s, Happen(ClaimRefund(0, 0)));
    steps := [] + [Happen(ClaimRefund(0, 0))];
    Then(s, steps, s2, Happen(SettleRefund(0, R.Succeeded)));
    var s3 := Exec(s2, Happen(SettleRefund(0, R.Succeeded)));
    steps := steps + [Happen(SettleRefund(0, R.Succeeded))];
    assert s3.db.refunds == map[0 := R.Succeeded];
    assert s3.db.executors == map[];
  }

  /**
   FAILED does not mean unpaid: a run without a crash, a lost lease or a stale update ends with a FAILED
   settlement whose transaction succeeded and whose order has been refunded.
   */
  lemma FailedMayBePaidAndRefunded() returns (steps: seq<Step>)
    ensures IsRun(Initial, steps) && FreshRun(Initial, steps)
    ensures After(Initial, steps) == Overtaken(map[0 := R.Succeeded])
    ensures var s := After(Initial, steps);
            && s.db.row == Some(Row(S.Failed, None)) && Succeeded(s.db, 7)
            && s.db.refunds == map[0 := R.Succeeded] && s.tally == Tally(1, 0, 0)
  {
    steps := Send();
    var more := Overtake();
    Join(Initial, steps, Sent(), more, Overtaken(map[]));
    var more' := RefundOvertaken();
    Join(Initial, steps + more, Overtaken(map[]), more', Overtaken(map[0 := R.Succeeded]));
    steps := steps + more + more';
  }

  /** One stale update after that, the worker storing its hash, revives the settlement beside the refund. */
  lemma StaleUpdateMixes() returns (steps: seq<Step>)
    ensures IsRun(Initial, steps) && !FreshRun(Initial, steps) && !NeverResurrects(Initial, steps)
    ensures OneStale(steps)
    ensures var s := After(Initial, steps);
            !Exclusive(s.db) && s.db.row == Some(Row(S.Submitted, Some(7))) && s.tally == Tally(1, 0, 0)
  {
    var before := FailedMayBePaidAndRefunded();
    steps := before + [Do(W, Write)];
    assert steps[..|steps| - 1] == before;
    Extend(Initial, before, After(Initial, before), Do(W, Write));
    var db := After(Initial, steps).db;
    assert R.Live(db.refunds[0]);
    if FreshRun(Initial, steps) {
      PayoutExcludesRefund(steps);
    }
    if NeverResurrects(Initial, steps) {
      ExclusiveIffNeverResurrects(Initial, steps);
      AlwaysAtEnd(Initial, steps);
    }
  }

  lemma {:induction false} AlwaysAtEnd(s: State, steps: seq<Step>)
    requires IsRun(s, steps) && AlwaysExclusive(s, steps)
    ensures Exclusive(After(s, steps).db)
    decreases |steps|
  {
    if steps != [] {
      AlwaysAtEnd(Exec(s, steps[0]), steps[1..]);
    }
  }

  /** A row in reconciliation that does not store a hash is failed once it is old. */
  lemma AgesOut(s: State) returns (steps: seq<Step>, t: State)
    requires s.db.row == Some(Row(S.RequiresReconciliation, None)) && PcOf(s, D) == Idle
    ensures Path(s, steps, t)
    ensures t == s.(db := s.db.(row := Some(Row(S.Failed, None))), pcs := s.pcs[D := Releasing])
  {
    var sweep := Local(D, DaemonSweep(true));
    Stay(s);
    Then(s, [], s, sweep);
    var s1 := Exec(s, sweep);
    var more, s2 := MarkRow(s1, D, ToFailed(NoHash));
    Join(s, [] + [sweep], s1, more, s2);
    steps, t := [] + [sweep] + more, s2;
    assert t.pcs == s.pcs[D := Releasing];
  }

  /** When the RPC call of a broadcast fails, the hash is never stored, and the daemon fails the row by its age. */
  lemma UnnoticedBroadcastFails() returns (steps: seq<Step>)
    ensures IsRun(Initial, steps) && FreshRun(Initial, steps)
    ensures var s := After(Initial, steps);
            && s.db.row == Some(Row(S.Failed, None)) && Succeeded(s.db, 7) && !FailedUnpaid(s.db)
            && s.tally == Tally(1, 0, 0)
  {
    steps := Open();
    var first, s1 := Enter(Opened(), W);
    Join(Initial, steps, Opened(), first, s1);
    steps := steps + first;
    var second, s2 := SubmitUnnoticed(s1, W, 7);
    Join(Initial, steps, s1, second, s2);
    steps := steps + second;
    var third, s3 := MarkRow(s2, W, ToReconcile(SubmitError));
    Join(Initial, steps, s2, third, s3);
    steps := steps + third;
    Then(Initial, steps, s3, Happen(Include(7, true)));
    var s4 := Exec(s3, Happen(Include(7, true)));
    steps := steps + [Happen(Include(7, true))];
    var fourth, s5 := AgesOut(s4);
    Join(Initial, steps, s4, fourth, s5);
    steps := steps + fourth;
  }

  /** A sweep flags the row between broadcast and markSubmitted, which is then refused. */
  lemma FlagFirst() returns (steps: seq<Step>, t: State)
    ensures Path(Sent(), steps, t)
    ensures t == Sent().(db := Sent().db.(row := Some(Row(S.RequiresReconciliation, None))),
                         pcs := map[W := Finished, D := Finished])
  {
    var sweep := Local(D, DaemonSweep(false));
    Stay(Sent());
    Then(Sent(), [], Sent(), sweep);
    var s1 := Exec(Sent(), sweep);
    var more, s2 := MarkRow(s1, D, ToReconcile(NoHash));
    Join(Sent(), [] + [sweep], s1, more, s2);
    Then(Sent(), [] + [sweep] + more, s2, Local(W, Proceed));
    steps, t := [] + [sweep] + more + [Local(W, Proceed)], Exec(s2, Local(W, Proceed));
    assert t.pcs == map[W := Finished, D := Finished];
  }

  /**
   The reconciliation sweep flags every SUBMITTING row without a hash, at any age. When that falls between broadcast
   and markSubmitted, the hash is lost without any fault, and the paid settlement ends FAILED.
   */
  lemma SweepBeforeStoreFails() returns (steps: seq<Step>)
    ensures IsRun(Initial, steps) && FreshRun(Initial, steps)
    ensures var s := After(Initial, steps);
            && s.db.row == Some(Row(S.Failed, None)) && Succeeded(s.db, 7) && !FailedUnpaid(s.db)
            && s.tally == Tally(1, 0, 0)
  {
    steps := Send();
    var first, s1 := FlagFirst();
    Join(Initial, steps, Sent(), first, s1);
    steps := steps + first;
    Then(Initial, steps, s1, Do(D, Finish));
    var s2 := Exec(s1, Do(D, Finish));
    steps := steps + [Do(D, Finish)];
    var second, s3 := AgesOut(s2);
    Join(Initial, steps, s2, second, s3);
    steps := steps + second;
  }

  /** markSubmitted throws and the worker gives the lock back. */
  lemma ThrowFirst() returns (steps: seq<Step>, t: State)
    ensures Path(Sent(), steps, t)
    ensures t == State(Sent().db, map[W := Idle], Lock(None, {}), Tally(1, 1, 0))
  {
    var s := Sent();
    Stay(s);
    Then(s, [], s, Do(W, Throw));
    var s1 := Exec(s, Do(W, Throw));
    Then(s, [] + [Do(W, Throw)], s1, Do(W, Finish));
    steps, t := [] + [Do(W, Throw)] + [Do(W, Finish)], Exec(s1, Do(W, Finish));
    assert t.pcs == map[W := Idle];
  }

  /** The error handler of the sweep fails the row that is still SUBMITTING. */
  lemma HandlerTakesOver(s: State) returns (steps: seq<Step>, t: State)
    requires s.db.row == Some(Row(S.Submitting, None)) && PcOf(s, D) == Idle
    ensures Path(s, steps, t)
    ensures t.db == s.db.(row := Some(Row(S.Failed, None))) && t.tally == s.tally
  {
    var sweep := Local(D, HandlerSweep);
    Stay(s);
    Then(s, [], s, sweep);
    var s1 := Exec(s, sweep);
    var more, s2 := MarkRow(s1, D, ToFailed(SweepError));
    Join(s, [] + [sweep], s1, more, s2);
    steps, t := [] + [sweep] + more, s2;
  }

  /** If markSubmitted throws after a broadcast, the handler fails the SUBMITTING row at once, at any age. */
  lemma HandlerFailsPaid() returns (steps: seq<Step>)
    ensures IsRun(Initial, steps) && FreshRun(Initial, steps)
    ensures var s := After(Initial, steps);
            && s.db.row == Some(Row(S.Failed, None)) && Succeeded(s.db, 7) && !FailedUnpaid(s.db)
            && s.tally == Tally(1, 1, 0)
  {
    steps := Send();
    var first, s1 := ThrowFirst();
    Join(Initial, steps, Sent(), first, s1);
    var second, s2 := HandlerTakesOver(s1);
    Join(Initial, steps + first, s1, second, s2);
    steps := steps + first + second;
  }

  // ----- CONSUMED does not mean COMPLETED

  /** Worker and daemon have both asked about the stored hash; the RPC server failed the worker's call. */
  function Asked(row: S.Status, reservation: V.Status, daemon: Pc): State {
    State(Sent().db.(row := Some(Row(row, Some(7))), reservation := reservation),
          map[W := Writing(ToReconcile(ConfirmError), S.Confirming), D := daemon], Lock(Some(W), {}), Tally(1, 0, 0))
  }

  lemma Store() returns (steps: seq<Step>, t: State)
    ensures Path(Sent(), steps, t)
    ensures t == Sent().(db := Sent().db.(row := Some(Row(S.Confirming, Some(7)))), pcs := map[W := Polling(7)])
  {
    var more, s1 := MarkRow(Sent(), W, ToSubmitted(7));
    var more', s2 := MarkRow(s1, W, ToConfirming);
    Join(Sent(), more, s1, more', s2);
    steps, t := more + more', s2;
    assert t.pcs == map[W := Polling(7)];
  }

  lemma WorkerAsks(s: State) returns (steps: seq<Step>, t: State)
    requires s == Sent().(db := Sent().db.(row := Some(Row(S.Confirming, Some(7)))), pcs := map[W := Polling(7)])
    ensures Path(s, steps, t) && t == s.(pcs := map[W := Writing(ToReconcile(ConfirmError), S.Confirming)])
  {
    var fails := Local(W, Answer(RpcFailed, false));
    Stay(s);
    Then(s, [], s, fails);
    var s1 := Exec(s, fails);
    Then(s, [] + [fails], s1, Local(W, Proceed));
    steps, t := [] + [fails] + [Local(W, Proceed)], Exec(s1, Local(W, Proceed));
    assert t.pcs == map[W := Writing(ToReconcile(ConfirmError), S.Confirming)];
  }

  lemma DaemonAsks(s: State) returns (steps: seq<Step>, t: State)
    requires PcOf(s, D) == Idle && s.db.row.Some? && s.db.row.value.hash == Some(7) && Succeeded(s.db, 7)
    ensures Path(s, steps, t) && t == s.(pcs := s.pcs[D := Validating(ToCompleted(7))])
  {
    var sweep, succeeds := Local(D, DaemonSweep(false)), Local(D, Answer(RpcSuccess, false));
    Stay(s);
    Then(s, [], s, sweep);
    var s1 := Exec(s, sweep);
    Then(s, [] + [sweep], s1, succeeds);
    steps, t := [] + [sweep] + [succeeds], Exec(s1, succeeds);
    assert t.pcs == s.pcs[D := Validating(ToCompleted(7))];
  }

  lemma AskBoth(s: State) returns (steps: seq<Step>)
    requires s == Sent().(db := Sent().db.(row := Some(Row(S.Confirming, Some(7)))), pcs := map[W := Polling(7)])
    ensures Path(s, steps, Asked(S.Confirming, V.Confirmed, Validating(ToCompleted(7))))
  {
    var more, s1 := WorkerAsks(s);
    var more', s2 := DaemonAsks(s1);
    Join(s, more, s1, more', s2);
    steps := more + more';
    assert s2.pcs == Asked(S.Confirming, V.Confirmed, Validating(ToCompleted(7))).pcs;
  }

  lemma Complete() returns (steps: seq<Step>)
    ensures Path(Asked(S.Confirming, V.Confirmed, Validating(ToCompleted(7))), steps,
                 Asked(S.Completed, V.Consumed, Finished))
  {
    var s := Asked(S.Confirming, V.Confirmed, Validating(ToCompleted(7)));
    var more, s1 := MarkRow(s, D, ToCompleted(7));
    Then(s, more, s1, Do(D, Consume));
    steps := more + [Do(D, Consume)];
    assert Exec(s1, Do(D, Consume)).pcs == Asked(S.Completed, V.Consumed, Finished).pcs;
  }

  /**
   A COMPLETED settlement with a consumed reservation goes back to REQUIRES_RECONCILIATION: the worker's RPC call
   fails, the daemon's succeeds and completes, then the worker writes what it had validated before.
   */
  lemma StaleUpdateUncompletes() returns (steps: seq<Step>)
    ensures IsRun(Initial, steps) && !FreshRun(Initial, steps) && OneStale(steps)
    ensures var s := After(Initial, steps);
            && s.db.row == Some(Row(S.RequiresReconciliation, Some(7))) && s.db.reservation == V.Consumed
            && s.tally == Tally(1, 0, 0)
  {
    steps := Send();
    var more, s1 := Store();
    Join(Initial, steps, Sent(), more, s1);
    var more' := AskBoth(s1);
    Join(Initial, steps + more, s1, more', Asked(S.Confirming, V.Confirmed, Validating(ToCompleted(7))));
    var more'' := Complete();
    Join(Initial, steps + more + more', Asked(S.Confirming, V.Confirmed, Validating(ToCompleted(7))), more'',
         Asked(S.Completed, V.Consumed, Finished));
    var before := steps + more + more' + more'';
    Extend(Initial, before, After(Initial, before), Do(W, Write));
    steps := before + [Do(W, Write)];
    assert steps[..|steps| - 1] == before;
    if FreshRun(Initial, steps) {
      ConsumedMeansCompleted(steps);
    }
  }

  // ----- a refund that was checked too early

  /** createRefund has checked the PENDING settlement, then the worker claims it, is approved and broadcasts. */
  lemma CheckedEarly() returns (steps: seq<Step>, t: State)
    ensures Path(Initial, steps, t)
    ensures t.db == Opened().db.(row := Some(Row(S.Submitting, None)), creators := {0}, chain := map[7 := Unseen],
                                 approved := true)
    ensures t.tally == Tally(1, 0, 0)
  {
    steps := Open();
    var check := Happen(CheckRefund(0));
    Then(Initial, steps, Opened(), check);
    var s1 := Exec(Opened(), check);
    steps := steps + [check];
    var more, s2 := Enter(s1, W);
    Join(Initial, steps, s1, more, s2);
    steps := steps + more;
    var more', s3 := Submit(s2, W, 7);
    Join(Initial, steps, s2, more', s3);
    steps, t := steps + more', s3;
  }

  /**
   createRefund checks the settlement while it is PENDING, the worker marks it and the policy finds no refund, then
   createRefund inserts: the order is being paid out beside a live refund.
   */
  lemma EarlyCheckMixes() returns (steps: seq<Step>)
    ensures IsRun(Initial, steps) && !FreshRun(Initial, steps) && OneStale(steps)
    ensures var s := After(Initial, steps);
            && !Exclusive(s.db) && s.db.row == Some(Row(S.Submitting, None)) && 7 in s.db.chain
            && s.tally == Tally(1, 0, 0)
  {
    var before, s := CheckedEarly();
    var insert := Happen(InsertRefund(0, 0));
    Extend(Initial, before, s, insert);
    steps := before + [insert];
    assert steps[..|steps| - 1] == before;
    var db := Exec(s, insert).db;
    assert 0 in db.refunds && R.Live(db.refunds[0]);
    if FreshRun(Initial, steps) {
      PayoutExcludesRefund(steps);
    }
  }

  // ----- a lost lease lets two hashes in

  /** The network executes `h`, and a process that polls it learns of the success. */
  lemma Learns(s: State, a: Actor, h: Hash) returns (steps: seq<Step>, t: State)
    requires PcOf(s, a) == Polling(h) && s.db.row.Some? && h in s.db.chain && s.db.chain[h] == Unseen
    ensures Path(s, steps, t)
    ensures t == s.(db := s.db.(chain := s.db.chain[h := Success]), pcs := s.pcs[a := Validating(ToCompleted(h))])
  {
    var executed, succeeds := Happen(Include(h, true)), Local(a, Answer(RpcSuccess, false));
    Stay(s);
    Then(s, [], s, executed);
    var s1 := Exec(s, executed);
    Then(s, [] + [executed], s1, succeeds);
    steps, t := [] + [executed] + [succeeds], Exec(s1, succeeds);
  }

  /**
   Once a process asks about another hash than the stored one, nothing holds it back: from every such state with
   both transactions open there is a fresh continuation to COMPLETED beside the hash that has not succeeded.
   */
  lemma MisalignedMisfiles(s: State, a: Actor, h: Hash) returns (steps: seq<Step>, t: State)
    requires PcOf(s, a) == Polling(h) && h in s.db.chain && s.db.chain[h] == Unseen
    requires s.db.row.Some? && s.db.row.value.hash.Some? && s.db.row.value.hash != Some(h)
    requires !Succeeded(s.db, s.db.row.value.hash.value) && S.CanTransition(s.db.row.value.status, S.Completed)
    ensures Path(s, steps, t)
    ensures t.db.row == Some(Row(S.Completed, s.db.row.value.hash)) && !RowSingle(t.db)
    ensures Succeeded(t.db, h) && t.tally == s.tally
  {
    var more, s1 := Learns(s, a, h);
    var more', s2 := MarkRow(s1, a, ToCompleted(h));
    Join(s, more, s1, more', s2);
    steps, t := more + more', s2;
  }

  /** Two workers have broadcast, 7 the first and 8 the second; the lease of the first has run out. */
  function Twice(row: Row, pcs: map<Actor, Pc>): State {
    State(Opened().db.(row := Some(row), chain := map[7 := Unseen, 8 := Unseen], approved := true), pcs,
          Lock(Some(W2), {}), Tally(2, 0, 1))
  }

  lemma BothEnter() returns (steps: seq<Step>, t: State)
    ensures Path(Initial, steps, t)
    ensures t == State(Opened().db.(row := Some(Row(S.Submitting, None))), map[W := Unsubmitted, W2 := Unsubmitted],
                       Lock(Some(W2), {}), Tally(0, 0, 1))
  {
    steps := Open();
    var more, s1 := Enter(Opened(), W);
    Join(Initial, steps, Opened(), more, s1);
    steps := steps + more;
    Then(Initial, steps, s1, Expire);
    steps := steps + [Expire];
    var s2 := Exec(s1, Expire);
    var more', s3 := Enter(s2, W2);
    Join(Initial, steps, s2, more', s3);
    steps, t := steps + more', s3;
    assert t.pcs == map[W := Unsubmitted, W2 := Unsubmitted];
  }

  lemma BothSubmit(s: State) returns (steps: seq<Step>)
    requires s == State(Opened().db.(row := Some(Row(S.Submitting, None))), map[W := Unsubmitted, W2 := Unsubmitted],
                        Lock(Some(W2), {}), Tally(0, 0, 1))
    ensures Path(s, steps,
                 Twice(Row(S.Submitting, None), map[W := Validating(ToSubmitted(7)), W2 := Validating(ToSubmitted(8))]))
  {
    var more, s1 := Submit(s, W, 7);
    var more', s2 := Submit(s1, W2, 8);
    Join(s, more, s1, more', s2);
    steps := more + more';
    assert s2.pcs == map[W := Validating(ToSubmitted(7)), W2 := Validating(ToSubmitted(8))];
    assert s2.db.chain == map[7 := Unseen, 8 := Unseen];
  }

  /** The second stores 8, a daemon sweep reads it, then the first stores 7 over it. */
  lemma BothStore() returns (steps: seq<Step>, t: State)
    ensures Path(Twice(Row(S.Submitting, None), map[W := Validating(ToSubmitted(7)), W2 := Validating(ToSubmitted(8))]),
                 steps, t)
    ensures t == Twice(Row(S.Submitted, Some(7)),
                       map[W := Validating(ToConfirming), W2 := Validating(ToConfirming), D := Polling(8)])
  {
    var s := Twice(Row(S.Submitting, None), map[W := Validating(ToSubmitted(7)), W2 := Validating(ToSubmitted(8))]);
    var more, s1 := MarkRow(s, W2, ToSubmitted(8));
    Then(s, more, s1, Local(D, DaemonSweep(false)));
    var s2 := Exec(s1, Local(D, DaemonSweep(false)));
    var more', s3 := MarkRow(s2, W, ToSubmitted(7));
    Join(s, more + [Local(D, DaemonSweep(false))], s2, more', s3);
    steps, t := more + [Local(D, DaemonSweep(false))] + more', s3;
    assert t.pcs == map[W := Validating(ToConfirming), W2 := Validating(ToConfirming), D := Polling(8)];
  }

  /**
   With one lost lease, and every update fresh, a settlement can be submitted twice and be COMPLETED beside the
   hash of the transaction that has not succeeded.
   */
  lemma LostLeaseMisfiles() returns (steps: seq<Step>)
    ensures IsRun(Initial, steps) && FreshRun(Initial, steps)
    ensures var s := After(Initial, steps);
            && s.db.row == Some(Row(S.Completed, Some(7))) && !RowSingle(s.db) && Succeeded(s.db, 8)
            && s.tally == Tally(2, 0, 1)
  {
    var first, s1 := BothEnter();
    var second := BothSubmit(s1);
    var s2 := Twice(Row(S.Submitting, None), map[W := Validating(ToSubmitted(7)), W2 := Validating(ToSubmitted(8))]);
    Join(Initial, first, s1, second, s2);
    var third, s3 := BothStore();
    Join(Initial, first + second, s2, third, s3);
    var fourth, s4 := MisalignedMisfiles(s3, D, 8);
    Join(Initial, first + second + third, s3, fourth, s4);
    steps := first + second + third + fourth;
  }

  // ----- the submission bound is reached

  function Retried(n: nat): State {
    State(Opened().db.(row := Some(Row(S.Submitting, None))), map[W := Calling], Lock(Some(W), {}), Tally(n + 1, n, 0))
  }

  lemma Call(s: State, n: nat) returns (steps: seq<Step>)
    requires s.db == Opened().db || s.db == Retried(0).db
    requires (s.pcs == map[] || s.pcs == map[W := Idle]) && s.lock == Lock(None, {}) && s.tally == Tally(n, n, 0)
    ensures Path(s, steps, Retried(n))
  {
    var more, s1 := Enter(s, W);
    Then(s, more, s1, Do(W, CallSubmit));
    steps := more + [Do(W, CallSubmit)];
    assert Exec(s1, Do(W, CallSubmit)).pcs == map[W := Calling];
  }

  /** The worker dies inside submitSettlement, its lease runs out, and it starts over. */
  lemma Retry(n: nat) returns (steps: seq<Step>)
    ensures Path(Retried(n), steps, Retried(n + 1))
  {
    var s := Retried(n);
    Stay(s);
    Then(s, [], s, Do(W, Crash));
    var s1 := Exec(s, Do(W, Crash));
    steps := [] + [Do(W, Crash)];
    Then(s, steps, s1, Expire);
    var s2 := Exec(s1, Expire);
    steps := steps + [Expire];
    assert s2.pcs == map[W := Idle];
    var more := Call(s2, n + 1);
    Join(s, steps, s2, more, Retried(n + 1));
    steps := steps + more;
  }

  lemma {:induction false} RetriedRun(n: nat) returns (steps: seq<Step>)
    ensures Path(Initial, steps, Retried(n))
  {
    if n == 0 {
      steps := Open();
      var more := Call(Opened(), 0);
      Join(Initial, steps, Opened(), more, Retried(0));
      steps := steps + more;
    } else {
      steps := RetriedRun(n - 1);
      var more := Retry(n - 1);
      Join(Initial, steps, Retried(n - 1), more, Retried(n));
      steps := steps + more;
    }
  }

  /** For every number of crashes in the window there is a run that submits once more than that. */
  lemma SubmissionBoundIsReached(n: nat) returns (steps: seq<Step>)
    ensures IsRun(Initial, steps)
    ensures After(Initial, steps).tally == Tally(n + 1, n, 0)
  {
    steps := RetriedRun(n);
  }
}
