/**
 A payout and a refund of the same order. The worker marks first and checks refunds afterwards; the
 refund service checks the settlement first and inserts the refund afterwards.
 */
module PayoutRefundExclusion {
  import opened SettlementProtocol
  import S = SettlementStates
  import R = RefundStates

  /** An approved settlement that has not failed has no live refund beside it. */
  predicate Exclusive(db: Db) {
    db.approved && db.row.Some? && db.row.value.status != S.Failed ==> !LiveRefund(db)
  }

  /**
   The three unguarded writes that mix the two: a mark that replaces FAILED by another status although a refund has
   been created since, a refund outcome that makes a refund live although the payout has been approved since, and a
   new refund whose settlement has been approved since createRefund checked it.
   */
  predicate Resurrects(s: State, step: Step)
    requires Enabled(s, step)
  {
    match step
    case Do(a, Write) =>
      && s.db.approved && s.db.row.value.status == S.Failed
      && Target(PcOf(s, a).m) != S.Failed && LiveRefund(s.db)
    case Happen(InsertRefund(_, _)) => s.db.approved && s.db.row.Some? && s.db.row.value.status != S.Failed
    case Happen(SettleRefund(_, outcome)) =>
      && s.db.approved && s.db.row.Some? && s.db.row.value.status != S.Failed
      && R.Live(outcome)
    case _ => false
  }

  /** The refund check passes exactly while the settlement is absent, PENDING or FAILED. */
  lemma CheckedIff(db: Db, x: nat)
    ensures EventEnabled(db, CheckRefund(x)) <==>
            x !in db.creators
            && (db.row.None? || db.row.value.status == S.Pending || db.row.value.status == S.Failed)
  {
  }

  lemma EventExclusive(db: Db, ev: Event)
    requires DbOk(db) && Exclusive(db) && EventEnabled(db, ev)
    ensures Exclusive(DbOnEvent(db, ev)) <==>
            !(db.approved && db.row.value.status != S.Failed
              && (ev.InsertRefund? || (ev.SettleRefund? && R.Live(ev.outcome))))
  {
    var db' := DbOnEvent(db, ev);
    match ev
    case InsertRefund(_, r) => assert r in db'.refunds && R.Live(db'.refunds[r]);
    case ClaimRefund(x, r) => assert R.Live(db.refunds[r]);
    case SettleRefund(x, outcome) =>
      var r := db.executors[x];
      assert r in db'.refunds && db'.refunds[r] == outcome;
      assert forall q :: q in db'.refunds && q != r ==> q in db.refunds && db'.refunds[q] == db.refunds[q];
    case _ => assert db'.refunds == db.refunds;
  }

  /** From a state that keeps payout and refund apart, a step mixes them exactly when it resurrects. */
  lemma ExclusiveStep(s: State, step: Step)
    requires Coherent(s) && Exclusive(s.db) && Enabled(s, step)
    ensures Exclusive(Exec(s, step).db) <==> !Resurrects(s, step)
  {
    var t := Exec(s, step);
    match step
    case Happen(ev) => EventExclusive(s.db, ev);
    case Do(a, e) =>
      assert t.db.refunds == s.db.refunds;
      assert LiveRefund(t.db) == LiveRefund(s.db);
      assert PcOk(s.db, a, PcOf(s, a));
    case _ =>
  }

  predicate AlwaysExclusive(s: State, steps: seq<Step>)
    requires IsRun(s, steps)
    decreases |steps|
  {
    Exclusive(s.db) && (steps == [] || AlwaysExclusive(Exec(s, steps[0]), steps[1..]))
  }

  predicate NeverResurrects(s: State, steps: seq<Step>)
    requires IsRun(s, steps)
    decreases |steps|
  {
    steps == [] || (!Resurrects(s, steps[0]) && NeverResurrects(Exec(s, steps[0]), steps[1..]))
  }

  /** A run keeps payout and refund apart in all its states exactly when none of its steps resurrects. */
  lemma {:induction false} ExclusiveIffNeverResurrects(s: State, steps: seq<Step>)
    requires Coherent(s) && Exclusive(s.db) && IsRun(s, steps)
    ensures AlwaysExclusive(s, steps) <==> NeverResurrects(s, steps)
    decreases |steps|
  {
    if steps != [] {
      CoherentStep(s, steps[0]);
      ExclusiveStep(s, steps[0]);
      if Exclusive(Exec(s, steps[0]).db) {
        ExclusiveIffNeverResurrects(Exec(s, steps[0]), steps[1..]);
      }
    }
  }

  lemma FreshNeverResurrects(s: State, step: Step)
    requires Coherent(s) && Exclusive(s.db) && Enabled(s, step) && Fresh(s, step)
    ensures !Resurrects(s, step)
  {
    match step
    case Do(a, Write) => assert PcOk(s.db, a, PcOf(s, a));
    case Happen(SettleRefund(x, _)) => assert R.Live(s.db.refunds[s.db.executors[x]]);
    case _ =>
  }

  lemma {:induction false} FreshRunExclusive(s: State, steps: seq<Step>)
    requires Coherent(s) && Exclusive(s.db) && IsRun(s, steps) && FreshRun(s, steps)
    ensures Exclusive(After(s, steps).db)
    decreases |steps|
  {
    if steps != [] {
      CoherentStep(s, steps[0]);
      FreshNeverResurrects(s, steps[0]);
      ExclusiveStep(s, steps[0]);
      FreshRunExclusive(Exec(s, steps[0]), steps[1..]);
    }
  }

  /**
   If every unguarded write still finds what its caller validated, an order is never both paid
   out and refunded: beside a COMPLETED settlement, and beside an approved one that has not failed,
   there is no pending, processing or succeeded refund.
   */
  lemma PayoutExcludesRefund(steps: seq<Step>)
    requires IsRun(Initial, steps) && FreshRun(Initial, steps)
    ensures var db := After(Initial, steps).db;
            && Exclusive(db)
            && (db.row.Some? && db.row.value.status == S.Completed ==> !LiveRefund(db))
  {
    RunAdvances(Initial, steps);
    FreshRunExclusive(Initial, steps);
  }
}
