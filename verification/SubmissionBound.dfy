/**
 How often a settlement can be submitted. Nothing is assumed about the lock beyond its token check:
 its lease may run out while the worker keeps going, the worker may die anywhere, and the daemon and
 the sweep's error handler write without it.
 */
module SubmissionBound {
  import opened Wrappers
  import opened SettlementProtocol
  import S = SettlementStates

  /** The process may still call submitSettlement before it finishes. */
  predicate PreSubmit(pc: Pc) {
    pc == Holding || pc == Marking || pc.Claiming? || pc == ClaimMissed || pc.InFlow? || pc == Unsubmitted
  }

  /** The process will call submitSettlement unless it is stopped, whatever happens to the row. */
  predicate Committed(pc: Pc) {
    pc.Claiming? || pc == ClaimMissed || pc == InFlow(S.Submitting) || pc == Unsubmitted
  }

  /** Workers that lost the lock before they submitted. */
  function Strays(s: State): set<Actor> {
    set a | a in s.pcs && PreSubmit(s.pcs[a]) && s.lock.holder != Some(a)
  }

  predicate EarlyRow(db: Db) {
    db.row.Some? ==> S.Early(db.row.value.status)
  }

  predicate HolderInWindow(s: State) {
    s.lock.holder.Some? && InWindow(PcOf(s, s.lock.holder.value))
  }

  /** Every submission is paid for: one is free, each crash and each lost lease pays for one more. */
  predicate Bounded(s: State) {
    var used := s.tally.submits + |Strays(s)|;
    var paid := s.tally.crashes + s.tally.losses;
    && used <= paid + 1
    && (EarlyRow(s.db) && !HolderInWindow(s) ==> used <= paid)
    && (s.lock.holder.Some? && Committed(PcOf(s, s.lock.holder.value)) ==> used <= paid)
  }

  lemma FewerStrays(s: State, t: State)
    requires Strays(t) <= Strays(s)
    ensures |Strays(t)| <= |Strays(s)|
  {
    assert Strays(s) == Strays(t) + (Strays(s) - Strays(t));
    assert |Strays(s)| == |Strays(t)| + |Strays(s) - Strays(t)|;
  }

  lemma LocalBounded(s: State, a: Actor, input: Input)
    requires Coherent(s) && Bounded(s) && Enabled(s, Local(a, input))
    ensures Bounded(Exec(s, Local(a, input)))
  {
    var t := Exec(s, Local(a, input));
    assert PcOk(s.db, a, PcOf(s, a));
    FewerStrays(s, t);
  }

  lemma CallBounded(s: State, a: Actor)
    requires Coherent(s) && Bounded(s) && Enabled(s, Do(a, CallSubmit))
    ensures Bounded(Exec(s, Do(a, CallSubmit)))
  {
    assert Strays(Exec(s, Do(a, CallSubmit))) == Strays(s) - {a};
  }

  lemma CrashBounded(s: State, a: Actor)
    requires Bounded(s) && Enabled(s, Do(a, Crash))
    ensures Bounded(Exec(s, Do(a, Crash)))
  {
    FewerStrays(s, Exec(s, Do(a, Crash)));
  }

  lemma ThrowBounded(s: State, a: Actor)
    requires Bounded(s) && Enabled(s, Do(a, Throw))
    ensures Bounded(Exec(s, Do(a, Throw)))
  {
    FewerStrays(s, Exec(s, Do(a, Throw)));
  }

  lemma ClaimBounded(s: State, a: Actor)
    requires Coherent(s) && Bounded(s) && Enabled(s, Do(a, Claim))
    ensures Bounded(Exec(s, Do(a, Claim)))
  {
    assert PcOk(s.db, a, PcOf(s, a));
    assert Strays(Exec(s, Do(a, Claim))) == Strays(s);
  }

  lemma WriteBounded(s: State, a: Actor)
    requires Bounded(s) && Enabled(s, Do(a, Write))
    ensures Bounded(Exec(s, Do(a, Write)))
  {
    assert Strays(Exec(s, Do(a, Write))) == Strays(s);
  }

  lemma AcquireBounded(s: State, a: Actor)
    requires Bounded(s) && Enabled(s, Do(a, Acquire))
    ensures Bounded(Exec(s, Do(a, Acquire)))
  {
    assert Strays(Exec(s, Do(a, Acquire))) == Strays(s);
  }

  lemma FinishBounded(s: State, a: Actor)
    requires Bounded(s) && Enabled(s, Do(a, Finish))
    ensures Bounded(Exec(s, Do(a, Finish)))
  {
    assert Strays(Exec(s, Do(a, Finish))) == Strays(s);
  }

  lemma OtherEffectBounded(s: State, a: Actor, e: Effect)
    requires e.Approve? || e.Broadcast? || e.BroadcastUnnoticed? || e.Consume? || e.Release?
    requires Bounded(s) && Enabled(s, Do(a, e))
    ensures Bounded(Exec(s, Do(a, e)))
  {
    assert Strays(Exec(s, Do(a, e))) == Strays(s);
  }

  lemma EventBounded(s: State, ev: Event)
    requires Bounded(s) && Enabled(s, Happen(ev))
    ensures Bounded(Exec(s, Happen(ev)))
  {
    assert Strays(Exec(s, Happen(ev))) == Strays(s);
  }

  lemma ExpireBounded(s: State)
    requires Bounded(s) && Enabled(s, Expire)
    ensures Bounded(Exec(s, Expire))
  {
    var t := Exec(s, Expire);
    var h := s.lock.holder.value;
    if PreSubmit(PcOf(s, h)) {
      assert Strays(t) == Strays(s) + {h};
      assert h !in Strays(s);
    } else {
      assert Strays(t) == Strays(s);
    }
  }

  lemma BoundedStep(s: State, step: Step)
    requires Coherent(s) && Bounded(s) && Enabled(s, step)
    ensures Bounded(Exec(s, step))
  {
    match step
    case Local(a, input) => LocalBounded(s, a, input);
    case Do(a, CallSubmit) => CallBounded(s, a);
    case Do(a, Crash) => CrashBounded(s, a);
    case Do(a, Throw) => ThrowBounded(s, a);
    case Do(a, Claim) => ClaimBounded(s, a);
    case Do(a, Write) => WriteBounded(s, a);
    case Do(a, Acquire) => AcquireBounded(s, a);
    case Do(a, Finish) => FinishBounded(s, a);
    case Do(a, e) => OtherEffectBounded(s, a, e);
    case Happen(ev) => EventBounded(s, ev);
    case Expire => ExpireBounded(s);
    case Notice(a) => assert Strays(Exec(s, step)) == Strays(s);
  }

  lemma {:induction false} RunBounded(s: State, steps: seq<Step>)
    requires Coherent(s) && Bounded(s) && IsRun(s, steps)
    ensures Bounded(After(s, steps))
    decreases |steps|
  {
    if steps != [] {
      CoherentStep(s, steps[0]);
      BoundedStep(s, steps[0]);
      RunBounded(Exec(s, steps[0]), steps[1..]);
    }
  }

  /**
   For any number of workers, daemon sweeps, error handlers and refunds in any interleaving, the calls
   of submitSettlement are at most one more than the lock holders that died or threw between that call
   and their next write plus the leases that ran out under a live worker.
   */
  lemma SubmittedAtMostOncePerFault(steps: seq<Step>)
    requires IsRun(Initial, steps)
    ensures var tally := After(Initial, steps).tally;
            tally.submits <= 1 + tally.crashes + tally.losses
  {
    RunBounded(Initial, steps);
  }

  /** With a lock that is exclusive until release and no crash in the window, once means once. */
  lemma SubmittedAtMostOnce(steps: seq<Step>)
    requires IsRun(Initial, steps)
    ensures var tally := After(Initial, steps).tally;
            tally.crashes == 0 && tally.losses == 0 ==> tally.submits <= 1
  {
    SubmittedAtMostOncePerFault(steps);
  }
}
