/** The network decides about success: what COMPLETED and CONSUMED mean for the chain. */
module ChainTruth {
  import opened Wrappers
  import opened SettlementProtocol
  import S = SettlementStates
  import V = ReservationStates

  /** The process is about to record the success of hash `pc.m.h`. */
  predicate Completes(pc: Pc) {
    (pc.Validating? || pc.Writing?) && pc.m.ToCompleted?
  }

  ghost predicate SomeSuccess(db: Db) {
    exists h :: Succeeded(db, h)
  }

  ghost predicate Proven(s: State) {
    && (forall a: Actor :: Completes(PcOf(s, a)) ==> Succeeded(s.db, PcOf(s, a).m.h))
    && (s.db.row.Some? && s.db.row.value.status == S.Completed ==> SomeSuccess(s.db))
  }

  lemma ProvenStep(s: State, step: Step)
    requires Coherent(s) && Proven(s) && Enabled(s, step)
    ensures Proven(Exec(s, step))
  {
    var t := Exec(s, step);
    CoherentStep(s, step);
    assert SomeSuccess(s.db) ==> SomeSuccess(t.db);
    if step.Do? && step.e == Write && Completes(PcOf(s, step.a)) {
      assert Succeeded(t.db, PcOf(s, step.a).m.h);
    }
    forall a: Actor | Completes(PcOf(t, a))
      ensures Succeeded(t.db, PcOf(t, a).m.h)
    {
      assert PcOf(s, a) == PcOf(t, a) || step.Local?;
      assert Succeeded(s.db, PcOf(t, a).m.h);
    }
  }

  lemma {:induction false} RunProven(s: State, steps: seq<Step>)
    requires Coherent(s) && Proven(s) && IsRun(s, steps)
    ensures Proven(After(s, steps))
    decreases |steps|
  {
    if steps != [] {
      CoherentStep(s, steps[0]);
      ProvenStep(s, steps[0]);
      RunProven(Exec(s, steps[0]), steps[1..]);
    }
  }

  /** In every run, COMPLETED means that a transaction broadcast for this settlement succeeded. */
  lemma CompletedMeansPaid(steps: seq<Step>)
    requires IsRun(Initial, steps)
    ensures var db := After(Initial, steps).db;
            db.row.Some? && db.row.value.status == S.Completed ==> SomeSuccess(db)
  {
    RunProven(Initial, steps);
  }

  // ----- the stored hash is the one that succeeded

  /** The hash that a process took from the row. */
  function WorksOn(pc: Pc): Option<Hash> {
    match pc
    case Polling(h) => Some(h)
    case Validating(m) => ConcludesOn(m)
    case Writing(m, _) => ConcludesOn(m)
    case _ => None
  }

  /** The hash whose fate a mark records. */
  function ConcludesOn(m: Mark): Option<Hash> {
    match m
    case ToCompleted(h) => Some(h)
    case ToFailed(origin) =>
      if origin.Reported? then Some(origin.h) else if origin.Forgotten? then Some(origin.h) else None
    case _ => None
  }

  predicate RowSingle(db: Db) {
    db.row.Some? && db.row.value.status == S.Completed ==>
      db.row.value.hash.Some? && Succeeded(db, db.row.value.hash.value)
  }

  /** Every process that asks about a hash, or completes or fails on one, works on the stored one. */
  ghost predicate Aligned(s: State) {
    && (forall a: Actor :: WorksOn(PcOf(s, a)).Some? ==>
                             s.db.row.Some? && s.db.row.value.hash == WorksOn(PcOf(s, a)))
    && RowSingle(s.db)
  }

  /** markSubmitted lands on a row that already stores another hash; the code does not look. */
  predicate Overwrites(s: State, step: Step)
    requires Enabled(s, step)
  {
    match step
    case Do(a, Write) =>
      var m, hash := PcOf(s, a).m, s.db.row.value.hash;
      m.ToSubmitted? && hash.Some? && hash != Some(m.h)
    case _ => false
  }

  /** It does so while some process works on the hash it replaces. */
  ghost predicate Conflicts(s: State, step: Step)
    requires Enabled(s, step)
  {
    Overwrites(s, step) && exists a: Actor :: WorksOn(PcOf(s, a)).Some?
  }

  lemma WriteAligned(s: State, a: Actor)
    requires Coherent(s) && Proven(s) && Aligned(s) && Enabled(s, Do(a, Write))
    ensures Aligned(Exec(s, Do(a, Write))) <==> !Conflicts(s, Do(a, Write))
  {
    var t := Exec(s, Do(a, Write));
    var m := PcOf(s, a).m;
    assert PcOk(s.db, a, PcOf(s, a));
    assert m.ToCompleted? ==> Completes(PcOf(s, a)) && Succeeded(s.db, m.h);
    assert t.db.chain == s.db.chain;
    if Conflicts(s, Do(a, Write)) {
      var b: Actor :| WorksOn(PcOf(s, b)).Some?;
      assert PcOf(t, b) == PcOf(s, b);
      assert t.db.row.value.hash == Some(m.h) != s.db.row.value.hash == WorksOn(PcOf(s, b));
    } else {
      forall b: Actor | WorksOn(PcOf(t, b)).Some?
        ensures t.db.row.value.hash == WorksOn(PcOf(t, b))
      {
        assert b != a ==> WorksOn(PcOf(s, b)) == WorksOn(PcOf(t, b)) == s.db.row.value.hash;
      }
    }
  }

  lemma OtherAligned(s: State, step: Step)
    requires Coherent(s) && Aligned(s) && Enabled(s, step) && !(step.Do? && step.e == Write)
    ensures Aligned(Exec(s, step))
  {
    var t := Exec(s, step);
    CoherentStep(s, step);
    if step.Do? || step.Local? {
      assert PcOk(s.db, step.a, PcOf(s, step.a));
    }
    forall a: Actor | WorksOn(PcOf(t, a)).Some?
      ensures t.db.row.Some? && t.db.row.value.hash == WorksOn(PcOf(t, a))
    {
      assert WorksOn(PcOf(s, a)).Some? ==> s.db.row.Some? && s.db.row.value.hash == WorksOn(PcOf(s, a));
    }
  }

  /** A step takes processes off the stored hash exactly when it overwrites a hash that one of them works on. */
  lemma AlignedStep(s: State, step: Step)
    requires Coherent(s) && Proven(s) && Aligned(s) && Enabled(s, step)
    ensures Aligned(Exec(s, step)) <==> !Conflicts(s, step)
  {
    if step.Do? && step.e == Write {
      WriteAligned(s, step.a);
    } else {
      OtherAligned(s, step);
    }
  }

  ghost predicate AlwaysAligned(s: State, steps: seq<Step>)
    requires IsRun(s, steps)
    decreases |steps|
  {
    Aligned(s) && (steps == [] || AlwaysAligned(Exec(s, steps[0]), steps[1..]))
  }

  ghost predicate NeverConflicts(s: State, steps: seq<Step>)
    requires IsRun(s, steps)
    decreases |steps|
  {
    steps == [] || (!Conflicts(s, steps[0]) && NeverConflicts(Exec(s, steps[0]), steps[1..]))
  }

  /**
   Whatever becomes of leases: in all states of a run every process works on the stored hash, and COMPLETED stands
   beside a hash that succeeded, exactly when no markSubmitted replaces a hash that a process works on.
   */
  lemma {:induction false} AlignedIffNeverConflicts(s: State, steps: seq<Step>)
    requires Coherent(s) && Proven(s) && Aligned(s) && IsRun(s, steps)
    ensures AlwaysAligned(s, steps) <==> NeverConflicts(s, steps)
    ensures AlwaysAligned(s, steps) ==> Aligned(After(s, steps))
    decreases |steps|
  {
    if steps != [] {
      CoherentStep(s, steps[0]);
      ProvenStep(s, steps[0]);
      AlignedStep(s, steps[0]);
      if Aligned(Exec(s, steps[0])) {
        AlignedIffNeverConflicts(Exec(s, steps[0]), steps[1..]);
      }
    }
  }

  // ----- while no lease is lost, no hash is overwritten

  /** Only the holder of the lock runs as a worker, and until it has stored its hash there is none. */
  ghost predicate SoleSubmitter(s: State) {
    forall a: Actor :: a.Worker? ==>
                         && (PcOf(s, a) != Idle ==> s.lock.holder == Some(a))
                         && (PcOf(s, a) == Unsubmitted || InWindow(PcOf(s, a)) ==>
                               s.db.row.Some? && s.db.row.value.hash.None?)
  }

  lemma NoOverwrite(s: State, step: Step)
    requires Coherent(s) && SoleSubmitter(s) && Enabled(s, step)
    ensures !Overwrites(s, step)
  {
    if step.Do? {
      assert PcOk(s.db, step.a, PcOf(s, step.a));
    }
  }

  lemma SoleSubmitterStep(s: State, step: Step)
    requires Coherent(s) && SoleSubmitter(s) && Enabled(s, step)
    ensures Exec(s, step).tally.losses == s.tally.losses ==> SoleSubmitter(Exec(s, step))
  {
    var t := Exec(s, step);
    if step.Do? || step.Local? {
      assert PcOk(s.db, step.a, PcOf(s, step.a));
    }
    forall a: Actor | a.Worker? && t.tally.losses == s.tally.losses
      ensures PcOf(t, a) != Idle ==> t.lock.holder == Some(a)
      ensures PcOf(t, a) == Unsubmitted || InWindow(PcOf(t, a)) ==> t.db.row.Some? && t.db.row.value.hash.None?
    {
      assert PcOk(s.db, a, PcOf(s, a));
    }
  }

  lemma {:induction false} LossesGrow(s: State, steps: seq<Step>)
    requires IsRun(s, steps)
    ensures s.tally.losses <= After(s, steps).tally.losses
    decreases |steps|
  {
    if steps != [] {
      LossesGrow(Exec(s, steps[0]), steps[1..]);
    }
  }

  lemma {:induction false} NoLossNoConflict(s: State, steps: seq<Step>)
    requires Coherent(s) && SoleSubmitter(s) && IsRun(s, steps)
    ensures After(s, steps).tally.losses == s.tally.losses ==> NeverConflicts(s, steps)
    decreases |steps|
  {
    if steps != [] {
      var t := Exec(s, steps[0]);
      CoherentStep(s, steps[0]);
      NoOverwrite(s, steps[0]);
      SoleSubmitterStep(s, steps[0]);
      LossesGrow(t, steps[1..]);
      if t.tally.losses == s.tally.losses {
        NoLossNoConflict(t, steps[1..]);
      }
    }
  }

  /** While no lease is lost, a COMPLETED settlement stores the hash of a transaction that succeeded. */
  lemma CompletedHashSucceeded(steps: seq<Step>)
    requires IsRun(Initial, steps)
    ensures var s := After(Initial, steps); s.tally.losses == 0 ==> RowSingle(s.db)
  {
    if After(Initial, steps).tally.losses == 0 {
      NoLossNoConflict(Initial, steps);
      AlignedIffNeverConflicts(Initial, steps);
    }
  }

  // ----- consumption follows completion

  ghost predicate ConsumedOnlyCompleted(s: State) {
    && (s.db.reservation == V.Consumed ==> s.db.row.Some? && s.db.row.value.status == S.Completed)
    && (forall a: Actor :: PcOf(s, a) == Consuming ==> s.db.row.Some? && s.db.row.value.status == S.Completed)
  }

  /** The reservation is consumed, or a markCompleted call is on its way to consume it. */
  ghost predicate Spent(s: State) {
    s.db.reservation == V.Consumed || exists a: Actor :: PcOf(s, a) == Consuming
  }

  /** An update by id that takes COMPLETED back after the reservation was spent. */
  ghost predicate Uncompletes(s: State, step: Step)
    requires Enabled(s, step)
  {
    match step
    case Do(a, Write) => Spent(s) && Target(PcOf(s, a).m) != S.Completed
    case _ => false
  }

  lemma WriteConsumed(s: State, a: Actor)
    requires Coherent(s) && ConsumedOnlyCompleted(s) && Enabled(s, Do(a, Write))
    ensures ConsumedOnlyCompleted(Exec(s, Do(a, Write))) <==> !Uncompletes(s, Do(a, Write))
  {
    var t := Exec(s, Do(a, Write));
    if Spent(s) && s.db.reservation != V.Consumed {
      var b: Actor :| PcOf(s, b) == Consuming;
      assert PcOf(t, b) == Consuming;
    }
    forall b: Actor | PcOf(t, b) == Consuming
      ensures PcOf(s, b) == Consuming || Target(PcOf(s, a).m) == S.Completed
    {
    }
  }

  lemma ConsumedStep(s: State, step: Step)
    requires Coherent(s) && ConsumedOnlyCompleted(s) && Enabled(s, step)
    ensures ConsumedOnlyCompleted(Exec(s, step)) <==> !Uncompletes(s, step)
  {
    var t := Exec(s, step);
    if step.Do? && step.e == Write {
      WriteConsumed(s, step.a);
    } else {
      if step.Do? || step.Local? {
        assert PcOk(s.db, step.a, PcOf(s, step.a));
      }
      forall a: Actor | PcOf(t, a) == Consuming
        ensures t.db.row.Some? && t.db.row.value.status == S.Completed
      {
        assert PcOf(s, a) == Consuming;
      }
    }
  }

  ghost predicate AlwaysConsistent(s: State, steps: seq<Step>)
    requires IsRun(s, steps)
    decreases |steps|
  {
    ConsumedOnlyCompleted(s) && (steps == [] || AlwaysConsistent(Exec(s, steps[0]), steps[1..]))
  }

  ghost predicate NeverUncompletes(s: State, steps: seq<Step>)
    requires IsRun(s, steps)
    decreases |steps|
  {
    steps == [] || (!Uncompletes(s, steps[0]) && NeverUncompletes(Exec(s, steps[0]), steps[1..]))
  }

  /**
   In all states of a run only a COMPLETED settlement has its reservation spent, exactly when no step takes it back.
   */
  lemma {:induction false} ConsumedIffNeverUncompletes(s: State, steps: seq<Step>)
    requires Coherent(s) && ConsumedOnlyCompleted(s) && IsRun(s, steps)
    ensures AlwaysConsistent(s, steps) <==> NeverUncompletes(s, steps)
    decreases |steps|
  {
    if steps != [] {
      CoherentStep(s, steps[0]);
      ConsumedStep(s, steps[0]);
      if ConsumedOnlyCompleted(Exec(s, steps[0])) {
        ConsumedIffNeverUncompletes(Exec(s, steps[0]), steps[1..]);
      }
    }
  }

  lemma {:induction false} RunConsumed(s: State, steps: seq<Step>)
    requires Coherent(s) && ConsumedOnlyCompleted(s) && IsRun(s, steps) && FreshRun(s, steps)
    ensures ConsumedOnlyCompleted(After(s, steps))
    decreases |steps|
  {
    if steps != [] {
      if steps[0].Do? {
        assert PcOk(s.db, steps[0].a, PcOf(s, steps[0].a));
      }
      CoherentStep(s, steps[0]);
      ConsumedStep(s, steps[0]);
      RunConsumed(Exec(s, steps[0]), steps[1..]);
    }
  }

  /** If every unguarded update is fresh, a consumed reservation belongs to a COMPLETED settlement. */
  lemma ConsumedMeansCompleted(steps: seq<Step>)
    requires IsRun(Initial, steps) && FreshRun(Initial, steps)
    ensures var db := After(Initial, steps).db;
            db.reservation == V.Consumed ==> db.row.Some? && db.row.value.status == S.Completed
  {
    RunConsumed(Initial, steps);
  }
}
