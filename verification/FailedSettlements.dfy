/** What FAILED says about the chain: when a settlement that has been given up was not paid, and will not be. */
module FailedSettlements {
  import opened Wrappers
  import opened SettlementProtocol
  import opened ChainTruth
  import S = SettlementStates

  predicate AllFailed(db: Db) {
    forall h :: h in db.chain ==> db.chain[h] == Failure
  }

  /** Nothing was paid and nothing will be: every broadcast transaction has finally failed. */
  predicate FailedUnpaid(db: Db) {
    db.row.Some? && db.row.value.status == S.Failed ==> AllFailed(db)
  }

  /**
   A markFailed while a broadcast transaction is not known to have failed, or a broadcast for a settlement that has
   failed meanwhile. Both can be seen before the step.
   */
  predicate Hasty(s: State, step: Step)
    requires Enabled(s, step)
  {
    match step
    case Do(a, Write) => Target(PcOf(s, a).m) == S.Failed && !AllFailed(s.db)
    case Do(_, Broadcast(h)) => s.db.row.Some? && s.db.row.value.status == S.Failed && h !in s.db.chain
    case Do(_, BroadcastUnnoticed(h)) => s.db.row.Some? && s.db.row.value.status == S.Failed && h !in s.db.chain
    case _ => false
  }

  lemma SentUnpaid(db: Db, h: Hash)
    requires FailedUnpaid(db)
    ensures FailedUnpaid(SentTo(db, h)) <==> !(db.row.Some? && db.row.value.status == S.Failed && h !in db.chain)
  {
    if h !in db.chain {
      assert SentTo(db, h).chain[h] == Unseen;
    }
  }

  lemma UnpaidStep(s: State, step: Step)
    requires FailedUnpaid(s.db) && Enabled(s, step)
    ensures FailedUnpaid(Exec(s, step).db) <==> !Hasty(s, step)
  {
    match step
    case Do(_, Broadcast(h)) => SentUnpaid(s.db, h);
    case Do(_, BroadcastUnnoticed(h)) => SentUnpaid(s.db, h);
    case _ =>
  }

  predicate AlwaysUnpaid(s: State, steps: seq<Step>)
    requires IsRun(s, steps)
    decreases |steps|
  {
    FailedUnpaid(s.db) && (steps == [] || AlwaysUnpaid(Exec(s, steps[0]), steps[1..]))
  }

  predicate NeverHasty(s: State, steps: seq<Step>)
    requires IsRun(s, steps)
    decreases |steps|
  {
    steps == [] || (!Hasty(s, steps[0]) && NeverHasty(Exec(s, steps[0]), steps[1..]))
  }

  /**
   In all states of a run FAILED means that every broadcast transaction has finally failed, exactly when no step is
   hasty.
   */
  lemma {:induction false} FailedUnpaidIffNeverHasty(s: State, steps: seq<Step>)
    requires FailedUnpaid(s.db) && IsRun(s, steps)
    ensures AlwaysUnpaid(s, steps) <==> NeverHasty(s, steps)
    decreases |steps|
  {
    if steps != [] {
      UnpaidStep(s, steps[0]);
      if FailedUnpaid(Exec(s, steps[0]).db) {
        FailedUnpaidIffNeverHasty(Exec(s, steps[0]), steps[1..]);
      }
    }
  }

  // ----- what the processes must keep to

  /** The worker is on its way to submitSettlement, inside it, or about to record what came of it. */
  predicate Submits(pc: Pc) {
    match pc
    case InFlow(entry) => entry == S.Submitting
    case Unsubmitted => true
    case _ => InWindow(pc)
  }

  predicate NobodySubmits(s: State) {
    forall w :: w in s.pcs && w.Worker? ==> !Submits(s.pcs[w])
  }

  /** The broadcast transaction whose hash the process has not stored yet. */
  function Carried(pc: Pc): Option<Hash> {
    match pc
    case Validating(m) => if m.ToSubmitted? then Some(m.h) else None
    case Writing(m, _) => if m.ToSubmitted? then Some(m.h) else None
    case _ => None
  }

  predicate HasFailed(db: Db, h: Hash) {
    h in db.chain && db.chain[h] == Failure
  }

  /** A mark that a sweep or its error handler makes because of the status or the age of a row alone. */
  predicate Blind(m: Mark) {
    m == ToFailed(NoHash) || m == ToReconcile(NoHash) || m == ToFailed(SweepError)
  }

  /**
   What has to go right. No lease runs out under a live worker. No worker dies or throws with a hash that it has not
   stored. No broadcast goes unnoticed. No sweep marks the row blindly while a worker submits, nor fails it blindly
   once it stores a hash. The RPC server answers FAILED, or NOT_FOUND for an old row, only for a failed transaction.
   */
  predicate Careful(s: State, step: Step)
    requires Enabled(s, step)
  {
    match step
    case Expire => PcOf(s, s.lock.holder.value) == Idle
    case Do(a, Crash) => Carried(PcOf(s, a)).None?
    case Do(a, Throw) => Carried(PcOf(s, a)).None?
    case Do(_, BroadcastUnnoticed(_)) => false
    case Do(a, Write) =>
      var m := PcOf(s, a).m;
      && (Blind(m) ==> NobodySubmits(s) && (m.ToFailed? ==> s.db.row.value.hash.None?))
      && (m.ToFailed? && m.origin.Forgotten? ==> HasFailed(s.db, m.origin.h))
    case Local(a, Answer(RpcFailed, _)) =>
      a.Daemon? && PcOf(s, a).Polling? ==> HasFailed(s.db, PcOf(s, a).h)
    case _ => true
  }

  predicate CarefulRun(s: State, steps: seq<Step>)
    requires IsRun(s, steps)
    decreases |steps|
  {
    steps == [] || (Careful(s, steps[0]) && CarefulRun(Exec(s, steps[0]), steps[1..]))
  }

  // ----- what that keeps

  /** The row knows the transaction, or the worker that has broadcast it still carries its hash. */
  ghost predicate Accounted(s: State, h: Hash) {
    || (s.db.row.Some? && s.db.row.value.hash == Some(h))
    || exists a: Actor :: a.Worker? && Carried(PcOf(s, a)) == Some(h)
  }

  predicate ReportsFailure(db: Db, pc: Pc) {
    (pc.Validating? || pc.Writing?) && pc.m.ToFailed? && pc.m.origin.Reported? ==> HasFailed(db, pc.m.origin.h)
  }

  predicate PcClean(db: Db, a: Actor, pc: Pc) {
    && (a.Worker? && Submits(pc) ==> db.row.Some? && db.row.value.status == S.Submitting)
    && ReportsFailure(db, pc)
    && (pc.Validating? || pc.Writing? ==> OwnMark(a, pc.m))
  }

  /** The marks that the code of each kind of process makes. */
  predicate OwnMark(a: Actor, m: Mark) {
    match m
    case ToFailed(origin) => if a.Worker? then origin == SubmitError else ByDaemon(origin) || origin == SweepError
    case ToReconcile(origin) => if a.Worker? then origin == SubmitError || origin == ConfirmError else origin == NoHash
    case _ => true
  }

  predicate EarlyHashless(db: Db) {
    db.row.Some? && S.Early(db.row.value.status) ==> db.row.value.hash.None?
  }

  ghost predicate Clean(s: State) {
    && EarlyHashless(s.db)
    && FailedUnpaid(s.db)
    && (forall a: Actor :: PcClean(s.db, a, PcOf(s, a)))
    && (forall h :: h in s.db.chain && s.db.chain[h] != Failure ==> Accounted(s, h))
  }

  /** The invariants that a careful run keeps together. */
  ghost predicate Steady(s: State) {
    Coherent(s) && Proven(s) && Aligned(s) && SoleSubmitter(s) && Clean(s)
  }

  /** Without a stored hash, and with nobody carrying one, nothing that was broadcast is still open. */
  lemma NothingOpen(s: State)
    requires Clean(s) && (s.db.row.Some? ==> s.db.row.value.hash.None?)
    requires forall a: Actor :: a.Worker? ==> Carried(PcOf(s, a)).None?
    ensures AllFailed(s.db)
  {
    forall h | h in s.db.chain
      ensures s.db.chain[h] == Failure
    {
      assert s.db.chain[h] != Failure ==> Accounted(s, h);
    }
  }

  /** If the stored hash has failed, so has everything else. */
  lemma StoredFailed(s: State, h: Hash)
    requires Clean(s) && s.db.row.Some? && s.db.row.value.hash == Some(h) && HasFailed(s.db, h)
    ensures AllFailed(s.db)
  {
    forall a: Actor | a.Worker?
      ensures Carried(PcOf(s, a)).None?
    {
      assert PcClean(s.db, a, PcOf(s, a));
    }
    forall g | g in s.db.chain
      ensures s.db.chain[g] == Failure
    {
      assert s.db.chain[g] != Failure ==> Accounted(s, g);
    }
  }

  /** Nobody loses a hash, and the row keeps its own: what was accounted for still is. */
  lemma CarriedStays(s: State, t: State)
    requires forall a: Actor :: a.Worker? && Carried(PcOf(s, a)).Some? ==> Carried(PcOf(t, a)) == Carried(PcOf(s, a))
    requires s.db.row.Some? && s.db.row.value.hash.Some? ==>
               t.db.row.Some? && t.db.row.value.hash == s.db.row.value.hash
    ensures forall h :: Accounted(s, h) ==> Accounted(t, h)
  {
  }

  /** A step of one process that leaves row and chain alone. */
  lemma MovedClean(s: State, t: State, a: Actor)
    requires Clean(s) && t.db.row == s.db.row && t.db.chain == s.db.chain
    requires forall b: Actor :: b != a ==> PcOf(t, b) == PcOf(s, b)
    requires PcClean(t.db, a, PcOf(t, a)) && Carried(PcOf(t, a)) == Carried(PcOf(s, a))
    ensures Clean(t)
  {
    CarriedStays(s, t);
    forall b: Actor
      ensures PcClean(t.db, b, PcOf(t, b))
    {
      assert PcClean(s.db, b, PcOf(s, b));
    }
  }

  lemma LocalClean(s: State, a: Actor, input: Input)
    requires Steady(s) && Enabled(s, Local(a, input)) && Careful(s, Local(a, input))
    ensures Clean(Exec(s, Local(a, input)))
  {
    assert PcOk(s.db, a, PcOf(s, a)) && PcClean(s.db, a, PcOf(s, a));
    MovedClean(s, Exec(s, Local(a, input)), a);
  }

  /** Effects that leave row and chain alone. */
  lemma QuietClean(s: State, a: Actor, e: Effect)
    requires Steady(s) && Enabled(s, Do(a, e)) && Careful(s, Do(a, e))
    requires e != Write && e != Claim && !e.Broadcast? && !e.BroadcastUnnoticed?
    ensures Clean(Exec(s, Do(a, e)))
  {
    assert PcOk(s.db, a, PcOf(s, a)) && PcClean(s.db, a, PcOf(s, a));
    MovedClean(s, Exec(s, Do(a, e)), a);
  }

  lemma ClaimClean(s: State, a: Actor)
    requires Steady(s) && Enabled(s, Do(a, Claim))
    ensures Clean(Exec(s, Do(a, Claim)))
  {
    var t := Exec(s, Do(a, Claim));
    assert PcOk(s.db, a, PcOf(s, a)) && PcClean(s.db, a, PcOf(s, a));
    CarriedStays(s, t);
    forall b: Actor
      ensures PcClean(t.db, b, PcOf(t, b))
    {
      assert PcClean(s.db, b, PcOf(s, b));
    }
  }

  lemma BroadcastClean(s: State, a: Actor, h: Hash)
    requires Steady(s) && Enabled(s, Do(a, Broadcast(h)))
    ensures Clean(Exec(s, Do(a, Broadcast(h))))
  {
    var t := Exec(s, Do(a, Broadcast(h)));
    assert PcOk(s.db, a, PcOf(s, a)) && PcClean(s.db, a, PcOf(s, a));
    assert Carried(PcOf(t, a)) == Some(h);
    CarriedStays(s, t);
    forall b: Actor
      ensures PcClean(t.db, b, PcOf(t, b))
    {
      assert PcClean(s.db, b, PcOf(s, b));
    }
  }

  /** A careful markFailed finds every broadcast transaction failed. */
  lemma FailsUnpaid(s: State, a: Actor)
    requires Steady(s) && Enabled(s, Do(a, Write)) && Careful(s, Do(a, Write)) && PcOf(s, a).m.ToFailed?
    ensures AllFailed(s.db)
  {
    var m := PcOf(s, a).m;
    assert PcOk(s.db, a, PcOf(s, a)) && PcClean(s.db, a, PcOf(s, a));
    if m.origin.Reported? || m.origin.Forgotten? {
      assert WorksOn(PcOf(s, a)) == Some(m.origin.h);
      StoredFailed(s, m.origin.h);
    } else {
      forall b: Actor | b.Worker?
        ensures Carried(PcOf(s, b)).None?
      {
        assert Carried(PcOf(s, b)).Some? ==> Submits(PcOf(s, b)) && b in s.pcs;
      }
      NothingOpen(s);
    }
  }

  /** While a worker writes, no other one is at work; and no daemon writes blindly while one submits. */
  lemma WriterAlone(s: State, a: Actor, b: Actor)
    requires Steady(s) && Enabled(s, Do(a, Write)) && Careful(s, Do(a, Write))
    requires b.Worker? && b != a
    ensures !Submits(PcOf(s, b))
  {
    var m := PcOf(s, a).m;
    assert PcOk(s.db, a, PcOf(s, a)) && PcClean(s.db, b, PcOf(s, b));
    assert PcClean(s.db, a, PcOf(s, a));
    assert a.Daemon? && !Blind(m) ==> WorksOn(PcOf(s, a)).Some?;
    assert Submits(PcOf(s, b)) ==> b in s.pcs;
  }

  lemma WriteClean(s: State, a: Actor)
    requires Steady(s) && Enabled(s, Do(a, Write)) && Careful(s, Do(a, Write))
    ensures Clean(Exec(s, Do(a, Write)))
  {
    WriteRow(s, a);
    WritePcs(s, a);
    WriteAccounted(s, a);
  }

  lemma WriteRow(s: State, a: Actor)
    requires Steady(s) && Enabled(s, Do(a, Write)) && Careful(s, Do(a, Write))
    ensures EarlyHashless(Exec(s, Do(a, Write)).db) && FailedUnpaid(Exec(s, Do(a, Write)).db)
  {
    if PcOf(s, a).m.ToFailed? {
      FailsUnpaid(s, a);
    }
  }

  lemma WritePcs(s: State, a: Actor)
    requires Steady(s) && Enabled(s, Do(a, Write)) && Careful(s, Do(a, Write))
    ensures var t := Exec(s, Do(a, Write)); forall b: Actor :: PcClean(t.db, b, PcOf(t, b))
  {
    var t := Exec(s, Do(a, Write));
    assert t.db.chain == s.db.chain;
    forall b: Actor
      ensures PcClean(t.db, b, PcOf(t, b))
    {
      assert PcClean(s.db, b, PcOf(s, b));
      if b.Worker? && b != a {
        WriterAlone(s, a, b);
      }
    }
  }

  lemma WriteAccounted(s: State, a: Actor)
    requires Steady(s) && Enabled(s, Do(a, Write)) && Careful(s, Do(a, Write))
    ensures var t := Exec(s, Do(a, Write));
            forall h :: h in t.db.chain && t.db.chain[h] != Failure ==> Accounted(t, h)
  {
    var t := Exec(s, Do(a, Write));
    forall h | h in t.db.chain && t.db.chain[h] != Failure
      ensures Accounted(t, h)
    {
      assert Accounted(s, h) && PcClean(s.db, a, PcOf(s, a)) && PcOk(s.db, a, PcOf(s, a));
      if s.db.row.value.hash != Some(h) {
        var b: Actor :| b.Worker? && Carried(PcOf(s, b)) == Some(h);
        if b != a {
          WriterAlone(s, a, b);
          assert false;
        }
      }
    }
  }

  lemma EventClean(s: State, ev: Event)
    requires Steady(s) && Enabled(s, Happen(ev))
    ensures Clean(Exec(s, Happen(ev)))
  {
    var t := Exec(s, Happen(ev));
    CarriedStays(s, t);
    forall b: Actor
      ensures PcClean(t.db, b, PcOf(t, b))
    {
      assert PcOk(s.db, b, PcOf(s, b)) && PcClean(s.db, b, PcOf(s, b));
    }
  }

  lemma CleanStep(s: State, step: Step)
    requires Steady(s) && Enabled(s, step) && Careful(s, step)
    ensures Clean(Exec(s, step))
  {
    match step
    case Local(a, input) => LocalClean(s, a, input);
    case Do(a, Write) => WriteClean(s, a);
    case Do(a, Claim) => ClaimClean(s, a);
    case Do(a, Broadcast(h)) => BroadcastClean(s, a, h);
    case Do(a, e) => QuietClean(s, a, e);
    case Happen(ev) => EventClean(s, ev);
    case _ =>
      CarriedStays(s, Exec(s, step));
      forall b: Actor
        ensures PcClean(s.db, b, PcOf(Exec(s, step), b))
      {
        assert PcClean(s.db, b, PcOf(s, b));
      }
  }

  lemma SteadyStep(s: State, step: Step)
    requires Steady(s) && Enabled(s, step) && Careful(s, step)
    ensures Steady(Exec(s, step))
  {
    CoherentStep(s, step);
    ProvenStep(s, step);
    NoOverwrite(s, step);
    AlignedStep(s, step);
    SoleSubmitterStep(s, step);
    CleanStep(s, step);
  }

  lemma {:induction false} RunSteady(s: State, steps: seq<Step>)
    requires Steady(s) && IsRun(s, steps) && CarefulRun(s, steps)
    ensures Steady(After(s, steps))
    decreases |steps|
  {
    if steps != [] {
      SteadyStep(s, steps[0]);
      RunSteady(Exec(s, steps[0]), steps[1..]);
    }
  }

  /** In every careful run a FAILED settlement was not paid and will not be. */
  lemma CarefulFailedUnpaid(steps: seq<Step>)
    requires IsRun(Initial, steps) && CarefulRun(Initial, steps)
    ensures FailedUnpaid(After(Initial, steps).db)
  {
    RunSteady(Initial, steps);
  }
}
