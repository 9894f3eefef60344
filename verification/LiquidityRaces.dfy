/**
 confirmReservation, consumeReservation and releaseReservation read the reservation before they lock the pool, and
 confirmReservation locks nothing at all. Here each of them is a read and a later write, and any number of calls
 interleave; operations that lock the pool before they read it stay one step.
 */
module LiquidityRaces {
  import opened Wrappers
  import opened LiquidityLedger
  import V = ReservationStates

  // ----- what one write half does

  lemma SpendActiveSound(seeds: Seeds, l: Ledger, i: nat)
    requires Sound(seeds, l) && i < |l.reservations| && V.Active(l.reservations[i].status)
    ensures Sound(seeds, Spend(l, i))
  {
    FindOwn(l.reservations, i);
    ConsumeSound(seeds, l, l.reservations[i].order);
  }

  lemma {:induction false} FindOwn(rows: seq<Reservation>, i: nat)
    requires i < |rows| && forall j, k :: 0 <= j < k < |rows| ==> rows[j].order != rows[k].order
    ensures Find(rows, rows[i].order) == i
  {
    if i > 0 {
      FindOwn(rows[1..], i - 1);
    }
  }

  /** Spending a reservation a second time gives it a second payout row. */
  lemma SpentTwice(l: Ledger, i: nat)
    requires RowsSound(l) && PayoutCounts(l)
    requires i < |l.reservations| && l.reservations[i].status == V.Consumed
    ensures !PayoutCounts(Spend(l, i))
  {
    var r := l.reservations[i];
    FindOwn(l.reservations, i);
    NetAppend(l.treasury, TreasuryRow(r.pool, SettlementPayout, r.amount, Some(r.order)), 0, r.order);
    assert Payouts(Spend(l, i).treasury, r.order) == 2;
  }

  /** Spending a released reservation takes its amount off a sum that does not contain it. */
  lemma SpentReleased(seeds: Seeds, l: Ledger, i: nat, q: PoolId)
    requires RowsSound(l) && q in l.pools && PoolSound(seeds, l, q)
    requires i < |l.reservations| && !V.Active(l.reservations[i].status)
    ensures PoolSound(seeds, Spend(l, i), q) <==>
            (q == l.reservations[i].pool ==> l.pools[q].reserved == 0 && l.reservations[i].amount <= l.pools[q].total)
  {
    var r := l.reservations[i];
    HeldUpdate(l.reservations, i, r.(status := V.Consumed), q);
    NetAppend(l.treasury, TreasuryRow(r.pool, SettlementPayout, r.amount, Some(r.order)), q, r.order);
  }

  lemma SpentReleasedPayouts(l: Ledger, i: nat)
    requires RowsSound(l) && PayoutsSound(l) && i < |l.reservations|
    requires !V.Active(l.reservations[i].status) && l.reservations[i].status != V.Consumed
    ensures PayoutsSound(Spend(l, i))
  {
    var r := l.reservations[i];
    var l' := Spend(l, i);
    FindOwn(l.reservations, i);
    forall o: OrderId
      ensures Find(l'.reservations, o) == Find(l.reservations, o)
      ensures Payouts(l'.treasury, o) == Payouts(l.treasury, o) + if o == r.order then 1 else 0
    {
      FindUpdate(l.reservations, i, r.(status := V.Consumed), o);
      NetAppend(l.treasury, TreasuryRow(r.pool, SettlementPayout, r.amount, Some(r.order)), 0, o);
    }
  }

  /**
   consumeReservation reads the reservation before it locks the pool. What it then writes keeps the ledger sound
   exactly if the reservation is still active, or if it has been released and its pool holds nothing back and can
   pay; a second completion that read the first one's state would subtract the amount again.
   */
  lemma SpendSoundIff(seeds: Seeds, l: Ledger, i: nat)
    requires Sound(seeds, l) && i < |l.reservations|
    ensures var r := l.reservations[i];
            Sound(seeds, Spend(l, i)) <==>
            || V.Active(r.status)
            || (r.status != V.Consumed && l.pools[r.pool].reserved == 0 && r.amount <= l.pools[r.pool].total)
  {
    var r := l.reservations[i];
    if V.Active(r.status) {
      SpendActiveSound(seeds, l, i);
    } else if r.status == V.Consumed {
      SpentTwice(l, i);
    } else {
      forall q | q in l.pools
        ensures PoolSound(seeds, Spend(l, i), q) <==>
                (q == r.pool ==> l.pools[q].reserved == 0 && r.amount <= l.pools[q].total)
      {
        SpentReleased(seeds, l, i, q);
      }
      SpentReleasedPayouts(l, i);
      assert r.pool in l.pools;
    }
  }

  lemma PromotedHeld(l: Ledger, i: nat)
    requires i < |l.reservations|
    ensures var r := l.reservations[i];
            Held(Promote(l, i).reservations, r.pool)
            == Held(l.reservations, r.pool) + if V.Active(r.status) then 0 else r.amount
  {
    var r := l.reservations[i];
    HeldUpdate(l.reservations, i, r.(status := V.Confirmed), r.pool);
  }

  /** Confirming keeps the ledger sound exactly if the reservation is still active. */
  lemma PromoteSoundIff(seeds: Seeds, l: Ledger, i: nat)
    requires Sound(seeds, l) && i < |l.reservations|
    ensures Sound(seeds, Promote(l, i)) <==> V.Active(l.reservations[i].status)
  {
    var r := l.reservations[i];
    assert PoolSound(seeds, l, r.pool);
    if V.Active(r.status) {
      StatusSound(seeds, l, i, r.(status := V.Confirmed), l.pools[r.pool]);
      assert l.pools[r.pool := l.pools[r.pool]] == l.pools;
    } else {
      PromotedHeld(l, i);
      assert r.pool in Promote(l, i).pools;
      assert !PoolSound(seeds, Promote(l, i), r.pool);
    }
  }

  lemma FreedPool(seeds: Seeds, l: Ledger, i: nat, target: V.Status, q: PoolId)
    requires RowsSound(l) && q in l.pools && PoolSound(seeds, l, q) && !V.Active(target)
    requires i < |l.reservations| && !V.Active(l.reservations[i].status)
    ensures PoolSound(seeds, Free(l, i, target), q) <==> (q == l.reservations[i].pool ==> l.pools[q].reserved == 0)
  {
    HeldUpdate(l.reservations, i, l.reservations[i].(status := target), q);
  }

  lemma FreedPayouts(l: Ledger, i: nat, target: V.Status)
    requires RowsSound(l) && PayoutsSound(l) && i < |l.reservations| && target != V.Consumed
    ensures PayoutsSound(Free(l, i, target)) <==> l.reservations[i].status != V.Consumed
  {
    var r := l.reservations[i];
    var l' := Free(l, i, target);
    FindOwn(l.reservations, i);
    forall o: OrderId
      ensures Find(l'.reservations, o) == Find(l.reservations, o)
    {
      FindUpdate(l.reservations, i, r.(status := target), o);
    }
    if r.status == V.Consumed {
      assert Payouts(l'.treasury, r.order) == 1;
    }
  }

  /** Releasing a reservation that is no longer active. */
  lemma FreeDeadSoundIff(seeds: Seeds, l: Ledger, i: nat, target: V.Status)
    requires Sound(seeds, l) && i < |l.reservations| && !V.Active(l.reservations[i].status)
    requires !V.Active(target) && target != V.Consumed
    ensures var r := l.reservations[i];
            Sound(seeds, Free(l, i, target)) <==> r.status != V.Consumed && l.pools[r.pool].reserved == 0
  {
    var r := l.reservations[i];
    forall q | q in l.pools
      ensures PoolSound(seeds, Free(l, i, target), q) <==> (q == r.pool ==> l.pools[q].reserved == 0)
    {
      FreedPool(seeds, l, i, target, q);
    }
    FreedPayouts(l, i, target);
    assert r.pool in Free(l, i, target).pools;
  }

  /** Releasing keeps the ledger sound if the reservation is still active, or was released from an empty pool. */
  lemma FreeSoundIff(seeds: Seeds, l: Ledger, i: nat, target: V.Status)
    requires Sound(seeds, l) && i < |l.reservations| && !V.Active(target) && target != V.Consumed
    ensures var r := l.reservations[i];
            Sound(seeds, Free(l, i, target)) <==>
            V.Active(r.status) || (r.status != V.Consumed && l.pools[r.pool].reserved == 0)
  {
    var r := l.reservations[i];
    if V.Active(r.status) {
      FindOwn(l.reservations, i);
      ReleaseSound(seeds, l, r.order, target);
    } else {
      FreeDeadSoundIff(seeds, l, i, target);
    }
  }

  // ----- interleaved calls

  /** What a call will write, for the reservation row `i` that it has read. */
  datatype Half = Promoting(i: nat) | Spending(i: nat) | Freeing(i: nat, expired: bool)

  datatype State = State(ledger: Ledger, calls: map<nat, Half>)

  datatype Step =
    | ReadToConfirm(c: nat, order: OrderId)
    | ReadToConsume(c: nat, order: OrderId)
    | ReadToRelease(c: nat, order: OrderId, expired: bool)
    | Write(c: nat)
    | Abandon(c: nat)
    | Whole(op: Op)                       // an operation that nothing separates

  predicate Enabled(s: State, step: Step) {
    match step
    case ReadToConfirm(c, _) => c !in s.calls
    case ReadToConsume(c, _) => c !in s.calls
    case ReadToRelease(c, _, _) => c !in s.calls
    case Write(c) =>
      c in s.calls && s.calls[c].i < |s.ledger.reservations|
      && s.ledger.reservations[s.calls[c].i].pool in s.ledger.pools
    case Abandon(c) => c in s.calls
    case Whole(_) => true
  }

  /** The call goes on if it has read a row in a status that lets it, and returns otherwise. */
  function Reads(s: State, c: nat, half: Half, allowed: set<V.Status>): State {
    if half.i < |s.ledger.reservations| && s.ledger.reservations[half.i].status in allowed
    then s.(calls := s.calls[c := half]) else s
  }

  function Written(l: Ledger, half: Half): Ledger
    requires half.i < |l.reservations| && l.reservations[half.i].pool in l.pools
  {
    match half
    case Promoting(i) => Promote(l, i)
    case Spending(i) => Spend(l, i)
    case Freeing(i, expired) => Free(l, i, Released(expired))
  }

  function Exec(s: State, step: Step): State
    requires Enabled(s, step)
  {
    match step
    case ReadToConfirm(c, order) => Reads(s, c, Promoting(Find(s.ledger.reservations, order)), {V.Reserved})
    case ReadToConsume(c, order) =>
      Reads(s, c, Spending(Find(s.ledger.reservations, order)), {V.Reserved, V.Confirmed})
    case ReadToRelease(c, order, expired) =>
      Reads(s, c, Freeing(Find(s.ledger.reservations, order), expired), {V.Reserved, V.Confirmed})
    case Write(c) => State(Written(s.ledger, s.calls[c]), s.calls - {c})
    case Abandon(c) => s.(calls := s.calls - {c})
    case Whole(op) => s.(ledger := Apply(s.ledger, op))
  }

  predicate IsRun(s: State, steps: seq<Step>)
    decreases |steps|
  {
    steps == [] || (Enabled(s, steps[0]) && IsRun(Exec(s, steps[0]), steps[1..]))
  }

  function After(s: State, steps: seq<Step>): State
    requires IsRun(s, steps)
    decreases |steps|
  {
    if steps == [] then s else After(Exec(s, steps[0]), steps[1..])
  }

  /** A read and a write that nothing separates are the whole operation. */
  lemma HalvesAreWhole(s: State, c: nat, order: OrderId, expired: bool)
    requires c !in s.calls && RowsSound(s.ledger)
    ensures var read := Exec(s, ReadToConfirm(c, order));
            (if c in read.calls then Exec(read, Write(c)) else read) == Exec(s, Whole(OpConfirm(order)))
    ensures var read := Exec(s, ReadToConsume(c, order));
            (if c in read.calls then Exec(read, Write(c)) else read) == Exec(s, Whole(OpConsume(order)))
    ensures var read := Exec(s, ReadToRelease(c, order, expired));
            (if c in read.calls then Exec(read, Write(c)) else read) == Exec(s, Whole(OpRelease(order, expired)))
  {
    var i := Find(s.ledger.reservations, order);
    assert s.calls[c := Promoting(i)] - {c} == s.calls;
    assert s.calls[c := Spending(i)] - {c} == s.calls;
    assert s.calls[c := Freeing(i, expired)] - {c} == s.calls;
  }

  /**
   A late write that the ledger does not survive: confirming what is no longer active; consuming what is consumed,
   or released while the pool holds something back or cannot pay; releasing what is consumed, or released while the
   pool holds something back.
   */
  predicate Breaks(s: State, step: Step)
    requires Enabled(s, step)
  {
    match step
    case Write(c) =>
      var r := s.ledger.reservations[s.calls[c].i];
      var pool := s.ledger.pools[r.pool];
      !V.Active(r.status) &&
      (match s.calls[c]
       case Promoting(_) => true
       case Spending(_) => r.status == V.Consumed || pool.reserved != 0 || pool.total < r.amount
       case Freeing(_, _) => r.status == V.Consumed || pool.reserved != 0)
    case _ => false
  }

  lemma StepSoundIff(seeds: Seeds, s: State, step: Step)
    requires Sound(seeds, s.ledger) && Enabled(s, step)
    ensures Sound(seeds, Exec(s, step).ledger) <==> !Breaks(s, step)
  {
    match step
    case Write(c) =>
      match s.calls[c] {
        case Promoting(i) => PromoteSoundIff(seeds, s.ledger, i);
        case Spending(i) => SpendSoundIff(seeds, s.ledger, i);
        case Freeing(i, expired) => FreeSoundIff(seeds, s.ledger, i, Released(expired));
      }
    case Whole(op) => ApplySound(seeds, s.ledger, op);
    case _ =>
  }

  ghost predicate AlwaysSound(seeds: Seeds, s: State, steps: seq<Step>)
    requires IsRun(s, steps)
    decreases |steps|
  {
    Sound(seeds, s.ledger) && (steps == [] || AlwaysSound(seeds, Exec(s, steps[0]), steps[1..]))
  }

  predicate NeverBreaks(s: State, steps: seq<Step>)
    requires IsRun(s, steps)
    decreases |steps|
  {
    steps == [] || (!Breaks(s, steps[0]) && NeverBreaks(Exec(s, steps[0]), steps[1..]))
  }

  /** However calls interleave, the ledger is sound in all states of a run exactly when no late write breaks it. */
  lemma {:induction false} SoundIffNeverBreaks(seeds: Seeds, s: State, steps: seq<Step>)
    requires Sound(seeds, s.ledger) && IsRun(s, steps)
    ensures AlwaysSound(seeds, s, steps) <==> NeverBreaks(s, steps)
    decreases |steps|
  {
    if steps != [] {
      StepSoundIff(seeds, s, steps[0]);
      if Sound(seeds, Exec(s, steps[0]).ledger) {
        SoundIffNeverBreaks(seeds, Exec(s, steps[0]), steps[1..]);
      }
    }
  }

  // ----- it happens

  lemma OneStep(s: State, step: Step, rest: seq<Step>)
    requires Enabled(s, step) && IsRun(Exec(s, step), rest)
    ensures IsRun(s, [step] + rest) && After(s, [step] + rest) == After(Exec(s, step), rest)
  {
    assert ([step] + rest)[1..] == rest;
  }

  lemma SpentAgain(seeds: Seeds, l: Ledger, i: nat)
    requires Sound(seeds, l) && i < |l.reservations| && V.Active(l.reservations[i].status)
    ensures !Sound(seeds, Spend(Spend(l, i), i))
  {
    SpendSoundIff(seeds, l, i);
    SpendSoundIff(seeds, Spend(l, i), i);
  }

  lemma BothRead(s: State, order: OrderId)
    requires s.calls == map[] && StatusOf(s.ledger, order).Some? && V.Active(StatusOf(s.ledger, order).value)
    ensures var i := Find(s.ledger.reservations, order);
            Exec(Exec(s, ReadToConsume(1, order)), ReadToConsume(2, order))
            == State(s.ledger, map[1 := Spending(i), 2 := Spending(i)])
  {
    var i := Find(s.ledger.reservations, order);
    assert Exec(s, ReadToConsume(1, order)).calls == map[1 := Spending(i)];
    assert map[1 := Spending(i)][2 := Spending(i)] == map[1 := Spending(i), 2 := Spending(i)];
  }

  lemma BothWrite(l: Ledger, i: nat)
    requires i < |l.reservations| && l.reservations[i].pool in l.pools
    ensures var s := State(l, map[1 := Spending(i), 2 := Spending(i)]);
            IsRun(s, [Write(1)] + ([Write(2)] + []))
            && After(s, [Write(1)] + ([Write(2)] + [])).ledger == Spend(Spend(l, i), i)
  {
    var s := State(l, map[1 := Spending(i), 2 := Spending(i)]);
    var s1 := Exec(s, Write(1));
    assert s1.calls == map[2 := Spending(i)];
    assert IsRun(Exec(s1, Write(2)), []);
    OneStep(s1, Write(2), []);
    OneStep(s, Write(1), [Write(2)] + []);
  }

  /** From every sound state with an active reservation: two completions that both read it subtract it twice. */
  lemma ConsumedTwice(seeds: Seeds, s: State, order: OrderId) returns (steps: seq<Step>)
    requires Sound(seeds, s.ledger) && s.calls == map[] && StatusOf(s.ledger, order).Some?
    requires V.Active(StatusOf(s.ledger, order).value)
    ensures IsRun(s, steps) && !Sound(seeds, After(s, steps).ledger)
  {
    var i := Find(s.ledger.reservations, order);
    SpentAgain(seeds, s.ledger, i);
    BothRead(s, order);
    BothWrite(s.ledger, i);
    var writes := [Write(1)] + ([Write(2)] + []);
    OneStep(Exec(s, ReadToConsume(1, order)), ReadToConsume(2, order), writes);
    OneStep(s, ReadToConsume(1, order), [ReadToConsume(2, order)] + writes);
    steps := [ReadToConsume(1, order)] + ([ReadToConsume(2, order)] + writes);
  }

  /** From every sound state with a RESERVED reservation: a payment that read it before its expiry confirms it after. */
  lemma ConfirmedLate(seeds: Seeds, s: State, order: OrderId) returns (steps: seq<Step>)
    requires Sound(seeds, s.ledger) && s.calls == map[] && StatusOf(s.ledger, order) == Some(V.Reserved)
    ensures IsRun(s, steps) && !Sound(seeds, After(s, steps).ledger)
    ensures StatusOf(After(s, steps).ledger, order) == Some(V.Confirmed)
  {
    var i := Find(s.ledger.reservations, order);
    var r := s.ledger.reservations[i];
    var expire := Whole(OpRelease(order, true));
    var s1 := State(s.ledger, map[1 := Promoting(i)]);
    var s2 := Exec(s1, expire);
    ReleaseSound(seeds, s.ledger, order, V.ExpiredReleased);
    assert s2.ledger == Free(s.ledger, i, V.ExpiredReleased);
    StepSoundIff(seeds, s2, Write(1));
    var s3 := Exec(s2, Write(1));
    FindUpdate(s.ledger.reservations, i, r.(status := V.ExpiredReleased), order);
    FindUpdate(s2.ledger.reservations, i, r.(status := V.Confirmed), order);
    assert IsRun(s3, []);
    OneStep(s2, Write(1), []);
    OneStep(s1, expire, [Write(1)] + []);
    assert Exec(s, ReadToConfirm(1, order)).calls == s1.calls;
    OneStep(s, ReadToConfirm(1, order), [expire] + ([Write(1)] + []));
    steps := [ReadToConfirm(1, order)] + ([expire] + ([Write(1)] + []));
  }
}
