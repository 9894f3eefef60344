/**
 Webhook and verify handlers of src/modules/webhooks/webhooks.service.ts and src/modules/payments/payments.service.ts,
 interleaved over the payment and webhook event rows. A handler reads a payment, may wait for its provider, and
 writes only if the status is still the one it has read; createPayment and the reconciliation daemon write without
 that guard.
 */
module Payments {
  import opened Wrappers
  import opened PaymentStates

  type PaymentId = nat
  type HandlerId = nat

  /** (provider, eventId), unique in webhook_events. */
  type EventKey = (nat, nat)

  datatype Handler =
    | Claimed(key: EventKey, payment: Option<PaymentId>, to: Status)    // event row created
    | Asked(p: PaymentId, seen: Status)                                 // verifyPayment waits for the provider
    | Ready(event: Option<EventKey>, p: PaymentId, seen: Status, to: Status)
    | Applied(key: EventKey)

  /** A payment update that matched a row. */
  datatype Commit = Commit(p: PaymentId, from: Status, to: Status)

  datatype State = State(
    payments: map<PaymentId, Status>,
    events: map<EventKey, bool>,          // the processed flag
    handlers: map<HandlerId, Handler>,
    log: seq<Commit>,                     // history: committed payment updates
    reached: seq<EventKey>                // history: events whose handler entered the payment update
  )

  datatype Step =
    | Insert(p: PaymentId)                                              // createPayment establishes the intent
    | Overwrite(p: PaymentId, to: Status)                               // unguarded update
    | Receive(h: HandlerId, key: EventKey, payment: Option<PaymentId>, to: Status)
    | Lookup(h: HandlerId)
    | Verify(h: HandlerId, p: PaymentId)
    | Answer(h: HandlerId, to: Status)
    | Write(h: HandlerId)
    | Finish(h: HandlerId)
    | Crash(h: HandlerId)                                               // an exception, or the process dies

  predicate Enabled(s: State, step: Step) {
    match step
    case Insert(p) => p !in s.payments
    case Overwrite(p, _) => p in s.payments
    case Receive(h, _, _, _) => h !in s.handlers
    case Lookup(h) => h in s.handlers && s.handlers[h].Claimed?
    case Verify(h, p) => h !in s.handlers && p in s.payments
    case Answer(h, _) => h in s.handlers && s.handlers[h].Asked?
    case Write(h) => h in s.handlers && s.handlers[h].Ready? && s.handlers[h].p in s.payments
    case Finish(h) => h in s.handlers && s.handlers[h].Applied?
    case Crash(h) => h in s.handlers
  }

  function Update(s: State, p: PaymentId, to: Status): State
    requires p in s.payments
  {
    s.(payments := s.payments[p := to], log := s.log + [Commit(p, s.payments[p], to)])
  }

  /** The next handler state, or None when the call has ended. */
  function Continue(s: State, h: HandlerId, next: Option<Handler>): State {
    s.(handlers := if next.Some? then s.handlers[h := next.value] else s.handlers - {h})
  }

  function ExecLookup(s: State, h: HandlerId, c: Handler): State
    requires c.Claimed?
  {
    if c.payment.Some? && c.payment.value in s.payments && CanTransition(s.payments[c.payment.value], c.to)
    then
      Continue(s, h, Some(Ready(Some(c.key), c.payment.value, s.payments[c.payment.value], c.to)))
      .(reached := s.reached + [c.key])
    else Continue(s, h, Some(Applied(c.key)))
  }

  function ExecWrite(s: State, h: HandlerId, c: Handler): State
    requires c.Ready? && c.p in s.payments
  {
    var s' := if s.payments[c.p] == c.seen then Update(s, c.p, c.to) else s;
    Continue(s', h, if c.event.Some? then Some(Applied(c.event.value)) else None)
  }

  function Exec(s: State, step: Step): State
    requires Enabled(s, step)
  {
    match step
    case Insert(p) => s.(payments := s.payments[p := Created])
    case Overwrite(p, to) => Update(s, p, to)
    case Receive(h, key, payment, to) =>
      if key in s.events then s
      else Continue(s.(events := s.events[key := false]), h, Some(Claimed(key, payment, to)))
    case Lookup(h) => ExecLookup(s, h, s.handlers[h])
    case Verify(h, p) => Continue(s, h, Some(Asked(p, s.payments[p])))
    case Answer(h, to) =>
      var c := s.handlers[h];
      Continue(s, h, if CanTransition(c.seen, to) then Some(Ready(None, c.p, c.seen, to)) else None)
    case Write(h) => ExecWrite(s, h, s.handlers[h])
    case Finish(h) => Continue(s.(events := s.events[s.handlers[h].key := true]), h, None)
    case Crash(h) => Continue(s, h, None)
  }

  predicate IsRun(s: State, steps: seq<Step>)
    decreases |steps|
  {
    steps == [] || (Enabled(s, steps[0]) && IsRun(Exec(s, steps[0]), steps[1..]))
  }

  function After(s: State, steps: seq<Step>): State
    requires IsRun(s, steps)
    decreases |steps|
  {
    if steps == [] then s else After(Exec(s, steps[0]), steps[1..])
  }

  const Empty: State := State(map[], map[], map[], [], [])

  // ----- the table as an order

  /** `b` can be reached from `a` along the table. */
  predicate Reachable(a: Status, b: Status) {
    CanTransition(a, b) || (b == Refunded && CanTransition(a, Succeeded))
  }

  lemma ReachableOrder(a: Status, b: Status, c: Status)
    ensures Reachable(a, b) && Reachable(b, c) ==> Reachable(a, c)
    ensures Reachable(a, b) && Reachable(b, a) ==> a == b
  {
  }

  // ----- payments move along the table

  /** Handlers only write what the table allows from the status they have read. */
  predicate HandlersReady(s: State) {
    forall h :: h in s.handlers && s.handlers[h].Ready? ==> CanTransition(s.handlers[h].seen, s.handlers[h].to)
  }

  predicate Logged(s: State) {
    forall k :: 0 <= k < |s.log| ==> s.log[k].p in s.payments
  }

  predicate OnTable(s: State) {
    forall k :: 0 <= k < |s.log| ==> CanTransition(s.log[k].from, s.log[k].to)
  }

  /** Later updates of a payment start where the table leads from earlier ones. */
  predicate Ordered(s: State) {
    && (forall i, j :: 0 <= i < j < |s.log| && s.log[i].p == s.log[j].p ==> Reachable(s.log[i].to, s.log[j].from))
    && (forall k :: 0 <= k < |s.log| && s.log[k].p in s.payments ==> Reachable(s.log[k].to, s.payments[s.log[k].p]))
  }

  /** An unguarded write that the table does not allow. */
  predicate OffTable(s: State, step: Step) {
    step.Overwrite? && step.p in s.payments && !CanTransition(s.payments[step.p], step.to)
  }

  lemma UpdateOrdered(s: State, p: PaymentId, to: Status)
    requires p in s.payments && Logged(s) && OnTable(s) && Ordered(s) && CanTransition(s.payments[p], to)
    ensures OnTable(Update(s, p, to)) && Ordered(Update(s, p, to))
  {
    var s' := Update(s, p, to);
    forall k | 0 <= k < |s'.log|
      ensures Reachable(s'.log[k].to, s'.payments[s'.log[k].p])
    {
      if k < |s.log| && s.log[k].p == p {
        ReachableOrder(s.log[k].to, s.payments[p], to);
      }
    }
  }

  /** A step stays on the table exactly when it is no unguarded write off the table. */
  lemma StepOnTableIff(s: State, step: Step)
    requires Enabled(s, step) && HandlersReady(s) && Logged(s) && OnTable(s) && Ordered(s)
    ensures HandlersReady(Exec(s, step)) && Logged(Exec(s, step))
    ensures OnTable(Exec(s, step)) <==> !OffTable(s, step)
    ensures !OffTable(s, step) ==> Ordered(Exec(s, step))
  {
    var s' := Exec(s, step);
    if OffTable(s, step) {
      assert s'.log[|s.log|] == Commit(step.p, s.payments[step.p], step.to);
    } else if step.Overwrite? {
      UpdateOrdered(s, step.p, step.to);
    } else if step.Write? && s.payments[s.handlers[step.h].p] == s.handlers[step.h].seen {
      UpdateOrdered(s, s.handlers[step.h].p, s.handlers[step.h].to);
    }
  }

  predicate NeverOffTable(s: State, steps: seq<Step>)
    requires IsRun(s, steps)
    decreases |steps|
  {
    steps == [] || (!OffTable(s, steps[0]) && NeverOffTable(Exec(s, steps[0]), steps[1..]))
  }

  lemma {:induction false} LogGrows(s: State, steps: seq<Step>)
    requires IsRun(s, steps)
    ensures s.log <= After(s, steps).log
    decreases |steps|
  {
    if steps != [] {
      LogGrows(Exec(s, steps[0]), steps[1..]);
    }
  }

  lemma {:induction false} RunOnTableIff(s: State, steps: seq<Step>)
    requires IsRun(s, steps) && HandlersReady(s) && Logged(s) && OnTable(s) && Ordered(s)
    ensures OnTable(After(s, steps)) <==> NeverOffTable(s, steps)
    ensures NeverOffTable(s, steps) ==> Ordered(After(s, steps))
    decreases |steps|
  {
    if steps != [] {
      var s' := Exec(s, steps[0]);
      StepOnTableIff(s, steps[0]);
      if OffTable(s, steps[0]) {
        LogGrows(s', steps[1..]);
        OffTableStays(s', After(s', steps[1..]));
      } else {
        RunOnTableIff(s', steps[1..]);
      }
    }
  }

  lemma OffTableStays(s: State, s': State)
    requires !OnTable(s) && s.log <= s'.log
    ensures !OnTable(s')
  {
    var k :| 0 <= k < |s.log| && !CanTransition(s.log[k].from, s.log[k].to);
    assert s'.log[k] == s.log[k];
  }

  /** Payments move only along the table, in every run, exactly if no unguarded write leaves it. */
  lemma MovesAlongTableIff(steps: seq<Step>)
    requires IsRun(Empty, steps)
    ensures OnTable(After(Empty, steps)) <==> NeverOffTable(Empty, steps)
  {
    RunOnTableIff(Empty, steps);
  }

  /** Over a whole run no transition of a payment to another status commits twice. */
  lemma TransitionsCommitOnce(steps: seq<Step>, i: nat, j: nat)
    requires IsRun(Empty, steps) && NeverOffTable(Empty, steps)
    requires i < j < |After(Empty, steps).log|
    requires After(Empty, steps).log[i] == After(Empty, steps).log[j]
    ensures After(Empty, steps).log[i].from == After(Empty, steps).log[i].to
  {
    RunOnTableIff(Empty, steps);
    var s := After(Empty, steps);
    ReachableOrder(s.log[i].to, s.log[j].from, s.log[j].to);
  }

  /** No payment is ever moved, or rewritten, to SUCCEEDED and to FAILED. */
  lemma SucceededExcludesFailed(steps: seq<Step>, i: nat, j: nat)
    requires IsRun(Empty, steps) && NeverOffTable(Empty, steps)
    requires i < |After(Empty, steps).log| && j < |After(Empty, steps).log|
    requires After(Empty, steps).log[i].p == After(Empty, steps).log[j].p
    requires After(Empty, steps).log[i].to == Succeeded
    ensures After(Empty, steps).log[j].to != Failed
  {
    RunOnTableIff(Empty, steps);
    var s := After(Empty, steps);
    if i < j {
      ReachableOrder(Succeeded, s.log[j].from, s.log[j].to);
    } else if j < i {
      ReachableOrder(s.log[j].to, s.log[i].from, Succeeded);
    }
  }

  lemma {:induction false} JoinRuns(s: State, first: seq<Step>, rest: seq<Step>)
    requires IsRun(s, first) && IsRun(After(s, first), rest)
    ensures IsRun(s, first + rest) && After(s, first + rest) == After(After(s, first), rest)
    decreases |first|
  {
    if first == [] {
      assert first + rest == rest;
    } else {
      assert (first + rest)[1..] == first[1..] + rest;
      JoinRuns(Exec(s, first[0]), first[1..], rest);
    }
  }

  lemma OneStep(s: State, step: Step)
    requires Enabled(s, step)
    ensures IsRun(s, [step]) && After(s, [step]) == Exec(s, step)
  {
    assert [step][1..] == [];
    assert IsRun(Exec(s, step), []);
  }

  lemma TwoSteps(s: State, a: Step, b: Step)
    requires Enabled(s, a) && Enabled(Exec(s, a), b)
    ensures IsRun(s, [a, b]) && After(s, [a, b]) == Exec(Exec(s, a), b)
  {
    OneStep(s, a);
    OneStep(Exec(s, a), b);
    JoinRuns(s, [a], [b]);
    assert [a] + [b] == [a, b];
  }

  /** A new event that meets no other handler is applied to its payment. */
  lemma WebhookApplies(s: State, h: HandlerId, key: EventKey, p: PaymentId, to: Status) returns (steps: seq<Step>)
    requires h !in s.handlers && key !in s.events && p in s.payments && CanTransition(s.payments[p], to)
    ensures IsRun(s, steps)
    ensures After(s, steps) == Update(s, p, to).(events := s.events[key := true], reached := s.reached + [key])
  {
    var claim, look, write, finish := Receive(h, key, Some(p), to), Lookup(h), Write(h), Finish(h);
    var s2 := Exec(Exec(s, claim), look);
    assert s2.handlers[h] == Ready(Some(key), p, s.payments[p], to);
    var s4 := Exec(Exec(s2, write), finish);
    assert s4.handlers == s.handlers;
    assert s4.events == s.events[key := true];
    TwoSteps(s, claim, look);
    TwoSteps(s2, write, finish);
    JoinRuns(s, [claim, look], [write, finish]);
    steps := [claim, look] + [write, finish];
  }

  /**
   Unguarded writes can repeat a success: a webhook arrives between the provider call and the last write of
   createPayment, which then puts the payment back to PENDING, and the next event makes it SUCCEEDED again.
   */
  lemma OverwriteRepeatsSuccess(p: PaymentId, h: HandlerId, first: EventKey, second: EventKey)
    returns (steps: seq<Step>)
    requires first != second
    ensures IsRun(Empty, steps)
    ensures After(Empty, steps).log ==
            [Commit(p, Created, Succeeded), Commit(p, Succeeded, Pending), Commit(p, Pending, Succeeded)]
  {
    OneStep(Empty, Insert(p));
    var s1 := Exec(Empty, Insert(p));
    var success := WebhookApplies(s1, h, first, p, Succeeded);
    JoinRuns(Empty, [Insert(p)], success);
    var s2 := After(s1, success);
    OneStep(s2, Overwrite(p, Pending));
    JoinRuns(Empty, [Insert(p)] + success, [Overwrite(p, Pending)]);
    var s3 := Exec(s2, Overwrite(p, Pending));
    var again := WebhookApplies(s3, h, second, p, Succeeded);
    JoinRuns(Empty, [Insert(p)] + success + [Overwrite(p, Pending)], again);
    steps := [Insert(p)] + success + [Overwrite(p, Pending)] + again;
  }

  // ----- events

  /** The handler has claimed the event and not entered the payment update yet. */
  predicate Holds(s: State, h: HandlerId, key: EventKey) {
    h in s.handlers && s.handlers[h].Claimed? && s.handlers[h].key == key
  }

  ghost predicate EventsOnce(s: State) {
    && (forall h, key :: Holds(s, h, key) ==> key in s.events && key !in s.reached)
    && (forall h, h', key :: Holds(s, h, key) && Holds(s, h', key) ==> h == h')
    && (forall k :: 0 <= k < |s.reached| ==> s.reached[k] in s.events)
    && (forall i, j :: 0 <= i < j < |s.reached| ==> s.reached[i] != s.reached[j])
  }

  lemma HoldsAfter(s: State, step: Step, h: HandlerId, key: EventKey)
    requires Enabled(s, step) && Holds(Exec(s, step), h, key)
    ensures Holds(s, h, key) || (step.Receive? && step.h == h && step.key == key && key !in s.events)
    ensures Holds(s, h, key) ==> Exec(s, step).handlers[h] == s.handlers[h]
  {
  }

  lemma EventsOnceStep(s: State, step: Step)
    requires Enabled(s, step) && EventsOnce(s)
    ensures EventsOnce(Exec(s, step))
  {
    var s' := Exec(s, step);
    forall h, key | Holds(s', h, key)
      ensures key in s'.events && key !in s'.reached
    {
      HoldsAfter(s, step, h, key);
      if step.Lookup? {
        assert Holds(s, step.h, s.handlers[step.h].key) && step.h != h;
      }
    }
    forall h, h', key | Holds(s', h, key) && Holds(s', h', key)
      ensures h == h'
    {
      HoldsAfter(s, step, h, key);
      HoldsAfter(s, step, h', key);
    }
    if step.Lookup? {
      assert Holds(s, step.h, s.handlers[step.h].key);
    }
  }

  lemma {:induction false} RunEventsOnce(s: State, steps: seq<Step>)
    requires IsRun(s, steps) && EventsOnce(s)
    ensures EventsOnce(After(s, steps))
    decreases |steps|
  {
    if steps != [] {
      EventsOnceStep(s, steps[0]);
      RunEventsOnce(Exec(s, steps[0]), steps[1..]);
    }
  }

  /** Each (provider, eventId) enters the payment update at most once, however often it is delivered. */
  lemma EventReachesOnce(steps: seq<Step>, i: nat, j: nat)
    requires IsRun(Empty, steps) && i < j < |After(Empty, steps).reached|
    ensures After(Empty, steps).reached[i] != After(Empty, steps).reached[j]
  {
    RunEventsOnce(Empty, steps);
  }

  /** A handler has claimed the event, which names a payment, and has not looked it up yet. */
  predicate Awaits(s: State, h: HandlerId, key: EventKey) {
    Holds(s, h, key) && s.handlers[h].payment.Some?
  }

  /** The event has a row but no handler that will still act on it. */
  ghost predicate Abandoned(s: State, key: EventKey) {
    key in s.events && forall h :: !Awaits(s, h, key)
  }

  /**
   The price of claiming first: if the handler of an event dies after creating the row, redelivery never brings
   the event back to the payment, in any continuation.
   */
  lemma {:induction false} AbandonedForGood(s: State, steps: seq<Step>, key: EventKey)
    requires IsRun(s, steps) && Abandoned(s, key)
    ensures Abandoned(After(s, steps), key)
    ensures key in After(s, steps).reached <==> key in s.reached
    decreases |steps|
  {
    if steps != [] {
      var s' := Exec(s, steps[0]);
      forall h
        ensures !Awaits(s', h, key)
      {
        assert !Awaits(s, h, key);
        if Awaits(s', h, key) {
          HoldsAfter(s, steps[0], h, key);
        }
      }
      if steps[0].Lookup? {
        assert !Awaits(s, steps[0].h, key);
      }
      AbandonedForGood(s', steps[1..], key);
    }
  }

  /** A handler that holds an event whose transition the table allows brings it to the payment by its own two steps. */
  lemma AwaitedApplies(s: State, h: HandlerId, key: EventKey)
    requires Awaits(s, h, key) && s.handlers[h].payment.value in s.payments
    requires CanTransition(s.payments[s.handlers[h].payment.value], s.handlers[h].to)
    ensures IsRun(s, [Lookup(h), Write(h)])
    ensures var s' := After(s, [Lookup(h), Write(h)]);
            && s'.reached == s.reached + [key]
            && s'.payments == s.payments[s.handlers[h].payment.value := s.handlers[h].to]
  {
    TwoSteps(s, Lookup(h), Write(h));
  }

  // ----- what guarded steps can still do

  predicate Guarded(steps: seq<Step>) {
    forall i :: 0 <= i < |steps| ==> !steps[i].Overwrite?
  }

  lemma GuardedStep(s: State, step: Step, p: PaymentId)
    requires Enabled(s, step) && HandlersReady(s) && !step.Overwrite? && p in s.payments
    ensures HandlersReady(Exec(s, step)) && p in Exec(s, step).payments
    ensures CanTransition(s.payments[p], Exec(s, step).payments[p])
    ensures var log := Exec(s, step).log;
            && s.log <= log && |log| <= |s.log| + 1
            && (|log| > |s.log| && log[|s.log|].p == p ==>
                  log[|s.log|].from == s.payments[p] && CanTransition(s.payments[p], log[|s.log|].to))
  {
  }

  /** Without unguarded writes a payment only makes transitions that start where the table leads from its status. */
  lemma {:induction false} GuardedCommits(s: State, steps: seq<Step>, p: PaymentId, k: nat)
    requires IsRun(s, steps) && HandlersReady(s) && Guarded(steps) && p in s.payments
    requires |s.log| <= k < |After(s, steps).log| && After(s, steps).log[k].p == p
    ensures var c := After(s, steps).log[k]; Reachable(s.payments[p], c.from) && CanTransition(c.from, c.to)
    decreases |steps|
  {
    var s' := Exec(s, steps[0]);
    GuardedStep(s, steps[0], p);
    LogGrows(s', steps[1..]);
    if k >= |s'.log| {
      GuardedCommits(s', steps[1..], p, k);
      ReachableOrder(s.payments[p], s'.payments[p], After(s, steps).log[k].from);
    } else {
      assert After(s, steps).log[k] == s'.log[k];
    }
  }

  /** An undisturbed verification moves a payment along the table. */
  lemma VerifyApplies(s: State, h: HandlerId, p: PaymentId, to: Status) returns (steps: seq<Step>)
    requires h !in s.handlers && p in s.payments && CanTransition(s.payments[p], to)
    ensures IsRun(s, steps) && Guarded(steps) && After(s, steps) == Update(s, p, to)
  {
    var s2 := Exec(Exec(s, Verify(h, p)), Answer(h, to));
    assert s2.handlers[h] == Ready(None, p, s.payments[p], to);
    TwoSteps(s, Verify(h, p), Answer(h, to));
    OneStep(s2, Write(h));
    assert Exec(s2, Write(h)).handlers == s.handlers;
    JoinRuns(s, [Verify(h, p), Answer(h, to)], [Write(h)]);
    steps := [Verify(h, p), Answer(h, to)] + [Write(h)];
  }

  lemma {:induction false} FreshId(ids: set<HandlerId>) returns (h: HandlerId)
    ensures forall k :: k in ids ==> k < h
    decreases |ids|
  {
    h := 0;
    if k :| k in ids {
      var rest := FreshId(ids - {k});
      assert forall x :: x in ids ==> x == k || x in ids - {k};
      h := if k < rest then rest else k + 1;
    }
  }

  /** The table can be walked from a payment's status to any reachable one. */
  lemma Walks(s: State, p: PaymentId, to: Status) returns (steps: seq<Step>)
    requires p in s.payments && Reachable(s.payments[p], to)
    ensures IsRun(s, steps) && Guarded(steps)
    ensures var s' := After(s, steps);
            s.log <= s'.log && s'.handlers == s.handlers && s'.payments == s.payments[p := to]
  {
    var h := FreshId(s.handlers.Keys);
    if CanTransition(s.payments[p], to) {
      steps := VerifyApplies(s, h, p, to);
    } else {
      var first := VerifyApplies(s, h, p, Succeeded);
      var s1 := Update(s, p, Succeeded);
      var second := VerifyApplies(s1, h, p, to);
      JoinRuns(s, first, second);
      steps := first + second;
    }
  }

  /** The run of guarded steps commits this transition from here on. */
  predicate CommitsBy(s: State, c: Commit, steps: seq<Step>) {
    IsRun(s, steps) && Guarded(steps) && exists k :: |s.log| <= k < |After(s, steps).log| && After(s, steps).log[k] == c
  }

  ghost predicate CanCommit(s: State, c: Commit) {
    exists steps :: CommitsBy(s, c, steps)
  }

  lemma CommitsIff(s: State, c: Commit)
    requires HandlersReady(s) && c.p in s.payments
    ensures CanCommit(s, c) <==> Reachable(s.payments[c.p], c.from) && CanTransition(c.from, c.to)
  {
    if Reachable(s.payments[c.p], c.from) && CanTransition(c.from, c.to) {
      var first := Walks(s, c.p, c.from);
      var s1 := After(s, first);
      var h := FreshId(s1.handlers.Keys);
      var second := VerifyApplies(s1, h, c.p, c.to);
      JoinRuns(s, first, second);
      var steps, k := first + second, |s1.log|;
      assert After(s, steps).log[k] == c;
      assert CommitsBy(s, c, steps);
    } else if CanCommit(s, c) {
      var steps :| CommitsBy(s, c, steps);
      var k :| |s.log| <= k < |After(s, steps).log| && After(s, steps).log[k] == c;
      GuardedCommits(s, steps, c.p, k);
    }
  }

  /**
   A committed transition can be repeated by guarded writes if and only if an unguarded one has taken the payment back
   to a status from which the table leads to where it started.
   */
  lemma RepeatsIff(s: State, k: nat)
    requires HandlersReady(s) && Logged(s) && OnTable(s) && k < |s.log|
    ensures CanCommit(s, s.log[k]) <==> Reachable(s.payments[s.log[k].p], s.log[k].from)
  {
    CommitsIff(s, s.log[k]);
  }

  // ----- what redelivery can still do

  /** A handler awaits the event, and the table leads from its payment's status to the one that the event names. */
  predicate Hopeful(s: State, h: HandlerId, key: EventKey) {
    && Awaits(s, h, key)
    && (s.handlers[h].payment.value in s.payments ==>
          Reachable(s.payments[s.handlers[h].payment.value], s.handlers[h].to))
  }

  /** Some run of guarded steps brings the event to its payment. */
  ghost predicate CanReach(s: State, key: EventKey) {
    exists steps :: IsRun(s, steps) && Guarded(steps) && key in After(s, steps).reached
  }

  lemma HopefulBefore(s: State, step: Step, h: HandlerId, key: EventKey)
    requires Enabled(s, step) && HandlersReady(s) && !step.Overwrite? && key in s.events
    requires Hopeful(Exec(s, step), h, key)
    ensures Hopeful(s, h, key)
  {
    HoldsAfter(s, step, h, key);
    var p, to := s.handlers[h].payment.value, s.handlers[h].to;
    if p in s.payments {
      GuardedStep(s, step, p);
      ReachableOrder(s.payments[p], Exec(s, step).payments[p], to);
    }
  }

  lemma {:induction false} HopelessForGood(s: State, steps: seq<Step>, key: EventKey)
    requires IsRun(s, steps) && Guarded(steps) && HandlersReady(s) && key in s.events && key !in s.reached
    requires forall h :: !Hopeful(s, h, key)
    ensures key !in After(s, steps).reached
    decreases |steps|
  {
    if steps != [] {
      var s' := Exec(s, steps[0]);
      forall h
        ensures !Hopeful(s', h, key)
      {
        if Hopeful(s', h, key) {
          HopefulBefore(s, steps[0], h, key);
        }
      }
      if steps[0].Lookup? {
        assert !Hopeful(s, steps[0].h, key);
      }
      assert HandlersReady(s');
      HopelessForGood(s', steps[1..], key);
    }
  }

  lemma HopefulReaches(s: State, h: HandlerId, key: EventKey) returns (steps: seq<Step>)
    requires Hopeful(s, h, key)
    ensures IsRun(s, steps) && Guarded(steps) && key in After(s, steps).reached
  {
    var p, to := s.handlers[h].payment.value, s.handlers[h].to;
    var s1 := s;
    var first := [];
    if p !in s.payments {
      first := [Insert(p)];
      OneStep(s, Insert(p));
      s1 := Exec(s, Insert(p));
    }
    var second := Walks(s1, p, to);
    var s2 := After(s1, second);
    assert IsRun(s, first) && After(s, first) == s1;
    JoinRuns(s, first, second);
    AwaitedApplies(s2, h, key);
    JoinRuns(s, first + second, [Lookup(h), Write(h)]);
    steps := first + second + [Lookup(h), Write(h)];
    assert After(s, steps).reached[|s2.reached|] == key;
  }

  /**
   A claimed event can still be brought to its payment by guarded steps if and only if a handler awaits it and the
   table leads to the status that it names: redelivery never helps.
   */
  lemma ReachesIffAwaited(s: State, key: EventKey)
    requires HandlersReady(s) && key in s.events && key !in s.reached
    ensures CanReach(s, key) <==> exists h :: Hopeful(s, h, key)
  {
    if h :| Hopeful(s, h, key) {
      var steps := HopefulReaches(s, h, key);
    } else if CanReach(s, key) {
      var steps :| IsRun(s, steps) && Guarded(steps) && key in After(s, steps).reached;
      HopelessForGood(s, steps, key);
    }
  }
}
