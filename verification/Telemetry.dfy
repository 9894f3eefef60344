/** src/modules/liquidity/treasury-telemetry.service.ts: alerts only on a change of a pool's state. */
module Telemetry {
  type PoolId = nat

  datatype Alert = Healthy | Warning | Critical

  datatype Action = EmittedWarn | EmittedCritical | EmittedRecovered | NoChange

  /** One call of evaluatePoolBalance; balances and thresholds are exact numbers here. */
  datatype Evaluation = Evaluation(pool: PoolId, available: real, warn: real, critical: real)

  /** An audit row; its action is never NO_CHANGE. */
  datatype Entry = Entry(pool: PoolId, previous: Alert, next: Alert, action: Action)

  datatype View = View(poolStates: map<PoolId, Alert>, log: seq<Entry>)

  function Classify(e: Evaluation): Alert {
    if e.available <= e.critical then Critical
    else if e.available <= e.warn then Warning
    else Healthy
  }

  function StateOf(poolStates: map<PoolId, Alert>, p: PoolId): Alert {
    if p in poolStates then poolStates[p] else Healthy
  }

  function ActionFor(next: Alert): Action {
    match next
    case Healthy => EmittedRecovered
    case Warning => EmittedWarn
    case Critical => EmittedCritical
  }

  function Evaluated(v: View, e: Evaluation): View {
    var previous, next := StateOf(v.poolStates, e.pool), Classify(e);
    if previous == next then v
    else View(v.poolStates[e.pool := next], v.log + [Entry(e.pool, previous, next, ActionFor(next))])
  }

  function Run(v: View, es: seq<Evaluation>): View {
    if es == [] then v else Evaluated(Run(v, es[..|es| - 1]), es[|es| - 1])
  }

  const Start: View := View(map[], [])

  /** The service with its static map; `log` stands for the audit table. */
  class Service {
    var poolStates: map<PoolId, Alert>
    var log: seq<Entry>

    function Now(): View
      reads this
    {
      View(poolStates, log)
    }

    constructor ()
      ensures Now() == Start
    {
      poolStates := map[];
      log := [];
    }

    method EvaluatePoolBalance(e: Evaluation) returns (previous: Alert, next: Alert, action: Action)
      modifies this
      ensures Now() == Evaluated(old(Now()), e)
      ensures previous == StateOf(old(poolStates), e.pool) && next == StateOf(poolStates, e.pool) == Classify(e)
      ensures next == Critical <==> e.available <= e.critical
      ensures next == Warning <==> e.critical < e.available <= e.warn
      ensures previous == if e.pool in old(poolStates) then old(poolStates)[e.pool] else Healthy
      ensures action == if next == previous then NoChange
                        else if next == Critical then EmittedCritical
                        else if next == Warning then EmittedWarn
                        else EmittedRecovered
      ensures action == NoChange <==> log == old(log)
      ensures action != NoChange ==> log == old(log) + [Entry(e.pool, previous, next, action)]
    {
      previous := if e.pool in poolStates then poolStates[e.pool] else Healthy;
      next := Healthy;
      if e.available <= e.critical {
        next := Critical;
      } else if e.available <= e.warn {
        next := Warning;
      }
      action := NoChange;
      if previous != next {
        poolStates := poolStates[e.pool := next];
        if next == Critical {
          action := EmittedCritical;
        } else if next == Warning {
          action := EmittedWarn;
        } else {
          action := EmittedRecovered;
        }
        log := log + [Entry(e.pool, previous, next, action)];
      }
    }
  }

  // ----- the log of one pool

  /** The classifications of one pool, in the order of its evaluations. */
  function ClassesOf(es: seq<Evaluation>, p: PoolId): seq<Alert> {
    if es == [] then []
    else
      var last := es[|es| - 1];
      ClassesOf(es[..|es| - 1], p) + if last.pool == p then [Classify(last)] else []
  }

  function EntriesOf(log: seq<Entry>, p: PoolId): seq<Entry> {
    if log == [] then []
    else
      var last := log[|log| - 1];
      EntriesOf(log[..|log| - 1], p) + if last.pool == p then [last] else []
  }

  /** Every element that equals its predecessor is dropped. */
  function Compress(xs: seq<Alert>): (ys: seq<Alert>)
    ensures xs != [] ==> ys != [] && ys[0] == xs[0] && ys[|ys| - 1] == xs[|xs| - 1]
  {
    if |xs| <= 1 then xs
    else
      var n := |xs| - 1;
      if xs[n] == xs[n - 1] then Compress(xs[..n]) else Compress(xs[..n]) + [xs[n]]
  }

  /** The entry that a change between two neighbours of a sequence of states leaves. */
  function Changes(p: PoolId, states: seq<Alert>): (entries: seq<Entry>)
    ensures |entries| == if states == [] then 0 else |states| - 1
    ensures forall i :: 0 <= i < |entries| ==>
              entries[i] == Entry(p, states[i], states[i + 1], ActionFor(states[i + 1]))
  {
    if |states| <= 1 then []
    else
      var n := |states| - 1;
      Changes(p, states[..n]) + [Entry(p, states[n - 1], states[n], ActionFor(states[n]))]
  }

  lemma ChangesAppend(p: PoolId, states: seq<Alert>, next: Alert)
    requires states != []
    ensures Changes(p, states + [next]) ==
            Changes(p, states) + [Entry(p, states[|states| - 1], next, ActionFor(next))]
  {
    assert (states + [next])[..|states|] == states;
  }

  lemma EntriesAppend(log: seq<Entry>, e: Entry, p: PoolId)
    ensures EntriesOf(log + [e], p) == EntriesOf(log, p) + if e.pool == p then [e] else []
  {
    assert (log + [e])[..|log|] == log;
  }

  lemma CompressAppend(xs: seq<Alert>, x: Alert)
    requires xs != []
    ensures Compress(xs + [x]) == if xs[|xs| - 1] == x then Compress(xs) else Compress(xs) + [x]
  {
    assert (xs + [x])[..|xs|] == xs;
  }

  /** HEALTHY, then the classifications of one pool. */
  function History(es: seq<Evaluation>, p: PoolId): seq<Alert> {
    [Healthy] + ClassesOf(es, p)
  }

  /** The pool's alerts are the changes in its compressed history, and its stored state is where that ends. */
  predicate Tracks(v: View, p: PoolId, history: seq<Alert>) {
    && history != []
    && EntriesOf(v.log, p) == Changes(p, Compress(history))
    && StateOf(v.poolStates, p) == history[|history| - 1]
  }

  lemma TracksStep(v: View, e: Evaluation, p: PoolId, history: seq<Alert>)
    requires Tracks(v, p, history)
    ensures Tracks(Evaluated(v, e), p, if e.pool == p then history + [Classify(e)] else history)
  {
    var previous, next := StateOf(v.poolStates, e.pool), Classify(e);
    EntriesAppend(v.log, Entry(e.pool, previous, next, ActionFor(next)), p);
    if e.pool == p {
      CompressAppend(history, next);
      ChangesAppend(p, Compress(history), next);
    }
  }

  /**
   However evaluations of many pools, and thresholds, are mixed: a pool's alerts are exactly the changes in the
   run-length-compressed sequence of its classifications, starting from HEALTHY, and its stored state is the last one.
   */
  lemma {:induction false} LogIsCompression(es: seq<Evaluation>, p: PoolId)
    ensures Tracks(Run(Start, es), p, History(es, p))
  {
    if es != [] {
      var before, e := es[..|es| - 1], es[|es| - 1];
      LogIsCompression(before, p);
      TracksStep(Run(Start, before), e, p, History(before, p));
      assert History(es, p) == if e.pool == p then History(before, p) + [Classify(e)] else History(before, p);
    }
  }

  /** So a pool never repeats an alert: each one starts from the state the one before reported. */
  lemma NeighboursDiffer(es: seq<Evaluation>, p: PoolId, i: nat)
    requires i < |EntriesOf(Run(Start, es).log, p)|
    ensures var entries := EntriesOf(Run(Start, es).log, p);
            && entries[i].previous != entries[i].next
            && entries[i].previous == if i == 0 then Healthy else entries[i - 1].next
  {
    LogIsCompression(es, p);
    EntriesDiffer(Run(Start, es), p, History(es, p), i);
  }

  lemma EntriesDiffer(v: View, p: PoolId, history: seq<Alert>, i: nat)
    requires Tracks(v, p, history) && i < |EntriesOf(v.log, p)|
    ensures var entries := EntriesOf(v.log, p);
            && entries[i].previous != entries[i].next
            && entries[i].previous == if i == 0 then history[0] else entries[i - 1].next
  {
    CompressDiffers(history, i);
  }

  lemma {:induction false} CompressDiffers(xs: seq<Alert>, i: nat)
    requires i + 1 < |Compress(xs)|
    ensures Compress(xs)[i] != Compress(xs)[i + 1]
  {
    var n := |xs| - 1;
    if i + 1 < |Compress(xs[..n])| {
      CompressDiffers(xs[..n], i);
    }
  }
}
