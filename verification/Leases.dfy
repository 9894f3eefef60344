/** Keys with an expiry as values: what Redis answers for the three commands a lock is built from. */
module Leases {
  import opened Wrappers

  type Token = nat

  datatype Entry = Entry(value: Token, expiresAt: Option<int>)

  /** A key counts only until its expiry. */
  predicate Alive(e: Entry, now: int) {
    e.expiresAt.Some? ==> now < e.expiresAt.value
  }

  /** The keys that have not expired, which is all a client can see. */
  type View = map<string, Entry>

  function Visible(store: map<string, Entry>, now: int): View {
    map k | k in store && Alive(store[k], now) :: store[k]
  }

  lemma VisibleUpdate(store: map<string, Entry>, now: int, key: string, e: Entry)
    ensures Visible(store[key := e], now) == Visible(Visible(store, now)[key := e], now)
    ensures Alive(e, now) ==> Visible(store[key := e], now) == Visible(store, now)[key := e]
  {
  }

  lemma VisibleRenewal(store: map<string, Entry>, now: int, key: string, expiresAt: int)
    requires key in store && key in Visible(store, now)
    ensures Visible(store[key := Entry(store[key].value, Some(expiresAt))], now)
         == Visible(Visible(store, now)[key := Entry(Visible(store, now)[key].value, Some(expiresAt))], now)
  {
    VisibleUpdate(store, now, key, Entry(store[key].value, Some(expiresAt)));
  }

  predicate Stores(v: View, key: string, token: Token) {
    key in v && v[key].value == token
  }

  /** SET key token PX ttl NX */
  function SetIfAbsent(v: View, now: int, key: string, token: Token, ttl: nat): View {
    if key in v then v else v[key := Entry(token, Some(now + ttl))]
  }

  /** if get(key) == token then pexpire(key, ttl) */
  function ExtendIfMine(v: View, now: int, key: string, token: Token, ttl: nat): View {
    if Stores(v, key, token) then v[key := Entry(token, Some(now + ttl))] else v
  }

  /** if get(key) == token then del(key) */
  function DeleteIfMine(v: View, key: string, token: Token): View {
    if Stores(v, key, token) then v - {key} else v
  }
}

/**
 Locks over time. A critical section lasts from a successful acquire to the call of release; tokens are
 drawn fresh for every acquisition. Time passes in arbitrary steps, renewals come whenever they come.
 */
module LeaseSafety {
  import opened Wrappers
  import opened Leases

  /** `owned` is the handle's own flag; `lapsed` records that the key expired during the section. */
  datatype Section = Section(key: string, ttl: nat, owned: bool, lapsed: bool)

  datatype State = State(view: View, now: int, sections: map<Token, Section>)

  datatype Step =
    | Tick(ms: nat)
    | Acquire(key: string, token: Token, ttl: nat)
    | Renew(token: Token, reachable: bool)        // a heartbeat; Redis may be unreachable
    | Release(token: Token, reachable: bool)

  predicate Enabled(s: State, step: Step) {
    match step
    case Tick(_) => true
    case Acquire(_, token, ttl) =>
      && ttl > 0 && token !in s.sections
      && (forall k :: k in s.view ==> s.view[k].value != token)
    case Renew(token, _) => token in s.sections
    case Release(token, _) => token in s.sections
  }

  /** Time moves on: expired keys vanish, and a section whose key vanished has lapsed. */
  function Passed(s: State, ms: nat): State {
    var view := Visible(s.view, s.now + ms);
    State(view, s.now + ms,
          map t | t in s.sections ::
            s.sections[t].(lapsed := s.sections[t].lapsed || !Stores(view, s.sections[t].key, t)))
  }

  function Exec(s: State, step: Step): State
    requires Enabled(s, step)
  {
    match step
    case Tick(ms) => Passed(s, ms)
    case Acquire(key, token, ttl) =>
      if key in s.view then s
      else State(SetIfAbsent(s.view, s.now, key, token, ttl), s.now,
                 s.sections[token := Section(key, ttl, true, false)])
    case Renew(token, reachable) =>
      var c := s.sections[token];
      if !c.owned then s
      else if !reachable then s.(sections := s.sections[token := c.(owned := false)])
      else
        s.(view := ExtendIfMine(s.view, s.now, c.key, token, c.ttl),
        sections := s.sections[token := c.(owned := Stores(s.view, c.key, token))])
    case Release(token, reachable) =>
      var c := s.sections[token];
      if !c.owned || !reachable then s.(sections := s.sections - {token})
      else s.(view := DeleteIfMine(s.view, c.key, token), sections := s.sections - {token})
  }

  predicate IsRun(s: State, steps: seq<Step>)
    decreases |steps|
  {
    steps == [] || (Enabled(s, steps[0]) && IsRun(Exec(s, steps[0]), steps[1..]))
  }

  function After(s: State, steps: seq<Step>): State
    requires IsRun(s, steps)
    decreases |steps|
  {
    if steps == [] then s else After(Exec(s, steps[0]), steps[1..])
  }

  function Start(now: int): State {
    State(map[], now, map[])
  }

  /** A section that has not lapsed still has its token in Redis, and the key expires in the future. */
  ghost predicate Kept(s: State) {
    && (forall k :: k in s.view ==> Alive(s.view[k], s.now))
    && (forall t :: t in s.sections ==> s.sections[t].ttl > 0)
    && (forall t :: t in s.sections && !s.sections[t].lapsed ==> Stores(s.view, s.sections[t].key, t))
  }

  lemma KeptStep(s: State, step: Step)
    requires Kept(s) && Enabled(s, step)
    ensures Kept(Exec(s, step))
  {
    match step
    case Tick(ms) =>
    case Acquire(key, token, ttl) =>
    case Renew(token, _) =>
    case Release(token, _) =>
  }

  lemma {:induction false} RunKept(s: State, steps: seq<Step>)
    requires Kept(s) && IsRun(s, steps)
    ensures Kept(After(s, steps))
    decreases |steps|
  {
    if steps != [] {
      KeptStep(s, steps[0]);
      RunKept(Exec(s, steps[0]), steps[1..]);
    }
  }

  /**
   In every run: while a section has not lapsed, every other acquire on its key fails, and of two sections
   on one key at most one has not lapsed.
   */
  lemma UnlapsedExcludes(now: int, steps: seq<Step>, t: Token, key: string)
    requires IsRun(Start(now), steps)
    ensures var s := After(Start(now), steps);
            t in s.sections && !s.sections[t].lapsed && s.sections[t].key == key ==>
              && (forall u, ttl: nat :: SetIfAbsent(s.view, s.now, key, u, ttl) == s.view)
              && (forall u :: u in s.sections && u != t && s.sections[u].key == key ==> s.sections[u].lapsed)
  {
    RunKept(Start(now), steps);
  }

  /** Time never reaches the expiry of a section's key: each renewal lands strictly before it. */
  predicate OnTime(s: State, step: Step) {
    step.Tick? ==>
      forall t :: t in s.sections && Stores(s.view, s.sections[t].key, t) ==>
                    Alive(s.view[s.sections[t].key], s.now + step.ms)
  }

  predicate OnTimeRun(s: State, steps: seq<Step>)
    requires IsRun(s, steps)
    decreases |steps|
  {
    steps == [] || (OnTime(s, steps[0]) && OnTimeRun(Exec(s, steps[0]), steps[1..]))
  }

  ghost predicate NoneLapsed(s: State) {
    forall t :: t in s.sections ==> !s.sections[t].lapsed
  }

  /** From a state without a lapsed section, a step makes one lapse exactly when it is not on time. */
  lemma LapseIffLate(s: State, step: Step)
    requires Kept(s) && NoneLapsed(s) && Enabled(s, step)
    ensures NoneLapsed(Exec(s, step)) <==> OnTime(s, step)
  {
    if step.Tick? {
      var s' := Exec(s, step);
      forall t | t in s.sections
        ensures s'.sections[t].lapsed <==> !Alive(s.view[s.sections[t].key], s.now + step.ms)
      {
        assert Stores(s.view, s.sections[t].key, t);
      }
      assert forall t :: t in s'.sections <==> t in s.sections;
    }
  }

  lemma {:induction false} OnTimeNoneLapsed(s: State, steps: seq<Step>)
    requires Kept(s) && NoneLapsed(s) && IsRun(s, steps) && OnTimeRun(s, steps)
    ensures NoneLapsed(After(s, steps))
    decreases |steps|
  {
    if steps != [] {
      KeptStep(s, steps[0]);
      LapseIffLate(s, steps[0]);
      OnTimeNoneLapsed(Exec(s, steps[0]), steps[1..]);
    }
  }

  /** If each renewal lands strictly before the current expiry, critical sections on one key never overlap. */
  lemma SectionsNeverOverlap(now: int, steps: seq<Step>)
    requires IsRun(Start(now), steps) && OnTimeRun(Start(now), steps)
    ensures var s := After(Start(now), steps);
            forall t, u :: t in s.sections && u in s.sections && t != u ==> s.sections[t].key != s.sections[u].key
  {
    RunKept(Start(now), steps);
    OnTimeNoneLapsed(Start(now), steps);
  }

  /** The handle counts as owned, Redis answers, and the key stores the handle's token. */
  predicate Reaches(s: State, token: Token, key: string, reachable: bool)
    requires token in s.sections
  {
    reachable && s.sections[token].owned && s.sections[token].key == key && Stores(s.view, key, token)
  }

  /** A reachable, owned handle extends or deletes exactly the lease that stores its token. */
  lemma ForeignLeasesUntouched(s: State, step: Step, key: string)
    requires Kept(s) && Enabled(s, step) && key in s.view
    ensures var v := Exec(s, step).view;
            match step
            case Tick(ms) => key in v <==> Alive(s.view[key], s.now + ms)
            case Acquire(_, _, _) => key in v && v[key] == s.view[key]
            case Renew(token, reachable) =>
              key in v && v[key] == if Reaches(s, token, key, reachable)
                                    then Entry(token, Some(s.now + s.sections[token].ttl)) else s.view[key]
            case Release(token, reachable) =>
              if Reaches(s, token, key, reachable) then key !in v else key in v && v[key] == s.view[key]
  {
    match step
    case Tick(ms) =>
    case Acquire(k, _, _) =>
    case Renew(token, _) =>
    case Release(token, _) =>
  }

  /** Without a renewal, a second worker gets in exactly when the full time to live has passed. */
  lemma SecondHolderIffExpired(now: int, key: string, ttl: nat, ms: nat)
    requires ttl > 0
    ensures var steps := [Acquire(key, 0, ttl), Tick(ms), Acquire(key, 1, ttl)];
            && IsRun(Start(now), steps)
            && var s := After(Start(now), steps);
               (0 in s.sections && 1 in s.sections && s.sections[0].owned && s.sections[1].owned) <==> ms >= ttl
  {
    var s0 := Start(now);
    var s1 := Exec(s0, Acquire(key, 0, ttl));
    assert s1.view == map[key := Entry(0, Some(now + ttl))];
    var s2 := Exec(s1, Tick(ms));
    assert key in s2.view <==> ms < ttl;
    assert Enabled(s2, Acquire(key, 1, ttl));
    var s3 := Exec(s2, Acquire(key, 1, ttl));
    var steps := [Acquire(key, 0, ttl), Tick(ms), Acquire(key, 1, ttl)];
    assert IsRun(s3, []) && After(s3, []) == s3;
    assert steps[2..] == [Acquire(key, 1, ttl)] && steps[1..][1..] == steps[2..] && steps[2..][1..] == [];
    assert IsRun(s2, steps[2..]) && After(s2, steps[2..]) == s3;
    assert IsRun(s1, steps[1..]) && After(s1, steps[1..]) == s3;
  }
}
