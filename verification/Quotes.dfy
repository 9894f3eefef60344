/**
 The arithmetic of src/modules/quotes/providers/real-fx-quote.provider.ts over exact numbers. Source amounts
 and fees are integers of 10^-4, destination amounts integers of 10^-7; the factor between them is 1000.
 */
module Quotes {
  import opened Wrappers

  // ----- rounding

  /** ROUND_UP of a non-negative number. */
  function Ceil(x: real): (n: int)
    ensures n as real - 1.0 < x <= n as real
  {
    if x.Floor as real == x then x.Floor else x.Floor + 1
  }

  /** ROUND_HALF_UP of a non-negative number. */
  function HalfUp(x: real): (n: int)
    ensures n as real - 0.5 <= x < n as real + 0.5
  {
    (x + 0.5).Floor
  }

  lemma FloorGrows(x: real, y: real)
    requires x <= y
    ensures x.Floor <= y.Floor
  {
  }

  lemma HalfUpGrows(x: real, y: real)
    requires 0.0 <= x <= y
    ensures 0 <= HalfUp(x) <= HalfUp(y)
  {
  }

  lemma CeilGrows(x: real, y: real)
    requires x <= y
    ensures Ceil(x) <= Ceil(y)
  {
  }

  // ----- the provider

  /** feePercentage and spreadPercentage as fractions. */
  datatype Terms = Terms(fee: real, spread: real)

  predicate Sensible(terms: Terms) {
    0.0 <= terms.fee < 1.0 && 0.0 <= terms.spread < 1.0
  }

  datatype Pair = NgnToUsd | UsdToNgn | Same | OtherPair

  datatype Side = Source | Destination

  datatype Quote = Quote(source: int, destination: int, gross: int, fee: int, base: real, applied: real)

  datatype Error = InvalidAmount | StaleRate | UnreasonableRate

  /** The exchange rate of the pair from the number of naira per dollar. */
  function BaseRate(pair: Pair, rateNgn: real): real
    requires rateNgn > 0.0
  {
    match pair
    case NgnToUsd => 1.0 / rateNgn
    case UsdToNgn => rateNgn
    case Same => 1.0
    case OtherPair => 1.0 / rateNgn
  }

  function Fee(source: int, fee: real): int {
    Ceil(source as real * fee)
  }

  /** netSource.mul(appliedFxRate), rounded down to stroops. */
  function Payout(source: int, fee: real, applied: real): int {
    ((source - Fee(source, fee)) as real * applied * 1000.0).Floor
  }

  function Gross(source: int, base: real): int {
    (source as real * base * 1000.0).Floor
  }

  /** The source amount a destination-side quote asks for. */
  function SourceFor(destination: int, fee: real, applied: real): int
    requires fee < 1.0 && applied > 0.0
  {
    Ceil(destination as real / 1000.0 / applied / (1.0 - fee))
  }

  /** The quote at a base rate. */
  function Price(terms: Terms, base: real, amount: real, side: Side): Quote
    requires Sensible(terms) && 0.0 < base
  {
    var applied := base * (1.0 - terms.spread);
    AppliedPositive(terms, base);
    match side
    case Source =>
      var source := HalfUp(amount * 10000.0);
      Quote(source, Payout(source, terms.fee, applied), Gross(source, base), Fee(source, terms.fee), base, applied)
    case Destination =>
      var destination := HalfUp(amount * 10000000.0);
      var source := SourceFor(destination, terms.fee, applied);
      Quote(source, destination, Gross(source, base), Fee(source, terms.fee), base, applied)
  }

  lemma AppliedPositive(terms: Terms, base: real)
    requires Sensible(terms) && 0.0 < base
    ensures 0.0 < base * (1.0 - terms.spread)
  {
  }

  function Calculate(terms: Terms, pair: Pair, amount: real, side: Side, rateNgn: real, ageSeconds: real,
                     maxAgeSeconds: real): (r: Result<Quote, Error>)
    requires Sensible(terms)
    ensures r == Err(InvalidAmount) <==> amount <= 0.0
    ensures r == Err(StaleRate) <==> 0.0 < amount && 0.0 < maxAgeSeconds < ageSeconds
    ensures r.Ok? ==> 50.0 <= rateNgn <= 500000.0
    ensures 0.0 < amount && (maxAgeSeconds <= 0.0 || ageSeconds <= maxAgeSeconds) && 50.0 <= rateNgn <= 500000.0
            ==> r.Ok?
    ensures r.Ok? ==> 0.0 < r.value.base && r.value == Price(terms, r.value.base, amount, side)
    ensures r.Ok? ==>
              match pair
              case UsdToNgn => r.value.base == rateNgn
              case Same => r.value.base == 1.0
              case _ => r.value.base * rateNgn == 1.0
  {
    if amount <= 0.0 then Err(InvalidAmount)
    else if maxAgeSeconds > 0.0 && ageSeconds > maxAgeSeconds then Err(StaleRate)
    else if rateNgn < 50.0 || rateNgn > 500000.0 then Err(UnreasonableRate)
    else Ok(Price(terms, BaseRate(pair, rateNgn), amount, side))
  }

  // ----- products

  lemma ProductGrows(x: real, y: real, m: real)
    requires x <= y && 0.0 <= m
    ensures x * m <= y * m
  {
  }

  lemma ProductGrowsStrictly(x: real, y: real, m: real)
    requires x < y && 0.0 < m
    ensures x * m < y * m
  {
  }

  // ----- source side

  /** The fee is at least the exact fee, less than one unit above it, and never more than the amount. */
  lemma FeeBounds(source: int, fee: real)
    requires 0 <= source && 0.0 <= fee < 1.0
    ensures source as real * fee <= Fee(source, fee) as real < source as real * fee + 1.0
    ensures 0 <= Fee(source, fee) <= source
  {
    ProductGrows(fee, 1.0, source as real);
    CeilGrows(source as real * fee, source as real);
  }

  /** What is left after the fee grows with the amount. */
  lemma NetGrows(s: int, t: int, fee: real)
    requires 0 <= s <= t && 0.0 <= fee < 1.0
    ensures s - Fee(s, fee) <= t - Fee(t, fee)
  {
    var step := (t - s) as real;
    ProductGrows(fee, 1.0, step);
    assert t as real * fee == s as real * fee + step * fee;
    CeilGrows(t as real * fee, s as real * fee + step);
    assert Ceil(s as real * fee + step) == Ceil(s as real * fee) + (t - s);
  }

  lemma PayoutGrows(s: int, t: int, fee: real, applied: real)
    requires 0 <= s <= t && 0.0 <= fee < 1.0 && 0.0 < applied
    ensures Payout(s, fee, applied) <= Payout(t, fee, applied)
  {
    NetGrows(s, t, fee);
    var net, net' := (s - Fee(s, fee)) as real, (t - Fee(t, fee)) as real;
    ProductGrows(net, net', applied);
    ProductGrows(net * applied, net' * applied, 1000.0);
    FloorGrows(net * applied * 1000.0, net' * applied * 1000.0);
  }

  lemma ProductBelow(net: real, source: real, applied: real, base: real)
    requires 0.0 <= net <= source && 0.0 <= applied <= base
    ensures 0.0 <= net * applied * 1000.0 <= source * base * 1000.0
  {
    ProductGrows(0.0, net, applied);
    ProductGrows(net, source, applied);
    ProductGrows(applied, base, source);
    assert net * applied <= source * base;
  }

  lemma AppliedBelowBase(terms: Terms, base: real)
    requires Sensible(terms) && 0.0 < base
    ensures 0.0 <= base * (1.0 - terms.spread) <= base
  {
    ProductGrows(1.0 - terms.spread, 1.0, base);
    ProductGrows(0.0, 1.0 - terms.spread, base);
  }

  lemma PayoutBelowGross(source: int, fee: real, applied: real, base: real)
    requires 0 <= source && 0.0 <= fee < 1.0 && 0.0 <= applied <= base
    ensures 0 <= Payout(source, fee, applied) <= Gross(source, base)
  {
    var net := (source - Fee(source, fee)) as real;
    FeeBounds(source, fee);
    ProductBelow(net, source as real, applied, base);
    FloorGrows(net * applied * 1000.0, source as real * base * 1000.0);
    FloorGrows(0.0, net * applied * 1000.0);
  }

  lemma PayoutWithinOneStroop(source: int, fee: real, applied: real)
    ensures var exact := (source - Fee(source, fee)) as real * applied * 1000.0;
            Payout(source, fee, applied) as real <= exact < Payout(source, fee, applied) as real + 1.0
  {
  }

  /**
   A source-side quote never pays out more than gross, pays within one stroop of the exact product, and
   charges at least the exact fee and less than one unit more.
   */
  lemma SourceSide(terms: Terms, base: real, amount: real)
    requires Sensible(terms) && 0.0 < base && 0.0 < amount
    ensures var q := Price(terms, base, amount, Source);
            && 0 <= q.destination <= q.gross
            && q.destination as real <= (q.source - q.fee) as real * q.applied * 1000.0 < q.destination as real + 1.0
            && q.source as real * terms.fee <= q.fee as real < q.source as real * terms.fee + 1.0
            && q.gross as real <= q.source as real * q.base * 1000.0 < q.gross as real + 1.0
            && q.source as real - 0.5 <= amount * 10000.0 < q.source as real + 0.5
            && q.base == base && q.applied == base - base * terms.spread
  {
    var s := HalfUp(amount * 10000.0);
    FeeBounds(s, terms.fee);
    AppliedBelowBase(terms, base);
    PayoutBelowGross(s, terms.fee, base * (1.0 - terms.spread), base);
    PayoutWithinOneStroop(s, terms.fee, base * (1.0 - terms.spread));
  }

  lemma SourcePrice(terms: Terms, base: real, amount: real, applied: real)
    requires Sensible(terms) && 0.0 < base && applied == base * (1.0 - terms.spread)
    ensures Price(terms, base, amount, Source).destination == Payout(HalfUp(amount * 10000.0), terms.fee, applied)
  {
  }

  /** At one rate, a larger amount never pays out less. */
  lemma SourceSideGrows(terms: Terms, base: real, amount: real, larger: real)
    requires Sensible(terms) && 0.0 < base && 0.0 < amount <= larger
    ensures Price(terms, base, amount, Source).destination <= Price(terms, base, larger, Source).destination
  {
    var s, t := HalfUp(amount * 10000.0), HalfUp(larger * 10000.0);
    HalfUpGrows(amount * 10000.0, larger * 10000.0);
    SourcePrice(terms, base, amount, base * (1.0 - terms.spread));
    SourcePrice(terms, base, larger, base * (1.0 - terms.spread));
    AppliedPositive(terms, base);
    PayoutGrows(s, t, terms.fee, base * (1.0 - terms.spread));
  }

  // ----- destination side

  lemma CeilLeast(x: real, s: int)
    ensures s as real >= x <==> s >= Ceil(x)
  {
  }

  lemma ScaleIff(x: real, y: real, m: real)
    requires 0.0 < m
    ensures x * m >= y * m <==> x >= y
  {
  }

  lemma ExactSource(destination: int, fee: real, applied: real)
    requires 0.0 <= fee < 1.0 && 0.0 < applied
    ensures 0.0 < (1.0 - fee) * applied * 1000.0
    ensures (destination as real / 1000.0 / applied / (1.0 - fee)) * ((1.0 - fee) * applied * 1000.0)
         == destination as real
  {
    var a := destination as real / 1000.0;
    var b := a / applied;
    var c := b / (1.0 - fee);
    assert c * (1.0 - fee) == b;
    assert b * applied == a;
    assert c * ((1.0 - fee) * applied * 1000.0) == (c * (1.0 - fee)) * applied * 1000.0;
  }

  lemma Regroup(s: real, keep: real, applied: real)
    ensures s * keep * applied * 1000.0 == s * (keep * applied * 1000.0)
    ensures s * keep * applied * 1000.0 == (s * keep) * (1000.0 * applied)
  {
  }

  /** The source amount of a destination-side quote is the least whose exact net covers the destination. */
  lemma LeastSource(destination: int, fee: real, applied: real, s: int)
    requires 0.0 <= fee < 1.0 && 0.0 < applied
    ensures s as real * (1.0 - fee) * applied * 1000.0 >= destination as real
            <==> s >= SourceFor(destination, fee, applied)
  {
    var exact := destination as real / 1000.0 / applied / (1.0 - fee);
    ExactSource(destination, fee, applied);
    Regroup(s as real, 1.0 - fee, applied);
    ScaleIff(s as real, exact, (1.0 - fee) * applied * 1000.0);
    CeilLeast(exact, s);
  }

  lemma SourceForNonNegative(destination: int, fee: real, applied: real)
    requires 0 <= destination && 0.0 <= fee < 1.0 && 0.0 < applied
    ensures 0 <= SourceFor(destination, fee, applied)
  {
    ExactSource(destination, fee, applied);
    Regroup(-1.0, 1.0 - fee, applied);
    LeastSource(destination, fee, applied, -1);
  }

  lemma NotFarBelow(exact: real, net: real, rate: real, d: real)
    requires 0.0 < rate && exact - 1.0 < net && d <= exact * rate
    ensures d - rate < net * rate
  {
    Spread(exact, 1.0, rate);
    ProductGrowsStrictly(exact - 1.0, net, rate);
    assert exact * rate - rate < net * rate;
  }

  lemma NotFarAbove(exact: real, net: real, keep: real, rate: real, d: real)
    requires 0.0 < keep <= 1.0 && 0.0 < rate && net <= exact && (exact - keep) * rate < d
    ensures net * rate < d + rate
  {
    Spread(exact, keep, rate);
    assert exact * rate - keep * rate < d;
    ProductGrows(net, exact, rate);
    assert net * rate <= exact * rate;
    ProductGrows(keep, 1.0, rate);
    assert keep * rate <= rate;
    assert exact * rate < d + rate;
  }

  lemma Spread(x: real, y: real, m: real)
    ensures (x - y) * m == x * m - y * m
  {
  }

  lemma FloorBetween(d: int, x: real, rate: real)
    requires d as real - rate < x < d as real + rate
    ensures d - Ceil(rate) <= x.Floor <= d + Ceil(rate)
  {
    var n := Ceil(rate);
    assert (d - n) as real == d as real - n as real;
    FloorGrows((d - n) as real, x);
    assert ((d - n) as real).Floor == d - n;
    assert x.Floor as real <= x < d as real + n as real == (d + n) as real;
  }

  lemma NetAfterFee(s: int, fee: real)
    requires 0 <= s && 0.0 <= fee < 1.0
    ensures s as real * (1.0 - fee) - 1.0 < (s - Fee(s, fee)) as real <= s as real * (1.0 - fee)
    ensures (s - 1) as real * (1.0 - fee) == s as real * (1.0 - fee) - (1.0 - fee)
  {
    FeeBounds(s, fee);
    assert s as real * (1.0 - fee) == s as real - s as real * fee;
  }

  /** The source amount just covers the destination: it does, and one unit less does not. */
  predicate JustCovers(s: int, fee: real, applied: real, destination: int) {
    && 0 <= s
    && destination as real <= (s as real * (1.0 - fee)) * (1000.0 * applied)
    && (s as real * (1.0 - fee) - (1.0 - fee)) * (1000.0 * applied) < destination as real
  }

  lemma SourceJustCovers(destination: int, fee: real, applied: real, s: int)
    requires 0 <= destination && 0.0 <= fee < 1.0 && 0.0 < applied && s == SourceFor(destination, fee, applied)
    ensures JustCovers(s, fee, applied, destination)
  {
    SourceForNonNegative(destination, fee, applied);
    LeastSource(destination, fee, applied, s);
    Regroup(s as real, 1.0 - fee, applied);
    LeastSource(destination, fee, applied, s - 1);
    Regroup((s - 1) as real, 1.0 - fee, applied);
    NetAfterFee(s, fee);
  }

  lemma PaysBack(s: int, fee: real, applied: real, destination: int)
    requires 0.0 <= fee < 1.0 && 0.0 < applied && JustCovers(s, fee, applied, destination)
    ensures var x := (s - Fee(s, fee)) as real * (1000.0 * applied);
            destination as real - 1000.0 * applied < x < destination as real + 1000.0 * applied
  {
    NetAfterFee(s, fee);
    var exact, net, rate := s as real * (1.0 - fee), (s - Fee(s, fee)) as real, 1000.0 * applied;
    NotFarBelow(exact, net, rate, destination as real);
    NotFarAbove(exact, net, 1.0 - fee, rate, destination as real);
  }

  lemma PayoutRegrouped(s: int, fee: real, applied: real)
    ensures Payout(s, fee, applied) == ((s - Fee(s, fee)) as real * (1000.0 * applied)).Floor
  {
    Regroup((s - Fee(s, fee)) as real, 1.0, applied);
  }

  /**
   Feeding a destination-side source amount back through the source side returns the destination up to
   ceil(1000 * rate) stroops, in both directions.
   */
  lemma RoundTrip(destination: int, fee: real, applied: real)
    requires 0 <= destination && 0.0 <= fee < 1.0 && 0.0 < applied
    ensures var back := Payout(SourceFor(destination, fee, applied), fee, applied);
            destination - Ceil(1000.0 * applied) <= back <= destination + Ceil(1000.0 * applied)
  {
    var s := SourceFor(destination, fee, applied);
    SourceJustCovers(destination, fee, applied, s);
    PaysBack(s, fee, applied, destination);
    PayoutRegrouped(s, fee, applied);
    FloorBetween(destination, (s - Fee(s, fee)) as real * (1000.0 * applied), 1000.0 * applied);
  }

  lemma DestinationPrice(terms: Terms, base: real, amount: real, applied: real)
    requires Sensible(terms) && 0.0 < base && applied == base * (1.0 - terms.spread)
    ensures 0.0 < applied
    ensures var q := Price(terms, base, amount, Destination);
            && q.applied == applied && q.destination == HalfUp(amount * 10000000.0)
            && q.source == SourceFor(q.destination, terms.fee, applied)
  {
    AppliedPositive(terms, base);
  }

  /** A destination-side quote asks for the least source amount that covers the requested payout. */
  lemma DestinationSide(terms: Terms, base: real, amount: real, s: int)
    requires Sensible(terms) && 0.0 < base && 0.0 < amount
    ensures var q := Price(terms, base, amount, Destination);
            && q.destination == HalfUp(amount * 10000000.0)
            && (s as real * (1.0 - terms.fee) * q.applied * 1000.0 >= q.destination as real <==> s >= q.source)
  {
    var applied := base * (1.0 - terms.spread);
    DestinationPrice(terms, base, amount, applied);
    LeastSource(HalfUp(amount * 10000000.0), terms.fee, applied, s);
  }

  /** A destination-side quote reports gross and fee of its source amount as the source side does. */
  lemma DestinationCharges(terms: Terms, base: real, amount: real)
    requires Sensible(terms) && 0.0 < base && 0.0 < amount
    ensures var q := Price(terms, base, amount, Destination);
            && q.gross as real <= q.source as real * q.base * 1000.0 < q.gross as real + 1.0
            && q.source as real * terms.fee <= q.fee as real < q.source as real * terms.fee + 1.0
            && q.base == base && q.applied == base - base * terms.spread
  {
  }

  /** Quoting that source amount pays the requested payout up to ceil(1000 * rate) stroops. */
  lemma DestinationRoundTrip(terms: Terms, base: real, amount: real)
    requires Sensible(terms) && 0.0 < base && 0.0 < amount
    ensures var q := Price(terms, base, amount, Destination);
            var back := Payout(q.source, terms.fee, q.applied);
            q.destination - Ceil(1000.0 * q.applied) <= back <= q.destination + Ceil(1000.0 * q.applied)
  {
    var applied := base * (1.0 - terms.spread);
    DestinationPrice(terms, base, amount, applied);
    HalfUpGrows(0.0, amount * 10000000.0);
    RoundTrip(HalfUp(amount * 10000000.0), terms.fee, applied);
  }
}
