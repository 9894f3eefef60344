/** parseAmountToStroops of src/stellar/soroban/transaction.service.ts, and the texts it is given. */
module Stroops {
  import opened Wrappers

  // ----- moving the decimal point

  /** v * 10^k */
  function Shift(v: nat, k: nat): nat {
    if k == 0 then v else 10 * Shift(v, k - 1)
  }

  /** floor(v / 10^k) */
  function Unshift(v: nat, k: nat): nat
    decreases k
  {
    if k == 0 then v else Unshift(v / 10, k - 1)
  }

  lemma {:induction false} ShiftSum(a: nat, b: nat, k: nat)
    ensures Shift(a + b, k) == Shift(a, k) + Shift(b, k)
  {
    if k > 0 {
      ShiftSum(a, b, k - 1);
    }
  }

  lemma {:induction false} ShiftTwice(v: nat, j: nat, k: nat)
    ensures Shift(Shift(v, j), k) == Shift(v, j + k)
  {
    if k > 0 {
      ShiftTwice(v, j, k - 1);
    }
  }

  lemma {:induction false} ShiftGrows(a: nat, b: nat, k: nat)
    requires a < b
    ensures Shift(a, k) < Shift(b, k)
  {
    if k > 0 {
      ShiftGrows(a, b, k - 1);
    }
  }

  /** Unshift undoes Shift and drops what was added below the point. */
  lemma {:induction false} UnshiftShift(v: nat, r: nat, k: nat)
    requires r < Shift(1, k)
    ensures Unshift(Shift(v, k) + r, k) == v
  {
    if k > 0 {
      assert (Shift(v, k) + r) / 10 == Shift(v, k - 1) + r / 10;
      UnshiftShift(v, r / 10, k - 1);
    }
  }

  /** Unshift(v, k) is the floor: shifting it back does not exceed v, the next number would. */
  lemma {:induction false} UnshiftIsFloor(v: nat, k: nat)
    ensures Shift(Unshift(v, k), k) <= v < Shift(Unshift(v, k) + 1, k)
  {
    if k > 0 {
      UnshiftIsFloor(v / 10, k - 1);
    }
  }

  // ----- decimal digits

  predicate IsDigits(s: string) {
    forall i :: 0 <= i < |s| ==> '0' <= s[i] <= '9'
  }

  /** The number that a string of digits denotes; 0 for the empty one. */
  function Value(s: string): nat
    requires IsDigits(s)
  {
    if s == [] then 0 else Value(s[..|s| - 1]) * 10 + (s[|s| - 1] - '0') as nat
  }

  function Zeros(n: nat): (s: string)
    ensures |s| == n && IsDigits(s)
  {
    if n == 0 then [] else Zeros(n - 1) + ['0']
  }

  lemma {:induction false} ValueConcat(s: string, t: string)
    requires IsDigits(s) && IsDigits(t)
    ensures IsDigits(s + t) && Value(s + t) == Shift(Value(s), |t|) + Value(t)
  {
    if t == [] {
      assert s + t == s;
    } else {
      assert (s + t)[..|s + t| - 1] == s + t[..|t| - 1];
      ValueConcat(s, t[..|t| - 1]);
    }
  }

  lemma {:induction false} ValueBound(s: string)
    requires IsDigits(s)
    ensures Value(s) < Shift(1, |s|)
  {
    if s != [] {
      ValueBound(s[..|s| - 1]);
    }
  }

  lemma {:induction false} AppendZeros(s: string, k: nat)
    requires IsDigits(s)
    ensures IsDigits(s + Zeros(k)) && Value(s + Zeros(k)) == Shift(Value(s), k)
  {
    if k == 0 {
      assert s + Zeros(k) == s;
    } else {
      assert (s + Zeros(k))[..|s + Zeros(k)| - 1] == s + Zeros(k - 1);
      AppendZeros(s, k - 1);
    }
  }

  // ----- the parser

  /** amount.split('.') */
  function Split(s: string): (parts: seq<string>)
    ensures |parts| >= 1
  {
    if s == [] then [""]
    else
      var rest := Split(s[1..]);
      if s[0] == '.' then [""] + rest else [[s[0]] + rest[0]] + rest[1..]
  }

  /** BigInt of a text of decimal digits. Any other text is a SyntaxError here. */
  function BigInt(s: string): Option<nat> {
    if s != [] && IsDigits(s) then Some(Value(s)) else None
  }

  /** `integerPart + padded` with `decimals` digits after the point. */
  function ParseParts(whole: string, fraction: string, decimals: nat): Option<nat> {
    BigInt(Whole(whole) + Padding(fraction, decimals))
  }

  /** decimalPart.padEnd(decimals, '0').slice(0, decimals) */
  function Padding(fraction: string, decimals: nat): string {
    if |fraction| > decimals then fraction[..decimals] else fraction + Zeros(decimals - |fraction|)
  }

  /** The integer part as the parser reads it. */
  function Whole(s: string): string {
    if s == [] then "0" else s
  }

  function ParseAt(amount: string, decimals: nat): Option<nat> {
    var parts := Split(amount);
    ParseParts(parts[0], if |parts| > 1 then parts[1] else [], decimals)
  }

  function ParseAmount(amount: string): Option<nat> {
    ParseAt(amount, 7)
  }

  lemma {:induction false} SplitWhole(s: string)
    requires '.' !in s
    ensures Split(s) == [s]
  {
    if s != [] {
      SplitWhole(s[1..]);
      assert [s[0]] + s[1..] == s;
    }
  }

  lemma {:induction false} SplitAtPoint(s: string, t: string)
    requires '.' !in s
    ensures Split(s + "." + t) == [s] + Split(t)
  {
    if s == [] {
      assert (s + "." + t)[1..] == t;
    } else {
      assert (s + "." + t)[1..] == s[1..] + "." + t;
      SplitAtPoint(s[1..], t);
      assert [s[0]] + s[1..] == s;
    }
  }

  lemma WholeConcat(whole: string, fraction: string)
    requires IsDigits(whole) && IsDigits(fraction)
    ensures IsDigits(whole + fraction) && IsDigits(Whole(whole) + fraction)
    ensures Value(Whole(whole) + fraction) == Value(whole + fraction)
  {
    if whole == [] {
      assert "0"[..0] == [];
      assert Value("0") == Value([]) * 10 + 0;
    }
    ValueConcat(whole, fraction);
    ValueConcat(Whole(whole), fraction);
  }

  /** Enough room: the missing digits are zeros. */
  lemma ParseShort(whole: string, fraction: string, d: nat)
    requires IsDigits(whole) && IsDigits(fraction) && |fraction| <= d
    ensures IsDigits(whole + fraction)
    ensures ParseParts(whole, fraction, d) == Some(Unshift(Shift(Value(whole + fraction), d), |fraction|))
  {
    WholeConcat(whole, fraction);
    AppendZeros(Whole(whole) + fraction, d - |fraction|);
    assert (Whole(whole) + fraction) + Zeros(d - |fraction|) == Whole(whole) + (fraction + Zeros(d - |fraction|));
    UnshiftPart(Value(whole + fraction), d, |fraction|);
  }

  lemma UnshiftPart(v: nat, d: nat, k: nat)
    requires k <= d
    ensures Unshift(Shift(v, d), k) == Shift(v, d - k)
  {
    ShiftTwice(v, d - k, k);
    ShiftGrows(0, 1, k);
    UnshiftShift(Shift(v, d - k), 0, k);
  }

  lemma UnshiftCut(v: nat, r: nat, k: nat, d: nat)
    requires r < Shift(1, k)
    ensures Unshift(Shift(Shift(v, k) + r, d), d + k) == v
  {
    ShiftSum(Shift(v, k), r, d);
    ShiftTwice(v, k, d);
    ShiftGrows(r, Shift(1, k), d);
    ShiftTwice(1, k, d);
    UnshiftShift(v, Shift(r, d), d + k);
  }

  /** Too many digits: the rest is cut off. */
  lemma ParseLong(whole: string, kept: string, cut: string, d: nat)
    requires IsDigits(whole) && IsDigits(kept) && IsDigits(cut)
    requires |kept| == d && cut != []
    ensures IsDigits(whole + (kept + cut))
    ensures ParseParts(whole, kept + cut, d)
         == Some(Unshift(Shift(Value(whole + (kept + cut)), d), |kept + cut|))
  {
    ParseKept(whole, kept, cut);
    ValueBound(cut);
    CutConcat(whole, kept, cut);
    UnshiftCut(Value(whole + kept), Value(cut), |cut|, d);
  }

  lemma ParseKept(whole: string, kept: string, cut: string)
    requires IsDigits(whole) && IsDigits(kept) && cut != []
    ensures IsDigits(whole + kept)
    ensures ParseParts(whole, kept + cut, |kept|) == Some(Value(whole + kept))
  {
    assert (kept + cut)[..|kept|] == kept;
    WholeConcat(whole, kept);
  }

  lemma CutConcat(whole: string, kept: string, cut: string)
    requires IsDigits(whole + kept) && IsDigits(cut)
    ensures IsDigits(whole + (kept + cut))
    ensures Value(whole + (kept + cut)) == Shift(Value(whole + kept), |cut|) + Value(cut)
  {
    assert (whole + kept) + cut == whole + (kept + cut);
    ValueConcat(whole + kept, cut);
  }

  /**
   For every plain numeral `whole.fraction`, the parser returns floor(value * 10^d): the digits of both parts
   read as one number, times 10^d, divided by 10 to the number of fraction digits.
   */
  lemma ParseIsFloor(whole: string, fraction: string, d: nat)
    requires IsDigits(whole) && IsDigits(fraction)
    ensures IsDigits(whole + fraction)
    ensures ParseAt(whole + "." + fraction, d) == Some(Unshift(Shift(Value(whole + fraction), d), |fraction|))
  {
    PartsAtPoint(whole, fraction, d);
    if |fraction| > d {
      assert fraction == fraction[..d] + fraction[d..];
      ParseLong(whole, fraction[..d], fraction[d..], d);
    } else {
      ParseShort(whole, fraction, d);
    }
  }

  lemma PartsAtPoint(whole: string, fraction: string, d: nat)
    requires '.' !in whole && '.' !in fraction
    ensures ParseAt(whole + "." + fraction, d) == ParseParts(whole, fraction, d)
  {
    SplitAtPoint(whole, fraction);
    SplitWhole(fraction);
  }

  /** A numeral without a point is a whole number of units. */
  lemma ParseWhole(whole: string, d: nat)
    requires IsDigits(whole)
    ensures ParseAt(whole, d) == Some(Shift(Value(whole), d))
  {
    SplitWhole(whole);
    ParseShort(whole, [], d);
    assert whole + [] == whole;
  }

  /** Trailing zeros of the fraction may be missing. */
  lemma ParseSum(whole: string, fraction: string, d: nat)
    requires IsDigits(whole) && IsDigits(fraction) && |fraction| <= d
    ensures ParseAt(whole + "." + fraction, d) == Some(Shift(Value(whole), d) + Shift(Value(fraction), d - |fraction|))
  {
    ParseIsFloor(whole, fraction, d);
    SumValue(whole, fraction, d);
  }

  lemma SumValue(whole: string, fraction: string, d: nat)
    requires IsDigits(whole) && IsDigits(fraction) && |fraction| <= d
    ensures IsDigits(whole + fraction)
    ensures Unshift(Shift(Value(whole + fraction), d), |fraction|)
         == Shift(Value(whole), d) + Shift(Value(fraction), d - |fraction|)
  {
    ValueConcat(whole, fraction);
    ShiftMixed(Value(whole), Value(fraction), |fraction|, d);
  }

  lemma ShiftMixed(q: nat, f: nat, k: nat, d: nat)
    requires k <= d
    ensures Unshift(Shift(Shift(q, k) + f, d), k) == Shift(q, d) + Shift(f, d - k)
  {
    UnshiftPart(Shift(q, k) + f, d, k);
    ShiftSum(Shift(q, k), f, d - k);
    ShiftTwice(q, k, d - k);
  }

  // ----- printing a number of units of 10^-d

  function Show(n: nat): (s: string)
    ensures IsDigits(s) && |s| > 0
  {
    if n < 10 then ['0' + n as char] else Show(n / 10) + ['0' + (n % 10) as char]
  }

  /** The last `width` digits of n, with leading zeros. */
  function Padded(n: nat, width: nat): (s: string)
    ensures IsDigits(s) && |s| == width
    decreases width
  {
    if width == 0 then [] else Padded(n / 10, width - 1) + ['0' + (n % 10) as char]
  }

  lemma {:induction false} ShowValue(n: nat)
    ensures Value(Show(n)) == n
  {
    var s := Show(n);
    if n >= 10 {
      ShowValue(n / 10);
      assert s[..|s| - 1] == Show(n / 10);
    } else {
      assert s[..0] == [];
      assert Value(s) == Value(s[..0]) * 10 + n;
    }
  }

  /** The digits before and behind the point make up the number. */
  lemma {:induction false} PaddedValue(n: nat, width: nat)
    ensures Shift(Unshift(n, width), width) + Value(Padded(n, width)) == n
    decreases width
  {
    if width > 0 {
      PaddedValue(n / 10, width - 1);
      var s := Padded(n, width);
      assert s[..|s| - 1] == Padded(n / 10, width - 1);
    }
  }

  function DropZeros(s: string): (t: string)
    ensures t <= s
    ensures IsDigits(s) ==> IsDigits(t)
  {
    if s != [] && s[|s| - 1] == '0' then DropZeros(s[..|s| - 1]) else s
  }

  lemma {:induction false} DropZerosValue(s: string)
    requires IsDigits(s)
    ensures Value(s) == Shift(Value(DropZeros(s)), |s| - |DropZeros(s)|)
  {
    if s != [] && s[|s| - 1] == '0' {
      DropZerosValue(s[..|s| - 1]);
    }
  }

  /** All d decimals. */
  function FixedText(n: nat, d: nat): string {
    Show(Unshift(n, d)) + "." + Padded(n, d)
  }

  /** Trailing zeros and a bare point dropped. */
  function TrimmedText(n: nat, d: nat): string {
    var fraction := DropZeros(Padded(n, d));
    if fraction == [] then Show(Unshift(n, d)) else Show(Unshift(n, d)) + "." + fraction
  }

  lemma {:induction false} ShiftOfZero(k: nat)
    ensures Shift(0, k) == 0
  {
    if k > 0 {
      ShiftOfZero(k - 1);
    }
  }

  /** A text whose parts add up to n units parses to n. */
  lemma TextParses(whole: string, fraction: string, d: nat, n: nat)
    requires IsDigits(whole) && IsDigits(fraction) && |fraction| <= d
    requires Shift(Value(whole), d) + Shift(Value(fraction), d - |fraction|) == n
    ensures ParseAt(whole + "." + fraction, d) == Some(n)
    ensures fraction == [] ==> ParseAt(whole, d) == Some(n)
  {
    ParseSum(whole, fraction, d);
    if fraction == [] {
      WholeParses(whole, fraction, d, n);
    }
  }

  lemma WholeParses(whole: string, fraction: string, d: nat, n: nat)
    requires IsDigits(whole) && fraction == []
    requires Shift(Value(whole), d) + Shift(Value(fraction), d - |fraction|) == n
    ensures ParseAt(whole, d) == Some(n)
  {
    EmptyFraction(d, fraction);
    ParseWhole(whole, d);
  }

  lemma EmptyFraction(d: nat, fraction: string)
    requires fraction == []
    ensures Shift(Value(fraction), d - |fraction|) == 0
  {
    ShiftOfZero(d);
  }

  lemma FixedRoundTrip(n: nat, d: nat)
    ensures ParseAt(FixedText(n, d), d) == Some(n)
  {
    var whole, fraction := Show(Unshift(n, d)), Padded(n, d);
    assert Shift(Value(whole), d) + Shift(Value(fraction), d - |fraction|) == n by {
      ShowValue(Unshift(n, d));
      PaddedValue(n, d);
    }
    TextParses(whole, fraction, d, n);
  }

  lemma TrimmedSum(n: nat, d: nat)
    ensures var fraction := DropZeros(Padded(n, d));
            Shift(Value(Show(Unshift(n, d))), d) + Shift(Value(fraction), d - |fraction|) == n
  {
    ShowValue(Unshift(n, d));
    PaddedValue(n, d);
    DropZerosValue(Padded(n, d));
  }

  lemma ScaledSum(n: nat, e: nat, d: nat)
    requires e <= d
    ensures var fraction := DropZeros(Padded(n, e));
            Shift(Value(Show(Unshift(n, e))), d) + Shift(Value(fraction), d - |fraction|) == Shift(n, d - e)
  {
    TrimmedSum(n, e);
    var fraction := DropZeros(Padded(n, e));
    Rescale(Value(Show(Unshift(n, e))), Value(fraction), |fraction|, e, d);
  }

  lemma Rescale(q: nat, f: nat, k: nat, e: nat, d: nat)
    requires k <= e <= d
    ensures Shift(q, d) + Shift(f, d - k) == Shift(Shift(q, e) + Shift(f, e - k), d - e)
  {
    ShiftSum(Shift(q, e), Shift(f, e - k), d - e);
    ShiftTwice(q, e, d - e);
    ShiftTwice(f, e - k, d - e);
  }

  /** A number printed with at most e decimals is parsed as so many units of 10^-d. */
  lemma ScaledRoundTrip(n: nat, e: nat, d: nat)
    requires e <= d
    ensures ParseAt(TrimmedText(n, e), d) == Some(Shift(n, d - e))
  {
    ScaledSum(n, e, d);
    TextParses(Show(Unshift(n, e)), DropZeros(Padded(n, e)), d, Shift(n, d - e));
  }

  lemma TrimmedRoundTrip(n: nat, d: nat)
    ensures ParseAt(TrimmedText(n, d), d) == Some(n)
  {
    ScaledRoundTrip(n, d, d);
  }

  // ----- seven decimals

  /** Decimal.toString of n stroops: below 10^-6 it prints in exponent notation. */
  function DecimalText(n: nat): string {
    if 1 <= n <= 9 then Show(n) + "e-7" else TrimmedText(n, 7)
  }

  lemma ExponentFails(n: nat)
    requires n <= 9
    ensures ParseAmount(Show(n) + "e-7") == None
  {
    var s := Show(n) + "e-7";
    SplitWhole(s);
    assert (Whole(s) + Padding([], 7))[1] == 'e';
  }

  /** Printing a number of stroops and parsing it back returns it, exactly unless Decimal prints an exponent. */
  lemma DecimalRoundTripIff(n: nat)
    ensures ParseAmount(DecimalText(n)) == Some(n) <==> n == 0 || n >= 10
  {
    if 1 <= n <= 9 {
      ExponentFails(n);
    } else {
      TrimmedRoundTrip(n, 7);
    }
  }
}
