/**
 Exact sums of sourced costs: decimal addition under a limited precision, and the precision that
 makes every partial sum exact.

 A decimal is a coefficient and a power of ten.  Values are compared as whole multiples of a small
 enough unit `10^unit`.
 */
module Money {
  // ----- powers and digits -----

  function Pow10(n: nat): (p: nat)
    ensures p >= 1
  {
    if n == 0 then 1 else 10 * Pow10(n - 1)
  }

  lemma {:induction false} PowAdds(a: nat, b: nat)
    ensures Pow10(a + b) == Pow10(a) * Pow10(b)
  {
    if a > 0 { PowAdds(a - 1, b); }
  }

  lemma {:induction false} PowGrows(a: nat, b: nat)
    requires a <= b
    ensures Pow10(a) <= Pow10(b)
    decreases b - a
  {
    if a < b { PowGrows(a + 1, b); }
  }

  /** How many digits a coefficient is written with; zero has one. */
  function Digits(n: nat): (d: nat)
    ensures d >= 1
  {
    if n < 10 then 1 else 1 + Digits(n / 10)
  }

  lemma {:induction false} DigitsBound(n: nat)
    ensures n < Pow10(Digits(n))
    ensures n > 0 ==> Pow10(Digits(n) - 1) <= n
  {
    if n >= 10 { DigitsBound(n / 10); }
  }

  lemma FewDigits(n: nat, d: nat)
    requires n < Pow10(d) && d >= 1
    ensures Digits(n) <= d
  {
    DigitsBound(n);
    if Digits(n) > d {
      PowGrows(d, Digits(n) - 1);
    }
  }

  // ----- decimals -----

  datatype Decimal = Decimal(coefficient: nat, exponent: int) {
    /** The position of the first digit. */
    function Adjusted(): int { exponent + Digits(coefficient) - 1 }
  }

  const ZERO := Decimal(0, 0)

  /** The value in units of `10^unit`. */
  function Value(d: Decimal, unit: int): nat
    requires unit <= d.exponent
  {
    d.coefficient * Pow10(d.exponent - unit)
  }

  /** Rounding half-even to a number of digits, as the default decimal context does. */
  function Round(d: Decimal, precision: nat): Decimal
    requires precision >= 1
  {
    if Digits(d.coefficient) <= precision then d
    else
      var dropped := Digits(d.coefficient) - precision;
      Carry(Quotient(d.coefficient, Pow10(dropped)), Remainder(d.coefficient, Pow10(dropped)), Pow10(dropped),
        precision, d.exponent + dropped)
  }

  function Quotient(a: nat, b: nat): nat
    requires b > 0
  {
    a / b
  }

  function Remainder(a: nat, b: nat): nat
    requires b > 0
  {
    a % b
  }

  /** The kept digits, one more if the rest is over half, or half and the last kept digit is odd. */
  function Carry(kept: nat, rest: nat, one: nat, precision: nat, exponent: int): Decimal
    requires precision >= 1
  {
    var up := 2 * rest > one || (2 * rest == one && kept % 2 == 1);
    var rounded := if up then kept + 1 else kept;
    if rounded == Pow10(precision) then Decimal(Pow10(precision - 1), exponent + 1) else Decimal(rounded, exponent)
  }

  /** The exact sum, at the smaller exponent. */
  function Align(a: Decimal, b: Decimal): Decimal {
    var e := if a.exponent < b.exponent then a.exponent else b.exponent;
    Decimal(Value(a, e) + Value(b, e), e)
  }

  function Add(a: Decimal, b: Decimal, precision: nat): Decimal
    requires precision >= 1
  {
    Round(Align(a, b), precision)
  }

  lemma Rescaled(d: Decimal, fine: int, coarse: int)
    requires fine <= coarse <= d.exponent
    ensures Value(d, fine) == Value(d, coarse) * Pow10(coarse - fine)
  {
    PowAdds(d.exponent - coarse, coarse - fine);
    MulAssociates(d.coefficient, Pow10(d.exponent - coarse), Pow10(coarse - fine));
  }

  lemma MulAssociates(a: int, b: int, c: int)
    ensures a * (b * c) == (a * b) * c
  {
  }

  lemma AlignIsExact(a: Decimal, b: Decimal, unit: int)
    requires unit <= a.exponent && unit <= b.exponent
    ensures Value(Align(a, b), unit) == Value(a, unit) + Value(b, unit)
  {
    var e := if a.exponent < b.exponent then a.exponent else b.exponent;
    Rescaled(a, unit, e);
    Rescaled(b, unit, e);
  }

  // ----- rounding that loses nothing -----

  lemma MultipleOfPower(n: nat, small: nat, large: nat)
    requires small <= large
    ensures Remainder(n * Pow10(large), Pow10(small)) == 0
    ensures Quotient(n * Pow10(large), Pow10(small)) * Pow10(small) == n * Pow10(large)
  {
    PowAdds(large - small, small);
    MulAssociates(n, Pow10(large - small), Pow10(small));
    ExactDivision(n * Pow10(large - small), Pow10(small));
  }

  lemma ExactDivision(a: nat, b: nat)
    requires b > 0
    ensures a * b >= 0 && Remainder(a * b, b) == 0 && Quotient(a * b, b) == a
  {
    DivisionIsUnique(a * b, b, a, Quotient(a * b, b), Remainder(a * b, b));
  }

  lemma DivisionIsUnique(x: nat, b: nat, a: nat, q: nat, r: nat)
    requires b > 0 && x == a * b && x == q * b + r && r < b
    ensures q == a && r == 0
  {
    if q < a {
      MulGrows(q + 1, a, b);
    } else if a < q {
      MulGrows(a + 1, q, b);
    }
  }

  lemma MulGrows(a: nat, c: nat, b: nat)
    requires a <= c
    ensures a * b <= c * b && (a - 1) * b == a * b - b
  {
  }

  /**
   A coefficient that is a multiple of `10^zeros`, and small apart from those zeros, loses nothing
   when it is rounded.
   */
  lemma RoundKeepsValue(d: Decimal, precision: nat, n: nat, zeros: nat, unit: int)
    requires precision >= 1 && unit <= d.exponent
    requires d.coefficient == n * Pow10(zeros) && n < Pow10(precision)
    ensures Round(d, precision).exponent >= d.exponent
    ensures Value(Round(d, precision), unit) == Value(d, unit)
  {
    if Digits(d.coefficient) > precision {
      var dropped := Digits(d.coefficient) - precision;
      FewZeros(n, zeros, precision);
      MultipleOfPower(n, dropped, zeros);
      DigitsBound(d.coefficient);
      DroppedAreZeros(d, precision, dropped, Quotient(d.coefficient, Pow10(dropped)), unit);
    }
  }

  lemma DroppedAreZeros(d: Decimal, precision: nat, dropped: nat, kept: nat, unit: int)
    requires precision >= 1 && unit <= d.exponent && kept * Pow10(dropped) == d.coefficient < Pow10(precision + dropped)
    ensures Carry(kept, 0, Pow10(dropped), precision, d.exponent + dropped) == Decimal(kept, d.exponent + dropped)
    ensures Value(Decimal(kept, d.exponent + dropped), unit) == Value(d, unit)
  {
    KeptFits(kept, precision, dropped, d.coefficient);
    PowAdds(dropped, d.exponent - unit);
    MulAssociates(kept, Pow10(dropped), Pow10(d.exponent - unit));
  }

  lemma FewZeros(n: nat, zeros: nat, precision: nat)
    requires precision >= 1 && n < Pow10(precision)
    ensures Digits(n * Pow10(zeros)) <= precision + zeros
  {
    PowAdds(precision, zeros);
    MulGrows(n + 1, Pow10(precision), Pow10(zeros));
    FewDigits(n * Pow10(zeros), precision + zeros);
  }

  lemma KeptFits(kept: nat, precision: nat, dropped: nat, coefficient: nat)
    requires kept * Pow10(dropped) == coefficient && coefficient < Pow10(precision + dropped)
    ensures kept < Pow10(precision)
  {
    PowAdds(precision, dropped);
    if kept >= Pow10(precision) { MulGrows(Pow10(precision), kept, Pow10(dropped)); }
  }

  /** A sum that is a small multiple of `10^lowest` survives rounding, whatever exponent it carries. */
  lemma SmallMultipleIsExact(d: Decimal, precision: nat, n: nat, lowest: int, unit: int)
    requires precision >= 1 && unit <= d.exponent && unit <= lowest
    requires Value(d, unit) == n * Pow10(lowest - unit) && n < Pow10(precision)
    ensures Round(d, precision).exponent >= d.exponent
    ensures Value(Round(d, precision), unit) == Value(d, unit)
  {
    if d.exponent >= lowest {
      Rescaled(d, unit, lowest);
      Cancel(Value(d, lowest), n, Pow10(lowest - unit));
      MulGrows(1, Pow10(d.exponent - lowest), d.coefficient);
      assert d.coefficient * 1 <= d.coefficient * Pow10(d.exponent - lowest);
      FewDigits(d.coefficient, precision);
    } else {
      PowAdds(lowest - d.exponent, d.exponent - unit);
      MulAssociates(n, Pow10(lowest - d.exponent), Pow10(d.exponent - unit));
      Cancel(d.coefficient, n * Pow10(lowest - d.exponent), Pow10(d.exponent - unit));
      RoundKeepsValue(d, precision, n, lowest - d.exponent, unit);
    }
  }

  lemma Cancel(a: int, b: int, p: nat)
    requires p >= 1 && a * p == b * p
    ensures a == b
  {
    if a < b { MulStrict(a, b, p); }
    if b < a { MulStrict(b, a, p); }
  }

  lemma MulStrict(a: int, b: int, p: nat)
    requires p >= 1 && a < b
    ensures a * p < b * p
  {
  }

  // ----- sums -----

  function Lowest(amounts: seq<Decimal>): (e: int)
    requires amounts != []
    ensures forall i :: 0 <= i < |amounts| ==> e <= amounts[i].exponent
  {
    var last := amounts[|amounts| - 1].exponent;
    if |amounts| == 1 then last
    else var rest := Lowest(amounts[..|amounts| - 1]); if last < rest then last else rest
  }

  function Highest(amounts: seq<Decimal>): (e: int)
    requires amounts != []
    ensures forall i :: 0 <= i < |amounts| ==> amounts[i].Adjusted() <= e
  {
    var last := amounts[|amounts| - 1].Adjusted();
    if |amounts| == 1 then last
    else var rest := Highest(amounts[..|amounts| - 1]); if last > rest then last else rest
  }

  /** The precision chosen for a list of amounts. */
  function Precision(amounts: seq<Decimal>): nat
    requires amounts != []
  {
    var wanted := Highest(amounts) - Lowest(amounts) + Digits(|amounts|) + 2;
    if wanted > 1 then wanted else 1
  }

  ghost predicate Fits(amounts: seq<Decimal>, unit: int) {
    forall i :: 0 <= i < |amounts| ==> unit <= amounts[i].exponent
  }

  /** The true sum, in units of `10^unit`. */
  ghost function Total(amounts: seq<Decimal>, unit: int): nat
    requires Fits(amounts, unit)
  {
    if amounts == [] then 0 else Total(amounts[..|amounts| - 1], unit) + Value(amounts[|amounts| - 1], unit)
  }

  lemma {:induction false} TotalRescaled(amounts: seq<Decimal>, fine: int, coarse: int)
    requires Fits(amounts, coarse) && fine <= coarse
    ensures Total(amounts, fine) == Total(amounts, coarse) * Pow10(coarse - fine)
  {
    if amounts != [] {
      TotalRescaled(amounts[..|amounts| - 1], fine, coarse);
      Rescaled(amounts[|amounts| - 1], fine, coarse);
      Distributes(Total(amounts[..|amounts| - 1], coarse), Value(amounts[|amounts| - 1], coarse), Pow10(coarse - fine));
    }
  }

  lemma Distributes(a: int, b: int, c: int)
    ensures (a + b) * c == a * c + b * c
  {
  }

  lemma ValueBound(d: Decimal, unit: int, highest: int)
    requires unit <= d.exponent && d.Adjusted() <= highest
    ensures Value(d, unit) < Pow10(highest + 1 - unit)
  {
    DigitsBound(d.coefficient);
    PowAdds(Digits(d.coefficient), d.exponent - unit);
    MulStrict(d.coefficient, Pow10(Digits(d.coefficient)), Pow10(d.exponent - unit));
    PowGrows(Digits(d.coefficient) + d.exponent - unit, highest + 1 - unit);
  }

  lemma {:induction false} TotalBound(amounts: seq<Decimal>, unit: int, highest: int)
    requires Fits(amounts, unit) && highest + 1 >= unit && forall i :: 0 <= i < |amounts| ==>
      amounts[i].Adjusted() <= highest
    ensures Total(amounts, unit) <= |amounts| * Pow10(highest + 1 - unit)
  {
    if amounts != [] {
      TotalBound(amounts[..|amounts| - 1], unit, highest);
      ValueBound(amounts[|amounts| - 1], unit, highest);
      MulGrows(|amounts|, |amounts|, Pow10(highest + 1 - unit));
    }
  }

  /** Any prefix sums to fewer digits than the chosen precision. */
  lemma PrefixFits(all: seq<Decimal>, k: nat)
    requires all != [] && k <= |all|
    ensures Total(all[..k], Lowest(all)) < Pow10(Precision(all))
  {
    var low, high := Lowest(all), Highest(all);
    assert all[0].Adjusted() <= high && low <= all[0].exponent;
    TotalBound(all[..k], low, high);
    PowerChain(Total(all[..k], low), k, |all|, high + 1 - low, Precision(all));
  }

  lemma PowerChain(total: nat, k: nat, n: nat, width: nat, precision: nat)
    requires total <= k * Pow10(width) && k <= n && width + Digits(n) <= precision
    ensures total < Pow10(precision)
  {
    DigitsBound(n);
    BoundChain(total, k, n, Pow10(Digits(n)), Pow10(width));
    PowAdds(Digits(n), width);
    PowGrows(Digits(n) + width, precision);
  }

  lemma BoundChain(total: nat, k: nat, n: nat, bound: nat, scale: nat)
    requires total <= k * scale && k <= n < bound && scale >= 1
    ensures total < bound * scale
  {
    MulStrict(k, bound, scale);
  }

  /** The running sum, rounded at every step, starting from `Decimal(0)`. */
  function Running(amounts: seq<Decimal>, precision: nat): Decimal
    requires precision >= 1
  {
    if amounts == [] then ZERO else Add(Running(amounts[..|amounts| - 1], precision), amounts[|amounts| - 1], precision)
  }

  lemma AddIsExact(a: Decimal, b: Decimal, precision: nat, n: nat, lowest: int, unit: int)
    requires precision >= 1 && unit <= a.exponent && unit <= b.exponent && unit <= lowest
    requires Value(a, unit) + Value(b, unit) == n * Pow10(lowest - unit) && n < Pow10(precision)
    ensures Add(a, b, precision).exponent >= unit
    ensures Value(Add(a, b, precision), unit) == Value(a, unit) + Value(b, unit)
  {
    AlignIsExact(a, b, unit);
    SmallMultipleIsExact(Align(a, b), precision, n, lowest, unit);
  }

  lemma TotalStep(all: seq<Decimal>, k: nat, unit: int)
    requires 0 < k <= |all| && Fits(all, unit)
    ensures Total(all[..k], unit) == Total(all[..k - 1], unit) + Value(all[k - 1], unit)
  {
    assert all[..k][..k - 1] == all[..k - 1];
  }

  lemma RunningStep(all: seq<Decimal>, k: nat, precision: nat)
    requires 0 < k <= |all| && precision >= 1
    ensures Running(all[..k], precision) == Add(Running(all[..k - 1], precision), all[k - 1], precision)
  {
    assert all[..k][..k - 1] == all[..k - 1];
  }

  /** No partial sum loses value, not even when every exponent is positive. */
  lemma {:induction false} PartialSumsAreExact(all: seq<Decimal>, k: nat, unit: int)
    requires all != [] && k <= |all| && unit <= 0 && Fits(all, unit) && unit <= Lowest(all)
    ensures Running(all[..k], Precision(all)).exponent >= unit
    ensures Value(Running(all[..k], Precision(all)), unit) == Total(all[..k], unit)
    decreases k
  {
    if k > 0 {
      PartialSumsAreExact(all, k - 1, unit);
      RunningStep(all, k, Precision(all));
      TotalStep(all, k, unit);
      TotalRescaled(all[..k], unit, Lowest(all));
      PrefixFits(all, k);
      AddIsExact(Running(all[..k - 1], Precision(all)), all[k - 1], Precision(all), Total(all[..k], Lowest(all)),
        Lowest(all), unit);
    }
  }

  /** `_exact_sum`. */
  method ExactSum(amounts: seq<Decimal>, ghost unit: int) returns (total: Decimal)
    requires amounts != [] && unit <= 0 && Fits(amounts, unit)
    ensures total.exponent >= unit && Value(total, unit) == Total(amounts, unit)
  {
    UnitBelowLowest(amounts, unit);
    var precision := Precision(amounts);
    total := ZERO;
    for i := 0 to |amounts|
      invariant total == Running(amounts[..i], precision)
    {
      assert amounts[..i + 1][..i] == amounts[..i] && amounts[..i + 1][i] == amounts[i];
      total := Add(total, amounts[i], precision);
    }
    PartialSumsAreExact(amounts, |amounts|, unit);
    assert amounts[..|amounts|] == amounts;
  }

  lemma {:induction false} UnitBelowLowest(amounts: seq<Decimal>, unit: int)
    requires amounts != [] && Fits(amounts, unit)
    ensures unit <= Lowest(amounts)
  {
    if |amounts| > 1 { UnitBelowLowest(amounts[..|amounts| - 1], unit); }
  }
}
