/** Decimal values as the source keeps them, exact fractions, and rounding to a scale. */
module Decimals {

  /** num/den with den > 0, not necessarily in lowest terms. */
  datatype Decimal = Decimal(num: int, den: int) {
    predicate Valid() {
      den > 0
    }
  }

  function Pow10(n: nat): (p: int)
    ensures p >= 1
  {
    if n == 0 then 1 else 10 * Pow10(n - 1)
  }

  /** Multiplication, named so that proofs can treat products as units. */
  function Times(a: int, b: int): int {
    a * b
  }

  lemma TimesAtLeast(a: int, d: int)
    requires d > 0
    ensures a >= 1 ==> Times(a, d) >= d
    ensures a <= -1 ==> Times(a, d) <= -d
  {
    if a >= 1 {
      assert (a - 1) * d >= 0;
    }
    if a <= -1 {
      assert (-1 - a) * d >= 0;
    }
  }

  lemma TimesMinus(a: int, b: int, d: int)
    ensures Times(a - b, d) == Times(a, d) - Times(b, d)
  {
  }

  /** Multiplying by a positive number keeps the order. */
  lemma TimesOrder(a: int, b: int, d: int)
    requires d > 0
    ensures a < b ==> Times(a, d) + d <= Times(b, d)
    ensures a <= b <==> Times(a, d) <= Times(b, d)
  {
    hide Times;
    TimesMinus(b, a, d);
    TimesMinus(a, b, d);
    TimesAtLeast(b - a, d);
    TimesAtLeast(a - b, d);
  }

  /** `k` is the integer nearest to num/den, a tie going away from zero. */
  predicate Nearest(k: int, num: int, den: int) {
    var gap := 2 * (num - Times(k, den));
    && -den <= gap <= den
    && (num >= 0 ==> gap < den)
    && (num <= 0 ==> -den < gap)
  }

  /** The quotient rounded to the nearest integer, as computed from the truncated quotient. */
  function RoundDiv(num: int, den: int): int
    requires den > 0
  {
    var abs := if num < 0 then -num else num;
    var up := if 2 * (abs % den) >= den then abs / den + 1 else abs / den;
    if num < 0 then -up else up
  }

  lemma Quotient(abs: nat, den: int)
    requires den > 0
    ensures abs == Times(abs / den, den) + abs % den && 0 <= abs % den < den
    ensures Times(abs / den + 1, den) == Times(abs / den, den) + den
    ensures Times(-(abs / den), den) == -Times(abs / den, den)
    ensures Times(-(abs / den + 1), den) == -Times(abs / den, den) - den
  {
  }

  lemma RoundDivNearest(num: int, den: int)
    requires den > 0
    ensures Nearest(RoundDiv(num, den), num, den)
  {
    hide Times;
    Quotient(if num < 0 then -num else num, den);
  }

  /** Rounding is nearest with ties away from zero, and nothing else is. */
  lemma RoundDivIsNearest(num: int, den: int, k: int)
    requires den > 0
    ensures Nearest(k, num, den) <==> k == RoundDiv(num, den)
  {
    hide Times, RoundDiv;
    RoundDivNearest(num, den);
    if Nearest(k, num, den) {
      TimesOrder(k, RoundDiv(num, den), den);
      TimesOrder(RoundDiv(num, den), k, den);
    }
  }

  lemma RoundDivIsOdd(num: int, den: int)
    requires den > 0
    ensures RoundDiv(-num, den) == -RoundDiv(num, den)
  {
  }

  lemma RoundDivKeepsIntegers(k: int, den: int)
    requires den > 0
    ensures RoundDiv(Times(k, den), den) == k
  {
    hide Times, RoundDiv;
    RoundDivIsNearest(Times(k, den), den, k);
  }

  lemma TimesShuffle(num: int, den: int, k: int, m: int)
    ensures Times(m, num) - Times(k, Times(m, den)) == Times(num - Times(k, den), m)
    ensures Times(0, m) == 0 && Times(-den, m) == -Times(den, m) && Times(den, m) == Times(m, den) && Times(num, m) == Times(m, num)
    ensures Times(2 * (num - Times(k, den)), m) == 2 * Times(num - Times(k, den), m)
  {
    assert m * num - k * (m * den) == (num - k * den) * m;
  }

  /** The result depends on the value of the fraction and not on how it is written. */
  lemma RoundDivOfScaled(num: int, den: int, m: int)
    requires den > 0 && m > 0
    ensures Times(m, den) > 0 && RoundDiv(Times(m, num), Times(m, den)) == RoundDiv(num, den)
  {
    hide Times, RoundDiv;
    var k := RoundDiv(num, den);
    RoundDivIsNearest(num, den, k);
    TimesShuffle(num, den, k, m);
    var gap := 2 * (num - Times(k, den));
    TimesOrder(-den, gap, m);
    TimesOrder(gap, den, m);
    TimesOrder(0, num, m);
    TimesOrder(num, 0, m);
    TimesOrder(0, den, m);
    RoundDivIsNearest(Times(m, num), Times(m, den), k);
  }

  lemma RoundDivGrows(num: int, num': int, den: int)
    requires den > 0 && num <= num'
    ensures RoundDiv(num, den) <= RoundDiv(num', den)
  {
    hide Times, RoundDiv;
    RoundDivIsNearest(num, den, RoundDiv(num, den));
    RoundDivIsNearest(num', den, RoundDiv(num', den));
    TimesOrder(RoundDiv(num', den), RoundDiv(num, den), den);
  }

  /** Rounding is monotone in the value of the fraction: num/den <= num'/den'. */
  lemma RoundDivIsMonotone(num: int, den: int, num': int, den': int)
    requires den > 0 && den' > 0 && Times(den', num) <= Times(den, num')
    ensures RoundDiv(num, den) <= RoundDiv(num', den')
  {
    RoundDivOfScaled(num, den, den');
    RoundDivOfScaled(num', den', den);
    assert Times(den', den) == Times(den, den');
    RoundDivGrows(Times(den', num), Times(den, num'), Times(den', den));
  }

  // Decimal.Round

  /** The value rounded to `scale` decimal places; a negative scale counts as zero. */
  function Rounded(d: Decimal, scale: int): Decimal
    requires d.Valid()
  {
    var mult := Pow10(if scale < 0 then 0 else scale);
    Decimal(RoundDiv(Times(d.num, mult), d.den), mult)
  }

  method PowerOfTen(scale: nat) returns (out: int)
    ensures out == Pow10(scale)
  {
    out := 1;
    for i := 0 to scale
      invariant out == Pow10(i)
    {
      out := 10 * out;
    }
  }

  /** Round works on the absolute numerator with truncating division and restores the sign. */
  method Round(d: Decimal, scale: int) returns (r: Decimal)
    requires d.Valid()
    ensures r == Rounded(d, scale)
    ensures r.den == Pow10(if scale < 0 then 0 else scale) && Nearest(r.num, Times(d.num, r.den), d.den)
  {
    var mult := PowerOfTen(if scale < 0 then 0 else scale);
    var num := Times(d.num, mult);
    var negative := num < 0;
    if negative {
      num := -num;
    }
    var quotient, remainder := num / d.den, num % d.den;
    if 2 * remainder >= d.den {
      quotient := quotient + 1;
    }
    if negative {
      quotient := -quotient;
    }
    r := Decimal(quotient, mult);
    RoundDivIsNearest(Times(d.num, mult), d.den, quotient);
  }

  /** A value that already has at most `scale` decimals is unchanged. */
  lemma RoundedAtScale(units: int, scale: nat)
    ensures Pow10(scale) > 0 && Rounded(Decimal(units, Pow10(scale)), scale) == Decimal(units, Pow10(scale))
  {
    RoundDivKeepsIntegers(units, Pow10(scale));
  }
}
