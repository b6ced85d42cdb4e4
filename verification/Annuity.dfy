/** The annuity arithmetic of the credit service: the factor i(1+i)^n / ((1+i)^n - 1), the monthly
    payment recomputed from the remaining debt, and the interest rate it is computed with. Powers are
    exact, Div keeps 16 decimals, Round rounds half away from zero, and so do the database columns: debts
    and amounts are stored with four decimals, rates with ten. */
module Annuity {

  // Real arithmetic, named so that proofs can treat products as units

  function Mul(a: real, b: real): real {
    a * b
  }

  function Ratio(a: real, b: real): real
    requires b != 0.0
  {
    a / b
  }

  lemma MulMinus(a: real, b: real, c: real)
    ensures Mul(a - b, c) == Mul(a, c) - Mul(b, c)
    ensures Mul(c, a - b) == Mul(c, a) - Mul(c, b)
  {
  }

  lemma MulFacts(a: real, b: real)
    ensures Mul(a, 1.0) == a && Mul(1.0, a) == a && Mul(0.0, a) == 0.0
    ensures Mul(a, b) == Mul(b, a)
  {
  }

  lemma MulAssoc(a: real, b: real, c: real)
    ensures Mul(Mul(a, b), c) == Mul(a, Mul(b, c))
  {
    assert (a * b) * c == a * (b * c);
  }

  lemma RatioTimes(a: real, b: real)
    requires b != 0.0
    ensures Mul(Ratio(a, b), b) == a
  {
  }

  lemma MulPositive(a: real, b: real)
    requires b > 0.0
    ensures a > 0.0 ==> Mul(a, b) > 0.0
    ensures a < 0.0 ==> Mul(a, b) < 0.0
  {
  }

  /** Multiplying by a positive number keeps signs and order. */
  lemma MulOrder(a: real, a': real, b: real)
    requires b > 0.0
    ensures a < a' <==> Mul(a, b) < Mul(a', b)
    ensures a == a' <==> Mul(a, b) == Mul(a', b)
  {
    hide Mul;
    MulMinus(a, a', b);
    MulPositive(a - a', b);
  }

  // Powers and the annuity factor

  function Pow(x: real, n: nat): real {
    if n == 0 then 1.0 else Mul(x, Pow(x, n - 1))
  }

  lemma {:induction false} PowGrows(x: real, n: nat)
    requires x > 1.0
    ensures if n == 0 then Pow(x, n) == 1.0 else Pow(x, n) > Pow(x, n - 1) >= 1.0
    ensures n == 1 ==> Pow(x, n) == x
    ensures n > 1 ==> Pow(x, n) > x
  {
    hide Mul;
    if n > 0 {
      PowGrows(x, n - 1);
      MulOrder(1.0, x, Pow(x, n - 1));
      MulFacts(Pow(x, n - 1), x);
      MulFacts(x, x);
    }
  }

  /** i(1+i)^n / ((1+i)^n - 1); the denominator is never zero. */
  function Factor(i: real, n: nat): real
    requires i > 0.0 && n >= 1
  {
    PowGrows(1.0 + i, n);
    Ratio(Mul(i, Pow(1.0 + i, n)), Pow(1.0 + i, n) - 1.0)
  }

  /** What one exact payment multiplies the debt by, times (1+i)^n - 1. */
  lemma Shrinkage(i: real, n: nat)
    requires i > 0.0 && n >= 1
    ensures var s := Pow(1.0 + i, n);
            s > 1.0 && Mul(1.0 + i - Factor(i, n), s - 1.0) == s - (1.0 + i)
  {
    hide Mul, Ratio, Pow;
    var q, s := 1.0 + i, Pow(1.0 + i, n);
    PowGrows(q, n);
    RatioTimes(Mul(i, s), s - 1.0);
    MulMinus(q, Factor(i, n), s - 1.0);
    MulMinus(s, 1.0, q);
    MulMinus(q, i, s);
    MulFacts(q, s);
    MulFacts(q, s - 1.0);
    MulFacts(s, i);
  }

  lemma ShrinkageBounds(i: real, n: nat)
    requires i > 0.0 && n >= 1
    ensures var g := 1.0 + i - Factor(i, n);
            if n == 1 then g == 0.0 else 0.0 < g < 1.0
  {
    hide Mul, Pow, Factor;
    var g, s := 1.0 + i - Factor(i, n), Pow(1.0 + i, n);
    Shrinkage(i, n);
    PowGrows(1.0 + i, n);
    MulOrder(0.0, g, s - 1.0);
    MulOrder(g, 1.0, s - 1.0);
    MulFacts(s - 1.0, g);
  }

  // The exact schedule

  /** Debt after paying one exact annuity installment on `debt` with n payments to go. */
  function NextExact(debt: real, i: real, n: nat): real
    requires i > 0.0 && n >= 1
  {
    debt - (Mul(debt, Factor(i, n)) - Mul(debt, i))
  }

  lemma NextExactShrinks(debt: real, i: real, n: nat)
    requires i > 0.0 && n >= 1
    ensures NextExact(debt, i, n) == Mul(1.0 + i - Factor(i, n), debt)
    ensures debt > 0.0 ==> if n == 1 then NextExact(debt, i, n) == 0.0 else 0.0 < NextExact(debt, i, n) < debt
  {
    hide Mul, Factor;
    var f := Factor(i, n);
    MulMinus(1.0 + i, f, debt);
    MulMinus(1.0 + i, i, debt);
    MulFacts(debt, f);
    MulFacts(debt, i);
    ShrinkageBounds(i, n);
    if debt > 0.0 {
      MulOrder(0.0, 1.0 + i - f, debt);
      MulOrder(1.0 + i - f, 1.0, debt);
    }
  }

  predicate Positive(rates: seq<real>) {
    forall k :: 0 <= k < |rates| ==> rates[k] > 0.0
  }

  /** Debt after the first k payments when month by month any positive rates are in force. */
  function DebtAfter(amount: real, rates: seq<real>, k: nat): real
    requires Positive(rates) && k <= |rates|
  {
    if k == 0 then amount else NextExact(DebtAfter(amount, rates, k - 1), rates[k - 1], |rates| - (k - 1))
  }

  /** In exact arithmetic, whatever rates are picked, the debt stays positive and strictly falls until
      the last payment and is exactly zero after it. */
  lemma {:induction false} ScheduleEndsAtZero(amount: real, rates: seq<real>, k: nat)
    requires Positive(rates) && amount > 0.0 && k <= |rates| && |rates| >= 1
    ensures k < |rates| ==> DebtAfter(amount, rates, k) > 0.0
    ensures 0 < k ==> DebtAfter(amount, rates, k) < DebtAfter(amount, rates, k - 1)
    ensures k == |rates| ==> DebtAfter(amount, rates, k) == 0.0
  {
    if k > 0 {
      ScheduleEndsAtZero(amount, rates, k - 1);
      NextExactShrinks(DebtAfter(amount, rates, k - 1), rates[k - 1], |rates| - (k - 1));
    }
  }

  /** With an unchanged rate the recomputed installment equals the previous one. */
  lemma UnchangedRateKeepsInstallment(debt: real, i: real, n: nat)
    requires i > 0.0 && n >= 2
    ensures Mul(NextExact(debt, i, n), Factor(i, n - 1)) == Mul(debt, Factor(i, n))
  {
    hide Mul, Factor, Pow, NextExact;
    var g, f, f' := 1.0 + i - Factor(i, n), Factor(i, n), Factor(i, n - 1);
    FactorStep(i, n);
    NextExactShrinks(debt, i, n);
    MulAssoc(g, debt, f');
    MulFacts(debt, f');
    MulAssoc(g, f', debt);
    MulFacts(g, f');
    MulFacts(f, debt);
  }

  lemma FactorTimes(i: real, n: nat)
    requires i > 0.0 && n >= 1
    ensures Pow(1.0 + i, n) > 1.0 && Mul(Factor(i, n), Pow(1.0 + i, n) - 1.0) == Mul(i, Pow(1.0 + i, n))
  {
    hide Mul, Pow, Ratio;
    PowGrows(1.0 + i, n);
    RatioTimes(Mul(i, Pow(1.0 + i, n)), Pow(1.0 + i, n) - 1.0);
  }

  /** factor(n-1) * (1 + i - factor(n)) == factor(n). */
  lemma FactorStep(i: real, n: nat)
    requires i > 0.0 && n >= 2
    ensures Mul(Factor(i, n - 1), 1.0 + i - Factor(i, n)) == Factor(i, n)
  {
    hide Mul, Factor, Ratio;
    var q := 1.0 + i;
    var s, p := Pow(q, n), Pow(q, n - 1);
    var g, f, f' := q - Factor(i, n), Factor(i, n), Factor(i, n - 1);
    assert s == Mul(q, p);
    hide Pow;
    FactorTimes(i, n);
    FactorTimes(i, n - 1);
    Shrinkage(i, n);
    MulMinus(p, 1.0, q);
    MulFacts(q, 1.0);
    MulFacts(q, p - 1.0);
    MulFacts(q, p);
    // (f' g)(s - 1) == f' (s - q) == f' (q (p - 1)) == q (i p) == i s == f (s - 1)
    MulAssoc(f', g, s - 1.0);
    MulAssoc(f', p - 1.0, q);
    MulFacts(f', q);
    MulAssoc(i, p, q);
    MulOrder(Mul(f', g), f, s - 1.0);
  }

  // Rounding

  /** Nearest integer, half away from zero. */
  function RoundInt(x: real): int {
    if x >= 0.0 then (x + 0.5).Floor else -((-x + 0.5).Floor)
  }

  function Round4(x: real): real {
    RoundInt(x * 10000.0) as real / 10000.0
  }

  function Round10(x: real): real {
    RoundInt(x * 10000000000.0) as real / 10000000000.0
  }

  function Round16(x: real): real {
    RoundInt(x * 10000000000000000.0) as real / 10000000000000000.0
  }

  lemma RoundErrors(x: real)
    ensures -0.00005 <= Round4(x) - x <= 0.00005
    ensures -0.00000000005 <= Round10(x) - x <= 0.00000000005
    ensures -0.00000000000000005 <= Round16(x) - x <= 0.00000000000000005
  {
  }

  /** A value with at most ten decimals. */
  predicate TenDecimals(x: real) {
    x * 10000000000.0 == (x * 10000000000.0).Floor as real
  }

  lemma RoundIntOfInt(k: int)
    ensures RoundInt(k as real) == k
  {
  }

  lemma RoundKeepsTenDecimals(x: real)
    requires TenDecimals(x)
    ensures Round10(x) == x && Round16(x) == x
  {
    hide RoundInt;
    var k := (x * 10000000000.0).Floor;
    RoundIntOfInt(k);
    var m := k * 1000000;
    RoundIntOfInt(m);
    assert m as real == k as real * 1000000.0;
    assert x * 10000000000000000.0 == (x * 10000000000.0) * 1000000.0;
  }

  lemma Round10HasTenDecimals(x: real)
    ensures TenDecimals(Round10(x))
  {
    var k := RoundInt(x * 10000000000.0);
    assert Round10(x) * 10000000000.0 == k as real;
  }

  /** decimal.Div keeps 16 decimals. */
  function Div(a: real, b: real): real
    requires b != 0.0
  {
    Round16(Ratio(a, b))
  }

  /** The factor as the code computes it. */
  function Val(i: real, n: nat): real
    requires i > 0.0 && n >= 1
  {
    var s := Pow(1.0 + i, n);
    PowGrows(1.0 + i, n);
    Round10(Div(Mul(i, s), s - 1.0))
  }

  /** The monthly installment the code computes from the remaining debt. */
  function Monthly(debt: real, i: real, n: nat): real
    requires i > 0.0 && n >= 1
  {
    Round4(Mul(debt, Val(i, n)))
  }

  /** The debt left by paying `payment`: interest first, the rest off the principal. */
  function NextDebt(debt: real, payment: real, i: real): real {
    debt - (payment - Mul(debt, i))
  }

  lemma ValError(i: real, n: nat)
    requires i > 0.0 && n >= 1
    ensures -0.0000000001 <= Val(i, n) - Factor(i, n) <= 0.0000000001
  {
    hide Mul, Ratio, Pow, Round16, Round10;
    PowGrows(1.0 + i, n);
    RoundErrors(Factor(i, n));
    RoundErrors(Round16(Factor(i, n)));
  }

  lemma MulSmall(debt: real, e: real)
    requires debt >= 0.0 && -0.0000000001 <= e <= 0.0000000001
    ensures -debt * 0.0000000001 <= Mul(debt, e) <= debt * 0.0000000001
  {
    if debt > 0.0 {
      MulOrder(e, 0.0000000001, debt);
      MulOrder(-0.0000000001, e, debt);
    }
  }

  /** Paying the rounded installment on the very debt it was computed from leaves a debt within
      debt/10^10 + 0.00005 of the exact one. */
  lemma InstallmentError(debt: real, i: real, n: nat)
    requires debt >= 0.0 && i > 0.0 && n >= 1
    ensures Close(NextDebt(debt, Monthly(debt, i, n), i), NextExact(debt, i, n), debt * 0.0000000001 + 0.00005)
  {
    hide Mul, Factor, Val, Round4;
    ValError(i, n);
    MulSmall(debt, Val(i, n) - Factor(i, n));
    MulMinus(Val(i, n), Factor(i, n), debt);
    RoundErrors(Mul(debt, Val(i, n)));
  }

  // The stored debt

  /** What one payment makes of the computed debt `debt`: the installment was computed from it, but
      interest is taken on, and the payment made against, the value the column kept of it. */
  function NextComputed(debt: real, i: real, n: nat): real
    requires i > 0.0 && n >= 1
  {
    NextDebt(Round4(debt), Monthly(debt, i, n), i)
  }

  /** The bound on the error of one payment, for rates below 1.5 percent. */
  function Slack(debt: real): real {
    debt * 0.0000000001 + 0.00010075
  }

  predicate UsableRate(i: real) {
    0.0 < i < 0.015 && TenDecimals(i)
  }

  lemma RoundFixed(x: real)
    ensures Round4(Round4(x)) == Round4(x)
  {
    hide RoundInt;
    var k := RoundInt(x * 10000.0);
    RoundIntOfInt(k);
    assert Round4(x) * 10000.0 == k as real;
  }

  /** What storing the debt costs one payment. */
  lemma StorageError(debt: real, payment: real, i: real)
    requires 0.0 < i < 0.015
    ensures Close(NextDebt(Round4(debt), payment, i), NextDebt(debt, payment, i), 0.00005075)
  {
    hide Mul, Round4;
    var e := Round4(debt) - debt;
    RoundErrors(debt);
    MulMinus(Round4(debt), debt, i);
    if e > 0.0 {
      MulOrder(i, 0.015, e);
      MulOrder(0.0, i, e);
    } else if e < 0.0 {
      MulOrder(i, 0.015, -e);
      MulOrder(0.0, i, -e);
      MulMinus(0.0, e, i);
    }
    MulFacts(e, i);
    MulFacts(-e, i);
    MulFacts(i, e);
    SmallProduct(e);
  }

  lemma SmallProduct(e: real)
    ensures Mul(0.015, e) == 0.015 * e && Mul(0.015, -e) == -0.015 * e && Mul(0.0, e) == 0.0 && Mul(0.0, -e) == 0.0
  {
  }

  /** Each payment leaves a debt within debt/10^10 + 0.00010075 of the exact one. */
  lemma PaymentError(debt: real, i: real, n: nat)
    requires debt >= 0.0 && 0.0 < i < 0.015 && n >= 1
    ensures Close(NextComputed(debt, i, n), NextExact(debt, i, n), Slack(debt))
  {
    hide Mul, Factor, Monthly, Round4, NextExact, NextDebt;
    InstallmentError(debt, i, n);
    StorageError(debt, Monthly(debt, i, n), i);
  }

  /** The last scheduled installment leaves at most 0.00010075 either way, and at most 0.00005 if the debt
      lost nothing when it was stored. */
  lemma LastResidual(debt: real, i: real)
    requires UsableRate(i)
    ensures Close(NextComputed(debt, i, 1), 0.0, 0.00010075)
    ensures Round4(debt) == debt ==> Close(NextComputed(debt, i, 1), 0.0, 0.00005)
  {
    hide Mul, Pow, Ratio, Round16, Round10, Round4;
    PowGrows(1.0 + i, 1);
    ShrinkageBounds(i, 1);
    assert Factor(i, 1) == 1.0 + i;
    assert TenDecimals(1.0 + i) by { OnePlusTenDecimals(i); }
    RoundKeepsTenDecimals(1.0 + i);
    assert Val(i, 1) == 1.0 + i;
    RoundErrors(Mul(debt, 1.0 + i));
    MulMinus(1.0 + i, 1.0, debt);
    MulFacts(debt, 1.0);
    assert Close(NextDebt(debt, Monthly(debt, i, 1), i), 0.0, 0.00005);
    StorageError(debt, Monthly(debt, i, 1), i);
  }

  lemma OnePlusTenDecimals(i: real)
    requires TenDecimals(i)
    ensures TenDecimals(1.0 + i)
  {
    var k := (i * 10000000000.0).Floor + 10000000000;
    assert (1.0 + i) * 10000000000.0 == k as real;
  }

  /** When a payment before the last leaves nothing to pay, what is discarded is only rounding error. */
  lemma EarlyFinishResidual(debt: real, i: real, n: nat)
    requires debt > 0.0 && 0.0 < i < 0.015 && n >= 2
    ensures NextComputed(debt, i, n) <= 0.0 ==> NextComputed(debt, i, n) >= -Slack(debt)
  {
    hide NextComputed, NextExact;
    PaymentError(debt, i, n);
    NextExactShrinks(debt, i, n);
  }

  /** A positive amount rounds to nothing exactly when it is below 0.00005. */
  lemma RoundsToNothing(x: real)
    requires x >= 0.0
    ensures Round4(x) >= 0.0 && (Round4(x) == 0.0 <==> x < 0.00005)
  {
    var k := RoundInt(x * 10000.0);
    assert k == 0 <==> x * 10000.0 + 0.5 < 1.0;
  }

  /** An installment is nothing exactly when debt times factor is below 0.00005. */
  lemma ZeroInstallmentExactly(debt: real, i: real, n: nat)
    requires debt >= 0.0 && i > 0.0 && n >= 1
    ensures Monthly(debt, i, n) >= 0.0
    ensures Monthly(debt, i, n) == 0.0 <==> Mul(debt, Val(i, n)) < 0.00005
  {
    hide Mul, Val, Round4;
    assert Val(i, n) >= 0.0 by { ValNotNegative(i, n); }
    ProductNotNegative(debt, Val(i, n));
    RoundsToNothing(Mul(debt, Val(i, n)));
  }

  lemma ProductNotNegative(a: real, b: real)
    requires a >= 0.0 && b >= 0.0
    ensures Mul(a, b) >= 0.0
  {
  }

  lemma ValNotNegative(i: real, n: nat)
    requires i > 0.0 && n >= 1
    ensures Val(i, n) >= 0.0
  {
    hide Mul, Pow, Ratio, Factor;
    PowGrows(1.0 + i, n);
    var s := Pow(1.0 + i, n);
    ProductNotNegative(i, s);
    RatioNotNegative(Mul(i, s), s - 1.0);
    RoundNotNegative(Ratio(Mul(i, s), s - 1.0));
    RoundNotNegative(Round16(Ratio(Mul(i, s), s - 1.0)));
  }

  lemma RatioNotNegative(a: real, b: real)
    requires a >= 0.0 && b > 0.0
    ensures Ratio(a, b) >= 0.0
  {
    RatioTimes(a, b);
    if Ratio(a, b) < 0.0 {
      MulPositive(Ratio(a, b), b);
    }
  }

  lemma RoundNotNegative(x: real)
    requires x >= 0.0
    ensures Round16(x) >= 0.0 && Round10(x) >= 0.0
  {
  }

  // The computed schedule as a whole

  /** The debt computed after the first k payments, each made against the stored value. */
  function ComputedAfter(amount: real, rates: seq<real>, k: nat): real
    requires Positive(rates) && k <= |rates|
  {
    if k == 0 then amount else NextComputed(ComputedAfter(amount, rates, k - 1), rates[k - 1], |rates| - (k - 1))
  }

  predicate Close(a: real, b: real, gap: real) {
    -gap <= a - b <= gap
  }

  /** Paying the exact installment brings two debts no further apart. */
  lemma PaymentContracts(debt: real, debt': real, i: real, n: nat, gap: real)
    requires i > 0.0 && n >= 1 && Close(debt, debt', gap)
    ensures Close(NextExact(debt, i, n), NextExact(debt', i, n), gap)
  {
    hide Mul, Factor, NextExact;
    var g, d := 1.0 + i - Factor(i, n), debt - debt';
    NextExactShrinks(debt, i, n);
    NextExactShrinks(debt', i, n);
    ShrinkageBounds(i, n);
    MulMinus(debt, debt', g);
    MulFacts(g, d);
    if d > 0.0 {
      MulOrder(g, 1.0, d);
      MulOrder(-1.0, g, d);
    } else if d < 0.0 {
      MulOrder(g, 1.0, -d);
      MulOrder(-1.0, g, -d);
      MulMinus(0.0, d, g);
    }
    MulFacts(d, g);
    MulFacts(-d, g);
    MulMinus(0.0, 1.0, -d);
    MulMinus(0.0, 1.0, d);
  }

  /** Over k payments the computed debt drifts from the exact schedule by at most k single-payment errors,
      and the stored debt by 0.00005 more, for as long as the debt stays between zero and `cap`. */
  lemma {:induction false} RoundedTracksExact(amount: real, rates: seq<real>, k: nat, cap: real)
    requires Positive(rates) && k <= |rates| && forall j :: 0 <= j < |rates| ==> rates[j] < 0.015
    requires forall j :: 0 <= j < k ==> 0.0 <= ComputedAfter(amount, rates, j) <= cap
    ensures Close(ComputedAfter(amount, rates, k), DebtAfter(amount, rates, k), Mul(k as real, Slack(cap)))
    ensures Close(Round4(ComputedAfter(amount, rates, k)), DebtAfter(amount, rates, k), Mul(k as real, Slack(cap)) + 0.00005)
  {
    hide Mul, NextExact, NextComputed, Round4;
    var c := Slack(cap);
    MulFacts(c, 1.0);
    if k > 0 {
      RoundedTracksExact(amount, rates, k - 1, cap);
      var debt, exact := ComputedAfter(amount, rates, k - 1), DebtAfter(amount, rates, k - 1);
      PaymentError(debt, rates[k - 1], |rates| - (k - 1));
      PaymentContracts(debt, exact, rates[k - 1], |rates| - (k - 1), Mul((k - 1) as real, c));
      MulMinus(k as real, 1.0, c);
    }
    RoundErrors(ComputedAfter(amount, rates, k));
  }

  // The interest rate

  datatype LoanType = Cash | Housing | Car | Refinancing | Student | OtherType

  datatype InterestType = Fixed | Variable

  function Margin(t: LoanType): real {
    match t
    case Cash => 1.75
    case Housing => 1.50
    case Car => 1.25
    case Refinancing => 1.00
    case Student => 0.75
    case OtherType => 0.0
  }

  const TIERS: seq<real> := [100000.0, 500000.0, 1000000.0, 5000000.0]

  /** How many of the first three tiers the amount is above. */
  function Tier(amount: real): nat {
    if amount <= 100000.0 then 0 else if amount <= 500000.0 then 1 else if amount <= 1000000.0 then 2 else 3
  }

  function AnnualPercent(amount: real, t: LoanType, overdue: bool): real {
    12.0 - Tier(amount) as real + Margin(t) + if overdue then 2.0 else 0.0
  }

  function MonthlyRate(percent: real): real {
    Round10(Round16(Round16(percent / 12.0) / 100.0))
  }

  /** The effective monthly rate. */
  function Rate(amount: real, t: LoanType, it: InterestType, overdue: bool): real {
    MonthlyRate(AnnualPercent(amount, t, overdue) + if it == Variable then 0.5 else 0.0)
  }

  /** calculateInterestRate. */
  method CalculateInterestRate(amount: real, t: LoanType, it: InterestType, overdue: bool)
    returns (nominal: real, effective: real)
    ensures nominal == MonthlyRate(AnnualPercent(amount, t, overdue))
    ensures effective == Rate(amount, t, it, overdue)
  {
    hide Round10, Round16;
    var tier := 0;
    while tier < |TIERS| - 1 && amount > TIERS[tier]
      invariant tier <= |TIERS| - 1
      invariant tier > 0 ==> amount > TIERS[tier - 1]
    {
      tier := tier + 1;
    }
    assert tier == Tier(amount);
    var percent := 12.0 - 1.0 * tier as real + Margin(t);
    if overdue {
      percent := percent + 2.0;
    }
    nominal := Round10(Round16(Round16(percent / 12.0) / 100.0));
    effective := nominal;
    if it == Variable {
      effective := Round10(Round16(Round16((percent + 0.5) / 12.0) / 100.0));
    }
  }

  /** The tiers end at 1000000: the table's last entry is never compared, so all larger amounts get the
      same rate, those above 5000000 included, and it is the lowest one for their type. */
  lemma TiersEndAtOneMillion(amount: real, larger: real, any: real, t: LoanType, it: InterestType, overdue: bool)
    requires amount > 1000000.0 && larger > TIERS[3]
    ensures Tier(amount) == 3 && Rate(amount, t, it, overdue) == Rate(larger, t, it, overdue)
    ensures AnnualPercent(amount, t, overdue) <= AnnualPercent(any, t, overdue)
    ensures AnnualPercent(any, t, overdue) == AnnualPercent(amount, t, overdue) <==> any > 1000000.0
  {
    hide Round10, Round16;
  }

  /** The yearly percentage: 12, 11, 10 or 9 by the amount, plus the margin of the type of loan, plus two
      points when overdue. */
  lemma PercentTable(amount: real, overdue: bool)
    ensures var tier := if amount <= 100000.0 then 12.0 else if amount <= 500000.0 then 11.0
                        else if amount <= 1000000.0 then 10.0 else 9.0;
            var base := tier + if overdue then 2.0 else 0.0;
            && AnnualPercent(amount, Cash, overdue) == base + 1.75 && AnnualPercent(amount, Housing, overdue) == base + 1.5
            && AnnualPercent(amount, Car, overdue) == base + 1.25 && AnnualPercent(amount, Refinancing, overdue) == base + 1.0
            && AnnualPercent(amount, Student, overdue) == base + 0.75 && AnnualPercent(amount, OtherType, overdue) == base
  {
  }

  /** The monthly rate is a twelve-hundredth of that to within 10^-10; a variable rate adds half a point. */
  lemma RateIsTheTwelfth(amount: real, t: LoanType, overdue: bool)
    ensures Close(Rate(amount, t, Fixed, overdue), AnnualPercent(amount, t, overdue) / 1200.0, 0.0000000001)
    ensures Close(Rate(amount, t, Variable, overdue), (AnnualPercent(amount, t, overdue) + 0.5) / 1200.0, 0.0000000001)
  {
    hide Round10, Round16, AnnualPercent;
    TwelfthOf(AnnualPercent(amount, t, overdue));
    TwelfthOf(AnnualPercent(amount, t, overdue) + 0.5);
  }

  lemma TwelfthOf(percent: real)
    ensures Close(MonthlyRate(percent), percent / 1200.0, 0.0000000001)
  {
    hide Round10, Round16;
    RoundErrors(percent / 12.0);
    RoundErrors(Round16(percent / 12.0) / 100.0);
    RoundErrors(Round16(Round16(percent / 12.0) / 100.0));
  }

  lemma PercentBounds(amount: real, t: LoanType, overdue: bool)
    ensures 9.0 <= AnnualPercent(amount, t, overdue) <= 15.75
  {
  }

  /** Every rate the calculator can pick is positive, below 1.5 percent a month, and has ten decimals. */
  lemma RateIsUsable(amount: real, t: LoanType, it: InterestType, overdue: bool)
    ensures 0.007 < Rate(amount, t, it, overdue) && UsableRate(Rate(amount, t, it, overdue))
  {
    hide Round16, Round10, TenDecimals, AnnualPercent;
    var percent := AnnualPercent(amount, t, overdue) + if it == Variable then 0.5 else 0.0;
    PercentBounds(amount, t, overdue);
    RoundErrors(percent / 12.0);
    RoundErrors(Round16(percent / 12.0) / 100.0);
    RoundErrors(Round16(Round16(percent / 12.0) / 100.0));
    Round10HasTenDecimals(Round16(Round16(percent / 12.0) / 100.0));
  }
}
