/** Concrete loans: an ordinary one leaves a residual above half a ten-thousandth, and the stored debt of a
    running loan can be zero. */
module LoanWitnesses {
  import opened Common
  import opened Annuity
  import opened Credit

  /** The monthly rate of a cash loan of up to 100000 at a fixed rate. */
  const I: real := 0.0114583333

  lemma CashRate(amount: real)
    requires amount <= 100000.0
    ensures Rate(amount, Cash, Fixed, false) == I
  {
    assert Tier(amount) == 0;
    assert AnnualPercent(amount, Cash, false) == 13.75;
    Sixteen(13.75 / 12.0, 11458333333333333);
    Sixteen(1.1458333333333333 / 100.0, 114583333333333);
    Ten(0.0114583333333333, 114583333);
  }

  // Rounding to a given number of units

  lemma Units(x: real, k: nat)
    requires k as real - 0.5 <= x < k as real + 0.5 && x >= 0.0
    ensures RoundInt(x) == k
  {
  }

  lemma Four(x: real, k: nat)
    requires x >= 0.0 && k as real - 0.5 <= x * 10000.0 < k as real + 0.5
    ensures Round4(x) == k as real / 10000.0
  {
    Units(x * 10000.0, k);
  }

  lemma Ten(x: real, k: nat)
    requires x >= 0.0 && k as real - 0.5 <= x * 10000000000.0 < k as real + 0.5
    ensures Round10(x) == k as real / 10000000000.0
  {
    Units(x * 10000000000.0, k);
  }

  lemma Sixteen(x: real, k: nat)
    requires x >= 0.0 && k as real - 0.5 <= x * 10000000000000000.0 < k as real + 0.5
    ensures Round16(x) == k as real / 10000000000000000.0
  {
    Units(x * 10000000000000000.0, k);
  }

  // One factor and one payment

  lemma Bracket(a: real, b: real, k: nat)
    requires b > 0.0 && a >= 0.0 && (k as real - 0.5) * b <= a * 10000000000000000.0 < (k as real + 0.5) * b
    ensures Ratio(a, b) >= 0.0 && k as real - 0.5 <= Ratio(a, b) * 10000000000000000.0 < k as real + 0.5
  {
    hide Mul, Ratio;
    var q := Ratio(a, b);
    RatioNotNegative(a, b);
    RatioTimes(a, b);
    Scaled(q, b);
    MulOrder(q * 10000000000000000.0, k as real - 0.5, b);
    MulOrder(q * 10000000000000000.0, k as real + 0.5, b);
    Plain(k as real - 0.5, b);
    Plain(k as real + 0.5, b);
  }

  lemma Plain(a: real, b: real)
    ensures Mul(a, b) == a * b
  {
  }

  lemma Scaled(q: real, b: real)
    ensures Mul(q * 10000000000000000.0, b) == Mul(q, b) * 10000000000000000.0
  {
    assert (q * 10000000000000000.0) * b == (q * b) * 10000000000000000.0;
  }

  lemma FactorIs(n: nat, s: real, fine: nat, k: nat)
    requires n >= 1 && Pow(1.0 + I, n) == s && s > 1.0
    requires (fine as real - 0.5) * (s - 1.0) <= (I * s) * 10000000000000000.0 < (fine as real + 0.5) * (s - 1.0)
    requires k as real - 0.5 <= fine as real / 1000000.0 < k as real + 0.5
    ensures Val(I, n) == k as real / 10000000000.0
  {
    hide Pow, Round16, Round10, RoundInt;
    var q := Ratio(Mul(I, s), s - 1.0);
    assert Mul(I, s) == I * s >= 0.0;
    Bracket(Mul(I, s), s - 1.0, fine);
    Sixteen(q, fine);
    Ten(Round16(q), k);
  }

  lemma PowIs(n: nat, s: real)
    requires Pow(1.0 + I, n) == s
    ensures Pow(1.0 + I, n + 1) == (1.0 + I) * s
  {
  }

  /** A payment on the computed debt `debt`, with the factor, the installment and the stored debt given in
      their last units. */
  lemma PaymentIs(debt: real, n: nat, factor: nat, payment: nat, stored: nat)
    requires n >= 1 && debt >= 0.0 && Val(I, n) == factor as real / 10000000000.0
    requires payment as real - 0.5 <= debt * (factor as real / 10000000000.0) * 10000.0 < payment as real + 0.5
    requires stored as real - 0.5 <= debt * 10000.0 < stored as real + 0.5
    ensures NextComputed(debt, I, n)
            == stored as real / 10000.0 - (payment as real / 10000.0 - stored as real / 10000.0 * I)
    ensures Monthly(debt, I, n) == payment as real / 10000.0
  {
    hide Val, Round4;
    var x := debt * (factor as real / 10000000000.0);
    assert Mul(debt, Val(I, n)) == x;
    ProductNotNegative(debt, factor as real / 10000000000.0);
    Four(x, payment);
    Four(debt, stored);
  }

  // The factors for one to twelve payments

  lemma Powers()
    ensures Pow(1.0 + I, 0) == 1.0
    ensures Pow(1.0 + I, 1) == 1.0114583333
    ensures Pow(1.0 + I, 2) == 1.02304796000201388889
    ensures Pow(1.0 + I, 3) == 1.034770384509602032700130787037
    ensures Pow(1.0 + I, 4) == 1.0466271284642822098411663845484612654321
    ensures Pow(1.0 + I, 5) == 1.05861973094304787254678700904337350461356077031893
    ensures Pow(1.0 + I, 6) == 1.070749748658149638388284014437102592385812037325049047239369
    ensures Pow(1.0 + I, 7) == 1.0830187561591659447062114474895849257756627138398714996614851348836877
    ensures Pow(1.0 + I, 8) == 1.09542834603738909595066458883519603813385601824343127013377726873218045039971041
    ensures Pow(1.0 + I, 9) == 1.107980129132553234473852984050577173109633250514675386162612424265277442436134410101259653
    ensures Pow(1.0 + I, 10) == 1.1206757347419310693144474416770282704164952257398349332785698454212299989885392021357987728539163449
    ensures Pow(1.0 + I, 11) == 1.13351681083182650499227778296909597129244995785422070103105896045739593121290854719398682705500751059018195517
    ensures Pow(1.0 + I, 12) == 1.146505024251490623334253415732540936531206081244885314635232487678268294242809926590154307875213244080527539719983518161
  {
    hide Pow;
    assert Pow(1.0 + I, 0) == 1.0 by { PowZero(); }
    PowIs(0, 1.0);
    PowIs(1, 1.0114583333);
    PowIs(2, 1.02304796000201388889);
    PowIs(3, 1.034770384509602032700130787037);
    PowIs(4, 1.0466271284642822098411663845484612654321);
    PowIs(5, 1.05861973094304787254678700904337350461356077031893);
    PowIs(6, 1.070749748658149638388284014437102592385812037325049047239369);
    PowIs(7, 1.0830187561591659447062114474895849257756627138398714996614851348836877);
    PowIs(8, 1.09542834603738909595066458883519603813385601824343127013377726873218045039971041);
    PowIs(9, 1.107980129132553234473852984050577173109633250514675386162612424265277442436134410101259653);
    PowIs(10, 1.1206757347419310693144474416770282704164952257398349332785698454212299989885392021357987728539163449);
    PowIs(11, 1.13351681083182650499227778296909597129244995785422070103105896045739593121290854719398682705500751059018195517);
  }

  lemma PowZero()
    ensures Pow(1.0 + I, 0) == 1.0
  {
  }

  lemma FewFactors()
    ensures Val(I, 1) == 1.0114583333
    ensures Val(I, 2) == 0.5086100682
    ensures Val(I, 3) == 0.341001232
    ensures Val(I, 4) == 0.2572022527
  {
    hide Pow, Val;
    Powers();
    FactorIs(1, 1.0114583333, 10114583333000000, 10114583333);
    FactorIs(2, 1.02304796000201388889, 5086100681606467, 5086100682);
    FactorIs(3, 1.034770384509602032700130787037, 3410012319940227, 3410012320);
    FactorIs(4, 1.0466271284642822098411663845484612654321, 2572022527175860, 2572022527);
  }

  lemma SomeFactors()
    ensures Val(I, 5) == 0.2069272158
    ensures Val(I, 6) == 0.1734141496
    ensures Val(I, 7) == 0.149479352
    ensures Val(I, 8) == 0.1315309718
  {
    hide Pow, Val;
    Powers();
    FactorIs(5, 1.05861973094304787254678700904337350461356077031893, 2069272158019065, 2069272158);
    FactorIs(6, 1.070749748658149638388284014437102592385812037325049047239369, 1734141496431033, 1734141496);
    FactorIs(7, 1.0830187561591659447062114474895849257756627138398714996614851348836877, 1494793520446287, 1494793520);
    FactorIs(8, 1.09542834603738909595066458883519603813385601824343127013377726873218045039971041, 1315309718377212, 1315309718);
  }

  lemma ManyFactors()
    ensures Val(I, 9) == 0.1175735361
    ensures Val(I, 10) == 0.106409761
    ensures Val(I, 11) == 0.0972777386
    ensures Val(I, 12) == 0.0896695302
  {
    hide Pow, Val;
    Powers();
    FactorIs(9, 1.107980129132553234473852984050577173109633250514675386162612424265277442436134410101259653, 1175735360882286, 1175735361);
    FactorIs(10, 1.1206757347419310693144474416770282704164952257398349332785698454212299989885392021357987728539163449, 1064097609793426, 1064097610);
    FactorIs(11, 1.13351681083182650499227778296909597129244995785422070103105896045739593121290854719398682705500751059018195517, 972777385764827, 972777386);
    FactorIs(12, 1.146505024251490623334253415732540936531206081244885314635232487678268294242809926590154307875213244080527539719983518161, 896695302097430, 896695302);
  }

  // 100000 over twelve months

  function Year(): seq<real> {
    seq(12, _ => I)
  }

  lemma After(k: nat, debt: real, factor: nat, payment: nat, stored: nat, next: real)
    requires k < 12 && ComputedAfter(100000.0, Year(), k) == debt >= 0.0
    requires Val(I, 12 - k) == factor as real / 10000000000.0
    requires payment as real - 0.5 <= debt * (factor as real / 10000000000.0) * 10000.0 < payment as real + 0.5
    requires stored as real - 0.5 <= debt * 10000.0 < stored as real + 0.5
    requires next == stored as real / 10000.0 - (payment as real / 10000.0 - stored as real / 10000.0 * I)
    ensures ComputedAfter(100000.0, Year(), k + 1) == next
  {
    hide Val, NextComputed;
    PaymentIs(debt, 12 - k, factor, payment, stored);
  }

  lemma FirstThird()
    ensures ComputedAfter(100000.0, Year(), 4) == 68173.70009131194123
  {
    hide Val, ComputedAfter;
    ManyFactors();
    assert ComputedAfter(100000.0, Year(), 0) == 100000.0 by { AtStart(); }
    After(0, 100000.0, 896695302, 89669530, 1000000000, 92178.88033);
    After(1, 92178.88033, 972777386, 89669530, 921788803, 84268.14363369820399);
    After(2, 84268.14363369820399, 1064097610, 89669530, 842681436, 76266.76307594106188);
    After(3, 76266.76307594106188, 1175735361, 89669530, 762667631, 68173.70009131194123);
  }

  lemma SecondThird()
    ensures ComputedAfter(100000.0, Year(), 8) == 34863.43120334720498
  {
    hide Val, ComputedAfter;
    SomeFactors();
    FirstThird();
    After(4, 68173.70009131194123, 1315309718, 89669530, 681737001, 59987.90407804004333);
    After(5, 59987.90407804004333, 1494793520, 89669530, 599879041, 51708.31249914623653);
    After(6, 51708.31249914623653, 1734141496, 89669530, 517083125, 43333.85057900555625);
    After(7, 43333.85057900555625, 2069272158, 89669531, 433338506, 34863.43120334720498);
  }

  lemma LastThird()
    ensures ComputedAfter(100000.0, Year(), 12) == 0.00007230865431
  {
    hide Val, ComputedAfter;
    FewFactors();
    SecondThird();
    After(8, 34863.43120334720498, 2572022527, 89669530, 348634312, 26295.95501467121896);
    After(9, 26295.95501467121896, 3410012320, 89669531, 262959550, 17630.3097168318015);
    After(10, 17630.3097168318015, 5086100682, 89669530, 176303097, 8865.37066472482301);
    After(11, 8865.37066472482301, 10114583333, 89669530, 88653707, 0.00007230865431);
  }

  lemma AtStart()
    ensures ComputedAfter(100000.0, Year(), 0) == 100000.0
  {
  }

  /** A cash loan of 100000 over twelve months, each of them at the rate the calculator picks for it, leaves
      a residual above 0.00007, so storing the debt does cost more than one rounding. */
  lemma OrdinaryResidual()
    ensures forall k :: 0 <= k < 12 ==> Year()[k] == Rate(100000.0, Cash, Fixed, false)
    ensures ComputedAfter(100000.0, Year(), 12) > 0.00007
    ensures Close(ComputedAfter(100000.0, Year(), 12), 0.0, 0.00010075)
  {
    hide ComputedAfter, Rate;
    CashRate(100000.0);
    LastThird();
  }

  // 0.0002 over three months

  /** After two payments of 0.0001 the row of this running loan holds a zero debt, and its last installment
      asks for nothing. */
  lemma TinyLoanSticks()
    ensures var n0 := Loan(0.0002, 3, Cash, Fixed, 0.0002, 0, Active, 0.0002, 0.0, 0.0, 0.0002);
            var n1 := LoanAfter(n0, Installment(0, Monthly(0.0002, I, 3), I, 0, Unpaid, 0, 0));
            && n1.1 && n1.0.exact > 0.0
            && var n2 := LoanAfter(n1.0, Installment(0, Monthly(n1.0.exact, I, 2), I, 0, Unpaid, 0, 0));
            && n2.1 && n2.0.status == Active && n2.0.debt == 0.0 && n2.0.exact > 0.0
            && Monthly(n2.0.exact, I, 1) == 0.0
  {
    hide Val, Monthly, Round4;
    FewFactors();
    PaymentIs(0.0002, 3, 3410012320, 1, 2);
    Four(0.0002, 2);
    PaymentIs(0.00010229166666, 2, 5086100682, 1, 1);
    Four(0.00010229166666, 1);
    PaymentIs(0.00000114583333, 1, 10114583333, 0, 0);
    Four(0.00000114583333, 0);
  }
}
