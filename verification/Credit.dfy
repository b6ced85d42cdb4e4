/** The life of a loan: approval, monthly collection sweeps with retries, the overdue state and the
    final write-off. Columns keep four decimals of an amount and ten of a rate. Whether the client's
    account can be charged, the payout goes through and each store call succeeds is decided outside and
    given with each event.

    `exact` (the computed debt before it was stored), `repaid`, `writtenOff`, `lastExact`, `failures` and
    the list of payouts are history that no operation reads. */
module Credit {
  import opened Common
  import opened Annuity

  datatype RequestStatus = Pending | Approved | Declined

  datatype Request = Request(amount: real, period: nat, loanType: LoanType, interest: InterestType, status: RequestStatus)

  datatype LoanStatus = Active | Overdue | PaidOff

  datatype Loan = Loan(amount: real, period: nat, loanType: LoanType, interest: InterestType,
                       debt: real, count: nat, status: LoanStatus,
                       exact: real, repaid: real, writtenOff: real, lastExact: real)

  datatype PaymentStatus = Unpaid | Late | Paid

  datatype Installment = Installment(loan: nat, amount: real, rate: real, due: int, status: PaymentStatus,
                                     retry: nat, failures: nat)

  /** Money paid out for a request; `kept` if the approving transaction then went through. */
  datatype Payout = Payout(amount: real, kept: bool)

  /** The three tables, and what has been paid out to clients, in order. */
  datatype Book = Book(requests: seq<Request>, loans: seq<Loan>, installments: seq<Installment>, payouts: seq<Payout>)

  // Requests and approval

  /** A request is accepted only with a positive amount and period; the column keeps four decimals. */
  function Submit(b: Book, amount: real, period: int, t: LoanType, it: InterestType): Book {
    if amount <= 0.0 || period <= 0 then b
    else b.(requests := b.requests + [Request(Round4(amount), period, t, it, Pending)])
  }

  function Decline(b: Book, id: nat): Book {
    if id < |b.requests| && b.requests[id].status == Pending
    then b.(requests := b.requests[id := b.requests[id].(status := Declined)]) else b
  }

  function OpenInstallment(b: Book, loan: nat, debt: real, rate: real, left: nat, due: int): Book
    requires rate > 0.0 && left >= 1
  {
    b.(installments := b.installments + [Installment(loan, Monthly(debt, rate, left), rate, due, Unpaid, 0, 0)])
  }

  predicate Approvable(b: Book, id: nat) {
    id < |b.requests| && b.requests[id].status == Pending && b.requests[id].period >= 1
  }

  /** The approving transaction: flips the request, inserts the loan and its first installment. */
  function Granted(b: Book, id: nat, inDinars: real, due: int): Book
    requires Approvable(b, id)
  {
    var r := b.requests[id];
    var rate := Rate(inDinars, r.loanType, r.interest, false);
    RateIsUsable(inDinars, r.loanType, r.interest, false);
    var loan := Loan(r.amount, r.period, r.loanType, r.interest, r.amount, 0, Active, r.amount, 0.0, 0.0, r.amount);
    OpenInstallment(b.(requests := b.requests[id := r.(status := Approved)], loans := b.loans + [loan]),
                    |b.loans|, r.amount, rate, r.period, due)
  }

  /** Approval: `inDinars` is the amount converted to RSD, which picks the rate; `paid` tells whether the
      payout goes through, which the account service refuses for a zero amount; `stored` whether the
      approving transaction then does. A payout is not taken back. */
  function Approve(b: Book, id: nat, inDinars: real, due: int, paid: bool, stored: bool): Book {
    if !Approvable(b, id) || !paid || b.requests[id].amount <= 0.0 then b
    else
      var p := Payout(b.requests[id].amount, stored);
      if stored then Granted(b, id, inDinars, due).(payouts := b.payouts + [p]) else b.(payouts := b.payouts + [p])
  }

  // Collection

  /** A turn of the collection loop makes at most three writes, each a statement of its own. */
  const ALL := 3

  /** The first `w` writes of MarkRetryOrOverdue and, from the second failure on, MarkOverdue. */
  function Failed(b: Book, k: nat, today: int, w: nat): Book
    requires k < |b.installments| && b.installments[k].loan < |b.loans|
  {
    var i := b.installments[k];
    if w == 0 then b
    else if i.status != Late && i.retry == 0 then
      b.(installments := b.installments[k := i.(retry := 1, due := today + 3, failures := i.failures + 1)])
    else
      b.(installments := b.installments[k := i.(status := Late, due := today + 1, failures := i.failures + 1)],
         loans := if w == 1 then b.loans else b.loans[i.loan := b.loans[i.loan].(status := Overdue)])
  }

  /** The loan after installment `i` of it is paid, and whether another installment follows. */
  function LoanAfter(n: Loan, i: Installment): (Loan, bool) {
    var left := NextDebt(n.debt, i.amount, i.rate);
    var n' := n.(count := n.count + 1, repaid := n.repaid + (n.debt - left), lastExact := n.exact);
    if left > 0.0 && n.count + 1 < n.period then (n'.(debt := Round4(left), exact := left), true)
    else (n'.(debt := 0.0, exact := 0.0, status := PaidOff, writtenOff := left), false)
  }

  /** The first `w` writes of MarkPaid, UpdateAfterInstallmentPayment and Create. The next installment and
      its rate are computed from the debt before it is stored. */
  function Collected(b: Book, k: nat, nextMonth: int, w: nat): Book
    requires k < |b.installments| && b.installments[k].loan < |b.loans|
  {
    var i := b.installments[k];
    var n := LoanAfter(b.loans[i.loan], i);
    var b1 := b.(installments := b.installments[k := i.(status := Paid)]);
    var b2 := b1.(loans := b.loans[i.loan := n.0]);
    if w == 0 then b
    else if w == 1 then b1
    else if w == 2 || !n.1 then b2
    else
      var rate := Rate(n.0.exact, n.0.loanType, n.0.interest, n.0.status == Overdue);
      RateIsUsable(n.0.exact, n.0.loanType, n.0.interest, n.0.status == Overdue);
      OpenInstallment(b2, i.loan, n.0.exact, rate, n.0.period - n.0.count, nextMonth)
  }

  /** One turn of the loop, stopping after `w` writes if one of them fails. `charged` tells whether the
      client's account could pay; the account service refuses to move a zero amount. */
  function Collect(b: Book, k: nat, charged: bool, today: int, nextMonth: int, w: nat): Book {
    if k < |b.installments| && b.installments[k].loan < |b.loans| then
      if charged && b.installments[k].amount > 0.0 then Collected(b, k, nextMonth, w) else Failed(b, k, today, w)
    else b
  }

  /** The rows FindDueUnpaid returns, in whatever order. */
  predicate IsDueList(b: Book, list: seq<nat>, today: int) {
    && (forall x, y :: 0 <= x < y < |list| ==> list[x] != list[y])
    && (forall x :: 0 <= x < |list| ==>
          list[x] < |b.installments| && b.installments[list[x]].status != Paid && b.installments[list[x]].due <= today)
  }

  /** The sweep after its first `n` installments; charged[x] is the outcome for list[x]. */
  function Sweep(b: Book, list: seq<nat>, charged: seq<bool>, today: int, nextMonth: int, n: nat): Book
    requires |charged| == |list| && n <= |list|
  {
    if n == 0 then b
    else Collect(Sweep(b, list, charged, today, nextMonth, n - 1), list[n - 1], charged[n - 1], today, nextMonth, ALL)
  }

  /** A sweep may end early: at installment `reached`, after `writes` of its writes. */
  datatype Event =
    | DoSubmit(amount: real, period: int, loanType: LoanType, interest: InterestType)
    | DoDecline(id: nat)
    | DoApprove(id: nat, inDinars: real, due: int, paid: bool, stored: bool)
    | DoSweep(list: seq<nat>, charged: seq<bool>, today: int, nextMonth: int, reached: nat, writes: nat)

  predicate CanSweep(b: Book, e: Event) {
    e.DoSweep? && |e.charged| == |e.list| && e.reached <= |e.list| && IsDueList(b, e.list, e.today)
  }

  function Swept(b: Book, e: Event): Book
    requires CanSweep(b, e)
  {
    Sweep(b, e.list, e.charged, e.today, e.nextMonth, e.reached)
  }

  function Step(b: Book, e: Event): Book {
    match e
    case DoSubmit(a, p, t, it) => Submit(b, a, p, t, it)
    case DoDecline(id) => Decline(b, id)
    case DoApprove(id, d, due, paid, stored) => Approve(b, id, d, due, paid, stored)
    case DoSweep(list, charged, today, next, reached, writes) =>
      if !CanSweep(b, e) then b
      else if reached == |list| then Swept(b, e)
      else Collect(Swept(b, e), list[reached], charged[reached], today, next, writes)
  }

  function Run(b: Book, events: seq<Event>): Book {
    if events == [] then b else Step(Run(b, events[..|events| - 1]), events[|events| - 1])
  }

  // What every run keeps

  function PaidOf(loan: nat): Installment -> int {
    (i: Installment) => if i.loan == loan && i.status == Paid then 1 else 0
  }

  function OpenOf(loan: nat): Installment -> int {
    (i: Installment) => if i.loan == loan && i.status != Paid then 1 else 0
  }

  predicate TwiceFailed(installments: seq<Installment>, loan: nat) {
    exists k :: 0 <= k < |installments| && installments[k].loan == loan && installments[k].failures >= 2
  }

  /** What is discarded when a loan is closed: at most 0.00010075 at the end of the schedule, and only the
      rounding error of one payment when it ends early. */
  predicate ResidualOk(n: Loan) {
    && (n.count == n.period ==> Close(n.writtenOff, 0.0, 0.00010075))
    && (n.count < n.period ==> -Slack(n.lastExact) <= n.writtenOff <= 0.0)
  }

  /** Money and counters of one loan. The row keeps four decimals of the computed debt, which stays
      positive until the loan is closed; each time it is stored the books lose at most 0.00005. */
  predicate LoanSound(n: Loan) {
    && n.period >= 1 && n.amount > 0.0
    && if n.status == PaidOff
       then 1 <= n.count <= n.period && n.debt == 0.0 && ResidualOk(n)
            && Close(n.amount, n.repaid + n.writtenOff, 0.00005 * (n.count - 1) as real)
       else n.count < n.period && n.exact > 0.0 && n.debt == Round4(n.exact)
            && Close(n.amount, n.debt + n.repaid, 0.00005 * n.count as real)
  }

  predicate LoanOk(b: Book, l: nat)
    requires l < |b.loans|
  {
    && LoanSound(b.loans[l])
    && Sum(b.installments, PaidOf(l)) == b.loans[l].count
    && Sum(b.installments, OpenOf(l)) == (if b.loans[l].status == PaidOff then 0 else 1)
    && (b.loans[l].status == Overdue ==> TwiceFailed(b.installments, l))
  }

  /** Retries are counted, and an open installment asks for the annuity on the computed debt. */
  predicate InstallmentOk(b: Book, i: Installment) {
    && i.loan < |b.loans|
    && (if i.retry == 0 then i.failures == 0 && i.status != Late else i.retry == 1 && i.failures >= 1)
    && (i.status == Late ==> i.failures >= 2)
    && (i.status != Paid ==>
          var n := b.loans[i.loan];
          n.status != PaidOff && n.count < n.period && UsableRate(i.rate)
          && i.amount == Monthly(n.exact, i.rate, n.period - n.count))
  }

  predicate RequestOk(r: Request) {
    r.amount >= 0.0 && Round4(r.amount) == r.amount && r.period >= 1
  }

  predicate Inv(b: Book) {
    && (forall r :: 0 <= r < |b.requests| ==> RequestOk(b.requests[r]))
    && (forall l :: 0 <= l < |b.loans| ==> LoanOk(b, l))
    && (forall k :: 0 <= k < |b.installments| ==> InstallmentOk(b, b.installments[k]))
  }

  lemma NextOpen(b: Book, loan: nat, i: Installment)
    ensures forall l :: Sum(b.installments + [i], PaidOf(l)) == Sum(b.installments, PaidOf(l)) + PaidOf(l)(i)
    ensures forall l :: Sum(b.installments + [i], OpenOf(l)) == Sum(b.installments, OpenOf(l)) + OpenOf(l)(i)
  {
    forall l ensures Sum(b.installments + [i], PaidOf(l)) == Sum(b.installments, PaidOf(l)) + PaidOf(l)(i) {
      SumAppend(b.installments, i, PaidOf(l));
    }
    forall l ensures Sum(b.installments + [i], OpenOf(l)) == Sum(b.installments, OpenOf(l)) + OpenOf(l)(i) {
      SumAppend(b.installments, i, OpenOf(l));
    }
  }

  lemma Replaced(installments: seq<Installment>, k: nat, i: Installment)
    requires k < |installments|
    ensures forall l :: Sum(installments[k := i], PaidOf(l)) == Sum(installments, PaidOf(l)) - PaidOf(l)(installments[k]) + PaidOf(l)(i)
    ensures forall l :: Sum(installments[k := i], OpenOf(l)) == Sum(installments, OpenOf(l)) - OpenOf(l)(installments[k]) + OpenOf(l)(i)
  {
    forall l ensures Sum(installments[k := i], PaidOf(l)) == Sum(installments, PaidOf(l)) - PaidOf(l)(installments[k]) + PaidOf(l)(i) {
      SumUpdate(installments, k, i, PaidOf(l));
    }
    forall l ensures Sum(installments[k := i], OpenOf(l)) == Sum(installments, OpenOf(l)) - OpenOf(l)(installments[k]) + OpenOf(l)(i) {
      SumUpdate(installments, k, i, OpenOf(l));
    }
  }

  /** A loan has one open installment at most, so any other installment of it is paid. */
  lemma OnlyOpen(b: Book, k: nat, j: nat)
    requires Inv(b) && k < |b.installments| && j < |b.installments| && k != j
    requires b.installments[k].status != Paid && b.installments[j].loan == b.installments[k].loan
    ensures b.installments[j].status == Paid
  {
    var l, i := b.installments[k].loan, b.installments[k];
    assert InstallmentOk(b, i) && LoanOk(b, l);
    var rest := b.installments[k := i.(status := Paid)];
    SumUpdate(b.installments, k, i.(status := Paid), OpenOf(l));
    SumBounds(rest, OpenOf(l));
    assert OpenOf(l)(rest[j]) <= 0;
  }

  lemma TwiceFailedStays(installments: seq<Installment>, installments': seq<Installment>, l: nat)
    requires TwiceFailed(installments, l) && |installments| <= |installments'|
    requires forall k :: 0 <= k < |installments| ==>
               installments'[k].loan == installments[k].loan && installments'[k].failures >= installments[k].failures
    ensures TwiceFailed(installments', l)
  {
    var k :| 0 <= k < |installments| && installments[k].loan == l && installments[k].failures >= 2;
    assert installments'[k].loan == l;
  }

  lemma FailedKeeps(b: Book, k: nat, today: int, w: nat)
    requires Inv(b) && k < |b.installments| && b.installments[k].status != Paid && b.installments[k].loan < |b.loans|
    ensures Inv(Failed(b, k, today, w))
  {
    hide Sum, Monthly, UsableRate, Round4, ResidualOk, RequestOk;
    var b' := Failed(b, k, today, w);
    var i := b.installments[k];
    assert InstallmentOk(b, i);
    Replaced(b.installments, k, b'.installments[k]);
    forall l | 0 <= l < |b'.loans| ensures LoanOk(b', l) {
      assert LoanOk(b, l);
      if b.loans[l].status == Overdue {
        TwiceFailedStays(b.installments, b'.installments, l);
      } else if l == i.loan && b'.loans[l].status == Overdue {
        assert b'.installments[k].failures >= 2;
      }
    }
    forall j | 0 <= j < |b'.installments| ensures InstallmentOk(b', b'.installments[j]) {
      assert InstallmentOk(b, b.installments[j]);
    }
  }

  /** The arithmetic of a paid installment: the books balance but for what storing the debt costs, the
      computed debt stays positive until the loan is closed, and what closing discards is within bounds. */
  lemma LoanAfterSound(n: Loan, i: Installment)
    requires LoanSound(n) && n.status != PaidOff && UsableRate(i.rate)
    requires i.amount == Monthly(n.exact, i.rate, n.period - n.count)
    ensures LoanSound(LoanAfter(n, i).0)
    ensures var n' := LoanAfter(n, i); n'.1 <==> n'.0.status != PaidOff
    ensures LoanAfter(n, i).0.count == n.count + 1
    ensures LoanAfter(n, i).1 ==> LoanAfter(n, i).0.status == n.status
  {
    hide Monthly, NextDebt, TenDecimals, Round4;
    assert NextDebt(n.debt, i.amount, i.rate) == NextComputed(n.exact, i.rate, n.period - n.count);
    if n.period - n.count == 1 {
      LastResidual(n.exact, i.rate);
    } else {
      EarlyFinishResidual(n.exact, i.rate, n.period - n.count);
    }
    RoundErrors(NextDebt(n.debt, i.amount, i.rate));
  }

  /** The book between marking the installment paid and opening the next one. */
  predicate Between(b: Book, b': Book, k: nat, n: Loan)
    requires k < |b.installments| && b.installments[k].loan < |b.loans|
  {
    b' == b.(installments := b.installments[k := b.installments[k].(status := Paid)], loans := b.loans[b.installments[k].loan := n])
  }

  lemma PaidInstallmentsStayOk(b: Book, b': Book, k: nat, n: Loan, j: nat)
    requires Inv(b) && k < |b.installments| && b.installments[k].status != Paid && b.installments[k].loan < |b.loans|
    requires Between(b, b', k, n) && j < |b'.installments|
    ensures InstallmentOk(b', b'.installments[j])
  {
    hide Sum, Monthly, UsableRate, LoanOk;
    assert InstallmentOk(b, b.installments[j]);
    if j != k && b.installments[j].loan == b.installments[k].loan {
      OnlyOpen(b, k, j);
    }
  }

  lemma CollectedLoans(b: Book, b': Book, k: nat, n: Loan, l: nat)
    requires Inv(b) && k < |b.installments| && b.installments[k].status != Paid && b.installments[k].loan < |b.loans|
    requires Between(b, b', k, n) && l < |b'.loans|
    requires LoanSound(n) && n.count == b.loans[b.installments[k].loan].count + 1
    requires n.status == Overdue ==> b.loans[b.installments[k].loan].status == Overdue
    ensures LoanSound(b'.loans[l]) && Sum(b'.installments, PaidOf(l)) == b'.loans[l].count
    ensures Sum(b'.installments, OpenOf(l))
            == (if b'.loans[l].status == PaidOff || l == b.installments[k].loan then 0 else 1)
    ensures b'.loans[l].status == Overdue ==> TwiceFailed(b'.installments, l)
  {
    hide Sum, LoanSound, InstallmentOk;
    assert LoanOk(b, l) && LoanOk(b, b.installments[k].loan);
    assert b.loans[b.installments[k].loan].status != PaidOff by { OpenMeansRunning(b, k); }
    Replaced(b.installments, k, b'.installments[k]);
    if b.loans[l].status == Overdue {
      TwiceFailedStays(b.installments, b'.installments, l);
    }
  }

  lemma OpenMeansRunning(b: Book, k: nat)
    requires Inv(b) && k < |b.installments| && b.installments[k].status != Paid
    ensures b.installments[k].loan < |b.loans| && b.loans[b.installments[k].loan].status != PaidOff
    ensures LoanOk(b, b.installments[k].loan)
    ensures InstallmentOk(b, b.installments[k])
  {
    assert InstallmentOk(b, b.installments[k]);
  }

  /** All but the open installments are sound, and loan `loan` has none. */
  predicate NoneOpenYet(b: Book, loan: nat) {
    && (forall r :: 0 <= r < |b.requests| ==> RequestOk(b.requests[r]))
    && (forall k :: 0 <= k < |b.installments| ==> InstallmentOk(b, b.installments[k]))
    && (forall l :: 0 <= l < |b.loans| ==>
          && LoanSound(b.loans[l]) && Sum(b.installments, PaidOf(l)) == b.loans[l].count
          && Sum(b.installments, OpenOf(l)) == (if b.loans[l].status == PaidOff || l == loan then 0 else 1)
          && (b.loans[l].status == Overdue ==> TwiceFailed(b.installments, l)))
  }

  /** Opening the next installment of a loan that has none open. */
  lemma OpenKeeps(b: Book, loan: nat, rate: real, due: int)
    requires loan < |b.loans| && UsableRate(rate) && NoneOpenYet(b, loan)
    requires var n := b.loans[loan]; n.status != PaidOff && n.count < n.period
    ensures Inv(OpenInstallment(b, loan, b.loans[loan].exact, rate, b.loans[loan].period - b.loans[loan].count, due))
  {
    hide Sum, LoanSound, Monthly, TenDecimals, RequestOk;
    var b' := OpenInstallment(b, loan, b.loans[loan].exact, rate, b.loans[loan].period - b.loans[loan].count, due);
    NextOpen(b, loan, b'.installments[|b.installments|]);
    forall l | 0 <= l < |b'.loans| ensures LoanOk(b', l) {
      if b.loans[l].status == Overdue {
        TwiceFailedStays(b.installments, b'.installments, l);
      }
    }
    forall k | 0 <= k < |b'.installments| ensures InstallmentOk(b', b'.installments[k]) {
      assert k < |b.installments| ==> InstallmentOk(b, b.installments[k]);
    }
  }

  lemma PaidLeavesNone(b: Book, k: nat, n: Loan)
    requires Inv(b) && k < |b.installments| && b.installments[k].status != Paid && b.installments[k].loan < |b.loans|
    requires LoanSound(n) && n.count == b.loans[b.installments[k].loan].count + 1
    requires n.status == Overdue ==> b.loans[b.installments[k].loan].status == Overdue
    ensures var b' := b.(installments := b.installments[k := b.installments[k].(status := Paid)],
                         loans := b.loans[b.installments[k].loan := n]);
            NoneOpenYet(b', b.installments[k].loan)
  {
    hide Sum, Monthly, UsableRate, LoanSound, LoanOk, InstallmentOk, TwiceFailed, RequestOk;
    var b' := b.(installments := b.installments[k := b.installments[k].(status := Paid)], loans := b.loans[b.installments[k].loan := n]);
    forall j | 0 <= j < |b'.installments| ensures InstallmentOk(b', b'.installments[j]) {
      PaidInstallmentsStayOk(b, b', k, n, j);
    }
    forall l | 0 <= l < |b'.loans|
      ensures LoanSound(b'.loans[l]) && Sum(b'.installments, PaidOf(l)) == b'.loans[l].count
      ensures Sum(b'.installments, OpenOf(l)) == (if b'.loans[l].status == PaidOff || l == b.installments[k].loan then 0 else 1)
      ensures b'.loans[l].status == Overdue ==> TwiceFailed(b'.installments, l)
    {
      CollectedLoans(b, b', k, n, l);
    }
  }

  /** A closed loan needs no open installment. */
  lemma ClosedKeeps(b: Book, loan: nat)
    requires loan < |b.loans| && NoneOpenYet(b, loan) && b.loans[loan].status == PaidOff
    ensures Inv(b)
  {
    hide Sum, LoanSound, InstallmentOk, RequestOk, TwiceFailed;
  }

  lemma CollectedKeeps(b: Book, k: nat, nextMonth: int, w: nat)
    requires Inv(b) && k < |b.installments| && b.installments[k].status != Paid && b.installments[k].loan < |b.loans|
    requires w == 0 || w >= 3 || (w == 2 && !LoanAfter(b.loans[b.installments[k].loan], b.installments[k]).1)
    ensures Inv(Collected(b, k, nextMonth, w))
  {
    hide Inv, Monthly, TenDecimals, LoanSound, Rate, LoanAfter, NoneOpenYet;
    var i := b.installments[k];
    OpenMeansRunning(b, k);
    LoanAfterSound(b.loans[i.loan], i);
    var n := LoanAfter(b.loans[i.loan], i);
    var b' := b.(installments := b.installments[k := i.(status := Paid)], loans := b.loans[i.loan := n.0]);
    PaidLeavesNone(b, k, n.0);
    if n.1 {
      var rate := Rate(n.0.exact, n.0.loanType, n.0.interest, n.0.status == Overdue);
      RateIsUsable(n.0.exact, n.0.loanType, n.0.interest, n.0.status == Overdue);
      SoundRunning(n.0);
      OpenKeeps(b', i.loan, rate, nextMonth);
    } else {
      ClosedKeeps(b', i.loan);
    }
  }

  lemma SoundRunning(n: Loan)
    requires LoanSound(n) && n.status != PaidOff
    ensures n.count < n.period
  {
  }

  lemma GrantedKeeps(b: Book, id: nat, inDinars: real, due: int)
    requires Inv(b) && Approvable(b, id) && b.requests[id].amount > 0.0
    ensures Inv(Granted(b, id, inDinars, due))
  {
    hide Sum, Monthly, TenDecimals, Rate, Round4;
    var r, l := b.requests[id], |b.loans|;
    var loan := Loan(r.amount, r.period, r.loanType, r.interest, r.amount, 0, Active, r.amount, 0.0, 0.0, r.amount);
    var b' := b.(requests := b.requests[id := r.(status := Approved)], loans := b.loans + [loan]);
    var rate := Rate(inDinars, r.loanType, r.interest, false);
    RateIsUsable(inDinars, r.loanType, r.interest, false);
    forall k | 0 <= k < |b'.installments| ensures InstallmentOk(b', b'.installments[k]) {
      assert InstallmentOk(b, b.installments[k]);
    }
    assert Sum(b.installments, PaidOf(l)) == 0 && Sum(b.installments, OpenOf(l)) == 0 by { NoInstallments(b, l); }
    forall m | 0 <= m < |b'.loans|
      ensures LoanSound(b'.loans[m]) && Sum(b'.installments, PaidOf(m)) == b'.loans[m].count
      ensures Sum(b'.installments, OpenOf(m)) == (if b'.loans[m].status == PaidOff || m == l then 0 else 1)
      ensures b'.loans[m].status == Overdue ==> TwiceFailed(b'.installments, m)
    {
      assert m < l ==> LoanOk(b, m);
    }
    OpenKeeps(b', l, rate, due);
  }

  /** Payouts are only recorded. */
  lemma PayoutsKeep(b: Book, payouts: seq<Payout>)
    requires Inv(b)
    ensures Inv(b.(payouts := payouts))
  {
    hide Sum, LoanSound, Monthly, UsableRate, RequestOk;
    var b' := b.(payouts := payouts);
    forall l | 0 <= l < |b'.loans| ensures LoanOk(b', l) { assert LoanOk(b, l); }
    forall k | 0 <= k < |b'.installments| ensures InstallmentOk(b', b'.installments[k]) {
      assert InstallmentOk(b, b.installments[k]);
    }
  }

  lemma ApproveKeeps(b: Book, id: nat, inDinars: real, due: int, paid: bool, stored: bool)
    requires Inv(b)
    ensures Inv(Approve(b, id, inDinars, due, paid, stored))
  {
    hide Inv, Granted;
    if Approvable(b, id) && paid && b.requests[id].amount > 0.0 {
      var payouts := b.payouts + [Payout(b.requests[id].amount, stored)];
      if stored {
        GrantedKeeps(b, id, inDinars, due);
        PayoutsKeep(Granted(b, id, inDinars, due), payouts);
      } else {
        PayoutsKeep(b, payouts);
      }
    }
  }

  lemma NoInstallments(b: Book, l: nat)
    requires Inv(b) && l >= |b.loans|
    ensures Sum(b.installments, PaidOf(l)) == 0 && Sum(b.installments, OpenOf(l)) == 0
  {
    hide LoanOk;
    forall k | 0 <= k < |b.installments| ensures b.installments[k].loan != l {
      assert InstallmentOk(b, b.installments[k]);
    }
    NoneOf(b.installments, l);
  }

  lemma {:induction false} NoneOf(installments: seq<Installment>, l: nat)
    requires forall k :: 0 <= k < |installments| ==> installments[k].loan != l
    ensures Sum(installments, PaidOf(l)) == 0 && Sum(installments, OpenOf(l)) == 0
  {
    if installments != [] {
      NoneOf(installments[..|installments| - 1], l);
    }
  }

  /** Collecting one installment leaves every other one alone. */
  lemma CollectTouchesOne(b: Book, k: nat, charged: bool, today: int, nextMonth: int, w: nat)
    ensures var b' := Collect(b, k, charged, today, nextMonth, w);
            && |b'.loans| == |b.loans| && |b'.installments| >= |b.installments|
            && (forall j :: 0 <= j < |b.installments| && j != k ==> b'.installments[j] == b.installments[j])
  {
    hide LoanAfter, Rate, Monthly;
  }

  /** The rows a sweep has not reached yet are still as they were read. */
  lemma {:induction false} SweepLeavesRest(b: Book, list: seq<nat>, charged: seq<bool>, today: int, nextMonth: int, n: nat)
    requires |charged| == |list| && n <= |list| && IsDueList(b, list, today)
    ensures var b' := Sweep(b, list, charged, today, nextMonth, n);
            && |b'.loans| == |b.loans| && |b'.installments| >= |b.installments|
            && forall x :: n <= x < |list| ==> b'.installments[list[x]] == b.installments[list[x]]
  {
    hide Collect;
    if n > 0 {
      SweepLeavesRest(b, list, charged, today, nextMonth, n - 1);
      CollectTouchesOne(Sweep(b, list, charged, today, nextMonth, n - 1), list[n - 1], charged[n - 1], today, nextMonth, ALL);
    }
  }

  lemma {:induction false} SweepKeeps(b: Book, list: seq<nat>, charged: seq<bool>, today: int, nextMonth: int, n: nat)
    requires Inv(b) && |charged| == |list| && n <= |list| && IsDueList(b, list, today)
    ensures Inv(Sweep(b, list, charged, today, nextMonth, n))
  {
    hide Inv, Collect;
    if n > 0 {
      SweepKeeps(b, list, charged, today, nextMonth, n - 1);
      SweepLeavesRest(b, list, charged, today, nextMonth, n - 1);
      CollectKeeps(Sweep(b, list, charged, today, nextMonth, n - 1), list[n - 1], charged[n - 1], today, nextMonth, ALL);
    }
  }

  /** The turn does not stop between writing a payment and opening what follows it. */
  predicate Whole(b: Book, k: nat, charged: bool, w: nat)
    requires k < |b.installments| && b.installments[k].loan < |b.loans|
  {
    charged && b.installments[k].amount > 0.0 ==>
      w != 1 && (w == 2 ==> !LoanAfter(b.loans[b.installments[k].loan], b.installments[k]).1)
  }

  lemma CollectKeeps(b: Book, k: nat, charged: bool, today: int, nextMonth: int, w: nat)
    requires Inv(b) && k < |b.installments| && b.installments[k].status != Paid
    requires b.installments[k].loan < |b.loans| ==> Whole(b, k, charged, w)
    ensures Inv(Collect(b, k, charged, today, nextMonth, w))
  {
    hide Inv, Collected, Failed, LoanAfter;
    OpenMeansRunning(b, k);
    if charged && b.installments[k].amount > 0.0 {
      CollectedKeeps(b, k, nextMonth, w);
    } else {
      FailedKeeps(b, k, today, w);
    }
  }

  lemma HalfTurnBreaks(b: Book, k: nat, charged: bool, today: int, nextMonth: int, w: nat)
    requires Inv(b) && k < |b.installments| && b.installments[k].status != Paid
    requires b.installments[k].loan < |b.loans| && !Whole(b, k, charged, w)
    ensures !Inv(Collect(b, k, charged, today, nextMonth, w))
  {
    hide Sum, LoanSound, InstallmentOk, LoanAfter, TwiceFailed, RequestOk;
    var l, i := b.installments[k].loan, b.installments[k];
    var b' := Collect(b, k, charged, today, nextMonth, w);
    OpenMeansRunning(b, k);
    Replaced(b.installments, k, i.(status := Paid));
    if w == 2 {
      NextNotPaidOff(b.loans[l], i);
    }
    assert !LoanOk(b', l);
  }

  lemma NextNotPaidOff(n: Loan, i: Installment)
    requires LoanAfter(n, i).1 && n.status != PaidOff
    ensures LoanAfter(n, i).0.status != PaidOff
  {
  }

  /** An interrupted turn keeps the books sound if and only if it does not stop between writing a payment
      and opening what follows it. */
  lemma TurnKeepsExactly(b: Book, k: nat, charged: bool, today: int, nextMonth: int, w: nat)
    requires Inv(b) && k < |b.installments| && b.installments[k].status != Paid
    ensures b.installments[k].loan < |b.loans|
            && (Inv(Collect(b, k, charged, today, nextMonth, w)) <==> Whole(b, k, charged, w))
  {
    hide Inv, Collect, Whole;
    OpenMeansRunning(b, k);
    if Whole(b, k, charged, w) {
      CollectKeeps(b, k, charged, today, nextMonth, w);
    } else {
      HalfTurnBreaks(b, k, charged, today, nextMonth, w);
    }
  }

  lemma PaperworkKeeps(b: Book, e: Event)
    requires Inv(b) && (e.DoSubmit? || e.DoDecline?)
    ensures Inv(Step(b, e))
  {
    hide Sum, LoanSound, Monthly, Round4, UsableRate;
    var b' := Step(b, e);
    forall r | 0 <= r < |b'.requests| ensures RequestOk(b'.requests[r]) {
      if r < |b.requests| {
        assert RequestOk(b.requests[r]);
      } else {
        RoundFixed(e.amount);
        RoundsToNothing(e.amount);
      }
    }
    forall l | 0 <= l < |b'.loans| ensures LoanOk(b', l) { assert LoanOk(b, l); }
    forall k | 0 <= k < |b'.installments| ensures InstallmentOk(b', b'.installments[k]) {
      assert InstallmentOk(b, b.installments[k]);
    }
  }

  /** No sweep of the event stops half-way through the record of a payment. */
  predicate WholeEvent(b: Book, e: Event) {
    CanSweep(b, e) && e.reached < |e.list| ==>
      var k := e.list[e.reached];
      var b' := Swept(b, e);
      k < |b'.installments| && b'.installments[k].loan < |b'.loans| ==> Whole(b', k, e.charged[e.reached], e.writes)
  }

  /** Every event keeps the books sound if and only if it is whole. */
  lemma StepKeepsExactly(b: Book, e: Event)
    requires Inv(b)
    ensures Inv(Step(b, e)) <==> WholeEvent(b, e)
  {
    hide Inv, Submit, Decline, Approve, Sweep, IsDueList, Collect, Whole;
    match e {
      case DoSubmit(_, _, _, _) => PaperworkKeeps(b, e);
      case DoDecline(_) => PaperworkKeeps(b, e);
      case DoApprove(id, d, due, paid, stored) => ApproveKeeps(b, id, d, due, paid, stored);
      case DoSweep(list, charged, today, next, reached, writes) =>
        if CanSweep(b, e) {
          SweepKeeps(b, list, charged, today, next, reached);
          SweepLeavesRest(b, list, charged, today, next, reached);
          if reached < |list| {
            assert DueRow(b, list[reached]) by { DueIsOpen(b, list, today, reached); }
            TurnKeepsExactly(Swept(b, e), list[reached], charged[reached], today, next, writes);
          }
        }
    }
  }

  predicate DueRow(b: Book, k: nat) {
    k < |b.installments| && b.installments[k].status != Paid
  }

  lemma DueIsOpen(b: Book, list: seq<nat>, today: int, x: nat)
    requires IsDueList(b, list, today) && x < |list|
    ensures DueRow(b, list[x])
  {
  }

  predicate WholeRun(b: Book, events: seq<Event>) {
    events != [] ==>
      WholeRun(b, events[..|events| - 1]) && WholeEvent(Run(b, events[..|events| - 1]), events[|events| - 1])
  }

  /** In every run of requests, approvals and sweeps in which no turn stops half-way through the record of
      a payment: the paid installments of a loan are its installment count, which never exceeds the
      repayment period; a loan has exactly one open installment until it is paid off and none after; it is
      overdue only after two failed collections of one of its installments; its amount is debt + repaid
      while it runs, and repaid + written-off residual once closed, to within 0.00005 for each time the
      debt was stored; and the residual is at most 0.00010075 at the end of the schedule and one payment's
      rounding error when it ends early. */
  lemma {:induction false} EveryRunIsSound(b: Book, events: seq<Event>)
    requires Inv(b) && WholeRun(b, events)
    ensures Inv(Run(b, events))
  {
    hide Inv, Step, WholeEvent;
    if events != [] {
      EveryRunIsSound(b, events[..|events| - 1]);
      StepKeepsExactly(Run(b, events[..|events| - 1]), events[|events| - 1]);
    }
  }

  /** In a sound book the row of a running loan holds a zero debt exactly when less than 0.00005 is owed. */
  lemma ZeroDebtExactly(b: Book, l: nat)
    requires Inv(b) && l < |b.loans| && b.loans[l].status != PaidOff
    ensures b.loans[l].exact > 0.0 && (b.loans[l].debt == 0.0 <==> b.loans[l].exact < 0.00005)
  {
    hide Sum, Round4, InstallmentOk, TwiceFailed;
    assert LoanOk(b, l);
    RoundsToNothing(b.loans[l].exact);
  }

  // What one turn and one approval do, said from the rows

  /** A failed collection: the first one of an installment sets its retry and asks again in three days; from
      the second on the installment is late, asks again the next day, and its loan is OVERDUE. Nothing else
      changes. */
  lemma FailedTurnEffect(b: Book, k: nat, charged: bool, today: int, nextMonth: int)
    requires k < |b.installments| && b.installments[k].loan < |b.loans|
    requires !charged || b.installments[k].amount <= 0.0
    ensures var b', i := Collect(b, k, charged, today, nextMonth, ALL), b.installments[k];
            var first := i.retry == 0 && i.status != Late;
            && |b'.installments| == |b.installments| && |b'.loans| == |b.loans|
            && b' == b.(installments := b'.installments, loans := b'.loans)
            && (forall j :: 0 <= j < |b.installments| && j != k ==> b'.installments[j] == b.installments[j])
            && (forall l :: 0 <= l < |b.loans| && (l != i.loan || first) ==> b'.loans[l] == b.loans[l])
            && var i' := b'.installments[k];
            && i'.loan == i.loan && i'.amount == i.amount && i'.rate == i.rate && i'.failures == i.failures + 1
            && (if first then i'.retry == 1 && i'.due == today + 3 && i'.status == i.status
                else
                  && i'.retry == i.retry && i'.due == today + 1 && i'.status == Late
                  && b'.loans[i.loan] == b.loans[i.loan].(status := Overdue))
  {
  }

  /** A collected installment is paid; interest on the stored debt comes first and the rest goes off the debt.
      If something is left and payments remain, the loan keeps its status and gets the next installment, for
      the annuity on what is left at the rate then due, with the surcharge if it is overdue. Otherwise it is
      paid off. */
  lemma PaidTurnEffect(b: Book, k: nat, today: int, nextMonth: int)
    requires k < |b.installments| && b.installments[k].loan < |b.loans| && b.installments[k].amount > 0.0
    ensures var b', i := Collect(b, k, true, today, nextMonth, ALL), b.installments[k];
            var n := b.loans[i.loan];
            var left := n.debt - (i.amount - Mul(n.debt, i.rate));
            var more := left > 0.0 && n.count + 1 < n.period;
            && |b'.loans| == |b.loans| && |b'.installments| == |b.installments| + (if more then 1 else 0)
            && b' == b.(installments := b'.installments, loans := b'.loans)
            && b'.installments[k] == i.(status := Paid)
            && (forall j :: 0 <= j < |b.installments| && j != k ==> b'.installments[j] == b.installments[j])
            && (forall l :: 0 <= l < |b.loans| && l != i.loan ==> b'.loans[l] == b.loans[l])
            && var n' := b'.loans[i.loan];
            && n'.count == n.count + 1 && n'.amount == n.amount && n'.period == n.period
            && n'.loanType == n.loanType && n'.interest == n.interest
            && (if more then
                  && n'.debt == Round4(left) && n'.status == n.status
                  && var rate := Rate(left, n.loanType, n.interest, n.status == Overdue);
                  && rate > 0.0
                  && b'.installments[|b.installments|]
                     == Installment(i.loan, Round4(Mul(left, Val(rate, n.period - n.count - 1))), rate, nextMonth, Unpaid, 0, 0)
                else n'.debt == 0.0 && n'.status == PaidOff)
  {
    hide Rate, Round4, Val, Mul;
    var i := b.installments[k];
    var n := b.loans[i.loan];
    RateIsUsable(n.debt - (i.amount - Mul(n.debt, i.rate)), n.loanType, n.interest, n.status == Overdue);
  }

  /** An approval whose payout and transaction both go through makes the request APPROVED and adds an ACTIVE
      loan for the whole amount with its first installment, at the rate for the amount in dinars. */
  lemma ApprovalEffect(b: Book, id: nat, inDinars: real, due: int)
    requires id < |b.requests| && b.requests[id].status == Pending && b.requests[id].period >= 1 && b.requests[id].amount > 0.0
    ensures var b', r := Approve(b, id, inDinars, due, true, true), b.requests[id];
            var rate := Rate(inDinars, r.loanType, r.interest, false);
            && rate > 0.0 && b'.requests == b.requests[id := r.(status := Approved)]
            && |b'.loans| == |b.loans| + 1 && b'.loans[..|b.loans|] == b.loans
            && var n := b'.loans[|b.loans|];
            && n.amount == n.debt == r.amount && n.period == r.period && n.count == 0 && n.status == Active
            && n.loanType == r.loanType && n.interest == r.interest
            && b'.installments == b.installments
                 + [Installment(|b.loans|, Round4(Mul(r.amount, Val(rate, r.period))), rate, due, Unpaid, 0, 0)]
            && b'.payouts == b.payouts + [Payout(r.amount, true)]
  {
    hide Rate, Round4, Val;
    RateIsUsable(inDinars, b.requests[id].loanType, b.requests[id].interest, false);
  }

  /** A positive request is stored as PENDING with four decimals; a pending one can be declined; a request in
      any other state is left alone by both decisions. */
  lemma PaperworkEffect(b: Book, amount: real, period: int, t: LoanType, it: InterestType, id: nat, inDinars: real, due: int, paid: bool, stored: bool)
    ensures Step(b, DoSubmit(amount, period, t, it))
            == if amount > 0.0 && period > 0 then b.(requests := b.requests + [Request(Round4(amount), period, t, it, Pending)]) else b
    ensures id < |b.requests| && b.requests[id].status == Pending ==>
              Step(b, DoDecline(id)) == b.(requests := b.requests[id := b.requests[id].(status := Declined)])
    ensures id >= |b.requests| || b.requests[id].status != Pending ==>
              Step(b, DoDecline(id)) == b && Step(b, DoApprove(id, inDinars, due, paid, stored)) == b
  {
  }

  // When a loan is OVERDUE

  /** Failures are counted, and a running loan is OVERDUE exactly when one of its installments has failed at
      least twice. */
  predicate Marked(b: Book) {
    && (forall k :: 0 <= k < |b.installments| ==>
          var i := b.installments[k];
          i.loan < |b.loans| && (if i.retry == 0 && i.status != Late then i.failures == 0 || i.status == Paid else i.failures >= 1))
    && (forall l :: 0 <= l < |b.loans| && b.loans[l].status != PaidOff ==>
          (b.loans[l].status == Overdue <==> TwiceFailed(b.installments, l)))
  }

  /** The turn does not stop between marking an installment late and its loan overdue. */
  predicate Unbroken(b: Book, k: nat, charged: bool, w: nat)
    requires k < |b.installments| && b.installments[k].loan < |b.loans|
  {
    var i := b.installments[k];
    (!charged || i.amount <= 0.0) && w == 1 && (i.retry > 0 || i.status == Late) ==> b.loans[i.loan].status != Active
  }

  lemma SameFailures(installments: seq<Installment>, installments': seq<Installment>, l: nat)
    requires |installments| <= |installments'|
    requires forall k :: 0 <= k < |installments| ==>
               installments'[k].loan == installments[k].loan && (installments[k].loan == l ==> installments'[k].failures == installments[k].failures)
    requires forall k :: |installments| <= k < |installments'| ==> installments'[k].failures == 0
    ensures TwiceFailed(installments', l) <==> TwiceFailed(installments, l)
  {
    if TwiceFailed(installments, l) {
      var k :| 0 <= k < |installments| && installments[k].loan == l && installments[k].failures >= 2;
      assert installments'[k].loan == l;
    }
    if TwiceFailed(installments', l) {
      var k :| 0 <= k < |installments'| && installments'[k].loan == l && installments'[k].failures >= 2;
      assert installments[k].loan == l;
    }
  }

  lemma PaidTurnMarks(b: Book, k: nat, nextMonth: int, w: nat)
    requires Marked(b) && DueRow(b, k)
    ensures Marked(Collected(b, k, nextMonth, w))
  {
    hide Rate, Monthly, NextDebt, Round4, TwiceFailed;
    var b' := Collected(b, k, nextMonth, w);
    forall l | 0 <= l < |b'.loans| && b'.loans[l].status != PaidOff
      ensures b'.loans[l].status == Overdue <==> TwiceFailed(b'.installments, l)
    {
      SameFailures(b.installments, b'.installments, l);
    }
  }

  /** A failed turn keeps this if and only if it does not stop there. */
  lemma FailedTurnMarksExactly(b: Book, k: nat, today: int, w: nat)
    requires Marked(b) && DueRow(b, k) && b.loans[b.installments[k].loan].status != PaidOff
    ensures Marked(Failed(b, k, today, w)) <==> Unbroken(b, k, false, w)
  {
    hide TwiceFailed;
    var b', i := Failed(b, k, today, w), b.installments[k];
    forall l | 0 <= l < |b.loans| && l != i.loan ensures TwiceFailed(b'.installments, l) <==> TwiceFailed(b.installments, l) {
      SameFailures(b.installments, b'.installments, l);
    }
    if w > 0 {
      if i.retry == 0 && i.status != Late {
        FirstFailure(b.installments, b'.installments, k);
      } else {
        LaterFailure(b'.installments, k);
      }
    }
  }

  lemma FirstFailure(installments: seq<Installment>, installments': seq<Installment>, k: nat)
    requires k < |installments| == |installments'| && installments[k].failures == 0
    requires installments' == installments[k := installments[k].(retry := 1, due := installments'[k].due, failures := 1)]
    ensures TwiceFailed(installments', installments[k].loan) <==> TwiceFailed(installments, installments[k].loan)
  {
    var l := installments[k].loan;
    if TwiceFailed(installments, l) {
      var j :| 0 <= j < |installments| && installments[j].loan == l && installments[j].failures >= 2;
      assert installments'[j] == installments[j];
    }
    if TwiceFailed(installments', l) {
      var j :| 0 <= j < |installments'| && installments'[j].loan == l && installments'[j].failures >= 2;
      assert installments'[j] == installments[j];
    }
  }

  lemma LaterFailure(installments: seq<Installment>, k: nat)
    requires k < |installments| && installments[k].failures >= 2
    ensures TwiceFailed(installments, installments[k].loan)
  {
  }

  lemma CollectMarks(b: Book, k: nat, charged: bool, today: int, nextMonth: int, w: nat)
    requires Marked(b) && Linked(b) && DueRow(b, k) && Unbroken(b, k, charged, w)
    ensures Marked(Collect(b, k, charged, today, nextMonth, w))
  {
    hide Marked, Collected, Failed, Linked;
    DueIsLinked(b, k);
    if charged && b.installments[k].amount > 0.0 {
      PaidTurnMarks(b, k, nextMonth, w);
    } else {
      FailedTurnMarksExactly(b, k, today, w);
    }
  }

  lemma DueIsLinked(b: Book, k: nat)
    requires Linked(b) && DueRow(b, k)
    ensures b.installments[k].loan < |b.loans| && b.loans[b.installments[k].loan].status != PaidOff
  {
  }

  lemma {:induction false} SweepMarks(b: Book, list: seq<nat>, charged: seq<bool>, today: int, nextMonth: int, n: nat)
    requires Marked(b) && Linked(b) && |charged| == |list| && n <= |list| && IsDueList(b, list, today)
    ensures Marked(Sweep(b, list, charged, today, nextMonth, n))
  {
    hide Marked, Linked, Collect;
    if n > 0 {
      SweepMarks(b, list, charged, today, nextMonth, n - 1);
      SweepLinks(b, list, charged, today, nextMonth, n - 1);
      SweepLeavesRest(b, list, charged, today, nextMonth, n - 1);
      DueIsLinked(Sweep(b, list, charged, today, nextMonth, n - 1), list[n - 1]);
      CollectMarks(Sweep(b, list, charged, today, nextMonth, n - 1), list[n - 1], charged[n - 1], today, nextMonth, ALL);
    }
  }

  /** No failing turn of the event stops between its two writes. */
  predicate UnbrokenEvent(b: Book, e: Event) {
    CanSweep(b, e) && e.reached < |e.list| ==>
      var k := e.list[e.reached];
      var b' := Swept(b, e);
      k < |b'.installments| && b'.installments[k].loan < |b'.loans| ==> Unbroken(b', k, e.charged[e.reached], e.writes)
  }

  predicate UnbrokenRun(b: Book, events: seq<Event>) {
    events != [] ==>
      UnbrokenRun(b, events[..|events| - 1]) && UnbrokenEvent(Run(b, events[..|events| - 1]), events[|events| - 1])
  }

  lemma PaperMarks(b: Book, e: Event)
    requires Marked(b) && !e.DoSweep?
    ensures Marked(Step(b, e))
  {
    hide TwiceFailed, Rate, Monthly, Round4;
    var b' := Step(b, e);
    forall l | 0 <= l < |b'.loans| && b'.loans[l].status != PaidOff
      ensures b'.loans[l].status == Overdue <==> TwiceFailed(b'.installments, l)
    {
      SameFailures(b.installments, b'.installments, l);
      if l >= |b.loans| {
        NobodysFailure(b.installments, l);
      }
    }
  }

  lemma NobodysFailure(installments: seq<Installment>, l: nat)
    requires forall k :: 0 <= k < |installments| ==> installments[k].loan < l
    ensures !TwiceFailed(installments, l)
  {
  }

  lemma StepMarks(b: Book, e: Event)
    requires Marked(b) && Linked(b) && UnbrokenEvent(b, e)
    ensures Marked(Step(b, e))
  {
    hide Marked, Linked, Sweep, Collect, IsDueList, Unbroken;
    if !e.DoSweep? {
      PaperMarks(b, e);
    } else if CanSweep(b, e) {
      SweepMarks(b, e.list, e.charged, e.today, e.nextMonth, e.reached);
      SweepLinks(b, e.list, e.charged, e.today, e.nextMonth, e.reached);
      SweepLeavesRest(b, e.list, e.charged, e.today, e.nextMonth, e.reached);
      if e.reached < |e.list| {
        DueIsOpen(b, e.list, e.today, e.reached);
        DueIsLinked(Swept(b, e), e.list[e.reached]);
        CollectMarks(Swept(b, e), e.list[e.reached], e.charged[e.reached], e.today, e.nextMonth, e.writes);
      }
    }
  }

  /** In every run in which no failing turn stops between its two writes, a running loan is OVERDUE if and only
      if one of its installments has failed at least twice. */
  lemma {:induction false} OverdueExactly(b: Book, events: seq<Event>)
    requires Marked(b) && Linked(b) && UnbrokenRun(b, events)
    ensures Marked(Run(b, events))
  {
    hide Marked, Linked, Step, UnbrokenEvent;
    if events != [] {
      OverdueExactly(b, events[..|events| - 1]);
      RunLinks(b, events[..|events| - 1]);
      StepMarks(Run(b, events[..|events| - 1]), events[|events| - 1]);
    }
  }

  // Loans that can never be finished

  /** Every open installment belongs to a running loan and is that loan's only one. Unlike the rest, this
      survives interrupted turns too. */
  predicate Linked(b: Book) {
    && (forall k :: 0 <= k < |b.installments| ==> b.installments[k].loan < |b.loans|)
    && (forall k :: 0 <= k < |b.installments| && b.installments[k].status != Paid ==>
          b.loans[b.installments[k].loan].status != PaidOff)
    && (forall k, j :: 0 <= k < j < |b.installments| && b.installments[k].status != Paid && b.installments[j].status != Paid ==>
          b.installments[k].loan != b.installments[j].loan)
  }

  lemma InvIsLinked(b: Book)
    requires Inv(b)
    ensures Linked(b)
  {
    hide Sum, LoanOk;
    forall k | 0 <= k < |b.installments|
      ensures b.installments[k].loan < |b.loans|
      ensures b.installments[k].status != Paid ==> b.loans[b.installments[k].loan].status != PaidOff
    {
      assert InstallmentOk(b, b.installments[k]);
    }
    forall k, j | 0 <= k < j < |b.installments| && b.installments[k].status != Paid && b.installments[j].status != Paid
      ensures b.installments[k].loan != b.installments[j].loan
    {
      if b.installments[k].loan == b.installments[j].loan {
        OnlyOpen(b, k, j);
      }
    }
  }

  lemma CollectLinks(b: Book, k: nat, charged: bool, today: int, nextMonth: int, w: nat)
    requires Linked(b) && DueRow(b, k)
    ensures Linked(Collect(b, k, charged, today, nextMonth, w))
  {
    hide Rate, Monthly, NextDebt, Round4;
  }

  lemma {:induction false} SweepLinks(b: Book, list: seq<nat>, charged: seq<bool>, today: int, nextMonth: int, n: nat)
    requires Linked(b) && |charged| == |list| && n <= |list| && IsDueList(b, list, today)
    ensures Linked(Sweep(b, list, charged, today, nextMonth, n))
  {
    hide Linked, Collect;
    if n > 0 {
      SweepLinks(b, list, charged, today, nextMonth, n - 1);
      SweepLeavesRest(b, list, charged, today, nextMonth, n - 1);
      CollectLinks(Sweep(b, list, charged, today, nextMonth, n - 1), list[n - 1], charged[n - 1], today, nextMonth, ALL);
    }
  }

  lemma StepLinks(b: Book, e: Event)
    requires Linked(b)
    ensures Linked(Step(b, e))
  {
    hide Sweep, Collect, IsDueList, Rate, Monthly, Round4;
    if CanSweep(b, e) {
      SweepLinks(b, e.list, e.charged, e.today, e.nextMonth, e.reached);
      SweepLeavesRest(b, e.list, e.charged, e.today, e.nextMonth, e.reached);
      if e.reached < |e.list| {
        DueIsOpen(b, e.list, e.today, e.reached);
        CollectLinks(Swept(b, e), e.list[e.reached], e.charged[e.reached], e.today, e.nextMonth, e.writes);
      }
    }
  }

  lemma {:induction false} RunLinks(b: Book, events: seq<Event>)
    requires Linked(b)
    ensures Linked(Run(b, events))
  {
    hide Step, Linked;
    if events != [] {
      RunLinks(b, events[..|events| - 1]);
      StepLinks(Run(b, events[..|events| - 1]), events[|events| - 1]);
    }
  }

  /** An open installment that asks for nothing. */
  predicate Uncollectable(b: Book, k: nat) {
    DueRow(b, k) && b.installments[k].amount <= 0.0
  }

  lemma CollectLeavesZero(b: Book, j: nat, charged: bool, today: int, nextMonth: int, w: nat, k: nat)
    requires Uncollectable(b, k)
    ensures var b' := Collect(b, j, charged, today, nextMonth, w);
            Uncollectable(b', k) && b'.installments[k].loan == b.installments[k].loan
  {
    hide LoanAfter, Rate, Monthly;
  }

  lemma {:induction false} SweepLeavesZero(b: Book, list: seq<nat>, charged: seq<bool>, today: int, nextMonth: int, n: nat, k: nat)
    requires Uncollectable(b, k) && |charged| == |list| && n <= |list|
    ensures var b' := Sweep(b, list, charged, today, nextMonth, n);
            Uncollectable(b', k) && b'.installments[k].loan == b.installments[k].loan
  {
    hide Collect;
    if n > 0 {
      SweepLeavesZero(b, list, charged, today, nextMonth, n - 1, k);
      CollectLeavesZero(Sweep(b, list, charged, today, nextMonth, n - 1), list[n - 1], charged[n - 1], today, nextMonth, ALL, k);
    }
  }

  lemma StepLeavesZero(b: Book, e: Event, k: nat)
    requires Uncollectable(b, k)
    ensures Uncollectable(Step(b, e), k) && Step(b, e).installments[k].loan == b.installments[k].loan
  {
    hide Sweep, Collect, IsDueList, Rate, Monthly;
    if CanSweep(b, e) {
      SweepLeavesZero(b, e.list, e.charged, e.today, e.nextMonth, e.reached, k);
      if e.reached < |e.list| {
        CollectLeavesZero(Swept(b, e), e.list[e.reached], e.charged[e.reached], e.today, e.nextMonth, e.writes, k);
      }
    }
  }

  /** A loan whose open installment rounded to nothing is never paid off, whatever happens. */
  lemma {:induction false} ZeroInstallmentIsNeverPaid(b: Book, events: seq<Event>, k: nat)
    requires Linked(b) && Uncollectable(b, k)
    ensures var b' := Run(b, events);
            && Uncollectable(b', k) && b'.installments[k].loan == b.installments[k].loan
            && b'.installments[k].loan < |b'.loans| && b'.loans[b'.installments[k].loan].status != PaidOff
  {
    hide Step;
    RunLinks(b, events);
    if events != [] {
      ZeroInstallmentIsNeverPaid(b, events[..|events| - 1], k);
      StepLeavesZero(Run(b, events[..|events| - 1]), events[|events| - 1], k);
    }
  }

  /** Every installment of the loan is paid. */
  predicate NoneOpen(b: Book, l: nat) {
    l < |b.loans| && forall k :: 0 <= k < |b.installments| ==> b.installments[k].loan == l ==> b.installments[k].status == Paid
  }

  lemma CollectLeavesStranded(b: Book, k: nat, charged: bool, today: int, nextMonth: int, w: nat, l: nat)
    requires NoneOpen(b, l) && DueRow(b, k)
    ensures var b' := Collect(b, k, charged, today, nextMonth, w); NoneOpen(b', l) && b'.loans[l] == b.loans[l]
  {
    hide LoanAfter, Rate, Monthly;
  }

  lemma {:induction false} SweepLeavesStranded(b: Book, list: seq<nat>, charged: seq<bool>, today: int, nextMonth: int, n: nat, l: nat)
    requires NoneOpen(b, l) && |charged| == |list| && n <= |list| && IsDueList(b, list, today)
    ensures var b' := Sweep(b, list, charged, today, nextMonth, n); NoneOpen(b', l) && b'.loans[l] == b.loans[l]
  {
    hide Collect;
    if n > 0 {
      SweepLeavesStranded(b, list, charged, today, nextMonth, n - 1, l);
      SweepLeavesRest(b, list, charged, today, nextMonth, n - 1);
      CollectLeavesStranded(Sweep(b, list, charged, today, nextMonth, n - 1), list[n - 1], charged[n - 1], today, nextMonth, ALL, l);
    }
  }

  lemma StepLeavesStranded(b: Book, e: Event, l: nat)
    requires NoneOpen(b, l)
    ensures NoneOpen(Step(b, e), l) && Step(b, e).loans[l] == b.loans[l]
  {
    hide Sweep, Collect, IsDueList, Rate, Monthly;
    if CanSweep(b, e) {
      SweepLeavesStranded(b, e.list, e.charged, e.today, e.nextMonth, e.reached, l);
      SweepLeavesRest(b, e.list, e.charged, e.today, e.nextMonth, e.reached);
      if e.reached < |e.list| {
        DueIsOpen(b, e.list, e.today, e.reached);
        CollectLeavesStranded(Swept(b, e), e.list[e.reached], e.charged[e.reached], e.today, e.nextMonth, e.writes, l);
      }
    }
  }

  /** A loan without an open installment is never touched again. */
  lemma {:induction false} StrandedForever(b: Book, events: seq<Event>, l: nat)
    requires NoneOpen(b, l)
    ensures NoneOpen(Run(b, events), l) && Run(b, events).loans[l] == b.loans[l]
  {
    hide Step;
    if events != [] {
      StrandedForever(b, events[..|events| - 1], l);
      StepLeavesStranded(Run(b, events[..|events| - 1]), events[|events| - 1], l);
    }
  }

  /** A turn that stops half-way through the record of a payment leaves the loan running for good: no later
      sweep finds anything to collect from it. */
  lemma HalfTurnStrands(b: Book, k: nat, charged: bool, today: int, nextMonth: int, w: nat, events: seq<Event>)
    requires Linked(b) && DueRow(b, k) && b.installments[k].loan < |b.loans| && !Whole(b, k, charged, w)
    ensures var b' := Collect(b, k, charged, today, nextMonth, w);
            var l := b.installments[k].loan;
            && l < |b'.loans| && b'.loans[l].status != PaidOff
            && NoneOpen(Run(b', events), l) && Run(b', events).loans[l] == b'.loans[l]
  {
    hide Run, Rate, Monthly, NextDebt, Round4;
    var b', l := Collect(b, k, charged, today, nextMonth, w), b.installments[k].loan;
    assert NoneOpen(b', l);
    StrandedForever(b', events, l);
  }

  // Statuses only move forward

  function Rank(s: LoanStatus): nat {
    match s case Active => 0 case Overdue => 1 case PaidOff => 2
  }

  /** No loan ever returns to ACTIVE or leaves PAID_OFF, and a paid-off loan is never touched again. */
  predicate Forward(b: Book, b': Book) {
    |b.loans| <= |b'.loans| && forall l :: 0 <= l < |b.loans| ==>
      Rank(b.loans[l].status) <= Rank(b'.loans[l].status)
      && (b.loans[l].status == PaidOff ==> b'.loans[l] == b.loans[l])
  }

  lemma CollectIsForward(b: Book, k: nat, charged: bool, today: int, nextMonth: int, w: nat)
    requires Linked(b) && DueRow(b, k)
    ensures Forward(b, Collect(b, k, charged, today, nextMonth, w))
  {
    hide NextDebt, Rate, Monthly, Round4;
  }

  lemma {:induction false} SweepIsForward(b: Book, list: seq<nat>, charged: seq<bool>, today: int, nextMonth: int, n: nat)
    requires Linked(b) && |charged| == |list| && n <= |list| && IsDueList(b, list, today)
    ensures Forward(b, Sweep(b, list, charged, today, nextMonth, n))
  {
    hide Linked, Collect;
    if n > 0 {
      SweepLinks(b, list, charged, today, nextMonth, n - 1);
      SweepIsForward(b, list, charged, today, nextMonth, n - 1);
      SweepLeavesRest(b, list, charged, today, nextMonth, n - 1);
      CollectIsForward(Sweep(b, list, charged, today, nextMonth, n - 1), list[n - 1], charged[n - 1], today, nextMonth, ALL);
    }
  }

  lemma StepIsForward(b: Book, e: Event)
    requires Linked(b)
    ensures Forward(b, Step(b, e))
  {
    hide Linked, Sweep, Collect, IsDueList, Rate, Monthly, Round4;
    if CanSweep(b, e) {
      SweepLinks(b, e.list, e.charged, e.today, e.nextMonth, e.reached);
      SweepIsForward(b, e.list, e.charged, e.today, e.nextMonth, e.reached);
      SweepLeavesRest(b, e.list, e.charged, e.today, e.nextMonth, e.reached);
      if e.reached < |e.list| {
        DueIsOpen(b, e.list, e.today, e.reached);
        CollectIsForward(Swept(b, e), e.list[e.reached], e.charged[e.reached], e.today, e.nextMonth, e.writes);
      }
    }
  }

  /** In every run, interrupted turns included, statuses only move forward. */
  lemma {:induction false} StatusesMoveForward(b: Book, events: seq<Event>)
    requires Linked(b)
    ensures Forward(b, Run(b, events))
  {
    hide Linked, Step;
    if events != [] {
      StatusesMoveForward(b, events[..|events| - 1]);
      RunLinks(b, events[..|events| - 1]);
      StepIsForward(Run(b, events[..|events| - 1]), events[|events| - 1]);
    }
  }

  // One loan per approval

  function IsApproved(): Request -> int {
    (r: Request) => if r.status == Approved then 1 else 0
  }

  /** Requests, payouts and loan amounts are not touched by collection. */
  predicate SameGrants(b: Book, b': Book) {
    && b'.requests == b.requests && b'.payouts == b.payouts && |b'.loans| == |b.loans|
    && forall l :: 0 <= l < |b.loans| ==> b'.loans[l].amount == b.loans[l].amount
  }

  lemma CollectOpensNoLoan(b: Book, k: nat, charged: bool, today: int, nextMonth: int, w: nat)
    ensures SameGrants(b, Collect(b, k, charged, today, nextMonth, w))
  {
    hide Rate, Monthly, NextDebt, Round4;
  }

  lemma {:induction false} SweepOpensNoLoan(b: Book, list: seq<nat>, charged: seq<bool>, today: int, nextMonth: int, n: nat)
    requires |charged| == |list| && n <= |list|
    ensures SameGrants(b, Sweep(b, list, charged, today, nextMonth, n))
  {
    hide Collect;
    if n > 0 {
      SweepOpensNoLoan(b, list, charged, today, nextMonth, n - 1);
      CollectOpensNoLoan(Sweep(b, list, charged, today, nextMonth, n - 1), list[n - 1], charged[n - 1], today, nextMonth, ALL);
    }
  }

  lemma SweepStepOpensNoLoan(b: Book, e: Event)
    requires e.DoSweep?
    ensures SameGrants(b, Step(b, e))
  {
    hide Sweep, Collect, IsDueList;
    if CanSweep(b, e) {
      SweepOpensNoLoan(b, e.list, e.charged, e.today, e.nextMonth, e.reached);
      if e.reached < |e.list| {
        CollectOpensNoLoan(Swept(b, e), e.list[e.reached], e.charged[e.reached], e.today, e.nextMonth, e.writes);
      }
    }
  }

  /** In every run there are exactly as many new loans as newly approved requests: deciding a request
      again, either way, does nothing. */
  lemma {:induction false} OneLoanPerApproval(b: Book, events: seq<Event>)
    ensures var b' := Run(b, events);
            |b'.loans| - |b.loans| == Sum(b'.requests, IsApproved()) - Sum(b.requests, IsApproved())
  {
    hide Rate, Monthly, Sum, Sweep, IsDueList, Collect, Round4;
    if events != [] {
      OneLoanPerApproval(b, events[..|events| - 1]);
      var before, e := Run(b, events[..|events| - 1]), events[|events| - 1];
      var after := Step(before, e);
      match e {
        case DoSubmit(_, _, _, _) =>
          if after != before {
            SumAppend(before.requests, after.requests[|before.requests|], IsApproved());
          }
        case DoSweep(_, _, _, _, _, _) => SweepStepOpensNoLoan(before, e);
        case _ =>
          if e.id < |before.requests| {
            SumUpdate(before.requests, e.id, after.requests[e.id], IsApproved());
          }
      }
    }
  }

  // Payouts

  /** The amounts of the payouts whose approval went through, in order. */
  function Kept(payouts: seq<Payout>): seq<real> {
    if payouts == [] then []
    else
      var last := payouts[|payouts| - 1];
      Kept(payouts[..|payouts| - 1]) + if last.kept then [last.amount] else []
  }

  function Orphan(): Payout -> int {
    (p: Payout) => if p.kept then 0 else 1
  }

  /** The payouts that were kept are, loan by loan, the loans; the rest have no loan. */
  predicate PaidOut(b: Book) {
    && |Kept(b.payouts)| == |b.loans|
    && (forall l :: 0 <= l < |b.loans| ==> Kept(b.payouts)[l] == b.loans[l].amount)
    && |b.payouts| == |b.loans| + Sum(b.payouts, Orphan())
  }

  lemma KeptAppend(payouts: seq<Payout>, p: Payout)
    ensures Kept(payouts + [p]) == Kept(payouts) + if p.kept then [p.amount] else []
  {
    assert (payouts + [p])[..|payouts|] == payouts;
  }

  lemma ApprovePays(b: Book, id: nat, inDinars: real, due: int, paid: bool, stored: bool)
    requires PaidOut(b)
    ensures PaidOut(Approve(b, id, inDinars, due, paid, stored))
  {
    hide Kept, Sum, Rate, Monthly;
    if Approvable(b, id) {
      var p := Payout(b.requests[id].amount, stored);
      KeptAppend(b.payouts, p);
      SumAppend(b.payouts, p, Orphan());
    }
  }

  /** In every serial run each loan has been paid out once and in full; whatever else has been paid out
      belongs to approvals whose transaction then failed. So payouts and loans agree if and only if no
      approval failed after its payout. */
  lemma {:induction false} EveryLoanIsPaidOut(b: Book, events: seq<Event>)
    requires PaidOut(b)
    ensures PaidOut(Run(b, events))
    ensures var b' := Run(b, events); |b'.payouts| == |b'.loans| <==> Sum(b'.payouts, Orphan()) == 0
  {
    hide Kept, Sum, Approve, Step;
    if events != [] {
      EveryLoanIsPaidOut(b, events[..|events| - 1]);
      PayoutStep(Run(b, events[..|events| - 1]), events[|events| - 1]);
    }
  }

  lemma PayoutStep(b: Book, e: Event)
    requires PaidOut(b)
    ensures PaidOut(Step(b, e))
  {
    hide Kept, Sum, Approve, Sweep, Collect, IsDueList;
    match e {
      case DoApprove(id, d, due, paid, stored) => ApprovePays(b, id, d, due, paid, stored);
      case DoSweep(_, _, _, _, _, _) => SweepStepOpensNoLoan(b, e);
      case _ =>
    }
  }

  /** A failed approval leaves the request pending, so approving it again pays the client twice for one
      loan. */
  lemma FailedApprovalPaysTwice(b: Book, id: nat, inDinars: real, due: int)
    requires Approvable(b, id) && b.requests[id].amount > 0.0
    ensures var b' := Approve(Approve(b, id, inDinars, due, true, false), id, inDinars, due, true, true);
            |b'.payouts| == |b.payouts| + 2 && |b'.loans| == |b.loans| + 1
  {
    hide Rate, Monthly;
  }

  // The service

  class Service {
    var requests: seq<Request>
    var loans: seq<Loan>
    var installments: seq<Installment>
    ghost var payouts: seq<Payout>

    ghost function Tables(): Book
      reads this
    {
      Book(requests, loans, installments, payouts)
    }

    /** UpdateStatusIfPending, as used to decline. */
    method DeclineRequest(id: nat) returns (ok: bool)
      modifies this`requests
      ensures Tables() == Decline(old(Tables()), id)
      ensures ok <==> id < |old(requests)| && old(requests)[id].status == Pending
    {
      if id >= |requests| || requests[id].status != Pending {
        return false;
      }
      requests := requests[id := requests[id].(status := Declined)];
      ok := true;
    }

    /** Approval: rate, annuity, payout, and then one transaction that flips the request and inserts the
        loan and its first installment. */
    method ApproveRequest(id: nat, inDinars: real, due: int, paid: bool, stored: bool) returns (ok: bool)
      requires id < |requests| ==> requests[id].period >= 1
      modifies this
      ensures Tables() == Approve(old(Tables()), id, inDinars, due, paid, stored)
      ensures ok <==> id < |old(requests)| && old(requests)[id].status == Pending && old(requests)[id].amount > 0.0 && paid && stored
    {
      hide Rate, Monthly, TenDecimals;
      if id >= |requests| || requests[id].status != Pending {
        return false;
      }
      var r := requests[id];
      var _, rate := CalculateInterestRate(inDinars, r.loanType, r.interest, false);
      RateIsUsable(inDinars, r.loanType, r.interest, false);
      var monthly := Monthly(r.amount, rate, r.period);
      if !paid || r.amount <= 0.0 {
        return false;
      }
      payouts := payouts + [Payout(r.amount, stored)];
      if !stored {
        return false;
      }
      requests := requests[id := r.(status := Approved)];
      loans := loans + [Loan(r.amount, r.period, r.loanType, r.interest, r.amount, 0, Active, r.amount, 0.0, 0.0, r.amount)];
      installments := installments + [Installment(|loans| - 1, monthly, rate, due, Unpaid, 0, 0)];
      ok := true;
    }

    /** ProcessDueInstallments: the rows of the due list are read once, before the loop. A failing store
        call ends it at row `reached`, after `writes` of that turn's writes. */
    method ProcessDueInstallments(list: seq<nat>, charged: seq<bool>, today: int, nextMonth: int, reached: nat, writes: nat)
      returns (ok: bool)
      requires |charged| == |list| && IsDueList(Tables(), list, today)
      requires forall x :: 0 <= x < |list| ==> installments[list[x]].loan < |loans|
      modifies this`loans, this`installments
      ensures ok <==> reached >= |list|
      ensures Tables() == Step(old(Tables()), DoSweep(list, charged, today, nextMonth, if ok then |list| else reached, writes))
    {
      hide Collect;
      ghost var start := Tables();
      var due: seq<Installment> := seq(|list|, x requires 0 <= x < |list| && list[x] < |installments| reads this => installments[list[x]]);
      for x := 0 to |list|
        invariant requests == start.requests && payouts == start.payouts
        invariant x <= reached && Tables() == Sweep(start, list, charged, today, nextMonth, x)
      {
        SweepLeavesRest(start, list, charged, today, nextMonth, x);
        var w := if x == reached then writes else ALL;
        ProcessOne(list[x], due[x], charged[x], today, nextMonth, w);
        if x == reached {
          return false;
        }
      }
      ok := true;
    }

    /** One turn of the loop, on the row as it was read, up to `w` of its writes. */
    method ProcessOne(k: nat, installment: Installment, charged: bool, today: int, nextMonth: int, w: nat)
      requires k < |installments| && installment == installments[k] && installment.loan < |loans|
      modifies this`loans, this`installments
      ensures Tables() == Collect(old(Tables()), k, charged, today, nextMonth, w)
    {
      hide Rate, Monthly, TenDecimals, Round4;
      if w == 0 {
        return;
      }
      var l, loan := installment.loan, loans[installment.loan];
      if !charged || installment.amount <= 0.0 {
        var failures := installment.failures + 1;
        if installment.status != Late && installment.retry == 0 {
          installments := installments[k := installment.(retry := 1, due := today + 3, failures := failures)];
        } else {
          installments := installments[k := installment.(status := Late, due := today + 1, failures := failures)];
        }
        if w > 1 && (installment.retry > 0 || installment.status == Late) {
          loans := loans[l := loan.(status := Overdue)];
        }
        return;
      }
      var interestPart := Mul(loan.debt, installment.rate);
      var principalPart := installment.amount - interestPart;
      var newDebt := loan.debt - principalPart;
      var newCount := loan.count + 1;
      loan := loan.(count := newCount, repaid := loan.repaid + (loan.debt - newDebt), lastExact := loan.exact);
      installments := installments[k := installment.(status := Paid)];
      if w == 1 {
        return;
      }
      if newDebt > 0.0 && newCount < loan.period {
        var _, rate := CalculateInterestRate(newDebt, loan.loanType, loan.interest, loan.status == Overdue);
        RateIsUsable(newDebt, loan.loanType, loan.interest, loan.status == Overdue);
        loans := loans[l := loan.(debt := Round4(newDebt), exact := newDebt)];
        var monthly := Monthly(newDebt, rate, loan.period - newCount);
        if w > 2 {
          installments := installments + [Installment(l, monthly, rate, nextMonth, Unpaid, 0, 0)];
        }
      } else {
        loans := loans[l := loan.(debt := 0.0, exact := 0.0, status := PaidOff, writtenOff := newDebt)];
      }
    }
  }
}
