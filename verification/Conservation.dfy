/** Money is neither created nor lost: exactly when a payment or the fee job keeps the per-currency
    totals, what reservations and reversals undo, and what a whole run conserves. */
module Conservation {
  import opened Common
  import opened Accounts
  import opened Ledger
  import opened LedgerSafety

  ghost predicate SameTotals(accounts: seq<Account>, accounts': seq<Account>) {
    forall c :: Booked(accounts, c) == Booked(accounts', c)
  }

  // Payments

  /** Equal amounts within one currency; between currencies, a payee other than the bank. */
  predicate PaymentBalanced(accounts: seq<Account>, p: Payment) {
    var f, t := ByNumber(accounts, p.from), ByNumber(accounts, p.to);
    f.Ok? && t.Ok? &&
    if accounts[f.value].currency == accounts[t.value].currency then p.fromAmount == p.toAmount
    else accounts[t.value].owner != BANK
  }

  /** A payment that commits keeps every per-currency total if and only if it is balanced, whichever
      of payer, payee and bank accounts coincide. */
  lemma PaymentConservesExactly(accounts: seq<Account>, holds: seq<Hold>, p: Payment, sameOwner: bool, now: int)
    requires AccountsOk(accounts, holds)
    ensures var r := PaymentOperation(accounts, p, sameOwner, now);
            r.Ok? ==> (SameTotals(accounts, r.value) <==> PaymentBalanced(accounts, p))
  {
    var r := PaymentOperation(accounts, p, sameOwner, now);
    if r.Ok? {
      PaymentKeeps(accounts, holds, p, sameOwner, now);
      var from := accounts[ByNumber(accounts, p.from).value];
      var to := accounts[ByNumber(accounts, p.to).value];
      assert p.fromAmount > 0 && p.toAmount > 0;
      assert Booked(r.value, to.currency) == Booked(accounts, to.currency) + PaymentDelta(from, to, p, to.currency);
    }
  }

  // Transfers and their reversal

  predicate SameBalances(accounts: seq<Account>, accounts': seq<Account>) {
    |accounts| == |accounts'| && forall i :: 0 <= i < |accounts| ==>
      accounts[i].booked == accounts'[i].booked && accounts[i].available == accounts'[i].available
  }

  /** A transfer keeps every per-currency total if and only if both ends share a currency. */
  lemma TransferConservesExactly(accounts: seq<Account>, holds: seq<Hold>, from: string, to: string, amount: int,
                                 quote: Option<Quote>, now: int)
    requires AccountsOk(accounts, holds)
    ensures var r := TransferTx(accounts, from, to, amount, quote, now);
            r.Ok? ==> (SameTotals(accounts, r.value) <==> CurrencyOf(accounts, from) == CurrencyOf(accounts, to))
  {
    hide AccountsOk, Move, CreditBank, First;
    var r := TransferTx(accounts, from, to, amount, quote, now);
    if r.Ok? {
      TransferKeeps(accounts, holds, from, to, amount, quote, now);
      var c := CurrencyOf(accounts, from);
      assert Booked(r.value, c) == Booked(accounts, c) + TransferDelta(accounts, from, to, amount, quote, c);
    }
  }

  /** A reversal likewise. */
  lemma ReverseConservesExactly(accounts: seq<Account>, holds: seq<Hold>, log: Transfer, now: int)
    requires AccountsOk(accounts, holds) && log.amount > 0
    ensures var r := ReverseTx(accounts, log, now);
            r.Ok? ==> (SameTotals(accounts, r.value) <==> CurrencyOf(accounts, log.from) == CurrencyOf(accounts, log.to))
  {
    hide AccountsOk, Move, First;
    var r := ReverseTx(accounts, log, now);
    if r.Ok? {
      ReverseKeeps(accounts, holds, log, now);
      var c := CurrencyOf(accounts, log.from);
      assert Booked(r.value, c) == Booked(accounts, c) + If(true, log.amount) - If(c == CurrencyOf(accounts, log.to), log.amount);
    }
  }

  /** Reversing a transfer puts both balances of every account back if and only if both ends share a
      currency: between currencies the commission and the converted amount stay where they went. */
  lemma ReverseUndoesExactly(accounts: seq<Account>, holds: seq<Hold>, from: string, to: string, amount: int,
                             quote: Option<Quote>, now: int, later: int)
    requires AccountsOk(accounts, holds)
    ensures var sent := TransferTx(accounts, from, to, amount, quote, now);
            sent.Ok? ==>
              var back := ReverseTx(sent.value, Transfer(from, to, amount, Completed), later);
              back.Ok? ==>
                (SameBalances(accounts, back.value) <==> CurrencyOf(accounts, from) == CurrencyOf(accounts, to))
  {
    hide AccountsOk, Move, First, CurrencyOf;
    var sent := TransferTx(accounts, from, to, amount, quote, now);
    if sent.Ok? {
      var back := ReverseTx(sent.value, Transfer(from, to, amount, Completed), later);
      if back.Ok? {
        if CurrencyOf(accounts, from) == CurrencyOf(accounts, to) {
          ReverseUndoes(accounts, holds, from, to, amount, quote, now, later);
        } else {
          CommissionStays(accounts, holds, from, to, amount, quote, now, later);
        }
      }
    }
  }

  lemma ReverseUndoes(accounts: seq<Account>, holds: seq<Hold>, from: string, to: string, amount: int,
                      quote: Option<Quote>, now: int, later: int)
    requires AccountsOk(accounts, holds) && CurrencyOf(accounts, from) == CurrencyOf(accounts, to)
    requires TransferTx(accounts, from, to, amount, quote, now).Ok?
    ensures var sent := TransferTx(accounts, from, to, amount, quote, now).value;
            var back := ReverseTx(sent, Transfer(from, to, amount, Completed), later);
            back.Ok? ==> SameBalances(accounts, back.value)
  {
    hide First, RowOk;
    var sent := TransferTx(accounts, from, to, amount, quote, now).value;
    var f, t := ByNumber(accounts, from).value, ByNumber(accounts, to).value;
    var owner, owner' := accounts[f].owner, accounts[t].owner;
    MoveEffect(accounts, from, to, amount, owner, owner', now);
    SameLookup(accounts, sent, from);
    SameLookup(accounts, sent, to);
    var back := ReverseTx(sent, Transfer(from, to, amount, Completed), later);
    if back.Ok? {
      MoveEffect(sent, to, from, amount, owner', owner, later);
    }
  }

  lemma CommissionStays(accounts: seq<Account>, holds: seq<Hold>, from: string, to: string, amount: int,
                        quote: Option<Quote>, now: int, later: int)
    requires AccountsOk(accounts, holds) && CurrencyOf(accounts, from) != CurrencyOf(accounts, to)
    requires TransferTx(accounts, from, to, amount, quote, now).Ok?
    ensures var sent := TransferTx(accounts, from, to, amount, quote, now).value;
            var back := ReverseTx(sent, Transfer(from, to, amount, Completed), later);
            back.Ok? ==> !SameBalances(accounts, back.value)
  {
    hide AccountsOk, Move, First, Booked;
    var sent := TransferTx(accounts, from, to, amount, quote, now).value;
    TransferKeeps(accounts, holds, from, to, amount, quote, now);
    SameLookup(accounts, sent, from);
    SameLookup(accounts, sent, to);
    var log := Transfer(from, to, amount, Completed);
    var back := ReverseTx(sent, log, later);
    if back.Ok? {
      ReverseKeeps(sent, holds, log, later);
      var c := CurrencyOf(accounts, from);
      assert quote.value.commission > 0;
      assert Booked(sent, c) == Booked(accounts, c) + TransferDelta(accounts, from, to, amount, quote, c);
      assert Booked(back.value, c) == Booked(sent, c) + amount;
      if SameBalances(accounts, back.value) {
        SameBookings(accounts, back.value);
        assert false;
      }
    }
  }

  function Shift(f: nat, t: nat, i: nat, x: int): int {
    If(i == t, x) - If(i == f, x)
  }

  lemma MoveEffect(accounts: seq<Account>, from: string, to: string, x: int, fromOwner: int, toOwner: int, now: int)
    requires Distinct(accounts)
    requires Move(accounts, from, x, fromOwner, to, x, toOwner, now).Ok?
    ensures var after := Move(accounts, from, x, fromOwner, to, x, toOwner, now).value;
            var f, t := ByNumber(accounts, from), ByNumber(accounts, to);
            && f.Ok? && t.Ok? && SameRows(accounts, after)
            && forall i :: 0 <= i < |accounts| ==>
                 after[i].booked == accounts[i].booked + Shift(f.value, t.value, i, x)
                 && after[i].available == accounts[i].available + Shift(f.value, t.value, i, x)
  {
    hide First, DebitError, Mutable;
    var debited := Debit(accounts, from, x, fromOwner, now).value;
    assert SameRows(accounts, debited);
    SameLookup(accounts, debited, to);
  }

  // Interbank reservations

  /** Reserving and then releasing leaves the account table exactly as it was; reserving and then
      committing takes the amount off both balances; repeating either changes nothing. */
  lemma ReservationNetEffect(db: Db, number: string, currency: string, amount: int, local: string)
    ensures var r := ReserveHold(db, number, currency, amount, local);
            r.Ok? ==>
              var held, id := r.value, |db.holds|;
              var i := ByNumber(db.accounts, number).value;
              var a := db.accounts[i];
              var released, committed := ReleaseHold(held, id), CommitHold(held, id);
              && released.Ok? && released.value.accounts == db.accounts
              && ReleaseHold(released.value, id) == released && CommitHold(released.value, id).Err?
              && committed.Ok? && committed.value.accounts
                   == db.accounts[i := a.(booked := a.booked - amount, available := a.available - amount)]
              && CommitHold(committed.value, id) == committed && ReleaseHold(committed.value, id).Err?
  {
    hide First;
    var r := ReserveHold(db, number, currency, amount, local);
    if r.Ok? {
      var accounts, i := r.value.accounts, ByNumber(db.accounts, number).value;
      assert SameRows(db.accounts, accounts);
      SameLookup(db.accounts, accounts, number);
      var released, committed := ReleaseHold(r.value, |db.holds|), CommitHold(r.value, |db.holds|);
      assert released.value.accounts == db.accounts;
      assert committed.value.accounts
          == db.accounts[i := db.accounts[i].(booked := db.accounts[i].booked - amount, available := db.accounts[i].available - amount)];
    }
  }

  /** What may happen to a reservation row: it is finalised at most once and nothing else changes. */
  predicate Evolves(holds: seq<Hold>, holds': seq<Hold>) {
    && |holds| <= |holds'|
    && forall k :: 0 <= k < |holds| ==>
         holds[k] == holds'[k]
         || (holds[k].status == Held && holds'[k] == holds[k].(status := holds'[k].status))
  }

  lemma StepEvolves(db: Db, op: Op, now: int)
    ensures Evolves(db.holds, Apply(db, op, now).holds)
  {
  }

  /** In every run a reservation reaches at most one terminal state and stays there. */
  lemma {:induction false} TerminalStatesAreFinal(db: Db, events: seq<Event>)
    ensures Evolves(db.holds, Run(db, events).holds)
  {
    if events != [] {
      var last := events[|events| - 1];
      TerminalStatesAreFinal(db, events[..|events| - 1]);
      StepEvolves(Run(db, events[..|events| - 1]), last.op, last.now);
    }
  }

  function CommittedAt(number: string): Hold -> int {
    (h: Hold) => if h.status == Committed && h.number == number then h.amount else 0
  }

  /** Reserved and not given back. */
  function TakenAt(number: string): Hold -> int {
    (h: Hold) => if h.status != Released && h.number == number then h.amount else 0
  }

  /** Every account's booked balance is down by exactly what was committed on it, and its available
      balance by exactly what was reserved on it and not released. */
  predicate NetEffect(db: Db, db': Db) {
    && |db.accounts| == |db'.accounts|
    && forall i :: 0 <= i < |db.accounts| ==>
         var a, b := db.accounts[i], db'.accounts[i];
         && a == b.(booked := a.booked, available := a.available)
         && a.booked - b.booked == Sum(db'.holds, CommittedAt(a.number)) - Sum(db.holds, CommittedAt(a.number))
         && a.available - b.available == Sum(db'.holds, TakenAt(a.number)) - Sum(db.holds, TakenAt(a.number))
  }

  predicate OnHolds(op: Op) {
    op.DoReserve? || op.DoCommit? || op.DoRelease?
  }

  /** One account row and one reservation row changed together. */
  lemma RowEffect(db: Db, db': Db, i: nat, a: Account, booked: int, available: int)
    requires Distinct(db.accounts) && i < |db.accounts| && db'.accounts == db.accounts[i := a]
    requires a == db.accounts[i].(booked := db.accounts[i].booked - booked, available := db.accounts[i].available - available)
    requires forall n :: Sum(db'.holds, CommittedAt(n)) == Sum(db.holds, CommittedAt(n)) + If(n == a.number, booked)
    requires forall n :: Sum(db'.holds, TakenAt(n)) == Sum(db.holds, TakenAt(n)) + If(n == a.number, available)
    ensures NetEffect(db, db')
  {
    hide Sum;
    forall j | 0 <= j < |db.accounts| ensures j != i ==> db.accounts[j].number != a.number {
    }
  }

  lemma HoldStepEffect(db: Db, op: Op, now: int)
    requires Inv(db) && OnHolds(op) && Step(db, op, now).Ok?
    ensures NetEffect(db, Step(db, op, now).value)
  {
    hide RowOk, First, HoldsOk, FundsOk, Sum, NetEffect;
    var db' := Step(db, op, now).value;
    if db' == db {
      NoEffect(db);
    } else if op.DoReserve? {
      var h, i := db'.holds[|db.holds|], ByNumber(db.accounts, op.number).value;
      forall n ensures Sum(db'.holds, CommittedAt(n)) == Sum(db.holds, CommittedAt(n))
                       && Sum(db'.holds, TakenAt(n)) == Sum(db.holds, TakenAt(n)) + If(n == op.number, op.amount)
      {
        SumAppend(db.holds, h, CommittedAt(n));
        SumAppend(db.holds, h, TakenAt(n));
      }
      RowEffect(db, db', i, db'.accounts[i], 0, op.amount);
    } else {
      var h, h' := db.holds[op.id], db'.holds[op.id];
      var i := ByNumber(db.accounts, h.number).value;
      forall n ensures Sum(db'.holds, CommittedAt(n)) == Sum(db.holds, CommittedAt(n)) + If(n == h.number, If(op.DoCommit?, h.amount))
                       && Sum(db'.holds, TakenAt(n)) == Sum(db.holds, TakenAt(n)) + If(n == h.number, -If(op.DoRelease?, h.amount))
      {
        SumUpdate(db.holds, op.id, h', CommittedAt(n));
        SumUpdate(db.holds, op.id, h', TakenAt(n));
      }
      RowEffect(db, db', i, db'.accounts[i], If(op.DoCommit?, h.amount), -If(op.DoRelease?, h.amount));
    }
  }

  lemma NoEffect(db: Db)
    ensures NetEffect(db, db)
  {
  }

  /** Over every run of reserve, commit and release calls, repeated or failing ones included, each
      reservation's net effect is minus its amount on both balances once committed and nothing once
      released. */
  lemma {:induction false} ReservationsNetEffect(db: Db, events: seq<Event>)
    requires Inv(db) && forall k :: 0 <= k < |events| ==> OnHolds(events[k].op)
    ensures NetEffect(db, Run(db, events))
  {
    hide Inv, Step;
    if events != [] {
      var before, last := events[..|events| - 1], events[|events| - 1];
      EveryRunIsSafe(db, before);
      ReservationsNetEffect(db, before);
      if Step(Run(db, before), last.op, last.now).Ok? {
        HoldStepEffect(Run(db, before), last.op, last.now);
      }
    }
  }

  // The fee job

  function FeeIn(currency: string): Account -> int {
    (a: Account) => if a.currency == currency then FeeDue(a) else 0
  }

  function FeeAmount(): FeeRecord -> int {
    (r: FeeRecord) => r.amount
  }

  lemma {:induction false} ChargedTotals(accounts: seq<Account>, c: string)
    ensures Booked(MapRows(accounts, ChargeFee), c) == Booked(accounts, c) - Sum(accounts, FeeIn(c))
  {
    var n := |accounts| - 1;
    if n >= 0 {
      ChargedTotals(accounts[..n], c);
      assert MapRows(accounts, ChargeFee)[..n] == MapRows(accounts[..n], ChargeFee);
    }
  }

  /** One audit record per charged account, for exactly its fee, adding up to the total. */
  lemma {:induction false} AuditAddsUp(accounts: seq<Account>, bank: string)
    ensures Sum(FeeRecords(accounts, bank), FeeAmount()) == FeeTotal(accounts)
    ensures |FeeRecords(accounts, bank)| == Sum(accounts, Charged())
  {
    var n := |accounts| - 1;
    if n >= 0 {
      AuditAddsUp(accounts[..n], bank);
      assert FeeRecords(accounts[..n], bank) + [] == FeeRecords(accounts[..n], bank);
      SumAppend(FeeRecords(accounts[..n], bank), FeeRecord(accounts[n].number, bank, FeeDue(accounts[n])), FeeAmount());
    }
  }

  function Charged(): Account -> int {
    (a: Account) => if FeeDue(a) > 0 then 1 else 0
  }

  lemma FeeTotals(accounts: seq<Account>, bank: nat)
    requires bank < |accounts| && accounts[bank].currency == RSD
    ensures forall c :: Booked(FeesCharged(accounts, bank), c)
                        == Booked(accounts, c) - Sum(accounts, FeeIn(c))
                           + If(c == RSD, FeeTotal(accounts) + FeeDue(accounts[bank]))
  {
    hide FeeDue, Sum;
    var charged := MapRows(accounts, ChargeFee);
    var row := CreditRow(accounts[bank], FeeTotal(accounts));
    assert FeesCharged(accounts, bank) == charged[bank := row];
    BookedUpdate(charged, bank, row);
    forall c ensures Booked(charged, c) == Booked(accounts, c) - Sum(accounts, FeeIn(c)) {
      ChargedTotals(accounts, c);
    }
  }

  /** Every account that pays a fee is an RSD account other than the bank's own. */
  predicate FeesBalanced(accounts: seq<Account>, bank: nat) {
    forall i :: 0 <= i < |accounts| && FeeDue(accounts[i]) > 0 ==> accounts[i].currency == RSD && i != bank
  }

  lemma FeesInOneCurrency(accounts: seq<Account>, bank: nat, c: string)
    requires FeesBalanced(accounts, bank)
    ensures Sum(accounts, FeeIn(c)) == If(c == RSD, FeeTotal(accounts))
  {
    forall i | 0 <= i < |accounts| ensures FeeDue(accounts[i]) == 0 || accounts[i].currency == RSD {
      assert FeeDue(accounts[i]) >= 0;
    }
    if c == RSD {
      SumSame(accounts, FeeIn(c), accounts, FeeDue);
    } else {
      var none := (a: Account) => 0;
      SumSame(accounts, FeeIn(c), accounts, none);
      SumOfNone(accounts, none);
    }
  }

  lemma {:induction false} SumOfNone(accounts: seq<Account>, f: Account -> int)
    requires forall a :: f(a) == 0
    ensures Sum(accounts, f) == 0
  {
    if accounts != [] {
      SumOfNone(accounts[..|accounts| - 1], f);
    }
  }

  /** The fee job keeps every per-currency total if and only if each account it charges is an RSD
      account other than the bank's; otherwise the overwritten bank row creates money or the fee
      changes currency on its way. */
  lemma FeesConserveExactly(accounts: seq<Account>, bank: nat)
    requires bank < |accounts| && accounts[bank].currency == RSD
    ensures SameTotals(accounts, FeesCharged(accounts, bank)) <==> FeesBalanced(accounts, bank)
  {
    FeeTotals(accounts, bank);
    var after := FeesCharged(accounts, bank);
    if FeesBalanced(accounts, bank) {
      forall c ensures Booked(accounts, c) == Booked(after, c) {
        FeesInOneCurrency(accounts, bank, c);
      }
    } else {
      var i :| 0 <= i < |accounts| && FeeDue(accounts[i]) > 0 && !(accounts[i].currency == RSD && i != bank);
      var c := accounts[i].currency;
      SumBounds(accounts, FeeIn(c));
      assert FeeIn(c)(accounts[i]) > 0;
      if c == RSD {
        FeesNeverNegative(accounts, RSD);
        assert Booked(after, RSD) > Booked(accounts, RSD);
      } else {
        assert Booked(after, c) < Booked(accounts, c);
      }
    }
  }

  lemma {:induction false} FeesNeverNegative(accounts: seq<Account>, c: string)
    ensures Sum(accounts, FeeIn(c)) <= FeeTotal(accounts)
  {
    if accounts != [] {
      FeesNeverNegative(accounts[..|accounts| - 1], c);
    }
  }

  /** Each account other than the bank's loses exactly the fee due from it, and the bank's row gains
      exactly what the audit records add up to. */
  lemma FeesChargeExactly(db: Db, bankClient: int, bank: nat)
    requires bank < |db.accounts| && db.accounts[bank].owner == bankClient && db.accounts[bank].currency == RSD
    ensures var db' := MaintenanceFees(db, bankClient, bank);
            && |db'.accounts| == |db.accounts| && |db'.audit| >= |db.audit|
            && var records := db'.audit[|db.audit|..];
            && |records| == Sum(db.accounts, Charged())
            && db'.accounts[bank] == CreditRow(db.accounts[bank], Sum(records, FeeAmount()))
            && forall i :: 0 <= i < |db.accounts| && i != bank ==>
                 var a, b := db.accounts[i], db'.accounts[i];
                 (FeeDue(a) == 0 || a.fee == Some(FeeDue(a)))
                 && b == a.(booked := a.booked - FeeDue(a), available := a.available - FeeDue(a))
  {
    var db' := MaintenanceFees(db, bankClient, bank);
    AuditAddsUp(db.accounts, db.accounts[bank].number);
    assert db'.audit[|db.audit|..] == FeeRecords(db.accounts, db.accounts[bank].number);
  }

  // Whole runs

  function FundKept(): Fund -> int {
    (f: Fund) => if f.status == Released then 0 else f.amount
  }

  function CommittedIn(currency: string): Hold -> int {
    (h: Hold) => if h.status == Committed && h.currency == currency then h.amount else 0
  }

  /** Booked money, money set aside in fund reservations, and money sent to other banks. */
  function Kept(db: Db, c: string): int {
    Booked(db.accounts, c) + If(c == RSD, Sum(db.funds, FundKept())) + Sum(db.holds, CommittedIn(c))
  }

  /** Transactions that bring no money in or out and keep currencies apart. */
  predicate Conserving(db: Db, op: Op) {
    match op
    case DoDebit(_, _, _) => false
    case DoCredit(_, _, _) => false
    case DoOpen(_, _, _, balance, _, _) => balance == 0
    case DoPayment(p, _) => PaymentBalanced(db.accounts, p)
    case DoTransfer(f, t, _, _) => CurrencyOf(db.accounts, f) == CurrencyOf(db.accounts, t)
    case DoReverse(id) =>
      id < |db.transfers| ==>
        CurrencyOf(db.accounts, db.transfers[id].from) == CurrencyOf(db.accounts, db.transfers[id].to)
    case DoFees(_, b) => FeesBalanced(db.accounts, b)
    case _ => true
  }

  ghost predicate SameKept(db: Db, db': Db) {
    forall c :: Kept(db, c) == Kept(db', c)
  }

  lemma KnownCurrency(accounts: seq<Account>, number: string, currency: string)
    requires Distinct(accounts) && Known(accounts, number, currency) && ByNumber(accounts, number).Ok?
    ensures CurrencyOf(accounts, number) == currency
  {
    var i :| 0 <= i < |accounts| && accounts[i].number == number && accounts[i].currency == currency;
    assert i == ByNumber(accounts, number).value;
  }

  lemma HoldStepConserves(db: Db, op: Op, now: int)
    requires Inv(db) && (op.DoReserve? || op.DoCommit? || op.DoRelease?) && Step(db, op, now).Ok?
    ensures SameKept(db, Step(db, op, now).value)
  {
    hide RowOk, First, Booked, HeldFor, FundsOk;
    var db' := Step(db, op, now).value;
    if db' != db {
      var i := ByNumber(db.accounts, if op.DoReserve? then op.number else db.holds[op.id].number).value;
      BookedUpdate(db.accounts, i, db'.accounts[i]);
      forall c ensures Kept(db, c) == Kept(db', c) {
        if op.DoReserve? {
          SumAppend(db.holds, db'.holds[|db.holds|], CommittedIn(c));
        } else {
          KnownCurrency(db.accounts, db.holds[op.id].number, db.holds[op.id].currency);
          SumUpdate(db.holds, op.id, db'.holds[op.id], CommittedIn(c));
        }
      }
    }
  }

  lemma FundStepConserves(db: Db, op: Op, now: int)
    requires Inv(db) && (op.DoReserveFunds? || op.DoReleaseFunds? || op.DoCommitFunds?) && Step(db, op, now).Ok?
    ensures SameKept(db, Step(db, op, now).value)
  {
    hide RowOk, First;
    var db' := Step(db, op, now).value;
    match op {
      case DoReserveFunds(owner, amount) =>
        var i := ByOwner(db.accounts, owner, RSD).value;
        ByNumberOfRow(db.accounts, i);
        DebitKeeps(db.accounts, db.holds, db.accounts[i].number, amount, owner, now);
        SumAppend(db.funds, db'.funds[|db.funds|], FundKept());
      case DoReleaseFunds(id) =>
        if db' != db {
          var f := db.funds[id];
          KnownCurrency(db.accounts, f.number, RSD);
          CreditKeeps(db.accounts, db.holds, f.number, f.amount, f.owner, now);
          SumUpdate(db.funds, id, db'.funds[id], FundKept());
        }
      case DoCommitFunds(id) =>
        if db' != db {
          SumUpdate(db.funds, id, db'.funds[id], FundKept());
        }
    }
  }

  lemma MoneyStepConserves(db: Db, op: Op, now: int)
    requires Inv(db) && MovesMoney(op) && Conserving(db, op) && Step(db, op, now).Ok?
    ensures SameKept(db, Step(db, op, now).value)
  {
    hide AccountsOk, PaymentOperation, BankTransaction, TransferTx, ReverseTx, First;
    match op {
      case DoPayment(p, same) => PaymentConservesExactly(db.accounts, db.holds, p, same, now);
      case DoBankTransaction(f, t, x) => BankTransactionKeeps(db.accounts, db.holds, f, t, x, now);
      case DoTransfer(f, t, x, q) => TransferKeeps(db.accounts, db.holds, f, t, x, q, now);
      case DoReverse(id) =>
        if id < |db.transfers| && db.transfers[id].status == Completed {
          ReverseKeeps(db.accounts, db.holds, db.transfers[id], now);
        }
    }
  }

  lemma SameBookings(accounts: seq<Account>, accounts': seq<Account>)
    requires |accounts| == |accounts'|
    requires forall i :: 0 <= i < |accounts| ==>
               accounts[i].currency == accounts'[i].currency && accounts[i].booked == accounts'[i].booked
    ensures SameTotals(accounts, accounts')
  {
    forall c ensures Booked(accounts, c) == Booked(accounts', c) {
      SumSame(accounts, BookedIn(c), accounts', BookedIn(c));
    }
  }

  lemma MapConserves(accounts: seq<Account>, f: Account -> Account)
    requires forall a :: f(a).currency == a.currency && f(a).booked == a.booked
    ensures SameTotals(accounts, MapRows(accounts, f))
  {
    SameBookings(accounts, MapRows(accounts, f));
  }

  lemma FeesAndOpeningsConserve(db: Db, op: Op, now: int)
    requires (op.DoFees? || op.DoOpen?) && Conserving(db, op) && Step(db, op, now).Ok?
    ensures SameKept(db, Step(db, op, now).value)
  {
    hide First, FeesCharged, FeeRecords, FeesBalanced;
    var db' := Step(db, op, now).value;
    match op {
      case DoFees(c, b) =>
        if db' != db {
          FeesConserveExactly(db.accounts, b);
        }
      case DoOpen(n, o, currency, b, k, e) =>
        forall c ensures Booked(db'.accounts, c) == Booked(db.accounts, c) {
          SumAppend(db.accounts, Opened(n, o, currency, b, k, e), BookedIn(c));
        }
    }
  }

  lemma UpkeepConserves(db: Db, op: Op, now: int)
    requires op.DoResetDay? || op.DoResetMonth? || op.DoEditLimits? || op.DoEditStatus? || op.DoErase?
    requires Step(db, op, now).Ok?
    ensures SameKept(db, Step(db, op, now).value)
  {
    hide First, Booked;
    var db' := Step(db, op, now).value;
    match op {
      case DoEditLimits(_, _, _, _, _) => SameBookings(db.accounts, db'.accounts);
      case DoEditStatus(_, _) => SameBookings(db.accounts, db'.accounts);
      case DoResetDay => MapConserves(db.accounts, DayReset);
      case DoResetMonth => MapConserves(db.accounts, MonthReset);
      case DoErase(c) => MapConserves(db.accounts, Erased(c));
    }
  }

  lemma StepConserves(db: Db, op: Op, now: int)
    requires Inv(db) && Conserving(db, op)
    ensures SameKept(db, Apply(db, op, now))
  {
    hide Inv, SameKept;
    if Step(db, op, now).Err? {
      assert SameKept(db, db) by { KeptReflexive(db); }
    } else if MovesMoney(op) {
      MoneyStepConserves(db, op, now);
    } else if op.DoReserve? || op.DoCommit? || op.DoRelease? {
      HoldStepConserves(db, op, now);
    } else if op.DoReserveFunds? || op.DoReleaseFunds? || op.DoCommitFunds? {
      FundStepConserves(db, op, now);
    } else if op.DoFees? || op.DoOpen? {
      FeesAndOpeningsConserve(db, op, now);
    } else {
      UpkeepConserves(db, op, now);
    }
  }

  lemma KeptReflexive(db: Db)
    ensures SameKept(db, db)
  {
  }

  /** Every transaction of the run is conserving in the state it meets. */
  predicate ConservingRun(db: Db, events: seq<Event>) {
    events != [] ==>
      && ConservingRun(db, events[..|events| - 1])
      && Conserving(Run(db, events[..|events| - 1]), events[|events| - 1].op)
  }

  /** Over a whole run of payments, transfers, reversals, reservations, fees, resets and edits the
      money of each currency, counting reserved funds and money sent to other banks, is unchanged. */
  lemma {:induction false} RunConserves(db: Db, events: seq<Event>)
    requires Inv(db) && ConservingRun(db, events)
    ensures SameKept(db, Run(db, events))
  {
    if events != [] {
      var before, last := events[..|events| - 1], events[|events| - 1];
      EveryRunIsSafe(db, before);
      RunConserves(db, before);
      StepConserves(Run(db, before), last.op, last.now);
    }
  }
}
