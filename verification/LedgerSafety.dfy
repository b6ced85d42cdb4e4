/** What every transaction keeps, and what a run made of any transactions keeps:
    booked minus available is the sum of the HELD interbank reservations, available money is never
    negative, and the spending counters mean what they say. Beside it, the effect of every money
    movement on the per-currency totals. */
module LedgerSafety {
  import opened Common
  import opened Accounts
  import opened Ledger

  predicate Known(accounts: seq<Account>, number: string, currency: string) {
    exists i :: 0 <= i < |accounts| && accounts[i].number == number && accounts[i].currency == currency
  }

  predicate HoldsOk(accounts: seq<Account>, holds: seq<Hold>) {
    forall k :: 0 <= k < |holds| ==> holds[k].amount > 0 && Known(accounts, holds[k].number, holds[k].currency)
  }

  predicate FundsOk(accounts: seq<Account>, funds: seq<Fund>) {
    forall k :: 0 <= k < |funds| ==> funds[k].amount > 0 && Known(accounts, funds[k].number, RSD)
  }

  predicate Inv(db: Db) {
    AccountsOk(db.accounts, db.holds) && HoldsOk(db.accounts, db.holds) && FundsOk(db.accounts, db.funds)
  }

  /** Rows are appended, never renamed. */
  predicate Extends(accounts: seq<Account>, accounts': seq<Account>) {
    && |accounts| <= |accounts'|
    && forall i :: 0 <= i < |accounts| ==>
         accounts[i].number == accounts'[i].number && accounts[i].currency == accounts'[i].currency
  }

  lemma KnownExtends(accounts: seq<Account>, accounts': seq<Account>, number: string, currency: string)
    requires Extends(accounts, accounts') && Known(accounts, number, currency)
    ensures Known(accounts', number, currency)
  {
    var i :| 0 <= i < |accounts| && accounts[i].number == number && accounts[i].currency == currency;
    assert accounts'[i].number == number;
  }

  lemma ReferencesExtend(db: Db, accounts: seq<Account>)
    requires Inv(db) && Extends(db.accounts, accounts)
    ensures HoldsOk(accounts, db.holds) && FundsOk(accounts, db.funds)
  {
    forall k | 0 <= k < |db.holds| ensures Known(accounts, db.holds[k].number, db.holds[k].currency) {
      KnownExtends(db.accounts, accounts, db.holds[k].number, db.holds[k].currency);
    }
    forall k | 0 <= k < |db.funds| ensures Known(accounts, db.funds[k].number, RSD) {
      KnownExtends(db.accounts, accounts, db.funds[k].number, RSD);
    }
  }

  // Transactions that only move money between accounts

  /** What a payment adds to the booked total of currency `c`. */
  function PaymentDelta(from: Account, to: Account, p: Payment, c: string): int {
    if from.currency == to.currency then If(c == from.currency, p.toAmount - p.fromAmount)
    else if to.owner == BANK then If(c == to.currency, p.toAmount) - If(c == from.currency, p.fromAmount)
    else 0
  }

  lemma MoveKeeps(accounts: seq<Account>, holds: seq<Hold>, from: string, x: int, fromOwner: int,
                  to: string, y: int, toOwner: int, now: int)
    requires AccountsOk(accounts, holds)
    requires Move(accounts, from, x, fromOwner, to, y, toOwner, now).Ok?
    ensures var after := Move(accounts, from, x, fromOwner, to, y, toOwner, now).value;
            && AccountsOk(after, holds) && SameRows(accounts, after)
            && forall c :: Booked(after, c) == Booked(accounts, c) - If(c == CurrencyOf(accounts, from), x)
                                               + If(c == CurrencyOf(accounts, to), y)
  {
    DebitKeeps(accounts, holds, from, x, fromOwner, now);
    var debited := Debit(accounts, from, x, fromOwner, now).value;
    SameLookup(accounts, debited, to);
    CreditKeeps(debited, holds, to, y, toOwner, now);
  }

  /** What a debit demands of the row it is made on. */
  predicate Debitable(a: Account, x: int, client: int, now: int) {
    && Mutable(a, client, now) && a.available >= x
    && Within(a.daily + x, a.dailyLimit) && Within(a.monthly + x, a.monthlyLimit)
    && (a.dailyRemaining.Some? ==> a.dailyRemaining.value >= x)
  }

  /** A debit and credit go through if and only if both amounts are positive, both accounts are live, the
      first can be debited and the second is open to its client. */
  lemma MoveSucceedsExactly(accounts: seq<Account>, from: string, x: int, fromOwner: int, to: string, y: int, toOwner: int, now: int)
    ensures var f, t := ByNumber(accounts, from), ByNumber(accounts, to);
            Move(accounts, from, x, fromOwner, to, y, toOwner, now).Ok?
            <==> x > 0 && y > 0 && f.Ok? && t.Ok? && Debitable(accounts[f.value], x, fromOwner, now)
                 && Mutable(accounts[t.value], toOwner, now)
  {
    hide First;
    var debited := Debit(accounts, from, x, fromOwner, now);
    if debited.Ok? {
      assert SameRows(accounts, debited.value);
      SameLookup(accounts, debited.value, to);
    }
  }

  lemma CreditBankKeeps(accounts: seq<Account>, holds: seq<Hold>, currency: string, amount: int, now: int)
    requires AccountsOk(accounts, holds) && CreditBank(accounts, currency, amount, now).Ok?
    ensures var after := CreditBank(accounts, currency, amount, now).value;
            && AccountsOk(after, holds) && SameRows(accounts, after)
            && forall c :: Booked(after, c) == Booked(accounts, c) + If(c == currency, amount)
  {
    var b := ByOwner(accounts, BANK, currency).value;
    ByNumberOfRow(accounts, b);
    CreditKeeps(accounts, holds, accounts[b].number, amount, accounts[b].owner, now);
  }

  /** Two moves in a row, each within one currency. */
  lemma MovesKeep(accounts: seq<Account>, holds: seq<Hold>, taken: seq<Account>, from: string, x: int, fromOwner: int,
                  to: string, toOwner: int, now: int)
    requires AccountsOk(taken, holds) && SameRows(accounts, taken)
    requires forall c :: Booked(taken, c) == Booked(accounts, c)
    requires CurrencyOf(accounts, from) == CurrencyOf(accounts, to)
    requires Move(taken, from, x, fromOwner, to, x, toOwner, now).Ok?
    ensures var after := Move(taken, from, x, fromOwner, to, x, toOwner, now).value;
            && AccountsOk(after, holds) && SameRows(accounts, after)
            && forall c :: Booked(after, c) == Booked(accounts, c)
  {
    SameLookup(accounts, taken, from);
    SameLookup(accounts, taken, to);
    MoveKeeps(taken, holds, from, x, fromOwner, to, x, toOwner, now);
  }

  lemma ExchangeKeeps(accounts: seq<Account>, holds: seq<Hold>, from: Account, to: Account,
                      sender: Account, target: Account, p: Payment, now: int)
    requires AccountsOk(accounts, holds)
    requires CurrencyOf(accounts, from.number) == CurrencyOf(accounts, sender.number)
    requires CurrencyOf(accounts, to.number) == CurrencyOf(accounts, target.number)
    requires ExchangeTx(accounts, from, to, sender, target, p, now).Ok?
    ensures var after := ExchangeTx(accounts, from, to, sender, target, p, now).value;
            && AccountsOk(after, holds) && SameRows(accounts, after)
            && forall c :: Booked(after, c) == Booked(accounts, c)
  {
    hide Move, AccountsOk, Booked, CurrencyOf;
    var x := p.fromAmount + p.commission;
    MovesKeep(accounts, holds, accounts, from.number, x, from.owner, sender.number, sender.owner, now);
    var taken := Move(accounts, from.number, x, from.owner, sender.number, x, sender.owner, now).value;
    MovesKeep(accounts, holds, taken, target.number, p.toAmount, target.owner, to.number, to.owner, now);
  }

  lemma ByNumberOfRow(accounts: seq<Account>, i: nat)
    requires Distinct(accounts) && i < |accounts| && !accounts[i].deleted
    ensures ByNumber(accounts, accounts[i].number) == Ok(i)
    ensures CurrencyOf(accounts, accounts[i].number) == accounts[i].currency
  {
    assert Live(accounts[i].number)(accounts[i]);
  }

  lemma DomesticKeeps(accounts: seq<Account>, holds: seq<Hold>, from: Account, to: Account, p: Payment, now: int)
    requires AccountsOk(accounts, holds)
    requires from.currency == to.currency == CurrencyOf(accounts, from.number) == CurrencyOf(accounts, to.number)
    requires PaymentTx(accounts, from, to, p, now).Ok?
    ensures var after := PaymentTx(accounts, from, to, p, now).value;
            && AccountsOk(after, holds) && SameRows(accounts, after)
            && forall c :: Booked(after, c) == Booked(accounts, c) + If(c == from.currency, p.toAmount - p.fromAmount)
  {
    hide Move, CreditBank, AccountsOk, Booked, CurrencyOf;
    var x := p.fromAmount + p.commission;
    MoveKeeps(accounts, holds, from.number, x, from.owner, to.number, p.toAmount, to.owner, now);
    if p.commission > 0 {
      var moved := Move(accounts, from.number, x, from.owner, to.number, p.toAmount, to.owner, now).value;
      CreditBankKeeps(moved, holds, from.currency, p.commission, now);
    }
  }

  lemma PaymentTxKeeps(accounts: seq<Account>, holds: seq<Hold>, f: nat, t: nat, p: Payment, now: int)
    requires AccountsOk(accounts, holds)
    requires f < |accounts| && t < |accounts| && !accounts[f].deleted && !accounts[t].deleted
    requires PaymentTx(accounts, accounts[f], accounts[t], p, now).Ok?
    ensures var after := PaymentTx(accounts, accounts[f], accounts[t], p, now).value;
            && AccountsOk(after, holds) && SameRows(accounts, after)
            && forall c :: Booked(after, c)
                           == Booked(accounts, c) + PaymentDelta(accounts[f], accounts[t], p, c)
  {
    hide Move, CreditBank, ExchangeTx, Booked, RowOk, First;
    var from, to := accounts[f], accounts[t];
    ByNumberOfRow(accounts, f);
    ByNumberOfRow(accounts, t);
    if from.currency == to.currency {
      DomesticKeeps(accounts, holds, from, to, p, now);
    } else if to.owner == BANK {
      MoveKeeps(accounts, holds, from.number, p.fromAmount, from.owner, to.number, p.toAmount, to.owner, now);
    } else {
      var sender := ByOwner(accounts, BANK, from.currency).value;
      var target := ByOwner(accounts, BANK, to.currency).value;
      ByNumberOfRow(accounts, sender);
      ByNumberOfRow(accounts, target);
      ExchangeKeeps(accounts, holds, from, to, accounts[sender], accounts[target], p, now);
    }
  }

  lemma PaymentKeeps(accounts: seq<Account>, holds: seq<Hold>, p: Payment, sameOwner: bool, now: int)
    requires AccountsOk(accounts, holds)
    requires PaymentOperation(accounts, p, sameOwner, now).Ok?
    ensures var after := PaymentOperation(accounts, p, sameOwner, now).value;
            var f, t := ByNumber(accounts, p.from), ByNumber(accounts, p.to);
            && f.Ok? && t.Ok?
            && AccountsOk(after, holds) && SameRows(accounts, after)
            && forall c :: Booked(after, c)
                           == Booked(accounts, c) + PaymentDelta(accounts[f.value], accounts[t.value], p, c)
  {
    PaymentTxKeeps(accounts, holds, ByNumber(accounts, p.from).value, ByNumber(accounts, p.to).value, p, now);
  }

  lemma BankTransactionKeeps(accounts: seq<Account>, holds: seq<Hold>, from: string, to: string, amount: int, now: int)
    requires AccountsOk(accounts, holds)
    requires BankTransaction(accounts, from, to, amount, now).Ok?
    ensures var after := BankTransaction(accounts, from, to, amount, now).value;
            && AccountsOk(after, holds) && SameRows(accounts, after)
            && forall c :: Booked(after, c) == Booked(accounts, c)
  {
    var client := ByNumber(accounts, if from == "" then to else from).value;
    var bank := ByOwner(accounts, BANK, accounts[client].currency).value;
    ByNumberOfRow(accounts, client);
    ByNumberOfRow(accounts, bank);
    var s, r := if from == "" then bank else client, if from == "" then client else bank;
    MoveKeeps(accounts, holds, accounts[s].number, amount, accounts[s].owner,
              accounts[r].number, amount, accounts[r].owner, now);
  }

  /** What a transfer adds to the booked total of currency `c`. */
  function TransferDelta(accounts: seq<Account>, from: string, to: string, amount: int, quote: Option<Quote>, c: string): int {
    if CurrencyOf(accounts, from) == CurrencyOf(accounts, to) || quote.None? then 0
    else If(c == CurrencyOf(accounts, to), quote.value.credited)
         - If(c == CurrencyOf(accounts, from), amount - quote.value.commission)
  }

  lemma TransferKeeps(accounts: seq<Account>, holds: seq<Hold>, from: string, to: string, amount: int,
                      quote: Option<Quote>, now: int)
    requires AccountsOk(accounts, holds)
    requires TransferTx(accounts, from, to, amount, quote, now).Ok?
    ensures var after := TransferTx(accounts, from, to, amount, quote, now).value;
            && AccountsOk(after, holds) && SameRows(accounts, after)
            && forall c :: Booked(after, c) == Booked(accounts, c) + TransferDelta(accounts, from, to, amount, quote, c)
  {
    var s, t := ByNumber(accounts, from).value, ByNumber(accounts, to).value;
    if accounts[s].currency == accounts[t].currency {
      MoveKeeps(accounts, holds, from, amount, accounts[s].owner, to, amount, accounts[t].owner, now);
    } else {
      MoveKeeps(accounts, holds, from, amount, accounts[s].owner, to, quote.value.credited, accounts[t].owner, now);
      var moved := Move(accounts, from, amount, accounts[s].owner, to, quote.value.credited, accounts[t].owner, now).value;
      CreditBankKeeps(moved, holds, accounts[s].currency, quote.value.commission, now);
    }
  }

  lemma ReverseKeeps(accounts: seq<Account>, holds: seq<Hold>, log: Transfer, now: int)
    requires AccountsOk(accounts, holds)
    requires ReverseTx(accounts, log, now).Ok?
    ensures var after := ReverseTx(accounts, log, now).value;
            && AccountsOk(after, holds) && SameRows(accounts, after)
            && forall c :: Booked(after, c) == Booked(accounts, c) + If(c == CurrencyOf(accounts, log.from), log.amount)
                                               - If(c == CurrencyOf(accounts, log.to), log.amount)
  {
    var s, t := ByNumber(accounts, log.to).value, ByNumber(accounts, log.from).value;
    MoveKeeps(accounts, holds, log.to, log.amount, accounts[s].owner, log.from, log.amount, accounts[t].owner, now);
  }

  // Interbank reservations

  lemma HeldForAppend(holds: seq<Hold>, h: Hold)
    ensures forall n :: HeldFor(holds + [h], n) == HeldFor(holds, n) + If(h.status == Held && h.number == n, h.amount)
  {
    forall n ensures HeldFor(holds + [h], n) == HeldFor(holds, n) + If(h.status == Held && h.number == n, h.amount) {
      SumAppend(holds, h, HeldOf(n));
    }
  }

  lemma HeldForFinalise(holds: seq<Hold>, id: nat, status: HoldStatus)
    requires id < |holds| && holds[id].status == Held && status != Held
    ensures forall n :: HeldFor(holds[id := holds[id].(status := status)], n)
                        == HeldFor(holds, n) - If(holds[id].number == n, holds[id].amount)
  {
    var h := holds[id].(status := status);
    forall n ensures HeldFor(holds[id := h], n) == HeldFor(holds, n) - If(holds[id].number == n, holds[id].amount) {
      SumUpdate(holds, id, h, HeldOf(n));
    }
  }

  lemma HeldForNonNegative(accounts: seq<Account>, holds: seq<Hold>, number: string)
    requires HoldsOk(accounts, holds)
    ensures HeldFor(holds, number) >= 0
    ensures forall k :: 0 <= k < |holds| && holds[k].status == Held && holds[k].number == number ==>
              holds[k].amount <= HeldFor(holds, number)
  {
    assert forall k :: 0 <= k < |holds| ==> HeldOf(number)(holds[k]) >= 0;
    SumBounds(holds, HeldOf(number));
    forall k | 0 <= k < |holds| && holds[k].status == Held && holds[k].number == number
      ensures holds[k].amount <= HeldFor(holds, number)
    {
      assert HeldOf(number)(holds[k]) == holds[k].amount;
    }
  }

  lemma ReserveKeeps(db: Db, number: string, currency: string, amount: int, local: string)
    requires Inv(db) && ReserveHold(db, number, currency, amount, local).Ok?
    ensures Inv(ReserveHold(db, number, currency, amount, local).value)
  {
    var db' := ReserveHold(db, number, currency, amount, local).value;
    HeldForAppend(db.holds, Hold(number, currency, amount, Held));
    ReferencesExtend(db, db'.accounts);
    assert Known(db'.accounts, number, currency) by {
      assert db'.accounts[ByNumber(db.accounts, number).value].number == number;
    }
  }

  lemma FinaliseKeeps(db: Db, id: nat, status: HoldStatus, i: nat, a: Account)
    requires Inv(db) && id < |db.holds| && db.holds[id].status == Held && status != Held
    requires i < |db.accounts| && db.accounts[i].number == db.holds[id].number
    requires a == db.accounts[i].(booked := a.booked, available := a.available)
    requires a.available >= 0
    requires a.booked - a.available == db.accounts[i].booked - db.accounts[i].available - db.holds[id].amount
    ensures Inv(db.(accounts := db.accounts[i := a], holds := db.holds[id := db.holds[id].(status := status)]))
  {
    HeldForFinalise(db.holds, id, status);
    var accounts, holds := db.accounts[i := a], db.holds[id := db.holds[id].(status := status)];
    forall j | 0 <= j < |accounts| ensures RowOk(accounts[j], HeldFor(holds, accounts[j].number)) {
      assert RowOk(db.accounts[j], HeldFor(db.holds, db.accounts[j].number));
      assert j != i ==> db.accounts[j].number != db.accounts[i].number;
    }
    ReferencesExtend(db, accounts);
  }

  lemma CommitKeeps(db: Db, id: nat)
    requires Inv(db) && CommitHold(db, id).Ok?
    ensures Inv(CommitHold(db, id).value)
  {
    hide First, HeldFor, Known, SpendOk, Distinct, HoldsOk, FundsOk;
    if db.holds[id].status == Held {
      var i := ByNumber(db.accounts, db.holds[id].number).value;
      FinaliseKeeps(db, id, Committed, i, db.accounts[i].(booked := db.accounts[i].booked - db.holds[id].amount));
    }
  }

  lemma ReleaseKeeps(db: Db, id: nat)
    requires Inv(db) && ReleaseHold(db, id).Ok?
    ensures Inv(ReleaseHold(db, id).value)
  {
    hide First, HeldFor, Known, SpendOk, Distinct, FundsOk;
    if db.holds[id].status == Held {
      var i := ByNumber(db.accounts, db.holds[id].number).value;
      FinaliseKeeps(db, id, Released, i, db.accounts[i].(available := db.accounts[i].available + db.holds[id].amount));
    }
  }

  /** Commit checks no balance, yet on a live account it never drives the booked balance below what
      is still reserved there, let alone below zero. */
  lemma CommitNeedsNoCheck(db: Db, id: nat)
    requires Inv(db) && id < |db.holds| && db.holds[id].status == Held
    requires ByNumber(db.accounts, db.holds[id].number).Ok?
    ensures CommitHold(db, id).Ok?
    ensures var i := ByNumber(db.accounts, db.holds[id].number).value;
            var after := CommitHold(db, id).value.accounts[i];
            after.booked == db.accounts[i].booked - db.holds[id].amount
            && after.booked >= after.available == db.accounts[i].available >= 0
  {
    CommitKeeps(db, id);
    HeldForNonNegative(db.accounts, db.holds, db.holds[id].number);
  }

  // Fund reservations, fees, resets and account maintenance

  lemma FundsKeep(db: Db, op: Op, now: int)
    requires Inv(db) && (op.DoReserveFunds? || op.DoReleaseFunds? || op.DoCommitFunds?)
    requires Step(db, op, now).Ok?
    ensures Inv(Step(db, op, now).value)
  {
    hide Debit, Credit, AccountsOk, HoldsOk, First, HeldFor;
    var db' := Step(db, op, now).value;
    match op {
      case DoReserveFunds(owner, amount) =>
        var i := ByOwner(db.accounts, owner, RSD).value;
        DebitKeeps(db.accounts, db.holds, db.accounts[i].number, amount, owner, now);
        ReferencesExtend(db, db'.accounts);
        assert Known(db'.accounts, db.accounts[i].number, RSD) by {
          assert db'.accounts[i].number == db.accounts[i].number;
        }
      case DoReleaseFunds(id) =>
        if db' != db {
          CreditKeeps(db.accounts, db.holds, db.funds[id].number, db.funds[id].amount, db.funds[id].owner, now);
          ReferencesExtend(db, db'.accounts);
        }
      case DoCommitFunds(id) =>
    }
  }

  lemma FeesKeep(db: Db, bankClient: int, bank: nat)
    requires Inv(db)
    ensures Inv(MaintenanceFees(db, bankClient, bank))
  {
    hide HeldFor, Tally, Known;
    var db' := MaintenanceFees(db, bankClient, bank);
    SumBounds(db.accounts, FeeDue);
    ReferencesExtend(db, db'.accounts);
  }

  lemma MapKeeps(db: Db, f: Account -> Account)
    requires Inv(db)
    requires forall a, held :: RowOk(a, held) ==> RowOk(f(a), held)
    requires forall a :: f(a).number == a.number && f(a).currency == a.currency
    ensures Inv(db.(accounts := MapRows(db.accounts, f)))
  {
    ReferencesExtend(db, MapRows(db.accounts, f));
  }

  lemma OpenKeeps(db: Db, number: string, owner: int, currency: string, balance: nat, checking: bool, expires: int)
    requires Inv(db) && OpenAccount(db.accounts, number, owner, currency, balance, checking, expires).Ok?
    ensures Inv(db.(accounts := OpenAccount(db.accounts, number, owner, currency, balance, checking, expires).value))
  {
    var after := OpenAccount(db.accounts, number, owner, currency, balance, checking, expires).value;
    ReferencesExtend(db, after);
    assert forall i :: 0 <= i < |db.accounts| ==> !NumberIs(number)(db.accounts[i]);
    forall k | 0 <= k < |db.holds| ensures HeldOf(number)(db.holds[k]) == 0 {
      assert Known(db.accounts, db.holds[k].number, db.holds[k].currency);
    }
    SumSame(db.holds, HeldOf(number), db.holds, (h: Hold) => 0);
    ZeroSum(db.holds);
    assert HeldFor(db.holds, number) == 0;
  }

  lemma {:induction false} ZeroSum(holds: seq<Hold>)
    ensures Sum(holds, (h: Hold) => 0) == 0
  {
    if holds != [] {
      ZeroSum(holds[..|holds| - 1]);
    }
  }

  // Runs

  lemma AccountsStep(db: Db, accounts: seq<Account>)
    requires Inv(db) && AccountsOk(accounts, db.holds) && SameRows(db.accounts, accounts)
    ensures Inv(db.(accounts := accounts))
  {
    ReferencesExtend(db, accounts);
  }

  predicate MovesMoney(op: Op) {
    op.DoDebit? || op.DoCredit? || op.DoPayment? || op.DoBankTransaction? || op.DoTransfer? || op.DoReverse?
  }

  lemma MoneyStepKeeps(db: Db, op: Op, now: int)
    requires Inv(db) && MovesMoney(op) && Step(db, op, now).Ok?
    ensures var db' := Step(db, op, now).value;
            && AccountsOk(db'.accounts, db.holds) && SameRows(db.accounts, db'.accounts)
            && db'.holds == db.holds && db'.funds == db.funds
  {
    match op {
      case DoDebit(n, x, c) => DebitKeeps(db.accounts, db.holds, n, x, c, now);
      case DoCredit(n, x, c) => CreditKeeps(db.accounts, db.holds, n, x, c, now);
      case DoPayment(p, same) => PaymentKeeps(db.accounts, db.holds, p, same, now);
      case DoBankTransaction(f, t, x) => BankTransactionKeeps(db.accounts, db.holds, f, t, x, now);
      case DoTransfer(f, t, x, q) => TransferKeeps(db.accounts, db.holds, f, t, x, q, now);
      case DoReverse(id) =>
        if id < |db.transfers| && db.transfers[id].status == Completed {
          ReverseKeeps(db.accounts, db.holds, db.transfers[id], now);
        }
    }
  }

  lemma EditsKeep(db: Db, op: Op, now: int)
    requires Inv(db) && (op.DoEditLimits? || op.DoEditStatus?) && Step(db, op, now).Ok?
    ensures var db' := Step(db, op, now).value;
            AccountsOk(db'.accounts, db.holds) && SameRows(db.accounts, db'.accounts)
  {
    var i := ByNumber(db.accounts, op.number).value;
    var a := db.accounts[i];
    UpdateKeeps(db.accounts, db.holds, i,
                if op.DoEditLimits? then a.(dailyLimit := Some(op.daily), monthlyLimit := Some(op.monthly))
                else a.(status := op.status));
  }

  lemma StepKeepsInv(db: Db, op: Op, now: int)
    requires Inv(db) && Step(db, op, now).Ok?
    ensures Inv(Step(db, op, now).value)
  {
    hide AccountsOk, HoldsOk, FundsOk, SameRows;
    if MovesMoney(op) {
      MoneyStepKeeps(db, op, now);
      AccountsStep(db, Step(db, op, now).value.accounts);
    } else if op.DoEditLimits? || op.DoEditStatus? {
      EditsKeep(db, op, now);
      AccountsStep(db, Step(db, op, now).value.accounts);
    } else if op.DoReserveFunds? || op.DoReleaseFunds? || op.DoCommitFunds? {
      FundsKeep(db, op, now);
    } else {
      OtherStepKeeps(db, op, now);
    }
  }

  lemma OtherStepKeeps(db: Db, op: Op, now: int)
    requires Inv(db) && Step(db, op, now).Ok?
    requires op.DoReserve? || op.DoCommit? || op.DoRelease? || op.DoFees? || op.DoResetDay? || op.DoResetMonth?
             || op.DoErase? || op.DoOpen?
    ensures Inv(Step(db, op, now).value)
  {
    hide Inv, ReserveHold, CommitHold, ReleaseHold, MaintenanceFees, OpenAccount;
    match op {
      case DoReserve(n, c, x, l) => ReserveKeeps(db, n, c, x, l);
      case DoCommit(id) => CommitKeeps(db, id);
      case DoRelease(id) => ReleaseKeeps(db, id);
      case DoFees(c, b) => FeesKeep(db, c, b);
      case DoResetDay => MapKeeps(db, DayReset);
      case DoResetMonth => MapKeeps(db, MonthReset);
      case DoErase(c) => MapKeeps(db, Erased(c));
      case DoOpen(n, o, c, b, k, e) => OpenKeeps(db, n, o, c, b, k, e);
    }
  }

  /** In every run of any transactions, in any order, succeeding or failing: each account has booked
      minus available equal to its HELD interbank reservations, available at least zero, sound
      spending counters, and so a booked balance of at least zero. */
  lemma {:induction false} EveryRunIsSafe(db: Db, events: seq<Event>)
    requires Inv(db)
    ensures Inv(Run(db, events))
    ensures forall i :: 0 <= i < |Run(db, events).accounts| ==>
              var a := Run(db, events).accounts[i];
              a.booked - a.available == HeldFor(Run(db, events).holds, a.number)
              && a.booked >= a.available >= 0
  {
    if events != [] {
      var before := Run(db, events[..|events| - 1]);
      var last := events[|events| - 1];
      EveryRunIsSafe(db, events[..|events| - 1]);
      if Step(before, last.op, last.now).Ok? {
        StepKeepsInv(before, last.op, last.now);
      }
    }
    var after := Run(db, events);
    forall i | 0 <= i < |after.accounts| ensures after.accounts[i].booked >= after.accounts[i].available {
      HeldForNonNegative(after.accounts, after.holds, after.accounts[i].number);
    }
  }

  /** In every run, whatever limits are edited on the way, each account's recorded spending is the sum
      of its debits since the reset; each of them left it within the limit then in force; and spending
      plus the remaining allowance is still the limit at the reset. */
  lemma SpendingInEveryRun(db: Db, events: seq<Event>, i: nat)
    requires Inv(db) && i < |Run(db, events).accounts|
    ensures var a := Run(db, events).accounts[i];
            && a.daily == Sum(a.today, SpendAmount()) && a.monthly == Sum(a.month, SpendAmount())
            && (forall k :: 0 <= k < |a.today| ==> Within(Sum(a.today[..k + 1], SpendAmount()), a.today[k].limit))
            && (forall k :: 0 <= k < |a.month| ==> Within(Sum(a.month[..k + 1], SpendAmount()), a.month[k].limit))
            && (a.dayLimit.Some? ==> a.dailyRemaining.Some? && a.daily + a.dailyRemaining.value == a.dayLimit.value)
            && Within(a.daily, a.dayLimit)
  {
    hide RowOk, Run;
    EveryRunIsSafe(db, events);
    var after := Run(db, events);
    SpendingMeaning(after.accounts[i], HeldFor(after.holds, after.accounts[i].number));
  }
}
