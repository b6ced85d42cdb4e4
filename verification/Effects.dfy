/** What each committed transaction does to every row, and when it commits, said from the columns, the
    request and the lookups alone. Where accounts coincide their shares add up. */
module Effects {
  import opened Common
  import opened Accounts
  import opened Ledger
  import opened LedgerSafety

  /** The row after `credited` came in and `debited` went out: both balances move by the difference, what
      went out is counted as spent, and no other column changes. */
  predicate RowMoved(a: Account, b: Account, credited: int, debited: int) {
    b == a.(booked := a.booked + credited - debited, available := a.available + credited - debited,
            daily := a.daily + debited, monthly := a.monthly + debited,
            dailyRemaining := if a.dailyRemaining.Some? then Some(a.dailyRemaining.value - debited) else None,
            today := b.today, month := b.month)
  }

  /** `x` at the row the lookup found. */
  function At(i: nat, row: Result<nat, Error>, x: int): int {
    if row == Ok(i) then x else 0
  }

  predicate OnlyAccounts(db: Db, db': Db) {
    db' == db.(accounts := db'.accounts) && |db'.accounts| == |db.accounts|
  }

  lemma SameOwnerLookup(accounts: seq<Account>, accounts': seq<Account>, owner: int, currency: string)
    requires SameRows(accounts, accounts')
    ensures ByOwner(accounts, owner, currency) == ByOwner(accounts', owner, currency)
  {
    FirstSame(accounts, accounts', LiveOf(owner, currency));
  }

  lemma RowsCompose(a: Account, b: Account, c: Account, in1: int, out1: int, in2: int, out2: int)
    requires RowMoved(a, b, in1, out1) && RowMoved(b, c, in2, out2)
    ensures RowMoved(a, c, in1 + in2, out1 + out2)
  {
  }

  // Debits and credits

  /** What the account demands of whoever moves its money. */
  predicate OpenTo(a: Account, client: int, now: int) {
    && a.status == Active
    && (a.expiresAt.Some? ==> a.expiresAt.value >= now)
    && (a.owner == -1 || a.owner == client)
  }

  /** A debit commits exactly on a live account open to the client, with the money available and both limits
      and the day's allowance respected; then it is taken off that row and counted. The refusals tell a bad
      request, a missing account, missing money and the two limits apart. */
  lemma DebitExactly(db: Db, number: string, x: int, client: int, now: int)
    ensures var r, f := Step(db, DoDebit(number, x, client), now), ByNumber(db.accounts, number);
            && (r.Ok? <==>
                  x > 0 && f.Ok? && var a := db.accounts[f.value];
                  && OpenTo(a, client, now) && a.available >= x
                  && (a.dailyLimit.Some? ==> a.daily + x <= a.dailyLimit.value)
                  && (a.dailyRemaining.Some? ==> x <= a.dailyRemaining.value)
                  && (a.monthlyLimit.Some? ==> a.monthly + x <= a.monthlyLimit.value))
            && (r.Ok? ==> OnlyAccounts(db, r.value) && forall i :: 0 <= i < |db.accounts| ==>
                            RowMoved(db.accounts[i], r.value.accounts[i], 0, At(i, f, x)))
            && (r.Err? && x <= 0 ==> r.error == BadRequest)
            && (x > 0 && f.Err? ==> r == Err(NotFound))
            && (r.Err? && x > 0 && f.Ok? ==>
                  var a := db.accounts[f.value];
                  r.error == if !OpenTo(a, client, now) then BadRequest
                             else if a.available < x then Conflict("ERR_INSUFFICIENT_FUNDS")
                             else if (a.dailyLimit.Some? && a.daily + x > a.dailyLimit.value)
                                     || (a.dailyRemaining.Some? && x > a.dailyRemaining.value)
                                  then Conflict("ERR_DAILY_LIMIT_EXCEEDED")
                             else Conflict("ERR_MONTHLY_LIMIT_EXCEEDED"))
  {
    hide First;
  }

  lemma CreditExactly(db: Db, number: string, x: int, client: int, now: int)
    ensures var r, t := Step(db, DoCredit(number, x, client), now), ByNumber(db.accounts, number);
            && (r.Ok? <==> x > 0 && t.Ok? && OpenTo(db.accounts[t.value], client, now))
            && (r.Ok? ==> OnlyAccounts(db, r.value) && forall i :: 0 <= i < |db.accounts| ==>
                            RowMoved(db.accounts[i], r.value.accounts[i], At(i, t, x), 0))
            && (r.Err? ==> r.error == if x > 0 && t.Err? then NotFound else BadRequest)
  {
    hide First;
  }

  lemma DebitRows(accounts: seq<Account>, number: string, x: int, client: int, now: int)
    requires Debit(accounts, number, x, client, now).Ok?
    ensures var after := Debit(accounts, number, x, client, now).value;
            SameRows(accounts, after) && forall i :: 0 <= i < |accounts| ==>
              RowMoved(accounts[i], after[i], 0, At(i, ByNumber(accounts, number), x))
  {
    hide First, DebitError;
  }

  lemma CreditRows(accounts: seq<Account>, number: string, x: int, client: int, now: int)
    requires Credit(accounts, number, x, client, now).Ok?
    ensures var after := Credit(accounts, number, x, client, now).value;
            SameRows(accounts, after) && forall i :: 0 <= i < |accounts| ==>
              RowMoved(accounts[i], after[i], At(i, ByNumber(accounts, number), x), 0)
  {
    hide First, Mutable;
  }

  lemma MoveRows(accounts: seq<Account>, from: string, x: int, fromOwner: int, to: string, y: int, toOwner: int, now: int)
    requires Move(accounts, from, x, fromOwner, to, y, toOwner, now).Ok?
    ensures var after := Move(accounts, from, x, fromOwner, to, y, toOwner, now).value;
            var f, t := ByNumber(accounts, from), ByNumber(accounts, to);
            && f.Ok? && t.Ok? && SameRows(accounts, after)
            && forall i :: 0 <= i < |accounts| ==> RowMoved(accounts[i], after[i], At(i, t, y), At(i, f, x))
  {
    hide First, DebitRow, CreditRow, DebitError, Mutable, RowMoved;
    var debited := Debit(accounts, from, x, fromOwner, now).value;
    DebitRows(accounts, from, x, fromOwner, now);
    SameLookup(accounts, debited, to);
    CreditRows(debited, to, y, toOwner, now);
    var after := Credit(debited, to, y, toOwner, now).value;
    forall i | 0 <= i < |accounts|
      ensures RowMoved(accounts[i], after[i], At(i, ByNumber(accounts, to), y), At(i, ByNumber(accounts, from), x))
    {
      RowsCompose(accounts[i], debited[i], after[i], 0, At(i, ByNumber(accounts, from), x), At(i, ByNumber(accounts, to), y), 0);
    }
  }

  lemma CreditBankRows(accounts: seq<Account>, currency: string, x: int, now: int)
    requires Distinct(accounts) && CreditBank(accounts, currency, x, now).Ok?
    ensures var after := CreditBank(accounts, currency, x, now).value;
            var b := ByOwner(accounts, BANK, currency);
            && b.Ok? && x > 0 && SameRows(accounts, after)
            && forall i :: 0 <= i < |accounts| ==> RowMoved(accounts[i], after[i], At(i, b, x), 0)
  {
    hide First, Mutable, RowMoved;
    var b := ByOwner(accounts, BANK, currency).value;
    ByNumberOfRow(accounts, b);
    CreditRows(accounts, accounts[b].number, x, accounts[b].owner, now);
  }

  lemma SameIsDistinct(accounts: seq<Account>, accounts': seq<Account>)
    requires Distinct(accounts) && SameRows(accounts, accounts')
    ensures Distinct(accounts')
  {
  }

  // Payments

  /** Payer and payee as the request names them. */
  predicate PaymentAllowed(accounts: seq<Account>, p: Payment, sameOwner: bool, now: int) {
    var f, t := ByNumber(accounts, p.from), ByNumber(accounts, p.to);
    && f.Ok? && t.Ok? && p.fromAmount > 0 && p.toAmount > 0 && p.commission >= 0
    && p.client != 0 && accounts[f.value].owner == p.client
    && (sameOwner <==> accounts[f.value].owner == accounts[t.value].owner)
    && OpenTo(accounts[f.value], accounts[f.value].owner, now) && OpenTo(accounts[t.value], accounts[t.value].owner, now)
  }

  /** What comes in at row i. */
  function PaymentIn(accounts: seq<Account>, p: Payment, i: nat): int {
    var f, t := ByNumber(accounts, p.from), ByNumber(accounts, p.to);
    if f.Err? || t.Err? then 0
    else if accounts[f.value].currency == accounts[t.value].currency then
      At(i, t, p.toAmount) + At(i, ByOwner(accounts, -1, accounts[f.value].currency), p.commission)
    else if accounts[t.value].owner == -1 then At(i, t, p.toAmount)
    else At(i, t, p.toAmount) + At(i, ByOwner(accounts, -1, accounts[f.value].currency), p.fromAmount + p.commission)
  }

  /** What goes out at row i. */
  function PaymentOut(accounts: seq<Account>, p: Payment, i: nat): int {
    var f, t := ByNumber(accounts, p.from), ByNumber(accounts, p.to);
    if f.Err? || t.Err? then 0
    else if accounts[f.value].currency == accounts[t.value].currency then At(i, f, p.fromAmount + p.commission)
    else if accounts[t.value].owner == -1 then At(i, f, p.fromAmount)
    else At(i, f, p.fromAmount + p.commission) + At(i, ByOwner(accounts, -1, accounts[t.value].currency), p.toAmount)
  }

  /** A committed payment was made by its client between accounts open to it. Within a currency the payer
      gives amount and commission, the payee gets the amount and the bank's first account the commission;
      across currencies the bank as payee exchanges directly, and for anyone else the payer's money goes to
      the bank's account in one currency and the payee's comes from its account in the other. */
  lemma PaymentEffect(db: Db, p: Payment, sameOwner: bool, now: int)
    requires Distinct(db.accounts)
    ensures var r := Step(db, DoPayment(p, sameOwner), now);
            r.Ok? ==>
              && PaymentAllowed(db.accounts, p, sameOwner, now) && OnlyAccounts(db, r.value)
              && forall i :: 0 <= i < |db.accounts| ==>
                   RowMoved(db.accounts[i], r.value.accounts[i], PaymentIn(db.accounts, p, i), PaymentOut(db.accounts, p, i))
  {
    hide First, Move, CreditBank, ExchangeTx, RowMoved, DebitError;
    var accounts, r := db.accounts, Step(db, DoPayment(p, sameOwner), now);
    if r.Ok? {
      var f, t := ByNumber(accounts, p.from).value, ByNumber(accounts, p.to).value;
      var from, to, x := accounts[f], accounts[t], p.fromAmount + p.commission;
      if from.currency == to.currency {
        DomesticRows(accounts, f, t, p, now);
      } else if to.owner == BANK {
        MoveRows(accounts, from.number, p.fromAmount, from.owner, to.number, p.toAmount, to.owner, now);
      } else {
        ForeignRows(accounts, f, t, p, now);
      }
    }
  }

  lemma DomesticRows(accounts: seq<Account>, f: nat, t: nat, p: Payment, now: int)
    requires Distinct(accounts) && ByNumber(accounts, p.from) == Ok(f) && ByNumber(accounts, p.to) == Ok(t)
    requires accounts[f].currency == accounts[t].currency && PaymentTx(accounts, accounts[f], accounts[t], p, now).Ok?
    ensures var after := PaymentTx(accounts, accounts[f], accounts[t], p, now).value;
            |after| == |accounts| && forall i :: 0 <= i < |accounts| ==>
              RowMoved(accounts[i], after[i], PaymentIn(accounts, p, i), PaymentOut(accounts, p, i))
  {
    hide First, Move, CreditBank, ExchangeTx, RowMoved;
    var from, to, x := accounts[f], accounts[t], p.fromAmount + p.commission;
    MoveRows(accounts, from.number, x, from.owner, to.number, p.toAmount, to.owner, now);
    if p.commission > 0 {
      var moved := Move(accounts, from.number, x, from.owner, to.number, p.toAmount, to.owner, now).value;
      SameIsDistinct(accounts, moved);
      SameOwnerLookup(accounts, moved, BANK, from.currency);
      CreditBankRows(moved, from.currency, p.commission, now);
      var after := CreditBank(moved, from.currency, p.commission, now).value;
      forall i | 0 <= i < |accounts|
        ensures RowMoved(accounts[i], after[i], PaymentIn(accounts, p, i), PaymentOut(accounts, p, i))
      {
        RowsCompose(accounts[i], moved[i], after[i], At(i, Ok(t), p.toAmount), At(i, Ok(f), x),
                    At(i, ByOwner(accounts, BANK, from.currency), p.commission), 0);
      }
    }
  }

  lemma ForeignRows(accounts: seq<Account>, f: nat, t: nat, p: Payment, now: int)
    requires Distinct(accounts) && ByNumber(accounts, p.from) == Ok(f) && ByNumber(accounts, p.to) == Ok(t)
    requires accounts[f].currency != accounts[t].currency && accounts[t].owner != BANK
    requires PaymentTx(accounts, accounts[f], accounts[t], p, now).Ok?
    ensures var after := PaymentTx(accounts, accounts[f], accounts[t], p, now).value;
            |after| == |accounts| && forall i :: 0 <= i < |accounts| ==>
              RowMoved(accounts[i], after[i], PaymentIn(accounts, p, i), PaymentOut(accounts, p, i))
  {
    hide First, Move, CreditBank, RowMoved, ByNumber, ByOwner, Distinct, CurrencyOf;
    var from, to, x := accounts[f], accounts[t], p.fromAmount + p.commission;
    var s, g := ByOwner(accounts, BANK, from.currency).value, ByOwner(accounts, BANK, to.currency).value;
    var sender, target := accounts[s], accounts[g];
    ByNumberOfRow(accounts, s);
    ByNumberOfRow(accounts, g);
    MoveRows(accounts, from.number, x, from.owner, sender.number, x, sender.owner, now);
    var taken := Move(accounts, from.number, x, from.owner, sender.number, x, sender.owner, now).value;
    SameLookup(accounts, taken, target.number);
    SameLookup(accounts, taken, to.number);
    MoveRows(taken, target.number, p.toAmount, target.owner, to.number, p.toAmount, to.owner, now);
    var after := Move(taken, target.number, p.toAmount, target.owner, to.number, p.toAmount, to.owner, now).value;
    forall i | 0 <= i < |accounts|
      ensures RowMoved(accounts[i], after[i], PaymentIn(accounts, p, i), PaymentOut(accounts, p, i))
    {
      RowsCompose(accounts[i], taken[i], after[i], At(i, Ok(s), x), At(i, Ok(f), x), At(i, Ok(t), p.toAmount), At(i, Ok(g), p.toAmount));
    }
  }

  /** Without a sender the bank's first account in the client's currency pays `to`; with one, `from` pays
      that account. */
  lemma BankTransactionEffect(db: Db, from: string, to: string, amount: int, now: int)
    requires Distinct(db.accounts)
    ensures var r := Step(db, DoBankTransaction(from, to, amount), now);
            r.Ok? ==>
              var client := ByNumber(db.accounts, if from == "" then to else from);
              && (from != "" || to != "") && amount > 0 && client.Ok? && OnlyAccounts(db, r.value)
              && var bank := ByOwner(db.accounts, -1, db.accounts[client.value].currency);
              && bank.Ok?
              && forall i :: 0 <= i < |db.accounts| ==>
                   if from == "" then RowMoved(db.accounts[i], r.value.accounts[i], At(i, client, amount), At(i, bank, amount))
                   else RowMoved(db.accounts[i], r.value.accounts[i], At(i, bank, amount), At(i, client, amount))
  {
    hide First, Move, RowMoved;
    var accounts, r := db.accounts, Step(db, DoBankTransaction(from, to, amount), now);
    if r.Ok? {
      var c := ByNumber(accounts, if from == "" then to else from).value;
      var b := ByOwner(accounts, BANK, accounts[c].currency).value;
      ByNumberOfRow(accounts, c);
      ByNumberOfRow(accounts, b);
      var s, t := if from == "" then b else c, if from == "" then c else b;
      MoveSucceedsExactly(accounts, accounts[s].number, amount, accounts[s].owner, accounts[t].number, amount, accounts[t].owner, now);
      MoveRows(accounts, accounts[s].number, amount, accounts[s].owner, accounts[t].number, amount, accounts[t].owner, now);
    }
  }

  // Transfers

  /** Within a currency the amount goes from one account to the other; between currencies the target gets
      the quoted amount and the bank's first account in the source currency the commission. The transfer is
      logged as completed. */
  lemma TransferEffect(db: Db, from: string, to: string, amount: int, quote: Option<Quote>, now: int)
    requires Distinct(db.accounts)
    ensures var r := Step(db, DoTransfer(from, to, amount, quote), now);
            r.Ok? ==>
              var f, t := ByNumber(db.accounts, from), ByNumber(db.accounts, to);
              && amount > 0 && f.Ok? && t.Ok? && |r.value.accounts| == |db.accounts|
              && r.value == db.(accounts := r.value.accounts, transfers := db.transfers + [Transfer(from, to, amount, Completed)])
              && var a, b := db.accounts[f.value], db.accounts[t.value];
              && (a.currency != b.currency ==> quote.Some? && 0 < quote.value.commission < amount)
              && forall i :: 0 <= i < |db.accounts| ==>
                   RowMoved(db.accounts[i], r.value.accounts[i],
                     if a.currency == b.currency then At(i, t, amount)
                     else At(i, t, quote.value.credited) + At(i, ByOwner(db.accounts, -1, a.currency), quote.value.commission),
                     At(i, f, amount))
  {
    hide First, Move, CreditBank, RowMoved, Debit, ByNumber, ByOwner, Distinct, CurrencyOf;
    var accounts, r := db.accounts, Step(db, DoTransfer(from, to, amount, quote), now);
    if r.Ok? {
      var f, t := ByNumber(accounts, from).value, ByNumber(accounts, to).value;
      var a, b := accounts[f], accounts[t];
      if a.currency == b.currency {
        MoveRows(accounts, from, amount, a.owner, to, amount, b.owner, now);
      } else {
        var q := quote.value;
        MoveRows(accounts, from, amount, a.owner, to, q.credited, b.owner, now);
        var moved := Move(accounts, from, amount, a.owner, to, q.credited, b.owner, now).value;
        SameIsDistinct(accounts, moved);
        SameOwnerLookup(accounts, moved, BANK, a.currency);
        CreditBankRows(moved, a.currency, q.commission, now);
        forall i | 0 <= i < |accounts|
          ensures RowMoved(accounts[i], r.value.accounts[i],
                    At(i, Ok(t), q.credited) + At(i, ByOwner(accounts, -1, a.currency), q.commission), At(i, Ok(f), amount))
        {
          RowsCompose(accounts[i], moved[i], r.value.accounts[i], At(i, Ok(t), q.credited), At(i, Ok(f), amount),
                      At(i, ByOwner(accounts, BANK, a.currency), q.commission), 0);
        }
      }
    }
  }

  /** A completed transfer's amount goes back from its target to its source and the log row turns REVERSED;
      any other reversal changes nothing. */
  lemma ReverseEffect(db: Db, id: nat, now: int)
    ensures var r := Step(db, DoReverse(id), now);
            if id < |db.transfers| && db.transfers[id].status == Completed then
              r.Ok? ==>
                var log := db.transfers[id];
                && |r.value.accounts| == |db.accounts|
                && r.value == db.(accounts := r.value.accounts, transfers := db.transfers[id := log.(status := Reversed)])
                && forall i :: 0 <= i < |db.accounts| ==>
                     RowMoved(db.accounts[i], r.value.accounts[i],
                       At(i, ByNumber(db.accounts, log.from), log.amount), At(i, ByNumber(db.accounts, log.to), log.amount))
            else r == Ok(db)
  {
    hide First, Move, RowMoved;
    var r := Step(db, DoReverse(id), now);
    if id < |db.transfers| && db.transfers[id].status == Completed && r.Ok? {
      var log := db.transfers[id];
      var s, t := ByNumber(db.accounts, log.to).value, ByNumber(db.accounts, log.from).value;
      MoveRows(db.accounts, log.to, log.amount, db.accounts[s].owner, log.from, log.amount, db.accounts[t].owner, now);
    }
  }

  // Reservations

  /** An interbank reservation commits exactly on a live account in the stated currency with the money
      available; it lowers the available balance there and adds a HELD row. */
  lemma ReserveExactly(db: Db, number: string, currency: string, x: int, local: string, now: int)
    ensures var r, f := Step(db, DoReserve(number, currency, x, local), now), ByNumber(db.accounts, number);
            && (r.Ok? <==> number != "" && currency != "" && local != "" && x > 0 && f.Ok?
                           && db.accounts[f.value].currency == currency && db.accounts[f.value].available >= x)
            && (r.Ok? ==>
                  && |r.value.accounts| == |db.accounts|
                  && r.value == db.(accounts := r.value.accounts, holds := db.holds + [Hold(number, currency, x, Held)])
                  && forall i :: 0 <= i < |db.accounts| ==>
                       r.value.accounts[i] == db.accounts[i].(available := db.accounts[i].available - At(i, f, x)))
  {
    hide First;
  }

  /** Committing or releasing acts on a HELD row whose account is live: the booked balance falls, or the
      available one rises, by its amount. Repeating the same does nothing; the other way is refused. */
  lemma FinaliseExactly(db: Db, id: nat, commit: bool, now: int)
    ensures var r := Step(db, if commit then DoCommit(id) else DoRelease(id), now);
            if id >= |db.holds| then r == Err(NotFound)
            else
              var h, done := db.holds[id], if commit then Committed else Released;
              if h.status == done then r == Ok(db)
              else if h.status != Held then r == Err(Conflict("ERR_INVALID_RESERVATION_STATE"))
              else
                var f := ByNumber(db.accounts, h.number);
                && (r.Ok? <==> f.Ok?)
                && (r.Ok? ==>
                      && |r.value.accounts| == |db.accounts|
                      && r.value == db.(accounts := r.value.accounts, holds := db.holds[id := h.(status := done)])
                      && forall i :: 0 <= i < |db.accounts| ==>
                           var a := db.accounts[i];
                           r.value.accounts[i] == if commit then a.(booked := a.booked - At(i, f, h.amount))
                                                  else a.(available := a.available + At(i, f, h.amount)))
  {
    hide First;
  }

  /** Funds are taken from the owner's first RSD account and set aside. */
  lemma ReserveFundsEffect(db: Db, owner: int, x: int, now: int)
    requires Distinct(db.accounts)
    ensures var r, f := Step(db, DoReserveFunds(owner, x), now), ByOwner(db.accounts, owner, "RSD");
            r.Ok? ==>
              && x > 0 && f.Ok? && |r.value.accounts| == |db.accounts|
              && r.value == db.(accounts := r.value.accounts,
                                funds := db.funds + [Fund(owner, db.accounts[f.value].number, x, Held)])
              && forall i :: 0 <= i < |db.accounts| ==> RowMoved(db.accounts[i], r.value.accounts[i], 0, At(i, f, x))
  {
    hide First, Debit, RowMoved;
    var r, f := Step(db, DoReserveFunds(owner, x), now), ByOwner(db.accounts, owner, RSD);
    if r.Ok? {
      ByNumberOfRow(db.accounts, f.value);
      DebitRows(db.accounts, db.accounts[f.value].number, x, owner, now);
    }
  }

  /** A release gives held funds back to the account they came from; a commit only flips the row; both leave
      any other reservation alone. */
  lemma FundsEffect(db: Db, id: nat, commit: bool, now: int)
    ensures var r := Step(db, if commit then DoCommitFunds(id) else DoReleaseFunds(id), now);
            if id >= |db.funds| || db.funds[id].status != Held then r == Ok(db)
            else
              var f := db.funds[id];
              if commit then r == Ok(db.(funds := db.funds[id := f.(status := Committed)]))
              else r.Ok? ==>
                     && |r.value.accounts| == |db.accounts|
                     && r.value == db.(accounts := r.value.accounts, funds := db.funds[id := f.(status := Released)])
                     && forall i :: 0 <= i < |db.accounts| ==>
                          RowMoved(db.accounts[i], r.value.accounts[i], At(i, ByNumber(db.accounts, f.number), f.amount), 0)
  {
    hide First, Credit, RowMoved;
    if id < |db.funds| && db.funds[id].status == Held && !commit {
      var f := db.funds[id];
      if Credit(db.accounts, f.number, f.amount, f.owner, now).Ok? {
        CreditRows(db.accounts, f.number, f.amount, f.owner, now);
      }
    }
  }

  // Jobs and upkeep

  /** The daily reset zeroes the counter of every live account and makes its limit the day's allowance; the
      monthly one zeroes the monthly counter; erased accounts and all other columns stay. */
  lemma ResetEffect(db: Db, now: int)
    ensures var day, month := Step(db, DoResetDay, now), Step(db, DoResetMonth, now);
            && day.Ok? && month.Ok? && OnlyAccounts(db, day.value) && OnlyAccounts(db, month.value)
            && forall i :: 0 <= i < |db.accounts| ==>
                 var a, d, m := db.accounts[i], day.value.accounts[i], month.value.accounts[i];
                 if a.deleted then d == a && m == a
                 else
                   && d == a.(daily := 0, dailyRemaining := a.dailyLimit, today := [], dayLimit := a.dailyLimit)
                   && m == a.(monthly := 0, month := [])
  {
    var day, month := Step(db, DoResetDay, now).value, Step(db, DoResetMonth, now).value;
    forall i | 0 <= i < |db.accounts|
      ensures day.accounts[i] == DayReset(db.accounts[i]) && month.accounts[i] == MonthReset(db.accounts[i])
    {
    }
  }

  /** Who pays the maintenance fee: live, active checking accounts with a positive fee and the money for it. */
  predicate Pays(a: Account) {
    a.checking && a.status == Active && !a.deleted && a.fee.Some? && 0 < a.fee.value <= a.available
  }

  /** The fee job finds the bank's RSD row or does nothing. Every other account that pays loses its fee from
      both balances, nobody else changes, and the bank's row gains what is due from all. */
  lemma FeesEffect(db: Db, bankClient: int, bank: nat, now: int)
    ensures var r := Step(db, DoFees(bankClient, bank), now);
            if bank < |db.accounts| && db.accounts[bank].owner == bankClient && db.accounts[bank].currency == "RSD" then
              var total := Sum(db.accounts, (a: Account) => if Pays(a) then a.fee.value else 0);
              && r.Ok? && |r.value.accounts| == |db.accounts|
              && r.value == db.(accounts := r.value.accounts, audit := db.audit + FeeRecords(db.accounts, db.accounts[bank].number))
              && forall i :: 0 <= i < |db.accounts| ==>
                   var a, b := db.accounts[i], r.value.accounts[i];
                   if i == bank then b == a.(booked := a.booked + total, available := a.available + total)
                   else if Pays(a) then b == a.(booked := a.booked - a.fee.value, available := a.available - a.fee.value)
                   else b == a
            else r == Ok(db)
  {
    var due := (a: Account) => if Pays(a) then a.fee.value else 0;
    SumSame(db.accounts, FeeDue, db.accounts, due);
  }

  /** The audit names, in order, each account that pays, the bank's account and the fee. */
  lemma {:induction false} FeeRecordsNameThePayers(accounts: seq<Account>, bank: string)
    ensures forall k :: 0 <= k < |FeeRecords(accounts, bank)| ==>
              var rec := FeeRecords(accounts, bank)[k];
              rec.bank == bank
              && exists i :: 0 <= i < |accounts| && Pays(accounts[i]) && accounts[i].number == rec.number && accounts[i].fee == Some(rec.amount)
    ensures forall i :: 0 <= i < |accounts| && Pays(accounts[i]) ==>
              FeeRecord(accounts[i].number, bank, accounts[i].fee.value) in FeeRecords(accounts, bank)
  {
    if accounts != [] {
      var n := |accounts| - 1;
      FeeRecordsNameThePayers(accounts[..n], bank);
      assert FeeDue(accounts[n]) > 0 <==> Pays(accounts[n]);
      forall k | 0 <= k < |FeeRecords(accounts, bank)|
        ensures var rec := FeeRecords(accounts, bank)[k];
                rec.bank == bank
                && exists i :: 0 <= i < |accounts| && Pays(accounts[i]) && accounts[i].number == rec.number && accounts[i].fee == Some(rec.amount)
      {
        if k < |FeeRecords(accounts[..n], bank)| {
          var rec := FeeRecords(accounts[..n], bank)[k];
          var i :| 0 <= i < n && Pays(accounts[..n][i]) && accounts[..n][i].number == rec.number && accounts[..n][i].fee == Some(rec.amount);
          assert accounts[i] == accounts[..n][i];
        }
      }
      forall i | 0 <= i < |accounts| && Pays(accounts[i])
        ensures FeeRecord(accounts[i].number, bank, accounts[i].fee.value) in FeeRecords(accounts, bank)
      {
        if i < n {
          assert accounts[..n][i] == accounts[i];
        }
      }
    }
  }

  /** Limits are edited only by the verified owner, daily not above monthly; they change and the counters and
      the day's allowance do not. */
  lemma EditLimitsExactly(db: Db, number: string, principal: int, daily: int, monthly: int, verified: bool, now: int)
    ensures var r, f := Step(db, DoEditLimits(number, principal, daily, monthly, verified), now), ByNumber(db.accounts, number);
            && (r.Ok? <==> 0 < daily <= monthly && f.Ok? && db.accounts[f.value].owner == principal && verified)
            && (r.Ok? ==> OnlyAccounts(db, r.value) && forall i :: 0 <= i < |db.accounts| ==>
                            r.value.accounts[i] == if i == f.value
                                                   then db.accounts[i].(dailyLimit := Some(daily), monthlyLimit := Some(monthly))
                                                   else db.accounts[i])
  {
    hide First;
  }

  /** The status of any but the system's accounts can be set; a client's erasure marks all its accounts. */
  lemma StatusAndErasureEffect(db: Db, number: string, status: Status, client: int, now: int)
    ensures var r, f := Step(db, DoEditStatus(number, status), now), ByNumber(db.accounts, number);
            && (r.Ok? <==> f.Ok? && db.accounts[f.value].owner >= 0)
            && (r.Ok? ==> OnlyAccounts(db, r.value) && forall i :: 0 <= i < |db.accounts| ==>
                            r.value.accounts[i] == if i == f.value then db.accounts[i].(status := status) else db.accounts[i])
    ensures var e := Step(db, DoErase(client), now);
            e.Ok? && OnlyAccounts(db, e.value) && forall i :: 0 <= i < |db.accounts| ==>
              var a := db.accounts[i];
              e.value.accounts[i] == if a.owner == client then a.(deleted := true) else a
  {
    hide First;
  }

  /** A new account gets a number nobody has, its balance twice, and limits of 250000.00 and 1000000.00; it is
      active, unspent and has no fee. */
  lemma OpenExactly(db: Db, number: string, owner: int, currency: string, balance: nat, checking: bool, expires: int, now: int)
    ensures var r := Step(db, DoOpen(number, owner, currency, balance, checking, expires), now);
            && (r.Ok? <==> forall i :: 0 <= i < |db.accounts| ==> db.accounts[i].number != number)
            && (r.Ok? ==>
                  && |r.value.accounts| == |db.accounts| + 1 && r.value.accounts[..|db.accounts|] == db.accounts
                  && r.value == db.(accounts := r.value.accounts)
                  && var a := r.value.accounts[|db.accounts|];
                  && a.number == number && a.owner == owner && a.currency == currency && a.checking == checking
                  && a.booked == a.available == balance && a.status == Active && !a.deleted && a.expiresAt == Some(expires)
                  && a.dailyLimit == Some(25_000_000) && a.monthlyLimit == Some(100_000_000)
                  && a.daily == a.monthly == 0 && a.dailyRemaining == None && a.fee == None)
  {
    var i := First(db.accounts, NumberIs(number));
    if i < |db.accounts| {
      assert NumberIs(number)(db.accounts[i]);
    } else {
      assert forall j :: 0 <= j < |db.accounts| ==> !NumberIs(number)(db.accounts[j]);
    }
  }

  // When payments, transfers and fund reservations commit

  predicate CanPay(a: Account, x: int, client: int, now: int) {
    && OpenTo(a, client, now) && a.available >= x
    && (a.dailyLimit.Some? ==> a.daily + x <= a.dailyLimit.value)
    && (a.dailyRemaining.Some? ==> x <= a.dailyRemaining.value)
    && (a.monthlyLimit.Some? ==> a.monthly + x <= a.monthlyLimit.value)
  }

  lemma MoveCommits(accounts: seq<Account>, from: string, x: int, fromOwner: int, to: string, y: int, toOwner: int, now: int)
    ensures var f, t := ByNumber(accounts, from), ByNumber(accounts, to);
            Move(accounts, from, x, fromOwner, to, y, toOwner, now).Ok?
            <==> x > 0 && y > 0 && f.Ok? && t.Ok? && CanPay(accounts[f.value], x, fromOwner, now)
                 && OpenTo(accounts[t.value], toOwner, now)
  {
    hide Move, First;
    MoveSucceedsExactly(accounts, from, x, fromOwner, to, y, toOwner, now);
  }

  /** The bank's first account in the currency, open for business. */
  predicate BankOpen(accounts: seq<Account>, currency: string, now: int) {
    var b := ByOwner(accounts, -1, currency);
    b.Ok? && OpenTo(accounts[b.value], -1, now)
  }

  lemma CreditBankCommits(accounts: seq<Account>, currency: string, x: int, now: int)
    requires Distinct(accounts)
    ensures CreditBank(accounts, currency, x, now).Ok? <==> x > 0 && BankOpen(accounts, currency, now)
  {
    hide First;
    var b := ByOwner(accounts, BANK, currency);
    if b.Ok? {
      ByNumberOfRow(accounts, b.value);
    }
  }

  /** Moving money opens and closes no account. */
  lemma BankStaysOpen(accounts: seq<Account>, moved: seq<Account>, currency: string, now: int)
    requires SameRows(accounts, moved)
    requires forall i :: 0 <= i < |accounts| ==>
               moved[i].status == accounts[i].status && moved[i].expiresAt == accounts[i].expiresAt
    ensures BankOpen(moved, currency, now) == BankOpen(accounts, currency, now)
  {
    hide First;
    SameOwnerLookup(accounts, moved, BANK, currency);
  }

  lemma MoveOpensNothing(accounts: seq<Account>, from: string, x: int, fromOwner: int, to: string, y: int, toOwner: int, now: int, currency: string)
    requires Distinct(accounts) && Move(accounts, from, x, fromOwner, to, y, toOwner, now).Ok?
    ensures var moved := Move(accounts, from, x, fromOwner, to, y, toOwner, now).value;
            Distinct(moved) && BankOpen(moved, currency, now) == BankOpen(accounts, currency, now)
  {
    hide Move, First;
    MoveRows(accounts, from, x, fromOwner, to, y, toOwner, now);
    var moved := Move(accounts, from, x, fromOwner, to, y, toOwner, now).value;
    SameIsDistinct(accounts, moved);
    forall i | 0 <= i < |accounts| ensures moved[i].status == accounts[i].status && moved[i].expiresAt == accounts[i].expiresAt {
      assert RowMoved(accounts[i], moved[i], At(i, ByNumber(accounts, to), y), At(i, ByNumber(accounts, from), x));
    }
    BankStaysOpen(accounts, moved, currency, now);
  }

  /** The payer can pay, and every bank account the payment goes through exists, is open and can pay too. */
  predicate PaymentFunded(accounts: seq<Account>, p: Payment, now: int) {
    var f, t := ByNumber(accounts, p.from), ByNumber(accounts, p.to);
    f.Ok? && t.Ok? &&
    var from, to, x := accounts[f.value], accounts[t.value], p.fromAmount + p.commission;
    if from.currency == to.currency then CanPay(from, x, from.owner, now) && (p.commission > 0 ==> BankOpen(accounts, from.currency, now))
    else if to.owner == -1 then CanPay(from, p.fromAmount, from.owner, now)
    else
      var target := ByOwner(accounts, -1, to.currency);
      CanPay(from, x, from.owner, now) && BankOpen(accounts, from.currency, now)
      && target.Ok? && CanPay(accounts[target.value], p.toAmount, -1, now)
  }

  /** A payment commits if and only if its client may make it and it is funded. */
  lemma PaymentCommitsExactly(db: Db, p: Payment, sameOwner: bool, now: int)
    requires Distinct(db.accounts)
    ensures Step(db, DoPayment(p, sameOwner), now).Ok?
            <==> PaymentAllowed(db.accounts, p, sameOwner, now) && PaymentFunded(db.accounts, p, now)
  {
    hide First, Move, CreditBank, ExchangeTx, CanPay, PaymentTx, BankOpen;
    var accounts := db.accounts;
    var f, t := ByNumber(accounts, p.from), ByNumber(accounts, p.to);
    if f.Ok? && t.Ok? && OpenTo(accounts[t.value], accounts[t.value].owner, now) {
      PaymentTxCommits(accounts, f.value, t.value, p, now);
    }
  }

  lemma PaymentTxCommits(accounts: seq<Account>, f: nat, t: nat, p: Payment, now: int)
    requires Distinct(accounts) && ByNumber(accounts, p.from) == Ok(f) && ByNumber(accounts, p.to) == Ok(t)
    requires OpenTo(accounts[t], accounts[t].owner, now)
    ensures PaymentTx(accounts, accounts[f], accounts[t], p, now).Ok?
            <==> p.fromAmount > 0 && p.toAmount > 0 && p.commission >= 0 && PaymentFunded(accounts, p, now)
  {
    hide First, Move, CreditBank, ExchangeTx, CanPay, BankOpen, OpenTo;
    var from, to, x := accounts[f], accounts[t], p.fromAmount + p.commission;
    if p.fromAmount > 0 && p.toAmount > 0 && p.commission >= 0 {
      if from.currency == to.currency {
        MoveCommits(accounts, from.number, x, from.owner, to.number, p.toAmount, to.owner, now);
        var moved := Move(accounts, from.number, x, from.owner, to.number, p.toAmount, to.owner, now);
        if moved.Ok? {
          MoveOpensNothing(accounts, from.number, x, from.owner, to.number, p.toAmount, to.owner, now, from.currency);
          CreditBankCommits(moved.value, from.currency, p.commission, now);
        }
      } else if to.owner == BANK {
        MoveCommits(accounts, from.number, p.fromAmount, from.owner, to.number, p.toAmount, to.owner, now);
      } else {
        ExchangeCommits(accounts, f, t, p, now);
      }
    }
  }

  lemma ExchangeCommits(accounts: seq<Account>, f: nat, t: nat, p: Payment, now: int)
    requires Distinct(accounts) && ByNumber(accounts, p.from) == Ok(f) && ByNumber(accounts, p.to) == Ok(t)
    requires OpenTo(accounts[t], accounts[t].owner, now) && accounts[f].currency != accounts[t].currency && accounts[t].owner != -1
    requires p.fromAmount > 0 && p.toAmount > 0 && p.commission >= 0
    ensures PaymentTx(accounts, accounts[f], accounts[t], p, now).Ok? <==> PaymentFunded(accounts, p, now)
  {
    hide First, Move, CreditBank, CanPay, OpenTo;
    var from, to, x := accounts[f], accounts[t], p.fromAmount + p.commission;
    var s, g := ByOwner(accounts, BANK, from.currency), ByOwner(accounts, BANK, to.currency);
    if s.Ok? && g.Ok? {
      var sender, target := accounts[s.value], accounts[g.value];
      ByNumberOfRow(accounts, s.value);
      ByNumberOfRow(accounts, g.value);
      MoveCommits(accounts, from.number, x, from.owner, sender.number, x, sender.owner, now);
      var taken := Move(accounts, from.number, x, from.owner, sender.number, x, sender.owner, now);
      if taken.Ok? {
        UntouchedRows(accounts, taken.value, f, s.value, g.value, t, x, now);
        MoveCommits(taken.value, target.number, p.toAmount, target.owner, to.number, p.toAmount, to.owner, now);
      }
    }
  }

  /** The rows of the payee's currency are as they were after the payer's leg. */
  lemma UntouchedRows(accounts: seq<Account>, taken: seq<Account>, f: nat, s: nat, g: nat, t: nat, x: int, now: int)
    requires f < |accounts| && s < |accounts| && g < |accounts| && t < |accounts|
    requires ByNumber(accounts, accounts[f].number) == Ok(f) && ByNumber(accounts, accounts[s].number) == Ok(s)
    requires Move(accounts, accounts[f].number, x, accounts[f].owner, accounts[s].number, x, accounts[s].owner, now) == Ok(taken)
    requires g != f && g != s && t != f && t != s
    ensures |taken| == |accounts| && OpenTo(taken[t], accounts[t].owner, now) == OpenTo(accounts[t], accounts[t].owner, now)
    ensures forall y, c :: CanPay(taken[g], y, c, now) == CanPay(accounts[g], y, c, now)
    ensures forall n :: ByNumber(taken, n) == ByNumber(accounts, n)
  {
    hide Move, First;
    MoveRows(accounts, accounts[f].number, x, accounts[f].owner, accounts[s].number, x, accounts[s].owner, now);
    assert RowMoved(accounts[g], taken[g], 0, 0) && RowMoved(accounts[t], taken[t], 0, 0);
    forall n ensures ByNumber(taken, n) == ByNumber(accounts, n) {
      SameLookup(accounts, taken, n);
    }
  }

  lemma BankTransactionCommitsExactly(db: Db, from: string, to: string, amount: int, now: int)
    requires Distinct(db.accounts)
    ensures var client := ByNumber(db.accounts, if from == "" then to else from);
            Step(db, DoBankTransaction(from, to, amount), now).Ok? <==>
              (from != "" || to != "") && amount > 0 && client.Ok?
              && var c := db.accounts[client.value];
              var bank := ByOwner(db.accounts, -1, c.currency);
              bank.Ok? && if from == "" then CanPay(db.accounts[bank.value], amount, -1, now) && OpenTo(c, c.owner, now)
                          else CanPay(c, amount, c.owner, now) && OpenTo(db.accounts[bank.value], -1, now)
  {
    hide First, Move, CanPay, OpenTo;
    var accounts := db.accounts;
    var client := ByNumber(accounts, if from == "" then to else from);
    if client.Ok? && ByOwner(accounts, BANK, accounts[client.value].currency).Ok? {
      var c, b := client.value, ByOwner(accounts, BANK, accounts[client.value].currency).value;
      ByNumberOfRow(accounts, c);
      ByNumberOfRow(accounts, b);
      var s, t := if from == "" then b else c, if from == "" then c else b;
      MoveCommits(accounts, accounts[s].number, amount, accounts[s].owner, accounts[t].number, amount, accounts[t].owner, now);
    }
  }

  lemma TransferCommitsExactly(db: Db, from: string, to: string, amount: int, quote: Option<Quote>, now: int)
    requires Distinct(db.accounts)
    ensures var f, t := ByNumber(db.accounts, from), ByNumber(db.accounts, to);
            Step(db, DoTransfer(from, to, amount, quote), now).Ok? <==>
              from != "" && to != "" && amount > 0 && f.Ok? && t.Ok?
              && var a, b := db.accounts[f.value], db.accounts[t.value];
              CanPay(a, amount, a.owner, now) && OpenTo(b, b.owner, now)
              && (a.currency != b.currency ==>
                    quote.Some? && 0 < quote.value.commission < amount && quote.value.credited > 0
                    && BankOpen(db.accounts, a.currency, now))
  {
    hide First, Move, CreditBank, CanPay, OpenTo, BankOpen, Debit;
    var accounts := db.accounts;
    var f, t := ByNumber(accounts, from), ByNumber(accounts, to);
    if amount > 0 && f.Ok? && t.Ok? {
      var a, b := accounts[f.value], accounts[t.value];
      if a.currency == b.currency {
        MoveCommits(accounts, from, amount, a.owner, to, amount, b.owner, now);
      } else {
        DebitCommits(accounts, from, amount, a.owner, now);
        if quote.Some? {
          var q := quote.value;
          MoveCommits(accounts, from, amount, a.owner, to, q.credited, b.owner, now);
          var moved := Move(accounts, from, amount, a.owner, to, q.credited, b.owner, now);
          if moved.Ok? {
            MoveOpensNothing(accounts, from, amount, a.owner, to, q.credited, b.owner, now, a.currency);
            CreditBankCommits(moved.value, a.currency, q.commission, now);
          }
        }
      }
    }
  }

  lemma DebitCommits(accounts: seq<Account>, number: string, x: int, client: int, now: int)
    ensures var f := ByNumber(accounts, number);
            Debit(accounts, number, x, client, now).Ok? <==> x > 0 && f.Ok? && CanPay(accounts[f.value], x, client, now)
  {
    hide First;
  }

  lemma ReverseCommitsExactly(db: Db, id: nat, now: int)
    requires id < |db.transfers| && db.transfers[id].status == Completed
    ensures var log := db.transfers[id];
            var f, t := ByNumber(db.accounts, log.from), ByNumber(db.accounts, log.to);
            Step(db, DoReverse(id), now).Ok? <==>
              log.amount > 0 && f.Ok? && t.Ok? && CanPay(db.accounts[t.value], log.amount, db.accounts[t.value].owner, now)
              && OpenTo(db.accounts[f.value], db.accounts[f.value].owner, now)
  {
    hide First, Move, CanPay, OpenTo;
    var log := db.transfers[id];
    var f, t := ByNumber(db.accounts, log.from), ByNumber(db.accounts, log.to);
    if f.Ok? && t.Ok? {
      MoveCommits(db.accounts, log.to, log.amount, db.accounts[t.value].owner, log.from, log.amount, db.accounts[f.value].owner, now);
    }
  }

  lemma FundsCommitExactly(db: Db, owner: int, x: int, id: nat, now: int)
    requires Distinct(db.accounts)
    ensures var f := ByOwner(db.accounts, owner, "RSD");
            Step(db, DoReserveFunds(owner, x), now).Ok? <==> x > 0 && f.Ok? && CanPay(db.accounts[f.value], x, owner, now)
    ensures id < |db.funds| && db.funds[id].status == Held ==>
              var h := db.funds[id];
              var t := ByNumber(db.accounts, h.number);
              Step(db, DoReleaseFunds(id), now).Ok? <==> h.amount > 0 && t.Ok? && OpenTo(db.accounts[t.value], h.owner, now)
  {
    hide First, CanPay, Debit;
    var f := ByOwner(db.accounts, owner, RSD);
    if f.Ok? {
      ByNumberOfRow(db.accounts, f.value);
      DebitCommits(db.accounts, db.accounts[f.value].number, x, owner, now);
    }
  }
}
