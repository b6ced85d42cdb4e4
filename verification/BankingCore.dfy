/** The banking-core service as the source runs it: one object over the tables, statement after
    statement, with a rollback to the state at BEGIN when a statement fails. Each operation is
    proved to be the transaction of module Ledger that carries its name. */
module BankingCore {
  import opened Common
  import opened Accounts
  import opened Ledger

  /** A transaction either commits the whole new state or leaves everything as it was. */
  ghost predicate Atomic(before: Db, r: Result<Db, Error>, err: Option<Error>, after: Db) {
    if r.Ok? then err.None? && after == r.value else err == Some(r.error) && after == before
  }

  lemma FeesOfNone(bank: string)
    ensures Sum([], FeeDue) == 0 && FeeRecords([], bank) == []
  {
  }

  lemma FeesOfNext(accounts: seq<Account>, i: nat, bank: string)
    requires i < |accounts|
    ensures Sum(accounts[..i + 1], FeeDue) == Sum(accounts[..i], FeeDue) + FeeDue(accounts[i])
    ensures FeeRecords(accounts[..i + 1], bank) == FeeRecords(accounts[..i], bank)
              + if FeeDue(accounts[i]) > 0 then [FeeRecord(accounts[i].number, bank, FeeDue(accounts[i]))] else []
  {
    assert accounts[..i + 1][..i] == accounts[..i];
  }

  class Service {
    var accounts: seq<Account>
    var holds: seq<Hold>
    var funds: seq<Fund>
    var transfers: seq<Transfer>
    var audit: seq<FeeRecord>

    constructor (db: Db)
      ensures Tables() == db
    {
      accounts, holds, funds, transfers, audit := db.accounts, db.holds, db.funds, db.transfers, db.audit;
    }

    ghost function Tables(): Db
      reads this
    {
      Db(accounts, holds, funds, transfers, audit)
    }

    // Inside a transaction

    method DebitTx(number: string, amount: int, client: int, now: int) returns (err: Option<Error>)
      modifies this`accounts
      ensures var r := Debit(old(accounts), number, amount, client, now);
              if r.Ok? then err.None? && accounts == r.value else err == Some(r.error) && accounts == old(accounts)
    {
      if amount <= 0 {
        return Some(BadRequest);
      }
      var row := ByNumber(accounts, number);
      if row.Err? {
        return Some(row.error);
      }
      var a := accounts[row.value];
      if !Mutable(a, client, now) {
        return Some(BadRequest);
      }
      if a.available < amount {
        return Some(Conflict("ERR_INSUFFICIENT_FUNDS"));
      }
      if a.dailyLimit.Some? && a.daily + amount > a.dailyLimit.value {
        return Some(Conflict("ERR_DAILY_LIMIT_EXCEEDED"));
      }
      if a.dailyRemaining.Some? && a.dailyRemaining.value < amount {
        return Some(Conflict("ERR_DAILY_LIMIT_EXCEEDED"));
      }
      if a.monthlyLimit.Some? && a.monthly + amount > a.monthlyLimit.value {
        return Some(Conflict("ERR_MONTHLY_LIMIT_EXCEEDED"));
      }
      accounts := accounts[row.value := DebitRow(a, amount)];
      err := None;
    }

    method CreditTx(number: string, amount: int, client: int, now: int) returns (err: Option<Error>)
      modifies this`accounts
      ensures var r := Credit(old(accounts), number, amount, client, now);
              if r.Ok? then err.None? && accounts == r.value else err == Some(r.error) && accounts == old(accounts)
    {
      if amount <= 0 {
        return Some(BadRequest);
      }
      var row := ByNumber(accounts, number);
      if row.Err? {
        return Some(row.error);
      }
      if !Mutable(accounts[row.value], client, now) {
        return Some(BadRequest);
      }
      accounts := accounts[row.value := CreditRow(accounts[row.value], amount)];
      err := None;
    }

    /** Debit then credit; when the credit fails the debit is still in place for the caller to roll back. */
    method MoveTx(from: string, x: int, fromOwner: int, to: string, y: int, toOwner: int, now: int)
      returns (err: Option<Error>)
      modifies this`accounts
      ensures var r := Move(old(accounts), from, x, fromOwner, to, y, toOwner, now);
              if r.Ok? then err.None? && accounts == r.value else err == Some(r.error)
    {
      hide Debit, Credit;
      err := DebitTx(from, x, fromOwner, now);
      if err.None? {
        err := CreditTx(to, y, toOwner, now);
      }
    }

    method CreditBankTx(currency: string, amount: int, now: int) returns (err: Option<Error>)
      modifies this`accounts
      ensures var r := CreditBank(old(accounts), currency, amount, now);
              if r.Ok? then err.None? && accounts == r.value else err == Some(r.error)
    {
      hide Credit;
      var bank := ByOwner(accounts, BANK, currency);
      if bank.Err? {
        return Some(bank.error);
      }
      err := CreditTx(accounts[bank.value].number, amount, accounts[bank.value].owner, now);
    }

    method ApplyPaymentTx(from: Account, to: Account, p: Payment, now: int) returns (err: Option<Error>)
      modifies this`accounts
      ensures var r := PaymentTx(old(accounts), from, to, p, now);
              if r.Ok? then err.None? && accounts == r.value else err == Some(r.error)
    {
      hide Move, CreditBank;
      if p.fromAmount <= 0 || p.toAmount <= 0 || p.commission < 0 {
        return Some(BadRequest);
      }
      if from.currency == to.currency {
        err := MoveTx(from.number, p.fromAmount + p.commission, from.owner, to.number, p.toAmount, to.owner, now);
        if err.None? && p.commission > 0 {
          err := CreditBankTx(from.currency, p.commission, now);
        }
        return;
      }
      if to.owner == BANK {
        err := MoveTx(from.number, p.fromAmount, from.owner, to.number, p.toAmount, to.owner, now);
        return;
      }
      var sender := ByOwner(accounts, BANK, from.currency);
      if sender.Err? {
        return Some(sender.error);
      }
      var target := ByOwner(accounts, BANK, to.currency);
      if target.Err? {
        return Some(target.error);
      }
      var s, t, x := accounts[sender.value], accounts[target.value], p.fromAmount + p.commission;
      err := MoveTx(from.number, x, from.owner, s.number, x, s.owner, now);
      if err.None? {
        err := MoveTx(t.number, p.toAmount, t.owner, to.number, p.toAmount, to.owner, now);
      }
    }

    // Transactions

    method ApplyPaymentOperation(p: Payment, sameOwner: bool, now: int) returns (err: Option<Error>)
      modifies this`accounts
      ensures Atomic(old(Tables()), Step(old(Tables()), DoPayment(p, sameOwner), now), err, Tables())
    {
      hide PaymentTx;
      var saved := accounts;
      var from := ByNumber(accounts, p.from);
      if from.Err? {
        return Some(from.error);
      }
      var f := accounts[from.value];
      if !Mutable(f, f.owner, now) {
        return Some(BadRequest);
      }
      var to := ByNumber(accounts, p.to);
      if to.Err? {
        return Some(to.error);
      }
      var t := accounts[to.value];
      if !Mutable(t, t.owner, now) || p.client == 0 || f.owner != p.client {
        return Some(BadRequest);
      }
      if (sameOwner && f.owner != t.owner) || (!sameOwner && f.owner == t.owner) {
        return Some(BadRequest);
      }
      err := ApplyPaymentTx(f, t, p, now);
      if err.Some? {
        accounts := saved;
      }
    }

    method TransactionFromBank(from: string, to: string, amount: int, now: int) returns (err: Option<Error>)
      modifies this`accounts
      ensures Atomic(old(Tables()), Step(old(Tables()), DoBankTransaction(from, to, amount), now), err, Tables())
    {
      hide Move;
      if from == "" && to == "" {
        return Some(BadRequest);
      }
      var saved := accounts;
      var client := ByNumber(accounts, if from == "" then to else from);
      if client.Err? {
        return Some(client.error);
      }
      var c := accounts[client.value];
      var bank := ByOwner(accounts, BANK, c.currency);
      if bank.Err? {
        return Some(bank.error);
      }
      var b := accounts[bank.value];
      if from == "" {
        err := MoveTx(b.number, amount, b.owner, c.number, amount, c.owner, now);
      } else {
        err := MoveTx(c.number, amount, c.owner, b.number, amount, b.owner, now);
      }
      if err.Some? {
        accounts := saved;
      }
    }

    method TransferInternal(from: string, to: string, amount: int, quote: Option<Quote>, now: int)
      returns (err: Option<Error>, id: nat)
      modifies this`accounts, this`transfers
      ensures Atomic(old(Tables()), Step(old(Tables()), DoTransfer(from, to, amount, quote), now), err, Tables())
      ensures err.None? ==> id < |transfers| && transfers[id] == Transfer(from, to, amount, Completed)
    {
      hide Debit, Credit, CreditBank;
      id := 0;
      if from == "" || to == "" || amount <= 0 {
        return Some(BadRequest), id;
      }
      var saved := accounts;
      var source := ByNumber(accounts, from);
      if source.Err? {
        return Some(source.error), id;
      }
      var target := ByNumber(accounts, to);
      if target.Err? {
        return Some(target.error), id;
      }
      var s, t := accounts[source.value], accounts[target.value];
      err := DebitTx(from, amount, s.owner, now);
      if err.None? {
        if s.currency == t.currency {
          err := CreditTx(to, amount, t.owner, now);
        } else if quote.None? || amount - quote.value.commission <= 0 {
          err := Some(BadRequest);
        } else {
          err := CreditTx(to, quote.value.credited, t.owner, now);
          if err.None? {
            err := CreditBankTx(s.currency, quote.value.commission, now);
          }
        }
      }
      if err.Some? {
        accounts := saved;
      } else {
        id := |transfers|;
        transfers := transfers + [Transfer(from, to, amount, Completed)];
      }
    }

    method ReverseTransfer(id: nat, now: int) returns (err: Option<Error>)
      modifies this`accounts, this`transfers
      ensures Atomic(old(Tables()), Step(old(Tables()), DoReverse(id), now), err, Tables())
    {
      hide Move;
      if id >= |transfers| || transfers[id].status != Completed {
        return None;
      }
      var saved, log := accounts, transfers[id];
      var source := ByNumber(accounts, log.to);
      if source.Err? {
        return Some(source.error);
      }
      var target := ByNumber(accounts, log.from);
      if target.Err? {
        return Some(target.error);
      }
      var s, t := accounts[source.value], accounts[target.value];
      err := MoveTx(log.to, log.amount, s.owner, log.from, log.amount, t.owner, now);
      if err.Some? {
        accounts := saved;
      } else {
        transfers := transfers[id := log.(status := Reversed)];
      }
    }

    method ReserveFunds(owner: int, amount: int, now: int) returns (err: Option<Error>, id: nat)
      modifies this`accounts, this`funds
      ensures Atomic(old(Tables()), Step(old(Tables()), DoReserveFunds(owner, amount), now), err, Tables())
      ensures id == old(|funds|)
    {
      hide Debit;
      id := |funds|;
      if amount <= 0 {
        return Some(BadRequest), id;
      }
      var found := ByOwner(accounts, owner, RSD);
      if found.Err? {
        return Some(BadRequest), id;
      }
      var number := accounts[found.value].number;
      err := DebitTx(number, amount, owner, now);
      if err.None? {
        funds := funds + [Fund(owner, number, amount, Held)];
      }
    }

    /** Answers the status of the reservation afterwards, or none when there is no such reservation. */
    method ReleaseFunds(id: nat, now: int) returns (err: Option<Error>, status: Option<HoldStatus>)
      modifies this`accounts, this`funds
      ensures Atomic(old(Tables()), Step(old(Tables()), DoReleaseFunds(id), now), err, Tables())
      ensures err.None? ==> status == if id < |funds| then Some(funds[id].status) else None
    {
      hide Credit;
      if id >= |funds| {
        return None, None;
      }
      var f := funds[id];
      if f.status != Held {
        return None, Some(f.status);
      }
      err := CreditTx(f.number, f.amount, f.owner, now);
      status := Some(Released);
      if err.None? {
        funds := funds[id := f.(status := Released)];
      }
    }

    method CommitFunds(id: nat) returns (status: Option<HoldStatus>)
      modifies this`funds
      ensures Tables() == Ledger.CommitFunds(old(Tables()), id)
      ensures status == if id < |funds| then Some(funds[id].status) else None
    {
      if id >= |funds| {
        return None;
      }
      if funds[id].status == Held {
        funds := funds[id := funds[id].(status := Committed)];
      }
      status := Some(funds[id].status);
    }

    // Interbank reservations

    method ReserveMonas(number: string, currency: string, amount: int, local: string)
      returns (err: Option<Error>, id: nat)
      modifies this`accounts, this`holds
      ensures Atomic(old(Tables()), Step(old(Tables()), DoReserve(number, currency, amount, local), 0), err, Tables())
      ensures id == old(|holds|)
    {
      id := |holds|;
      if number == "" || currency == "" || local == "" || amount <= 0 {
        return Some(BadRequest), id;
      }
      var row := ByNumber(accounts, number);
      if row.Err? {
        return Some(row.error), id;
      }
      var a := accounts[row.value];
      if a.currency != currency {
        return Some(BadRequest), id;
      }
      if a.available < amount {
        return Some(Conflict("ERR_INSUFFICIENT_ASSET")), id;
      }
      accounts := accounts[row.value := a.(available := a.available - amount)];
      holds := holds + [Hold(number, currency, amount, Held)];
      err := None;
    }

    method CommitReservation(id: nat) returns (err: Option<Error>)
      modifies this`accounts, this`holds
      ensures Atomic(old(Tables()), Step(old(Tables()), DoCommit(id), 0), err, Tables())
    {
      if id >= |holds| {
        return Some(NotFound);
      }
      var res := holds[id];
      if res.status == Committed {
        return None;
      }
      if res.status != Held {
        return Some(Conflict("ERR_INVALID_RESERVATION_STATE"));
      }
      var row := ByNumber(accounts, res.number);
      if row.Err? {
        return Some(row.error);
      }
      var a := accounts[row.value];
      accounts := accounts[row.value := a.(booked := a.booked - res.amount)];
      holds := holds[id := res.(status := Committed)];
      err := None;
    }

    method ReleaseReservation(id: nat) returns (err: Option<Error>)
      modifies this`accounts, this`holds
      ensures Atomic(old(Tables()), Step(old(Tables()), DoRelease(id), 0), err, Tables())
    {
      if id >= |holds| {
        return Some(NotFound);
      }
      var res := holds[id];
      if res.status == Released {
        return None;
      }
      if res.status == Committed {
        return Some(Conflict("ERR_INVALID_RESERVATION_STATE"));
      }
      var row := ByNumber(accounts, res.number);
      if row.Err? {
        return Some(row.error);
      }
      var a := accounts[row.value];
      accounts := accounts[row.value := a.(available := a.available + res.amount)];
      holds := holds[id := res.(status := Released)];
      err := None;
    }

    // Scheduled jobs

    method ResetDailySpending()
      modifies this`accounts
      ensures Tables() == Apply(old(Tables()), DoResetDay, 0)
    {
      accounts := seq(|accounts|, i requires 0 <= i < |accounts| reads this => DayReset(accounts[i]));
    }

    method ResetMonthlySpending()
      modifies this`accounts
      ensures Tables() == Apply(old(Tables()), DoResetMonth, 0)
    {
      accounts := seq(|accounts|, i requires 0 <= i < |accounts| reads this => MonthReset(accounts[i]));
    }

    /** The loop works on the rows as read before the first write and writes absolute values. */
    method ChargeFees(bank: string) returns (total: int)
      modifies this`accounts, this`audit
      ensures accounts == MapRows(old(accounts), ChargeFee)
      ensures audit == old(audit) + FeeRecords(old(accounts), bank)
      ensures total == FeeTotal(old(accounts))
    {
      hide Sum, FeeRecords;
      var list := accounts;
      total := 0;
      FeesOfNone(bank);
      assert list[..0] == [];
      for i := 0 to |list|
        invariant |accounts| == |list|
        invariant forall j :: 0 <= j < i ==> accounts[j] == ChargeFee(list[j])
        invariant forall j :: i <= j < |list| ==> accounts[j] == list[j]
        invariant audit == old(audit) + FeeRecords(list[..i], bank)
        invariant total == Sum(list[..i], FeeDue)
      {
        var acc := list[i];
        FeesOfNext(list, i, bank);
        if acc.checking && acc.status == Active && !acc.deleted && acc.fee.Some? && acc.fee.value > 0 {
          if acc.available >= acc.fee.value {
            accounts := accounts[i := acc.(booked := acc.booked - acc.fee.value, available := acc.available - acc.fee.value)];
            audit := audit + [FeeRecord(acc.number, bank, acc.fee.value)];
            total := total + acc.fee.value;
          }
        }
      }
      assert list[..|list|] == list;
    }

    /** The bank's row, read before the loop, is written last. */
    method RunMaintenanceFees(bankClient: int, bank: nat)
      modifies this`accounts, this`audit
      ensures Tables() == Apply(old(Tables()), DoFees(bankClient, bank), 0)
    {
      if bank >= |accounts| || accounts[bank].owner != bankClient || accounts[bank].currency != RSD {
        return;
      }
      var bankRow := accounts[bank];
      var total := ChargeFees(bankRow.number);
      accounts := accounts[bank := bankRow.(booked := bankRow.booked + total, available := bankRow.available + total)];
      assert accounts == FeesCharged(old(accounts), bank);
    }

    method EditAccountLimit(number: string, principal: int, daily: int, monthly: int, verified: bool)
      returns (err: Option<Error>)
      modifies this`accounts
      ensures Atomic(old(Tables()), Step(old(Tables()), DoEditLimits(number, principal, daily, monthly, verified), 0), err, Tables())
    {
      if daily <= 0 || monthly <= 0 || daily > monthly {
        return Some(BadRequest);
      }
      var row := ByNumber(accounts, number);
      if row.Err? {
        return Some(row.error);
      }
      if accounts[row.value].owner != principal {
        return Some(BadRequest);
      }
      if !verified {
        return Some(Conflict("ERR_VERIFICATION_FAILED"));
      }
      accounts := accounts[row.value := accounts[row.value].(dailyLimit := Some(daily), monthlyLimit := Some(monthly))];
      err := None;
    }
  }
}
