/** Inputs on the failing side of the conservation results: operations that commit and do not conserve. */
module Witnesses {
  import opened Common
  import opened Accounts
  import opened Ledger
  import opened LedgerSafety
  import opened Conservation

  function Row(number: string, owner: int, currency: string, balance: int, fee: Option<int>): Account {
    Account(number, owner, currency, balance, balance, Active, None, false, fee.Some?, fee,
            None, None, 0, 0, None, [], [], None)
  }

  /** A client's EUR account, the same client's RSD account, the bank's EUR and RSD accounts. */
  function Table(): seq<Account> {
    [Row("1", 5, "EUR", 10_000, None), Row("22", 5, RSD, 10_000, None),
     Row("333", BANK, "EUR", 10_000, None), Row("4444", BANK, RSD, 10_000, None)]
  }

  lemma RowIsSound(number: string, owner: int, currency: string, balance: nat)
    ensures RowOk(Row(number, owner, currency, balance, None), 0)
  {
  }

  lemma TableIsOk()
    ensures AccountsOk(Table(), [])
  {
    hide First, RowOk;
    var a := Table();
    RowIsSound("1", 5, "EUR", 10_000);
    RowIsSound("22", 5, RSD, 10_000);
    RowIsSound("333", BANK, "EUR", 10_000);
    RowIsSound("4444", BANK, RSD, 10_000);
    assert |a[0].number| == 1 && |a[1].number| == 2 && |a[2].number| == 3 && |a[3].number| == 4;
    forall i | 0 <= i < |a| ensures RowOk(a[i], HeldFor([], a[i].number)) {
      assert HeldFor([], a[i].number) == 0;
      assert i == 0 || i == 1 || i == 2 || i == 3;
    }
  }

  lemma TableIsSound()
    ensures AccountsOk(Table(), [])
    ensures ByNumber(Table(), "1") == Ok(0) && ByNumber(Table(), "22") == Ok(1)
            && ByNumber(Table(), "333") == Ok(2) && ByNumber(Table(), "4444") == Ok(3)
    ensures |Table()| == 4 && "EUR" != RSD
  {
    hide First, AccountsOk;
    TableIsOk();
    var a := Table();
    assert "EUR"[0] != RSD[0];
    assert |a[0].number| == 1 && |a[1].number| == 2 && |a[2].number| == 3 && |a[3].number| == 4;
  }

  /** Euros paid to the bank's dinar account: the euros are gone and the dinars are new. */
  lemma PaymentToBankChangesTotals()
    ensures var p := Payment("1", "4444", 100, 11_700, 0, 5);
            var r := PaymentOperation(Table(), p, false, 0);
            r.Ok? && !SameTotals(Table(), r.value)
  {
    hide First, SameTotals, AccountsOk, Move;
    TableIsSound();
    var p := Payment("1", "4444", 100, 11_700, 0, 5);
    MoveSucceedsExactly(Table(), "1", 100, 5, "4444", 11_700, BANK, 0);
    assert PaymentOperation(Table(), p, false, 0).Ok?;
    PaymentConservesExactly(Table(), [], p, false, 0);
  }

  /** Unequal amounts within one currency. */
  lemma UnequalPaymentChangesTotals()
    ensures var p := Payment("22", "4444", 100, 101, 0, 5);
            var r := PaymentOperation(Table(), p, false, 0);
            r.Ok? && !SameTotals(Table(), r.value)
  {
    hide First, SameTotals, AccountsOk, Move;
    TableIsSound();
    var p := Payment("22", "4444", 100, 101, 0, 5);
    MoveSucceedsExactly(Table(), "22", 100, 5, "4444", 101, BANK, 0);
    assert PaymentOperation(Table(), p, false, 0).Ok?;
    PaymentConservesExactly(Table(), [], p, false, 0);
  }

  /** The table after 100 euros have left the client's first account and 1000 dinars reached the second. */
  function MovedTable(): seq<Account> {
    Table()[0 := DebitRow(Table()[0], 100)][1 := CreditRow(Table()[1], 1000)]
  }

  /** The table after the commission has been booked too. */
  function SentTable(): seq<Account> {
    MovedTable()[2 := CreditRow(Table()[2], 10)]
  }

  lemma MoveCommits()
    ensures Move(Table(), "1", 100, 5, "22", 1000, 5, 0) == Ok(MovedTable())
    ensures SameRows(Table(), MovedTable())
  {
    hide First;
    TableIsSound();
    var debited := Table()[0 := DebitRow(Table()[0], 100)];
    assert Debit(Table(), "1", 100, 5, 0) == Ok(debited);
    assert SameRows(Table(), debited);
    SameLookup(Table(), debited, "22");
  }

  lemma CommissionCommits()
    ensures CreditBank(MovedTable(), "EUR", 10, 0) == Ok(SentTable())
  {
    hide First, Move;
    TableIsSound();
    MoveCommits();
    SameLookup(Table(), MovedTable(), "333");
    SameOwner();
    var b := MovedTable()[2];
    assert b == Table()[2] && b.number == "333" && Mutable(b, b.owner, 0);
  }

  lemma SameOwner()
    ensures ByOwner(MovedTable(), BANK, "EUR") == Ok(2)
  {
    hide First;
    TableIsSound();
    var m := MovedTable();
    assert m[2].owner == BANK && m[2].currency == "EUR" && !m[2].deleted;
    assert m[0].owner == 5 && m[1].owner == 5 && m[3].currency == RSD;
  }

  lemma ForeignTransferCommits()
    ensures TransferTx(Table(), "1", "22", 100, Some(Quote(10, 1000)), 0) == Ok(SentTable())
  {
    hide First, Move, CreditBank, MovedTable, SentTable;
    TableIsSound();
    MoveCommits();
    CommissionCommits();
    DebitSucceeds();
  }

  lemma DebitSucceeds()
    ensures Debit(Table(), "1", 100, 5, 0).Ok?
  {
    hide First;
    TableIsSound();
  }

  /** A transfer between currencies commits, and neither it nor its reversal conserves; the reversal does
      not bring the balances back either. */
  lemma ForeignTransferIsNotUndone()
    ensures var sent := TransferTx(Table(), "1", "22", 100, Some(Quote(10, 1000)), 0);
            sent.Ok? && !SameTotals(Table(), sent.value)
            && var back := ReverseTx(sent.value, Transfer("1", "22", 100, Completed), 0);
            back.Ok? && !SameTotals(sent.value, back.value) && !SameBalances(Table(), back.value)
  {
    hide First, SameTotals, AccountsOk, Move, SameBalances, TransferTx;
    TableIsSound();
    var accounts, quote, log := Table(), Some(Quote(10, 1000)), Transfer("1", "22", 100, Completed);
    ForeignTransferCommits();
    var sent := SentTable();
    TransferConservesExactly(accounts, [], "1", "22", 100, quote, 0);
    TransferKeeps(accounts, [], "1", "22", 100, quote, 0);
    SameLookup(accounts, sent, "1");
    SameLookup(accounts, sent, "22");
    assert Debitable(sent[1], 100, 5, 0) && Mutable(sent[0], 5, 0);
    MoveSucceedsExactly(sent, "22", 100, 5, "1", 100, 5, 0);
    assert ReverseTx(sent, log, 0).Ok?;
    ReverseConservesExactly(sent, [], log, 0);
    ReverseUndoesExactly(accounts, [], "1", "22", 100, quote, 0, 0);
  }

  /** A fee on the bank's own row creates money; a fee on a foreign-currency row changes currency. */
  lemma FeesCanMissBalance(fee: nat)
    requires 0 < fee <= 10_000
    ensures !SameTotals([Row("1", BANK, RSD, 10_000, Some(fee))], FeesCharged([Row("1", BANK, RSD, 10_000, Some(fee))], 0))
    ensures var accounts := [Row("1", BANK, RSD, 10_000, None), Row("22", 5, "EUR", 10_000, Some(fee))];
            !SameTotals(accounts, FeesCharged(accounts, 0))
  {
    hide SameTotals, FeesCharged;
    var own := [Row("1", BANK, RSD, 10_000, Some(fee))];
    assert FeeDue(own[0]) > 0;
    FeesConserveExactly(own, 0);
    var foreign := [Row("1", BANK, RSD, 10_000, None), Row("22", 5, "EUR", 10_000, Some(fee))];
    assert FeeDue(foreign[1]) > 0 && "EUR"[0] != RSD[0];
    FeesConserveExactly(foreign, 0);
  }
}
