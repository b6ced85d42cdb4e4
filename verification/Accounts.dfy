/** The account table and the two primitives every money movement is made of: DebitTx and CreditTx.

    Amounts are whole cents. The table is the sequence of its rows in id order, so a query
    `ORDER BY id LIMIT 1` is the first matching row. `today`, `month` and `dayLimit` are history
    columns: they record what the spending counters stand for and no operation reads them. */
module Accounts {
  import opened Common

  datatype Error = BadRequest | NotFound | Conflict(code: string)

  datatype Status = Active | Inactive

  /** One debit and the limit that was in force when it was made. */
  datatype Spend = Spend(amount: int, limit: Option<int>)

  datatype Account = Account(
    number: string, owner: int, currency: string,
    booked: int, available: int,
    status: Status, expiresAt: Option<int>, deleted: bool,
    checking: bool, fee: Option<int>,
    dailyLimit: Option<int>, monthlyLimit: Option<int>,
    daily: int, monthly: int, dailyRemaining: Option<int>,
    today: seq<Spend>, month: seq<Spend>, dayLimit: Option<int>)

  const BANK := -1
  const RSD := "RSD"

  // Queries

  function Live(number: string): Account -> bool {
    (a: Account) => a.number == number && !a.deleted
  }

  function LiveOf(owner: int, currency: string): Account -> bool {
    (a: Account) => a.owner == owner && a.currency == currency && !a.deleted
  }

  function ByNumber(accounts: seq<Account>, number: string): (r: Result<nat, Error>)
    ensures r.Ok? ==> r.value < |accounts| && accounts[r.value].number == number && !accounts[r.value].deleted
    ensures r.Err? ==> forall i :: 0 <= i < |accounts| ==> accounts[i].deleted || accounts[i].number != number
  {
    var i := First(accounts, Live(number));
    if i < |accounts| then Ok(i)
    else
      assert forall j :: 0 <= j < |accounts| ==> !Live(number)(accounts[j]);
      Err(NotFound)
  }

  function ByOwner(accounts: seq<Account>, owner: int, currency: string): (r: Result<nat, Error>)
    ensures r.Ok? ==> r.value < |accounts| && !accounts[r.value].deleted
                      && accounts[r.value].owner == owner && accounts[r.value].currency == currency
    ensures forall j :: 0 <= j < (if r.Ok? then r.value else |accounts|) ==>
              accounts[j].deleted || accounts[j].owner != owner || accounts[j].currency != currency
  {
    var i := First(accounts, LiveOf(owner, currency));
    assert forall j :: 0 <= j < i ==> !LiveOf(owner, currency)(accounts[j]);
    if i < |accounts| then Ok(i) else Err(NotFound)
  }

  // Debit and credit

  predicate Mutable(a: Account, client: int, now: int) {
    && a.status != Inactive
    && !(a.expiresAt.Some? && a.expiresAt.value < now)
    && (a.owner == BANK || a.owner == client)
  }

  predicate Within(total: int, limit: Option<int>) {
    limit.Some? ==> total <= limit.value
  }

  /** The error DebitTx answers with once it has locked row `a`, if any. */
  function DebitError(a: Account, amount: int, client: int, now: int): Option<Error> {
    if !Mutable(a, client, now) then Some(BadRequest)
    else if a.available < amount then Some(Conflict("ERR_INSUFFICIENT_FUNDS"))
    else if !Within(a.daily + amount, a.dailyLimit) then Some(Conflict("ERR_DAILY_LIMIT_EXCEEDED"))
    else if a.dailyRemaining.Some? && a.dailyRemaining.value < amount then Some(Conflict("ERR_DAILY_LIMIT_EXCEEDED"))
    else if !Within(a.monthly + amount, a.monthlyLimit) then Some(Conflict("ERR_MONTHLY_LIMIT_EXCEEDED"))
    else None
  }

  function DebitRow(a: Account, amount: int): Account {
    a.(booked := a.booked - amount, available := a.available - amount,
       daily := a.daily + amount, monthly := a.monthly + amount,
       dailyRemaining := if a.dailyRemaining.Some? then Some(a.dailyRemaining.value - amount) else None,
       today := a.today + [Spend(amount, a.dailyLimit)],
       month := a.month + [Spend(amount, a.monthlyLimit)])
  }

  function CreditRow(a: Account, amount: int): Account {
    a.(booked := a.booked + amount, available := a.available + amount)
  }

  function Debit(accounts: seq<Account>, number: string, amount: int, client: int, now: int)
    : Result<seq<Account>, Error>
  {
    if amount <= 0 then Err(BadRequest) else
    var i :- ByNumber(accounts, number);
    var e := DebitError(accounts[i], amount, client, now);
    if e.Some? then Err(e.value) else Ok(accounts[i := DebitRow(accounts[i], amount)])
  }

  function Credit(accounts: seq<Account>, number: string, amount: int, client: int, now: int)
    : Result<seq<Account>, Error>
  {
    if amount <= 0 then Err(BadRequest) else
    var i :- ByNumber(accounts, number);
    if !Mutable(accounts[i], client, now) then Err(BadRequest)
    else Ok(accounts[i := CreditRow(accounts[i], amount)])
  }

  // Interbank reservations (rows of interbank_reservations; the row position is the reservation id)

  datatype HoldStatus = Held | Committed | Released

  datatype Hold = Hold(number: string, currency: string, amount: int, status: HoldStatus)

  function HeldOf(number: string): Hold -> int {
    (h: Hold) => if h.status == Held && h.number == number then h.amount else 0
  }

  function HeldFor(holds: seq<Hold>, number: string): int {
    Sum(holds, HeldOf(number))
  }

  // What every row keeps

  /** `total` is what the debits in `spends` add up to, and every one of them was within the limit
      in force when it was made. */
  predicate Tally(spends: seq<Spend>, total: int) {
    if spends == [] then total == 0
    else
      var last := spends[|spends| - 1];
      && Within(total, last.limit)
      && last.amount > 0
      && Tally(spends[..|spends| - 1], total - last.amount)
  }

  predicate SpendOk(a: Account) {
    && Tally(a.today, a.daily)
    && Tally(a.month, a.monthly)
    && (a.dailyLimit.Some? ==> a.dailyLimit.value >= 0)
    && (a.dailyRemaining.Some? <==> a.dayLimit.Some?)
    && (a.dayLimit.Some? ==>
          a.dailyRemaining.value >= 0 && a.daily + a.dailyRemaining.value == a.dayLimit.value)
  }

  /** Booked minus available is exactly what is reserved, and available money is never negative. */
  predicate RowOk(a: Account, held: int) {
    a.available >= 0 && a.booked == a.available + held && SpendOk(a)
  }

  predicate Distinct(accounts: seq<Account>) {
    forall i, j :: 0 <= i < j < |accounts| ==> accounts[i].number != accounts[j].number
  }

  predicate AccountsOk(accounts: seq<Account>, holds: seq<Hold>) {
    && Distinct(accounts)
    && forall i :: 0 <= i < |accounts| ==> RowOk(accounts[i], HeldFor(holds, accounts[i].number))
  }

  /** The same accounts: nothing but balances, limits, status and counters may differ. */
  predicate SameRows(accounts: seq<Account>, accounts': seq<Account>) {
    && |accounts| == |accounts'|
    && forall i :: 0 <= i < |accounts| ==>
         var a, b := accounts[i], accounts'[i];
         a.number == b.number && a.owner == b.owner && a.currency == b.currency && a.deleted == b.deleted
  }

  lemma SameLookup(accounts: seq<Account>, accounts': seq<Account>, number: string)
    requires SameRows(accounts, accounts')
    ensures ByNumber(accounts, number) == ByNumber(accounts', number)
    ensures CurrencyOf(accounts, number) == CurrencyOf(accounts', number)
  {
    FirstSame(accounts, accounts', Live(number));
  }

  // Totals

  function BookedIn(currency: string): Account -> int {
    (a: Account) => if a.currency == currency then a.booked else 0
  }

  function Booked(accounts: seq<Account>, currency: string): int {
    Sum(accounts, BookedIn(currency))
  }

  function CurrencyOf(accounts: seq<Account>, number: string): string {
    var r := ByNumber(accounts, number);
    if r.Ok? then accounts[r.value].currency else ""
  }

  function If(condition: bool, amount: int): int {
    if condition then amount else 0
  }

  lemma TallyAppend(spends: seq<Spend>, total: int, amount: int, limit: Option<int>)
    requires Tally(spends, total) && amount > 0 && Within(total + amount, limit)
    ensures Tally(spends + [Spend(amount, limit)], total + amount)
  {
    assert (spends + [Spend(amount, limit)])[..|spends|] == spends;
  }

  /** A debit that is let through keeps the row sound: the money is available, the counters still
      add up and both limits in force are respected. */
  lemma DebitRowOk(a: Account, held: int, amount: int, client: int, now: int)
    requires RowOk(a, held) && amount > 0 && DebitError(a, amount, client, now).None?
    ensures RowOk(DebitRow(a, amount), held)
  {
    TallyAppend(a.today, a.daily, amount, a.dailyLimit);
    TallyAppend(a.month, a.monthly, amount, a.monthlyLimit);
  }

  lemma BookedUpdate(accounts: seq<Account>, i: nat, row: Account)
    requires i < |accounts| && row.currency == accounts[i].currency
    ensures forall c :: Booked(accounts[i := row], c)
                        == Booked(accounts, c) + If(c == row.currency, row.booked - accounts[i].booked)
  {
    forall c ensures Booked(accounts[i := row], c)
                     == Booked(accounts, c) + If(c == row.currency, row.booked - accounts[i].booked)
    {
      SumUpdate(accounts, i, row, BookedIn(c));
    }
  }

  lemma UpdateKeeps(accounts: seq<Account>, holds: seq<Hold>, i: nat, row: Account)
    requires AccountsOk(accounts, holds) && i < |accounts|
    requires var a := accounts[i];
             a.number == row.number && a.owner == row.owner && a.currency == row.currency && a.deleted == row.deleted
    requires RowOk(row, HeldFor(holds, row.number))
    ensures AccountsOk(accounts[i := row], holds) && SameRows(accounts, accounts[i := row])
  {
  }

  lemma DebitKeeps(accounts: seq<Account>, holds: seq<Hold>, number: string, amount: int, client: int, now: int)
    requires AccountsOk(accounts, holds)
    requires Debit(accounts, number, amount, client, now).Ok?
    ensures var after := Debit(accounts, number, amount, client, now).value;
            && AccountsOk(after, holds) && SameRows(accounts, after)
            && forall c :: Booked(after, c) == Booked(accounts, c) - If(c == CurrencyOf(accounts, number), amount)
  {
    var i := ByNumber(accounts, number).value;
    DebitRowOk(accounts[i], HeldFor(holds, number), amount, client, now);
    UpdateKeeps(accounts, holds, i, DebitRow(accounts[i], amount));
    BookedUpdate(accounts, i, DebitRow(accounts[i], amount));
  }

  lemma CreditKeeps(accounts: seq<Account>, holds: seq<Hold>, number: string, amount: int, client: int, now: int)
    requires AccountsOk(accounts, holds)
    requires Credit(accounts, number, amount, client, now).Ok?
    ensures var after := Credit(accounts, number, amount, client, now).value;
            && AccountsOk(after, holds) && SameRows(accounts, after)
            && forall c :: Booked(after, c) == Booked(accounts, c) + If(c == CurrencyOf(accounts, number), amount)
  {
    var i := ByNumber(accounts, number).value;
    UpdateKeeps(accounts, holds, i, CreditRow(accounts[i], amount));
    BookedUpdate(accounts, i, CreditRow(accounts[i], amount));
  }

  // What the spending counters mean

  function SpendAmount(): Spend -> int {
    (s: Spend) => s.amount
  }

  /** Every debit counted since the reset left the running total within the limit then in force. */
  lemma {:induction false} TallyMeaning(spends: seq<Spend>, total: int)
    requires Tally(spends, total)
    ensures total == Sum(spends, SpendAmount())
    ensures forall k :: 0 <= k < |spends| ==>
              spends[k].amount > 0 && Within(Sum(spends[..k + 1], SpendAmount()), spends[k].limit)
  {
    if spends != [] {
      var n := |spends| - 1;
      TallyMeaning(spends[..n], total - spends[n].amount);
      assert spends[..n + 1] == spends;
      forall k | 0 <= k < n
        ensures spends[k].amount > 0 && Within(Sum(spends[..k + 1], SpendAmount()), spends[k].limit)
      {
        assert spends[k] == spends[..n][k];
        assert spends[..k + 1] == spends[..n][..k + 1];
      }
    }
  }

  /** In a sound row the recorded daily spending is the sum of the debits since the reset, stayed
      within the limit in force at each of them, and together with the remaining allowance equals
      the limit at the reset, so it never exceeds that limit either. Monthly spending likewise. */
  lemma SpendingMeaning(a: Account, held: int)
    requires RowOk(a, held)
    ensures a.daily == Sum(a.today, SpendAmount()) && a.monthly == Sum(a.month, SpendAmount())
    ensures forall k :: 0 <= k < |a.today| ==> Within(Sum(a.today[..k + 1], SpendAmount()), a.today[k].limit)
    ensures forall k :: 0 <= k < |a.month| ==> Within(Sum(a.month[..k + 1], SpendAmount()), a.month[k].limit)
    ensures a.dayLimit.Some? ==> a.dailyRemaining.Some? && a.daily + a.dailyRemaining.value == a.dayLimit.value
    ensures Within(a.daily, a.dayLimit)
  {
    TallyMeaning(a.today, a.daily);
    TallyMeaning(a.month, a.monthly);
  }
}
