/** The banking-core tables and the transactions over them, each as a function from the committed
    tables to the tables after commit, or to the error that rolls the transaction back. */
module Ledger {
  import opened Common
  import opened Accounts

  /** A row of fund_reservations; its currency column is always RSD. */
  datatype Fund = Fund(owner: int, number: string, amount: int, status: HoldStatus)

  datatype TransferStatus = Completed | Reversed

  /** A row of internal_transfer_log. */
  datatype Transfer = Transfer(from: string, to: string, amount: int, status: TransferStatus)

  /** A row of transaction_record_table, written for each maintenance fee. */
  datatype FeeRecord = FeeRecord(number: string, bank: string, amount: int)

  datatype Db = Db(accounts: seq<Account>, holds: seq<Hold>, funds: seq<Fund>,
                   transfers: seq<Transfer>, audit: seq<FeeRecord>)

  // Payments

  datatype Payment = Payment(from: string, to: string, fromAmount: int, toAmount: int,
                             commission: int, client: int)

  /** A debit and a credit in one transaction. */
  function Move(accounts: seq<Account>, from: string, x: int, fromOwner: int,
                to: string, y: int, toOwner: int, now: int): Result<seq<Account>, Error>
  {
    var debited :- Debit(accounts, from, x, fromOwner, now);
    Credit(debited, to, y, toOwner, now)
  }

  /** applyPaymentTx: `from` and `to` are the rows read before the first write. */
  function PaymentTx(accounts: seq<Account>, from: Account, to: Account, p: Payment, now: int)
    : Result<seq<Account>, Error>
  {
    if p.fromAmount <= 0 || p.toAmount <= 0 || p.commission < 0 then Err(BadRequest)
    else if from.currency == to.currency then
      var moved :- Move(accounts, from.number, p.fromAmount + p.commission, from.owner, to.number, p.toAmount, to.owner, now);
      if p.commission > 0 then CreditBank(moved, from.currency, p.commission, now) else Ok(moved)
    else if to.owner == BANK then
      Move(accounts, from.number, p.fromAmount, from.owner, to.number, p.toAmount, to.owner, now)
    else
      var sender :- ByOwner(accounts, BANK, from.currency);
      var target :- ByOwner(accounts, BANK, to.currency);
      ExchangeTx(accounts, from, to, accounts[sender], accounts[target], p, now)
  }

  function CreditBank(accounts: seq<Account>, currency: string, amount: int, now: int): Result<seq<Account>, Error> {
    var b :- ByOwner(accounts, BANK, currency);
    Credit(accounts, accounts[b].number, amount, accounts[b].owner, now)
  }

  /** The four legs of a payment between currencies, through the bank's account in each of them. */
  function ExchangeTx(accounts: seq<Account>, from: Account, to: Account, sender: Account, target: Account,
                      p: Payment, now: int): Result<seq<Account>, Error>
  {
    var x := p.fromAmount + p.commission;
    var taken :- Move(accounts, from.number, x, from.owner, sender.number, x, sender.owner, now);
    Move(taken, target.number, p.toAmount, target.owner, to.number, p.toAmount, to.owner, now)
  }

  /** applyPaymentOperation. */
  function PaymentOperation(accounts: seq<Account>, p: Payment, sameOwner: bool, now: int)
    : Result<seq<Account>, Error>
  {
    var f :- ByNumber(accounts, p.from);
    if !Mutable(accounts[f], accounts[f].owner, now) then Err(BadRequest) else
    var t :- ByNumber(accounts, p.to);
    if !Mutable(accounts[t], accounts[t].owner, now) then Err(BadRequest)
    else if p.client == 0 || accounts[f].owner != p.client then Err(BadRequest)
    else if sameOwner != (accounts[f].owner == accounts[t].owner) then Err(BadRequest)
    else PaymentTx(accounts, accounts[f], accounts[t], p, now)
  }

  /** TransactionFromBank: an empty account number stands for the bank's own account. */
  function BankTransaction(accounts: seq<Account>, from: string, to: string, amount: int, now: int)
    : Result<seq<Account>, Error>
  {
    if from == "" && to == "" then Err(BadRequest) else
    var client :- ByNumber(accounts, if from == "" then to else from);
    var bank :- ByOwner(accounts, BANK, accounts[client].currency);
    var sender, recipient := if from == "" then bank else client, if from == "" then client else bank;
    Move(accounts, accounts[sender].number, amount, accounts[sender].owner,
         accounts[recipient].number, amount, accounts[recipient].owner, now)
  }

  // Internal transfers

  /** What the market service answers for a transfer between currencies. */
  datatype Quote = Quote(commission: int, credited: int)

  function TransferTx(accounts: seq<Account>, from: string, to: string, amount: int,
                      quote: Option<Quote>, now: int): Result<seq<Account>, Error>
  {
    if from == "" || to == "" || amount <= 0 then Err(BadRequest) else
    var s :- ByNumber(accounts, from);
    var t :- ByNumber(accounts, to);
    if accounts[s].currency == accounts[t].currency then
      Move(accounts, from, amount, accounts[s].owner, to, amount, accounts[t].owner, now)
    else
      var _ :- Debit(accounts, from, amount, accounts[s].owner, now);
      if quote.None? || amount - quote.value.commission <= 0 then Err(BadRequest) else
      var moved :- Move(accounts, from, amount, accounts[s].owner, to, quote.value.credited, accounts[t].owner, now);
      CreditBank(moved, accounts[s].currency, quote.value.commission, now)
  }

  /** ReverseTransfer replays the logged amount in the other direction. */
  function ReverseTx(accounts: seq<Account>, log: Transfer, now: int): Result<seq<Account>, Error> {
    var s :- ByNumber(accounts, log.to);
    var t :- ByNumber(accounts, log.from);
    Move(accounts, log.to, log.amount, accounts[s].owner, log.from, log.amount, accounts[t].owner, now)
  }

  // Interbank reservations

  function ReserveHold(db: Db, number: string, currency: string, amount: int, local: string): Result<Db, Error> {
    if number == "" || currency == "" || local == "" || amount <= 0 then Err(BadRequest) else
    var i :- ByNumber(db.accounts, number);
    var a := db.accounts[i];
    if a.currency != currency then Err(BadRequest)
    else if a.available < amount then Err(Conflict("ERR_INSUFFICIENT_ASSET"))
    else Ok(db.(accounts := db.accounts[i := a.(available := a.available - amount)],
                holds := db.holds + [Hold(number, currency, amount, Held)]))
  }

  function CommitHold(db: Db, id: nat): Result<Db, Error> {
    if id >= |db.holds| then Err(NotFound) else
    var h := db.holds[id];
    if h.status == Committed then Ok(db)
    else if h.status != Held then Err(Conflict("ERR_INVALID_RESERVATION_STATE")) else
    var i :- ByNumber(db.accounts, h.number);
    var a := db.accounts[i];
    Ok(db.(accounts := db.accounts[i := a.(booked := a.booked - h.amount)],
           holds := db.holds[id := h.(status := Committed)]))
  }

  function ReleaseHold(db: Db, id: nat): Result<Db, Error> {
    if id >= |db.holds| then Err(NotFound) else
    var h := db.holds[id];
    if h.status == Released then Ok(db)
    else if h.status == Committed then Err(Conflict("ERR_INVALID_RESERVATION_STATE")) else
    var i :- ByNumber(db.accounts, h.number);
    var a := db.accounts[i];
    Ok(db.(accounts := db.accounts[i := a.(available := a.available + h.amount)],
           holds := db.holds[id := h.(status := Released)]))
  }

  // Fund reservations

  function ReserveFunds(db: Db, owner: int, amount: int, now: int): Result<Db, Error> {
    if amount <= 0 then Err(BadRequest) else
    var found := ByOwner(db.accounts, owner, RSD);
    if found.Err? then Err(BadRequest) else
    var number := db.accounts[found.value].number;
    var debited :- Debit(db.accounts, number, amount, owner, now);
    Ok(db.(accounts := debited, funds := db.funds + [Fund(owner, number, amount, Held)]))
  }

  function ReleaseFunds(db: Db, id: nat, now: int): Result<Db, Error> {
    if id >= |db.funds| || db.funds[id].status != Held then Ok(db) else
    var f := db.funds[id];
    var credited :- Credit(db.accounts, f.number, f.amount, f.owner, now);
    Ok(db.(accounts := credited, funds := db.funds[id := f.(status := Released)]))
  }

  function CommitFunds(db: Db, id: nat): Db {
    if id >= |db.funds| || db.funds[id].status != Held then db
    else db.(funds := db.funds[id := db.funds[id].(status := Committed)])
  }

  // Scheduled jobs

  /** The maintenance fee an account is charged this month: its fee or nothing. */
  function FeeDue(a: Account): int {
    if a.checking && a.status == Active && !a.deleted && a.fee.Some? && a.fee.value > 0
       && a.available >= a.fee.value
    then a.fee.value else 0
  }

  function FeeTotal(accounts: seq<Account>): int {
    Sum(accounts, FeeDue)
  }

  function ChargeFee(a: Account): Account {
    a.(booked := a.booked - FeeDue(a), available := a.available - FeeDue(a))
  }

  /** Every account pays its fee and the bank's row is then overwritten with its balance before
      the job plus the total. */
  function FeesCharged(accounts: seq<Account>, bank: nat): seq<Account>
    requires bank < |accounts|
  {
    seq(|accounts|, i requires 0 <= i < |accounts| =>
      if i == bank then CreditRow(accounts[bank], FeeTotal(accounts)) else ChargeFee(accounts[i]))
  }

  function FeeRecords(accounts: seq<Account>, bank: string): seq<FeeRecord> {
    if accounts == [] then []
    else
      var last := accounts[|accounts| - 1];
      FeeRecords(accounts[..|accounts| - 1], bank)
      + if FeeDue(last) > 0 then [FeeRecord(last.number, bank, FeeDue(last))] else []
  }

  /** runMaintenanceFees: `bank` is the row the unordered query for the bank's RSD account returns;
      when it returns none the job ends without effect. */
  function MaintenanceFees(db: Db, bankClient: int, bank: nat): Db {
    if bank < |db.accounts| && db.accounts[bank].owner == bankClient && db.accounts[bank].currency == RSD
    then db.(accounts := FeesCharged(db.accounts, bank),
             audit := db.audit + FeeRecords(db.accounts, db.accounts[bank].number))
    else db
  }

  function DayReset(a: Account): Account {
    if a.deleted then a
    else a.(daily := 0, dailyRemaining := a.dailyLimit, today := [], dayLimit := a.dailyLimit)
  }

  function MonthReset(a: Account): Account {
    if a.deleted then a else a.(monthly := 0, month := [])
  }

  function MapRows(accounts: seq<Account>, f: Account -> Account): seq<Account> {
    seq(|accounts|, i requires 0 <= i < |accounts| => f(accounts[i]))
  }

  // Account maintenance

  /** editAccountLimit changes the two limits and leaves the counters alone. */
  function EditLimits(accounts: seq<Account>, number: string, principal: int, daily: int, monthly: int,
                      verified: bool): Result<seq<Account>, Error>
  {
    if daily <= 0 || monthly <= 0 || daily > monthly then Err(BadRequest) else
    var i :- ByNumber(accounts, number);
    if accounts[i].owner != principal then Err(BadRequest)
    else if !verified then Err(Conflict("ERR_VERIFICATION_FAILED"))
    else Ok(accounts[i := accounts[i].(dailyLimit := Some(daily), monthlyLimit := Some(monthly))])
  }

  function EditStatus(accounts: seq<Account>, number: string, status: Status): Result<seq<Account>, Error> {
    var i :- ByNumber(accounts, number);
    if accounts[i].owner < 0 then Err(BadRequest)
    else Ok(accounts[i := accounts[i].(status := status)])
  }

  function Erased(client: int): Account -> Account {
    (a: Account) => if a.owner == client then a.(deleted := true) else a
  }

  /** insertAccount: 250000.00 a day and 1000000.00 a month. */
  function Opened(number: string, owner: int, currency: string, balance: nat, checking: bool, expires: int): Account {
    Account(number, owner, currency, balance, balance, Active, Some(expires), false, checking, None,
            Some(25_000_000), Some(100_000_000), 0, 0, None, [], [], None)
  }

  function NumberIs(number: string): Account -> bool {
    (a: Account) => a.number == number
  }

  function OpenAccount(accounts: seq<Account>, number: string, owner: int, currency: string, balance: nat,
                       checking: bool, expires: int): Result<seq<Account>, Error>
  {
    if First(accounts, NumberIs(number)) < |accounts| then Err(Conflict("23505"))
    else Ok(accounts + [Opened(number, owner, currency, balance, checking, expires)])
  }

  // Runs

  datatype Op =
    | DoDebit(number: string, amount: int, client: int)
    | DoCredit(number: string, amount: int, client: int)
    | DoPayment(payment: Payment, sameOwner: bool)
    | DoBankTransaction(from: string, to: string, amount: int)
    | DoTransfer(from: string, to: string, amount: int, quote: Option<Quote>)
    | DoReverse(id: nat)
    | DoReserveFunds(owner: int, amount: int)
    | DoReleaseFunds(id: nat)
    | DoCommitFunds(id: nat)
    | DoReserve(number: string, currency: string, amount: int, local: string)
    | DoCommit(id: nat)
    | DoRelease(id: nat)
    | DoFees(bankClient: int, bank: nat)
    | DoResetDay
    | DoResetMonth
    | DoEditLimits(number: string, principal: int, daily: int, monthly: int, verified: bool)
    | DoEditStatus(number: string, status: Status)
    | DoErase(client: int)
    | DoOpen(number: string, owner: int, currency: string, balance: nat, checking: bool, expires: int)

  function WithAccounts(db: Db, r: Result<seq<Account>, Error>): Result<Db, Error> {
    if r.Err? then Err(r.error) else Ok(db.(accounts := r.value))
  }

  /** One transaction against the committed tables. */
  function Step(db: Db, op: Op, now: int): Result<Db, Error> {
    match op
    case DoDebit(n, x, c) => WithAccounts(db, Debit(db.accounts, n, x, c, now))
    case DoCredit(n, x, c) => WithAccounts(db, Credit(db.accounts, n, x, c, now))
    case DoPayment(p, same) => WithAccounts(db, PaymentOperation(db.accounts, p, same, now))
    case DoBankTransaction(f, t, x) => WithAccounts(db, BankTransaction(db.accounts, f, t, x, now))
    case DoTransfer(f, t, x, q) =>
      var accounts :- TransferTx(db.accounts, f, t, x, q, now);
      Ok(db.(accounts := accounts, transfers := db.transfers + [Transfer(f, t, x, Completed)]))
    case DoReverse(id) =>
      if id >= |db.transfers| || db.transfers[id].status != Completed then Ok(db) else
      var accounts :- ReverseTx(db.accounts, db.transfers[id], now);
      Ok(db.(accounts := accounts, transfers := db.transfers[id := db.transfers[id].(status := Reversed)]))
    case DoReserveFunds(o, x) => ReserveFunds(db, o, x, now)
    case DoReleaseFunds(id) => ReleaseFunds(db, id, now)
    case DoCommitFunds(id) => Ok(CommitFunds(db, id))
    case DoReserve(n, c, x, l) => ReserveHold(db, n, c, x, l)
    case DoCommit(id) => CommitHold(db, id)
    case DoRelease(id) => ReleaseHold(db, id)
    case DoFees(c, b) => Ok(MaintenanceFees(db, c, b))
    case DoResetDay => Ok(db.(accounts := MapRows(db.accounts, DayReset)))
    case DoResetMonth => Ok(db.(accounts := MapRows(db.accounts, MonthReset)))
    case DoEditLimits(n, p, d, m, v) => WithAccounts(db, EditLimits(db.accounts, n, p, d, m, v))
    case DoEditStatus(n, s) => WithAccounts(db, EditStatus(db.accounts, n, s))
    case DoErase(c) => Ok(db.(accounts := MapRows(db.accounts, Erased(c))))
    case DoOpen(n, o, c, b, k, e) => WithAccounts(db, OpenAccount(db.accounts, n, o, c, b, k, e))
  }

  /** A transaction that fails is rolled back. */
  function Apply(db: Db, op: Op, now: int): Db {
    var r := Step(db, op, now);
    if r.Ok? then r.value else db
  }

  datatype Event = Event(op: Op, now: int)

  function Run(db: Db, events: seq<Event>): Db {
    if events == [] then db
    else
      var last := events[|events| - 1];
      Apply(Run(db, events[..|events| - 1]), last.op, last.now)
  }
}
