/** Margin accounts: trades split between client and bank, deposits and withdrawals, the history
    table, and the legs between the bank's and the exchange's accounts.

    Amounts are whole cents and the bank's participation is in ten-thousandths. `opening` (the margin
    at creation) and `moved` (what trades moved from bank to exchange, net) are history values that no
    operation reads. */
module Margins {
  import opened Common
  import opened Decimals
  import opened Accounts
  import Ledger
  import LedgerSafety
  import Effects

  datatype Owner = User(id: int) | Company(id: int)

  datatype Margin = Margin(owner: Owner, number: string, initial: int, loan: int, maintenance: int,
                           participation: int, active: bool, deleted: bool, opening: int)

  datatype Kind = StockBuy | StockSell | AddToMargin | WithdrawFromMargin

  /** A row of margin_transactions; `account` is the position of the margin account. */
  datatype Entry = Entry(account: nat, amount: int, kind: Kind, loanAfter: int, initialAfter: int)

  datatype Config = Config(bank: string, bankClient: int, exchange: string, exchangeClient: int)

  datatype State = State(accounts: seq<Account>, margins: seq<Margin>, history: seq<Entry>, moved: int)

  function LiveMargin(owner: Owner): Margin -> bool {
    (m: Margin) => m.owner == owner && !m.deleted
  }

  function Find(margins: seq<Margin>, owner: Owner): (r: Result<nat, Error>)
    ensures r.Ok? ==> r.value < |margins| && margins[r.value].owner == owner && !margins[r.value].deleted
    ensures forall j :: 0 <= j < (if r.Ok? then r.value else |margins|) ==> margins[j].owner != owner || margins[j].deleted
  {
    var i := First(margins, LiveMargin(owner));
    assert forall j :: 0 <= j < i ==> !LiveMargin(owner)(margins[j]);
    if i < |margins| then Ok(i) else Err(NotFound)
  }

  /** The bank's share of a trade, rounded to the cent. */
  function BankPart(amount: int, participation: int): int {
    RoundDiv(Times(amount, participation), 10_000)
  }

  /** recalcActive. */
  function Recalc(m: Margin): Margin {
    m.(active := m.initial >= m.maintenance)
  }

  function Record(s: State, i: nat, m: Margin, amount: int, kind: Kind): State
    requires i < |s.margins|
  {
    s.(margins := s.margins[i := m], history := s.history + [Entry(i, amount, kind, m.loan, m.initial)])
  }

  /** Exactly one of user and company must be given, and the amount must be positive. */
  function TradeOwner(user: Option<int>, company: Option<int>, amount: int): Result<Owner, Error> {
    if user.Some? == company.Some? || amount <= 0 then Err(BadRequest)
    else if user.Some? then Ok(User(user.value)) else Ok(Company(company.value))
  }

  function Buy(s: State, user: Option<int>, company: Option<int>, amount: int, cfg: Config, now: int): Result<State, Error> {
    var owner :- TradeOwner(user, company, amount);
    var i :- Find(s.margins, owner);
    var m := s.margins[i];
    if !m.active then Err(Conflict("ERR_MARGIN_BLOCKED")) else
    var bankPart := BankPart(amount, m.participation);
    var clientPart := amount - bankPart;
    if m.initial < clientPart then Err(Conflict("ERR_INSUFFICIENT_FUNDS")) else
    var accounts :- Ledger.Move(s.accounts, cfg.bank, bankPart, cfg.bankClient, cfg.exchange, bankPart, cfg.exchangeClient, now);
    var m' := Recalc(m.(initial := m.initial - clientPart, loan := m.loan + bankPart));
    Ok(Record(s.(accounts := accounts, moved := s.moved + bankPart), i, m', -amount, StockBuy))
  }

  function LoanReduction(m: Margin, amount: int): int {
    var bankPart := BankPart(amount, m.participation);
    if m.loan <= bankPart then m.loan else bankPart
  }

  function Sell(s: State, user: Option<int>, company: Option<int>, amount: int, cfg: Config, now: int): Result<State, Error> {
    var owner :- TradeOwner(user, company, amount);
    var i :- Find(s.margins, owner);
    var m := s.margins[i];
    if !m.active then Err(Conflict("ERR_MARGIN_BLOCKED")) else
    var reduction := LoanReduction(m, amount);
    var bankPart := BankPart(amount, m.participation);
    var credit := amount - bankPart + (bankPart - reduction);
    var accounts :- if reduction > 0
                    then Ledger.Move(s.accounts, cfg.exchange, reduction, cfg.exchangeClient, cfg.bank, reduction, cfg.bankClient, now)
                    else Ok(s.accounts);
    var m' := Recalc(m.(loan := m.loan - reduction, initial := m.initial + credit));
    Ok(Record(s.(accounts := accounts, moved := s.moved - If(reduction > 0, reduction)), i, m', amount, StockSell))
  }

  /** The checking account named in the request, or else the user's first RSD account. */
  function Checking(accounts: seq<Account>, user: int, requested: string): Result<string, Error> {
    if requested != "" then Ok(requested) else
    var r := ByOwner(accounts, user, RSD);
    if r.Err? then Err(BadRequest) else Ok(accounts[r.value].number)
  }

  function Add(s: State, user: int, amount: int, requested: string, now: int): Result<State, Error> {
    if amount <= 0 then Err(BadRequest) else
    var i :- Find(s.margins, User(user));
    var checking :- Checking(s.accounts, user, requested);
    var accounts :- Debit(s.accounts, checking, amount, user, now);
    var m' := Recalc(s.margins[i].(initial := s.margins[i].initial + amount));
    Ok(Record(s.(accounts := accounts), i, m', amount, AddToMargin))
  }

  function Withdraw(s: State, user: int, amount: int, requested: string, now: int): Result<State, Error> {
    if amount <= 0 then Err(BadRequest) else
    var i :- Find(s.margins, User(user));
    var m := s.margins[i];
    if !m.active then Err(Conflict("ERR_MARGIN_BLOCKED"))
    else if m.initial - amount < m.maintenance then Err(Conflict("ERR_MARGIN_MAINTENANCE")) else
    var checking :- Checking(s.accounts, user, requested);
    var accounts :- Credit(s.accounts, checking, amount, user, now);
    var m' := Recalc(m.(initial := m.initial - amount));
    Ok(Record(s.(accounts := accounts), i, m', -amount, WithdrawFromMargin))
  }

  function OwnerIs(owner: Owner): Margin -> bool {
    (m: Margin) => m.owner == owner
  }

  /** CreateForUser and CreateForCompany: at most one margin account per owner. */
  function Create(s: State, owner: Owner, number: string, initial: int, maintenance: int, participation: int): Result<State, Error> {
    if initial <= 0 || maintenance <= 0 || participation < 0 || participation > 10_000 then Err(BadRequest)
    else if First(s.margins, OwnerIs(owner)) < |s.margins| then Err(Conflict("ERR_MARGIN_ACCOUNT_EXISTS"))
    else Ok(s.(margins := s.margins
                          + [Margin(owner, number, initial, 0, maintenance, participation, initial >= maintenance, false, initial)]))
  }

  datatype Op =
    | DoBuy(user: Option<int>, company: Option<int>, amount: int)
    | DoSell(user: Option<int>, company: Option<int>, amount: int)
    | DoAdd(userId: int, amount: int, requested: string)
    | DoWithdraw(userId: int, amount: int, requested: string)
    | DoCreate(owner: Owner, number: string, initial: int, maintenance: int, participation: int)

  function Step(s: State, op: Op, cfg: Config, now: int): Result<State, Error> {
    match op
    case DoBuy(u, c, x) => Buy(s, u, c, x, cfg, now)
    case DoSell(u, c, x) => Sell(s, u, c, x, cfg, now)
    case DoAdd(u, x, r) => Add(s, u, x, r, now)
    case DoWithdraw(u, x, r) => Withdraw(s, u, x, r, now)
    case DoCreate(o, n, i, m, p) => Create(s, o, n, i, m, p)
  }

  function Apply(s: State, op: Op, cfg: Config, now: int): State {
    var r := Step(s, op, cfg, now);
    if r.Ok? then r.value else s
  }

  /** A margin operation, or any transaction of the rest of the ledger, which replaces `accounts`. */
  datatype Event = Trade(op: Op, now: int) | Elsewhere(accounts: seq<Account>)

  function Run(s: State, events: seq<Event>, cfg: Config): State {
    if events == [] then s
    else
      var before := Run(s, events[..|events| - 1], cfg);
      match events[|events| - 1]
      case Trade(op, now) => Apply(before, op, cfg, now)
      case Elsewhere(accounts) => before.(accounts := accounts)
  }

  // What every run keeps

  function AmountFor(account: nat): Entry -> int {
    (e: Entry) => if e.account == account then e.amount else 0
  }

  function LoanOf(): Margin -> int {
    (m: Margin) => m.loan
  }

  predicate MarginOk(m: Margin) {
    && m.initial >= 0 && m.loan >= 0 && m.maintenance > 0 && 0 <= m.participation <= 10_000
    && m.active == (m.initial >= m.maintenance)
  }

  /** Equity is the opening margin plus everything the history table says happened, and what trades
      have moved from bank to exchange is what clients owe. */
  predicate Inv(s: State) {
    && (forall i :: 0 <= i < |s.margins| ==>
          var m := s.margins[i];
          MarginOk(m) && m.initial - m.loan == m.opening + Sum(s.history, AmountFor(i)))
    && (forall k :: 0 <= k < |s.history| ==> s.history[k].account < |s.margins|)
    && s.moved == Sum(s.margins, LoanOf())
  }

  lemma BankPartBounds(amount: int, participation: int)
    requires amount >= 0 && 0 <= participation <= 10_000
    ensures 0 <= BankPart(amount, participation) <= amount
  {
    hide RoundDiv;
    assert 0 <= Times(amount, participation) <= Times(amount, 10_000) by {
      assert amount * (10_000 - participation) >= 0;
    }
    RoundDivGrows(Times(0, 10_000), Times(amount, participation), 10_000);
    RoundDivGrows(Times(amount, participation), Times(amount, 10_000), 10_000);
    RoundDivKeepsIntegers(0, 10_000);
    RoundDivKeepsIntegers(amount, 10_000);
  }

  /** BankPart is the source's Round(2) of the product of the two decimals. */
  lemma BankPartIsRounded(cents: int, participation: int)
    ensures Rounded(Decimal(Times(cents, participation), 1_000_000), 2) == Decimal(BankPart(cents, participation), 100)
  {
    hide RoundDiv;
    assert Pow10(2) == 100;
    var product := Times(cents, participation);
    RoundDivOfScaled(product, 10_000, 100);
    assert Times(100, product) == Times(product, 100) && Times(100, 10_000) == 1_000_000;
  }

  /** Recording a sound new version of one margin account keeps the state sound. */
  lemma RecordKeeps(s: State, moved: int, accounts: seq<Account>, i: nat, m: Margin, amount: int, kind: Kind)
    requires Inv(s) && i < |s.margins| && MarginOk(m) && m.opening == s.margins[i].opening
    requires m.initial - m.loan == s.margins[i].initial - s.margins[i].loan + amount
    requires moved == s.moved + m.loan - s.margins[i].loan
    ensures Inv(Record(s.(accounts := accounts, moved := moved), i, m, amount, kind))
  {
    hide MarginOk;
    var s' := Record(s.(accounts := accounts, moved := moved), i, m, amount, kind);
    SumUpdate(s.margins, i, m, LoanOf());
    forall j | 0 <= j < |s'.margins|
      ensures s'.margins[j].initial - s'.margins[j].loan == s'.margins[j].opening + Sum(s'.history, AmountFor(j))
    {
      SumAppend(s.history, s'.history[|s.history|], AmountFor(j));
    }
  }

  lemma TradeKeeps(s: State, op: Op, cfg: Config, now: int)
    requires Inv(s) && (op.DoBuy? || op.DoSell?) && Step(s, op, cfg, now).Ok?
    ensures Inv(Step(s, op, cfg, now).value)
  {
    hide Ledger.Move, First, Inv, BankPart;
    var s' := Step(s, op, cfg, now).value;
    var i := Find(s.margins, TradeOwner(op.user, op.company, op.amount).value).value;
    assert MarginOk(s.margins[i]) by { RowOf(s, i); }
    BankPartBounds(op.amount, s.margins[i].participation);
    RecordKeeps(s, s'.moved, s'.accounts, i, s'.margins[i], if op.DoBuy? then -op.amount else op.amount,
                if op.DoBuy? then StockBuy else StockSell);
  }

  lemma RowOf(s: State, i: nat)
    requires Inv(s) && i < |s.margins|
    ensures MarginOk(s.margins[i])
  {
  }

  lemma DepositKeeps(s: State, op: Op, cfg: Config, now: int)
    requires Inv(s) && (op.DoAdd? || op.DoWithdraw?) && Step(s, op, cfg, now).Ok?
    ensures Inv(Step(s, op, cfg, now).value)
  {
    hide Debit, Credit, Checking, First, Inv;
    var s' := Step(s, op, cfg, now).value;
    var i := Find(s.margins, User(op.userId)).value;
    assert MarginOk(s.margins[i]) by { RowOf(s, i); }
    RecordKeeps(s, s.moved, s'.accounts, i, s'.margins[i], if op.DoAdd? then op.amount else -op.amount,
                if op.DoAdd? then AddToMargin else WithdrawFromMargin);
  }

  lemma {:induction false} NoEntries(history: seq<Entry>, account: nat)
    requires forall k :: 0 <= k < |history| ==> history[k].account != account
    ensures Sum(history, AmountFor(account)) == 0
  {
    if history != [] {
      NoEntries(history[..|history| - 1], account);
    }
  }

  lemma CreateKeeps(s: State, owner: Owner, number: string, initial: int, maintenance: int, participation: int)
    requires Inv(s) && Create(s, owner, number, initial, maintenance, participation).Ok?
    ensures Inv(Create(s, owner, number, initial, maintenance, participation).value)
  {
    hide First;
    var s' := Create(s, owner, number, initial, maintenance, participation).value;
    SumAppend(s.margins, s'.margins[|s.margins|], LoanOf());
    NoEntries(s.history, |s.margins|);
  }

  lemma StepKeeps(s: State, op: Op, cfg: Config, now: int)
    requires Inv(s)
    ensures Inv(Apply(s, op, cfg, now))
  {
    hide Inv, Buy, Sell, Add, Withdraw, Create;
    if Step(s, op, cfg, now).Ok? {
      match op {
        case DoBuy(_, _, _) => TradeKeeps(s, op, cfg, now);
        case DoSell(_, _, _) => TradeKeeps(s, op, cfg, now);
        case DoAdd(_, _, _) => DepositKeeps(s, op, cfg, now);
        case DoWithdraw(_, _, _) => DepositKeeps(s, op, cfg, now);
        case DoCreate(o, n, i, m, p) => CreateKeeps(s, o, n, i, m, p);
      }
    }
  }

  /** In every run of margin operations mixed with any other ledger activity: equity equals the
      opening margin plus the recorded history, loans and margins are never negative, the active flag
      is always initial >= maintenance, and the net amount trades moved from bank to exchange equals
      the sum of all outstanding loans. */
  lemma {:induction false} EveryRunBalances(s: State, events: seq<Event>, cfg: Config)
    requires Inv(s)
    ensures Inv(Run(s, events, cfg))
  {
    if events != [] {
      var before := Run(s, events[..|events| - 1], cfg);
      EveryRunBalances(s, events[..|events| - 1], cfg);
      if events[|events| - 1].Trade? {
        StepKeeps(before, events[|events| - 1].op, cfg, events[|events| - 1].now);
      }
    }
  }

  // What the legs do to the ledger, and what reopens an account

  /** Balance of the row that holds `number`. */
  function BookedAt(accounts: seq<Account>, number: string): int {
    var r := ByNumber(accounts, number);
    if r.Ok? then accounts[r.value].booked else 0
  }

  lemma MoveShifts(accounts: seq<Account>, from: string, x: int, fromOwner: int, to: string, toOwner: int, now: int)
    requires from != to && Ledger.Move(accounts, from, x, fromOwner, to, x, toOwner, now).Ok?
    ensures var after := Ledger.Move(accounts, from, x, fromOwner, to, x, toOwner, now).value;
            && SameRows(accounts, after)
            && BookedAt(after, from) == BookedAt(accounts, from) - x
            && BookedAt(after, to) == BookedAt(accounts, to) + x
  {
    hide DebitError, Mutable, First;
    var debited := Debit(accounts, from, x, fromOwner, now).value;
    var after := Credit(debited, to, x, toOwner, now).value;
    SameLookup(accounts, debited, to);
    SameLookup(accounts, debited, from);
    SameLookup(debited, after, to);
    SameLookup(debited, after, from);
  }

  /** A trade changes the bank's and the exchange's booked balances by exactly the change in `moved`,
      in opposite directions, and keeps the ledger sound. */
  lemma TradeLegs(s: State, holds: seq<Hold>, op: Op, cfg: Config, now: int)
    requires (op.DoBuy? || op.DoSell?) && cfg.bank != cfg.exchange && AccountsOk(s.accounts, holds)
    ensures var s' := Apply(s, op, cfg, now);
            && AccountsOk(s'.accounts, holds)
            && BookedAt(s'.accounts, cfg.bank) == BookedAt(s.accounts, cfg.bank) - (s'.moved - s.moved)
            && BookedAt(s'.accounts, cfg.exchange) == BookedAt(s.accounts, cfg.exchange) + (s'.moved - s.moved)
  {
    hide Ledger.Move, AccountsOk, BookedAt, First, BankPart;
    var r := Step(s, op, cfg, now);
    if r.Ok? {
      var x := r.value.moved - s.moved;
      if op.DoBuy? {
        MoveShifts(s.accounts, cfg.bank, x, cfg.bankClient, cfg.exchange, cfg.exchangeClient, now);
        LedgerSafety.MoveKeeps(s.accounts, holds, cfg.bank, x, cfg.bankClient, cfg.exchange, x, cfg.exchangeClient, now);
      } else if x != 0 {
        MoveShifts(s.accounts, cfg.exchange, -x, cfg.exchangeClient, cfg.bank, cfg.bankClient, now);
        LedgerSafety.MoveKeeps(s.accounts, holds, cfg.exchange, -x, cfg.exchangeClient, cfg.bank, -x, cfg.bankClient, now);
      }
    }
  }

  /** A blocked account becomes active again only by a deposit of its own user; no operation moves the
      maintenance margin, the participation or the owner. */
  lemma BlockedReopensOnlyByDeposit(s: State, op: Op, cfg: Config, now: int, i: nat)
    requires i < |s.margins|
    ensures var s' := Apply(s, op, cfg, now);
            && i < |s'.margins|
            && s'.margins[i].maintenance == s.margins[i].maintenance
            && s'.margins[i].participation == s.margins[i].participation
            && s'.margins[i].owner == s.margins[i].owner
            && (!s.margins[i].active && s'.margins[i] != s.margins[i] ==>
                  op.DoAdd? && s.margins[i].owner == User(op.userId))
  {
    hide Ledger.Move, Debit, Credit, Checking, First, BankPart;
  }

  predicate OwnDeposit(e: Event, m: Margin) {
    e.Trade? && e.op.DoAdd? && m.owner == User(e.op.userId)
  }

  /** Through every run without a deposit of its own user, whatever else happens, a blocked account
      stays exactly as it is. */
  lemma {:induction false} BlockedUntilDeposit(s: State, events: seq<Event>, cfg: Config, i: nat)
    requires i < |s.margins| && !s.margins[i].active
    requires forall k :: 0 <= k < |events| ==> !OwnDeposit(events[k], s.margins[i])
    ensures var s' := Run(s, events, cfg); i < |s'.margins| && s'.margins[i] == s.margins[i]
  {
    hide Apply;
    if events != [] {
      var before, last := events[..|events| - 1], events[|events| - 1];
      BlockedUntilDeposit(s, before, cfg, i);
      if last.Trade? {
        BlockedReopensOnlyByDeposit(Run(s, before, cfg), last.op, cfg, last.now, i);
      }
    }
  }

  /** What a purchase needs: one owner with an active margin account that covers the client's part, a
      bank share that does not round to nothing, and a leg from bank to exchange that goes through. */
  predicate CanBuy(s: State, user: Option<int>, company: Option<int>, amount: int, cfg: Config, now: int) {
    var owner := TradeOwner(user, company, amount);
    owner.Ok? && var i := Find(s.margins, owner.value);
    i.Ok? && var m := s.margins[i.value];
    var share := BankPart(amount, m.participation);
    var bank, exchange := ByNumber(s.accounts, cfg.bank), ByNumber(s.accounts, cfg.exchange);
    && m.active && share > 0 && m.initial >= amount - share
    && bank.Ok? && LedgerSafety.Debitable(s.accounts[bank.value], share, cfg.bankClient, now)
    && exchange.Ok? && Mutable(s.accounts[exchange.value], cfg.exchangeClient, now)
  }

  /** A purchase succeeds if and only if all of that holds; the leg is attempted even for a zero share,
      so one that rounds to nothing is refused. */
  lemma BuySucceedsExactly(s: State, user: Option<int>, company: Option<int>, amount: int, cfg: Config, now: int)
    ensures Buy(s, user, company, amount, cfg, now).Ok? <==> CanBuy(s, user, company, amount, cfg, now)
  {
    hide Ledger.Move, First, BankPart, LedgerSafety.Debitable, Mutable;
    var owner := TradeOwner(user, company, amount);
    if owner.Ok? && Find(s.margins, owner.value).Ok? {
      var share := BankPart(amount, s.margins[Find(s.margins, owner.value).value].participation);
      LedgerSafety.MoveSucceedsExactly(s.accounts, cfg.bank, share, cfg.bankClient, cfg.exchange, share, cfg.exchangeClient, now);
    }
  }

  /** The bank's share of an amount rounds to nothing exactly when it is below half a cent. */
  lemma ShareVanishesExactly(amount: int, participation: int)
    requires amount > 0 && participation >= 0
    ensures BankPart(amount, participation) <= 0 <==> 2 * Times(amount, participation) < 10_000
  {
    hide Times, RoundDiv;
    var product := Times(amount, participation);
    NonNegativeProduct(amount, participation);
    RoundDivIsNearest(product, 10_000, RoundDiv(product, 10_000));
    ScaledBy(RoundDiv(product, 10_000));
  }

  lemma NonNegativeProduct(a: int, b: int)
    requires a >= 0 && b >= 0
    ensures Times(a, b) >= 0
  {
  }

  lemma ScaledBy(k: int)
    ensures Times(k, 10_000) == 10_000 * k
  {
  }

  /** A margin account in which the bank takes no part can never be bought on, and a purchase too small
      for the bank's share to reach half a cent is refused whatever the account holds. */
  lemma TooSmallToBuy(s: State, user: Option<int>, company: Option<int>, amount: int, cfg: Config, now: int)
    requires amount > 0 && TradeOwner(user, company, amount).Ok?
    requires var i := Find(s.margins, TradeOwner(user, company, amount).value);
             i.Ok? ==> s.margins[i.value].participation >= 0 && 2 * Times(amount, s.margins[i.value].participation) < 10_000
    ensures Buy(s, user, company, amount, cfg, now).Err?
  {
    hide Buy, BankPart, First, Times;
    BuySucceedsExactly(s, user, company, amount, cfg, now);
    var i := Find(s.margins, TradeOwner(user, company, amount).value);
    if i.Ok? {
      ShareVanishesExactly(amount, s.margins[i.value].participation);
    }
  }

  lemma ZeroParticipationNeverBuys(s: State, user: Option<int>, company: Option<int>, amount: int, cfg: Config, now: int)
    requires var owner := TradeOwner(user, company, amount);
             owner.Ok? && Find(s.margins, owner.value).Ok? ==> s.margins[Find(s.margins, owner.value).value].participation == 0
    ensures Buy(s, user, company, amount, cfg, now).Err?
  {
    hide Buy, First;
    if TradeOwner(user, company, amount).Ok? {
      TooSmallToBuy(s, user, company, amount, cfg, now);
    } else {
      BuySucceedsExactly(s, user, company, amount, cfg, now);
    }
  }

  // What each operation does, and when it succeeds, said from the rows and the request

  /** The margin account a trade is made on: of the one owner that is named. */
  function TradedOn(margins: seq<Margin>, user: Option<int>, company: Option<int>): Result<nat, Error> {
    if user.Some? && company.None? then Find(margins, User(user.value))
    else if company.Some? && user.None? then Find(margins, Company(company.value))
    else Err(BadRequest)
  }

  /** The account a deposit comes from or a withdrawal goes to. */
  function CheckingRow(accounts: seq<Account>, user: int, requested: string): Result<nat, Error> {
    if requested != "" then ByNumber(accounts, requested) else ByOwner(accounts, user, "RSD")
  }

  lemma ShareIsNearest(amount: int, participation: int)
    ensures Nearest(BankPart(amount, participation), Times(amount, participation), 10_000)
  {
    hide RoundDiv, Times;
    RoundDivIsNearest(Times(amount, participation), 10_000, RoundDiv(Times(amount, participation), 10_000));
  }

  /** A purchase is split: the loan grows by the bank's share, which is amount times participation to the
      nearest cent, and the margin pays the rest; the share goes from the bank's account to the exchange's. */
  lemma BuyEffect(s: State, user: Option<int>, company: Option<int>, amount: int, cfg: Config, now: int)
    ensures var r, on := Step(s, DoBuy(user, company, amount), cfg, now), TradedOn(s.margins, user, company);
            r.Ok? ==>
              && on.Ok? && |r.value.margins| == |s.margins| && |r.value.accounts| == |s.accounts|
              && var i, m, m' := on.value, s.margins[on.value], r.value.margins[on.value];
              var share := m'.loan - m.loan;
              && Nearest(share, Times(amount, m.participation), 10_000) && share > 0
              && m' == m.(loan := m.loan + share, initial := m.initial - (amount - share), active := m'.active)
              && m'.active == (m'.initial >= m.maintenance) && m'.initial >= 0
              && r.value.margins == s.margins[i := m']
              && r.value.history == s.history + [Entry(i, -amount, StockBuy, m'.loan, m'.initial)]
              && forall k :: 0 <= k < |s.accounts| ==>
                   Effects.RowMoved(s.accounts[k], r.value.accounts[k],
                     Effects.At(k, ByNumber(s.accounts, cfg.exchange), share), Effects.At(k, ByNumber(s.accounts, cfg.bank), share))
  {
    hide Ledger.Move, First, BankPart, Effects.RowMoved, Nearest;
    var r := Step(s, DoBuy(user, company, amount), cfg, now);
    if r.Ok? {
      var m := s.margins[TradedOn(s.margins, user, company).value];
      var share := BankPart(amount, m.participation);
      ShareIsNearest(amount, m.participation);
      LedgerSafety.MoveSucceedsExactly(s.accounts, cfg.bank, share, cfg.bankClient, cfg.exchange, share, cfg.exchangeClient, now);
      Effects.MoveRows(s.accounts, cfg.bank, share, cfg.bankClient, cfg.exchange, share, cfg.exchangeClient, now);
    }
  }

  /** A sale repays the loan first: it falls by the bank's share, amount times participation to the nearest
      cent, but not below zero; the margin gets the rest of the amount; and the exchange's account pays the
      bank's exactly what the loan fell by. */
  lemma SellEffect(s: State, user: Option<int>, company: Option<int>, amount: int, cfg: Config, now: int)
    ensures var r, on := Step(s, DoSell(user, company, amount), cfg, now), TradedOn(s.margins, user, company);
            r.Ok? ==>
              && on.Ok? && |r.value.margins| == |s.margins| && |r.value.accounts| == |s.accounts|
              && var i, m, m' := on.value, s.margins[on.value], r.value.margins[on.value];
              && (forall share: int :: Nearest(share, Times(amount, m.participation), 10_000) ==>
                    m'.loan == if m.loan <= share then 0 else m.loan - share)
              && var fall := m.loan - m'.loan;
              && m' == m.(loan := m.loan - fall, initial := m.initial + amount - fall, active := m'.active)
              && m'.active == (m'.initial >= m.maintenance)
              && r.value.margins == s.margins[i := m']
              && r.value.history == s.history + [Entry(i, amount, StockSell, m'.loan, m'.initial)]
              && (fall <= 0 ==> r.value.accounts == s.accounts)
              && (fall > 0 ==> forall k :: 0 <= k < |s.accounts| ==>
                   Effects.RowMoved(s.accounts[k], r.value.accounts[k],
                     Effects.At(k, ByNumber(s.accounts, cfg.bank), fall), Effects.At(k, ByNumber(s.accounts, cfg.exchange), fall)))
  {
    hide Ledger.Move, First, BankPart, Effects.RowMoved, Nearest;
    var r := Step(s, DoSell(user, company, amount), cfg, now);
    if r.Ok? {
      var m := s.margins[TradedOn(s.margins, user, company).value];
      var fall := LoanReduction(m, amount);
      forall share: int | Nearest(share, Times(amount, m.participation), 10_000) ensures share == BankPart(amount, m.participation) {
        OneShare(amount, m.participation, share);
      }
      if fall > 0 {
        Effects.MoveRows(s.accounts, cfg.exchange, fall, cfg.exchangeClient, cfg.bank, fall, cfg.bankClient, now);
      }
    }
  }

  lemma OneShare(amount: int, participation: int, share: int)
    requires Nearest(share, Times(amount, participation), 10_000)
    ensures share == BankPart(amount, participation)
  {
    hide RoundDiv, Times, Nearest;
    RoundDivIsNearest(Times(amount, participation), 10_000, share);
  }

  /** A sale succeeds if and only if exactly one owner is named, its margin account is active, and what is to
      be repaid, if anything, can be moved from the exchange's account to the bank's. */
  lemma SellSucceedsExactly(s: State, user: Option<int>, company: Option<int>, amount: int, cfg: Config, now: int)
    ensures var on := TradedOn(s.margins, user, company);
            Step(s, DoSell(user, company, amount), cfg, now).Ok? <==>
              amount > 0 && on.Ok? && s.margins[on.value].active
              && var m := s.margins[on.value];
              var share := BankPart(amount, m.participation);
              var fall := if m.loan <= share then m.loan else share;
              fall > 0 ==>
                var bank, exchange := ByNumber(s.accounts, cfg.bank), ByNumber(s.accounts, cfg.exchange);
                && bank.Ok? && exchange.Ok? && Effects.CanPay(s.accounts[exchange.value], fall, cfg.exchangeClient, now)
                && Effects.OpenTo(s.accounts[bank.value], cfg.bankClient, now)
  {
    hide Ledger.Move, First, BankPart, Effects.CanPay, Effects.OpenTo;
    var on := TradedOn(s.margins, user, company);
    if on.Ok? {
      var fall := LoanReduction(s.margins[on.value], amount);
      Effects.MoveCommits(s.accounts, cfg.exchange, fall, cfg.exchangeClient, cfg.bank, fall, cfg.bankClient, now);
    }
  }

  /** A deposit takes the amount from the user's account and adds it to the margin, blocked or not. */
  lemma DepositExactly(s: State, user: int, amount: int, requested: string, cfg: Config, now: int)
    requires Distinct(s.accounts)
    ensures var r := Step(s, DoAdd(user, amount, requested), cfg, now);
            var on, c := Find(s.margins, User(user)), CheckingRow(s.accounts, user, requested);
            && (r.Ok? <==> amount > 0 && on.Ok? && c.Ok? && Effects.CanPay(s.accounts[c.value], amount, user, now))
            && (r.Ok? ==>
                  && |r.value.margins| == |s.margins| && |r.value.accounts| == |s.accounts| && r.value.moved == s.moved
                  && var i, m, m' := on.value, s.margins[on.value], r.value.margins[on.value];
                  && m' == m.(initial := m.initial + amount, active := m.initial + amount >= m.maintenance)
                  && r.value.margins == s.margins[i := m']
                  && r.value.history == s.history + [Entry(i, amount, AddToMargin, m.loan, m'.initial)]
                  && forall k :: 0 <= k < |s.accounts| ==>
                       Effects.RowMoved(s.accounts[k], r.value.accounts[k], 0, Effects.At(k, c, amount)))
  {
    hide First, Debit, Effects.RowMoved, Effects.CanPay;
    var c := CheckingRow(s.accounts, user, requested);
    if c.Ok? {
      LedgerSafety.ByNumberOfRow(s.accounts, c.value);
    }
    var number := Checking(s.accounts, user, requested);
    if number.Ok? {
      Effects.DebitCommits(s.accounts, number.value, amount, user, now);
      if Debit(s.accounts, number.value, amount, user, now).Ok? {
        Effects.DebitRows(s.accounts, number.value, amount, user, now);
      }
    }
  }

  /** A withdrawal takes the amount from an active margin account that stays at its maintenance margin or
      above, and pays it to the user's account. */
  lemma WithdrawExactly(s: State, user: int, amount: int, requested: string, cfg: Config, now: int)
    requires Distinct(s.accounts)
    ensures var r := Step(s, DoWithdraw(user, amount, requested), cfg, now);
            var on, c := Find(s.margins, User(user)), CheckingRow(s.accounts, user, requested);
            && (r.Ok? <==> amount > 0 && on.Ok? && s.margins[on.value].active
                           && s.margins[on.value].initial - amount >= s.margins[on.value].maintenance
                           && c.Ok? && Effects.OpenTo(s.accounts[c.value], user, now))
            && (r.Ok? ==>
                  && |r.value.margins| == |s.margins| && |r.value.accounts| == |s.accounts| && r.value.moved == s.moved
                  && var i, m, m' := on.value, s.margins[on.value], r.value.margins[on.value];
                  && m' == m.(initial := m.initial - amount)
                  && r.value.margins == s.margins[i := m']
                  && r.value.history == s.history + [Entry(i, -amount, WithdrawFromMargin, m.loan, m'.initial)]
                  && forall k :: 0 <= k < |s.accounts| ==>
                       Effects.RowMoved(s.accounts[k], r.value.accounts[k], Effects.At(k, c, amount), 0))
  {
    hide First, CreditRow, Effects.RowMoved;
    var c := CheckingRow(s.accounts, user, requested);
    if c.Ok? {
      LedgerSafety.ByNumberOfRow(s.accounts, c.value);
    }
    var number := Checking(s.accounts, user, requested);
    if number.Ok? && Credit(s.accounts, number.value, amount, user, now).Ok? {
      Effects.CreditRows(s.accounts, number.value, amount, user, now);
    }
  }

  /** An owner without a margin account, live or deleted, gets one with the given margins and no loan. */
  lemma CreateExactly(s: State, owner: Owner, number: string, initial: int, maintenance: int, participation: int, cfg: Config, now: int)
    ensures var r := Step(s, DoCreate(owner, number, initial, maintenance, participation), cfg, now);
            && (r.Ok? <==> initial > 0 && maintenance > 0 && 0 <= participation <= 10_000
                           && forall i :: 0 <= i < |s.margins| ==> s.margins[i].owner != owner)
            && (r.Ok? ==>
                  && |r.value.margins| == |s.margins| + 1 && r.value.margins[..|s.margins|] == s.margins
                  && r.value == s.(margins := r.value.margins)
                  && var m := r.value.margins[|s.margins|];
                  && m.owner == owner && m.number == number && m.initial == initial && m.loan == 0
                  && m.maintenance == maintenance && m.participation == participation
                  && m.active == (initial >= maintenance) && !m.deleted)
  {
    var i := First(s.margins, OwnerIs(owner));
    if i < |s.margins| {
      assert OwnerIs(owner)(s.margins[i]);
    } else {
      assert forall j :: 0 <= j < |s.margins| ==> !OwnerIs(owner)(s.margins[j]);
    }
  }

  // The two balances over whole runs

  /** A margin operation that is no deposit or withdrawal through the bank's or the exchange's account. */
  predicate Apart(s: State, e: Event, cfg: Config) {
    e.Trade? && (e.op.DoAdd? || e.op.DoWithdraw? ==>
                   var checking := Checking(s.accounts, e.op.userId, e.op.requested);
                   checking.Ok? ==> checking.value != cfg.bank && checking.value != cfg.exchange)
  }

  predicate ApartRun(s: State, events: seq<Event>, cfg: Config) {
    events != [] ==>
      ApartRun(s, events[..|events| - 1], cfg) && Apart(Run(s, events[..|events| - 1], cfg), events[|events| - 1], cfg)
  }

  function Moves(s: State, s': State): int {
    s'.moved - s.moved
  }

  predicate LegsAgree(s: State, s': State, cfg: Config) {
    && BookedAt(s'.accounts, cfg.bank) == BookedAt(s.accounts, cfg.bank) - Moves(s, s')
    && BookedAt(s'.accounts, cfg.exchange) == BookedAt(s.accounts, cfg.exchange) + Moves(s, s')
  }

  lemma OtherRowBooked(accounts: seq<Account>, i: nat, row: Account, number: string)
    requires i < |accounts| && row.number == accounts[i].number && row.deleted == accounts[i].deleted
    requires row.owner == accounts[i].owner && row.currency == accounts[i].currency && row.number != number
    ensures BookedAt(accounts[i := row], number) == BookedAt(accounts, number)
  {
    hide First;
    SameLookup(accounts, accounts[i := row], number);
  }

  /** A deposit or withdrawal through another account leaves both rows alone. */
  lemma DepositLegs(s: State, holds: seq<Hold>, e: Event, cfg: Config)
    requires AccountsOk(s.accounts, holds) && Apart(s, e, cfg) && (e.op.DoAdd? || e.op.DoWithdraw?)
    ensures var s' := Apply(s, e.op, cfg, e.now); AccountsOk(s'.accounts, holds) && LegsAgree(s, s', cfg)
  {
    hide AccountsOk, First, BookedAt, DebitError, Mutable;
    var r := Step(s, e.op, cfg, e.now);
    if r.Ok? {
      var checking := Checking(s.accounts, e.op.userId, e.op.requested).value;
      var i := ByNumber(s.accounts, checking).value;
      if e.op.DoAdd? {
        DebitKeeps(s.accounts, holds, checking, e.op.amount, e.op.userId, e.now);
      } else {
        CreditKeeps(s.accounts, holds, checking, e.op.amount, e.op.userId, e.now);
      }
      OtherRowBooked(s.accounts, i, r.value.accounts[i], cfg.bank);
      OtherRowBooked(s.accounts, i, r.value.accounts[i], cfg.exchange);
    }
  }

  lemma EventLegs(s: State, holds: seq<Hold>, e: Event, cfg: Config)
    requires cfg.bank != cfg.exchange && AccountsOk(s.accounts, holds) && Apart(s, e, cfg)
    ensures var s' := Apply(s, e.op, cfg, e.now); AccountsOk(s'.accounts, holds) && LegsAgree(s, s', cfg)
  {
    hide AccountsOk, BookedAt, Buy, Sell, Add, Withdraw, First;
    match e.op {
      case DoBuy(_, _, _) => TradeLegs(s, holds, e.op, cfg, e.now);
      case DoSell(_, _, _) => TradeLegs(s, holds, e.op, cfg, e.now);
      case DoAdd(_, _, _) => DepositLegs(s, holds, e, cfg);
      case DoWithdraw(_, _, _) => DepositLegs(s, holds, e, cfg);
      case DoCreate(_, _, _, _, _) =>
    }
  }

  lemma {:induction false} RunLegs(s: State, holds: seq<Hold>, events: seq<Event>, cfg: Config)
    requires cfg.bank != cfg.exchange && AccountsOk(s.accounts, holds) && ApartRun(s, events, cfg)
    ensures AccountsOk(Run(s, events, cfg).accounts, holds) && LegsAgree(s, Run(s, events, cfg), cfg)
  {
    hide AccountsOk, BookedAt, Apply, Apart;
    if events != [] {
      var before, last := events[..|events| - 1], events[|events| - 1];
      RunLegs(s, holds, before, cfg);
      assert last.Trade? by { ApartIsTrade(Run(s, before, cfg), last, cfg); }
      EventLegs(Run(s, before, cfg), holds, last, cfg);
    }
  }

  lemma ApartIsTrade(s: State, e: Event, cfg: Config)
    requires Apart(s, e, cfg)
    ensures e.Trade?
  {
  }

  /** Over every run of margin operations the bank's booked balance falls, and the exchange's rises, by
      exactly what all clients together owe more than before. */
  lemma BankLendsWhatClientsOwe(s: State, holds: seq<Hold>, events: seq<Event>, cfg: Config)
    requires Inv(s) && cfg.bank != cfg.exchange && AccountsOk(s.accounts, holds) && ApartRun(s, events, cfg)
    ensures var s' := Run(s, events, cfg);
            var owed := Sum(s'.margins, LoanOf()) - Sum(s.margins, LoanOf());
            && BookedAt(s'.accounts, cfg.bank) == BookedAt(s.accounts, cfg.bank) - owed
            && BookedAt(s'.accounts, cfg.exchange) == BookedAt(s.accounts, cfg.exchange) + owed
  {
    hide Run, BookedAt, AccountsOk, ApartRun;
    EveryRunBalances(s, events, cfg);
    RunLegs(s, holds, events, cfg);
  }

  // The service

  class Service {
    var accounts: seq<Account>
    var margins: seq<Margin>
    var history: seq<Entry>
    ghost var moved: int
    var counter: int

    ghost function Tables(): State
      reads this
    {
      State(accounts, margins, history, moved)
    }

    ghost predicate Atomic(before: State, r: Result<State, Error>, err: Option<Error>, after: State) {
      if r.Ok? then err.None? && after == r.value else err == Some(r.error) && after == before
    }

    /** sendToExchange and receiveFromExchange: two legs and one tick of the counter. */
    method Legs(from: string, fromClient: int, to: string, toClient: int, amount: int, now: int)
      returns (err: Option<Error>)
      modifies this`accounts, this`counter
      ensures var r := Ledger.Move(old(accounts), from, amount, fromClient, to, amount, toClient, now);
              if r.Ok? then err.None? && accounts == r.value && counter == old(counter) + 1
              else err == Some(r.error) && accounts == old(accounts) && counter == old(counter)
    {
      hide Debit, Credit;
      var debited := Debit(accounts, from, amount, fromClient, now);
      if debited.Err? {
        return Some(debited.error);
      }
      var credited := Credit(debited.value, to, amount, toClient, now);
      if credited.Err? {
        return Some(credited.error);
      }
      accounts, counter := credited.value, counter + 1;
      err := None;
    }

    method BuyOnMargin(user: Option<int>, company: Option<int>, amount: int, cfg: Config, now: int)
      returns (err: Option<Error>)
      modifies this
      ensures Atomic(old(Tables()), Buy(old(Tables()), user, company, amount, cfg, now), err, Tables())
      ensures counter == old(counter) + If(err.None?, 1)
    {
      hide Ledger.Move, First, BankPart;
      var owner := TradeOwner(user, company, amount);
      if owner.Err? {
        return Some(owner.error);
      }
      var row := Find(margins, owner.value);
      if row.Err? {
        return Some(row.error);
      }
      var i, acc := row.value, margins[row.value];
      if !acc.active {
        return Some(Conflict("ERR_MARGIN_BLOCKED"));
      }
      var bankPart := BankPart(amount, acc.participation);
      var clientPart := amount - bankPart;
      if acc.initial < clientPart {
        return Some(Conflict("ERR_INSUFFICIENT_FUNDS"));
      }
      acc := acc.(initial := acc.initial - clientPart, loan := acc.loan + bankPart);
      acc := acc.(active := acc.initial >= acc.maintenance);
      err := Legs(cfg.bank, cfg.bankClient, cfg.exchange, cfg.exchangeClient, bankPart, now);
      if err.None? {
        margins := margins[i := acc];
        history := history + [Entry(i, -amount, StockBuy, acc.loan, acc.initial)];
        moved := moved + bankPart;
      }
    }

    method SellOnMargin(user: Option<int>, company: Option<int>, amount: int, cfg: Config, now: int)
      returns (err: Option<Error>)
      modifies this
      ensures Atomic(old(Tables()), Sell(old(Tables()), user, company, amount, cfg, now), err, Tables())
    {
      hide Ledger.Move, First, BankPart;
      var owner := TradeOwner(user, company, amount);
      if owner.Err? {
        return Some(owner.error);
      }
      var row := Find(margins, owner.value);
      if row.Err? {
        return Some(row.error);
      }
      var i, acc := row.value, margins[row.value];
      if !acc.active {
        return Some(Conflict("ERR_MARGIN_BLOCKED"));
      }
      var bankPart := BankPart(amount, acc.participation);
      var clientPart := amount - bankPart;
      var reduction := if acc.loan <= bankPart then acc.loan else bankPart;
      var clientCredit := clientPart + (bankPart - reduction);
      acc := acc.(loan := acc.loan - reduction, initial := acc.initial + clientCredit);
      acc := acc.(active := acc.initial >= acc.maintenance);
      if reduction > 0 {
        err := Legs(cfg.exchange, cfg.exchangeClient, cfg.bank, cfg.bankClient, reduction, now);
        if err.Some? {
          return;
        }
        moved := moved - reduction;
      }
      margins := margins[i := acc];
      history := history + [Entry(i, amount, StockSell, acc.loan, acc.initial)];
      err := None;
    }

    /** CreateForUser and CreateForCompany, with the generated account number as a parameter. */
    method CreateAccount(owner: Owner, number: string, initial: int, maintenance: int, participation: int)
      returns (err: Option<Error>)
      modifies this`margins
      ensures Atomic(old(Tables()), Create(old(Tables()), owner, number, initial, maintenance, participation), err, Tables())
    {
      if initial <= 0 || maintenance <= 0 || participation < 0 || participation > 10_000 {
        return Some(BadRequest);
      }
      if First(margins, OwnerIs(owner)) < |margins| {
        return Some(Conflict("ERR_MARGIN_ACCOUNT_EXISTS"));
      }
      var active := initial >= maintenance;
      margins := margins + [Margin(owner, number, initial, 0, maintenance, participation, active, false, initial)];
      err := None;
    }

    method AddToMarginForUser(user: int, amount: int, requested: string, now: int) returns (err: Option<Error>)
      modifies this
      ensures Atomic(old(Tables()), Add(old(Tables()), user, amount, requested, now), err, Tables())
    {
      hide Debit, First;
      if amount <= 0 {
        return Some(BadRequest);
      }
      var row := Find(margins, User(user));
      if row.Err? {
        return Some(row.error);
      }
      var checking := Checking(accounts, user, requested);
      if checking.Err? {
        return Some(checking.error);
      }
      var debited := Debit(accounts, checking.value, amount, user, now);
      if debited.Err? {
        return Some(debited.error);
      }
      var i, acc := row.value, margins[row.value];
      acc := acc.(initial := acc.initial + amount);
      acc := acc.(active := acc.initial >= acc.maintenance);
      accounts, margins := debited.value, margins[i := acc];
      history := history + [Entry(i, amount, AddToMargin, acc.loan, acc.initial)];
      err := None;
    }

    /** The margin row is written before the credit is attempted, so a failing credit rolls it back. */
    method WithdrawFromMarginForUser(user: int, amount: int, requested: string, now: int) returns (err: Option<Error>)
      modifies this
      ensures Atomic(old(Tables()), Withdraw(old(Tables()), user, amount, requested, now), err, Tables())
    {
      hide Credit, First;
      if amount <= 0 {
        return Some(BadRequest);
      }
      var row := Find(margins, User(user));
      if row.Err? {
        return Some(row.error);
      }
      var i, acc, saved := row.value, margins[row.value], margins;
      if !acc.active {
        return Some(Conflict("ERR_MARGIN_BLOCKED"));
      }
      if acc.initial - amount < acc.maintenance {
        return Some(Conflict("ERR_MARGIN_MAINTENANCE"));
      }
      var checking := Checking(accounts, user, requested);
      if checking.Err? {
        return Some(checking.error);
      }
      acc := acc.(initial := acc.initial - amount);
      acc := acc.(active := acc.initial >= acc.maintenance);
      margins := margins[i := acc];
      var credited := Credit(accounts, checking.value, amount, user, now);
      if credited.Err? {
        margins := saved;
        return Some(credited.error);
      }
      accounts := credited.value;
      history := history + [Entry(i, -amount, WithdrawFromMargin, acc.loan, acc.initial)];
      err := None;
    }
  }
}
