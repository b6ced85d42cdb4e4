/** Reserve, commit, release, debit and credit at statement level. Any number of transactions
    interleave; each locks the rows it reads with FOR UPDATE, its writes stay invisible until it
    commits, and its locks are released when it ends. Every such interleaving is proved to be a
    serial run of the atomic transactions of module Ledger. */
module Interleaving {
  import opened Common
  import opened Accounts
  import opened Ledger
  import LedgerSafety
  import Conservation

  /** Where a transaction stands. `hold` is the reservation row it has locked and read; in
      `Recorded`, `hold` and `row` are the versions it has written and not yet committed. */
  datatype Tx =
    | Begun(op: Op, now: int)
    | Loaded(op: Op, now: int, loaded: Hold)
    | Locked(op: Op, now: int, hold: Option<Hold>, i: nat, row: Account)
    | Updated(op: Op, now: int, hold: Option<Hold>, i: nat, row: Account)
    | Recorded(op: Op, now: int, hold: Option<Hold>, i: nat, row: Account)
    | Ended

  /** The committed tables, the row locks (row position to transaction) and the transactions. */
  datatype Sys = Sys(db: Db, holdLocks: map<nat, nat>, rowLocks: map<nat, nat>, txs: map<nat, Tx>)

  predicate Finalises(op: Op) {
    op.DoCommit? || op.DoRelease?
  }

  predicate Supported(op: Op) {
    Finalises(op) || op.DoReserve? || op.DoDebit? || op.DoCredit?
  }

  /** The checks made on the request before any row is read. */
  predicate Accepted(op: Op) {
    match op
    case DoReserve(n, c, x, l) => n != "" && c != "" && l != "" && x > 0
    case DoDebit(_, x, _) => x > 0
    case DoCredit(_, x, _) => x > 0
    case _ => true
  }

  /** The checks made on the account row once it is locked. */
  predicate Passes(op: Op, a: Account, now: int) {
    match op
    case DoReserve(_, c, x, _) => a.currency == c && a.available >= x
    case DoDebit(_, x, client) => DebitError(a, x, client, now).None?
    case DoCredit(_, _, client) => Mutable(a, client, now)
    case _ => true
  }

  function NumberOf(op: Op, hold: Option<Hold>): string
    requires Supported(op)
  {
    if hold.Some? then hold.value.number else
    match op
    case DoReserve(n, _, _, _) => n
    case DoDebit(n, _, _) => n
    case DoCredit(n, _, _) => n
    case _ => ""
  }

  /** The version of the account row the UPDATE statement writes. */
  function NewRow(op: Op, hold: Option<Hold>, a: Account): Account {
    match op
    case DoReserve(_, _, x, _) => a.(available := a.available - x)
    case DoDebit(_, x, _) => DebitRow(a, x)
    case DoCredit(_, x, _) => CreditRow(a, x)
    case DoCommit(_) => if hold.Some? then a.(booked := a.booked - hold.value.amount) else a
    case DoRelease(_) => if hold.Some? then a.(available := a.available + hold.value.amount) else a
    case _ => a
  }

  /** The version of the reservation row that is inserted or written back, if any. */
  function NewHold(op: Op, hold: Option<Hold>): Option<Hold> {
    match op
    case DoReserve(n, c, x, _) => Some(Hold(n, c, x, Held))
    case DoCommit(_) => if hold.Some? then Some(hold.value.(status := Committed)) else None
    case DoRelease(_) => if hold.Some? then Some(hold.value.(status := Released)) else None
    case _ => None
  }

  function WithHold(holds: seq<Hold>, op: Op, hold: Option<Hold>): seq<Hold> {
    if hold.None? then holds
    else if Finalises(op) && op.id < |holds| then holds[op.id := hold.value]
    else holds + [hold.value]
  }

  // Statements

  function Free(locks: map<nat, nat>, t: nat): map<nat, nat> {
    map k | k in locks && locks[k] != t :: locks[k]
  }

  /** Rollback, or the end of a transaction that found nothing to do. */
  function End(s: Sys, t: nat): Sys {
    s.(holdLocks := Free(s.holdLocks, t), rowLocks := Free(s.rowLocks, t), txs := s.txs[t := Ended])
  }

  /** SELECT ... FOR UPDATE on the account row; waits while another transaction holds it. */
  function LockRow(s: Sys, t: nat, op: Op, now: int, hold: Option<Hold>): Sys
    requires Supported(op)
  {
    var r := ByNumber(s.db.accounts, NumberOf(op, hold));
    if !Accepted(op) || r.Err? then End(s, t)
    else if r.value in s.rowLocks then s
    else if !Passes(op, s.db.accounts[r.value], now) then End(s, t)
    else s.(rowLocks := s.rowLocks[r.value := t],
            txs := s.txs[t := Locked(op, now, hold, r.value, s.db.accounts[r.value])])
  }

  /** loadReservationForUpdate and the status check. */
  function LoadHold(s: Sys, t: nat, op: Op, now: int): Sys
    requires Finalises(op)
  {
    if op.id >= |s.db.holds| then End(s, t)
    else if op.id in s.holdLocks then s
    else if s.db.holds[op.id].status != Held then End(s, t)
    else s.(holdLocks := s.holdLocks[op.id := t], txs := s.txs[t := Loaded(op, now, s.db.holds[op.id])])
  }

  /** The next statement of transaction `t`; nothing happens while it waits for a lock. */
  function Advance(s: Sys, t: nat): Sys {
    if t !in s.txs then s else
    match s.txs[t]
    case Begun(op, now) =>
      if Finalises(op) then LoadHold(s, t, op, now)
      else if Supported(op) then LockRow(s, t, op, now, None) else End(s, t)
    case Loaded(op, now, h) => if Supported(op) then LockRow(s, t, op, now, Some(h)) else End(s, t)
    case Locked(op, now, h, i, row) => s.(txs := s.txs[t := Updated(op, now, h, i, NewRow(op, h, row))])
    case Updated(op, now, h, i, row) => s.(txs := s.txs[t := Recorded(op, now, NewHold(op, h), i, row)])
    case Recorded(op, now, h, i, row) =>
      if i >= |s.db.accounts| then End(s, t)
      else End(s.(db := s.db.(accounts := s.db.accounts[i := row], holds := WithHold(s.db.holds, op, h))), t)
    case Ended => s
  }

  datatype Action =
    | Begin(t: nat, op: Op, now: int)
    | Next(t: nat)
    | Abort(t: nat)
    | Other(op: Op, now: int)

  /** Rows that are locked cannot be changed by anyone else. */
  predicate Untouched(s: Sys, db: Db) {
    && (forall i :: i in s.rowLocks && i < |s.db.accounts| ==> i < |db.accounts| && db.accounts[i] == s.db.accounts[i])
    && (forall k :: k in s.holdLocks && k < |s.db.holds| ==> k < |db.holds| && db.holds[k] == s.db.holds[k])
  }

  /** Any transaction may take its next statement or be rolled back, new ones may begin, and any
      other transaction of the ledger may commit as long as it leaves the locked rows alone. */
  function Act(s: Sys, a: Action): Sys {
    match a
    case Begin(t, op, now) => if t in s.txs || !Supported(op) then s else s.(txs := s.txs[t := Begun(op, now)])
    case Next(t) => Advance(s, t)
    case Abort(t) => if t in s.txs then End(s, t) else s
    case Other(op, now) =>
      if Untouched(s, Apply(s.db, op, now)) then s.(db := Apply(s.db, op, now)) else s
  }

  function Exec(s: Sys, actions: seq<Action>): Sys {
    if actions == [] then s else Act(Exec(s, actions[..|actions| - 1]), actions[|actions| - 1])
  }

  /** The transaction an action commits, if it commits one. */
  function Commits(s: Sys, a: Action): seq<Event> {
    if a.Next? && a.t in s.txs && s.txs[a.t].Recorded? then [Event(s.txs[a.t].op, s.txs[a.t].now)]
    else if a.Other? && Untouched(s, Apply(s.db, a.op, a.now)) then [Event(a.op, a.now)]
    else []
  }

  /** The serial run an interleaving amounts to: its transactions in the order they commit. */
  function Serial(s: Sys, actions: seq<Action>): seq<Event> {
    if actions == [] then []
    else
      var before := actions[..|actions| - 1];
      Serial(s, before) + Commits(Exec(s, before), actions[|actions| - 1])
  }

  // What every interleaving keeps

  predicate HasHold(s: Sys, t: nat, op: Op, h: Hold) {
    && Finalises(op) && op.id < |s.db.holds| && s.db.holds[op.id] == h && h.status == Held
    && op.id in s.holdLocks && s.holdLocks[op.id] == t
  }

  /** Transaction `t` owns account row `i`, which still is what it read and passed the checks on. */
  predicate HasRow(s: Sys, t: nat, op: Op, now: int, h: Option<Hold>, i: nat) {
    && Supported(op) && Accepted(op)
    && i < |s.db.accounts| && i in s.rowLocks && s.rowLocks[i] == t
    && s.db.accounts[i].number == NumberOf(op, h) && !s.db.accounts[i].deleted
    && Passes(op, s.db.accounts[i], now)
    && (if Finalises(op) then h.Some? && HasHold(s, t, op, h.value) else h.None?)
  }

  predicate TxOk(s: Sys, t: nat, tx: Tx) {
    match tx
    case Begun(op, _) => Supported(op)
    case Loaded(op, _, h) => HasHold(s, t, op, h)
    case Locked(op, now, h, i, row) => HasRow(s, t, op, now, h, i) && row == s.db.accounts[i]
    case Updated(op, now, h, i, row) => HasRow(s, t, op, now, h, i) && row == NewRow(op, h, s.db.accounts[i])
    case Recorded(op, now, h', i, row) =>
      && (Finalises(op) ==> op.id < |s.db.holds|)
      && var h := if Finalises(op) then Some(s.db.holds[op.id]) else None;
      HasRow(s, t, op, now, h, i) && row == NewRow(op, h, s.db.accounts[i]) && h' == NewHold(op, h)
    case Ended => true
  }

  /** A lock is held by a transaction that is past the statement that takes it. */
  predicate LocksOk(s: Sys) {
    && (forall i :: i in s.rowLocks ==>
          s.rowLocks[i] in s.txs && var tx := s.txs[s.rowLocks[i]]; tx.Locked? || tx.Updated? || tx.Recorded?)
    && (forall k :: k in s.holdLocks ==>
          s.holdLocks[k] in s.txs && var tx := s.txs[s.holdLocks[k]]; tx.Loaded? || tx.Locked? || tx.Updated? || tx.Recorded?)
  }

  predicate SysOk(s: Sys) {
    && LedgerSafety.Inv(s.db)
    && LocksOk(s)
    && forall t :: t in s.txs ==> TxOk(s, t, s.txs[t])
  }

  /** The locks of the other transactions survive, and what they lock is unchanged. */
  predicate Spares(s: Sys, s': Sys, t: nat) {
    && (forall i :: i in s.rowLocks && s.rowLocks[i] != t && i < |s.db.accounts| ==>
          i in s'.rowLocks && s'.rowLocks[i] == s.rowLocks[i]
          && i < |s'.db.accounts| && s'.db.accounts[i] == s.db.accounts[i])
    && (forall k :: k in s.holdLocks && s.holdLocks[k] != t && k < |s.db.holds| ==>
          k in s'.holdLocks && s'.holdLocks[k] == s.holdLocks[k]
          && k < |s'.db.holds| && s'.db.holds[k] == s.db.holds[k])
  }

  lemma SparedTx(s: Sys, s': Sys, t: nat, u: nat, tx: Tx)
    requires Spares(s, s', t) && u != t && TxOk(s, u, tx)
    ensures TxOk(s', u, tx)
  {
  }

  lemma EndKeeps(s: Sys, db: Db, t: nat)
    requires SysOk(s) && t in s.txs && LedgerSafety.Inv(db)
    requires Spares(s, s.(db := db), t)
    ensures SysOk(End(s.(db := db), t))
  {
    hide LedgerSafety.Inv;
    var s' := End(s.(db := db), t);
    forall u | u in s'.txs ensures TxOk(s', u, s'.txs[u]) {
      if u != t {
        SparedTx(s, s', t, u, s.txs[u]);
      }
    }
  }

  /** The locks of `s'` are those of `s` and perhaps more for `t`, which is past both selects. */
  predicate TakesLocks(s: Sys, s': Sys, t: nat) {
    && (forall i :: i in s'.rowLocks ==> s'.rowLocks[i] == t || (i in s.rowLocks && s.rowLocks[i] == s'.rowLocks[i]))
    && (forall k :: k in s'.holdLocks ==> s'.holdLocks[k] == t || (k in s.holdLocks && s.holdLocks[k] == s'.holdLocks[k]))
  }

  /** A statement of `t` that changes no committed table. */
  lemma QuietKeeps(s: Sys, s': Sys, t: nat, tx: Tx)
    requires SysOk(s) && t in s.txs && s'.db == s.db && s'.txs == s.txs[t := tx]
    requires Spares(s, s', t) && TakesLocks(s, s', t) && TxOk(s', t, tx)
    requires tx.Locked? || tx.Updated? || tx.Recorded? || (tx.Loaded? && s'.rowLocks == s.rowLocks && s.txs[t].Begun?)
    ensures SysOk(s')
  {
    hide LedgerSafety.Inv, TxOk, Spares;
    forall u | u in s'.txs ensures TxOk(s', u, s'.txs[u]) {
      if u != t {
        SparedTx(s, s', t, u, s.txs[u]);
      }
    }
  }

  lemma LockRowKeeps(s: Sys, t: nat, op: Op, now: int, hold: Option<Hold>)
    requires SysOk(s) && t in s.txs && Supported(op)
    requires s.txs[t] == if hold.Some? then Loaded(op, now, hold.value) else Begun(op, now)
    requires hold.Some? <==> Finalises(op)
    ensures SysOk(LockRow(s, t, op, now, hold)) && LockRow(s, t, op, now, hold).db == s.db
  {
    hide LedgerSafety.Inv, LocksOk, First, Passes, Accepted, NumberOf;
    var s' := LockRow(s, t, op, now, hold);
    if s' == s {
    } else if s' == End(s, t) {
      EndKeeps(s, s.db, t);
    } else {
      assert TxOk(s, t, s.txs[t]);
      QuietKeeps(s, s', t, s'.txs[t]);
    }
  }

  lemma LoadHoldKeeps(s: Sys, t: nat, op: Op, now: int)
    requires SysOk(s) && t in s.txs && s.txs[t] == Begun(op, now) && Finalises(op)
    ensures SysOk(LoadHold(s, t, op, now)) && LoadHold(s, t, op, now).db == s.db
  {
    hide LedgerSafety.Inv, LocksOk;
    var s' := LoadHold(s, t, op, now);
    if s' == s {
    } else if s' == End(s, t) {
      EndKeeps(s, s.db, t);
    } else {
      QuietKeeps(s, s', t, s'.txs[t]);
    }
  }

  /** Committing is one atomic transaction of the ledger against the tables of that moment. */
  lemma CommitIsAtomic(s: Sys, t: nat)
    requires SysOk(s) && t in s.txs && s.txs[t].Recorded?
    ensures Step(s.db, s.txs[t].op, s.txs[t].now) == Ok(Advance(s, t).db)
  {
    hide LedgerSafety.Inv, LocksOk, First, Debit, Credit, CommitHold, ReleaseHold, ReserveHold;
    var tx := s.txs[t];
    assert TxOk(s, t, tx);
    assert ByNumber(s.db.accounts, s.db.accounts[tx.i].number) == Ok(tx.i) by { LiveRow(s.db, tx.i); }
    if Finalises(tx.op) {
      FinaliseIsAtomic(s.db, tx.op, tx.i);
    } else {
      WriteIsAtomic(s.db, tx.op, tx.now, tx.i);
    }
  }

  lemma LiveRow(db: Db, i: nat)
    requires LedgerSafety.Inv(db) && i < |db.accounts| && !db.accounts[i].deleted
    ensures ByNumber(db.accounts, db.accounts[i].number) == Ok(i)
  {
    LedgerSafety.ByNumberOfRow(db.accounts, i);
  }

  lemma FinaliseIsAtomic(db: Db, op: Op, i: nat)
    requires Finalises(op) && op.id < |db.holds| && db.holds[op.id].status == Held
    requires i < |db.accounts| && ByNumber(db.accounts, db.holds[op.id].number) == Ok(i)
    ensures var h := Some(db.holds[op.id]);
            (if op.DoCommit? then CommitHold(db, op.id) else ReleaseHold(db, op.id))
            == Ok(db.(accounts := db.accounts[i := NewRow(op, h, db.accounts[i])],
                      holds := WithHold(db.holds, op, NewHold(op, h))))
  {
    hide First;
  }

  lemma WriteIsAtomic(db: Db, op: Op, now: int, i: nat)
    requires Supported(op) && !Finalises(op) && Accepted(op)
    requires i < |db.accounts| && ByNumber(db.accounts, NumberOf(op, None)) == Ok(i)
    requires Passes(op, db.accounts[i], now)
    ensures Step(db, op, now)
            == Ok(db.(accounts := db.accounts[i := NewRow(op, None, db.accounts[i])],
                      holds := WithHold(db.holds, op, NewHold(op, None))))
  {
    hide First;
  }

  lemma CommitSpares(s: Sys, t: nat)
    requires SysOk(s) && t in s.txs && s.txs[t].Recorded?
    ensures Spares(s, s.(db := Advance(s, t).db), t)
  {
    hide LedgerSafety.Inv, LocksOk, NewRow, NewHold, Passes, Accepted;
    assert TxOk(s, t, s.txs[t]);
  }

  lemma CommitKeeps(s: Sys, t: nat)
    requires SysOk(s) && t in s.txs && s.txs[t].Recorded?
    ensures SysOk(Advance(s, t))
  {
    hide LedgerSafety.Inv, LocksOk, Step, Spares;
    assert TxOk(s, t, s.txs[t]);
    CommitIsAtomic(s, t);
    LedgerSafety.StepKeepsInv(s.db, s.txs[t].op, s.txs[t].now);
    CommitSpares(s, t);
    EndKeeps(s, Advance(s, t).db, t);
  }

  lemma WriteKeeps(s: Sys, t: nat)
    requires SysOk(s) && t in s.txs && (s.txs[t].Locked? || s.txs[t].Updated?)
    ensures SysOk(Advance(s, t)) && Advance(s, t).db == s.db
  {
    hide LedgerSafety.Inv, LocksOk, NewRow, NewHold, Passes, Accepted, NumberOf;
    assert TxOk(s, t, s.txs[t]);
    QuietKeeps(s, Advance(s, t), t, Advance(s, t).txs[t]);
  }

  lemma AdvanceKeeps(s: Sys, t: nat)
    requires SysOk(s)
    ensures SysOk(Advance(s, t))
    ensures (t in s.txs && s.txs[t].Recorded?) || Advance(s, t).db == s.db
  {
    hide SysOk, LockRow, LoadHold;
    if t in s.txs {
      assert TxOk(s, t, s.txs[t]) by { TxOf(s, t); }
      match s.txs[t] {
        case Begun(op, now) =>
          if Finalises(op) { LoadHoldKeeps(s, t, op, now); } else { LockRowKeeps(s, t, op, now, None); }
        case Loaded(op, now, h) => LockRowKeeps(s, t, op, now, Some(h));
        case Locked(_, _, _, _, _) => WriteKeeps(s, t);
        case Updated(_, _, _, _, _) => WriteKeeps(s, t);
        case Recorded(_, _, _, _, _) => CommitKeeps(s, t);
        case Ended =>
      }
    }
  }

  lemma TxOf(s: Sys, t: nat)
    requires SysOk(s) && t in s.txs
    ensures TxOk(s, t, s.txs[t])
  {
  }

  lemma OtherKeeps(s: Sys, db: Db)
    requires SysOk(s) && LedgerSafety.Inv(db) && Untouched(s, db)
    ensures SysOk(s.(db := db))
  {
    hide LedgerSafety.Inv;
    var s' := s.(db := db);
    forall u | u in s'.txs ensures TxOk(s', u, s'.txs[u]) {
      SparedTx(s, s', u + 1, u, s.txs[u]);
    }
  }

  lemma ActKeeps(s: Sys, a: Action)
    requires SysOk(s)
    ensures SysOk(Act(s, a)) && Act(s, a).db == Run(s.db, Commits(s, a))
  {
    hide LedgerSafety.Inv, Advance, LocksOk, Step, TxOk;
    match a {
      case Begin(t, op, now) => BeginKeeps(s, t, op, now);
      case Next(t) =>
        AdvanceKeeps(s, t);
        if t in s.txs && s.txs[t].Recorded? {
          CommitIsAtomic(s, t);
          SingleRun(s.db, Event(s.txs[t].op, s.txs[t].now));
        }
      case Abort(t) => if t in s.txs { SparesItself(s, t); EndKeeps(s, s.db, t); }
      case Other(op, now) =>
        SingleRun(s.db, Event(op, now));
        if Step(s.db, op, now).Ok? {
          LedgerSafety.StepKeepsInv(s.db, op, now);
        }
        if Untouched(s, Apply(s.db, op, now)) {
          OtherKeeps(s, Apply(s.db, op, now));
        }
    }
  }

  lemma SparesItself(s: Sys, t: nat)
    ensures Spares(s, s.(db := s.db), t)
  {
  }

  lemma BeginKeeps(s: Sys, t: nat, op: Op, now: int)
    requires SysOk(s)
    ensures SysOk(Act(s, Begin(t, op, now))) && Act(s, Begin(t, op, now)).db == s.db
  {
    hide LedgerSafety.Inv;
    if t !in s.txs && Supported(op) {
      var s' := s.(txs := s.txs[t := Begun(op, now)]);
      forall u | u in s'.txs ensures TxOk(s', u, s'.txs[u]) {
        if u != t {
          SparedTx(s, s', t, u, s.txs[u]);
        }
      }
    }
  }

  lemma SingleRun(db: Db, e: Event)
    ensures Run(db, [e]) == Apply(db, e.op, e.now)
  {
    hide Apply;
    assert [e][..0] == [];
    assert Run(db, []) == db;
  }

  lemma RunAppend(db: Db, events: seq<Event>, more: seq<Event>)
    requires |more| <= 1
    ensures Run(db, events + more) == Run(Run(db, events), more)
  {
    hide Apply;
    if more == [] {
      assert events + more == events;
    } else {
      SingleRun(Run(db, events), more[0]);
      assert more == [more[0]] && (events + more)[..|events|] == events;
    }
  }

  /** Every interleaving of statements leaves the committed tables exactly as the serial run of its
      committed transactions, in commit order, would: row locks make the protocol atomic. */
  lemma {:induction false} InterleavingIsSerial(db: Db, actions: seq<Action>)
    requires LedgerSafety.Inv(db)
    ensures var s := Sys(db, map[], map[], map[]);
            SysOk(Exec(s, actions)) && Exec(s, actions).db == Run(db, Serial(s, actions))
  {
    var s := Sys(db, map[], map[], map[]);
    if actions != [] {
      var before := actions[..|actions| - 1];
      InterleavingIsSerial(db, before);
      ActKeeps(Exec(s, before), actions[|actions| - 1]);
      RunAppend(db, Serial(s, before), Commits(Exec(s, before), actions[|actions| - 1]));
    }
  }

  /** So in every interleaving each reservation reaches at most one terminal state, every account has
      booked minus available equal to its HELD reservations and neither balance goes below zero. */
  lemma InterleavingsAreSafe(db: Db, actions: seq<Action>)
    requires LedgerSafety.Inv(db)
    ensures var now := Exec(Sys(db, map[], map[], map[]), actions).db;
            && Conservation.Evolves(db.holds, now.holds)
            && forall i :: 0 <= i < |now.accounts| ==>
                 var a := now.accounts[i];
                 a.booked - a.available == HeldFor(now.holds, a.number) && a.booked >= a.available >= 0
  {
    InterleavingIsSerial(db, actions);
    var events := Serial(Sys(db, map[], map[], map[]), actions);
    LedgerSafety.EveryRunIsSafe(db, events);
    Conservation.TerminalStatesAreFinal(db, events);
  }

  predicate Reserves(a: Action) {
    match a
    case Begin(_, op, _) => Conservation.OnHolds(op)
    case Other(op, _) => Conservation.OnHolds(op)
    case _ => true
  }

  predicate AllReserve(s: Sys) {
    forall t :: t in s.txs && !s.txs[t].Ended? ==> Conservation.OnHolds(s.txs[t].op)
  }

  lemma ActReserves(s: Sys, a: Action)
    requires AllReserve(s) && Reserves(a)
    ensures AllReserve(Act(s, a))
    ensures forall k :: 0 <= k < |Commits(s, a)| ==> Conservation.OnHolds(Commits(s, a)[k].op)
  {
    hide Apply, Untouched, Passes, Accepted, ByNumber, NumberOf, Free, NewRow, NewHold, WithHold;
  }

  lemma {:induction false} SerialReserves(s: Sys, actions: seq<Action>)
    requires AllReserve(s) && forall k :: 0 <= k < |actions| ==> Reserves(actions[k])
    ensures AllReserve(Exec(s, actions))
    ensures forall k :: 0 <= k < |Serial(s, actions)| ==> Conservation.OnHolds(Serial(s, actions)[k].op)
  {
    hide Act, AllReserve, Commits, Reserves;
    if actions != [] {
      var before := actions[..|actions| - 1];
      SerialReserves(s, before);
      ActReserves(Exec(s, before), actions[|actions| - 1]);
    }
  }

  /** In every interleaving of concurrent reserve, commit and release transactions, each reservation
      takes its amount off both balances once committed and off neither once released. */
  lemma InterleavedNetEffect(db: Db, actions: seq<Action>)
    requires LedgerSafety.Inv(db) && forall k :: 0 <= k < |actions| ==> Reserves(actions[k])
    ensures Conservation.NetEffect(db, Exec(Sys(db, map[], map[], map[]), actions).db)
  {
    var s := Sys(db, map[], map[], map[]);
    InterleavingIsSerial(db, actions);
    SerialReserves(s, actions);
    Conservation.ReservationsNetEffect(db, Serial(s, actions));
  }

  /** Nobody ever waits for itself in a circle: while some transaction is unfinished, some unfinished
      transaction can take its next statement. */
  lemma NoDeadlock(s: Sys, t: nat)
    requires SysOk(s) && t in s.txs && !s.txs[t].Ended?
    ensures exists u :: u in s.txs && !s.txs[u].Ended? && Advance(s, u) != s
  {
    hide LedgerSafety.Inv, First;
    if Advance(s, t) == s {
      assert TxOk(s, t, s.txs[t]);
      var op := s.txs[t].op;
      if s.txs[t].Begun? && Finalises(op) {
        var u := s.holdLocks[op.id];
        assert TxOk(s, u, s.txs[u]);
        if Advance(s, u) == s {
          RowHolderMoves(s, u);
        }
      } else {
        RowHolderMoves(s, t);
      }
    }
  }

  /** A transaction waiting for an account row waits for one that waits for nothing. */
  lemma RowHolderMoves(s: Sys, t: nat)
    requires SysOk(s) && t in s.txs && Advance(s, t) == s
    requires s.txs[t].Loaded? || s.txs[t].Locked? || s.txs[t].Updated? || s.txs[t].Recorded?
             || (s.txs[t].Begun? && !Finalises(s.txs[t].op))
    ensures exists u :: u in s.txs && !s.txs[u].Ended? && Advance(s, u) != s
  {
    hide LedgerSafety.Inv, First, NewRow, NewHold, Passes, Accepted;
    var tx := s.txs[t];
    assert TxOk(s, t, tx);
    var h := if tx.Loaded? then Some(tx.loaded) else None;
    var i := ByNumber(s.db.accounts, NumberOf(tx.op, h)).value;
    var u := s.rowLocks[i];
    assert TxOk(s, u, s.txs[u]);
    assert s.txs[u] != Advance(s, u).txs[u];
  }
}
