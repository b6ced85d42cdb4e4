/** The outbound retry scheduler over interbank_messages. Several scheduler instances and the original
    senders hold snapshots of rows, send, and write back with a version check, in any interleaving. */
module Retry {
  import opened Common

  datatype Status = PendingSend | Sent | Stuck

  /** An OUTBOUND row, or a snapshot of one. */
  datatype Message = Message(status: Status, retry: nat, lastAttempt: Option<int>, version: nat)

  const BACKOFF: seq<int> := [2, 4, 8, 16, 32]

  /** Enough seconds have passed for the next attempt; retry counts beyond the table use its last entry. */
  predicate ShouldAttempt(m: Message, now: int) {
    m.lastAttempt.None? ||
    now - m.lastAttempt.value >= BACKOFF[if m.retry >= |BACKOFF| then |BACKOFF| - 1 else m.retry]
  }

  /** What FindPending selects. */
  predicate Eligible(m: Message, max: nat, cutoff: int) {
    m.status == PendingSend && m.retry < max && (m.lastAttempt.None? || m.lastAttempt.value < cutoff)
  }

  /** The snapshot after one attempt: SENT on success, one more retry on failure, STUCK at the maximum. */
  function Attempted(m: Message, ok: bool, max: nat, now: int): Message {
    if ok then m.(status := Sent, lastAttempt := Some(now))
    else m.(retry := m.retry + 1, lastAttempt := Some(now), status := if m.retry + 1 >= max then Stuck else m.status)
  }

  /** UPDATE ... WHERE id AND version: applied only to the version the snapshot was taken from. */
  function Written(rows: map<nat, Message>, id: nat, m: Message): map<nat, Message> {
    if id in rows && rows[id].version == m.version then rows[id := m.(version := m.version + 1)] else rows
  }

  /** No row is attempted before 2, 4, 8, 16 or 32 seconds have passed since the last attempt, by its retry
      count; from the fourth retry on it is always 32. A row never attempted is due at once. */
  lemma BackoffExactly(m: Message, now: int)
    ensures m.lastAttempt.None? ==> ShouldAttempt(m, now)
    ensures m.lastAttempt.Some? ==>
              var passed := now - m.lastAttempt.value;
              (ShouldAttempt(m, now) <==>
                 passed >= if m.retry == 0 then 2 else if m.retry == 1 then 4 else if m.retry == 2 then 8
                           else if m.retry == 3 then 16 else 32)
  {
  }

  /** Only pending rows below the maximum and not tried since the cutoff are picked; an attempt notes its
      time, and either marks the row SENT or adds one retry, at the maximum making it STUCK. */
  lemma AttemptEffect(m: Message, ok: bool, max: nat, now: int, cutoff: int)
    ensures Eligible(m, max, cutoff)
            <==> m.status == PendingSend && m.retry < max && (m.lastAttempt.Some? ==> m.lastAttempt.value < cutoff)
    ensures var m' := Attempted(m, ok, max, now);
            && m'.lastAttempt == Some(now) && m'.version == m.version
            && (ok ==> m'.status == Sent && m'.retry == m.retry)
            && (!ok ==> m'.retry == m.retry + 1 && m'.status == if m.retry + 1 >= max then Stuck else m.status)
  {
  }

  // Any number of workers

  /** A snapshot held by a worker; `ticket` is the resend it is the outcome of, if any. */
  datatype Item = Item(id: nat, snapshot: Message, ticket: Option<nat>)

  /** What became of a resend: its write is still to be made, was not applied (conflict, failure or
      crash), was applied as one more retry, or was applied as SENT. */
  datatype Fate = Pending | Missed | Counted | Delivered

  datatype Attempt = Attempt(id: nat, w: nat, fate: Fate)

  /** A worker's unprocessed snapshots and the write it has not yet made, if any. */
  datatype Worker = Worker(queue: seq<Item>, writing: Option<Item>)

  /** `resends` counts the schedulers' send attempts per message and `log` lists them with their fate;
      no step depends on either. */
  datatype Sys = Sys(rows: map<nat, Message>, workers: map<nat, Worker>, resends: map<nat, nat>, log: seq<Attempt>)

  datatype Action =
    | Enqueue(w: nat, id: nat, now: int)
    | InitialSend(w: nat, ok: bool, now: int)
    | Fetch(w: nat, picks: seq<nat>, cutoff: int)
    | Skip(w: nat)
    | Resend(w: nat, ok: bool, now: int)
    | Write(w: nat, applied: bool)
    | Crash(w: nat)

  predicate CanFetch(s: Sys, w: nat, picks: seq<nat>, cutoff: int, max: nat) {
    && (w in s.workers ==> s.workers[w] == Worker([], None))
    && |picks| <= 50
    && (forall x, y :: 0 <= x < y < |picks| ==> picks[x] != picks[y])
    && (forall x :: 0 <= x < |picks| ==> picks[x] in s.rows && Eligible(s.rows[picks[x]], max, cutoff))
  }

  function Snapshots(rows: map<nat, Message>, picks: seq<nat>): seq<Item>
    requires forall x :: 0 <= x < |picks| ==> picks[x] in rows
  {
    seq(|picks|, x requires 0 <= x < |picks| => Item(picks[x], rows[picks[x]], None))
  }

  function Count(s: Sys, id: nat): nat {
    if id in s.resends then s.resends[id] else 0
  }

  function Marked(log: seq<Attempt>, writing: Option<Item>, fate: Fate): seq<Attempt> {
    if writing.Some? && writing.value.ticket.Some? && writing.value.ticket.value < |log|
    then log[writing.value.ticket.value := log[writing.value.ticket.value].(fate := fate)] else log
  }

  /** The version check lets the write through. */
  predicate Takes(rows: map<nat, Message>, item: Item, applied: bool) {
    applied && item.id in rows && rows[item.id].version == item.snapshot.version
  }

  function FateOf(rows: map<nat, Message>, item: Item, applied: bool): Fate {
    if !Takes(rows, item, applied) then Missed else if item.snapshot.status == Sent then Delivered else Counted
  }

  function Act(s: Sys, a: Action, max: nat): Sys {
    match a
    case Enqueue(w, id, now) =>
      if id in s.rows || (w in s.workers && s.workers[w] != Worker([], None)) then s
      else
        var m := Message(PendingSend, 0, Some(now), 0);
        s.(rows := s.rows[id := m], workers := s.workers[w := Worker([Item(id, m, None)], None)])
    case InitialSend(w, ok, now) =>
      if w !in s.workers || s.workers[w].queue == [] || s.workers[w].writing.Some? || s.workers[w].queue[0].snapshot.retry != 0 then s
      else
        var item := s.workers[w].queue[0];
        s.(workers := s.workers[w := Worker(s.workers[w].queue[1..],
             if ok then Some(Item(item.id, item.snapshot.(status := Sent, lastAttempt := Some(now)), None)) else None)])
    case Fetch(w, picks, cutoff) =>
      if !CanFetch(s, w, picks, cutoff, max) then s
      else s.(workers := s.workers[w := Worker(Snapshots(s.rows, picks), None)])
    case Skip(w) =>
      if w !in s.workers || s.workers[w].queue == [] || s.workers[w].writing.Some? then s
      else s.(workers := s.workers[w := Worker(s.workers[w].queue[1..], None)])
    case Resend(w, ok, now) =>
      if w !in s.workers || s.workers[w].queue == [] || s.workers[w].writing.Some? then s
      else
        var item := s.workers[w].queue[0];
        s.(workers := s.workers[w := Worker(s.workers[w].queue[1..],
                                            Some(Item(item.id, Attempted(item.snapshot, ok, max, now), Some(|s.log|))))],
           resends := s.resends[item.id := Count(s, item.id) + 1],
           log := s.log + [Attempt(item.id, w, Pending)])
    case Write(w, applied) =>
      if w !in s.workers || s.workers[w].writing.None? then s
      else
        var item := s.workers[w].writing.value;
        s.(rows := if applied then Written(s.rows, item.id, item.snapshot) else s.rows,
           workers := s.workers[w := Worker(s.workers[w].queue, None)],
           log := Marked(s.log, s.workers[w].writing, FateOf(s.rows, item, applied)))
    case Crash(w) =>
      if w !in s.workers then s
      else s.(workers := s.workers[w := Worker([], None)], log := Marked(s.log, s.workers[w].writing, Missed))
  }

  function Exec(s: Sys, actions: seq<Action>, max: nat): Sys {
    if actions == [] then s else Act(Exec(s, actions[..|actions| - 1], max), actions[|actions| - 1], max)
  }

  // What every interleaving keeps

  predicate RowOk(m: Message, max: nat) {
    if m.status == Stuck then m.retry == max else m.retry < max
  }

  /** A snapshot is of a pending row, and as long as the version is current so is the rest. */
  predicate SnapshotOk(rows: map<nat, Message>, i: Item, max: nat) {
    && i.id in rows && i.snapshot.status == PendingSend && i.snapshot.retry < max
    && i.snapshot.version <= rows[i.id].version
    && (i.snapshot.version == rows[i.id].version ==> i.snapshot == rows[i.id])
  }

  /** A write about to be made is a legal next version of the row, if the row is still that version. */
  predicate WriteOk(rows: map<nat, Message>, i: Item, max: nat) {
    && i.id in rows && i.snapshot.version <= rows[i.id].version && RowOk(i.snapshot, max)
    && (i.snapshot.version == rows[i.id].version ==>
          rows[i.id].status == PendingSend && rows[i.id].retry <= i.snapshot.retry)
  }

  predicate WorkerOk(rows: map<nat, Message>, w: Worker, max: nat) {
    && (forall x :: 0 <= x < |w.queue| ==> SnapshotOk(rows, w.queue[x], max))
    && (w.writing.Some? ==> WriteOk(rows, w.writing.value, max))
  }

  predicate Inv(s: Sys, max: nat) {
    && (forall id :: id in s.rows ==> RowOk(s.rows[id], max))
    && (forall w :: w in s.workers ==> WorkerOk(s.rows, s.workers[w], max))
  }

  /** How a row may change: SENT and STUCK rows never again, retry counts never down, and the version
      identifies the content. */
  predicate Evolves(m: Message, m': Message) {
    && m.version <= m'.version && m.retry <= m'.retry
    && (m.version == m'.version ==> m == m')
    && (m.status != PendingSend ==> m == m')
  }

  predicate AllEvolve(rows: map<nat, Message>, rows': map<nat, Message>) {
    forall id :: id in rows ==> id in rows' && Evolves(rows[id], rows'[id])
  }

  lemma WorkerSurvives(rows: map<nat, Message>, rows': map<nat, Message>, w: Worker, max: nat)
    requires AllEvolve(rows, rows') && WorkerOk(rows, w, max)
    ensures WorkerOk(rows', w, max)
  {
    forall x | 0 <= x < |w.queue| ensures SnapshotOk(rows', w.queue[x], max) {
      assert Evolves(rows[w.queue[x].id], rows'[w.queue[x].id]);
    }
    if w.writing.Some? {
      assert Evolves(rows[w.writing.value.id], rows'[w.writing.value.id]);
    }
  }

  lemma OneWorkerChanges(s: Sys, s': Sys, w: nat, worker: Worker, max: nat)
    requires Inv(s, max) && AllEvolve(s.rows, s'.rows) && s'.workers == s.workers[w := worker]
    requires forall id :: id in s'.rows ==> RowOk(s'.rows[id], max)
    requires WorkerOk(s'.rows, worker, max)
    ensures Inv(s', max)
  {
    forall v | v in s'.workers ensures WorkerOk(s'.rows, s'.workers[v], max) {
      if v != w {
        WorkerSurvives(s.rows, s'.rows, s.workers[v], max);
      }
    }
  }

  lemma RowsStay(rows: map<nat, Message>)
    ensures AllEvolve(rows, rows)
  {
  }

  lemma TakesKeep(s: Sys, a: Action, max: nat)
    requires Inv(s, max) && max >= 1 && (a.InitialSend? || a.Skip? || a.Resend? || a.Crash?)
    ensures Inv(Act(s, a, max), max) && AllEvolve(s.rows, Act(s, a, max).rows)
  {
    hide Inv, AllEvolve;
    RowsStay(s.rows);
    var s' := Act(s, a, max);
    if s' != s {
      WorkerOf(s, a.w, max);
      var before := s.workers[a.w];
      if !a.Crash? {
        assert SnapshotOk(s.rows, before.queue[0], max);
        assert forall x :: 0 <= x < |before.queue[1..]| ==> before.queue[1..][x] == before.queue[x + 1];
      }
      OneWorkerChanges(s, s', a.w, s'.workers[a.w], max);
    }
  }

  lemma WorkerOf(s: Sys, w: nat, max: nat)
    requires Inv(s, max)
    ensures w in s.workers ==> WorkerOk(s.rows, s.workers[w], max)
    ensures forall id :: id in s.rows ==> RowOk(s.rows[id], max)
  {
  }

  lemma FetchKeeps(s: Sys, a: Action, max: nat)
    requires Inv(s, max) && max >= 1 && (a.Enqueue? || a.Fetch?)
    ensures Inv(Act(s, a, max), max) && AllEvolve(s.rows, Act(s, a, max).rows)
  {
    var s' := Act(s, a, max);
    if s' != s {
      OneWorkerChanges(s, s', a.w, s'.workers[a.w], max);
    }
  }

  lemma WriteKeeps(s: Sys, w: nat, applied: bool, max: nat)
    requires Inv(s, max)
    ensures var s' := Act(s, Write(w, applied), max);
            Inv(s', max) && AllEvolve(s.rows, s'.rows)
  {
    var s' := Act(s, Write(w, applied), max);
    if s' != s {
      assert WorkerOk(s.rows, s.workers[w], max);
      WorkerSurvives(s.rows, s'.rows, Worker(s.workers[w].queue, None), max);
      OneWorkerChanges(s, s', w, s'.workers[w], max);
    }
  }

  lemma ActKeeps(s: Sys, a: Action, max: nat)
    requires Inv(s, max) && max >= 1
    ensures Inv(Act(s, a, max), max) && AllEvolve(s.rows, Act(s, a, max).rows)
  {
    hide Inv, Act, AllEvolve;
    match a {
      case Enqueue(_, _, _) => FetchKeeps(s, a, max);
      case Fetch(_, _, _) => FetchKeeps(s, a, max);
      case Write(w, applied) => WriteKeeps(s, w, applied, max);
      case InitialSend(_, _, _) => TakesKeep(s, a, max);
      case Skip(_) => TakesKeep(s, a, max);
      case Resend(_, _, _) => TakesKeep(s, a, max);
      case Crash(_) => TakesKeep(s, a, max);
    }
  }

  /** With any number of schedulers and senders holding stale snapshots, failing writes and crashes:
      SENT and STUCK rows never change again, a retry count never decreases or exceeds the maximum,
      and a row is STUCK exactly when its retry count has reached the maximum. */
  lemma {:induction false} EveryRunIsMonotone(s: Sys, actions: seq<Action>, max: nat)
    requires Inv(s, max) && max >= 1
    ensures Inv(Exec(s, actions, max), max) && AllEvolve(s.rows, Exec(s, actions, max).rows)
  {
    hide Act;
    if actions != [] {
      var before := Exec(s, actions[..|actions| - 1], max);
      EveryRunIsMonotone(s, actions[..|actions| - 1], max);
      ActKeeps(before, actions[|actions| - 1], max);
      EvolvesOn(s.rows, before.rows, Act(before, actions[|actions| - 1], max).rows);
    }
  }

  lemma EvolvesOn(a: map<nat, Message>, b: map<nat, Message>, c: map<nat, Message>)
    requires AllEvolve(a, b) && AllEvolve(b, c)
    ensures AllEvolve(a, c)
  {
  }

  // One scheduler

  /** Worker 0 is the only scheduler, its writes always reach the database and it does not crash;
      the other workers are original senders. */
  predicate OneScheduler(a: Action) {
    match a
    case Enqueue(w, _, _) => w != 0
    case InitialSend(w, _, _) => w != 0
    case Fetch(w, _, _) => w == 0
    case Skip(w) => w == 0
    case Resend(w, _, _) => w == 0
    case Write(w, applied) => w == 0 ==> applied
    case Crash(w) => w != 0
  }

  predicate Queued(w: Worker, id: nat) {
    exists x :: 0 <= x < |w.queue| && w.queue[x].id == id
  }

  predicate InFlight(w: Worker, id: nat) {
    w.writing.Some? && w.writing.value.id == id
  }

  /** How often a message may have been resent, given its row and what the scheduler is doing with it. */
  predicate CountOk(s: Sys, w: Worker, id: nat)
    requires id in s.rows
  {
    && Count(s, id) <= s.rows[id].retry
         + (if InFlight(w, id) || (s.rows[id].status == Sent && !Queued(w, id)) then 1 else 0)
    && (Queued(w, id) || InFlight(w, id) ==> s.rows[id].status != Stuck)
  }

  predicate Scheduler(s: Sys, w: Worker) {
    && (forall x, y :: 0 <= x < y < |w.queue| ==> w.queue[x].id != w.queue[y].id)
    && (w.writing.Some? ==> w.writing.value.id in s.rows && !Queued(w, w.writing.value.id))
    && (w.writing.Some? && s.rows[w.writing.value.id].status == PendingSend ==>
          w.writing.value.snapshot.version == s.rows[w.writing.value.id].version
          && (w.writing.value.snapshot.status == Sent || w.writing.value.snapshot.retry == s.rows[w.writing.value.id].retry + 1))
    && (forall x :: 0 <= x < |w.queue| ==>
          && w.queue[x].id in s.rows
          && (s.rows[w.queue[x].id].status == PendingSend ==> w.queue[x].snapshot.version == s.rows[w.queue[x].id].version))
  }

  /** Original senders only ever write SENT. */
  predicate SendersOk(s: Sys) {
    forall v :: v in s.workers && v != 0 ==>
      && (s.workers[v].writing.Some? ==> s.workers[v].writing.value.snapshot.status == Sent)
  }

  predicate Single(s: Sys, max: nat) {
    && Inv(s, max) && 0 in s.workers && SendersOk(s)
    && Scheduler(s, s.workers[0])
    && (forall id :: id in s.resends ==> id in s.rows)
    && (forall id :: id in s.rows ==> CountOk(s, s.workers[0], id))
  }

  /** The original senders' write: at most it turns a pending row SENT. */
  lemma SenderWrite(s: Sys, a: Action, max: nat)
    requires Single(s, max) && max >= 1 && a.Write? && a.w != 0
    ensures Single(Act(s, a, max), max)
  {
    hide Inv, AllEvolve;
    var s' := Act(s, a, max);
    ActKeeps(s, a, max);
    assert s' != s ==> WriteOk(s.rows, s.workers[a.w].writing.value, max) by { WorkerOf(s, a.w, max); }
    assert s'.workers[0] == s.workers[0];
    forall id | id in s'.rows ensures CountOk(s', s'.workers[0], id) {
      assert CountOk(s, s.workers[0], id);
    }
  }

  /** The original senders' other steps leave every existing row alone. */
  lemma SenderStep(s: Sys, a: Action, max: nat)
    requires Single(s, max) && max >= 1 && OneScheduler(a) && !a.Write? && a.w != 0
    ensures Single(Act(s, a, max), max)
  {
    hide Inv, AllEvolve;
    var s' := Act(s, a, max);
    ActKeeps(s, a, max);
    assert s'.workers[0] == s.workers[0];
    forall id | id in s'.rows ensures CountOk(s', s'.workers[0], id) {
      if id in s.rows {
        assert CountOk(s, s.workers[0], id);
      }
    }
  }

  lemma FetchStep(s: Sys, a: Action, max: nat)
    requires Single(s, max) && max >= 1 && a.Fetch? && a.w == 0
    ensures Single(Act(s, a, max), max)
  {
    hide Inv, AllEvolve;
    var s' := Act(s, a, max);
    ActKeeps(s, a, max);
    forall id | id in s'.rows ensures CountOk(s', s'.workers[0], id) {
      assert CountOk(s, s.workers[0], id);
    }
  }

  /** Taking the head off the queue, to skip it or to send it. */
  lemma HeadStep(s: Sys, a: Action, max: nat)
    requires Single(s, max) && max >= 1 && (a.Skip? || a.Resend?) && a.w == 0
    ensures Single(Act(s, a, max), max)
  {
    hide Inv, AllEvolve, Act;
    ActKeeps(s, a, max);
    var s', w := Act(s, a, max), s.workers[0];
    HeadEffect(s, a, max);
    if s' != s {
      var w' := s'.workers[0];
      assert SnapshotOk(s.rows, w.queue[0], max) by { WorkerOf(s, 0, max); }
      assert forall x :: 0 <= x < |w'.queue| ==> w'.queue[x] == w.queue[x + 1];
      forall id | id in s'.rows ensures CountOk(s', w', id) {
        assert CountOk(s, w, id) && CountOk(s, w, w.queue[0].id);
        if Queued(w, id) && id != w.queue[0].id {
          var x :| 0 <= x < |w.queue| && w.queue[x].id == id;
          assert w'.queue[x - 1].id == id;
        }
      }
    }
  }

  lemma HeadEffect(s: Sys, a: Action, max: nat)
    requires 0 in s.workers && (a.Skip? || a.Resend?) && a.w == 0
    ensures var s', w := Act(s, a, max), s.workers[0];
            s' != s ==>
              && w.queue != [] && w.writing.None? && s'.rows == s.rows
              && s'.workers == s.workers[0 := s'.workers[0]] && s'.workers[0].queue == w.queue[1..]
              && s'.workers[0].writing == (if a.Skip? then None else Some(Item(w.queue[0].id, Attempted(w.queue[0].snapshot, a.ok, max, a.now), Some(|s.log|))))
              && s'.resends == if a.Skip? then s.resends else s.resends[w.queue[0].id := Count(s, w.queue[0].id) + 1]
  {
  }

  lemma WriteStep(s: Sys, max: nat)
    requires Single(s, max) && max >= 1
    ensures Single(Act(s, Write(0, true), max), max)
  {
    hide Inv, AllEvolve;
    ActKeeps(s, Write(0, true), max);
    var s', w := Act(s, Write(0, true), max), s.workers[0];
    if s' != s {
      assert WriteOk(s.rows, w.writing.value, max) by { WorkerOf(s, 0, max); }
      forall id | id in s'.rows ensures CountOk(s', s'.workers[0], id) {
        assert CountOk(s, w, id) && CountOk(s, w, w.writing.value.id);
        assert Queued(s'.workers[0], id) ==> Queued(w, id);
      }
    }
  }

  lemma {:induction false} SingleRun(s: Sys, actions: seq<Action>, max: nat)
    requires Single(s, max) && max >= 1 && forall x :: 0 <= x < |actions| ==> OneScheduler(actions[x])
    ensures Single(Exec(s, actions, max), max)
  {
    hide Single, Act;
    if actions != [] {
      var before, a := actions[..|actions| - 1], actions[|actions| - 1];
      SingleRun(s, before, max);
      var s' := Exec(s, before, max);
      if a.w != 0 && a.Write? {
        SenderWrite(s', a, max);
      } else if a.w != 0 {
        SenderStep(s', a, max);
      } else if a.Fetch? {
        FetchStep(s', a, max);
      } else if a.Write? {
        WriteStep(s', max);
      } else {
        HeadStep(s', a, max);
      }
    }
  }

  /** With one scheduler whose writes reach the database, no message is resent more than `max` times,
      however the original senders interleave with it. */
  lemma OneSchedulerBoundsResends(rows: map<nat, Message>, actions: seq<Action>, max: nat, id: nat)
    requires max >= 1 && forall k :: k in rows ==> RowOk(rows[k], max)
    requires forall x :: 0 <= x < |actions| ==> OneScheduler(actions[x])
    ensures Count(Exec(Sys(rows, map[0 := Worker([], None)], map[], []), actions, max), id) <= max
  {
    hide Exec;
    var s := Sys(rows, map[0 := Worker([], None)], map[], []);
    assert Single(s, max);
    SingleRun(s, actions, max);
    var s' := Exec(s, actions, max);
    if id in s'.rows {
      assert CountOk(s', s'.workers[0], id) && RowOk(s'.rows[id], max);
    }
  }

  // Any number of schedulers: where every resend went

  function OfId(id: nat): Attempt -> int {
    (a: Attempt) => if a.id == id then 1 else 0
  }

  function Went(id: nat, fate: Fate): Attempt -> int {
    (a: Attempt) => if a.id == id && a.fate == fate then 1 else 0
  }

  function Fates(s: Sys, id: nat, fate: Fate): int {
    Sum(s.log, Went(id, fate))
  }

  /** Resends whose outcome is not in the row: not written yet, or never applied. */
  function Unapplied(s: Sys, id: nat): int {
    Fates(s, id, Pending) + Fates(s, id, Missed)
  }

  /** The retry count a row began with. */
  function Base(rows: map<nat, Message>, id: nat): nat {
    if id in rows then rows[id].retry else 0
  }

  /** A write on its way carries exactly the next version of the row it was read from, and a resend's
      write is the one its log entry waits for. */
  predicate WritingOk(s: Sys, w: nat, item: Item) {
    && item.id in s.rows
    && (item.ticket.None? ==> item.snapshot.status == Sent)
    && (item.ticket.Some? ==> item.ticket.value < |s.log| && s.log[item.ticket.value] == Attempt(item.id, w, Pending))
    && (s.rows[item.id].version == item.snapshot.version ==>
          s.rows[item.id].status == PendingSend
          && item.snapshot.retry == s.rows[item.id].retry + if item.snapshot.status == Sent then 0 else 1)
  }

  /** The books of one message: applied retries are what its count has grown by, and it was delivered by
      a resend at most once, being SENT then. */
  predicate IdBooks(rows: map<nat, Message>, s: Sys, id: nat) {
    && Count(s, id) == Sum(s.log, OfId(id))
    && Fates(s, id, Counted) == Base(s.rows, id) - Base(rows, id)
    && 0 <= Fates(s, id, Delivered) <= (if id in s.rows && s.rows[id].status == Sent then 1 else 0)
  }

  ghost predicate Books(rows: map<nat, Message>, s: Sys) {
    && (forall id: nat :: IdBooks(rows, s, id))
    && (forall w :: w in s.workers && s.workers[w].writing.Some? ==> WritingOk(s, w, s.workers[w].writing.value))
    && (forall k :: 0 <= k < |s.log| ==> s.log[k].id in s.rows)
    && (forall id :: id in rows ==> id in s.rows)
  }

  lemma MarkedCounts(log: seq<Attempt>, t: nat, fate: Fate, id: nat)
    requires t < |log|
    ensures var log' := log[t := log[t].(fate := fate)];
            && Sum(log', OfId(id)) == Sum(log, OfId(id))
            && forall f :: Sum(log', Went(id, f)) == Sum(log, Went(id, f)) - Went(id, f)(log[t]) + Went(id, f)(log'[t])
  {
    var a := log[t].(fate := fate);
    SumUpdate(log, t, a, OfId(id));
    forall f ensures Sum(log[t := a], Went(id, f)) == Sum(log, Went(id, f)) - Went(id, f)(log[t]) + Went(id, f)(a) {
      SumUpdate(log, t, a, Went(id, f));
    }
  }

  lemma ResendBooks(rows: map<nat, Message>, s: Sys, a: Action, max: nat)
    requires Books(rows, s) && Inv(s, max) && a.Resend?
    ensures Books(rows, Act(s, a, max))
  {
    hide Inv, Sum;
    var s' := Act(s, a, max);
    if s' != s {
      var item := s.workers[a.w].queue[0];
      var attempt := Attempt(item.id, a.w, Pending);
      assert SnapshotOk(s.rows, item, max) by { WorkerOf(s, a.w, max); }
      forall id: nat ensures IdBooks(rows, s', id) {
        assert IdBooks(rows, s, id);
        SumAppend(s.log, attempt, OfId(id));
        SumAppend(s.log, attempt, Went(id, Counted));
        SumAppend(s.log, attempt, Went(id, Delivered));
      }
      forall w | w in s'.workers && s'.workers[w].writing.Some? ensures WritingOk(s', w, s'.workers[w].writing.value) {
        assert w != a.w ==> WritingOk(s, w, s.workers[w].writing.value);
      }
    }
  }

  /** A resend whose outcome is not applied changes no count but its own fate. */
  lemma MissedBooks(rows: map<nat, Message>, s: Sys, s': Sys, w: nat, worker: Worker)
    requires Books(rows, s) && w in s.workers && worker.writing.None?
    requires s' == s.(workers := s.workers[w := worker], log := Marked(s.log, s.workers[w].writing, Missed))
    ensures Books(rows, s')
  {
    hide Sum;
    var writing := s.workers[w].writing;
    if writing.Some? {
      assert WritingOk(s, w, writing.value);
    }
    forall id: nat ensures IdBooks(rows, s', id) {
      assert IdBooks(rows, s, id);
      if writing.Some? && writing.value.ticket.Some? {
        MarkedCounts(s.log, writing.value.ticket.value, Missed, id);
      }
    }
    forall v | v in s'.workers && s'.workers[v].writing.Some? ensures WritingOk(s', v, s'.workers[v].writing.value) {
      assert WritingOk(s, v, s.workers[v].writing.value);
    }
  }

  /** An applied write moves the row and the log together. */
  lemma TakenBooks(rows: map<nat, Message>, s: Sys, w: nat, max: nat)
    requires Books(rows, s) && Inv(s, max) && w in s.workers && s.workers[w].writing.Some?
    requires Takes(s.rows, s.workers[w].writing.value, true)
    ensures Books(rows, Act(s, Write(w, true), max))
  {
    hide Sum, Inv;
    var s', item := Act(s, Write(w, true), max), s.workers[w].writing.value;
    var fate := if item.snapshot.status == Sent then Delivered else Counted;
    assert WritingOk(s, w, item);
    forall id: nat ensures IdBooks(rows, s', id) {
      assert IdBooks(rows, s, id);
      if item.ticket.Some? {
        MarkedCounts(s.log, item.ticket.value, fate, id);
      }
    }
    forall v | v in s'.workers && s'.workers[v].writing.Some? ensures WritingOk(s', v, s'.workers[v].writing.value) {
      assert WritingOk(s, v, s.workers[v].writing.value);
      WorkerOf(s, v, max);
    }
  }

  /** Steps that touch neither the log nor an existing row. */
  lemma QuietBooks(rows: map<nat, Message>, s: Sys, a: Action, max: nat)
    requires Books(rows, s) && Inv(s, max) && (a.Enqueue? || a.InitialSend? || a.Fetch? || a.Skip?)
    requires a.Enqueue? ==> a.id !in rows
    ensures Books(rows, Act(s, a, max))
  {
    hide Inv, Sum, CanFetch, Snapshots;
    var s' := Act(s, a, max);
    if s' != s {
      if a.InitialSend? {
        assert SnapshotOk(s.rows, s.workers[a.w].queue[0], max) by { WorkerOf(s, a.w, max); }
      }
      forall id: nat ensures IdBooks(rows, s', id) {
        assert IdBooks(rows, s, id);
      }
      forall w | w in s'.workers && s'.workers[w].writing.Some? ensures WritingOk(s', w, s'.workers[w].writing.value) {
        assert w != a.w ==> WritingOk(s, w, s.workers[w].writing.value);
      }
    }
  }

  lemma ActBooks(rows: map<nat, Message>, s: Sys, a: Action, max: nat)
    requires Books(rows, s) && Inv(s, max)
    ensures Books(rows, Act(s, a, max))
  {
    hide Inv, Books;
    match a {
      case Resend(_, _, _) => ResendBooks(rows, s, a, max);
      case Crash(w) => if w in s.workers { MissedBooks(rows, s, Act(s, a, max), w, Worker([], None)); }
      case Write(w, applied) =>
        if w in s.workers && s.workers[w].writing.Some? {
          if Takes(s.rows, s.workers[w].writing.value, applied) {
            TakenBooks(rows, s, w, max);
          } else {
            MissedBooks(rows, s, Act(s, a, max), w, Worker(s.workers[w].queue, None));
          }
        }
      case Enqueue(_, id, _) =>
        KnownRows(rows, s);
        if id !in s.rows { QuietBooks(rows, s, a, max); }
      case _ => QuietBooks(rows, s, a, max);
    }
  }

  lemma KnownRows(rows: map<nat, Message>, s: Sys)
    requires Books(rows, s)
    ensures forall id :: id in rows ==> id in s.rows
  {
  }

  lemma {:induction false} ExecBooks(rows: map<nat, Message>, actions: seq<Action>, max: nat)
    requires max >= 1 && forall id :: id in rows ==> RowOk(rows[id], max)
    ensures var s := Exec(Sys(rows, map[], map[], []), actions, max);
            Books(rows, s) && Inv(s, max)
  {
    hide Act;
    var s0 := Sys(rows, map[], map[], []);
    if actions != [] {
      var before := actions[..|actions| - 1];
      ExecBooks(rows, before, max);
      ActBooks(rows, Exec(s0, before, max), actions[|actions| - 1], max);
      ActKeeps(Exec(s0, before, max), actions[|actions| - 1], max);
    }
  }

  lemma {:induction false} FatesAddUp(log: seq<Attempt>, id: nat)
    ensures Sum(log, OfId(id))
            == Sum(log, Went(id, Pending)) + Sum(log, Went(id, Missed)) + Sum(log, Went(id, Counted)) + Sum(log, Went(id, Delivered))
    ensures Sum(log, Went(id, Pending)) >= 0 && Sum(log, Went(id, Missed)) >= 0 && Sum(log, Went(id, Counted)) >= 0
  {
    if log != [] {
      FatesAddUp(log[..|log| - 1], id);
    }
  }

  /** With any number of schedulers and senders, crashes, conflicts and failed writes: the resends of a
      message are exactly the retries its row has gained, plus one if a resend delivered it, plus the
      resends whose outcome was not applied; the first two together never exceed the retries it had. That
      equation and its bound are the result. The last clause only reads it for the maximum: a message is
      resent more often exactly when its unapplied resends outnumber what was left of its retries. */
  lemma ResendsExactly(rows: map<nat, Message>, actions: seq<Action>, max: nat, id: nat)
    requires max >= 1 && forall k :: k in rows ==> RowOk(rows[k], max)
    ensures var s := Exec(Sys(rows, map[], map[], []), actions, max);
            var gained := Base(s.rows, id) - Base(rows, id);
            && Count(s, id) == gained + Fates(s, id, Delivered) + Unapplied(s, id)
            && 0 <= gained + Fates(s, id, Delivered) <= max - Base(rows, id)
            && 0 <= Unapplied(s, id)
            && (Count(s, id) > max <==> Unapplied(s, id) > max - gained - Fates(s, id, Delivered))
  {
    hide Exec, Inv;
    ExecBooks(rows, actions, max);
    var s := Exec(Sys(rows, map[], map[], []), actions, max);
    assert IdBooks(rows, s, id);
    FatesAddUp(s.log, id);
    WorkerOf(s, 0, max);
  }

  /** If every resend's outcome was applied, a message is resent at most as often as it had retries left. */
  lemma AppliedWritesBoundResends(rows: map<nat, Message>, actions: seq<Action>, max: nat, id: nat)
    requires max >= 1 && forall k :: k in rows ==> RowOk(rows[k], max)
    ensures var s := Exec(Sys(rows, map[], map[], []), actions, max);
            Unapplied(s, id) == 0 ==> Count(s, id) <= max - Base(rows, id)
  {
    hide Exec, Unapplied, Fates;
    ResendsExactly(rows, actions, max, id);
  }

  /** With two schedulers the bound fails: both fetch the row before either writes. */
  lemma TwoSchedulersExceed()
    ensures var s := Sys(map[7 := Message(PendingSend, 0, None, 0)], map[], map[], []);
            var s' := Act(Act(Act(Act(s, Fetch(0, [7], 0), 1), Fetch(1, [7], 0), 1), Resend(0, false, 9), 1), Resend(1, false, 9), 1);
            Inv(s, 1) && Count(s', 7) == 2
  {
  }

  /** With one scheduler it fails when a write is lost or the scheduler crashes before it: the row is
      fetched and resent again. */
  lemma LostWriteExceeds(lost: Action)
    requires lost == Write(0, false) || lost == Crash(0)
    ensures var s := Sys(map[7 := Message(PendingSend, 0, None, 0)], map[], map[], []);
            var s' := Act(Act(Act(s, Fetch(0, [7], 0), 1), Resend(0, false, 9), 1), lost, 1);
            Inv(s, 1) && Count(Act(Act(s', Fetch(0, [7], 0), 1), Resend(0, false, 20), 1), 7) == 2
  {
    var s := Sys(map[7 := Message(PendingSend, 0, None, 0)], map[], map[], []);
    var s0 := Act(s, Fetch(0, [7], 0), 1);
    assert s0.workers[0].queue == [Item(7, s.rows[7], None)];
    var s1 := Act(s0, Resend(0, false, 9), 1);
    var s2 := Act(s1, lost, 1);
    assert s2.workers[0] == Worker([], None) && s2.rows == s.rows && Count(s2, 7) == 1;
    assert CanFetch(s2, 0, [7], 0, 1);
    var s3 := Act(s2, Fetch(0, [7], 0), 1);
    assert s3.workers[0].queue == [Item(7, s.rows[7], None)];
  }

  // The scheduler

  class Store {
    var rows: map<nat, Message>

    constructor (rows: map<nat, Message>)
      ensures this.rows == rows
    {
      this.rows := rows;
    }

    /** Answers whether the row was updated; on success the snapshot's version moves with the row. */
    method UpdateOptimistic(id: nat, m: Message) returns (updated: bool, m': Message)
      modifies this
      ensures rows == Written(old(rows), id, m)
      ensures updated <==> id in old(rows) && old(rows)[id].version == m.version
      ensures m' == if updated then m.(version := m.version + 1) else m
    {
      updated := id in rows && rows[id].version == m.version;
      m' := m;
      if updated {
        m' := m.(version := m.version + 1);
        rows := rows[id := m'];
      }
    }

    /** One attempt; `ok` is whether the partner accepted the message. */
    method TryOnce(id: nat, snapshot: Message, ok: bool, max: nat, now: int)
      modifies this
      ensures rows == Written(old(rows), id, Attempted(snapshot, ok, max, now))
    {
      var msg := snapshot;
      if ok {
        msg := msg.(status := Sent, lastAttempt := Some(now));
      } else {
        msg := msg.(retry := msg.retry + 1, lastAttempt := Some(now));
        if msg.retry >= max {
          msg := msg.(status := Stuck);
        }
      }
      var _, _ := UpdateOptimistic(id, msg);
    }

    /** One sweep over the rows FindPending returned: each of them whose backoff has elapsed moves
        exactly one attempt on, and every other row is untouched. */
    method TickOnce(picks: seq<nat>, ok: seq<bool>, max: nat, cutoff: int, now: int)
      requires |ok| == |picks|
      requires forall x, y :: 0 <= x < y < |picks| ==> picks[x] != picks[y]
      requires forall x :: 0 <= x < |picks| ==> picks[x] in rows && Eligible(rows[picks[x]], max, cutoff)
      modifies this
      ensures rows.Keys == old(rows).Keys
      ensures forall x :: 0 <= x < |picks| ==>
                var m := old(rows)[picks[x]];
                rows[picks[x]] == if ShouldAttempt(m, now)
                                  then Attempted(m, ok[x], max, now).(version := m.version + 1) else m
      ensures forall id :: id in old(rows) && id !in picks ==> rows[id] == old(rows)[id]
    {
      var msgs := Snapshots(rows, picks);
      for i := 0 to |picks|
        invariant rows.Keys == old(rows).Keys
        invariant forall x :: 0 <= x < i ==>
                    var m := old(rows)[picks[x]];
                    rows[picks[x]] == if ShouldAttempt(m, now)
                                      then Attempted(m, ok[x], max, now).(version := m.version + 1) else m
        invariant forall x :: i <= x < |picks| ==> rows[picks[x]] == old(rows)[picks[x]]
        invariant forall id :: id in old(rows) && id !in picks ==> rows[id] == old(rows)[id]
      {
        if ShouldAttempt(msgs[i].snapshot, now) {
          TryOnce(msgs[i].id, msgs[i].snapshot, ok[i], max, now);
        }
      }
    }
  }
}
