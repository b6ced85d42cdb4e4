/** Buyer-side exercise of one option contract: claim the row, run the two-phase exercise, then
    finalise or revert, with any number of callers interleaved. The exercise itself commits locally
    through a gate that claims the row a second time (to EXERCISED) and releases that claim (to ACTIVE)
    when a settlement leg fails. Store calls may fail before or after taking effect, callers may crash
    anywhere, and other transactions may pass the gate and release it too. */
module Exercise {
  import opened Common

  datatype Status = Active | Exercising | Exercised | Expired

  /** Where a caller stands. Everything from `Running` to `Settled` is between claim and finish:
      `Committing` is past the gate, `owned` if it won the gate's claim; `Releasing` had a settlement
      leg fail and must give that claim back; `Failing` has the error in hand and will revert. */
  datatype Caller = Arrived | Checked | Running | Committing(owned: bool) | Releasing | Failing | Settled | Done

  /** The contract row (none if it does not exist) and the callers; `claimedBy` and `succeeded` record
      who last won the claim and whose exercise went through, and no step reads them. */
  datatype Sys = Sys(row: Option<Status>, callers: map<nat, Caller>, claimedBy: Option<nat>, succeeded: seq<nat>)

  /** How a store call ends: answered, failed without effect, or took effect and the answer was lost. */
  datatype Outcome = Answered | Refused | Lost

  /** How the local commit ends: done, a settlement leg failed, or only its own status update failed. */
  datatype Commit = Committed | LegFailed | StatusFailed

  /** ClaimExerciseByID flips ACTIVE to EXERCISING and nothing else. */
  function ClaimRow(s: Status): Status {
    if s == Active then Exercising else s
  }

  /** RevertExercising flips EXERCISING to ACTIVE and nothing else. */
  function RevertRow(s: Status): Status {
    if s == Exercising then Active else s
  }

  /** The gate, ClaimExerciseByNegotiation: ACTIVE or EXERCISING to EXERCISED. */
  function SettleRow(s: Status): Status {
    if s == Active || s == Exercising then Exercised else s
  }

  /** ReleaseExerciseClaimByNegotiation flips EXERCISED to ACTIVE and nothing else. */
  function UnsettleRow(s: Status): Status {
    if s == Exercised then Active else s
  }

  /** Steps of a caller, and of the transactions of others that pass the gate or release it. `Bypass` is a
      local commit that does not consult the gate: its postings name no negotiation, or the transaction is
      unknown or committed already. */
  datatype Action =
    | Arrive(c: nat)
    | Find(c: nat, allowed: bool)
    | Claim(c: nat, outcome: Outcome)
    | Prepare(c: nat, ok: bool)
    | Gate(c: nat, outcome: Outcome)
    | Bypass(c: nat)
    | Legs(c: nat, commit: Commit)
    | Release(c: nat, outcome: Outcome)
    | Revert(c: nat, outcome: Outcome)
    | Finalise(c: nat, outcome: Outcome)
    | Crash(c: nat)
    | Settle
    | Unsettle

  predicate At(s: Sys, c: nat, pc: Caller) {
    c in s.callers && s.callers[c] == pc
  }

  function Moved(s: Sys, c: nat, pc: Caller): Sys {
    s.(callers := s.callers[c := pc])
  }

  /** The row after a store call that applies `f` to it. */
  function Store(s: Sys, outcome: Outcome, f: Status -> Status): Sys {
    if outcome == Refused || s.row.None? then s else s.(row := Some(f(s.row.value)))
  }

  /** The gate tells the caller to settle (and whether it owns the claim) or to skip settlement. */
  function GateStep(s: Sys, c: nat, outcome: Outcome): Sys {
    var owned := s.row.Some? && SettleRow(s.row.value) != s.row.value;
    Moved(Store(s, outcome, SettleRow), c, if outcome == Answered then Committing(owned) else Failing)
  }

  function Act(s: Sys, a: Action): Sys {
    match a
    case Arrive(c) => if c in s.callers then s else Moved(s, c, Arrived)
    case Find(c, allowed) =>
      if !At(s, c, Arrived) then s
      else Moved(s, c, if allowed && s.row == Some(Active) then Checked else Done)
    case Claim(c, outcome) =>
      if !At(s, c, Checked) then s
      else
        var won := s.row == Some(Active) && outcome != Refused;
        var s' := if won then s.(row := Some(Exercising), claimedBy := Some(c)) else s;
        Moved(s', c, if won && outcome == Answered then Running else Done)
    case Prepare(c, ok) => if At(s, c, Running) && !ok then Moved(s, c, Failing) else s
    case Gate(c, outcome) => if At(s, c, Running) then GateStep(s, c, outcome) else s
    case Bypass(c) => if At(s, c, Running) then Moved(s, c, Committing(false)) else s
    case Legs(c, commit) =>
      if c !in s.callers || !s.callers[c].Committing? then s
      else if commit == Committed then Moved(s.(succeeded := s.succeeded + [c]), c, Settled)
      else Moved(s, c, if commit == LegFailed && s.callers[c].owned then Releasing else Failing)
    case Release(c, outcome) => if At(s, c, Releasing) then Moved(Store(s, outcome, UnsettleRow), c, Failing) else s
    case Revert(c, outcome) => if At(s, c, Failing) then Moved(Store(s, outcome, RevertRow), c, Done) else s
    case Finalise(c, outcome) => if At(s, c, Settled) then Moved(Store(s, outcome, _ => Exercised), c, Done) else s
    case Crash(c) => if c in s.callers then Moved(s, c, Done) else s
    case Settle => Store(s, Answered, SettleRow)
    case Unsettle => Store(s, Answered, UnsettleRow)
  }

  function Exec(s: Sys, actions: seq<Action>): Sys {
    if actions == [] then s else Act(Exec(s, actions[..|actions| - 1]), actions[|actions| - 1])
  }

  function Start(row: Option<Status>): Sys {
    Sys(row, map[], None, [])
  }

  // What is promised, and the step that breaks it

  predicate Holds(s: Sys, c: nat) {
    c in s.callers
    && (s.callers[c] == Running || s.callers[c].Committing? || s.callers[c] == Releasing || s.callers[c] == Failing
        || s.callers[c] == Settled)
  }

  /** At most one caller is between claim and finish, and at most one exercise has succeeded. */
  ghost predicate Safe(s: Sys) {
    && (forall c: nat, d: nat :: Holds(s, c) && Holds(s, d) ==> c == d)
    && |s.succeeded| <= 1
  }

  /** The action releases the gate's claim, putting an EXERCISED row back to ACTIVE. */
  predicate Reopens(s: Sys, a: Action) {
    s.row == Some(Exercised) && Act(s, a).row == Some(Active)
  }

  /** It does so while a caller is still between claim and finish, or after an exercise succeeded. */
  ghost predicate BadReopen(s: Sys, a: Action) {
    Reopens(s, a) && (s.succeeded != [] || exists c: nat :: Holds(Act(s, a), c))
  }

  /** No step of the run is such a release. */
  ghost predicate Clean(s: Sys, actions: seq<Action>) {
    actions != [] ==>
      && Clean(s, actions[..|actions| - 1])
      && !BadReopen(Exec(s, actions[..|actions| - 1]), actions[|actions| - 1])
  }

  /** Whoever is between claim and finish is the last claimant and the row is not open; once an
      exercise has succeeded the row is never open again and nobody is left on the way to another. */
  ghost predicate Inv(s: Sys) {
    && (forall c: nat :: Holds(s, c) ==> s.claimedBy == Some(c) && s.row.Some? && s.row.value != Active)
    && |s.succeeded| <= 1
    && (forall c: nat :: At(s, c, Settled) ==> s.succeeded == [c])
    && (s.succeeded != [] ==>
          && s.row.Some? && s.row.value != Active
          && forall c: nat :: Holds(s, c) ==> s.callers[c] == Settled)
  }

  /** A claim is won only while nobody holds the contract. */
  lemma ClaimKeeps(s: Sys, a: Action)
    requires Inv(s) && a.Claim?
    ensures Inv(Act(s, a))
  {
    if s.row == Some(Active) {
      assert forall c: nat :: !Holds(s, c);
    }
    assert forall c: nat :: Holds(Act(s, a), c) && c != a.c ==> Holds(s, c);
  }

  /** Only the last holder reverts, so nobody is left holding a row that a revert opened. */
  lemma RevertKeeps(s: Sys, a: Action)
    requires Inv(s) && a.Revert?
    ensures Inv(Act(s, a))
  {
    if At(s, a.c, Failing) {
      assert Holds(s, a.c);
      assert forall c: nat :: Holds(s, c) ==> c == a.c;
      assert forall c: nat :: Holds(Act(s, a), c) ==> Holds(s, c) && c != a.c;
    }
  }

  lemma LegsKeep(s: Sys, a: Action)
    requires Inv(s) && a.Legs?
    ensures Inv(Act(s, a))
  {
    var s' := Act(s, a);
    assert forall c: nat :: Holds(s', c) ==> Holds(s, c);
    if s' != s {
      assert Holds(s, a.c);
      assert s.succeeded == [];
      assert forall c: nat :: Holds(s, c) ==> c == a.c;
    }
  }

  /** Every other step moves one caller on and never opens the row for a holder. */
  lemma StepKeeps(s: Sys, a: Action)
    requires Inv(s) && !a.Claim? && !a.Revert? && !a.Legs? && !BadReopen(s, a)
    ensures Inv(Act(s, a))
  {
    var s' := Act(s, a);
    assert forall c: nat :: Holds(s', c) ==> Holds(s, c);
    assert forall c: nat :: At(s', c, Settled) ==> At(s, c, Settled);
    assert s'.row == Some(Active) ==> s.row == Some(Active) || Reopens(s, a);
  }

  lemma ActKeeps(s: Sys, a: Action)
    requires Inv(s) && !BadReopen(s, a)
    ensures Inv(Act(s, a))
  {
    hide Inv, Act;
    match a {
      case Claim(_, _) => ClaimKeeps(s, a);
      case Revert(_, _) => RevertKeeps(s, a);
      case Legs(_, _) => LegsKeep(s, a);
      case _ => StepKeeps(s, a);
    }
  }

  lemma {:induction false} ExecKeeps(s: Sys, actions: seq<Action>)
    requires Inv(s) && Clean(s, actions)
    ensures Inv(Exec(s, actions))
  {
    hide Inv, Act, BadReopen;
    if actions != [] {
      ExecKeeps(s, actions[..|actions| - 1]);
      ActKeeps(Exec(s, actions[..|actions| - 1]), actions[|actions| - 1]);
    }
  }

  lemma InvIsSafe(s: Sys)
    requires Inv(s)
    ensures Safe(s)
  {
  }

  /** From any contract row, however the callers interleave, fail and crash: as long as the gate's claim
      is not released while a caller holds the contract or after a success, at most one caller is
      between claim and finish, and at most one exercise ever succeeds. */
  lemma AtMostOneExercise(row: Option<Status>, actions: seq<Action>)
    requires Clean(Start(row), actions)
    ensures Safe(Exec(Start(row), actions))
  {
    ExecKeeps(Start(row), actions);
  }

  /** In such a run a step that opens the row is a revert of the reverting caller's own claim, or a
      release with nobody holding the contract; either way with no exercise having succeeded. */
  lemma RevertIsOwn(row: Option<Status>, actions: seq<Action>, a: Action)
    requires Clean(Start(row), actions + [a])
    ensures var s := Exec(Start(row), actions);
            s.row != Some(Active) && Act(s, a).row == Some(Active) ==>
              && s.succeeded == []
              && (if a.Revert? then s.claimedBy == Some(a.c) && forall d: nat :: Holds(s, d) ==> d == a.c
                  else Reopens(s, a) && forall d: nat :: !Holds(Act(s, a), d))
  {
    assert (actions + [a])[..|actions|] == actions;
    ExecKeeps(Start(row), actions);
    var s := Exec(Start(row), actions);
    if a.Revert? && s.row != Some(Active) && Act(s, a).row == Some(Active) {
      assert Holds(s, a.c);
    }
  }

  // The condition is exact

  lemma {:induction false} Unused(taken: set<nat>) returns (n: nat)
    ensures forall m :: m in taken ==> m < n
  {
    n := 0;
    if taken != {} {
      var m :| m in taken;
      n := Unused(taken - {m});
      assert taken == taken - {m} + {m};
      n := if m < n then n else m + 1;
    }
  }

  /** Whenever the row is open, a newcomer can claim it and go on to succeed. */
  function Newcomer(n: nat): seq<Action> {
    [Arrive(n), Find(n, true), Claim(n, Answered)]
  }

  function Success(n: nat): seq<Action> {
    [Gate(n, Answered), Legs(n, Committed)]
  }

  lemma NewcomerEnters(s: Sys, n: nat)
    requires s.row == Some(Active) && n !in s.callers
    ensures Clean(s, Newcomer(n))
    ensures Exec(s, Newcomer(n))
            == s.(row := Some(Exercising), claimedBy := Some(n), callers := s.callers[n := Running])
  {
    hide Clean, Exec, BadReopen;
    var s1 := Act(s, Arrive(n));
    var s2 := Act(s1, Find(n, true));
    assert s1 == s.(callers := s.callers[n := Arrived]) && s2 == s.(callers := s.callers[n := Checked]);
    NotReopened(s, Arrive(n));
    NotReopened(s1, Find(n, true));
    NotReopened(s2, Claim(n, Answered));
    ExecThree(s, Arrive(n), Find(n, true), Claim(n, Answered));
    CleanThree(s, Arrive(n), Find(n, true), Claim(n, Answered));
  }

  lemma NotReopened(s: Sys, a: Action)
    requires s.row != Some(Exercised) || Act(s, a).row != Some(Active)
    ensures !BadReopen(s, a)
  {
  }

  lemma CleanTwo(s: Sys, a: Action, b: Action)
    requires !BadReopen(s, a) && !BadReopen(Act(s, a), b)
    ensures Clean(s, [a, b])
  {
    hide Act, BadReopen;
    ExecOne(s, a);
    assert [a, b][..1] == [a] && [a][..0] == [];
    assert Clean(s, []) && Exec(s, []) == s;
    assert Clean(s, [a]);
  }

  lemma CleanThree(s: Sys, a: Action, b: Action, c: Action)
    requires !BadReopen(s, a) && !BadReopen(Act(s, a), b) && !BadReopen(Act(Act(s, a), b), c)
    ensures Clean(s, [a, b, c])
  {
    hide Act, BadReopen;
    CleanTwo(s, a, b);
    ExecTwo(s, a, b);
    assert [a, b, c][..2] == [a, b];
  }

  /** Whether or not it wins the gate's claim. */
  lemma NewcomerSucceeds(s: Sys, n: nat)
    requires At(s, n, Running) && (s.row == Some(Exercising) || s.row == Some(Exercised))
    ensures Clean(s, Success(n))
    ensures Exec(s, Success(n))
            == s.(row := Some(Exercised), callers := s.callers[n := Settled], succeeded := s.succeeded + [n])
  {
    hide Clean, Exec, BadReopen;
    var s1 := Act(s, Gate(n, Answered));
    assert s1.row == Some(Exercised);
    NotReopened(s, Gate(n, Answered));
    NotReopened(s1, Legs(n, Committed));
    ExecTwo(s, Gate(n, Answered), Legs(n, Committed));
    CleanTwo(s, Gate(n, Answered), Legs(n, Committed));
    assert s.callers[n := s1.callers[n]][n := Settled] == s.callers[n := Settled];
  }

  ghost predicate AlwaysSafe(s: Sys) {
    forall more: seq<Action> :: Clean(s, more) ==> Safe(Exec(s, more))
  }

  lemma BadReopenBreaks(s: Sys, a: Action)
    requires Inv(s) && BadReopen(s, a)
    ensures !AlwaysSafe(Act(s, a))
  {
    var s' := Act(s, a);
    var n := Unused(s'.callers.Keys);
    assert n !in s'.callers;
    NewcomerEnters(s', n);
    var entered := Exec(s', Newcomer(n));
    if s.succeeded != [] {
      assert s'.succeeded == s.succeeded by { ReopenCountsNothing(s, a); }
      NewcomerSucceeds(entered, n);
      ExecAppend(s', Newcomer(n), Success(n));
      CleanAppend(s', Newcomer(n), Success(n));
      assert !Safe(Exec(s', Newcomer(n) + Success(n)));
    } else {
      var c: nat :| Holds(s', c);
      assert c != n && Holds(entered, c) && Holds(entered, n);
      assert !Safe(Exec(s', Newcomer(n)));
    }
  }

  lemma ReopenCountsNothing(s: Sys, a: Action)
    requires Reopens(s, a)
    ensures Act(s, a).succeeded == s.succeeded
  {
  }

  /** In every state reached so far without one, the next step keeps all that may follow safe if and
      only if it is not a release of the gate's claim with a caller still between claim and finish or
      with a success behind it. */
  lemma SafeExactlyWithoutBadReopen(row: Option<Status>, actions: seq<Action>, a: Action)
    requires Clean(Start(row), actions)
    ensures AlwaysSafe(Act(Exec(Start(row), actions), a)) <==> !BadReopen(Exec(Start(row), actions), a)
  {
    hide Inv, Act, Exec, Clean, Safe, BadReopen;
    assert Inv(Start(row)) by { StartIsSound(row); }
    ExecKeeps(Start(row), actions);
    var s := Exec(Start(row), actions);
    if BadReopen(s, a) {
      BadReopenBreaks(s, a);
    } else {
      ActKeeps(s, a);
      forall more: seq<Action> | Clean(Act(s, a), more) ensures Safe(Exec(Act(s, a), more)) {
        ExecKeeps(Act(s, a), more);
        InvIsSafe(Exec(Act(s, a), more));
      }
    }
  }

  lemma StartIsSound(row: Option<Status>)
    ensures Inv(Start(row))
  {
  }

  /** A caller's own release always is one: it still has its revert to make. So every settlement failure
      behind the gate opens the contract to others while it is held. */
  lemma OwnReleaseIsBad(s: Sys, c: nat, outcome: Outcome)
    requires At(s, c, Releasing) && s.row == Some(Exercised) && outcome != Refused
    ensures BadReopen(s, Release(c, outcome))
  {
    assert Holds(Act(s, Release(c, outcome)), c);
  }

  /** Caller 0 has a leg fail and releases; 1 claims; 0's revert reopens 1's claim; 2 claims; 1 settles
      and succeeds; 2 skips settlement and succeeds too. */
  function ContestedRun(): seq<Action> {
    Newcomer(0) + [Gate(0, Answered), Legs(0, LegFailed), Release(0, Answered)] + Newcomer(1)
  }

  function FailingRun(): seq<Action> {
    ContestedRun() + [Revert(0, Answered)] + Newcomer(2) + Success(1) + Success(2)
  }

  lemma FailedLegOpens(s: Sys, c: nat)
    requires At(s, c, Running) && s.row == Some(Exercising)
    ensures Exec(s, [Gate(c, Answered), Legs(c, LegFailed), Release(c, Answered)])
            == s.(row := Some(Active), callers := s.callers[c := Failing])
  {
    hide Exec;
    var s1 := Act(s, Gate(c, Answered));
    assert s1 == s.(row := Some(Exercised), callers := s.callers[c := Committing(true)]);
    var s2 := Act(s1, Legs(c, LegFailed));
    assert s2 == s.(row := Some(Exercised), callers := s.callers[c := Releasing]);
    ExecThree(s, Gate(c, Answered), Legs(c, LegFailed), Release(c, Answered));
  }

  lemma ReleaseLetsTwoSucceed()
    ensures var s := Exec(Start(Some(Active)), ContestedRun());
            Holds(s, 0) && Holds(s, 1) && s.claimedBy == Some(1) && Act(s, Revert(0, Answered)).row == Some(Active)
    ensures Exec(Start(Some(Active)), FailingRun()).succeeded == [1, 2]
  {
    hide Exec, Clean;
    var s0, leg, revert := Start(Some(Active)), [Gate(0, Answered), Legs(0, LegFailed), Release(0, Answered)], [Revert(0, Answered)];
    NewcomerEnters(s0, 0);
    var s1 := Exec(s0, Newcomer(0));
    FailedLegOpens(s1, 0);
    var s2 := Exec(s1, leg);
    NewcomerEnters(s2, 1);
    var s3 := Exec(s2, Newcomer(1));
    ExecOne(s3, Revert(0, Answered));
    var s4 := Exec(s3, revert);
    assert s4 == s3.(row := Some(Active), callers := s3.callers[0 := Done]);
    NewcomerEnters(s4, 2);
    var s5 := Exec(s4, Newcomer(2));
    NewcomerSucceeds(s5, 1);
    var s6 := Exec(s5, Success(1));
    NewcomerSucceeds(s6, 2);
    ExecAppend(s0, Newcomer(0), leg);
    ExecAppend(s0, Newcomer(0) + leg, Newcomer(1));
    ExecAppend(s0, Newcomer(0) + leg + Newcomer(1), revert);
    ExecAppend(s0, Newcomer(0) + leg + Newcomer(1) + revert, Newcomer(2));
    ExecAppend(s0, Newcomer(0) + leg + Newcomer(1) + revert + Newcomer(2), Success(1));
    ExecAppend(s0, Newcomer(0) + leg + Newcomer(1) + revert + Newcomer(2) + Success(1), Success(2));
  }

  // Runs put together

  lemma {:induction false} ExecAppend(s: Sys, a: seq<Action>, b: seq<Action>)
    ensures Exec(s, a + b) == Exec(Exec(s, a), b)
  {
    hide Act;
    if b == [] {
      assert a + b == a;
    } else {
      var n := |b| - 1;
      assert (a + b)[..|a + b| - 1] == a + b[..n];
      ExecAppend(s, a, b[..n]);
    }
  }

  lemma {:induction false} CleanAppend(s: Sys, a: seq<Action>, b: seq<Action>)
    requires Clean(s, a) && Clean(Exec(s, a), b)
    ensures Clean(s, a + b)
  {
    hide Act, BadReopen;
    if b == [] {
      assert a + b == a;
    } else {
      var n := |b| - 1;
      assert (a + b)[..|a + b| - 1] == a + b[..n];
      ExecAppend(s, a, b[..n]);
      CleanAppend(s, a, b[..n]);
    }
  }

  lemma ExecOne(s: Sys, a: Action)
    ensures Exec(s, [a]) == Act(s, a)
  {
    hide Act;
    assert [a][..0] == [];
    assert Exec(s, []) == s;
  }

  lemma ExecTwo(s: Sys, a: Action, b: Action)
    ensures Exec(s, [a, b]) == Act(Act(s, a), b)
  {
    hide Act;
    ExecOne(s, a);
    assert [a, b][..1] == [a];
  }

  lemma ExecThree(s: Sys, a: Action, b: Action, c: Action)
    ensures Exec(s, [a, b, c]) == Act(Act(Act(s, a), b), c)
  {
    hide Act;
    ExecTwo(s, a, b);
    assert [a, b, c][..2] == [a, b];
  }

  // The service

  datatype Contract = Contract(buyer: int, buyerRouting: int, settlement: Option<int>, status: Status)

  datatype Error = ContractNotFound | ContractForbidden | NotExercisable | AlreadyExercising | StoreError | ExerciseError

  /** The outcomes of the calls one exercise makes. */
  datatype Calls = Calls(claim: bool, prepare: bool, gated: bool, gate: bool, commit: Commit, release: bool, revert: bool, update: bool)

  function Said(ok: bool): Outcome {
    if ok then Answered else Refused
  }

  /** How the local commit begins: through the gate or past it. */
  function Enter(gated: bool, gate: bool): Action {
    if gated then Gate(0, Said(gate)) else Bypass(0)
  }

  /** One caller's steps, in order; those that do not apply do nothing. */
  function Alone(allowed: bool, calls: Calls): seq<Action> {
    Entry(allowed, calls.claim) + Middle(calls) + Exit(calls)
  }

  function Entry(allowed: bool, claim: bool): seq<Action> {
    [Arrive(0), Find(0, allowed), Claim(0, Said(claim))]
  }

  function Middle(calls: Calls): seq<Action> {
    [Prepare(0, calls.prepare), Enter(calls.gated, calls.gate), Legs(0, calls.commit)]
  }

  function Exit(calls: Calls): seq<Action> {
    [Release(0, Said(calls.release)), Revert(0, Said(calls.revert)), Finalise(0, Said(calls.update))]
  }

  /** What a single uninterrupted call leaves in the row. Once the gate has been passed the row is
      EXERCISED, and neither a revert nor a failed final update changes that; only the release of the
      gate's claim after a failed leg does. Past the gate it stays EXERCISING until the final update. */
  function AloneRow(row: Option<Status>, allowed: bool, calls: Calls): Option<Status> {
    if row != Some(Active) || !allowed || !calls.claim then row else Some(AfterClaim(calls))
  }

  function AfterClaim(calls: Calls): Status {
    if !calls.prepare || (calls.gated && !calls.gate) || (!calls.gated && calls.commit != Committed)
    then (if calls.revert then Active else Exercising)
    else if !calls.gated then (if calls.update then Exercised else Exercising)
    else if calls.commit == LegFailed && calls.release then Active
    else Exercised
  }

  predicate Succeeds(row: Option<Status>, allowed: bool, calls: Calls) {
    row == Some(Active) && allowed && calls.claim && calls.prepare && (calls.gated ==> calls.gate) && calls.commit == Committed
  }

  lemma EntryAlone(row: Option<Status>, allowed: bool, claim: bool)
    ensures var s := Exec(Start(row), Entry(allowed, claim));
            var won := row == Some(Active) && allowed && claim;
            && At(s, 0, if won then Running else Done) && s.succeeded == []
            && s.row == if won then Some(Exercising) else row
  {
    ExecThree(Start(row), Arrive(0), Find(0, allowed), Claim(0, Said(claim)));
  }

  lemma MiddleAlone(s: Sys, calls: Calls)
    requires At(s, 0, Done) || (At(s, 0, Running) && s.row == Some(Exercising))
    ensures var s' := Exec(s, Middle(calls));
            if At(s, 0, Done) then s' == s
            else if !calls.prepare || (calls.gated && !calls.gate) then
              At(s', 0, Failing) && s'.row == Some(Exercising) && s'.succeeded == s.succeeded
            else
              && s'.row == Some(if calls.gated then Exercised else Exercising)
              && s'.succeeded == s.succeeded + (if calls.commit == Committed then [0] else [])
              && At(s', 0, if calls.commit == Committed then Settled
                           else if calls.commit == LegFailed && calls.gated then Releasing else Failing)
  {
    hide Exec;
    var s1 := Act(s, Prepare(0, calls.prepare));
    var s2 := Act(s1, Enter(calls.gated, calls.gate));
    assert At(s1, 0, Running) ==>
        At(s2, 0, if !calls.gated then Committing(false) else if calls.gate then Committing(true) else Failing);
    ExecThree(s, Prepare(0, calls.prepare), Enter(calls.gated, calls.gate), Legs(0, calls.commit));
  }

  lemma ExitAlone(s: Sys, calls: Calls)
    requires At(s, 0, Done) || At(s, 0, Failing) || At(s, 0, Settled) || (s.row == Some(Exercised) && At(s, 0, Releasing))
    requires s.row.Some? || At(s, 0, Done)
    ensures var s' := Exec(s, Exit(calls));
            && s'.succeeded == s.succeeded
            && s'.row == if At(s, 0, Done) then s.row
                         else if At(s, 0, Settled) then (if calls.update then Some(Exercised) else s.row)
                         else if At(s, 0, Releasing) then Some(if calls.release then Active else Exercised)
                         else if calls.revert then Some(RevertRow(s.row.value)) else s.row
  {
    hide Exec;
    var s1 := Act(s, Release(0, Said(calls.release)));
    assert s1 == if At(s, 0, Releasing) then Sys(Some(if calls.release then Active else Exercised), s.callers[0 := Failing], s.claimedBy, s.succeeded) else s;
    var s2 := Act(s1, Revert(0, Said(calls.revert)));
    assert if At(s1, 0, Failing) then At(s2, 0, Done) else s2 == s1;
    ExecThree(s, Release(0, Said(calls.release)), Revert(0, Said(calls.revert)), Finalise(0, Said(calls.update)));
  }

  lemma SequentialRun(row: Option<Status>, allowed: bool, calls: Calls)
    ensures var s := Exec(Start(row), Alone(allowed, calls));
            && s.row == AloneRow(row, allowed, calls)
            && s.succeeded == if Succeeds(row, allowed, calls) then [0] else []
  {
    hide Exec, Act, Entry, Middle, Exit;
    EntryAlone(row, allowed, calls.claim);
    var s1 := Exec(Start(row), Entry(allowed, calls.claim));
    MiddleAlone(s1, calls);
    var s2 := Exec(s1, Middle(calls));
    ExitAlone(s2, calls);
    ExecAppend(Start(row), Entry(allowed, calls.claim), Middle(calls));
    ExecAppend(Start(row), Entry(allowed, calls.claim) + Middle(calls), Exit(calls));
  }

  class Service {
    var contracts: map<string, Contract>
    const myRouting: int

    constructor (contracts: map<string, Contract>, myRouting: int)
      ensures this.contracts == contracts && this.myRouting == myRouting
    {
      this.contracts, this.myRouting := contracts, myRouting;
    }

    method ClaimExerciseByID(id: string) returns (exists_: bool, claimed: bool)
      modifies this`contracts
      ensures exists_ <==> id in old(contracts)
      ensures claimed <==> exists_ && old(contracts)[id].status == Active
      ensures contracts == if exists_ then old(contracts)[id := old(contracts)[id].(status := ClaimRow(old(contracts)[id].status))]
                           else old(contracts)
    {
      exists_ := id in contracts;
      claimed := exists_ && contracts[id].status == Active;
      if claimed {
        contracts := contracts[id := contracts[id].(status := Exercising)];
      }
      assert exists_ ==> contracts == old(contracts)[id := contracts[id]];
    }

    method RevertExercising(id: string)
      modifies this`contracts
      ensures contracts == if id in old(contracts) then old(contracts)[id := old(contracts)[id].(status := RevertRow(old(contracts)[id].status))]
                           else old(contracts)
    {
      if id in contracts && contracts[id].status == Exercising {
        contracts := contracts[id := contracts[id].(status := Active)];
      }
      assert id in contracts ==> contracts == old(contracts)[id := contracts[id]];
    }

    /** The gate, with the negotiation already resolved to the contract. */
    method ClaimExerciseByNegotiation(id: string) returns (exists_: bool, claimed: bool)
      modifies this`contracts
      ensures exists_ <==> id in old(contracts)
      ensures claimed <==> exists_ && SettleRow(old(contracts)[id].status) != old(contracts)[id].status
      ensures contracts == if exists_ then old(contracts)[id := old(contracts)[id].(status := SettleRow(old(contracts)[id].status))]
                           else old(contracts)
    {
      exists_ := id in contracts;
      claimed := exists_ && (contracts[id].status == Active || contracts[id].status == Exercising);
      if claimed {
        contracts := contracts[id := contracts[id].(status := Exercised)];
      }
      assert exists_ ==> contracts == old(contracts)[id := contracts[id]];
    }

    method ReleaseExerciseClaimByNegotiation(id: string)
      modifies this`contracts
      ensures contracts == if id in old(contracts) then old(contracts)[id := old(contracts)[id].(status := UnsettleRow(old(contracts)[id].status))]
                           else old(contracts)
    {
      if id in contracts && contracts[id].status == Exercised {
        contracts := contracts[id := contracts[id].(status := Active)];
      }
      assert id in contracts ==> contracts == old(contracts)[id := contracts[id]];
    }

    /** The gated part of CommitLocal: claim, settlement legs, and release of the claim if one fails. */
    method CommitLocal(id: string, calls: Calls) returns (ok: bool)
      modifies this`contracts
      ensures ok <==> (calls.gated ==> calls.gate) && calls.commit == Committed
      ensures contracts.Keys == old(contracts).Keys
      ensures forall k :: k in old(contracts) && k != id ==> contracts[k] == old(contracts)[k]
      ensures id in old(contracts) ==>
                var c := old(contracts)[id];
                var owned := SettleRow(c.status) != c.status;
                contracts[id] == c.(status :=
                  if !calls.gated || !calls.gate then c.status
                  else if owned && calls.commit == LegFailed && calls.release then UnsettleRow(SettleRow(c.status))
                  else SettleRow(c.status))
    {
      var claimed := false;
      if calls.gated {
        if !calls.gate {
          return false;
        }
        var _, c := ClaimExerciseByNegotiation(id);
        claimed := c;
      }
      if calls.commit == LegFailed {
        if claimed && calls.release {
          ReleaseExerciseClaimByNegotiation(id);
        }
        return false;
      }
      return calls.commit == Committed;
    }

    /** From the claim to the finish: prepare, local commit, and then the revert or the final update. */
    method RunClaimed(id: string, calls: Calls) returns (committed: bool)
      requires id in contracts && contracts[id].status == Exercising
      modifies this`contracts
      ensures committed <==> calls.prepare && (calls.gated ==> calls.gate) && calls.commit == Committed
      ensures contracts == old(contracts)[id := old(contracts)[id].(status := AfterClaim(calls))]
    {
      committed := false;
      if calls.prepare {
        committed := CommitLocal(id, calls);
      }
      if !committed {
        if calls.revert {
          RevertExercising(id);
        }
      } else if calls.update {
        contracts := contracts[id := contracts[id].(status := Exercised)];
      }
      assert contracts == old(contracts)[id := contracts[id]];
    }

    /** Whether the checks made on the row as first read let the call go on to the claim. */
    predicate Allowed(c: Contract, principal: int, isAdmin: bool, now: int) {
      && (isAdmin || (principal != 0 && c.buyer == principal))
      && c.buyerRouting == myRouting
      && (c.settlement.None? || c.settlement.value >= now)
    }

    /** One call with nobody interfering, as the run of the machine above it amounts to. */
    method ExerciseContract(principal: int, isAdmin: bool, id: string, now: int, calls: Calls)
      returns (err: Option<Error>, view: Status)
      modifies this`contracts
      ensures id !in old(contracts) ==> contracts == old(contracts) && err == Some(ContractNotFound)
      ensures id in old(contracts) ==>
                var c := old(contracts)[id];
                var s := Exec(Start(Some(c.status)), Alone(Allowed(c, principal, isAdmin, now), calls));
                && s.row.Some? && contracts == old(contracts)[id := c.(status := s.row.value)]
                && (err.None? <==> s.succeeded == [0])
                && (err.None? ==> view == if calls.update then Exercised else Exercising)
      ensures id in old(contracts) ==>
                var c := old(contracts)[id];
                var mine := (isAdmin || (principal != 0 && c.buyer == principal)) && c.buyerRouting == myRouting;
                var late := c.settlement.Some? && c.settlement.value < now;
                err == if !mine then Some(ContractForbidden)
                       else if c.status != Active || late then Some(NotExercisable)
                       else if !calls.claim then Some(StoreError)
                       else if !calls.prepare || (calls.gated && !calls.gate) || calls.commit != Committed then Some(ExerciseError)
                       else None
    {
      hide Exec, Alone, Act, AfterClaim;
      view := Active;
      if id !in contracts {
        return Some(ContractNotFound), view;
      }
      var contract := contracts[id];
      assert contracts == contracts[id := contract];
      SequentialRun(Some(contract.status), Allowed(contract, principal, isAdmin, now), calls);
      if !isAdmin {
        if principal == 0 || contract.buyer != principal {
          return Some(ContractForbidden), view;
        }
      }
      if contract.buyerRouting != myRouting {
        return Some(ContractForbidden), view;
      }
      if contract.status != Active {
        return Some(NotExercisable), view;
      }
      if contract.settlement.Some? && contract.settlement.value < now {
        return Some(NotExercisable), view;
      }
      if !calls.claim {
        return Some(StoreError), view;
      }
      var exists_, claimed := ClaimExerciseByID(id);
      if !exists_ {
        return Some(ContractNotFound), view;
      }
      if !claimed {
        return Some(AlreadyExercising), view;
      }
      assert contracts[id] == contract.(status := Exercising);
      contract := contract.(status := Exercising);
      var committed := RunClaimed(id, calls);
      assert contracts == old(contracts)[id := contracts[id]];
      if !committed {
        return Some(ExerciseError), view;
      }
      if calls.update {
        contract := contract.(status := Exercised);
      }
      err, view := None, contract.status;
    }
  }
}
