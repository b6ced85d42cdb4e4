/** The database lease lock of the scheduled jobs: one row per job name, taken with a conditional
    upsert and shortened on release. Instances have distinct names and read one clock, but read it
    before their statement reaches the database. */
module Lease {
  import opened Common

  datatype Lock = Lock(until: int, holder: nat)

  /** An instance has read the clock to acquire, is inside the job, or has left it and read the clock
      to release. `start` is the stamp it acquired with. */
  datatype Instance =
    | Idle
    | Stamped(stamp: int)
    | Running(start: int, leaseEnd: int)
    | Leaving(start: int, stamp: int)
    | Gone

  /** One acquisition; `ended` is set when its release takes effect. History only. */
  datatype Grant = Grant(holder: nat, stamp: int, ended: Option<int>)

  datatype Sys = Sys(row: Option<Lock>, clock: int, instances: map<nat, Instance>, grants: seq<Grant>)

  datatype Config = Config(atMost: int, atLeast: int)

  datatype Outcome = Answered | Refused | Lost

  datatype Action =
    | Tick(seconds: nat)
    | Join(o: nat)
    | ReadClock(o: nat)
    | Acquire(o: nat, outcome: Outcome)
    | EndJob(o: nat)
    | Release(o: nat, outcome: Outcome)
    | Crash(o: nat)

  /** INSERT ... ON CONFLICT DO UPDATE ... WHERE lock_until <= now. */
  predicate CanAcquire(row: Option<Lock>, now: int) {
    row.None? || row.value.until <= now
  }

  /** UPDATE ... SET lock_until WHERE locked_by. */
  function ReleaseRow(row: Option<Lock>, o: nat, now: int, atLeast: int): Option<Lock> {
    if row.Some? && row.value.holder == o then Some(row.value.(until := now + atLeast)) else row
  }

  function Moved(s: Sys, o: nat, i: Instance): Sys {
    s.(instances := s.instances[o := i])
  }

  function Ended(grants: seq<Grant>, stamp: int): seq<Grant> {
    if grants == [] then grants else grants[|grants| - 1 := grants[|grants| - 1].(ended := Some(stamp))]
  }

  function Act(s: Sys, a: Action, cfg: Config): Sys {
    match a
    case Tick(d) => s.(clock := s.clock + d)
    case Join(o) => if o in s.instances then s else Moved(s, o, Idle)
    case ReadClock(o) => if o in s.instances && s.instances[o].Idle? then Moved(s, o, Stamped(s.clock)) else s
    case Acquire(o, outcome) =>
      if o !in s.instances || !s.instances[o].Stamped? then s
      else
        var t := s.instances[o].stamp;
        if outcome == Refused || !CanAcquire(s.row, t) then Moved(s, o, Idle)
        else Moved(s.(row := Some(Lock(t + cfg.atMost, o)), grants := s.grants + [Grant(o, t, None)]),
                   o, if outcome == Lost then Idle else Running(t, t + cfg.atMost))
    case EndJob(o) =>
      if o in s.instances && s.instances[o].Running? then Moved(s, o, Leaving(s.instances[o].start, s.clock)) else s
    case Release(o, outcome) =>
      if o !in s.instances || !s.instances[o].Leaving? then s
      else if outcome == Refused || s.row.None? || s.row.value.holder != o then Moved(s, o, Idle)
      else Moved(s.(row := ReleaseRow(s.row, o, s.instances[o].stamp, cfg.atLeast),
                    grants := Ended(s.grants, s.instances[o].stamp)), o, Idle)
    case Crash(o) => if o in s.instances then Moved(s, o, Gone) else s
  }

  function Exec(s: Sys, actions: seq<Action>, cfg: Config): Sys {
    if actions == [] then s else Act(Exec(s, actions[..|actions| - 1], cfg), actions[|actions| - 1], cfg)
  }

  // What every run keeps

  function Min(a: int, b: int): int {
    if a < b then a else b
  }

  predicate InstanceOk(s: Sys, o: nat, i: Instance) {
    match i
    case Stamped(t) => t <= s.clock
    case Running(start, _) => start <= s.clock && Owns(s, o, start)
    case Leaving(start, t) => start <= t <= s.clock && Owns(s, o, start)
    case _ => true
  }

  /** If the latest acquisition is this instance's, it is the one it is acting on and is not ended. */
  predicate Owns(s: Sys, o: nat, start: int) {
    s.grants != [] && (s.grants[|s.grants| - 1].holder == o ==> s.grants[|s.grants| - 1] == Grant(o, start, None))
  }

  /** The row names the latest grantee and is not free before the grant's minimum hold is over. */
  predicate RowOk(s: Sys, cfg: Config) {
    s.grants != [] ==>
      var last := s.grants[|s.grants| - 1];
      && s.row.Some? && s.row.value.holder == last.holder
      && s.row.value.until >= last.stamp + Min(cfg.atMost, cfg.atLeast)
      && (last.ended.None? ==> s.row.value.until == last.stamp + cfg.atMost)
      && (last.ended.Some? ==> s.row.value.until == last.ended.value + cfg.atLeast)
  }

  /** Consecutive acquisitions are spaced: from start to start by the smaller of the two durations,
      and from an effective release to the next start by lockAtLeastFor. */
  predicate Spaced(grants: seq<Grant>, cfg: Config) {
    forall k :: 0 < k < |grants| ==>
      && grants[k].stamp >= grants[k - 1].stamp + Min(cfg.atMost, cfg.atLeast)
      && (grants[k - 1].ended.Some? ==> grants[k].stamp >= grants[k - 1].ended.value + cfg.atLeast)
  }

  predicate Inv(s: Sys, cfg: Config) {
    && RowOk(s, cfg) && Spaced(s.grants, cfg)
    && forall o :: o in s.instances ==> InstanceOk(s, o, s.instances[o])
  }

  lemma SpacedAppend(grants: seq<Grant>, g: Grant, cfg: Config)
    requires Spaced(grants, cfg)
    requires grants != [] ==>
               var last := grants[|grants| - 1];
               && g.stamp >= last.stamp + Min(cfg.atMost, cfg.atLeast)
               && (last.ended.Some? ==> g.stamp >= last.ended.value + cfg.atLeast)
    ensures Spaced(grants + [g], cfg)
  {
  }

  lemma AcquireKeeps(s: Sys, o: nat, outcome: Outcome, cfg: Config)
    requires Inv(s, cfg)
    ensures Inv(Act(s, Acquire(o, outcome), cfg), cfg)
  {
    hide Spaced;
    var s' := Act(s, Acquire(o, outcome), cfg);
    if s'.grants != s.grants {
      SpacedAppend(s.grants, Grant(o, s.instances[o].stamp, None), cfg);
      assert InstanceOk(s, o, s.instances[o]);
      forall p | p in s'.instances ensures InstanceOk(s', p, s'.instances[p]) {
        assert p in s.instances && InstanceOk(s, p, s.instances[p]);
      }
    }
  }

  lemma ReleaseKeeps(s: Sys, o: nat, outcome: Outcome, cfg: Config)
    requires Inv(s, cfg)
    ensures Inv(Act(s, Release(o, outcome), cfg), cfg)
  {
    var s' := Act(s, Release(o, outcome), cfg);
    if s'.grants != s.grants {
      assert InstanceOk(s, o, s.instances[o]);
      forall p | p in s'.instances ensures InstanceOk(s', p, s'.instances[p]) {
        assert p in s.instances && InstanceOk(s, p, s.instances[p]);
      }
    }
  }

  lemma ActKeeps(s: Sys, a: Action, cfg: Config)
    requires Inv(s, cfg)
    ensures Inv(Act(s, a, cfg), cfg)
  {
    hide Spaced;
    match a {
      case Acquire(o, outcome) => AcquireKeeps(s, o, outcome, cfg);
      case Release(o, outcome) => ReleaseKeeps(s, o, outcome, cfg);
      case _ =>
        var s' := Act(s, a, cfg);
        forall p | p in s'.instances ensures InstanceOk(s', p, s'.instances[p]) {
          assert p in s.instances ==> InstanceOk(s, p, s.instances[p]);
        }
    }
  }

  predicate Fresh(s: Sys) {
    s.instances == map[] && s.grants == []
  }

  /** In every run, punctual or not, with lost answers, late statements and crashes: any two
      consecutive runs start at least min(lockAtMostFor, lockAtLeastFor) apart, and a run whose release
      took effect is followed by no other for lockAtLeastFor. */
  lemma {:induction false} EveryRunIsSpaced(s: Sys, actions: seq<Action>, cfg: Config)
    requires Fresh(s)
    ensures Inv(Exec(s, actions, cfg), cfg) && Spaced(Exec(s, actions, cfg).grants, cfg)
  {
    hide Act;
    if actions != [] {
      EveryRunIsSpaced(s, actions[..|actions| - 1], cfg);
      ActKeeps(Exec(s, actions[..|actions| - 1], cfg), actions[|actions| - 1], cfg);
    }
  }

  /** While a lease has not expired, nothing any other instance does touches it: neither an attempt to
      acquire nor the late release of a former holder. */
  lemma LeaseIsExclusive(s: Sys, a: Action, cfg: Config)
    requires Inv(s, cfg) && s.row.Some? && s.clock < s.row.value.until
    requires a.Tick? || a.o != s.row.value.holder
    ensures Act(s, a, cfg).row == s.row
  {
    if !a.Tick? && a.o in s.instances {
      assert InstanceOk(s, a.o, s.instances[a.o]);
    }
  }

  // Mutual exclusion

  predicate Inside(s: Sys, o: nat) {
    o in s.instances && s.instances[o].Running?
  }

  predicate InLease(s: Sys, o: nat) {
    Inside(s, o) && s.clock < s.instances[o].leaseEnd
  }

  predicate Engaged(s: Sys, o: nat) {
    o in s.instances && (s.instances[o].Running? || s.instances[o].Leaving?)
  }

  /** Until its lease runs out, whoever is inside the job or on its way out holds the row. */
  ghost predicate Holding(s: Sys, cfg: Config) {
    forall o: nat :: Engaged(s, o) ==>
      && (s.instances[o].Running? ==> s.instances[o].leaseEnd == s.instances[o].start + cfg.atMost)
      && (s.clock < s.instances[o].start + cfg.atMost ==> s.row == Some(Lock(s.instances[o].start + cfg.atMost, o)))
  }

  lemma HoldingKeeps(s: Sys, a: Action, cfg: Config)
    requires Inv(s, cfg) && Holding(s, cfg)
    ensures Holding(Act(s, a, cfg), cfg)
  {
    hide Inv, Ended, CanAcquire;
    var s' := Act(s, a, cfg);
    forall o: nat | Engaged(s', o)
      ensures s'.instances[o].Running? ==> s'.instances[o].leaseEnd == s'.instances[o].start + cfg.atMost
      ensures s'.clock < s'.instances[o].start + cfg.atMost ==> s'.row == Some(Lock(s'.instances[o].start + cfg.atMost, o))
    {
      if Engaged(s, o) && s.clock < s.instances[o].start + cfg.atMost && (a.Tick? || a.o != o) {
        LeaseIsExclusive(s, a, cfg);
      }
    }
  }

  lemma {:induction false} HoldingRun(s: Sys, actions: seq<Action>, cfg: Config)
    requires Fresh(s)
    ensures Holding(Exec(s, actions, cfg), cfg)
  {
    hide Act;
    if actions != [] {
      HoldingRun(s, actions[..|actions| - 1], cfg);
      EveryRunIsSpaced(s, actions[..|actions| - 1], cfg);
      HoldingKeeps(Exec(s, actions[..|actions| - 1], cfg), actions[|actions| - 1], cfg);
    }
  }

  /** In every run, at most one instance is inside the job with its lease not yet over; so if jobs end
      before their leases do, no two instances are ever inside at once. */
  lemma MutualExclusion(s: Sys, actions: seq<Action>, cfg: Config)
    requires Fresh(s)
    ensures var s' := Exec(s, actions, cfg);
            && (forall o: nat, p: nat :: InLease(s', o) && InLease(s', p) ==> o == p)
            && ((forall o: nat :: Inside(s', o) ==> InLease(s', o)) ==>
                  forall o: nat, p: nat :: Inside(s', o) && Inside(s', p) ==> o == p)
  {
    hide Exec;
    HoldingRun(s, actions, cfg);
    var s' := Exec(s, actions, cfg);
    forall o: nat | InLease(s', o) ensures s'.row.Some? && s'.row.value.holder == o {
      assert Engaged(s', o);
    }
  }

  // When the gap after a job is kept

  /** Acquisitions are only appended, and one that has ended stays as it is. */
  predicate Grows(grants: seq<Grant>, grants': seq<Grant>) {
    && |grants| <= |grants'|
    && forall k :: 0 <= k < |grants| ==>
         grants'[k].holder == grants[k].holder && grants'[k].stamp == grants[k].stamp
         && (grants[k].ended.Some? ==> grants'[k] == grants[k])
  }

  /** A release takes effect exactly when its instance still is the row's holder. */
  lemma ReleaseEffect(s: Sys, o: nat, outcome: Outcome, cfg: Config)
    requires Inv(s, cfg) && o in s.instances && s.instances[o].Leaving?
    ensures var s' := Act(s, Release(o, outcome), cfg);
            var effective := outcome != Refused && s.row.Some? && s.row.value.holder == o;
            && s.grants != [] && |s'.grants| == |s.grants|
            && (effective <==> s'.grants != s.grants)
            && (effective ==> s'.grants[|s.grants| - 1] == Grant(o, s.instances[o].start, Some(s.instances[o].stamp)))
  {
    assert InstanceOk(s, o, s.instances[o]);
    var last := s.grants[|s.grants| - 1];
    assert s.row.Some? && s.row.value.holder == o ==> last == Grant(o, s.instances[o].start, None);
    assert Ended(s.grants, s.instances[o].stamp)[|s.grants| - 1].ended == Some(s.instances[o].stamp);
  }

  lemma ActGrows(s: Sys, a: Action, cfg: Config)
    requires Inv(s, cfg)
    ensures Grows(s.grants, Act(s, a, cfg).grants)
  {
    hide Spaced;
    if a.Release? && a.o in s.instances {
      assert InstanceOk(s, a.o, s.instances[a.o]);
    }
  }

  /** The next acquisition after the first `n`, if there is one, is no earlier than `limit`. */
  predicate NextIsLate(grants: seq<Grant>, n: nat, limit: int) {
    |grants| > n ==> grants[n].stamp >= limit
  }

  /** Whatever happens from here on, it is. */
  ghost predicate GapKept(s: Sys, n: nat, limit: int, cfg: Config) {
    forall later: seq<Action> :: NextIsLate(Exec(s, later, cfg).grants, n, limit)
  }

  /** Somebody has read the clock early enough to start before `limit`, yet after the lease is over. */
  predicate EarlyStamp(s: Sys, leaseEnd: int, limit: int) {
    exists p :: p in s.instances && s.instances[p].Stamped? && leaseEnd <= s.instances[p].stamp < limit
  }

  /** The lease itself outlasts the gap, or the gap is over and nobody holds a stamp from within it. */
  predicate Covered(s: Sys, leaseEnd: int, limit: int) {
    leaseEnd >= limit || (s.clock >= limit && !EarlyStamp(s, leaseEnd, limit))
  }

  /** Nobody has acquired the row since `o` left the job at `e`. */
  predicate Waiting(s: Sys, o: nat, n: nat, start: int, e: int, cfg: Config) {
    && |s.grants| == n && s.row.Some? && s.row.value.holder == o
    && (Engaged(s, o) ==> s.instances[o] == Leaving(start, e))
    && (|| s.row.value.until == e + cfg.atLeast
        || (s.row.value.until == start + cfg.atMost && Covered(s, start + cfg.atMost, e + cfg.atLeast)))
  }

  lemma CoveredStays(s: Sys, a: Action, leaseEnd: int, limit: int, cfg: Config)
    requires Covered(s, leaseEnd, limit)
    ensures Covered(Act(s, a, cfg), leaseEnd, limit)
  {
    var s' := Act(s, a, cfg);
    forall p | leaseEnd < limit && p in s'.instances && s'.instances[p].Stamped? ensures !(leaseEnd <= s'.instances[p].stamp < limit) {
      if p in s.instances && s.instances[p] == s'.instances[p] {
        StampIsLate(s, p, leaseEnd, limit);
      }
    }
  }

  lemma WaitingStep(s: Sys, a: Action, o: nat, n: nat, start: int, e: int, cfg: Config)
    requires Waiting(s, o, n, start, e, cfg)
    ensures var s' := Act(s, a, cfg);
            Waiting(s', o, n, start, e, cfg) || (|s'.grants| == n + 1 && s'.grants[n].stamp >= e + cfg.atLeast)
  {
    hide Covered;
    var s', leaseEnd, limit := Act(s, a, cfg), start + cfg.atMost, e + cfg.atLeast;
    if Covered(s, leaseEnd, limit) {
      CoveredStays(s, a, leaseEnd, limit, cfg);
      if a.Acquire? && |s'.grants| != n {
        assert s'.grants[n].stamp >= s.row.value.until;
        StampIsLate(s, a.o, leaseEnd, limit);
      }
    }
  }

  lemma StampIsLate(s: Sys, p: nat, leaseEnd: int, limit: int)
    requires Covered(s, leaseEnd, limit) && p in s.instances && s.instances[p].Stamped?
    ensures s.instances[p].stamp >= leaseEnd ==> s.instances[p].stamp >= limit
  {
  }

  lemma {:induction false} WaitingRun(s: Sys, later: seq<Action>, o: nat, n: nat, start: int, e: int, cfg: Config)
    requires Inv(s, cfg) && Waiting(s, o, n, start, e, cfg)
    ensures var s' := Exec(s, later, cfg);
            Inv(s', cfg) && (Waiting(s', o, n, start, e, cfg) || (|s'.grants| > n && s'.grants[n].stamp >= e + cfg.atLeast))
  {
    hide Act, Inv;
    if later != [] {
      var before, a := later[..|later| - 1], later[|later| - 1];
      WaitingRun(s, before, o, n, start, e, cfg);
      var s1 := Exec(s, before, cfg);
      ActKeeps(s1, a, cfg);
      ActGrows(s1, a, cfg);
      if Waiting(s1, o, n, start, e, cfg) {
        WaitingStep(s1, a, o, n, start, e, cfg);
      }
    }
  }

  lemma WaitingKeepsGap(s: Sys, o: nat, n: nat, start: int, e: int, cfg: Config)
    requires Inv(s, cfg) && Waiting(s, o, n, start, e, cfg)
    ensures GapKept(s, n, e + cfg.atLeast, cfg)
  {
    hide Exec, Inv;
    forall later: seq<Action> ensures NextIsLate(Exec(s, later, cfg).grants, n, e + cfg.atLeast) {
      WaitingRun(s, later, o, n, start, e, cfg);
    }
  }

  lemma {:induction false} ExecAppend(s: Sys, a: seq<Action>, b: seq<Action>, cfg: Config)
    ensures Exec(s, a + b, cfg) == Exec(Exec(s, a, cfg), b, cfg)
  {
    hide Act;
    if b == [] {
      assert a + b == a;
    } else {
      assert (a + b)[..|a + b| - 1] == a + b[..|b| - 1];
      ExecAppend(s, a, b[..|b| - 1], cfg);
    }
  }

  lemma ExecOne(s: Sys, a: Action, cfg: Config)
    ensures Exec(s, [a], cfg) == Act(s, a, cfg)
  {
    hide Act;
    assert [a][..0] == [];
    assert Exec(s, [], cfg) == s;
  }

  lemma ExecThree(s: Sys, a: Action, b: Action, c: Action, cfg: Config)
    ensures Exec(s, [a, b, c], cfg) == Act(Act(Act(s, a, cfg), b, cfg), c, cfg)
  {
    hide Act;
    ExecOne(s, a, cfg);
    assert [a, b, c][..2] == [a, b] && [a, b][..1] == [a];
  }

  /** With the old lease still in the row and the gap not covered, the gap can be lost: by a stamp taken
      early, or by letting the lease run out and starting at once. */
  lemma UncoveredLosesGap(s: Sys, o: nat, start: int, e: int, cfg: Config)
    requires o in s.instances && s.instances[o].Idle? && s.row == Some(Lock(start + cfg.atMost, o))
    requires !Covered(s, start + cfg.atMost, e + cfg.atLeast)
    ensures !GapKept(s, |s.grants|, e + cfg.atLeast, cfg)
  {
    hide Exec;
    var leaseEnd, limit := start + cfg.atMost, e + cfg.atLeast;
    if EarlyStamp(s, leaseEnd, limit) {
      var p :| p in s.instances && s.instances[p].Stamped? && leaseEnd <= s.instances[p].stamp < limit;
      ExecOne(s, Acquire(p, Answered), cfg);
      assert !NextIsLate(Exec(s, [Acquire(p, Answered)], cfg).grants, |s.grants|, limit);
    } else {
      var wait: nat := if s.clock < leaseEnd then leaseEnd - s.clock else 0;
      var s1 := Act(s, Tick(wait), cfg);
      var s2 := Act(s1, ReadClock(o), cfg);
      assert s2.instances[o] == Stamped(s1.clock) && leaseEnd <= s1.clock < limit && s2.row == s.row;
      ExecThree(s, Tick(wait), ReadClock(o), Acquire(o, Answered), cfg);
      assert !NextIsLate(Exec(s, [Tick(wait), ReadClock(o), Acquire(o, Answered)], cfg).grants, |s.grants|, limit);
    }
  }

  lemma ReleaseLeaves(s: Sys, o: nat, outcome: Outcome, cfg: Config)
    requires o in s.instances && s.instances[o].Leaving? && s.row.Some? && s.row.value.holder == o
    ensures var s' := Act(s, Release(o, outcome), cfg);
            && o in s'.instances && s'.instances[o] == Idle && |s'.grants| == |s.grants|
            && s'.row == (if outcome == Refused then s.row else Some(Lock(s.instances[o].stamp + cfg.atLeast, o)))
            && forall leaseEnd, limit :: Covered(s', leaseEnd, limit) == Covered(s, leaseEnd, limit)
  {
    var s' := Act(s, Release(o, outcome), cfg);
    forall leaseEnd, limit ensures EarlyStamp(s', leaseEnd, limit) == EarlyStamp(s, leaseEnd, limit) {
      if EarlyStamp(s, leaseEnd, limit) {
        var p :| p in s.instances && s.instances[p].Stamped? && leaseEnd <= s.instances[p].stamp < limit;
        assert s'.instances[p] == s.instances[p];
      }
      if EarlyStamp(s', leaseEnd, limit) {
        var p :| p in s'.instances && s'.instances[p].Stamped? && leaseEnd <= s'.instances[p].stamp < limit;
        assert p in s.instances && s.instances[p] == s'.instances[p];
      }
    }
  }

  lemma LeaseInRow(s: Sys, o: nat, cfg: Config)
    requires Inv(s, cfg) && o in s.instances && s.instances[o].Leaving? && s.row.Some? && s.row.value.holder == o
    ensures s.row == Some(Lock(s.instances[o].start + cfg.atMost, o))
  {
    assert InstanceOk(s, o, s.instances[o]);
  }

  /** Exactly when the gap after a job is kept. In every reachable state in which `o` has left the job at
      `e` and still is the row's holder: the next run starts at `e` + lockAtLeastFor or later, whatever
      happens, if and only if the lease outlasts that time, or that time has come and nobody holds an
      earlier stamp; and once the release has been sent, if and only if it took effect or one of these
      holds. */
  lemma GapKeptExactly(s0: Sys, before: seq<Action>, o: nat, outcome: Outcome, cfg: Config)
    requires Fresh(s0)
    requires var s := Exec(s0, before, cfg);
             o in s.instances && s.instances[o].Leaving? && s.row.Some? && s.row.value.holder == o
    ensures var s := Exec(s0, before, cfg);
            var leaseEnd, limit := s.instances[o].start + cfg.atMost, s.instances[o].stamp + cfg.atLeast;
            && (GapKept(s, |s.grants|, limit, cfg) <==> Covered(s, leaseEnd, limit))
            && (GapKept(Act(s, Release(o, outcome), cfg), |s.grants|, limit, cfg)
                <==> outcome != Refused || Covered(s, leaseEnd, limit))
  {
    hide Exec, Act, Inv, Covered, GapKept;
    var s := Exec(s0, before, cfg);
    var start, e := s.instances[o].start, s.instances[o].stamp;
    EveryRunIsSpaced(s0, before, cfg);
    LeaseInRow(s, o, cfg);
    ReleaseLeaves(s, o, outcome, cfg);
    ReleaseLeaves(s, o, Refused, cfg);
    ActKeeps(s, Release(o, outcome), cfg);
    if Covered(s, start + cfg.atMost, e + cfg.atLeast) {
      WaitingKeepsGap(s, o, |s.grants|, start, e, cfg);
    } else {
      UncoveredLosesGap(Act(s, Release(o, Refused), cfg), o, start, e, cfg);
      LostLater(s, Release(o, Refused), |s.grants|, e + cfg.atLeast, cfg);
    }
    if outcome != Refused || Covered(s, start + cfg.atMost, e + cfg.atLeast) {
      WaitingKeepsGap(Act(s, Release(o, outcome), cfg), o, |s.grants|, start, e, cfg);
    }
  }

  /** What can be lost after a step can be lost before it. */
  lemma LostLater(s: Sys, a: Action, n: nat, limit: int, cfg: Config)
    requires !GapKept(Act(s, a, cfg), n, limit, cfg)
    ensures !GapKept(s, n, limit, cfg)
  {
    hide Act, Exec;
    var later: seq<Action> :| !NextIsLate(Exec(Act(s, a, cfg), later, cfg).grants, n, limit);
    ExecOne(s, a, cfg);
    ExecAppend(s, [a], later, cfg);
    assert !NextIsLate(Exec(s, [a] + later, cfg).grants, n, limit);
  }

  /** In particular a release that reaches the database before its lease is over always keeps the gap. */
  lemma PromptReleaseKeepsGap(s: Sys, before: seq<Action>, o: nat, outcome: Outcome, later: seq<Action>, cfg: Config)
    requires Fresh(s) && outcome != Refused
    requires var now := Exec(s, before, cfg);
             o in now.instances && now.instances[o].Leaving? && now.clock < now.instances[o].start + cfg.atMost
    ensures var now := Exec(s, before, cfg);
            NextIsLate(Exec(Act(now, Release(o, outcome), cfg), later, cfg).grants, |now.grants|, now.instances[o].stamp + cfg.atLeast)
  {
    hide Exec, Act, Covered;
    HoldingRun(s, before, cfg);
    assert Engaged(Exec(s, before, cfg), o);
    GapKeptExactly(s, before, o, outcome, cfg);
  }

  /** The gap after a job is lost when its release reaches the database only after the lease ran out:
      instance 0 ends at 9, instance 1 starts at 10, although lockAtLeastFor is 5. */
  lemma LateReleaseLosesGap()
    ensures var cfg := Config(10, 5);
            var s0 := Sys(None, 0, map[0 := Idle, 1 := Idle], []);
            var s1 := Act(Act(s0, ReadClock(0), cfg), Acquire(0, Answered), cfg);
            var s2 := Act(Act(Act(s1, Tick(9), cfg), EndJob(0), cfg), Tick(1), cfg);
            var s3 := Act(Act(s2, ReadClock(1), cfg), Acquire(1, Answered), cfg);
            var s4 := Act(s3, Release(0, Answered), cfg);
            Inside(s3, 1) && s3.instances[1].start == 10 && s2.instances[0] == Leaving(0, 9) && s4.row == s3.row
  {
  }

  // The lock

  class DistributedLock {
    var row: Option<Lock>
    const cfg: Config

    constructor (row: Option<Lock>, cfg: Config)
      ensures this.row == row && this.cfg == cfg
    {
      this.row, this.cfg := row, cfg;
    }

    method TryAcquire(o: nat, now: int) returns (acquired: bool)
      modifies this`row
      ensures acquired <==> CanAcquire(old(row), now)
      ensures row == if acquired then Some(Lock(now + cfg.atMost, o)) else old(row)
    {
      acquired := row.None? || row.value.until <= now;
      if acquired {
        row := Some(Lock(now + cfg.atMost, o));
      }
    }

    method ReleaseLock(o: nat, now: int)
      modifies this`row
      ensures row == ReleaseRow(old(row), o, now, cfg.atLeast)
    {
      if row.Some? && row.value.holder == o {
        row := Some(row.value.(until := now + cfg.atLeast));
      }
    }

    /** One call with nobody interfering: the job runs from `now` to `later` or not at all, and
        afterwards nobody can acquire before `later` + lockAtLeastFor. */
    method Try(o: nat, now: int, later: int) returns (ran: bool)
      modifies this`row
      ensures ran <==> CanAcquire(old(row), now)
      ensures !ran ==> row == old(row)
      ensures ran ==> row == Some(Lock(later + cfg.atLeast, o))
      ensures ran ==> forall t :: CanAcquire(row, t) <==> t >= later + cfg.atLeast
    {
      ran := TryAcquire(o, now);
      if ran {
        ReleaseLock(o, later);
      }
    }
  }
}
