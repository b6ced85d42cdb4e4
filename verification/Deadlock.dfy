/** Transactions that lock several account rows one after the other, as payments and transfers do, in the
    order in which they name them. A transaction keeps its locks until it has them all and ends. */
module Deadlock {
  import opened Common

  /** The rows a transaction locks, and how many of them it has. */
  datatype Tx = Tx(rows: seq<nat>, next: nat)

  type Sys = map<nat, Tx>

  predicate Unfinished(s: Sys, t: nat) {
    t in s && s[t].next < |s[t].rows|
  }

  /** An unfinished transaction has locked `row`. */
  predicate Holds(s: Sys, t: nat, row: nat) {
    Unfinished(s, t) && row in s[t].rows[..s[t].next]
  }

  /** The next row is locked by another. */
  ghost predicate Waits(s: Sys, t: nat) {
    Unfinished(s, t) && exists u: nat :: u != t && Holds(s, u, s[t].rows[s[t].next])
  }

  /** Some transaction is unfinished and none of them can go on. */
  ghost predicate Stuck(s: Sys) {
    (exists t: nat :: Unfinished(s, t)) && forall t: nat :: Unfinished(s, t) ==> Waits(s, t)
  }

  function Advanced(s: Sys, t: nat): Sys
    requires t in s
  {
    s[t := s[t].(next := s[t].next + 1)]
  }

  /** Transaction `t` takes its next lock, or waits. */
  ghost function Next(s: Sys, t: nat): Sys {
    if Unfinished(s, t) && !Waits(s, t) then Advanced(s, t) else s
  }

  ghost function Exec(s: Sys, turns: seq<nat>): Sys {
    if turns == [] then s else Next(Exec(s, turns[..|turns| - 1]), turns[|turns| - 1])
  }

  /** A ranking of the rows that every transaction follows: no row is named after one of higher rank, nor
      after another one of the same rank. */
  predicate Ordered(rows: seq<nat>, rank: nat -> nat) {
    forall i, j :: 0 <= i < j < |rows| ==> rank(rows[i]) < rank(rows[j]) || rows[i] == rows[j]
  }

  predicate AllOrdered(s: Sys, rank: nat -> nat) {
    forall t :: t in s ==> Ordered(s[t].rows, rank)
  }

  function Awaited(s: Sys, t: nat, rank: nat -> nat): nat
    requires Unfinished(s, t)
  {
    rank(s[t].rows[s[t].next])
  }

  /** No row is locked by two transactions. */
  ghost predicate Exclusive(s: Sys) {
    forall t: nat, u: nat, row: nat :: Holds(s, t, row) && Holds(s, u, row) ==> t == u
  }

  lemma NextKeeps(s: Sys, t: nat)
    requires Exclusive(s)
    ensures Exclusive(Next(s, t))
  {
    var s' := Next(s, t);
    if s' != s {
      var row := s[t].rows[s[t].next];
      assert s[t].rows[..s[t].next + 1] == s[t].rows[..s[t].next] + [row];
      forall u: nat, v: nat, r: nat | Holds(s', u, r) && Holds(s', v, r) ensures u == v {
        assert u != t ==> Holds(s, u, r);
        assert v != t ==> Holds(s, v, r);
        assert u == t && r != row ==> Holds(s, u, r);
        assert v == t && r != row ==> Holds(s, v, r);
      }
    }
  }

  predicate Fresh(s: Sys) {
    forall t :: t in s ==> s[t].next == 0
  }

  /** Locking changes neither who locks what nor in which order. */
  predicate SameRows(s: Sys, s': Sys) {
    s.Keys == s'.Keys && forall t :: t in s ==> s'[t].rows == s[t].rows
  }

  lemma {:induction false} ExecKeeps(s: Sys, turns: seq<nat>)
    requires Fresh(s)
    ensures Exclusive(Exec(s, turns)) && SameRows(s, Exec(s, turns))
  {
    hide Waits, Exclusive;
    if turns == [] {
      assert Exclusive(s) by { FreshIsExclusive(s); }
    } else {
      ExecKeeps(s, turns[..|turns| - 1]);
      NextKeeps(Exec(s, turns[..|turns| - 1]), turns[|turns| - 1]);
    }
  }

  lemma FreshIsExclusive(s: Sys)
    requires Fresh(s)
    ensures Exclusive(s)
  {
  }

  /** Whoever is waited for waits for a row of higher rank. */
  lemma WaitsHigher(s: Sys, t: nat, rank: nat -> nat) returns (u: nat)
    requires AllOrdered(s, rank) && Exclusive(s) && Stuck(s) && Unfinished(s, t)
    ensures Unfinished(s, u) && Awaited(s, u, rank) > Awaited(s, t, rank)
  {
    var row := s[t].rows[s[t].next];
    assert Waits(s, t);
    u :| u != t && Holds(s, u, row);
    var i :| 0 <= i < s[u].next && s[u].rows[i] == row;
    assert Waits(s, u);
    var v: nat :| v != u && Holds(s, v, s[u].rows[s[u].next]);
    assert Ordered(s[u].rows, rank);
    assert s[u].rows[s[u].next] != row;
  }

  lemma {:induction false} Top(s: Sys, rank: nat -> nat, keys: set<nat>) returns (top: nat)
    ensures forall t :: t in keys && Unfinished(s, t) ==> Awaited(s, t, rank) <= top
  {
    top := 0;
    if keys != {} {
      var k :| k in keys;
      top := Top(s, rank, keys - {k});
      if Unfinished(s, k) && Awaited(s, k, rank) > top {
        top := Awaited(s, k, rank);
      }
    }
  }

  lemma {:induction false} Climb(s: Sys, t: nat, rank: nat -> nat, top: nat)
    requires AllOrdered(s, rank) && Exclusive(s) && Unfinished(s, t)
    requires forall u :: u in s.Keys && Unfinished(s, u) ==> Awaited(s, u, rank) <= top
    ensures !Stuck(s)
    decreases top - Awaited(s, t, rank)
  {
    if Stuck(s) {
      var u := WaitsHigher(s, t, rank);
      Climb(s, u, rank, top);
    }
  }

  /** If one ranking of the rows is followed by all transactions, they never deadlock, however many there
      are and however they take turns. */
  lemma OrderedNeverStuck(s: Sys, turns: seq<nat>, rank: nat -> nat)
    requires Fresh(s) && AllOrdered(s, rank)
    ensures !Stuck(Exec(s, turns))
  {
    hide Waits, Exclusive;
    ExecKeeps(s, turns);
    var s' := Exec(s, turns);
    assert AllOrdered(s', rank);
    if t: nat :| Unfinished(s', t) {
      var top := Top(s', rank, s'.Keys);
      Climb(s', t, rank, top);
    }
  }

  function Pair(a: nat, b: nat, c: nat, d: nat): Sys {
    map[0 := Tx([a, b], 0), 1 := Tx([c, d], 0)]
  }

  /** A ranking that two transactions follow unless they name the same two rows in opposite order. */
  function RankOf(a: nat, b: nat, c: nat, d: nat): nat -> nat {
    (x: nat) => if b == c then (if x == a then 0 else if x == b then 1 else 2)
                else if a == d then (if x == c then 0 else if x == a then 1 else 2)
                else if x == a || x == c then 0 else 1
  }

  lemma OppositeStuck(a: nat, b: nat)
    requires a != b
    ensures Stuck(Exec(Pair(a, b, b, a), [0, 1]))
  {
    var s := Pair(a, b, b, a);
    assert [0, 1][..1] == [0] && [0][..0] == [];
    assert Exec(s, []) == s;
    assert !Waits(s, 0);
    var s1 := map[0 := Tx([a, b], 1), 1 := Tx([b, a], 0)];
    assert Exec(s, [0]) == s1;
    assert forall u: nat :: u != 1 && Unfinished(s1, u) ==> u == 0;
    assert s1[0].rows[..1] == [a];
    assert !Waits(s1, 1);
    var s2 := map[0 := Tx([a, b], 1), 1 := Tx([b, a], 1)];
    assert Exec(s, [0, 1]) == s2;
    assert Holds(s2, 0, s2[1].rows[s2[1].next]) && Holds(s2, 1, s2[0].rows[s2[0].next]);
    assert Unfinished(s2, 0);
    assert forall t: nat :: Unfinished(s2, t) ==> t == 0 || t == 1;
    assert Waits(s2, 0) && Waits(s2, 1);
  }

  /** Two transactions between two rows each can deadlock if and only if they name the same two rows in
      opposite order. */
  lemma TwoDeadlockExactly(a: nat, b: nat, c: nat, d: nat)
    requires a != b && c != d
    ensures (exists turns: seq<nat> :: Stuck(Exec(Pair(a, b, c, d), turns))) <==> a == d && b == c
  {
    hide Stuck, Exec;
    if a == d && b == c {
      OppositeStuck(a, b);
      assert Stuck(Exec(Pair(a, b, c, d), [0, 1]));
    } else {
      forall turns: seq<nat> ensures !Stuck(Exec(Pair(a, b, c, d), turns)) {
        OrderedNeverStuck(Pair(a, b, c, d), turns, RankOf(a, b, c, d));
      }
    }
  }
}
