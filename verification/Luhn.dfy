/** Card numbers carry a check digit by the Luhn rule (Annex B of ISO/IEC 7812-1). A number is a
    string of bytes of any length. */
module Luhn {

  predicate IsDigit(c: char) {
    '0' <= c <= '9'
  }

  predicate Digits(s: string) {
    forall i :: 0 <= i < |s| ==> IsDigit(s[i])
  }

  predicate AllZeros(s: string) {
    forall i :: 0 <= i < |s| ==> s[i] == '0'
  }

  function Value(c: char): (d: int)
    requires IsDigit(c)
    ensures 0 <= d <= 9
  {
    c as int - '0' as int
  }

  /** What a digit adds to the sum, plain or doubled. */
  function Weight(c: char, doubled: bool): int
    requires IsDigit(c)
  {
    if doubled then (if 2 * Value(c) > 9 then 2 * Value(c) - 9 else 2 * Value(c)) else Value(c)
  }

  /** The sum of the weights, where every second digit counted from the last one is doubled. */
  function LuhnSum(s: string): int
    requires Digits(s)
  {
    if s == "" then 0 else Weight(s[0], |s| % 2 == 0) + LuhnSum(s[1..])
  }

  /** The rule: a number of digits, not all zero, whose sum is a multiple of ten. */
  predicate Valid(s: string) {
    Digits(s) && !AllZeros(s) && LuhnSum(s) % 10 == 0
  }

  // Properties of the sum

  /** Within one position, plain or doubled, different digits have weights that differ modulo ten. */
  lemma WeightsDiffer(c: char, d: char, doubled: bool)
    requires IsDigit(c) && IsDigit(d) && c != d
    ensures Weight(c, doubled) - Weight(d, doubled) != 0
    ensures -9 <= Weight(c, doubled) - Weight(d, doubled) <= 9
  {
  }

  lemma {:induction false} SumOfChanged(s: string, i: nat, c: char)
    requires Digits(s) && i < |s| && IsDigit(c)
    ensures Digits(s[i := c])
    ensures LuhnSum(s[i := c])
            == LuhnSum(s) - Weight(s[i], (|s| - i) % 2 == 0) + Weight(c, (|s| - i) % 2 == 0)
  {
    hide Weight;
    if i == 0 {
      assert s[i := c][1..] == s[1..];
    } else {
      assert s[i := c][1..] == s[1..][i - 1 := c];
      SumOfChanged(s[1..], i - 1, c);
    }
  }

  /** Changing any one digit of a valid number makes it invalid. */
  lemma SingleErrorIsCaught(s: string, i: nat, c: char)
    requires Valid(s) && i < |s| && c != s[i]
    ensures !Valid(s[i := c])
  {
    hide Weight, LuhnSum;
    if IsDigit(c) {
      SumOfChanged(s, i, c);
      WeightsDiffer(c, s[i], (|s| - i) % 2 == 0);
    } else {
      assert s[i := c][i] == c;
    }
  }

  function Swapped(s: string, i: nat): string
    requires i + 1 < |s|
  {
    s[i := s[i + 1]][i + 1 := s[i]]
  }

  /** How much the sum moves when two neighbouring digits change places. */
  function Shift(c: char, d: char): int
    requires IsDigit(c) && IsDigit(d)
  {
    Weight(d, true) + Weight(c, false) - Weight(c, true) - Weight(d, false)
  }

  lemma ShiftIsSeen(c: char, d: char)
    requires IsDigit(c) && IsDigit(d) && c != d
    ensures -9 <= Shift(c, d) <= 9
    ensures Shift(c, d) == 0 <==> {c, d} == {'0', '9'}
  {
    if Shift(c, d) == 0 {
      assert {c, d} == {'0', '9'};
    }
    if {c, d} == {'0', '9'} {
      assert c in {c, d} && d in {c, d};
    }
  }

  lemma SumOfSwapped(s: string, i: nat)
    requires Digits(s) && i + 1 < |s|
    ensures Digits(Swapped(s, i))
    ensures LuhnSum(Swapped(s, i)) - LuhnSum(s)
            == if (|s| - i) % 2 == 0 then Shift(s[i], s[i + 1]) else -Shift(s[i], s[i + 1])
  {
    hide Weight, LuhnSum;
    SumOfChanged(s, i, s[i + 1]);
    SumOfChanged(s[i := s[i + 1]], i + 1, s[i]);
  }

  /** Exchanging two neighbouring distinct digits of a valid number makes it invalid, unless the two
      digits are 0 and 9. */
  lemma SwapIsCaughtUnlessZeroNine(s: string, i: nat)
    requires Valid(s) && i + 1 < |s| && s[i] != s[i + 1]
    ensures Valid(Swapped(s, i)) <==> {s[i], s[i + 1]} == {'0', '9'}
  {
    hide Weight, LuhnSum, Shift;
    SumOfSwapped(s, i);
    ShiftIsSeen(s[i], s[i + 1]);
    assert Swapped(s, i)[i] == s[i + 1] && Swapped(s, i)[i + 1] == s[i];
    assert !AllZeros(Swapped(s, i));
  }

  // The check digit

  lemma {:induction false} SumOfZeros(s: string)
    requires Digits(s) && AllZeros(s)
    ensures LuhnSum(s) == 0
  {
    if s != "" {
      SumOfZeros(s[1..]);
    }
  }

  /** The digit that completes the payload to a multiple of ten. */
  function Completion(payload: string): (c: char)
    requires Digits(payload)
    ensures IsDigit(c)
  {
    var sum := LuhnSum(payload + "0");
    ((10 - sum % 10) % 10 + '0' as int) as char
  }

  lemma SumWithCheckDigit(payload: string, c: char)
    requires Digits(payload) && IsDigit(c)
    ensures Digits(payload + [c]) && Digits(payload + "0")
    ensures LuhnSum(payload + [c]) == LuhnSum(payload + "0") + Value(c)
  {
    hide LuhnSum;
    assert payload + [c] == (payload + "0")[|payload| := c];
    SumOfChanged(payload + "0", |payload|, c);
  }

  /** A payload has a check digit exactly when it consists of digits that are not all zero, and then
      it has just one. */
  lemma CheckDigitIsUnique(payload: string, c: char)
    ensures Valid(payload + [c])
            <==> Digits(payload) && !AllZeros(payload) && c == Completion(payload)
  {
    hide LuhnSum;
    var s := payload + [c];
    assert Digits(s) ==> Digits(payload) && IsDigit(c) by {
      assert s[|payload|] == c;
      assert forall i :: 0 <= i < |payload| ==> s[i] == payload[i];
    }
    if Digits(payload) && IsDigit(c) {
      SumWithCheckDigit(payload, c);
      var sum := LuhnSum(payload + "0");
      assert Digits(s);
      assert (sum + Value(c)) % 10 == 0 <==> Value(c) == (10 - sum % 10) % 10;
      if AllZeros(payload) {
        SumOfZeros(payload + "0");
        assert c == '0' ==> AllZeros(s);
      } else {
        var i :| 0 <= i < |payload| && payload[i] != '0';
        assert s[i] != '0';
      }
    }
  }

  // The two loops

  method IsValid(pan: string) returns (ok: bool)
    ensures ok == Valid(pan)
  {
    if pan == "" {
      return false;
    }
    var sum, doubleNext, allZero := 0, false, true;
    var i := |pan|;
    while i > 0
      invariant 0 <= i <= |pan|
      invariant Digits(pan[i..])
      invariant sum == LuhnSum(pan[i..])
      invariant doubleNext == ((|pan| - i) % 2 == 1)
      invariant allZero == AllZeros(pan[i..])
    {
      i := i - 1;
      var ch := pan[i];
      assert pan[i..] == [ch] + pan[i + 1..];
      if ch < '0' || ch > '9' {
        return false;
      }
      var digit := ch as int - '0' as int;
      if digit != 0 {
        allZero := false;
      }
      if doubleNext {
        digit := digit * 2;
        if digit > 9 {
          digit := digit - 9;
        }
      }
      sum := sum + digit;
      doubleNext := !doubleNext;
    }
    assert pan[0..] == pan;
    return !allZero && sum % 10 == 0;
  }

  method CalculateCheckDigit(payload: string) returns (check: char, found: bool)
    ensures found <==> Digits(payload) && !AllZeros(payload)
    ensures found ==> forall c: char :: Valid(payload + [c]) <==> c == check
    ensures !found ==> check == 0 as char
  {
    hide Valid, Completion;
    var digit := '0';
    while digit <= '9'
      invariant '0' <= digit <= ':'
      invariant forall c: char :: '0' <= c < digit ==> !Valid(payload + [c])
      decreases ':' as int - digit as int
    {
      var ok := IsValid(payload + [digit]);
      if ok {
        CheckDigitIsUnique(payload, digit);
        forall c: char ensures Valid(payload + [c]) <==> c == digit {
          CheckDigitIsUnique(payload, c);
        }
        return digit, true;
      }
      digit := (digit as int + 1) as char;
    }
    if Digits(payload) {
      CheckDigitIsUnique(payload, Completion(payload));
    }
    return 0 as char, false;
  }
}
