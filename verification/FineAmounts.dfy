/** Amounts with fractions of a cent, reserved or moved. The reservation row keeps four decimals, the account columns two,
    and storing a balance rounds it half away from zero. Balances are in cents, amounts in hundredths of a
    cent. */
module FineAmounts {
  import opened Decimals

  /** A balance given in hundredths of a cent, as an account column stores it. */
  function Stored(fine: int): int {
    RoundDiv(fine, 100)
  }

  /** available - amount, and available + amount. */
  function AfterReserve(available: int, amount: int): int {
    Stored(100 * available - amount)
  }

  function AfterRelease(available: int, amount: int): int {
    Stored(100 * available + amount)
  }

  lemma StoredIs(fine: int)
    requires fine >= 0
    ensures Stored(fine) == if fine % 100 >= 50 then fine / 100 + 1 else fine / 100
  {
  }

  /** Reserving takes exactly the amount off the available balance if and only if it is in whole cents, so
      only then is booked minus available still what is held. */
  lemma ReserveIsExactlyWholeCents(available: int, amount: int)
    requires 0 < amount <= 100 * available
    ensures 100 * AfterReserve(available, amount) == 100 * available - amount <==> amount % 100 == 0
  {
    StoredIs(100 * available - amount);
  }

  /** Releasing puts the available balance back where it was if and only if the amount does not end in half
      a cent; then it comes back one cent higher. */
  lemma ReleaseRestoresExactly(available: int, amount: int)
    requires 0 < amount <= 100 * available
    ensures AfterRelease(AfterReserve(available, amount), amount)
            == if amount % 100 == 50 then available + 1 else available
  {
    StoredIs(100 * available - amount);
    StoredIs(100 * AfterReserve(available, amount) + amount);
  }

  /** Both steps keep the books if and only if the amount is in whole cents. */
  lemma WholeCentsExactly(booked: int, available: int, held: int, amount: int)
    requires 0 < amount <= 100 * available && 100 * (booked - available) == held
    ensures (100 * (booked - AfterReserve(available, amount)) == held + amount
             && 100 * (booked - AfterRelease(AfterReserve(available, amount), amount)) == held)
            <==> amount % 100 == 0
  {
    ReserveIsExactlyWholeCents(available, amount);
    ReleaseRestoresExactly(available, amount);
  }

  /** Moving an amount between two accounts, as a loan installment with its four decimals does, keeps their
      total if and only if the amount does not end in half a cent; then it makes a cent. */
  lemma MoveConservesExactly(from: int, to: int, amount: int)
    requires 0 < amount <= 100 * from && to >= 0
    ensures AfterReserve(from, amount) + AfterRelease(to, amount) == from + to + (if amount % 100 == 50 then 1 else 0)
  {
    StoredIs(100 * from - amount);
    StoredIs(100 * to + amount);
  }

  /** With 0.01 available, reserving and releasing 0.005 leaves 0.02, more than is booked. */
  lemma HalfCentMakesMoney()
    ensures AfterReserve(1, 50) == 1 && AfterRelease(1, 50) == 2
  {
  }
}
