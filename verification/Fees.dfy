/** The platform fee: five per cent of the amount, rounded to a whole cent. */
module Fees {

  /** `amount` cents times 0.05 to the nearest cent. The source rounds a binary float, so an exact
      tie can fall either way; `tieUp` says which. */
  function Fee(amount: nat, tieUp: bool): nat {
    var cents, rest := amount / 20, amount % 20;
    if rest > 10 || (rest == 10 && tieUp) then cents + 1 else cents
  }

  function Distance(fee: int, amount: nat): nat {
    if 20 * fee >= amount then 20 * fee - amount else amount - 20 * fee
  }

  /** No whole number of cents is closer to five per cent, the error is at most half a cent
      (ten twentieths), and the split into fee and net is exact with neither part negative. */
  lemma FeeIsNearest(amount: nat, tieUp: bool, other: int)
    ensures Distance(Fee(amount, tieUp), amount) <= Distance(other, amount)
    ensures Distance(Fee(amount, tieUp), amount) <= 10
    ensures 0 <= Fee(amount, tieUp) <= amount
    ensures other != Fee(amount, tieUp) && Distance(other, amount) <= 10 ==> amount % 20 == 10 && other == Fee(amount, !tieUp)
  {
    var cents, rest := amount / 20, amount % 20;
    assert amount == 20 * cents + rest;
    if other <= cents {
      assert 20 * other <= 20 * cents;
      if other < cents { assert 20 * other <= 20 * (cents - 1); }
    } else {
      assert 20 * other >= 20 * (cents + 1);
      if other > cents + 1 { assert 20 * other >= 20 * (cents + 2); }
    }
  }
}
