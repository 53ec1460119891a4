/**
 * Per-token breakdown entries of a portfolio category and the way the Bonding
 * page totals them (`tokenBalances.reduce((acc, e) => acc + e.amount, 0)`).
 * Amounts are JavaScript numbers, modelled as exact reals.
 */
module TokenBalances {

  /** One token's quantity within a category: `{ amount, tokenSymbol }`. */
  datatype TokenBalance = TokenBalance(amount: real, tokenSymbol: string)

  /** Reference definition: the sum of the amounts of a breakdown. */
  function Sum(b: seq<TokenBalance>): (r: real) {
    if b == [] then 0.0 else b[0].amount + Sum(b[1..])
  }

  /**
   * `b.reduce((acc, e) => acc + e.amount, acc)`: a left fold from the
   * accumulator, which adds the sum of the breakdown to the accumulator.
   */
  function Reduce(b: seq<TokenBalance>, acc: real): (r: real)
    ensures r == acc + Sum(b)
  {
    if b == [] then acc else Reduce(b[1..], acc + b[0].amount)
  }

  /** The category total the normalisers compute: `reduce` started at 0. */
  function Total(b: seq<TokenBalance>): (r: real)
    ensures r == Sum(b)
    ensures b == [] ==> r == 0.0
  {
    Reduce(b, 0.0)
  }

  /** With non-negative amounts the total is non-negative and bounds every entry. */
  lemma {:induction false} SumBoundsEntries(b: seq<TokenBalance>)
    requires forall i :: 0 <= i < |b| ==> b[i].amount >= 0.0
    ensures Sum(b) >= 0.0
    ensures forall i :: 0 <= i < |b| ==> b[i].amount <= Sum(b)
  {
    if b != [] {
      SumBoundsEntries(b[1..]);
      forall i | 1 <= i < |b|
        ensures b[i].amount <= Sum(b)
      {
        assert b[i] == b[1..][i - 1];
      }
    }
  }

  /** A breakdown whose amounts are all zero totals zero, however long it is. */
  lemma {:induction false} SumOfZeros(b: seq<TokenBalance>)
    requires forall i :: 0 <= i < |b| ==> b[i].amount == 0.0
    ensures Sum(b) == 0.0
  {
    if b != [] {
      SumOfZeros(b[1..]);
    }
  }
}
