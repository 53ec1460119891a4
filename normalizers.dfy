/**
 * The four category normalisers of the Bonding page (`setBondedTokens`,
 * `setLiquidTokens`, `setUnbondingTokens`, `setWithdrawableTokens`), without
 * their final call to `setValues`: each turns its raw input into the total and
 * the breakdown that it then hands over, either of which is `undefined` when
 * the input is.
 */
module Normalizers {
  import opened Options
  import opened TokenBalances

  /**
   * The two fields the page reads from a bonded position, an unbonding request
   * or a withdrawable record.
   */
  datatype PositionRecord = PositionRecord(amount: real, tokenSymbol: string)

  type BondedData = PositionRecord
  type UnbondingData = PositionRecord
  type WithdrawableInfo = PositionRecord

  /** The `(value, tokenBalances)` arguments a normaliser passes to `setValues`. */
  datatype Update = Update(total: Option<real>, tokenBalances: Option<seq<TokenBalance>>)

  /**
   * An update is consistent when total and breakdown are both undefined, or
   * both defined and the total is the sum of the breakdown.
   */
  predicate Consistent(u: Update) {
    && (u.total.Some? <==> u.tokenBalances.Some?)
    && (u.total.Some? ==> u.total.value == Sum(u.tokenBalances.value))
  }

  /**
   * `records.map(r => ({ amount: r.amount, tokenSymbol: r.tokenSymbol }))`:
   * one entry per record, in order, with no merging of repeated symbols.
   */
  function ToTokenBalances(records: seq<PositionRecord>): (r: seq<TokenBalance>)
    ensures |r| == |records|
    ensures forall i :: 0 <= i < |records| ==>
      r[i].amount == records[i].amount && r[i].tokenSymbol == records[i].tokenSymbol
  {
    if records == [] then []
    else [TokenBalance(records[0].amount, records[0].tokenSymbol)] + ToTokenBalances(records[1..])
  }

  /**
   * The shared body of `setBondedTokens`, `setUnbondingTokens` and
   * `setWithdrawableTokens`: map with `?.`, then total with `?.reduce`.
   */
  function PositionUpdate(records: Option<seq<PositionRecord>>): (u: Update)
    ensures Consistent(u)
    ensures records.None? <==> u.tokenBalances.None?
    ensures records.Some? ==> u.tokenBalances.value == ToTokenBalances(records.value)
  {
    match records
    case None => Update(None, None)
    case Some(rs) =>
      var b := ToTokenBalances(rs);
      Update(Some(Total(b)), Some(b))
  }

  /** The balances array exists and holds a non-null balance at `idx`. */
  predicate Present(liquidBalances: Option<seq<Option<real>>>, idx: nat) {
    liquidBalances.Some? && idx < |liquidBalances.value| && liquidBalances.value[idx].Some?
  }

  /** `liquidBalances?.[idx] ?? 0`: a missing array, a missing index or a null entry read as 0. */
  function BalanceAt(liquidBalances: Option<seq<Option<real>>>, idx: nat): (r: real)
    ensures Present(liquidBalances, idx) ==> r == liquidBalances.value[idx].value
    ensures !Present(liquidBalances, idx) ==> r == 0.0
  {
    match liquidBalances
    case None => 0.0
    case Some(bs) => if idx < |bs| then bs[idx].GetOr(0.0) else 0.0
  }

  /**
   * `symbols.map((symbol, idx) => ({ amount: liquidBalances?.[idx] ?? 0, tokenSymbol: symbol }))`:
   * the balances are paired with the symbols by position.
   */
  function PairBySymbol(liquidBalances: Option<seq<Option<real>>>, symbols: seq<string>): (r: seq<TokenBalance>)
    ensures |r| == |symbols|
    ensures forall i :: 0 <= i < |symbols| ==>
      r[i].tokenSymbol == symbols[i] && r[i].amount == BalanceAt(liquidBalances, i)
  {
    if symbols == [] then []
    else
      var n := |symbols| - 1;
      PairBySymbol(liquidBalances, symbols[..n]) + [TokenBalance(BalanceAt(liquidBalances, n), symbols[n])]
  }

  /** The body of `setLiquidTokens` before its call to `setValues`. */
  function LiquidUpdate(liquidBalances: Option<seq<Option<real>>>, symbols: Option<seq<string>>): (u: Update)
    ensures Consistent(u)
    ensures symbols.None? <==> u.tokenBalances.None?
    ensures symbols.Some? ==> u.tokenBalances.value == PairBySymbol(liquidBalances, symbols.value)
  {
    match symbols
    case None => Update(None, None)
    case Some(ss) =>
      var b := PairBySymbol(liquidBalances, ss);
      Update(Some(Total(b)), Some(b))
  }

  /**
   * Without a balances array the liquid breakdown still lists every symbol,
   * each with amount 0, and the total is 0.
   */
  lemma LiquidWithoutBalances(symbols: seq<string>)
    ensures var u := LiquidUpdate(None, Some(symbols));
      && |u.tokenBalances.value| == |symbols|
      && (forall i :: 0 <= i < |symbols| ==> u.tokenBalances.value[i] == TokenBalance(0.0, symbols[i]))
      && u.total == Some(0.0)
  {
    SumOfZeros(PairBySymbol(None, symbols));
  }

  /** Balances `[10, null, 5]` against symbols `[X, Y, Z]` give `[{X,10},{Y,0},{Z,5}]`, total 15. */
  lemma LiquidExample()
    ensures var u := LiquidUpdate(Some([Some(10.0), None, Some(5.0)]), Some(["X", "Y", "Z"]));
      && u.tokenBalances == Some([TokenBalance(10.0, "X"), TokenBalance(0.0, "Y"), TokenBalance(5.0, "Z")])
      && u.total == Some(15.0)
  {
    var b := PairBySymbol(Some([Some(10.0), None, Some(5.0)]), ["X", "Y", "Z"]);
    assert b == [TokenBalance(10.0, "X"), TokenBalance(0.0, "Y"), TokenBalance(5.0, "Z")];
  }

  /** Two bonded positions of the same token stay two entries; the total is 10. */
  lemma BondedExample()
    ensures var u := PositionUpdate(Some([PositionRecord(3.0, "A"), PositionRecord(7.0, "A")]));
      && u.tokenBalances == Some([TokenBalance(3.0, "A"), TokenBalance(7.0, "A")])
      && u.total == Some(10.0)
  {
    var b := ToTokenBalances([PositionRecord(3.0, "A"), PositionRecord(7.0, "A")]);
    assert b == [TokenBalance(3.0, "A"), TokenBalance(7.0, "A")];
  }
}
