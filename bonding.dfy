/**
 * The Bonding page's portfolio table: four rows, one per category, whose
 * `value` and `tokenBalances` the normalisers overwrite in place through
 * `setValues`, the effect that recomputes all four rows and publishes the
 * table, and the gate that chooses between the loader and the overview.
 */
module Bonding {
  import opened Options
  import opened TokenBalances
  import opened Normalizers
  import SymbolSet

  datatype TokenType = Liquid | Bonded | Unbonding | Withdrawable

  datatype ActionType = Buy | Bond | Unbond | Withdraw

  /** One row of the `data` table. `value` is `null` until a normaliser has run. */
  datatype BondingData = BondingData(
    tokenType: TokenType,
    value: Option<real>,
    tokenBalances: seq<TokenBalance>,
    color: string,
    displayLabel: string,
    actionType: ActionType)

  /** The table as the page declares it, before any normaliser has run. */
  function InitialData(): (r: seq<BondingData>)
    ensures |r| == 4
    ensures r[0].tokenType == Liquid && r[1].tokenType == Bonded
    ensures r[2].tokenType == Unbonding && r[3].tokenType == Withdrawable
    ensures forall i :: 0 <= i < 4 ==> r[i].value.None? && r[i].tokenBalances == []
  {
    [ BondingData(Liquid, None, [], "#244228", "Liquid", Buy),
      BondingData(Bonded, None, [], "#7CFB7D", "Bonded", Bond),
      BondingData(Unbonding, None, [], "#3273F6", "Unbonding", Unbond),
      BondingData(Withdrawable, None, [], "#173E84", "Withdrawable", Withdraw) ]
  }

  /** The declared table holds the four categories at positions 0 to 3. */
  lemma InitialDataIndices()
    ensures IndexOf(InitialData(), Liquid) == Some(0)
    ensures IndexOf(InitialData(), Bonded) == Some(1)
    ensures IndexOf(InitialData(), Unbonding) == Some(2)
    ensures IndexOf(InitialData(), Withdrawable) == Some(3)
    ensures HasAllCategories(InitialData())
  {
  }

  /** `data.find((e) => e.tokenType === t)`, as an index: the first row of type `t`, if any. */
  function IndexOf(rows: seq<BondingData>, t: TokenType): (r: Option<nat>)
    ensures r.None? <==> forall j :: 0 <= j < |rows| ==> rows[j].tokenType != t
    ensures r.Some? ==>
      && r.value < |rows| && rows[r.value].tokenType == t
      && (forall j :: 0 <= j < r.value ==> rows[j].tokenType != t)
  {
    if rows == [] then None
    else if rows[0].tokenType == t then Some(0)
    else
      match IndexOf(rows[1..], t)
      case None => None
      case Some(k) => Some(k + 1)
  }

  /** Where a row is found depends only on the row types. */
  lemma IndexOfDependsOnTypes(a: seq<BondingData>, b: seq<BondingData>, t: TokenType)
    requires |a| == |b|
    requires forall j :: 0 <= j < |a| ==> a[j].tokenType == b[j].tokenType
    ensures IndexOf(a, t) == IndexOf(b, t)
  {
  }

  predicate HasAllCategories(rows: seq<BondingData>) {
    forall t :: IndexOf(rows, t).Some?
  }

  /** Two rows agree on everything `setValues` never writes. */
  predicate SameStatic(x: BondingData, y: BondingData) {
    x.tokenType == y.tokenType && x.color == y.color && x.displayLabel == y.displayLabel && x.actionType == y.actionType
  }

  /** A row is settled when its value is defined and is the sum of its breakdown. */
  predicate Settled(row: BondingData) {
    row.value == Some(Sum(row.tokenBalances))
  }

  /** `row.value = value ?? 0; row.tokenBalances = tokenBalances ?? []`. */
  function Apply(row: BondingData, u: Update): (r: BondingData)
    ensures SameStatic(r, row)
    ensures r.value == Some(u.total.GetOr(0.0))
    ensures Consistent(u) ==> Settled(r)
    ensures u.tokenBalances.None? ==> r.tokenBalances == []
    ensures u.tokenBalances.Some? ==> r.tokenBalances == u.tokenBalances.value
  {
    row.(value := Some(u.total.GetOr(0.0)), tokenBalances := u.tokenBalances.GetOr([]))
  }

  /**
   * The table after `setValues(t, u.total, u.tokenBalances)`: the first row of
   * type `t` receives the update and every other row is left as it was.
   */
  function Assign(rows: seq<BondingData>, t: TokenType, u: Update): (r: seq<BondingData>)
    requires IndexOf(rows, t).Some?
    ensures |r| == |rows|
    ensures forall j :: 0 <= j < |rows| ==> SameStatic(r[j], rows[j])
    ensures forall j :: 0 <= j < |rows| && j != IndexOf(rows, t).value ==> r[j] == rows[j]
    ensures r[IndexOf(rows, t).value] == Apply(rows[IndexOf(rows, t).value], u)
  {
    var k := IndexOf(rows, t).value;
    rows[k := Apply(rows[k], u)]
  }

  /** Assigning a row leaves every category where `find` located it before. */
  lemma AssignKeepsIndices(rows: seq<BondingData>, t: TokenType, u: Update, t': TokenType)
    requires IndexOf(rows, t).Some?
    ensures IndexOf(Assign(rows, t, u), t') == IndexOf(rows, t')
  {
  }

  /** The outputs of the data hooks that the effect reads. */
  datatype HookResults = HookResults(
    myBondedAssets: Option<seq<BondedData>>,
    liquidBalances: Option<seq<Option<real>>>,
    symbols: seq<string>,
    unbondingRequests: Option<seq<UnbondingData>>,
    withdrawableInfos: Option<seq<WithdrawableInfo>>)

  /** The update the effect computes for one category. */
  function UpdateFor(h: HookResults, t: TokenType): (u: Update)
    ensures Consistent(u)
  {
    match t
    case Liquid => LiquidUpdate(h.liquidBalances, Some(h.symbols))
    case Bonded => PositionUpdate(h.myBondedAssets)
    case Unbonding => PositionUpdate(h.unbondingRequests)
    case Withdrawable => PositionUpdate(h.withdrawableInfos)
  }

  /** The table after the effect's four normaliser calls, in the effect's order. */
  function Recomputed(rows: seq<BondingData>, h: HookResults): (r: seq<BondingData>)
    requires HasAllCategories(rows)
    ensures |r| == |rows|
    ensures forall j :: 0 <= j < |rows| ==> SameStatic(r[j], rows[j])
  {
    var r1 := Assign(rows, Bonded, UpdateFor(h, Bonded));
    AssignKeepsIndices(rows, Bonded, UpdateFor(h, Bonded), Liquid);
    var r2 := Assign(r1, Liquid, UpdateFor(h, Liquid));
    AssignKeepsIndices(rows, Bonded, UpdateFor(h, Bonded), Unbonding);
    AssignKeepsIndices(r1, Liquid, UpdateFor(h, Liquid), Unbonding);
    var r3 := Assign(r2, Unbonding, UpdateFor(h, Unbonding));
    AssignKeepsIndices(rows, Bonded, UpdateFor(h, Bonded), Withdrawable);
    AssignKeepsIndices(r1, Liquid, UpdateFor(h, Liquid), Withdrawable);
    AssignKeepsIndices(r2, Unbonding, UpdateFor(h, Unbonding), Withdrawable);
    Assign(r3, Withdrawable, UpdateFor(h, Withdrawable))
  }

  /**
   * After the effect, the row of each category holds exactly that category's
   * normalised update, whatever the other three categories' inputs were.
   */
  lemma RecomputedRow(rows: seq<BondingData>, h: HookResults, t: TokenType)
    requires HasAllCategories(rows)
    ensures Recomputed(rows, h)[IndexOf(rows, t).value] == Apply(rows[IndexOf(rows, t).value], UpdateFor(h, t))
  {
    var k := IndexOf(rows, t).value;
    var ub, ul, uu, uw := UpdateFor(h, Bonded), UpdateFor(h, Liquid), UpdateFor(h, Unbonding), UpdateFor(h, Withdrawable);
    var r1 := Assign(rows, Bonded, ub);
    AssignKeepsIndices(rows, Bonded, ub, t);
    AssignKeepsIndices(rows, Bonded, ub, Liquid);
    var r2 := Assign(r1, Liquid, ul);
    AssignKeepsIndices(r1, Liquid, ul, t);
    AssignKeepsIndices(rows, Bonded, ub, Unbonding);
    AssignKeepsIndices(r1, Liquid, ul, Unbonding);
    var r3 := Assign(r2, Unbonding, uu);
    AssignKeepsIndices(r2, Unbonding, uu, t);
    AssignKeepsIndices(rows, Bonded, ub, Withdrawable);
    AssignKeepsIndices(r1, Liquid, ul, Withdrawable);
    AssignKeepsIndices(r2, Unbonding, uu, Withdrawable);
    var r4 := Assign(r3, Withdrawable, uw);
    assert Recomputed(rows, h) == r4;
    // `find` lands on row k for t only: rows of other types sit elsewhere
    assert rows[k].tokenType == t;
    assert r1[k] == if t == Bonded then Apply(rows[k], ub) else rows[k];
    assert r2[k] == if t == Liquid then Apply(r1[k], ul) else r1[k];
    assert r3[k] == if t == Unbonding then Apply(r2[k], uu) else r2[k];
    assert r4[k] == if t == Withdrawable then Apply(r3[k], uw) else r3[k];
  }

  /**
   * Every category row is settled after the effect, rows that are not
   * category rows are untouched, and no row's static metadata changes.
   */
  lemma RecomputeSettles(rows: seq<BondingData>, h: HookResults)
    requires HasAllCategories(rows)
    ensures forall t :: Settled(Recomputed(rows, h)[IndexOf(rows, t).value])
    ensures forall t :: UpdateFor(h, t).tokenBalances.None? ==>
      Recomputed(rows, h)[IndexOf(rows, t).value].value == Some(0.0) &&
      Recomputed(rows, h)[IndexOf(rows, t).value].tokenBalances == []
  {
    forall t
      ensures Settled(Recomputed(rows, h)[IndexOf(rows, t).value])
      ensures UpdateFor(h, t).tokenBalances.None? ==>
        Recomputed(rows, h)[IndexOf(rows, t).value].value == Some(0.0) &&
        Recomputed(rows, h)[IndexOf(rows, t).value].tokenBalances == []
    {
      RecomputedRow(rows, h, t);
    }
  }

  /** Changing one category's input changes no other category's row. */
  lemma CategoriesIndependent(rows: seq<BondingData>, h1: HookResults, h2: HookResults, t: TokenType)
    requires HasAllCategories(rows)
    requires UpdateFor(h1, t) == UpdateFor(h2, t)
    ensures Recomputed(rows, h1)[IndexOf(rows, t).value] == Recomputed(rows, h2)[IndexOf(rows, t).value]
  {
    RecomputedRow(rows, h1, t);
    RecomputedRow(rows, h2, t);
  }

  /** The snapshot the effect publishes from a freshly declared table. */
  function Snapshot(h: HookResults): (r: seq<BondingData>)
    ensures |r| == 4
  {
    InitialDataIndices();
    Recomputed(InitialData(), h)
  }

  /**
   * A published snapshot has the four categories in the order liquid, bonded,
   * unbonding, withdrawable, keeps each row's color, label and action, and
   * every row's value is defined and equals the sum of its breakdown.
   */
  lemma SnapshotShape(h: HookResults)
    ensures var s := Snapshot(h);
      && s[0].tokenType == Liquid && s[1].tokenType == Bonded
      && s[2].tokenType == Unbonding && s[3].tokenType == Withdrawable
      && (forall i :: 0 <= i < 4 ==> SameStatic(s[i], InitialData()[i]) && Settled(s[i]))
      && (forall i :: 0 <= i < 4 ==> s[i] == Apply(InitialData()[i], UpdateFor(h, s[i].tokenType)))
  {
  }

  /**
   * When the hooks were given the page's `symbols` memo, the published liquid
   * row lists each derived symbol once, in the derived order, and lists the
   * protocol token.
   */
  lemma LiquidRowListsSymbols(config: Option<SymbolSet.Config>, h: HookResults)
    requires h.symbols == SymbolSet.Symbols(config)
    ensures var row := Snapshot(h)[0];
      && row.tokenType == Liquid
      && |row.tokenBalances| == |h.symbols|
      && (forall i :: 0 <= i < |h.symbols| ==> row.tokenBalances[i].tokenSymbol == h.symbols[i])
      && (forall i, j :: 0 <= i < j < |row.tokenBalances| ==>
            row.tokenBalances[i].tokenSymbol != row.tokenBalances[j].tokenSymbol)
      && (exists i :: 0 <= i < |row.tokenBalances| && row.tokenBalances[i].tokenSymbol == SymbolSet.WHALE_TOKEN_SYMBOL)
  {
    InitialDataIndices();
    RecomputedRow(InitialData(), h, Liquid);
    var b := Snapshot(h)[0].tokenBalances;
    assert b == PairBySymbol(h.liquidBalances, h.symbols);
    assert SymbolSet.NoDuplicates(h.symbols);
    var w :| 0 <= w < |h.symbols| && h.symbols[w] == SymbolSet.WHALE_TOKEN_SYMBOL;
    assert b[w].tokenSymbol == SymbolSet.WHALE_TOKEN_SYMBOL;
  }

  /** `data.find(...)`: a linear search for the first row of type `t`. */
  method Find(data: array<BondingData>, t: TokenType) returns (r: Option<nat>)
    ensures r == IndexOf(data[..], t)
  {
    var i := 0;
    while i < data.Length
      invariant 0 <= i <= data.Length
      invariant forall j :: 0 <= j < i ==> data[j].tokenType != t
    {
      if data[i].tokenType == t {
        return Some(i);
      }
      i := i + 1;
    }
    return None;
  }

  /**
   * `setValues`: overwrites the `value` and `tokenBalances` of the first row
   * of type `t` in place, defaulting to 0 and `[]`. The page's table always
   * holds such a row; without one the page would fail reading `undefined`.
   */
  method SetValues(data: array<BondingData>, t: TokenType, value: Option<real>, tokenBalances: Option<seq<TokenBalance>>)
    requires IndexOf(data[..], t).Some?
    modifies data
    ensures data[..] == Assign(old(data[..]), t, Update(value, tokenBalances))
  {
    var found := Find(data, t);
    var i := found.value;
    data[i] := data[i].(value := Some(value.GetOr(0.0)), tokenBalances := tokenBalances.GetOr([]));
  }

  method SetBondedTokens(data: array<BondingData>, bondedAssets: Option<seq<BondedData>>)
    requires IndexOf(data[..], Bonded).Some?
    modifies data
    ensures data[..] == Assign(old(data[..]), Bonded, PositionUpdate(bondedAssets))
  {
    var u := PositionUpdate(bondedAssets);
    SetValues(data, Bonded, u.total, u.tokenBalances);
  }

  method SetLiquidTokens(data: array<BondingData>, liquidBalances: Option<seq<Option<real>>>, symbols: Option<seq<string>>)
    requires IndexOf(data[..], Liquid).Some?
    modifies data
    ensures data[..] == Assign(old(data[..]), Liquid, LiquidUpdate(liquidBalances, symbols))
  {
    var u := LiquidUpdate(liquidBalances, symbols);
    SetValues(data, Liquid, u.total, u.tokenBalances);
  }

  method SetUnbondingTokens(data: array<BondingData>, unbondingRequests: Option<seq<UnbondingData>>)
    requires IndexOf(data[..], Unbonding).Some?
    modifies data
    ensures data[..] == Assign(old(data[..]), Unbonding, PositionUpdate(unbondingRequests))
  {
    var u := PositionUpdate(unbondingRequests);
    SetValues(data, Unbonding, u.total, u.tokenBalances);
  }

  method SetWithdrawableTokens(data: array<BondingData>, withdrawableInfos: Option<seq<WithdrawableInfo>>)
    requires IndexOf(data[..], Withdrawable).Some?
    modifies data
    ensures data[..] == Assign(old(data[..]), Withdrawable, PositionUpdate(withdrawableInfos))
  {
    var u := PositionUpdate(withdrawableInfos);
    SetValues(data, Withdrawable, u.total, u.tokenBalances);
  }

  /** The effect body without its final `setData`: the four normalisers in order. */
  method Recompute(data: array<BondingData>, h: HookResults)
    requires HasAllCategories(data[..])
    modifies data
    ensures data[..] == Recomputed(old(data[..]), h)
  {
    ghost var rows := data[..];
    SetBondedTokens(data, h.myBondedAssets);
    AssignKeepsIndices(rows, Bonded, UpdateFor(h, Bonded), Liquid);
    AssignKeepsIndices(rows, Bonded, UpdateFor(h, Bonded), Unbonding);
    AssignKeepsIndices(rows, Bonded, UpdateFor(h, Bonded), Withdrawable);
    ghost var r1 := data[..];
    SetLiquidTokens(data, h.liquidBalances, Some(h.symbols));
    AssignKeepsIndices(r1, Liquid, UpdateFor(h, Liquid), Unbonding);
    AssignKeepsIndices(r1, Liquid, UpdateFor(h, Liquid), Withdrawable);
    ghost var r2 := data[..];
    SetUnbondingTokens(data, h.unbondingRequests);
    AssignKeepsIndices(r2, Unbonding, UpdateFor(h, Unbonding), Withdrawable);
    SetWithdrawableTokens(data, h.withdrawableInfos);
  }

  /**
   * One render followed by its effect: declare a fresh table, recompute it and
   * publish it (`setData(data)`).
   */
  method Refresh(h: HookResults) returns (published: array<BondingData>)
    ensures fresh(published)
    ensures published[..] == Snapshot(h)
  {
    var d := InitialData();
    published := new BondingData[4](i requires 0 <= i < 4 => d[i]);
    assert published[..] == d;
    InitialDataIndices();
    Recompute(published, h);
  }

  /** What the page renders: the loader, or the overview of the published table. */
  datatype Screen = Loader | Overview(data: Option<seq<BondingData>>)

  /**
   * The gate: the loader exactly while loading with a wallet connected,
   * otherwise the overview of the last published table (none before the first
   * effect has run).
   */
  function Render(isLoading: bool, isWalletConnected: bool, updatedData: Option<seq<BondingData>>): (s: Screen)
    ensures s.Loader? <==> isLoading && isWalletConnected
    ensures s.Overview? ==> s.data == updatedData
  {
    if isLoading && isWalletConnected then Loader else Overview(updatedData)
  }
}
