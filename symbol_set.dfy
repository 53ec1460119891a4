/**
 * The symbols whose liquid balances the Bonding page looks up: the configured
 * bonding tokens plus the protocol's own token, deduplicated by a JavaScript
 * `Set`, which keeps the order in which elements were first inserted.
 */
module SymbolSet {
  import opened Options

  /** `WHALE_TOKEN_SYMBOL`, the protocol's primary token. */
  const WHALE_TOKEN_SYMBOL: string := "WHALE"

  datatype BondingToken = BondingToken(symbol: string)

  /** The part of the chain configuration the page reads: `bonding_tokens`. */
  datatype Config = Config(bondingTokens: Option<seq<BondingToken>>)

  predicate NoDuplicates(s: seq<string>) {
    forall i, j :: 0 <= i < j < |s| ==> s[i] != s[j]
  }

  /** The position at which `x` first occurs in `s`. */
  function FirstIndex(s: seq<string>, x: string): (k: nat)
    requires x in s
    ensures k < |s| && s[k] == x && x !in s[..k]
  {
    if s[0] == x then 0
    else
      assert s == [s[0]] + s[1..];
      var k := FirstIndex(s[1..], x) + 1;
      assert s[..k] == [s[0]] + s[1..][..k - 1];
      k
  }

  /** The first-occurrence index is determined by its postcondition. */
  lemma FirstIndexUnique(s: seq<string>, x: string, k: nat)
    requires k < |s| && s[k] == x && x !in s[..k]
    ensures FirstIndex(s, x) == k
  {
  }

  /** `Array.from(new Set(s))`: elements in order of first insertion, repeats dropped. */
  function Dedup(s: seq<string>): (r: seq<string>)
    ensures NoDuplicates(r)
    ensures forall x :: x in r <==> x in s
  {
    if s == [] then []
    else
      var n := |s| - 1;
      var d := Dedup(s[..n]);
      assert s == s[..n] + [s[n]];
      if s[n] in d then d else d + [s[n]]
  }

  /** Deduplication keeps the order of first occurrence in the input. */
  lemma {:induction false} DedupKeepsFirstOccurrenceOrder(s: seq<string>)
    ensures forall i, j :: 0 <= i < j < |Dedup(s)| ==>
      FirstIndex(s, Dedup(s)[i]) < FirstIndex(s, Dedup(s)[j])
  {
    if s != [] {
      var n := |s| - 1;
      var p, x := s[..n], s[n];
      var d := Dedup(p);
      assert s == p + [x];
      DedupKeepsFirstOccurrenceOrder(p);
      forall y | y in p
        ensures FirstIndex(s, y) == FirstIndex(p, y)
      {
        var k := FirstIndex(p, y);
        assert s[..k] == p[..k];
        FirstIndexUnique(s, y, k);
      }
      if x !in d {
        assert s[..n] == p;
        FirstIndexUnique(s, x, n);
        assert Dedup(s) == d + [x];
        forall i, j | 0 <= i < j < |Dedup(s)|
          ensures FirstIndex(s, Dedup(s)[i]) < FirstIndex(s, Dedup(s)[j])
        {
          assert Dedup(s)[i] == d[i] && d[i] in p;
          if j < |d| {
            assert Dedup(s)[j] == d[j] && d[j] in p;
          }
        }
      }
    }
  }

  /** `config?.bonding_tokens?.map((token) => token.symbol) || []`. */
  function ConfiguredSymbols(config: Option<Config>): (r: seq<string>)
    ensures (config.None? || config.value.bondingTokens.None?) ==> r == []
    ensures config.Some? && config.value.bondingTokens.Some? ==>
      |r| == |config.value.bondingTokens.value| &&
      forall i :: 0 <= i < |r| ==> r[i] == config.value.bondingTokens.value[i].symbol
  {
    match config
    case None => []
    case Some(c) =>
      match c.bondingTokens
      case None => []
      case Some(tokens) => seq(|tokens|, i requires 0 <= i < |tokens| => tokens[i].symbol)
  }

  /**
   * The `symbols` memo: the configured symbols and `WHALE_TOKEN_SYMBOL`, each
   * once; the protocol token is always present.
   */
  function Symbols(config: Option<Config>): (r: seq<string>)
    ensures NoDuplicates(r)
    ensures forall x :: x in r <==> x in ConfiguredSymbols(config) || x == WHALE_TOKEN_SYMBOL
    ensures multiset(r)[WHALE_TOKEN_SYMBOL] == 1
    ensures config.None? || config.value.bondingTokens.None? ==> r == [WHALE_TOKEN_SYMBOL]
  {
    var r := Dedup(ConfiguredSymbols(config) + [WHALE_TOKEN_SYMBOL]);
    OccursOnce(r, WHALE_TOKEN_SYMBOL);
    assert config.None? || config.value.bondingTokens.None? ==>
      ConfiguredSymbols(config) + [WHALE_TOKEN_SYMBOL] == [WHALE_TOKEN_SYMBOL] && [WHALE_TOKEN_SYMBOL][..0] == [] &&
      Dedup([]) == [] && Dedup([WHALE_TOKEN_SYMBOL]) == [WHALE_TOKEN_SYMBOL];
    r
  }

  /** A sequence without duplicates holds each of its elements exactly once. */
  lemma {:induction false} OccursOnce(s: seq<string>, x: string)
    requires NoDuplicates(s) && x in s
    ensures multiset(s)[x] == 1
  {
    assert s == [s[0]] + s[1..];
    if s[0] == x {
      assert x !in s[1..];
    } else {
      OccursOnce(s[1..], x);
    }
  }

  /**
   * The protocol token goes last unless the configuration already lists it, in
   * which case it keeps its configured position.
   */
  lemma SymbolsWhalePosition(config: Option<Config>)
    ensures var c := ConfiguredSymbols(config);
      Symbols(config) == if WHALE_TOKEN_SYMBOL in c then Dedup(c) else Dedup(c) + [WHALE_TOKEN_SYMBOL]
  {
  }

  /** Configured `[a, WHALE, a]`, for any other symbol `a`, resolves to `[a, WHALE]`. */
  lemma SymbolsExample(a: string)
    requires a != WHALE_TOKEN_SYMBOL
    ensures Symbols(Some(Config(Some([BondingToken(a), BondingToken(WHALE_TOKEN_SYMBOL), BondingToken(a)]))))
      == [a, WHALE_TOKEN_SYMBOL]
  {
    var config := Some(Config(Some([BondingToken(a), BondingToken(WHALE_TOKEN_SYMBOL), BondingToken(a)])));
    var c := [a, WHALE_TOKEN_SYMBOL, a];
    assert ConfiguredSymbols(config) == c;
    assert c[..1] == [a];
    assert c[..2] == [a, WHALE_TOKEN_SYMBOL];
    assert Dedup(c[..1][..0]) == [];
    assert Dedup(c[..1]) == [a];
    assert Dedup(c[..2]) == [a, WHALE_TOKEN_SYMBOL];
    assert Dedup(c) == [a, WHALE_TOKEN_SYMBOL];
    SymbolsWhalePosition(config);
  }
}
