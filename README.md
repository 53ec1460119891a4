# Bonding page portfolio aggregation, in Dafny

This project models the aggregation logic of the Bonding page of the White Whale
frontend (`components/Pages/Bonding/Bonding.tsx`). The page keeps a four-row table
(`data`), one row per portfolio category: liquid, bonded, unbonding, withdrawable.
Four normalisers turn the raw results of the data hooks into a per-token breakdown
(`tokenBalances`) and a total (`value`) for their category. Each writes its
result into its row in place through `setValues`. An effect runs the four
normalisers and publishes the table. A gate shows a loader while data is loading
and a wallet is connected. The page also derives the symbols whose liquid
balances it looks up: the configured bonding tokens plus `WHALE_TOKEN_SYMBOL`,
deduplicated.

Modules:

- `Options` (`options.dfy`): JavaScript's `null`/`undefined` and the `??` default.
- `TokenBalances` (`token_balances.dfy`): the breakdown entry and the total. The
  source's `reduce` is a left fold (`Reduce`). It is proved equal to a reference sum
  (`Sum`) plus the accumulator.
- `Normalizers` (`normalizers.dfy`): the pure part of the four `set*Tokens`
  functions. This is the `?.map` and the `?.reduce` that produce the arguments
  passed to `setValues`.
- `SymbolSet` (`symbol_set.dfy`): the `symbols` memo. `Array.from(new Set(...))`
  becomes `Dedup`, a fold that keeps first occurrences.
- `Bonding` (`bonding.dfy`): the table as an `array<BondingData>`. `Find`
  searches it without changing it. `SetValues`, the four `Set*Tokens` and
  `Recompute` update it in place. `Refresh` allocates a fresh table and
  recomputes it. Beside them are their specification functions (`IndexOf`,
  `Assign`, `Recomputed`, `Snapshot`), the lemmas about them, and the gate
  (`Render`).

Amounts are JavaScript numbers. They are modelled as exact `real`s.

Behaviour of the page that the model keeps as it is:

- The page has no Disconnected or Ready state. It has only the
  `isLoading && isWalletConnected` gate.
- A source that failed and a source that has not resolved look the same: both
  are `null`, and both give `0` and `[]`. No record is skipped: every record
  becomes one breakdown entry.
- `WHALE_TOKEN_SYMBOL` is appended after the configured symbols. If the
  configuration already lists it, it keeps its configured position
  (`SymbolSet.SymbolsWhalePosition`).

## Model

| member | source | states |
|---|---|---|
| `Options.Option.GetOr` | components/Pages/Bonding/Bonding.tsx:69-70 | `x ?? fallback`: the value when present, the fallback when null or undefined |
| `TokenBalances.Reduce` | components/Pages/Bonding/Bonding.tsx:75 | `reduce((acc, e) => acc + e.amount, acc)`, a left fold from any accumulator, equals that accumulator plus the independently defined right-fold sum of the amounts |
| `TokenBalances.Total` | components/Pages/Bonding/Bonding.tsx:75 | the total each normaliser computes (`reduce` from 0) is the sum of the breakdown's amounts; an empty breakdown gives 0 |
| `TokenBalances.SumBoundsEntries` | components/Pages/Bonding/Bonding.tsx:75 | with non-negative amounts the total is non-negative and no entry exceeds it |
| `Normalizers.ToTokenBalances` | components/Pages/Bonding/Bonding.tsx:73-74 | the record-to-entry `map` is 1:1: same length, entry i keeps record i's amount and symbol, repeated symbols are not merged |
| `Normalizers.PositionUpdate` | components/Pages/Bonding/Bonding.tsx:73-75 | the bonded normaliser, whose body the unbonding (93-95) and withdrawable (104-106) normalisers repeat: a null source gives undefined total and breakdown; otherwise the breakdown is the 1:1 map and the total is its sum |
| `Normalizers.BalanceAt` | components/Pages/Bonding/Bonding.tsx:83 | `liquidBalances?.[idx] ?? 0`: the balance when the array exists and holds a non-null entry at `idx`, otherwise 0 |
| `Normalizers.PairBySymbol` | components/Pages/Bonding/Bonding.tsx:82-85 | liquid breakdown pairs by position: one entry per symbol in symbol order, entry i has symbol i and balance i, or 0 when the balance is null, missing or the array is null |
| `Normalizers.LiquidUpdate` | components/Pages/Bonding/Bonding.tsx:80-86 | liquid normaliser: null symbols give undefined total and breakdown; otherwise the positional pairing and its sum |
| `Normalizers.LiquidWithoutBalances` | components/Pages/Bonding/Bonding.tsx:83 | with no balances array the liquid breakdown still lists every symbol, each with amount 0, and the total is 0 |
| `Normalizers.LiquidExample` | components/Pages/Bonding/Bonding.tsx:82-86 | balances `[10, null, 5]` for symbols `[X, Y, Z]` give `[{X,10},{Y,0},{Z,5}]` with total 15 |
| `Normalizers.BondedExample` | components/Pages/Bonding/Bonding.tsx:72-75 | two bonded positions of one token stay two entries, total 10 |
| `SymbolSet.ConfiguredSymbols` | components/Pages/Bonding/Bonding.tsx:118 | an absent config or absent `bonding_tokens` gives `[]`; otherwise the token symbols in configured order |
| `SymbolSet.FirstIndex` | components/Pages/Bonding/Bonding.tsx:119 | the position of an element's first occurrence, which `Set` insertion order follows |
| `SymbolSet.Dedup` | components/Pages/Bonding/Bonding.tsx:119 | `Array.from(new Set(s))` has no duplicates and has exactly the elements of `s` |
| `SymbolSet.DedupKeepsFirstOccurrenceOrder` | components/Pages/Bonding/Bonding.tsx:119 | the deduplicated elements appear in the order of their first occurrence in the input |
| `SymbolSet.Symbols` | components/Pages/Bonding/Bonding.tsx:117-120 | derived symbols have no duplicates, hold `WHALE_TOKEN_SYMBOL` exactly once, are exactly the configured symbols plus it, and an absent config or absent `bonding_tokens` gives `[WHALE_TOKEN_SYMBOL]` |
| `SymbolSet.SymbolsWhalePosition` | components/Pages/Bonding/Bonding.tsx:119 | the protocol symbol comes last unless configured, when it keeps its configured place |
| `SymbolSet.SymbolsExample` | components/Pages/Bonding/Bonding.tsx:117-120 | configured `[a, WHALE, a]`, for any symbol `a` other than the protocol token, resolves to `[a, WHALE]` |
| `Bonding.InitialData` | components/Pages/Bonding/Bonding.tsx:25-58 | the declared table has four rows, liquid, bonded, unbonding, withdrawable, each with a null value and an empty breakdown |
| `Bonding.InitialDataIndices` | components/Pages/Bonding/Bonding.tsx:25-58 | the declared table holds liquid, bonded, unbonding, withdrawable at positions 0 to 3 |
| `Bonding.IndexOf` | components/Pages/Bonding/Bonding.tsx:68 | `find` by token type: the first row of that type, or none exactly when no row has it |
| `Bonding.IndexOfDependsOnTypes` | components/Pages/Bonding/Bonding.tsx:68 | where `find` lands depends only on the row types, not on values or breakdowns |
| `Bonding.LiquidRowListsSymbols` | components/Pages/Bonding/Bonding.tsx:117-145 | when the hooks get the `symbols` memo, the published liquid row lists each derived symbol once, in the derived order, including `WHALE_TOKEN_SYMBOL` |
| `Bonding.Find` | components/Pages/Bonding/Bonding.tsx:68 | the linear search returns exactly the first row of the requested type, or none |
| `Bonding.Apply` | components/Pages/Bonding/Bonding.tsx:69-70 | writing a row keeps its type, color, label and action; the value becomes `value ?? 0`; a missing breakdown becomes `[]`; a consistent update leaves the row's value defined and equal to its breakdown sum |
| `Bonding.Assign` | components/Pages/Bonding/Bonding.tsx:68-70 | `setValues` as a value: only the found row changes, all other rows are equal to before, no row's static fields change |
| `Bonding.AssignKeepsIndices` | components/Pages/Bonding/Bonding.tsx:68-70 | after a `setValues` every category is still found at the same row |
| `Bonding.SetValues` | components/Pages/Bonding/Bonding.tsx:63-71 | overwrites in place exactly the row `find` locates, with `value ?? 0` and `tokenBalances ?? []` |
| `Bonding.SetBondedTokens` | components/Pages/Bonding/Bonding.tsx:72-79 | writes the bonded normaliser's result into the bonded row, in place |
| `Bonding.SetLiquidTokens` | components/Pages/Bonding/Bonding.tsx:80-90 | writes the liquid normaliser's result into the liquid row, in place |
| `Bonding.SetUnbondingTokens` | components/Pages/Bonding/Bonding.tsx:92-100 | writes the unbonding normaliser's result into the unbonding row, in place |
| `Bonding.SetWithdrawableTokens` | components/Pages/Bonding/Bonding.tsx:103-111 | writes the withdrawable normaliser's result into the withdrawable row, in place |
| `Bonding.UpdateFor` | components/Pages/Bonding/Bonding.tsx:144-147 | the update the effect computes for each category is consistent: total and breakdown are both undefined, or the total is the breakdown's sum |
| `Bonding.Recomputed` | components/Pages/Bonding/Bonding.tsx:143-147 | the four normaliser calls keep the table's length and every row's static fields |
| `Bonding.RecomputedRow` | components/Pages/Bonding/Bonding.tsx:143-147 | after the effect each category's row holds exactly its own normaliser's result |
| `Bonding.RecomputeSettles` | components/Pages/Bonding/Bonding.tsx:143-147 | after the effect every category's value is defined and equals the sum of its breakdown; a null source leaves value 0 and breakdown `[]` |
| `Bonding.CategoriesIndependent` | components/Pages/Bonding/Bonding.tsx:143-147 | a category's row depends on its own input only |
| `Bonding.Recompute` | components/Pages/Bonding/Bonding.tsx:143-147 | the effect body updates the table in place to the recomputed table |
| `Bonding.Snapshot` | components/Pages/Bonding/Bonding.tsx:143-148 | a published table always has four rows |
| `Bonding.SnapshotShape` | components/Pages/Bonding/Bonding.tsx:25-58 | a published table is liquid, bonded, unbonding, withdrawable in that order, keeps each row's color, label and action, and every value is defined and is the sum of its breakdown |
| `Bonding.Refresh` | components/Pages/Bonding/Bonding.tsx:148 | a render and its effect publish a freshly allocated table equal to the snapshot of the current inputs |
| `Bonding.Render` | components/Pages/Bonding/Bonding.tsx:159 | the loader is shown if and only if loading with a wallet connected; otherwise the overview gets the last published table |

## Left out

- Rendering and layout: the JSX, `useMediaQuery`, the Chakra components and the static bullet text. Only the gate condition is modelled.
- The data and wallet hooks (`useChain`, `useRecoilValue(chainState)`, `useConfig`, `useMultipleTokenBalance`, `useDashboardData`, `useWhalePrice`). Their results are plain inputs (`HookResults`, `Config`), and each may be null.
- Effect scheduling (the dependency list) and `useState`. `Refresh` is one render followed by its effect. Publishing with `setData` is returning the array.
- The rewards data handed to `RewardsComponent` and the price. They are passed through and never computed here.
- Floating point: sums are exact. A record whose `amount` is missing would make a JavaScript total `NaN`; records always carry an amount and a symbol here.
- The record types from the bonding hooks are reduced to the two fields the page reads (`amount`, `tokenSymbol`). The hook files are not part of this model.
- `constants/index` is not part of this model. `SymbolSet.WHALE_TOKEN_SYMBOL` stands in with the value "WHALE", and no property depends on that value.
- `TokenType` and `ActionType` come from `BondingOverview`, which is not part of this model. Only the four members the table uses are declared.
- Bonding.SetValues: requires that the table holds a row of the requested type. The page's table always does. Without one, the source would throw on `undefined`, and that failure is not modelled.
- Rows are JavaScript objects that `setValues` mutates through the reference `find` returns. Here they are values in an array, and the mutation replaces the array element. Aliasing of a row object outside the table is not captured.
