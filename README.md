# Wallet dashboard view logic, modelled in Dafny

This project models the logic inside `PortfolioContent`, the component that renders the four tabs of the wallet dashboard: portfolio (tokens), NFTs, staking and transactions. Everything around it is markup and constant data. The model covers:

- **View state.** `PortfolioView.PortfolioContent` is a class with the component's three `useState` fields: `searchText`, `sortedInfo` and `filteredInfo`. Its methods are the commands that overwrite them: the search box's `onChange`, `handleChange` and `clearAll`. `activeTab` is a prop, not state. It only picks the renderer (`Render`, `TabOf`), so one state is shared by all four tabs.
- **Search.** The portfolio table gets the tokens whose lowered name or symbol includes the lowered search text. The NFT grid gets the NFTs whose lowered name or collection includes it. The staking and transaction tables always get their whole record sets, whatever the search text is (`Search`, `PortfolioView.TabRows`). `Array.prototype.filter` is `Seqs.Filter`. `toLowerCase` and `includes` are `Text.Lower` and `Text.Includes`.
- **Column filters.** These are the `onFilter` predicates: the sign of the 24h change, the APY bands, and transaction type and status equality. Each one comes with the filter values its column offers (`ColumnFilters`).
- **Sorters.** The numeric comparators `key(a) - key(b)` are read as comparison results, with dates compared by their millisecond value (`Sorters`).
- **The collection selector's options.** These are `[...new Set(nfts.map(n => n.collection))]`, the distinct collections in insertion order, each as a `{ label, value }` pair (`Seqs.InsertionOrder`, `Search.Collections`, `Search.CollectionOptions`).

The record shapes come from the interfaces in `src/data/data.ts` (`Records`). Every `number` field is `real`, including the transaction's block number. Dates are integer milliseconds.

Facts about the code that the model keeps:

- One search text, sort object and filter object are shared by all tabs. Text typed on one tab also filters the other tab that searches. Nothing is kept per tab.
- The staking and transaction search boxes store the text but filter nothing.
- `sortedInfo` and `filteredInfo` are written by `handleChange` and `clearAll` but never read. The table keeps its own sort and filter selection. So `clearAll` resets the stored objects and the search text, not the sort or filters the table shows.
- The "Filter by Collection" selector has no `onChange`. Only its option list is modelled.
- The type filter offers only send, receive and swap. Stake, unstake and approve transactions pass none of the offered values (`ColumnFilters.TypeFilterCoverage`).

## Model

| member | source | states |
|---|---|---|
| Records.TxTypeNameInjective | src/data/data.ts:37 | the six transaction type strings are pairwise distinct |
| Records.TxTypeName | src/data/data.ts:37 | each transaction type stands for its string in the union |
| Records.TxStatusName | src/data/data.ts:41 | each status stands for its string in the union |
| Records.TxStatusNameInjective | src/data/data.ts:41 | the three status strings are pairwise distinct |
| Seqs.Filter | src/pages/LandingPage.tsx:156-160 | `filter` yields an order-preserving subsequence; it holds exactly the accepted elements, each with its multiplicity; if every element is accepted, the result is the input |
| Seqs.FilterMonotone | src/pages/LandingPage.tsx:156-160 | a stricter predicate keeps a subsequence of what a looser one keeps |
| Seqs.InsertionOrder | src/pages/LandingPage.tsx:190 | the Set's iteration sequence has no duplicates and holds exactly the values of the input |
| Seqs.InsertionOrderFollowsFirstOccurrence | src/pages/LandingPage.tsx:190 | the values come in the order of their first occurrence in the input |
| Text.LowerChar | src/pages/LandingPage.tsx:158 | the result is never an upper-case letter; non-letters are unchanged; each capital maps to its own small letter |
| Text.Lower | src/pages/LandingPage.tsx:158-159 | lowering keeps the length and lowers each character in place |
| Text.LowerIdempotent | src/pages/LandingPage.tsx:158-159 | lowering twice is the same as lowering once |
| Text.Includes | src/pages/LandingPage.tsx:158-159 | `s.includes(sub)`: `s` starts with `sub`, or some suffix of `s` does |
| Text.IncludesIffOccurs | src/pages/LandingPage.tsx:158-159 | `includes` holds exactly when the substring occurs at some offset |
| Text.IncludesEmpty | src/pages/LandingPage.tsx:158-159 | every string includes the empty search text |
| Text.IncludesTransitive | src/pages/LandingPage.tsx:158-159 | a substring of a substring is a substring |
| Text.IncludesLower | src/pages/LandingPage.tsx:158-159 | lowering both sides keeps a substring a substring |
| Search.TokenMatches | src/pages/LandingPage.tsx:157-159 | a token matches when its lowered name or lowered symbol includes the lowered search text |
| Search.NftMatches | src/pages/LandingPage.tsx:204-206 | an NFT matches when its lowered name or lowered collection includes the lowered search text |
| Search.TokenSearch | src/pages/LandingPage.tsx:156-160 | the portfolio rows are an order-preserving subsequence of the tokens; a token is kept exactly when its lowered name or symbol includes the lowered search text, with its multiplicity; an empty search keeps every token |
| Search.NftSearch | src/pages/LandingPage.tsx:202-207 | the NFT cards are an order-preserving subsequence of the NFTs; an NFT is kept exactly when its lowered name or collection includes the lowered search text; an empty search keeps all NFTs |
| Search.TokenSearchNarrows | src/pages/LandingPage.tsx:156-160 | when the lowered new search text includes the lowered old one, the new rows are a subsequence of the old rows |
| Search.NftSearchNarrows | src/pages/LandingPage.tsx:202-207 | when the lowered new search text includes the lowered old one, the new cards are a subsequence of the old cards |
| Search.SearchIgnoresCase | src/pages/LandingPage.tsx:156-160 | searching for the lowered text gives the same tokens and NFTs as searching for the text |
| Search.CollectionNames | src/pages/LandingPage.tsx:190 | position k holds the collection of NFT k |
| Search.Collections | src/pages/LandingPage.tsx:189-190 | the collection list has no duplicates and holds exactly the collections that some NFT has |
| Search.CollectionsInFirstOccurrenceOrder | src/pages/LandingPage.tsx:190 | collections are listed in the order of the first NFT of each |
| Search.CollectionOptions | src/pages/LandingPage.tsx:189-194 | one option per distinct collection, in that order, with the label equal to the value |
| ColumnFilters.Change24hValues | src/pages/LandingPage.tsx:124-127 | the 24h-change column offers the values "positive" and "negative" |
| ColumnFilters.ApyValues | src/pages/LandingPage.tsx:312-316 | the APY column offers the values "high", "medium" and "low" |
| ColumnFilters.TypeValues | src/pages/LandingPage.tsx:393-397 | the type column offers the values "send", "receive" and "swap" |
| ColumnFilters.StatusValues | src/pages/LandingPage.tsx:449-453 | the status column offers the values "completed", "pending" and "failed" |
| ColumnFilters.Change24hFilter | src/pages/LandingPage.tsx:128-129 | the 24h-change `onFilter`: "positive" tests `change24h >= 0`, any other value tests `change24h < 0` |
| ColumnFilters.ApyFilter | src/pages/LandingPage.tsx:317-328 | the APY `onFilter` switch: the three bands, and `true` for any other value |
| ColumnFilters.TypeFilter | src/pages/LandingPage.tsx:398 | the type `onFilter`: the record's type string equals the selected value |
| ColumnFilters.StatusFilter | src/pages/LandingPage.tsx:454-455 | the status `onFilter`: the record's status string equals the selected value |
| ColumnFilters.Change24hFilterPartition | src/pages/LandingPage.tsx:124-129 | every token passes exactly one of the offered values "positive" and "negative" |
| ColumnFilters.ApyFilterPartition | src/pages/LandingPage.tsx:312-328 | every APY passes exactly one of the three offered bands |
| ColumnFilters.TypeFilterSelectsType | src/pages/LandingPage.tsx:398 | selecting a type's name keeps exactly the transactions of that type |
| ColumnFilters.TypeFilterCoverage | src/pages/LandingPage.tsx:393-398 | send, receive and swap transactions pass exactly one offered value; stake, unstake and approve pass none |
| ColumnFilters.StatusFilterSelectsStatus | src/pages/LandingPage.tsx:454-455 | selecting a status's name keeps exactly the transactions with that status |
| ColumnFilters.StatusFilterPartition | src/pages/LandingPage.tsx:449-455 | every transaction passes exactly one of the offered status values |
| Sorters.Difference | src/pages/LandingPage.tsx:104 | `x - y` is negative, zero or positive exactly when x is below, equal to or above y |
| Sorters.DifferenceAntisymmetric | src/pages/LandingPage.tsx:104 | swapping the operands negates the result |
| Sorters.TokenKey | src/pages/LandingPage.tsx:104-136 | the field each numeric token column sorts by: balance, price, change24h, volume24h |
| Sorters.StakeKey | src/pages/LandingPage.tsx:300-350 | the field each numeric staking column sorts by, the unlock date as its `getTime()` milliseconds |
| Sorters.TxKey | src/pages/LandingPage.tsx:415-430 | the field each numeric transaction column sorts by: amount for both "Amount" and "Value", the timestamp as its `getTime()` milliseconds |
| Sorters.TokenSorter | src/pages/LandingPage.tsx:104-136 | the balance, price, 24h change and volume sorters are negative exactly when a's key is smaller, and zero exactly when the keys are equal |
| Sorters.TokenSorterAntisymmetric | src/pages/LandingPage.tsx:104-136 | every token sorter is antisymmetric |
| Sorters.StakeSorter | src/pages/LandingPage.tsx:300-350 | the amount, APY, rewards, lock period and unlock date sorters order by their key; the unlock date sorter orders by `getTime()` |
| Sorters.StakeSorterAntisymmetric | src/pages/LandingPage.tsx:300-350 | every staking sorter is antisymmetric |
| Sorters.TxSorter | src/pages/LandingPage.tsx:415-430 | the amount, value and date sorters order by their key; the date sorter orders by `getTime()` |
| Sorters.TxSorterAntisymmetric | src/pages/LandingPage.tsx:415-430 | every transaction sorter is antisymmetric |
| Sorters.ValueSortsLikeAmount | src/pages/LandingPage.tsx:415-422 | the "Value" column orders exactly as the "Amount" column does |
| Sorters.LexCompare | src/pages/LandingPage.tsx:88 | the string comparison returns -1, 0 or 1 |
| Sorters.LexCompareAntisymmetric | src/pages/LandingPage.tsx:88 | swapping the strings negates the comparison |
| Sorters.LexCompareZeroIffEqual | src/pages/LandingPage.tsx:88 | the comparison is zero exactly for equal strings |
| Sorters.LexCompareTransitive | src/pages/LandingPage.tsx:88 | "sorts before" is transitive |
| Sorters.SymbolSorter | src/pages/LandingPage.tsx:88 | the asset sorter ties exactly on equal symbols and is antisymmetric |
| Sorters.ProtocolSorter | src/pages/LandingPage.tsx:290-291 | the protocol sorter ties exactly on equal protocols and is antisymmetric |
| PortfolioView.TabOf | src/pages/LandingPage.tsx:507-514 | a renderer exists exactly for the four keys of `contentMap` |
| PortfolioView.TabRows | src/pages/LandingPage.tsx:154-494 | the portfolio rows and NFT cards are order-preserving subsequences of the tokens and NFTs, holding each matching record with its full multiplicity and no other record; the NFT tab has the collection options; the staking and transaction tabs show their whole record sets |
| PortfolioView.EmptySearchShowsAll | src/pages/LandingPage.tsx:55 | under the initial empty search text every tab shows its whole record set |
| PortfolioView.SearchOnlyNarrowsTokensAndNfts | src/pages/LandingPage.tsx:367-494 | the search text never changes what the staking and transaction tabs show, or the collection options |
| PortfolioView.PortfolioContent.constructor | src/pages/LandingPage.tsx:55-57 | the state starts at `""`, `{}`, `{}` |
| PortfolioView.PortfolioContent.SetSearchText | src/pages/LandingPage.tsx:146 | the typed text becomes the search text, and the sorter and filters are unchanged |
| PortfolioView.PortfolioContent.HandleChange | src/pages/LandingPage.tsx:59-62 | the sorter and filters are replaced, and the search text is unchanged |
| PortfolioView.PortfolioContent.ClearAll | src/pages/LandingPage.tsx:64-68 | the state is `{}`, `{}`, `""` whatever it was before, so a second reset changes nothing |
| PortfolioView.PortfolioContent.Render | src/pages/LandingPage.tsx:507-514 | a known tab renders its rows under the one shared search text; for an unknown tab the call of `undefined` throws, modelled as None |
| PortfolioView.ResetAfterChanges | src/pages/LandingPage.tsx:64-68 | after any search and table change, one or two resets bring back the initial state and the full token list |

## Left out

- Rendering and the antd components (`Table`, `Card`, `Progress`, `Descriptions`, `Tag`, layout). These are presentation only.
- How the antd `Table` applies `onFilter` and `sorter`: its sort algorithm, its stability, and how it combines several filters. Its code is not part of this model. The predicates and comparators it is handed are modelled.
- `formatCurrency` (`Intl.NumberFormat`), `toFixed`, `toLocaleDateString` and `toLocaleString`. These are formatting library calls on floating point numbers.
- `window.open` and `navigator.clipboard.writeText` in the transaction actions. These are browser I/O.
- The "Value" column's display of `amount * 2`. It is a mock price and is display only. The model does include its sorter.
- The mock data in `src/data/data.ts`, `src/components/Card.tsx` and `src/App.tsx`. The first is fixture data; the other two are markup only. Only the interface shapes are kept.
- Sorters.SymbolSorter: `localeCompare` is approximated by plain code-point order of Dafny characters (Unicode scalar values). Locale collation is not modelled.
- Sorters.ProtocolSorter: `localeCompare` is approximated by plain code-point order of Dafny characters (Unicode scalar values). Locale collation is not modelled.
- Text.Lower: only ASCII letters are lowered. Full Unicode `toLowerCase`, which can change the length, is not modelled.
- Text.Includes: strings are sequences of Unicode scalar values, not of UTF-16 code units. So a lone surrogate, or a match that starts or ends inside a surrogate pair, is not modelled.
- Sorters.Difference: numbers are exact reals, so floating-point rounding, infinities and NaN are not modelled.
- ColumnFilters.Change24hFilterPartition: this holds only because numbers are exact reals. In the source, a NaN `change24h` fails both tests of line 129, so it passes neither "positive" nor "negative".
- ColumnFilters.ApyFilterPartition: this holds only because numbers are exact reals. In the source, a NaN `apy` fails every band of lines 320-324, so it passes none of the offered values.
- PortfolioView.TabOf: keys inherited from `Object.prototype` are treated as unknown tabs. These are `toString`, `hasOwnProperty`, `valueOf` and the like. In the source they resolve to callable functions on `contentMap`, so rendering them does not throw as an unknown key does. For example, "toString" renders "[object Object]".
- PortfolioView.PortfolioContent.Render: inherits the same treatment of inherited prototype keys as PortfolioView.TabOf.
- PortfolioView.PortfolioContent.HandleChange: the `pagination` argument is omitted. The source ignores it.
- The contents of the table's sorter and filters objects are the library's. They are modelled as maps from property names to values, with `{}` as the empty map.
