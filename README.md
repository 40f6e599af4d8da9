# buchfink: account selection, fetch gating, trade deduplication, balance tables and the Zerion importer

buchfink is a command-line bookkeeping tool for crypto assets. It keeps a list
of configured accounts and fetches their balances, trades and actions. This
project models in Dafny the parts of it that decide which data are handled and
how they are combined:

- **Account selection** (`_get_accounts`, module `Accounts`). Up to three
  optional filters narrow the configured accounts, in this order:
  - a keyword, which is a plain substring or, between slashes, a regular
    expression;
  - an exclude argument of the same two kinds;
  - an account-type substring.

  The result keeps the order of the configuration. It is proved to be a single
  filter by one combined predicate.
- **Fetch gating** (the start of the `fetch` command, module `FetchGating`).
  Each category is fetched or not, decided from the four `--actions`,
  `--balances`, `--trades` and `--nfts` flags and the account's fetch
  configuration. NFT fetching follows the configuration's trades switch.
- **Trade deduplication** (the trade step of `fetch`, module `TradeDedup`).
  - A loop keeps the first trade of each `(location, link)` identity.
  - It is proved against a recursive specification, `Dedup`.
  - That specification is proved to keep exactly the first occurrences and to
    be idempotent.
  - The trades file is then written, or deleted when no trade was collected.
- **The `balances` command** (module `Balances`).
  - It sums the asset and liability sheets of the selected accounts into four
    dictionaries. The loop re-checks the keyword as a plain substring, so with a
    `/pattern/` keyword an account the pattern selects is skipped unless its name
    contains the slashes literally. `RegexKeywordSkipsSelectedAccounts` exhibits
    this.
  - It ranks assets by USD value and builds the asset and liability tables.
    Each table has shown rows, an "Others" bucket and a "Total". The two tables
    follow different threshold rules.
- **The Zerion CSV importer** (`get_trades`, module `ZerionCsv`).
  - It keeps the confirmed Uniswap trade rows of an account's export and sorts
    them in place by timestamp. The sort is an insertion sort on an array.
  - It converts each row into a buy trade. A row with an unknown asset is
    skipped, even when its Buy Amount is zero. A row whose assets are all known
    and whose Buy Amount is zero ends the import with an error, because the rate
    division would fail.
  - The result is proved to be sorted by timestamp, and every trade is proved
    to come from a Uniswap row.

Outside inputs are parameters of the model:
- the regular-expression engine: `search(pattern, name)`;
- the balance sheet of an account: `sheetOf`;
- the asset database lookup: `lookup(identifier)`, `None` for an unknown asset;
- the contents of the export files: a map from path to parsed rows;
- the USD price of the display currency.

Amounts are decimal numbers in the source (`FVal`). They are modelled as exact `real` numbers, so the quotients the source computes are exact in the model. In the source they are rounded to its decimal precision.

## Model

| member | source | states |
|---|---|---|
| Accounts.ParseNameFilter | buchfink/cli.py:62-73 | an argument is a pattern exactly when it starts and ends with "/", and the pattern is the text between the slashes ("" for "/" alone); any other argument is a plain substring, unchanged |
| Accounts.GetAccounts | buchfink/cli.py:52-85 | the selection is an order-preserving subsequence of the accounts that keeps each account matching keyword, exclude and type as often as it occurs and drops every other |
| Accounts.PlainKeywordSelectsByName | buchfink/cli.py:65-66 | a keyword without slashes selects exactly the accounts whose name contains it, in order |
| Accounts.PatternKeywordSelectsBySearch | buchfink/cli.py:62-64 | a keyword "/p/" selects exactly the accounts in whose name the regular expression p finds a match |
| Accounts.EmptyKeywordSelectsAll | buchfink/cli.py:61-66 | the empty keyword selects every account, as the empty string is in every name |
| Accounts.ExcludeRemovesExactly | buchfink/cli.py:68-73 | the exclude argument removes exactly the accounts it hits, as substring or as pattern, and keeps the order of the rest |
| Accounts.TypeFilterKeepsMatchingTypes | buchfink/cli.py:76-77 | the type argument keeps exactly the accounts whose type contains it |
| Accounts.GetAccountsIsOneFilter | buchfink/cli.py:60-77 | the three successive filters equal one filter by the conjunction of the three criteria |
| Strings.ContainsIffOccurs | buchfink/cli.py:66 | the recursive substring test used for Python's `in` on strings holds exactly when the pattern occurs at some position |
| Strings.Lower | buchfink/importers/zerion_csv.py:61 | lower-casing keeps the length and maps every character through the ASCII lower-case mapping |
| FetchGating.EffectiveConfig | buchfink/cli.py:340 | an account's own fetch configuration is used when present, else the default one |
| FetchGating.PlanFetch | buchfink/cli.py:342-352 | without flags every category follows the configuration; with any flag only flagged categories are fetched, and only if configured; NFTs follow the trades switch |
| FetchGating.PlanWithinConfig | buchfink/cli.py:342-352 | no category is fetched that the configuration disables, whatever the flags; NFTs never without trades enabled |
| FetchGating.AllFlagsAsNoFlags | buchfink/cli.py:330-352 | all four flags together fetch the same as no flag |
| FetchGating.SingleFlagFetchesOnlyItsCategory | buchfink/cli.py:330-352 | each single flag fetches only its own category, as configured |
| FetchGating.AddingFlagOnlyAddsItsCategory | buchfink/cli.py:330-352 | when some flag is set, adding any one of the four flags changes only its own category, which then follows the configuration (NFTs the trades switch) |
| TradeDedup.Dedup | buchfink/cli.py:474-485 | `unique_trades` is a subsequence of the collected trades with pairwise distinct (location, link) identities and exactly the identities of the collected trades |
| TradeDedup.DedupAfter | buchfink/cli.py:474-485 | the kept trades are a subsequence of the input, their identities are pairwise distinct, and they cover every identity of the input not already seen |
| TradeDedup.KeptAreFirstOccurrences | buchfink/cli.py:476-483 | every kept trade is the first trade of the input with its (location, link) identity |
| TradeDedup.DedupOfDistinct | buchfink/cli.py:474-485 | a list whose identities are distinct and unseen is kept unchanged |
| TradeDedup.DedupIdempotent | buchfink/cli.py:474-485 | deduplicating twice gives the same as once |
| TradeDedup.DedupEmptyIff | buchfink/cli.py:474-488 | the deduplicated list is empty exactly when the collected trades are |
| TradeDedup.FetchedWinsOverAnnotated | buchfink/cli.py:472-483 | as annotated trades are appended after fetched ones, a kept trade whose identity some fetched trade has is a fetched trade |
| TradeDedup.DedupLoopStep | buchfink/cli.py:481-485 | one iteration, keeping or dropping a trade by its identity, preserves the loop invariant that kept-so-far plus the rest deduplicated is the full result |
| TradeDedup.DeduplicateTrades | buchfink/cli.py:474-485 | the loop with a set of seen identities returns exactly the deduplicated trades |
| TradeDedup.UpdateTradesFile | buchfink/cli.py:487-495 | the trades file is written exactly when some trade was collected, and then holds exactly the deduplicated trades: a non-empty subsequence of the collected trades with distinct identities covering every collected identity; otherwise it is deleted |
| ZerionCsv.ZerionPath | buchfink/importers/zerion_csv.py:22 | the export of an account is looked for at "zerion/" + name + ".csv" |
| ZerionCsv.AssetId | buchfink/importers/zerion_csv.py:43-54 | a filled address cell gives the ERC-20 identifier "eip155:1/erc20:" + address; an empty one gives the currency symbol |
| ZerionCsv.ConvertRow | buchfink/importers/zerion_csv.py:42-70 | a row is skipped exactly when its base, quote or fee asset is unknown, and fails exactly when it is not skipped and its Buy Amount is zero |
| ZerionCsv.ProducedTrade | buchfink/importers/zerion_csv.py:59-70 | a produced trade is a buy at the row's timestamp, at the lower-cased Application, of the looked-up assets, for the Buy Amount, with the row's fee and hash, and amount times rate gives back the Sell Amount |
| ZerionCsv.RowProduces | buchfink/importers/zerion_csv.py:59-70 | a row with three known assets and a non-zero Buy Amount produces the trade built from its cells, with rate Sell Amount / Buy Amount |
| ZerionCsv.ConvertRows | buchfink/importers/zerion_csv.py:39-72 | the rows give at most one trade each |
| ZerionCsv.TradesComeFromRows | buchfink/importers/zerion_csv.py:40-70 | every imported trade is the trade of one of the rows |
| ZerionCsv.SortedRowsGiveSortedTrades | buchfink/importers/zerion_csv.py:32-70 | rows in timestamp order give trades in timestamp order |
| ZerionCsv.ConvertRowsAppend | buchfink/importers/zerion_csv.py:40-70 | converting a concatenation of rows is converting the first part, then the second, unless the first part fails |
| ZerionCsv.SkippedRowIsInvisible | buchfink/importers/zerion_csv.py:56-58 | a row with an unknown asset changes nothing in the result, wherever it appears |
| ZerionCsv.IsUniswapTrade | buchfink/importers/zerion_csv.py:27-31 | the importer keeps a row when it is Confirmed, of type Trade and from Uniswap; the trades of kept rows get the location "uniswap", the lower-cased Application |
| ZerionCsv.SkipStep | buchfink/importers/zerion_csv.py:56-58 | a skipped row leaves the collected trades as they are, and the loop invariant holds for the next row |
| ZerionCsv.FailStep | buchfink/importers/zerion_csv.py:56-66 | a row whose three assets are known and whose Buy Amount is zero makes the whole import end with the error |
| ZerionCsv.ProduceStep | buchfink/importers/zerion_csv.py:59-70 | appending a produced trade keeps the loop invariant |
| ZerionCsv.ConvertLoop | buchfink/importers/zerion_csv.py:39-72 | the loop over the rows returns exactly the conversion of the rows, or the error of the first failing row |
| ZerionCsv.SwapAdjacent | buchfink/importers/zerion_csv.py:32 | exchanging two neighbouring rows changes nothing else and keeps the multiset of rows |
| ZerionCsv.InsertAt | buchfink/importers/zerion_csv.py:32 | inserting the next row extends the sorted prefix by one and keeps the multiset of rows |
| ZerionCsv.SortByTimestamp | buchfink/importers/zerion_csv.py:32 | the in-place sort leaves the rows in non-decreasing timestamp order, as a permutation of the original |
| ZerionCsv.GetTrades | buchfink/importers/zerion_csv.py:21-72 | with no export file there are no trades; otherwise the Uniswap rows are sorted by timestamp and converted, and the trades are in timestamp order, at most one per row, each from a confirmed Uniswap trade row |
| Balances.AddedStep | buchfink/cli.py:217-226 | adding one more sheet entry to a running dictionary keeps the partial-sum invariant |
| Balances.AddEntries | buchfink/cli.py:217-226 | after the inner loop each dictionary is the old one plus the sheet's amounts (or USD values), key by key, with the sheet's assets added as keys |
| Balances.Counted | buchfink/cli.py:209-210 | an account is counted by the re-check exactly when there is no keyword or the keyword occurs in its name |
| Balances.SumBalances | buchfink/cli.py:198-226 | each of the four dictionaries holds, for exactly the assets some counted account lists, the sum over the counted accounts of their amounts (or USD values) |
| Balances.RecheckKeepsAll | buchfink/cli.py:208-210 | when every account's name contains the keyword, the keyword re-check drops nothing |
| Balances.PlainKeywordTotalsOverSelection | buchfink/cli.py:205-210 | with a keyword without slashes, the sums are taken over every selected account |
| Balances.RegexKeywordSkipsSelectedAccounts | buchfink/cli.py:205-210 | with the keyword "/eth/" the account "eth-main" is selected, yet its ether is not summed, because the re-check looks for "/eth/" literally |
| Balances.RankByValue | buchfink/cli.py:236 | the ranking lists every asset of the dictionary once, in non-increasing USD value |
| Balances.AssetParts | buchfink/cli.py:240-253 | per asset: a positive balance above the minimum gets a row, a positive balance at or below it goes to "Others", every positive balance counts in the total |
| Balances.LiabilityParts | buchfink/cli.py:279-291 | per liability: a positive balance at or above the minimum gets a row and counts in the total; everything else goes to "Others" |
| Balances.ShownRowsAreRankedRows | buchfink/cli.py:240-250 | every row of a table passes the threshold and is the row of a ranked asset, and every ranked asset passing the threshold has its row in the table |
| Balances.SumsIgnoreOrder | buchfink/cli.py:237-253 | the "Others" bucket and the "Total" line are the same for any reordering of the ranked assets |
| Balances.RankingsAgreeOnSums | buchfink/cli.py:236-253 | any two rankings of the same USD sums give the same "Others" bucket and "Total" line, so ties in the sort do not change them |
| Balances.RowsByDecreasingValue | buchfink/cli.py:236-250 | with a positive currency price, the rows appear in non-increasing order of value |
| Balances.AssetTotalIsShownPlusOthers | buchfink/cli.py:237-253 | the asset total is the sum of the shown rows plus the "Others" bucket |
| Balances.LiabilityTotalIsShownRows | buchfink/cli.py:272-291 | the liability total is the sum of the shown rows, and total plus "Others" is the value of every liability |
| Balances.BuildAssetTable | buchfink/cli.py:235-253 | the asset loop returns the shown rows, the "Others" bucket and the total of the ranked assets, with total = rows + Others |
| Balances.BuildLiabilityTable | buchfink/cli.py:271-291 | the liability loop returns the shown rows, the "Others" bucket and the total, with total = rows, and total + Others = all liabilities |
| Balances.Layout | buchfink/cli.py:255-302 | the printed table is the rows, then for assets "Others" (when positive) and "Total" last, for liabilities "Total" and then "Others" (when positive) |
| Balances.Printed | buchfink/cli.py:255-310 | with `--total` only the total is printed, otherwise the full layout; the total is always there |
| Balances.AssetLines | buchfink/cli.py:233-268 | the printed asset table is the layout of the shown rows, "Others" bucket and total of a ranking of the USD sums by non-increasing value; it ends with its total, is only the total with `--total`, and shows only positive balances above the minimum |
| Balances.LiabilityLines | buchfink/cli.py:270-310 | the liability table is printed exactly when some liability was summed, and is then the layout of the shown rows, "Others" bucket and total of a ranking of the USD sums by non-increasing value; it shows only positive balances at or above the minimum |
| Balances.BalancesCommand | buchfink/cli.py:194-310 | the four dictionaries hold the per-asset sums over the selected accounts that pass the keyword re-check; the asset table, and the liability table exactly when a counted selected account lists a liability, are the layouts of the rows, "Others" and total computed from those sums under a ranking by USD value; both respect their thresholds |

## Left out

- Reading and writing files, YAML serialization, logging and printing are not modelled. `tabulate`, the two-decimal rounding and the headers are left out. Export files are a map from path to parsed rows, and the trades file update is a returned value.
- Exchange and blockchain access is not modelled: `fetch_balances`, the Ethereum transaction decoding, the per-exchange trade fetching and the action handling of `fetch`. Only the gating of the four categories and the trade deduplication are modelled.
- `account_from_string` and the `external` accounts: the account list is a parameter.
- The regular-expression engine is a parameter `search(pattern, name)`. An invalid pattern would raise in `re.compile`; that error is not modelled.
- `FetchConfig()` defaults: buchfink/models is not part of this model, so the default configuration is a parameter of `FetchGating.EffectiveConfig`.
- Price lookup (`find_usd_price`, `get_asset_by_symbol` for the display currency) and asset database updates are not modelled. The USD price of the display currency is a parameter.
- Balances.AssetLines: requires a non-zero currency price for every input. The source only fails (division by zero) when there is an asset to value.
- Balances.LiabilityLines: requires a non-zero currency price, for the same reason as Balances.AssetLines.
- Balances.BalancesCommand: requires a non-zero currency price, for the same reason as Balances.AssetLines.
- Balances.BuildAssetTable: requires a non-zero currency price, for the same reason as Balances.AssetLines.
- Balances.BuildLiabilityTable: requires a non-zero currency price, for the same reason as Balances.AssetLines.
- Balances.RankByValue: promises some order by non-increasing USD value. Python's stable sort additionally keeps dictionary insertion order among equal values; that tie order is not modelled.
- ZerionCsv.SortByTimestamp: the order of rows with equal timestamps is unspecified, since pandas' default sort is not stable. `GetTrades` returns the chosen order as a ghost value.
- pandas parsing is not modelled. Rows are already parsed, with timestamps as integers, and the five text columns the importer fills (Application, Buy Currency, Buy Currency Address, Sell Currency Address, Fee Currency) hold "" when missing.
- ZerionCsv.Row: a missing Sell Currency or Tx Hash cell is not filled by the importer and stays NaN. The model has no NaN. When the Sell Currency Address is also empty, the source passes NaN to the asset lookup, while the model looks up a text value. A missing Tx Hash becomes a NaN link in the source, and the model's link is always a text value. Missing Buy Amount, Sell Amount and Fee Amount cells are NaN in the source as well, while the model's amounts are always real numbers.
- ZerionCsv.ProducedTrade: the source's rate (Sell Amount / Buy Amount, zerion_csv.py:66) is a rounded decimal quotient, so amount × rate equals Sell Amount only up to that rounding (Buy Amount 3, Sell Amount 1 is an example). The model's rate is the exact quotient.
- Balances.Pricing.ValueOf: the table values (USD value / currency price, cli.py:242 and 281) are rounded decimal quotients in the source and exact quotients in the model.
- Strings.Lower: lower-cases ASCII letters only. Python's `str.lower` also maps other Unicode letters.
- Trade records carry only the fields the core reads or builds. The accounting library's other trade kinds are not part of this model.
