/** The `balances` command: per-asset sums over the selected accounts, the
    ranking of assets by USD value, and the split of each table into shown
    rows, an "Others" bucket and a total. */
module Balances {
  import opened Wrappers
  import opened Strings
  import opened Seqs
  import opened Accounts
  import opened Trades

  /** Amount held and its USD value. */
  datatype Balance = Balance(amount: real, usdValue: real)

  /** One account's balance sheet. */
  datatype BalanceSheet = BalanceSheet(assets: map<Asset, Balance>, liabilities: map<Asset, Balance>)

  datatype Side = AssetSide | LiabilitySide

  function Entries(sheet: BalanceSheet, side: Side): map<Asset, Balance>
  {
    if side == AssetSide then sheet.assets else sheet.liabilities
  }

  /** `m.get(a, 0)` */
  function Get(m: map<Asset, real>, a: Asset): real
  {
    if a in m then m[a] else 0.0
  }

  /** The amount (or, with `usd`, the USD value) of `a` in `entries`, zero if absent. */
  function Amount(entries: map<Asset, Balance>, a: Asset, usd: bool): real
  {
    if a !in entries then 0.0 else if usd then entries[a].usdValue else entries[a].amount
  }

  /** The loop of `balances` re-checks the keyword as a plain substring: an account
      is counted when there is no keyword or the keyword occurs in its name. */
  function Counted(acc: Account, keyword: Option<string>): (b: bool)
    ensures b <==> keyword.None? || Occurs(acc.name, keyword.value)
  {
    if keyword.None? then true
    else
      ContainsIffOccurs(acc.name, keyword.value);
      Contains(acc.name, keyword.value)
  }

  /** Sum of `a`'s amounts (or USD values) on one side, over the counted accounts. */
  function Total(accounts: seq<Account>, keyword: Option<string>, sheetOf: Account -> BalanceSheet,
                 side: Side, usd: bool, a: Asset): real
  {
    if accounts == [] then 0.0
    else
      (if Counted(accounts[0], keyword) then Amount(Entries(sheetOf(accounts[0]), side), a, usd) else 0.0)
      + Total(accounts[1..], keyword, sheetOf, side, usd, a)
  }

  /** The assets that some counted account lists on one side. */
  function Holders(accounts: seq<Account>, keyword: Option<string>, sheetOf: Account -> BalanceSheet,
                   side: Side): set<Asset>
  {
    if accounts == [] then {}
    else
      (if Counted(accounts[0], keyword) then Entries(sheetOf(accounts[0]), side).Keys else {})
      + Holders(accounts[1..], keyword, sheetOf, side)
  }

  /** `m` holds exactly the per-asset totals of one side over `accounts`. */
  ghost predicate Summed(m: map<Asset, real>, accounts: seq<Account>, keyword: Option<string>,
                         sheetOf: Account -> BalanceSheet, side: Side, usd: bool)
  {
    && m.Keys == Holders(accounts, keyword, sheetOf, side)
    && forall a :: Get(m, a) == Total(accounts, keyword, sheetOf, side, usd, a)
  }

  /** `m'` is `m` with the entries outside `todo` added in (amounts, or USD values
      with `usd`). */
  ghost predicate AddedExcept(m': map<Asset, real>, m: map<Asset, real>, entries: map<Asset, Balance>,
                              todo: set<Asset>, usd: bool)
  {
    && m'.Keys == m.Keys + (entries.Keys - todo)
    && forall a :: Get(m', a) == Get(m, a) + (if a in todo then 0.0 else Amount(entries, a, usd))
  }

  /** Adding one more entry keeps `AddedExcept`. */
  lemma AddedStep(m': map<Asset, real>, m: map<Asset, real>, entries: map<Asset, Balance>,
                  todo: set<Asset>, usd: bool, asset: Asset, v: real)
    requires asset in todo && todo <= entries.Keys && AddedExcept(m', m, entries, todo, usd)
    requires v == Amount(entries, asset, usd)
    ensures AddedExcept(m'[asset := Get(m', asset) + v], m, entries, todo - {asset}, usd)
  {
  }

  /** The inner loop over one sheet side: adds each entry's amount and USD value
      into the two running dictionaries. */
  method AddEntries(amounts: map<Asset, real>, usds: map<Asset, real>, entries: map<Asset, Balance>)
    returns (amounts': map<Asset, real>, usds': map<Asset, real>)
    ensures AddedExcept(amounts', amounts, entries, {}, false)
    ensures AddedExcept(usds', usds, entries, {}, true)
  {
    amounts', usds' := amounts, usds;
    var todo := entries.Keys;
    while todo != {}
      invariant todo <= entries.Keys
      invariant AddedExcept(amounts', amounts, entries, todo, false)
      invariant AddedExcept(usds', usds, entries, todo, true)
      decreases todo
    {
      var asset :| asset in todo;
      var balance := entries[asset];
      AddedStep(amounts', amounts, entries, todo, false, asset, balance.amount);
      AddedStep(usds', usds, entries, todo, true, asset, balance.usdValue);
      amounts' := amounts'[asset := Get(amounts', asset) + balance.amount];
      usds' := usds'[asset := Get(usds', asset) + balance.usdValue];
      todo := todo - {asset};
    }
  }

  /** After the first `i` accounts, `m` holds what they contribute: together with
      the totals of the remaining accounts it gives the totals of all. */
  ghost predicate SummedFrom(m: map<Asset, real>, accounts: seq<Account>, i: int, keyword: Option<string>,
                             sheetOf: Account -> BalanceSheet, side: Side, usd: bool)
    requires 0 <= i <= |accounts|
  {
    && m.Keys + Holders(accounts[i..], keyword, sheetOf, side) == Holders(accounts, keyword, sheetOf, side)
    && forall a :: Get(m, a) + Total(accounts[i..], keyword, sheetOf, side, usd, a)
                == Total(accounts, keyword, sheetOf, side, usd, a)
  }

  /** Processing account `i` (adding its entries when it is counted, nothing
      otherwise) keeps `SummedFrom`. */
  lemma SummedStep(m: map<Asset, real>, m': map<Asset, real>, accounts: seq<Account>, i: int,
                   keyword: Option<string>, sheetOf: Account -> BalanceSheet, side: Side, usd: bool)
    requires 0 <= i < |accounts| && SummedFrom(m, accounts, i, keyword, sheetOf, side, usd)
    requires Counted(accounts[i], keyword) ==> AddedExcept(m', m, Entries(sheetOf(accounts[i]), side), {}, usd)
    requires !Counted(accounts[i], keyword) ==> m' == m
    ensures SummedFrom(m', accounts, i + 1, keyword, sheetOf, side, usd)
  {
    assert accounts[i..][1..] == accounts[i + 1..];
  }

  /** The four dictionaries of `balances`. */
  datatype Sums = Sums(assets: map<Asset, real>, assetsUsd: map<Asset, real>,
                       liabilities: map<Asset, real>, liabilitiesUsd: map<Asset, real>)

  /** All four dictionaries hold the contribution of the first `i` accounts. */
  ghost predicate AllSummedFrom(s: Sums, accounts: seq<Account>, i: int, keyword: Option<string>,
                                sheetOf: Account -> BalanceSheet)
    requires 0 <= i <= |accounts|
  {
    && SummedFrom(s.assets, accounts, i, keyword, sheetOf, AssetSide, false)
    && SummedFrom(s.assetsUsd, accounts, i, keyword, sheetOf, AssetSide, true)
    && SummedFrom(s.liabilities, accounts, i, keyword, sheetOf, LiabilitySide, false)
    && SummedFrom(s.liabilitiesUsd, accounts, i, keyword, sheetOf, LiabilitySide, true)
  }

  /** The four entry additions of one counted account, or none for an account
      the keyword re-check skips. */
  ghost predicate AccountAdded(s': Sums, s: Sums, acc: Account, keyword: Option<string>,
                               sheetOf: Account -> BalanceSheet)
  {
    if Counted(acc, keyword) then
      && AddedExcept(s'.assets, s.assets, sheetOf(acc).assets, {}, false)
      && AddedExcept(s'.assetsUsd, s.assetsUsd, sheetOf(acc).assets, {}, true)
      && AddedExcept(s'.liabilities, s.liabilities, sheetOf(acc).liabilities, {}, false)
      && AddedExcept(s'.liabilitiesUsd, s.liabilitiesUsd, sheetOf(acc).liabilities, {}, true)
    else s' == s
  }

  lemma AllSummedStep(s: Sums, s': Sums, accounts: seq<Account>, i: int, keyword: Option<string>,
                      sheetOf: Account -> BalanceSheet)
    requires 0 <= i < |accounts| && AllSummedFrom(s, accounts, i, keyword, sheetOf)
    requires AccountAdded(s', s, accounts[i], keyword, sheetOf)
    ensures AllSummedFrom(s', accounts, i + 1, keyword, sheetOf)
  {
    SummedStep(s.assets, s'.assets, accounts, i, keyword, sheetOf, AssetSide, false);
    SummedStep(s.assetsUsd, s'.assetsUsd, accounts, i, keyword, sheetOf, AssetSide, true);
    SummedStep(s.liabilities, s'.liabilities, accounts, i, keyword, sheetOf, LiabilitySide, false);
    SummedStep(s.liabilitiesUsd, s'.liabilitiesUsd, accounts, i, keyword, sheetOf, LiabilitySide, true);
  }

  /** Before the loop nothing is summed; after it, `SummedFrom` is `Summed`. */
  lemma SummedFromEnds(m: map<Asset, real>, accounts: seq<Account>, keyword: Option<string>,
                       sheetOf: Account -> BalanceSheet, side: Side, usd: bool)
    ensures SummedFrom(map[], accounts, 0, keyword, sheetOf, side, usd)
    ensures SummedFrom(m, accounts, |accounts|, keyword, sheetOf, side, usd) ==> Summed(m, accounts, keyword, sheetOf, side, usd)
  {
    assert accounts[0..] == accounts;
    assert accounts[|accounts|..] == [];
  }

  lemma AllSummedStart(accounts: seq<Account>, keyword: Option<string>, sheetOf: Account -> BalanceSheet)
    ensures AllSummedFrom(Sums(map[], map[], map[], map[]), accounts, 0, keyword, sheetOf)
  {
    var m: map<Asset, real> := map[];
    SummedFromEnds(m, accounts, keyword, sheetOf, AssetSide, false);
    SummedFromEnds(m, accounts, keyword, sheetOf, AssetSide, true);
    SummedFromEnds(m, accounts, keyword, sheetOf, LiabilitySide, false);
    SummedFromEnds(m, accounts, keyword, sheetOf, LiabilitySide, true);
  }

  lemma AllSummedEnd(s: Sums, accounts: seq<Account>, keyword: Option<string>, sheetOf: Account -> BalanceSheet)
    requires AllSummedFrom(s, accounts, |accounts|, keyword, sheetOf)
    ensures Summed(s.assets, accounts, keyword, sheetOf, AssetSide, false)
    ensures Summed(s.assetsUsd, accounts, keyword, sheetOf, AssetSide, true)
    ensures Summed(s.liabilities, accounts, keyword, sheetOf, LiabilitySide, false)
    ensures Summed(s.liabilitiesUsd, accounts, keyword, sheetOf, LiabilitySide, true)
  {
    SummedFromEnds(s.assets, accounts, keyword, sheetOf, AssetSide, false);
    SummedFromEnds(s.assetsUsd, accounts, keyword, sheetOf, AssetSide, true);
    SummedFromEnds(s.liabilities, accounts, keyword, sheetOf, LiabilitySide, false);
    SummedFromEnds(s.liabilitiesUsd, accounts, keyword, sheetOf, LiabilitySide, true);
  }

  /** The accumulation loop of `balances`: for every account whose name contains
      the keyword, adds its assets and liabilities into four dictionaries (amounts
      and USD values per side). */
  method SumBalances(accounts: seq<Account>, keyword: Option<string>, sheetOf: Account -> BalanceSheet)
    returns (assetsSum: map<Asset, real>, assetsUsdSum: map<Asset, real>,
             liabilitiesSum: map<Asset, real>, liabilitiesUsdSum: map<Asset, real>)
    ensures Summed(assetsSum, accounts, keyword, sheetOf, AssetSide, false)
    ensures Summed(assetsUsdSum, accounts, keyword, sheetOf, AssetSide, true)
    ensures Summed(liabilitiesSum, accounts, keyword, sheetOf, LiabilitySide, false)
    ensures Summed(liabilitiesUsdSum, accounts, keyword, sheetOf, LiabilitySide, true)
  {
    assetsSum, assetsUsdSum, liabilitiesSum, liabilitiesUsdSum := map[], map[], map[], map[];
    AllSummedStart(accounts, keyword, sheetOf);
    var i := 0;
    while i < |accounts|
      invariant 0 <= i <= |accounts|
      invariant AllSummedFrom(Sums(assetsSum, assetsUsdSum, liabilitiesSum, liabilitiesUsdSum), accounts, i, keyword, sheetOf)
    {
      var account := accounts[i];
      ghost var before := Sums(assetsSum, assetsUsdSum, liabilitiesSum, liabilitiesUsdSum);
      if keyword.Some? && !Contains(account.name, keyword.value) {
        AllSummedStep(before, before, accounts, i, keyword, sheetOf);
        i := i + 1;
        continue;
      }
      var sheet := sheetOf(account);
      assetsSum, assetsUsdSum := AddEntries(assetsSum, assetsUsdSum, sheet.assets);
      liabilitiesSum, liabilitiesUsdSum := AddEntries(liabilitiesSum, liabilitiesUsdSum, sheet.liabilities);
      AllSummedStep(before, Sums(assetsSum, assetsUsdSum, liabilitiesSum, liabilitiesUsdSum), accounts, i, keyword, sheetOf);
      i := i + 1;
    }
    AllSummedEnd(Sums(assetsSum, assetsUsdSum, liabilitiesSum, liabilitiesUsdSum), accounts, keyword, sheetOf);
  }

  /** An account all of whose selected names contain a plain keyword is counted by
      the re-check, so for a plain keyword the re-check drops nothing that account
      selection kept. */
  lemma {:induction false} RecheckKeepsAll(accounts: seq<Account>, keyword: string,
                                           sheetOf: Account -> BalanceSheet, side: Side, usd: bool, a: Asset)
    requires forall acc :: acc in accounts ==> Contains(acc.name, keyword)
    ensures Total(accounts, Some(keyword), sheetOf, side, usd, a) == Total(accounts, None, sheetOf, side, usd, a)
  {
    if accounts != [] {
      assert accounts[0] in accounts;
      RecheckKeepsAll(accounts[1..], keyword, sheetOf, side, usd, a);
    }
  }

  /** For a plain keyword, the totals of `balances` are taken over every account
      that account selection returns. */
  lemma PlainKeywordTotalsOverSelection(source: seq<Account>, exclude: Option<string>, keyword: string,
                                        search: (string, string) -> bool,
                                        sheetOf: Account -> BalanceSheet, side: Side, usd: bool, a: Asset)
    requires !SlashDelimited(keyword)
    ensures var selected := GetAccounts(source, exclude, Some(keyword), None, search);
            Total(selected, Some(keyword), sheetOf, side, usd, a) == Total(selected, None, sheetOf, side, usd, a)
  {
    var selected := GetAccounts(source, exclude, Some(keyword), None, search);
    forall acc | acc in selected ensures Contains(acc.name, keyword) {
      assert multiset(selected)[acc] > 0;
    }
    RecheckKeepsAll(selected, keyword, sheetOf, side, usd, a);
  }

  /** A regular expression search that finds the pattern as a substring. */
  predicate SubstringSearch(pattern: string, name: string)
  {
    Contains(name, pattern)
  }

  /** "/eth/", slashes included, does not occur in "eth-main". */
  lemma SlashedKeywordNotInName()
    ensures !Contains("eth-main", "/eth/")
  {
    var name, kw := "eth-main", "/eth/";
    assert !Contains(name[4..], kw);
    forall k | 0 <= k < 4 ensures name[k..][..5][0] != kw[0] {
      assert name[k..][..5][0] == name[k];
    }
    assert name[3..][1..] == name[4..];
    assert !Contains(name[3..], kw);
    assert name[2..][1..] == name[3..];
    assert !Contains(name[2..], kw);
    assert name[1..][1..] == name[2..];
    assert !Contains(name[1..], kw);
    assert name[0..] == name && name[0..][1..] == name[1..];
  }

  /** The pattern "eth" between the slashes selects "eth-main". */
  lemma SlashedKeywordSelects()
    ensures GetAccounts([Account("eth-main", "ethereum")], None, Some("/eth/"), None, SubstringSearch)
            == [Account("eth-main", "ethereum")]
  {
    var acc := Account("eth-main", "ethereum");
    assert "eth-main"[..3] == "eth";
    assert SubstringSearch("eth", acc.name);
    PatternKeywordSelectsBySearch([acc], "eth", SubstringSearch);
    assert "/" + "eth" + "/" == "/eth/";
    assert [acc][1..] == [];
  }

  /** With a slash-delimited keyword the re-check compares the whole argument,
      slashes included, as a substring: an account that the pattern selects is not
      counted. Here "/eth/" selects "eth-main" but its one ether is not summed. */
  lemma RegexKeywordSkipsSelectedAccounts()
    ensures var acc := Account("eth-main", "ethereum");
            var sheetOf := (x: Account) => BalanceSheet(map[Asset("ETH") := Balance(1.0, 3000.0)], map[]);
            && GetAccounts([acc], None, Some("/eth/"), None, SubstringSearch) == [acc]
            && Amount(sheetOf(acc).assets, Asset("ETH"), false) == 1.0
            && Total([acc], Some("/eth/"), sheetOf, AssetSide, false, Asset("ETH")) == 0.0
  {
    SlashedKeywordSelects();
    SlashedKeywordNotInName();
    assert [Account("eth-main", "ethereum")][1..] == [];
  }

  // ---------------------------------------------------------------------------
  // Ranking and tables

  /** A non-empty set of assets has one of largest USD value. */
  lemma {:induction false} LargestExists(usd: map<Asset, real>, s: set<Asset>)
    requires s != {} && s <= usd.Keys
    ensures exists m :: m in s && forall b :: b in s ==> usd[b] <= usd[m]
    decreases s
  {
    var x :| x in s;
    if s != {x} {
      LargestExists(usd, s - {x});
      var m :| m in s - {x} && forall b :: b in s - {x} ==> usd[b] <= usd[m];
      if usd[m] < usd[x] {
        assert forall b :: b in s ==> usd[b] <= usd[x];
      } else {
        assert forall b :: b in s ==> usd[b] <= usd[m];
      }
    }
  }

  /** `sorted(usd.items(), key=itemgetter(1), reverse=True)`, keys only: every asset
      once, in non-increasing order of USD value. */
  method RankByValue(usd: map<Asset, real>) returns (order: seq<Asset>)
    ensures forall a :: a in order <==> a in usd
    ensures forall i, j :: 0 <= i < j < |order| ==> order[i] != order[j]
    ensures forall i, j :: 0 <= i < j < |order| ==> usd[order[j]] <= usd[order[i]]
  {
    order := [];
    var remaining := usd.Keys;
    while remaining != {}
      invariant remaining <= usd.Keys
      invariant forall a :: a in order <==> a in usd && a !in remaining
      invariant forall i, j :: 0 <= i < j < |order| ==> order[i] != order[j]
      invariant forall i, j :: 0 <= i < j < |order| ==> usd[order[j]] <= usd[order[i]]
      invariant forall i, b :: 0 <= i < |order| && b in remaining ==> usd[b] <= usd[order[i]]
      decreases remaining
    {
      LargestExists(usd, remaining);
      var m :| m in remaining && forall b :: b in remaining ==> usd[b] <= usd[m];
      order := order + [m];
      remaining := remaining - {m};
    }
  }

  /** A shown row: asset, summed amount, value in the display currency. */
  datatype Row = Row(asset: Asset, amount: real, value: real)

  datatype TableKind = AssetTable | LiabilityTable

  /** Whether an asset gets its own row. Assets: positive balance and value above
      the minimum. Liabilities: positive balance and value at least the minimum. */
  predicate IsShown(kind: TableKind, balance: real, value: real, minimum: real)
  {
    balance > 0.0 && (if kind == AssetTable then value > minimum else value >= minimum)
  }

  /** Whether an asset's value goes into the "Others" bucket. For assets only
      positive balances qualify; for liabilities every row not shown does. */
  predicate IsSmall(kind: TableKind, balance: real, value: real, minimum: real)
  {
    !IsShown(kind, balance, value, minimum) && (kind == LiabilityTable || balance > 0.0)
  }

  /** Whether an asset's value goes into the table total. For assets every
      positive balance does, for liabilities only shown rows. */
  predicate InTotal(kind: TableKind, balance: real, value: real, minimum: real)
  {
    if kind == AssetTable then balance > 0.0 else IsShown(kind, balance, value, minimum)
  }

  /** Sum of the values of `rows`. */
  function RowValues(rows: seq<Row>): real
  {
    if rows == [] then 0.0 else rows[0].value + RowValues(rows[1..])
  }

  /** What a table is built from besides the ranking: the summed amounts and USD
      values, the USD price of the display currency and the minimum balance. */
  datatype Pricing = Pricing(sums: map<Asset, real>, usdSums: map<Asset, real>, currencyInUsd: real, minimum: real)
  {
    /** Value of `a` in the display currency. */
    function ValueOf(a: Asset): real
      requires currencyInUsd != 0.0
    {
      Get(usdSums, a) / currencyInUsd
    }

    /** The row `a` would get. */
    function RowOf(a: Asset): Row
      requires currencyInUsd != 0.0
    {
      Row(a, Get(sums, a), ValueOf(a))
    }
  }

  /** The row `a` contributes to a table: its own row when it is shown, nothing otherwise. */
  function RowPart(kind: TableKind, p: Pricing, a: Asset): seq<Row>
    requires p.currencyInUsd != 0.0
  {
    var r := p.RowOf(a);
    if IsShown(kind, r.amount, r.value, p.minimum) then [r] else []
  }

  /** What `a` contributes to the "Others" bucket. */
  function SmallPart(kind: TableKind, p: Pricing, a: Asset): real
    requires p.currencyInUsd != 0.0
  {
    var r := p.RowOf(a);
    if IsSmall(kind, r.amount, r.value, p.minimum) then r.value else 0.0
  }

  /** What `a` contributes to the "Total" line. */
  function TotalPart(kind: TableKind, p: Pricing, a: Asset): real
    requires p.currencyInUsd != 0.0
  {
    var r := p.RowOf(a);
    if InTotal(kind, r.amount, r.value, p.minimum) then r.value else 0.0
  }

  /** The rows of a table, in ranking order. */
  function ShownRows(kind: TableKind, p: Pricing, order: seq<Asset>): seq<Row>
    requires p.currencyInUsd != 0.0
  {
    if order == [] then [] else RowPart(kind, p, order[0]) + ShownRows(kind, p, order[1..])
  }

  /** Every row in `rows` is shown, is the row of its asset, and that asset is ranked. */
  ghost predicate RowsOfRanked(kind: TableKind, p: Pricing, rows: seq<Row>, order: seq<Asset>)
    requires p.currencyInUsd != 0.0
  {
    forall i :: 0 <= i < |rows| ==>
      IsShown(kind, rows[i].amount, rows[i].value, p.minimum) && rows[i].asset in order && rows[i] == p.RowOf(rows[i].asset)
  }

  /** Every row of a table is shown, is the row of its asset, and that asset is
      among the ranked ones; conversely every ranked asset passing the threshold
      has its row in the table. */
  lemma {:induction false} ShownRowsAreRankedRows(kind: TableKind, p: Pricing, order: seq<Asset>)
    requires p.currencyInUsd != 0.0
    ensures RowsOfRanked(kind, p, ShownRows(kind, p, order), order)
    ensures forall a :: a in order && IsShown(kind, p.RowOf(a).amount, p.RowOf(a).value, p.minimum) ==>
              p.RowOf(a) in ShownRows(kind, p, order)
    ensures forall r :: r in ShownRows(kind, p, order) ==> IsShown(kind, r.amount, r.value, p.minimum)
  {
    if order != [] {
      var tail := order[1..];
      ShownRowsAreRankedRows(kind, p, tail);
      var head := RowPart(kind, p, order[0]);
      var rest := ShownRows(kind, p, tail);
      var rows := head + rest;
      assert rows == ShownRows(kind, p, order);
      var r := p.RowOf(order[0]);
      assert IsShown(kind, r.amount, r.value, p.minimum) ==> head == [r];
      assert !IsShown(kind, r.amount, r.value, p.minimum) ==> head == [];
      forall i | 0 <= i < |rows|
        ensures IsShown(kind, rows[i].amount, rows[i].value, p.minimum) && rows[i].asset in order && rows[i] == p.RowOf(rows[i].asset)
      {
        if i < |head| {
          assert rows[i] == r;
        } else {
          var k := i - |head|;
          assert rows[i] == rest[k];
          var j :| 0 <= j < |tail| && tail[j] == rest[k].asset;
          assert order[j + 1] == rest[k].asset;
        }
      }
      forall a | a in order && IsShown(kind, p.RowOf(a).amount, p.RowOf(a).value, p.minimum)
        ensures p.RowOf(a) in rows
      {
        if a == order[0] {
          assert rows[0] == r;
        } else {
          var j :| 0 <= j < |order| && order[j] == a;
          assert tail[j - 1] == a;
          assert p.RowOf(a) in rest;
        }
      }
    }
    var all := ShownRows(kind, p, order);
    forall x | x in all ensures IsShown(kind, x.amount, x.value, p.minimum) {
      var i :| 0 <= i < |all| && all[i] == x;
    }
  }

  /** The value collected in the "Others" bucket. */
  function SmallSum(kind: TableKind, p: Pricing, order: seq<Asset>): real
    requires p.currencyInUsd != 0.0
  {
    if order == [] then 0.0 else SmallPart(kind, p, order[0]) + SmallSum(kind, p, order[1..])
  }

  /** The value in the "Total" line. */
  function TableTotal(kind: TableKind, p: Pricing, order: seq<Asset>): real
    requires p.currencyInUsd != 0.0
  {
    if order == [] then 0.0 else TotalPart(kind, p, order[0]) + TableTotal(kind, p, order[1..])
  }

  /** Sum of the values of every ranked asset. */
  function AllValues(p: Pricing, order: seq<Asset>): real
    requires p.currencyInUsd != 0.0
  {
    if order == [] then 0.0 else p.ValueOf(order[0]) + AllValues(p, order[1..])
  }

  /** Asset table: the total is the shown rows plus the "Others" bucket. */
  lemma {:induction false} AssetTotalIsShownPlusOthers(p: Pricing, order: seq<Asset>)
    requires p.currencyInUsd != 0.0
    ensures TableTotal(AssetTable, p, order) == RowValues(ShownRows(AssetTable, p, order)) + SmallSum(AssetTable, p, order)
  {
    if order != [] {
      AssetTotalIsShownPlusOthers(p, order[1..]);
      var rows := ShownRows(AssetTable, p, order[1..]);
      var r := p.RowOf(order[0]);
      if IsShown(AssetTable, r.amount, r.value, p.minimum) {
        assert ([r] + rows)[1..] == rows;
        assert ShownRows(AssetTable, p, order) == [r] + rows;
      } else {
        assert ShownRows(AssetTable, p, order) == rows;
      }
    }
  }

  /** Liability table: the total is the shown rows alone, and together with the
      "Others" bucket it covers every ranked liability. */
  lemma {:induction false} LiabilityTotalIsShownRows(p: Pricing, order: seq<Asset>)
    requires p.currencyInUsd != 0.0
    ensures TableTotal(LiabilityTable, p, order) == RowValues(ShownRows(LiabilityTable, p, order))
    ensures TableTotal(LiabilityTable, p, order) + SmallSum(LiabilityTable, p, order) == AllValues(p, order)
  {
    if order != [] {
      LiabilityTotalIsShownRows(p, order[1..]);
      var rows := ShownRows(LiabilityTable, p, order[1..]);
      var r := p.RowOf(order[0]);
      if IsShown(LiabilityTable, r.amount, r.value, p.minimum) {
        assert ([r] + rows)[1..] == rows;
        assert ShownRows(LiabilityTable, p, order) == [r] + rows;
      } else {
        assert ShownRows(LiabilityTable, p, order) == rows;
      }
    }
  }

  lemma DivideMonotone(x: real, y: real, c: real)
    requires c > 0.0 && x <= y
    ensures x / c <= y / c
  {
    assert y / c - x / c == (y - x) / c;
  }

  /** Rows listed by non-increasing value. */
  ghost predicate ValuesNonIncreasing(rows: seq<Row>)
  {
    forall i, j :: 0 <= i < j < |rows| ==> rows[j].value <= rows[i].value
  }

  lemma ConsNonIncreasing(r: Row, rest: seq<Row>)
    requires ValuesNonIncreasing(rest)
    requires forall k :: 0 <= k < |rest| ==> rest[k].value <= r.value
    ensures ValuesNonIncreasing([r] + rest)
  {
    var rows := [r] + rest;
    forall i, j | 0 <= i < j < |rows| ensures rows[j].value <= rows[i].value {
      assert rows[j] == rest[j - 1];
      if i > 0 {
        assert rows[i] == rest[i - 1];
      }
    }
  }

  /** Every shown row of `order[1..]` is worth at most the first ranked asset. */
  lemma HeadBoundsRest(kind: TableKind, p: Pricing, order: seq<Asset>, rest: seq<Row>)
    requires p.currencyInUsd > 0.0 && order != []
    requires forall j :: 0 < j < |order| ==> Get(p.usdSums, order[j]) <= Get(p.usdSums, order[0])
    requires rest == ShownRows(kind, p, order[1..])
    ensures forall k :: 0 <= k < |rest| ==> rest[k].value <= p.RowOf(order[0]).value
  {
    ShownRowsAreRankedRows(kind, p, order[1..]);
    forall k | 0 <= k < |rest| ensures rest[k].value <= p.RowOf(order[0]).value {
      var a := rest[k].asset;
      var j :| 0 <= j < |order[1..]| && order[1..][j] == a;
      assert order[j + 1] == a;
      DivideMonotone(Get(p.usdSums, a), Get(p.usdSums, order[0]), p.currencyInUsd);
    }
  }

  /** With a positive currency price, rows appear in non-increasing order of value
      when the assets were ranked by non-increasing USD value. */
  lemma {:induction false} RowsByDecreasingValue(kind: TableKind, p: Pricing, order: seq<Asset>)
    requires p.currencyInUsd > 0.0
    requires forall i, j :: 0 <= i < j < |order| ==> Get(p.usdSums, order[j]) <= Get(p.usdSums, order[i])
    ensures ValuesNonIncreasing(ShownRows(kind, p, order))
  {
    if order != [] {
      var tail := order[1..];
      assert forall i, j :: 0 <= i < j < |tail| ==> Get(p.usdSums, tail[j]) <= Get(p.usdSums, tail[i]) by {
        forall i, j | 0 <= i < j < |tail| ensures Get(p.usdSums, tail[j]) <= Get(p.usdSums, tail[i]) {
          assert tail[i] == order[i + 1] && tail[j] == order[j + 1];
        }
      }
      RowsByDecreasingValue(kind, p, tail);
      var rest := ShownRows(kind, p, tail);
      HeadBoundsRest(kind, p, order, rest);
      var r := p.RowOf(order[0]);
      if IsShown(kind, r.amount, r.value, p.minimum) {
        assert ShownRows(kind, p, order) == [r] + rest;
        ConsNonIncreasing(r, rest);
      } else {
        assert ShownRows(kind, p, order) == rest;
      }
    }
  }

  /** Appending an asset to the ranking appends its row, if shown, to the table. */
  lemma {:induction false} ShownRowsSnoc(kind: TableKind, p: Pricing, xs: seq<Asset>, a: Asset)
    requires p.currencyInUsd != 0.0
    ensures ShownRows(kind, p, xs + [a]) == ShownRows(kind, p, xs) + RowPart(kind, p, a)
  {
    if xs == [] {
      assert [] + [a] == [a] && [a][1..] == [];
    } else {
      ShownRowsSnoc(kind, p, xs[1..], a);
      SnocParts(xs, a);
      AppendAssoc(RowPart(kind, p, xs[0]), ShownRows(kind, p, xs[1..]), RowPart(kind, p, a));
    }
  }

  /** Appending an asset to the ranking adds its share to the "Others" bucket and the total. */
  lemma {:induction false} SumsSnoc(kind: TableKind, p: Pricing, xs: seq<Asset>, a: Asset)
    requires p.currencyInUsd != 0.0
    ensures SmallSum(kind, p, xs + [a]) == SmallSum(kind, p, xs) + SmallPart(kind, p, a)
    ensures TableTotal(kind, p, xs + [a]) == TableTotal(kind, p, xs) + TotalPart(kind, p, a)
  {
    if xs == [] {
      assert [] + [a] == [a] && [a][1..] == [];
    } else {
      SumsSnoc(kind, p, xs[1..], a);
      SnocParts(xs, a);
    }
  }

  /** One iteration of a table loop: the prefix grows by `order[i]`. */
  lemma TablePrefixStep(kind: TableKind, p: Pricing, order: seq<Asset>, i: int)
    requires p.currencyInUsd != 0.0 && 0 <= i < |order|
    ensures ShownRows(kind, p, order[..i + 1]) == ShownRows(kind, p, order[..i]) + RowPart(kind, p, order[i])
    ensures SmallSum(kind, p, order[..i + 1]) == SmallSum(kind, p, order[..i]) + SmallPart(kind, p, order[i])
    ensures TableTotal(kind, p, order[..i + 1]) == TableTotal(kind, p, order[..i]) + TotalPart(kind, p, order[i])
  {
    assert order[..i + 1] == order[..i] + [order[i]];
    ShownRowsSnoc(kind, p, order[..i], order[i]);
    SumsSnoc(kind, p, order[..i], order[i]);
  }

  /** The "Others" bucket and the "Total" line of two rankings laid end to end. */
  lemma {:induction false} SumsAppend(kind: TableKind, p: Pricing, xs: seq<Asset>, ys: seq<Asset>)
    requires p.currencyInUsd != 0.0
    ensures SmallSum(kind, p, xs + ys) == SmallSum(kind, p, xs) + SmallSum(kind, p, ys)
    ensures TableTotal(kind, p, xs + ys) == TableTotal(kind, p, xs) + TableTotal(kind, p, ys)
  {
    if xs == [] {
      assert xs + ys == ys;
    } else {
      ConsParts(xs, ys);
      SumsAppend(kind, p, xs[1..], ys);
    }
  }

  /** An asset in the middle of a ranking contributes as if it came first. */
  lemma SumsAround(kind: TableKind, p: Pricing, before: seq<Asset>, a: Asset, after: seq<Asset>)
    requires p.currencyInUsd != 0.0
    ensures SmallSum(kind, p, before + ([a] + after)) == SmallPart(kind, p, a) + SmallSum(kind, p, before + after)
    ensures TableTotal(kind, p, before + ([a] + after)) == TotalPart(kind, p, a) + TableTotal(kind, p, before + after)
  {
    SumsAppend(kind, p, before, [a] + after);
    SumsAppend(kind, p, before, after);
    assert ([a] + after)[1..] == after;
  }

  /** The "Others" bucket and the "Total" line do not depend on the order in which
      the assets are visited. */
  lemma {:induction false} SumsIgnoreOrder(kind: TableKind, p: Pricing, o1: seq<Asset>, o2: seq<Asset>)
    requires p.currencyInUsd != 0.0 && multiset(o1) == multiset(o2)
    ensures SmallSum(kind, p, o1) == SmallSum(kind, p, o2)
    ensures TableTotal(kind, p, o1) == TableTotal(kind, p, o2)
    decreases |o1|
  {
    if o1 == [] {
      assert |o2| == |multiset(o2)| == 0;
    } else {
      var a := o1[0];
      assert a in multiset(o2);
      var k :| 0 <= k < |o2| && o2[k] == a;
      RemoveMatching(o1, o2, k);
      SumsAround(kind, p, o2[..k], a, o2[k + 1..]);
      SumsIgnoreOrder(kind, p, o1[1..], o2[..k] + o2[k + 1..]);
    }
  }

  /** `order` lists every asset of `usd` once, by non-increasing USD value: what
      `sorted(..., key=itemgetter(1), reverse=True)` yields. */
  ghost predicate Ranks(order: seq<Asset>, usd: map<Asset, real>)
  {
    && (forall a :: a in order <==> a in usd)
    && (forall i, j :: 0 <= i < j < |order| ==> order[i] != order[j])
    && (forall i, j :: 0 <= i < j < |order| ==> usd[order[j]] <= usd[order[i]])
  }

  /** Whichever order the ranking picks among equal USD values, the "Others"
      bucket and the "Total" line come out the same. */
  lemma RankingsAgreeOnSums(kind: TableKind, p: Pricing, o1: seq<Asset>, o2: seq<Asset>)
    requires p.currencyInUsd != 0.0 && Ranks(o1, p.usdSums) && Ranks(o2, p.usdSums)
    ensures SmallSum(kind, p, o1) == SmallSum(kind, p, o2)
    ensures TableTotal(kind, p, o1) == TableTotal(kind, p, o2)
  {
    SameElementsSameMultiset(o1, o2);
    SumsIgnoreOrder(kind, p, o1, o2);
  }

  /** The asset table's rule for one asset: a positive balance above the minimum
      gets a row, a positive balance at or below it goes to "Others", and every
      positive balance counts in the total. */
  lemma AssetParts(p: Pricing, a: Asset)
    requires p.currencyInUsd != 0.0
    ensures var b, v := Get(p.sums, a), p.ValueOf(a);
            && RowPart(AssetTable, p, a) == (if b > 0.0 && v > p.minimum then [Row(a, b, v)] else [])
            && SmallPart(AssetTable, p, a) == (if b > 0.0 && v <= p.minimum then v else 0.0)
            && TotalPart(AssetTable, p, a) == (if b > 0.0 then v else 0.0)
  {
  }

  /** The liability table's rule for one asset: a positive balance at or above the
      minimum gets a row and counts in the total; anything else goes to "Others". */
  lemma LiabilityParts(p: Pricing, a: Asset)
    requires p.currencyInUsd != 0.0
    ensures var b, v := Get(p.sums, a), p.ValueOf(a);
            && RowPart(LiabilityTable, p, a) == (if b > 0.0 && v >= p.minimum then [Row(a, b, v)] else [])
            && SmallPart(LiabilityTable, p, a) == (if b > 0.0 && v >= p.minimum then 0.0 else v)
            && TotalPart(LiabilityTable, p, a) == (if b > 0.0 && v >= p.minimum then v else 0.0)
  {
  }

  /** The asset loop of `balances`: visits the ranked assets, appends shown rows,
      adds the rest of the positive balances to the "Others" bucket, and adds every
      positive balance to the total. */
  method BuildAssetTable(p: Pricing, order: seq<Asset>) returns (rows: seq<Row>, smallSum: real, total: real)
    requires p.currencyInUsd != 0.0 && forall a :: a in order ==> a in p.sums
    ensures rows == ShownRows(AssetTable, p, order)
    ensures smallSum == SmallSum(AssetTable, p, order)
    ensures total == TableTotal(AssetTable, p, order)
    ensures total == RowValues(rows) + smallSum
  {
    rows, smallSum, total := [], 0.0, 0.0;
    var i := 0;
    assert order[..0] == [];
    while i < |order|
      invariant 0 <= i <= |order|
      invariant rows == ShownRows(AssetTable, p, order[..i])
      invariant smallSum == SmallSum(AssetTable, p, order[..i])
      invariant total == TableTotal(AssetTable, p, order[..i])
    {
      var asset := order[i];
      TablePrefixStep(AssetTable, p, order, i);
      AssetParts(p, asset);
      var balance := p.sums[asset];
      var value := p.ValueOf(asset);
      if balance > 0.0 {
        if value > p.minimum {
          rows := rows + [Row(asset, balance, value)];
        } else {
          smallSum := smallSum + value;
        }
        total := total + value;
      }
      i := i + 1;
    }
    assert order[..|order|] == order;
    AssetTotalIsShownPlusOthers(p, order);
  }

  /** The liability loop of `balances`: shown rows go into the total, everything
      else into the "Others" bucket. */
  method BuildLiabilityTable(p: Pricing, order: seq<Asset>) returns (rows: seq<Row>, smallSum: real, total: real)
    requires p.currencyInUsd != 0.0 && forall a :: a in order ==> a in p.sums
    ensures rows == ShownRows(LiabilityTable, p, order)
    ensures smallSum == SmallSum(LiabilityTable, p, order)
    ensures total == TableTotal(LiabilityTable, p, order)
    ensures total == RowValues(rows) && total + smallSum == AllValues(p, order)
  {
    rows, smallSum, total := [], 0.0, 0.0;
    var i := 0;
    assert order[..0] == [];
    while i < |order|
      invariant 0 <= i <= |order|
      invariant rows == ShownRows(LiabilityTable, p, order[..i])
      invariant smallSum == SmallSum(LiabilityTable, p, order[..i])
      invariant total == TableTotal(LiabilityTable, p, order[..i])
    {
      var asset := order[i];
      TablePrefixStep(LiabilityTable, p, order, i);
      LiabilityParts(p, asset);
      var balance := p.sums[asset];
      var value := p.ValueOf(asset);
      if balance > 0.0 && value >= p.minimum {
        total := total + value;
        rows := rows + [Row(asset, balance, value)];
      } else {
        smallSum := smallSum + value;
      }
      i := i + 1;
    }
    assert order[..|order|] == order;
    LiabilityTotalIsShownRows(p, order);
  }

  /** A line of the printed table. */
  datatype Line = AssetLine(row: Row) | OthersLine(value: real) | TotalLine(value: real)

  /** The printed table: the shown rows, then for assets an "Others" line when the
      bucket is positive followed by the "Total" line; for liabilities the "Total"
      line comes first and the "Others" line, when the bucket is positive, after it. */
  function Layout(kind: TableKind, rows: seq<Row>, smallSum: real, total: real): (lines: seq<Line>)
    ensures |lines| == |rows| + (if smallSum > 0.0 then 2 else 1)
    ensures forall i :: 0 <= i < |rows| ==> lines[i] == AssetLine(rows[i])
    ensures kind == AssetTable ==>
              lines[|lines| - 1] == TotalLine(total) && (smallSum > 0.0 ==> lines[|rows|] == OthersLine(smallSum))
    ensures kind == LiabilityTable ==>
              lines[|rows|] == TotalLine(total) && (smallSum > 0.0 ==> lines[|rows| + 1] == OthersLine(smallSum))
    ensures (exists i :: 0 <= i < |lines| && lines[i].OthersLine?) <==> smallSum > 0.0
    ensures forall l :: l in lines && l.AssetLine? ==> l.row in rows
  {
    var assetLines := seq(|rows|, i requires 0 <= i < |rows| => AssetLine(rows[i]));
    var others := if smallSum > 0.0 then [OthersLine(smallSum)] else [];
    var lines := if kind == AssetTable then assetLines + others + [TotalLine(total)]
                 else assetLines + [TotalLine(total)] + others;
    assert forall i :: |rows| <= i < |lines| ==> !lines[i].AssetLine?;
    lines
  }

  /** One table as printed: only the "Total" line with `--total`, else the full layout. */
  function Printed(kind: TableKind, rows: seq<Row>, smallSum: real, total: real, totalOnly: bool): (lines: seq<Line>)
    ensures TotalLine(total) in lines
    ensures totalOnly ==> lines == [TotalLine(total)]
    ensures !totalOnly ==> lines == Layout(kind, rows, smallSum, total)
    ensures forall l :: l in lines && l.AssetLine? ==> l.row in rows
  {
    if totalOnly then [TotalLine(total)] else Layout(kind, rows, smallSum, total)
  }

  /** The asset table of `balances` from the two asset dictionaries; `order` is the
      ranking the sort chose. */
  method AssetLines(sums: map<Asset, real>, usdSums: map<Asset, real>, currencyInUsd: real, minimum: real,
                    totalOnly: bool) returns (lines: seq<Line>, ghost order: seq<Asset>)
    requires currencyInUsd != 0.0 && sums.Keys == usdSums.Keys
    ensures Ranks(order, usdSums)
    ensures var p := Pricing(sums, usdSums, currencyInUsd, minimum);
            lines == Printed(AssetTable, ShownRows(AssetTable, p, order), SmallSum(AssetTable, p, order),
                             TableTotal(AssetTable, p, order), totalOnly)
    ensures lines != [] && lines[|lines| - 1].TotalLine?
    ensures totalOnly ==> |lines| == 1
    ensures forall l :: l in lines && l.AssetLine? ==> l.row.amount > 0.0 && l.row.value > minimum
  {
    var p := Pricing(sums, usdSums, currencyInUsd, minimum);
    var ranked := RankByValue(usdSums);
    order := ranked;
    var rows, smallSum, total := BuildAssetTable(p, ranked);
    ShownRowsAreRankedRows(AssetTable, p, ranked);
    lines := Printed(AssetTable, rows, smallSum, total, totalOnly);
  }

  /** The liability table of `balances`, printed only when some liability was
      summed; `order` is the ranking the sort chose. */
  method LiabilityLines(sums: map<Asset, real>, usdSums: map<Asset, real>, currencyInUsd: real, minimum: real,
                        totalOnly: bool) returns (lines: seq<Line>, ghost order: seq<Asset>)
    requires currencyInUsd != 0.0 && sums.Keys == usdSums.Keys
    ensures Ranks(order, usdSums)
    ensures lines == [] <==> sums == map[]
    ensures sums != map[] ==>
              var p := Pricing(sums, usdSums, currencyInUsd, minimum);
              lines == Printed(LiabilityTable, ShownRows(LiabilityTable, p, order), SmallSum(LiabilityTable, p, order),
                               TableTotal(LiabilityTable, p, order), totalOnly)
    ensures sums != map[] ==> exists l :: l in lines && l.TotalLine?
    ensures forall l :: l in lines && l.AssetLine? ==> l.row.amount > 0.0 && l.row.value >= minimum
  {
    lines, order := [], [];
    if sums != map[] {
      var p := Pricing(sums, usdSums, currencyInUsd, minimum);
      var ranked := RankByValue(usdSums);
      order := ranked;
      var rows, smallSum, total := BuildLiabilityTable(p, ranked);
      ShownRowsAreRankedRows(LiabilityTable, p, ranked);
      lines := Printed(LiabilityTable, rows, smallSum, total, totalOnly);
    } else {
      assert usdSums.Keys == {};
    }
  }

  /** The `balances` command: select accounts, sum their sheets, and lay out the
      asset table and, when any liability was summed, the liability table. `sums`
      are the four dictionaries and the orders the rankings the sort chose.
      Fetching balances, price lookup and output formatting are left to the caller. */
  method BalancesCommand(source: seq<Account>, exclude: Option<string>, keyword: Option<string>,
                         search: (string, string) -> bool, sheetOf: Account -> BalanceSheet,
                         currencyInUsd: real, minimum: real, totalOnly: bool)
    returns (assetLines: seq<Line>, liabilityLines: seq<Line>,
             ghost sums: Sums, ghost assetOrder: seq<Asset>, ghost liabilityOrder: seq<Asset>)
    requires currencyInUsd != 0.0
    ensures var accounts := GetAccounts(source, exclude, keyword, None, search);
            && Summed(sums.assets, accounts, keyword, sheetOf, AssetSide, false)
            && Summed(sums.assetsUsd, accounts, keyword, sheetOf, AssetSide, true)
            && Summed(sums.liabilities, accounts, keyword, sheetOf, LiabilitySide, false)
            && Summed(sums.liabilitiesUsd, accounts, keyword, sheetOf, LiabilitySide, true)
    ensures Ranks(assetOrder, sums.assetsUsd) && Ranks(liabilityOrder, sums.liabilitiesUsd)
    ensures var p := Pricing(sums.assets, sums.assetsUsd, currencyInUsd, minimum);
            assetLines == Printed(AssetTable, ShownRows(AssetTable, p, assetOrder), SmallSum(AssetTable, p, assetOrder),
                                  TableTotal(AssetTable, p, assetOrder), totalOnly)
    ensures liabilityLines != [] ==>
              var p := Pricing(sums.liabilities, sums.liabilitiesUsd, currencyInUsd, minimum);
              liabilityLines == Printed(LiabilityTable, ShownRows(LiabilityTable, p, liabilityOrder),
                                        SmallSum(LiabilityTable, p, liabilityOrder),
                                        TableTotal(LiabilityTable, p, liabilityOrder), totalOnly)
    ensures assetLines != [] && assetLines[|assetLines| - 1].TotalLine?
    ensures totalOnly ==> |assetLines| == 1
    ensures forall l :: l in assetLines && l.AssetLine? ==> l.row.amount > 0.0 && l.row.value > minimum
    ensures liabilityLines == [] <==>
              Holders(GetAccounts(source, exclude, keyword, None, search), keyword, sheetOf, LiabilitySide) == {}
    ensures forall l :: l in liabilityLines && l.AssetLine? ==> l.row.amount > 0.0 && l.row.value >= minimum
  {
    var accounts := GetAccounts(source, exclude, keyword, None, search);
    var assetsSum, assetsUsdSum, liabilitiesSum, liabilitiesUsdSum := SumBalances(accounts, keyword, sheetOf);
    sums := Sums(assetsSum, assetsUsdSum, liabilitiesSum, liabilitiesUsdSum);
    assetLines, assetOrder := AssetLines(assetsSum, assetsUsdSum, currencyInUsd, minimum, totalOnly);
    liabilityLines, liabilityOrder := LiabilityLines(liabilitiesSum, liabilitiesUsdSum, currencyInUsd, minimum, totalOnly);
    assert liabilitiesSum == map[] <==> liabilitiesSum.Keys == {};
  }
}
