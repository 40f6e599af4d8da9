/** The Zerion CSV importer: turns the confirmed Uniswap trades of an account's
    Zerion export into trades, oldest first, skipping rows with unknown assets. */
module ZerionCsv {
  import opened Wrappers
  import opened Strings
  import opened Seqs
  import opened Trades

  /** One row of the export, after parsing. Missing Application, Buy Currency, Buy
      Currency Address, Sell Currency Address and Fee Currency cells are "". */
  datatype Row = Row(
    timestamp: int,
    status: string,
    transactionType: string,
    application: string,
    buyCurrency: string,
    buyCurrencyAddress: string,
    buyAmount: real,
    sellCurrency: string,
    sellCurrencyAddress: string,
    sellAmount: real,
    feeCurrency: string,
    feeAmount: real,
    txHash: string)

  /** The one failure that escapes the importer: a Buy Amount of zero makes the
      rate a division by zero. */
  datatype ImportError = ZeroBuyAmount

  /** Prefix of the asset identifier of an ERC-20 token on Ethereum mainnet. */
  const Erc20Prefix: string := "eip155:1/erc20:"

  /** Where the export of an account is looked for. */
  function ZerionPath(accountName: string): (path: string)
    ensures |path| == |accountName| + 11
    ensures path[..7] == "zerion/" && path[|path| - 4..] == ".csv"
    ensures path[7..|path| - 4] == accountName
  {
    "zerion/" + accountName + ".csv"
  }

  /** The rows the importer considers; the location of their trades is "uniswap",
      the lower-cased Application. */
  function IsUniswapTrade(row: Row): (b: bool)
    ensures b ==> Lower(row.application) == "uniswap"
  {
    row.status == "Confirmed" && row.transactionType == "Trade" && row.application == "Uniswap"
  }

  /** The identifier looked up for one side of a trade: the token contract address
      under the ERC-20 prefix when the address cell is filled, else the symbol. */
  function AssetId(address: string, symbol: string): (id: string)
    ensures address != "" ==> |id| > |Erc20Prefix| && id[..|Erc20Prefix|] == Erc20Prefix
                              && id[|Erc20Prefix|..] == address
    ensures address == "" ==> id == symbol
  {
    if address != "" then Erc20Prefix + address else symbol
  }

  /** What the loop does with one row. */
  datatype Step = Skip | Produce(trade: Trade) | Fail

  /** One iteration of the loop: look up base, quote and fee asset (any unknown
      asset skips the row), then build a buy trade whose rate is the sold amount
      per bought unit. */
  function ConvertRow(row: Row, lookup: string -> Option<Asset>): (s: Step)
    ensures s.Skip? <==>
              || lookup(AssetId(row.buyCurrencyAddress, row.buyCurrency)).None?
              || lookup(AssetId(row.sellCurrencyAddress, row.sellCurrency)).None?
              || lookup(row.feeCurrency).None?
    ensures s.Fail? <==> !s.Skip? && row.buyAmount == 0.0
  {
    var base := lookup(AssetId(row.buyCurrencyAddress, row.buyCurrency));
    var quote := lookup(AssetId(row.sellCurrencyAddress, row.sellCurrency));
    var fee := lookup(row.feeCurrency);
    if base.None? || quote.None? || fee.None? then Skip
    else if row.buyAmount == 0.0 then Fail
    else
      Produce(Trade(row.timestamp, Lower(row.application), base.value, quote.value, Buy,
                    row.buyAmount, row.sellAmount / row.buyAmount, row.feeAmount, fee.value, row.txHash))
  }

  /** The trades produced from `rows` in order, or the error of the first row that
      fails. At most one trade per row. */
  function ConvertRows(rows: seq<Row>, lookup: string -> Option<Asset>): (r: Result<seq<Trade>, ImportError>)
    ensures r.Ok? ==> |r.value| <= |rows|
  {
    if rows == [] then Ok([])
    else
      match ConvertRow(rows[0], lookup)
      case Skip => ConvertRows(rows[1..], lookup)
      case Fail => Err(ZeroBuyAmount)
      case Produce(t) =>
        match ConvertRows(rows[1..], lookup)
        case Ok(ts) => Ok([t] + ts)
        case Err(e) => Err(e)
  }

  /** Trades collected so far followed by what the remaining rows give. */
  function Prepend(done: seq<Trade>, rest: Result<seq<Trade>, ImportError>): Result<seq<Trade>, ImportError>
  {
    match rest
    case Ok(ts) => Ok(done + ts)
    case Err(e) => Err(e)
  }

  /** Every trade is produced by one of the rows. */
  lemma {:induction false} TradesComeFromRows(rows: seq<Row>, lookup: string -> Option<Asset>)
    ensures ConvertRows(rows, lookup).Ok? ==>
              forall t :: t in ConvertRows(rows, lookup).value ==>
                exists row :: row in rows && ConvertRow(row, lookup) == Produce(t)
  {
    if rows != [] {
      TradesComeFromRows(rows[1..], lookup);
      var rest := ConvertRows(rows[1..], lookup);
      if ConvertRows(rows, lookup).Ok? {
        forall t | t in ConvertRows(rows, lookup).value
          ensures exists row :: row in rows && ConvertRow(row, lookup) == Produce(t)
        {
          if ConvertRow(rows[0], lookup) == Produce(t) {
            assert rows[0] in rows;
          } else {
            assert t in rest.value;
            var row :| row in rows[1..] && ConvertRow(row, lookup) == Produce(t);
            assert row in rows;
          }
        }
      }
    }
  }

  /** Rows in non-decreasing Timestamp order. */
  ghost predicate RowsByTimestamp(rows: seq<Row>)
  {
    forall i, j :: 0 <= i < j < |rows| ==> rows[i].timestamp <= rows[j].timestamp
  }

  /** Trades in non-decreasing timestamp order. */
  ghost predicate TradesByTimestamp(trades: seq<Trade>)
  {
    forall i, j :: 0 <= i < j < |trades| ==> trades[i].timestamp <= trades[j].timestamp
  }

  /** A trade no later than any of a sorted list keeps it sorted when put in front. */
  lemma ConsByTimestamp(t: Trade, ts: seq<Trade>)
    requires TradesByTimestamp(ts)
    requires forall k :: 0 <= k < |ts| ==> t.timestamp <= ts[k].timestamp
    ensures TradesByTimestamp([t] + ts)
  {
    var all := [t] + ts;
    forall i, j | 0 <= i < j < |all| ensures all[i].timestamp <= all[j].timestamp {
      assert all[j] == ts[j - 1];
      if i > 0 {
        assert all[i] == ts[i - 1];
      }
    }
  }

  /** Rows no earlier than `bound` give trades no earlier than `bound`. */
  lemma {:induction false} TradesNotBefore(rows: seq<Row>, lookup: string -> Option<Asset>, bound: int)
    requires forall k :: 0 <= k < |rows| ==> bound <= rows[k].timestamp
    ensures ConvertRows(rows, lookup).Ok? ==>
              forall k :: 0 <= k < |ConvertRows(rows, lookup).value| ==> bound <= ConvertRows(rows, lookup).value[k].timestamp
  {
    if rows != [] {
      var tail := rows[1..];
      assert forall k :: 0 <= k < |tail| ==> tail[k] == rows[k + 1];
      TradesNotBefore(tail, lookup, bound);
      var step := ConvertRow(rows[0], lookup);
      if step.Produce? && ConvertRows(tail, lookup).Ok? {
        var ts := ConvertRows(tail, lookup).value;
        assert ConvertRows(rows, lookup).value == [step.trade] + ts;
        assert step.trade.timestamp == rows[0].timestamp;
      }
    }
  }

  /** Every trade converted from `rows[1..]` is no earlier than `rows[0]`. */
  lemma HeadPrecedesRest(rows: seq<Row>, lookup: string -> Option<Asset>, ts: seq<Trade>)
    requires rows != [] && RowsByTimestamp(rows)
    requires ConvertRows(rows[1..], lookup) == Ok(ts)
    ensures forall k :: 0 <= k < |ts| ==> rows[0].timestamp <= ts[k].timestamp
  {
    var tail := rows[1..];
    forall k | 0 <= k < |tail| ensures rows[0].timestamp <= tail[k].timestamp {
      assert tail[k] == rows[k + 1];
    }
    TradesNotBefore(tail, lookup, rows[0].timestamp);
  }

  /** Converting rows sorted by Timestamp gives trades sorted by timestamp. */
  lemma {:induction false} SortedRowsGiveSortedTrades(rows: seq<Row>, lookup: string -> Option<Asset>)
    requires RowsByTimestamp(rows)
    ensures ConvertRows(rows, lookup).Ok? ==> TradesByTimestamp(ConvertRows(rows, lookup).value)
  {
    if rows != [] && ConvertRows(rows, lookup).Ok? {
      var tail := rows[1..];
      assert RowsByTimestamp(tail) by {
        forall i, j | 0 <= i < j < |tail| ensures tail[i].timestamp <= tail[j].timestamp {
          assert tail[i] == rows[i + 1] && tail[j] == rows[j + 1];
        }
      }
      SortedRowsGiveSortedTrades(tail, lookup);
      var step := ConvertRow(rows[0], lookup);
      if step.Produce? {
        var ts := ConvertRows(tail, lookup).value;
        HeadPrecedesRest(rows, lookup, ts);
        ConsByTimestamp(step.trade, ts);
        assert ConvertRows(rows, lookup).value == [step.trade] + ts;
      }
    }
  }

  /** Conversion distributes over concatenation of the rows. */
  lemma {:induction false} ConvertRowsAppend(xs: seq<Row>, ys: seq<Row>, lookup: string -> Option<Asset>)
    ensures ConvertRows(xs + ys, lookup) ==
              match ConvertRows(xs, lookup)
              case Err(e) => Err(e)
              case Ok(ts) => Prepend(ts, ConvertRows(ys, lookup))
  {
    if xs == [] {
      assert xs + ys == ys;
      assert forall us: seq<Trade> :: [] + us == us;
    } else {
      assert (xs + ys)[1..] == xs[1..] + ys;
      assert (xs + ys)[0] == xs[0];
      ConvertRowsAppend(xs[1..], ys, lookup);
      var step := ConvertRow(xs[0], lookup);
      if step.Produce? {
        assert forall ts: seq<Trade>, us: seq<Trade> :: [step.trade] + (ts + us) == [step.trade] + ts + us;
      }
    }
  }

  /** A row with an unknown asset is skipped without affecting the other rows. */
  lemma SkippedRowIsInvisible(before: seq<Row>, row: Row, after: seq<Row>, lookup: string -> Option<Asset>)
    requires lookup(row.feeCurrency).None?
          || lookup(AssetId(row.buyCurrencyAddress, row.buyCurrency)).None?
          || lookup(AssetId(row.sellCurrencyAddress, row.sellCurrency)).None?
    ensures ConvertRows(before + [row] + after, lookup) == ConvertRows(before + after, lookup)
  {
    ConvertRowsAppend(before, [row] + after, lookup);
    ConvertRowsAppend(before, after, lookup);
    assert before + [row] + after == before + ([row] + after);
    assert ([row] + after)[1..] == after;
  }

  /** The first `n` cells of `a` are in non-decreasing Timestamp order. */
  ghost predicate SortedUpTo(a: array<Row>, n: int)
    reads a
  {
    forall p, q :: 0 <= p < q < n && q < a.Length ==> a[p].timestamp <= a[q].timestamp
  }

  /** Exchanges two neighbouring cells. */
  method SwapAdjacent(a: array<Row>, j: int)
    requires 0 < j < a.Length
    modifies a
    ensures a[j - 1] == old(a[j]) && a[j] == old(a[j - 1])
    ensures forall k :: 0 <= k < a.Length && k != j - 1 && k != j ==> a[k] == old(a[k])
    ensures multiset(a[..]) == old(multiset(a[..]))
  {
    a[j - 1], a[j] := a[j], a[j - 1];
  }

  /** While `a[i]` travels left to position `j`: the rows up to `i` other than the
      one at `j` are in order, and the travelling row is no later than those after it. */
  ghost predicate Inserting(s: seq<Row>, i: int, j: int)
    requires 0 <= j <= i < |s|
  {
    && (forall p, q :: 0 <= p < q <= i && p != j && q != j ==> s[p].timestamp <= s[q].timestamp)
    && (forall q :: j < q <= i ==> s[j].timestamp <= s[q].timestamp)
  }

  /** Swapping the travelling row with a later-stamped left neighbour moves it one step left. */
  lemma SwapKeepsInserting(s: seq<Row>, s': seq<Row>, i: int, j: int)
    requires 0 < j <= i < |s| == |s'|
    requires s'[j - 1] == s[j] && s'[j] == s[j - 1]
    requires forall k :: 0 <= k < |s| && k != j - 1 && k != j ==> s'[k] == s[k]
    requires s[j - 1].timestamp > s[j].timestamp
    requires Inserting(s, i, j)
    ensures Inserting(s', i, j - 1)
  {
  }

  /** Moves `a[i]` left past every later-stamped row, extending the sorted prefix by one. */
  method InsertAt(a: array<Row>, i: int)
    requires 0 <= i < a.Length && SortedUpTo(a, i)
    modifies a
    ensures SortedUpTo(a, i + 1)
    ensures multiset(a[..]) == old(multiset(a[..]))
  {
    var j := i;
    while j > 0 && a[j - 1].timestamp > a[j].timestamp
      invariant 0 <= j <= i
      invariant Inserting(a[..], i, j)
      invariant multiset(a[..]) == old(multiset(a[..]))
    {
      ghost var before := a[..];
      SwapAdjacent(a, j);
      SwapKeepsInserting(before, a[..], i, j);
      j := j - 1;
    }
  }

  /** `df.sort_values('Timestamp', inplace=True)`: reorders the rows in place by
      non-decreasing Timestamp (insertion sort). The order among equal timestamps
      is unspecified. */
  method SortByTimestamp(a: array<Row>)
    modifies a
    ensures RowsByTimestamp(a[..])
    ensures multiset(a[..]) == old(multiset(a[..]))
  {
    var i := 0;
    while i < a.Length
      invariant 0 <= i <= a.Length
      invariant SortedUpTo(a, i)
      invariant multiset(a[..]) == old(multiset(a[..]))
    {
      InsertAt(a, i);
      i := i + 1;
    }
  }

  /** A produced trade is a buy of the looked-up base asset paid in the looked-up
      quote asset, at the row's time and with its fee and hash; its rate is the
      price of one unit bought, so bought amount times rate gives back the amount sold. */
  lemma ProducedTrade(row: Row, lookup: string -> Option<Asset>)
    ensures ConvertRow(row, lookup).Produce? ==>
              var t := ConvertRow(row, lookup).trade;
              && Some(t.baseAsset) == lookup(AssetId(row.buyCurrencyAddress, row.buyCurrency))
              && Some(t.quoteAsset) == lookup(AssetId(row.sellCurrencyAddress, row.sellCurrency))
              && Some(t.feeCurrency) == lookup(row.feeCurrency)
              && t.timestamp == row.timestamp
              && t.location == Lower(row.application)
              && t.tradeType == Buy
              && t.amount == row.buyAmount
              && t.amount * t.rate == row.sellAmount
              && t.fee == row.feeAmount
              && t.link == row.txHash
  {
  }

  /** A row whose three assets are known and whose Buy Amount is not zero
      produces its trade. */
  lemma RowProduces(row: Row, lookup: string -> Option<Asset>, base: Asset, quote: Asset, fee: Asset)
    requires lookup(AssetId(row.buyCurrencyAddress, row.buyCurrency)) == Some(base)
    requires lookup(AssetId(row.sellCurrencyAddress, row.sellCurrency)) == Some(quote)
    requires lookup(row.feeCurrency) == Some(fee)
    requires row.buyAmount != 0.0
    ensures ConvertRow(row, lookup)
            == Produce(Trade(row.timestamp, Lower(row.application), base, quote, Buy,
                             row.buyAmount, row.sellAmount / row.buyAmount, row.feeAmount, fee, row.txHash))
  {
  }

  /** One iteration of the conversion loop over a skipped row. */
  lemma SkipStep(trades: seq<Trade>, rows: seq<Row>, i: int, lookup: string -> Option<Asset>)
    requires 0 <= i < |rows| && ConvertRow(rows[i], lookup).Skip?
    requires Prepend(trades, ConvertRows(rows[i..], lookup)) == ConvertRows(rows, lookup)
    ensures Prepend(trades, ConvertRows(rows[i + 1..], lookup)) == ConvertRows(rows, lookup)
  {
    assert rows[i..][0] == rows[i] && rows[i..][1..] == rows[i + 1..];
  }

  /** A row whose three assets are known and whose Buy Amount is zero ends the
      whole import with the error. */
  lemma FailStep(trades: seq<Trade>, rows: seq<Row>, i: int, lookup: string -> Option<Asset>)
    requires 0 <= i < |rows| && ConvertRow(rows[i], lookup).Fail?
    requires Prepend(trades, ConvertRows(rows[i..], lookup)) == ConvertRows(rows, lookup)
    ensures ConvertRows(rows, lookup) == Err(ZeroBuyAmount)
  {
    assert rows[i..][0] == rows[i];
  }

  lemma PrependPrepend(a: seq<Trade>, b: seq<Trade>, r: Result<seq<Trade>, ImportError>)
    ensures Prepend(a, Prepend(b, r)) == Prepend(a + b, r)
  {
    if r.Ok? {
      assert a + (b + r.value) == (a + b) + r.value;
    }
  }

  lemma PrependNothing(r: Result<seq<Trade>, ImportError>)
    ensures Prepend([], r) == r
  {
    if r.Ok? {
      assert [] + r.value == r.value;
    }
  }

  lemma ProducedHead(s: seq<Row>, lookup: string -> Option<Asset>, t: Trade)
    requires s != [] && ConvertRow(s[0], lookup) == Produce(t)
    ensures ConvertRows(s, lookup) == Prepend([t], ConvertRows(s[1..], lookup))
  {
  }

  /** One iteration of the conversion loop over a row that produces a trade. */
  lemma ProduceStep(trades: seq<Trade>, rows: seq<Row>, i: int, lookup: string -> Option<Asset>, t: Trade)
    requires 0 <= i < |rows| && ConvertRow(rows[i], lookup) == Produce(t)
    requires Prepend(trades, ConvertRows(rows[i..], lookup)) == ConvertRows(rows, lookup)
    ensures Prepend(trades + [t], ConvertRows(rows[i + 1..], lookup)) == ConvertRows(rows, lookup)
  {
    assert rows[i..][0] == rows[i] && rows[i..][1..] == rows[i + 1..];
    ProducedHead(rows[i..], lookup, t);
    PrependPrepend(trades, [t], ConvertRows(rows[i + 1..], lookup));
  }

  /** The loop of `get_trades` over the sorted rows: skips rows with an unknown
      asset, stops with the error on a zero Buy Amount, and appends one trade per
      remaining row. */
  method ConvertLoop(rows: seq<Row>, lookup: string -> Option<Asset>) returns (result: Result<seq<Trade>, ImportError>)
    ensures result == ConvertRows(rows, lookup)
  {
    var trades: seq<Trade> := [];
    var i := 0;
    assert rows[0..] == rows;
    PrependNothing(ConvertRows(rows, lookup));
    while i < |rows|
      invariant 0 <= i <= |rows|
      invariant Prepend(trades, ConvertRows(rows[i..], lookup)) == ConvertRows(rows, lookup)
    {
      var row := rows[i];
      var base := lookup(AssetId(row.buyCurrencyAddress, row.buyCurrency));
      var quote := lookup(AssetId(row.sellCurrencyAddress, row.sellCurrency));
      var fee := lookup(row.feeCurrency);
      if base.None? || quote.None? || fee.None? {
        SkipStep(trades, rows, i, lookup);
        i := i + 1;
        continue;
      }
      if row.buyAmount == 0.0 {
        FailStep(trades, rows, i, lookup);
        return Err(ZeroBuyAmount);
      }
      var trade := Trade(row.timestamp, Lower(row.application), base.value, quote.value, Buy,
                         row.buyAmount, row.sellAmount / row.buyAmount, row.feeAmount, fee.value, row.txHash);
      RowProduces(row, lookup, base.value, quote.value, fee.value);
      ProduceStep(trades, rows, i, lookup, trade);
      trades := trades + [trade];
      i := i + 1;
    }
    assert rows[|rows|..] == [];
    assert trades + [] == trades;
    result := Ok(trades);
  }

  /** `get_trades`: no export file means no trades; otherwise the Uniswap rows,
      sorted by Timestamp, are converted in order. `ordered` is the order the sort
      chose. */
  method GetTrades(files: map<string, seq<Row>>, accountName: string, lookup: string -> Option<Asset>)
    returns (result: Result<seq<Trade>, ImportError>, ghost ordered: seq<Row>)
    ensures ZerionPath(accountName) !in files ==> result == Ok([])
    ensures ZerionPath(accountName) in files ==>
              && multiset(ordered) == multiset(Filter(files[ZerionPath(accountName)], IsUniswapTrade))
              && RowsByTimestamp(ordered)
    ensures result == ConvertRows(ordered, lookup)
    ensures result.Ok? ==> TradesByTimestamp(result.value)
    ensures result.Ok? ==> |result.value| <= |ordered|
    ensures result.Ok? ==> forall t :: t in result.value ==>
              exists row :: row in ordered && IsUniswapTrade(row) && ConvertRow(row, lookup) == Produce(t)
  {
    var path := ZerionPath(accountName);
    if path !in files {
      ordered := [];
      return Ok([]), ordered;
    }
    var selected := Filter(files[path], IsUniswapTrade);
    var frame := new Row[|selected|](i requires 0 <= i < |selected| => selected[i]);
    assert frame[..] == selected;
    SortByTimestamp(frame);
    var records := frame[..];
    ordered := records;
    forall row | row in ordered ensures IsUniswapTrade(row) {
      assert multiset(ordered)[row] > 0;
    }
    result := ConvertLoop(records, lookup);
    SortedRowsGiveSortedTrades(ordered, lookup);
    TradesComeFromRows(ordered, lookup);
  }
}
