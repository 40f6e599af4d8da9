/** Duplicate removal in the `fetch` command: trades are identified by
    (location, link) and the first trade with a given identity wins. */
module TradeDedup {
  import opened Trades
  import opened Seqs

  type TradeKey = (string, string)

  function Key(t: Trade): TradeKey
  {
    (t.location, t.link)
  }

  function KeySet(s: seq<Trade>): set<TradeKey>
  {
    set t | t in s :: Key(t)
  }

  /** No two entries share a key. */
  ghost predicate KeysDistinct(s: seq<Trade>)
  {
    forall i, j :: 0 <= i < j < |s| ==> Key(s[i]) != Key(s[j])
  }

  /** `s[i]` is the first entry of `s` with its key. */
  ghost predicate FirstWithKey(s: seq<Trade>, i: int)
  {
    0 <= i < |s| && forall j :: 0 <= j < i ==> Key(s[j]) != Key(s[i])
  }

  /** The trades of `s` that survive when the keys in `seen` are already taken:
      an entry is kept when its key is neither in `seen` nor on an earlier entry. */
  function DedupAfter(seen: set<TradeKey>, s: seq<Trade>): (r: seq<Trade>)
    ensures IsSubsequence(r, s)
    ensures KeySet(r) == KeySet(s) - seen
    ensures KeysDistinct(r)
    decreases |s|
  {
    if s == [] then []
    else if Key(s[0]) in seen then
      var rest := DedupAfter(seen, s[1..]);
      assert s == [s[0]] + s[1..];
      rest
    else
      var rest := DedupAfter(seen + {Key(s[0])}, s[1..]);
      assert s == [s[0]] + s[1..];
      assert ([s[0]] + rest)[1..] == rest;
      KeySetCons(s[0], s[1..]);
      KeySetCons(s[0], rest);
      [s[0]] + rest
  }

  /** The trades written out by `fetch`: `trades` with duplicates removed, one
      trade for every identity, in input order. */
  function Dedup(s: seq<Trade>): (r: seq<Trade>)
    ensures IsSubsequence(r, s)
    ensures KeySet(r) == KeySet(s)
    ensures KeysDistinct(r)
  {
    DedupAfter({}, s)
  }

  /** Every kept trade is the first trade of the input with its key. */
  lemma {:induction false} KeptAreFirstOccurrences(seen: set<TradeKey>, s: seq<Trade>)
    ensures forall t :: t in DedupAfter(seen, s) ==>
              Key(t) !in seen && exists i :: FirstWithKey(s, i) && s[i] == t
    decreases |s|
  {
    if s != [] {
      var k := Key(s[0]);
      var seen' := if k in seen then seen else seen + {k};
      KeptAreFirstOccurrences(seen', s[1..]);
      forall t | t in DedupAfter(seen, s)
        ensures Key(t) !in seen && exists i :: FirstWithKey(s, i) && s[i] == t
      {
        if k !in seen && t == s[0] {
          assert FirstWithKey(s, 0);
        } else {
          assert t in DedupAfter(seen', s[1..]);
          var i :| FirstWithKey(s[1..], i) && s[1..][i] == t;
          assert Key(t) != k;
          assert FirstWithKey(s, i + 1);
        }
      }
    }
  }

  /** Deduplicating a list whose keys are already distinct and untaken changes nothing. */
  lemma {:induction false} DedupOfDistinct(seen: set<TradeKey>, s: seq<Trade>)
    requires KeysDistinct(s) && KeySet(s) !! seen
    ensures DedupAfter(seen, s) == s
    decreases |s|
  {
    if s != [] {
      assert s == [s[0]] + s[1..];
      assert Key(s[0]) in KeySet(s);
      forall t | t in s[1..] ensures Key(t) != Key(s[0]) {
        var j :| 0 <= j < |s[1..]| && s[1..][j] == t;
        assert s[j + 1] == t;
      }
      DedupOfDistinct(seen + {Key(s[0])}, s[1..]);
    }
  }

  /** Deduplication is idempotent. */
  lemma DedupIdempotent(s: seq<Trade>)
    ensures Dedup(Dedup(s)) == Dedup(s)
  {
    DedupOfDistinct({}, Dedup(s));
  }

  /** The deduplicated list is empty exactly when the input is, so writing it when
      the input is non-empty never writes an empty list. */
  lemma DedupEmptyIff(s: seq<Trade>)
    ensures Dedup(s) == [] <==> s == []
  {
    if s != [] {
      assert Key(s[0]) in KeySet(s);
    }
  }

  /** The first pass of `fetch` places fetched trades before annotated ones, so on a
      key collision the fetched trade is the one kept. */
  lemma FetchedWinsOverAnnotated(fetched: seq<Trade>, annotated: seq<Trade>, t: Trade)
    requires t in Dedup(fetched + annotated)
    requires Key(t) in KeySet(fetched)
    ensures t in fetched
  {
    var s := fetched + annotated;
    KeptAreFirstOccurrences({}, s);
    var i :| FirstWithKey(s, i) && s[i] == t;
    var u :| u in fetched && Key(u) == Key(t);
    var j :| 0 <= j < |fetched| && fetched[j] == u;
    assert s[j] == u;
    assert i <= j;
    assert t == fetched[i];
  }

  /** One iteration of the dedup loop keeps the loop's invariant: what is kept so
      far, followed by what the rest gives, is unchanged. */
  lemma DedupLoopStep(unique: seq<Trade>, existing: set<TradeKey>, trades: seq<Trade>, i: int)
    requires 0 <= i < |trades|
    requires unique + DedupAfter(existing, trades[i..]) == Dedup(trades)
    ensures Key(trades[i]) in existing ==> unique + DedupAfter(existing, trades[i + 1..]) == Dedup(trades)
    ensures Key(trades[i]) !in existing ==>
              (unique + [trades[i]]) + DedupAfter(existing + {Key(trades[i])}, trades[i + 1..]) == Dedup(trades)
  {
    var t := trades[i];
    assert trades[i..][0] == t && trades[i..][1..] == trades[i + 1..];
    if Key(t) !in existing {
      assert (unique + [t]) + DedupAfter(existing + {Key(t)}, trades[i + 1..])
          == unique + ([t] + DedupAfter(existing + {Key(t)}, trades[i + 1..]));
    }
  }

  lemma KeySetCons(t: Trade, s: seq<Trade>)
    ensures KeySet([t] + s) == {Key(t)} + KeySet(s)
  {
    assert forall u :: u in [t] + s <==> u == t || u in s;
  }

  lemma KeySetAppend(s: seq<Trade>, t: Trade)
    ensures KeySet(s + [t]) == KeySet(s) + {Key(t)}
  {
    assert forall u :: u in s + [t] <==> u in s || u == t;
  }

  /** The loop of `fetch` over `trades`: a set of seen keys and a growing list. */
  method DeduplicateTrades(trades: seq<Trade>) returns (unique: seq<Trade>)
    ensures unique == Dedup(trades)
  {
    var existing: set<TradeKey> := {};
    unique := [];
    var i := 0;
    while i < |trades|
      invariant 0 <= i <= |trades|
      invariant existing == KeySet(unique)
      invariant unique + DedupAfter(existing, trades[i..]) == Dedup(trades)
    {
      var trade := trades[i];
      DedupLoopStep(unique, existing, trades, i);
      if Key(trade) !in existing {
        KeySetAppend(unique, trade);
        existing := existing + {Key(trade)};
        unique := unique + [trade];
      }
      i := i + 1;
    }
  }

  /** What `fetch` does with the trades file of an account. */
  datatype TradesFileUpdate = Write(trades: seq<Trade>) | DeleteIfExists

  /** The file is written with the deduplicated trades when any trade was
      collected, and removed otherwise; a written file is never empty. */
  function UpdateTradesFile(trades: seq<Trade>): (u: TradesFileUpdate)
    ensures u.Write? <==> trades != []
    ensures u.Write? ==> u.trades == Dedup(trades)
    ensures u.Write? ==> u.trades != [] && IsSubsequence(u.trades, trades)
    ensures u.Write? ==> KeySet(u.trades) == KeySet(trades) && KeysDistinct(u.trades)
  {
    DedupEmptyIff(trades);
    if trades != [] then Write(Dedup(trades)) else DeleteIfExists
  }
}
