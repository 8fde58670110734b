/** GET /api/indicators/list (app/api/indicators/list/route.ts): which
    indicators and coins the latest indicators row offers. The latest row's
    `data` object enters as its enumeration: for each coin key in
    Object.keys order, the keys of `data[coin] || {}` in Object.keys order
    (a falsy `data` enumerates as no coins). */
module IndicatorsListRoute {
  import opened Common

  /** One coin of the latest row with its indicator keys, in enumeration
      order. */
  datatype CoinEntry = CoinEntry(coin: string, keys: seq<string>)

  /** The inner forEach over one coin's keys: a key is appended unless it
      is already listed or is "price". */
  function AddIndicators(acc: seq<string>, keys: seq<string>): (r: seq<string>)
    ensures |acc| <= |r| && r[..|acc|] == acc
    ensures forall x :: x in r <==> x in acc || (x in keys && x != "price")
    ensures NoDuplicates(acc) ==> NoDuplicates(r)
    ensures "price" !in acc ==> "price" !in r
  {
    if keys == [] then acc
    else
      var before := AddIndicators(acc, keys[..|keys| - 1]);
      var k := keys[|keys| - 1];
      assert forall x :: x in keys <==> x in keys[..|keys| - 1] || x == k;
      if k in before || k == "price" then before
      else
        assert (before + [k])[..|acc|] == before[..|acc|];
        before + [k]
  }

  /** The outer forEach: the indicators of every coin, first-seen first. */
  function DistinctIndicators(entries: seq<CoinEntry>): (r: seq<string>)
    ensures NoDuplicates(r)
    ensures "price" !in r
    ensures forall x :: x in r <==> exists e :: e in entries && x in e.keys && x != "price"
  {
    if entries == [] then []
    else
      var last := entries[|entries| - 1];
      var r := AddIndicators(DistinctIndicators(entries[..|entries| - 1]), last.keys);
      assert forall e :: e in entries <==> e in entries[..|entries| - 1] || e == last;
      r
  }

  function Coins(entries: seq<CoinEntry>): (r: seq<string>)
    ensures |r| == |entries|
    ensures forall k :: 0 <= k < |entries| ==> r[k] == entries[k].coin
  {
    seq(|entries|, k requires 0 <= k < |entries| => entries[k].coin)
  }

  /** The handler's outer forEach, pushing into `coins` and, through the
      inner loop, into `indicators`. */
  method CollectIndicators(entries: seq<CoinEntry>) returns (indicators: seq<string>, coins: seq<string>)
    ensures indicators == DistinctIndicators(entries)
    ensures coins == Coins(entries)
  {
    indicators := [];
    coins := [];
    var i := 0;
    while i < |entries|
      invariant 0 <= i <= |entries|
      invariant indicators == DistinctIndicators(entries[..i])
      invariant coins == Coins(entries[..i])
    {
      var e := entries[i];
      coins := coins + [e.coin];
      indicators := PushIndicators(indicators, e.keys);
      assert entries[..i + 1][..i] == entries[..i];
      i := i + 1;
    }
    assert entries[..i] == entries;
  }

  /** The inner forEach over one coin's keys. */
  method PushIndicators(start: seq<string>, keys: seq<string>) returns (indicators: seq<string>)
    ensures indicators == AddIndicators(start, keys)
  {
    indicators := start;
    var j := 0;
    while j < |keys|
      invariant 0 <= j <= |keys|
      invariant indicators == AddIndicators(start, keys[..j])
    {
      var k := keys[j];
      assert keys[..j + 1][..j] == keys[..j];
      if k !in indicators && k != "price" {
        indicators := indicators + [k];
      }
      j := j + 1;
    }
    assert keys[..j] == keys;
  }

  function NotPrice(): string -> bool {
    (i: string) => i != "price"
  }

  /** availableCombinations: every coin with its keys other than "price",
      in order. */
  function Combinations(entries: seq<CoinEntry>): (r: seq<CoinEntry>)
    ensures |r| == |entries|
    ensures forall k :: 0 <= k < |entries| ==> r[k].coin == entries[k].coin
    ensures forall k :: 0 <= k < |entries| ==>
      forall x :: x in r[k].keys <==> x in entries[k].keys && x != "price"
    ensures forall k :: 0 <= k < |entries| ==> r[k].keys == Filter(entries[k].keys, NotPrice())
  {
    seq(|entries|, k requires 0 <= k < |entries| => CoinEntry(entries[k].coin, Filter(entries[k].keys, NotPrice())))
  }

  datatype ListResponse =
    | ConfigError
    | ListFailed
    | NoIndicators
    | Listing(indicators: seq<string>, coins: seq<string>, combinations: seq<CoinEntry>)

  /** The handler: the Supabase URL and anon key from the environment
      (missing or empty: 500), then the latest row of the query (None: the
      query reported an error, answered with 500). */
  function ListIndicators(url: Option<string>, anonKey: Option<string>, rows: Option<seq<seq<CoinEntry>>>): (r: ListResponse)
    ensures r.ConfigError? <==> url.None? || url.value == "" || anonKey.None? || anonKey.value == ""
    ensures !r.ConfigError? ==> (r.ListFailed? <==> rows.None?)
    ensures !r.ConfigError? && rows.Some? ==> (r.NoIndicators? <==> rows.value == [])
    ensures r.Listing? ==>
      r.indicators == DistinctIndicators(rows.value[0])
      && r.coins == Coins(rows.value[0])
      && r.combinations == Combinations(rows.value[0])
  {
    if url.None? || url.value == "" || anonKey.None? || anonKey.value == "" then ConfigError
    else if rows.None? then ListFailed
    else if rows.value == [] then NoIndicators
    else
      var entries := rows.value[0];
      Listing(DistinctIndicators(entries), Coins(entries), Combinations(entries))
  }

  /** Every indicator the listing names is offered by some coin's
      combination, and every combination's indicator is in the listing. */
  lemma ListingAgreesWithCombinations(entries: seq<CoinEntry>)
    ensures forall x :: x in DistinctIndicators(entries) <==>
      exists k :: 0 <= k < |entries| && x in Combinations(entries)[k].keys
  {
    var ind, comb := DistinctIndicators(entries), Combinations(entries);
    forall x ensures x in ind <==> exists k :: 0 <= k < |entries| && x in comb[k].keys {
      if x in ind {
        var e :| e in entries && x in e.keys && x != "price";
        var k :| 0 <= k < |entries| && entries[k] == e;
        assert x in comb[k].keys;
      }
      if exists k :: 0 <= k < |entries| && x in comb[k].keys {
        var k :| 0 <= k < |entries| && x in comb[k].keys;
        assert entries[k] in entries;
      }
    }
  }

  /** Adding a coin never removes or reorders the indicators listed so far. */
  lemma MoreCoinsExtendListing(entries: seq<CoinEntry>, e: CoinEntry)
    ensures var before := DistinctIndicators(entries);
      DistinctIndicators(entries + [e])[..|before|] == before
  {
    assert (entries + [e])[..|entries|] == entries;
  }
}
