/** GET /api/crypto/prices (app/api/crypto/prices/route.ts): the query
    parameters with their defaults, and the projection of each price row
    onto the requested coins. The database query (its date filter and
    ordering) is an input: the rows it returned, or None when it failed. */
module PricesRoute {
  import opened Common
  import opened Strings

  const DefaultCoins: seq<string> := ["BTC", "ETH", "SOL", "BNB"]

  /** `searchParams.get('coins')?.split(',') || [...]`: a present parameter,
      even an empty one, is split at commas (split always returns a
      non-empty, truthy array). */
  function CoinsParam(p: Option<string>): (r: seq<string>)
    ensures |r| >= 1
    ensures p.None? ==> r == DefaultCoins
    ensures p.Some? ==> Join(r, ',') == p.value
  {
    if p.Some? then
      JoinSplit(p.value, ',');
      Split(p.value, ',')
    else DefaultCoins
  }

  /** A list of coin symbols sent as a comma-separated parameter arrives as
      that list. */
  lemma CoinsParamRoundTrip(coins: seq<string>)
    requires |coins| >= 1 && forall c :: c in coins ==> ',' !in c
    ensures CoinsParam(Some(Join(coins, ','))) == coins
  {
    SplitJoin(coins, ',');
  }

  /** A row of crypto_prices: its date and its prices object. */
  datatype PriceRow = PriceRow(date: Value, prices: Value)

  /** The fields `row.prices[coin]` can find: an object's, none for any
      other non-null value. */
  function PriceFields(prices: Value): map<string, Value> {
    if prices.Obj? then prices.fields else map[]
  }

  /** The object the forEach builds for one row, after the first coins. */
  function Projection(date: Value, prices: map<string, Value>, coins: seq<string>): (r: map<string, Value>)
    ensures r.Keys == {"date"} + set c | c in coins && c in prices
    ensures forall c :: c in coins && c in prices ==> r[c] == prices[c]
    ensures "date" !in coins || "date" !in prices ==> r["date"] == date
  {
    if coins == [] then map["date" := date]
    else
      var c := coins[|coins| - 1];
      var before := Projection(date, prices, coins[..|coins| - 1]);
      assert forall x :: x in coins <==> x in coins[..|coins| - 1] || x == c;
      if c in prices then before[c := prices[c]] else before
  }

  /** The forEach over the requested coins, filling the row's object. */
  method ProjectRow(date: Value, prices: map<string, Value>, coins: seq<string>) returns (row: map<string, Value>)
    ensures row == Projection(date, prices, coins)
  {
    row := map["date" := date];
    var k := 0;
    while k < |coins|
      invariant 0 <= k <= |coins|
      invariant row == Projection(date, prices, coins[..k])
    {
      var c := coins[k];
      assert coins[..k + 1][..k] == coins[..k];
      if c in prices {
        row := row[c := prices[c]];
      }
      k := k + 1;
    }
    assert coins[..k] == coins;
  }

  datatype PricesResponse = Rows(rows: seq<map<string, Value>>) | ServerError

  /** The handler after the query. A row whose prices are null makes
      `row.prices[coin]` throw, which the catch turns into a 500. */
  function GetPrices(coinsParam: Option<string>, query: Option<seq<PriceRow>>): (r: PricesResponse)
    ensures query.None? ==> r == ServerError
    ensures query == Some([]) ==> r == Rows([])
    ensures r.ServerError? <==> query.None? || exists k :: 0 <= k < |query.value| && query.value[k].prices == Null
    ensures r.Rows? ==> |r.rows| == |query.value|
    ensures r.Rows? ==> forall k :: 0 <= k < |r.rows| ==>
      r.rows[k] == Projection(query.value[k].date, PriceFields(query.value[k].prices), CoinsParam(coinsParam))
  {
    if query.None? then ServerError
    else
      var rows := query.value;
      if rows == [] then Rows([])
      else if exists k :: 0 <= k < |rows| && rows[k].prices == Null then ServerError
      else Rows(seq(|rows|, k requires 0 <= k < |rows| =>
                    Projection(rows[k].date, PriceFields(rows[k].prices), CoinsParam(coinsParam))))
  }

  /** Every output row carries its input row's date (for the usual coin
      symbols) and exactly the requested coins its prices have, with their
      values; a coin without a price is omitted rather than zeroed. */
  lemma RowsProjectRequestedCoins(coinsParam: Option<string>, query: seq<PriceRow>, k: nat)
    requires GetPrices(coinsParam, Some(query)).Rows? && k < |query|
    requires "date" !in CoinsParam(coinsParam)
    ensures var row := GetPrices(coinsParam, Some(query)).rows[k];
      var coins := CoinsParam(coinsParam);
      row["date"] == query[k].date
      && (forall c :: c in row && c != "date" ==> c in coins && c in PriceFields(query[k].prices))
      && (forall c :: c in coins ==> (c in row <==> c in PriceFields(query[k].prices)))
  {
  }
}
