/** GET /api/crypto/coins (app/api/crypto/coins/route.ts): the symbols a
    chart can offer. Scope "all" lists the tracked coins seen in the top 100
    since a cutoff date, ordered by symbol; the default scope lists the
    latest ranking's symbols by rank, falling back to the latest price row's
    symbols in sorted order. Each database query is an input: its rows, or
    None when it reported an error. */
module CoinsRoute {
  import opened Common
  import opened Strings
  import opened Sorting

  const DefaultScope := "current"

  /** The `scope` parameter. */
  function ScopeParam(p: Option<string>): (r: string)
    ensures p.None? ==> r == DefaultScope
    ensures r != "all" <==> p.None? || p.value != "all"
  {
    StrOr(p, DefaultScope)
  }

  /** A tracked_coins row. */
  datatype TrackedRow = TrackedRow(symbol: string, lastInTop100: string)

  /** The string order of the database's `order('symbol')` and of
      JavaScript's default sort. */
  function SymbolLe(): (string, string) -> bool {
    (a: string, b: string) => LexLe(a, b)
  }

  lemma SymbolLeTotal()
    ensures Total(SymbolLe())
  {
    forall a: string, b: string ensures SymbolLe()(a, b) || SymbolLe()(b, a) {
      LexLeTotal(a, b);
    }
  }

  /** Scope "all": the symbols of the rows with last_in_top100 on or after
      the cutoff (ISO dates compare as strings), sorted. The cutoff, thirty
      days before today, is an input. */
  function RecentSymbols(rows: seq<TrackedRow>, cutoff: string): (r: seq<string>)
    ensures multiset(r) == multiset(Symbols(Filter(rows, Recent(cutoff))))
    ensures SortedBy(r, SymbolLe())
  {
    SymbolLeTotal();
    Sort(Symbols(Filter(rows, Recent(cutoff))), SymbolLe())
  }

  function Recent(cutoff: string): TrackedRow -> bool {
    (t: TrackedRow) => LexLe(cutoff, t.lastInTop100)
  }

  function Symbols(rows: seq<TrackedRow>): (r: seq<string>)
    ensures |r| == |rows|
    ensures forall k :: 0 <= k < |rows| ==> r[k] == rows[k].symbol
  {
    seq(|rows|, k requires 0 <= k < |rows| => rows[k].symbol)
  }

  /** A symbol is listed under scope "all" exactly when some tracked row
      with that symbol was in the top 100 on or after the cutoff. */
  lemma RecentSymbolsMembership(rows: seq<TrackedRow>, cutoff: string, sym: string)
    ensures sym in RecentSymbols(rows, cutoff) <==>
      exists t :: t in rows && t.symbol == sym && LexLe(cutoff, t.lastInTop100)
  {
    var kept := Filter(rows, Recent(cutoff));
    var r := RecentSymbols(rows, cutoff);
    assert sym in r <==> sym in multiset(r);
    assert sym in Symbols(kept) <==> sym in multiset(Symbols(kept));
    if sym in Symbols(kept) {
      var k :| 0 <= k < |kept| && Symbols(kept)[k] == sym;
      assert kept[k] in rows && Recent(cutoff)(kept[k]);
    }
    if exists t :: t in rows && t.symbol == sym && LexLe(cutoff, t.lastInTop100) {
      var t :| t in rows && t.symbol == sym && LexLe(cutoff, t.lastInTop100);
      assert t in kept;
      var k :| 0 <= k < |kept| && kept[k] == t;
      assert Symbols(kept)[k] == sym;
    }
  }

  /** The ranking comparator `(a, b) => a[1] - b[1]`: ascending rank. */
  function RankLe(): ((string, int), (string, int)) -> bool {
    (a: (string, int), b: (string, int)) => a.1 <= b.1
  }

  lemma RankLeTotal()
    ensures Total(RankLe())
  {
  }

  function Keys(entries: seq<(string, int)>): (r: seq<string>)
    ensures |r| == |entries|
    ensures forall k :: 0 <= k < |entries| ==> r[k] == entries[k].0
  {
    if entries == [] then [] else [entries[0].0] + Keys(entries[1..])
  }

  /** The latest ranking's symbols by ascending rank: the keys of a
      rank-sorted permutation of its entries. */
  function ByRank(entries: seq<(string, int)>): (r: seq<string>)
    ensures exists ordered :: multiset(ordered) == multiset(entries) && SortedBy(ordered, RankLe()) && r == Keys(ordered)
  {
    RankLeTotal();
    var ordered := Sort(entries, RankLe());
    Keys(ordered)
  }

  /** Every ranked symbol is listed, as often as it is ranked, and a symbol
      with a smaller rank comes first. */
  lemma ByRankOrder(entries: seq<(string, int)>)
    ensures multiset(ByRank(entries)) == multiset(Keys(entries))
    ensures |ByRank(entries)| == |entries|
  {
    RankLeTotal();
    KeysOfSort(entries);
  }

  /** The keys of a concatenation. */
  lemma KeysConcat(a: seq<(string, int)>, b: seq<(string, int)>)
    ensures Keys(a + b) == Keys(a) + Keys(b)
  {
    var l, r := Keys(a + b), Keys(a) + Keys(b);
    assert |l| == |r|;
    forall k | 0 <= k < |l| ensures l[k] == r[k] {
      if k < |a| {
        assert (a + b)[k] == a[k];
      } else {
        assert (a + b)[k] == b[k - |a|];
      }
    }
  }

  /** Reordering the entries reorders their symbols: a permutation of the
      entries has a permutation of the keys. */
  lemma {:induction false} KeysOfPermutation(a: seq<(string, int)>, b: seq<(string, int)>)
    requires multiset(a) == multiset(b)
    ensures multiset(Keys(a)) == multiset(Keys(b))
    decreases |a|
  {
    if a != [] {
      var x := a[0];
      var j := Occurrence(a, b);
      var before, after := b[..j], b[j + 1..];
      assert multiset(Keys(a[1..])) == multiset(Keys(before + after)) by {
        RestIsPermutation(a, before, after);
        KeysOfPermutation(a[1..], before + after);
      }
      assert multiset(Keys(b)) == multiset(Keys(before + after)) + multiset{x.0} by {
        KeysAround(before, x, after);
      }
      assert multiset(Keys(a)) == multiset(Keys(a[1..])) + multiset{x.0} by {
        KeysCons(x, a[1..]);
        assert [x] + a[1..] == a;
        assert multiset([x.0] + Keys(a[1..])) == multiset(Keys(a[1..])) + multiset{x.0};
      }
    }
  }

  /** The head of a occurs in its permutation b, which splits around it. */
  lemma Occurrence(a: seq<(string, int)>, b: seq<(string, int)>) returns (j: nat)
    requires a != [] && multiset(a) == multiset(b)
    ensures j < |b| && b[j] == a[0] && b == b[..j] + [a[0]] + b[j + 1..]
    ensures multiset(a) == multiset(b[..j] + [a[0]] + b[j + 1..])
  {
    assert a[0] in multiset(b) by {
      assert a[0] in multiset(a);
    }
    j :| 0 <= j < |b| && b[j] == a[0];
    assert b == b[..j] + [a[0]] + b[j + 1..];
  }

  /** Taking the head of a and its occurrence in b leaves permutations. */
  lemma RestIsPermutation(a: seq<(string, int)>, before: seq<(string, int)>, after: seq<(string, int)>)
    requires a != [] && multiset(a) == multiset(before + [a[0]] + after)
    ensures multiset(a[1..]) == multiset(before + after)
  {
    var x := a[0];
    assert a == [x] + a[1..];
    assert multiset(a) == multiset(a[1..]) + multiset{x};
    assert multiset(before + [x] + after) == multiset(before) + multiset([x]) + multiset(after);
    assert multiset(before + after) == multiset(before) + multiset(after);
    assert multiset(a[1..]) == multiset(a) - multiset{x};
  }

  /** One entry in the middle contributes its key once. */
  lemma KeysAround(before: seq<(string, int)>, x: (string, int), after: seq<(string, int)>)
    ensures multiset(Keys(before + [x] + after)) == multiset(Keys(before + after)) + multiset{x.0}
  {
    KeysConcat(before + [x], after);
    KeysConcat(before, [x]);
    KeysConcat(before, after);
    assert Keys([x]) == [x.0];
    assert multiset(Keys(before) + [x.0] + Keys(after)) == multiset(Keys(before)) + multiset{x.0} + multiset(Keys(after));
    assert multiset(Keys(before) + Keys(after)) == multiset(Keys(before)) + multiset(Keys(after));
  }

  lemma KeysCons(x: (string, int), s: seq<(string, int)>)
    ensures Keys([x] + s) == [x.0] + Keys(s)
  {
    assert ([x] + s)[1..] == s;
  }

  lemma KeysOfSort(s: seq<(string, int)>)
    requires Total(RankLe())
    ensures multiset(Keys(Sort(s, RankLe()))) == multiset(Keys(s))
  {
    KeysOfPermutation(Sort(s, RankLe()), s);
  }

  /** The latest crypto_prices row as the fallback reads it:
      `Object.keys(prices)` when its prices are an object, or null prices,
      on which Object.keys throws. */
  datatype LatestPrices = PriceKeys(keys: seq<string>) | NullPrices

  /** The latest crypto_rankings row: its ranking object's entries, or null
      rankings, on which Object.entries throws. */
  datatype LatestRanking = RankEntries(entries: seq<(string, int)>) | NullRanking

  datatype CoinsResponse = Listed(symbols: seq<string>) | NotFound | ServerError

  /** The handler. `tracked`, `rankings` and `prices` are the results of the
      three queries (None: the query reported an error, which is thrown and
      caught as a 500); `rankings` and `prices` hold at most the latest
      row. */
  function GetCoins(scopeParam: Option<string>, cutoff: string, tracked: Option<seq<TrackedRow>>,
                    rankings: Option<seq<LatestRanking>>, prices: Option<seq<LatestPrices>>): (r: CoinsResponse)
    ensures ScopeParam(scopeParam) == "all" ==>
      r == if tracked.None? then ServerError else Listed(RecentSymbols(tracked.value, cutoff))
    ensures ScopeParam(scopeParam) != "all" && rankings.Some? && rankings.value != [] ==>
      r == if rankings.value[0].NullRanking? then ServerError else Listed(ByRank(rankings.value[0].entries))
    ensures ScopeParam(scopeParam) != "all" && rankings == Some([]) && prices == Some([]) ==> r == NotFound
    ensures r == NotFound ==> ScopeParam(scopeParam) != "all" && rankings == Some([]) && prices == Some([])
    ensures ScopeParam(scopeParam) != "all" && rankings.None? ==> r == ServerError
    ensures r == ServerError <==>
      if ScopeParam(scopeParam) == "all" then tracked.None?
      else (rankings.None?
            || (rankings.value != [] && rankings.value[0].NullRanking?)
            || (rankings.value == [] && (prices.None? || (prices.value != [] && prices.value[0].NullPrices?))))
    ensures ScopeParam(scopeParam) != "all" && rankings == Some([]) && prices.Some? && prices.value != [] && prices.value[0].PriceKeys? ==>
      r.Listed? && SortedBy(r.symbols, SymbolLe()) && multiset(r.symbols) == multiset(prices.value[0].keys)
  {
    if ScopeParam(scopeParam) == "all" then
      if tracked.None? then ServerError else Listed(RecentSymbols(tracked.value, cutoff))
    else if rankings.None? then ServerError
    else if rankings.value == [] then
      if prices.None? then ServerError
      else if prices.value == [] then NotFound
      else match prices.value[0]
        case NullPrices => ServerError
        case PriceKeys(keys) => Listed(SortedKeys(keys))
    else match rankings.value[0]
      case NullRanking => ServerError
      case RankEntries(entries) => Listed(ByRank(entries))
  }

  /** The fallback: `Object.keys(prices).sort()`. */
  function SortedKeys(keys: seq<string>): (r: seq<string>)
    ensures multiset(r) == multiset(keys)
    ensures SortedBy(r, SymbolLe())
  {
    SymbolLeTotal();
    Sort(keys, SymbolLe())
  }

  /** The fallback's answer depends only on which symbols the latest price
      row has, not on the order Object.keys enumerates them in. */
  lemma SortedKeysIgnoreOrder(a: seq<string>, b: seq<string>)
    requires NoDuplicates(a) && NoDuplicates(b)
    requires forall x :: x in a <==> x in b
    ensures SortedKeys(a) == SortedKeys(b)
  {
    var sa, sb := SortedKeys(a), SortedKeys(b);
    NoDuplicatesOfPermutation(a, sa);
    NoDuplicatesOfPermutation(b, sb);
    forall x ensures x in sa <==> x in sb {
      assert x in sa <==> x in multiset(sa);
      assert x in sb <==> x in multiset(sb);
      assert x in a <==> x in multiset(a);
      assert x in b <==> x in multiset(b);
    }
    SortedSetsAgree(sa, sb);
  }

  lemma NoDuplicatesOfPermutation(a: seq<string>, b: seq<string>)
    requires NoDuplicates(a) && multiset(a) == multiset(b)
    ensures NoDuplicates(b)
  {
    forall x | x in multiset(a) ensures multiset(a)[x] == 1 {
      MultiplicityOne(a, x);
    }
    forall i, j | 0 <= i < j < |b| ensures b[i] != b[j] {
      TwoOccurrences(b, i, j);
    }
  }

  lemma TwoOccurrences(b: seq<string>, i: nat, j: nat)
    requires i < j < |b|
    ensures b[i] == b[j] ==> multiset(b)[b[i]] >= 2
  {
    if b[i] == b[j] {
      var x := b[i];
      assert b == b[..i] + [x] + b[i + 1..j] + [x] + b[j + 1..];
    }
  }

  lemma {:induction false} MultiplicityOne(a: seq<string>, x: string)
    requires NoDuplicates(a) && x in a
    ensures multiset(a)[x] == 1
  {
    assert a == [a[0]] + a[1..];
    assert NoDuplicates(a[1..]) by {
      forall i, j | 0 <= i < j < |a[1..]| ensures a[1..][i] != a[1..][j] {
        assert a[i + 1] != a[j + 1];
      }
    }
    if a[0] == x {
      assert forall j :: 0 < j < |a| ==> a[j] != x;
      assert x !in a[1..];
    } else {
      MultiplicityOne(a[1..], x);
    }
  }

  /** The first element of a sorted list does not exceed any element. */
  lemma {:induction false} SortedHeadIsLeast(s: seq<string>, k: nat)
    requires SortedBy(s, SymbolLe()) && k < |s|
    ensures LexLe(s[0], s[k])
  {
    if k == 0 {
      LexLeTotal(s[0], s[0]);
    } else {
      SortedHeadIsLeast(s, k - 1);
      assert SymbolLe()(s[k - 1], s[k]);
      LexLeTransitive(s[0], s[k - 1], s[k]);
    }
  }

  /** Two sorted lists without duplicates that hold the same strings are
      the same list. */
  lemma {:induction false} SortedSetsAgree(a: seq<string>, b: seq<string>)
    requires SortedBy(a, SymbolLe()) && SortedBy(b, SymbolLe())
    requires NoDuplicates(a) && NoDuplicates(b)
    requires forall x :: x in a <==> x in b
    ensures a == b
    decreases |a|
  {
    if a != [] {
      assert a[0] in b;
      assert b[0] in a;
      var i :| 0 <= i < |b| && b[i] == a[0];
      var j :| 0 <= j < |a| && a[j] == b[0];
      SortedHeadIsLeast(b, i);
      SortedHeadIsLeast(a, j);
      LexLeAntisymmetric(a[0], b[0]);
      SortedTail(a);
      SortedTail(b);
      SortedSetsAgree(a[1..], b[1..]);
      assert a == [a[0]] + a[1..];
      assert b == [b[0]] + b[1..];
    } else {
      HeadIsElement(b);
    }
  }

  lemma HeadIsElement(b: seq<string>)
    ensures b != [] ==> b[0] in b
  {
  }

  /** Dropping the head of a sorted list without duplicates leaves a sorted
      list without duplicates that holds the other elements. */
  lemma SortedTail(a: seq<string>)
    requires a != [] && SortedBy(a, SymbolLe()) && NoDuplicates(a)
    ensures SortedBy(a[1..], SymbolLe()) && NoDuplicates(a[1..])
    ensures forall x :: x in a[1..] <==> x in a && x != a[0]
  {
    var t := a[1..];
    forall x ensures x in t <==> x in a && x != a[0] {
      if x in t {
        var m :| 0 <= m < |t| && t[m] == x;
        assert a[m + 1] == x;
      }
      if x in a && x != a[0] {
        var m :| 0 <= m < |a| && a[m] == x;
        assert t[m - 1] == x;
      }
    }
    forall m | 0 < m < |t| ensures SymbolLe()(t[m - 1], t[m]) {
      assert SymbolLe()(a[m], a[m + 1]);
    }
    forall p, q | 0 <= p < q < |t| ensures t[p] != t[q] {
      assert a[p + 1] != a[q + 1];
    }
  }
}
