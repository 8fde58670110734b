/** The coin picker (components/CoinSelector.tsx): the search filter over
    the available coins and the capped toggle of the selection. The
    component hands each new selection to onChange; here a handler returns
    that argument, None when onChange is not called. */
module CoinSelector {
  import opened Common
  import opened Strings

  const DefaultMaxCoins := 5

  /** `s.includes(t)`: t occurs in s as a contiguous piece. */
  predicate Includes(s: string, t: string) {
    StartsWith(s, t) || (s != [] && Includes(s[1..], t))
  }

  lemma IncludesEmpty(s: string)
    ensures Includes(s, "")
  {
    assert StartsWith(s, "");
  }

  lemma IncludesItself(s: string)
    ensures Includes(s, s)
  {
    assert s[..|s|] == s;
  }

  predicate Matches(coin: string, term: string) {
    Includes(Lower(coin), Lower(term))
  }

  /** filteredCoins: the available coins, in order, whose lower-cased name
      contains the lower-cased search term. */
  function FilteredCoins(available: seq<string>, term: string): (r: seq<string>)
    ensures forall c :: c in r <==> c in available && Matches(c, term)
    ensures |r| <= |available|
  {
    Filter(available, (c: string) => Matches(c, term))
  }

  /** An empty search shows every coin; a coin always matches its own name
      in any letter case. */
  lemma EmptySearchShowsAll(available: seq<string>)
    ensures FilteredCoins(available, "") == available
  {
    forall c | c in available ensures Matches(c, "") {
      IncludesEmpty(Lower(c));
    }
  }

  lemma CoinMatchesItsName(coin: string)
    ensures Matches(coin, coin) && Matches(coin, Lower(coin))
  {
    IncludesItself(Lower(coin));
    forall i | 0 <= i < |coin| ensures LowerChar(LowerChar(coin[i])) == LowerChar(coin[i]) {
    }
    assert Lower(Lower(coin)) == Lower(coin);
  }

  /** handleCoinToggle: a selected coin is removed; an unselected one is
      appended below the cap; at the cap an alert is shown and onChange is
      not called. */
  function Toggle(selected: seq<string>, coin: string, maxCoins: int): (r: Option<seq<string>>)
    ensures coin in selected ==> r.Some? && coin !in r.value
    ensures coin in selected ==> forall c :: c in r.value <==> c in selected && c != coin
    ensures coin !in selected && |selected| < maxCoins ==> r == Some(selected + [coin])
    ensures coin !in selected && |selected| >= maxCoins ==> r.None?
  {
    if coin in selected then Some(Filter(selected, Without(coin)))
    else if |selected| < maxCoins then Some(selected + [coin])
    else None
  }

  /** The filter keeping every coin but one. */
  function Without(coin: string): string -> bool {
    (c: string) => c != coin
  }

  /** A selection without duplicates and within the cap stays so after
      any toggle. */
  predicate ValidSelection(selected: seq<string>, maxCoins: int) {
    NoDuplicates(selected) && |selected| <= maxCoins
  }

  lemma {:induction false} FilterKeepsNoDuplicates(s: seq<string>, coin: string)
    requires NoDuplicates(s)
    ensures NoDuplicates(Filter(s, Without(coin)))
  {
    if s != [] {
      var p := Without(coin);
      FilterKeepsNoDuplicates(s[1..], coin);
      assert forall j :: 1 <= j < |s| ==> s[0] != s[j];
      assert s[0] !in s[1..];
      assert s == [s[0]] + s[1..];
      FilterOfConcat([s[0]], s[1..], p);
      FilterSingleton(s[0], p);
    }
  }

  lemma ToggleKeepsValid(selected: seq<string>, coin: string, maxCoins: int)
    requires ValidSelection(selected, maxCoins)
    ensures Toggle(selected, coin, maxCoins).Some? ==> ValidSelection(Toggle(selected, coin, maxCoins).value, maxCoins)
  {
    if coin in selected {
      FilterKeepsNoDuplicates(selected, coin);
    } else if |selected| < maxCoins {
      var r := selected + [coin];
      forall i, j | 0 <= i < j < |r| ensures r[i] != r[j] {
        if j == |selected| {
          assert r[i] in selected;
        }
      }
    }
  }

  /** Toggling an unselected coin twice, below the cap, restores the
      selection. */
  lemma ToggleTwice(selected: seq<string>, coin: string, maxCoins: int)
    requires coin !in selected && |selected| < maxCoins
    ensures Toggle(Toggle(selected, coin, maxCoins).value, coin, maxCoins) == Some(selected)
  {
    var p := Without(coin);
    FilterOfConcat(selected, [coin], p);
    FilterSingleton(coin, p);
    assert !p(coin);
    assert Filter([coin], p) == [];
    assert forall c :: c in selected ==> p(c);
    assert Filter(selected, p) == selected;
    assert Filter(selected + [coin], p) == selected;
    assert coin in selected + [coin];
    assert Toggle(selected + [coin], coin, maxCoins) == Some(Filter(selected + [coin], p));
  }

  /** handleScopeChange: the scope is forwarded only when an onScopeChange
      handler was supplied. */
  function ScopeChange(hasHandler: bool, scope: string): (r: Option<string>)
    ensures r.Some? <==> hasHandler
    ensures r.Some? ==> r.value == scope
  {
    if hasHandler then Some(scope) else None
  }
}
