/** The Flask indicator server's discovery and dispatch (server.py): which
    files of the indicators directory are loaded, the class each module is
    expected to define, the INDICATORS registry the loader fills, and the
    error wrapping of generate_indicator_data. Importing a module and
    constructing its class are I/O, given as a function from module name to
    what the import yields. */
module IndicatorServer {
  import opened Common
  import opened Strings

  /** `f.endswith('.py') and not f.startswith('__')` and not one of the two
      support modules. */
  predicate IsIndicatorFile(f: string) {
    EndsWith(f, ".py") && !StartsWith(f, "__") && f != "base_indicator.py" && f != "utils.py"
  }

  function IndicatorFiles(listing: seq<string>): (r: seq<string>)
    ensures forall f :: f in r <==> f in listing && IsIndicatorFile(f)
    ensures |r| <= |listing|
  {
    Filter(listing, IsIndicatorFile)
  }

  /** `indicator_file[:-3]`. */
  function ModuleName(file: string): (r: string)
    ensures |file| >= 3 ==> file == r + file[|file| - 3..]
    ensures |file| < 3 ==> r == ""
  {
    if |file| >= 3 then file[..|file| - 3] else ""
  }

  /** `''.join(parts)`. */
  function Concat(parts: seq<string>): (r: string)
    ensures |parts| == 1 ==> r == parts[0]
  {
    if parts == [] then "" else parts[0] + Concat(parts[1..])
  }

  function CapitalizeAll(words: seq<string>): (r: seq<string>)
    ensures |r| == |words|
    ensures forall k :: 0 <= k < |words| ==> r[k] == Capitalize(words[k])
  {
    seq(|words|, k requires 0 <= k < |words| => Capitalize(words[k]))
  }

  /** The expected class name: the '_'-separated words of the module name,
      each capitalised, joined together. */
  function ClassName(moduleName: string): (r: string)
    ensures |r| == |moduleName| - CountOf(moduleName, '_')
  {
    var words := Split(moduleName, '_');
    SplitLength(moduleName, '_');
    ConcatLength(CapitalizeAll(words));
    CapitalizeAllLength(words);
    Concat(CapitalizeAll(words))
  }

  /** How many times c occurs in s. */
  function CountOf(s: string, c: char): nat {
    if s == [] then 0 else (if s[0] == c then 1 else 0) + CountOf(s[1..], c)
  }

  function TotalLength(parts: seq<string>): nat {
    if parts == [] then 0 else |parts[0]| + TotalLength(parts[1..])
  }

  lemma {:induction false} ConcatLength(parts: seq<string>)
    ensures |Concat(parts)| == TotalLength(parts)
  {
    if parts != [] { ConcatLength(parts[1..]); }
  }

  lemma {:induction false} CapitalizeAllLength(words: seq<string>)
    ensures TotalLength(CapitalizeAll(words)) == TotalLength(words)
  {
    if words != [] {
      CapitalizeAllLength(words[1..]);
      assert CapitalizeAll(words)[1..] == CapitalizeAll(words[1..]);
    }
  }

  lemma {:induction false} CountOfConcat(a: string, b: string, c: char)
    ensures CountOf(a + b, c) == CountOf(a, c) + CountOf(b, c)
  {
    if a != [] {
      assert (a + b)[0] == a[0];
      assert (a + b)[1..] == a[1..] + b;
      CountOfConcat(a[1..], b, c);
    } else {
      assert a + b == b;
    }
  }

  lemma {:induction false} CountOfAbsent(s: string, c: char)
    requires c !in s
    ensures CountOf(s, c) == 0
  {
    if s != [] { CountOfAbsent(s[1..], c); }
  }

  /** Splitting drops exactly the separators. */
  lemma {:induction false} SplitLength(s: string, sep: char)
    ensures TotalLength(Split(s, sep)) == |s| - CountOf(s, sep)
    decreases |s|
  {
    var i := IndexOf(s, sep);
    if i == |s| {
      SplitLengthWhole(s, sep);
    } else {
      var rest := s[i + 1..];
      SplitLength(rest, sep);
      SplitLengthStep(s, sep, rest);
    }
  }

  lemma SplitLengthWhole(s: string, sep: char)
    requires IndexOf(s, sep) == |s|
    ensures TotalLength(Split(s, sep)) == |s| - CountOf(s, sep)
  {
    assert s[..|s|] == s;
    assert Split(s, sep) == [s];
    TotalLengthCons(s, []);
    CountOfAbsent(s, sep);
  }

  lemma SplitLengthStep(s: string, sep: char, rest: string)
    requires IndexOf(s, sep) < |s| && rest == s[IndexOf(s, sep) + 1..]
    requires TotalLength(Split(rest, sep)) == |rest| - CountOf(rest, sep)
    ensures TotalLength(Split(s, sep)) == |s| - CountOf(s, sep)
  {
    var i := IndexOf(s, sep);
    var head := s[..i];
    CountAroundSeparator(s, sep);
    assert Split(s, sep) == [head] + Split(rest, sep);
    TotalLengthCons(head, Split(rest, sep));
    assert |s| == |head| + 1 + |rest|;
  }

  lemma TotalLengthCons(p: string, rest: seq<string>)
    ensures TotalLength([p] + rest) == |p| + TotalLength(rest)
  {
    assert ([p] + rest)[1..] == rest;
  }

  /** The first separator counts once, and none comes before it. */
  lemma CountAroundSeparator(s: string, sep: char)
    requires IndexOf(s, sep) < |s|
    ensures CountOf(s, sep) == 1 + CountOf(s[IndexOf(s, sep) + 1..], sep)
  {
    var i := IndexOf(s, sep);
    var head, rest := s[..i], s[i + 1..];
    AroundIndex(s, i);
    CountOfConcat(head + [sep], rest, sep);
    CountOfConcat(head, [sep], sep);
    CountOfAbsent(head, sep);
  }

  lemma SplitNoSeparator(s: string, sep: char)
    requires sep !in s
    ensures Split(s, sep) == [s]
  {
    assert IndexOf(s, sep) == |s|;
  }

  lemma SplitWords(a: string, b: string, sep: char)
    requires sep !in a && sep !in b
    ensures Split(a + [sep] + b, sep) == [a, b]
  {
    SplitAtFirst(a, b, sep);
    SplitNoSeparator(b, sep);
  }

  lemma FundingModuleWords()
    ensures Split("funding_indicator", '_') == ["funding", "indicator"]
  {
    FundingModuleSpelling();
    SplitWords("funding", "indicator", '_');
  }

  lemma FundingModuleSpelling()
    ensures "funding_indicator" == "funding" + ['_'] + "indicator"
  {
  }

  lemma FundingWordsCapitalized()
    ensures CapitalizeAll(["funding", "indicator"]) == ["Funding", "Indicator"]
  {
    CapitalizedFunding();
    CapitalizedIndicator();
    CapitalizeTwo("funding", "indicator", "Funding", "Indicator");
  }

  /** CapitalizeAll word by word. */
  lemma CapitalizeTwo(a: string, b: string, ca: string, cb: string)
    requires Capitalize(a) == ca && Capitalize(b) == cb
    ensures CapitalizeAll([a, b]) == [ca, cb]
  {
  }

  lemma CapitalizeThree(a: string, b: string, c: string, ca: string, cb: string, cc: string)
    requires Capitalize(a) == ca && Capitalize(b) == cb && Capitalize(c) == cc
    ensures CapitalizeAll([a, b, c]) == [ca, cb, cc]
  {
  }

  lemma CapitalizedFunding()
    ensures Capitalize("funding") == "Funding"
  {
    CapitalizeWord("funding", "Funding");
  }

  lemma CapitalizedIndicator()
    ensures Capitalize("indicator") == "Indicator"
  {
    CapitalizeWord("indicator", "Indicator");
  }

  lemma FundingWordsJoined()
    ensures Concat(["Funding", "Indicator"]) == "FundingIndicator"
  {
    assert Concat(["Funding", "Indicator"]) == "Funding" + Concat(["Indicator"]);
  }

  /** funding_indicator is found as FundingIndicator. */
  lemma FundingIndicatorClass()
    ensures ClassName("funding_indicator") == "FundingIndicator"
  {
    calc {
      ClassName("funding_indicator");
      Concat(CapitalizeAll(Split("funding_indicator", '_')));
      { FundingModuleWords(); }
      Concat(CapitalizeAll(["funding", "indicator"]));
      { FundingWordsCapitalized(); }
      Concat(["Funding", "Indicator"]);
      { FundingWordsJoined(); }
      "FundingIndicator";
    }
  }

  /** Capitalising a word, checked letter by letter. */
  lemma CapitalizeWord(w: string, c: string)
    requires |w| == |c| && |w| > 0 && c[0] == UpperChar(w[0])
    requires forall i :: 1 <= i < |w| ==> c[i] == LowerChar(w[i])
    ensures Capitalize(w) == c
  {
  }

  lemma AvsModuleSpelling()
    ensures "avs_indicator_ci" == "avs" + ['_'] + "indicator" + ['_'] + "ci"
  {
  }

  lemma SplitThreeWords(a: string, b: string, c: string, sep: char)
    requires sep !in a && sep !in b && sep !in c
    ensures Split(a + [sep] + b + [sep] + c, sep) == [a, b, c]
  {
    var bc := b + [sep] + c;
    assert a + [sep] + b + [sep] + c == a + [sep] + bc;
    SplitAtFirst(a, bc, sep);
    SplitWords(b, c, sep);
    assert Split(bc, sep) == [b, c];
    assert [a] + [b, c] == [a, b, c];
  }

  lemma AvsModuleWords()
    ensures Split("avs_indicator_ci", '_') == ["avs", "indicator", "ci"]
  {
    AvsModuleSpelling();
    SplitThreeWords("avs", "indicator", "ci", '_');
  }

  lemma AvsWordsCapitalized()
    ensures CapitalizeAll(["avs", "indicator", "ci"]) == ["Avs", "Indicator", "Ci"]
  {
    CapitalizedAvs();
    CapitalizedIndicator();
    CapitalizedCi();
    CapitalizeThree("avs", "indicator", "ci", "Avs", "Indicator", "Ci");
  }

  lemma CapitalizedAvs()
    ensures Capitalize("avs") == "Avs"
  {
    CapitalizeWord("avs", "Avs");
  }

  lemma CapitalizedCi()
    ensures Capitalize("ci") == "Ci"
  {
    CapitalizeWord("ci", "Ci");
  }

  lemma AvsWordsJoined()
    ensures Concat(["Avs", "Indicator", "Ci"]) == "AvsIndicatorCi"
  {
    assert Concat(["Avs", "Indicator", "Ci"]) == "Avs" + Concat(["Indicator", "Ci"]);
    assert Concat(["Indicator", "Ci"]) == "Indicator" + Concat(["Ci"]);
  }

  /** avs_indicator_ci is looked up as AvsIndicatorCi, which is not
      AVSIndicator, the class it defines, so the module is skipped with a
      warning and never registered. */
  lemma AvsModuleIsSkipped()
    ensures ClassName("avs_indicator_ci") == "AvsIndicatorCi"
    ensures ClassName("avs_indicator_ci") != "AVSIndicator"
  {
    calc {
      ClassName("avs_indicator_ci");
      Concat(CapitalizeAll(Split("avs_indicator_ci", '_')));
      { AvsModuleWords(); }
      Concat(CapitalizeAll(["avs", "indicator", "ci"]));
      { AvsWordsCapitalized(); }
      Concat(["Avs", "Indicator", "Ci"]);
      { AvsWordsJoined(); }
      "AvsIndicatorCi";
    }
    assert "AvsIndicatorCi"[1] != "AVSIndicator"[1];
  }

  /** An indicator instance, known by its `name` attribute and its class. */
  datatype Indicator = Indicator(name: string, className: string)

  /** What importing a module yields: an error (raised by the import or by
      a constructor), or the classes it defines, each with the instance its
      constructor builds. */
  datatype Import = ImportError | Module(classes: map<string, Indicator>)

  /** Loading one file into the registry: a module defining the expected
      class registers its instance under the instance's name (replacing an
      earlier one); anything else leaves the registry as it was. */
  function LoadOne(registry: map<string, Indicator>, file: string, load: string -> Import): (r: map<string, Indicator>)
    ensures var m := load(ModuleName(file));
      r == if m.Module? && ClassName(ModuleName(file)) in m.classes
           then registry[m.classes[ClassName(ModuleName(file))].name := m.classes[ClassName(ModuleName(file))]]
           else registry
  {
    var moduleName := ModuleName(file);
    match load(moduleName)
    case ImportError => registry
    case Module(classes) =>
      var cls := ClassName(moduleName);
      if cls in classes then registry[classes[cls].name := classes[cls]] else registry
  }

  /** The registry after loading the files in order. */
  function Registered(registry: map<string, Indicator>, files: seq<string>, load: string -> Import): map<string, Indicator>
  {
    if files == [] then registry
    else LoadOne(Registered(registry, files[..|files| - 1], load), files[|files| - 1], load)
  }

  /** A file the loader fails on changes nothing, and later files load as
      if it were absent. */
  lemma {:induction false} FailuresAreSkipped(registry: map<string, Indicator>, before: seq<string>, bad: string,
                                              after: seq<string>, load: string -> Import)
    requires load(ModuleName(bad)).ImportError? || ClassName(ModuleName(bad)) !in load(ModuleName(bad)).classes
    ensures Registered(registry, before + [bad] + after, load) == Registered(registry, before + after, load)
    decreases |after|
  {
    if after == [] {
      assert (before + [bad])[..|before|] == before;
      assert before + [bad] + [] == before + [bad];
      assert before + [] == before;
    } else {
      var init := after[..|after| - 1];
      FailuresAreSkipped(registry, before, bad, init, load);
      assert (before + [bad] + after)[..|before + [bad] + after| - 1] == before + [bad] + init;
      assert (before + after)[..|before + after| - 1] == before + init;
      assert (before + [bad] + after)[|before + [bad] + after| - 1] == after[|after| - 1];
      assert (before + after)[|before + after| - 1] == after[|after| - 1];
    }
  }

  /** Every registered indicator is stored under its own name, provided the
      registry started so. */
  predicate KeyedByName(registry: map<string, Indicator>) {
    forall n :: n in registry ==> registry[n].name == n
  }

  lemma {:induction false} RegisteredKeyedByName(registry: map<string, Indicator>, files: seq<string>, load: string -> Import)
    requires KeyedByName(registry)
    ensures KeyedByName(Registered(registry, files, load))
  {
    if files != [] {
      RegisteredKeyedByName(registry, files[..|files| - 1], load);
    }
  }

  /** The server state: the INDICATORS registry. */
  class Server {
    var indicators: map<string, Indicator>

    constructor ()
      ensures indicators == map[]
    {
      indicators := map[];
    }

    /** load_indicators: the directory listing and the importer are
        inputs; each file's failure is caught and the loop goes on. */
    method LoadIndicators(listing: seq<string>, load: string -> Import)
      modifies this
      ensures indicators == Registered(old(indicators), IndicatorFiles(listing), load)
    {
      var files := IndicatorFiles(listing);
      var i := 0;
      while i < |files|
        invariant 0 <= i <= |files|
        invariant indicators == Registered(old(indicators), files[..i], load)
      {
        var moduleName := ModuleName(files[i]);
        assert files[..i + 1][..i] == files[..i];
        match load(moduleName) {
          case ImportError =>
          case Module(classes) =>
            var cls := ClassName(moduleName);
            if cls in classes {
              indicators := indicators[classes[cls].name := classes[cls]];
            }
        }
        i := i + 1;
      }
      assert files[..i] == files;
    }
  }

  /** What an indicator's generate_data returns: its data, or
      {"error": message} for a raised exception. */
  datatype Generated = Data(data: Value) | Error(message: string)

  /** generate_indicator_data: an unknown name raises KeyError, whose
      message is the name in single quotes (for names without quotes or
      escapes, where Python's repr differs; every route checks membership
      first); any exception becomes {"error": msg}. The indicator's own
      generate_data is an input. */
  function GenerateIndicatorData(registry: map<string, Indicator>, name: string, params: Value,
                                 generate: (Indicator, Value) -> Generated): (r: Generated)
    ensures name !in registry ==> r == Error("'" + name + "'")
    ensures name in registry ==> r == generate(registry[name], params)
  {
    if name in registry then generate(registry[name], params) else Error("'" + name + "'")
  }
}
