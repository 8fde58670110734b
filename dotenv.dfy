/** The `.env.local` reader the Python loaders share (load_env_from_dotenv
    in indicators_uploader.py, crowding_indicator_supabase.py and
    check_indicators_table.py; the same line test in the indicator
    modules): each line is stripped, blank lines and comments are skipped,
    and a line matching `^([A-Za-z0-9_]+)=(.*)$` sets NAME to VALUE. */
module DotEnv {
  import opened Common
  import opened Strings

  predicate IsNameChar(c: char) {
    ('A' <= c <= 'Z') || ('a' <= c <= 'z') || ('0' <= c <= '9') || c == '_'
  }

  predicate IsName(s: string) {
    s != [] && forall c :: c in s ==> IsNameChar(c)
  }

  /** The name and value a line sets, if any: the stripped line must be
      non-empty, not a comment, and a name followed by '='; the value is
      everything after the first '='. */
  function ParseLine(raw: string): (r: Option<(string, string)>)
    ensures r.Some? ==> IsName(r.value.0) && Strip(raw) == r.value.0 + "=" + r.value.1
  {
    var line := Strip(raw);
    if line == [] || line[0] == '#' then None
    else
      var i := IndexOf(line, '=');
      if i < |line| && IsName(line[..i]) then
        AroundIndex(line, i);
        Some((line[..i], line[i + 1..]))
      else None
  }

  /** A name never holds '=', so the split at the first '=' is the only
      reading of NAME=VALUE. */
  lemma NameHasNoEquals(name: string)
    requires IsName(name)
    ensures '=' !in name
  {
    assert !IsNameChar('=');
  }

  /** An element before position j is in the prefix up to j. */
  lemma Member(s: string, i: nat, j: nat)
    requires j <= |s|
    ensures i < j ==> s[i] in s[..j]
  {
    if i < j {
      assert s[..j][i] == s[i];
    }
  }

  lemma StripUnchanged(s: string)
    requires s != [] && !IsPySpace(s[0]) && !IsPySpace(s[|s| - 1])
    ensures Strip(s) == s
  {
  }

  /** Round trip: writing NAME=VALUE (with VALUE not ending in whitespace)
      and reading it back gives NAME and VALUE. */
  lemma ParseWrittenLine(name: string, value: string)
    requires IsName(name)
    requires value == [] || !IsPySpace(value[|value| - 1])
    ensures ParseLine(name + "=" + value) == Some((name, value))
  {
    var line := name + "=" + value;
    assert line[0] == name[0] && name[0] in name;
    StripUnchanged(line);
    NameHasNoEquals(name);
    assert line[..|name|] == name && line[|name|] == '=';
    var i := IndexOf(line, '=');
    Member(line, i, |name|);
    Member(line, |name|, i);
    assert i == |name|;
    assert line[|name| + 1..] == value;
  }

  /** Python's strip also removes the ASCII separators \x1c to \x1f,
      which JavaScript's `\s` does not count as whitespace: a written line
      behind such a separator still sets its variable. */
  lemma SeparatorIsStripped(c: char, name: string, value: string)
    requires '\U{1C}' <= c <= '\U{1F}'
    requires IsName(name)
    requires value == [] || !IsPySpace(value[|value| - 1])
    ensures !IsSpace(c)
    ensures ParseLine([c] + name + "=" + value) == Some((name, value))
  {
    SeparatorNotJsSpace(c);
    var written := name + "=" + value;
    assert written[0] == name[0] && name[0] in name;
    assert [c] + name + "=" + value == [c] + written;
    StripOneSpace(c, written);
    SameStripSameLine([c] + written, written);
    ParseWrittenLine(name, value);
  }

  lemma SeparatorNotJsSpace(c: char)
    requires '\U{1C}' <= c <= '\U{1F}'
    ensures !IsSpace(c) && IsPySpace(c)
  {
  }

  /** Strip removes one leading whitespace character from a line that has
      no other surrounding whitespace. */
  lemma StripOneSpace(c: char, s: string)
    requires IsPySpace(c) && s != [] && !IsPySpace(s[0]) && !IsPySpace(s[|s| - 1])
    ensures Strip([c] + s) == s
  {
    assert ([c] + s)[1..] == s;
    StripUnchanged(s);
  }

  /** A line is parsed through its stripped form only. */
  lemma SameStripSameLine(a: string, b: string)
    requires Strip(a) == Strip(b)
    ensures ParseLine(a) == ParseLine(b)
  {
  }

  /** Blank lines, comments and lines without a name before '=' set
      nothing. */
  lemma SkippedLines(raw: string)
    requires Strip(raw) == [] || Strip(raw)[0] == '#' || '=' !in Strip(raw)
    ensures ParseLine(raw).None?
  {
    var line := Strip(raw);
    Member(line, IndexOf(line, '='), |line|);
  }

  /** What each line sets, line by line. */
  function ParseAll(lines: seq<string>): (r: seq<Option<(string, string)>>)
    ensures |r| == |lines| && forall k :: 0 <= k < |lines| ==> r[k] == ParseLine(lines[k])
  {
    seq(|lines|, k requires 0 <= k < |lines| => ParseLine(lines[k]))
  }

  /** The environment after applying the assignments in order, later ones
      winning. */
  function Assigned(env: map<string, string>, sets: seq<Option<(string, string)>>): map<string, string> {
    if sets == [] then env
    else
      var before := Assigned(env, sets[..|sets| - 1]);
      var last := sets[|sets| - 1];
      if last.Some? then before[last.value.0 := last.value.1] else before
  }

  /** The environment after reading the lines in order. */
  function Loaded(env: map<string, string>, lines: seq<string>): map<string, string> {
    Assigned(env, ParseAll(lines))
  }

  predicate SetsName(assignment: Option<(string, string)>, name: string) {
    assignment.Some? && assignment.value.0 == name
  }

  /** A name is set after the assignments exactly when it was set before or
      some assignment sets it. */
  lemma {:induction false} AssignedNames(env: map<string, string>, sets: seq<Option<(string, string)>>, name: string)
    ensures name in Assigned(env, sets) <==> name in env || exists k :: 0 <= k < |sets| && SetsName(sets[k], name)
  {
    if sets != [] {
      var init := sets[..|sets| - 1];
      AssignedNames(env, init, name);
      if exists k :: 0 <= k < |init| && SetsName(init[k], name) {
        var k :| 0 <= k < |init| && SetsName(init[k], name);
        assert sets[k] == init[k];
      }
    }
  }

  /** A name no assignment sets keeps its old value. */
  lemma {:induction false} AssignedKeepsUnset(env: map<string, string>, sets: seq<Option<(string, string)>>, name: string)
    requires name in env
    requires forall k :: 0 <= k < |sets| ==> !SetsName(sets[k], name)
    ensures name in Assigned(env, sets) && Assigned(env, sets)[name] == env[name]
  {
    if sets != [] {
      var init := sets[..|sets| - 1];
      assert forall k :: 0 <= k < |init| ==> init[k] == sets[k];
      AssignedKeepsUnset(env, init, name);
    }
  }

  /** The last assignment to a name gives its value. */
  lemma {:induction false} AssignedLastWins(env: map<string, string>, sets: seq<Option<(string, string)>>, name: string, k: nat)
    requires k < |sets| && SetsName(sets[k], name)
    requires forall j :: k < j < |sets| ==> !SetsName(sets[j], name)
    ensures name in Assigned(env, sets) && Assigned(env, sets)[name] == sets[k].value.1
  {
    if k < |sets| - 1 {
      var init := sets[..|sets| - 1];
      assert forall j :: 0 <= j < |init| ==> init[j] == sets[j];
      AssignedLastWins(env, init, name, k);
    }
  }

  /** os.environ, which load_env_from_dotenv writes into. */
  class Environment {
    var vars: map<string, string>

    constructor(initial: map<string, string>)
      ensures vars == initial
    {
      vars := initial;
    }

    /** load_env_from_dotenv. `file` is the file's lines, or None when it
        cannot be opened (the error is logged and nothing changes). */
    method LoadDotEnv(file: Option<seq<string>>)
      modifies this
      ensures file.None? ==> vars == old(vars)
      ensures file.Some? ==> vars == Loaded(old(vars), file.value)
    {
      if file.None? {
        return;
      }
      var lines := file.value;
      ghost var sets := ParseAll(lines);
      var i := 0;
      while i < |lines|
        invariant 0 <= i <= |lines|
        invariant vars == Assigned(old(vars), sets[..i])
      {
        assert sets[..i + 1][..i] == sets[..i];
        var parsed := ParseLine(lines[i]);
        if parsed.Some? {
          vars := vars[parsed.value.0 := parsed.value.1];
        }
        i := i + 1;
      }
      assert sets[..i] == sets;
    }
  }
}
