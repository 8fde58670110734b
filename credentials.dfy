/** Where each Python component finds its Supabase URL and key. The
    environment is a map from names to values; Python's `a or b` and
    `if not x` treat a missing value and the empty string alike. */
module Credentials {
  import opened Common
  import opened DotEnv

  const SupabaseUrl := "SUPABASE_URL"
  const PublicUrl := "NEXT_PUBLIC_SUPABASE_URL"
  const SupabaseKey := "SUPABASE_KEY"
  const ServiceRoleKey := "SUPABASE_SERVICE_ROLE_KEY"
  const AnonKey := "NEXT_PUBLIC_SUPABASE_ANON_KEY"

  /** `os.environ.get(name)`. */
  function Lookup(env: map<string, string>, name: string): Option<string> {
    if name in env then Some(env[name]) else None
  }

  /** Truthiness of an optional string. */
  predicate Usable(v: Option<string>) {
    v.Some? && v.value != ""
  }

  /** Python's `a or b`. */
  function Or(a: Option<string>, b: Option<string>): (r: Option<string>)
    ensures Usable(a) ==> r == a
    ensures !Usable(a) ==> r == b
  {
    if Usable(a) then a else b
  }

  datatype Client = Client(url: string, key: string)

  /** create_client's arguments, or the ValueError raised when either is
      missing or empty. */
  datatype Connection = Connected(client: Client) | ValueError

  function Connect(url: Option<string>, key: Option<string>): (r: Connection)
    ensures r.Connected? <==> Usable(url) && Usable(key)
    ensures r.Connected? ==> r.client == Client(url.value, key.value)
  {
    if Usable(url) && Usable(key) then Connected(Client(url.value, key.value)) else ValueError
  }

  /** get_supabase_client of the uploaders and the table check: the public
      URL, and the service-role key unless it is missing or empty, then the
      anon key. */
  function ServiceRoleClient(env: map<string, string>): (r: Connection)
    ensures r.Connected? <==> Usable(Lookup(env, PublicUrl)) && (Usable(Lookup(env, ServiceRoleKey)) || Usable(Lookup(env, AnonKey)))
  {
    Connect(Lookup(env, PublicUrl), Or(Lookup(env, ServiceRoleKey), Lookup(env, AnonKey)))
  }

  /** The service-role key wins whenever it is set; the anon key is used
      only in its absence. */
  lemma ServiceRolePreferred(env: map<string, string>)
    requires ServiceRoleClient(env).Connected?
    ensures Usable(Lookup(env, ServiceRoleKey)) ==> ServiceRoleClient(env).client.key == env[ServiceRoleKey]
    ensures !Usable(Lookup(env, ServiceRoleKey)) ==> ServiceRoleClient(env).client.key == env[AnonKey]
    ensures ServiceRoleClient(env).client.url == env[PublicUrl]
  {
  }

  /** The names the indicator modules accept for the URL in `.env.local`. */
  predicate IsUrlName(name: string) {
    name == SupabaseUrl || name == PublicUrl
  }

  /** The names they accept for the key (the anon key included). */
  predicate IsKeyName(name: string) {
    name == SupabaseKey || name == ServiceRoleKey || name == AnonKey
  }

  /** The last value the assignments give to a name of the kind, or `init`
      when none does. */
  function LastOf(init: Option<string>, sets: seq<Option<(string, string)>>, kind: string -> bool): Option<string> {
    if sets == [] then init
    else
      var last := sets[|sets| - 1];
      if last.Some? && kind(last.value.0) then Some(last.value.1) else LastOf(init, sets[..|sets| - 1], kind)
  }

  /** LastOf is the value of the last matching assignment, and the initial
      value when no assignment matches. */
  lemma {:induction false} LastOfIsLast(init: Option<string>, sets: seq<Option<(string, string)>>, kind: string -> bool)
    ensures (forall k :: 0 <= k < |sets| ==> sets[k].None? || !kind(sets[k].value.0)) ==> LastOf(init, sets, kind) == init
    ensures forall k :: (0 <= k < |sets| && sets[k].Some? && kind(sets[k].value.0)
      && (forall j :: k < j < |sets| ==> sets[j].None? || !kind(sets[j].value.0))) ==>
      LastOf(init, sets, kind) == Some(sets[k].value.1)
  {
    if sets != [] {
      var init', n := sets[..|sets| - 1], |sets| - 1;
      LastOfIsLast(init, init', kind);
      assert forall k :: 0 <= k < |init'| ==> init'[k] == sets[k];
      forall k | 0 <= k < |sets| && sets[k].Some? && kind(sets[k].value.0)
        && (forall j :: k < j < |sets| ==> sets[j].None? || !kind(sets[j].value.0))
        ensures LastOf(init, sets, kind) == Some(sets[k].value.1)
      {
        if k < n {
          assert sets[n].None? || !kind(sets[n].value.0);
          assert forall j :: k < j < |init'| ==> init'[j].None? || !kind(init'[j].value.0);
        }
      }
    }
  }

  /** One more assignment: it replaces the value when it is of the kind. */
  lemma LastOfStep(init: Option<string>, sets: seq<Option<(string, string)>>, i: nat, kind: string -> bool)
    requires i < |sets|
    ensures LastOf(init, sets[..i + 1], kind)
      == if sets[i].Some? && kind(sets[i].value.0) then Some(sets[i].value.1) else LastOf(init, sets[..i], kind)
  {
    assert sets[..i + 1][..i] == sets[..i];
  }

  function UrlNames(): string -> bool {
    (n: string) => IsUrlName(n)
  }

  function KeyNames(): string -> bool {
    (n: string) => IsKeyName(n) && !IsUrlName(n)
  }

  /** The fallback read of `.env.local` in the indicator modules: every
      matching line overwrites the URL or the key, the last one winning.
      `lines` is None when the file is missing or cannot be read. */
  method ScanDotEnv(url: Option<string>, key: Option<string>, lines: Option<seq<string>>)
    returns (url': Option<string>, key': Option<string>)
    ensures lines.None? ==> url' == url && key' == key
    ensures lines.Some? ==> url' == LastOf(url, ParseAll(lines.value), UrlNames()) && key' == LastOf(key, ParseAll(lines.value), KeyNames())
  {
    url', key' := url, key;
    if lines.None? {
      return;
    }
    var file := lines.value;
    var sets := ParseAll(file);
    var i := 0;
    while i < |file|
      invariant 0 <= i <= |file|
      invariant url' == LastOf(url, sets[..i], UrlNames())
      invariant key' == LastOf(key, sets[..i], KeyNames())
    {
      LastOfStep(url, sets, i, UrlNames());
      LastOfStep(key, sets, i, KeyNames());
      var parsed := sets[i];
      if parsed.Some? {
        var (name, value) := parsed.value;
        assert UrlNames()(name) == IsUrlName(name) && KeyNames()(name) == (IsKeyName(name) && !IsUrlName(name));
        if IsUrlName(name) {
          url' := Some(value);
        } else if IsKeyName(name) {
          key' := Some(value);
        }
      }
      i := i + 1;
    }
    assert sets[..i] == sets;
  }

  /** The URL and key after the fallback: the file is read only when one of
      them is missing or empty. */
  function WithFallback(url: Option<string>, key: Option<string>, lines: Option<seq<string>>): (Option<string>, Option<string>) {
    if (!Usable(url) || !Usable(key)) && lines.Some? then
      (LastOf(url, ParseAll(lines.value), UrlNames()), LastOf(key, ParseAll(lines.value), KeyNames()))
    else (url, key)
  }

  /** AVSIndicator's constructor: SUPABASE_URL or the public URL, and
      SUPABASE_KEY or the service-role key, then the file fallback. */
  function AvsClient(env: map<string, string>, lines: Option<seq<string>>): (r: Connection)
    ensures r.Connected? ==> Usable(Some(r.client.url)) && Usable(Some(r.client.key))
    ensures var (url, key) := WithFallback(Or(Lookup(env, SupabaseUrl), Lookup(env, PublicUrl)),
                                           Or(Lookup(env, SupabaseKey), Lookup(env, ServiceRoleKey)), lines);
      (r == ValueError <==> !Usable(url) || !Usable(key))
      && (r.Connected? ==> r.client == Client(url.value, key.value))
  {
    var (url, key) := WithFallback(Or(Lookup(env, SupabaseUrl), Lookup(env, PublicUrl)),
                                   Or(Lookup(env, SupabaseKey), Lookup(env, ServiceRoleKey)), lines);
    Connect(url, key)
  }

  /** get_supabase_client of funding_indicator.py: as AVSIndicator, but the
      environment's anon key is the last resort for the key. */
  function FundingClient(env: map<string, string>, lines: Option<seq<string>>): (r: Connection)
    ensures r.Connected? ==> Usable(Some(r.client.url)) && Usable(Some(r.client.key))
    ensures var (url, key) := WithFallback(Or(Lookup(env, SupabaseUrl), Lookup(env, PublicUrl)),
                                           Or(Lookup(env, SupabaseKey), Or(Lookup(env, ServiceRoleKey), Lookup(env, AnonKey))), lines);
      (r == ValueError <==> !Usable(url) || !Usable(key))
      && (r.Connected? ==> r.client == Client(url.value, key.value))
  {
    var (url, key) := WithFallback(Or(Lookup(env, SupabaseUrl), Lookup(env, PublicUrl)),
                                   Or(Lookup(env, SupabaseKey), Or(Lookup(env, ServiceRoleKey), Lookup(env, AnonKey))), lines);
    Connect(url, key)
  }

  /** The CI funding indicator: environment only, and never the anon key. */
  function FundingCiClient(env: map<string, string>): (r: Connection)
    ensures r.Connected? <==> (Usable(Lookup(env, SupabaseUrl)) || Usable(Lookup(env, PublicUrl)))
                              && (Usable(Lookup(env, SupabaseKey)) || Usable(Lookup(env, ServiceRoleKey)))
  {
    Connect(Or(Lookup(env, SupabaseUrl), Lookup(env, PublicUrl)), Or(Lookup(env, SupabaseKey), Lookup(env, ServiceRoleKey)))
  }

  /** The anon key plays no part in the CI funding indicator's choice. */
  lemma CiIgnoresAnonKey(env: map<string, string>, anon: string)
    ensures FundingCiClient(env[AnonKey := anon]) == FundingCiClient(env)
    ensures FundingCiClient(env - {AnonKey}) == FundingCiClient(env)
  {
    assert Lookup(env[AnonKey := anon], SupabaseUrl) == Lookup(env, SupabaseUrl);
    assert Lookup(env[AnonKey := anon], PublicUrl) == Lookup(env, PublicUrl);
    assert Lookup(env[AnonKey := anon], SupabaseKey) == Lookup(env, SupabaseKey);
    assert Lookup(env[AnonKey := anon], ServiceRoleKey) == Lookup(env, ServiceRoleKey);
    assert Lookup(env - {AnonKey}, SupabaseUrl) == Lookup(env, SupabaseUrl);
    assert Lookup(env - {AnonKey}, PublicUrl) == Lookup(env, PublicUrl);
    assert Lookup(env - {AnonKey}, SupabaseKey) == Lookup(env, SupabaseKey);
    assert Lookup(env - {AnonKey}, ServiceRoleKey) == Lookup(env, ServiceRoleKey);
  }

  /** When the environment supplies both values the file is never read,
      and SUPABASE_URL and SUPABASE_KEY take precedence. */
  lemma EnvironmentFirst(env: map<string, string>, lines: Option<seq<string>>)
    requires Usable(Lookup(env, SupabaseUrl)) && Usable(Lookup(env, SupabaseKey))
    ensures AvsClient(env, lines) == Connected(Client(env[SupabaseUrl], env[SupabaseKey]))
    ensures FundingClient(env, lines) == Connected(Client(env[SupabaseUrl], env[SupabaseKey]))
    ensures FundingCiClient(env) == Connected(Client(env[SupabaseUrl], env[SupabaseKey]))
  {
  }

  /** With a key but no URL in the environment, the last URL line of the
      file is used and the last key line, if any, replaces the
      environment's key. */
  lemma FileFillsMissingUrl(env: map<string, string>, lines: seq<string>, k: nat)
    requires !Usable(Lookup(env, SupabaseUrl)) && !Usable(Lookup(env, PublicUrl))
    requires k < |lines| && ParseAll(lines)[k].Some? && IsUrlName(ParseAll(lines)[k].value.0)
    requires forall j :: k < j < |lines| ==> ParseAll(lines)[j].None? || !IsUrlName(ParseAll(lines)[j].value.0)
    ensures WithFallback(Or(Lookup(env, SupabaseUrl), Lookup(env, PublicUrl)), Or(Lookup(env, SupabaseKey), Lookup(env, ServiceRoleKey)), Some(lines)).0
      == Some(ParseAll(lines)[k].value.1)
  {
    LastOfIsLast(Or(Lookup(env, SupabaseUrl), Lookup(env, PublicUrl)), ParseAll(lines), UrlNames());
  }

  /** Without a usable file, missing values stay missing and the
      constructor raises. */
  lemma NoFileNoClient(env: map<string, string>)
    requires !Usable(Lookup(env, SupabaseKey)) && !Usable(Lookup(env, ServiceRoleKey))
    ensures AvsClient(env, None) == ValueError
    ensures FundingCiClient(env) == ValueError
  {
  }
}
