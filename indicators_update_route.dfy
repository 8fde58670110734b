/** POST /api/indicators/update (app/api/indicators/update/route.ts): the
    bearer-token check, the configuration check and the validation of the
    request body that come before the upsert. The parsed body, the
    environment and the upsert's outcome are inputs. */
module IndicatorsUpdateRoute {
  import opened Common
  import opened Strings

  const BearerPrefix := "Bearer "

  /** `header.split(' ')[1]`: undefined (None) when there is no second
      piece. */
  function SecondToken(header: string): (r: Option<string>)
    ensures r.Some? ==> ' ' !in r.value
  {
    var parts := Split(header, ' ');
    if |parts| >= 2 then
      assert parts[1] in parts;
      Some(parts[1])
    else None
  }

  /** The guard at the top of POST: a header is present and non-empty,
      starts with "Bearer ", and its second space-separated piece is
      strictly equal to INDICATORS_API_SECRET (undefined when unset). */
  predicate Authorized(header: Option<string>, secret: Option<string>) {
    header.Some? && header.value != "" && StartsWith(header.value, BearerPrefix)
    && SecondToken(header.value) == secret
  }

  /** A header that starts with "Bearer " always has a second piece. */
  lemma BearerHasSecondToken(header: string)
    requires StartsWith(header, BearerPrefix)
    ensures SecondToken(header) == Some(Split(header[7..], ' ')[0])
  {
    assert header == "Bearer" + [' '] + header[7..];
    SplitAtFirst("Bearer", header[7..], ' ');
  }

  /** "Bearer " followed by the secret is accepted whenever the secret has
      no space in it. */
  lemma BearerSecretAccepted(secret: string)
    requires ' ' !in secret
    ensures Authorized(Some(BearerPrefix + secret), Some(secret))
  {
    var h := BearerPrefix + secret;
    assert h[..7] == BearerPrefix;
    assert h[7..] == secret;
    BearerHasSecondToken(h);
    assert IndexOf(secret, ' ') == |secret|;
  }

  /** Without INDICATORS_API_SECRET every request is refused, and a secret
      containing a space can never be presented. */
  lemma UnusableSecrets(header: Option<string>, secret: Option<string>)
    requires secret.None? || ' ' in secret.value
    ensures !Authorized(header, secret)
  {
    if header.Some? && StartsWith(header.value, BearerPrefix) {
      BearerHasSecondToken(header.value);
    }
  }

  /** The required-field test on one indicator; reading a field of null
      throws. */
  predicate HasRequiredFields(v: Value)
    requires v != Null
  {
    TruthyOpt(Prop(v, "date")) && TruthyOpt(Prop(v, "indicator_name")) && TruthyOpt(Prop(v, "base_coin"))
  }

  /** How the for-of loop over the indicators ends. */
  datatype Check = AllValid | Invalid(indicator: Value) | Throws

  /** An indicator the loop stops at: null, or without a required field. */
  predicate Rejected(v: Value) {
    v == Null || !HasRequiredFields(v)
  }

  /** The position of the first rejected indicator, |inds| when there is
      none. */
  function FirstRejected(inds: seq<Value>): (r: nat)
    ensures r <= |inds|
    ensures forall j :: 0 <= j < r ==> !Rejected(inds[j])
    ensures r < |inds| ==> Rejected(inds[r])
  {
    if inds == [] || Rejected(inds[0]) then 0 else 1 + FirstRejected(inds[1..])
  }

  /** The for-of loop: it returns at the first indicator without the
      required fields, and a null indicator throws there instead. */
  function CheckIndicators(inds: seq<Value>): (r: Check)
    ensures r.AllValid? <==> forall v :: v in inds ==> !Rejected(v)
    ensures r.Invalid? ==> FirstRejected(inds) < |inds| && r.indicator == inds[FirstRejected(inds)] && r.indicator != Null
    ensures r.Throws? <==> FirstRejected(inds) < |inds| && inds[FirstRejected(inds)] == Null
  {
    if inds == [] then AllValid
    else if inds[0] == Null then
      assert inds[0] in inds;
      Throws
    else if !HasRequiredFields(inds[0]) then
      assert inds[0] in inds;
      Invalid(inds[0])
    else
      assert forall v :: v in inds <==> v == inds[0] || v in inds[1..];
      CheckIndicators(inds[1..])
  }

  /** `body.indicators` when the body is a non-null value whose indicators
      are a non-empty array: the shape the 400 check demands. */
  function IndicatorsOf(body: Option<Value>): (r: Option<seq<Value>>)
    ensures r.Some? <==> (body.Some? && body.value != Null && Prop(body.value, "indicators").Some?
                          && Prop(body.value, "indicators").value.Arr? && Prop(body.value, "indicators").value.elems != [])
    ensures r.Some? ==> r.value != [] && Prop(body.value, "indicators") == Some(Arr(r.value))
  {
    if body.None? || body.value == Null then None
    else
      var inds := Prop(body.value, "indicators");
      if inds.Some? && inds.value.Arr? && inds.value.elems != [] then Some(inds.value.elems) else None
  }

  datatype UpdateResponse =
    | Unauthorized
    | ConfigError
    | BadBody
    | InvalidIndicator(indicator: Value)
    | Processed(count: nat)
    | UpdateFailed

  /** Both the Supabase URL and the service-role key are set and
      non-empty. */
  predicate Configured(url: Option<string>, serviceKey: Option<string>) {
    url.Some? && url.value != "" && serviceKey.Some? && serviceKey.value != ""
  }

  /** The handler. `body` is the parsed request body (None: it was not
      JSON, which throws); `upsertOk` is whether the upsert reported no
      error. Every throw inside the try block is answered with a 500
      (UpdateFailed). */
  function Update(header: Option<string>, secret: Option<string>, url: Option<string>, serviceKey: Option<string>,
                  body: Option<Value>, upsertOk: bool): (r: UpdateResponse)
    ensures !Authorized(header, secret) <==> r.Unauthorized?
    ensures r.ConfigError? <==> Authorized(header, secret) && !Configured(url, serviceKey)
    ensures r.Processed? <==> Authorized(header, secret) && Configured(url, serviceKey) && upsertOk
                              && IndicatorsOf(body).Some? && CheckIndicators(IndicatorsOf(body).value).AllValid?
    ensures r.Processed? ==> r.count == |IndicatorsOf(body).value| && forall v :: v in IndicatorsOf(body).value ==> !Rejected(v)
    ensures r.BadBody? <==> Authorized(header, secret) && Configured(url, serviceKey)
                            && body.Some? && body.value != Null && IndicatorsOf(body).None?
    ensures r.InvalidIndicator? <==> Authorized(header, secret) && Configured(url, serviceKey)
                                     && IndicatorsOf(body).Some? && CheckIndicators(IndicatorsOf(body).value).Invalid?
    ensures r.InvalidIndicator? ==> CheckIndicators(IndicatorsOf(body).value) == Invalid(r.indicator)
  {
    if !Authorized(header, secret) then Unauthorized
    else if !Configured(url, serviceKey) then ConfigError
    else if body.None? || body.value == Null then UpdateFailed
    else if IndicatorsOf(body).None? then BadBody
    else
      var inds := IndicatorsOf(body).value;
      match CheckIndicators(inds)
      case Throws => UpdateFailed
      case Invalid(v) => InvalidIndicator(v)
      case AllValid => if upsertOk then Processed(|inds|) else UpdateFailed
  }

  /** A request carrying an invalid indicator is refused whatever the
      database would have done: nothing is written. */
  lemma InvalidIndicatorWritesNothing(header: Option<string>, secret: Option<string>, url: Option<string>,
                                      serviceKey: Option<string>, body: Option<Value>)
    requires Update(header, secret, url, serviceKey, body, true).InvalidIndicator?
    ensures Update(header, secret, url, serviceKey, body, false) == Update(header, secret, url, serviceKey, body, true)
  {
  }

  /** A well-formed batch is reported with its size exactly when the upsert
      succeeds. */
  lemma WellFormedBatch(secret: string, url: string, serviceKey: string, inds: seq<Value>, upsertOk: bool)
    requires ' ' !in secret && url != "" && serviceKey != ""
    requires inds != [] && forall v :: v in inds ==> !Rejected(v)
    ensures var r := Update(Some(BearerPrefix + secret), Some(secret), Some(url), Some(serviceKey),
                            Some(Obj(map["indicators" := Arr(inds)])), upsertOk);
      r == if upsertOk then Processed(|inds|) else UpdateFailed
  {
    BearerSecretAccepted(secret);
  }
}
