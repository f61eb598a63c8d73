/**
 * The client of the Financial Modeling Prep API: the key check at
 * construction, the request URL and the handling of a non-OK response.
 * The network itself is outside the model: the response is a parameter.
 */
module FmpClient {
  import opened Wrappers
  import opened JsStrings

  const MissingKeyMessage := "FMP_API_KEY is required. Provide it as a constructor argument or set FMP_API_KEY environment variable."
  const DefaultBaseUrl := "https://financialmodelingprep.com/stable"
  const DefaultTimeoutMs: int := 20000
  const ApiKeyParam := "apikey"

  /** `apiKey ?? process.env.FMP_API_KEY`, then the falsy check: an explicit empty key is not replaced by the environment. */
  function ResolveApiKey(arg: Option<string>, env: Option<string>): (r: Result<string, string>)
    ensures r.Success? <==> (arg.Some? && arg.value != "") || (arg.None? && env.Some? && env.value != "")
    ensures r.Success? ==> r.value == if arg.Some? then arg.value else env.value
    ensures r.Failure? ==> r.error == MissingKeyMessage
  {
    var key := if arg.Some? then arg else env;
    if key.None? || key.value == "" then Failure(MissingKeyMessage) else Success(key.value)
  }

  /** A parameter value: `string | number`; numbers are modelled as integers. */
  datatype ParamValue = PStr(s: string) | PNum(n: int)

  /** `String(value)`: a string as it is, a number as decimal digits that read back as it, after a `-` when negative. */
  function ParamString(v: ParamValue): (r: string)
    ensures v.PStr? ==> r == v.s
    ensures v.PNum? && v.n >= 0 ==> AllDigits(r) && DigitsValue(r) == v.n
    ensures v.PNum? && v.n < 0 ==> |r| > 1 && r[0] == '-' && AllDigits(r[1..]) && DigitsValue(r[1..]) == -v.n
  {
    match v
    case PStr(s) => s
    case PNum(n) =>
      NatToStringRoundTrip(if n < 0 then -n else n);
      assert n < 0 ==> IntToString(n)[1..] == NatToString(-n);
      IntToString(n)
  }

  /** The entries of the `params` object in enumeration order; `None` is `undefined`. */
  type Params = seq<(string, Option<ParamValue>)>

  /** The query of a URL: its name/value pairs in order. */
  type Query = seq<(string, string)>

  function Count(q: Query, key: string): nat {
    if q == [] then 0 else (if q[0].0 == key then 1 else 0) + Count(q[1..], key)
  }

  /** `searchParams.get(key)`: the value of the first pair with that name. */
  function Lookup(q: Query, key: string): Option<string> {
    if q == [] then None else if q[0].0 == key then Some(q[0].1) else Lookup(q[1..], key)
  }

  /** The pairs with any other name. */
  function Without(q: Query, key: string): (r: Query)
    ensures Count(r, key) == 0
    ensures Count(q, key) == 0 ==> r == q
  {
    if q == [] then []
    else if q[0].0 == key then Without(q[1..], key)
    else
      var rest := Without(q[1..], key);
      assert ([q[0]] + rest)[1..] == rest;
      assert q == [q[0]] + q[1..];
      [q[0]] + rest
  }

  lemma {:induction false} WithoutKeepsOthers(q: Query, key: string, other: string)
    requires other != key
    ensures Lookup(Without(q, key), other) == Lookup(q, other)
    ensures Count(Without(q, key), other) == Count(q, other)
  {
    if q != [] {
      WithoutKeepsOthers(q[1..], key, other);
      var rest := Without(q[1..], key);
      if q[0].0 != key {
        assert Without(q, key) == [q[0]] + rest;
        assert ([q[0]] + rest)[1..] == rest;
      }
    }
  }

  /**
   * `searchParams.set(key, value)`: the first pair with that name takes the
   * value and the later ones are removed; without one, the pair is appended.
   */
  function SetParam(q: Query, key: string, value: string): (r: Query)
    ensures Lookup(r, key) == Some(value)
    ensures Count(r, key) == 1
    ensures Without(r, key) == Without(q, key)
    ensures Count(q, key) == 0 ==> r == q + [(key, value)]
  {
    if q == [] then [(key, value)]
    else if q[0].0 == key then
      var rest := Without(q[1..], key);
      assert ([(key, value)] + rest)[1..] == rest;
      [(key, value)] + rest
    else
      var rest := SetParam(q[1..], key, value);
      assert ([q[0]] + rest)[1..] == rest;
      assert q == [q[0]] + q[1..];
      [q[0]] + rest
  }

  lemma SetParamKeepsOthers(q: Query, key: string, value: string, other: string)
    requires other != key
    ensures Lookup(SetParam(q, key, value), other) == Lookup(q, other)
    ensures Count(SetParam(q, key, value), other) == Count(q, other)
  {
    WithoutKeepsOthers(q, key, other);
    WithoutKeepsOthers(SetParam(q, key, value), key, other);
  }

  /** The query after the `forEach` over the params: each defined entry is set in turn, so no name occurs twice. */
  function ApplyParams(ps: Params): (q: Query)
    ensures forall key :: Count(q, key) <= 1
  {
    if ps == [] then []
    else
      var q := ApplyParams(ps[..|ps| - 1]);
      var (key, value) := ps[|ps| - 1];
      if value.Some? then
        SetParamAtMostOnce(q, key, ParamString(value.value));
        SetParam(q, key, ParamString(value.value))
      else q
  }

  lemma SetParamAtMostOnce(q: Query, key: string, value: string)
    requires forall k :: Count(q, k) <= 1
    ensures forall k :: Count(SetParam(q, key, value), k) <= 1
  {
    forall k | k != key ensures Count(SetParam(q, key, value), k) <= 1 {
      SetParamKeepsOthers(q, key, value, k);
    }
  }

  /** Reference: the value of the last defined entry with that name. */
  function LastDefined(ps: Params, key: string): Option<string> {
    if ps == [] then None
    else if ps[|ps| - 1].0 == key && ps[|ps| - 1].1.Some? then Some(ParamString(ps[|ps| - 1].1.value))
    else LastDefined(ps[..|ps| - 1], key)
  }

  /** Undefined entries are dropped, and every defined name appears once, with the value of its last entry. */
  lemma {:induction false} ApplyParamsSpec(ps: Params, key: string)
    ensures Lookup(ApplyParams(ps), key) == LastDefined(ps, key)
    ensures Count(ApplyParams(ps), key) == if LastDefined(ps, key).Some? then 1 else 0
  {
    if ps != [] {
      var init := ps[..|ps| - 1];
      ApplyParamsSpec(init, key);
      var (k, v) := ps[|ps| - 1];
      if v.Some? && k != key {
        SetParamKeepsOthers(ApplyParams(init), k, ParamString(v.value), key);
      }
      if LastDefined(init, key).None? {
        LookupCountZero(ApplyParams(init), key);
      }
    }
  }

  lemma {:induction false} LookupCountZero(q: Query, key: string)
    requires Lookup(q, key).None?
    ensures Count(q, key) == 0
  {
    if q != [] {
      LookupCountZero(q[1..], key);
    }
  }

  /** A base URL with a trailing slash. */
  function NormalizedBase(base: string): (r: string)
    ensures EndsWith(r, "/")
    ensures EndsWith(base, "/") ==> r == base
    ensures !EndsWith(base, "/") ==> r == base + "/"
  {
    if EndsWith(base, "/") then base else base + "/"
  }

  /** A path with at most one leading slash removed. */
  function NormalizedPath(path: string): (r: string)
    ensures StartsWith(path, "/") ==> "/" + r == path
    ensures !StartsWith(path, "/") ==> r == path
  {
    if StartsWith(path, "/") then path[1..] else path
  }

  /** A request URL: the resolved location (base and path joined) and its query. */
  datatype Url = Url(location: string, query: Query)

  /** The HTTP response, as far as the client reads it. */
  datatype Response = Response(status: nat, body: string)

  predicate Ok(r: Response) {
    200 <= r.status <= 299
  }

  const ErrorPrefix := "FMP API error ("

  /** The message of a non-OK response: the fixed prefix first and the body text last. */
  function ErrorMessage(status: nat, body: string): (msg: string)
    ensures StartsWith(msg, ErrorPrefix) && EndsWith(msg, body)
  {
    ErrorPrefix + NatToString(status) + "): " + body
  }

  /** Reads the status and body back out of an error message. */
  function ParseErrorMessage(msg: string): Option<(nat, string)> {
    if !StartsWith(msg, ErrorPrefix) then None
    else
      var rest := msg[|ErrorPrefix|..];
      var i := IndexOf(rest, ")");
      if i <= 0 || !AllDigits(rest[..i]) || !StartsWith(rest[i..], "): ") then None
      else Some((DigitsValue(rest[..i]), rest[i + 3..]))
  }

  /** The error message keeps both the status and the body text: they can be read back exactly. */
  lemma ErrorMessageRoundTrip(status: nat, body: string)
    ensures ParseErrorMessage(ErrorMessage(status, body)) == Some((status, body))
  {
    var digits := NatToString(status);
    var msg := ErrorMessage(status, body);
    var rest := digits + "): " + body;
    assert msg == ErrorPrefix + rest;
    assert msg[|ErrorPrefix|..] == rest;
    assert OccursAt(rest, ")", |digits|);
    forall k | 0 <= k < |digits| ensures !OccursAt(rest, ")", k) {
      assert rest[k] == digits[k];
      assert rest[k..k + 1] == [rest[k]];
    }
    assert IndexOf(rest, ")") == |digits|;
    assert rest[..|digits|] == digits;
    assert rest[|digits|..] == "): " + body;
    assert rest[|digits| + 3..] == body;
    NatToStringRoundTrip(status);
  }

  /** Two error messages are equal only for the same status and body. */
  lemma ErrorMessageInjective(s1: nat, b1: string, s2: nat, b2: string)
    requires ErrorMessage(s1, b1) == ErrorMessage(s2, b2)
    ensures s1 == s2 && b1 == b2
  {
    ErrorMessageRoundTrip(s1, b1);
    ErrorMessageRoundTrip(s2, b2);
  }

  /** `options?.timeout ?? 20000`: only a missing timeout is replaced, so 0 stays 0. */
  function EffectiveTimeout(timeout: Option<int>): (r: int)
    ensures timeout.None? ==> r == DefaultTimeoutMs
    ensures timeout.Some? ==> r == timeout.value
  {
    if timeout.Some? then timeout.value else DefaultTimeoutMs
  }

  /** What `fetch` sends: the URL, the headers and the abort timeout. */
  datatype Request = Request(url: Url, headers: map<string, string>, timeoutMs: int)

  /** The outcome of `fetch`: the body on success (its JSON decoding is not modelled), the error message otherwise. */
  function Outcome(response: Response): (r: Result<string, string>)
    ensures r.Success? <==> Ok(response)
    ensures r.Success? ==> r.value == response.body
    ensures r.Failure? ==> ParseErrorMessage(r.error) == Some((response.status, response.body))
  {
    ErrorMessageRoundTrip(response.status, response.body);
    if Ok(response) then Success(response.body) else Failure(ErrorMessage(response.status, response.body))
  }

  class Client {
    var baseUrl: string
    var apiKey: string
    var headers: map<string, string>

    ghost predicate Valid()
      reads this
    {
      apiKey != ""
    }

    constructor(key: string)
      requires key != ""
      ensures Valid()
      ensures apiKey == key && baseUrl == DefaultBaseUrl
      ensures headers == map["Content-Type" := "application/json"]
    {
      apiKey := key;
      baseUrl := DefaultBaseUrl;
      headers := map["Content-Type" := "application/json"];
    }

    /** `new FMPClient(apiKey)`: fails with the missing-key message when no usable key is found. */
    static method Create(arg: Option<string>, env: Option<string>) returns (r: Result<Client, string>)
      ensures r.Failure? <==> ResolveApiKey(arg, env).Failure?
      ensures r.Failure? ==> r.error == MissingKeyMessage
      ensures r.Success? ==> (fresh(r.value) && r.value.Valid()
        && r.value.apiKey == ResolveApiKey(arg, env).value && r.value.baseUrl == DefaultBaseUrl)
    {
      var key := ResolveApiKey(arg, env);
      if key.Failure? {
        return Failure(key.error);
      }
      var c := new Client(key.value);
      return Success(c);
    }

    /** `buildUrl`: the joined location, the defined params in order, and the client's key set last. */
    method BuildUrl(path: string, params: Option<Params>) returns (url: Url)
      requires Valid()
      ensures Lookup(url.query, ApiKeyParam) == Some(apiKey) && apiKey != ""
      ensures url.location == NormalizedBase(baseUrl) + NormalizedPath(path)
      ensures url.query == SetParam(ApplyParams(if params.Some? then params.value else []), ApiKeyParam, apiKey)
    {
      var normalizedBase := if EndsWith(baseUrl, "/") then baseUrl else baseUrl + "/";
      var normalizedPath := if StartsWith(path, "/") then path[1..] else path;
      var query: Query := [];
      var ps := if params.Some? then params.value else [];
      var i := 0;
      while i < |ps|
        invariant 0 <= i <= |ps|
        invariant query == ApplyParams(ps[..i])
      {
        var (key, value) := ps[i];
        assert ps[..i + 1][..i] == ps[..i];
        if value.Some? {
          query := SetParam(query, key, ParamString(value.value));
        }
        i := i + 1;
      }
      assert ps[..i] == ps;
      query := SetParam(query, ApiKeyParam, apiKey);
      url := Url(normalizedBase + normalizedPath, query);
    }

    /** `fetch`, with the response supplied: the request it makes and the value or error it ends with. */
    method Fetch(path: string, params: Option<Params>, timeout: Option<int>, response: Response)
      returns (request: Request, outcome: Result<string, string>)
      requires Valid()
      ensures Lookup(request.url.query, ApiKeyParam) == Some(apiKey) && apiKey != ""
      ensures request.url.location == NormalizedBase(baseUrl) + NormalizedPath(path)
      ensures request.url.query == SetParam(ApplyParams(if params.Some? then params.value else []), ApiKeyParam, apiKey)
      ensures request.headers == headers
      ensures request.timeoutMs == EffectiveTimeout(timeout)
      ensures outcome == Outcome(response)
    {
      var url := BuildUrl(path, params);
      request := Request(url, headers, if timeout.Some? then timeout.value else DefaultTimeoutMs);
      if !Ok(response) {
        return request, Failure(ErrorMessage(response.status, response.body));
      }
      outcome := Success(response.body);
    }
  }

  /** Whatever the params say, the query holds the client's key under `apikey` exactly once. */
  lemma ApiKeyAlwaysWins(ps: Params, key: string)
    ensures Lookup(SetParam(ApplyParams(ps), ApiKeyParam, key), ApiKeyParam) == Some(key)
    ensures Count(SetParam(ApplyParams(ps), ApiKeyParam, key), ApiKeyParam) == 1
  {
  }

  /** Every other name of the final query appears at most once, with the value of its last defined entry. */
  lemma OtherParamsInQuery(ps: Params, key: string, other: string)
    requires other != ApiKeyParam
    ensures Lookup(SetParam(ApplyParams(ps), ApiKeyParam, key), other) == LastDefined(ps, other)
    ensures Count(SetParam(ApplyParams(ps), ApiKeyParam, key), other) == if LastDefined(ps, other).Some? then 1 else 0
  {
    ApplyParamsSpec(ps, other);
    SetParamKeepsOthers(ApplyParams(ps), ApiKeyParam, key, other);
  }

  /** With the default base, base and path are joined by exactly one slash when the path has at most one. */
  lemma DefaultLocation(path: string)
    ensures NormalizedBase(DefaultBaseUrl) + NormalizedPath(path) == DefaultBaseUrl + "/" + NormalizedPath(path)
    ensures StartsWith(path, "/") ==> DefaultBaseUrl + path == DefaultBaseUrl + "/" + NormalizedPath(path)
  {
    assert !EndsWith(DefaultBaseUrl, "/") by {
      assert DefaultBaseUrl[|DefaultBaseUrl| - 1] == 'e';
    }
  }
}
