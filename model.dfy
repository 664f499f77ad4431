/** What the two OpenAI clients share: the three-tier model resolution, the
    token lookup of src/OpenAI/Model.php, the request hooks, the abstract
    transport outcome and the classification of a decoded response. */
module Model {
  import opened Php

  /** The environment (`.env` file and process variables) as a lookup table. */
  type Env = map<string, string>

  /** A PHP array used as a request payload. */
  type Query = map<Key, Val>

  /** The payload entry naming the model. */
  const ModelKey := StrKey("model")

  /** `(new Env())->get(name, null)`: the value, or null when unset. */
  function EnvGet(env: Env, name: string): Option<string> {
    if name in env then Some(env[name]) else None
  }

  /** Resolves a model name: the client's override if truthy, else the
      environment value if truthy, else the built-in default. */
  function ResolveModel(override: Option<string>, fromEnv: Option<string>, builtin: string): (r: string)
    requires Truthy(builtin)
    ensures Truthy(r)
    ensures TruthyOpt(override) ==> r == override.value
    ensures !TruthyOpt(override) && TruthyOpt(fromEnv) ==> r == fromEnv.value
    ensures !TruthyOpt(override) && !TruthyOpt(fromEnv) ==> r == builtin
  {
    if TruthyOpt(override) then override.value
    else if TruthyOpt(fromEnv) then fromEnv.value
    else builtin
  }

  /** The model a call uses: its own argument when truthy, else the
      client's resolved model (`if (!$model) $model = $this->getModel();`). */
  function ChosenModel(modelArg: Option<string>, resolved: string): string {
    if TruthyOpt(modelArg) then modelArg.value else resolved
  }

  const TokenVar := "OPENAI_TOKEN"
  const MissingToken := "No OPENAI_TOKEN found in .env"

  datatype Result<+T> = Ok(value: T) | Err(message: string)

  /** The bearer token: the environment value when truthy, otherwise the
      "missing token" failure. There is no fallback. */
  function GetToken(env: Env): (r: Result<string>)
    ensures r.Ok? <==> TruthyOpt(EnvGet(env, TokenVar))
    ensures r.Ok? ==> r.value == env[TokenVar]
    ensures r.Err? ==> r.message == MissingToken
  {
    var token := EnvGet(env, TokenVar);
    if !TruthyOpt(token) then Err(MissingToken) else Ok(token.value)
  }

  /** What the transport reports for one POST: a curl failure with its
      diagnostic, or a completed transfer whose body json_decode turned into
      a value (None when the body is not valid JSON). */
  datatype Transfer = CurlFailed(diagnostic: string) | Completed(body: Option<Val>)

  /** json_decode yields null for a body it cannot parse. */
  function Decoded(body: Option<Val>): Val {
    match body
    case None => Null
    case Some(v) => v
  }

  function CurlError(diagnostic: string): string {
    "Curl error: " + diagnostic
  }

  /** The outcome of one call. A thrown exception is one of the error
      variants; the embedding client's `return null` after a veto is Canceled. */
  datatype Outcome =
    | Success(value: Val)
    | RemoteError(detail: Val)
    | ShapeError(message: string)
    | TransportError(message: string)
    | ConfigError(message: string)
    | Canceled

  /** The two overridable hooks: `onQuery(&$query): bool` returns its
      verdict and the query as it left the hook; `onResponse(&$response,
      &$query)` returns both arrays as they left the hook. */
  datatype Hooks = Hooks(
    onQuery: Query -> (bool, Query),
    onResponse: (Query, Query) -> (Query, Query))

  /** The hooks every client has unless a subclass overrides them. */
  const DefaultHooks := Hooks(q => (true, q), (response, q) => (response, q))

  /** The default hooks let every query through untouched and change
      neither the response nor the query. */
  lemma DefaultHooksInert(q: Query, response: Query)
    ensures DefaultHooks.onQuery(q) == (true, q)
    ensures DefaultHooks.onResponse(response, q) == (response, q)
  {
  }

  const ErrorPath: seq<Key> := [StrKey("error")]
  const ErrorMessagePath: seq<Key> := [StrKey("error"), StrKey("message")]
  const UnknownRemoteError := "Unknown remote error"

  /** `$result['error']['message'] ?? 'Unknown remote error'`. */
  function RemoteMessage(v: Val): Val {
    if IsSet(v, ErrorMessagePath) then Lookup(v, ErrorMessagePath).value else Str(UnknownRemoteError)
  }

  /** Classifies a decoded response: an `error` entry wins; otherwise the
      value at the success path is the answer; otherwise the response has
      the wrong shape. */
  function Classify(v: Val, success: seq<Key>, missing: string): (r: Outcome)
    ensures r.Success? || r.RemoteError? || r.ShapeError?
    ensures r.RemoteError? <==> IsSet(v, ErrorPath)
    ensures r.Success? <==> !IsSet(v, ErrorPath) && IsSet(v, success)
    ensures r.Success? ==> Lookup(v, success) == Some(r.value) && r.value != Null
    ensures r.ShapeError? ==> r.message == missing
    ensures r.RemoteError? && IsSet(Lookup(v, ErrorPath).value, [StrKey("message")]) ==>
              r.detail == Lookup(Lookup(v, ErrorPath).value, [StrKey("message")]).value
    ensures r.RemoteError? && !IsSet(Lookup(v, ErrorPath).value, [StrKey("message")]) ==>
              r.detail == Str(UnknownRemoteError)
  {
    LookupConcat(v, ErrorPath, [StrKey("message")]);
    assert ErrorPath + [StrKey("message")] == ErrorMessagePath;
    if IsSet(v, ErrorPath) then RemoteError(RemoteMessage(v))
    else if IsSet(v, success) then Success(Lookup(v, success).value)
    else ShapeError(missing)
  }
}
