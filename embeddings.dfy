/** The embedding client of src/OpenAI/EmbeddingGenerator.php together with
    the state it inherits from src/OpenAI/Model.php: the model override, the
    delay of the last completed transfer and the last response. The two
    hooks a subclass would override are fixed when the client is created. */
module Embeddings {
  import opened Php
  import opened Model
  import Chat

  const DefaultModel := "text-embedding-3-small"
  const ModelVar := "OPENAI_EMBEDDING_MODEL"
  const NoEmbedding := "No embedding in API response."

  const InputKey := StrKey("input")

  /** Where the vector sits: `data[0].embedding`. */
  const EmbeddingPath: seq<Key> := [StrKey("data"), IntKey(0), StrKey("embedding")]

  /** The payload `generate` builds: exactly the model and the input text. */
  function EmbeddingQuery(model: string, text: string): (q: Query)
    ensures q.Keys == {ModelKey, InputKey}
    ensures Lookup(Arr(q), [ModelKey]) == Some(Str(model))
    ensures Lookup(Arr(q), [InputKey]) == Some(Str(text))
  {
    var q := map[ModelKey := Str(model), InputKey := Str(text)];
    LookupKey(Arr(q), ModelKey);
    LookupKey(Arr(q), InputKey);
    q
  }

  /** What one `generate` call yields: its outcome, the payload handed to the
      transport (None when no request was made), and the client's delay and
      stored response afterwards. */
  datatype Step = Step(outcome: Outcome, sent: Option<Query>, delay: Option<nat>, response: Option<Query>)

  /** The life of one `generate` call on the payload built for it: the
      pre-send hook may veto or rewrite it, the token is required, the
      transport reports, the delay is recorded for a completed transfer, a
      decoded array goes through the post-receive hook and is then stored,
      and the (hooked) value is classified. */
  function GenerateStep(env: Env, query: Query, hooks: Hooks, reply: Transfer, elapsedMs: nat,
                        delay: Option<nat>, response: Option<Query>): Step
  {
    var (proceed, sent) := hooks.onQuery(query);
    if !proceed then Step(Canceled, None, delay, response)
    else match GetToken(env)
      case Err(msg) => Step(ConfigError(msg), None, delay, response)
      case Ok(_) =>
        match reply
        case CurlFailed(d) => Step(TransportError(CurlError(d)), Some(sent), delay, response)
        case Completed(body) =>
          var v := Decoded(body);
          if v.Arr? then
            var stored := hooks.onResponse(v.entries, sent).0;
            Step(Classify(Arr(stored), EmbeddingPath, NoEmbedding), Some(sent), Some(elapsedMs), Some(stored))
          else
            Step(Classify(v, EmbeddingPath, NoEmbedding), Some(sent), Some(elapsedMs), response)
  }

  class EmbeddingGenerator {
    /** The behaviour of `onQuery` and `onResponse` for this client. */
    const hooks: Hooks
    var model: Option<string>
    /** None while the typed property is uninitialised (reading it throws). */
    var delay: Option<nat>
    var response: Option<Query>

    constructor (hooks: Hooks)
      ensures this.hooks == hooks
      ensures model == None && delay == None && response == None
    {
      this.hooks := hooks;
      model := None;
      delay := None;
      response := None;
    }

    /** The last stored response, or null before any. */
    method GetResponse() returns (r: Option<Query>)
      ensures r == response
    {
      r := response;
    }

    /** The delay of the last completed transfer, if any. */
    method GetDelay() returns (r: Option<nat>)
      ensures r == delay
    {
      r := delay;
    }

    /** Stores the override verbatim; nothing else changes. */
    method SetModel(m: string)
      modifies this`model
      ensures model == Some(m)
      ensures Truthy(m) ==> forall env :: GetModel(env) == m
    {
      model := Some(m);
    }

    /** The embedding model: the override, else OPENAI_EMBEDDING_MODEL, else
        the default. */
    function GetModel(env: Env): (r: string)
      reads this
      ensures Truthy(r)
      ensures TruthyOpt(model) ==> r == model.value
      ensures !TruthyOpt(model) && TruthyOpt(EnvGet(env, ModelVar)) ==> r == env[ModelVar]
      ensures !TruthyOpt(model) && !TruthyOpt(EnvGet(env, ModelVar)) ==> r == DefaultModel
    {
      ResolveModel(model, EnvGet(env, ModelVar), DefaultModel)
    }

    /** Embeds `text` with the given model when truthy, else the resolved
        one; `elapsedMs` is what the clock measured around the transfer. */
    method Generate(env: Env, text: string, modelArg: Option<string>, reply: Transfer, elapsedMs: nat)
      returns (r: Outcome, sent: Option<Query>)
      modifies this`delay, this`response
      ensures Step(r, sent, delay, response) ==
              GenerateStep(env, EmbeddingQuery(ChosenModel(modelArg, GetModel(env)), text), hooks, reply, elapsedMs,
                           old(delay), old(response))
    {
      var m := ChosenModel(modelArg, GetModel(env));
      var query := EmbeddingQuery(m, text);
      var verdict := hooks.onQuery(query);
      query := verdict.1;
      if !verdict.0 {
        r, sent := Canceled, None;
        return;
      }
      var token := GetToken(env);
      if token.Err? {
        r, sent := ConfigError(token.message), None;
        return;
      }
      sent := Some(query);
      if reply.CurlFailed? {
        r := TransportError(CurlError(reply.diagnostic));
        return;
      }
      delay := Some(elapsedMs);
      var result := Decoded(reply.body);
      if result.Arr? {
        var hooked := hooks.onResponse(result.entries, query);
        result, query := Arr(hooked.0), hooked.1;
        response := Some(hooked.0);
      }
      r := Classify(result, EmbeddingPath, NoEmbedding);
    }
  }

  /** The embedding default is a usable name and is not the chat default. */
  lemma DefaultModelsDiffer()
    ensures Truthy(DefaultModel) && DefaultModel != Chat.DefaultModel
  {
  }

  /** A veto returns null at once: no token lookup, no request, and neither
      the delay nor the stored response changes. */
  lemma VetoIsInert(env: Env, query: Query, hooks: Hooks, reply: Transfer, elapsedMs: nat,
                    delay: Option<nat>, response: Option<Query>)
    requires !hooks.onQuery(query).0
    ensures GenerateStep(env, query, hooks, reply, elapsedMs, delay, response) == Step(Canceled, None, delay, response)
  {
  }

  /** A falsy or absent OPENAI_TOKEN fails an unvetoed call before any
      request; the delay and the stored response are unchanged. */
  lemma MissingTokenStopsCall(env: Env, query: Query, hooks: Hooks, reply: Transfer, elapsedMs: nat,
                              delay: Option<nat>, response: Option<Query>)
    requires hooks.onQuery(query).0
    requires !TruthyOpt(EnvGet(env, TokenVar))
    ensures GenerateStep(env, query, hooks, reply, elapsedMs, delay, response) ==
            Step(ConfigError(MissingToken), None, delay, response)
  {
  }

  /** The query as `onQuery` left it is what is sent, and it is the query
      `onResponse` receives with the decoded array. */
  lemma HookedQueryIsSent(env: Env, query: Query, hooks: Hooks, reply: Transfer, elapsedMs: nat,
                          delay: Option<nat>, response: Option<Query>)
    requires hooks.onQuery(query).0 && TruthyOpt(EnvGet(env, TokenVar))
    ensures var s := GenerateStep(env, query, hooks, reply, elapsedMs, delay, response);
            && s.sent == Some(hooks.onQuery(query).1)
            && (reply.Completed? && Decoded(reply.body).Arr? ==>
                  s.response == Some(hooks.onResponse(Decoded(reply.body).entries, s.sent.value).0))
  {
  }

  /** A curl failure leaves the delay and the stored response as they were;
      a completed transfer always records its delay, whatever its body. */
  lemma DelayOnCompletedTransfer(env: Env, query: Query, hooks: Hooks, reply: Transfer, elapsedMs: nat,
                                 delay: Option<nat>, response: Option<Query>)
    requires hooks.onQuery(query).0 && TruthyOpt(EnvGet(env, TokenVar))
    ensures var s := GenerateStep(env, query, hooks, reply, elapsedMs, delay, response);
            && (reply.CurlFailed? ==>
                  s.outcome == TransportError(CurlError(reply.diagnostic)) && s.delay == delay && s.response == response)
            && (reply.Completed? ==> s.delay == Some(elapsedMs))
  {
  }

  /** `onResponse` runs before storage and before classification: the stored
      response and the outcome both come from the hook's output. A body that
      does not decode to an array is not stored and is a shape error. */
  lemma HookRunsBeforeStore(env: Env, query: Query, hooks: Hooks, body: Option<Val>, elapsedMs: nat,
                            delay: Option<nat>, response: Option<Query>)
    requires hooks.onQuery(query).0 && TruthyOpt(EnvGet(env, TokenVar))
    ensures var s := GenerateStep(env, query, hooks, Completed(body), elapsedMs, delay, response);
            if Decoded(body).Arr? then
              var stored := hooks.onResponse(Decoded(body).entries, hooks.onQuery(query).1).0;
              s.response == Some(stored) && s.outcome == Classify(Arr(stored), EmbeddingPath, NoEmbedding)
            else
              s.response == response && s.outcome == ShapeError(NoEmbedding)
  {
  }

  /** With the default hooks nothing is vetoed, the built payload is sent as
      is, and the decoded array is stored and classified untouched. */
  lemma DefaultHooksPassThrough(env: Env, query: Query, m: map<Key, Val>, elapsedMs: nat,
                                delay: Option<nat>, response: Option<Query>)
    requires TruthyOpt(EnvGet(env, TokenVar))
    ensures GenerateStep(env, query, DefaultHooks, Completed(Some(Arr(m))), elapsedMs, delay, response) ==
            Step(Classify(Arr(m), EmbeddingPath, NoEmbedding), Some(query), Some(elapsedMs), Some(m))
  {
  }

  /** The body of a successful embedding answer: `{"data": [{"embedding": vector}]}`. */
  function EmbeddingBody(vector: Val): Val {
    Arr(map[StrKey("data") := Arr(map[IntKey(0) := Arr(map[StrKey("embedding") := vector])])])
  }

  /** An answer of the documented shape yields its vector unchanged. */
  lemma EmbeddingBodyAnswers(vector: Val)
    requires vector != Null
    ensures Classify(EmbeddingBody(vector), EmbeddingPath, NoEmbedding) == Success(vector)
  {
  }

  /** A client run: "hello" embedded through a stubbed transport, then a
      client whose pre-send hook vetoes every query. */
  method EmbeddingClient(env: Env)
    requires TruthyOpt(EnvGet(env, TokenVar))
  {
    var generator := new EmbeddingGenerator(DefaultHooks);
    var vector := Arr(map[IntKey(0) := Num(0.1), IntKey(1) := Num(0.2)]);
    EmbeddingBodyAnswers(vector);
    DefaultHooksPassThrough(env, EmbeddingQuery(generator.GetModel(env), "hello"), EmbeddingBody(vector).entries,
                            120, None, None);
    var r, sent := generator.Generate(env, "hello", None, Completed(Some(EmbeddingBody(vector))), 120);
    assert r == Success(vector);
    var d := generator.GetDelay();
    assert d == Some(120);

    var vetoing := new EmbeddingGenerator(Hooks(q => (false, q), DefaultHooks.onResponse));
    r, sent := vetoing.Generate(env, "hello", None, Completed(Some(EmbeddingBody(vector))), 120);
    assert r == Canceled && sent == None;
    d := vetoing.GetDelay();
    assert d == None;
  }
}
