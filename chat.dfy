/** The chat-completion client of src/OpenAI/ChatGPT.php. It keeps its own
    model override and last response (it does not extend the shared Model
    base class) and records no delay. */
module Chat {
  import opened Php
  import opened Model

  const DefaultModel := "gpt-4.1-mini"
  const ModelVar := "OPENAI_MODEL"
  const NoResponse := "No response from API."

  const MessagesKey := StrKey("messages")
  const RoleKey := StrKey("role")
  const ContentKey := StrKey("content")

  /** Where the answer sits: `choices[0].message.content`. */
  const ContentPath: seq<Key> := [StrKey("choices"), IntKey(0), StrKey("message"), ContentKey]

  /** The system message; `now` is the wall-clock time as date("Y-m-d H:i:s") formats it. */
  function SystemContent(now: string): string {
    "You are a helpful assistant. Current date and time: " + now
  }

  function Message(role: string, content: string): Val {
    Arr(map[RoleKey := Str(role), ContentKey := Str(content)])
  }

  /** The payload `prompt` builds: the model and a two-entry message list,
      the system message first and the user's prompt, verbatim, second. */
  function PromptQuery(model: string, now: string, prompt: string): (q: Query)
    ensures q.Keys == {ModelKey, MessagesKey}
    ensures Lookup(Arr(q), [ModelKey]) == Some(Str(model))
    ensures q[MessagesKey].Arr? && q[MessagesKey].entries.Keys == {IntKey(0), IntKey(1)}
    ensures q[MessagesKey].entries[IntKey(0)] == Message("system", SystemContent(now))
    ensures q[MessagesKey].entries[IntKey(1)] == Message("user", prompt)
    ensures Lookup(Arr(q), [MessagesKey, IntKey(0), RoleKey]) == Some(Str("system"))
    ensures Lookup(Arr(q), [MessagesKey, IntKey(0), ContentKey]) == Some(Str(SystemContent(now)))
    ensures Lookup(Arr(q), [MessagesKey, IntKey(1), RoleKey]) == Some(Str("user"))
    ensures Lookup(Arr(q), [MessagesKey, IntKey(1), ContentKey]) == Some(Str(prompt))
  {
    var messages := Arr(map[IntKey(0) := Message("system", SystemContent(now)),
                            IntKey(1) := Message("user", prompt)]);
    var q := map[ModelKey := Str(model), MessagesKey := messages];
    MessageAt(q, IntKey(0), "system", SystemContent(now));
    MessageAt(q, IntKey(1), "user", prompt);
    LookupKey(Arr(q), ModelKey);
    q
  }

  /** Reading the role and content of the message at position `i`. */
  lemma MessageAt(q: Query, i: Key, role: string, content: string)
    requires MessagesKey in q && q[MessagesKey].Arr? && i in q[MessagesKey].entries
    requires q[MessagesKey].entries[i] == Message(role, content)
    ensures Lookup(Arr(q), [MessagesKey, i, RoleKey]) == Some(Str(role))
    ensures Lookup(Arr(q), [MessagesKey, i, ContentKey]) == Some(Str(content))
  {
    var m := Message(role, content);
    LookupStep(m, RoleKey, []);
    LookupStep(m, ContentKey, []);
    LookupStep(q[MessagesKey], i, [RoleKey]);
    LookupStep(q[MessagesKey], i, [ContentKey]);
    LookupStep(Arr(q), MessagesKey, [i, RoleKey]);
    LookupStep(Arr(q), MessagesKey, [i, ContentKey]);
  }

  /** `completions` fills in the model only when the payload has none (absent
      or null); a model the caller put there is kept, and nothing else moves. */
  function InjectModel(data: Query, resolved: string): (q: Query)
    ensures IsSet(Arr(q), [ModelKey])
    ensures IsSet(Arr(data), [ModelKey]) ==> q == data
    ensures !IsSet(Arr(data), [ModelKey]) ==> q[ModelKey] == Str(resolved)
    ensures q - {ModelKey} == data - {ModelKey}
  {
    LookupKey(Arr(data[ModelKey := Str(resolved)]), ModelKey);
    if IsSet(Arr(data), [ModelKey]) then data else data[ModelKey := Str(resolved)]
  }

  /** What one `completions` call yields: its outcome, the payload handed to
      the transport (None when no request was made) and the client's stored
      response afterwards. */
  datatype Step = Step(outcome: Outcome, sent: Option<Query>, response: Option<Query>)

  /** The life of one `completions` call, given the model `getModel()`
      resolves to, the environment, the transport's report and the response
      stored before the call. */
  function CompletionsStep(env: Env, resolved: string, data: Query, reply: Transfer, before: Option<Query>): Step {
    var query := InjectModel(data, resolved);
    match GetToken(env)
    case Err(msg) => Step(ConfigError(msg), None, before)
    case Ok(_) =>
      match reply
      case CurlFailed(d) => Step(TransportError(CurlError(d)), Some(query), before)
      case Completed(body) =>
        var v := Decoded(body);
        Step(Classify(v, ContentPath, NoResponse), Some(query), if v.Arr? then Some(v.entries) else before)
  }

  class ChatGPT {
    var model: Option<string>
    var response: Option<Query>

    constructor ()
      ensures model == None && response == None
    {
      model := None;
      response := None;
    }

    /** The last stored response, or null before any. */
    method GetResponse() returns (r: Option<Query>)
      ensures r == response
    {
      r := response;
    }

    /** The chat model: the override, else OPENAI_MODEL, else the default. */
    function GetModel(env: Env): (r: string)
      reads this
      ensures Truthy(r)
      ensures TruthyOpt(model) ==> r == model.value
      ensures !TruthyOpt(model) && TruthyOpt(EnvGet(env, ModelVar)) ==> r == env[ModelVar]
      ensures !TruthyOpt(model) && !TruthyOpt(EnvGet(env, ModelVar)) ==> r == DefaultModel
    {
      ResolveModel(model, EnvGet(env, ModelVar), DefaultModel)
    }

    method SetModel(m: string)
      modifies this`model
      ensures model == Some(m)
      ensures Truthy(m) ==> forall env :: GetModel(env) == m
    {
      model := Some(m);
    }

    /** Sends a raw payload. Fails before any request when the token is
        missing; stores a decoded array as the last response; then
        classifies the decoded value. */
    method Completions(env: Env, data: Query, reply: Transfer) returns (r: Outcome, sent: Option<Query>)
      modifies this`response
      ensures Step(r, sent, response) == CompletionsStep(env, GetModel(env), data, reply, old(response))
    {
      var query := data;
      if !IsSet(Arr(query), [ModelKey]) {
        query := query[ModelKey := Str(GetModel(env))];
      }
      var token := GetToken(env);
      if token.Err? {
        r, sent := ConfigError(token.message), None;
        return;
      }
      sent := Some(query);
      if reply.CurlFailed? {
        r := TransportError(CurlError(reply.diagnostic));
        return;
      }
      var result := Decoded(reply.body);
      if result.Arr? {
        response := Some(result.entries);
      }
      r := Classify(result, ContentPath, NoResponse);
    }

    /** Asks one question: the payload is PromptQuery with the given model
        when truthy, else the resolved one, and is sent through Completions. */
    method Prompt(env: Env, now: string, prompt: string, modelArg: Option<string>, reply: Transfer)
      returns (r: Outcome, sent: Option<Query>)
      modifies this`response
      ensures Step(r, sent, response) ==
              CompletionsStep(env, GetModel(env), PromptQuery(ChosenModel(modelArg, GetModel(env)), now, prompt), reply, old(response))
    {
      var m := ChosenModel(modelArg, GetModel(env));
      var data := PromptQuery(m, now, prompt);
      r, sent := Completions(env, data, reply);
    }
  }

  /** A falsy or absent OPENAI_TOKEN fails the call before any request and
      leaves the stored response as it was. */
  lemma MissingTokenStopsCall(env: Env, resolved: string, data: Query, reply: Transfer, before: Option<Query>)
    requires !TruthyOpt(EnvGet(env, TokenVar))
    ensures CompletionsStep(env, resolved, data, reply, before) == Step(ConfigError(MissingToken), None, before)
  {
  }

  /** The payload sent keeps a caller's model and otherwise carries the
      resolved one. */
  lemma CallerModelKept(env: Env, resolved: string, data: Query, reply: Transfer, before: Option<Query>)
    requires TruthyOpt(EnvGet(env, TokenVar))
    ensures CompletionsStep(env, resolved, data, reply, before).sent ==
            Some(if IsSet(Arr(data), [ModelKey]) then data else data[ModelKey := Str(resolved)])
  {
  }

  /** `prompt` sends exactly the payload it built: that payload already names
      a model, so `completions` adds nothing. */
  lemma PromptSendsItsQuery(env: Env, resolved: string, model: string, now: string, prompt: string, reply: Transfer, before: Option<Query>)
    requires TruthyOpt(EnvGet(env, TokenVar))
    ensures CompletionsStep(env, resolved, PromptQuery(model, now, prompt), reply, before).sent ==
            Some(PromptQuery(model, now, prompt))
  {
  }

  /** Only a decoded array replaces the stored response; a curl failure, an
      undecodable body or a non-array value leaves it untouched. */
  lemma StoredOnlyIfArray(env: Env, resolved: string, data: Query, reply: Transfer, before: Option<Query>)
    requires TruthyOpt(EnvGet(env, TokenVar))
    ensures var after := CompletionsStep(env, resolved, data, reply, before).response;
            if reply.Completed? && Decoded(reply.body).Arr? then after == Some(Decoded(reply.body).entries)
            else after == before
  {
  }

  /** An `error` entry decides the outcome even when a well-formed answer is
      present too. */
  lemma ErrorTakesPrecedence(env: Env, resolved: string, data: Query, v: Val, before: Option<Query>)
    requires TruthyOpt(EnvGet(env, TokenVar))
    requires IsSet(v, ErrorPath)
    ensures CompletionsStep(env, resolved, data, Completed(Some(v)), before).outcome == RemoteError(RemoteMessage(v))
  {
  }

  /** Without an `error` entry the answer is `choices[0].message.content`
      when set, and "No response from API." otherwise; an answer implies a
      set `choices`. */
  lemma AnswerOrNoResponse(env: Env, resolved: string, data: Query, body: Option<Val>, before: Option<Query>)
    requires TruthyOpt(EnvGet(env, TokenVar))
    requires !IsSet(Decoded(body), ErrorPath)
    ensures var outcome := CompletionsStep(env, resolved, data, Completed(body), before).outcome;
            && (if IsSet(Decoded(body), ContentPath) then outcome == Success(Lookup(Decoded(body), ContentPath).value)
                else outcome == ShapeError(NoResponse))
            && (outcome.Success? ==> IsSet(Decoded(body), [StrKey("choices")]))
  {
    if IsSet(Decoded(body), ContentPath) {
      assert ContentPath == [StrKey("choices")] + ContentPath[1..];
      IsSetPrefix(Decoded(body), [StrKey("choices")], ContentPath[1..]);
    }
  }

  /** The body of a successful chat answer:
      `{"choices": [{"message": {"content": content}}]}`. */
  function AnswerBody(content: Val): Val {
    Arr(map[StrKey("choices") := Arr(map[IntKey(0) :=
      Arr(map[StrKey("message") := Arr(map[ContentKey := content])])])])
  }

  /** An answer of the documented shape yields its content. */
  lemma AnswerBodyAnswers(content: Val)
    requires content != Null
    ensures Classify(AnswerBody(content), ContentPath, NoResponse) == Success(content)
  {
    var v := AnswerBody(content);
    var choices := v.entries[StrKey("choices")];
    var first := choices.entries[IntKey(0)];
    var message := first.entries[StrKey("message")];
    LookupKey(message, ContentKey);
    LookupStep(first, StrKey("message"), [ContentKey]);
    LookupStep(choices, IntKey(0), [StrKey("message"), ContentKey]);
    LookupStep(v, StrKey("choices"), [IntKey(0), StrKey("message"), ContentKey]);
    LookupKey(v, StrKey("error"));
  }

  /** The body of an error report: `{"error": {"message": message}}`. */
  function ErrorBody(message: string): Val {
    Arr(map[StrKey("error") := Arr(map[StrKey("message") := Str(message)])])
  }

  /** An error report yields a remote error carrying its message. */
  lemma ErrorBodyFails(message: string, success: seq<Key>, missing: string)
    ensures Classify(ErrorBody(message), success, missing) == RemoteError(Str(message))
  {
  }

  /** A client run: a stubbed transport answering "4" to "What is 2+2?", then
      one reporting a rate limit. */
  method ChatClient(env: Env, now: string)
    requires TruthyOpt(EnvGet(env, TokenVar))
  {
    var chat := new ChatGPT();
    AnswerBodyAnswers(Str("4"));
    var r, sent := chat.Prompt(env, now, "What is 2+2?", None, Completed(Some(AnswerBody(Str("4")))));
    assert r == Success(Str("4"));
    var last := chat.GetResponse();
    assert last == Some(AnswerBody(Str("4")).entries);

    ErrorBodyFails("rate limited", ContentPath, NoResponse);
    r, sent := chat.Completions(env, map[], Completed(Some(ErrorBody("rate limited"))));
    assert r == RemoteError(Str("rate limited"));
    assert sent == Some(map[ModelKey := Str(chat.GetModel(env))]);
  }
}
