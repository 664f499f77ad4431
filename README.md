# OpenAI client decision logic, modelled in Dafny

This project models the decision logic of a small PHP client for the OpenAI
chat-completion and embedding endpoints (namespace `AZ\AI\OpenAI`). The
network calls are plumbing. What is modelled is the logic around them:

- **Model-name resolution.** The explicit override from `setModel` wins,
  then the environment value, then a built-in default (`gpt-4.1-mini` for
  chat, `text-embedding-3-small` for embeddings). "Empty" is PHP falsiness:
  null, `""` and `"0"` fall through to the next tier.
- **The request lifecycle.** The query is built and the model is filled in
  when missing. The embedding client runs the pre-send hook, which can veto
  the call or rewrite the query. The token is then required, the transfer
  happens, and the embedding client records its delay. A decoded array is
  stored; the embedding client first passes it through the post-receive hook.
- **Response classification.** An `error` entry gives a remote error.
  Otherwise a missing success path gives a shape error. Otherwise the value at
  the success path is the result.

Files:

- `php.dfy` (module `Php`): decoded JSON values as PHP sees them (`Val`,
  with arrays as `map<Key, Val>`), string truthiness, and `isset` along a
  chain of subscripts (`Lookup`, `IsSet`), with lemmas on composing paths.
- `model.dfy` (module `Model`): the pieces shared by both clients. It holds
  the three-tier `ResolveModel`, `GetToken`, the hooks and their defaults,
  the abstract transport report `Transfer`, the call `Outcome`, and
  `Classify`.
- `chat.dfy` (module `Chat`): the class `ChatGPT` with `GetModel`,
  `SetModel`, `GetResponse`, `Prompt` and `Completions`. It also holds the
  specification function `CompletionsStep` and lemmas about it.
- `embeddings.dfy` (module `Embeddings`): the class `EmbeddingGenerator`. It
  carries the state inherited from the abstract `Model` base class (`model`,
  `delay`, `response`) and the hooks a subclass would override, fixed at
  construction. It has `Generate`, the specification function
  `GenerateStep`, and lemmas about it.

Each state-changing method is proved against a step function. The method's
`ensures` equates its outcome, the query it sent and the new fields with that
function applied to the inputs and the old fields. The lemmas then state the
source's promises about the step function. External inputs are explicit
parameters:

- the environment is a `map<string, string>`;
- the transport's report is a `Transfer`: a curl failure with its
  diagnostic, or a completed transfer with the decoded body, where None means
  undecodable;
- the formatted wall-clock time is a string;
- the measured elapsed milliseconds are a `nat`.

The `sent` out-parameter is the payload handed to the transport, or None
when no request was made.

Behaviour of the code worth noting:

- A curl failure throws before `$delay` is assigned, so the delay is not
  recorded for a failed transfer. It is recorded for every completed one
  (src/OpenAI/EmbeddingGenerator.php:74-80).
- Only the embedding client has a pre-send hook, can be canceled, and
  records a delay. The chat client cannot be vetoed, and its `onResponse`
  runs after storage on a copy of the response
  (src/OpenAI/ChatGPT.php:146-152).
- The undecodable-body message differs per client. It is "No response from
  API." for chat (src/OpenAI/ChatGPT.php:163) and "No embedding in API
  response." for embeddings (src/OpenAI/EmbeddingGenerator.php:96).

## Model

| member | source | states |
|---|---|---|
| Php.LookupConcat | src/OpenAI/ChatGPT.php:156 | a chained subscript `$r[p][q]` reaches the value found by looking up `q` inside what `p` reached |
| Php.IsSetPrefix | src/OpenAI/ChatGPT.php:161 | `isset` of a path implies `isset` of each prefix, and the full lookup continues from the prefix's value (used to show that an answer implies a set `choices`) |
| Model.ResolveModel | src/OpenAI/ChatGPT.php:42-55 | the resolved name is always truthy; a truthy override wins, then a truthy environment value, then the built-in default |
| Model.GetToken | src/OpenAI/Model.php:73-83 | succeeds exactly when OPENAI_TOKEN is set and truthy, and then returns it unchanged; otherwise fails with "No OPENAI_TOKEN found in .env" |
| Model.DefaultHooksInert | src/OpenAI/Model.php:106-122 | the default `onQuery` answers true and leaves the query unchanged; the default `onResponse` changes neither argument |
| Model.Classify | src/OpenAI/EmbeddingGenerator.php:90-99 | remote error exactly when `error` is set, with `error.message` or "Unknown remote error"; success exactly when there is no error and the success path is set, returning the value there; otherwise a shape error with the client's message |
| Chat.PromptQuery | src/OpenAI/ChatGPT.php:87-95 | the payload has exactly `model` and `messages`; the messages are positions 0 and 1, each exactly a role/content pair: system (with the timestamped greeting) then user (with the prompt verbatim) |
| Chat.InjectModel | src/OpenAI/ChatGPT.php:112-115 | afterwards a model is always set; a model already set (non-null) is kept; a missing or null one becomes the resolved model; no other entry changes |
| Chat.ChatGPT.constructor | src/OpenAI/ChatGPT.php:10-22 | a new client has no override and no stored response |
| Chat.ChatGPT.GetResponse | src/OpenAI/ChatGPT.php:30-33 | returns the stored response, None (null) when nothing was stored |
| Chat.ChatGPT.GetModel | src/OpenAI/ChatGPT.php:42-55 | override if truthy, else OPENAI_MODEL if truthy, else "gpt-4.1-mini"; never falsy |
| Chat.ChatGPT.SetModel | src/OpenAI/ChatGPT.php:65-69 | stores the string verbatim and changes nothing else; after a truthy one, `GetModel` returns it for every environment |
| Chat.ChatGPT.Completions | src/OpenAI/ChatGPT.php:108-167 | outcome, sent payload and stored response are those of `CompletionsStep` on the given payload and the model resolved at call time |
| Chat.ChatGPT.Prompt | src/OpenAI/ChatGPT.php:79-98 | behaves as `completions` on `PromptQuery` built with the argument model when truthy, else the resolved model |
| Chat.MissingTokenStopsCall | src/OpenAI/ChatGPT.php:117-122 | a falsy or absent token gives the configuration error, sends nothing and leaves the stored response as it was |
| Chat.CallerModelKept | src/OpenAI/ChatGPT.php:112-115 | with a token, the payload sent is the caller's own when it sets a model, otherwise the caller's with the resolved model added |
| Chat.PromptSendsItsQuery | src/OpenAI/ChatGPT.php:79-97 | with a token, `prompt` sends exactly the payload it built |
| Chat.StoredOnlyIfArray | src/OpenAI/ChatGPT.php:146-152 | a decoded array replaces the stored response; a curl failure, an undecodable body or a non-array value leaves it unchanged |
| Chat.ErrorTakesPrecedence | src/OpenAI/ChatGPT.php:154-158 | a set `error` gives a remote error with `error.message` or "Unknown remote error", even when `choices` is well-formed |
| Chat.AnswerOrNoResponse | src/OpenAI/ChatGPT.php:161-166 | without `error`, a set `choices[0].message.content` is returned, and a missing or null one gives "No response from API."; an answer implies a set `choices` |
| Chat.AnswerBodyAnswers | src/OpenAI/ChatGPT.php:161-166 | a body `{"choices":[{"message":{"content":c}}]}` with non-null `c` yields exactly `c` |
| Chat.ErrorBodyFails | src/OpenAI/ChatGPT.php:154-157 | a body `{"error":{"message":m}}` yields a remote error carrying `m` |
| Embeddings.EmbeddingQuery | src/OpenAI/EmbeddingGenerator.php:46-49 | the payload has exactly `model` and `input`, holding the model and the text |
| Embeddings.EmbeddingGenerator.constructor | src/OpenAI/Model.php:10-29 | a new client has no override, no delay (uninitialised) and no stored response, and uses the given hooks |
| Embeddings.EmbeddingGenerator.GetResponse | src/OpenAI/Model.php:37-40 | returns the stored response, None (null) when nothing was stored |
| Embeddings.EmbeddingGenerator.GetDelay | src/OpenAI/Model.php:94-97 | returns the delay recorded by the last completed transfer, None before any |
| Embeddings.EmbeddingGenerator.SetModel | src/OpenAI/Model.php:58-62 | stores the string verbatim and changes nothing else; after a truthy one, `GetModel` returns it for every environment |
| Embeddings.EmbeddingGenerator.GetModel | src/OpenAI/EmbeddingGenerator.php:14-27 | override if truthy, else OPENAI_EMBEDDING_MODEL if truthy, else "text-embedding-3-small"; never falsy |
| Embeddings.EmbeddingGenerator.Generate | src/OpenAI/EmbeddingGenerator.php:38-100 | outcome, sent payload, delay and stored response are those of `GenerateStep` on `{model, input}` built with the argument model when truthy, else the resolved one |
| Embeddings.DefaultModelsDiffer | src/OpenAI/EmbeddingGenerator.php:22-24 | the embedding default is truthy and differs from the chat default |
| Embeddings.VetoIsInert | src/OpenAI/EmbeddingGenerator.php:51-53 | a veto cancels: no request, and the delay and stored response are unchanged |
| Embeddings.MissingTokenStopsCall | src/OpenAI/EmbeddingGenerator.php:55 | past the hook, a falsy or absent token gives the configuration error, sends nothing and changes neither field |
| Embeddings.HookedQueryIsSent | src/OpenAI/EmbeddingGenerator.php:51-86 | the query as `onQuery` left it is the one sent and the one `onResponse` receives |
| Embeddings.DelayOnCompletedTransfer | src/OpenAI/EmbeddingGenerator.php:74-80 | a curl failure gives "Curl error: " plus the diagnostic and keeps the delay and response; a completed transfer always records its delay |
| Embeddings.HookRunsBeforeStore | src/OpenAI/EmbeddingGenerator.php:83-99 | for an array, the hook's output is both what is stored and what is classified; a non-array is not stored and gives "No embedding in API response." |
| Embeddings.DefaultHooksPassThrough | src/OpenAI/Model.php:106-122 | with the default hooks the built payload is sent as is, and the decoded array is stored and classified untouched |
| Embeddings.EmbeddingBodyAnswers | src/OpenAI/EmbeddingGenerator.php:95-99 | a body `{"data":[{"embedding":v}]}` with non-null `v` yields exactly `v` |

## Left out

- curl setup, the endpoint URLs, headers, the POST itself and `json_encode`
  are network I/O and serialisation. The transfer is the abstract `Transfer`
  input, and `sent` records the payload handed to it.
- `AZ\Project\Env` is not part of this model. The environment is a
  `map<string, string>`, and a missing name reads as null.
- `json_decode` is library parsing. The decoded value, or "undecodable", is
  an input. PHP's turning of numeric object keys such as `"0"` into integer
  keys is part of that input.
- `date("Y-m-d H:i:s")` is wall-clock time. The formatted string is a
  parameter.
- `microtime` and the float-to-int conversion of the delay are clock and
  floating-point work. The elapsed milliseconds are an opaque `nat` input.
- Numbers, including embedding components, are opaque `Num(real)` values.
  Float precision is not modelled.
- The `Exception` class and its codes are not modelled. A thrown exception is
  an `Outcome` error variant carrying its message.
- Model.Classify: the remote-error message is carried as the decoded value.
  PHP's conversion of a non-string message to a string (or its `TypeError`
  for an array) is not modelled.
- Model.Classify: a `Success` carries the decoded value at the success path,
  whatever its type. PHP checks it against the declared return type. A
  non-array `data[0].embedding` such as `"abc"` or `5` makes `generate():
  ?array` throw a `TypeError`. An array `choices[0].message.content` does the
  same for `completions(): string`. The model returns `Success` in both
  cases, so that `TypeError` outcome is lost. Scalar content that PHP coerces
  to a string is returned uncoerced.
- PHP string offsets are not modelled: `Lookup` reaches into arrays only.
  Every path these clients test puts a non-numeric string key after any
  integer key, and `isset` of such an offset on a string is false. So the
  answers agree.
- The insertion order of PHP arrays is not modelled. Lists are arrays with
  keys 0..n-1.
- The extra argument in `completions($data, $model)` is ignored by PHP and is
  not modelled.
- The chat client's `onResponse` takes a copy of the response and returns
  nothing, and it is not modelled. An override could still call the public
  `setModel` or throw after the response was stored; neither is modelled
  (see the next line).
- Hooks are pure functions of their by-reference arguments. An override that
  writes the client's own fields, or throws, is not modelled.
- Embeddings.EmbeddingGenerator.GetDelay: PHP declares `$delay` as an `int`
  without a default. Reading it before the first completed transfer throws an
  `Error`, although the doc comment promises null. The model returns None in
  both readings.
- Concurrent use of one client (last write wins) is not modelled. Every call
  is one sequential method call.
