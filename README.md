# qwen3api gateway — a Dafny model

qwen3api is an OpenAI-compatible HTTP gateway in front of the Qwen chat
service. It keeps a pool of upstream clients, one per configured credential
("token group"), and hands them out round-robin. It translates an
OpenAI-shaped `POST /v1/chat/completions` request into the upstream's
conversation format, which includes a "thinking" mode. It relays the answer,
either as JSON or as a server-sent event stream. It also exposes
`GET /v1/models`, which adds a `-thinking` variant to the catalogue for the
models that support it. Upstream requests are retried with exponential
back-off. Start-up configuration comes from the environment and a YAML file
and is checked by a validator.

This project models that core and proves its properties.

The modules follow the program:

- `Wrappers`: `Option` and `Result`.
- `Text`: Python's `str` operations the core relies on. These are `strip` over
  the full `isspace` set, `split`, `replace`, `lower`/`upper` and `in`.
- `PyJson`: decoded JSON/YAML values, with Python truthiness, `dict.get`,
  `in` and iteration.
- `Validators`: `ConfigValidator`.
- `Settings`: the `Config` class and its loaders.
- `Upstream`: the `QwenClient` class. This covers its headers, the `_request`
  retry loop, `create_new_chat`, and the framing of the streamed answer.
- `Pool`: the `ClientPool` class. This covers `initialize_clients`,
  `get_next_client` and the round-robin cursor.
- `Translator`: thinking resolution, request checks, the per-message loop,
  the final thinking pass and the envelope.
- `Responses`: `generate_stream` and the `list_models` reshaping.
- `Gateway`: the two route handlers, end to end.

Everything outside the program becomes a parameter. This covers the
network, the clocks, `uuid4`, `json.dumps` and Python's `str()` of
non-strings.

- The upstream is a function `answers: nat -> Outcome`. The n-th attempt of
  a request gets `answers(n)`.
- A streaming answer is the list of lines received and the error, if any,
  that cut the read short.
- `ids(n)` is the n-th `uuid4()` of a request. Number 0 is the request id.
  Message k uses numbers 1 + 2k and 2 + 2k.
- Back-off sleeps are not performed. They are returned as the list of pause
  lengths.

The code behaves as follows where a reader might expect otherwise. Each
behaviour is pinned by a lemma:

- A missing `model` with no explicit `thinking_mode` is answered with 500,
  not 400. `None.lower()` raises before the 400 check runs
  (`Gateway.MissingModelIsServerError`).
- The `-thinking` suffix is detected without regard to case. Its removal is
  a case-sensitive replace-all anywhere in the name: `m-THINKING` keeps its
  suffix, and `a-thinking-b` becomes `a-b`
  (`Translator.UpperCaseSuffixKept`, `Translator.InnerSuffixRemoved`).
- A message's own `thinking_enabled: false` replaces the request-level flag.
  It can therefore switch the final override off for the whole request
  (`Translator.MessageSwitchesThinkingOff`).
- `list_models` catches the pool's 503 in its catch-all handler and answers
  500 (`Gateway.ListModels`).
- The health check in `get_next_client` cannot fail. The fail-over loop
  returns on its first iteration, and the final "all clients unavailable"
  503 is unreachable. `Pool.ClientPool.GetNextClient` has no loop over
  attempts for that reason.
- The `raise last_exception` branch after the retry loop is dead. Every path
  through the loop body returns, raises or continues. The loop ends only
  when it never ran, which means `max_retries < 0`, and then
  `last_exception` is still `None` (`Upstream.QwenClient.Request`).
- The terminal `data: [DONE]` event is sent exactly once only when the
  upstream itself never sends that line (`Responses.DoneOnce`).

## Model

| member | source | states |
|---|---|---|
| Validators.ValidateTokenGroup | app/validators.py:17-43 | true iff `token`, `bx_ua` and `bx_umidtoken` are each present, a `str`, and not blank after `strip()`; the JWT pattern has no bearing on the answer |
| Validators.ValidateTokenGroups | app/validators.py:46-72 | false for an empty list; otherwise true iff at least one group passes `validate_token_group` |
| Validators.ValidatePort | app/validators.py:75-96 | true iff the value is an `int` (a `bool` counts as one) in 1..65535; ports below 1024 are accepted |
| Validators.UrlPrecheck | app/validators.py:110-122 | acceptance needs a non-blank `str` that starts with `h`/`H`; every `http://` or `https://` string passes |
| Validators.LowerKeepsPrefix | app/validators.py:114-120 | case-insensitive matching keeps every lower-case scheme prefix |
| Validators.ValidateLogLevel | app/validators.py:129-145 | true iff the value spells one of DEBUG, INFO, WARNING, ERROR or CRITICAL in any letter case |
| Validators.UpperMatchesLevel | app/validators.py:139-141 | `upper()` equals an all-capitals level name iff the value spells it in any case |
| Settings.PipeGroups | app/config.py:106-114 | the comma/pipe form yields one group per comma-separated piece, i.e. one more than the number of commas |
| Settings.PipeTokensClean | app/config.py:108-113 | each parsed group is `{"token": s}` with `s` a string holding no `|` and no `,` |
| Settings.SplitTrailing | app/config.py:108 | splitting text that ends in the separator adds an empty last piece |
| Settings.TrailingCommaGroup | app/config.py:108-113 | a trailing comma yields a last group whose token is empty, which `_validate_config` rejects |
| Settings.ParsePipeGroups | app/config.py:107-114 | the parsing loop builds exactly `PipeGroups` of the value |
| Settings.ParsePiece | app/config.py:109-113 | the body of the parsing loop builds the group of one piece: the stripped text before its first `\|` as the token |
| Settings.Config.constructor | app/config.py:17-26 | no token groups and the documented default for every attribute |
| Settings.Config.LoadTokenGroupsFromEnv | app/config.py:93-118 | groups already loaded or an unset/empty value leave the groups alone; a stripped value starting with `[` takes the JSON branch (a decoding failure changes nothing); otherwise the comma/pipe groups; other attributes unchanged |
| Settings.Config.ApplyYaml | app/config.py:55-91 | a missing document changes nothing; the groups are replaced only by a present, truthy list; exactly the mapped keys present in the document override their attribute; every other attribute keeps its value |
| Settings.OverridesSpec | app/config.py:79-88 | after the override loop the attributes are the old ones plus exactly the mapped keys the document holds; each of those takes the document's value, every other attribute keeps its old one |
| Settings.Config.Override | app/config.py:85-88 | the override loop leaves the token groups alone and sets the attributes that `OverridesSpec` describes |
| Settings.Config.ValidateConfig | app/config.py:120-132 | passes iff every group has a truthy `token` (so an empty list passes); otherwise fails naming the 1-based position of the first group without one |
| Settings.Config.LoadConfig | app/config.py:28-39 | environment tokens, then YAML, then validation: passes iff every resulting group has a truthy token, otherwise fails naming the first offender; without a YAML document the groups are the environment's and the attributes unchanged; with one, a truthy YAML list replaces the environment's groups and exactly the mapped keys the document holds override their attribute |
| Upstream.Backoffs | app/client.py:69 | the n pauses before attempts 1..n are `2^i + 1` for i = 0..n-1 |
| Upstream.RetryFrom | app/client.py:59-101 | from attempt a on, at most `max - a + 1` attempts, one pause `2^i + 1` after each retried attempt i, and never the "retries exhausted" error |
| Upstream.Attempt | app/client.py:60-101 | one attempt is retried iff its outcome is a 429, a 5xx or a transport error and budget is left; otherwise the run ends with a 2xx returned or the error raised |
| Upstream.Retry | app/client.py:57-107 | the generic "retries exhausted" failure iff `max_retries < 0`, with no attempt; otherwise 1..`max_retries + 1` attempts |
| Upstream.RetryStep | app/client.py:67-78 | a 429, a 5xx, a timeout or a connect error before the last attempt adds the pause `2^a + 1` and moves to the next attempt |
| Upstream.RetryLast | app/client.py:65-82 | an attempt that is not retried ends the run with a response for 2xx and the raised error otherwise |
| Upstream.RetryStopsAt | app/client.py:59-101 | closed form: the run stops at the first non-retried attempt k (or the last of the budget), with k + 1 attempts and pauses 2, 3, 5, … |
| Upstream.RetryFromStopsAt | app/client.py:59-101 | the same closed form from any intermediate attempt |
| Upstream.ImmediateSuccess | app/client.py:65-66 | a first 200 is returned at once after one attempt and no pause |
| Upstream.ClientErrorRaisedAtOnce | app/client.py:80-81 | a 4xx other than 429 is raised on its attempt, with no pause and no retry |
| Upstream.BudgetExhausted | app/client.py:84-93 | when every answer is retryable: exactly `max_retries + 1` attempts, all pauses taken, and the last error raised |
| Upstream.RateLimitedThenServed | app/client.py:67-72 | three 429s then 200 with the default budget: four attempts with pauses 2, 3 and 5 |
| Upstream.ServerErrorThenServed | app/client.py:73-78 | a 500 then 200: the 200 after one pause of 2 seconds |
| Upstream.HeadersCarry | app/client.py:28-36 | exactly the seven headers; `Authorization` carries the token in the bearer scheme; `source` is the configured source |
| Upstream.HeadersDetermineCredential | app/client.py:28-36 | two clients have equal headers only when they hold the same token and source |
| Upstream.NewChatBody | app/client.py:124-130 | the body names the title, `[model]`, chat mode `normal`, chat type `t2t` and the millisecond timestamp |
| Upstream.ChatIdOf | app/client.py:138-144 | an id iff the answer is a dict whose `data` is a dict holding `id`, and then that id; a dict without `data` is the format error |
| Upstream.NewChatOutcome | app/client.py:134-148 | the conversation id iff the request ended in a response and the answer has a `data.id`; a failed request propagates its failure |
| Upstream.Framed | app/client.py:183-186 | never more events than lines |
| Upstream.FramedAppend | app/client.py:183-186 | framing distributes over concatenation, so it proceeds line by line |
| Upstream.FramedEvents | app/client.py:183-186 | every event is a non-blank received line followed by `\n\n` |
| Upstream.FramedNoBlank | app/client.py:183-186 | without blank lines, the events are the lines, each followed by `\n\n`, in order |
| Upstream.StreamOutcome | app/client.py:171-193 | a non-2xx status or an unreachable upstream gives no events and the error; otherwise the framed lines, then the error that cut the read short, if any |
| Upstream.QwenClient.constructor | app/client.py:18-36 | the client holds the group's token, the base URL and `Headers(token, source)` |
| Upstream.QwenClient.Request | app/client.py:40-107 | the result, pauses and attempt count are those of `Retry`; every attempt is the same call with the client's unchanged headers |
| Upstream.QwenClient.CreateNewChat | app/client.py:109-148 | posts `NewChatBody` to `<base>/chats/new` with three retries (1..4 calls); the result is `NewChatOutcome` of that run |
| Upstream.QwenClient.StreamChatCompletions | app/client.py:150-193 | a single POST with the client's headers; the events and error are `StreamOutcome` of the answer |
| Upstream.QwenClient.ChatCompletions | app/client.py:195-232 | the decoded answer iff the retried POST ended in a response, else that run's failure; 1..4 calls |
| Upstream.QwenClient.ListModels | app/client.py:234-260 | the decoded answer iff the retried GET of `<base>/models` ended in a response, else that run's failure; 1..4 calls |
| Pool.Advance | app/api.py:64 | `next()` on the cycle keeps the cursor on the ring |
| Pool.Orbit | app/api.py:64 | n picks take n ring positions, each on the ring |
| Pool.OrbitClosedForm | app/api.py:35 | within one lap the t-th pick from position p takes position `p + t`, wrapped once |
| Pool.RotationFair | app/api.py:61-64 | any `size` successive picks take every ring position, and none twice |
| Pool.OrbitSplit | app/api.py:64 | the picks of two runs of calls are those of the first run followed by those of the second |
| Pool.LandClosedForm | app/api.py:35 | within one lap, after `s` picks from p, the cursor is at `p + s`, wrapped once |
| Pool.LandNext | app/api.py:64 | one more pick moves the landing position on by one |
| Pool.OrbitStep | app/api.py:64 | one more pick appends the current landing position to the picks |
| Pool.RotationRepeats | app/api.py:35 | after a full lap the picks repeat |
| Pool.FirstLapInOrder | app/api.py:35-41 | from a fresh pool, the first lap takes the groups in configuration order |
| Pool.TokensInOrder | app/api.py:35-41 | tokens picked along the orbit from position 0, at most one lap of them, are the ring's first tokens in order |
| Pool.ClientPool.NextGroup | app/api.py:64 | the group the next call takes carries a string token |
| Pool.ClientPool.constructor | app/api.py:20-24 | an empty pool with no cycle, building its clients from the configured base URL and source |
| Pool.NewClients | app/api.py:39-42 | one new client per group, in order, client i built for the token of group i with the configured URL and source |
| Pool.FindHolder | app/api.py:67-71 | finds a client iff some pooled client holds the token, and then the first such client |
| Pool.ClientPool.Initialize | app/api.py:26-44 | no groups leave pool and cursor unchanged; otherwise the cycle restarts at group 0, and client i is new, holds token i and is built with the configured URL and source; every group then has a client |
| Pool.ClientPool.GetNextClient | app/api.py:46-94 | 503 (no clients, or no cycle) with nothing changed; otherwise the cursor advances by one; the answer holds the cycled group's token and was built from the configuration; it is the first pooled client with that token, or a new client appended to the pool when none has it; the pool only grows, and is unchanged once every group has a client |
| Pool.ClientPool.NextToken | app/api.py:46-94 | one call on a pool with clients and a cycle advances the cursor by one and hands out the cycled group's token |
| Pool.ClientPool.TakeNext | app/api.py:46-94 | one more call extends the tokens handed out by the cycled group's token and moves the cursor one further along the orbit; a pool with a client for every group keeps its clients |
| Pool.ClientPool.NextClients | app/api.py:46-94 | n successive calls hand out the tokens of the ring positions `Orbit` gives from the cursor; from a freshly initialized pool, the first lap hands out the groups' tokens in configuration order; a pool with a client for every group does not grow |
| Translator.FaultStatus | app/api.py:333-340 | request errors are 400, pool errors 503, everything else 500 |
| Translator.ResolveThinking | app/api.py:184-208 | fails iff there is no explicit `thinking_mode.enabled` and the model is not a string; explicit: on, model unchanged; otherwise: on iff `-thinking` occurs in the lower-cased model, and then the base model is the name with every exact `-thinking` removed (never longer, strictly shorter when an exact one occurs); off leaves the model unchanged; depth `normal` and `show_reasoning` false unless both on and given |
| Translator.SuffixedNameResolves | app/api.py:190-193 | `name + "-thinking"` with no `-t` in `name` turns thinking on and addresses `name` |
| Translator.UpperCaseSuffixKept | app/api.py:190-193 | `m-THINKING` turns thinking on but keeps its suffix |
| Translator.InnerSuffixRemoved | app/api.py:193 | `a-thinking-b` turns thinking on and becomes `a-b` |
| Translator.CheckRequest | app/api.py:210-214 | passes iff model and messages are both truthy; a falsy model is the missing-model 400, checked first |
| Translator.FeatureStep | app/api.py:232-243 | a falsy config becomes `{thinking_enabled: flag, output_schema: "phase"}`; a truthy config is kept; a dict's `thinking_enabled` becomes the flag; it fails exactly where `in` or indexing raises |
| Translator.TranslateAll | app/api.py:229-265 | one upstream message per request message, in order, addressed to the base model, stamped with the request time, with ids `1 + 2k` and `2 + 2k`, role defaulting to `user` and content to empty |
| Translator.TranslateNext | app/api.py:231-265 | translating one more message appends its record and carries its flag on |
| Translator.TranslateStops | app/api.py:231-243 | a message whose config raises makes the whole translation fail |
| Translator.TranslateFailsOn | app/api.py:231-265 | once a prefix fails, the whole list fails |
| Translator.IdsDistinct | app/api.py:246-248 | with a collision-free id source, all message ids and child ids are pairwise distinct |
| Translator.FlagUntouched | app/api.py:236-243 | when no config holds `thinking_enabled`, translation succeeds, the flag is the request's, and every kept config is a dict |
| Translator.FeatureConfig | app/api.py:233-243 | the loop body computes `FeatureStep` |
| Translator.TranslateMessages | app/api.py:230-265 | the loop computes `TranslateAll` |
| Translator.ForceFeature | app/api.py:281-283 | item assignment succeeds iff the config is a dict; it then sets `thinking_enabled` to true and keeps every other key |
| Translator.ForceAll | app/api.py:279-283 | succeeds iff every config is a dict; each message is unchanged except for its forced config |
| Translator.ForceThinking | app/api.py:279-283 | the final pass computes `ForceAll` |
| Translator.FinalMessages | app/api.py:278-283 | a falsy final flag sends the translation unchanged; a truthy one forces thinking on every message |
| Translator.MessageSwitchesThinkingOff | app/api.py:241-243 | with thinking on for the request, a message's `thinking_enabled: false` is sent as is and the final pass is skipped |
| Responses.StreamBody | app/api.py:289-297 | the upstream events in order, then the one error event if the stream failed, then `data: [DONE]` last |
| Responses.DoneOnce | app/api.py:296-297 | when no upstream event is itself the terminal one, `data: [DONE]` occurs exactly once, at the end |
| Responses.GenerateStream | app/api.py:289-297 | the generator yields exactly `StreamBody` |
| Responses.StreamTwoLines | app/client.py:183-186 | lines `a`, `b` and a normal close give `a\n\n`, `b\n\n`, `data: [DONE]` |
| Responses.StreamCutAfterOneLine | app/api.py:293-297 | a read cut after line `a` gives its event, one error event and `data: [DONE]` |
| Responses.EntriesFor | app/api.py:116-141 | each model yields its entry first, then a `-thinking` entry iff it is one of the three capable models |
| Responses.Catalogue | app/api.py:114-141 | one entry per model plus one per capable model |
| Responses.CatalogueEntries | app/api.py:114-141 | every entry is some upstream model's own entry or the `-thinking` entry of a capable one |
| Responses.CatalogueComplete | app/api.py:114-141 | every upstream model is listed, with its `-thinking` entry immediately after it when capable |
| Responses.ListingOf | app/api.py:113-152 | reshaped iff `data.data` exists and is a list of dicts, then its catalogue; a dict without `data` or without `data.data` passes through unchanged |
| Responses.BuildCatalogue | app/api.py:114-141 | the loop builds exactly `Catalogue` |
| Responses.ReshapeModels | app/api.py:113-152 | shape test and reshaping compute `ListingOf` |
| Gateway.TakeIn | app/api.py:167-214 | an undecodable body is the format 400; a non-dict body is a 500; a dict body is accepted iff its model resolves and passes the checks, a model that cannot be resolved is a 500 and a failed check is that check's 400; success gives the body's model, messages and stream (with defaults), both truthy, and their thinking resolution |
| Gateway.Prepare | app/api.py:227-276 | only a 500 can fail it; the envelope carries the base model, the conversation id, the stream flag and the timestamp; one message per request message, with its ids, role, content, base model and timestamp |
| Gateway.BuildEnvelope | app/api.py:224-283 | the translation steps compute `Prepare` |
| Gateway.Dispatch | app/api.py:285-331 | the dispatch is one streaming POST to the URL, whose events are forwarded with the event-stream headers, or 1-4 retried POSTs, giving the JSON answer when the run succeeds and a 500 otherwise; every call carries the client's headers |
| Gateway.Converse | app/api.py:219-331 | meets `Conversation` for the client it holds: the create_new_chat payload names the base model; a failed creation is a 500 and sends nothing; the envelope is sent iff the conversation exists and `Prepare` succeeds, and is then `Prepare` of the new id; the calls are 1-4 POSTs to `/chats/new`, then the dispatch POSTs to the completions URL with that chat id, all with the client's headers; a stream yields `EventsFor` with the event-stream headers after one POST; otherwise the JSON answer iff the retried completion succeeds; every failure is a 500 |
| Gateway.ChatCompletions | app/api.py:158-340 | intake errors are answered at once, with no call and the pool unchanged; no client gives 503 with the pool unchanged; otherwise the cursor advances by one, and the route meets `Conversation` with the pool's base URL and the headers of the cycled group's token; the pool gains at most one client, none once every group has one |
| Gateway.ModelsReply | app/api.py:107-156 | every failure is a 500; a successful run gives the reshaped catalogue or the answer as is |
| Gateway.ListModels | app/api.py:101-156 | no client or no cycle is a 500, not a 503, with the pool unchanged; otherwise the cursor advances by one, every call carries the headers of the cycled group's token, and the answer is `ModelsReply` of the retried GET; the pool gains at most one client |
| Gateway.ServeModels | app/api.py:108-152 | with the client handed out, the answer is `ModelsReply` of the retried GET, made with that client's headers |
| Gateway.MissingModelIsServerError | app/api.py:185-193 | no model and no thinking mode give a 500 |
| Gateway.MissingModelWithExplicitThinking | app/api.py:185-211 | with an explicit thinking mode, a missing model is the missing-model 400 |
| Gateway.EmptyMessagesRejected | app/api.py:213-214 | an empty message list is the missing-messages 400 |
| Gateway.AdvertisedVariantsResolve | app/api.py:128-136 | every `-thinking` model the catalogue advertises is accepted, turns thinking on and addresses the model's own name |
| Gateway.ThinkingReachesEveryMessage | app/api.py:278-283 | with thinking on and no message deciding otherwise, every message sent upstream has `thinking_enabled` true |
| Gateway.EnvelopeShape | app/api.py:245-276 | the upstream JSON has `incremental_output` true, `chat_mode` `normal`, `parent_id` null, the base model, and one message per request message with `models == [base]`, the timestamp, and the role and content with their defaults |

## Left out

- HTTP transport, `asyncio.sleep`, `uuid4`, `time.time` and logging. They are
  parameters of the model, or have no effect on results.
- JSON and YAML decoding, `json.loads` of `QWEN_TOKENS` and `os.getenv`.
  Their results are inputs.
- Decoding errors of upstream answers (`response.json()`). Each answer is
  given already decoded. One visible effect is lost this way. If the answer
  of `create_new_chat` is not JSON (app/client.py:136), the
  `JSONDecodeError` reaches the handler at app/api.py:333. The caller then
  gets the request-format 400, not a 500. `Gateway.Converse` and
  `Gateway.ChatCompletions` answer every failure after the pick with 500
  only because of this. An undecodable completion answer
  (app/client.py:218) is caught at app/api.py:327 and stays a 500.
- `json.dumps` of an error text and `str()` of a non-string value. They are
  the `quote` and `show` parameters of `Gateway.World`.
- Validators.UrlPrecheck: models only the blank check and the
  `http://`/`https://` scheme of `validate_url`, not the host, port and path
  parts of its regular expression. It is stated weaker for that reason.
- Validators.ValidateTokenGroup: the JWT pattern check is not modelled. It
  only logs.
- Text.Lower and Text.Upper: map ASCII letters only. Python's full Unicode
  case mapping is not modelled.
- Settings.Config.ApplyYaml: requires that a truthy `qwen_token_groups` be a
  list of mappings. The code stores any value. An empty YAML file (`None`),
  which makes the code raise and log, counts as a missing document.
- Settings.Config.LoadConfig: requires the same of the YAML groups. It
  leaves out the scalar environment overrides of `_load_env_config`
  (app/config.py:43-50), including the `int()` conversion of `PORT`.
- `get_token_groups` and `to_dict`: plain reads of `Config` fields, which
  are the `tokenGroups` and `attrs` fields of `Settings.Config`.
- Pool.ClientPool.Initialize: requires every group to carry a string
  `token`. The code raises on a missing or non-sliceable token, because
  it logs `token[:20]` (app/api.py:42, app/client.py:38). A sliceable
  non-string token such as a list would be stringified into the
  `Authorization` header; that case is not modelled.
  `Pool.ClientPool.Valid` keeps this for the ring.
- Gateway.ChatCompletions and Gateway.ListModels: require `Pool.ClientPool.Valid`.
  That covers the string tokens on the ring, for the same reason. It also
  requires every pooled client to be built from the pool's base URL and
  source. The code reads both from the global `config` whenever it builds
  a client, and every pool that `Initialize` and `GetNextClient` produce
  keeps this.
- Concurrent use of the shared cursor and pool. Requests are modelled one
  at a time.
- Order of dictionary keys. Dicts are maps.
- The `/`, `/health` and `/config` routes, `EnvironmentChecker`, the
  response-header plumbing of the framework, and the launch scripts.
  They are framework plumbing, I/O or out of the core.
