# fhirside-chat messaging and telemetry layer, in Dafny

This project models the server-side messaging and telemetry layer of the
fhirside-chat FHIR chat agent and proves properties of the model:

- **the typed WebSocket message protocol** (`websocket_messages.dfy`): seven
  record classes, each with a literal `type` tag and a `session_id`, built from
  keyword arguments with pydantic-style validation, and dumped back to a dict;
- **the connection registry** (`connection_manager.dfy`): a class whose
  `activeConnections` map from session id to socket is updated in place by
  `Connect` and `Disconnect`; `SendMessage` writes one frame to the
  registered socket or silently does nothing;
- **the telemetry emitter** (`event_emitter.dfy`): a class whose emits build
  one event, stamped with a clock reading given as a parameter, and route it
  through the registry without ever raising to the caller;
- **the trace records** (`telemetry_models.dfy`): `SpanAttributes` with its
  dotted aliases, `SpanData`, `TelemetryResponse`, and the distinct trace count;
- **the Jaeger response parser** (`jaeger_client.dfy`): the relevance filter on
  operation names, the conversion of one stored span (end time, parent from
  the first `CHILD_OF` reference, attribute dict from the tags, status and
  error message), and the nested loop over traces and spans, each loop both as
  a method and as the function that specifies it;
- **the chat service** (`app.dfy`): per-session transcripts updated in place
  by `Process`, the exact prompt string, errors turned into output, and the
  WebSocket endpoint's loop in the `"default"` session when none is given.

Python values that cross the untyped boundaries (keyword arguments, Jaeger's
decoded JSON) are the `Value` datatype of `py_values.dfy`; a raised exception
is `None` of the `Option` datatype. The agent is a parameter, a function from
prompt to `Completed(output)` or `Raised(error text)`.

The model follows the code as written:
- the tag field of a WebSocket message is `type`;
- `disconnect` removes whatever socket is registered under the session id;
- `send_message` returns nothing; a message for an unregistered session is dropped;
- a failed write leaves the registration in place;
- the chat endpoint replies to each frame it receives with the text `process` returns for it.

## Model

| member | source | states |
|---|---|---|
| WebSocketMessages.Validate | src/models/websocket_messages.py:7-59 | a record that is built has the class asked for, the `type` literal and the `session_id` that were passed, and the tag is one of the class's allowed literals; every other field is stated by `ValidateKeepsFields` |
| WebSocketMessages.ValidateIffConforms | src/models/websocket_messages.py:7-59 | construction succeeds exactly when the keywords conform to the class's declared field table (tag literal, required fields present with their types, defaults for optional ones), for every class |
| WebSocketMessages.ValidateKeepsFields | src/models/websocket_messages.py:7-59 | a built record holds what was passed: every declared field that was given dumps back as given, and every omitted one as its default (`streaming` false, the optional counts None) |
| WebSocketMessages.ValidateOpenAIRecord | src/models/websocket_messages.py:39-47 | the OpenAI event built from keywords carries the tag's event type, the given session id, model and timestamp, and each count as given or None |
| WebSocketMessages.ValidateIffConformsUser | src/models/websocket_messages.py:7-10 | `UserMessage` is built exactly when the tag is `message` and `session_id`, `content` are str |
| WebSocketMessages.ValidateIffConformsAssistant | src/models/websocket_messages.py:13-17 | `AssistantMessage` is built exactly when its fields conform, `streaming` being absent or a bool |
| WebSocketMessages.ValidateIffConformsToolCall | src/models/websocket_messages.py:20-26 | `ToolCallEvent` is built exactly when all six fields are present with their types |
| WebSocketMessages.ValidateIffConformsToolResult | src/models/websocket_messages.py:29-36 | `ToolResultEvent` is built exactly when all seven fields are present with their types |
| WebSocketMessages.ValidateIffConformsOpenAI | src/models/websocket_messages.py:39-47 | `OpenAIEvent` is built exactly when the tag is `openai_call` or `openai_response` and the optional counts are absent, None or int |
| WebSocketMessages.ValidateIffConformsError | src/models/websocket_messages.py:50-53 | `ErrorMessage` is built exactly when the tag is `error` and `session_id`, `error` are str |
| WebSocketMessages.ValidateIffConformsConnectionStatus | src/models/websocket_messages.py:56-59 | `ConnectionStatus` is built exactly when the tag is `connection` and the status is one of the three literals |
| WebSocketMessages.ValidateDump | src/models/websocket_messages.py:7-59 | round trip: every record is rebuilt unchanged from its own dump |
| WebSocketMessages.ValidateDumpToolCall | src/models/websocket_messages.py:20-26 | round trip for tool call events |
| WebSocketMessages.ValidateDumpToolResult | src/models/websocket_messages.py:29-36 | round trip for tool result events |
| WebSocketMessages.ValidateDumpOpenAI | src/models/websocket_messages.py:39-47 | round trip for OpenAI events, both tags and every optional count |
| WebSocketMessages.TagsDisjoint | src/models/websocket_messages.py:7-59 | no keyword set builds records of two different classes: each tag belongs to one class |
| WebSocketMessages.StreamingDefaultsFalse | src/models/websocket_messages.py:17 | an assistant message built without `streaming` has it false |
| WebSocketMessages.OpenAIOptionalsDefaultNone | src/models/websocket_messages.py:43-46 | an OpenAI event built without the token counts and duration has all four None |
| WebSocketMessages.StatusOutsideLiteralsRejected | src/models/websocket_messages.py:58 | a connection status whose status is a str outside the three literals is rejected |
| WebSocketMessages.ConnectionStatusExamples | src/models/websocket_messages.py:56-59 | `connected`, `disconnected` and `reconnecting` are accepted and `invalid_status` is rejected |
| WebSocketMessages.MissingRequiredFieldRejected | src/models/websocket_messages.py:7-26 | a user message without `content`, or a tool call without `tool_call_id` or `timestamp`, is rejected |
| ConnectionManagement.WebSocket.Accept | src/websocket/connection_manager.py:15 | accepting succeeds exactly when the peer is not gone and the socket was not accepted before, and marks the socket accepted |
| ConnectionManagement.WebSocket.SendText | src/websocket/connection_manager.py:34 | a write appends the frame to what the peer received, or fails and changes nothing |
| ConnectionManagement.ConnectionManager.constructor | src/websocket/connection_manager.py:11-12 | the registry starts empty |
| ConnectionManagement.ConnectionManager.Connect | src/websocket/connection_manager.py:14-17 | accepts first, then registers the socket for the session, replacing any earlier one; other sessions keep their sockets; a failing accept (peer gone, or the socket already accepted) registers nothing |
| ConnectionManagement.ConnectionManager.Disconnect | src/websocket/connection_manager.py:19-22 | removes the session's entry whatever socket it holds; an absent session is a no-op; nothing else changes |
| ConnectionManagement.ConnectionManager.SendMessage | src/websocket/connection_manager.py:24-39 | the registry is unchanged; the registered socket, if any, receives exactly the encoded record unless its write fails; no other socket is written |
| ConnectionManagement.ConnectThreeSessions | src/websocket/connection_manager.py:14-17 | three sessions connected in turn leave a registry of size three holding exactly those sessions |
| EventEmitter.ToolCallEventOf | src/telemetry/event_emitter.py:23-30 | the tool call event is always built, with the emitter's arguments as its fields and `tool_call` as its tag |
| EventEmitter.ToolResultEventOf | src/telemetry/event_emitter.py:47-55 | the tool result event is always built; `result` and `duration_ms` pass through unchanged |
| EventEmitter.OpenAIEventOf | src/telemetry/event_emitter.py:74-83 | the OpenAI event is built exactly when `event_type` is `openai_call` or `openai_response`; its tag is then `event_type` and every optional count passes through |
| EventEmitter.TelemetryEmitter.constructor | src/telemetry/event_emitter.py:12-13 | the emitter holds the registry it is given |
| EventEmitter.TelemetryEmitter.Emit | src/telemetry/event_emitter.py:31-36 | one send when the event was built, none otherwise; the caller never sees a failure; the registry and the socket's state are unchanged |
| EventEmitter.TelemetryEmitter.EmitToolCall | src/telemetry/event_emitter.py:15-36 | exactly one send, to `session_id`, of the tool call event built from the arguments; a live registered socket receives its frame and stays live |
| EventEmitter.TelemetryEmitter.EmitToolResult | src/telemetry/event_emitter.py:38-61 | exactly one send, to `session_id`, of the tool result event built from the arguments; a live registered socket receives its frame and stays live |
| EventEmitter.TelemetryEmitter.EmitOpenAICall | src/telemetry/event_emitter.py:63-89 | one send of the event when `event_type` is allowed, no send and no failure otherwise; the socket's state is unchanged |
| EventEmitter.EmitInOrder | src/telemetry/event_emitter.py:15-89 | three emits make three sends in call order, each routed to the session id the event carries |
| EventEmitter.EmitTwiceDelivers | src/telemetry/event_emitter.py:15-36 | two tool calls to a live registered session reach its socket as two frames, in call order |
| TelemetryModels.ValidateSpanAttributes | src/models/telemetry.py:9-45 | each field of the built attributes holds the value given under its dotted alias, else under its field name, else None; `session_id` and `additional_attributes` are read by name, the latter defaulting to an empty dict |
| TelemetryModels.OptInt | src/models/telemetry.py:21-23 | an `Optional[int]` field is accepted exactly when it is absent, None or an int, and then holds what was given |
| TelemetryModels.StrDict | src/models/telemetry.py:41-43 | a `Dict[str, str]` field is accepted exactly when it is absent or a dict of strs, and then holds what was given, or an empty dict |
| TelemetryModels.EmptyAttributesDefaults | src/models/telemetry.py:12-43 | attributes built from no keys have every optional field None and no additional attributes |
| TelemetryModels.DottedKeysPopulate | src/models/telemetry.py:12-39 | the seven dotted keys fill the corresponding fields and `session_id` is read from its plain key |
| TelemetryModels.AliasTakesPrecedence | src/models/telemetry.py:12-45 | when both `openai.prompt` and `openai_prompt` are given, the alias decides the field |
| TelemetryModels.UnknownKeysIgnored | src/models/telemetry.py:9-45 | adding a key that is neither an alias nor a field name changes nothing, so it never reaches `additional_attributes` |
| TelemetryModels.StrDictRoundTrip | src/models/telemetry.py:41-43 | a `Dict[str, str]` is read back unchanged from its dict value |
| TelemetryModels.ValidateFromPicks | src/models/telemetry.py:9-45 | validation returns a given record whenever each field reads that record's own value |
| TelemetryModels.AttributesRoundTripByAlias | src/models/telemetry.py:9-45 | round trip: attributes are rebuilt unchanged from their dump keyed by alias |
| TelemetryModels.ByNameReadsNames | src/models/telemetry.py:12-45 | in a dump keyed by field name, each OpenAI field is read from its name |
| TelemetryModels.ByNameReadsMcpNames | src/models/telemetry.py:25-45 | in a dump keyed by field name, each MCP field is read from its name |
| TelemetryModels.AttributesRoundTripByName | src/models/telemetry.py:9-45 | round trip: attributes are rebuilt unchanged from their dump keyed by field name (`populate_by_name`) |
| TelemetryModels.OptStr | src/models/telemetry.py:12-39 | an `Optional[str]` field is accepted exactly when it is absent, None or a str, and then holds what was given |
| TelemetryModels.CountDistinct | src/models/telemetry.py:105-107 | the count is the size of the set of ids, at most their number and at least one for a non-empty list |
| TelemetryModels.TraceCount | src/models/telemetry.py:105-107 | `trace_count` is the number of distinct trace ids among the spans, at most the number of spans and positive when there are spans |
| TelemetryModels.TraceCountExamples | src/models/telemetry.py:105-107 | two spans of one trace count one trace, of two traces two, no spans none |
| PyValues.Add | src/telemetry/jaeger_client.py:140 | `start_time + duration` is defined exactly on two ints and is their sum |
| PyValues.Lower | src/telemetry/jaeger_client.py:119 | `lower()` keeps the length and lowers each character |
| PyValues.ContainsAt | src/telemetry/jaeger_client.py:116-119 | `sub in s` holds exactly when `sub` occurs at some position of `s` |
| PyValues.ContainsLength | src/telemetry/jaeger_client.py:116-119 | a string that contains `sub` is at least as long as `sub` |
| PyValues.MissingCharNotContained | src/telemetry/jaeger_client.py:116-119 | a string lacking a character of `sub` does not contain `sub` |
| JaegerClient.IsRelevantSpan | src/telemetry/jaeger_client.py:109-123 | the check is defined exactly on dicts whose name is a str or absent, and then answers true exactly when the name (empty when absent) passes the eleven-way test |
| JaegerClient.RelevantNamesAreLong | src/telemetry/jaeger_client.py:111-123 | every relevant name has at least three characters |
| JaegerClient.MissingNameIrrelevant | src/telemetry/jaeger_client.py:109 | a span without `operationName` is checked as `""` and is not relevant |
| JaegerClient.RelevantExamples | src/telemetry/jaeger_client.py:112-118 | `openai.chat.completion`, `mcp.query` and `Aidbox.query` are relevant |
| JaegerClient.NoRelevantPrefix | src/telemetry/jaeger_client.py:111-123 | a name whose first character starts no prefix and no exact name matches none of them |
| JaegerClient.NoRelevantMarker | src/telemetry/jaeger_client.py:116-119 | a name without `O`, `M`, `A`, `g`, `G` holds none of the markers, even lowered |
| JaegerClient.IrrelevantWhen | src/telemetry/jaeger_client.py:111-123 | such names are not relevant |
| JaegerClient.IrrelevantExample | src/telemetry/jaeger_client.py:111-123 | `internal.function` is not relevant |
| JaegerClient.ParentIsFirstChildOf | src/telemetry/jaeger_client.py:142-147 | the parent is the `spanID` of the first reference whose `refType` is `CHILD_OF` |
| JaegerClient.NoChildOfNoParent | src/telemetry/jaeger_client.py:142-147 | with no `CHILD_OF` reference the parent is None |
| JaegerClient.FindParentSpanId | src/telemetry/jaeger_client.py:142-147 | the loop with `break` returns the first-`CHILD_OF` parent, or raises where the specification does |
| JaegerClient.TagsToDictDefined | src/telemetry/jaeger_client.py:150 | the attribute dict exists exactly when every tag is a dict with a str `key` |
| JaegerClient.TagsToDictKeys | src/telemetry/jaeger_client.py:150 | its keys are exactly the tags' keys |
| JaegerClient.TagsToDictLastWins | src/telemetry/jaeger_client.py:150 | each key maps to the value, default `""`, of the last tag with that key |
| JaegerClient.FirstTagWithKey | src/telemetry/jaeger_client.py:154-162 | `next(...)` finds a tag with the key, and None means no tag has it |
| JaegerClient.FirstTagWithKeyIndex | src/telemetry/jaeger_client.py:154-162 | it finds the tag at the first index with that key |
| JaegerClient.HeaderOf | src/telemetry/jaeger_client.py:135-140 | ids, name and times are read with their defaults and the end time is start plus duration |
| JaegerClient.StatusOf | src/telemetry/jaeger_client.py:154-159 | the status is OK or ERROR, and ERROR exactly when the first `otel.status_code` tag's value is `ERROR` |
| JaegerClient.ValidateSpanData | src/telemetry/jaeger_client.py:164-175 | a built `SpanData` carries the given ids, name, times, attributes, status and message, each of its declared type |
| JaegerClient.FromTags | src/telemetry/jaeger_client.py:150-175 | a span built from tags keeps the header and parent, has as its attributes the validated dict of its tags, is ERROR exactly when the tags say so, and carries a message only when ERROR |
| JaegerClient.ConvertSpan | src/telemetry/jaeger_client.py:126-175 | a converted span keeps the stored ids, name and times, ends at start plus duration, takes its parent from the first `CHILD_OF` reference, and is ERROR exactly when the first status tag says so, with the first `error.message` value as its only possible message; its attributes are the validated dict of its tags |
| JaegerClient.ConvertDefaults | src/telemetry/jaeger_client.py:135-162 | a dict with none of the keys read converts to empty ids and name, zero times, no parent, default attributes, OK |
| JaegerClient.ErrorTagsDict | src/telemetry/jaeger_client.py:150 | an ERROR status tag and an error message tag give the expected attribute dict |
| JaegerClient.ErrorTagsAttributes | src/telemetry/jaeger_client.py:152 | tag keys that are not attribute names leave every attribute at its default |
| JaegerClient.ErrorTagsStatus | src/telemetry/jaeger_client.py:154-162 | those two tags give ERROR and the message `Connection failed` |
| JaegerClient.ConvertJaegerSpan | src/telemetry/jaeger_client.py:126-175 | the method computes exactly the specified conversion, raising exactly when it does |
| JaegerClient.CollectStep | src/telemetry/jaeger_client.py:81-86 | one more iteration adds what that item contributes |
| JaegerClient.CollectStuck | src/telemetry/jaeger_client.py:81-83 | once an item raises, the whole loop raises |
| JaegerClient.CollectAppend | src/telemetry/jaeger_client.py:81-86 | the loop over a concatenation is the concatenation of the loops |
| JaegerClient.CollectReported | src/telemetry/jaeger_client.py:81-86 | when every item contributes reported spans, so does the loop |
| JaegerClient.Kept | src/telemetry/jaeger_client.py:83-95 | what one span contributes is relevant and ends at start plus duration |
| JaegerClient.KeptSpanRelevant | src/telemetry/jaeger_client.py:83-86 | a relevant span that converts keeps its relevant name |
| JaegerClient.TraceSpans | src/telemetry/jaeger_client.py:82-95 | every span a trace contributes is reported |
| JaegerClient.SkippedSpanDropped | src/telemetry/jaeger_client.py:83-95 | an irrelevant or unconvertible span is dropped without changing the spans around it |
| JaegerClient.ParsedSpansReported | src/telemetry/jaeger_client.py:77-97 | every parsed span is relevant and ends at start plus duration; missing `data` gives no spans |
| JaegerClient.KeepTraceSpans | src/telemetry/jaeger_client.py:82-95 | the inner loop computes the specified spans of one trace, in order |
| JaegerClient.KeepSpan | src/telemetry/jaeger_client.py:83-95 | one iteration of the inner loop computes the span's specified contribution: its conversion when relevant, nothing when irrelevant or when conversion raises, a raise when the relevance check raises |
| JaegerClient.ParseJaegerResponse | src/telemetry/jaeger_client.py:67-97 | the nested loop computes the specified spans, trace by trace and span by span |
| JaegerClient.QueryOutcome | src/telemetry/jaeger_client.py:28-64 | a fetch failure gives an empty list, a parse failure gives an empty list, otherwise the parsed spans, which are all reported spans |
| App.Split | src/app.py:28 | the source never splits: `Split` is Python's one-character `str.split`, the inverse used to read back the newline join that builds the prompt; it always gives at least one piece |
| App.ChatService.constructor | src/app.py:22-23 | the service starts with no sessions |
| App.ChatService.Process | src/app.py:25-38 | an unseen session starts empty; the agent sees the transcript plus the user line, joined by newlines, then the `Assistant:` cue; a raised error becomes `Error: ` and its text; the session gains the user and assistant lines; no other session changes |
| App.WsChat | src/app.py:53-62 | in the query's session, or `default`, each received frame gets exactly one reply, the conversation's reply |
| App.JoinAppend | src/app.py:28 | joining one more line adds the separator and the line |
| App.PromptIsTranscriptPlusCue | src/app.py:28 | the prompt is the transcript with one more line, `Assistant:` |
| App.SplitWithout | src/app.py:28 | a property of the inverse `Split`, not of the source: a piece without the separator splits to itself |
| App.SplitAtFirst | src/app.py:28 | a property of the inverse `Split`: splitting at the first separator gives the piece before it, then the rest split |
| App.SplitJoin | src/app.py:28 | the newline join of the prompt loses nothing: lines without a newline come back unchanged from join then `Split` |
| App.PromptLines | src/app.py:28 | the prompt built by the join reads back, through `Split`, as the transcript then `Assistant:` when no transcript line holds a newline |
| App.ConverseLastHistory | src/app.py:26-38 | one more message adds one reply, and the session's history gains its user line then that reply's assistant line |
| App.ConversationStep | src/app.py:26-60 | if the history was the old one plus the exchanges so far, one more turn keeps it the old one plus all exchanges |
| App.ConverseSessions | src/app.py:23-60 | a conversation answers each message once and touches no other session |
| App.Exchange | src/app.py:27-37 | each message with its reply adds exactly two lines |
| App.ExchangeAt | src/app.py:27-37 | message k's user line sits at 2k and its assistant line at 2k + 1 |
| App.ConverseTranscript | src/app.py:26-60 | the session's transcript is what it held, then the user and assistant lines of every message in order |
| App.AnsweredAt | src/app.py:28-35 | in an answered run, reply k is the agent's answer to the transcript so far plus message k's user line |
| App.ConverseReplies | src/app.py:28-60 | every reply of a conversation is the agent's answer to the transcript at that point |

## Left out

- Pydantic's lax coercions (`"5"` accepted as an int, an int as a float, and so on): validation accepts exactly the declared types.
- JSON text: `model_dump_json` is the `Encode` function to a dict value, and Jaeger's body is the decoded value; byte-level encoding, ISO-8601 timestamps and dict key order are not modelled.
- Floating point: no field of the core holds a float; a float time or duration from Jaeger is treated like any other non-int and makes `+` fail.
- `query_traces_by_session`: the HTTP request, timeout and status check are out; `QueryOutcome` states only that any failure gives an empty list.
- Clock readings (`datetime.now()`) are parameters; logging is not modelled.
- The agent, model and tracing wiring (src/agent.py, src/ai/agents.py, src/ai/telemetry.py) are not part of this model; the agent run is a function of the prompt, so two runs on the same prompt give the same outcome.
- FastAPI routing, the `/chat` handler, `websocket.accept` and `send_text` in the chat endpoint; `WsChat` takes the frames received before the peer disconnects.
- asyncio: every operation runs to completion before the next, with no interleaving.
- `PyValues.Lower`: `lower()` lowers ASCII letters only; other characters are kept.
- src/models/clinical_history.py and src/models/patient.py are not part of this model.
- `EmitToolCall`, `EmitToolResult`, `EmitOpenAICall`: a `send_message` that raises is not modelled, since `send_message` catches its own write errors; the emitter's own catch is exercised by event construction failures.
- `KeepTraceSpans`: the inner loop of `_parse_jaeger_response` is a separate method called from the outer loop, and its body for one span is the method `KeepSpan`.
- `JaegerClient.ValidateSpanData`: `SpanData` is built from converted values rather than keyword arguments, so the required-field checks are implicit; the two optional fields default to None in the datatype.
- `TelemetryModels.TraceCount`: no function in src/ builds a `TelemetryResponse`; the count states the field's documented meaning.
- `ConnectionManagement.SessionIsolation` and `ConnectionManagement.FailuresChangeNothing` are scenario methods without a contract; they exercise isolation and failure handling through asserts.
