/*
 * The typed WebSocket message protocol: a closed family of records, each
 * with a literal `type` tag and a `session_id`. A record is built from
 * keyword arguments and validated as it is built; building fails on a wrong
 * tag, a missing required field, a field of the wrong type or a connection
 * status outside the allowed literals.
 */
module WebSocketMessages {
  import opened PyValues

  /** A `datetime`, as an opaque clock reading. */
  type Timestamp = int

  datatype ConnectionState = Connected | Disconnected | Reconnecting

  datatype OpenAIEventType = OpenAICall | OpenAIResponse

  /** One record of the protocol; every variant carries the session id. */
  datatype Message =
    | UserMessage(sessionId: string, content: string)
    | AssistantMessage(sessionId: string, content: string, streaming: bool)
    | ToolCallEvent(sessionId: string, toolCallId: string, toolName: string,
                    arguments: map<string, Value>, timestamp: Timestamp)
    | ToolResultEvent(sessionId: string, toolCallId: string, toolName: string,
                      result: string, durationMs: int, timestamp: Timestamp)
    | OpenAIEvent(eventType: OpenAIEventType, sessionId: string, model: string,
                  promptTokens: Option<int>, completionTokens: Option<int>,
                  totalTokens: Option<int>, callDurationMs: Option<int>, timestamp: Timestamp)
    | ErrorMessage(sessionId: string, error: string)
    | ConnectionStatus(status: ConnectionState, sessionId: string)

  /** The record class a caller constructs. */
  datatype Schema =
    | UserMessageSchema
    | AssistantMessageSchema
    | ToolCallEventSchema
    | ToolResultEventSchema
    | OpenAIEventSchema
    | ErrorMessageSchema
    | ConnectionStatusSchema

  function SchemaOf(m: Message): Schema
  {
    match m
    case UserMessage(_, _) => UserMessageSchema
    case AssistantMessage(_, _, _) => AssistantMessageSchema
    case ToolCallEvent(_, _, _, _, _) => ToolCallEventSchema
    case ToolResultEvent(_, _, _, _, _, _) => ToolResultEventSchema
    case OpenAIEvent(_, _, _, _, _, _, _, _) => OpenAIEventSchema
    case ErrorMessage(_, _) => ErrorMessageSchema
    case ConnectionStatus(_, _) => ConnectionStatusSchema
  }

  /** The literal values the `type` field of each class admits. */
  function AllowedTags(k: Schema): set<string>
  {
    match k
    case UserMessageSchema => {"message"}
    case AssistantMessageSchema => {"assistant"}
    case ToolCallEventSchema => {"tool_call"}
    case ToolResultEventSchema => {"tool_result"}
    case OpenAIEventSchema => {"openai_call", "openai_response"}
    case ErrorMessageSchema => {"error"}
    case ConnectionStatusSchema => {"connection"}
  }

  const StatusLiterals: set<string> := {"connected", "disconnected", "reconnecting"}

  function StatusName(s: ConnectionState): string
  {
    match s
    case Connected => "connected"
    case Disconnected => "disconnected"
    case Reconnecting => "reconnecting"
  }

  function StatusOfName(name: string): ConnectionState
  {
    if name == "connected" then Connected
    else if name == "disconnected" then Disconnected
    else Reconnecting
  }

  function EventTypeName(t: OpenAIEventType): string
  {
    if t == OpenAICall then "openai_call" else "openai_response"
  }

  /** The value of the `type` field of a record. */
  function Tag(m: Message): string
  {
    match m
    case UserMessage(_, _) => "message"
    case AssistantMessage(_, _, _) => "assistant"
    case ToolCallEvent(_, _, _, _, _) => "tool_call"
    case ToolResultEvent(_, _, _, _, _, _) => "tool_result"
    case OpenAIEvent(t, _, _, _, _, _, _, _) => EventTypeName(t)
    case ErrorMessage(_, _) => "error"
    case ConnectionStatus(_, _) => "connection"
  }

  // Field validators: None is the ValidationError.

  function LiteralField(kw: map<string, Value>, name: string, allowed: set<string>): Option<string>
  {
    if name in kw && kw[name].VStr? && kw[name].s in allowed then Some(kw[name].s) else None
  }

  function StrField(kw: map<string, Value>, name: string): Option<string>
  {
    if name in kw && kw[name].VStr? then Some(kw[name].s) else None
  }

  function IntField(kw: map<string, Value>, name: string): Option<int>
  {
    if name in kw && kw[name].VInt? then Some(kw[name].i) else None
  }

  function TimeField(kw: map<string, Value>, name: string): Option<Timestamp>
  {
    if name in kw && kw[name].VTime? then Some(kw[name].instant) else None
  }

  function DictField(kw: map<string, Value>, name: string): Option<map<string, Value>>
  {
    if name in kw && kw[name].VDict? then Some(kw[name].entries) else None
  }

  /** A `bool` field with a default. */
  function BoolField(kw: map<string, Value>, name: string, default: bool): Option<bool>
  {
    if name !in kw then Some(default)
    else if kw[name].VBool? then Some(kw[name].b)
    else None
  }

  /** An `Optional[int] = None` field. */
  function OptIntField(kw: map<string, Value>, name: string): Option<Option<int>>
  {
    if name !in kw || kw[name] == VNone then Some(None)
    else if kw[name].VInt? then Some(Some(kw[name].i))
    else None
  }

  /**
   * Builds the record of class `k` from the keyword arguments `kw`, as the
   * record constructor does; None is the ValidationError. Keywords that are
   * not fields of the class are ignored.
   */
  function Validate(k: Schema, kw: map<string, Value>): (r: Option<Message>)
    ensures r.Some? ==> SchemaOf(r.value) == k
    ensures r.Some? ==> "type" in kw && kw["type"] == VStr(Tag(r.value)) && Tag(r.value) in AllowedTags(k)
    ensures r.Some? ==> "session_id" in kw && kw["session_id"] == VStr(r.value.sessionId)
  {
    var tag :- LiteralField(kw, "type", AllowedTags(k));
    var sessionId :- StrField(kw, "session_id");
    match k
    case UserMessageSchema =>
      var content :- StrField(kw, "content");
      Some(UserMessage(sessionId, content))
    case AssistantMessageSchema =>
      var content :- StrField(kw, "content");
      var streaming :- BoolField(kw, "streaming", false);
      Some(AssistantMessage(sessionId, content, streaming))
    case ToolCallEventSchema =>
      var toolCallId :- StrField(kw, "tool_call_id");
      var toolName :- StrField(kw, "tool_name");
      var arguments :- DictField(kw, "arguments");
      var timestamp :- TimeField(kw, "timestamp");
      Some(ToolCallEvent(sessionId, toolCallId, toolName, arguments, timestamp))
    case ToolResultEventSchema =>
      var toolCallId :- StrField(kw, "tool_call_id");
      var toolName :- StrField(kw, "tool_name");
      var result :- StrField(kw, "result");
      var durationMs :- IntField(kw, "duration_ms");
      var timestamp :- TimeField(kw, "timestamp");
      Some(ToolResultEvent(sessionId, toolCallId, toolName, result, durationMs, timestamp))
    case OpenAIEventSchema =>
      var model :- StrField(kw, "model");
      var promptTokens :- OptIntField(kw, "prompt_tokens");
      var completionTokens :- OptIntField(kw, "completion_tokens");
      var totalTokens :- OptIntField(kw, "total_tokens");
      var durationMs :- OptIntField(kw, "duration_ms");
      var timestamp :- TimeField(kw, "timestamp");
      var eventType := if tag == "openai_call" then OpenAICall else OpenAIResponse;
      Some(OpenAIEvent(eventType, sessionId, model, promptTokens, completionTokens,
                       totalTokens, durationMs, timestamp))
    case ErrorMessageSchema =>
      var error :- StrField(kw, "error");
      Some(ErrorMessage(sessionId, error))
    case ConnectionStatusSchema =>
      var status :- LiteralField(kw, "status", StatusLiterals);
      Some(ConnectionStatus(StatusOfName(status), sessionId))
  }

  // A declarative description of each class's fields, independent of Validate.

  datatype FieldType =
    | StrType
    | IntType
    | BoolType
    | OptIntType
    | DictType
    | DateTimeType
    | LiteralType(allowed: set<string>)

  datatype FieldSpec = FieldSpec(name: string, fieldType: FieldType, required: bool)

  /** The fields each class declares, with their types; a field with a default is not required. */
  function Fields(k: Schema): seq<FieldSpec>
  {
    var tag := FieldSpec("type", LiteralType(AllowedTags(k)), true);
    var sid := FieldSpec("session_id", StrType, true);
    match k
    case UserMessageSchema => [tag, sid, FieldSpec("content", StrType, true)]
    case AssistantMessageSchema =>
      [tag, sid, FieldSpec("content", StrType, true), FieldSpec("streaming", BoolType, false)]
    case ToolCallEventSchema =>
      [tag, sid, FieldSpec("tool_call_id", StrType, true), FieldSpec("tool_name", StrType, true),
       FieldSpec("arguments", DictType, true), FieldSpec("timestamp", DateTimeType, true)]
    case ToolResultEventSchema =>
      [tag, sid, FieldSpec("tool_call_id", StrType, true), FieldSpec("tool_name", StrType, true),
       FieldSpec("result", StrType, true), FieldSpec("duration_ms", IntType, true),
       FieldSpec("timestamp", DateTimeType, true)]
    case OpenAIEventSchema =>
      [tag, sid, FieldSpec("model", StrType, true),
       FieldSpec("prompt_tokens", OptIntType, false), FieldSpec("completion_tokens", OptIntType, false),
       FieldSpec("total_tokens", OptIntType, false), FieldSpec("duration_ms", OptIntType, false),
       FieldSpec("timestamp", DateTimeType, true)]
    case ErrorMessageSchema => [tag, sid, FieldSpec("error", StrType, true)]
    case ConnectionStatusSchema =>
      [tag, FieldSpec("status", LiteralType(StatusLiterals), true), sid]
  }

  /** The value an omitted optional field takes: `False` for `streaming`, None for an `Optional[int]`. */
  function DefaultValue(t: FieldType): Value
  {
    if t == BoolType then VBool(false) else VNone
  }

  predicate HasType(v: Value, t: FieldType)
  {
    match t
    case StrType => v.VStr?
    case IntType => v.VInt?
    case BoolType => v.VBool?
    case OptIntType => v.VInt? || v == VNone
    case DictType => v.VDict?
    case DateTimeType => v.VTime?
    case LiteralType(allowed) => v.VStr? && v.s in allowed
  }

  /** The field `f` is of its type when given, and given when required. */
  predicate FieldOk(kw: map<string, Value>, f: FieldSpec)
  {
    (f.name in kw ==> HasType(kw[f.name], f.fieldType)) && (f.required ==> f.name in kw)
  }

  /** Every declared field given is of its type, and every required field is given. */
  predicate Conforms(k: Schema, kw: map<string, Value>)
  {
    forall i | 0 <= i < |Fields(k)| :: FieldOk(kw, Fields(k)[i])
  }

  /** Construction succeeds exactly when the keyword arguments conform to the class's declaration. */
  lemma ValidateIffConforms(k: Schema, kw: map<string, Value>)
    ensures Validate(k, kw).Some? <==> Conforms(k, kw)
  {
    match k
    case UserMessageSchema => ValidateIffConformsUser(kw);
    case AssistantMessageSchema => ValidateIffConformsAssistant(kw);
    case ToolCallEventSchema => ValidateIffConformsToolCall(kw);
    case ToolResultEventSchema => ValidateIffConformsToolResult(kw);
    case OpenAIEventSchema => ValidateIffConformsOpenAI(kw);
    case ErrorMessageSchema => ValidateIffConformsError(kw);
    case ConnectionStatusSchema => ValidateIffConformsConnectionStatus(kw);
  }

  lemma ValidateIffConformsUser(kw: map<string, Value>)
    ensures Validate(UserMessageSchema, kw).Some? <==> Conforms(UserMessageSchema, kw)
  {
    var fs := Fields(UserMessageSchema);
    assert Validate(UserMessageSchema, kw).Some? <==> (FieldOk(kw, fs[0]) && FieldOk(kw, fs[1]) && FieldOk(kw, fs[2]));
    if FieldOk(kw, fs[0]) && FieldOk(kw, fs[1]) && FieldOk(kw, fs[2]) {
      forall i | 0 <= i < |fs| ensures FieldOk(kw, fs[i]) {
        assert i in {0, 1, 2};
      }
    }
  }

  lemma ValidateIffConformsAssistant(kw: map<string, Value>)
    ensures Validate(AssistantMessageSchema, kw).Some? <==> Conforms(AssistantMessageSchema, kw)
  {
    var fs := Fields(AssistantMessageSchema);
    assert Validate(AssistantMessageSchema, kw).Some? <==> (FieldOk(kw, fs[0]) && FieldOk(kw, fs[1]) && FieldOk(kw, fs[2]) && FieldOk(kw, fs[3]));
    if FieldOk(kw, fs[0]) && FieldOk(kw, fs[1]) && FieldOk(kw, fs[2]) && FieldOk(kw, fs[3]) {
      forall i | 0 <= i < |fs| ensures FieldOk(kw, fs[i]) {
        assert i in {0, 1, 2, 3};
      }
    }
  }

  lemma ValidateIffConformsToolCall(kw: map<string, Value>)
    ensures Validate(ToolCallEventSchema, kw).Some? <==> Conforms(ToolCallEventSchema, kw)
  {
    var fs := Fields(ToolCallEventSchema);
    assert Validate(ToolCallEventSchema, kw).Some? <==> (FieldOk(kw, fs[0]) && FieldOk(kw, fs[1]) && FieldOk(kw, fs[2]) && FieldOk(kw, fs[3]) && FieldOk(kw, fs[4]) && FieldOk(kw, fs[5]));
    if FieldOk(kw, fs[0]) && FieldOk(kw, fs[1]) && FieldOk(kw, fs[2]) && FieldOk(kw, fs[3]) && FieldOk(kw, fs[4]) && FieldOk(kw, fs[5]) {
      forall i | 0 <= i < |fs| ensures FieldOk(kw, fs[i]) {
        assert i in {0, 1, 2, 3, 4, 5};
      }
    }
  }

  lemma ValidateIffConformsToolResult(kw: map<string, Value>)
    ensures Validate(ToolResultEventSchema, kw).Some? <==> Conforms(ToolResultEventSchema, kw)
  {
    var fs := Fields(ToolResultEventSchema);
    assert Validate(ToolResultEventSchema, kw).Some? <==> (FieldOk(kw, fs[0]) && FieldOk(kw, fs[1]) && FieldOk(kw, fs[2]) && FieldOk(kw, fs[3]) && FieldOk(kw, fs[4]) && FieldOk(kw, fs[5]) && FieldOk(kw, fs[6]));
    if FieldOk(kw, fs[0]) && FieldOk(kw, fs[1]) && FieldOk(kw, fs[2]) && FieldOk(kw, fs[3]) && FieldOk(kw, fs[4]) && FieldOk(kw, fs[5]) && FieldOk(kw, fs[6]) {
      forall i | 0 <= i < |fs| ensures FieldOk(kw, fs[i]) {
        assert i in {0, 1, 2, 3, 4, 5, 6};
      }
    }
  }

  lemma ValidateIffConformsOpenAI(kw: map<string, Value>)
    ensures Validate(OpenAIEventSchema, kw).Some? <==> Conforms(OpenAIEventSchema, kw)
  {
    var fs := Fields(OpenAIEventSchema);
    assert Validate(OpenAIEventSchema, kw).Some? <==> (FieldOk(kw, fs[0]) && FieldOk(kw, fs[1]) && FieldOk(kw, fs[2]) && FieldOk(kw, fs[3]) && FieldOk(kw, fs[4]) && FieldOk(kw, fs[5]) && FieldOk(kw, fs[6]) && FieldOk(kw, fs[7]));
    if FieldOk(kw, fs[0]) && FieldOk(kw, fs[1]) && FieldOk(kw, fs[2]) && FieldOk(kw, fs[3]) && FieldOk(kw, fs[4]) && FieldOk(kw, fs[5]) && FieldOk(kw, fs[6]) && FieldOk(kw, fs[7]) {
      forall i | 0 <= i < |fs| ensures FieldOk(kw, fs[i]) {
        assert i in {0, 1, 2, 3, 4, 5, 6, 7};
      }
    }
  }

  lemma ValidateIffConformsError(kw: map<string, Value>)
    ensures Validate(ErrorMessageSchema, kw).Some? <==> Conforms(ErrorMessageSchema, kw)
  {
    var fs := Fields(ErrorMessageSchema);
    assert Validate(ErrorMessageSchema, kw).Some? <==> (FieldOk(kw, fs[0]) && FieldOk(kw, fs[1]) && FieldOk(kw, fs[2]));
    if FieldOk(kw, fs[0]) && FieldOk(kw, fs[1]) && FieldOk(kw, fs[2]) {
      forall i | 0 <= i < |fs| ensures FieldOk(kw, fs[i]) {
        assert i in {0, 1, 2};
      }
    }
  }

  lemma ValidateIffConformsConnectionStatus(kw: map<string, Value>)
    ensures Validate(ConnectionStatusSchema, kw).Some? <==> Conforms(ConnectionStatusSchema, kw)
  {
    var fs := Fields(ConnectionStatusSchema);
    assert Validate(ConnectionStatusSchema, kw).Some? <==> (FieldOk(kw, fs[0]) && FieldOk(kw, fs[1]) && FieldOk(kw, fs[2]));
    if FieldOk(kw, fs[0]) && FieldOk(kw, fs[1]) && FieldOk(kw, fs[2]) {
      forall i | 0 <= i < |fs| ensures FieldOk(kw, fs[i]) {
        assert i in {0, 1, 2};
      }
    }
  }

  /** The field-name view of a record (`model_dump`). */
  function Dump(m: Message): map<string, Value>
  {
    var common := map["type" := VStr(Tag(m)), "session_id" := VStr(m.sessionId)];
    match m
    case UserMessage(_, content) => common["content" := VStr(content)]
    case AssistantMessage(_, content, streaming) =>
      common["content" := VStr(content)]["streaming" := VBool(streaming)]
    case ToolCallEvent(_, toolCallId, toolName, arguments, timestamp) =>
      common["tool_call_id" := VStr(toolCallId)]["tool_name" := VStr(toolName)]
            ["arguments" := VDict(arguments)]["timestamp" := VTime(timestamp)]
    case ToolResultEvent(_, toolCallId, toolName, result, durationMs, timestamp) =>
      common["tool_call_id" := VStr(toolCallId)]["tool_name" := VStr(toolName)]
            ["result" := VStr(result)]["duration_ms" := VInt(durationMs)]["timestamp" := VTime(timestamp)]
    case OpenAIEvent(_, _, model, promptTokens, completionTokens, totalTokens, durationMs, timestamp) =>
      common["model" := VStr(model)]["prompt_tokens" := OptIntValue(promptTokens)]
            ["completion_tokens" := OptIntValue(completionTokens)]["total_tokens" := OptIntValue(totalTokens)]
            ["duration_ms" := OptIntValue(durationMs)]["timestamp" := VTime(timestamp)]
    case ErrorMessage(_, error) => common["error" := VStr(error)]
    case ConnectionStatus(status, _) => common["status" := VStr(StatusName(status))]
  }

  /** The frame written for a record (`model_dump_json`); rendering the JSON text is not modelled. */
  function Encode(m: Message): Value
  {
    VDict(Dump(m))
  }

  /**
   * A built record holds what was passed: each declared field that was given
   * reads back in the dump as given, and each omitted one as its default.
   */
  lemma ValidateKeepsFields(k: Schema, kw: map<string, Value>)
    requires Validate(k, kw).Some?
    ensures forall i | 0 <= i < |Fields(k)| && Fields(k)[i].name in kw ::
      Dump(Validate(k, kw).value)[Fields(k)[i].name] == kw[Fields(k)[i].name]
    ensures forall i | 0 <= i < |Fields(k)| && Fields(k)[i].name !in kw ::
      Dump(Validate(k, kw).value)[Fields(k)[i].name] == DefaultValue(Fields(k)[i].fieldType)
  {
    forall i | 0 <= i < |Fields(k)|
      ensures var f := Fields(k)[i];
        Dump(Validate(k, kw).value)[f.name] == if f.name in kw then kw[f.name] else DefaultValue(f.fieldType)
    {
      ValidateKeepsField(k, kw, Fields(k)[i]);
    }
  }

  /** One declared field of a built record reads back as given, or as its default. */
  lemma ValidateKeepsField(k: Schema, kw: map<string, Value>, f: FieldSpec)
    requires Validate(k, kw).Some? && f in Fields(k)
    ensures Dump(Validate(k, kw).value)[f.name] == if f.name in kw then kw[f.name] else DefaultValue(f.fieldType)
  {
    var m := Validate(k, kw).value;
    match k
    case UserMessageSchema =>
      assert m == UserMessage(kw["session_id"].s, kw["content"].s);
    case AssistantMessageSchema =>
      assert m == AssistantMessage(kw["session_id"].s, kw["content"].s,
                                   if "streaming" in kw then kw["streaming"].b else false);
    case ToolCallEventSchema => ValidateKeepsToolField(k, kw, f);
    case ToolResultEventSchema => ValidateKeepsToolField(k, kw, f);
    case OpenAIEventSchema =>
      ValidateKeepsOpenAIField(kw, f);
    case ErrorMessageSchema =>
      assert m == ErrorMessage(kw["session_id"].s, kw["error"].s);
    case ConnectionStatusSchema =>
      var status := kw["status"].s;
      assert StatusName(StatusOfName(status)) == status;
  }

  /** `ValidateKeepsField` for the two tool event classes. */
  lemma ValidateKeepsToolField(k: Schema, kw: map<string, Value>, f: FieldSpec)
    requires k == ToolCallEventSchema || k == ToolResultEventSchema
    requires Validate(k, kw).Some? && f in Fields(k)
    ensures Dump(Validate(k, kw).value)[f.name] == if f.name in kw then kw[f.name] else DefaultValue(f.fieldType)
  {
    var m := Validate(k, kw).value;
    if k == ToolCallEventSchema {
      assert m == ToolCallEvent(kw["session_id"].s, kw["tool_call_id"].s, kw["tool_name"].s,
                                kw["arguments"].entries, kw["timestamp"].instant);
    } else {
      assert m == ToolResultEvent(kw["session_id"].s, kw["tool_call_id"].s, kw["tool_name"].s,
                                  kw["result"].s, kw["duration_ms"].i, kw["timestamp"].instant);
    }
  }

  /** `ValidateKeepsField` for the OpenAI event class. */
  lemma ValidateKeepsOpenAIField(kw: map<string, Value>, f: FieldSpec)
    requires Validate(OpenAIEventSchema, kw).Some? && f in Fields(OpenAIEventSchema)
    ensures Dump(Validate(OpenAIEventSchema, kw).value)[f.name] ==
      if f.name in kw then kw[f.name] else DefaultValue(f.fieldType)
  {
    ValidateOpenAIRecord(kw);
    OptIntFieldReadsBack(kw, "prompt_tokens");
    OptIntFieldReadsBack(kw, "completion_tokens");
    OptIntFieldReadsBack(kw, "total_tokens");
    OptIntFieldReadsBack(kw, "duration_ms");
    var m := Validate(OpenAIEventSchema, kw).value;
    var fields := Fields(OpenAIEventSchema);
    var i :| 0 <= i < |fields| && fields[i] == f;
    DumpOpenAIField(m, kw, i);
  }

  /** An OpenAI event whose fields all read back from `kw` dumps each declared field as `kw` gives it. */
  lemma DumpOpenAIField(m: Message, kw: map<string, Value>, i: int)
    requires m.OpenAIEvent? && 0 <= i < |Fields(OpenAIEventSchema)|
    requires "type" in kw && kw["type"] == VStr(Tag(m))
    requires "session_id" in kw && kw["session_id"] == VStr(m.sessionId)
    requires "model" in kw && kw["model"] == VStr(m.model)
    requires "timestamp" in kw && kw["timestamp"] == VTime(m.timestamp)
    requires OptIntValue(m.promptTokens) == GetOr(kw, "prompt_tokens", VNone)
    requires OptIntValue(m.completionTokens) == GetOr(kw, "completion_tokens", VNone)
    requires OptIntValue(m.totalTokens) == GetOr(kw, "total_tokens", VNone)
    requires OptIntValue(m.callDurationMs) == GetOr(kw, "duration_ms", VNone)
    ensures var f := Fields(OpenAIEventSchema)[i];
      Dump(m)[f.name] == GetOr(kw, f.name, DefaultValue(f.fieldType))
  {
    if i < 4 {
      DumpOpenAIHead(m, kw, i);
    } else {
      DumpOpenAITail(m, kw, i);
    }
  }

  /** The tag, the session id, the model and the prompt token count of an OpenAI event's dump. */
  lemma DumpOpenAIHead(m: Message, kw: map<string, Value>, i: int)
    requires m.OpenAIEvent? && 0 <= i < 4
    requires "type" in kw && kw["type"] == VStr(Tag(m))
    requires "session_id" in kw && kw["session_id"] == VStr(m.sessionId)
    requires "model" in kw && kw["model"] == VStr(m.model)
    requires OptIntValue(m.promptTokens) == GetOr(kw, "prompt_tokens", VNone)
    ensures var f := Fields(OpenAIEventSchema)[i];
      Dump(m)[f.name] == GetOr(kw, f.name, DefaultValue(f.fieldType))
  {
  }

  /** The remaining counts and the timestamp of an OpenAI event's dump. */
  lemma DumpOpenAITail(m: Message, kw: map<string, Value>, i: int)
    requires m.OpenAIEvent? && 4 <= i < 8
    requires "timestamp" in kw && kw["timestamp"] == VTime(m.timestamp)
    requires OptIntValue(m.completionTokens) == GetOr(kw, "completion_tokens", VNone)
    requires OptIntValue(m.totalTokens) == GetOr(kw, "total_tokens", VNone)
    requires OptIntValue(m.callDurationMs) == GetOr(kw, "duration_ms", VNone)
    ensures var f := Fields(OpenAIEventSchema)[i];
      Dump(m)[f.name] == GetOr(kw, f.name, DefaultValue(f.fieldType))
  {
  }

  /** The OpenAI event built from `kw`, field by field. */
  lemma ValidateOpenAIRecord(kw: map<string, Value>)
    requires Validate(OpenAIEventSchema, kw).Some?
    ensures Validate(OpenAIEventSchema, kw).value ==
      OpenAIEvent(if kw["type"].s == "openai_call" then OpenAICall else OpenAIResponse,
                  kw["session_id"].s, kw["model"].s,
                  OptIntField(kw, "prompt_tokens").value, OptIntField(kw, "completion_tokens").value,
                  OptIntField(kw, "total_tokens").value, OptIntField(kw, "duration_ms").value,
                  kw["timestamp"].instant)
  {
  }

  /** An accepted `Optional[int]` field dumps back to what was given, or to None when omitted. */
  lemma OptIntFieldReadsBack(kw: map<string, Value>, name: string)
    requires OptIntField(kw, name).Some?
    ensures OptIntValue(OptIntField(kw, name).value) == GetOr(kw, name, VNone)
  {
  }

  /** Round trip: rebuilding a record from its own dump gives the record back. */
  lemma ValidateDump(m: Message)
    ensures Validate(SchemaOf(m), Dump(m)) == Some(m)
  {
    match m
    case ToolCallEvent(_, _, _, _, _) => ValidateDumpToolCall(m);
    case ToolResultEvent(_, _, _, _, _, _) => ValidateDumpToolResult(m);
    case OpenAIEvent(_, _, _, _, _, _, _, _) => ValidateDumpOpenAI(m);
    case ConnectionStatus(status, _) =>
      assert StatusOfName(StatusName(status)) == status;
    case _ =>
  }

  lemma ValidateDumpToolCall(m: Message)
    requires m.ToolCallEvent?
    ensures Validate(ToolCallEventSchema, Dump(m)) == Some(m)
  {
  }

  lemma ValidateDumpToolResult(m: Message)
    requires m.ToolResultEvent?
    ensures Validate(ToolResultEventSchema, Dump(m)) == Some(m)
  {
  }

  lemma ValidateDumpOpenAI(m: Message)
    requires m.OpenAIEvent?
    ensures Validate(OpenAIEventSchema, Dump(m)) == Some(m)
  {
    var kw := Dump(m);
    assert OptIntField(kw, "prompt_tokens") == Some(m.promptTokens);
    assert OptIntField(kw, "completion_tokens") == Some(m.completionTokens);
    assert OptIntField(kw, "total_tokens") == Some(m.totalTokens);
    assert OptIntField(kw, "duration_ms") == Some(m.callDurationMs);
  }

  /** Each class admits its own tags only: no tag is shared by two classes. */
  lemma TagsDisjoint(k1: Schema, k2: Schema, kw: map<string, Value>)
    requires k1 != k2
    ensures Validate(k1, kw).None? || Validate(k2, kw).None?
  {
  }

  /** `streaming` defaults to false when it is not given. */
  lemma StreamingDefaultsFalse(sessionId: string, content: string)
    ensures Validate(AssistantMessageSchema,
                     map["type" := VStr("assistant"), "session_id" := VStr(sessionId), "content" := VStr(content)])
         == Some(AssistantMessage(sessionId, content, false))
  {
  }

  /** The token counts and the duration of an OpenAI event default to None when they are not given. */
  lemma OpenAIOptionalsDefaultNone(kw: map<string, Value>)
    requires "prompt_tokens" !in kw && "completion_tokens" !in kw
    requires "total_tokens" !in kw && "duration_ms" !in kw
    requires Validate(OpenAIEventSchema, kw).Some?
    ensures var m := Validate(OpenAIEventSchema, kw).value;
      m.promptTokens == None && m.completionTokens == None && m.totalTokens == None && m.callDurationMs == None
  {
  }

  /** A connection status outside connected/disconnected/reconnecting is rejected. */
  lemma StatusOutsideLiteralsRejected(kw: map<string, Value>)
    requires "status" in kw && kw["status"].VStr? && kw["status"].s !in StatusLiterals
    ensures Validate(ConnectionStatusSchema, kw) == None
  {
  }

  /** The three allowed statuses are accepted, and `invalid_status` is not. */
  lemma ConnectionStatusExamples(sessionId: string)
    ensures forall s | s in StatusLiterals ::
      Validate(ConnectionStatusSchema, map["type" := VStr("connection"), "status" := VStr(s), "session_id" := VStr(sessionId)]).Some?
    ensures Validate(ConnectionStatusSchema,
                     map["type" := VStr("connection"), "status" := VStr("invalid_status"), "session_id" := VStr(sessionId)]) == None
  {
  }

  /** A user message without `content`, or a tool call without `tool_call_id` or `timestamp`, is rejected. */
  lemma MissingRequiredFieldRejected(kw: map<string, Value>)
    ensures "content" !in kw ==> Validate(UserMessageSchema, kw) == None
    ensures "tool_call_id" !in kw || "timestamp" !in kw ==> Validate(ToolCallEventSchema, kw) == None
  {
  }
}
