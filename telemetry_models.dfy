/*
 * The records the trace endpoint returns: span attributes (optional fields,
 * most of them filled from dotted keys), span data and the response that
 * groups a session's spans with the number of distinct traces among them.
 */
module TelemetryModels {
  import opened PyValues

  /** Operation-specific attributes of a span; every field is optional. */
  datatype SpanAttributes = SpanAttributes(
    openaiPrompt: Option<string> := None,
    openaiCompletion: Option<string> := None,
    openaiModel: Option<string> := None,
    openaiTokenCount: Option<int> := None,
    mcpQuery: Option<string> := None,
    mcpResourceType: Option<string> := None,
    mcpResponse: Option<string> := None,
    sessionId: Option<string> := None,
    additionalAttributes: map<string, string> := map[])

  /** A span of a trace; only the parent and the error message are optional. */
  datatype SpanData = SpanData(
    spanId: string,
    traceId: string,
    parentSpanId: Option<string> := None,
    operationName: string,
    startTime: int,
    endTime: int,
    duration: int,
    attributes: SpanAttributes,
    status: string,
    errorMessage: Option<string> := None)

  datatype TelemetryResponse = TelemetryResponse(
    sessionId: string,
    spans: seq<SpanData> := [],
    traceCount: int)

  // Validation of the keyword arguments of SpanAttributes: None is the ValidationError.

  /**
   * The value given for a field with an alias: the alias is looked up first,
   * then the field's own name (the model also accepts fields by name).
   */
  function Pick(kw: map<string, Value>, alias: string, name: string): Option<Value>
  {
    if alias in kw then Some(kw[alias])
    else if name in kw then Some(kw[name])
    else None
  }

  function Lookup(kw: map<string, Value>, name: string): Option<Value>
  {
    if name in kw then Some(kw[name]) else None
  }

  /** The value given for an optional field, or None when it is not given. */
  function GivenOrNone(given: Option<Value>): Value
  {
    if given.Some? then given.value else VNone
  }

  /** An `Optional[str] = None` field; the outer None is a validation error. */
  function OptStr(given: Option<Value>): (r: Option<Option<string>>)
    ensures given.Some? && r.Some? ==> OptStrValue(r.value) == given.value
    ensures r.Some? <==> given.None? || given.value == VNone || given.value.VStr?
    ensures r.Some? ==> OptStrValue(r.value) == GivenOrNone(given)
  {
    match given
    case None => Some(None)
    case Some(VNone) => Some(None)
    case Some(VStr(s)) => Some(Some(s))
    case Some(_) => None
  }

  /** An `Optional[int] = None` field. */
  function OptInt(given: Option<Value>): (r: Option<Option<int>>)
    ensures r.Some? <==> given.None? || given.value == VNone || given.value.VInt?
    ensures r.Some? ==> OptIntValue(r.value) == GivenOrNone(given)
  {
    match given
    case None => Some(None)
    case Some(VNone) => Some(None)
    case Some(VInt(i)) => Some(Some(i))
    case Some(_) => None
  }

  predicate AllStrings(m: map<string, Value>)
  {
    forall k | k in m :: m[k].VStr?
  }

  /** A `Dict[str, str]` field that defaults to an empty dict. */
  function StrDict(given: Option<Value>): (r: Option<map<string, string>>)
    ensures r.Some? <==> given.None? || (given.value.VDict? && AllStrings(given.value.entries))
    ensures r.Some? ==> StrDictValue(r.value) == if given.Some? then given.value else StrDictValue(map[])
  {
    match given
    case None => Some(map[])
    case Some(VDict(m)) => if AllStrings(m) then Some(map k | k in m :: m[k].s) else None
    case Some(_) => None
  }

  /**
   * `SpanAttributes(**kw)`: each field holds the value given under its alias,
   * else under its name, else None; keys that are neither an alias nor a field
   * name are ignored.
   */
  function ValidateSpanAttributes(kw: map<string, Value>): (r: Option<SpanAttributes>)
    ensures r.Some? ==>
      && OptStrValue(r.value.openaiPrompt) == GivenOrNone(Pick(kw, "openai.prompt", "openai_prompt"))
      && OptStrValue(r.value.openaiCompletion) == GivenOrNone(Pick(kw, "openai.completion", "openai_completion"))
      && OptStrValue(r.value.openaiModel) == GivenOrNone(Pick(kw, "openai.model", "openai_model"))
      && OptIntValue(r.value.openaiTokenCount) == GivenOrNone(Pick(kw, "openai.token_count", "openai_token_count"))
      && OptStrValue(r.value.mcpQuery) == GivenOrNone(Pick(kw, "mcp.query", "mcp_query"))
      && OptStrValue(r.value.mcpResourceType) == GivenOrNone(Pick(kw, "mcp.resource_type", "mcp_resource_type"))
      && OptStrValue(r.value.mcpResponse) == GivenOrNone(Pick(kw, "mcp.response", "mcp_response"))
      && OptStrValue(r.value.sessionId) == GetOr(kw, "session_id", VNone)
      && StrDictValue(r.value.additionalAttributes) == GetOr(kw, "additional_attributes", StrDictValue(map[]))
  {
    var openaiPrompt :- OptStr(Pick(kw, "openai.prompt", "openai_prompt"));
    var openaiCompletion :- OptStr(Pick(kw, "openai.completion", "openai_completion"));
    var openaiModel :- OptStr(Pick(kw, "openai.model", "openai_model"));
    var openaiTokenCount :- OptInt(Pick(kw, "openai.token_count", "openai_token_count"));
    var mcpQuery :- OptStr(Pick(kw, "mcp.query", "mcp_query"));
    var mcpResourceType :- OptStr(Pick(kw, "mcp.resource_type", "mcp_resource_type"));
    var mcpResponse :- OptStr(Pick(kw, "mcp.response", "mcp_response"));
    var sessionId :- OptStr(Lookup(kw, "session_id"));
    var additional :- StrDict(Lookup(kw, "additional_attributes"));
    Some(SpanAttributes(openaiPrompt, openaiCompletion, openaiModel, openaiTokenCount,
                        mcpQuery, mcpResourceType, mcpResponse, sessionId, additional))
  }

  /** Every key SpanAttributes reads: the seven aliases, the field names, `session_id` and `additional_attributes`. */
  const AttributeKeys: set<string> := {
    "openai.prompt", "openai.completion", "openai.model", "openai.token_count",
    "mcp.query", "mcp.resource_type", "mcp.response",
    "openai_prompt", "openai_completion", "openai_model", "openai_token_count",
    "mcp_query", "mcp_resource_type", "mcp_response",
    "session_id", "additional_attributes"}

  /** The additional attributes as a dict value. */
  function StrDictValue(m: map<string, string>): Value
  {
    VDict(map k | k in m :: VStr(m[k]))
  }

  /** `model_dump(by_alias=True)`: the seven aliased fields under their dotted keys. */
  function DumpByAlias(a: SpanAttributes): map<string, Value>
  {
    map["openai.prompt" := OptStrValue(a.openaiPrompt), "openai.completion" := OptStrValue(a.openaiCompletion),
        "openai.model" := OptStrValue(a.openaiModel), "openai.token_count" := OptIntValue(a.openaiTokenCount),
        "mcp.query" := OptStrValue(a.mcpQuery), "mcp.resource_type" := OptStrValue(a.mcpResourceType),
        "mcp.response" := OptStrValue(a.mcpResponse), "session_id" := OptStrValue(a.sessionId),
        "additional_attributes" := StrDictValue(a.additionalAttributes)]
  }

  /** `model_dump()`: every field under its own name. */
  function DumpByName(a: SpanAttributes): map<string, Value>
  {
    map["openai_prompt" := OptStrValue(a.openaiPrompt), "openai_completion" := OptStrValue(a.openaiCompletion),
        "openai_model" := OptStrValue(a.openaiModel), "openai_token_count" := OptIntValue(a.openaiTokenCount),
        "mcp_query" := OptStrValue(a.mcpQuery), "mcp_resource_type" := OptStrValue(a.mcpResourceType),
        "mcp_response" := OptStrValue(a.mcpResponse), "session_id" := OptStrValue(a.sessionId),
        "additional_attributes" := StrDictValue(a.additionalAttributes)]
  }

  /** The dict value of the additional attributes is read back as the same map. */
  lemma StrDictRoundTrip(m: map<string, string>)
    ensures StrDict(Some(StrDictValue(m))) == Some(m)
  {
    var extra := map k | k in m :: VStr(m[k]);
    assert AllStrings(extra);
    assert (map k | k in extra :: extra[k].s) == m;
  }

  /** An empty SpanAttributes has every optional field None and no additional attributes. */
  lemma EmptyAttributesDefaults()
    ensures ValidateSpanAttributes(map[]) == Some(SpanAttributes())
    ensures var a := SpanAttributes();
      && a.openaiPrompt == a.openaiCompletion == a.openaiModel == None && a.openaiTokenCount == None
      && a.mcpQuery == a.mcpResourceType == a.mcpResponse == a.sessionId == None
      && a.additionalAttributes == map[]
  {
  }

  /** The dotted keys fill the corresponding fields; `session_id` is read from its plain key. */
  lemma DottedKeysPopulate(prompt: string, completion: string, model: string, tokenCount: int,
                           query: string, resourceType: string, response: string, sessionId: string)
    ensures ValidateSpanAttributes(
              map["openai.prompt" := VStr(prompt), "openai.completion" := VStr(completion),
                  "openai.model" := VStr(model), "openai.token_count" := VInt(tokenCount),
                  "mcp.query" := VStr(query), "mcp.resource_type" := VStr(resourceType),
                  "mcp.response" := VStr(response), "session_id" := VStr(sessionId)])
         == Some(SpanAttributes(Some(prompt), Some(completion), Some(model), Some(tokenCount),
                                Some(query), Some(resourceType), Some(response), Some(sessionId), map[]))
  {
    var kw := map["openai.prompt" := VStr(prompt), "openai.completion" := VStr(completion),
                  "openai.model" := VStr(model), "openai.token_count" := VInt(tokenCount),
                  "mcp.query" := VStr(query), "mcp.resource_type" := VStr(resourceType),
                  "mcp.response" := VStr(response), "session_id" := VStr(sessionId)];
    assert Pick(kw, "openai.prompt", "openai_prompt") == Some(VStr(prompt));
    assert Pick(kw, "openai.completion", "openai_completion") == Some(VStr(completion));
    assert Pick(kw, "openai.model", "openai_model") == Some(VStr(model));
    assert Pick(kw, "openai.token_count", "openai_token_count") == Some(VInt(tokenCount));
    assert Pick(kw, "mcp.query", "mcp_query") == Some(VStr(query));
    assert Pick(kw, "mcp.resource_type", "mcp_resource_type") == Some(VStr(resourceType));
    assert Pick(kw, "mcp.response", "mcp_response") == Some(VStr(response));
    assert Lookup(kw, "session_id") == Some(VStr(sessionId));
    assert Lookup(kw, "additional_attributes") == None;
  }

  /** When a field is given both by alias and by name, the alias wins. */
  lemma AliasTakesPrecedence(kw: map<string, Value>, prompt: string, other: Value)
    requires "openai.prompt" in kw && kw["openai.prompt"] == VStr(prompt)
    requires ValidateSpanAttributes(kw).Some?
    ensures ValidateSpanAttributes(kw["openai_prompt" := other]).Some? ==>
      ValidateSpanAttributes(kw["openai_prompt" := other]).value.openaiPrompt == Some(prompt)
  {
  }

  /** Keys the record does not declare are ignored: they never reach `additional_attributes`. */
  lemma UnknownKeysIgnored(kw: map<string, Value>, key: string, v: Value)
    requires key !in AttributeKeys
    ensures ValidateSpanAttributes(kw[key := v]) == ValidateSpanAttributes(kw)
  {
    var kw' := kw[key := v];
    assert Pick(kw', "openai.prompt", "openai_prompt") == Pick(kw, "openai.prompt", "openai_prompt");
    assert Pick(kw', "openai.completion", "openai_completion") == Pick(kw, "openai.completion", "openai_completion");
    assert Pick(kw', "openai.model", "openai_model") == Pick(kw, "openai.model", "openai_model");
    assert Pick(kw', "openai.token_count", "openai_token_count") == Pick(kw, "openai.token_count", "openai_token_count");
    assert Pick(kw', "mcp.query", "mcp_query") == Pick(kw, "mcp.query", "mcp_query");
    assert Pick(kw', "mcp.resource_type", "mcp_resource_type") == Pick(kw, "mcp.resource_type", "mcp_resource_type");
    assert Pick(kw', "mcp.response", "mcp_response") == Pick(kw, "mcp.response", "mcp_response");
    assert Lookup(kw', "session_id") == Lookup(kw, "session_id");
    assert Lookup(kw', "additional_attributes") == Lookup(kw, "additional_attributes");
  }

  /** Round trip: the attributes are rebuilt from their dump keyed by alias. */
  lemma AttributesRoundTripByAlias(a: SpanAttributes)
    ensures ValidateSpanAttributes(DumpByAlias(a)) == Some(a)
  {
    ValidateFromPicks(DumpByAlias(a), a);
  }

  /** In a dump keyed by field name no alias is present, so each field is read under its name. */
  lemma ByNameReadsNames(a: SpanAttributes)
    ensures var kw := DumpByName(a);
      && Pick(kw, "openai.prompt", "openai_prompt") == Some(OptStrValue(a.openaiPrompt))
      && Pick(kw, "openai.completion", "openai_completion") == Some(OptStrValue(a.openaiCompletion))
      && Pick(kw, "openai.model", "openai_model") == Some(OptStrValue(a.openaiModel))
      && Pick(kw, "openai.token_count", "openai_token_count") == Some(OptIntValue(a.openaiTokenCount))
  {
    var kw := DumpByName(a);
    assert "openai.prompt" !in kw && "openai.completion" !in kw;
    assert "openai.model" !in kw && "openai.token_count" !in kw;
  }

  lemma ByNameReadsMcpNames(a: SpanAttributes)
    ensures var kw := DumpByName(a);
      && Pick(kw, "mcp.query", "mcp_query") == Some(OptStrValue(a.mcpQuery))
      && Pick(kw, "mcp.resource_type", "mcp_resource_type") == Some(OptStrValue(a.mcpResourceType))
      && Pick(kw, "mcp.response", "mcp_response") == Some(OptStrValue(a.mcpResponse))
  {
    var kw := DumpByName(a);
    assert "mcp.query" !in kw && "mcp.resource_type" !in kw && "mcp.response" !in kw;
  }

  /** Round trip: the attributes are rebuilt from their dump keyed by field name. */
  /** Validation gives back `a` whenever every field reads a value that dumps `a`'s own. */
  lemma ValidateFromPicks(kw: map<string, Value>, a: SpanAttributes)
    requires Pick(kw, "openai.prompt", "openai_prompt") == Some(OptStrValue(a.openaiPrompt))
    requires Pick(kw, "openai.completion", "openai_completion") == Some(OptStrValue(a.openaiCompletion))
    requires Pick(kw, "openai.model", "openai_model") == Some(OptStrValue(a.openaiModel))
    requires Pick(kw, "openai.token_count", "openai_token_count") == Some(OptIntValue(a.openaiTokenCount))
    requires Pick(kw, "mcp.query", "mcp_query") == Some(OptStrValue(a.mcpQuery))
    requires Pick(kw, "mcp.resource_type", "mcp_resource_type") == Some(OptStrValue(a.mcpResourceType))
    requires Pick(kw, "mcp.response", "mcp_response") == Some(OptStrValue(a.mcpResponse))
    requires Lookup(kw, "session_id") == Some(OptStrValue(a.sessionId))
    requires Lookup(kw, "additional_attributes") == Some(StrDictValue(a.additionalAttributes))
    ensures ValidateSpanAttributes(kw) == Some(a)
  {
    assert OptStr(Some(OptStrValue(a.openaiPrompt))) == Some(a.openaiPrompt);
    assert OptStr(Some(OptStrValue(a.openaiCompletion))) == Some(a.openaiCompletion);
    assert OptStr(Some(OptStrValue(a.openaiModel))) == Some(a.openaiModel);
    assert OptInt(Some(OptIntValue(a.openaiTokenCount))) == Some(a.openaiTokenCount);
    assert OptStr(Some(OptStrValue(a.mcpQuery))) == Some(a.mcpQuery);
    assert OptStr(Some(OptStrValue(a.mcpResourceType))) == Some(a.mcpResourceType);
    assert OptStr(Some(OptStrValue(a.mcpResponse))) == Some(a.mcpResponse);
    assert OptStr(Some(OptStrValue(a.sessionId))) == Some(a.sessionId);
    StrDictRoundTrip(a.additionalAttributes);
  }

  lemma AttributesRoundTripByName(a: SpanAttributes)
    ensures ValidateSpanAttributes(DumpByName(a)) == Some(a)
  {
    ByNameReadsNames(a);
    ByNameReadsMcpNames(a);
    ValidateFromPicks(DumpByName(a), a);
  }

  // Distinct traces among the spans of a response.

  function TraceIds(spans: seq<SpanData>): set<string>
  {
    set s | s in spans :: s.traceId
  }

  /** The number of distinct elements of `ids`, counting each at its first occurrence. */
  function CountDistinct(ids: seq<string>): (n: nat)
    ensures n == |set x | x in ids|
    ensures n <= |ids|
    ensures ids != [] ==> n >= 1
  {
    if ids == [] then 0
    else
      var init, last := ids[..|ids| - 1], ids[|ids| - 1];
      assert ids == init + [last];
      assert (set x | x in ids) == (set x | x in init) + {last};
      assert last in init <==> last in (set x | x in init);
      CountDistinct(init) + (if last in init then 0 else 1)
  }

  /** `trace_count`: the number of distinct trace ids among the spans. */
  function TraceCount(spans: seq<SpanData>): (n: nat)
    ensures n == |TraceIds(spans)|
    ensures n <= |spans|
    ensures spans != [] ==> n >= 1
  {
    var ids := seq(|spans|, i requires 0 <= i < |spans| => spans[i].traceId);
    assert (set x | x in ids) == TraceIds(spans) by {
      forall x | x in TraceIds(spans) ensures x in ids {
        var s :| s in spans && s.traceId == x;
        var i :| 0 <= i < |spans| && spans[i] == s;
        assert ids[i] == x;
      }
    }
    CountDistinct(ids)
  }

  /** Two spans of one trace make one trace; of two traces, two; no spans, none. */
  lemma TraceCountExamples(a: SpanData, b: SpanData)
    ensures a.traceId == b.traceId ==> TraceCount([a, b]) == 1
    ensures a.traceId != b.traceId ==> TraceCount([a, b]) == 2
    ensures TraceCount([]) == 0
  {
    assert TraceIds([a, b]) == {a.traceId, b.traceId};
  }
}
