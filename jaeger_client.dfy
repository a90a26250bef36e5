/*
 * Conversion of a trace-store query result into span records: a relevance
 * filter on operation names, the conversion of one stored span (end time,
 * parent from the first CHILD_OF reference, attributes and status from its
 * tags) and the walk over traces and spans that keeps the relevant spans
 * that convert. A `None` result stands for an exception.
 */
module JaegerClient {
  import opened PyValues
  import opened TelemetryModels

  // Relevance filter

  /** The operation names whose spans are reported: OpenAI, MCP, Aidbox, chat and agent operations. */
  predicate IsRelevantName(name: string)
  {
    || StartsWith(name, "openai.")
    || StartsWith(name, "mcp.")
    || StartsWith(name, "chat ")
    || StartsWith(name, "agent ")
    || Contains(name, "OpenAI")
    || Contains(name, "MCP")
    || Contains(name, "Aidbox")
    || Contains(Lower(name), "gpt")
    || name == "chat_session"
    || name == "running tool"
    || name == "running tools"
  }

  /**
   * `_is_relevant_span`: the name defaults to "" when the span has none.
   * None when the span is not a dict or its name is not a str.
   */
  function IsRelevantSpan(span: Value): (r: Option<bool>)
    ensures r.Some? <==> span.VDict? && ("operationName" in span.entries ==> span.entries["operationName"].VStr?)
    ensures r == Some(true) ==> "operationName" in span.entries && IsRelevantName(span.entries["operationName"].s)
    ensures r.Some? ==> (r.value <==> IsRelevantName(GetOr(span.entries, "operationName", VStr("")).s))
  {
    var name :- Get(span, "operationName", VStr(""));
    if name.VStr? then Some(IsRelevantName(name.s)) else None
  }

  /** Every relevant name has at least three characters, so the empty (missing) name is never relevant. */
  lemma RelevantNamesAreLong(name: string)
    requires IsRelevantName(name)
    ensures |name| >= 3
  {
    if Contains(name, "OpenAI") {
      ContainsLength(name, "OpenAI");
    } else if Contains(name, "MCP") {
      ContainsLength(name, "MCP");
    } else if Contains(name, "Aidbox") {
      ContainsLength(name, "Aidbox");
    } else if Contains(Lower(name), "gpt") {
      ContainsLength(Lower(name), "gpt");
    }
  }

  /** Operation names from the client's own examples that are relevant. */
  lemma RelevantExamples(openai: string, mcp: string, aidbox: string)
    requires openai == "openai.chat.completion" && mcp == "mcp.query" && aidbox == "Aidbox.query"
    ensures IsRelevantName(openai) && IsRelevantName(mcp) && IsRelevantName(aidbox)
  {
    assert StartsWith(openai, "openai.");
    assert StartsWith(mcp, "mcp.");
    assert StartsWith(aidbox, "Aidbox");
  }

  /** A name whose first character starts none of the relevant prefixes or exact names matches none of them. */
  lemma NoRelevantPrefix(name: string)
    requires |name| > 0 && name[0] !in {'o', 'm', 'c', 'a', 'r'}
    ensures !StartsWith(name, "openai.") && !StartsWith(name, "mcp.")
    ensures !StartsWith(name, "chat ") && !StartsWith(name, "agent ")
    ensures name != "chat_session" && name != "running tool" && name != "running tools"
  {
  }

  /** A name without `O`, `M`, `A`, `g` or `G` holds none of the markers. */
  lemma NoRelevantMarker(name: string)
    requires 'O' !in name && 'M' !in name && 'A' !in name && 'g' !in name && 'G' !in name
    ensures !Contains(name, "OpenAI") && !Contains(name, "MCP") && !Contains(name, "Aidbox")
    ensures !Contains(Lower(name), "gpt")
  {
    MissingCharNotContained(name, "OpenAI", 'O');
    MissingCharNotContained(name, "MCP", 'M');
    MissingCharNotContained(name, "Aidbox", 'A');
    assert 'g' !in Lower(name) by {
      forall i | 0 <= i < |name| ensures Lower(name)[i] != 'g' {
        assert name[i] != 'g' && name[i] != 'G';
      }
    }
    MissingCharNotContained(Lower(name), "gpt", 'g');
  }

  /**
   * A name is irrelevant when its first character starts none of the
   * relevant prefixes or exact names, and it has none of the characters
   * `O`, `M`, `A`, `g`, `G` that the markers need.
   */
  lemma IrrelevantWhen(name: string)
    requires |name| > 0 && name[0] !in {'o', 'm', 'c', 'a', 'r'}
    requires 'O' !in name && 'M' !in name && 'A' !in name && 'g' !in name && 'G' !in name
    ensures !IsRelevantName(name)
  {
    NoRelevantPrefix(name);
    NoRelevantMarker(name);
  }

  /** An internal operation of the client's examples is not relevant. */
  lemma IrrelevantExample(name: string)
    requires name == "internal.function"
    ensures !IsRelevantName(name)
  {
    assert name[0] == 'i';
    assert 'O' !in name && 'M' !in name && 'A' !in name && 'g' !in name && 'G' !in name;
    IrrelevantWhen(name);
  }

  /** A span without an operation name is not relevant. */
  lemma MissingNameIrrelevant(span: Value)
    requires span.VDict? && "operationName" !in span.entries
    ensures IsRelevantSpan(span) == Some(false)
  {
    if IsRelevantName("") {
      RelevantNamesAreLong("");
    }
  }

  // Conversion of one span

  /** A reference whose `refType` is `CHILD_OF`. */
  predicate IsChildOf(ref: Value)
  {
    ref.VDict? && "refType" in ref.entries && ref.entries["refType"] == VStr("CHILD_OF")
  }

  /**
   * The parent value the reference loop leaves: the `spanID` (None when
   * absent) of the first CHILD_OF reference, VNone when there is none.
   * A reference before it that is not a dict makes `.get` raise.
   */
  function FirstChildOf(refs: seq<Value>): Option<Value>
  {
    if refs == [] then Some(VNone)
    else
      var refType :- Get(refs[0], "refType", VNone);
      if refType == VStr("CHILD_OF") then Get(refs[0], "spanID", VNone)
      else FirstChildOf(refs[1..])
  }

  /** The parent is the `spanID` of the first CHILD_OF reference, the references before it being dicts. */
  lemma {:induction false} ParentIsFirstChildOf(refs: seq<Value>, i: int)
    requires 0 <= i < |refs| && IsChildOf(refs[i])
    requires forall j | 0 <= j < i :: refs[j].VDict? && !IsChildOf(refs[j])
    ensures FirstChildOf(refs) == Some(if "spanID" in refs[i].entries then refs[i].entries["spanID"] else VNone)
  {
    if i > 0 {
      assert !IsChildOf(refs[0]);
      ParentIsFirstChildOf(refs[1..], i - 1);
    }
  }

  /** Without a CHILD_OF reference there is no parent. */
  lemma {:induction false} NoChildOfNoParent(refs: seq<Value>)
    requires forall j | 0 <= j < |refs| :: refs[j].VDict? && !IsChildOf(refs[j])
    ensures FirstChildOf(refs) == Some(VNone)
  {
    if refs != [] {
      assert !IsChildOf(refs[0]);
      NoChildOfNoParent(refs[1..]);
    }
  }

  /** The reference loop: scans the references and stops at the first CHILD_OF one. */
  method FindParentSpanId(references: seq<Value>) returns (r: Option<Value>)
    ensures r == FirstChildOf(references)
  {
    var parentSpanId := VNone;
    var i := 0;
    while i < |references|
      invariant 0 <= i <= |references|
      invariant FirstChildOf(references) == FirstChildOf(references[i..])
    {
      var ref := references[i];
      var refType := Get(ref, "refType", VNone);
      if refType.None? {
        return None;
      }
      if refType.value == VStr("CHILD_OF") {
        r := Get(ref, "spanID", VNone);
        return;
      }
      assert references[i..][1..] == references[i + 1..];
      i := i + 1;
    }
    return Some(parentSpanId);
  }

  /** `tag["key"]`, usable as a keyword name: None when the tag is not a dict, has no key, or its key is not a str. */
  function TagKey(tag: Value): Option<string>
  {
    if tag.VDict? && "key" in tag.entries && tag.entries["key"].VStr? then Some(tag.entries["key"].s) else None
  }

  /** `tag.get("value", "")` */
  function TagValue(tag: Value): Value
  {
    if tag.VDict? && "value" in tag.entries then tag.entries["value"] else VStr("")
  }

  /** The attribute dict `{tag["key"]: tag.get("value", "") for tag in tags}`: later tags overwrite earlier ones. */
  function TagsToDict(tags: seq<Value>): Option<map<string, Value>>
  {
    if tags == [] then Some(map[])
    else
      var init :- TagsToDict(tags[..|tags| - 1]);
      var key :- TagKey(tags[|tags| - 1]);
      Some(init[key := TagValue(tags[|tags| - 1])])
  }

  /** Tags that are all dicts with str keys. */
  predicate WellFormedTags(tags: seq<Value>)
  {
    forall i | 0 <= i < |tags| :: TagKey(tags[i]).Some?
  }

  /** The attribute dict exists exactly when every tag is a dict with a str key. */
  lemma {:induction false} TagsToDictDefined(tags: seq<Value>)
    ensures TagsToDict(tags).Some? <==> WellFormedTags(tags)
  {
    if tags != [] {
      var init := tags[..|tags| - 1];
      TagsToDictDefined(init);
      assert forall i | 0 <= i < |init| :: init[i] == tags[i];
    }
  }

  /** The keys of the attribute dict are exactly the tags' keys. */
  lemma {:induction false} TagsToDictKeys(tags: seq<Value>)
    requires WellFormedTags(tags)
    ensures TagsToDict(tags).Some?
    ensures TagsToDict(tags).value.Keys == set i | 0 <= i < |tags| :: TagKey(tags[i]).value
  {
    TagsToDictDefined(tags);
    if tags != [] {
      var init := tags[..|tags| - 1];
      TagsToDictKeys(init);
      assert forall i | 0 <= i < |init| :: init[i] == tags[i];
      var s0 := set i | 0 <= i < |init| :: TagKey(init[i]).value;
      var s := set i | 0 <= i < |tags| :: TagKey(tags[i]).value;
      assert s == s0 + {TagKey(tags[|tags| - 1]).value} by {
        forall k | k in s ensures k in s0 + {TagKey(tags[|tags| - 1]).value} {
          var i :| 0 <= i < |tags| && TagKey(tags[i]).value == k;
          if i < |init| {
            assert TagKey(init[i]).value == k;
          }
        }
        forall k | k in s0 ensures k in s {
          var i :| 0 <= i < |init| && TagKey(init[i]).value == k;
          assert TagKey(tags[i]).value == k;
        }
      }
    }
  }

  /** Each key maps to the value of the LAST tag with that key: later duplicates overwrite earlier ones. */
  lemma {:induction false} TagsToDictLastWins(tags: seq<Value>, i: int)
    requires TagsToDict(tags).Some?
    requires 0 <= i < |tags| && forall j | i < j < |tags| :: TagKey(tags[j]) != TagKey(tags[i])
    ensures TagKey(tags[i]).Some?
    ensures TagKey(tags[i]).value in TagsToDict(tags).value
    ensures TagsToDict(tags).value[TagKey(tags[i]).value] == TagValue(tags[i])
  {
    var init := tags[..|tags| - 1];
    if i < |tags| - 1 {
      assert init[i] == tags[i];
      assert forall j | i < j < |init| :: init[j] == tags[j];
      TagsToDictLastWins(init, i);
    }
  }

  /** The first tag whose key is `key`, as `next(..., None)` finds it; the tags are already known to be well formed. */
  function FirstTagWithKey(tags: seq<Value>, key: string): (r: Option<Value>)
    ensures r.Some? ==> r.value in tags && TagKey(r.value) == Some(key)
    ensures r.None? ==> forall i | 0 <= i < |tags| :: TagKey(tags[i]) != Some(key)
  {
    if tags == [] then None
    else if TagKey(tags[0]) == Some(key) then Some(tags[0])
    else FirstTagWithKey(tags[1..], key)
  }

  /** The first tag with `key` is the tag at the first index holding that key. */
  lemma {:induction false} FirstTagWithKeyIndex(tags: seq<Value>, key: string, i: int)
    requires 0 <= i < |tags| && TagKey(tags[i]) == Some(key)
    requires forall j | 0 <= j < i :: TagKey(tags[j]) != Some(key)
    ensures FirstTagWithKey(tags, key) == Some(tags[i])
  {
    if i > 0 {
      FirstTagWithKeyIndex(tags[1..], key, i - 1);
    }
  }

  /** The first `otel.status_code` tag says ERROR. */
  predicate StatusIsError(tags: seq<Value>)
  {
    var statusTag := FirstTagWithKey(tags, "otel.status_code");
    statusTag.Some? && Get(statusTag.value, "value", VNone) == Some(VStr("ERROR"))
  }

  /** The error message value: the first `error.message` tag's value (VNone when it has none), only on ERROR. */
  function ErrorValue(tags: seq<Value>): Value
  {
    if !StatusIsError(tags) then VNone
    else match FirstTagWithKey(tags, "error.message")
      case None => VNone
      case Some(errorTag) => if "value" in errorTag.entries then errorTag.entries["value"] else VNone
  }

  /**
   * The span's scalar fields as read with their defaults; `end_time =
   * start_time + duration` succeeds only on ints, so the times are ints.
   */
  datatype Header = Header(spanId: Value, traceId: Value, operationName: Value,
                           startTime: int, duration: int, endTime: int)

  function HeaderOf(span: Value): (r: Option<Header>)
    ensures r.Some? ==> && span.VDict?
                        && r.value.endTime == r.value.startTime + r.value.duration
                        && Get(span, "spanID", VStr("")) == Some(r.value.spanId)
                        && Get(span, "traceID", VStr("")) == Some(r.value.traceId)
                        && Get(span, "operationName", VStr("")) == Some(r.value.operationName)
                        && Get(span, "startTime", VInt(0)) == Some(VInt(r.value.startTime))
                        && Get(span, "duration", VInt(0)) == Some(VInt(r.value.duration))
  {
    if !span.VDict? then None
    else
      var startTime := GetOr(span.entries, "startTime", VInt(0));
      var duration := GetOr(span.entries, "duration", VInt(0));
      var endTime :- Add(startTime, duration);
      Some(Header(GetOr(span.entries, "spanID", VStr("")), GetOr(span.entries, "traceID", VStr("")),
                  GetOr(span.entries, "operationName", VStr("")), startTime.i, duration.i, endTime.i))
  }

  /** The references of a span as the reference loop iterates them. */
  function ReferencesOf(span: Value): Option<seq<Value>>
  {
    var references :- Get(span, "references", VList([]));
    Iter(references)
  }

  /** The tags of a span as the conversion iterates them. */
  function TagsOf(span: Value): Option<seq<Value>>
  {
    var tagsValue :- Get(span, "tags", VList([]));
    Iter(tagsValue)
  }

  /** The status the tags give: ERROR exactly when the first `otel.status_code` tag says so. */
  function StatusOf(tags: seq<Value>): (status: string)
    ensures status in {"OK", "ERROR"}
    ensures status == "ERROR" <==> StatusIsError(tags)
  {
    if StatusIsError(tags) then "ERROR" else "OK"
  }

  /** `SpanData(...)` from the converted values: each must have its field's declared type. */
  function ValidateSpanData(h: Header, parent: Value, attributes: SpanAttributes,
                            status: string, errorMessage: Value): (r: Option<SpanData>)
    ensures r.Some? ==> && h.spanId == VStr(r.value.spanId) && h.traceId == VStr(r.value.traceId)
                        && h.operationName == VStr(r.value.operationName)
                        && h.startTime == r.value.startTime && h.duration == r.value.duration
                        && h.endTime == r.value.endTime
                        && parent == OptStrValue(r.value.parentSpanId)
                        && r.value.attributes == attributes && r.value.status == status
                        && OptStr(Some(errorMessage)) == Some(r.value.errorMessage)
  {
    if !(h.spanId.VStr? && h.traceId.VStr? && h.operationName.VStr?) then None
    else
      var parentSpanId :- OptStr(Some(parent));
      var message :- OptStr(Some(errorMessage));
      Some(SpanData(h.spanId.s, h.traceId.s, parentSpanId, h.operationName.s, h.startTime, h.endTime, h.duration,
                    attributes, status, message))
  }

  /** The span built from its header, parent and tags: status and message come from the tags. */
  function FromTags(h: Header, parent: Value, tags: seq<Value>): (r: Option<SpanData>)
    ensures r.Some? ==> && h.spanId == VStr(r.value.spanId) && h.traceId == VStr(r.value.traceId)
                        && h.operationName == VStr(r.value.operationName)
                        && h.startTime == r.value.startTime && h.duration == r.value.duration
                        && h.endTime == r.value.endTime
                        && parent == OptStrValue(r.value.parentSpanId)
                        && r.value.status in {"OK", "ERROR"}
                        && (r.value.status == "ERROR" <==> StatusIsError(tags))
                        && OptStr(Some(ErrorValue(tags))) == Some(r.value.errorMessage)
                        && (r.value.errorMessage.Some? ==> r.value.status == "ERROR")
                        && TagsToDict(tags).Some?
                        && ValidateSpanAttributes(TagsToDict(tags).value) == Some(r.value.attributes)
  {
    var attributesDict :- TagsToDict(tags);
    var attributes :- ValidateSpanAttributes(attributesDict);
    ValidateSpanData(h, parent, attributes, StatusOf(tags), ErrorValue(tags))
  }

  /**
   * `_convert_jaeger_span`; None when it raises. A converted span keeps the
   * stored ids, name and times, ends at its start plus its duration, takes
   * its parent from the first CHILD_OF reference, and is ERROR exactly when
   * the first `otel.status_code` tag says ERROR, with the first
   * `error.message` tag's value as its message; otherwise it is OK with no
   * message.
   */
  function ConvertSpan(span: Value): (r: Option<SpanData>)
    ensures r.Some? ==> && HeaderOf(span).Some? && ReferencesOf(span).Some? && TagsOf(span).Some?
                        && Get(span, "spanID", VStr("")) == Some(VStr(r.value.spanId))
                        && Get(span, "traceID", VStr("")) == Some(VStr(r.value.traceId))
                        && Get(span, "operationName", VStr("")) == Some(VStr(r.value.operationName))
                        && Get(span, "startTime", VInt(0)) == Some(VInt(r.value.startTime))
                        && Get(span, "duration", VInt(0)) == Some(VInt(r.value.duration))
                        && r.value.endTime == r.value.startTime + r.value.duration
                        && FirstChildOf(ReferencesOf(span).value) == Some(OptStrValue(r.value.parentSpanId))
                        && r.value.status in {"OK", "ERROR"}
                        && (r.value.status == "ERROR" <==> StatusIsError(TagsOf(span).value))
                        && OptStr(Some(ErrorValue(TagsOf(span).value))) == Some(r.value.errorMessage)
                        && (r.value.errorMessage.Some? ==> r.value.status == "ERROR")
                        && TagsToDict(TagsOf(span).value).Some?
                        && ValidateSpanAttributes(TagsToDict(TagsOf(span).value).value) == Some(r.value.attributes)
  {
    var h :- HeaderOf(span);
    var refs :- ReferencesOf(span);
    var parent :- FirstChildOf(refs);
    var tags :- TagsOf(span);
    FromTags(h, parent, tags)
  }

  /**
   * A span dict with none of the keys the conversion reads converts with
   * every default: empty ids and name, zero times, no parent, OK.
   */
  lemma ConvertDefaults(span: Value)
    requires span.VDict?
    requires span.entries.Keys !! {"spanID", "traceID", "operationName", "startTime", "duration", "references", "tags"}
    ensures ConvertSpan(span) == Some(SpanData("", "", None, "", 0, 0, 0, SpanAttributes(), "OK", None))
  {
    assert HeaderOf(span) == Some(Header(VStr(""), VStr(""), VStr(""), 0, 0, 0));
    assert ReferencesOf(span) == Some([]);
    assert TagsOf(span) == Some([]);
    EmptyAttributesDefaults();
  }

  /** The attribute dict of an ERROR status tag followed by an error message tag. */
  lemma ErrorTagsDict(statusTag: Value, errorTag: Value)
    requires statusTag == VDict(map["key" := VStr("otel.status_code"), "value" := VStr("ERROR")])
    requires errorTag == VDict(map["key" := VStr("error.message"), "value" := VStr("Connection failed")])
    ensures TagsToDict([statusTag, errorTag])
         == Some(map["otel.status_code" := VStr("ERROR"), "error.message" := VStr("Connection failed")])
  {
    assert TagsToDict([statusTag]) == Some(map["otel.status_code" := VStr("ERROR")]) by {
      assert [statusTag][..0] == [];
    }
    assert [statusTag, errorTag][..1] == [statusTag];
  }

  /** Tag keys that are not attribute names leave every attribute at its default. */
  lemma ErrorTagsAttributes()
    ensures ValidateSpanAttributes(map["otel.status_code" := VStr("ERROR"), "error.message" := VStr("Connection failed")])
         == Some(SpanAttributes())
  {
    UnknownKeysIgnored(map[], "otel.status_code", VStr("ERROR"));
    UnknownKeysIgnored(map["otel.status_code" := VStr("ERROR")], "error.message", VStr("Connection failed"));
    EmptyAttributesDefaults();
  }

  /** An ERROR status tag followed by an error message tag give ERROR with that message. */
  lemma ErrorTagsStatus(statusTag: Value, errorTag: Value)
    requires statusTag == VDict(map["key" := VStr("otel.status_code"), "value" := VStr("ERROR")])
    requires errorTag == VDict(map["key" := VStr("error.message"), "value" := VStr("Connection failed")])
    ensures StatusOf([statusTag, errorTag]) == "ERROR"
    ensures ErrorValue([statusTag, errorTag]) == VStr("Connection failed")
  {
    var tags := [statusTag, errorTag];
    assert FirstTagWithKey(tags, "otel.status_code") == Some(statusTag);
    assert FirstTagWithKey(tags, "error.message") == Some(errorTag);
  }

  /** The conversion as a method: the scalar fields, the reference loop, then attributes and status. */
  method ConvertJaegerSpan(span: Value) returns (r: Option<SpanData>)
    ensures r == ConvertSpan(span)
  {
    var h :- HeaderOf(span);
    var refs :- ReferencesOf(span);
    var parent :- FindParentSpanId(refs);
    var tags :- TagsOf(span);
    var attributesDict :- TagsToDict(tags);
    var attributes :- ValidateSpanAttributes(attributesDict);
    var status := "OK";
    var errorMessage := VNone;
    if StatusIsError(tags) {
      status := "ERROR";
      errorMessage := ErrorValue(tags);
    }
    r := ValidateSpanData(h, parent, attributes, status, errorMessage);
  }

  // The walk over traces and spans

  /**
   * A `for` loop that extends a list with what each item contributes, in
   * order; an item whose step raises makes the whole loop raise.
   */
  function Collect(items: seq<Value>, step: Value -> Option<seq<SpanData>>): Option<seq<SpanData>>
  {
    if items == [] then Some([])
    else
      var done :- Collect(items[..|items| - 1], step);
      var added :- step(items[|items| - 1]);
      Some(done + added)
  }

  /** One more item: the loop's result grows by what the item contributes. */
  lemma CollectStep(items: seq<Value>, i: int, step: Value -> Option<seq<SpanData>>)
    requires 0 <= i < |items|
    ensures Collect(items[..i + 1], step)
         == (match (Collect(items[..i], step), step(items[i]))
             case (Some(done), Some(added)) => Some(done + added)
             case _ => None)
  {
    assert items[..i + 1][..i] == items[..i];
  }

  /** Once a prefix of the items raises, the whole loop raises. */
  lemma {:induction false} CollectStuck(items: seq<Value>, k: nat, step: Value -> Option<seq<SpanData>>)
    requires k <= |items| && Collect(items[..k], step).None?
    ensures Collect(items, step).None?
    decreases |items|
  {
    if k < |items| {
      assert items[..|items| - 1][..k] == items[..k];
      CollectStuck(items[..|items| - 1], k, step);
    } else {
      assert items[..k] == items;
    }
  }

  /** The loop distributes over concatenation: items are handled one at a time. */
  lemma {:induction false} CollectAppend(a: seq<Value>, b: seq<Value>, step: Value -> Option<seq<SpanData>>)
    ensures Collect(a + b, step).Some? <==> Collect(a, step).Some? && Collect(b, step).Some?
    ensures Collect(a + b, step).Some? ==> Collect(a + b, step).value == Collect(a, step).value + Collect(b, step).value
    decreases |b|
  {
    if b == [] {
      assert a + b == a;
    } else {
      var b0 := b[..|b| - 1];
      assert (a + b)[..|a + b| - 1] == a + b0;
      assert (a + b)[|a + b| - 1] == b[|b| - 1];
      CollectAppend(a, b0, step);
    }
  }

  /** Spans the parse keeps: relevant by name and with end == start + duration. */
  predicate ReportedSpans(out: seq<SpanData>)
  {
    forall i | 0 <= i < |out| :: IsRelevantName(out[i].operationName) && out[i].endTime == out[i].startTime + out[i].duration
  }

  /** When every step contributes reported spans, so does the loop. */
  lemma {:induction false} CollectReported(items: seq<Value>, step: Value -> Option<seq<SpanData>>)
    requires forall i | 0 <= i < |items| :: step(items[i]).Some? ==> ReportedSpans(step(items[i]).value)
    requires Collect(items, step).Some?
    ensures ReportedSpans(Collect(items, step).value)
  {
    if items != [] {
      CollectReported(items[..|items| - 1], step);
    }
  }

  /** What one stored span contributes: nothing when irrelevant or unconvertible, None when the relevance check raises. */
  function Kept(span: Value): (r: Option<seq<SpanData>>)
    ensures r.Some? ==> ReportedSpans(r.value)
  {
    var relevant :- IsRelevantSpan(span);
    if !relevant then Some([])
    else
      var converted := ConvertSpan(span);
      if converted.None? then Some([])
      else
        KeptSpanRelevant(span, converted.value);
        Some([converted.value])
  }

  /** What a span contributes, from the relevance check and the conversion the inner loop performs. */
  lemma KeptFrom(span: Value, relevant: bool, converted: Option<SpanData>)
    requires IsRelevantSpan(span) == Some(relevant)
    requires relevant ==> converted == ConvertSpan(span)
    ensures Kept(span) == Some(if relevant && converted.Some? then [converted.value] else [])
  {
  }

  /** A relevant span that converts keeps its relevant name. */
  lemma KeptSpanRelevant(span: Value, s: SpanData)
    requires IsRelevantSpan(span) == Some(true) && ConvertSpan(span) == Some(s)
    ensures ReportedSpans([s])
  {
    assert IsRelevantName(s.operationName);
  }

  /** The inner loop over one trace's spans. */
  function ParseSpans(spans: seq<Value>): Option<seq<SpanData>>
  {
    Collect(spans, Kept)
  }

  /** `trace.get("spans", [])`, iterated. */
  function SpansOf(trace: Value): Option<seq<Value>>
  {
    var spans :- Get(trace, "spans", VList([]));
    Iter(spans)
  }

  /** What one trace contributes: its kept spans, in order. */
  function TraceSpans(trace: Value): (r: Option<seq<SpanData>>)
    ensures r.Some? ==> ReportedSpans(r.value)
  {
    var spans :- SpansOf(trace);
    var kept := ParseSpans(spans);
    if kept.Some? then CollectReported(spans, Kept); kept else kept
  }

  /** A trace whose spans iterate as `spans` contributes what the inner loop keeps of them. */
  lemma TraceSpansOf(trace: Value, spans: seq<Value>)
    requires SpansOf(trace) == Some(spans)
    ensures TraceSpans(trace) == ParseSpans(spans)
  {
  }

  /** The outer loop over the traces. */
  function ParseTraces(traces: seq<Value>): Option<seq<SpanData>>
  {
    Collect(traces, TraceSpans)
  }

  /** `_parse_jaeger_response`: a missing `data` key is an empty list of traces. */
  function ParseResponse(data: Value): Option<seq<SpanData>>
  {
    var traces :- Get(data, "data", VList([]));
    var items :- Iter(traces);
    ParseTraces(items)
  }

  /**
   * A span that is irrelevant, or relevant but fails to convert, is dropped
   * without affecting the spans around it.
   */
  lemma SkippedSpanDropped(before: seq<Value>, bad: Value, after: seq<Value>)
    requires Kept(bad) == Some([])
    ensures ParseSpans(before + [bad] + after) == ParseSpans(before + after)
  {
    CollectAppend(before + [bad], after, Kept);
    CollectAppend(before, [bad], Kept);
    assert [bad][..0] == [];
    CollectAppend(before, after, Kept);
    if ParseSpans(before).Some? {
      assert ParseSpans(before).value + [] == ParseSpans(before).value;
    }
  }

  /** Every span the parse returns is relevant and ends at its start plus its duration; no data means no spans. */
  lemma ParsedSpansReported(data: Value)
    ensures ParseResponse(data).Some? ==> ReportedSpans(ParseResponse(data).value)
    ensures data.VDict? && "data" !in data.entries ==> ParseResponse(data) == Some([])
  {
    if ParseResponse(data).Some? {
      CollectReported(Iter(Get(data, "data", VList([])).value).value, TraceSpans);
    }
  }

  /**
   * The inner loop of `_parse_jaeger_response` over one trace's spans: the
   * relevant spans that convert, in order, skipping those that do not.
   */
  method KeepTraceSpans(items: seq<Value>) returns (r: Option<seq<SpanData>>)
    ensures r == ParseSpans(items)
  {
    var kept: seq<SpanData> := [];
    var j := 0;
    while j < |items|
      invariant 0 <= j <= |items|
      invariant ParseSpans(items[..j]) == Some(kept)
    {
      var added := KeepSpan(items[j]);
      CollectStep(items, j, Kept);
      if added.None? {
        CollectStuck(items, j + 1, Kept);
        return None;
      }
      kept := kept + added.value;
      j := j + 1;
    }
    assert items[..j] == items;
    return Some(kept);
  }

  /**
   * The body of the inner loop for one span: the converted span when it is
   * relevant, nothing when it is not or when its conversion raises (that
   * error is logged and the span skipped); None when the relevance check raises.
   */
  method KeepSpan(jaegerSpan: Value) returns (r: Option<seq<SpanData>>)
    ensures r == Kept(jaegerSpan)
  {
    var relevant := IsRelevantSpan(jaegerSpan);
    if relevant.None? {
      return None;
    }
    var spanData := None;
    if relevant.value {
      spanData := ConvertJaegerSpan(jaegerSpan);
    }
    KeptFrom(jaegerSpan, relevant.value, spanData);
    return Some(if relevant.value && spanData.Some? then [spanData.value] else []);
  }

  /** `_parse_jaeger_response`: the loop over traces, with the inner loop over each trace's spans; `sessionId` only labels log records. */
  method ParseJaegerResponse(data: Value, sessionId: string) returns (r: Option<seq<SpanData>>)
    ensures r == ParseResponse(data)
  {
    var jaegerTraces :- Get(data, "data", VList([]));
    var traces :- Iter(jaegerTraces);
    var spans: seq<SpanData> := [];
    var i := 0;
    while i < |traces|
      invariant 0 <= i <= |traces|
      invariant ParseTraces(traces[..i]) == Some(spans)
    {
      CollectStep(traces, i, TraceSpans);
      var jaegerSpans := SpansOf(traces[i]);
      if jaegerSpans.None? {
        CollectStuck(traces, i + 1, TraceSpans);
        return None;
      }
      TraceSpansOf(traces[i], jaegerSpans.value);
      var kept := KeepTraceSpans(jaegerSpans.value);
      if kept.None? {
        CollectStuck(traces, i + 1, TraceSpans);
        return None;
      }
      spans := spans + kept.value;
      i := i + 1;
    }
    assert traces[..i] == traces;
    return Some(spans);
  }

  /** The fetch: any transport or parse failure gives an empty list. `fetched` is the decoded body, None on failure. */
  function QueryOutcome(fetched: Option<Value>): (r: seq<SpanData>)
    ensures fetched.None? ==> r == []
    ensures fetched.Some? && ParseResponse(fetched.value).Some? ==> r == ParseResponse(fetched.value).value
    ensures fetched.Some? && ParseResponse(fetched.value).None? ==> r == []
    ensures ReportedSpans(r)
  {
    if fetched.None? then []
    else
      ParsedSpansReported(fetched.value);
      match ParseResponse(fetched.value)
      case None => []
      case Some(spans) => spans
  }
}
