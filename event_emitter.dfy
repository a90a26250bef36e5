/*
 * The telemetry emitter: each emit builds one event record, stamped with the
 * current time, and hands it to the registry's send_message. Every failure
 * (building the record, or anything raised while sending) is caught and
 * logged; nothing reaches the caller. The clock reading is a parameter.
 */
module EventEmitter {
  import opened PyValues
  import opened WebSocketMessages
  import opened ConnectionManagement

  /** The record `ToolCallEvent(type="tool_call", ...)` builds from the emitter's arguments. */
  function ToolCallEventOf(sessionId: string, toolCallId: string, toolName: string,
                           arguments: map<string, Value>, now: Timestamp): (r: Option<Message>)
    ensures r == Some(ToolCallEvent(sessionId, toolCallId, toolName, arguments, now))
    ensures r.value.sessionId == sessionId && Tag(r.value) == "tool_call"
  {
    Validate(ToolCallEventSchema,
             map["type" := VStr("tool_call"), "session_id" := VStr(sessionId),
                 "tool_call_id" := VStr(toolCallId), "tool_name" := VStr(toolName),
                 "arguments" := VDict(arguments), "timestamp" := VTime(now)])
  }

  /** The record `ToolResultEvent(type="tool_result", ...)` builds from the emitter's arguments. */
  function ToolResultEventOf(sessionId: string, toolCallId: string, toolName: string,
                             result: string, durationMs: int, now: Timestamp): (r: Option<Message>)
    ensures r == Some(ToolResultEvent(sessionId, toolCallId, toolName, result, durationMs, now))
    ensures r.value.sessionId == sessionId && Tag(r.value) == "tool_result"
  {
    Validate(ToolResultEventSchema,
             map["type" := VStr("tool_result"), "session_id" := VStr(sessionId),
                 "tool_call_id" := VStr(toolCallId), "tool_name" := VStr(toolName),
                 "result" := VStr(result), "duration_ms" := VInt(durationMs),
                 "timestamp" := VTime(now)])
  }

  /**
   * The record `OpenAIEvent(type=event_type, ...)` builds from the emitter's
   * arguments: None (a ValidationError) exactly when `event_type` is neither
   * `openai_call` nor `openai_response`.
   */
  function OpenAIEventOf(sessionId: string, eventType: string, model: string,
                         promptTokens: Option<int>, completionTokens: Option<int>,
                         totalTokens: Option<int>, durationMs: Option<int>, now: Timestamp): (r: Option<Message>)
    ensures r.Some? <==> eventType in {"openai_call", "openai_response"}
    ensures r.Some? ==> && r.value.OpenAIEvent?
                        && Tag(r.value) == eventType && r.value.sessionId == sessionId
                        && r.value.model == model && r.value.timestamp == now
                        && r.value.promptTokens == promptTokens && r.value.completionTokens == completionTokens
                        && r.value.totalTokens == totalTokens && r.value.callDurationMs == durationMs
  {
    Validate(OpenAIEventSchema,
             map["type" := VStr(eventType), "session_id" := VStr(sessionId), "model" := VStr(model),
                 "prompt_tokens" := OptIntValue(promptTokens),
                 "completion_tokens" := OptIntValue(completionTokens),
                 "total_tokens" := OptIntValue(totalTokens),
                 "duration_ms" := OptIntValue(durationMs), "timestamp" := VTime(now)])
  }

  /** The calls one emit makes on the registry: one send of the event, or none when it could not be built. */
  function SendsFor(sessionId: string, event: Option<Message>): seq<SendCall>
  {
    match event
    case Some(e) => [SendCall(sessionId, e)]
    case None => []
  }

  class TelemetryEmitter {
    const connectionManager: ConnectionManager

    constructor (connectionManager: ConnectionManager)
      ensures this.connectionManager == connectionManager
    {
      this.connectionManager := connectionManager;
    }

    /** Sends the event, if it could be built, and returns normally in every case. */
    method Emit(sessionId: string, event: Option<Message>)
      modifies connectionManager, connectionManager.Target(sessionId)
      ensures connectionManager.activeConnections == old(connectionManager.activeConnections)
      ensures connectionManager.sendCalls == old(connectionManager.sendCalls) + SendsFor(sessionId, event)
      ensures sessionId in connectionManager.activeConnections ==>
        var ws := connectionManager.activeConnections[sessionId];
        && ws.sent == old(ws.sent) + (if event.None? || old(ws.broken) then [] else [Encode(event.value)])
        && ws.broken == old(ws.broken) && ws.accepted == old(ws.accepted)
    {
      if event.Some? {
        connectionManager.SendMessage(sessionId, event.value);
      }
      // a failure is logged as a warning and goes no further
    }

    /** `emit_tool_call`: exactly one send, to `session_id`, of the tool_call event. */
    method EmitToolCall(sessionId: string, toolCallId: string, toolName: string,
                        arguments: map<string, Value>, now: Timestamp)
      modifies connectionManager, connectionManager.Target(sessionId)
      ensures connectionManager.activeConnections == old(connectionManager.activeConnections)
      ensures connectionManager.sendCalls == old(connectionManager.sendCalls)
                + [SendCall(sessionId, ToolCallEvent(sessionId, toolCallId, toolName, arguments, now))]
      ensures sessionId in connectionManager.activeConnections ==>
        var ws := connectionManager.activeConnections[sessionId];
        && ws.sent == old(ws.sent) + (if old(ws.broken) then []
                                      else [Encode(ToolCallEvent(sessionId, toolCallId, toolName, arguments, now))])
        && ws.broken == old(ws.broken) && ws.accepted == old(ws.accepted)
    {
      var event := ToolCallEventOf(sessionId, toolCallId, toolName, arguments, now);
      Emit(sessionId, event);
    }

    /** `emit_tool_result`: exactly one send, to `session_id`, of the tool_result event. */
    method EmitToolResult(sessionId: string, toolCallId: string, toolName: string,
                          result: string, durationMs: int, now: Timestamp)
      modifies connectionManager, connectionManager.Target(sessionId)
      ensures connectionManager.activeConnections == old(connectionManager.activeConnections)
      ensures connectionManager.sendCalls == old(connectionManager.sendCalls)
                + [SendCall(sessionId, ToolResultEvent(sessionId, toolCallId, toolName, result, durationMs, now))]
      ensures sessionId in connectionManager.activeConnections ==>
        var ws := connectionManager.activeConnections[sessionId];
        && ws.sent == old(ws.sent) + (if old(ws.broken) then []
                                      else [Encode(ToolResultEvent(sessionId, toolCallId, toolName, result, durationMs, now))])
        && ws.broken == old(ws.broken) && ws.accepted == old(ws.accepted)
    {
      var event := ToolResultEventOf(sessionId, toolCallId, toolName, result, durationMs, now);
      Emit(sessionId, event);
    }

    /**
     * `emit_openai_call`: one send of an event whose type is `event_type`, or,
     * when `event_type` is not an allowed literal, no send at all.
     */
    method EmitOpenAICall(sessionId: string, eventType: string, model: string, now: Timestamp,
                          promptTokens: Option<int> := None, completionTokens: Option<int> := None,
                          totalTokens: Option<int> := None, durationMs: Option<int> := None)
      modifies connectionManager, connectionManager.Target(sessionId)
      ensures connectionManager.activeConnections == old(connectionManager.activeConnections)
      ensures var event := OpenAIEventOf(sessionId, eventType, model, promptTokens, completionTokens,
                                         totalTokens, durationMs, now);
        && connectionManager.sendCalls == old(connectionManager.sendCalls) + SendsFor(sessionId, event)
        && (sessionId in connectionManager.activeConnections ==>
              var ws := connectionManager.activeConnections[sessionId];
              && ws.sent == old(ws.sent) + (if event.None? || old(ws.broken) then [] else [Encode(event.value)])
              && ws.broken == old(ws.broken) && ws.accepted == old(ws.accepted))
    {
      var event := OpenAIEventOf(sessionId, eventType, model, promptTokens, completionTokens,
                                 totalTokens, durationMs, now);
      Emit(sessionId, event);
    }
  }

  /** Three emits in a row make three sends, in call order, each routed to the event's own session. */
  method EmitInOrder(emitter: TelemetryEmitter, sessionId: string, now: Timestamp)
    modifies emitter.connectionManager, emitter.connectionManager.Target(sessionId)
    ensures var calls, before := emitter.connectionManager.sendCalls, old(emitter.connectionManager.sendCalls);
      && |calls| == |before| + 3 && calls[..|before|] == before
      && calls[|calls| - 3].message.ToolCallEvent?
      && calls[|calls| - 2].message.ToolResultEvent?
      && calls[|calls| - 1].message.OpenAIEvent?
      && forall i | |before| <= i < |calls| :: calls[i].sessionId == calls[i].message.sessionId == sessionId
  {
    emitter.EmitToolCall(sessionId, "call-123", "test_tool", map[], now);
    emitter.EmitToolResult(sessionId, "call-123", "test_tool", "Done", 50, now);
    emitter.EmitOpenAICall(sessionId, "openai_call", "gpt-4", now);
  }

  /** Two tool calls to a live, registered session reach its socket as two frames, in call order. */
  method EmitTwiceDelivers(emitter: TelemetryEmitter, sessionId: string, ws: WebSocket, now: Timestamp)
    requires sessionId in emitter.connectionManager.activeConnections
    requires emitter.connectionManager.activeConnections[sessionId] == ws && !ws.broken
    modifies emitter.connectionManager, ws
    ensures emitter.connectionManager.activeConnections == old(emitter.connectionManager.activeConnections)
    ensures ws.sent == old(ws.sent) + [Encode(ToolCallEvent(sessionId, "call-1", "search", map[], now)),
                                       Encode(ToolCallEvent(sessionId, "call-2", "search", map[], now))]
  {
    emitter.EmitToolCall(sessionId, "call-1", "search", map[], now);
    emitter.EmitToolCall(sessionId, "call-2", "search", map[], now);
  }
}
