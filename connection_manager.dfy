/*
 * The connection registry: a map from session id to the socket registered
 * for it, updated in place. Registering overwrites (the last writer wins),
 * unregistering removes by key only, and sending to a session either writes
 * one frame to its socket or, with no socket or a failed write, does nothing
 * the caller can see.
 */
module ConnectionManagement {
  import opened WebSocketMessages

  /** A frame written to a socket: the encoded record. */
  type Frame = PyValues.Value

  /**
   * A server-side socket as the registry uses it. `broken` says the peer is
   * gone: accepting or writing then raises. `sent` is what the peer has
   * received, in order.
   */
  class WebSocket {
    var accepted: bool
    var broken: bool
    var sent: seq<Frame>

    constructor (broken: bool)
      ensures !accepted && this.broken == broken && sent == []
    {
      accepted := false;
      this.broken := broken;
      sent := [];
    }

    /**
     * `accept()`; ok is false when it raises: the peer is gone, or the socket
     * was already accepted (a second accept is a protocol error).
     */
    method Accept() returns (ok: bool)
      modifies this
      ensures ok == (!old(broken) && !old(accepted))
      ensures broken == old(broken) && sent == old(sent)
      ensures accepted == (old(accepted) || ok)
    {
      ok := !broken && !accepted;
      if ok {
        accepted := true;
      }
    }

    /** `send_text(frame)`; ok is false when it raises. */
    method SendText(frame: Frame) returns (ok: bool)
      modifies this
      ensures ok == !broken && broken == old(broken) && accepted == old(accepted)
      ensures sent == if ok then old(sent) + [frame] else old(sent)
    {
      ok := !broken;
      if ok {
        sent := sent + [frame];
      }
    }
  }

  /** One call of `send_message`, as a test double would record it. */
  datatype SendCall = SendCall(sessionId: string, message: Message)

  class ConnectionManager {
    var activeConnections: map<string, WebSocket>
    /** Every `send_message` call made on this registry, in call order. */
    ghost var sendCalls: seq<SendCall>

    /** The socket a send to `sessionId` may write to: the registered one, if any. */
    function Target(sessionId: string): set<WebSocket>
      reads this
    {
      if sessionId in activeConnections then {activeConnections[sessionId]} else {}
    }

    constructor ()
      ensures activeConnections == map[] && sendCalls == []
    {
      activeConnections := map[];
      sendCalls := [];
    }

    /**
     * `connect(websocket, session_id)`: accepts the socket, then registers it,
     * replacing any socket registered for the session before. ok is false when
     * accepting raised; the exception leaves `connect` before anything is
     * registered.
     */
    method Connect(websocket: WebSocket, sessionId: string) returns (ok: bool)
      modifies this, websocket
      ensures ok == (!old(websocket.broken) && !old(websocket.accepted))
      ensures websocket.accepted == (old(websocket.accepted) || ok)
      ensures websocket.broken == old(websocket.broken) && websocket.sent == old(websocket.sent)
      ensures activeConnections == if ok then old(activeConnections)[sessionId := websocket] else old(activeConnections)
      ensures ok ==> websocket.accepted && activeConnections[sessionId] == websocket
      ensures forall s | s in old(activeConnections) && s != sessionId ::
        s in activeConnections && activeConnections[s] == old(activeConnections)[s]
      ensures |activeConnections| == |old(activeConnections)| + (if ok && sessionId !in old(activeConnections) then 1 else 0)
      ensures sendCalls == old(sendCalls)
    {
      ok := websocket.Accept();
      if !ok {
        return;
      }
      activeConnections := activeConnections[sessionId := websocket];
    }

    /**
     * `disconnect(session_id)`: removes the session's entry whatever socket it
     * holds; no error and no change when the session is not registered.
     */
    method Disconnect(sessionId: string)
      modifies this
      ensures activeConnections == old(activeConnections) - {sessionId}
      ensures sessionId !in activeConnections
      ensures sessionId !in old(activeConnections) ==> activeConnections == old(activeConnections)
      ensures |activeConnections| == |old(activeConnections)| - (if sessionId in old(activeConnections) then 1 else 0)
      ensures sendCalls == old(sendCalls)
    {
      if sessionId in activeConnections {
        activeConnections := activeConnections - {sessionId};
      }
    }

    /**
     * `send_message(session_id, message)`: writes the encoded record to the
     * socket registered for the session, and nowhere else. Without a socket,
     * or when the write raises, nothing is written and nothing is raised; the
     * registry itself never changes.
     */
    method SendMessage(sessionId: string, message: Message)
      modifies this, Target(sessionId)
      ensures activeConnections == old(activeConnections)
      ensures sendCalls == old(sendCalls) + [SendCall(sessionId, message)]
      ensures sessionId in activeConnections ==>
        var ws := activeConnections[sessionId];
        && ws.sent == old(ws.sent) + (if old(ws.broken) then [] else [Encode(message)])
        && ws.broken == old(ws.broken) && ws.accepted == old(ws.accepted)
    {
      sendCalls := sendCalls + [SendCall(sessionId, message)];
      if sessionId !in activeConnections {
        return;
      }
      var websocket := activeConnections[sessionId];
      var jsonMessage := Encode(message);
      var _ := websocket.SendText(jsonMessage);
    }
  }

  /** Three sessions connected one after another are all registered, each to its own socket. */
  method ConnectThreeSessions() returns (manager: ConnectionManager)
    ensures |manager.activeConnections| == 3
    ensures manager.activeConnections.Keys == {"session-1", "session-2", "session-3"}
  {
    manager := new ConnectionManager();
    var ws1 := new WebSocket(false);
    var ws2 := new WebSocket(false);
    var ws3 := new WebSocket(false);
    var _ := manager.Connect(ws1, "session-1");
    var _ := manager.Connect(ws2, "session-2");
    var _ := manager.Connect(ws3, "session-3");
    assert manager.activeConnections["session-1"] == ws1;
    assert manager.activeConnections["session-2"] == ws2;
  }

  /** A message for one session reaches that session's socket only; a send to an unknown session writes nothing. */
  method SessionIsolation(message: Message)
  {
    var manager := new ConnectionManager();
    var ws1 := new WebSocket(false);
    var ws2 := new WebSocket(false);
    var _ := manager.Connect(ws1, "session-1");
    var _ := manager.Connect(ws2, "session-2");
    manager.SendMessage("session-1", message);
    assert ws1.sent == [Encode(message)];
    assert ws2.sent == [];
    manager.SendMessage("missing-session", message);
    assert ws1.sent == [Encode(message)] && ws2.sent == [];
  }

  /**
   * A socket that fails to accept is never registered, nor is one connected a
   * second time; a failed write leaves the registry as it was.
   */
  method FailuresChangeNothing(message: Message)
  {
    var manager := new ConnectionManager();
    var ws := new WebSocket(false);
    var _ := manager.Connect(ws, "session-2");
    var again := manager.Connect(ws, "session-4");
    assert !again && "session-4" !in manager.activeConnections;
    var lost := new WebSocket(true);
    var _ := manager.Connect(lost, "session-3");
    assert "session-3" !in manager.activeConnections;
    ws.broken := true;
    manager.SendMessage("session-2", message);
    assert ws.sent == [] && manager.activeConnections["session-2"] == ws;
  }
}
