/*
 * The chat service: one transcript per session id, kept in a dict and
 * appended to in place. Each message adds a "User: " line, sends the whole
 * transcript plus an "Assistant:" cue to the agent, and adds the reply (or
 * "Error: " and the exception's text) as an "Assistant: " line. The agent is
 * a parameter; the WebSocket endpoint answers every text frame with the
 * reply, in a session named by the query string or "default".
 */
module App {

  /** What one agent run gives back: its output, or the text of the exception it raised. */
  datatype AgentOutcome = Completed(output: string) | Raised(error: string)

  /** The agent, as a function from prompt to outcome. */
  type Agent = string -> AgentOutcome

  /** `sep.join(lines)` */
  function Join(lines: seq<string>, sep: string): string
  {
    if lines == [] then ""
    else if |lines| == 1 then lines[0]
    else lines[0] + sep + Join(lines[1..], sep)
  }

  /** `s.split(c)`: the pieces between occurrences of `c`, always at least one. */
  function Split(s: string, c: char): (r: seq<string>)
    ensures |r| >= 1
  {
    if s == [] then [""]
    else
      var rest := Split(s[1..], c);
      if s[0] == c then [""] + rest
      else [[s[0]] + rest[0]] + rest[1..]
  }

  function UserLine(message: string): string
  {
    "User: " + message
  }

  function AssistantLine(output: string): string
  {
    "Assistant: " + output
  }

  /** `"\n".join(history) + "\nAssistant:"` */
  function Prompt(history: seq<string>): string
  {
    Join(history, "\n") + "\nAssistant:"
  }

  /** The output `process` returns: the agent's output, or "Error: " and the exception's text. */
  function Reply(outcome: AgentOutcome): string
  {
    match outcome
    case Completed(output) => output
    case Raised(error) => "Error: " + error
  }

  /** `self._sessions.setdefault(session_id, [])`, as a value: an unseen session starts empty. */
  function HistoryOf(sessions: map<string, seq<string>>, sessionId: string): seq<string>
  {
    if sessionId in sessions then sessions[sessionId] else []
  }

  /** `websocket.query_params.get("session_id", "default")` */
  function SessionIdOf(query: map<string, string>): string
  {
    if "session_id" in query then query["session_id"] else "default"
  }

  /** The sessions after a conversation, and the replies sent, one per message. */
  datatype Conversation = Conversation(sessions: map<string, seq<string>>, replies: seq<string>)

  /** Messages `messages` processed in order in session `sessionId`, starting from `sessions`. */
  function Converse(sessions: map<string, seq<string>>, sessionId: string, messages: seq<string>,
                    agent: Agent): Conversation
    decreases |messages|
  {
    if messages == [] then Conversation(sessions, [])
    else
      var before := Converse(sessions, sessionId, messages[..|messages| - 1], agent);
      var message := messages[|messages| - 1];
      var history := HistoryOf(before.sessions, sessionId) + [UserLine(message)];
      var output := Reply(agent(Prompt(history)));
      Conversation(before.sessions[sessionId := history + [AssistantLine(output)]],
                   before.replies + [output])
  }

  class ChatService {
    var sessions: map<string, seq<string>>

    constructor ()
      ensures sessions == map[]
    {
      sessions := map[];
    }

    /**
     * `process(session_id, message)`: the session's transcript gains the user
     * line and then the assistant line, the agent sees the transcript with the
     * user line, and no other session changes. An agent failure becomes the
     * output; `process` itself always returns.
     */
    method Process(sessionId: string, message: string, agent: Agent) returns (output: string)
      modifies this
      ensures var history := HistoryOf(old(sessions), sessionId);
        && output == Reply(agent(Prompt(history + [UserLine(message)])))
        && sessions == old(sessions)[sessionId := history + [UserLine(message), AssistantLine(output)]]
    {
      if sessionId !in sessions {
        sessions := sessions[sessionId := []];
      }
      var history := sessions[sessionId];
      history := history + [UserLine(message)];
      sessions := sessions[sessionId := history];
      var prompt := Join(history, "\n") + "\nAssistant:";
      var outcome := agent(prompt);
      match outcome {
        case Completed(result) =>
          output := result;
        case Raised(e) =>
          output := "Error: " + e;
      }
      assert history + [AssistantLine(output)] == old(HistoryOf(sessions, sessionId)) + [UserLine(message), AssistantLine(output)];
      history := history + [AssistantLine(output)];
      sessions := sessions[sessionId := history];
    }
  }

  /**
   * `ws_chat`: every text frame received before the peer disconnects is
   * processed in the query's session and answered with exactly one frame, the
   * reply.
   */
  method WsChat(service: ChatService, query: map<string, string>, frames: seq<string>, agent: Agent)
    returns (sent: seq<string>)
    modifies service
    ensures var conversation := Converse(old(service.sessions), SessionIdOf(query), frames, agent);
      sent == conversation.replies && service.sessions == conversation.sessions
  {
    var sessionId := SessionIdOf(query);
    sent := [];
    var i := 0;
    while i < |frames|
      invariant 0 <= i <= |frames|
      invariant Converse(old(service.sessions), sessionId, frames[..i], agent) == Conversation(service.sessions, sent)
    {
      var message := frames[i];
      ghost var before := service.sessions;
      var output := service.Process(sessionId, message, agent);
      var history := HistoryOf(before, sessionId) + [UserLine(message)];
      assert history + [AssistantLine(output)] == HistoryOf(before, sessionId) + [UserLine(message), AssistantLine(output)];
      sent := sent + [output];
      assert frames[..i + 1][..i] == frames[..i] && frames[..i + 1][i] == message;
      ConverseLast(old(service.sessions), sessionId, frames[..i + 1], agent);
      i := i + 1;
    }
    assert frames[..|frames|] == frames;
  }

  /** Joining one more line adds the separator and the line at the end. */
  lemma {:induction false} JoinAppend(lines: seq<string>, line: string, sep: string)
    requires lines != []
    ensures Join(lines + [line], sep) == Join(lines, sep) + sep + line
    decreases |lines|
  {
    var all := lines + [line];
    if |lines| > 1 {
      assert all[1..] == lines[1..] + [line];
      JoinAppend(lines[1..], line, sep);
    } else {
      assert all[1..] == [line];
    }
  }

  /** The prompt is the transcript with one more line, the bare "Assistant:" cue. */
  lemma PromptIsTranscriptPlusCue(history: seq<string>)
    requires history != []
    ensures Prompt(history) == Join(history + ["Assistant:"], "\n")
  {
    JoinAppend(history, "Assistant:", "\n");
  }

  /** A piece without the separator splits to itself. */
  lemma {:induction false} SplitWithout(s: string, c: char)
    requires c !in s
    ensures Split(s, c) == [s]
    decreases |s|
  {
    if s != [] {
      assert s[0] != c && c !in s[1..];
      SplitWithout(s[1..], c);
      assert [s[0]] + s[1..] == s;
    }
  }

  /** Splitting at the first separator gives the piece before it, then the split of the rest. */
  lemma {:induction false} SplitAtFirst(a: string, b: string, c: char)
    requires c !in a
    ensures Split(a + [c] + b, c) == [a] + Split(b, c)
    decreases |a|
  {
    var s := a + [c] + b;
    if a == [] {
      assert s[1..] == b;
    } else {
      assert s[0] == a[0] != c;
      assert s[1..] == a[1..] + [c] + b;
      SplitAtFirst(a[1..], b, c);
      assert [a[0]] + a[1..] == a;
    }
  }

  /** Lines free of the separator come back unchanged from join-then-split. */
  lemma {:induction false} SplitJoin(lines: seq<string>, c: char)
    requires lines != [] && forall i | 0 <= i < |lines| :: c !in lines[i]
    ensures Split(Join(lines, [c]), c) == lines
    decreases |lines|
  {
    if |lines| == 1 {
      SplitWithout(lines[0], c);
    } else {
      var rest := lines[1..];
      assert Join(lines, [c]) == lines[0] + [c] + Join(rest, [c]);
      assert forall i | 0 <= i < |rest| :: c !in rest[i] by {
        forall i | 0 <= i < |rest| ensures c !in rest[i] {
          assert rest[i] == lines[i + 1];
        }
      }
      SplitJoin(rest, c);
      SplitAtFirst(lines[0], Join(rest, [c]), c);
      assert [lines[0]] + rest == lines;
    }
  }

  /**
   * When no transcript line holds a newline, the prompt's lines are exactly
   * the transcript followed by the "Assistant:" cue.
   */
  lemma PromptLines(history: seq<string>)
    requires history != [] && forall i | 0 <= i < |history| :: '\n' !in history[i]
    ensures Split(Prompt(history), '\n') == history + ["Assistant:"]
  {
    PromptIsTranscriptPlusCue(history);
    var lines := history + ["Assistant:"];
    assert forall i | 0 <= i < |lines| :: '\n' !in lines[i];
    SplitJoin(lines, '\n');
  }

  /** One more message adds the user line and the assistant line with its reply to the session's transcript. */
  lemma ConverseLast(sessions: map<string, seq<string>>, sessionId: string, messages: seq<string>, agent: Agent)
    requires messages != []
    ensures var n := |messages| - 1;
      var before := Converse(sessions, sessionId, messages[..n], agent);
      var conversation := Converse(sessions, sessionId, messages, agent);
      var history := HistoryOf(before.sessions, sessionId) + [UserLine(messages[n])];
      var output := Reply(agent(Prompt(history)));
      && conversation.replies == before.replies + [output]
      && conversation.sessions == before.sessions[sessionId := history + [AssistantLine(output)]]
  {
  }

  /** A conversation answers every message once and only touches its own session. */
  lemma {:induction false} ConverseSessions(sessions: map<string, seq<string>>, sessionId: string,
                                            messages: seq<string>, agent: Agent)
    ensures var conversation := Converse(sessions, sessionId, messages, agent);
      && |conversation.replies| == |messages|
      && conversation.sessions.Keys == sessions.Keys + (if messages == [] then {} else {sessionId})
      && forall s | s in sessions && s != sessionId :: conversation.sessions[s] == sessions[s]
    decreases |messages|
  {
    if messages != [] {
      ConverseSessions(sessions, sessionId, messages[..|messages| - 1], agent);
      ConverseLast(sessions, sessionId, messages, agent);
    }
  }

  /** The lines a run of messages and their replies adds to a transcript: per message, the user line, then the assistant line. */
  function Exchange(messages: seq<string>, replies: seq<string>): (r: seq<string>)
    requires |messages| == |replies|
    ensures |r| == 2 * |messages|
    decreases |messages|
  {
    if messages == [] then []
    else
      Exchange(messages[..|messages| - 1], replies[..|replies| - 1])
        + [UserLine(messages[|messages| - 1]), AssistantLine(replies[|replies| - 1])]
  }

  /** Message k's user line sits at 2k and its assistant line at 2k + 1, after the exchange of the first k messages. */
  lemma {:induction false} ExchangeAt(messages: seq<string>, replies: seq<string>, k: int)
    requires |messages| == |replies| && 0 <= k < |messages|
    ensures var lines := Exchange(messages, replies);
      && lines[2 * k] == UserLine(messages[k])
      && lines[2 * k + 1] == AssistantLine(replies[k])
      && lines[..2 * k] == Exchange(messages[..k], replies[..k])
    decreases |messages|
  {
    var n := |messages| - 1;
    var init := Exchange(messages[..n], replies[..n]);
    if k < n {
      ExchangeAt(messages[..n], replies[..n], k);
      assert messages[..n][..k] == messages[..k] && replies[..n][..k] == replies[..k];
      assert Exchange(messages, replies)[..2 * n] == init;
    } else {
      assert messages[..k] == messages[..n] && replies[..k] == replies[..n];
    }
  }

  /** Extending a transcript by one exchange extends the exchange by one message and its reply. */
  lemma ExchangeStep(start: seq<string>, messages: seq<string>, replies: seq<string>, message: string, reply: string)
    requires |messages| == |replies|
    ensures start + Exchange(messages, replies) + [UserLine(message), AssistantLine(reply)]
            == start + Exchange(messages + [message], replies + [reply])
  {
    var ms, rs := messages + [message], replies + [reply];
    assert ms[..|messages|] == messages && rs[..|replies|] == replies;
  }

  /** A conversation's session transcript is what it held before, then the exchange of every message and its reply. */
  /** One more message, seen through the session's history: its user line and its reply's assistant line. */
  lemma ConverseLastHistory(sessions: map<string, seq<string>>, sessionId: string, messages: seq<string>,
                            agent: Agent) returns (output: string)
    requires messages != []
    ensures var n := |messages| - 1;
      var before := Converse(sessions, sessionId, messages[..n], agent);
      var conversation := Converse(sessions, sessionId, messages, agent);
      && conversation.replies == before.replies + [output]
      && HistoryOf(conversation.sessions, sessionId)
         == HistoryOf(before.sessions, sessionId) + [UserLine(messages[n])] + [AssistantLine(output)]
  {
    var n := |messages| - 1;
    ConverseLast(sessions, sessionId, messages, agent);
    var before := Converse(sessions, sessionId, messages[..n], agent);
    output := Reply(agent(Prompt(HistoryOf(before.sessions, sessionId) + [UserLine(messages[n])])));
  }

  /** A transcript that is `start` plus the exchanges so far, extended by one more exchange. */
  lemma TranscriptStep(start: seq<string>, history: seq<string>, messages: seq<string>, replies: seq<string>,
                       message: string, reply: string)
    requires |messages| == |replies| && history == start + Exchange(messages, replies)
    ensures history + [UserLine(message)] + [AssistantLine(reply)]
            == start + Exchange(messages + [message], replies + [reply])
  {
    assert history + [UserLine(message)] + [AssistantLine(reply)]
        == history + [UserLine(message), AssistantLine(reply)];
    ExchangeStep(start, messages, replies, message, reply);
  }

  /** The inductive step of `ConverseTranscript`, on the conversations before and after the last message. */
  lemma ConversationStep(start: seq<string>, sessionId: string, messages: seq<string>,
                         before: Conversation, after: Conversation, output: string)
    requires messages != [] && |before.replies| == |messages| - 1
    requires HistoryOf(before.sessions, sessionId)
             == start + Exchange(messages[..|messages| - 1], before.replies)
    requires after.replies == before.replies + [output]
    requires HistoryOf(after.sessions, sessionId)
             == HistoryOf(before.sessions, sessionId) + [UserLine(messages[|messages| - 1])] + [AssistantLine(output)]
    ensures |after.replies| == |messages|
    ensures HistoryOf(after.sessions, sessionId) == start + Exchange(messages, after.replies)
  {
    var n := |messages| - 1;
    LastSplit(messages);
    assert HistoryOf(after.sessions, sessionId) == start + Exchange(messages[..n] + [messages[n]], after.replies) by {
      TranscriptStep(start, HistoryOf(before.sessions, sessionId), messages[..n], before.replies, messages[n], output);
    }
  }

  lemma LastSplit(s: seq<string>)
    requires s != []
    ensures s[..|s| - 1] + [s[|s| - 1]] == s
  {
  }

  lemma {:induction false} ConverseTranscript(sessions: map<string, seq<string>>, sessionId: string,
                                              messages: seq<string>, agent: Agent)
    ensures var conversation := Converse(sessions, sessionId, messages, agent);
      && |conversation.replies| == |messages|
      && HistoryOf(conversation.sessions, sessionId)
           == HistoryOf(sessions, sessionId) + Exchange(messages, conversation.replies)
    decreases |messages|
  {
    if messages != [] {
      var n := |messages| - 1;
      ConverseTranscript(sessions, sessionId, messages[..n], agent);
      var before := Converse(sessions, sessionId, messages[..n], agent);
      var output := ConverseLastHistory(sessions, sessionId, messages, agent);
      ConversationStep(HistoryOf(sessions, sessionId), sessionId, messages, before,
                       Converse(sessions, sessionId, messages, agent), output);
    }
  }

  /** Each reply is the agent's answer to the transcript so far followed by that message's user line. */
  predicate Answered(start: seq<string>, messages: seq<string>, replies: seq<string>, agent: Agent)
    requires |messages| == |replies|
    decreases |messages|
  {
    messages == [] ||
    var n := |messages| - 1;
    && Answered(start, messages[..n], replies[..n], agent)
    && replies[n] == Reply(agent(Prompt(start + Exchange(messages[..n], replies[..n]) + [UserLine(messages[n])])))
  }

  /** In an answered run, reply k answers the transcript after the first k exchanges and message k's user line. */
  lemma {:induction false} AnsweredAt(start: seq<string>, messages: seq<string>, replies: seq<string>,
                                      agent: Agent, k: int)
    requires |messages| == |replies| && Answered(start, messages, replies, agent)
    requires 0 <= k < |messages|
    ensures replies[k] == Reply(agent(Prompt(start + Exchange(messages[..k], replies[..k]) + [UserLine(messages[k])])))
    decreases |messages|
  {
    var n := |messages| - 1;
    if k < n {
      AnsweredAt(start, messages[..n], replies[..n], agent, k);
      assert messages[..n][..k] == messages[..k] && replies[..n][..k] == replies[..k];
      assert messages[..n][k] == messages[k] && replies[..n][k] == replies[k];
    }
  }

  /** Every reply of a conversation is the agent's answer to the session's transcript at that point. */
  lemma {:induction false} ConverseReplies(sessions: map<string, seq<string>>, sessionId: string,
                                           messages: seq<string>, agent: Agent)
    ensures var conversation := Converse(sessions, sessionId, messages, agent);
      && |conversation.replies| == |messages|
      && Answered(HistoryOf(sessions, sessionId), messages, conversation.replies, agent)
    decreases |messages|
  {
    if messages != [] {
      var n := |messages| - 1;
      ConverseReplies(sessions, sessionId, messages[..n], agent);
      ConverseTranscript(sessions, sessionId, messages[..n], agent);
      ConverseLast(sessions, sessionId, messages, agent);
      var before := Converse(sessions, sessionId, messages[..n], agent);
      assert Converse(sessions, sessionId, messages, agent).replies[..n] == before.replies;
    }
  }
}
