/** `predict` of the tool-calling front end: it rebuilds the conversation as a
    structured message list, streams the agent's steps, keeps the last
    message it sees, and turns every fault into a reply. The agent itself
    (language model, SQL tool, database) is an abstract function from the
    message list to the trace it streams. */
module AppDispatch {
  import opened Optional
  import opened ChatHistory
  import opened Replies
  import opened DbConfig

  datatype Role = User | Assistant

  /** `{"role": ..., "content": text}` as appended to `messages`. */
  datatype ChatMessage = ChatMessage(role: Role, content: string)

  /** The message one history entry contributes: one for a user or
      assistant entry, none otherwise. */
  function EntryMessages(e: Entry): seq<ChatMessage> {
    if e.role == Some(UserRole) then [ChatMessage(User, ExtractText(e.content))]
    else if e.role == Some(AssistantRole) then [ChatMessage(Assistant, ExtractText(e.content))]
    else []
  }

  /** The role of a kept entry, as a message role. */
  function RoleOf(e: Entry): Role
    requires IsKept(e)
  {
    if e.role == Some(UserRole) then User else Assistant
  }

  /** The message a kept entry becomes: its role and its extracted text. */
  function KeptMessage(e: Entry): ChatMessage
    requires IsKept(e)
  {
    ChatMessage(RoleOf(e), ExtractText(e.content))
  }

  /** The messages contributed by a whole history, entry after entry. */
  function HistoryMessages(h: seq<Entry>): seq<ChatMessage> {
    if h == [] then [] else HistoryMessages(h[..|h| - 1]) + EntryMessages(h[|h| - 1])
  }

  /** The message list handed to the agent: the history's messages, then the
      current user message. */
  method BuildMessages(history: seq<Entry>, message: string) returns (messages: seq<ChatMessage>)
    ensures messages == HistoryMessages(history) + [ChatMessage(User, message)]
  {
    messages := [];
    var i := 0;
    while i < |history|
      invariant 0 <= i <= |history|
      invariant messages == HistoryMessages(history[..i])
    {
      var msg := history[i];
      var text := ExtractText(msg.content);
      if msg.role == Some(UserRole) {
        messages := messages + [ChatMessage(User, text)];
      } else if msg.role == Some(AssistantRole) {
        messages := messages + [ChatMessage(Assistant, text)];
      }
      assert history[..i + 1][..i] == history[..i];
      i := i + 1;
    }
    assert history[..i] == history;
    messages := messages + [ChatMessage(User, message)];
  }

  /** The history's messages are exactly its user and assistant entries, in
      their original order, each with its own role and extracted text;
      entries with any other role, or none, contribute nothing. */
  lemma {:induction false} HistoryMessagesAreKeptEntries(h: seq<Entry>)
    ensures |HistoryMessages(h)| == |KeptIndices(h)| == CountKept(h)
    ensures forall k :: 0 <= k < |KeptIndices(h)| ==>
              HistoryMessages(h)[k] == KeptMessage(h[KeptIndices(h)[k]])
  {
    if h != [] {
      var n := |h| - 1;
      var init := h[..n];
      HistoryMessagesAreKeptEntries(init);
      var idx0, idx := KeptIndices(init), KeptIndices(h);
      var ms0, ms := HistoryMessages(init), HistoryMessages(h);
      assert ms == ms0 + EntryMessages(h[n]);
      assert idx == idx0 + (if IsKept(h[n]) then [n] else []);
      forall k | 0 <= k < |idx|
        ensures ms[k] == KeptMessage(h[idx[k]])
      {
        if k < |idx0| {
          assert ms[k] == ms0[k] == KeptMessage(init[idx0[k]]);
          assert init[idx0[k]] == h[idx0[k]];
        } else {
          assert idx[k] == n;
          assert ms[k] == EntryMessages(h[n])[0];
        }
      }
    }
  }

  /** The message list always ends with the current user message and is one
      longer than the number of user/assistant history entries. */
  lemma MessageListShape(history: seq<Entry>, message: string)
    ensures var ms := HistoryMessages(history) + [ChatMessage(User, message)];
            |ms| == CountKept(history) + 1 && ms[|ms| - 1] == ChatMessage(User, message)
  {
  }

  // ---------------------------------------------------------------------
  // The streamed trace

  /** The last message of a step, as the fold sees it. `kind` is the
      message's `type` attribute (`None` when it has none), `hasName` whether
      it has a `name` attribute, `content` its `content` attribute,
      `className` the name of its class and `display` what `str` gives for
      it. */
  datatype AgentMessage =
    AgentMessage(kind: Option<string>, hasName: bool, content: Option<string>, className: string, display: string)

  /** One value yielded by `agent.stream(..., stream_mode="values")`: the
      state's message list. */
  datatype Step = Step(messages: seq<AgentMessage>)

  /** What the stream does: the steps it yields, then either it ends
      (`fault == None`) or it raises an exception whose `str` is given. */
  datatype Stream = Stream(steps: seq<Step>, fault: Option<string>)

  /** How the guarded block ends: with an answer, or with an exception. */
  datatype Outcome = Answer(text: string) | Raised(error: string)

  /** The message `str(IndexError)` gives for `[][-1]`. */
  const IndexErrorText: string := "list index out of range"

  /** The message `str(AttributeError)` gives for reading a missing
      attribute of a message. */
  function NoAttributeText(m: AgentMessage, attribute: string): string {
    "'" + m.className + "' object has no attribute '" + attribute + "'"
  }

  /** `step["messages"][-1]`. */
  function LastOf(s: Step): AgentMessage
    requires s.messages != []
  {
    s.messages[|s.messages| - 1]
  }

  predicate IsTool(m: AgentMessage) {
    m.kind == Some("tool")
  }

  /** Processing this step raises: its message list is empty, or its last
      message is a tool response without a name (read first, for the log
      header) or without content (read next, for the preview). */
  predicate StepFaults(s: Step) {
    s.messages == [] || (IsTool(LastOf(s)) && (!LastOf(s).hasName || LastOf(s).content.None?))
  }

  /** `str(e)` of the exception a faulting step raises. */
  function StepFaultText(s: Step): string
    requires StepFaults(s)
  {
    if s.messages == [] then IndexErrorText
    else if !LastOf(s).hasName then NoAttributeText(LastOf(s), "name")
    else NoAttributeText(LastOf(s), "content")
  }

  /** The position of the first faulting step, if any. */
  function FirstFault(steps: seq<Step>): (r: Option<nat>)
    ensures r.Some? ==>
              && r.value < |steps| && StepFaults(steps[r.value])
              && forall j :: 0 <= j < r.value ==> !StepFaults(steps[j])
    ensures r.None? ==> forall j :: 0 <= j < |steps| ==> !StepFaults(steps[j])
  {
    if steps == [] then None
    else if StepFaults(steps[0]) then Some(0)
    else
      match FirstFault(steps[1..])
      case None => None
      case Some(k) => Some(k + 1)
  }

  /** The returned text for the last message observed:
      `final_response.content` if it has one, `str(final_response)` otherwise;
      `str(None)` when no step was observed. */
  function AnswerOf(finalResponse: Option<AgentMessage>): string {
    match finalResponse
    case None => "None"
    case Some(m) => if m.content.Some? then m.content.value else m.display
  }

  /** The outcome of consuming a whole stream, stated without the fold: the
      first faulting step's exception; otherwise the stream's own exception;
      otherwise the answer of the very last message of the last step. */
  function TraceOutcome(st: Stream): Outcome {
    match FirstFault(st.steps)
    case Some(i) => Raised(StepFaultText(st.steps[i]))
    case None =>
      if st.fault.Some? then Raised(st.fault.value)
      else if st.steps == [] then Answer(AnswerOf(None))
      else
        Answer(AnswerOf(Some(LastOf(st.steps[|st.steps| - 1]))))
  }

  const PreviewLimit: nat := 500

  /** The logged preview of a tool response: the first 500 characters
      followed by "..." when it is longer, the whole text otherwise. */
  function Preview(content: string): (p: string)
    ensures |p| <= PreviewLimit + 3
    ensures |content| <= PreviewLimit ==> p == content
    ensures |content| > PreviewLimit ==>
              |p| == PreviewLimit + 3 && p[..PreviewLimit] == content[..PreviewLimit] && p[PreviewLimit..] == "..."
  {
    if |content| > PreviewLimit then content[..PreviewLimit] + "..." else content
  }

  /** Previewing a preview changes nothing: a truncated preview keeps its
      first 500 characters and its "..." ending. */
  lemma PreviewIdempotent(content: string)
    ensures Preview(Preview(content)) == Preview(content)
  {
  }

  /** The preview logged for one step: one for a tool response with a name
      and content, none otherwise. */
  function StepPreviews(s: Step): seq<string> {
    if s.messages != [] && IsTool(LastOf(s)) && LastOf(s).hasName && LastOf(s).content.Some?
    then [Preview(LastOf(s).content.value)]
    else []
  }

  /** The previews logged while the first `n` steps are processed, in
      order. */
  function TracePreviews(steps: seq<Step>, n: nat): seq<string>
    requires n <= |steps|
  {
    if n == 0 then [] else TracePreviews(steps, n - 1) + StepPreviews(steps[n - 1])
  }

  /** Every logged preview is at most 503 characters long. */
  lemma {:induction false} TracePreviewsBounded(steps: seq<Step>, n: nat)
    requires n <= |steps|
    ensures forall k :: 0 <= k < |TracePreviews(steps, n)| ==> |TracePreviews(steps, n)[k]| <= PreviewLimit + 3
  {
    if n > 0 {
      TracePreviewsBounded(steps, n - 1);
    }
  }

  /** The number of steps processed before the first fault (all of them
      when none faults). */
  function ProcessedCount(steps: seq<Step>): (n: nat)
    ensures n <= |steps|
  {
    match FirstFault(steps)
    case Some(i) => i
    case None => |steps|
  }

  /** The first faulting step is the one every earlier step lets through. */
  lemma FaultAt(steps: seq<Step>, i: nat)
    requires i < |steps| && StepFaults(steps[i])
    requires forall j :: 0 <= j < i ==> !StepFaults(steps[j])
    ensures FirstFault(steps) == Some(i)
  {
  }

  /** The exception processing the steps raises, if any. */
  function StepsFault(steps: seq<Step>): Option<string> {
    match FirstFault(steps)
    case Some(i) => Some(StepFaultText(steps[i]))
    case None => None
  }

  /** `final_response` after all steps were processed: the last step's last
      message, or `None` when there were no steps. */
  function FinalResponse(steps: seq<Step>): Option<AgentMessage>
    requires steps != [] ==> steps[|steps| - 1].messages != []
  {
    if steps == [] then None else Some(LastOf(steps[|steps| - 1]))
  }

  /** The body of the loop over `agent.stream(...)`, step by step: take the
      step's last message, log the preview of a tool response, and
      overwrite `final_response`. It stops at the first step that raises. */
  method ConsumeSteps(steps: seq<Step>) returns (fault: Option<string>, finalResponse: Option<AgentMessage>, previews: seq<string>)
    ensures fault == StepsFault(steps)
    ensures fault.None? ==> (steps != [] ==> steps[|steps| - 1].messages != []) && finalResponse == FinalResponse(steps)
    ensures previews == TracePreviews(steps, ProcessedCount(steps))
  {
    finalResponse, previews := None, [];
    var i := 0;
    while i < |steps|
      invariant 0 <= i <= |steps|
      invariant forall j :: 0 <= j < i ==> !StepFaults(steps[j])
      invariant previews == TracePreviews(steps, i)
      invariant finalResponse == if i == 0 then None else Some(LastOf(steps[i - 1]))
    {
      var step := steps[i];
      if step.messages == [] {
        fault := Some(IndexErrorText);
        FaultAt(steps, i);
        return;
      }
      var lastMessage := LastOf(step);
      if lastMessage.kind == Some("tool") {
        if !lastMessage.hasName {
          fault := Some(NoAttributeText(lastMessage, "name"));
          FaultAt(steps, i);
          return;
        }
        if lastMessage.content.None? {
          fault := Some(NoAttributeText(lastMessage, "content"));
          FaultAt(steps, i);
          return;
        }
        previews := previews + [Preview(lastMessage.content.value)];
      } else {
        assert StepPreviews(step) == [];
      }
      assert !StepFaults(step);
      finalResponse := Some(lastMessage);
      i := i + 1;
    }
    fault := None;
  }

  /** The whole `for step in agent.stream(...)` statement and the return
      that follows it: the steps are consumed, then the stream either raises
      or ends, and the answer is taken from `final_response`. */
  method FoldTrace(st: Stream) returns (outcome: Outcome, previews: seq<string>)
    ensures outcome == TraceOutcome(st)
    ensures previews == TracePreviews(st.steps, ProcessedCount(st.steps))
  {
    var fault, finalResponse;
    fault, finalResponse, previews := ConsumeSteps(st.steps);
    if fault.Some? {
      outcome := Raised(fault.value);
    } else if st.fault.Some? {
      outcome := Raised(st.fault.value);
    } else {
      outcome := Answer(AnswerOf(finalResponse));
    }
  }

  /** Earlier steps never affect the answer: two fault-free traces that end
      in the same step give the same outcome. */
  lemma {:induction false} LastStepDecides(p1: seq<Step>, p2: seq<Step>, last: Step)
    requires FirstFault(p1 + [last]).None? && FirstFault(p2 + [last]).None?
    ensures TraceOutcome(Stream(p1 + [last], None)) == TraceOutcome(Stream(p2 + [last], None))
    ensures TraceOutcome(Stream(p1 + [last], None)) == Answer(AnswerOf(Some(LastOf(last))))
  {
    assert (p1 + [last])[|p1|] == last;
    assert (p2 + [last])[|p2|] == last;
  }

  /** A stream that yields nothing leaves `final_response` at `None`, and the
      answer is its `str`, "None". */
  lemma EmptyTraceAnswersNone()
    ensures TraceOutcome(Stream([], None)) == Answer("None")
  {
  }

  /** A tool call, a tool result and a final message "Here are 2 cars": the
      answer is the final message's content. */
  lemma ToolRoundTripTrace()
    ensures var call := AgentMessage(Some("ai"), true, Some(""), "AIMessage", "call");
            var result := AgentMessage(Some("tool"), true, Some("[(1,)]"), "ToolMessage", "result");
            var final := AgentMessage(Some("ai"), true, Some("Here are 2 cars"), "AIMessage", "final");
            TraceOutcome(Stream([Step([call]), Step([call, result]), Step([call, result, final])], None))
              == Answer("Here are 2 cars")
  {
  }

  /** A final message without a `content` attribute is answered with its
      string form. */
  lemma RawFinalMessageTrace()
    ensures TraceOutcome(Stream([Step([AgentMessage(None, false, None, "object", "<raw>")])], None)) == Answer("<raw>")
  {
  }

  // ---------------------------------------------------------------------
  // predict

  /** The reply for the outcome of the guarded block: the answer itself,
      or the error reply for a caught exception. */
  function ReplyOf(o: Outcome): string {
    match o
    case Answer(t) => t
    case Raised(e) => ErrorReply(e)
  }

  /** The reply `predict` gives when the agent exists: the outcome of the
      trace the agent streams for the built message list. */
  function AgentReply(agent: seq<ChatMessage> -> Stream, message: string, history: seq<Entry>): string {
    ReplyOf(TraceOutcome(agent(HistoryMessages(history) + [ChatMessage(User, message)])))
  }

  /** `predict(message, history)` with the agent guard as evidently intended
      (the global initialised to `None` and tested for it, as the other
      front end does): the fixed configuration message when the agent was
      not built, otherwise the reply of the trace; an exception never
      escapes. */
  method Predict(env: Env, connects: bool, agent: seq<ChatMessage> -> Stream, message: string, history: seq<Entry>)
    returns (reply: string)
    ensures !AgentBuilt(env, connects) ==> reply == SystemError
    ensures AgentBuilt(env, connects) ==> reply == AgentReply(agent, message, history)
  {
    if !AgentBuilt(env, connects) {
      return SystemError;
    }
    var messages := BuildMessages(history, message);
    var outcome, _ := FoldTrace(agent(messages));
    match outcome
    case Answer(t) => reply := t;
    case Raised(e) => reply := ErrorReply(e);
  }

  /** A reply from a built agent is the configuration message only if the
      agent itself answered with that very text. */
  lemma BuiltReplyIsNotConfigFault(agent: seq<ChatMessage> -> Stream, message: string, history: seq<Entry>)
    requires AgentReply(agent, message, history) == SystemError
    ensures TraceOutcome(agent(HistoryMessages(history) + [ChatMessage(User, message)])) == Answer(SystemError)
  {
  }

  // ---------------------------------------------------------------------
  // The guard as written

  /** The module-level name `agent`: assigned only when the database and the
      language model were both set up, otherwise never bound. */
  datatype AgentBinding = Unbound | Bound(agent: seq<ChatMessage> -> Stream)

  /** What a call to `predict` does for its caller: return a reply, or let
      an exception escape. */
  datatype Response = Returned(reply: string) | Propagated(error: string)

  const UnboundAgentText: string := "name 'agent' is not defined"

  /** The binding start-up leaves behind for a configuration. */
  function StartupBinding(env: Env, connects: bool, agent: seq<ChatMessage> -> Stream): AgentBinding {
    if AgentBuilt(env, connects) then Bound(agent) else Unbound
  }

  /** `predict` as written: `if not agent:` reads a name that start-up binds
      only when the agent is built, and a bound agent object is always
      truthy; the read sits before the `try`. */
  function PredictAsWritten(binding: AgentBinding, message: string, history: seq<Entry>): Response {
    match binding
    case Unbound => Propagated(UnboundAgentText)
    case Bound(agent) => Returned(AgentReply(agent, message, history))
  }

  /** With the agent not built, the as-written `predict` never returns the
      configuration message: the guard itself raises a `NameError` that
      escapes to the chat front end. */
  lemma AsWrittenGuardRaises(env: Env, connects: bool, agent: seq<ChatMessage> -> Stream, message: string, history: seq<Entry>)
    requires !AgentBuilt(env, connects)
    ensures PredictAsWritten(StartupBinding(env, connects, agent), message, history) == Propagated(UnboundAgentText)
    ensures !PredictAsWritten(StartupBinding(env, connects, agent), message, history).Returned?
  {
  }

  /** With the agent built, the as-written and the corrected `predict` agree. */
  lemma AsWrittenAgreesWhenBuilt(env: Env, connects: bool, agent: seq<ChatMessage> -> Stream, message: string, history: seq<Entry>)
    requires AgentBuilt(env, connects)
    ensures PredictAsWritten(StartupBinding(env, connects, agent), message, history) == Returned(AgentReply(agent, message, history))
  {
  }
}
