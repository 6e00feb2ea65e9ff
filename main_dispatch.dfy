/** `predict` of the single-call front end: it serialises the history into a
    `Human:` / `AI:` transcript, wraps it around the current request, and
    passes the resulting prompt to the SQL agent executor in one call. The
    executor is an abstract function from the prompt to what `invoke` does. */
module MainDispatch {
  import opened Optional
  import opened ChatHistory
  import opened Replies
  import opened DbConfig

  /** What `agent_executor.invoke(full_prompt)` does: raise an exception
      (given by its `str`), or return a response whose "output" entry may be
      missing. */
  datatype InvokeOutcome = Raised(error: string) | Returned(output: Option<string>)

  /** `str(KeyError("output"))`. */
  const MissingOutputText: string := "'output'"

  const HumanTag: string := "Human: "
  const AiTag: string := "AI: "

  /** The transcript line one history entry contributes. */
  function EntryLine(e: Entry): (line: string)
    ensures line != "" <==> IsKept(e)
  {
    if e.role == Some(UserRole) then HumanTag + ExtractText(e.content) + "\n"
    else if e.role == Some(AssistantRole) then AiTag + ExtractText(e.content) + "\n"
    else ""
  }

  /** The transcript of a whole history, entry after entry. */
  function Transcript(h: seq<Entry>): string {
    if h == [] then "" else Transcript(h[..|h| - 1]) + EntryLine(h[|h| - 1])
  }

  /** The `context += ...` loop over the history. */
  method BuildContext(history: seq<Entry>) returns (context: string)
    ensures context == Transcript(history)
  {
    context := "";
    var i := 0;
    while i < |history|
      invariant 0 <= i <= |history|
      invariant context == Transcript(history[..i])
    {
      var msg := history[i];
      var text := ExtractText(msg.content);
      assert history[..i + 1][..i] == history[..i];
      assert Transcript(history[..i + 1]) == context + EntryLine(msg);
      if msg.role == Some(UserRole) {
        context := context + (HumanTag + text + "\n");
      } else if msg.role == Some(AssistantRole) {
        context := context + (AiTag + text + "\n");
      }
      i := i + 1;
    }
    assert history[..i] == history;
  }

  /** The transcript of a concatenation is the concatenation of the
      transcripts: lines appear in history order, one per kept entry. */
  lemma {:induction false} TranscriptAppend(a: seq<Entry>, b: seq<Entry>)
    ensures Transcript(a + b) == Transcript(a) + Transcript(b)
  {
    if b != [] {
      var n := |b| - 1;
      assert (a + b)[..|a + b| - 1] == a + b[..n];
      assert (a + b)[|a + b| - 1] == b[n];
      TranscriptAppend(a, b[..n]);
    } else {
      assert a + b == a;
    }
  }

  /** The transcript is empty exactly when the history has no user or
      assistant entry. */
  lemma {:induction false} TranscriptEmptyIff(h: seq<Entry>)
    ensures Transcript(h) == "" <==> CountKept(h) == 0
  {
    if h != [] {
      TranscriptEmptyIff(h[..|h| - 1]);
    }
  }

  /** Every non-empty transcript ends with a newline, the end of its last
      line. */
  lemma {:induction false} TranscriptEndsWithNewline(h: seq<Entry>)
    requires Transcript(h) != ""
    ensures Transcript(h)[|Transcript(h)| - 1] == '\n'
  {
    var n := |h| - 1;
    if EntryLine(h[n]) == "" {
      TranscriptEndsWithNewline(h[..n]);
    }
  }

  const ContextHeader: string := "Previous conversation:\n"
  const RequestHeader: string := "\n\nCurrent Request: "

  /** `full_prompt`: the message alone when there is no context, otherwise
      the context under a header, followed by the message. The prompt always
      ends with the current message and, when there is context, starts with
      the header and holds the context right after it; so the context can be
      read back from the prompt. */
  function FullPrompt(context: string, message: string): (prompt: string)
    ensures |prompt| >= |message| && prompt[|prompt| - |message|..] == message
    ensures context != "" ==>
              && |prompt| == |ContextHeader| + |context| + |RequestHeader| + |message|
              && prompt[..|ContextHeader|] == ContextHeader
              && prompt[|ContextHeader|..|ContextHeader| + |context|] == context
  {
    if context != "" then
      var p := ContextHeader + context + RequestHeader + message;
      assert p == (ContextHeader + context) + (RequestHeader + message);
      p
    else message
  }

  /** The reply for what `invoke` did: its output, or the error reply for its
      exception or for the missing "output" key. */
  function ReplyOf(o: InvokeOutcome): string {
    match o
    case Raised(e) => ErrorReply(e)
    case Returned(None) => ErrorReply(MissingOutputText)
    case Returned(Some(out)) => out
  }

  /** The prompt sent for a message and history. */
  function PromptFor(message: string, history: seq<Entry>): string {
    FullPrompt(Transcript(history), message)
  }

  /** `predict(message, history)`: the fixed configuration message when no
      executor was built; otherwise one `invoke` on the composed prompt, with
      every exception turned into a reply. */
  method Predict(env: Env, connects: bool, invoke: string -> InvokeOutcome, message: string, history: seq<Entry>)
    returns (reply: string)
    ensures !AgentBuilt(env, connects) ==> reply == SystemError
    ensures AgentBuilt(env, connects) ==> reply == ReplyOf(invoke(PromptFor(message, history)))
  {
    if !AgentBuilt(env, connects) {
      return SystemError;
    }
    var context := BuildContext(history);
    var fullPrompt := FullPrompt(context, message);
    var response := invoke(fullPrompt);
    match response
    case Raised(e) => reply := ErrorReply(e);
    case Returned(None) => reply := ErrorReply(MissingOutputText);
    case Returned(Some(out)) => reply := out;
  }

  /** For a history without user or assistant entries the executor receives
      the message unchanged. */
  lemma NoConversationPromptIsMessage(message: string, history: seq<Entry>)
    requires CountKept(history) == 0
    ensures PromptFor(message, history) == message
  {
  }

  /** With at least one user or assistant entry the prompt carries the
      transcript under the "Previous conversation" header. */
  lemma ConversationPromptHasHeader(message: string, history: seq<Entry>)
    requires CountKept(history) > 0
    ensures PromptFor(message, history) == ContextHeader + Transcript(history) + RequestHeader + message
  {
  }

  /** A reply that reports an exception starts with the error prefix, and a
      missing "output" key is reported as such. */
  lemma FaultReplies(e: string)
    ensures ReplyOf(Raised(e))[..|ErrorPrefix|] == ErrorPrefix
    ensures ReplyOf(Returned(None)) == ErrorPrefix + MissingOutputText
  {
  }
}
