# Car-catalogue chat assistant: the `predict` glue, modelled in Dafny

The repository puts a Gradio chat window in front of a LangChain SQL agent
that answers car-shopping questions from a PostgreSQL catalogue. Two front
ends exist. `app.py` rebuilds the chat history as a structured message list,
streams the agent's steps, and answers with the last message it sees.
`main.py` serialises the history into a `Human:` / `AI:` transcript, wraps it
around the current request, and makes one `invoke` call. Both build the
database URI from environment variables at start-up. `main.py` answers with
a fixed "System Error" text when the agent is missing. `app.py` is meant to
do the same, but as written its guard raises instead (see Findings). Inside
the `try`, both answer "An error occurred: ..." when anything raises.

The model covers the deterministic code around the agent. The agent is an
abstract input:

- for `app.py`, a function from the message list to the stream it yields
  (`AppDispatch.Stream`: the steps, then an optional exception);
- for `main.py`, a function from the prompt to what `invoke` does
  (`MainDispatch.InvokeOutcome`).

Modules:

- `Optional`: Python's value-or-`None`.
- `Replies`: the two fixed reply shapes.
- `ChatHistory`: the history entry format, the text extraction both front
  ends share, and the selection of user/assistant entries.
- `DbConfig`: `db_uri` and whether the agent gets built.
- `AppDispatch`: `app.py`'s `predict`. It has two loops, both modelled as
  methods proved against reference functions: history to messages, and the
  fold over the stream. The stream loop (`ConsumeSteps`) is kept apart from
  the return that reads `final_response` (`FoldTrace`).
- `MainDispatch`: `main.py`'s `predict`. Its history-to-transcript loop is
  a method, and the prompt composition is a function.

`main.py:15-27` is textually the same `db_uri` code as `app.py:17-27`, so
`DbConfig` models it once. Both `Predict` methods take the start-up
configuration (`DbConfig.Env` and the connection outcome) and guard on
`DbConfig.AgentBuilt`, the condition under which start-up builds the agent.

The code has no session or thread identifiers. `predict` takes only
`(message, history)` and rebuilds the context from `history` on every turn.
The model follows the code.

## Model

| member | source | states |
|---|---|---|
| `Replies.ErrorReply` | app.py:315-318 | a reply for a caught exception starts with "An error occurred: " and is never the configuration-fault message |
| `Replies.ErrorReplyInjective` | app.py:318 | the exception's text can be recovered from the reply: different faults give different replies |
| `ChatHistory.KeptIndices` | app.py:274-277 | the positions of the user/assistant entries: all of them, each in range, strictly increasing |
| `ChatHistory.TextsOfAppend` | app.py:270 | the selection of text-part texts distributes over concatenation, so texts come out in part order |
| `ChatHistory.JoinLength` | app.py:270 | the single-space join is the texts plus one separator between neighbours |
| `ChatHistory.SplitJoin` | app.py:270 | splitting the joined text on spaces gives back every text, in order, when the texts contain no space |
| `ChatHistory.ExtractTextPartsRoundTrip` | app.py:267-272 | for list content, the extracted text splits back into exactly the texts of the `type == "text"` parts |
| `DbConfig.DbUri` | app.py:23-27 | the URI is non-empty iff user, password and host are all non-empty; it is then the postgresql URI of those credentials and starts with the scheme |
| `DbConfig.UnsetHostIsLocalhost` | app.py:19 | with DB_HOST unset, the host is "localhost" and only user and password decide whether there is a URI |
| `DbConfig.AgentNeedsCredentials` | app.py:98-128 | the agent is built iff user, password and host are present, the connection succeeds and the API key is non-empty |
| `DbConfig.SplitFirstAt` | main.py:22 | a delimiter absent from a field is found exactly at that field's end |
| `DbConfig.ParseFormat` | main.py:21-22 | parsing the URI gives back the credentials when no field contains its own end delimiter |
| `DbConfig.PasswordAtIsAmbiguous` | main.py:22 | credentials are not escaped: a password with '@' and a host with '@' can give the same URI |
| `AppDispatch.BuildMessages` | app.py:260-280 | the message list is the history's messages followed by the current message as a user message |
| `AppDispatch.HistoryMessagesAreKeptEntries` | app.py:263-277 | the history's messages are exactly its user/assistant entries, in order, each with its role and extracted text |
| `AppDispatch.MessageListShape` | app.py:280 | the list ends with the current user message, and its length is the number of user/assistant entries plus one |
| `AppDispatch.FirstFault` | app.py:288-305 | finds the first step whose processing raises: an empty message list, or a tool response without a `name` or without `content` |
| `AppDispatch.Preview` | app.py:301-305 | a preview is at most 503 characters: the whole text up to 500, otherwise its first 500 characters and "..." |
| `AppDispatch.PreviewIdempotent` | app.py:301-305 | previewing a preview changes nothing |
| `AppDispatch.TracePreviewsBounded` | app.py:301-305 | every logged tool-response preview is at most 503 characters |
| `AppDispatch.ConsumeSteps` | app.py:287-307 | the loop stops at the first step whose processing raises, with that exception; otherwise `final_response` is the last step's last message (`None` for no steps); the previews logged are those of the processed tool responses |
| `AppDispatch.FoldTrace` | app.py:287-314 | the stream loop yields the fold-free reference outcome (first step fault, else stream fault, else the last step's last message's content or its `str`), and logs the previews of the tool responses it processed |
| `AppDispatch.LastStepDecides` | app.py:307-314 | earlier steps never change the answer: fault-free traces ending in the same step answer alike, with that step's last message |
| `AppDispatch.EmptyTraceAnswersNone` | app.py:287 | a stream with no steps answers "None" |
| `AppDispatch.ToolRoundTripTrace` | app.py:288-314 | a tool call, a tool result and a final "Here are 2 cars" answer exactly "Here are 2 cars" |
| `AppDispatch.RawFinalMessageTrace` | app.py:314 | a final message without content answers with its string form |
| `AppDispatch.Predict` | app.py:254-318 | with the guard corrected (see Findings): when start-up did not build the agent, the System Error text; otherwise the reply is the answer of the trace for the built message list, or the error reply; never an exception |
| `AppDispatch.BuiltReplyIsNotConfigFault` | app.py:254-318 | with a built agent, the configuration message comes back only if the agent answered it verbatim |
| `AppDispatch.AsWrittenGuardRaises` | app.py:255 | as written, with no agent built the guard raises `NameError` instead of returning |
| `AppDispatch.AsWrittenAgreesWhenBuilt` | app.py:248-256 | as written and corrected `predict` agree whenever the agent was built |
| `MainDispatch.EntryLine` | main.py:147-150 | an entry contributes a transcript line iff its role is user or assistant |
| `MainDispatch.BuildContext` | main.py:134-150 | the loop's `context` is the transcript of the whole history |
| `MainDispatch.TranscriptAppend` | main.py:136-150 | the transcript of a concatenation is the concatenation of the transcripts |
| `MainDispatch.TranscriptEmptyIff` | main.py:147-153 | the context is empty iff no history entry has role user or assistant |
| `MainDispatch.TranscriptEndsWithNewline` | main.py:148-150 | a non-empty context ends with a newline |
| `MainDispatch.FullPrompt` | main.py:153-157 | the prompt always ends with the message; with context it starts with the header, holds the context right after it, and is exactly as long as header, context, request header and message together |
| `MainDispatch.Predict` | main.py:128-164 | when start-up did not build the executor, the System Error text; otherwise one `invoke` on the composed prompt, and its output or an error reply |
| `MainDispatch.NoConversationPromptIsMessage` | main.py:156-157 | without user/assistant entries the executor gets the message unchanged |
| `MainDispatch.ConversationPromptHasHeader` | main.py:153-154 | with such entries the prompt is the "Previous conversation" wrapping of the transcript |
| `MainDispatch.FaultReplies` | main.py:162-164 | an exception is answered with the error prefix; a response without "output" is answered as the `KeyError` `'output'` |

## Left out

- The Gradio `ChatInterface` and `launch` (app.py:321-330, main.py:167-176): the user interface and network listener.
- `load_dotenv` / `os.getenv`: environment I/O. Their results are the `DbConfig.Env` parameters.
- The LangChain and OpenAI collaborators (`SQLDatabase.from_uri`, `SQLDatabaseToolkit`, `create_agent`, `create_sql_agent`, `ChatOpenAI`, `agent.stream`, `agent_executor.invoke`): a foreign library, a language model and the network. Only their outputs are modelled: the connection success flag, the stream and the invoke outcome.
- The tool selection `next(t for t in all_tools ...)` (app.py:132): depends on library tool objects. Its `StopIteration` at start-up is not modelled.
- The system prompt text, column-code mappings and `custom_table_info` schema literals: configuration data for the language model, with no logic in this code.
- `print` and `traceback.print_exc` diagnostics: output side effects. The one logged value with a rule, the tool-response preview, is returned by `AppDispatch.FoldTrace` as its `previews` list.
- `AppDispatch.FoldTrace`: the tool-call logging loop (app.py:292-295) is left out, so a tool call missing its `name` or `args` key is not modelled as raising; LangChain's tool calls always carry both.
- `AppDispatch.FirstFault`: every streamed step is taken to carry a "messages" key, so the `KeyError` that `step["messages"]` (app.py:289) would raise is not modelled; LangGraph's "values" stream always includes it.
- `ChatHistory.ExtractText`: it takes each part to be a dict whose "text" is a string. A non-dict part, or a `None` text, raises inside the loop in the source; that is not modelled.
- `AppDispatch.FoldTrace`: an agent message's `content` is taken to be a string; list-valued model content is not modelled.
- `str()` of non-string, non-list content and of agent messages is abstract: the model receives it as a given string (`Content.Other`, `AgentMessage.display`).
- `main.py`'s `response['output']` is taken to be a string when present.
- Thread identifiers and per-session checkpointed memory: the files modelled here contain neither.

## Findings

| source | as written | input that shows it | evidently intended | confidence | as-written member | corrected member |
|---|---|---|---|---|---|---|
| app.py:255 | `if not agent:` reads the global `agent`, which is assigned only inside `if db and llm:` (line 248); line 127 initialises `agent_executor` instead, and the read sits before the `try` | DB_USER unset (or no OPENAI_API_KEY): `predict` raises `NameError: name 'agent' is not defined` up to the chat front end | return the fixed "System Error" text, as `main.py` does with `agent_executor = None` | high, not executed | `AppDispatch.AsWrittenGuardRaises` | `AppDispatch.Predict` |
