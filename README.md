# Tool-calling answer generator

This project models the core of the course-materials chatbot's answer generator: the class
`AIGenerator` in `backend/ai_generator.py`. One call of `generate_response` works as follows.

- It builds the system text from a fixed preamble and, when there is one, the prior conversation.
- It sends the user's query to the language model, with the tool manager's tool definitions
  attached.
- Whenever the model stops with `tool_use`, it runs every requested tool. A tool that raises
  becomes an error result; it does not stop the other tools.
- It appends the assistant's reply and the tool results to the message list and asks again.
- It does this for at most `max_rounds` rounds. If the rounds run out, it makes one final call
  without tools. If that call, or its text, fails, the answer is one of two fixed messages,
  chosen by whether any tool call ever succeeded.

The model has four modules.

- `Messages` (`messages.dfy`): the values exchanged with the model and the tool manager.
  - Requests, replies and content blocks.
  - Tool results and messages.
  - A call outcome is a reply or a raised error. A tool outcome is a returned string or a raised
    error. The result of `generate_response` is an answer or an escaping exception.
- `ToolRounds` (`tool_rounds.dfy`): what one tool round produces, as functions of the reply and
  the tool manager:
  - `Results`: the result blocks;
  - `AnySucceeded`: the success flag;
  - `AfterRound`: the extended message list.

  Lemmas cover correspondence, failure isolation and when results are empty.
- `Orchestration` (`orchestration.dfy`): the whole loop as a function `Generate`. It is given the
  model's replies as a function `respond` of the call number and the request. It yields the list
  of requests sent and the outcome. Lemmas state the properties of one `generate_response` call:
  - initial request;
  - bound on calls;
  - tool attachment;
  - message growth;
  - early exit;
  - fallback selection;
  - the two-call scenario from the test suite.
- `Generator` (`generator.dfy`): the imperative code itself.
  - A `Client` class records every request in a `calls` log.
  - The class `AIGenerator` has the three methods. Each one is proved to do what the loop
    function specifies.
  - `GenerateResponse` keeps, as its loop invariant, the fact that the calls made so far plus the
    rest of the specified loop are the specified calls (`Follows`, advanced by `StepFollows`).

Python exceptions are values in this model:
- A failing model call is `Failed(message)`.
- A raising tool is `Raised(message)`.
- Reading `content[0].text` can fail: on an empty reply it gives `list index out of range`; on a
  tool-use block it gives the missing-attribute message.
- A missing tool manager makes `tool_manager.execute_tool` raise the usual `'NoneType' object has
  no attribute 'execute_tool'`. That error is caught per block, as in the source.

`max_rounds` is any integer. A negative bound behaves like zero: only the final call is made.

## Model

| member | source | states |
|---|---|---|
| Orchestration.SystemText | backend/ai_generator.py:67-71 | The system text starts with the preamble. It is followed by "Previous conversation:" and the history exactly when a non-empty history is given; otherwise it is the preamble alone. |
| Orchestration.Attached | backend/ai_generator.py:73-95 | In-loop calls carry tools exactly when a manager is present and its definitions are non-empty, and then they carry exactly those definitions. |
| Orchestration.FirstText | backend/ai_generator.py:109-111 | `content[0].text` yields a text exactly when the first block exists and is a text block. An empty reply raises the index error. |
| Orchestration.Fallback | backend/ai_generator.py:197-202 | The "found some information" message is chosen exactly when some tool call succeeded; the "trouble accessing" message is chosen exactly when none did. |
| ToolRounds.ResultsConcat | backend/ai_generator.py:141-164 | Results are collected block by block: those of a concatenated reply are those of its parts, concatenated. |
| ToolRounds.ResultsCorrespond | backend/ai_generator.py:141-164 | There is one result per tool-use block, in block order, each built from its block and carrying its block's id. Text blocks give no result. |
| ToolRounds.ResultsEmptyIff | backend/ai_generator.py:166-168 | There are no results exactly when the reply has no tool-use block, so the user message with results is appended exactly when some block asked for a tool. |
| ToolRounds.FailureIsolation | backend/ai_generator.py:143-164 | A raising tool call yields an error result with content "Error executing tool: " + message. The results of the blocks before and after it are unchanged. |
| ToolRounds.SucceededIffNonErrorResult | backend/ai_generator.py:139-164 | The round's success flag holds exactly when some collected result is not an error. |
| Orchestration.LoopLength | backend/ai_generator.py:84-114 | From any round, the loop makes at least one and at most max(maxRounds - round, 0) + 1 calls. The first call carries the current messages. |
| Orchestration.LoopRequests | backend/ai_generator.py:84-114 | Each call carries the tools of its own round: the configured tools and automatic choice inside the bound, and nothing at the final call. |
| Orchestration.LoopSteps | backend/ai_generator.py:98-108 | Every call but the last was in-loop and answered by a tool round. The next call's messages are the previous ones after that round. |
| Orchestration.LoopStops | backend/ai_generator.py:84-114 | The last call is either an in-loop call whose reply does not ask for tools, or the final call after exactly max(maxRounds - round, 0) in-loop calls. |
| Orchestration.LoopFlag | backend/ai_generator.py:81-108 | The success flag at the last call is the initial flag or'ed with "some earlier tool round had a call that returned". It is never cleared. |
| Orchestration.InitialRequest | backend/ai_generator.py:66-90 | The first call carries exactly the one user message with the query. Every call carries the same system text. |
| Orchestration.CallBound | backend/ai_generator.py:79-114 | One `generate_response` makes at least 1 and at most max(max_rounds, 0) + 1 model calls. |
| Orchestration.ToolAttachment | backend/ai_generator.py:84-95 | A call carries tools exactly when it is in-loop (index < max_rounds) and the manager has definitions. Tool choice is `auto` exactly when tools are attached. The final call carries neither. |
| Orchestration.MessageGrowth | backend/ai_generator.py:100-108 | Consecutive calls follow a tool round. The next messages are the old ones plus the assistant's content, plus the results when there are any. |
| Orchestration.ExhaustedIffAllToolRounds | backend/ai_generator.py:84-114 | The run makes max(max_rounds, 0) + 1 calls exactly when every in-loop reply asked for tools. |
| Orchestration.EarlyExit | backend/ai_generator.py:100-111 | An in-loop reply that does not ask for tools is the last one, whatever rounds are left. The outcome is its first text, with its exception escaping. |
| Orchestration.FinalCallFallback | backend/ai_generator.py:172-202 | A run that reaches the final call always answers. The answer is that call's first text, or the fallback chosen by "some earlier round had a tool call that returned". Only in-loop failures escape. |
| Orchestration.OneSearchThenAnswer | backend/tests/test_ai_generator.py:142-205 | With one search request and then an answer, there are two calls and the answer is the second reply's text. The second call has three messages, the last a user message with one tool result for `tool_456`. |
| Generator.Client.Create | backend/ai_generator.py:98 | A model call appends its request to the log and returns the reply for that call number. |
| Generator.AIGenerator.constructor | backend/ai_generator.py:37-38 | The generator holds the given client. |
| Generator.AIGenerator.GenerateResponse | backend/ai_generator.py:48-114 | The outcome and the requests sent, appended to the client's log, are those of `Generate` for the same query, history, manager and bound. |
| Generator.AIGenerator.ExecuteToolsAndUpdateMessages | backend/ai_generator.py:116-170 | The new list is the old one plus the assistant's content, plus one results message exactly when some block is a tool use. The flag holds exactly when some tool-use block's call returned. |
| Generator.AIGenerator.GetFinalResponse | backend/ai_generator.py:172-202 | Exactly one tool-less request is appended to the log. The answer is its first text, or the fallback chosen by the success flag if the call or the text fails. |

## Left out

- The Anthropic SDK, the API key and the fixed base parameters (model name, `temperature` 0,
  `max_tokens` 800) are not modelled. A request holds only the messages, the system text, the
  tools and the tool choice.
- The model's replies are an input function of the call number and the request, not a network
  call.
- The system preamble keeps only its first line. The rest of the prompt is instruction text
  that no branch depends on.
- The tool manager is seen through its definitions and a pure `execute` function. Its internal
  state (registered tools, the sources recorded by the last search) is not part of this model.
  Search tools, the vector store, the RAG system, the session manager and the HTTP layer are
  not part of this model.
- Python truthiness of `tool_manager` is taken to mean "present": a manager object is assumed
  truthy.
- Tool inputs are string-to-string maps. A tool definition's input schema is an opaque string.
- Exception types are reduced to their messages. `str(e)` is the message itself.
- The copy made by `messages.copy()` and the aliasing of the caller's list do not arise, because
  message lists are values.
- Concurrency is not modelled: one `generate_response` call runs at a time on a client.
