# Bounded tool-calling loop of the course-materials RAG assistant

This project models, in Dafny, the response generator of a retrieval-augmented
course-materials assistant: `AIGenerator.generate_response`. Given a user query,
an optional rendered conversation history, an optional list of tool definitions
and an optional tool manager, the generator talks to the language model in at
most `MAX_TOOL_ROUNDS = 2` tool rounds:

- every call carries the same system text — the fixed instructions, followed by
  `"\n\nPrevious conversation:\n"` and the history when the history is non-empty;
- each call made within the round budget carries the tools and
  `tool_choice = {"type": "auto"}` exactly when the tool list is non-empty;
- a response that does not stop with `"tool_use"`, or any response when there
  is no tool manager, ends the exchange: its `content[0].text` is returned;
- otherwise every `tool_use` block of the response is executed in block order,
  a tool that raises an `Exception` is answered with
  `"Tool error: <message>"`, and the transcript grows by the assistant turn (the
  response content) and a user turn with one `tool_result` per block, carrying
  the block's id;
- once both rounds are used, one last call without tools is made and its text
  is returned.

The language model is an oracle (`Messages.Client`): a function from the call
number and the request to a reply, which is either a response (stop reason and
content blocks) or a transport failure. The tool manager is an optional oracle
(`ToolDispatch.ToolManager`) from tool name and keyword arguments to a returned
string or a raised message. Python truthiness is explicit: `HasTools` and
`HasHistory` treat `None` and an empty list or string alike, while the tool
manager is tested with `is None`, so a manager with no tools still runs rounds.

Files:

- `messages.dfy` — module `Messages`: blocks, turns, tool results, requests,
  replies, and `content[0].text` as `LeadingText`.
- `tool_dispatch.dfy` — module `ToolDispatch`: the per-round dispatch loop
  `ExecuteTools` with its try/except, proved equal to the specification
  functions `ToolUses` and `ToolResults`, and the lemmas that the results are
  one per tool_use block, in order, correlated by id, and that an error does not
  stop the round.
- `ai_generator.dfy` — module `Generator`: the constants, the system text, the
  imperative `GenerateResponse` (round counter, transcript appended in place,
  forced final call) proved equal to the recursive specification `Converse`.
- `generator_properties.dfy` — module `GeneratorProperties`: what every exchange
  satisfies (call budget, tools per call, transcript growth, rounds, outcome,
  early exits, truthiness).
- `scenarios.dfy` — module `Scenarios`: the scripted exchanges of the
  generator's tests, including the one place where a test disagrees with the code.

`MAX_TOOL_ROUNDS` is a class attribute that the loop reads through `self`, so an
instance can override it. The specification `Generator.Converse` therefore
takes the round budget as a parameter. The per-round properties
(`ConverseRequests`, `ConverseTranscript`, `ConverseOutcome`,
`EmptyToolsAsAbsent`) are proved for every budget. `Generate` and the method use
the class value 2.

The observable effects of one call of `generate_response` are collected in a
`Generator.Trace`: the outcome (the returned text, or the failure it raises),
the requests the client received in order, and for each completed round the
tool_use blocks handed to the tool manager.

Where a test disagrees with the code, the model follows the code.
`backend/tests/test_ai_generator.py:235-265` expects the second call of a
one-round exchange to carry no tools; the loop attaches the tools on every call
while the round counter is under the budget (`backend/ai_generator.py:85-94`),
so the second call does carry them. `Scenarios.SecondCallKeepsTools` proves the
code's behaviour. Likewise the answer is `content[0].text` with no search for a
text block: when the ending response has no block, or starts with a tool_use
block, the call raises (`Generator.Failure.NoLeadingText`) rather than returning
text.

## Model

| member | source | states |
|---|---|---|
| `ToolDispatch.ToolUses` | backend/ai_generator.py:109-110 | the blocks selected for execution are tool_use blocks only, and never more than the response holds |
| `ToolDispatch.Rendered` | backend/ai_generator.py:111-114 | the text a tool call contributes: the returned string, or `"Tool error: "` followed by the exception's message |
| `ToolDispatch.ResultFor` | backend/ai_generator.py:111-119 | the tool_result for one tool_use block carries that block's id, and the manager's returned text or the error text for its name and input |
| `ToolDispatch.ToolResults` | backend/ai_generator.py:108-119 | a round's results have exactly one entry per selected tool_use block |
| `ToolDispatch.ResultsAnswerUses` | backend/ai_generator.py:111-119 | the j-th result answers the j-th selected tool_use block: its id, and the manager's output or the error text for its name and input |
| `ToolDispatch.ExecuteTools` | backend/ai_generator.py:108-119 | the for loop with try/except hands exactly the tool_use blocks to the manager, in order, and builds exactly the results `ToolResults` specifies |
| `ToolDispatch.ToolUsesAppend` | backend/ai_generator.py:109-110 | selecting tool_use blocks distributes over concatenation of responses |
| `ToolDispatch.ToolUseKeptInOrder` | backend/ai_generator.py:109-119 | every tool_use block is executed, at the position given by its rank, and ranks grow strictly along the response, so block order is kept |
| `ToolDispatch.RankMonotone` | backend/ai_generator.py:109 | the rank of a block never decreases along the response |
| `ToolDispatch.EveryUseFromABlock` | backend/ai_generator.py:109-110 | every executed entry comes from a tool_use block of the response, so non-tool_use blocks produce no entry |
| `ToolDispatch.ResultCorrelatedById` | backend/ai_generator.py:115-119 | the result for the tool_use block at index k carries that block's id and the manager's output for its name and input |
| `ToolDispatch.ErrorDoesNotAbortRound` | backend/ai_generator.py:111-114 | a tool that raises yields `"Tool error: " + message`, and every later tool_use block of the round still gets its own result |
| `Generator.HasHistory` | backend/ai_generator.py:76 | Python truthiness of the history: `None` and the empty string both count as no history |
| `Generator.HasTools` | backend/ai_generator.py:92 | Python truthiness of the tool list: `None` and the empty list both count as no tools |
| `Messages.LeadingText` | backend/ai_generator.py:101 | `content[0].text` yields a value exactly when the content is non-empty and its first block is a text block, and the value is that block's text |
| `Generator.Finish` | backend/ai_generator.py:101-105 | returning `content[0].text` answers with the first block's text exactly when that block exists and is text; otherwise the call raises (`NoLeadingText`) |
| `Generator.Settle` | backend/ai_generator.py:97-105 | a transport exception from the client propagates as the outcome; a delivered response is finished by its leading text, so an answer always comes from a delivered text-first response |
| `Generator.WantsRound` | backend/ai_generator.py:99-105 | a reply starts a tool round exactly when it was delivered, stops with `"tool_use"`, and a tool manager is present; otherwise the exchange ends |
| `Generator.LoopRequest` | backend/ai_generator.py:86-94 | an in-budget request carries the system text and the transcript, and tools with automatic tool choice exactly when the tool list is non-empty, and neither otherwise |
| `Generator.FinalRequest` | backend/ai_generator.py:126-131 | the forced last request is the in-budget request with no tool list: same system text and transcript, no tools, no tool choice |
| `Generator.Opening` | backend/ai_generator.py:81 | the transcript starts with the query as the only, user, turn |
| `Generator.RoundTurns` | backend/ai_generator.py:121-123 | a completed round appends the response content as an assistant turn, then the tool results as a user turn |
| `Generator.SystemContent` | backend/ai_generator.py:74-78 | the system text starts with the instructions, is longer exactly when the history is non-empty, and then ends with the header and the history |
| `Generator.Converse` | backend/ai_generator.py:85-133 | from any round and for any budget, the exchange makes one call more than it completes rounds, and never goes past the budget |
| `Generator.Generate` | backend/ai_generator.py:56-133 | the whole exchange of one call: 1 to 3 calls, one round fewer than calls, and the first call carries the system text, the query alone and the tools as the tool list allows |
| `Generator.GenerateResponse` | backend/ai_generator.py:56-133 | the loop with its counter, in-place transcript and forced final call yields exactly the trace `Generate` specifies, with 1 to 3 calls and one round fewer than calls |
| `GeneratorProperties.ConverseRequests` | backend/ai_generator.py:85-94 | for any budget, every call carries the same system text; a call under the budget carries the tools and auto tool choice exactly when the list is non-empty, and any other call carries neither |
| `GeneratorProperties.ConverseTranscript` | backend/ai_generator.py:121-124 | for any budget, the first call sees the starting transcript, and each later call follows the previous one by exactly one completed round |
| `GeneratorProperties.ConverseOutcome` | backend/ai_generator.py:99-105 | for any budget, the outcome is settled by the last call's reply, and a last call under the budget is one whose reply did not start a round |
| `GeneratorProperties.ForcedFinalCall` | backend/ai_generator.py:126-133 | 1 to 3 calls; a third call happens exactly when both rounds ran, each asked for by the call before, it carries no tools, and its text is the answer whatever its stop reason |
| `GeneratorProperties.ChainGrowth` | backend/ai_generator.py:81-124 | along any chain of calls linked by completed rounds and starting from the query, call i sees 1 + 2i turns, earlier transcripts are prefixes, and each round adds an assistant then a user turn |
| `GeneratorProperties.TranscriptGrowth` | backend/ai_generator.py:81-124 | call i sees 1 + 2i turns starting with the query, each earlier call's transcript is a prefix, and each round adds an assistant then a user turn |
| `GeneratorProperties.RoundsExecuteRequestedTools` | backend/ai_generator.py:107-124 | each completed round followed a tool_use response with a manager present, executed exactly its tool_use blocks, and the next call ends with one result per block, by id |
| `GeneratorProperties.ContinuesAnswersRound` | backend/ai_generator.py:115-123 | a transcript extended by one round ends with a user turn holding the results of exactly the executed blocks, in order |
| `GeneratorProperties.EarlyExit` | backend/ai_generator.py:99-101 | a first response that does not stop with tool_use gives one call, no tool execution, and its leading text as the answer |
| `GeneratorProperties.NoManagerNoTools` | backend/ai_generator.py:103-105 | without a tool manager exactly one call is made and no tool runs, even when the response asks for tools |
| `GeneratorProperties.EmptyToolsAsAbsent` | backend/ai_generator.py:92-94 | for any budget, an absent tool list and an empty one lead to the same exchange |
| `GeneratorProperties.HistoryInSystemText` | backend/ai_generator.py:74-78 | an absent and an empty history give the bare instructions; distinct non-empty histories give distinct system texts |
| `Scenarios.SecondCallKeepsTools` | backend/ai_generator.py:85-94 | when the first response starts a round and the tool list is non-empty, the second call carries the tools and auto tool choice again |
| `Scenarios.OneRoundThenAnswer` | backend/tests/test_ai_generator.py:137-174 | one search round then text: two calls, one executed block, and the second call sees query, assistant tool request and the tool result |
| `Scenarios.BudgetForcesToollessCall` | backend/ai_generator.py:126-133 | a model still asking for tools after two rounds gets a third call with no tools and five turns, and its text is returned |
| `Scenarios.ToolErrorFedBack` | backend/ai_generator.py:111-114 | a raising tool is answered with the error text in the next call's transcript, and the exchange still returns the model's answer |

## Left out

- The Anthropic client construction and the network call itself are not part of this model; the client is the oracle `Messages.Client`, and a transport exception is a `TransportFailure` reply that propagates uncaught.
- The pass-through request parameters (model name, temperature 0, max_tokens 800) are not modelled; a `Request` holds only the system text, transcript, tools and tool choice.
- The wording of the system prompt is replaced by a short stand-in constant; no property depends on it.
- The tool manager, the search and outline tools, the vector store and the shared "last sources" slot are not part of this model; the manager is a pure function of tool name and arguments, so a tool whose result depends on earlier executions is not captured.
- `ToolDispatch.ExecuteTools`: only `Exception` is caught (`backend/ai_generator.py:113`); a tool raising a `BaseException` that is not an `Exception` (`KeyboardInterrupt`, `SystemExit`, `GeneratorExit`) escapes the round and `generate_response` uncaught, which the model does not represent: `ToolOutcome` has no such case.
- A `**block.input` that is not a valid keyword-argument set raises inside the `try`; the model folds that into the manager's `Raised` outcome.
- Python passes the same `messages` list object to every call and keeps appending to it; the model records a value snapshot per call, so aliasing of that list is not captured.
- Content block kinds other than text and tool_use are not modelled.
- Concurrency: nothing in the generator shares state between queries.
