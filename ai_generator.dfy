/** The bounded tool-calling loop of the response generator.

    A query is answered by at most MAX_TOOL_ROUNDS + 1 calls of the model. Each
    in-budget call carries the tool definitions (when there are any); a response
    that asks for tools, with a tool manager present, completes a round: its
    tool_use blocks are executed and the transcript grows by the assistant turn
    and a user turn holding the results. Any other response ends the exchange
    with its leading text. When the budget is spent, one last call without
    tools is made and its text returned. */
module Generator {
  import opened Messages
  import opened ToolDispatch

  /** The number of sequential tool rounds allowed per query. */
  const MAX_TOOL_ROUNDS: nat := 2

  /** Stand-in for the fixed instruction text sent as the system prompt. */
  const SYSTEM_PROMPT: string :=
    "Course materials assistant. Tools: search_course_content, get_course_outline."

  /** Placed between the instructions and the rendered history. */
  const HISTORY_HEADER: string := "\n\nPrevious conversation:\n"

  /** Why a generate_response call raises instead of returning text. */
  datatype Failure =
    | Transport(detail: string)   // the client call raised; nothing catches it
    | NoLeadingText               // `content[0].text` failed on the returned content

  datatype Outcome = Answer(text: string) | Failed(failure: Failure)

  /** Everything observable about one generate_response call: what it returns
      or raises, the requests the client received in order, and for each
      completed round the tool_use blocks handed to the tool manager. */
  datatype Trace = Trace(outcome: Outcome, calls: seq<Request>, rounds: seq<seq<Block>>)

  /** Python truthiness of the optional history string: None and "" are absent. */
  predicate HasHistory(history: Option<string>)
  {
    history.Some? && history.value != ""
  }

  /** Python truthiness of the optional tool list: None and [] are absent. */
  predicate HasTools(tools: Option<seq<ToolDef>>)
  {
    tools.Some? && tools.value != []
  }

  /** The system text sent with every call: the instructions, followed by the
      prior conversation when there is one. */
  function SystemContent(history: Option<string>): (system: string)
    ensures |SYSTEM_PROMPT| <= |system| && system[..|SYSTEM_PROMPT|] == SYSTEM_PROMPT
    ensures HasHistory(history) <==> |system| > |SYSTEM_PROMPT|
    ensures HasHistory(history) ==>
              |system| == |SYSTEM_PROMPT| + |HISTORY_HEADER| + |history.value| &&
              system[|system| - |history.value|..] == history.value &&
              system[|SYSTEM_PROMPT|..|system| - |history.value|] == HISTORY_HEADER
  {
    if HasHistory(history) then SYSTEM_PROMPT + HISTORY_HEADER + history.value
    else SYSTEM_PROMPT
  }

  /** The request of an in-budget call: tools and automatic tool choice are
      attached exactly when the tool list is non-empty. */
  function LoopRequest(system: string, messages: seq<Turn>, tools: Option<seq<ToolDef>>): (request: Request)
    ensures request.system == system && request.messages == messages
    ensures request.tools.Some? <==> HasTools(tools)
    ensures request.toolChoice == Some(Auto) <==> HasTools(tools)
    ensures request.toolChoice.None? <==> !HasTools(tools)
    ensures request.tools.Some? ==> request.tools == tools
  {
    if HasTools(tools) then Request(system, messages, tools, Some(Auto))
    else Request(system, messages, None, None)
  }

  /** The request of the forced last call: never any tools; it is the request
      an in-budget call would make with no tool list. */
  function FinalRequest(system: string, messages: seq<Turn>): (request: Request)
    ensures request == LoopRequest(system, messages, None)
    ensures request.tools.None? && request.toolChoice.None?
  {
    Request(system, messages, None, None)
  }

  /** The result of `return response.content[0].text`. */
  function Finish(content: seq<Block>): (outcome: Outcome)
    ensures outcome.Answer? <==> |content| > 0 && content[0].Text?
    ensures outcome.Answer? ==> outcome.text == content[0].text
    ensures outcome.Failed? ==> outcome.failure == NoLeadingText
  {
    match LeadingText(content)
    case Some(text) => Answer(text)
    case None => Failed(NoLeadingText)
  }

  /** The result of a call whose reply ends the exchange. */
  function Settle(reply: Reply): (outcome: Outcome)
    ensures reply.TransportFailure? ==> outcome == Failed(Transport(reply.detail))
    ensures reply.Delivered? ==> outcome == Finish(reply.response.content)
    ensures outcome.Answer? ==> reply.Delivered? && |reply.response.content| > 0 &&
                                reply.response.content[0] == Text(outcome.text)
  {
    match reply
    case Delivered(response) => Finish(response.content)
    case TransportFailure(detail) => Failed(Transport(detail))
  }

  /** Whether a reply starts a tool round: a response asking for tools, and a
      tool manager to run them. */
  predicate WantsRound(reply: Reply, manager: Option<ToolManager>)
  {
    reply.Delivered? && reply.response.stopReason == TOOL_USE && manager.Some?
  }

  /** The two turns a completed round appends: the response as the assistant
      turn, then a user turn with the tool results. */
  function RoundTurns(content: seq<Block>, results: seq<ToolResult>): seq<Turn>
  {
    [Turn(Assistant, Blocks(content)), Turn(User, Results(results))]
  }

  /** The exchange from round `round` on, with transcript `messages` and room
      for `budget` rounds in all: the outcome, the calls made from here on and the
      tool_use blocks of each later round. Under the budget the call carries the
      tools and a reply asking for them, with a manager present, completes a
      round; at the budget the call carries no tools and its reply settles the
      outcome. The budget is the class attribute MAX_TOOL_ROUNDS, which an
      instance may override; `Generate` passes the class's value. */
  function Converse(client: Client, system: string, tools: Option<seq<ToolDef>>,
                    manager: Option<ToolManager>, budget: nat, messages: seq<Turn>, round: nat): (t: Trace)
    requires round <= budget
    ensures |t.calls| == |t.rounds| + 1
    ensures round + |t.rounds| <= budget
    decreases budget - round
  {
    if round < budget then
      var request := LoopRequest(system, messages, tools);
      var reply := client(round, request);
      if !WantsRound(reply, manager) then Trace(Settle(reply), [request], [])
      else
        var content := reply.response.content;
        var rest := Converse(client, system, tools, manager, budget,
                             messages + RoundTurns(content, ToolResults(manager.value, content)),
                             round + 1);
        Trace(rest.outcome, [request] + rest.calls, [ToolUses(content)] + rest.rounds)
    else
      var request := FinalRequest(system, messages);
      Trace(Settle(client(round, request)), [request], [])
  }

  /** The transcript a query starts with. */
  function Opening(query: string): seq<Turn>
  {
    [Turn(User, Query(query))]
  }

  /** The whole exchange of one generate_response call. */
  function Generate(client: Client, query: string, history: Option<string>,
                    tools: Option<seq<ToolDef>>, manager: Option<ToolManager>): (t: Trace)
    ensures 1 <= |t.calls| <= MAX_TOOL_ROUNDS + 1 && |t.rounds| == |t.calls| - 1
    ensures t.calls[0] == LoopRequest(SystemContent(history), Opening(query), tools)
  {
    Converse(client, SystemContent(history), tools, manager, MAX_TOOL_ROUNDS, Opening(query), 0)
  }

  /** `t` preceded by calls and rounds that already happened. */
  function Resume(calls: seq<Request>, rounds: seq<seq<Block>>, t: Trace): Trace
  {
    Trace(t.outcome, calls + t.calls, rounds + t.rounds)
  }

  /** One in-budget call whose reply ends the exchange. */
  lemma ConverseStops(client: Client, system: string, tools: Option<seq<ToolDef>>,
                      manager: Option<ToolManager>, budget: nat, messages: seq<Turn>, round: nat)
    requires round < budget
    requires !WantsRound(client(round, LoopRequest(system, messages, tools)), manager)
    ensures Converse(client, system, tools, manager, budget, messages, round)
            == Trace(Settle(client(round, LoopRequest(system, messages, tools))),
                     [LoopRequest(system, messages, tools)], [])
  {
  }

  /** One in-budget call that completes a round and hands over to the next. */
  lemma ConverseContinues(client: Client, system: string, tools: Option<seq<ToolDef>>,
                          manager: Option<ToolManager>, budget: nat, messages: seq<Turn>, round: nat)
    requires round < budget
    requires WantsRound(client(round, LoopRequest(system, messages, tools)), manager)
    ensures var content := client(round, LoopRequest(system, messages, tools)).response.content;
            Converse(client, system, tools, manager, budget, messages, round)
            == Resume([LoopRequest(system, messages, tools)], [ToolUses(content)],
                      Converse(client, system, tools, manager, budget,
                               messages + RoundTurns(content, ToolResults(manager.value, content)),
                               round + 1))
  {
  }

  /** Resuming twice is resuming once with the histories joined. */
  lemma ResumeTwice(calls: seq<Request>, rounds: seq<seq<Block>>,
                    calls': seq<Request>, rounds': seq<seq<Block>>, t: Trace)
    ensures Resume(calls, rounds, Resume(calls', rounds', t))
            == Resume(calls + calls', rounds + rounds', t)
  {
    assert calls + (calls' + t.calls) == (calls + calls') + t.calls;
    assert rounds + (rounds' + t.rounds) == (rounds + rounds') + t.rounds;
  }

  /** generate_response: the round loop with its counter and in-place transcript,
      the tool dispatch of each round, and the forced last call. `calls` and
      `rounds` record what the client and the tool manager received. */
  method GenerateResponse(client: Client, query: string, history: Option<string>,
                          tools: Option<seq<ToolDef>>, manager: Option<ToolManager>)
    returns (outcome: Outcome, calls: seq<Request>, rounds: seq<seq<Block>>)
    ensures Trace(outcome, calls, rounds) == Generate(client, query, history, tools, manager)
    ensures 1 <= |calls| <= MAX_TOOL_ROUNDS + 1 && |rounds| == |calls| - 1
  {
    var system := SystemContent(history);
    var messages := Opening(query);
    var roundCount := 0;
    calls, rounds := [], [];
    while roundCount < MAX_TOOL_ROUNDS
      invariant roundCount <= MAX_TOOL_ROUNDS
      invariant |calls| == |rounds| == roundCount
      invariant Generate(client, query, history, tools, manager)
                == Resume(calls, rounds, Converse(client, system, tools, manager, MAX_TOOL_ROUNDS, messages, roundCount))
    {
      var request := LoopRequest(system, messages, tools);
      var reply := client(roundCount, request);
      if !WantsRound(reply, manager) {
        ConverseStops(client, system, tools, manager, MAX_TOOL_ROUNDS, messages, roundCount);
      } else {
        ConverseContinues(client, system, tools, manager, MAX_TOOL_ROUNDS, messages, roundCount);
      }
      ghost var previous := calls;
      calls := calls + [request];
      if reply.TransportFailure? {
        outcome := Failed(Transport(reply.detail));
        return;
      }
      var response := reply.response;
      if response.stopReason != TOOL_USE {
        outcome := Finish(response.content);
        return;
      }
      if manager.None? {
        outcome := Finish(response.content);
        return;
      }
      var toolResults, executed := ExecuteTools(manager.value, response.content);
      ghost var before := messages;
      messages := messages + [Turn(Assistant, Blocks(response.content))];
      messages := messages + [Turn(User, Results(toolResults))];
      assert messages == before + RoundTurns(response.content, toolResults);
      ResumeTwice(previous, rounds, [request], [executed],
                  Converse(client, system, tools, manager, MAX_TOOL_ROUNDS, messages, roundCount + 1));
      rounds := rounds + [executed];
      roundCount := roundCount + 1;
    }
    var request := FinalRequest(system, messages);
    var reply := client(roundCount, request);
    calls := calls + [request];
    outcome := Settle(reply);
  }
}
