/** Concrete exchanges: the scripted model replies of the generator's tests,
    and what the round loop does with them. */
module Scenarios {
  import opened Messages
  import opened ToolDispatch
  import opened Generator
  import opened GeneratorProperties

  const SEARCH: string := "search_course_content"

  function SearchDef(): seq<ToolDef>
  {
    [ToolDef(SEARCH, "Search course materials", "{query, course_name?, lesson_number?}")]
  }

  function AskSearch(id: string): Reply
  {
    Delivered(Response(TOOL_USE, [ToolUse(id, SEARCH, map["query" := Str("RAG")])]))
  }

  function Say(text: string): Reply
  {
    Delivered(Response("end_turn", [Text(text)]))
  }

  /** The model asks for one search, then answers. */
  function OneRoundClient(): Client
  {
    (n: nat, r: Request) => if n == 0 then AskSearch("tool_1") else Say("Final")
  }

  /** The model asks for a search on each of the first two calls, then answers. */
  function TwoSearchesClient(): Client
  {
    (n: nat, r: Request) =>
      if n == 0 then AskSearch("tool_1") else if n == 1 then AskSearch("tool_2") else Say("Final")
  }

  /** A search tool that always returns the same text. */
  function Found(): ToolManager
  {
    (name: string, input: ToolInput) => Returned("Lesson 1 covers RAG")
  }

  /** A tool manager whose every tool raises. */
  function Broken(): ToolManager
  {
    (name: string, input: ToolInput) => Raised("index unavailable")
  }

  /** The tool results of a response with a single tool_use block. */
  lemma SingleUse(manager: ToolManager, id: string)
    ensures var content := [ToolUse(id, SEARCH, map["query" := Str("RAG")])];
            ToolUses(content) == content &&
            ToolResults(manager, content) == [ResultFor(manager, content[0])]
  {
    var content := [ToolUse(id, SEARCH, map["query" := Str("RAG")])];
    assert content[..0] == [];
  }

  /** Whenever the first response starts a round and the tool list is
      non-empty, the second call carries the tools again: tools are attached on
      every call within the round budget, not only on the first. */
  lemma SecondCallKeepsTools(client: Client, query: string, history: Option<string>,
                             tools: Option<seq<ToolDef>>, manager: Option<ToolManager>)
    requires HasTools(tools)
    requires WantsRound(client(0, FirstRequest(query, history, tools)), manager)
    ensures var t := Generate(client, query, history, tools, manager);
            |t.calls| >= 2 && t.calls[1].tools == tools && t.calls[1].toolChoice == Some(Auto)
  {
    var system := SystemContent(history);
    ConverseContinues(client, system, tools, manager, MAX_TOOL_ROUNDS, Opening(query), 0);
    ConverseRequests(client, system, tools, manager, MAX_TOOL_ROUNDS, Opening(query), 0);
    assert ToolsAsInRound(Generate(client, query, history, tools, manager).calls[1], tools, 1, MAX_TOOL_ROUNDS);
  }

  /** One tool round, then a text answer: two calls, one search executed, and
      the second call sees query, assistant tool request and tool result. */
  lemma OneRoundThenAnswer(query: string)
    ensures var t := Generate(OneRoundClient(), query, None, Some(SearchDef()), Some(Found()));
            t.outcome == Answer("Final") && |t.calls| == 2 &&
            t.rounds == [[ToolUse("tool_1", SEARCH, map["query" := Str("RAG")])]] &&
            t.calls[1].messages
              == [Turn(User, Query(query)),
                  Turn(Assistant, Blocks([ToolUse("tool_1", SEARCH, map["query" := Str("RAG")])])),
                  Turn(User, Results([ToolResult("tool_1", "Lesson 1 covers RAG")]))] &&
            t.calls[1].tools == Some(SearchDef())
  {
    var client, tools, manager := OneRoundClient(), Some(SearchDef()), Some(Found());
    var system := SystemContent(None);
    var content := [ToolUse("tool_1", SEARCH, map["query" := Str("RAG")])];
    var next := Opening(query) + RoundTurns(content, ToolResults(manager.value, content));
    SingleUse(manager.value, "tool_1");
    assert client(0, LoopRequest(system, Opening(query), tools)) == AskSearch("tool_1");
    ConverseContinues(client, system, tools, manager, MAX_TOOL_ROUNDS, Opening(query), 0);
    assert client(1, LoopRequest(system, next, tools)) == Say("Final");
    ConverseStops(client, system, tools, manager, MAX_TOOL_ROUNDS, next, 1);
  }

  /** A model still asking for tools after MAX_TOOL_ROUNDS rounds gets one last
      call without tools, and the text of that call is returned as it is. */
  lemma BudgetForcesToollessCall(query: string)
    ensures var t := Generate(TwoSearchesClient(), query, None, Some(SearchDef()), Some(Found()));
            |t.calls| == 3 && |t.rounds| == 2 &&
            t.calls[2].tools == None && t.calls[2].toolChoice == None &&
            |t.calls[2].messages| == 5 &&
            t.outcome == Answer("Final")
  {
    var client, tools, manager := TwoSearchesClient(), Some(SearchDef()), Some(Found());
    var t := Generate(client, query, None, tools, manager);
    var system := SystemContent(None);
    var content1 := [ToolUse("tool_1", SEARCH, map["query" := Str("RAG")])];
    var next1 := Opening(query) + RoundTurns(content1, ToolResults(manager.value, content1));
    var content2 := [ToolUse("tool_2", SEARCH, map["query" := Str("RAG")])];
    var next2 := next1 + RoundTurns(content2, ToolResults(manager.value, content2));
    assert client(0, LoopRequest(system, Opening(query), tools)) == AskSearch("tool_1");
    ConverseContinues(client, system, tools, manager, MAX_TOOL_ROUNDS, Opening(query), 0);
    assert client(1, LoopRequest(system, next1, tools)) == AskSearch("tool_2");
    ConverseContinues(client, system, tools, manager, MAX_TOOL_ROUNDS, next1, 1);
    assert client(2, FinalRequest(system, next2)) == Say("Final");
    assert |t.rounds| == 2;
    ForcedFinalCall(client, query, None, tools, manager);
    TranscriptGrowth(client, query, None, tools, manager, 2);
    assert t.calls[2] == FinalRequest(system, next2);
  }

  /** A tool that raises does not end the exchange: its error text is handed
      to the next call as the tool result, and the answer comes back normally. */
  lemma ToolErrorFedBack(query: string)
    ensures var t := Generate(OneRoundClient(), query, None, Some(SearchDef()), Some(Broken()));
            t.outcome == Answer("Final") && |t.calls| == 2 &&
            t.calls[1].messages[2]
              == Turn(User, Results([ToolResult("tool_1", TOOL_ERROR_PREFIX + "index unavailable")]))
  {
    var client, tools, manager := OneRoundClient(), Some(SearchDef()), Some(Broken());
    var system := SystemContent(None);
    var content := [ToolUse("tool_1", SEARCH, map["query" := Str("RAG")])];
    var results := ToolResults(manager.value, content);
    SingleUse(manager.value, "tool_1");
    assert results == [ToolResult("tool_1", TOOL_ERROR_PREFIX + "index unavailable")];
    var next := Opening(query) + RoundTurns(content, results);
    var first := LoopRequest(system, Opening(query), tools);
    var second := LoopRequest(system, next, tools);
    assert client(0, first) == AskSearch("tool_1");
    ConverseContinues(client, system, tools, manager, MAX_TOOL_ROUNDS, Opening(query), 0);
    assert client(1, second) == Say("Final");
    ConverseStops(client, system, tools, manager, MAX_TOOL_ROUNDS, next, 1);
    var t := Generate(client, query, None, tools, manager);
    assert t == Resume([first], [content], Trace(Answer("Final"), [second], []));
    assert t.calls[1].messages[2] == next[2] == Turn(User, Results(results));
  }
}
