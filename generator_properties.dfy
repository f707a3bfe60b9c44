/** What the round loop guarantees about every exchange: the calls it makes,
    the transcript each call carries, when tools are attached, which tools run,
    and what is returned. */
module GeneratorProperties {
  import opened Messages
  import opened ToolDispatch
  import opened Generator

  /** Call `next` follows call `prev` (the call numbered `n`) by one completed
      round: `prev` got a tool-requesting response with a manager present, the
      round executed exactly that response's tool_use blocks, and `next`'s
      transcript is `prev`'s plus the assistant turn and the tool results. */
  predicate Continues(client: Client, manager: Option<ToolManager>, n: nat,
                      prev: Request, next: Request, executed: seq<Block>)
  {
    var reply := client(n, prev);
    WantsRound(reply, manager) &&
    executed == ToolUses(reply.response.content) &&
    next.messages == prev.messages
                     + RoundTurns(reply.response.content,
                                  ToolResults(manager.value, reply.response.content))
  }

  /** The tool parameters of a call made in round `round`: tools and automatic
      tool choice while under the budget and the list is non-empty, else none. */
  predicate ToolsAsInRound(request: Request, tools: Option<seq<ToolDef>>, round: nat, budget: nat)
  {
    if round < budget && HasTools(tools)
    then request.tools == tools && request.toolChoice == Some(Auto)
    else request.tools == None && request.toolChoice == None
  }

  /** Every call from round `round` on carries the same system text, and the
      tools that its position in the budget allows. */
  lemma {:induction false} ConverseRequests(client: Client, system: string,
      tools: Option<seq<ToolDef>>, manager: Option<ToolManager>, budget: nat, messages: seq<Turn>, round: nat)
    requires round <= budget
    ensures var t := Converse(client, system, tools, manager, budget, messages, round);
            forall i :: 0 <= i < |t.calls| ==>
              t.calls[i].system == system && ToolsAsInRound(t.calls[i], tools, round + i, budget)
    decreases budget - round
  {
    var t := Converse(client, system, tools, manager, budget, messages, round);
    if round < budget {
      var request := LoopRequest(system, messages, tools);
      var reply := client(round, request);
      if WantsRound(reply, manager) {
        var content := reply.response.content;
        var next := messages + RoundTurns(content, ToolResults(manager.value, content));
        ConverseContinues(client, system, tools, manager, budget, messages, round);
        ConverseRequests(client, system, tools, manager, budget, next, round + 1);
        var rest := Converse(client, system, tools, manager, budget, next, round + 1);
        assert t.calls == [request] + rest.calls;
        forall i | 1 <= i < |t.calls|
          ensures t.calls[i].system == system && ToolsAsInRound(t.calls[i], tools, round + i, budget)
        {
          assert t.calls[i] == rest.calls[i - 1];
        }
      } else {
        ConverseStops(client, system, tools, manager, budget, messages, round);
      }
    }
  }

  /** Consecutive calls, the first numbered `first`, each linked to the one
      before it by a completed round. */
  predicate Linked(client: Client, manager: Option<ToolManager>, first: nat,
                   calls: seq<Request>, rounds: seq<seq<Block>>)
  {
    |rounds| + 1 == |calls| &&
    forall i :: 1 <= i < |calls| ==>
      Continues(client, manager, first + i - 1, calls[i - 1], calls[i], rounds[i - 1])
  }

  /** A call that a completed round links to the head of a chain extends it. */
  lemma LinkedCons(client: Client, manager: Option<ToolManager>, first: nat,
                   request: Request, executed: seq<Block>,
                   calls: seq<Request>, rounds: seq<seq<Block>>)
    requires Linked(client, manager, first + 1, calls, rounds)
    requires Continues(client, manager, first, request, calls[0], executed)
    ensures Linked(client, manager, first, [request] + calls, [executed] + rounds)
  {
    var calls', rounds' := [request] + calls, [executed] + rounds;
    forall i | 2 <= i < |calls'|
      ensures Continues(client, manager, first + i - 1, calls'[i - 1], calls'[i], rounds'[i - 1])
    {
      assert calls'[i] == calls[i - 1] && calls'[i - 1] == calls[i - 2];
      assert Continues(client, manager, first + 1 + (i - 1) - 1, calls[i - 2], calls[i - 1], rounds[i - 2]);
    }
  }

  /** The transcript of the first call is `messages`, and each later call
      continues the one before it by exactly one completed round. */
  lemma {:induction false} ConverseTranscript(client: Client, system: string,
      tools: Option<seq<ToolDef>>, manager: Option<ToolManager>, budget: nat, messages: seq<Turn>, round: nat)
    requires round <= budget
    ensures var t := Converse(client, system, tools, manager, budget, messages, round);
            t.calls[0].messages == messages && Linked(client, manager, round, t.calls, t.rounds)
    decreases budget - round
  {
    if round < budget {
      var request := LoopRequest(system, messages, tools);
      var reply := client(round, request);
      if WantsRound(reply, manager) {
        var content := reply.response.content;
        var next := messages + RoundTurns(content, ToolResults(manager.value, content));
        ConverseContinues(client, system, tools, manager, budget, messages, round);
        ConverseTranscript(client, system, tools, manager, budget, next, round + 1);
        var rest := Converse(client, system, tools, manager, budget, next, round + 1);
        LinkedCons(client, manager, round, request, ToolUses(content), rest.calls, rest.rounds);
      } else {
        ConverseStops(client, system, tools, manager, budget, messages, round);
      }
    }
  }

  /** Calls made before `t` do not change its last call or its outcome. */
  lemma ResumeLast(calls: seq<Request>, rounds: seq<seq<Block>>, t: Trace)
    requires |t.calls| > 0
    ensures var r := Resume(calls, rounds, t);
            r.outcome == t.outcome && |r.calls| == |calls| + |t.calls| &&
            r.calls[|r.calls| - 1] == t.calls[|t.calls| - 1]
  {
  }

  /** What the exchange returns is settled by its last call: that call's reply
      (its leading text, or the failure it raises). A last call made under the
      budget is one whose reply did not start a round. */
  lemma {:induction false} ConverseOutcome(client: Client, system: string,
      tools: Option<seq<ToolDef>>, manager: Option<ToolManager>, budget: nat, messages: seq<Turn>, round: nat)
    requires round <= budget
    ensures var t := Converse(client, system, tools, manager, budget, messages, round);
            var last := |t.calls| - 1;
            t.outcome == Settle(client(round + last, t.calls[last])) &&
            (round + last < budget ==> !WantsRound(client(round + last, t.calls[last]), manager))
    decreases budget - round
  {
    if round < budget {
      var request := LoopRequest(system, messages, tools);
      var reply := client(round, request);
      if WantsRound(reply, manager) {
        var content := reply.response.content;
        var next := messages + RoundTurns(content, ToolResults(manager.value, content));
        ConverseContinues(client, system, tools, manager, budget, messages, round);
        ConverseOutcome(client, system, tools, manager, budget, next, round + 1);
        ResumeLast([request], [ToolUses(content)],
                   Converse(client, system, tools, manager, budget, next, round + 1));
      } else {
        ConverseStops(client, system, tools, manager, budget, messages, round);
      }
    }
  }

  /** The request of the first call of a query. */
  function FirstRequest(query: string, history: Option<string>, tools: Option<seq<ToolDef>>): Request
  {
    LoopRequest(SystemContent(history), Opening(query), tools)
  }

  /** Call budget: one to MAX_TOOL_ROUNDS + 1 calls, one per completed round
      plus the call that ends the exchange; the (MAX_TOOL_ROUNDS + 1)-th call
      happens exactly when every round of the budget was used, each because the
      call before asked for tools, and it carries no tools whatever the query's
      tool list is. The answer is that call's text, whatever its stop reason. */
  lemma ForcedFinalCall(client: Client, query: string, history: Option<string>,
                        tools: Option<seq<ToolDef>>, manager: Option<ToolManager>)
    ensures var t := Generate(client, query, history, tools, manager);
            1 <= |t.calls| <= MAX_TOOL_ROUNDS + 1 &&
            (|t.calls| == MAX_TOOL_ROUNDS + 1 <==> |t.rounds| == MAX_TOOL_ROUNDS) &&
            (|t.calls| == MAX_TOOL_ROUNDS + 1 ==>
               (forall i :: 0 <= i < MAX_TOOL_ROUNDS ==> WantsRound(client(i, t.calls[i]), manager)) &&
               t.calls[MAX_TOOL_ROUNDS].tools == None &&
               t.calls[MAX_TOOL_ROUNDS].toolChoice == None &&
               t.outcome == Settle(client(MAX_TOOL_ROUNDS, t.calls[MAX_TOOL_ROUNDS])))
  {
    var system := SystemContent(history);
    var t := Generate(client, query, history, tools, manager);
    ConverseRequests(client, system, tools, manager, MAX_TOOL_ROUNDS, Opening(query), 0);
    ConverseTranscript(client, system, tools, manager, MAX_TOOL_ROUNDS, Opening(query), 0);
    ConverseOutcome(client, system, tools, manager, MAX_TOOL_ROUNDS, Opening(query), 0);
    if |t.calls| == MAX_TOOL_ROUNDS + 1 {
      forall i | 0 <= i < MAX_TOOL_ROUNDS
        ensures WantsRound(client(i, t.calls[i]), manager)
      {
        assert Continues(client, manager, i, t.calls[i], t.calls[i + 1], t.rounds[i]);
      }
    }
  }

  /** Call `i` sees the query followed by `i` rounds of two turns each,
      assistant then user, and every earlier call's transcript is a prefix of it. */
  predicate GrownTranscript(calls: seq<Request>, query: string, i: nat)
    requires i < |calls|
  {
    |calls[i].messages| == 1 + 2 * i &&
    calls[i].messages[..1] == Opening(query) &&
    forall j :: 0 <= j <= i ==>
      calls[i].messages[..1 + 2 * j] == calls[j].messages &&
      (j < i ==> calls[i].messages[1 + 2 * j].role == Assistant &&
                 calls[i].messages[2 + 2 * j].role == User)
  }

  /** Along a chain of calls starting from the query alone, call `i` sees the
      query followed by `i` rounds of two turns each, assistant then user, and
      every earlier call's transcript is a prefix of it. */
  lemma {:induction false} ChainGrowth(client: Client, manager: Option<ToolManager>,
                                       calls: seq<Request>, rounds: seq<seq<Block>>,
                                       query: string, i: nat)
    requires Linked(client, manager, 0, calls, rounds) && i < |calls|
    requires calls[0].messages == Opening(query)
    ensures GrownTranscript(calls, query, i)
  {
    if i > 0 {
      ChainGrowth(client, manager, calls, rounds, query, i - 1);
      assert Continues(client, manager, i - 1, calls[i - 1], calls[i], rounds[i - 1]);
      var prev := calls[i - 1].messages;
      assert calls[i].messages[..|prev|] == prev;
      forall j | 0 <= j <= i
        ensures calls[i].messages[..1 + 2 * j] == calls[j].messages
      {
        if j < i {
          assert calls[i].messages[..1 + 2 * j] == prev[..1 + 2 * j];
        }
      }
    }
  }

  /** Transcript growth: call `i` sees the query followed by `i` rounds of two
      turns each, assistant then user; earlier turns are never changed. */
  lemma TranscriptGrowth(client: Client, query: string, history: Option<string>,
                         tools: Option<seq<ToolDef>>, manager: Option<ToolManager>, i: nat)
    requires i < |Generate(client, query, history, tools, manager).calls|
    ensures GrownTranscript(Generate(client, query, history, tools, manager).calls, query, i)
  {
    var t := Generate(client, query, history, tools, manager);
    ConverseTranscript(client, SystemContent(history), tools, manager, MAX_TOOL_ROUNDS, Opening(query), 0);
    assert Linked(client, manager, 0, t.calls, t.rounds);
    ChainGrowth(client, manager, t.calls, t.rounds, query, i);
  }

  /** Each completed round executes exactly the tool_use blocks of the response
      that asked for it, and the next call's last turn is the user turn with one
      tool_result per executed block, in the same order and correlated by id. */
  lemma RoundsExecuteRequestedTools(client: Client, query: string, history: Option<string>,
                                    tools: Option<seq<ToolDef>>, manager: Option<ToolManager>, i: nat)
    requires i < |Generate(client, query, history, tools, manager).rounds|
    ensures var t := Generate(client, query, history, tools, manager);
            RoundAnswered(client, manager, i, t.calls[i], t.calls[i + 1], t.rounds[i])
  {
    var t := Generate(client, query, history, tools, manager);
    ConverseTranscript(client, SystemContent(history), tools, manager, MAX_TOOL_ROUNDS, Opening(query), 0);
    ContinuesAnswersRound(client, manager, i, t.calls[i], t.calls[i + 1], t.rounds[i]);
  }

  /** Round `n` ran through `prev`'s response: the response asked for tools, a
      manager was present, exactly its tool_use blocks were executed, and the
      last turn of `next` is a user turn with one result per executed block, in
      the same order, each carrying that block's id. */
  predicate RoundAnswered(client: Client, manager: Option<ToolManager>, n: nat,
                          prev: Request, next: Request, executed: seq<Block>)
  {
    var reply := client(n, prev);
    reply.Delivered? && reply.response.stopReason == TOOL_USE && manager.Some? &&
    executed == ToolUses(reply.response.content) &&
    |next.messages| >= 2 &&
    var last := next.messages[|next.messages| - 1];
    last.role == User && last.content.Results? &&
    |last.content.results| == |executed| &&
    forall j :: 0 <= j < |executed| ==>
      last.content.results[j].toolUseId == executed[j].id &&
      last.content.results[j] == ResultFor(manager.value, executed[j])
  }

  lemma ContinuesAnswersRound(client: Client, manager: Option<ToolManager>, n: nat,
                              prev: Request, next: Request, executed: seq<Block>)
    requires Continues(client, manager, n, prev, next, executed)
    ensures RoundAnswered(client, manager, n, prev, next, executed)
  {
    var content := client(n, prev).response.content;
    var results := ToolResults(manager.value, content);
    assert next.messages == prev.messages + RoundTurns(content, results);
    assert next.messages[|next.messages| - 1] == Turn(User, Results(results));
    forall j | 0 <= j < |executed|
      ensures results[j] == ResultFor(manager.value, executed[j])
    {
      ResultsAnswerUses(manager.value, content, j);
    }
  }

  /** A first response that does not ask for tools ends the exchange at once:
      one call, no tool executed, and its leading text is the answer. */
  lemma EarlyExit(client: Client, query: string, history: Option<string>,
                  tools: Option<seq<ToolDef>>, manager: Option<ToolManager>)
    requires client(0, FirstRequest(query, history, tools)).Delivered?
    requires client(0, FirstRequest(query, history, tools)).response.stopReason != TOOL_USE
    ensures var t := Generate(client, query, history, tools, manager);
            t.calls == [FirstRequest(query, history, tools)] && t.rounds == [] &&
            t.outcome == Finish(client(0, FirstRequest(query, history, tools)).response.content)
  {
    ConverseStops(client, SystemContent(history), tools, manager, MAX_TOOL_ROUNDS, Opening(query), 0);
  }

  /** Without a tool manager no tool ever runs: the exchange ends after the
      first call, whether or not that response asks for tools. */
  lemma NoManagerNoTools(client: Client, query: string, history: Option<string>,
                         tools: Option<seq<ToolDef>>)
    ensures var t := Generate(client, query, history, tools, None);
            t.calls == [FirstRequest(query, history, tools)] && t.rounds == [] &&
            t.outcome == Settle(client(0, FirstRequest(query, history, tools)))
  {
    ConverseStops(client, SystemContent(history), tools, None, MAX_TOOL_ROUNDS, Opening(query), 0);
  }

  /** An absent tool list and an empty one lead to the same exchange. */
  lemma {:induction false} EmptyToolsAsAbsent(client: Client, system: string,
      manager: Option<ToolManager>, budget: nat, messages: seq<Turn>, round: nat)
    requires round <= budget
    ensures Converse(client, system, None, manager, budget, messages, round)
            == Converse(client, system, Some([]), manager, budget, messages, round)
    decreases budget - round
  {
    if round < budget {
      assert LoopRequest(system, messages, None) == LoopRequest(system, messages, Some([]));
      var reply := client(round, LoopRequest(system, messages, None));
      if WantsRound(reply, manager) {
        var content := reply.response.content;
        ConverseContinues(client, system, None, manager, budget, messages, round);
        ConverseContinues(client, system, Some([]), manager, budget, messages, round);
        EmptyToolsAsAbsent(client, system, manager, budget,
                           messages + RoundTurns(content, ToolResults(manager.value, content)), round + 1);
      } else {
        ConverseStops(client, system, None, manager, budget, messages, round);
        ConverseStops(client, system, Some([]), manager, budget, messages, round);
      }
    }
  }

  /** An absent history and an empty one give the same system text, and two
      non-empty histories give the same system text only when they are equal. */
  lemma HistoryInSystemText(h1: string, h2: string)
    ensures SystemContent(None) == SystemContent(Some("")) == SYSTEM_PROMPT
    ensures h1 != "" && h2 != "" && SystemContent(Some(h1)) == SystemContent(Some(h2)) ==> h1 == h2
  {
    if h1 != "" && h2 != "" && SystemContent(Some(h1)) == SystemContent(Some(h2)) {
      var s := SystemContent(Some(h1));
      var prefix := |SYSTEM_PROMPT| + |HISTORY_HEADER|;
      assert h1 == s[prefix..];
      assert h2 == s[prefix..];
    }
  }
}
