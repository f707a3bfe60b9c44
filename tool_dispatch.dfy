/** One round of tool dispatch: every tool_use block of a response is executed
    through the tool manager, in block order, and answered by exactly one
    tool_result carrying the block's id. An `Exception` raised by a tool becomes
    the text "Tool error: <message>" and does not stop the round. */
module ToolDispatch {
  import opened Messages

  /** What `tool_manager.execute_tool(name, **input)` does: return a string or
      raise an `Exception`. */
  datatype ToolOutcome = Returned(text: string) | Raised(message: string)

  /** The tool manager as an oracle over the tool name and its keyword arguments. */
  type ToolManager = (string, ToolInput) -> ToolOutcome

  const TOOL_ERROR_PREFIX: string := "Tool error: "

  /** The tool_use blocks of `content`, in block order. */
  function ToolUses(content: seq<Block>): (uses: seq<Block>)
    ensures |uses| <= |content|
    ensures forall j :: 0 <= j < |uses| ==> uses[j].ToolUse?
  {
    if content == [] then []
    else
      var last := content[|content| - 1];
      ToolUses(content[..|content| - 1]) + (if last.ToolUse? then [last] else [])
  }

  /** The position, among the tool_use blocks, of the block at index `k`. */
  function Rank(content: seq<Block>, k: nat): nat
    requires k <= |content|
  {
    |ToolUses(content[..k])|
  }

  /** The text a tool call contributes: the tool's result, or the error text. */
  function Rendered(outcome: ToolOutcome): string
  {
    match outcome
    case Returned(text) => text
    case Raised(message) => TOOL_ERROR_PREFIX + message
  }

  /** The tool_result answering one tool_use block. */
  function ResultFor(manager: ToolManager, block: Block): (result: ToolResult)
    requires block.ToolUse?
    ensures result.toolUseId == block.id
    ensures manager(block.name, block.input).Returned? ==>
              result.content == manager(block.name, block.input).text
    ensures manager(block.name, block.input).Raised? ==>
              result.content == TOOL_ERROR_PREFIX + manager(block.name, block.input).message
  {
    ToolResult(block.id, Rendered(manager(block.name, block.input)))
  }

  /** The tool results of one round: one per tool_use block, in block order. */
  function ToolResults(manager: ToolManager, content: seq<Block>): (results: seq<ToolResult>)
    ensures |results| == |ToolUses(content)|
  {
    if content == [] then []
    else
      var last := content[|content| - 1];
      ToolResults(manager, content[..|content| - 1])
        + (if last.ToolUse? then [ResultFor(manager, last)] else [])
  }

  /** The j-th result answers the j-th tool_use block, with its id and the
      rendered outcome of the manager on its name and input. */
  lemma {:induction false} ResultsAnswerUses(manager: ToolManager, content: seq<Block>, j: nat)
    requires j < |ToolUses(content)|
    ensures ToolResults(manager, content)[j] == ResultFor(manager, ToolUses(content)[j])
    decreases |content|
  {
    var init := content[..|content| - 1];
    if j < |ToolUses(init)| {
      ResultsAnswerUses(manager, init, j);
    }
  }

  /** The dispatch loop: executes each tool_use block of `content` in order and
      collects its result; the exception of one tool is turned into an error text
      and the loop goes on. `executed` records the blocks handed to the manager. */
  method ExecuteTools(manager: ToolManager, content: seq<Block>)
    returns (results: seq<ToolResult>, executed: seq<Block>)
    ensures executed == ToolUses(content)
    ensures results == ToolResults(manager, content)
  {
    results, executed := [], [];
    for i := 0 to |content|
      invariant executed == ToolUses(content[..i])
      invariant results == ToolResults(manager, content[..i])
    {
      assert content[..i + 1][..i] == content[..i];
      var block := content[i];
      if block.ToolUse? {
        var text;
        var outcome := manager(block.name, block.input);
        if outcome.Returned? {
          text := outcome.text;
        } else {
          text := TOOL_ERROR_PREFIX + outcome.message;
        }
        executed := executed + [block];
        results := results + [ToolResult(block.id, text)];
      }
    }
    assert content[..|content|] == content;
  }

  /** Selecting tool_use blocks distributes over concatenation. */
  lemma {:induction false} ToolUsesAppend(a: seq<Block>, b: seq<Block>)
    ensures ToolUses(a + b) == ToolUses(a) + ToolUses(b)
    decreases |b|
  {
    if b == [] {
      assert a + b == a;
    } else {
      var b' := b[..|b| - 1];
      assert (a + b)[..|a + b| - 1] == a + b';
      ToolUsesAppend(a, b');
    }
  }

  /** Every tool_use block of the response is executed: the block at index `k`
      is the entry at its rank, and the rank grows strictly from one tool_use
      block to the next, so the order of the blocks is kept. */
  lemma ToolUseKeptInOrder(content: seq<Block>, k: nat)
    requires k < |content| && content[k].ToolUse?
    ensures Rank(content, k) < Rank(content, k + 1) <= |ToolUses(content)|
    ensures ToolUses(content)[Rank(content, k)] == content[k]
  {
    assert content[..k + 1][..k] == content[..k];
    assert content == content[..k + 1] + content[k + 1..];
    ToolUsesAppend(content[..k + 1], content[k + 1..]);
  }

  /** The rank never decreases along the response. */
  lemma RankMonotone(content: seq<Block>, k1: nat, k2: nat)
    requires k1 <= k2 <= |content|
    ensures Rank(content, k1) <= Rank(content, k2)
  {
    assert content[..k2] == content[..k1] + content[k1..k2];
    ToolUsesAppend(content[..k1], content[k1..k2]);
  }

  /** Nothing but tool_use blocks is executed: every entry comes from a tool_use
      block of the response whose rank is that entry's position. */
  lemma {:induction false} EveryUseFromABlock(content: seq<Block>, j: nat)
    requires j < |ToolUses(content)|
    ensures exists k :: 0 <= k < |content| && content[k].ToolUse? && Rank(content, k) == j
    decreases |content|
  {
    var n := |content| - 1;
    var init := content[..n];
    assert content[..n] == init;
    if j < |ToolUses(init)| {
      EveryUseFromABlock(init, j);
      var k :| 0 <= k < |init| && init[k].ToolUse? && Rank(init, k) == j;
      assert init[..k] == content[..k];
    } else {
      assert content[n].ToolUse? && Rank(content, n) == j;
    }
  }

  /** The result correlated with the tool_use block at index `k`: it carries the
      block's id and what the manager produced for that block's name and input. */
  lemma ResultCorrelatedById(manager: ToolManager, content: seq<Block>, k: nat)
    requires k < |content| && content[k].ToolUse?
    ensures Rank(content, k) < |ToolResults(manager, content)|
    ensures ToolResults(manager, content)[Rank(content, k)]
            == ToolResult(content[k].id, Rendered(manager(content[k].name, content[k].input)))
  {
    ToolUseKeptInOrder(content, k);
    ResultsAnswerUses(manager, content, Rank(content, k));
  }

  /** A tool that raises degrades to an error text, and every later tool_use
      block of the same round still gets its own result from the manager. */
  lemma ErrorDoesNotAbortRound(manager: ToolManager, content: seq<Block>, k: nat, later: nat)
    requires k < later < |content| && content[k].ToolUse? && content[later].ToolUse?
    requires manager(content[k].name, content[k].input).Raised?
    ensures Rank(content, k) < Rank(content, later) < |ToolResults(manager, content)|
    ensures ToolResults(manager, content)[Rank(content, k)].content
            == TOOL_ERROR_PREFIX + manager(content[k].name, content[k].input).message
    ensures ToolResults(manager, content)[Rank(content, later)]
            == ResultFor(manager, content[later])
  {
    ResultCorrelatedById(manager, content, k);
    ResultCorrelatedById(manager, content, later);
    ToolUseKeptInOrder(content, k);
    RankMonotone(content, k + 1, later);
  }
}
