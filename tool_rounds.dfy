/** What one tool round does to the conversation: run every requested tool, collect the results. */
module ToolRounds {
  import opened Messages

  /** Prefix of the content of a tool result whose call raised. */
  const ErrorPrefix: string := "Error executing tool: "

  /** The message Python gives when `execute_tool` is looked up on a missing (None) tool manager. */
  const NoManagerError: string := "'NoneType' object has no attribute 'execute_tool'"

  /** One `tool_manager.execute_tool(name, **input)` call; with no manager the lookup itself raises. */
  function Invoke(manager: Option<ToolManager>, name: string, input: Args): ToolOutcome
  {
    match manager
    case None => Raised(NoManagerError)
    case Some(m) => m.execute(name, input)
  }

  /** The result block recorded for one tool-use block, whether its call returned or raised. */
  function ResultOf(manager: Option<ToolManager>, block: Block): ToolResult
    requires block.ToolUse?
  {
    match Invoke(manager, block.name, block.input)
    case Returned(text) => ToolResult(block.id, text, false)
    case Raised(e) => ToolResult(block.id, ErrorPrefix + e, true)
  }

  /** The tool-use blocks of a reply, in order. */
  function ToolUses(content: seq<Block>): (uses: seq<Block>)
    ensures |uses| <= |content|
    ensures forall k | 0 <= k < |uses| :: uses[k].ToolUse?
  {
    if content == [] then []
    else if content[0].ToolUse? then [content[0]] + ToolUses(content[1..])
    else ToolUses(content[1..])
  }

  /** The results a round collects, block by block. */
  function Results(content: seq<Block>, manager: Option<ToolManager>): seq<ToolResult>
  {
    if content == [] then []
    else
      var head := if content[0].ToolUse? then [ResultOf(manager, content[0])] else [];
      head + Results(content[1..], manager)
  }

  /** Whether some tool-use block of the reply had a call that returned without raising. */
  predicate AnySucceeded(content: seq<Block>, manager: Option<ToolManager>)
  {
    exists i | 0 <= i < |content| ::
      content[i].ToolUse? && Invoke(manager, content[i].name, content[i].input).Returned?
  }

  /** The message list after a round: the assistant's reply, then the results if there are any. */
  function AfterRound(messages: seq<Message>, content: seq<Block>, manager: Option<ToolManager>): seq<Message>
  {
    var results := Results(content, manager);
    messages + [Message(Assistant, Blocks(content))]
      + (if results == [] then [] else [Message(User, ToolResults(results))])
  }

  /** Collecting results distributes over concatenation of replies. */
  lemma {:induction false} ResultsConcat(a: seq<Block>, b: seq<Block>, manager: Option<ToolManager>)
    ensures Results(a + b, manager) == Results(a, manager) + Results(b, manager)
  {
    if a == [] {
      assert a + b == b;
    } else {
      assert (a + b)[0] == a[0] && (a + b)[1..] == a[1..] + b;
      ResultsConcat(a[1..], b, manager);
    }
  }

  /** One result per tool-use block, in block order, each carrying its block's id; text blocks give none. */
  lemma {:induction false} ResultsCorrespond(content: seq<Block>, manager: Option<ToolManager>)
    ensures |Results(content, manager)| == |ToolUses(content)|
    ensures forall k | 0 <= k < |ToolUses(content)| ::
      Results(content, manager)[k] == ResultOf(manager, ToolUses(content)[k])
      && Results(content, manager)[k].toolUseId == ToolUses(content)[k].id
  {
    if content != [] {
      var rest := content[1..];
      ResultsCorrespond(rest, manager);
      if content[0].ToolUse? {
        assert Results(content, manager) == [ResultOf(manager, content[0])] + Results(rest, manager);
        assert ToolUses(content) == [content[0]] + ToolUses(rest);
      } else {
        assert Results(content, manager) == [] + Results(rest, manager) == Results(rest, manager);
        assert ToolUses(content) == ToolUses(rest);
      }
    }
  }

  /** Every tool use of a reply is one of its blocks. */
  lemma {:induction false} ToolUsesIn(content: seq<Block>)
    ensures forall k | 0 <= k < |ToolUses(content)| :: ToolUses(content)[k] in content
  {
    if content != [] {
      ToolUsesIn(content[1..]);
      forall k | 0 <= k < |ToolUses(content)| ensures ToolUses(content)[k] in content {
        if content[0].ToolUse? && k > 0 {
          assert ToolUses(content)[k] == ToolUses(content[1..])[k - 1];
        } else if !content[0].ToolUse? {
          assert ToolUses(content)[k] == ToolUses(content[1..])[k];
        }
      }
    }
  }

  /** A round yields no result at all exactly when its reply holds no tool-use block. */
  lemma ResultsEmptyIff(content: seq<Block>, manager: Option<ToolManager>)
    ensures Results(content, manager) == [] <==> forall i | 0 <= i < |content| :: !content[i].ToolUse?
  {
    ResultsCorrespond(content, manager);
    if Results(content, manager) == [] {
      forall i | 0 <= i < |content| ensures !content[i].ToolUse? {
        if content[i].ToolUse? {
          ToolUsesContains(content, i);
        }
      }
    } else {
      ToolUsesIn(content);
      var b := ToolUses(content)[0];
      assert b in content;
    }
  }

  /** Every tool-use block of a reply appears among its tool uses. */
  lemma {:induction false} ToolUsesContains(content: seq<Block>, i: nat)
    requires i < |content| && content[i].ToolUse?
    ensures ToolUses(content) != []
  {
    if i > 0 && !content[0].ToolUse? {
      ToolUsesContains(content[1..], i - 1);
    }
  }

  /**
   * Failure isolation: a block whose call raises becomes an error result carrying the prefixed
   * message, and the blocks before and after it are handled exactly as without it.
   */
  lemma FailureIsolation(before: seq<Block>, block: Block, after: seq<Block>, manager: Option<ToolManager>)
    requires block.ToolUse? && Invoke(manager, block.name, block.input).Raised?
    ensures Results(before + [block] + after, manager)
      == Results(before, manager)
         + [ToolResult(block.id, ErrorPrefix + Invoke(manager, block.name, block.input).error, true)]
         + Results(after, manager)
  {
    ResultsConcat(before + [block], after, manager);
    ResultsConcat(before, [block], manager);
    assert Results([block], manager) == [ResultOf(manager, block)] + Results([], manager);
  }

  /** The round's success flag holds exactly when some collected result is not an error. */
  lemma SucceededIffNonErrorResult(content: seq<Block>, manager: Option<ToolManager>)
    ensures AnySucceeded(content, manager)
      <==> exists k | 0 <= k < |Results(content, manager)| :: !Results(content, manager)[k].isError
  {
    ResultsCorrespond(content, manager);
    var rs, uses := Results(content, manager), ToolUses(content);
    if AnySucceeded(content, manager) {
      var i :| 0 <= i < |content| && content[i].ToolUse?
        && Invoke(manager, content[i].name, content[i].input).Returned?;
      var k := UseIndex(content, i);
      assert !rs[k].isError;
    }
    if k :| 0 <= k < |rs| && !rs[k].isError {
      ToolUsesIn(content);
      var b := uses[k];
      assert b in content;
      var i :| 0 <= i < |content| && content[i] == b;
      assert Invoke(manager, content[i].name, content[i].input).Returned?;
    }
  }

  /** The position among the tool uses of the tool-use block at position i of the reply. */
  lemma {:induction false} UseIndex(content: seq<Block>, i: nat) returns (k: nat)
    requires i < |content| && content[i].ToolUse?
    ensures k < |ToolUses(content)| && ToolUses(content)[k] == content[i]
  {
    if i == 0 {
      k := 0;
    } else {
      var k' := UseIndex(content[1..], i - 1);
      k := if content[0].ToolUse? then k' + 1 else k';
    }
  }
}
