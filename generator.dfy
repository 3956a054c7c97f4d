/**
 * The answer generator as it runs: a client object that records every request it is sent, and
 * the generator's methods, each proved to follow the loop specification.
 */
module Generator {
  import opened Messages
  import opened ToolRounds
  import opened Orchestration

  /**
   * The language-model client. Its replies are given by `respond`, indexed by the number of calls
   * made before; `calls` records every request in order.
   */
  class Client {
    const respond: (nat, Request) -> CallOutcome
    var calls: seq<Request>

    constructor (respond: (nat, Request) -> CallOutcome)
      ensures this.respond == respond && calls == []
    {
      this.respond := respond;
      calls := [];
    }

    /** One `messages.create` call. */
    method Create(request: Request) returns (reply: CallOutcome)
      modifies this
      ensures calls == old(calls) + [request]
      ensures reply == respond(|old(calls)|, request)
    {
      reply := respond(|calls|, request);
      calls := calls + [request];
    }
  }

  class AIGenerator {
    const client: Client

    constructor (client: Client)
      ensures this.client == client
    {
      this.client := client;
    }

    /**
     * Runs the tool-calling loop for one query: the calls it sends and the outcome it reaches are
     * those of the specification `Generate`.
     */
    method GenerateResponse(query: string, history: Option<string>, manager: Option<ToolManager>,
                            maxRounds: int) returns (out: Outcome)
      modifies client
      ensures var t := Generate(client.respond, |old(client.calls)|, query, history, manager, maxRounds);
        out == t.outcome && client.calls == old(client.calls) + t.calls
    {
      ghost var s := Configure(client.respond, history, manager, maxRounds);
      ghost var spec := Loop(s, |client.calls|, Start(query), 0, false);
      var system := SystemText(history);
      var tools := Attached(manager);
      var messages := Start(query);
      var round := 0;
      var succeeded := false;
      while round < maxRounds
        invariant 0 <= round <= Max0(maxRounds)
        invariant Follows(s, spec, old(client.calls), client.calls, messages, round, succeeded)
        decreases maxRounds - round
      {
        ghost var before := client.calls;
        var request := Request(messages, system, tools, if tools.Some? then Some(Auto) else None);
        var reply := client.Create(request);
        StepFollows(s, spec, old(client.calls), before, messages, round, succeeded);
        match reply
        case Failed(e) =>
          return Error(e);
        case Replied(response) =>
          if response.stopReason == ToolUseStop {
            var roundSucceeded;
            messages, roundSucceeded := ExecuteToolsAndUpdateMessages(response, messages, manager);
            if roundSucceeded {
              succeeded := true;
            }
            round := round + 1;
          } else {
            return FirstText(response.content);
          }
      }
      StepFollows(s, spec, old(client.calls), client.calls, messages, round, succeeded);
      var answer := GetFinalResponse(messages, system, succeeded);
      out := Answer(answer);
    }

    /**
     * One tool round: copies the message list, appends the assistant's reply, runs every tool-use
     * block in order (a raising call becomes an error result and does not stop the others) and
     * appends one user message with all the results, if there are any.
     */
    method ExecuteToolsAndUpdateMessages(response: Response, messages: seq<Message>, manager: Option<ToolManager>)
      returns (newMessages: seq<Message>, anySucceeded: bool)
      ensures newMessages == AfterRound(messages, response.content, manager)
      ensures newMessages[..|messages|] == messages
      ensures newMessages[|messages|] == Message(Assistant, Blocks(response.content))
      ensures |newMessages| == |messages| + 2 <==> exists i | 0 <= i < |response.content| :: response.content[i].ToolUse?
      ensures |newMessages| == |messages| + 1 <==> forall i | 0 <= i < |response.content| :: !response.content[i].ToolUse?
      ensures anySucceeded <==> exists i | 0 <= i < |response.content| ::
        response.content[i].ToolUse?
        && Invoke(manager, response.content[i].name, response.content[i].input).Returned?
    {
      newMessages := messages + [Message(Assistant, Blocks(response.content))];
      var toolResults: seq<ToolResult> := [];
      anySucceeded := false;
      for i := 0 to |response.content|
        invariant toolResults == Results(response.content[..i], manager)
        invariant anySucceeded <==> AnySucceeded(response.content[..i], manager)
      {
        var block := response.content[i];
        if block.ToolUse? {
          match Invoke(manager, block.name, block.input)
          case Returned(text) =>
            toolResults := toolResults + [ToolResult(block.id, text, false)];
            anySucceeded := true;
          case Raised(e) =>
            toolResults := toolResults + [ToolResult(block.id, ErrorPrefix + e, true)];
        }
        StepRound(response.content, i, manager);
      }
      assert response.content[..|response.content|] == response.content;
      if toolResults != [] {
        newMessages := newMessages + [Message(User, ToolResults(toolResults))];
      }
      ResultsEmptyIff(response.content, manager);
    }

    /**
     * The forced final call, sent without tools; if it or its text fails, answers with the fallback
     * that the success flag selects.
     */
    method GetFinalResponse(messages: seq<Message>, system: string, succeeded: bool) returns (answer: string)
      modifies client
      ensures client.calls == old(client.calls) + [FinalRequest(messages, system)]
      ensures answer == FinalAnswer(client.respond(|old(client.calls)|, FinalRequest(messages, system)), succeeded)
    {
      var reply := client.Create(Request(messages, system, None, None));
      if reply.Replied? && reply.response.content != [] && reply.response.content[0].Text? {
        answer := reply.response.content[0].text;
      } else if succeeded {
        answer := FoundSomeInformation;
      } else {
        answer := TroubleAccessing;
      }
    }
  }

  /**
   * The run so far agrees with the specified run `spec` from call number |start|: one call per
   * round so far, the calls made after `start` followed by the rest of the loop from the current
   * state are the specified calls, and the rest ends with the specified success flag.
   */
  ghost predicate Follows(s: Setup, spec: Run, start: seq<Request>, calls: seq<Request>,
                          messages: seq<Message>, round: int, succeeded: bool)
  {
    var rest := Loop(s, |calls|, messages, round, succeeded);
    && 0 <= round && |calls| == |start| + round
    && start + spec.calls == calls + rest.calls
    && spec.succeeded == rest.succeeded
  }

  /** What the next call does to the agreement with the specification, case by case. */
  lemma StepFollows(s: Setup, spec: Run, start: seq<Request>, calls: seq<Request>,
                    messages: seq<Message>, round: int, succeeded: bool)
    requires Follows(s, spec, start, calls, messages, round, succeeded)
    ensures var request := RequestAt(s, messages, round);
      var reply := s.respond(|calls|, request);
      && (round < s.maxRounds && IsToolRound(reply) ==>
            Follows(s, spec, start, calls + [request], AfterRound(messages, reply.response.content, s.manager),
                    round + 1, succeeded || AnySucceeded(reply.response.content, s.manager)))
      && (round < s.maxRounds && !IsToolRound(reply) ==>
            start + spec.calls == calls + [request] && |spec.calls| == round + 1
            && Conclude(s, |start|, 0, spec) == InLoopOutcome(reply))
      && (round >= s.maxRounds ==>
            start + spec.calls == calls + [request] && |spec.calls| == round + 1
            && Conclude(s, |start|, 0, spec) == Answer(FinalAnswer(reply, succeeded)))
  {
    var request := RequestAt(s, messages, round);
    var reply := s.respond(|calls|, request);
    if round < s.maxRounds && IsToolRound(reply) {
      var rest := Loop(s, |calls| + 1, AfterRound(messages, reply.response.content, s.manager), round + 1,
                       succeeded || AnySucceeded(reply.response.content, s.manager));
      assert calls + ([request] + rest.calls) == (calls + [request]) + rest.calls;
    } else {
      assert |spec.calls| == round + 1;
      assert spec.calls[round] == (start + spec.calls)[|calls|];
      assert ReplyAt(s, |start|, spec.calls, round) == reply;
    }
  }

  /** Handling block i extends the results and the success flag of the blocks before it. */
  lemma StepRound(content: seq<Block>, i: nat, manager: Option<ToolManager>)
    requires i < |content|
    ensures Results(content[..i + 1], manager)
      == Results(content[..i], manager)
         + (if content[i].ToolUse? then [ResultOf(manager, content[i])] else [])
    ensures AnySucceeded(content[..i + 1], manager)
      <==> AnySucceeded(content[..i], manager)
           || (content[i].ToolUse? && Invoke(manager, content[i].name, content[i].input).Returned?)
  {
    assert content[..i + 1] == content[..i] + [content[i]];
    ResultsConcat(content[..i], [content[i]], manager);
    assert [content[i]][1..] == [];
    assert Results([], manager) == [];
    if AnySucceeded(content[..i + 1], manager) {
      var j :| 0 <= j < i + 1 && content[..i + 1][j].ToolUse?
        && Invoke(manager, content[..i + 1][j].name, content[..i + 1][j].input).Returned?;
      if j < i {
        assert content[..i][j] == content[..i + 1][j];
      }
    }
    if AnySucceeded(content[..i], manager) {
      var j :| 0 <= j < i && content[..i][j].ToolUse?
        && Invoke(manager, content[..i][j].name, content[..i][j].input).Returned?;
      assert content[..i + 1][j] == content[..i][j];
    }
  }
}
