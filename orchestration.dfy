/**
 * The tool-calling loop of the answer generator, as a function of the model's replies: which
 * requests it sends, in what order, and what it answers.
 */
module Orchestration {
  import opened Messages
  import opened ToolRounds

  /** The static instructions sent as system text (only their first line is kept here). */
  const SystemPrompt: string :=
    " You are an AI assistant specialized in course materials and educational content with access to a comprehensive search tool for course information."

  const PreviousConversation: string := "\n\nPrevious conversation:\n"

  const FoundSomeInformation: string :=
    "I found some information but encountered an error completing your request. Please try asking your question again."

  const TroubleAccessing: string :=
    "I'm having trouble accessing course information right now. Please try asking a general question I can answer directly, or try again later."

  /** What Python raises when `content[0].text` meets an empty reply. */
  const IndexErrorMessage: string := "list index out of range"

  /** What Python raises when `content[0].text` meets a tool-use block, which has no text. */
  const NoTextMessage: string := "'ToolUseBlock' object has no attribute 'text'"

  function Max0(x: int): nat
  {
    if x < 0 then 0 else x
  }

  /** The system text: the preamble, followed by the prior conversation when there is one. */
  function SystemText(history: Option<string>): (r: string)
    ensures |r| >= |SystemPrompt| && r[..|SystemPrompt|] == SystemPrompt
    ensures history.Some? && history.value != "" ==>
      |r| == |SystemPrompt| + |PreviousConversation| + |history.value|
      && r[|SystemPrompt|..|SystemPrompt| + |PreviousConversation|] == PreviousConversation
      && r[|r| - |history.value|..] == history.value
    ensures history.None? || history.value == "" ==> r == SystemPrompt
  {
    if history.Some? && history.value != "" then SystemPrompt + PreviousConversation + history.value
    else SystemPrompt
  }

  /** The tool definitions attached to in-loop calls: only when a manager exists and defines some. */
  function Attached(manager: Option<ToolManager>): (tools: Option<seq<ToolDef>>)
    ensures tools.Some? <==> manager.Some? && manager.value.definitions != []
    ensures tools.Some? ==> tools.value == manager.value.definitions
  {
    if manager.Some? && manager.value.definitions != [] then Some(manager.value.definitions) else None
  }

  /** `response.content[0].text`, with the exceptions Python raises when it is not there. */
  function FirstText(content: seq<Block>): (r: Outcome)
    ensures r.Answer? <==> content != [] && content[0].Text?
    ensures r.Answer? ==> r.text == content[0].text
    ensures content == [] ==> r == Error(IndexErrorMessage)
  {
    if content == [] then Error(IndexErrorMessage)
    else if content[0].Text? then Answer(content[0].text)
    else Error(NoTextMessage)
  }

  /** The fixed answer used when the forced final call fails, chosen by the success flag. */
  function Fallback(succeeded: bool): (r: string)
    ensures r == FoundSomeInformation <==> succeeded
    ensures r == TroubleAccessing <==> !succeeded
  {
    if succeeded then FoundSomeInformation else TroubleAccessing
  }

  /** The answer of the forced final call: its first text, or a fallback if the call or the text fails. */
  function FinalAnswer(reply: CallOutcome, succeeded: bool): string
  {
    if reply.Replied? && FirstText(reply.response.content).Answer? then
      FirstText(reply.response.content).text
    else
      Fallback(succeeded)
  }

  /** The outcome of an in-loop reply that does not ask for tools; its exceptions are not caught. */
  function InLoopOutcome(reply: CallOutcome): Outcome
  {
    match reply
    case Failed(e) => Error(e)
    case Replied(response) => FirstText(response.content)
  }

  predicate IsToolRound(reply: CallOutcome)
  {
    reply.Replied? && reply.response.stopReason == ToolUseStop
  }

  /** What stays fixed during one `generate_response` call. */
  datatype Setup = Setup(
    respond: (nat, Request) -> CallOutcome,
    system: string,
    tools: Option<seq<ToolDef>>,
    manager: Option<ToolManager>,
    maxRounds: int)

  /** The calls made from some point of the loop on, and the success flag when the last one was made. */
  datatype Run = Run(calls: seq<Request>, succeeded: bool)

  /** What one `generate_response` call does: the outcome it reaches and the calls it makes. */
  datatype Trace = Trace(outcome: Outcome, calls: seq<Request>)

  function InLoopRequest(messages: seq<Message>, system: string, tools: Option<seq<ToolDef>>): Request
  {
    Request(messages, system, tools, if tools.Some? then Some(Auto) else None)
  }

  function FinalRequest(messages: seq<Message>, system: string): Request
  {
    Request(messages, system, None, None)
  }

  /** The request sent at a given round: with the configured tools inside the loop, without past it. */
  function RequestAt(s: Setup, messages: seq<Message>, round: int): Request
  {
    if round < s.maxRounds then InLoopRequest(messages, s.system, s.tools)
    else FinalRequest(messages, s.system)
  }

  /**
   * The loop from call number n on, at the given round, with the given messages and success flag.
   * The model's reply to the n-th call is s.respond(n, request). The loop goes on while the round
   * counter is below the bound and the reply asks for tools.
   */
  function Loop(s: Setup, n: nat, messages: seq<Message>, round: int, succeeded: bool): Run
    decreases s.maxRounds - round
  {
    var request := RequestAt(s, messages, round);
    var reply := s.respond(n, request);
    if round < s.maxRounds && IsToolRound(reply) then
      var content := reply.response.content;
      var rest := Loop(s, n + 1, AfterRound(messages, content, s.manager), round + 1,
                       succeeded || AnySucceeded(content, s.manager));
      Run([request] + rest.calls, rest.succeeded)
    else
      Run([request], succeeded)
  }

  /** The reply to the i-th of the calls of a run that starts at call number n. */
  function ReplyAt(s: Setup, n: nat, calls: seq<Request>, i: nat): CallOutcome
    requires i < |calls|
  {
    s.respond(n + i, calls[i])
  }

  /**
   * How a run from round `round` ends: an in-loop last reply gives its own outcome, uncaught; a
   * forced final call gives its text or the fallback.
   */
  function Conclude(s: Setup, n: nat, round: int, run: Run): Outcome
    requires run.calls != []
  {
    var last := |run.calls| - 1;
    var reply := ReplyAt(s, n, run.calls, last);
    if round + last < s.maxRounds then InLoopOutcome(reply)
    else Answer(FinalAnswer(reply, run.succeeded))
  }

  function Configure(respond: (nat, Request) -> CallOutcome, history: Option<string>,
                     manager: Option<ToolManager>, maxRounds: int): Setup
  {
    Setup(respond, SystemText(history), Attached(manager), manager, maxRounds)
  }

  function Start(query: string): seq<Message>
  {
    [Message(User, Plain(query))]
  }

  /** `generate_response(query, history, manager, maxRounds)` when its first model call is number n. */
  function Generate(respond: (nat, Request) -> CallOutcome, n: nat, query: string, history: Option<string>,
                    manager: Option<ToolManager>, maxRounds: int): Trace
  {
    var s := Configure(respond, history, manager, maxRounds);
    var run := Loop(s, n, Start(query), 0, false);
    Trace(Conclude(s, n, 0, run), run.calls)
  }

  /** Whether a tool call returned in some round before the i-th call of a run. */
  predicate SucceededBefore(s: Setup, n: nat, calls: seq<Request>, i: nat)
    requires i <= |calls|
  {
    exists j | 0 <= j < i ::
      IsToolRound(ReplyAt(s, n, calls, j)) && AnySucceeded(ReplyAt(s, n, calls, j).response.content, s.manager)
  }

  // ---------------------------------------------------------------------------------------------
  // Properties of the loop from an arbitrary round

  /** A run from round `round` makes between 1 and max(maxRounds - round, 0) + 1 calls, the first with the given messages. */
  lemma {:induction false} LoopLength(s: Setup, n: nat, messages: seq<Message>, round: int, succeeded: bool)
    ensures var run := Loop(s, n, messages, round, succeeded);
      && 1 <= |run.calls| <= Max0(s.maxRounds - round) + 1
      && run.calls[0].messages == messages
    decreases s.maxRounds - round
  {
    var request := RequestAt(s, messages, round);
    var reply := s.respond(n, request);
    if round < s.maxRounds && IsToolRound(reply) {
      var content := reply.response.content;
      LoopLength(s, n + 1, AfterRound(messages, content, s.manager), round + 1,
                 succeeded || AnySucceeded(content, s.manager));
    }
  }

  /** Each of the calls, sent from round `round` on, carries the tools of its own round. */
  ghost predicate RequestsFrom(s: Setup, calls: seq<Request>, round: int)
  {
    forall i | 0 <= i < |calls| :: calls[i] == RequestAt(s, calls[i].messages, round + i)
  }

  /** The i-th call of a run carries the tools of round `round` + i: in-loop ones inside the bound, none past it. */
  lemma {:induction false} LoopRequests(s: Setup, n: nat, messages: seq<Message>, round: int, succeeded: bool)
    ensures RequestsFrom(s, Loop(s, n, messages, round, succeeded).calls, round)
    decreases s.maxRounds - round
  {
    var run := Loop(s, n, messages, round, succeeded);
    var request := RequestAt(s, messages, round);
    var reply := s.respond(n, request);
    if round < s.maxRounds && IsToolRound(reply) {
      var content := reply.response.content;
      var next := AfterRound(messages, content, s.manager);
      var flag := succeeded || AnySucceeded(content, s.manager);
      var rest := Loop(s, n + 1, next, round + 1, flag);
      LoopRequests(s, n + 1, next, round + 1, flag);
      assert run.calls == [request] + rest.calls;
      assert request.messages == messages;
      forall i | 0 <= i < |run.calls|
        ensures run.calls[i] == RequestAt(s, run.calls[i].messages, round + i)
      {
        if i > 0 {
          assert run.calls[i] == rest.calls[i - 1];
        } else {
          assert run.calls[0] == request;
        }
      }
    } else {
      assert request.messages == messages;
    }
  }

  /**
   * Each of the calls, sent from round `round` on, but the last was an in-loop call whose reply asked
   * for tools, and the next call's messages are the previous ones after that round.
   */
  ghost predicate StepsFrom(s: Setup, n: nat, calls: seq<Request>, round: int)
  {
    forall i {:trigger ReplyAt(s, n, calls, i)} | 0 <= i < |calls| - 1 ::
      && round + i < s.maxRounds
      && IsToolRound(ReplyAt(s, n, calls, i))
      && calls[i + 1].messages == AfterRound(calls[i].messages, ReplyAt(s, n, calls, i).response.content, s.manager)
  }

  /**
   * Every call of a run but the last was an in-loop call answered by a tool round, and the next
   * call's messages are the previous ones after that round.
   */
  lemma {:induction false} LoopSteps(s: Setup, n: nat, messages: seq<Message>, round: int, succeeded: bool)
    ensures StepsFrom(s, n, Loop(s, n, messages, round, succeeded).calls, round)
    decreases s.maxRounds - round
  {
    var run := Loop(s, n, messages, round, succeeded);
    var request := RequestAt(s, messages, round);
    var reply := s.respond(n, request);
    if round < s.maxRounds && IsToolRound(reply) {
      var content := reply.response.content;
      var next := AfterRound(messages, content, s.manager);
      var flag := succeeded || AnySucceeded(content, s.manager);
      var rest := Loop(s, n + 1, next, round + 1, flag);
      LoopSteps(s, n + 1, next, round + 1, flag);
      LoopLength(s, n + 1, next, round + 1, flag);
      assert run.calls == [request] + rest.calls;
      forall i {:trigger ReplyAt(s, n, run.calls, i)} | 0 <= i < |run.calls| - 1
        ensures round + i < s.maxRounds
        ensures IsToolRound(ReplyAt(s, n, run.calls, i))
        ensures run.calls[i + 1].messages
          == AfterRound(run.calls[i].messages, ReplyAt(s, n, run.calls, i).response.content, s.manager)
      {
        if i > 0 {
          assert run.calls[i] == rest.calls[i - 1] && run.calls[i + 1] == rest.calls[i];
          assert ReplyAt(s, n, run.calls, i) == ReplyAt(s, n + 1, rest.calls, i - 1);
        }
      }
    }
  }

  /**
   * The last of the calls, sent from round `round` on, is either an in-loop call whose reply does
   * not ask for tools or the forced final call after max(maxRounds - round, 0) in-loop calls.
   */
  ghost predicate StopsFrom(s: Setup, n: nat, calls: seq<Request>, round: int)
  {
    && calls != []
    && (round + |calls| - 1 < s.maxRounds ==> !IsToolRound(ReplyAt(s, n, calls, |calls| - 1)))
    && (round + |calls| - 1 >= s.maxRounds ==> |calls| - 1 == Max0(s.maxRounds - round))
  }

  /**
   * A run stops inside the loop only on a reply that does not ask for tools; otherwise it stops
   * at the forced final call, made after exactly max(maxRounds - round, 0) in-loop calls.
   */
  lemma {:induction false} LoopStops(s: Setup, n: nat, messages: seq<Message>, round: int, succeeded: bool)
    ensures StopsFrom(s, n, Loop(s, n, messages, round, succeeded).calls, round)
    decreases s.maxRounds - round
  {
    var run := Loop(s, n, messages, round, succeeded);
    var request := RequestAt(s, messages, round);
    var reply := s.respond(n, request);
    if round < s.maxRounds && IsToolRound(reply) {
      var content := reply.response.content;
      var next := AfterRound(messages, content, s.manager);
      var flag := succeeded || AnySucceeded(content, s.manager);
      var rest := Loop(s, n + 1, next, round + 1, flag);
      LoopStops(s, n + 1, next, round + 1, flag);
      assert run.calls == [request] + rest.calls;
      var last := |run.calls| - 1;
      assert ReplyAt(s, n, run.calls, last) == ReplyAt(s, n + 1, rest.calls, last - 1);
    } else {
      assert ReplyAt(s, n, run.calls, 0) == reply;
    }
  }

  /**
   * The success flag at the last call: it was set before the loop, or some earlier round had a tool
   * call that returned. It is never cleared.
   */
  lemma {:induction false} LoopFlag(s: Setup, n: nat, messages: seq<Message>, round: int, succeeded: bool)
    ensures var run := Loop(s, n, messages, round, succeeded);
      run.calls != []
      && run.succeeded == (succeeded || SucceededBefore(s, n, run.calls, |run.calls| - 1))
    decreases s.maxRounds - round
  {
    var run := Loop(s, n, messages, round, succeeded);
    var request := RequestAt(s, messages, round);
    var reply := s.respond(n, request);
    if round < s.maxRounds && IsToolRound(reply) {
      var content := reply.response.content;
      var next := AfterRound(messages, content, s.manager);
      var flag := succeeded || AnySucceeded(content, s.manager);
      var rest := Loop(s, n + 1, next, round + 1, flag);
      LoopFlag(s, n + 1, next, round + 1, flag);
      assert run.calls == [request] + rest.calls;
      var last := |run.calls| - 1;
      assert ReplyAt(s, n, run.calls, 0) == reply;
      SucceededShift(s, n, run.calls, rest.calls, last);
    } else {
      assert !SucceededBefore(s, n, run.calls, 0);
    }
  }

  /** Dropping the first call of a run shifts the success record by one round. */
  lemma SucceededShift(s: Setup, n: nat, calls: seq<Request>, rest: seq<Request>, last: nat)
    requires 1 <= last < |calls| && calls[1..] == rest
    ensures SucceededBefore(s, n, calls, last)
      <==> (IsToolRound(ReplyAt(s, n, calls, 0)) && AnySucceeded(ReplyAt(s, n, calls, 0).response.content, s.manager))
           || SucceededBefore(s, n + 1, rest, last - 1)
  {
    forall j {:trigger ReplyAt(s, n + 1, rest, j)} | 0 <= j < last - 1
      ensures ReplyAt(s, n + 1, rest, j) == ReplyAt(s, n, calls, j + 1)
    {
      assert rest[j] == calls[j + 1];
    }
    if SucceededBefore(s, n, calls, last) {
      var j :| 0 <= j < last && IsToolRound(ReplyAt(s, n, calls, j))
        && AnySucceeded(ReplyAt(s, n, calls, j).response.content, s.manager);
      if j > 0 {
        assert ReplyAt(s, n + 1, rest, j - 1) == ReplyAt(s, n, calls, j);
      }
    }
  }

  // ---------------------------------------------------------------------------------------------
  // Properties of one generate_response call

  /** The first call carries exactly the user's query, and every call carries the same system text. */
  lemma InitialRequest(respond: (nat, Request) -> CallOutcome, n: nat, query: string, history: Option<string>,
                       manager: Option<ToolManager>, maxRounds: int)
    ensures var t := Generate(respond, n, query, history, manager, maxRounds);
      && t.calls != []
      && t.calls[0].messages == [Message(User, Plain(query))]
      && forall i | 0 <= i < |t.calls| :: t.calls[i].system == SystemText(history)
  {
    var s := Configure(respond, history, manager, maxRounds);
    var run := Loop(s, n, Start(query), 0, false);
    LoopLength(s, n, Start(query), 0, false);
    LoopRequests(s, n, Start(query), 0, false);
    assert Generate(respond, n, query, history, manager, maxRounds) == Trace(Conclude(s, n, 0, run), run.calls);
  }

  /** Termination: one run makes at least one and at most max(maxRounds, 0) + 1 model calls. */
  lemma CallBound(respond: (nat, Request) -> CallOutcome, n: nat, query: string, history: Option<string>,
                  manager: Option<ToolManager>, maxRounds: int)
    ensures var t := Generate(respond, n, query, history, manager, maxRounds);
      1 <= |t.calls| <= Max0(maxRounds) + 1
  {
    var s := Configure(respond, history, manager, maxRounds);
    var run := Loop(s, n, Start(query), 0, false);
    LoopLength(s, n, Start(query), 0, false);
    assert Generate(respond, n, query, history, manager, maxRounds) == Trace(Conclude(s, n, 0, run), run.calls);
  }

  /**
   * Tool attachment: a call carries tool definitions, and then the automatic tool choice, exactly
   * when it is an in-loop call and a manager with at least one definition is present; the forced
   * final call never carries them.
   */
  lemma ToolAttachment(respond: (nat, Request) -> CallOutcome, n: nat, query: string, history: Option<string>,
                       manager: Option<ToolManager>, maxRounds: int)
    ensures var t := Generate(respond, n, query, history, manager, maxRounds);
      forall i | 0 <= i < |t.calls| ::
        && (t.calls[i].tools.Some? <==> i < maxRounds && manager.Some? && manager.value.definitions != [])
        && (t.calls[i].tools.Some? ==> t.calls[i].tools.value == manager.value.definitions)
        && (t.calls[i].toolChoice == Some(Auto) <==> t.calls[i].tools.Some?)
        && (t.calls[i].toolChoice.None? <==> t.calls[i].tools.None?)
  {
    var s := Configure(respond, history, manager, maxRounds);
    var run := Loop(s, n, Start(query), 0, false);
    LoopRequests(s, n, Start(query), 0, false);
    assert Generate(respond, n, query, history, manager, maxRounds) == Trace(Conclude(s, n, 0, run), run.calls);
  }

  /**
   * Message growth: every call but the last answered a tool round, and the next call's messages are
   * the previous ones followed by the assistant's reply and, if any, its tool results.
   */
  lemma MessageGrowth(respond: (nat, Request) -> CallOutcome, n: nat, query: string, history: Option<string>,
                      manager: Option<ToolManager>, maxRounds: int)
    ensures var s := Configure(respond, history, manager, maxRounds);
      var t := Generate(respond, n, query, history, manager, maxRounds);
      forall i {:trigger ReplyAt(s, n, t.calls, i)} | 0 <= i < |t.calls| - 1 ::
        && i < maxRounds
        && IsToolRound(ReplyAt(s, n, t.calls, i))
        && t.calls[i + 1].messages
           == AfterRound(t.calls[i].messages, ReplyAt(s, n, t.calls, i).response.content, manager)
  {
    var s := Configure(respond, history, manager, maxRounds);
    var run := Loop(s, n, Start(query), 0, false);
    LoopSteps(s, n, Start(query), 0, false);
    assert Generate(respond, n, query, history, manager, maxRounds) == Trace(Conclude(s, n, 0, run), run.calls);
  }

  /** The rounds run out (max(maxRounds, 0) + 1 calls) exactly when every in-loop reply asked for tools. */
  lemma ExhaustedIffAllToolRounds(respond: (nat, Request) -> CallOutcome, n: nat, query: string,
                                  history: Option<string>, manager: Option<ToolManager>, maxRounds: int)
    ensures var s := Configure(respond, history, manager, maxRounds);
      var t := Generate(respond, n, query, history, manager, maxRounds);
      |t.calls| == Max0(maxRounds) + 1
      <==> forall i | 0 <= i < |t.calls| && i < maxRounds :: IsToolRound(ReplyAt(s, n, t.calls, i))
  {
    var s := Configure(respond, history, manager, maxRounds);
    var run := Loop(s, n, Start(query), 0, false);
    LoopLength(s, n, Start(query), 0, false);
    LoopSteps(s, n, Start(query), 0, false);
    LoopStops(s, n, Start(query), 0, false);
    assert Generate(respond, n, query, history, manager, maxRounds) == Trace(Conclude(s, n, 0, run), run.calls);
  }

  /**
   * Early exit: an in-loop reply that does not ask for tools is the last one, whatever rounds are
   * left, and the run returns its first text (or lets its failure escape).
   */
  lemma EarlyExit(respond: (nat, Request) -> CallOutcome, n: nat, query: string, history: Option<string>,
                  manager: Option<ToolManager>, maxRounds: int)
    ensures var s := Configure(respond, history, manager, maxRounds);
      var t := Generate(respond, n, query, history, manager, maxRounds);
      forall i | 0 <= i < |t.calls| && i < maxRounds && !IsToolRound(ReplyAt(s, n, t.calls, i)) ::
        i == |t.calls| - 1 && t.outcome == InLoopOutcome(ReplyAt(s, n, t.calls, i))
  {
    var s := Configure(respond, history, manager, maxRounds);
    var run := Loop(s, n, Start(query), 0, false);
    LoopSteps(s, n, Start(query), 0, false);
    assert Generate(respond, n, query, history, manager, maxRounds) == Trace(Conclude(s, n, 0, run), run.calls);
  }

  /**
   * Fallback selection: a run that reaches the forced final call answers with that call's text, or,
   * if the call or its text fails, with the fallback chosen by whether any tool call in any earlier
   * round returned. Only in-loop failures escape.
   */
  lemma FinalCallFallback(respond: (nat, Request) -> CallOutcome, n: nat, query: string,
                          history: Option<string>, manager: Option<ToolManager>, maxRounds: int)
    ensures var s := Configure(respond, history, manager, maxRounds);
      var t := Generate(respond, n, query, history, manager, maxRounds);
      var last := |t.calls| - 1;
      && last >= 0
      && (last >= maxRounds ==>
            && last == Max0(maxRounds)
            && t.outcome.Answer?
            && (ReplyAt(s, n, t.calls, last).Failed? ==>
                  t.outcome.text == Fallback(SucceededBefore(s, n, t.calls, last)))
            && (ReplyAt(s, n, t.calls, last).Replied? ==>
                  var text := FirstText(ReplyAt(s, n, t.calls, last).response.content);
                  t.outcome.text == if text.Answer? then text.text else Fallback(SucceededBefore(s, n, t.calls, last))))
      && (t.outcome.Error? ==> last < maxRounds)
  {
    var s := Configure(respond, history, manager, maxRounds);
    var run := Loop(s, n, Start(query), 0, false);
    LoopStops(s, n, Start(query), 0, false);
    LoopFlag(s, n, Start(query), 0, false);
    assert Generate(respond, n, query, history, manager, maxRounds) == Trace(Conclude(s, n, 0, run), run.calls);
  }

  /**
   * A run with the default two rounds where the model first asks for one search and then answers:
   * two calls, the second carrying the query, the assistant's tool request and one tool result for
   * the requested id, and the answer is the second reply's text.
   */
  lemma OneSearchThenAnswer(manager: ToolManager, query: string, input: Args, answer: string)
    ensures var request := ToolUse("tool_456", "search_course_content", input);
      var respond := (k: nat, r: Request) =>
        if k == 0 then Replied(Response(ToolUseStop, [request])) else Replied(Response("end_turn", [Text(answer)]));
      var t := Generate(respond, 0, query, None, Some(manager), 2);
      && |t.calls| == 2
      && t.outcome == Answer(answer)
      && |t.calls[1].messages| == 3
      && t.calls[1].messages[2].role == User
      && t.calls[1].messages[2].content.ToolResults?
      && |t.calls[1].messages[2].content.results| == 1
      && t.calls[1].messages[2].content.results[0].toolUseId == "tool_456"
  {
    var request := ToolUse("tool_456", "search_course_content", input);
    var respond := (k: nat, r: Request) =>
      if k == 0 then Replied(Response(ToolUseStop, [request])) else Replied(Response("end_turn", [Text(answer)]));
    var s := Configure(respond, None, Some(manager), 2);
    var first := Start(query);
    assert [request][1..] == [] && [request][0] == request;
    assert Results([], Some(manager)) == [];
    var results := Results([request], Some(manager));
    assert results == [ResultOf(Some(manager), request)];
    var second := AfterRound(first, [request], Some(manager));
    assert second == first + [Message(Assistant, Blocks([request])), Message(User, ToolResults(results))];
    var rest := Loop(s, 1, second, 1, AnySucceeded([request], Some(manager)));
    assert rest.calls == [RequestAt(s, second, 1)];
    var run := Loop(s, 0, first, 0, false);
    assert run.calls == [RequestAt(s, first, 0)] + rest.calls;
    assert ReplyAt(s, 0, run.calls, 1) == Replied(Response("end_turn", [Text(answer)]));
  }
}
