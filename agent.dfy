/**
 * The driver loop of the debugging agent (agent/agent.py).
 *
 * A run seeds the transcript with a system and a user message and then
 * performs at most `max_iterations` model turns. A reply without tool calls
 * ends the run with its text; a reply with tool calls is appended, followed
 * by one tool message per call, in order, and the loop goes on. When the
 * budget runs out the run returns a fixed status text.
 *
 * The model, the argument decoder and the remote tool handlers are oracles
 * gathered in a `World`.
 */
module Agent {
  import opened Wrappers
  import opened Tools
  import Configuration

  // ---------------------------------------------------------------------
  // Transcript.
  // ---------------------------------------------------------------------

  /** A tool-call request of an assistant message: id, function name, argument text. */
  datatype ToolCallRequest = ToolCallRequest(id: string, name: string, arguments: string)

  /** One entry of `self.messages`, tagged by its role. */
  datatype Message =
    | SystemMessage(content: string)
    | UserMessage(content: string)
    | AssistantMessage(text: Option<string>, toolCalls: seq<ToolCallRequest>)
    | ToolMessage(toolCallId: string, content: string)

  /** `response.choices[0].message`; absent tool calls are the empty sequence. */
  datatype Reply = Reply(content: Option<string>, toolCalls: seq<ToolCallRequest>)

  /**
   * What the run depends on but does not compute: the prompt texts, the
   * model, the JSON decoder and the remote handlers. Every model call is
   * also given the fixed registry `ToolSchemas()`; since that never changes,
   * `respond` closes over it and takes only the transcript. The handlers see
   * the invocations already made in this run, so that a tool may observe the
   * side effects of earlier ones.
   */
  datatype World = World(
    systemPrompt: string,
    userPrompt: (string, string) -> string,
    respond: seq<Message> -> Reply,
    decode: string -> Option<Json>,
    execute: seq<Invocation> -> Executor)

  /**
   * The dispatcher the driver calls: the answer it returns for a tool name
   * and decoded arguments, and the handler invocation it makes, if any. The
   * driver's properties hold for every dispatcher; the agent runs with
   * `ToolDispatcher`.
   */
  datatype Dispatcher = Dispatcher(
    answer: (string, Json, Config, Executor) -> string,
    invoked: (string, Json) -> Option<Invocation>)

  /** `agent.tools.dispatch`. */
  const ToolDispatcher := Dispatcher(Dispatch, Invoked)

  /** The configuration keys the agent indexes, as `load_config` names them. */
  const ApiKeyKey := Configuration.RequiredVars[0].0
  const ProjectIdKey := Configuration.RequiredVars[1].0
  const FunctionNameKey := Configuration.RequiredVars[2].0
  const RepoKey := Configuration.RequiredVars[5].0

  const NoSummaryText := "Agent finished without a summary."
  const BudgetExhaustedText := "Agent reached maximum iterations without completing the task."

  /** The two messages every run starts from. */
  function Seed(w: World, config: Config): seq<Message>
    requires FunctionNameKey in config && ProjectIdKey in config
  {
    [SystemMessage(w.systemPrompt), UserMessage(w.userPrompt(config[FunctionNameKey], config[ProjectIdKey]))]
  }

  /** `message.content or "Agent finished without a summary."`. */
  function FinalText(content: Option<string>): (r: string)
    ensures r != ""
    ensures content.Some? && content.value != "" ==> r == content.value
    ensures content.None? || content.value == "" ==> r == NoSummaryText
  {
    match content
    case Some(s) => if s != "" then s else NoSummaryText
    case None => NoSummaryText
  }

  /** Argument text that does not decode is replaced by the empty mapping. */
  function ParsedArguments(decode: string -> Option<Json>, raw: string): (args: Json)
    ensures decode(raw).None? ==> args == JObject(map[])
    ensures decode(raw).Some? ==> args == decode(raw).value
  {
    match decode(raw)
    case None => JObject(map[])
    case Some(j) => j
  }

  /** The handler invocation dispatch makes for a request, as a sequence of zero or one. */
  function Performed(d: Dispatcher, name: string, args: Json): (r: seq<Invocation>)
    ensures |r| <= 1
    ensures r == [] <==> d.invoked(name, args).None?
  {
    match d.invoked(name, args)
    case None => []
    case Some(inv) => [inv]
  }

  // ---------------------------------------------------------------------
  // The specification of one tool-call turn and of a whole run.
  // ---------------------------------------------------------------------

  /** The tool messages a turn appends and the invocation history after it. */
  datatype Turn = Turn(messages: seq<Message>, history: seq<Invocation>)

  /** The dispatcher's answer to one request, given the invocations made before it. */
  function Answer(req: ToolCallRequest, history: seq<Invocation>, config: Config, w: World, d: Dispatcher): string
  {
    d.answer(req.name, ParsedArguments(w.decode, req.arguments), config, w.execute(history))
  }

  /** Dispatches one request against the history so far. */
  function CallOne(req: ToolCallRequest, history: seq<Invocation>, config: Config, w: World, d: Dispatcher): Turn
  {
    Turn([ToolMessage(req.id, Answer(req, history, config, w, d))],
         history + Performed(d, req.name, ParsedArguments(w.decode, req.arguments)))
  }

  /** Dispatches the requests of one turn, strictly in the order they were issued. */
  function CallAll(reqs: seq<ToolCallRequest>, history: seq<Invocation>, config: Config, w: World, d: Dispatcher): Turn
    decreases |reqs|
  {
    if reqs == [] then Turn([], history)
    else
      var before := CallAll(reqs[..|reqs| - 1], history, config, w, d);
      var last := CallOne(reqs[|reqs| - 1], before.history, config, w, d);
      Turn(before.messages + last.messages, last.history)
  }

  datatype Phase = Completed | BudgetExhausted

  /** The outcome of a run: returned text, final transcript, handler history, model calls made. */
  datatype Outcome = Outcome(result: string, transcript: seq<Message>, history: seq<Invocation>,
                             modelCalls: nat, phase: Phase)

  /** The number of turns `range(1, max_iterations + 1)` allows. */
  function Budget(maxIterations: int): (b: nat)
    ensures maxIterations <= 0 ==> b == 0
    ensures maxIterations > 0 ==> b == maxIterations
  {
    if maxIterations <= 0 then 0 else maxIterations
  }

  /**
   * The run from transcript `msgs` with `budget` model turns left, after
   * `calls` model calls so far.
   */
  function Drive(msgs: seq<Message>, budget: nat, history: seq<Invocation>, calls: nat,
                 config: Config, w: World, d: Dispatcher): Outcome
    decreases budget
  {
    if budget == 0 then Outcome(BudgetExhaustedText, msgs, history, calls, BudgetExhausted)
    else
      var reply := w.respond(msgs);
      if reply.toolCalls == [] then
        var final := FinalText(reply.content);
        Outcome(final, msgs + [AssistantMessage(Some(final), [])], history, calls + 1, Completed)
      else
        var turn := CallAll(reply.toolCalls, history, config, w, d);
        Drive(msgs + [AssistantMessage(reply.content, reply.toolCalls)] + turn.messages,
              budget - 1, turn.history, calls + 1, config, w, d)
  }

  /** The run `DebugAgent.run` performs. */
  function RunSpec(maxIterations: int, config: Config, w: World, d: Dispatcher): Outcome
    requires FunctionNameKey in config && ProjectIdKey in config
  {
    Drive(Seed(w, config), Budget(maxIterations), [], 0, config, w, d)
  }

  // ---------------------------------------------------------------------
  // The agent object.
  // ---------------------------------------------------------------------

  class DebugAgent {
    const config: Config
    const maxIterations: int
    const verbose: bool
    const model: string
    /** The `dispatch` of agent/tools the agent calls. */
    const dispatcher: Dispatcher
    var messages: seq<Message>

    constructor (config: Config, maxIterations: int, verbose: bool)
      requires ApiKeyKey in config
      ensures this.config == config && this.maxIterations == maxIterations && this.verbose == verbose
      ensures model == "gpt-4o" && dispatcher == ToolDispatcher && messages == []
    {
      this.config := config;
      this.maxIterations := maxIterations;
      this.verbose := verbose;
      this.model := "gpt-4o";
      this.dispatcher := ToolDispatcher;
      this.messages := [];
    }

    /**
     * The agent loop. `calls` counts the model calls made: the run is the
     * one `RunSpec` describes, model call for model call.
     */
    method Run(w: World) returns (result: string, ghost calls: nat)
      requires FunctionNameKey in config && ProjectIdKey in config && RepoKey in config
      modifies this
      ensures var o := RunSpec(maxIterations, config, w, dispatcher);
        result == o.result && messages == o.transcript && calls == o.modelCalls
    {
      messages := Seed(w, config);
      var history: seq<Invocation> := [];
      ghost var left: nat := Budget(maxIterations);
      var iteration := 1;
      calls := 0;
      while iteration <= maxIterations
        invariant iteration >= 1 && calls == iteration - 1 && left == Budget(maxIterations) - calls
        invariant RunSpec(maxIterations, config, w, dispatcher) == Drive(messages, left, history, calls, config, w, dispatcher)
      {
        var reply := w.respond(messages);
        if reply.toolCalls == [] {
          var final := FinalText(reply.content);
          DriveFinal(messages, left, history, calls, config, w, dispatcher);
          messages := messages + [AssistantMessage(Some(final), [])];
          return final, calls + 1;
        }
        DriveTool(messages, left, history, calls, config, w, dispatcher);
        messages := messages + [AssistantMessage(reply.content, reply.toolCalls)];
        history := CallTools(reply.toolCalls, history, w);
        calls := calls + 1;
        left := left - 1;
        iteration := iteration + 1;
      }
      result := BudgetExhaustedText;
    }

    /** The inner loop of `run`: one dispatch and one tool message per request, in order. */
    method CallTools(reqs: seq<ToolCallRequest>, history0: seq<Invocation>, w: World)
      returns (history: seq<Invocation>)
      modifies this`messages
      ensures messages == old(messages) + CallAll(reqs, history0, config, w, dispatcher).messages
      ensures history == CallAll(reqs, history0, config, w, dispatcher).history
    {
      history := history0;
      var i := 0;
      while i < |reqs|
        invariant 0 <= i <= |reqs|
        invariant messages == old(messages) + CallAll(reqs[..i], history0, config, w, dispatcher).messages
        invariant history == CallAll(reqs[..i], history0, config, w, dispatcher).history
      {
        var req := reqs[i];
        var arguments: Json;
        match w.decode(req.arguments) {
          case None => arguments := JObject(map[]);
          case Some(decoded) => arguments := decoded;
        }
        var output := dispatcher.answer(req.name, arguments, config, w.execute(history));
        assert arguments == ParsedArguments(w.decode, req.arguments);
        CallAllSnoc(reqs, i, history0, config, w, dispatcher);
        messages := messages + [ToolMessage(req.id, output)];
        history := history + Performed(dispatcher, req.name, arguments);
        i := i + 1;
      }
      assert reqs[..i] == reqs;
    }
  }

  /** With no turns left the run stops with the budget text and the transcript as it is. */
  lemma DriveExhausted(msgs: seq<Message>, history: seq<Invocation>, calls: nat, config: Config, w: World, d: Dispatcher)
    ensures Drive(msgs, 0, history, calls, config, w, d) == Outcome(BudgetExhaustedText, msgs, history, calls, BudgetExhausted)
  {
  }

  /** A turn without tool calls ends the run with one final assistant message. */
  lemma DriveFinal(msgs: seq<Message>, budget: nat, history: seq<Invocation>, calls: nat, config: Config, w: World, d: Dispatcher)
    requires budget > 0 && w.respond(msgs).toolCalls == []
    ensures var final := FinalText(w.respond(msgs).content);
      Drive(msgs, budget, history, calls, config, w, d)
        == Outcome(final, msgs + [AssistantMessage(Some(final), [])], history, calls + 1, Completed)
  {
  }

  /** A turn with tool calls appends the assistant message and the tool messages, then goes on. */
  lemma DriveTool(msgs: seq<Message>, budget: nat, history: seq<Invocation>, calls: nat, config: Config, w: World, d: Dispatcher)
    requires budget > 0 && w.respond(msgs).toolCalls != []
    ensures var reply := w.respond(msgs);
      var turn := CallAll(reply.toolCalls, history, config, w, d);
      Drive(msgs, budget, history, calls, config, w, d)
        == Drive(msgs + [AssistantMessage(reply.content, reply.toolCalls)] + turn.messages,
                 budget - 1, turn.history, calls + 1, config, w, d)
  {
  }

  // ---------------------------------------------------------------------
  // Properties of a turn.
  // ---------------------------------------------------------------------

  /** The invocations a sequence of requests leads to, in request order. */
  function PerformedAll(d: Dispatcher, reqs: seq<ToolCallRequest>, decode: string -> Option<Json>): (r: seq<Invocation>)
    ensures |r| <= |reqs|
    decreases |reqs|
  {
    if reqs == [] then []
    else
      var last := reqs[|reqs| - 1];
      PerformedAll(d, reqs[..|reqs| - 1], decode) + Performed(d, last.name, ParsedArguments(decode, last.arguments))
  }

  /** A turn appends exactly one tool message per request. */
  lemma {:induction false} CallAllLength(reqs: seq<ToolCallRequest>, history: seq<Invocation>, config: Config, w: World, d: Dispatcher)
    ensures |CallAll(reqs, history, config, w, d).messages| == |reqs|
    decreases |reqs|
  {
    if reqs != [] {
      CallAllLength(reqs[..|reqs| - 1], history, config, w, d);
    }
  }

  /** The handlers receive the turn's invocations in request order, after the earlier ones. */
  lemma {:induction false} CallAllHistory(reqs: seq<ToolCallRequest>, history: seq<Invocation>, config: Config, w: World, d: Dispatcher)
    ensures CallAll(reqs, history, config, w, d).history == history + PerformedAll(d, reqs, w.decode)
    decreases |reqs|
  {
    if reqs != [] {
      CallAllHistory(reqs[..|reqs| - 1], history, config, w, d);
    }
  }

  /**
   * The i-th tool message of a turn carries the i-th request's id and the
   * dispatcher's answer to it, given the invocations made before it.
   */
  lemma {:induction false} CallAllMessages(reqs: seq<ToolCallRequest>, history: seq<Invocation>, config: Config, w: World, d: Dispatcher)
    ensures |CallAll(reqs, history, config, w, d).messages| == |reqs|
    ensures forall i :: 0 <= i < |reqs| ==>
      CallAll(reqs, history, config, w, d).messages[i]
        == ToolMessage(reqs[i].id, Answer(reqs[i], CallAll(reqs[..i], history, config, w, d).history, config, w, d))
    decreases |reqs|
  {
    CallAllLength(reqs, history, config, w, d);
    if reqs != [] {
      var n := |reqs| - 1;
      var front := reqs[..n];
      CallAllMessages(front, history, config, w, d);
      var all := CallAll(reqs, history, config, w, d);
      forall i | 0 <= i < |reqs|
        ensures all.messages[i] == ToolMessage(reqs[i].id, Answer(reqs[i], CallAll(reqs[..i], history, config, w, d).history, config, w, d))
      {
        if i < n {
          assert front[..i] == reqs[..i];
        } else {
          assert reqs[..i] == front;
        }
      }
    }
  }

  /** Extending a turn by one more request dispatches it against the history so far. */
  lemma CallAllSnoc(reqs: seq<ToolCallRequest>, i: nat, history: seq<Invocation>, config: Config, w: World, d: Dispatcher)
    requires i < |reqs|
    ensures var before := CallAll(reqs[..i], history, config, w, d);
      CallAll(reqs[..i + 1], history, config, w, d)
        == Turn(before.messages + [ToolMessage(reqs[i].id, Answer(reqs[i], before.history, config, w, d))],
                before.history + Performed(d, reqs[i].name, ParsedArguments(w.decode, reqs[i].arguments)))
  {
    assert reqs[..i + 1][..i] == reqs[..i];
  }

  /** Undecodable argument text is still dispatched, as the empty mapping. */
  lemma UndecodableArgumentsDispatched(req: ToolCallRequest, history: seq<Invocation>, config: Config, w: World, d: Dispatcher)
    requires w.decode(req.arguments).None?
    ensures Answer(req, history, config, w, d) == d.answer(req.name, JObject(map[]), config, w.execute(history))
  {
  }

  // ---------------------------------------------------------------------
  // Properties of a run.
  // ---------------------------------------------------------------------

  /**
   * What a run appends: assistant messages, each followed at once by one
   * tool message per request it carries, with the requests' ids in order;
   * an assistant message without requests is the last entry.
   */
  ghost predicate Exchanges(t: seq<Message>)
    decreases |t|
  {
    t == [] ||
    (t[0].AssistantMessage? &&
     var n := |t[0].toolCalls|;
     && n + 1 <= |t|
     && (n == 0 ==> |t| == 1)
     && (forall k :: 0 <= k < n ==> t[1 + k].ToolMessage? && t[1 + k].toolCallId == t[0].toolCalls[k].id)
     && Exchanges(t[1 + n..]))
  }

  /**
   * At most `budget` further model calls; exactly `budget` when the budget
   * runs out; at least one when any is allowed.
   */
  lemma {:induction false} DriveModelCalls(msgs: seq<Message>, budget: nat, history: seq<Invocation>, calls: nat, config: Config, w: World, d: Dispatcher)
    ensures calls <= Drive(msgs, budget, history, calls, config, w, d).modelCalls <= calls + budget
    ensures budget > 0 ==> Drive(msgs, budget, history, calls, config, w, d).modelCalls >= calls + 1
    ensures Drive(msgs, budget, history, calls, config, w, d).phase == BudgetExhausted ==>
      Drive(msgs, budget, history, calls, config, w, d).modelCalls == calls + budget
    decreases budget
  {
    if budget > 0 && w.respond(msgs).toolCalls != [] {
      var reply := w.respond(msgs);
      var turn := CallAll(reply.toolCalls, history, config, w, d);
      DriveModelCalls(msgs + [AssistantMessage(reply.content, reply.toolCalls)] + turn.messages,
                      budget - 1, turn.history, calls + 1, config, w, d);
    }
  }

  /** The tool messages of a turn answer its requests one by one, by id. */
  lemma CallAllIds(reqs: seq<ToolCallRequest>, history: seq<Invocation>, config: Config, w: World, d: Dispatcher)
    ensures var t := CallAll(reqs, history, config, w, d);
      && |t.messages| == |reqs|
      && forall i :: 0 <= i < |reqs| ==> t.messages[i].ToolMessage? && t.messages[i].toolCallId == reqs[i].id
  {
    CallAllMessages(reqs, history, config, w, d);
  }

  /** The transcript and the handler history only grow: a run keeps what it started from as a prefix. */
  lemma {:induction false} DrivePrefix(msgs: seq<Message>, budget: nat, history: seq<Invocation>, calls: nat, config: Config, w: World, d: Dispatcher)
    ensures var o := Drive(msgs, budget, history, calls, config, w, d);
      && |msgs| <= |o.transcript| && o.transcript[..|msgs|] == msgs
      && |history| <= |o.history| && o.history[..|history|] == history
    decreases budget
  {
    if budget > 0 && w.respond(msgs).toolCalls != [] {
      var reply := w.respond(msgs);
      var turn := CallAll(reply.toolCalls, history, config, w, d);
      CallAllHistory(reply.toolCalls, history, config, w, d);
      var next := msgs + [AssistantMessage(reply.content, reply.toolCalls)] + turn.messages;
      DrivePrefix(next, budget - 1, turn.history, calls + 1, config, w, d);
      var o := Drive(msgs, budget, history, calls, config, w, d);
      assert o.transcript[..|msgs|] == next[..|msgs|];
      assert o.history[..|history|] == o.history[..|turn.history|][..|history|];
    }
  }

  /** What a run appends to its transcript is a series of well-paired exchanges. */
  lemma {:induction false} DriveExchanges(msgs: seq<Message>, budget: nat, history: seq<Invocation>, calls: nat, config: Config, w: World, d: Dispatcher)
    ensures var o := Drive(msgs, budget, history, calls, config, w, d);
      |msgs| <= |o.transcript| && Exchanges(o.transcript[|msgs|..])
    decreases budget
  {
    if budget == 0 {
      assert Drive(msgs, budget, history, calls, config, w, d).transcript[|msgs|..] == [];
    } else if w.respond(msgs).toolCalls == [] {
      FinalExchange(msgs, budget, history, calls, config, w, d);
    } else {
      var reply := w.respond(msgs);
      var turn := CallAll(reply.toolCalls, history, config, w, d);
      DriveExchanges(msgs + [AssistantMessage(reply.content, reply.toolCalls)] + turn.messages,
                     budget - 1, turn.history, calls + 1, config, w, d);
      ToolExchange(msgs, budget, history, calls, config, w, d);
    }
  }

  /** A final reply appends one assistant message without requests. */
  lemma FinalExchange(msgs: seq<Message>, budget: nat, history: seq<Invocation>, calls: nat, config: Config, w: World, d: Dispatcher)
    requires budget > 0 && w.respond(msgs).toolCalls == []
    ensures var o := Drive(msgs, budget, history, calls, config, w, d);
      |msgs| <= |o.transcript| && Exchanges(o.transcript[|msgs|..])
  {
    var o := Drive(msgs, budget, history, calls, config, w, d);
    var added := o.transcript[|msgs|..];
    assert added == [AssistantMessage(Some(FinalText(w.respond(msgs).content)), [])];
    assert added[1..] == [];
  }

  /** A tool-call turn puts one exchange in front of whatever the rest of the run appends. */
  lemma ToolExchange(msgs: seq<Message>, budget: nat, history: seq<Invocation>, calls: nat, config: Config, w: World, d: Dispatcher)
    requires budget > 0 && w.respond(msgs).toolCalls != []
    requires var reply := w.respond(msgs);
      var turn := CallAll(reply.toolCalls, history, config, w, d);
      var next := msgs + [AssistantMessage(reply.content, reply.toolCalls)] + turn.messages;
      var r := Drive(next, budget - 1, turn.history, calls + 1, config, w, d);
      |next| <= |r.transcript| && Exchanges(r.transcript[|next|..])
    ensures var o := Drive(msgs, budget, history, calls, config, w, d);
      |msgs| <= |o.transcript| && Exchanges(o.transcript[|msgs|..])
  {
    var reply := w.respond(msgs);
    var turn := CallAll(reply.toolCalls, history, config, w, d);
    CallAllIds(reply.toolCalls, history, config, w, d);
    var a := AssistantMessage(reply.content, reply.toolCalls);
    var next := msgs + [a] + turn.messages;
    DrivePrefix(next, budget - 1, turn.history, calls + 1, config, w, d);
    var t := Drive(next, budget - 1, turn.history, calls + 1, config, w, d).transcript;
    var q := [a] + turn.messages;
    assert next == msgs + q;
    SliceAfterPrefix(t, msgs, q);
    ExchangesCons(a, turn.messages, t[|next|..]);
  }

  /** An assistant message with requests, their tool messages, then more exchanges, is an exchange series. */
  lemma ExchangesCons(a: Message, tools: seq<Message>, rest: seq<Message>)
    requires a.AssistantMessage? && |tools| == |a.toolCalls| > 0
    requires forall k :: 0 <= k < |tools| ==> tools[k].ToolMessage? && tools[k].toolCallId == a.toolCalls[k].id
    requires Exchanges(rest)
    ensures Exchanges([a] + tools + rest)
  {
    var t := [a] + tools + rest;
    assert t[1 + |tools|..] == rest;
    forall k | 0 <= k < |tools|
      ensures t[1 + k].ToolMessage? && t[1 + k].toolCallId == a.toolCalls[k].id
    {
      assert t[1 + k] == tools[k];
    }
  }

  /** Cutting off a prefix `p` of a sequence that starts with `p + q` leaves `q` and the rest. */
  lemma SliceAfterPrefix<T>(t: seq<T>, p: seq<T>, q: seq<T>)
    requires |p + q| <= |t| && t[..|p + q|] == p + q
    ensures t[|p|..] == q + t[|p + q|..]
  {
    assert t == t[..|p + q|] + t[|p + q|..];
  }

  /** The run's text is the budget text when it runs out, and the final message's text when it completes. */
  lemma {:induction false} DriveResult(msgs: seq<Message>, budget: nat, history: seq<Invocation>, calls: nat, config: Config, w: World, d: Dispatcher)
    ensures var o := Drive(msgs, budget, history, calls, config, w, d);
      && (o.phase == BudgetExhausted ==> o.result == BudgetExhaustedText)
      && (o.phase == Completed ==>
            budget > 0 && o.result != "" && |o.transcript| > |msgs|
            && o.transcript[|o.transcript| - 1] == AssistantMessage(Some(o.result), []))
    decreases budget
  {
    if budget > 0 && w.respond(msgs).toolCalls != [] {
      var reply := w.respond(msgs);
      var turn := CallAll(reply.toolCalls, history, config, w, d);
      var next := msgs + [AssistantMessage(reply.content, reply.toolCalls)] + turn.messages;
      DriveResult(next, budget - 1, turn.history, calls + 1, config, w, d);
    }
  }

  /**
   * When the budget ends right after a tool-call turn, that turn's tool
   * results stay in the transcript and the budget text is returned.
   */
  lemma LastTurnKept(msgs: seq<Message>, history: seq<Invocation>, calls: nat, config: Config, w: World, d: Dispatcher)
    requires w.respond(msgs).toolCalls != []
    ensures var reply := w.respond(msgs);
      var o := Drive(msgs, 1, history, calls, config, w, d);
      && o.result == BudgetExhaustedText && o.phase == BudgetExhausted && o.modelCalls == calls + 1
      && o.transcript == msgs + [AssistantMessage(reply.content, reply.toolCalls)]
                              + CallAll(reply.toolCalls, history, config, w, d).messages
      && |o.transcript| == |msgs| + 1 + |reply.toolCalls|
  {
    var reply := w.respond(msgs);
    CallAllLength(reply.toolCalls, history, config, w, d);
  }

  /** A run starts from exactly the system and the user message, whatever the transcript held before. */
  lemma RunStartsFromSeed(maxIterations: int, config: Config, w: World, d: Dispatcher)
    requires FunctionNameKey in config && ProjectIdKey in config
    ensures var o := RunSpec(maxIterations, config, w, d);
      && |o.transcript| >= 2
      && o.transcript[..2] == [SystemMessage(w.systemPrompt),
                               UserMessage(w.userPrompt(config[FunctionNameKey], config[ProjectIdKey]))]
      && Exchanges(o.transcript[2..])
      && o.modelCalls <= Budget(maxIterations)
  {
    DrivePrefix(Seed(w, config), Budget(maxIterations), [], 0, config, w, d);
    DriveExchanges(Seed(w, config), Budget(maxIterations), [], 0, config, w, d);
    DriveModelCalls(Seed(w, config), Budget(maxIterations), [], 0, config, w, d);
  }

  /** A non-positive `max_iterations` makes no model call and reports the exhausted budget. */
  lemma NoBudgetNoCalls(maxIterations: int, config: Config, w: World, d: Dispatcher)
    requires FunctionNameKey in config && ProjectIdKey in config
    requires maxIterations <= 0
    ensures RunSpec(maxIterations, config, w, d)
      == Outcome(BudgetExhaustedText, Seed(w, config), [], 0, BudgetExhausted)
  {
  }

  /** A configuration `load_config` accepts has every key the agent indexes. */
  lemma LoadedConfigServesAgent(env: Configuration.Env)
    requires forall i :: 0 <= i < |Configuration.RequiredVars| ==> Configuration.Present(env, Configuration.RequiredVars[i].0)
    ensures var config := Configuration.ConfigOf(env, Configuration.RequiredVars);
      ApiKeyKey in config && FunctionNameKey in config && ProjectIdKey in config && RepoKey in config
  {
    Configuration.LoadedConfigComplete(env);
    var names := Configuration.Names(Configuration.RequiredVars);
    assert names[0] == ApiKeyKey && names[1] == ProjectIdKey && names[2] == FunctionNameKey && names[5] == RepoKey;
  }

  // ---------------------------------------------------------------------
  // Scenarios.
  // ---------------------------------------------------------------------

  /** The model answers "Done." at once: three messages, one call. */
  lemma ScenarioDoneAtOnce(maxIterations: int, config: Config, w: World, d: Dispatcher)
    requires FunctionNameKey in config && ProjectIdKey in config && maxIterations >= 1
    requires w.respond(Seed(w, config)) == Reply(Some("Done."), [])
    ensures var o := RunSpec(maxIterations, config, w, d);
      o.result == "Done." && o.phase == Completed && |o.transcript| == 3 && o.modelCalls == 1
  {
  }

  /**
   * Bound 2: the first reply asks for an unregistered tool, the second says
   * "Fixed.": five messages, the tool message holds the unknown-tool payload
   * (for "foo", `{"error": "Unknown tool: foo"}`, see `FooUnregistered`).
   */
  lemma ScenarioUnknownToolThenFixed(config: Config, w: World, c: Option<string>, req: ToolCallRequest)
    requires FunctionNameKey in config && ProjectIdKey in config
    requires forall t :: Name(t) != req.name
    requires w.respond(Seed(w, config)) == Reply(c, [req])
    requires w.respond(Seed(w, config) + [AssistantMessage(c, [req])]
                       + [ToolMessage(req.id, ErrorPayload(UnknownToolText(req.name)))])
             == Reply(Some("Fixed."), [])
    ensures var o := RunSpec(2, config, w, ToolDispatcher);
      && o.result == "Fixed." && o.phase == Completed && o.modelCalls == 2
      && o.transcript == Seed(w, config) + [AssistantMessage(c, [req]),
                                            ToolMessage(req.id, ErrorPayload(UnknownToolText(req.name))),
                                            AssistantMessage(Some("Fixed."), [])]
      && o.history == []
  {
    UnknownToolTurn(req, [], config, w);
    var seed := Seed(w, config);
    var payload := ToolMessage(req.id, ErrorPayload(UnknownToolText(req.name)));
    DriveTool(seed, 2, [], 0, config, w, ToolDispatcher);
    DriveFinal(seed + [AssistantMessage(c, [req])] + [payload], 1, [], 1, config, w, ToolDispatcher);
    assert seed + [AssistantMessage(c, [req])] + [payload] + [AssistantMessage(Some("Fixed."), [])]
        == seed + [AssistantMessage(c, [req]), payload, AssistantMessage(Some("Fixed."), [])];
  }

  /** No registered tool is called "foo"; a request for it is answered `{"error": "Unknown tool: foo"}`. */
  lemma FooUnregistered()
    ensures forall t :: Name(t) != "foo"
    ensures ErrorPayload(UnknownToolText("foo")) == "{\"error\": \"Unknown tool: foo\"}"
  {
    forall t: Tool
      ensures Name(t) != "foo"
    {
      match t
      case QueryLogs => assert Name(t)[0] == 'q';
      case ListLogEntries => assert Name(t)[0] == 'l';
      case ListRepoFiles => assert Name(t)[0] == 'l';
      case GetFileContent => assert Name(t)[0] == 'g';
      case CreateBranch => assert Name(t)[0] == 'c';
      case CommitFileChange => assert Name(t)[0] == 'c';
      case CreatePullRequest => assert Name(t)[0] == 'c';
    }
  }

  /** A request for an unregistered name is answered with the unknown-tool payload and runs no handler. */
  lemma UnknownToolTurn(req: ToolCallRequest, history: seq<Invocation>, config: Config, w: World)
    requires forall t :: Name(t) != req.name
    ensures CallAll([req], history, config, w, ToolDispatcher)
      == Turn([ToolMessage(req.id, ErrorPayload(UnknownToolText(req.name)))], history)
  {
    var e := w.execute(history);
    UnknownToolRunsNoHandler(req.name, ParsedArguments(w.decode, req.arguments), config, e, e);
    assert [req][..0] == [];
  }

  /** Bound 1: a tool-call turn is executed, then the budget text is returned with its result kept. */
  lemma ScenarioBoundOneKeepsToolResult(config: Config, w: World, d: Dispatcher, req: ToolCallRequest)
    requires FunctionNameKey in config && ProjectIdKey in config
    requires w.respond(Seed(w, config)) == Reply(None, [req])
    ensures var o := RunSpec(1, config, w, d);
      && o.result == BudgetExhaustedText && o.modelCalls == 1 && |o.transcript| == 4
      && o.transcript[3] == ToolMessage(req.id, Answer(req, [], config, w, d))
      && o.history == Performed(d, req.name, ParsedArguments(w.decode, req.arguments))
  {
    LastTurnKept(Seed(w, config), [], 0, config, w, d);
    CallAllLength([req], [], config, w, d);
    CallAllSnoc([req], 0, [], config, w, d);
    assert [req][..1] == [req];
  }
}
