/**
 * The tool-calling agent of `src/function_agent.py`: the calculator tool's
 * whitelist, the `should_continue` router, the agent/tools graph run as a
 * loop over an append-only message list, `invoke` and the tool registry.
 *
 * The chat model bound to the tools and LangGraph's `ToolNode` are oracles:
 * `model` maps the current message list to the model's reply (or the
 * exception it raised), `toolNode` maps the message list to the tool-role
 * messages it appends. The source sets no bound of its own on the number of
 * rounds, and LangGraph's recursion limit is not modelled; the model runs the
 * graph with `fuel` agent steps at most and reports a run that used them all
 * as `OutOfFuel`.
 */
module FunctionAgent {
  import opened PyText

  // ---------------------------------------------------------------------
  // Tools
  // ---------------------------------------------------------------------

  // The characters of `set("0123456789+-*/().\\s")`. In that Python literal
  // `\\s` is a backslash followed by the letter `s`, so no whitespace
  // character is allowed.
  const AllowedChars: set<char> :=
    {'0', '1', '2', '3', '4', '5', '6', '7', '8', '9',
     '+', '-', '*', '/', '(', ')', '.', '\\', 's'}

  const InvalidCharactersError: string := "Error: Invalid characters in expression"

  /** `all(c in allowed_chars for c in expression)`. */
  predicate Whitelisted(expression: string) {
    forall i :: 0 <= i < |expression| ==> expression[i] in AllowedChars
  }

  /** The `calculator` tool. `eval` stands for Python's `eval` followed by
      `str`: `Returned(str(result))` or `Raised(str(e))`. It is consulted only
      once the whitelist check has passed. */
  function Calculator(expression: string, eval: string -> Attempt<string>): (result: string)
    ensures !Whitelisted(expression) ==> result == InvalidCharactersError
    ensures Whitelisted(expression) && eval(expression).Returned? ==> result == eval(expression).value
    ensures Whitelisted(expression) && eval(expression).Raised? ==>
              StartsWith(result, "Error: ") && result[7..] == eval(expression).error
  {
    if !Whitelisted(expression) then InvalidCharactersError
    else match eval(expression)
      case Returned(text) => text
      case Raised(error) => "Error: " + error
  }

  /** "Error: " + e determines e. */
  lemma ErrorTextInjective(a: string, b: string)
    requires "Error: " + a == "Error: " + b
    ensures a == b
  {
    assert a == ("Error: " + a)[7..];
    assert b == ("Error: " + b)[7..];
  }

  /** The whitelist error is returned exactly when some character is outside
      the whitelist, unless the evaluator itself produces that very text. */
  lemma CalculatorRejectsIff(expression: string, eval: string -> Attempt<string>)
    requires eval(expression) != Returned(InvalidCharactersError)
    requires eval(expression) != Raised("Invalid characters in expression")
    ensures Calculator(expression, eval) == InvalidCharactersError
            <==> exists i :: 0 <= i < |expression| && expression[i] !in AllowedChars
  {
    if Whitelisted(expression) && eval(expression).Raised? {
      var e := eval(expression).error;
      assert InvalidCharactersError == "Error: " + "Invalid characters in expression";
      if "Error: " + e == InvalidCharactersError {
        ErrorTextInjective(e, "Invalid characters in expression");
      }
    }
  }

  /** A rejected expression is never evaluated: the result is the same
      whatever the evaluator would have done. */
  lemma RejectedNeverEvaluated(expression: string, eval1: string -> Attempt<string>, eval2: string -> Attempt<string>)
    requires !Whitelisted(expression)
    ensures Calculator(expression, eval1) == Calculator(expression, eval2) == InvalidCharactersError
  {
  }

  /** The calculator never raises: an evaluation failure becomes
      "Error: " + message, a success is the evaluator's text. */
  lemma CalculatorOutcomes(expression: string, eval: string -> Attempt<string>)
    requires Whitelisted(expression)
    ensures eval(expression).Raised? ==> Calculator(expression, eval) == "Error: " + eval(expression).error
    ensures eval(expression).Returned? ==> Calculator(expression, eval) == eval(expression).value
  {
  }

  /** The example of the tool's own documentation, "2 + 3 * 4", is rejected:
      it contains spaces. So is every expression with a space. */
  lemma SpaceRejected(expression: string, eval: string -> Attempt<string>)
    requires ' ' in expression
    ensures Calculator(expression, eval) == InvalidCharactersError
    ensures Calculator("2 + 3 * 4", eval) == InvalidCharactersError
  {
    var i :| 0 <= i < |expression| && expression[i] == ' ';
    assert expression[i] !in AllowedChars;
    assert "2 + 3 * 4"[1] !in AllowedChars;
  }

  // The evident intent of the whitelist: digits, the operators, parentheses,
  // the decimal point and whitespace (what `\s` means in a regular
  // expression), as the tool's own example "2 + 3 * 4" needs.
  const IntendedOperators: set<char> :=
    {'0', '1', '2', '3', '4', '5', '6', '7', '8', '9', '+', '-', '*', '/', '(', ')', '.'}

  /** Every character is an operator character or whitespace. */
  predicate IntendedWhitelisted(expression: string) {
    forall i :: 0 <= i < |expression| ==> expression[i] in IntendedOperators || IsSpace(expression[i])
  }

  /** The calculator with the intended whitelist. */
  function IntendedCalculator(expression: string, eval: string -> Attempt<string>): string {
    if !IntendedWhitelisted(expression) then InvalidCharactersError
    else match eval(expression)
      case Returned(text) => text
      case Raised(error) => "Error: " + error
  }

  /** With the intended whitelist the documented example reaches `eval`,
      while a backslash or the letter `s` (which the written whitelist lets
      through) is rejected before evaluation. */
  lemma IntendedCalculatorAcceptsExample(eval: string -> Attempt<string>)
    requires eval("2 + 3 * 4") == Returned("14")
    ensures IntendedCalculator("2 + 3 * 4", eval) == "14"
    ensures Calculator("2 + 3 * 4", eval) == InvalidCharactersError
    ensures IntendedCalculator("s", eval) == InvalidCharactersError
  {
    assert "2 + 3 * 4"[1] !in AllowedChars;
    assert "s"[0] !in IntendedOperators && !IsSpace("s"[0]);
  }

  /** On expressions made only of digits, operators, parentheses and dots the
      intended calculator agrees with the written one. */
  lemma IntendedAgreesOnOperators(expression: string, eval: string -> Attempt<string>)
    requires forall i :: 0 <= i < |expression| ==> expression[i] in IntendedOperators
    ensures IntendedCalculator(expression, eval) == Calculator(expression, eval)
  {
    assert IntendedOperators <= AllowedChars;
  }

  /** The registered tools, in registration order. */
  datatype Tool = GetCurrentTime | CalculatorTool {
    /** The name under which the tool is exposed to the model. */
    function Name(): string {
      match this
      case GetCurrentTime => "get_current_time"
      case CalculatorTool => "calculator"
    }
  }

  /** `[tool.name for tool in tools]`. */
  function ToolNames(tools: seq<Tool>): (names: seq<string>)
    ensures |names| == |tools|
    ensures forall i :: 0 <= i < |tools| ==> names[i] == tools[i].Name()
  {
    seq(|tools|, i requires 0 <= i < |tools| => tools[i].Name())
  }

  // ---------------------------------------------------------------------
  // Messages and the graph
  // ---------------------------------------------------------------------

  datatype Role = System | Human | AI | ToolRole

  datatype ToolCall = ToolCall(id: string, name: string, args: map<string, string>)

  /** A chat message; `toolCalls` is `None` when the message has no
      `tool_calls` attribute (system and human messages). */
  datatype Message = Message(role: Role, content: string, toolCalls: Option<seq<ToolCall>>, toolCallId: Option<string>)

  /** The nodes of the graph; `Start` and `End` are LangGraph's sentinels. */
  datatype Node = Start | Agent | Tools | End

  /** `should_continue`: to the tools node when the last message carries a
      non-empty `tool_calls`, otherwise to END (also when the attribute is
      absent). */
  function ShouldContinue(messages: seq<Message>): (next: Node)
    requires messages != []
    ensures next == Tools || next == End
    ensures next == Tools <==> (messages[|messages| - 1].toolCalls.Some? && messages[|messages| - 1].toolCalls.value != [])
  {
    match messages[|messages| - 1].toolCalls
    case None => End
    case Some(calls) => if |calls| > 0 then Tools else End
  }

  /** The edges of the compiled graph: START to agent, agent to whatever
      `should_continue` says, tools back to agent. */
  function Successor(node: Node, messages: seq<Message>): (next: Node)
    requires node != End
    requires node == Agent ==> messages != []
    ensures next != Start
    ensures next == End ==> node == Agent
    ensures node != Agent ==> next == Agent
    ensures node == Agent ==> next == ShouldContinue(messages)
  {
    match node
    case Start => Agent
    case Agent => ShouldContinue(messages)
    case Tools => Agent
  }

  datatype Status = Done | Failed(error: string) | OutOfFuel

  /** The result of running the graph: how it ended, the final message list
      and the nodes visited, in order. */
  datatype GraphRun = GraphRun(status: Status, messages: seq<Message>, trace: seq<Node>)

  /** Runs the graph from `node` (agent or tools) on `messages`, having
      visited `trace`, with at most `fuel` further agent steps. An agent step
      appends the model's reply; a tools step appends what the tool node
      returns. An exception from either ends the run as `Failed`. */
  function Run(node: Node, messages: seq<Message>, trace: seq<Node>, fuel: nat,
               model: seq<Message> -> Attempt<Message>,
               toolNode: seq<Message> -> Attempt<seq<Message>>): (run: GraphRun)
    requires node == Agent || node == Tools
    requires node == Tools ==> messages != []
    ensures |messages| <= |run.messages| && run.messages[..|messages|] == messages
    ensures |trace| <= |run.trace| && run.trace[..|trace|] == trace
    ensures run.status == Done ==> |run.trace| > |trace| && run.trace[|run.trace| - 1] == Agent
    decreases fuel, if node == Tools then 1 else 0
  {
    if node == Agent then
      if fuel == 0 then GraphRun(OutOfFuel, messages, trace)
      else match model(messages)
        case Raised(e) => GraphRun(Failed(e), messages, trace + [Agent])
        case Returned(reply) =>
          var after := messages + [reply];
          if Successor(Agent, after) == End then GraphRun(Done, after, trace + [Agent])
          else Run(Tools, after, trace + [Agent], fuel - 1, model, toolNode)
    else
      match toolNode(messages)
      case Raised(e) => GraphRun(Failed(e), messages, trace + [Tools])
      case Returned(results) =>
        var run := Run(Successor(Tools, messages), messages + results, trace + [Tools], fuel, model, toolNode);
        assert (trace + [Tools])[..|trace|] == trace;
        assert (messages + results)[..|messages|] == messages;
        run
  }

  /** Nodes alternate agent, tools, agent, ... starting with agent. */
  ghost predicate Alternating(trace: seq<Node>) {
    forall i :: 0 <= i < |trace| ==> trace[i] == (if i % 2 == 0 then Agent else Tools)
  }

  /** Every run starts at the agent node, every tools step is followed by an
      agent step, and a finished run ends at an agent step whose reply routes
      to END: the trace of a finished run is agent (tools agent)*. */
  lemma {:induction false} RunAlternates(node: Node, messages: seq<Message>, trace: seq<Node>, fuel: nat,
                                         model: seq<Message> -> Attempt<Message>,
                                         toolNode: seq<Message> -> Attempt<seq<Message>>)
    requires node == Agent || node == Tools
    requires node == Tools ==> messages != []
    requires Alternating(trace)
    requires node == Agent <==> |trace| % 2 == 0
    ensures Alternating(Run(node, messages, trace, fuel, model, toolNode).trace)
    ensures Run(node, messages, trace, fuel, model, toolNode).status == Done ==>
              |Run(node, messages, trace, fuel, model, toolNode).trace| % 2 == 1
    decreases fuel, if node == Tools then 1 else 0
  {
    if node == Agent {
      if fuel > 0 && model(messages).Returned? {
        var after := messages + [model(messages).value];
        if Successor(Agent, after) != End {
          RunAlternates(Tools, after, trace + [Agent], fuel - 1, model, toolNode);
        }
      }
    } else if toolNode(messages).Returned? {
      RunAlternates(Agent, messages + toolNode(messages).value, trace + [Tools], fuel, model, toolNode);
    }
  }

  /** A finished run ends with the reply of its last agent step, which is the
      model's answer to everything before it and carries no tool calls. */
  lemma {:induction false} RunEndsWithFinalReply(node: Node, messages: seq<Message>, trace: seq<Node>, fuel: nat,
                                                 model: seq<Message> -> Attempt<Message>,
                                                 toolNode: seq<Message> -> Attempt<seq<Message>>)
    requires node == Agent || node == Tools
    requires node == Tools ==> messages != []
    ensures var run := Run(node, messages, trace, fuel, model, toolNode);
            run.status == Done ==>
              && |run.messages| > |messages|
              && model(run.messages[..|run.messages| - 1]) == Returned(run.messages[|run.messages| - 1])
              && ShouldContinue(run.messages) == End
    decreases fuel, if node == Tools then 1 else 0
  {
    if node == Agent {
      if fuel > 0 && model(messages).Returned? {
        var after := messages + [model(messages).value];
        if Successor(Agent, after) != End {
          RunEndsWithFinalReply(Tools, after, trace + [Agent], fuel - 1, model, toolNode);
        } else {
          assert after[..|after| - 1] == messages;
        }
      }
    } else if toolNode(messages).Returned? {
      RunEndsWithFinalReply(Agent, messages + toolNode(messages).value, trace + [Tools], fuel, model, toolNode);
    }
  }

  /** An agent step adds exactly one message, the model's reply, whatever
      happens afterwards. */
  lemma AgentStepAppendsReply(messages: seq<Message>, trace: seq<Node>, fuel: nat,
                              model: seq<Message> -> Attempt<Message>,
                              toolNode: seq<Message> -> Attempt<seq<Message>>)
    requires fuel > 0 && model(messages).Returned?
    ensures var run := Run(Agent, messages, trace, fuel, model, toolNode);
            |run.messages| > |messages| && run.messages[..|messages| + 1] == messages + [model(messages).value]
  {
    var after := messages + [model(messages).value];
    if Successor(Agent, after) != End {
      var run := Run(Tools, after, trace + [Agent], fuel - 1, model, toolNode);
      assert run.messages[..|after|] == after;
    }
  }

  /** More fuel does not change a run that finished or failed: the bound
      only cuts off runs that would otherwise go on. */
  lemma {:induction false} RunFuelMonotone(node: Node, messages: seq<Message>, trace: seq<Node>, fuel: nat, extra: nat,
                                           model: seq<Message> -> Attempt<Message>,
                                           toolNode: seq<Message> -> Attempt<seq<Message>>)
    requires node == Agent || node == Tools
    requires node == Tools ==> messages != []
    requires Run(node, messages, trace, fuel, model, toolNode).status != OutOfFuel
    ensures Run(node, messages, trace, fuel + extra, model, toolNode) == Run(node, messages, trace, fuel, model, toolNode)
    decreases fuel, if node == Tools then 1 else 0
  {
    if node == Agent {
      if model(messages).Returned? {
        var after := messages + [model(messages).value];
        if Successor(Agent, after) != End {
          RunFuelMonotone(Tools, after, trace + [Agent], fuel - 1, extra, model, toolNode);
        }
      }
    } else if toolNode(messages).Returned? {
      RunFuelMonotone(Agent, messages + toolNode(messages).value, trace + [Tools], fuel, extra, model, toolNode);
    }
  }

  /** The loop that the compiled graph executes: START goes to the agent
      node, the agent node appends the model's reply and routes with
      `should_continue`, the tools node appends the tool messages and goes
      back to the agent node. */
  method RunGraph(initial: seq<Message>, fuel: nat,
                  model: seq<Message> -> Attempt<Message>,
                  toolNode: seq<Message> -> Attempt<seq<Message>>) returns (run: GraphRun)
    ensures run == Run(Agent, initial, [], fuel, model, toolNode)
  {
    var node := Successor(Start, initial);
    var messages := initial;
    var trace: seq<Node> := [];
    var remaining := fuel;
    while true
      invariant node == Agent || node == Tools
      invariant node == Tools ==> messages != []
      invariant Run(node, messages, trace, remaining, model, toolNode) == Run(Agent, initial, [], fuel, model, toolNode)
      decreases remaining, if node == Tools then 1 else 0
    {
      if node == Agent {
        if remaining == 0 {
          return GraphRun(OutOfFuel, messages, trace);
        }
        var reply := model(messages);
        trace := trace + [Agent];
        if reply.Raised? {
          return GraphRun(Failed(reply.error), messages, trace);
        }
        messages := messages + [reply.value];
        node := Successor(Agent, messages);
        if node == End {
          return GraphRun(Done, messages, trace);
        }
        remaining := remaining - 1;
      } else {
        var results := toolNode(messages);
        trace := trace + [Tools];
        if results.Raised? {
          return GraphRun(Failed(results.error), messages, trace);
        }
        node := Successor(Tools, messages);
        messages := messages + results.value;
      }
    }
  }

  // ---------------------------------------------------------------------
  // invoke
  // ---------------------------------------------------------------------

  /** The system message that `invoke` puts first. */
  const SystemPrompt: string :=
    "You are a helpful AI assistant with access to tools.\n"
    + "                    Use the available tools when appropriate to answer questions accurately.\n"
    + "                    For calculations, use the calculator tool.\n"
    + "                    For current time, use the get_current_time tool."

  /** The initial state of `invoke`: the system prompt, then the user text. */
  function Seed(message: string): (messages: seq<Message>)
    ensures |messages| == 2
    ensures messages[0].role == System && messages[0].content == SystemPrompt
    ensures messages[1].role == Human && messages[1].content == message
  {
    [Message(System, SystemPrompt, None, None), Message(Human, message, None, None)]
  }

  /** What a call to the agent gives back: the text `invoke` returns, or
      `Unfinished` when the graph had not reached END within the fuel. */
  datatype Reply = Answer(text: string) | Unfinished

  /** `invoke(message)`: the content of the last message of a finished run;
      any exception becomes "Error processing request: " + str(e). */
  function InvokeResult(message: string, fuel: nat,
                        model: seq<Message> -> Attempt<Message>,
                        toolNode: seq<Message> -> Attempt<seq<Message>>): (reply: Reply)
    ensures var run := Run(Agent, Seed(message), [], fuel, model, toolNode);
            && (reply.Unfinished? <==> run.status == OutOfFuel)
            && (run.status.Failed? ==> reply == Answer("Error processing request: " + run.status.error))
            && (run.status == Done ==>
                  var last := run.messages[|run.messages| - 1];
                  && reply == Answer(last.content)
                  && model(run.messages[..|run.messages| - 1]) == Returned(last)
                  && ShouldContinue(run.messages) == End)
  {
    var run := Run(Agent, Seed(message), [], fuel, model, toolNode);
    RunEndsWithFinalReply(Agent, Seed(message), [], fuel, model, toolNode);
    match run.status
    case Done => Answer(run.messages[|run.messages| - 1].content)
    case Failed(e) => Answer("Error processing request: " + e)
    case OutOfFuel => Unfinished
  }

  /** A model that answers the seeded conversation without tool calls gives
      one round trip, and `invoke` returns that answer's content verbatim. */
  lemma InvokeOneRoundTrip(message: string, fuel: nat, reply: Message,
                           model: seq<Message> -> Attempt<Message>,
                           toolNode: seq<Message> -> Attempt<seq<Message>>)
    requires fuel >= 1
    requires model(Seed(message)) == Returned(reply)
    requires reply.toolCalls.None? || reply.toolCalls.value == []
    ensures Run(Agent, Seed(message), [], fuel, model, toolNode) == GraphRun(Done, Seed(message) + [reply], [Agent])
    ensures InvokeResult(message, fuel, model, toolNode) == Answer(reply.content)
  {
  }

  /** One tool call, answered by one tool message, then a final answer: the
      run visits agent, tools, agent, holds exactly that tool message, and
      `invoke` returns the final answer. */
  lemma InvokeOneToolRound(message: string, fuel: nat, call: ToolCall, first: Message, result: Message, last: Message,
                           model: seq<Message> -> Attempt<Message>,
                           toolNode: seq<Message> -> Attempt<seq<Message>>)
    requires fuel >= 2
    requires first.toolCalls == Some([call])
    requires last.toolCalls.None? || last.toolCalls.value == []
    requires model(Seed(message)) == Returned(first)
    requires toolNode(Seed(message) + [first]) == Returned([result])
    requires model(Seed(message) + [first] + [result]) == Returned(last)
    ensures Run(Agent, Seed(message), [], fuel, model, toolNode)
            == GraphRun(Done, Seed(message) + [first, result, last], [Agent, Tools, Agent])
    ensures InvokeResult(message, fuel, model, toolNode) == Answer(last.content)
  {
    OneToolRound(Seed(message), fuel, call, first, result, last, model, toolNode);
  }

  /** The three steps agent, tools, agent of a run with one tool round. */
  lemma OneToolRound(start: seq<Message>, fuel: nat, call: ToolCall, first: Message, result: Message, last: Message,
                     model: seq<Message> -> Attempt<Message>,
                     toolNode: seq<Message> -> Attempt<seq<Message>>)
    requires fuel >= 2
    requires first.toolCalls == Some([call])
    requires last.toolCalls.None? || last.toolCalls.value == []
    requires model(start) == Returned(first)
    requires toolNode(start + [first]) == Returned([result])
    requires model(start + [first] + [result]) == Returned(last)
    ensures Run(Agent, start, [], fuel, model, toolNode)
            == GraphRun(Done, start + [first, result, last], [Agent, Tools, Agent])
  {
    var m1 := start + [first];
    var m2 := m1 + [result];
    var m3 := m2 + [last];
    assert [] + [Agent] == [Agent] && [Agent] + [Tools] == [Agent, Tools];
    assert [Agent, Tools] + [Agent] == [Agent, Tools, Agent];
    AppendThree(start, first, result, last);
    assert m1[|m1| - 1] == first && m3[|m3| - 1] == last;
    AgentStepToTools(start, [], fuel, model, toolNode);
    ToolStepToAgent(m1, [Agent], fuel - 1, model, toolNode);
    AgentStepToEnd(m2, [Agent, Tools], fuel - 1, model, toolNode);
  }

  lemma AppendThree<T>(s: seq<T>, a: T, b: T, c: T)
    ensures s + [a] + [b] + [c] == s + [a, b, c]
  {
  }

  /** One agent step whose reply asks for tools hands over to the tools node. */
  lemma AgentStepToTools(messages: seq<Message>, trace: seq<Node>, fuel: nat,
                         model: seq<Message> -> Attempt<Message>,
                         toolNode: seq<Message> -> Attempt<seq<Message>>)
    requires fuel > 0 && model(messages).Returned?
    requires ShouldContinue(messages + [model(messages).value]) == Tools
    ensures Run(Agent, messages, trace, fuel, model, toolNode)
            == Run(Tools, messages + [model(messages).value], trace + [Agent], fuel - 1, model, toolNode)
  {
  }

  /** One agent step whose reply asks for no tools ends the run. */
  lemma AgentStepToEnd(messages: seq<Message>, trace: seq<Node>, fuel: nat,
                       model: seq<Message> -> Attempt<Message>,
                       toolNode: seq<Message> -> Attempt<seq<Message>>)
    requires fuel > 0 && model(messages).Returned?
    requires ShouldContinue(messages + [model(messages).value]) == End
    ensures Run(Agent, messages, trace, fuel, model, toolNode)
            == GraphRun(Done, messages + [model(messages).value], trace + [Agent])
  {
  }

  /** A tools step that returns appends its messages and hands back to the
      agent node. */
  lemma ToolStepToAgent(messages: seq<Message>, trace: seq<Node>, fuel: nat,
                        model: seq<Message> -> Attempt<Message>,
                        toolNode: seq<Message> -> Attempt<seq<Message>>)
    requires messages != [] && toolNode(messages).Returned?
    ensures Run(Tools, messages, trace, fuel, model, toolNode)
            == Run(Agent, messages + toolNode(messages).value, trace + [Tools], fuel, model, toolNode)
  {
  }

  /** An exception from the model's first call becomes the error reply. */
  lemma InvokeModelFailure(message: string, fuel: nat, error: string,
                           model: seq<Message> -> Attempt<Message>,
                           toolNode: seq<Message> -> Attempt<seq<Message>>)
    requires fuel >= 1
    requires model(Seed(message)) == Raised(error)
    ensures InvokeResult(message, fuel, model, toolNode) == Answer("Error processing request: " + error)
  {
  }

  /** The agent of the source, with the fields its constructor sets once. */
  class FunctionCallerAgent {
    const modelName: string
    const tools: seq<Tool>

    constructor (modelName: string)
      ensures this.modelName == modelName
      ensures tools == [GetCurrentTime, CalculatorTool]
      ensures AvailableTools() == ["get_current_time", "calculator"]
    {
      this.modelName := modelName;
      this.tools := [GetCurrentTime, CalculatorTool];
    }

    /** `get_available_tools`: the names of the registered tools, in order. */
    function AvailableTools(): (names: seq<string>)
      ensures |names| == |tools|
      ensures forall i :: 0 <= i < |tools| ==> names[i] == tools[i].Name()
    {
      ToolNames(tools)
    }

    /** `invoke`: seeds the state, runs the graph, returns the last message's
        content; never raises. */
    method Invoke(message: string, fuel: nat,
                  model: seq<Message> -> Attempt<Message>,
                  toolNode: seq<Message> -> Attempt<seq<Message>>) returns (reply: Reply)
      ensures reply == InvokeResult(message, fuel, model, toolNode)
      ensures reply.Unfinished? <==> Run(Agent, Seed(message), [], fuel, model, toolNode).status == OutOfFuel
    {
      var run := RunGraph(Seed(message), fuel, model, toolNode);
      match run.status {
        case Done => reply := Answer(run.messages[|run.messages| - 1].content);
        case Failed(e) => reply := Answer("Error processing request: " + e);
        case OutOfFuel => reply := Unfinished;
      }
    }
  }
}
