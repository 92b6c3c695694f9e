/**
 * The ReAct agent: a two-node graph over an append-only message log.
 * "agent" calls the chat model; `ShouldContinue` then routes to "tool"
 * when the reply requests tool calls and ends otherwise; "tool" answers
 * every requested call and always returns to "agent".
 */
module ReAct {
  import opened Results
  import opened Messages

  const SystemPrompt := "You are a ReAct agent. Please respond to the users query to the best of your ability!"

  /** The two graph nodes. */
  datatype Node = AtAgent | AtTool

  /** The routes out of "agent": to "tool", or to the end of the graph. */
  datatype Route = Continue | End

  /** Why the tool node raised: the registry lookup failed, the tool did, or serializing its result did. */
  datatype ToolError =
    | UnknownTool(name: string)
    | ToolRaised(name: string, message: string)
    | SerializeFailed(name: string, message: string)

  /** How a run ends: with a final reply, with an exception in the tool node, or with its fuel spent. */
  datatype RunOutcome =
    | Finished(messages: seq<Message>)
    | ToolFailed(error: ToolError, messages: seq<Message>)
    | OutOfFuel(messages: seq<Message>)

  function Last(s: seq<Message>): Message
    requires |s| > 0
  {
    s[|s| - 1]
  }

  /** The name-to-tool registry built from a tool list, later entries overriding earlier ones. */
  function Registry(toolList: seq<Tool>): map<string, Tool>
    decreases |toolList|
  {
    if toolList == [] then map[]
    else
      var last := toolList[|toolList| - 1];
      Registry(toolList[..|toolList| - 1])[last.name := last]
  }

  /** The registry's names are exactly the names of the listed tools. */
  lemma {:induction false} RegistryKeys(toolList: seq<Tool>)
    ensures Registry(toolList).Keys == set i | 0 <= i < |toolList| :: toolList[i].name
    decreases |toolList|
  {
    if toolList != [] {
      var n := |toolList| - 1;
      RegistryKeys(toolList[..n]);
      assert forall i :: 0 <= i < n ==> toolList[..n][i] == toolList[i];
      assert (set i | 0 <= i < |toolList| :: toolList[i].name)
          == (set i | 0 <= i < n :: toolList[..n][i].name) + {toolList[n].name};
    }
  }

  /** A name maps to the last tool in the list that carries it. */
  lemma {:induction false} RegistryLastWins(toolList: seq<Tool>, i: int)
    requires 0 <= i < |toolList|
    requires forall j :: i < j < |toolList| ==> toolList[j].name != toolList[i].name
    ensures toolList[i].name in Registry(toolList)
    ensures Registry(toolList)[toolList[i].name] == toolList[i]
    decreases |toolList|
  {
    var n := |toolList| - 1;
    if i < n {
      RegistryLastWins(toolList[..n], i);
    }
  }

  /** `should_continue`: the route out of "agent", decided by the last message alone. */
  function ShouldContinue(messages: seq<Message>): (r: Route)
    requires |messages| > 0 && Last(messages).AIMessage?
    ensures r == End <==> Last(messages).toolCalls == []
  {
    if Last(messages).toolCalls == [] then End else Continue
  }

  /** The decision depends on the last message only, so an unchanged final message is routed to the end again. */
  lemma TerminationIsStable(messages: seq<Message>, later: seq<Message>)
    requires |messages| > 0 && Last(messages).AIMessage? && ShouldContinue(messages) == End
    requires |later| > 0 && Last(later) == Last(messages)
    ensures ShouldContinue(later) == End
  {
  }

  /** Tool messages `obs` answer `calls` one for one, in order, by name and id. */
  predicate Answers(calls: seq<ToolCall>, obs: seq<Message>)
  {
    |obs| == |calls| &&
    forall i :: 0 <= i < |calls| ==>
      obs[i].ToolMessage? && obs[i].name == calls[i].name && obs[i].toolCallId == calls[i].id
  }

  /** `s` is a run of complete tool rounds: an AI message with tool calls, then its answers. */
  predicate Rounds(s: seq<Message>)
    decreases |s|
  {
    s == [] ||
    (s[0].AIMessage? && s[0].toolCalls != [] && |s[0].toolCalls| < |s| &&
     Answers(s[0].toolCalls, s[1..1 + |s[0].toolCalls|]) &&
     Rounds(s[1 + |s[0].toolCalls|..]))
  }

  /** One complete tool round followed by complete rounds is a run of complete rounds. */
  lemma RoundPrefix(a: Message, obs: seq<Message>, rest: seq<Message>)
    requires a.AIMessage? && a.toolCalls != [] && Answers(a.toolCalls, obs) && Rounds(rest)
    ensures Rounds([a] + obs + rest)
  {
    var s := [a] + obs + rest;
    var n := |a.toolCalls|;
    assert s[0] == a;
    assert s[1..1 + n] == obs;
    assert s[1 + n..] == rest;
  }

  /**
   * A constructed agent. `chat` is the chat model with the tool list bound
   * to it, `dumps` serializes a tool result to JSON text or raises, and `tools` is
   * the registry built once from `toolList`.
   */
  datatype ReActAgent = ReActAgent(toolList: seq<Tool>, chat: (seq<Tool>, seq<Message>) -> Reply, dumps: Value -> Result<string, string>)
  {
    const tools: map<string, Tool> := Registry(toolList)

    /** What the model is shown: the system prompt, then the whole history. */
    function Prompt(history: seq<Message>): (p: seq<Message>)
      ensures |p| == |history| + 1 && p[0] == SystemMessage(SystemPrompt) && p[1..] == history
    {
      [SystemMessage(SystemPrompt)] + history
    }

    /** `AgentNode`: one model call, whose reply is the one message the node adds. */
    function AgentNode(history: seq<Message>): (added: seq<Message>)
      ensures |added| == 1 && added[0].AIMessage?
      ensures added[0].toolCalls == chat(toolList, Prompt(history)).toolCalls
    {
      var reply := chat(toolList, Prompt(history));
      [AIMessage(reply.content, reply.toolCalls)]
    }

    /** The call succeeds: its tool is registered and returns a result that serializes. */
    predicate Serves(call: ToolCall)
    {
      call.name in tools && tools[call.name].run(call.args).Returned? &&
      dumps(tools[call.name].run(call.args).value).Ok?
    }

    /** The tool message answering one call, or the exception it raises. */
    function Answer(call: ToolCall): Result<Message, ToolError>
    {
      if call.name !in tools then Err(UnknownTool(call.name))
      else
        match tools[call.name].run(call.args)
        case Raised(message) => Err(ToolRaised(call.name, message))
        case Returned(v) =>
          match dumps(v)
          case Ok(text) => Ok(ToolMessage(text, call.name, call.id))
          case Err(message) => Err(SerializeFailed(call.name, message))
    }

    /** The tool messages answering `calls` in order, or the first exception. */
    function Observe(calls: seq<ToolCall>): Result<seq<Message>, ToolError>
      decreases |calls|
    {
      if calls == [] then Ok([])
      else
        match Observe(calls[..|calls| - 1])
        case Err(e) => Err(e)
        case Ok(prefix) =>
          match Answer(calls[|calls| - 1])
          case Err(e) => Err(e)
          case Ok(m) => Ok(prefix + [m])
    }

    /**
     * The tool node succeeds exactly when every call is served (its tool is
     * registered, returns, and the result serializes); it then emits one
     * tool message per call, in call order, carrying the call's name and id
     * and the serialized result of running the registered tool on the
     * call's arguments.
     */
    lemma {:induction false} ObserveSucceeds(calls: seq<ToolCall>)
      ensures Observe(calls).Ok? <==> forall i :: 0 <= i < |calls| ==> Serves(calls[i])
      ensures Observe(calls).Ok? ==>
        |Observe(calls).value| == |calls| &&
        forall i :: 0 <= i < |calls| ==>
          Observe(calls).value[i] == ToolMessage(dumps(tools[calls[i].name].run(calls[i].args).value).value, calls[i].name, calls[i].id)
      decreases |calls|
    {
      if calls != [] {
        var n := |calls| - 1;
        ObserveSucceeds(calls[..n]);
        assert forall i :: 0 <= i < n ==> calls[..n][i] == calls[i];
      }
    }

    /**
     * When the tool node raises, it raises for the first call that is not
     * served: a lookup failure for an unregistered name, the tool's own
     * exception, or the serializer's.
     */
    lemma {:induction false} ObserveFailsAtFirst(calls: seq<ToolCall>)
      requires Observe(calls).Err?
      ensures exists k :: 0 <= k < |calls| && Answer(calls[k]) == Err(Observe(calls).error) &&
                          forall j :: 0 <= j < k ==> Serves(calls[j])
      decreases |calls|
    {
      var n := |calls| - 1;
      var init := calls[..n];
      assert forall i :: 0 <= i < n ==> init[i] == calls[i];
      if Observe(init).Err? {
        ObserveFailsAtFirst(init);
        var k :| 0 <= k < n && Answer(init[k]) == Err(Observe(init).error) &&
                 forall j :: 0 <= j < k ==> Serves(init[j]);
        assert Answer(calls[k]) == Err(Observe(calls).error);
      } else {
        ObserveSucceeds(init);
        assert Answer(calls[n]) == Err(Observe(calls).error);
      }
    }

    /** A call to an unregistered name makes the tool node raise; with every earlier call served, the lookup is what fails. */
    lemma UnknownToolAborts(calls: seq<ToolCall>, k: int)
      requires 0 <= k < |calls| && calls[k].name !in tools
      ensures Observe(calls).Err?
      ensures (forall j :: 0 <= j < k ==> Serves(calls[j])) ==> Observe(calls) == Err(UnknownTool(calls[k].name))
    {
      ObserveSucceeds(calls);
      if forall j :: 0 <= j < k ==> Serves(calls[j]) {
        ObserveFailsAtFirst(calls);
        var k' :| 0 <= k' < |calls| && Answer(calls[k']) == Err(Observe(calls).error) &&
                  forall j :: 0 <= j < k' ==> Serves(calls[j]);
        assert !Serves(calls[k]);
        assert k' == k;
      }
    }

    /** `ToolNode`: answers the calls of the last message one after the other. */
    method ToolNode(messages: seq<Message>) returns (r: Result<seq<Message>, ToolError>)
      requires |messages| > 0 && Last(messages).AIMessage?
      ensures r == Observe(Last(messages).toolCalls)
    {
      var calls := Last(messages).toolCalls;
      var output := [];
      for i := 0 to |calls|
        invariant Observe(calls[..i]) == Ok(output)
      {
        assert calls[..i + 1][..i] == calls[..i] && calls[..i + 1][i] == calls[i];
        var call := calls[i];
        if call.name !in tools {
          ObserveKeepsError(calls[..i + 1], calls[i + 1..]);
          assert calls[..i + 1] + calls[i + 1..] == calls;
          return Err(UnknownTool(call.name));
        }
        var result := tools[call.name].run(call.args);
        if result.Raised? {
          ObserveKeepsError(calls[..i + 1], calls[i + 1..]);
          assert calls[..i + 1] + calls[i + 1..] == calls;
          return Err(ToolRaised(call.name, result.error));
        }
        var content := dumps(result.value);
        if content.Err? {
          ObserveKeepsError(calls[..i + 1], calls[i + 1..]);
          assert calls[..i + 1] + calls[i + 1..] == calls;
          return Err(SerializeFailed(call.name, content.error));
        }
        output := output + [ToolMessage(content.value, call.name, call.id)];
      }
      assert calls[..|calls|] == calls;
      return Ok(output);
    }

    /** Once answering a prefix of the calls raises, the later calls are never run. */
    lemma {:induction false} ObserveKeepsError(calls: seq<ToolCall>, rest: seq<ToolCall>)
      requires Observe(calls).Err?
      ensures Observe(calls + rest) == Observe(calls)
      decreases |rest|
    {
      if rest == [] {
        assert calls + rest == calls;
      } else {
        var init := calls + rest[..|rest| - 1];
        assert (calls + rest)[..|calls + rest| - 1] == init;
        ObserveKeepsError(calls, rest[..|rest| - 1]);
      }
    }

    /**
     * The compiled graph, as a function of the fuel left (the number of
     * further visits to "agent" allowed), the node about to run and the
     * message log.
     */
    function Drive(fuel: nat, node: Node, messages: seq<Message>): RunOutcome
      requires node == AtTool ==> |messages| > 0 && Last(messages).AIMessage?
      decreases fuel, if node == AtTool then 1 else 0
    {
      match node
      case AtAgent =>
        if fuel == 0 then OutOfFuel(messages)
        else
          var next := messages + AgentNode(messages);
          if ShouldContinue(next) == End then Finished(next) else Drive(fuel - 1, AtTool, next)
      case AtTool =>
        match Observe(Last(messages).toolCalls)
        case Err(e) => ToolFailed(e, messages)
        case Ok(obs) => Drive(fuel, AtAgent, messages + obs)
    }

    /**
     * `run`: starts at "agent" with the log `[HumanMessage(input)]` and
     * steps the graph, going from "tool" back to "agent" every time, until
     * "agent" routes to the end, the tool node raises, or `fuel` model
     * calls have been made.
     */
    method Run(input: string, fuel: nat) returns (outcome: RunOutcome)
      ensures outcome == Drive(fuel, AtAgent, [HumanMessage(input)])
    {
      var messages := [HumanMessage(input)];
      var node := AtAgent;
      var remaining := fuel;
      while node == AtTool || remaining > 0
        invariant node == AtTool ==> |messages| > 0 && Last(messages).AIMessage?
        invariant Drive(remaining, node, messages) == Drive(fuel, AtAgent, [HumanMessage(input)])
        decreases remaining, if node == AtTool then 1 else 0
      {
        if node == AtAgent {
          messages := messages + AgentNode(messages);
          remaining := remaining - 1;
          if ShouldContinue(messages) == End {
            return Finished(messages);
          }
          node := AtTool;
        } else {
          var result := ToolNode(messages);
          if result.Err? {
            return ToolFailed(result.error, messages);
          }
          messages := messages + result.value;
          node := AtAgent;
        }
      }
      outcome := OutOfFuel(messages);
    }

    /**
     * The outcome `o` of a run from the log `messages` only appended to it,
     * and what it appended is a sequence of complete tool rounds, then:
     * for a finished run, a final AI message without tool calls, which
     * routes to the end; for a failed run, the AI message whose calls raised.
     */
    predicate Extends(messages: seq<Message>, o: RunOutcome)
    {
      messages <= o.messages &&
      match o
      case Finished(m) =>
        |m| > |messages| && Rounds(m[|messages|..|m| - 1]) &&
        Last(m).AIMessage? && Last(m).toolCalls == [] && ShouldContinue(m) == End
      case ToolFailed(e, m) =>
        |m| > |messages| && Rounds(m[|messages|..|m| - 1]) &&
        Last(m).AIMessage? && Observe(Last(m).toolCalls) == Err(e)
      case OutOfFuel(m) =>
        Rounds(m[|messages|..])
    }

    /** A run that extends the log after one more complete tool round also extends the log before it. */
    lemma ExtendsAfterRound(messages: seq<Message>, a: Message, obs: seq<Message>, o: RunOutcome)
      requires a.AIMessage? && a.toolCalls != [] && Answers(a.toolCalls, obs)
      requires Extends(messages + [a] + obs, o)
      ensures Extends(messages, o)
    {
      var after := messages + [a] + obs;
      var m := o.messages;
      assert m[..|after|] == after;
      if o.OutOfFuel? {
        RoundPrefix(a, obs, m[|after|..]);
        assert m[|messages|..] == [a] + obs + m[|after|..];
      } else {
        RoundPrefix(a, obs, m[|after|..|m| - 1]);
        assert m[|messages|..|m| - 1] == [a] + obs + m[|after|..|m| - 1];
      }
    }

    /** Every run of the graph from the "agent" node extends its starting log. */
    lemma {:induction false} DriveExtends(fuel: nat, messages: seq<Message>)
      ensures Extends(messages, Drive(fuel, AtAgent, messages))
      decreases fuel
    {
      if fuel == 0 {
        assert messages[|messages|..] == [];
        return;
      }
      var next := messages + AgentNode(messages);
      if ShouldContinue(next) == End {
        assert next[|messages|..|next| - 1] == [];
        return;
      }
      var a := Last(next);
      if Observe(a.toolCalls).Err? {
        assert next[|messages|..|next| - 1] == [];
        return;
      }
      var obs := Observe(a.toolCalls).value;
      assert next == messages + [a];
      ObserveSucceeds(a.toolCalls);
      DriveExtends(fuel - 1, next + obs);
      ExtendsAfterRound(messages, a, obs, Drive(fuel, AtAgent, messages));
    }

    /**
     * A run starts from the log `[HumanMessage(input)]`, keeps it as its
     * first message, and extends it as `Extends` describes.
     */
    lemma RunShape(input: string, fuel: nat)
      ensures Extends([HumanMessage(input)], Drive(fuel, AtAgent, [HumanMessage(input)]))
      ensures Drive(fuel, AtAgent, [HumanMessage(input)]).messages[0] == HumanMessage(input)
    {
      DriveExtends(fuel, [HumanMessage(input)]);
    }
  }
}
