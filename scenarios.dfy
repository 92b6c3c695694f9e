/**
 * The pieces wired together as the program does: the `tools` package
 * collects the calculator's `tool_list`, the agent is built from it, and
 * runs are driven by a scripted chat model.
 */
module Scenarios {
  import opened Results
  import opened Messages
  import opened Providers
  import Calculator
  import ToolPackage
  import GuardedTools
  import opened ReAct

  /** The `tools` package as discovered: its one submodule, `calculator`. */
  const CalculatorModule: Discovered<Tool> :=
    Discovered("calculator", Loads(Module("tools.calculator", map["tool_list" := ListOf(Calculator.ToolList)])))

  /** The package's `tool_list` is the calculator's, and the registry holds its three tools by name. */
  lemma PackageToolList()
    ensures ToolPackage.Collected([CalculatorModule]) == Ok(Calculator.ToolList)
    ensures Registry(Calculator.ToolList).Keys == {"multiply", "add", "power"}
    ensures forall i :: 0 <= i < 3 ==> Registry(Calculator.ToolList)[Calculator.ToolList[i].name] == Calculator.ToolList[i]
  {
    assert [CalculatorModule][..0] == [];
    assert ToolPackage.Extension(CalculatorModule) == Ok(Calculator.ToolList);
    assert ToolPackage.Collected([CalculatorModule]) == Ok([] + Calculator.ToolList);
    assert [] + Calculator.ToolList == Calculator.ToolList;
    Calculator.ToolListNames();
    RegistryKeys(Calculator.ToolList);
    assert (set i | 0 <= i < 3 :: Calculator.ToolList[i].name) == {"multiply", "add", "power"} by {
      assert Calculator.ToolList[0].name == "multiply";
      assert Calculator.ToolList[1].name == "add";
      assert Calculator.ToolList[2].name == "power";
    }
    forall i | 0 <= i < 3
      ensures Registry(Calculator.ToolList)[Calculator.ToolList[i].name] == Calculator.ToolList[i]
    {
      RegistryLastWins(Calculator.ToolList, i);
    }
  }

  /** A chat model that asks for `name(2, 3)` when it has the question and answers "5" once it sees a tool message. */
  function Scripted(name: string): (seq<Tool>, seq<Message>) -> Reply
  {
    (tools: seq<Tool>, prompt: seq<Message>) =>
      if |prompt| > 0 && prompt[|prompt| - 1].HumanMessage?
      then Reply("", [ToolCall(name, Calculator.Operands(2, 3), "call_1")])
      else Reply("5", [])
  }

  const Question := "What is 2 + 3?"

  /**
   * "What is 2 + 3?": the model calls `add`, the tool message carries the
   * serialized 5 under the call's name and id, and the next reply, with
   * no tool calls, ends the run.
   */
  lemma AddScenario(dumps: Value -> Result<string, string>)
    requires dumps(Int(5)).Ok?
    ensures var agent := ReActAgent(Calculator.ToolList, Scripted("add"), dumps);
      agent.Drive(2, AtAgent, [HumanMessage(Question)]) ==
        Finished([HumanMessage(Question),
                  AIMessage("", [ToolCall("add", Calculator.Operands(2, 3), "call_1")]),
                  ToolMessage(dumps(Int(5)).value, "add", "call_1"),
                  AIMessage("5", [])])
  {
    var agent := ReActAgent(Calculator.ToolList, Scripted("add"), dumps);
    PackageToolList();
    Calculator.ToolsCompute(2, 3);
    var call := ToolCall("add", Calculator.Operands(2, 3), "call_1");
    var m1 := [HumanMessage(Question)] + agent.AgentNode([HumanMessage(Question)]);
    assert m1 == [HumanMessage(Question), AIMessage("", [call])];
    assert agent.tools["add"] == Calculator.AddTool;
    assert agent.Answer(call) == Ok(ToolMessage(dumps(Int(5)).value, "add", "call_1"));
    assert [call][..0] == [];
    assert agent.Observe([call]) == Ok([] + [ToolMessage(dumps(Int(5)).value, "add", "call_1")]);
    assert [] + [ToolMessage(dumps(Int(5)).value, "add", "call_1")] == [ToolMessage(dumps(Int(5)).value, "add", "call_1")];
  }

  /**
   * A call to `subtract`, which no provider registers, fails at the
   * registry lookup: the run ends with the exception, and the model is
   * not consulted again.
   */
  lemma UnknownToolScenario(dumps: Value -> Result<string, string>)
    ensures var agent := ReActAgent(Calculator.ToolList, Scripted("subtract"), dumps);
      agent.Drive(2, AtAgent, [HumanMessage(Question)]) ==
        ToolFailed(UnknownTool("subtract"),
                   [HumanMessage(Question),
                    AIMessage("", [ToolCall("subtract", Calculator.Operands(2, 3), "call_1")])])
  {
    var agent := ReActAgent(Calculator.ToolList, Scripted("subtract"), dumps);
    PackageToolList();
    var call := ToolCall("subtract", Calculator.Operands(2, 3), "call_1");
    assert "subtract" !in agent.tools;
    assert [call][..0] == [];
    assert agent.Observe([call]) == Err(UnknownTool("subtract"));
  }

  /**
   * A guarded aggregation where the second provider's import raises: the
   * tools of the other two are kept in order and exactly one warning
   * names the failing provider.
   */
  lemma GuardedImportFailureScenario()
    ensures var ps := [CalculatorGuarded, Discovered("react_agent.tools.broken", Raises("ImportError")), CalculatorGuarded];
      GuardedTools.Aggregated("react_agent.tools", ps) == Calculator.ToolList + Calculator.ToolList &&
      GuardedTools.Warnings("react_agent.tools", ps) ==
        [GuardedTools.Warning("react_agent.tools.broken", GuardedTools.ImportFailed("ImportError"))]
  {
    var package := "react_agent.tools";
    var broken := Discovered("react_agent.tools.broken", Raises("ImportError"));
    var ok := [CalculatorGuarded];
    GuardedTools.Visit(package, ok, broken, ok);
    assert ok + [broken] + ok == [CalculatorGuarded, broken, CalculatorGuarded];
    assert ok[..0] == [];
    assert GuardedTools.Contribution(package, CalculatorGuarded) == Calculator.ToolList;
    assert GuardedTools.Complaint(package, CalculatorGuarded) == [];
    assert GuardedTools.Aggregated(package, ok) == [] + Calculator.ToolList == Calculator.ToolList;
    assert GuardedTools.Warnings(package, ok) == [] + [] == [];
    assert GuardedTools.Contribution(package, broken) == [];
    assert GuardedTools.Complaint(package, broken) == [GuardedTools.Warning(broken.name, GuardedTools.ImportFailed("ImportError"))];
  }

  /** A provider exporting the calculator's tools as `TOOLS`. */
  const CalculatorGuarded: Discovered<Tool> :=
    Discovered("react_agent.tools.calculator", Loads(Module("react_agent.tools.calculator", map["TOOLS" := ListOf(Calculator.ToolList)])))
}
