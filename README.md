# ReAct tool-calling agent — a verified model

This project models the orchestration core of a ReAct agent written in Python on
top of LangChain and LangGraph. The model covers:

- **The agent graph** (`agents/ReAct.py`, module `ReAct`). The graph has two nodes:
  - "agent" shows the chat model the system prompt followed by the whole message
    log, and appends its reply.
  - `should_continue` routes to "tool" when the reply requests tool calls, and to
    the end otherwise.
  - "tool" answers every requested call through the name→tool registry, appending
    one tool message per call, and always returns to "agent".
  - The agent is the datatype `ReActAgent`. Its fields are only set when it is
    built: the tool list, the chat model with the tools bound, and the JSON
    serializer. The registry `tools` is computed from the tool list once. The
    tool node is an imperative method (`ToolNode`) proved equal to the function
    `Observe`. The run is a `while` loop over the two nodes (`Run`) proved equal
    to the graph function `Drive`.
- **The `tools` package** (`tools/__init__.py`, module `ToolPackage`). At import
  time it extends `tool_list` with each submodule's `tool_list`, with no type
  check and no error handling.
- **The guarded aggregator** (`src/react_agent/tools/__init__.py`, module
  `GuardedTools`). `_aggregate_tools` appends every provider's `TOOLS` list. It
  isolates each failing provider with one warning.
- **The calculator provider** (`tools/calculator.py`, module `Calculator`). It
  defines `multiply`, `add` and `power` as tools over integer arguments `a` and
  `b`, and its `tool_list`.

Supporting modules:

- `Results`: a result type for code paths that raise.
- `Messages`: values, tools, tool calls and chat messages.
- `Providers`: what importing a discovered module yields.
- `Scenarios`: wires the pieces together as the program does, and states the
  outcome of the graph on scripted conversations.

External collaborators are parameters of the model:

- The chat model is a function from the bound tool list and the prompt to a
  reply.
- `json.dumps` is a function from values to text.
- Module discovery is a sequence of import outcomes, in discovery order.

The code has no recovery in these places, and the model keeps that:

- A call to an unregistered tool name fails at the dictionary lookup. An
  exception from a tool propagates, and so does a `json.dumps` failure on its
  result. None of these is turned into an error observation, so each ends the
  run with `ToolFailed`.
- The agent's own loop has no iteration cap. The only bound is LangGraph's
  recursion limit on the streamed run (25 graph steps by default), past which
  the run raises. The model stands in for that limit with explicit fuel, the
  number of model calls allowed, and reports `OutOfFuel` when the fuel is spent.
- Duplicate tool names are not rejected: the registry keeps the last tool with
  each name.

## Model

| member | source | states |
|---|---|---|
| `ReAct.ShouldContinue` | agents/ReAct.py:59-63 | routes to the end exactly when the last message has no tool calls, and continues otherwise |
| `ReAct.TerminationIsStable` | agents/ReAct.py:59-63 | the decision depends on the last message only, so re-evaluating an unchanged final message ends again |
| `ReAct.RegistryKeys` | agents/ReAct.py:24 | the registry's keys are exactly the names of the tools in the tool list |
| `ReAct.RegistryLastWins` | agents/ReAct.py:24 | a name maps to the last tool in the list with that name, so later duplicates override earlier ones |
| `ReAct.ReActAgent.Prompt` | agents/ReAct.py:53-56 | the model is shown the system prompt followed by the full, unchanged history |
| `ReAct.ReActAgent.AgentNode` | agents/ReAct.py:52-57 | the agent node adds exactly one message, an AI message carrying the tool calls the model requested for that prompt |
| `ReAct.ReActAgent.ToolNode` | agents/ReAct.py:41-50 | the loop over the last message's tool calls yields exactly `Observe` of those calls: the answers in order, or the first exception |
| `ReAct.ReActAgent.ObserveSucceeds` | agents/ReAct.py:42-50 | the tool node succeeds exactly when every call names a registered tool that returns a result `json.dumps` accepts. It then emits one tool message per call, in call order, with the call's name and id and the serialized result of the tool run on the call's args |
| `ReAct.ReActAgent.ObserveFailsAtFirst` | agents/ReAct.py:43-46 | a failing tool node fails with the exception of the first call not served (lookup, tool or serialization), and every earlier call was served |
| `ReAct.ReActAgent.ObserveKeepsError` | agents/ReAct.py:43-44 | once a call raises, the later calls are never run and the outcome does not change |
| `ReAct.ReActAgent.UnknownToolAborts` | agents/ReAct.py:44 | a call to an unregistered name makes the tool node fail. With every earlier call served, the failure is the lookup error for that name |
| `ReAct.ReActAgent.Run` | agents/ReAct.py:26-39 | the graph loop from "agent" with `[HumanMessage(input)]`, always going from "tool" back to "agent", gives exactly the graph function `Drive` |
| `ReAct.ReActAgent.DriveExtends` | agents/ReAct.py:15-57 | every run only appends to the log. What it appends is complete tool rounds (each AI message with calls, then its answers, one per call by name and id), then the final AI message without calls, or the message whose calls raised |
| `ReAct.RoundPrefix` | agents/ReAct.py:38-50 | one tool round (an AI message with calls, then one answer per call) followed by complete rounds is itself a run of complete rounds |
| `ReAct.ReActAgent.ExtendsAfterRound` | agents/ReAct.py:38 | a run that extends the log after one more tool round also extends the log before it |
| `ReAct.ReActAgent.RunShape` | agents/ReAct.py:65-69 | a run keeps the human input as its first message and only appends after it |
| `Calculator.PowerIsExp` | tools/calculator.py:40 | `a ** b`, computed by binary exponentiation, equals the repeated product for every exponent `b >= 0` |
| `Calculator.PowerRecurrence` | tools/calculator.py:40 | `power(a, 0) == 1` and `power(a, b + 1) == a * power(a, b)` for `b >= 0` |
| `Calculator.ExpAdd` | tools/calculator.py:40 | exponents add: `a ** (m + n) == a ** m * a ** n` |
| `Calculator.ToolsCompute` | tools/calculator.py:3-40 | with integer `a` and `b`, the tools return `a * b` and `a + b`. `power` returns `a ** b` for `b >= 0`. For `b < 0` it raises an overflow error when `a` or `b` does not convert to a double, raises a division by zero for `a == 0`, and otherwise returns a float |
| `Calculator.ToolsRejectBadArguments` | tools/calculator.py:3-40 | a call whose `a` or `b` is missing or not an integer raises in every calculator tool |
| `Calculator.ToolListNames` | tools/calculator.py:42 | `tool_list` is `multiply`, `add`, `power` in that order, with three distinct names |
| `ToolPackage.BuildToolList` | tools/__init__.py:5-10 | the module-level loop yields exactly `Collected`: the extended `tool_list`, or the exception that aborts the import |
| `ToolPackage.CollectedConcat` | tools/__init__.py:7-10 | `tool_list` over `ms + ns` is the list for `ms` followed by the list for `ns`, with duplicates kept. It succeeds exactly when both parts do, and an earlier failure wins |
| `ToolPackage.CollectedSucceeds` | tools/__init__.py:7-10 | building succeeds exactly when every submodule imports and has an iterable `tool_list` or none. Its length is then the sum of the submodules' list lengths |
| `ToolPackage.CollectedFailsAtFirst` | tools/__init__.py:7-10 | an aborted build raises the exception of the first failing submodule (import error or non-iterable list), and every earlier one extended the list |
| `ToolPackage.CollectedKeepsError` | tools/__init__.py:8 | nothing after a failing submodule is looked at |
| `GuardedTools.Complaint` | src/react_agent/tools/__init__.py:12-29 | a provider writes exactly one warning when it failed and none otherwise. The warning names the provider |
| `GuardedTools.AggregateTools` | src/react_agent/tools/__init__.py:7-31 | the loop yields exactly `Aggregated` and `Warnings` over the discovered providers. Every import failure it is given (an `Exception`) is caught, so it does not raise |
| `GuardedTools.AggregatedSplits` | src/react_agent/tools/__init__.py:11-25 | the tools aggregated over `ps + qs` are those over `ps` followed by those over `qs`, in discovery order |
| `GuardedTools.WarningsSplit` | src/react_agent/tools/__init__.py:11-29 | the warnings over `ps + qs` are those over `ps` followed by those over `qs` |
| `GuardedTools.Visit` | src/react_agent/tools/__init__.py:11-29 | a provider's tools and warning land between those of the providers before and after it |
| `GuardedTools.FailureIsolated` | src/react_agent/tools/__init__.py:21-29 | a provider whose import raises, or whose `TOOLS` is not a list, adds no tools and one warning naming it, and leaves every other provider's contribution unchanged |
| `GuardedTools.QuietSkip` | src/react_agent/tools/__init__.py:15-20 | the package module itself, and a provider without `TOOLS` or with `TOOLS` None, add neither tools nor warnings |
| `GuardedTools.ListAppended` | src/react_agent/tools/__init__.py:25 | a provider whose `TOOLS` is a list contributes the whole list in place, duplicates included, without a warning |
| `GuardedTools.WarningPerFailure` | src/react_agent/tools/__init__.py:27-28 | the number of warnings equals the number of failed providers |
| `Scenarios.PackageToolList` | tools/__init__.py:5-10 | the package built from the calculator module has the calculator's `tool_list`. The registry maps `multiply`, `add` and `power` to those tools |
| `Scenarios.AddScenario` | agents/ReAct.py:41-63 | "What is 2 + 3?": the model calls `add`, the tool message carries the serialized 5 with the call's name and id, and the next reply without calls ends the run |
| `Scenarios.UnknownToolScenario` | agents/ReAct.py:44 | a call to the unregistered `subtract` ends the run with the lookup failure, and the model is not called again |
| `Scenarios.GuardedImportFailureScenario` | src/react_agent/tools/__init__.py:11-29 | when one provider's import raises, the others' tools are kept in order and exactly one warning names the failing provider |

## Left out

- The chat model (`ChatOpenAI`, its configuration from environment variables, and `bind_tools`) is a remote service. The model has a deterministic function of the bound tool list and the prompt in its place, and that function always answers: a failed model request, which propagates out of `run` in the program, is not modelled. The `RunnableConfig` passed through is not modelled.
- `json.dumps` is a function parameter `dumps` that returns text or an error (for example the `ValueError` on an integer of more than 4300 digits). Its output format and exactly which values it rejects are not modelled.
- LangGraph's `StateGraph` compile and stream machinery, and the `add_messages` reducer's merge of messages that share an id, are library code. The log is plain append, and the graph is the function `Drive` with the loop `Run`.
- LangGraph's recursion limit (`GraphRecursionError`, 25 steps by default) is modelled as fuel. Fuel counts model calls, while the limit counts agent and tool steps together, so the step at which a long run stops differs. The model ends with `OutOfFuel` and does not claim that runs terminate.
- The printing and `pretty_print` of each streamed state in `run` is presentation only. The intermediate states are the prefixes that `Drive` passes through.
- A provider import that raises a `BaseException` that is not an `Exception` (`SystemExit`, `KeyboardInterrupt`) escapes `_aggregate_tools`. `Raises` stands only for an `Exception`, so that case is not modelled.
- `pkgutil` and `importlib` discovery is replaced by a sequence of import outcomes in discovery order. The following are not modelled: `walk_packages` recursion into subpackages, its handling of errors raised while walking, and the text of the warning line. A warning records the module name and the reason.
- ReAct.ReActAgent: the tool list is typed as tools. The `tools` package extends `tool_list` with whatever a submodule exports, unchecked. A non-tool element in it (a plain function, a dict) makes agent construction raise: an `AttributeError` on `tool.name` when the registry is built, or a `ValueError` from `bind_tools`. That failure of construction is not modelled.
- The `@tool` decorator's schema derivation is not modelled. Tool descriptions hold only the docstring's summary line.
- Calculator.ToolsRejectBadArguments: promises an error for every argument that is not an integer value, whereas pydantic's lax validation coerces numeric strings (`a = "2"`), integral floats and booleans to integers and runs the tool. Argument validation is modelled only as "`a` and `b` present and integers", because the model's values carry no float digits to coerce.
- Python floats are the opaque value `Float`: `power` with a negative exponent, a non-zero base and both operands in double range returns a float whose digits are not modelled.
- Exception messages are constant strings, not the interpreter's exact text.
- main.py (environment loading and the console prompt), src/utils/aoi_mapper.py and src/preprocess/aoi.py (floating-point nearest-neighbour search with external libraries and file I/O) are not part of this model.
