# DebugAgent core, modelled in Dafny

The model covers the core of DebugAgent, an AI debugging agent. The agent
asks a chat model what to do, runs the tools the model requests (log
queries against a cloud function, and operations on a GitHub repository),
feeds the results back, and stops when the model answers without
requesting a tool or when its turn budget runs out.

The project has four parts:

- `wrappers.dfy`: `Option` and `Result`.
- `tools.dfy` (module `Tools`) models `agent/tools/__init__.py`. It holds:
  - the tool registry `TOOL_SCHEMAS`, without description texts;
  - the handler table of `dispatch`, as the parameters each handler lambda
    reads, required by indexing and optional with a default;
  - `dispatch` itself, with argument binding and the error texts Python
    raises. Every failure becomes a JSON error payload.

  The remote handlers are an oracle, `Executor`. It is given a tool and its
  bound arguments, and returns a text or the text of the exception it raised.
- `config.dfy` (module `Configuration`) models `load_config` of
  `agent/config.py` as a method with the source's loop.
  - The environment is a parameter.
  - The failure path returns the missing-variable lines that the program
    prints before it exits.
- `agent.dfy` (module `Agent`) models the class `DebugAgent` of
  `agent/agent.py`.
  - Its constructor, and `run` as a method with the source's two nested
    loops. The inner loop is the method `CallTools`.
  - The methods are proved against the specification functions `Drive` and
    `CallAll`. The properties of a run are lemmas about those functions.
  - Everything outside the process is an oracle held in a `World`: the
    prompt texts, the chat model, the JSON decoder and the remote handlers.
  - The handlers see the invocations already made in the run, so a tool can
    observe the effect of an earlier one, such as a branch created before a
    commit into it.
  - The driver is stated over any `Dispatcher`, meaning a pair of the answer
    function and the invocation function. The agent's constructor fixes it
    to `ToolDispatcher`, which is `Tools.Dispatch` with `Tools.Invoked`.

## Model

| member | source | states |
|---|---|---|
| Tools.Schema | agent/tools/__init__.py:7-174 | each registry entry carries its tool's name; the body lists the property names, types and `required` lists of the seven schemas |
| Tools.Name | agent/tools/__init__.py:7-174 | no contract; the name of each tool as the registry and the handler table write it (`Handlers` and `RegistryShape` state that the names are distinct and match the table) |
| Tools.ToolSchemas | agent/tools/__init__.py:7-174 | no contract; `TOOL_SCHEMAS`, one schema per tool in source order (its shape is stated by `RegistryShape`) |
| Tools.RegistryShape | agent/tools/__init__.py:7-174 | the registry has exactly seven entries, one per tool in declaration order, with pairwise distinct names |
| Tools.EveryToolListed | agent/tools/__init__.py:7-174 | every tool of the closed set appears in the registry order |
| Tools.RequiredAreProperties | agent/tools/__init__.py:7-174 | every name a schema marks required is one of its declared properties |
| Tools.DefaultsMatchSchemaTypes | agent/tools/__init__.py:7-211 | each optional argument's default is a JSON number exactly when the registry declares that property an integer, and a string exactly when it declares a string |
| Tools.Handlers | agent/tools/__init__.py:189-211 | the handler table has a key for every tool's name mapping to that tool, and each key is the name of the tool it maps to |
| Tools.RegistryMatchesHandlers | agent/tools/__init__.py:7-211 | the names offered to the model are exactly the handler table's keys, entry for entry |
| Tools.Binding | agent/tools/__init__.py:189-211 | every handler reads at least one argument (its full contents are related to the registry by BindingMatchesSchema) |
| Tools.BindingMatchesSchema | agent/tools/__init__.py:7-211 | each handler reads exactly its schema's properties in schema order, and indexes directly exactly the schema's required names in order |
| Tools.RequiredNamesMembers | agent/tools/__init__.py:189-211 | a name is indexed directly if and only if the parameter list holds it as a required parameter |
| Tools.PyTypeName | agent/tools/__init__.py:189-211 | no contract; the Python type name of each kind of decoded JSON value, as exception texts spell it |
| Tools.KeyErrorText | agent/tools/__init__.py:189-211 | no contract; `str(KeyError(k))`, the key in single quotes |
| Tools.SubscriptErrorText | agent/tools/__init__.py:189-211 | no contract; the TypeError text of indexing a list, a string or another value that is not a dict with a string key |
| Tools.GetErrorText | agent/tools/__init__.py:189-211 | no contract; the AttributeError text of calling `.get` on a value that is not a dict |
| Tools.ToolNamed | agent/tools/__init__.py:213 | `handlers.get(name)` finds a tool exactly when some tool has that name, and the tool found has that name |
| Tools.Lookup | agent/tools/__init__.py:189-211 | on an object, `args[k]` succeeds if and only if the key is present; `args.get(k, d)` gives the value or the default; the failure of `args[k]` is the KeyError text naming the key |
| Tools.Bind | agent/tools/__init__.py:189-211 | on an object, binding succeeds if and only if every required key is present; the bound values are the present values or the defaults, one per parameter; a failure names the first missing required key, left to right |
| Tools.ErrorPayload | agent/tools/__init__.py:213-220 | no contract; the payload `{"error": "<msg>"}` that `json.dumps` writes; escaping is listed under "## Left out" |
| Tools.UnknownToolText | agent/tools/__init__.py:215 | no contract; the message `Unknown tool: <name>` |
| Tools.FailedText | agent/tools/__init__.py:220 | no contract; the message `Tool '<name>' failed: <msg>` |
| Tools.Invoked | agent/tools/__init__.py:189-217 | a handler is invoked only for a registered name, with one value per handler parameter; an unregistered name invokes nothing; a registered tool is invoked exactly when its arguments bind, and it receives the bound values |
| Tools.Dispatch | agent/tools/__init__.py:177-220 | an unknown name gives `{"error": "Unknown tool: <name>"}`; a bound call returns the handler's text, or `{"error": "Tool '<name>' failed: <msg>"}` when it raises; a binding failure gives the same failed payload with the exception text |
| Tools.UnknownToolRunsNoHandler | agent/tools/__init__.py:213-215 | an unregistered name runs no handler, so the answer is the unknown-tool payload whatever the handlers would do |
| Tools.DefaultFilled | agent/tools/__init__.py:189-211 | when all required keys are present, an absent optional argument reaches the handler as the table's default |
| Tools.PresentArgumentPassed | agent/tools/__init__.py:189-211 | when all required keys are present, every argument whose key is present, required or optional, reaches the handler with the mapping's value |
| Tools.EmptyMappingListsRoot | agent/tools/__init__.py:196-198 | the empty mapping makes `list_repo_files` list path `""`, the repository root |
| Tools.EmptyMappingFailsRequired | agent/tools/__init__.py:189-220 | every other tool fails on the empty mapping with the KeyError of its schema's first required name, wrapped in the failed payload, and runs no handler |
| Tools.BindNonObject | agent/tools/__init__.py:189-211 | on a value that is not an object the first argument read raises: a TypeError for indexing, an AttributeError for `.get` |
| Tools.NonObjectArgumentsFail | agent/tools/__init__.py:189-220 | JSON that is not an object makes every tool fail with the exception of its first read (the AttributeError for `list_repo_files`, the TypeError for the others) and runs no handler |
| Configuration.Names | agent/config.py:11-18 | the variable names of the table `RequiredVars` (the six names with their descriptions, in declaration order), one per entry, in order |
| Configuration.Present | agent/config.py:24-25 | no contract; `os.environ.get(var)` is truthy: the variable is set and not empty |
| Configuration.MissingLine | agent/config.py:26 | no contract; the line `  - <var>: <description>` |
| Configuration.MissingVars | agent/config.py:23-26 | no contract; the table entries whose variable is unset or empty, in table order (stated by `MissingVarsMembers`, `MissingVarsEmpty` and `MissingVarsAppend`) |
| Configuration.ConfigOf | agent/config.py:20-28 | no contract; each present variable mapped to its environment value (stated by `ConfigOfMembers`) |
| Configuration.MissingLines | agent/config.py:26 | one line `  - <var>: <description>` per missing entry, in order |
| Configuration.LoadConfig | agent/config.py:7-36 | succeeds if and only if every required variable is set and non-empty; on success the configuration is `ConfigOf` of the table; on failure it returns the non-empty list of missing-variable lines, in table order |
| Configuration.MissingVarsMembers | agent/config.py:23-26 | an entry is reported missing if and only if it is in the table and its variable is unset or empty |
| Configuration.MissingVarsEmpty | agent/config.py:23-30 | nothing is missing if and only if every variable of the table is set and non-empty |
| Configuration.MissingVarsAppend | agent/config.py:23-26 | the missing list of a concatenated table is the concatenation of the missing lists, so it keeps table order |
| Configuration.ConfigOfMembers | agent/config.py:23-28 | the configuration holds a key if and only if the key is in the table and set non-empty, and then it holds the environment's value |
| Configuration.LoadedConfigComplete | agent/config.py:20-36 | a successful load has exactly the six table names as keys, each with its environment value |
| Agent.FinalText | agent/agent.py:71 | the final text is never empty; it is the reply's content when that is a non-empty string, and "Agent finished without a summary." otherwise |
| Agent.ParsedArguments | agent/agent.py:84-87 | undecodable argument text becomes the empty mapping; decodable text becomes its decoded value |
| Agent.Seed | agent/agent.py:37-46 | no contract; the system message and the user message built from the function name and the project id |
| Agent.Answer | agent/agent.py:84-93 | no contract; the dispatcher's answer to one request, with its decoded arguments, against the handler history so far |
| Agent.CallOne | agent/agent.py:84-102 | no contract; one tool message with the request's id and answer, and the history extended by the request's invocation |
| Agent.CallAll | agent/agent.py:82-102 | no contract; the tool messages and the history of a turn, requests taken in order (stated by `CallAllLength`, `CallAllHistory` and `CallAllMessages`) |
| Agent.Drive | agent/agent.py:57-108 | no contract; the run from a transcript with a number of turns left (stated by `DriveModelCalls`, `DrivePrefix`, `DriveExchanges` and `DriveResult`) |
| Agent.RunSpec | agent/agent.py:29-108 | no contract; `Drive` from the seed with the budget of `max_iterations` and an empty handler history |
| Agent.UndecodableArgumentsDispatched | agent/agent.py:84-93 | a request with undecodable argument text is dispatched with the empty mapping |
| Agent.Performed | agent/agent.py:93 | a dispatch makes at most one handler invocation, and none exactly when the dispatcher invokes nothing |
| Agent.PerformedAll | agent/agent.py:82-93 | a turn makes at most one handler invocation per request |
| Agent.Budget | agent/agent.py:57 | `range(1, max_iterations + 1)` allows `max_iterations` turns when it is positive, and none otherwise |
| Agent.DebugAgent.constructor | agent/agent.py:12-18 | stores the configuration, the bound and the verbosity, selects model "gpt-4o" and the tool dispatcher, and starts with an empty transcript; it needs the API key in the configuration |
| Agent.DebugAgent.Run | agent/agent.py:29-108 | the returned text, the final transcript and the number of model calls are those of `RunSpec`, the specification of a run from the seed with the budget of `max_iterations` |
| Agent.DebugAgent.CallTools | agent/agent.py:82-102 | the inner loop appends exactly the tool messages of `CallAll` for the requests, in order, and leaves the handler history `CallAll` describes |
| Agent.DriveExhausted | agent/agent.py:104-108 | with no turns left the run returns the budget text and keeps the transcript and the history as they are |
| Agent.DriveFinal | agent/agent.py:70-77 | a reply without tool calls ends the run with its final text, appended as one assistant message without tool calls |
| Agent.DriveTool | agent/agent.py:79-102 | a reply with tool calls appends the assistant message and then the turn's tool messages, and the run goes on with one turn fewer |
| Agent.CallAllLength | agent/agent.py:82-102 | a turn appends exactly one tool message per request |
| Agent.CallAllHistory | agent/agent.py:82-93 | the history after a turn is the history before it followed by the turn's invocations, in request order |
| Agent.CallAllMessages | agent/agent.py:82-102 | the i-th tool message carries the i-th request's id and the answer dispatched against the history left by the requests before it |
| Agent.CallAllSnoc | agent/agent.py:82-102 | one more request extends the turn by its own tool message and invocation |
| Agent.CallAllIds | agent/agent.py:98-102 | the tool messages of a turn answer its requests one by one, by id |
| Agent.DriveModelCalls | agent/agent.py:57-67 | a run makes at most `budget` model calls, at least one when the budget is positive, and exactly `budget` when it runs out |
| Agent.DrivePrefix | agent/agent.py:72-102 | the transcript and the handler history only grow: the starting ones remain prefixes |
| Agent.DriveExchanges | agent/agent.py:70-102 | what a run appends is a series of exchanges: each assistant message is followed at once by one tool message per request, with the ids in order, and an assistant message without requests is last |
| Agent.FinalExchange | agent/agent.py:70-77 | a final reply appends a single assistant message without requests |
| Agent.ToolExchange | agent/agent.py:79-102 | a tool-call turn puts one well-paired exchange in front of what the rest of the run appends |
| Agent.ExchangesCons | agent/agent.py:79-102 | an assistant message with requests, its tool messages in id order, then an exchange series, form an exchange series |
| Agent.DriveResult | agent/agent.py:70-108 | an exhausted run returns the budget text; a completed one returns a non-empty text that is the content of the last transcript entry, an assistant message without tool calls |
| Agent.LastTurnKept | agent/agent.py:79-108 | when the budget ends right after a tool-call turn, that turn's assistant and tool messages stay in the transcript and the budget text is returned |
| Agent.RunStartsFromSeed | agent/agent.py:37-108 | a run's transcript starts with the system and the user message built from the function name and the project id, the rest is an exchange series, and at most `max_iterations` model calls are made |
| Agent.NoBudgetNoCalls | agent/agent.py:57-108 | with a non-positive `max_iterations` no model call is made, the transcript is the seed, and the budget text is returned |
| Agent.LoadedConfigServesAgent | agent/agent.py:16-53 | a configuration that `load_config` accepts holds every key the agent indexes |
| Agent.ScenarioDoneAtOnce | agent/agent.py:57-77 | a model that answers "Done." at once gives result "Done.", three messages, one model call |
| Agent.FooUnregistered | agent/tools/__init__.py:213-215 | no tool is called "foo", and a request for it is answered `{"error": "Unknown tool: foo"}` |
| Agent.UnknownToolTurn | agent/agent.py:82-102 | a request for an unregistered name gets the unknown-tool payload as its tool message and leaves the handler history unchanged |
| Agent.ScenarioUnknownToolThenFixed | agent/agent.py:57-102 | with bound 2, a first reply with any content that requests an unregistered tool, then the reply "Fixed.": the transcript is exactly the seed, that assistant message, the unknown-tool payload and the final assistant message; no handler runs; result "Fixed." after two model calls |
| Agent.ScenarioBoundOneKeepsToolResult | agent/agent.py:57-108 | with bound 1 and a tool-call reply, the dispatcher's answer to the request is the fourth message, the handler history is that request's invocation, and the budget text is returned after one model call |

## Left out

- The OpenAI client, the network and the model are the oracle `World.respond`. Every request also carries `TOOL_SCHEMAS` and the model name. Those never change during a run, so `respond` takes only the transcript.
- Transport errors and exceptions raised by the model client are not modelled. In the source they end `run` with an exception.
- The handler modules `agent/tools/github.py` and `agent/tools/gcp_logging.py` are the oracle `Executor`. The text an operation returns, and the exception text it raises, come from that oracle.
- The prompt texts of `agent/prompts.py` are the oracle fields `World.systemPrompt` and `World.userPrompt`.
- `agent/main.py` is not part of this model. It is the command-line entry point.
- Output is not modelled: the banners of `run`, `_print_step`, `_log`, the error lines `load_config` prints, and `sys.exit(1)`. The failure path returns the missing-variable lines instead. `verbose` is stored but has no effect on the model, since in the source it only controls printing.
- `load_dotenv` and `os.environ` are not modelled. The environment is a parameter of `LoadConfig`.
- `json.loads` is the oracle `World.decode`. Its decoded values have integer numbers: floats are not modelled.
- Schema description texts are not modelled. The model keeps names, types and required lists.
- `json.dumps` escaping is not modelled. `ErrorPayload` writes the message into the payload unchanged. A message that contains `"`, `\`, a control character such as a newline, or a non-ASCII character would be escaped by the source.
- The exception text for indexing a string is that of recent Python versions. Older versions say `string indices must be integers`.
- A reply's `tool_calls` may be `None` or an empty list in the source. Both become the empty sequence, and both end the run.
- The SDK message object appended at agent/agent.py:80 is modelled by its content and its tool calls only.
- Agent.DebugAgent.Run: requires the function-name, project-id and repository keys. The source raises `KeyError` before its first model call when one is missing; see `LoadedConfigServesAgent` for why `load_config` rules that out.
- Agent.DebugAgent.constructor: the defaults `max_iterations=15` and `verbose=False` are not modelled, so both arguments must be given. The only caller, agent/main.py, passes both.
- Agent.DebugAgent.constructor: requires the API key. The source raises `KeyError` when it is missing.
- Agent.DebugAgent.Run: the number of model calls is a ghost counter. The source does not count model calls.
- Tools.Binding: its own contract states only that each handler reads an argument. The correspondence with the registry is stated by `BindingMatchesSchema`.
