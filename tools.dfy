/**
 * The tool-contract registry and the tool dispatcher (agent/tools/__init__.py).
 *
 * The registry is the constant list of seven tool schemas offered to the
 * model. The dispatcher resolves a tool name through a handler table, binds
 * the handler's arguments (required ones by direct indexing, optional ones
 * with a default) and turns every failure into a JSON error payload instead
 * of raising. The remote handlers themselves are an oracle `Executor`.
 */
module Tools {
  import opened Wrappers

  // ---------------------------------------------------------------------
  // Parsed tool arguments: the value space of a JSON document.
  // ---------------------------------------------------------------------

  /** A decoded JSON value as the dispatcher sees it (numbers are integers). */
  datatype Json =
    | JNull
    | JBool(b: bool)
    | JNumber(n: int)
    | JString(s: string)
    | JArray(items: seq<Json>)
    | JObject(fields: map<string, Json>)

  /** The application configuration handed through to the handlers. */
  type Config = map<string, string>

  // ---------------------------------------------------------------------
  // The registry.
  // ---------------------------------------------------------------------

  /** The closed set of tools; one case per entry of the handler table. */
  datatype Tool =
    | QueryLogs
    | ListLogEntries
    | ListRepoFiles
    | GetFileContent
    | CreateBranch
    | CommitFileChange
    | CreatePullRequest

  /** The JSON-schema type of a parameter. */
  datatype ParamType = StringType | IntegerType

  datatype Property = Property(name: string, kind: ParamType)

  /** One entry of the registry: a function schema (descriptions omitted). */
  datatype ToolSchema = ToolSchema(name: string, properties: seq<Property>, required: seq<string>)

  /** The tools in registry order. */
  const AllTools: seq<Tool> :=
    [QueryLogs, ListLogEntries, ListRepoFiles, GetFileContent, CreateBranch, CommitFileChange, CreatePullRequest]

  function Name(t: Tool): string
  {
    match t
    case QueryLogs => "query_logs"
    case ListLogEntries => "list_log_entries"
    case ListRepoFiles => "list_repo_files"
    case GetFileContent => "get_file_content"
    case CreateBranch => "create_branch"
    case CommitFileChange => "commit_file_change"
    case CreatePullRequest => "create_pull_request"
  }

  function PropertyNames(ps: seq<Property>): (names: seq<string>)
    ensures |names| == |ps|
    ensures forall i :: 0 <= i < |ps| ==> names[i] == ps[i].name
  {
    if ps == [] then [] else [ps[0].name] + PropertyNames(ps[1..])
  }

  /** The schema the registry declares for `t`. */
  function Schema(t: Tool): (s: ToolSchema)
    ensures s.name == Name(t)
  {
    match t
    case QueryLogs =>
      ToolSchema("query_logs",
        [Property("filter_str", StringType), Property("limit", IntegerType)],
        ["filter_str"])
    case ListLogEntries =>
      ToolSchema("list_log_entries",
        [Property("function_name", StringType), Property("hours_ago", IntegerType), Property("limit", IntegerType)],
        ["function_name"])
    case ListRepoFiles =>
      ToolSchema("list_repo_files", [Property("path", StringType)], [])
    case GetFileContent =>
      ToolSchema("get_file_content",
        [Property("path", StringType), Property("ref", StringType)],
        ["path"])
    case CreateBranch =>
      ToolSchema("create_branch", [Property("branch_name", StringType)], ["branch_name"])
    case CommitFileChange =>
      ToolSchema("commit_file_change",
        [Property("path", StringType), Property("content", StringType),
         Property("message", StringType), Property("branch", StringType)],
        ["path", "content", "message", "branch"])
    case CreatePullRequest =>
      ToolSchema("create_pull_request",
        [Property("title", StringType), Property("body", StringType),
         Property("head_branch", StringType), Property("base_branch", StringType)],
        ["title", "body", "head_branch"])
  }

  /** TOOL_SCHEMAS: the registry sent to the model on every turn. */
  function ToolSchemas(): seq<ToolSchema>
  {
    [Schema(QueryLogs), Schema(ListLogEntries), Schema(ListRepoFiles), Schema(GetFileContent),
     Schema(CreateBranch), Schema(CommitFileChange), Schema(CreatePullRequest)]
  }

  // ---------------------------------------------------------------------
  // The handler table.
  // ---------------------------------------------------------------------

  /**
   * How a handler lambda reads one argument: `args[k]` for a required one,
   * `args.get(k, default)` for an optional one.
   */
  datatype Param = Required(name: string) | Optional(name: string, default: Json)

  /** The names a handler indexes directly, in the order it indexes them. */
  function RequiredNames(ps: seq<Param>): seq<string>
  {
    if ps == [] then []
    else (if ps[0].Required? then [ps[0].name] else []) + RequiredNames(ps[1..])
  }

  /** The arguments each handler lambda passes to its remote operation, in call order. */
  function Binding(t: Tool): (ps: seq<Param>)
    ensures |ps| > 0
  {
    match t
    case QueryLogs => [Required("filter_str"), Optional("limit", JNumber(50))]
    case ListLogEntries =>
      [Required("function_name"), Optional("hours_ago", JNumber(24)), Optional("limit", JNumber(50))]
    case ListRepoFiles => [Optional("path", JString(""))]
    case GetFileContent => [Required("path"), Optional("ref", JString("main"))]
    case CreateBranch => [Required("branch_name")]
    case CommitFileChange => [Required("path"), Required("content"), Required("message"), Required("branch")]
    case CreatePullRequest =>
      [Required("title"), Required("body"), Required("head_branch"), Optional("base_branch", JString("main"))]
  }

  /** The keys of the `handlers` dictionary. */
  function Handlers(): (h: map<string, Tool>)
    ensures forall t :: Name(t) in h && h[Name(t)] == t
    ensures forall k :: k in h ==> Name(h[k]) == k
  {
    map[
      "query_logs" := QueryLogs,
      "list_log_entries" := ListLogEntries,
      "list_repo_files" := ListRepoFiles,
      "get_file_content" := GetFileContent,
      "create_branch" := CreateBranch,
      "commit_file_change" := CommitFileChange,
      "create_pull_request" := CreatePullRequest
    ]
  }

  /** `handlers.get(tool_name)`. */
  function ToolNamed(name: string): (r: Option<Tool>)
    ensures r.Some? <==> exists t :: Name(t) == name
    ensures r.Some? ==> Name(r.value) == name
  {
    if name in Handlers() then Some(Handlers()[name]) else None
  }

  // ---------------------------------------------------------------------
  // Argument binding, with the exception texts Python raises.
  // ---------------------------------------------------------------------

  /** The Python type name of a decoded JSON value. */
  function PyTypeName(v: Json): string
  {
    match v
    case JNull => "NoneType"
    case JBool(_) => "bool"
    case JNumber(_) => "int"
    case JString(_) => "str"
    case JArray(_) => "list"
    case JObject(_) => "dict"
  }

  /** `str(KeyError(k))`: the key's repr. */
  function KeyErrorText(k: string): string
  {
    "'" + k + "'"
  }

  /** `str(e)` for the TypeError raised by `v[k]` on a non-dict value `v`. */
  function SubscriptErrorText(v: Json): string
  {
    match v
    case JArray(_) => "list indices must be integers or slices, not str"
    case JString(_) => "string indices must be integers, not 'str'"
    case _ => "'" + PyTypeName(v) + "' object is not subscriptable"
  }

  /** `str(e)` for the AttributeError raised by `v.get(...)` on a non-dict value `v`. */
  function GetErrorText(v: Json): string
  {
    "'" + PyTypeName(v) + "' object has no attribute 'get'"
  }

  /** Reads one argument as the handler lambda does, or the text of what it raises. */
  function Lookup(p: Param, args: Json): (r: Result<Json, string>)
    ensures args.JObject? && p.Required? ==>
      (r.Success? <==> p.name in args.fields)
    ensures args.JObject? && r.Success? ==>
      r.value == if p.name in args.fields then args.fields[p.name] else p.default
    ensures args.JObject? && r.Failure? ==> r.error == KeyErrorText(p.name)
  {
    match args
    case JObject(m) =>
      (match p
       case Required(k) => if k in m then Success(m[k]) else Failure(KeyErrorText(k))
       case Optional(k, d) => Success(if k in m then m[k] else d))
    case _ =>
      Failure(if p.Required? then SubscriptErrorText(args) else GetErrorText(args))
  }

  /** `ps[i]` is the first required parameter whose key `m` lacks. */
  ghost predicate FirstMissing(ps: seq<Param>, m: map<string, Json>, i: int)
  {
    && 0 <= i < |ps| && ps[i].Required? && ps[i].name !in m
    && forall j :: 0 <= j < i && ps[j].Required? ==> ps[j].name in m
  }

  /**
   * Evaluates the handler's argument expressions left to right; the first
   * one that raises decides the failure.
   */
  function Bind(ps: seq<Param>, args: Json): (r: Result<seq<Json>, string>)
    ensures args.JObject? ==>
      (r.Success? <==> forall i :: 0 <= i < |ps| && ps[i].Required? ==> ps[i].name in args.fields)
    ensures r.Success? ==> |r.value| == |ps|
    ensures args.JObject? && r.Success? ==> forall i :: 0 <= i < |ps| ==>
      r.value[i] == if ps[i].name in args.fields then args.fields[ps[i].name] else ps[i].default
    ensures args.JObject? && r.Failure? ==>
      exists i :: FirstMissing(ps, args.fields, i) && r.error == KeyErrorText(ps[i].name)
  {
    if ps == [] then Success([])
    else
      match Lookup(ps[0], args)
      case Failure(e) => Failure(e)
      case Success(v) =>
        match Bind(ps[1..], args)
        case Failure(e) => Failure(e)
        case Success(vs) => Success([v] + vs)
  }

  // ---------------------------------------------------------------------
  // Dispatch.
  // ---------------------------------------------------------------------

  /** One call of a remote operation with its bound arguments, in call order. */
  datatype Invocation = Invocation(tool: Tool, args: seq<Json>)

  /**
   * The remote handlers: what the log-query or repository operation returns
   * (Success) or the text of the exception it raises (Failure).
   */
  type Executor = (Config, Invocation) -> Result<string, string>

  /** The JSON payload `{"error": msg}` as `json.dumps` writes it. */
  function ErrorPayload(msg: string): string
  {
    "{\"error\": \"" + msg + "\"}"
  }

  function UnknownToolText(name: string): string
  {
    "Unknown tool: " + name
  }

  function FailedText(name: string, msg: string): string
  {
    "Tool '" + name + "' failed: " + msg
  }

  /** The handler invocation `dispatch` performs, if it gets as far as one. */
  function Invoked(name: string, args: Json): (r: Option<Invocation>)
    ensures r.Some? ==> Name(r.value.tool) == name && |r.value.args| == |Binding(r.value.tool)|
    ensures ToolNamed(name).None? ==> r.None?
    ensures ToolNamed(name).Some? ==> (r.Some? <==> Bind(Binding(ToolNamed(name).value), args).Success?)
    ensures r.Some? ==> ToolNamed(name) == Some(r.value.tool) && Bind(Binding(r.value.tool), args) == Success(r.value.args)
  {
    match ToolNamed(name)
    case None => None
    case Some(t) =>
      match Bind(Binding(t), args)
      case Failure(_) => None
      case Success(vs) => Some(Invocation(t, vs))
  }

  /**
   * `dispatch(tool_name, arguments, config)`: never raises; every failure
   * becomes an error payload.
   */
  function Dispatch(name: string, args: Json, config: Config, execute: Executor): (r: string)
    ensures ToolNamed(name).None? ==> r == ErrorPayload(UnknownToolText(name))
    ensures Invoked(name, args).Some? ==>
      var outcome := execute(config, Invoked(name, args).value);
      r == if outcome.Success? then outcome.value else ErrorPayload(FailedText(name, outcome.error))
    ensures ToolNamed(name).Some? && Invoked(name, args).None? ==>
      Bind(Binding(ToolNamed(name).value), args).Failure? &&
      r == ErrorPayload(FailedText(name, Bind(Binding(ToolNamed(name).value), args).error))
  {
    match ToolNamed(name)
    case None => ErrorPayload(UnknownToolText(name))
    case Some(t) =>
      match Bind(Binding(t), args)
      case Failure(e) => ErrorPayload(FailedText(name, e))
      case Success(vs) =>
        match execute(config, Invocation(t, vs))
        case Success(s) => s
        case Failure(e) => ErrorPayload(FailedText(name, e))
  }

  // ---------------------------------------------------------------------
  // Properties of the registry and the dispatcher.
  // ---------------------------------------------------------------------

  /** A name is indexed directly exactly when the table marks it required. */
  lemma {:induction false} RequiredNamesMembers(ps: seq<Param>, k: string)
    ensures k in RequiredNames(ps) <==> exists i :: 0 <= i < |ps| && ps[i] == Required(k)
  {
    if ps != [] {
      RequiredNamesMembers(ps[1..], k);
      if k in RequiredNames(ps[1..]) {
        var i :| 0 <= i < |ps[1..]| && ps[1..][i] == Required(k);
        assert ps[i + 1] == Required(k);
      }
      if exists i :: 0 <= i < |ps| && ps[i] == Required(k) {
        var i :| 0 <= i < |ps| && ps[i] == Required(k);
        if i > 0 {
          assert ps[1..][i - 1] == Required(k);
        }
      }
    }
  }

  /**
   * The handler table agrees with the registry: each handler reads exactly
   * the schema's properties, in order, and indexes directly exactly the
   * schema's `required` names, in order.
   */
  lemma BindingMatchesSchema(t: Tool)
    ensures |Binding(t)| == |Schema(t).properties|
    ensures forall i :: 0 <= i < |Binding(t)| ==> Binding(t)[i].name == Schema(t).properties[i].name
    ensures RequiredNames(Binding(t)) == Schema(t).required
  {
    var ps := Binding(t);
    match t
    case QueryLogs =>
    case ListLogEntries =>
      assert ps[3..] == [];
      assert RequiredNames(ps[2..]) == [];
    case ListRepoFiles => assert ps[1..] == [];
    case GetFileContent =>
    case CreateBranch =>
    case CommitFileChange =>
      assert ps[4..] == [];
      assert RequiredNames(ps[3..]) == ["branch"];
      assert RequiredNames(ps[2..]) == ["message", "branch"];
    case CreatePullRequest =>
      assert ps[4..] == [];
      assert RequiredNames(ps[3..]) == [];
      assert RequiredNames(ps[2..]) == ["head_branch"];
  }

  /** Every tool is in the registry list. */
  lemma EveryToolListed(t: Tool)
    ensures t in AllTools
  {
    match t
    case QueryLogs => assert AllTools[0] == t;
    case ListLogEntries => assert AllTools[1] == t;
    case ListRepoFiles => assert AllTools[2] == t;
    case GetFileContent => assert AllTools[3] == t;
    case CreateBranch => assert AllTools[4] == t;
    case CommitFileChange => assert AllTools[5] == t;
    case CreatePullRequest => assert AllTools[6] == t;
  }

  /** The registry lists one schema per tool, in table order, under distinct names. */
  lemma RegistryShape()
    ensures |ToolSchemas()| == |AllTools| == 7
    ensures forall i :: 0 <= i < |ToolSchemas()| ==> ToolSchemas()[i] == Schema(AllTools[i])
    ensures forall i, j :: 0 <= i < j < |ToolSchemas()| ==> ToolSchemas()[i].name != ToolSchemas()[j].name
  {
  }

  /** The schema names are exactly the handler table's keys, tool for tool. */
  lemma RegistryMatchesHandlers()
    ensures |ToolSchemas()| == |AllTools|
    ensures forall i :: 0 <= i < |ToolSchemas()| ==>
      ToolSchemas()[i].name in Handlers() && Handlers()[ToolSchemas()[i].name] == AllTools[i]
    ensures forall k :: k in Handlers() ==>
      exists i :: 0 <= i < |ToolSchemas()| && ToolSchemas()[i].name == k
  {
    RegistryShape();
    forall k | k in Handlers()
      ensures exists i :: 0 <= i < |ToolSchemas()| && ToolSchemas()[i].name == k
    {
      var t := Handlers()[k];
      EveryToolListed(t);
      var i :| 0 <= i < |AllTools| && AllTools[i] == t;
      assert ToolSchemas()[i].name == k;
    }
  }

  /**
   * The defaults of the handler table have the JSON kind the registry
   * declares: a number for an integer property, a string for a string one.
   */
  lemma DefaultsMatchSchemaTypes(t: Tool, i: int)
    requires 0 <= i < |Binding(t)| && i < |Schema(t).properties| && Binding(t)[i].Optional?
    ensures Binding(t)[i].default.JNumber? <==> Schema(t).properties[i].kind == IntegerType
    ensures Binding(t)[i].default.JString? <==> Schema(t).properties[i].kind == StringType
  {
  }

  /** Each schema's `required` list names only declared properties. */
  lemma RequiredAreProperties(t: Tool)
    ensures forall k :: k in Schema(t).required ==> k in PropertyNames(Schema(t).properties)
  {
  }

  /** An unregistered name yields the unknown-tool payload whatever the handlers would do. */
  lemma UnknownToolRunsNoHandler(name: string, args: Json, config: Config, e1: Executor, e2: Executor)
    requires forall t :: Name(t) != name
    ensures Invoked(name, args).None?
    ensures Dispatch(name, args, config, e1) == Dispatch(name, args, config, e2)
              == ErrorPayload(UnknownToolText(name))
  {
  }

  /** An absent optional argument is passed as the table's default. */
  lemma DefaultFilled(t: Tool, m: map<string, Json>, i: int)
    requires forall j :: 0 <= j < |Binding(t)| && Binding(t)[j].Required? ==> Binding(t)[j].name in m
    requires 0 <= i < |Binding(t)| && Binding(t)[i].Optional? && Binding(t)[i].name !in m
    ensures Invoked(Name(t), JObject(m)).Some?
    ensures Invoked(Name(t), JObject(m)).value.args[i] == Binding(t)[i].default
  {
  }

  /** A present argument, required or optional, reaches the handler with its value from the mapping. */
  lemma PresentArgumentPassed(t: Tool, m: map<string, Json>, i: int)
    requires forall j :: 0 <= j < |Binding(t)| && Binding(t)[j].Required? ==> Binding(t)[j].name in m
    requires 0 <= i < |Binding(t)| && Binding(t)[i].name in m
    ensures Invoked(Name(t), JObject(m)).Some?
    ensures Invoked(Name(t), JObject(m)).value.args[i] == m[Binding(t)[i].name]
  {
  }

  /**
   * The empty mapping that replaces undecodable argument text reaches the
   * handler of `list_repo_files`, which lists the repository root.
   */
  lemma EmptyMappingListsRoot()
    ensures Invoked("list_repo_files", JObject(map[])) == Some(Invocation(ListRepoFiles, [JString("")]))
  {
    var ps := Binding(ListRepoFiles);
    assert ps[1..] == [];
    assert Bind(ps[1..], JObject(map[])) == Success([]);
    assert Lookup(ps[0], JObject(map[])) == Success(JString(""));
    var b := Bind(ps, JObject(map[]));
    assert b.Success?;
    assert |b.value| == 1 && b.value[0] == JString("");
    assert b.value == [JString("")];
    assert ToolNamed(Name(ListRepoFiles)) == Some(ListRepoFiles);
  }

  /** Every other tool fails on the empty mapping with its first required argument's KeyError. */
  lemma EmptyMappingFailsRequired(t: Tool, config: Config, execute: Executor)
    requires t != ListRepoFiles
    ensures Invoked(Name(t), JObject(map[])).None?
    ensures Dispatch(Name(t), JObject(map[]), config, execute)
              == ErrorPayload(FailedText(Name(t), KeyErrorText(Schema(t).required[0])))
  {
    var ps := Binding(t);
    BindingMatchesSchema(t);
    assert ps[0].Required?;
    var b := Bind(ps, JObject(map[]));
    var i :| FirstMissing(ps, map[], i) && b.error == KeyErrorText(ps[i].name);
    assert i == 0;
    RequiredNamesMembers(ps, ps[0].name);
  }

  /** On a value that is not an object, the first read raises. */
  lemma BindNonObject(ps: seq<Param>, args: Json)
    requires !args.JObject? && ps != []
    ensures Bind(ps, args) == Failure(if ps[0].Required? then SubscriptErrorText(args) else GetErrorText(args))
  {
  }

  /** Valid JSON that is not an object reaches the handler lambda and fails in its first read. */
  lemma NonObjectArgumentsFail(t: Tool, args: Json, config: Config, execute: Executor)
    requires !args.JObject?
    ensures Invoked(Name(t), args).None?
    ensures Dispatch(Name(t), args, config, execute) == ErrorPayload(FailedText(Name(t),
              if t == ListRepoFiles then GetErrorText(args) else SubscriptErrorText(args)))
  {
    var ps := Binding(t);
    BindNonObject(ps, args);
    assert ps[0].Optional? <==> t == ListRepoFiles;
  }
}
