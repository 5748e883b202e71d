/**
 * The tool layer between the language model and the client: the declared
 * tool schemas, the name-to-call dispatch with its per-parameter defaults,
 * and the outer wrapper that turns every fault into a failure record.
 */
module Tools {
  import opened Wrappers
  import opened Json
  import opened Client

  // ---------------------------------------------------------------------
  // Declared tool schemas
  // ---------------------------------------------------------------------

  datatype ParamType = StringType | IntegerType | BooleanType | StringArrayType | ObjectType

  /** One property of a tool's input schema; `default` is its declared default, if any. */
  datatype ParamSpec = ParamSpec(name: string, ptype: ParamType, default: Option<JsonValue>)

  /** A tool schema without its prose descriptions. */
  datatype ToolDefinition = ToolDefinition(name: string, params: seq<ParamSpec>, required: seq<string>)

  const TableParam: ParamSpec := ParamSpec("table", StringType, None)
  const SysIdParam: ParamSpec := ParamSpec("sys_id", StringType, None)
  const FieldsParam: ParamSpec := ParamSpec("fields", StringArrayType, None)
  const DataParam: ParamSpec := ParamSpec("data", ObjectType, None)

  const QueryRecordsTool: ToolDefinition := ToolDefinition("query_records", [
    TableParam,
    ParamSpec("query", StringType, None),
    FieldsParam,
    ParamSpec("limit", IntegerType, Some(JNum(10))),
    ParamSpec("offset", IntegerType, Some(JNum(0))),
    ParamSpec("display_value", BooleanType, Some(JBool(false))),
    ParamSpec("order_by", StringType, None)], ["table"])
  const GetRecordTool: ToolDefinition := ToolDefinition("get_record", [
    TableParam, SysIdParam, FieldsParam,
    ParamSpec("display_value", BooleanType, Some(JBool(false)))], ["table", "sys_id"])
  const CreateRecordTool: ToolDefinition := ToolDefinition("create_record", [
    TableParam, DataParam,
    ParamSpec("input_display_value", BooleanType, Some(JBool(false)))], ["table", "data"])
  const UpdateRecordTool: ToolDefinition := ToolDefinition("update_record", [
    TableParam, SysIdParam, DataParam,
    ParamSpec("input_display_value", BooleanType, Some(JBool(false)))], ["table", "sys_id", "data"])
  const DeleteRecordTool: ToolDefinition := ToolDefinition("delete_record", [TableParam, SysIdParam], ["table", "sys_id"])
  const TableSchemaTool: ToolDefinition := ToolDefinition("get_table_schema", [TableParam], ["table"])
  const SearchTablesTool: ToolDefinition := ToolDefinition("search_tables", [
    ParamSpec("search_term", StringType, None),
    ParamSpec("limit", IntegerType, Some(JNum(20)))], ["search_term"])
  const UpdateSetsTool: ToolDefinition :=
    ToolDefinition("get_update_sets", [ParamSpec("limit", IntegerType, Some(JNum(20)))], [])
  const ScopesTool: ToolDefinition := ToolDefinition("get_application_scopes", [], [])

  /** `TOOL_DEFINITIONS`, in the order the model is offered them. */
  const ToolDefinitions: seq<ToolDefinition> := [
    QueryRecordsTool, GetRecordTool, CreateRecordTool, UpdateRecordTool, DeleteRecordTool,
    TableSchemaTool, SearchTablesTool, UpdateSetsTool, ScopesTool]

  /** The first definition at or after position `i` with the given name. */
  function FindDefinition(i: nat, name: string): (r: Option<ToolDefinition>)
    requires i <= |ToolDefinitions|
    ensures r.Some? ==> r.value in ToolDefinitions && r.value.name == name
    ensures r.None? ==> forall k :: i <= k < |ToolDefinitions| ==> ToolDefinitions[k].name != name
    decreases |ToolDefinitions| - i
  {
    if i == |ToolDefinitions| then None
    else if ToolDefinitions[i].name == name then Some(ToolDefinitions[i])
    else FindDefinition(i + 1, name)
  }

  function Definition(name: string): Option<ToolDefinition> {
    FindDefinition(0, name)
  }

  /** The declared default of one parameter of one tool. */
  function DeclaredDefault(tool: string, param: string): Option<JsonValue> {
    match Definition(tool)
    case None => None
    case Some(d) => FindDefault(d.params, param)
  }

  function FindDefault(params: seq<ParamSpec>, param: string): Option<JsonValue> {
    if |params| == 0 then None
    else if params[0].name == param then params[0].default
    else FindDefault(params[1..], param)
  }

  const ToolNames: set<string> :=
    {"query_records", "get_record", "create_record", "update_record", "delete_record",
     "get_table_schema", "search_tables", "get_update_sets", "get_application_scopes"}

  /** The nine names are distinct: each selects its own definition, and no other name has one. */
  lemma DefinitionLookup(name: string)
    ensures name == "query_records" ==> Definition(name) == Some(QueryRecordsTool)
    ensures name == "get_record" ==> Definition(name) == Some(GetRecordTool)
    ensures name == "create_record" ==> Definition(name) == Some(CreateRecordTool)
    ensures name == "update_record" ==> Definition(name) == Some(UpdateRecordTool)
    ensures name == "delete_record" ==> Definition(name) == Some(DeleteRecordTool)
    ensures name == "get_table_schema" ==> Definition(name) == Some(TableSchemaTool)
    ensures name == "search_tables" ==> Definition(name) == Some(SearchTablesTool)
    ensures name == "get_update_sets" ==> Definition(name) == Some(UpdateSetsTool)
    ensures name == "get_application_scopes" ==> Definition(name) == Some(ScopesTool)
    ensures Definition(name).Some? <==> name in ToolNames
  {
    var defs := ToolDefinitions;
    assert defs[0] == QueryRecordsTool && defs[1] == GetRecordTool && defs[2] == CreateRecordTool;
    assert defs[3] == UpdateRecordTool && defs[4] == DeleteRecordTool && defs[5] == TableSchemaTool;
    assert defs[6] == SearchTablesTool && defs[7] == UpdateSetsTool && defs[8] == ScopesTool;
    if name !in ToolNames {
      assert FindDefinition(9, name) == None;
      assert FindDefinition(8, name) == None;
      assert FindDefinition(7, name) == None;
      assert FindDefinition(6, name) == None;
      assert FindDefinition(5, name) == None;
      assert FindDefinition(4, name) == None;
      assert FindDefinition(3, name) == None;
      assert FindDefinition(2, name) == None;
      assert FindDefinition(1, name) == None;
    } else {
      assert FindDefinition(0, name) == (if name == "query_records" then Some(QueryRecordsTool) else FindDefinition(1, name));
      assert FindDefinition(1, name) == (if name == "get_record" then Some(GetRecordTool) else FindDefinition(2, name));
      assert FindDefinition(2, name) == (if name == "create_record" then Some(CreateRecordTool) else FindDefinition(3, name));
      assert FindDefinition(3, name) == (if name == "update_record" then Some(UpdateRecordTool) else FindDefinition(4, name));
      assert FindDefinition(4, name) == (if name == "delete_record" then Some(DeleteRecordTool) else FindDefinition(5, name));
      assert FindDefinition(5, name) == (if name == "get_table_schema" then Some(TableSchemaTool) else FindDefinition(6, name));
      assert FindDefinition(6, name) == (if name == "search_tables" then Some(SearchTablesTool) else FindDefinition(7, name));
      assert FindDefinition(7, name) == (if name == "get_update_sets" then Some(UpdateSetsTool) else FindDefinition(8, name));
      assert FindDefinition(8, name) == (if name == "get_application_scopes" then Some(ScopesTool) else FindDefinition(9, name));
    }
  }

  // ---------------------------------------------------------------------
  // Reading the tool input
  // ---------------------------------------------------------------------

  /** The decoded JSON object the model sends as a tool's input. */
  type Input = map<string, JsonValue>

  /** Why reading the input raised: `inp[key]` on an absent key, or a value the call cannot use. */
  datatype Fault = MissingKey(key: string) | WrongType(key: string)

  /** `str(exc)`: a KeyError prints its key in single quotes. */
  function FaultMessage(f: Fault): (r: string)
    ensures f.MissingKey? ==> |r| == |f.key| + 2 && r[0] == '\'' && r[|r| - 1] == '\'' && r[1..|r| - 1] == f.key
    ensures f.WrongType? ==> |r| > |f.key| && r[|r| - |f.key|..] == f.key
  {
    match f
    case MissingKey(k) => "'" + k + "'"
    case WrongType(k) => "unsupported value for " + k
  }

  /** `inp[key]`. */
  function Require(inp: Input, key: string): (r: Result<JsonValue, Fault>)
    ensures r.Ok? <==> key in inp
    ensures r.Ok? ==> r.value == inp[key]
    ensures r.Err? ==> r.error == MissingKey(key)
  {
    if key in inp then Ok(inp[key]) else Err(MissingKey(key))
  }

  /** A value used as a string (a table name, a sys_id, a search term). */
  function AsText(key: string, v: JsonValue): Result<string, Fault> {
    if v.JStr? then Ok(v.s) else Err(WrongType(key))
  }

  /** `inp.get(key, "")` where only its truth value and text matter; null reads as "". */
  function OptionalText(inp: Input, key: string): (r: Result<string, Fault>)
    ensures r.Ok? ==> TextRead(inp, key, r.value)
    ensures r.Err? ==> r.error == WrongType(key)
  {
    if key !in inp || inp[key] == JNull then Ok("")
    else if inp[key].JStr? then Ok(inp[key].s)
    else Err(WrongType(key))
  }

  /** What `inp.get(key, "")` gives as text: "" when absent or null, else the string given. */
  predicate TextRead(inp: Input, key: string, v: string) {
    if key !in inp || inp[key] == JNull then v == "" else inp[key] == JStr(v)
  }

  /** What `inp.get(key, default)` gives as a number: the default when absent, else the number given. */
  predicate IntRead(inp: Input, key: string, default: int, v: int) {
    if key !in inp then v == default else inp[key] == JNum(v)
  }

  /** What `inp.get("fields")` gives: None when absent or null, else the strings of the list, in order. */
  predicate FieldsRead(inp: Input, v: Option<seq<string>>) {
    if "fields" !in inp || inp["fields"] == JNull then v == None
    else
      && v.Some? && inp["fields"].JArr? && |inp["fields"].items| == |v.value|
      && forall k :: 0 <= k < |v.value| ==> inp["fields"].items[k] == JStr(v.value[k])
  }

  /** What `inp.get(key, False)` means to the client: false when absent, else its truth value. */
  predicate FlagRead(inp: Input, key: string, v: bool) {
    if key !in inp then !v else v == Truthy(inp[key])
  }

  /** `inp.get(key, default)` used as an integer. */
  function OptionalInt(inp: Input, key: string, default: int): (r: Result<int, Fault>)
    ensures r.Ok? ==> IntRead(inp, key, default, r.value)
    ensures r.Err? ==> r.error == WrongType(key)
  {
    if key !in inp then Ok(default)
    else if inp[key].JNum? then Ok(inp[key].n)
    else Err(WrongType(key))
  }

  predicate AllText(items: seq<JsonValue>) {
    forall k :: 0 <= k < |items| ==> items[k].JStr?
  }

  function Texts(items: seq<JsonValue>): (r: seq<string>)
    requires AllText(items)
    ensures |r| == |items| && forall k :: 0 <= k < |items| ==> r[k] == items[k].s
  {
    if |items| == 0 then [] else [items[0].s] + Texts(items[1..])
  }

  /** `inp.get("fields")`: absent or null is None, a list of strings is that list. */
  function OptionalFields(inp: Input): (r: Result<Option<seq<string>>, Fault>)
    ensures r.Ok? ==> FieldsRead(inp, r.value)
    ensures r.Err? ==> r.error == WrongType("fields")
  {
    if "fields" !in inp || inp["fields"] == JNull then Ok(None)
    else if inp["fields"].JArr? && AllText(inp["fields"].items) then Ok(Some(Texts(inp["fields"].items)))
    else Err(WrongType("fields"))
  }

  /** `inp.get(key, False)` where the client only tests its truth value. */
  predicate Flag(inp: Input, key: string) {
    key in inp && Truthy(inp[key])
  }

  // ---------------------------------------------------------------------
  // Dispatch
  // ---------------------------------------------------------------------

  /** The client call a tool invocation selects. */
  datatype ClientCall =
    | QueryCall(args: QueryArgs)
    | GetCall(table: string, sysId: string, fields: Option<seq<string>>, displayValue: bool)
    | CreateCall(table: string, data: JsonValue, inputDisplayValue: bool)
    | UpdateCall(table: string, sysId: string, data: JsonValue, inputDisplayValue: bool)
    | DeleteCall(table: string, sysId: string)
    | SchemaCall(table: string)
    | SearchTablesCall(searchTerm: string, limit: int)
    | UpdateSetsCall(limit: int)
    | ScopesCall

  datatype Route = Call(call: ClientCall) | UnknownTool

  // One reader per branch of `_dispatch`. Keyword arguments are evaluated
  // left to right, and every branch names its `inp[...]` reads first, so a
  // missing key is reported before any value is used.

  function ReadQueryRecords(inp: Input): (r: Result<ClientCall, Fault>)
    ensures "table" !in inp ==> r == Err(MissingKey("table"))
    ensures r.Ok? ==>
      && r.value.QueryCall? && "table" in inp && inp["table"] == JStr(r.value.args.table)
      && TextRead(inp, "query", r.value.args.query) && FieldsRead(inp, r.value.args.fields)
      && IntRead(inp, "limit", 10, r.value.args.limit) && IntRead(inp, "offset", 0, r.value.args.offset)
      && FlagRead(inp, "display_value", r.value.args.displayValue)
      && TextRead(inp, "order_by", r.value.args.orderBy)
  {
    var table :- Require(inp, "table");
    var table :- AsText("table", table);
    var query :- OptionalText(inp, "query");
    var fields :- OptionalFields(inp);
    var limit :- OptionalInt(inp, "limit", 10);
    var offset :- OptionalInt(inp, "offset", 0);
    var orderBy :- OptionalText(inp, "order_by");
    Ok(QueryCall(QueryArgs(table, query, fields, limit, offset, Flag(inp, "display_value"), orderBy)))
  }

  function ReadGetRecord(inp: Input): (r: Result<ClientCall, Fault>)
    ensures "table" !in inp ==> r == Err(MissingKey("table"))
    ensures "table" in inp && "sys_id" !in inp ==> r == Err(MissingKey("sys_id"))
    ensures r.Ok? ==>
      && r.value.GetCall? && "table" in inp && "sys_id" in inp
      && inp["table"] == JStr(r.value.table) && inp["sys_id"] == JStr(r.value.sysId)
      && FieldsRead(inp, r.value.fields) && FlagRead(inp, "display_value", r.value.displayValue)
  {
    var table :- Require(inp, "table");
    var sysId :- Require(inp, "sys_id");
    var table :- AsText("table", table);
    var sysId :- AsText("sys_id", sysId);
    var fields :- OptionalFields(inp);
    Ok(GetCall(table, sysId, fields, Flag(inp, "display_value")))
  }

  function ReadCreateRecord(inp: Input): (r: Result<ClientCall, Fault>)
    ensures "table" !in inp ==> r == Err(MissingKey("table"))
    ensures "table" in inp && "data" !in inp ==> r == Err(MissingKey("data"))
    ensures r.Ok? ==>
      && r.value.CreateCall? && "table" in inp && "data" in inp
      && inp["table"] == JStr(r.value.table) && inp["data"] == r.value.data
      && FlagRead(inp, "input_display_value", r.value.inputDisplayValue)
  {
    var table :- Require(inp, "table");
    var data :- Require(inp, "data");
    var table :- AsText("table", table);
    Ok(CreateCall(table, data, Flag(inp, "input_display_value")))
  }

  function ReadUpdateRecord(inp: Input): (r: Result<ClientCall, Fault>)
    ensures "table" !in inp ==> r == Err(MissingKey("table"))
    ensures "table" in inp && "sys_id" !in inp ==> r == Err(MissingKey("sys_id"))
    ensures "table" in inp && "sys_id" in inp && "data" !in inp ==> r == Err(MissingKey("data"))
    ensures r.Ok? ==>
      && r.value.UpdateCall? && "table" in inp && "sys_id" in inp && "data" in inp
      && inp["table"] == JStr(r.value.table) && inp["sys_id"] == JStr(r.value.sysId) && inp["data"] == r.value.data
      && FlagRead(inp, "input_display_value", r.value.inputDisplayValue)
  {
    var table :- Require(inp, "table");
    var sysId :- Require(inp, "sys_id");
    var data :- Require(inp, "data");
    var table :- AsText("table", table);
    var sysId :- AsText("sys_id", sysId);
    Ok(UpdateCall(table, sysId, data, Flag(inp, "input_display_value")))
  }

  function ReadDeleteRecord(inp: Input): (r: Result<ClientCall, Fault>)
    ensures "table" !in inp ==> r == Err(MissingKey("table"))
    ensures "table" in inp && "sys_id" !in inp ==> r == Err(MissingKey("sys_id"))
    ensures r.Ok? ==>
      && r.value.DeleteCall? && "table" in inp && "sys_id" in inp
      && inp["table"] == JStr(r.value.table) && inp["sys_id"] == JStr(r.value.sysId)
  {
    var table :- Require(inp, "table");
    var sysId :- Require(inp, "sys_id");
    var table :- AsText("table", table);
    var sysId :- AsText("sys_id", sysId);
    Ok(DeleteCall(table, sysId))
  }

  function ReadTableSchema(inp: Input): (r: Result<ClientCall, Fault>)
    ensures "table" !in inp ==> r == Err(MissingKey("table"))
    ensures r.Ok? ==> r.value.SchemaCall? && "table" in inp && inp["table"] == JStr(r.value.table)
  {
    var table :- Require(inp, "table");
    var table :- AsText("table", table);
    Ok(SchemaCall(table))
  }

  function ReadSearchTables(inp: Input): (r: Result<ClientCall, Fault>)
    ensures "search_term" !in inp ==> r == Err(MissingKey("search_term"))
    ensures r.Ok? ==>
      && r.value.SearchTablesCall? && "search_term" in inp && inp["search_term"] == JStr(r.value.searchTerm)
      && IntRead(inp, "limit", 20, r.value.limit)
  {
    var term :- Require(inp, "search_term");
    var term :- AsText("search_term", term);
    var limit :- OptionalInt(inp, "limit", 20);
    Ok(SearchTablesCall(term, limit))
  }

  function ReadUpdateSets(inp: Input): (r: Result<ClientCall, Fault>)
    ensures r.Err? ==> r.error == WrongType("limit")
    ensures r.Ok? ==> r.value.UpdateSetsCall? && IntRead(inp, "limit", 20, r.value.limit)
  {
    var limit :- OptionalInt(inp, "limit", 20);
    Ok(UpdateSetsCall(limit))
  }

  function Routed(r: Result<ClientCall, Fault>): Result<Route, Fault> {
    match r
    case Ok(c) => Ok(Call(c))
    case Err(f) => Err(f)
  }

  /** `_dispatch` up to the client call: a chain of name tests, unknown names last. */
  function Dispatch(name: string, inp: Input): (r: Result<Route, Fault>)
    ensures r == Ok(UnknownTool) <==> name !in ToolNames
    ensures r.Ok? && r.value.Call? ==> ToolName(r.value.call) == name
  {
    if name == "query_records" then Routed(ReadQueryRecords(inp))
    else if name == "get_record" then Routed(ReadGetRecord(inp))
    else if name == "create_record" then Routed(ReadCreateRecord(inp))
    else if name == "update_record" then Routed(ReadUpdateRecord(inp))
    else if name == "delete_record" then Routed(ReadDeleteRecord(inp))
    else if name == "get_table_schema" then Routed(ReadTableSchema(inp))
    else if name == "search_tables" then Routed(ReadSearchTables(inp))
    else if name == "get_update_sets" then Routed(ReadUpdateSets(inp))
    else if name == "get_application_scopes" then Ok(Call(ScopesCall))
    else Ok(UnknownTool)
  }

  /** The tool a call belongs to. */
  function ToolName(c: ClientCall): string {
    match c
    case QueryCall(_) => "query_records"
    case GetCall(_, _, _, _) => "get_record"
    case CreateCall(_, _, _) => "create_record"
    case UpdateCall(_, _, _, _) => "update_record"
    case DeleteCall(_, _) => "delete_record"
    case SchemaCall(_) => "get_table_schema"
    case SearchTablesCall(_, _) => "search_tables"
    case UpdateSetsCall(_) => "get_update_sets"
    case ScopesCall => "get_application_scopes"
  }

  /** The session call each client method makes, for the call a dispatch branch of tools.py selects. */
  function RequestFor(c: ClientCall, baseUrl: string): Request {
    match c
    case QueryCall(q) => QueryRequest(baseUrl, q)
    case GetCall(table, sysId, fields, displayValue) => GetRequest(baseUrl, table, sysId, fields, displayValue)
    case CreateCall(table, data, flag) => CreateRequest(baseUrl, table, data, flag)
    case UpdateCall(table, sysId, data, flag) => UpdateRequest(baseUrl, table, sysId, data, flag)
    case DeleteCall(table, sysId) => DeleteRequest(baseUrl, table, sysId)
    case SchemaCall(table) => QueryRequest(baseUrl, SchemaQuery(table))
    case SearchTablesCall(term, limit) => QueryRequest(baseUrl, SearchTablesQuery(term, limit))
    case UpdateSetsCall(limit) => QueryRequest(baseUrl, UpdateSetsQuery(limit))
    case ScopesCall => QueryRequest(baseUrl, ScopesQuery())
  }

  /** `{"success": False, "error": message}`. */
  function FailureRecord(message: string): JsonValue {
    JObj(map["success" := JBool(false), "error" := JStr(message)])
  }

  /**
   * `execute_tool` before serialisation: dispatch, send the selected request,
   * and turn an unknown name, a read fault or a raised transport fault into
   * a failure record. It never raises.
   */
  function ExecuteTool(name: string, inp: Input, baseUrl: string, transport: Transport): (r: JsonValue)
    ensures r.JObj? && "success" in r.members
    ensures r.members["success"] == JBool(true) || r.members["success"] == JBool(false)
    ensures r.members["success"] == JBool(false) ==> "error" in r.members
  {
    match Dispatch(name, inp)
    case Err(f) => FailureRecord(FaultMessage(f))
    case Ok(UnknownTool) => FailureRecord("Unknown tool: " + name)
    case Ok(Call(c)) =>
      match Exchange(transport, RequestFor(c, baseUrl))
      case Raised(message) => FailureRecord(message)
      case Returned(result) => RenderResult(result)
  }

  // ---------------------------------------------------------------------
  // Properties
  // ---------------------------------------------------------------------

  /** The first key of `keys` absent from the input. */
  function FirstMissing(keys: seq<string>, inp: Input): (r: Option<string>)
    ensures r.None? <==> forall k :: 0 <= k < |keys| ==> keys[k] in inp
    ensures r.Some? ==> r.value in keys && r.value !in inp
  {
    if |keys| == 0 then None
    else if keys[0] !in inp then Some(keys[0])
    else FirstMissing(keys[1..], inp)
  }

  /** A value matches its declared JSON-schema type. */
  predicate Matches(v: JsonValue, t: ParamType) {
    match t
    case StringType => v.JStr?
    case IntegerType => v.JNum?
    case BooleanType => v.JBool?
    case StringArrayType => v.JArr? && AllText(v.items)
    case ObjectType => v.JObj?
  }

  /** Every declared property present in the input has its declared type. */
  predicate Conforms(inp: Input, params: seq<ParamSpec>) {
    forall k :: 0 <= k < |params| ==> params[k].name in inp ==> Matches(inp[params[k].name], params[k].ptype)
  }

  /** Exactly the names without a definition are reported as an unknown tool. */
  lemma DispatchFollowsDefinitions(name: string, inp: Input)
    ensures Dispatch(name, inp) == Ok(UnknownTool) <==> Definition(name).None?
  {
    DefinitionLookup(name);
  }

  /** An unknown name gives the "Unknown tool" failure record, whatever the input. */
  lemma UnknownToolFails(name: string, inp: Input, baseUrl: string, transport: Transport)
    requires Definition(name).None?
    ensures ExecuteTool(name, inp, baseUrl, transport)
      == JObj(map["success" := JBool(false), "error" := JStr("Unknown tool: " + name)])
  {
    DispatchFollowsDefinitions(name, inp);
  }

  /**
   * The keys `_dispatch` reads with `inp[...]` are exactly the declared
   * required keys, in order: the first absent one is the fault raised, and
   * when none is absent no key fault is raised at all.
   */
  lemma RequiredKeysAreRead(name: string, inp: Input)
    requires Definition(name).Some?
    ensures FirstMissing(Definition(name).value.required, inp).Some? ==>
      Dispatch(name, inp) == Err(MissingKey(FirstMissing(Definition(name).value.required, inp).value))
    ensures FirstMissing(Definition(name).value.required, inp).None? ==>
      !(Dispatch(name, inp).Err? && Dispatch(name, inp).error.MissingKey?)
  {
    DefinitionLookup(name);
    var keys := Definition(name).value.required;
    if name == "query_records" {
      OneKeyFault(ReadQueryRecords(inp), keys, inp);
    } else if name == "get_record" {
      TwoKeyFaults(ReadGetRecord(inp), keys, inp);
    } else if name == "create_record" {
      TwoKeyFaults(ReadCreateRecord(inp), keys, inp);
    } else if name == "update_record" {
      ThreeKeyFaults(ReadUpdateRecord(inp), keys, inp);
    } else if name == "delete_record" {
      TwoKeyFaults(ReadDeleteRecord(inp), keys, inp);
    } else if name == "get_table_schema" {
      OneKeyFault(ReadTableSchema(inp), keys, inp);
    } else if name == "search_tables" {
      OneKeyFault(ReadSearchTables(inp), keys, inp);
    } else if name == "get_update_sets" {
      assert keys == [];
    } else {
      assert keys == [];
    }
  }

  /** The key fault, if any, of a reader is the first absent key of `keys`. */
  predicate KeyFaultsFollow(r: Result<ClientCall, Fault>, keys: seq<string>, inp: Input) {
    (FirstMissing(keys, inp).Some? ==> r == Err(MissingKey(FirstMissing(keys, inp).value)))
    && (FirstMissing(keys, inp).None? ==> !(r.Err? && r.error.MissingKey?))
  }

  lemma OneKeyFault(r: Result<ClientCall, Fault>, keys: seq<string>, inp: Input)
    requires |keys| == 1
    requires keys[0] !in inp ==> r == Err(MissingKey(keys[0]))
    requires keys[0] in inp ==> !(r.Err? && r.error.MissingKey?)
    ensures KeyFaultsFollow(r, keys, inp)
  {
    assert FirstMissing(keys, inp) == if keys[0] !in inp then Some(keys[0]) else FirstMissing(keys[1..], inp);
  }

  lemma TwoKeyFaults(r: Result<ClientCall, Fault>, keys: seq<string>, inp: Input)
    requires |keys| == 2
    requires keys[0] !in inp ==> r == Err(MissingKey(keys[0]))
    requires keys[0] in inp && keys[1] !in inp ==> r == Err(MissingKey(keys[1]))
    requires keys[0] in inp && keys[1] in inp ==> !(r.Err? && r.error.MissingKey?)
    ensures KeyFaultsFollow(r, keys, inp)
  {
    assert FirstMissing(keys, inp) == if keys[0] !in inp then Some(keys[0]) else FirstMissing(keys[1..], inp);
    assert FirstMissing(keys[1..], inp) == if keys[1] !in inp then Some(keys[1]) else FirstMissing(keys[2..], inp);
  }

  lemma ThreeKeyFaults(r: Result<ClientCall, Fault>, keys: seq<string>, inp: Input)
    requires |keys| == 3
    requires keys[0] !in inp ==> r == Err(MissingKey(keys[0]))
    requires keys[0] in inp && keys[1] !in inp ==> r == Err(MissingKey(keys[1]))
    requires keys[0] in inp && keys[1] in inp && keys[2] !in inp ==> r == Err(MissingKey(keys[2]))
    requires keys[0] in inp && keys[1] in inp && keys[2] in inp ==> !(r.Err? && r.error.MissingKey?)
    ensures KeyFaultsFollow(r, keys, inp)
  {
    assert FirstMissing(keys, inp) == if keys[0] !in inp then Some(keys[0]) else FirstMissing(keys[1..], inp);
    assert FirstMissing(keys[1..], inp) == if keys[1] !in inp then Some(keys[1]) else FirstMissing(keys[2..], inp);
    assert FirstMissing(keys[2..], inp) == if keys[2] !in inp then Some(keys[2]) else FirstMissing(keys[3..], inp);
  }

  /** A present, conforming property has its declared type. */
  lemma ConformsAt(inp: Input, ps: seq<ParamSpec>, k: nat)
    requires Conforms(inp, ps) && k < |ps| && ps[k].name in inp
    ensures Matches(inp[ps[k].name], ps[k].ptype)
  {
  }

  lemma QueryRecordsConforming(inp: Input)
    requires "table" in inp && Conforms(inp, QueryRecordsTool.params)
    ensures ReadQueryRecords(inp).Ok?
  {
    var ps := QueryRecordsTool.params;
    ConformsAt(inp, ps, 0);
    if "query" in inp { ConformsAt(inp, ps, 1); }
    if "fields" in inp { ConformsAt(inp, ps, 2); }
    if "limit" in inp { ConformsAt(inp, ps, 3); }
    if "offset" in inp { ConformsAt(inp, ps, 4); }
    if "order_by" in inp { ConformsAt(inp, ps, 6); }
  }

  lemma GetRecordConforming(inp: Input)
    requires "table" in inp && "sys_id" in inp && Conforms(inp, GetRecordTool.params)
    ensures ReadGetRecord(inp).Ok?
  {
    var ps := GetRecordTool.params;
    ConformsAt(inp, ps, 0);
    ConformsAt(inp, ps, 1);
    if "fields" in inp { ConformsAt(inp, ps, 2); }
  }

  lemma RecordKeysConforming(inp: Input)
    requires "table" in inp && "sys_id" in inp && "data" in inp
    requires Conforms(inp, UpdateRecordTool.params)
    ensures ReadUpdateRecord(inp).Ok?
  {
    ConformsAt(inp, UpdateRecordTool.params, 0);
    ConformsAt(inp, UpdateRecordTool.params, 1);
  }

  lemma DeleteRecordConforming(inp: Input)
    requires "table" in inp && "sys_id" in inp && Conforms(inp, DeleteRecordTool.params)
    ensures ReadDeleteRecord(inp).Ok?
  {
    ConformsAt(inp, DeleteRecordTool.params, 0);
    ConformsAt(inp, DeleteRecordTool.params, 1);
  }

  lemma SearchTablesConforming(inp: Input)
    requires "search_term" in inp && Conforms(inp, SearchTablesTool.params)
    ensures ReadSearchTables(inp).Ok?
  {
    ConformsAt(inp, SearchTablesTool.params, 0);
    if "limit" in inp { ConformsAt(inp, SearchTablesTool.params, 1); }
  }

  /** Input that has the required keys and the declared types never faults. */
  lemma ConformingInputIsDispatched(name: string, inp: Input)
    requires Definition(name).Some?
    requires FirstMissing(Definition(name).value.required, inp).None?
    requires Conforms(inp, Definition(name).value.params)
    ensures Dispatch(name, inp).Ok? && Dispatch(name, inp).value.Call?
  {
    DefinitionLookup(name);
    var d := Definition(name).value;
    assert forall k :: 0 <= k < |d.required| ==> d.required[k] in inp;
    if name == "query_records" {
      assert d.required[0] == "table";
      QueryRecordsConforming(inp);
    } else if name == "get_record" {
      assert d.required[0] == "table" && d.required[1] == "sys_id";
      GetRecordConforming(inp);
    } else if name == "create_record" {
      assert d.required[0] == "table" && d.required[1] == "data";
      ConformsAt(inp, d.params, 0);
    } else if name == "update_record" {
      assert d.required[0] == "table" && d.required[1] == "sys_id" && d.required[2] == "data";
      RecordKeysConforming(inp);
    } else if name == "delete_record" {
      assert d.required[0] == "table" && d.required[1] == "sys_id";
      DeleteRecordConforming(inp);
    } else if name == "get_table_schema" {
      assert d.required[0] == "table";
      ConformsAt(inp, d.params, 0);
    } else if name == "search_tables" {
      assert d.required[0] == "search_term";
      SearchTablesConforming(inp);
    } else if name == "get_update_sets" {
      if "limit" in inp { ConformsAt(inp, d.params, 0); }
    }
  }

  /** When a failure record says the call failed, the message is the fault's, the unknown name, or the transport's. */
  lemma ExecuteToolFailures(name: string, inp: Input, baseUrl: string, transport: Transport)
    ensures Dispatch(name, inp).Err? ==>
      ExecuteTool(name, inp, baseUrl, transport) == FailureRecord(FaultMessage(Dispatch(name, inp).error))
    ensures Dispatch(name, inp).Ok? && Dispatch(name, inp).value.Call? ==>
      var c := Dispatch(name, inp).value.call;
      var reply := transport(RequestFor(c, baseUrl));
      && (reply.TransportFault? ==> ExecuteTool(name, inp, baseUrl, transport) == FailureRecord(reply.message))
      && (reply.Delivered? ==> ExecuteTool(name, inp, baseUrl, transport) == RenderResult(HandleResponse(reply.response)))
  {
  }

  /**
   * Whatever else the input holds, every optional parameter of `query_records`
   * it leaves out takes the default the schema declares.
   */
  lemma QueryRecordsDefaults(inp: Input)
    requires ReadQueryRecords(inp).Ok?
    ensures "limit" !in inp ==>
      DeclaredDefault("query_records", "limit") == Some(JNum(ReadQueryRecords(inp).value.args.limit))
    ensures "offset" !in inp ==>
      DeclaredDefault("query_records", "offset") == Some(JNum(ReadQueryRecords(inp).value.args.offset))
    ensures "display_value" !in inp ==>
      DeclaredDefault("query_records", "display_value") == Some(JBool(ReadQueryRecords(inp).value.args.displayValue))
  {
    DefinitionLookup("query_records");
  }

  /** An absent `display_value` of `get_record` takes the declared default, whatever else is given. */
  lemma GetRecordDefaults(inp: Input)
    requires ReadGetRecord(inp).Ok? && "display_value" !in inp
    ensures DeclaredDefault("get_record", "display_value") == Some(JBool(ReadGetRecord(inp).value.displayValue))
  {
    DefinitionLookup("get_record");
  }

  /** An absent `input_display_value` of `create_record` or `update_record` takes the declared default. */
  lemma WriteRecordDefaults(inp: Input)
    requires "input_display_value" !in inp
    ensures ReadCreateRecord(inp).Ok? ==>
      DeclaredDefault("create_record", "input_display_value") == Some(JBool(ReadCreateRecord(inp).value.inputDisplayValue))
    ensures ReadUpdateRecord(inp).Ok? ==>
      DeclaredDefault("update_record", "input_display_value") == Some(JBool(ReadUpdateRecord(inp).value.inputDisplayValue))
  {
    DefinitionLookup("create_record");
    DefinitionLookup("update_record");
  }

  /** An absent `limit` of `search_tables` or `get_update_sets` takes the declared 20; the scopes tool reads nothing. */
  lemma HelperToolDefaults(inp: Input)
    requires "limit" !in inp
    ensures ReadSearchTables(inp).Ok? ==>
      DeclaredDefault("search_tables", "limit") == Some(JNum(ReadSearchTables(inp).value.limit))
    ensures DeclaredDefault("get_update_sets", "limit") == Some(JNum(ReadUpdateSets(inp).value.limit))
    ensures Dispatch("get_application_scopes", inp) == Ok(Call(ScopesCall))
  {
    DefinitionLookup("search_tables");
    DefinitionLookup("get_update_sets");
  }
}
