/**
 * The ServiceNow Table API client: instance normalisation, the query
 * parameters each operation sends, and the normalisation of every HTTP
 * response into one result shape.
 *
 * HTTP is a value here: a request is a record, the session is a function
 * from requests to replies, and a reply is either a response (status, the
 * decoded JSON body if it decodes, the raw text) or a transport fault.
 */
module Client {
  import opened Wrappers
  import opened Strings
  import opened Json

  // ---------------------------------------------------------------------
  // Requests, responses and the transport
  // ---------------------------------------------------------------------

  datatype Verb = Get | Post | Patch | Delete

  /** A query-string value: the client sends integers and strings. */
  datatype ParamValue = NumParam(n: int) | TextParam(s: string)

  datatype Request = Request(
    verb: Verb,
    url: string,
    params: map<string, ParamValue>,
    body: Option<JsonValue>,
    timeout: nat)

  /** `body` is None when `response.json()` raises (the text is not JSON). */
  datatype Response = Response(status: nat, body: Option<JsonValue>, text: string)

  /** A transport fault (timeout, DNS, refused connection) is raised by the session, not returned. */
  datatype Reply = Delivered(response: Response) | TransportFault(message: string)

  type Transport = Request -> Reply

  const RequestTimeout: nat := 30
  const ServiceNowDomain: string := ".service-now.com"
  const MaxLimit: int := 1000
  const MaxDetailLength: nat := 500
  const NoContentMessage: string := "Operation completed (no content returned)"
  const JsonHeaders: map<string, string> :=
    map["Content-Type" := "application/json", "Accept" := "application/json"]

  // ---------------------------------------------------------------------
  // Instance normalisation
  // ---------------------------------------------------------------------

  /**
   * Removes every "https://" and then every "http://", then cuts at the
   * first ".service-now.com" if there is one.
   */
  function NormalizeInstance(instance: string): (r: string)
    ensures !Contains(r, ServiceNowDomain)
  {
    var stripped := RemoveAll(RemoveAll(instance, "https://"), "http://");
    if Contains(stripped, ServiceNowDomain) then
      BeforeHasNoSeparator(stripped, ServiceNowDomain);
      Before(stripped, ServiceNowDomain)
    else stripped
  }

  function BaseUrl(instance: string): string {
    "https://" + instance + ServiceNowDomain
  }

  predicate NoSlash(s: string) {
    forall k :: 0 <= k < |s| ==> s[k] != '/'
  }

  /** Both protocol removals leave a slash-free host part that follows an optional scheme. */
  lemma StripSchemes(scheme: string, x: string)
    requires scheme == "" || scheme == "https://" || scheme == "http://"
    requires NoSlash(x)
    ensures RemoveAll(RemoveAll(scheme + x, "https://"), "http://") == x
  {
    MissingCharNoOccurrence(x, "https://", 6);
    MissingCharNoOccurrence(x, "http://", 6);
    var s := scheme + x;
    if scheme == "https://" {
      assert s[..8] == "https://";
      assert s[8..] == x;
    } else if scheme == "http://" {
      forall i | 0 <= i <= |s| - 8 ensures !OccursAt(s, "https://", i) {
        assert s[i + 7] == x[i];
        assert s[i..i + 8][7] != "https://"[7];
      }
      assert s[..7] == "http://";
      assert s[7..] == x;
    } else {
      assert s == x;
    }
  }

  /** A host name "<name>.service-now.com<rest>" is cut exactly where a dot-free name ends. */
  lemma CutAtDomain(name: string, rest: string)
    requires forall k :: 0 <= k < |name| ==> name[k] != '.'
    ensures Contains(name + ServiceNowDomain + rest, ServiceNowDomain)
    ensures Before(name + ServiceNowDomain + rest, ServiceNowDomain) == name
  {
    var host := name + ServiceNowDomain + rest;
    assert host[|name|..|name| + |ServiceNowDomain|] == ServiceNowDomain;
    assert OccursAt(host, ServiceNowDomain, |name|);
    forall i | 0 <= i < |name| ensures !OccursAt(host, ServiceNowDomain, i) {
      assert host[i] == name[i];
      assert i + |ServiceNowDomain| <= |host| ==> host[i..i + |ServiceNowDomain|][0] == host[i];
    }
    var r := Before(host, ServiceNowDomain);
    assert |r| <= |name|;
    assert r != host;
    assert OccursAt(host, ServiceNowDomain, |r|);
    assert |r| == |name|;
    assert r == host[..|name|] == name;
  }

  /** Normalisation only depends on what the protocol removals leave. */
  lemma NormalizeStripped(instance: string, stripped: string)
    requires RemoveAll(RemoveAll(instance, "https://"), "http://") == stripped
    ensures NormalizeInstance(instance)
      == if Contains(stripped, ServiceNowDomain) then Before(stripped, ServiceNowDomain) else stripped
  {
  }

  /** A bare instance name (no '/' and no '.'), with or without a scheme, normalises to itself. */
  lemma NormalizeBareName(name: string, scheme: string)
    requires forall k :: 0 <= k < |name| ==> name[k] != '/' && name[k] != '.'
    requires scheme == "" || scheme == "https://" || scheme == "http://"
    ensures NormalizeInstance(scheme + name) == name
  {
    StripSchemes(scheme, name);
    MissingCharNoOccurrence(name, ServiceNowDomain, 0);
  }

  /**
   * Neither scheme starts inside "<name>.service-now.com" for a slash-free
   * name, whatever follows it: each scheme has a '/' six places after its
   * 'h', and the domain holds no 'h'.
   */
  lemma HostHasNoScheme(name: string, rest: string, pat: string)
    requires NoSlash(name)
    requires pat == "https://" || pat == "http://"
    ensures forall i :: 0 <= i < |name + ServiceNowDomain| ==> !OccursAt(name + ServiceNowDomain + rest, pat, i)
  {
    var head := name + ServiceNowDomain;
    var s := head + rest;
    assert pat[0] == 'h' && pat[6] == '/';
    forall i | 0 <= i < |head| ensures !OccursAt(s, pat, i) {
      if i < |name| {
        assert s[i + 6] == head[i + 6];
        if i + 6 < |name| {
          assert head[i + 6] == name[i + 6];
        } else {
          assert head[i + 6] == ServiceNowDomain[i + 6 - |name|];
        }
        assert i + |pat| <= |s| ==> s[i..i + |pat|][6] == s[i + 6];
      } else {
        assert s[i] == ServiceNowDomain[i - |name|];
        assert i + |pat| <= |s| ==> s[i..i + |pat|][0] == s[i];
      }
    }
  }

  /** "https://" does not start within a leading "http://". */
  lemma HttpHasNoHttps(y: string)
    ensures forall i :: 0 <= i < 7 ==> !OccursAt("http://" + y, "https://", i)
  {
    var s := "http://" + y;
    forall i | 0 <= i < 7 ensures !OccursAt(s, "https://", i) {
      assert s[i] == "http://"[i];
      if i == 0 {
        assert s[4] == ':';
        assert 8 <= |s| ==> s[..8][4] == s[4];
      } else {
        assert i + 8 <= |s| ==> s[i..i + 8][0] == s[i];
      }
    }
  }

  /** Removing both schemes from "<scheme><name>.service-now.com<rest>" leaves the host and a cleaned remainder. */
  lemma StripHostSchemes(name: string, scheme: string, rest: string) returns (cleaned: string)
    requires NoSlash(name)
    requires scheme == "" || scheme == "https://" || scheme == "http://"
    ensures RemoveAll(RemoveAll(scheme + name + ServiceNowDomain + rest, "https://"), "http://")
      == name + ServiceNowDomain + cleaned
  {
    var head := name + ServiceNowDomain;
    var s := scheme + name + ServiceNowDomain + rest;
    assert s == scheme + (head + rest);
    var afterHttps := head + RemoveAll(rest, "https://");
    if scheme == "" {
      assert s == head + rest;
      HostHasNoScheme(name, rest, "https://");
      RemoveAllKeepsHead(head, rest, "https://");
    } else if scheme == "https://" {
      assert s[..8] == "https://" && s[8..] == head + rest;
      HostHasNoScheme(name, rest, "https://");
      RemoveAllKeepsHead(head, rest, "https://");
    } else {
      HttpHasNoHttps(head + rest);
      RemoveAllKeepsHead("http://", head + rest, "https://");
      HostHasNoScheme(name, rest, "https://");
      RemoveAllKeepsHead(head, rest, "https://");
      var t := "http://" + afterHttps;
      assert RemoveAll(s, "https://") == t;
      assert t[..7] == "http://" && t[7..] == afterHttps;
      assert RemoveAll(t, "http://") == RemoveAll(afterHttps, "http://");
    }
    assert RemoveAll(s, "https://") == afterHttps || RemoveAll(s, "https://") == "http://" + afterHttps;
    HostHasNoScheme(name, RemoveAll(rest, "https://"), "http://");
    RemoveAllKeepsHead(head, RemoveAll(rest, "https://"), "http://");
    cleaned := RemoveAll(RemoveAll(rest, "https://"), "http://");
  }

  /**
   * A full host name "<name>.service-now.com" followed by anything, such as a
   * pasted URL's path, with or without a scheme, normalises to the bare name.
   */
  lemma NormalizeHostName(name: string, scheme: string, rest: string)
    requires forall k :: 0 <= k < |name| ==> name[k] != '/' && name[k] != '.'
    requires scheme == "" || scheme == "https://" || scheme == "http://"
    ensures NormalizeInstance(scheme + name + ServiceNowDomain + rest) == name
  {
    var cleaned := StripHostSchemes(name, scheme, rest);
    CutAtDomain(name, cleaned);
    NormalizeStripped(scheme + name + ServiceNowDomain + rest, name + ServiceNowDomain + cleaned);
  }

  // ---------------------------------------------------------------------
  // Response normalisation
  // ---------------------------------------------------------------------

  /** The uniform result of every client operation (the dict `_handle_response` returns). */
  datatype ApiResult =
    | Success(data: JsonValue)
    | Failure(error: JsonValue, detail: JsonValue, statusCode: nat)

  function NoContentAck(): JsonValue {
    JObj(map["message" := JStr(NoContentMessage)])
  }

  function DefaultError(status: nat): JsonValue {
    JStr("HTTP " + NatToString(status))
  }

  predicate DecodedObject(resp: Response) {
    resp.body.Some? && resp.body.value.JObj?
  }

  /**
   * The error envelope `body.get("error", {})` when both it and the body are
   * objects; None when a `.get` on a non-object would raise.
   */
  function ErrorEnvelope(resp: Response): (r: Option<map<string, JsonValue>>)
    ensures r.Some? <==>
      DecodedObject(resp) && ("error" in resp.body.value.members ==> resp.body.value.members["error"].JObj?)
    ensures r.Some? && "error" !in resp.body.value.members ==> r.value == map[]
    ensures r.Some? && "error" in resp.body.value.members ==> r.value == resp.body.value.members["error"].members
  {
    if !DecodedObject(resp) then None
    else
      var m := resp.body.value.members;
      if "error" !in m then Some(map[])
      else if m["error"].JObj? then Some(m["error"].members)
      else None
  }

  /**
   * `_handle_response`: 204 is an acknowledgement, 200 and 201 unwrap the
   * "result" envelope (or fall back to the raw text when the body is not an
   * object), and every other status is a failure carrying that status.
   */
  function HandleResponse(resp: Response): (r: ApiResult)
    ensures r.Success? <==> resp.status == 204 || resp.status == 200 || resp.status == 201
    ensures resp.status == 204 ==> r == Success(NoContentAck())
    ensures (resp.status == 200 || resp.status == 201) && DecodedObject(resp) ==>
      var m := resp.body.value.members;
      r.data == (if "result" in m then m["result"] else resp.body.value)
    ensures (resp.status == 200 || resp.status == 201) && !DecodedObject(resp) ==>
      r.data == JStr(resp.text)
    ensures r.Failure? ==> r.statusCode == resp.status
    ensures r.Failure? && ErrorEnvelope(resp).Some? ==>
      var err := ErrorEnvelope(resp).value;
      r.error == GetOr(err, "message", DefaultError(resp.status)) && r.detail == GetOr(err, "detail", JStr(""))
    ensures r.Failure? && ErrorEnvelope(resp).None? ==>
      r.error == DefaultError(resp.status) && r.detail == JStr(Take(resp.text, MaxDetailLength))
  {
    if resp.status == 204 then Success(NoContentAck())
    else if resp.status == 200 || resp.status == 201 then
      match resp.body
      case Some(JObj(m)) => Success(GetOr(m, "result", JObj(m)))
      case _ => Success(JStr(resp.text))
    else
      match ErrorEnvelope(resp)
      case Some(err) =>
        Failure(GetOr(err, "message", DefaultError(resp.status)), GetOr(err, "detail", JStr("")), resp.status)
      case None =>
        Failure(DefaultError(resp.status), JStr(Take(resp.text, MaxDetailLength)), resp.status)
  }

  /** The dict the source builds for a result. */
  function RenderResult(r: ApiResult): (j: JsonValue)
    ensures j.JObj? && "success" in j.members && (j.members["success"] == JBool(true) <==> r.Success?)
    ensures r.Success? ==> "data" in j.members && j.members["data"] == r.data
    ensures r.Failure? ==>
      && "error" in j.members && j.members["error"] == r.error
      && "status_code" in j.members && j.members["status_code"] == JNum(r.statusCode)
  {
    match r
    case Success(data) => JObj(map["success" := JBool(true), "data" := data])
    case Failure(error, detail, code) =>
      JObj(map["success" := JBool(false), "error" := error, "detail" := detail, "status_code" := JNum(code)])
  }

  /** Exactly one of: success with data, or failure with error, detail and status code. */
  predicate UniformShape(j: JsonValue) {
    && j.JObj?
    && "success" in j.members
    && (j.members["success"] == JBool(true) ==> j.members.Keys == {"success", "data"})
    && (j.members["success"] == JBool(false) ==>
          && j.members.Keys == {"success", "error", "detail", "status_code"}
          && j.members["status_code"].JNum? && j.members["status_code"].n >= 0)
    && (j.members["success"] == JBool(true) || j.members["success"] == JBool(false))
  }

  /** Reads a rendered result dict back. */
  function ParseResult(j: JsonValue): Option<ApiResult> {
    if !UniformShape(j) then None
    else if j.members["success"] == JBool(true) then Some(Success(j.members["data"]))
    else
      Some(Failure(j.members["error"], j.members["detail"], j.members["status_code"].n))
  }

  /** Every result renders to the uniform shape, and the rendering loses nothing. */
  lemma RenderResultRoundTrip(r: ApiResult)
    ensures UniformShape(RenderResult(r))
    ensures ParseResult(RenderResult(r)) == Some(r)
  {
  }

  /** A 500 whose body holds an error envelope fails with that envelope's message and detail, and status 500. */
  lemma ServerErrorWithEnvelope(text: string)
    ensures HandleResponse(Response(500,
      Some(JObj(map["error" := JObj(map["message" := JStr("Internal error"), "detail" := JStr("x")])])), text))
      == Failure(JStr("Internal error"), JStr("x"), 500)
  {
  }

  /** A JSON object without "error" keeps the "HTTP <code>" message and an empty detail. */
  lemma ErrorWithoutEnvelope(status: nat, members: map<string, JsonValue>, text: string)
    requires status != 200 && status != 201 && status != 204
    requires "error" !in members
    ensures HandleResponse(Response(status, Some(JObj(members)), text))
      == Failure(JStr("HTTP " + NatToString(status)), JStr(""), status)
  {
  }

  // ---------------------------------------------------------------------
  // Query parameters and requests
  // ---------------------------------------------------------------------

  /** The arguments of `query_records`. `fields` None is Python's None. */
  datatype QueryArgs = QueryArgs(
    table: string,
    query: string,
    fields: Option<seq<string>>,
    limit: int,
    offset: int,
    displayValue: bool,
    orderBy: string)

  function Min(a: int, b: int): int {
    if a <= b then a else b
  }

  /** The encoded query with the sort directive, when there is either. */
  function EncodedQuery(query: string, orderBy: string): Option<string> {
    if query != "" then Some(if orderBy != "" then query + "^ORDERBY" + orderBy else query)
    else if orderBy != "" then Some("ORDERBY" + orderBy)
    else None
  }

  /** The comma-joined field list, when the list is given and non-empty. */
  function FieldList(fields: Option<seq<string>>): Option<string> {
    if fields.Some? && fields.value != [] then Some(Join(fields.value, ",")) else None
  }

  function WithText(m: map<string, ParamValue>, key: string, value: Option<string>): map<string, ParamValue> {
    if value.Some? then m[key := TextParam(value.value)] else m
  }

  function WithFlag(m: map<string, ParamValue>, key: string, on: bool): map<string, ParamValue> {
    if on then m[key := TextParam("true")] else m
  }

  const QueryParamKeys: set<string> :=
    {"sysparm_limit", "sysparm_offset", "sysparm_query", "sysparm_fields", "sysparm_display_value"}

  /** The five query-string keys are distinct; the equal-length pairs differ after the shared "sysparm_". */
  lemma QueryParamKeysDistinct()
    ensures "sysparm_limit" != "sysparm_query" && "sysparm_offset" != "sysparm_fields"
    ensures |"sysparm_limit"| == 13 && |"sysparm_offset"| == 14 && |"sysparm_display_value"| == 21
  {
    assert "sysparm_limit"[8] == 'l' && "sysparm_query"[8] == 'q';
    assert "sysparm_offset"[8] == 'o' && "sysparm_fields"[8] == 'f';
  }

  /** The query string `query_records` sends. */
  function QueryParams(q: QueryArgs): (p: map<string, ParamValue>)
    ensures p.Keys <= QueryParamKeys
    ensures "sysparm_limit" in p && p["sysparm_limit"] == NumParam(Min(q.limit, MaxLimit))
    ensures p["sysparm_limit"].n <= MaxLimit && (q.limit <= MaxLimit ==> p["sysparm_limit"].n == q.limit)
    ensures "sysparm_offset" in p && p["sysparm_offset"] == NumParam(q.offset)
    ensures "sysparm_query" in p <==> q.query != "" || q.orderBy != ""
    ensures q.query != "" && q.orderBy != "" ==> p["sysparm_query"] == TextParam(q.query + "^ORDERBY" + q.orderBy)
    ensures q.query != "" && q.orderBy == "" ==> p["sysparm_query"] == TextParam(q.query)
    ensures q.query == "" && q.orderBy != "" ==> p["sysparm_query"] == TextParam("ORDERBY" + q.orderBy)
    ensures "sysparm_fields" in p <==> q.fields.Some? && q.fields.value != []
    ensures "sysparm_fields" in p ==> p["sysparm_fields"] == TextParam(Join(q.fields.value, ","))
    ensures "sysparm_display_value" in p <==> q.displayValue
    ensures "sysparm_display_value" in p ==> p["sysparm_display_value"] == TextParam("true")
  {
    var paging := map["sysparm_limit" := NumParam(Min(q.limit, MaxLimit)), "sysparm_offset" := NumParam(q.offset)];
    var filtered := WithText(paging, "sysparm_query", EncodedQuery(q.query, q.orderBy));
    WithFlag(WithText(filtered, "sysparm_fields", FieldList(q.fields)), "sysparm_display_value", q.displayValue)
  }

  /** The query string `get_record` sends. */
  function RecordParams(fields: Option<seq<string>>, displayValue: bool): (p: map<string, ParamValue>)
    ensures p.Keys <= {"sysparm_fields", "sysparm_display_value"}
    ensures "sysparm_fields" in p <==> fields.Some? && fields.value != []
    ensures "sysparm_fields" in p ==> p["sysparm_fields"] == TextParam(Join(fields.value, ","))
    ensures "sysparm_display_value" in p <==> displayValue
    ensures "sysparm_display_value" in p ==> p["sysparm_display_value"] == TextParam("true")
  {
    WithFlag(WithText(map[], "sysparm_fields", FieldList(fields)), "sysparm_display_value", displayValue)
  }

  /** The query string `create_record` and `update_record` send. */
  function InputParams(inputDisplayValue: bool): (p: map<string, ParamValue>)
    ensures p.Keys <= {"sysparm_input_display_value"}
    ensures "sysparm_input_display_value" in p <==> inputDisplayValue
    ensures "sysparm_input_display_value" in p ==> p["sysparm_input_display_value"] == TextParam("true")
  {
    WithFlag(map[], "sysparm_input_display_value", inputDisplayValue)
  }

  /** Joining comma-free field names with "," is undone by splitting on ",". */
  lemma FieldListReadBack(fields: seq<string>)
    requires fields != []
    requires forall k :: 0 <= k < |fields| ==> ',' !in fields[k]
    ensures FieldList(Some(fields)) == Some(Join(fields, ","))
    ensures Split(FieldList(Some(fields)).value, ',') == fields
  {
    SplitJoin(fields, ',');
  }

  /** `_url`. */
  function Url(baseUrl: string, path: string): (r: string)
    ensures |r| == |baseUrl| + |path| && r[..|baseUrl|] == baseUrl && r[|baseUrl|..] == path
  {
    baseUrl + path
  }

  function TablePath(table: string): string {
    "/api/now/table/" + table
  }

  function RecordPath(table: string, sysId: string): string {
    "/api/now/table/" + table + "/" + sysId
  }

  function QueryRequest(baseUrl: string, q: QueryArgs): (r: Request)
    ensures r.verb == Get && r.body.None? && r.timeout == RequestTimeout
    ensures r.url == baseUrl + "/api/now/table/" + q.table && r.params == QueryParams(q)
  {
    Request(Get, Url(baseUrl, TablePath(q.table)), QueryParams(q), None, RequestTimeout)
  }

  function GetRequest(baseUrl: string, table: string, sysId: string, fields: Option<seq<string>>, displayValue: bool): (r: Request)
    ensures r.verb == Get && r.body.None? && r.timeout == RequestTimeout
    ensures r.url == Url(baseUrl, TablePath(table)) + "/" + sysId && r.params == RecordParams(fields, displayValue)
  {
    Request(Get, Url(baseUrl, RecordPath(table, sysId)), RecordParams(fields, displayValue), None, RequestTimeout)
  }

  function CreateRequest(baseUrl: string, table: string, data: JsonValue, inputDisplayValue: bool): (r: Request)
    ensures r.verb == Post && r.body == Some(data) && r.timeout == RequestTimeout
    ensures r.url == baseUrl + "/api/now/table/" + table && r.params == InputParams(inputDisplayValue)
  {
    Request(Post, Url(baseUrl, TablePath(table)), InputParams(inputDisplayValue), Some(data), RequestTimeout)
  }

  function UpdateRequest(baseUrl: string, table: string, sysId: string, data: JsonValue, inputDisplayValue: bool): (r: Request)
    ensures r.verb == Patch && r.body == Some(data) && r.timeout == RequestTimeout
    ensures r.url == Url(baseUrl, TablePath(table)) + "/" + sysId && r.params == InputParams(inputDisplayValue)
  {
    Request(Patch, Url(baseUrl, RecordPath(table, sysId)), InputParams(inputDisplayValue), Some(data), RequestTimeout)
  }

  function DeleteRequest(baseUrl: string, table: string, sysId: string): (r: Request)
    ensures r.verb == Delete && r.body.None? && r.timeout == RequestTimeout
    ensures r.url == Url(baseUrl, TablePath(table)) + "/" + sysId && r.params == map[]
  {
    Request(Delete, Url(baseUrl, RecordPath(table, sysId)), map[], None, RequestTimeout)
  }

  /**
   * A record's requests go to its table's collection URL followed by "/" and
   * the sys_id; a new record is posted to the collection URL itself.
   */
  lemma RecordUrlsExtendTableUrl(baseUrl: string, q: QueryArgs, sysId: string, data: JsonValue, flag: bool)
    ensures CreateRequest(baseUrl, q.table, data, flag).url == QueryRequest(baseUrl, q).url
    ensures GetRequest(baseUrl, q.table, sysId, q.fields, flag).url == QueryRequest(baseUrl, q).url + "/" + sysId
    ensures UpdateRequest(baseUrl, q.table, sysId, data, flag).url == QueryRequest(baseUrl, q).url + "/" + sysId
    ensures DeleteRequest(baseUrl, q.table, sysId).url == QueryRequest(baseUrl, q).url + "/" + sysId
  {
  }

  /** Sends a request and normalises the response; a transport fault propagates as raised. */
  function Exchange(transport: Transport, req: Request): (r: Attempt<ApiResult>)
    ensures transport(req).TransportFault? ==> r == Raised(transport(req).message)
    ensures transport(req).Delivered? ==> r == Returned(HandleResponse(transport(req).response))
  {
    match transport(req)
    case Delivered(resp) => Returned(HandleResponse(resp))
    case TransportFault(message) => Raised(message)
  }

  // ---------------------------------------------------------------------
  // Schema helpers: fixed specialisations of query_records
  // ---------------------------------------------------------------------

  const SchemaFields: seq<string> := [
    "element", "column_label", "internal_type", "max_length", "mandatory",
    "read_only", "reference", "default_value", "comments", "active"]
  const TableFields: seq<string> := ["name", "label", "super_class", "sys_scope", "is_extendable"]
  const UpdateSetFields: seq<string> := ["name", "description", "state", "sys_created_by", "sys_created_on"]
  const ScopeFields: seq<string> := ["name", "scope", "version", "active"]
  const UserFields: seq<string> := ["user_name", "name", "email", "roles"]

  function SchemaQuery(table: string): QueryArgs {
    QueryArgs("sys_dictionary", "name=" + table + "^active=true^elementISNOTEMPTY", Some(SchemaFields), 500, 0, true, "")
  }

  function SearchTablesQuery(searchTerm: string, limit: int): QueryArgs {
    QueryArgs("sys_db_object", "nameLIKE" + searchTerm + "^ORlabelLIKE" + searchTerm + "^super_classISNOTEMPTY",
      Some(TableFields), limit, 0, true, "")
  }

  function UpdateSetsQuery(limit: int): QueryArgs {
    QueryArgs("sys_update_set", "state=in progress", Some(UpdateSetFields), limit, 0, true, "name")
  }

  function ScopesQuery(): QueryArgs {
    QueryArgs("sys_scope", "active=true", Some(ScopeFields), 100, 0, true, "")
  }

  function TestConnectionQuery(): QueryArgs {
    QueryArgs("sys_user", "", Some(UserFields), 1, 0, false, "")
  }

  /** `get_table_schema` reads active, named dictionary entries of the table, 500 at most, with display values. */
  lemma SchemaRequestSent(baseUrl: string, table: string)
    ensures QueryRequest(baseUrl, SchemaQuery(table)) == Request(Get,
      baseUrl + "/api/now/table/sys_dictionary",
      map[
        "sysparm_limit" := NumParam(500),
        "sysparm_offset" := NumParam(0),
        "sysparm_query" := TextParam("name=" + table + "^active=true^elementISNOTEMPTY"),
        "sysparm_fields" := TextParam(Join(SchemaFields, ",")),
        "sysparm_display_value" := TextParam("true")],
      None, 30)
  {
    QueryParamKeysDistinct();
    var q := SchemaQuery(table);
    assert |q.query| >= 5 && q.orderBy == "";
    assert EncodedQuery(q.query, q.orderBy) == Some(q.query);
    assert FieldList(q.fields) == Some(Join(SchemaFields, ","));
    var paging := map["sysparm_limit" := NumParam(500), "sysparm_offset" := NumParam(0)];
    assert QueryParams(q) == WithFlag(WithText(WithText(paging, "sysparm_query", Some(q.query)),
      "sysparm_fields", Some(Join(SchemaFields, ","))), "sysparm_display_value", true);
  }

  /** `get_update_sets` filters to in-progress sets sorted by name; its limit is clamped like any query. */
  lemma UpdateSetsRequestSent(baseUrl: string, limit: int)
    ensures QueryRequest(baseUrl, UpdateSetsQuery(limit)).params == map[
      "sysparm_limit" := NumParam(Min(limit, 1000)),
      "sysparm_offset" := NumParam(0),
      "sysparm_query" := TextParam("state=in progress^ORDERBYname"),
      "sysparm_fields" := TextParam(Join(UpdateSetFields, ",")),
      "sysparm_display_value" := TextParam("true")]
  {
    assert "state=in progress" + "^ORDERBY" + "name" == "state=in progress^ORDERBYname";
  }

  /** `test_connection` sends no filter and no display-value flag and asks for one user. */
  lemma TestConnectionRequestSent(baseUrl: string)
    ensures QueryRequest(baseUrl, TestConnectionQuery()).params == map[
      "sysparm_limit" := NumParam(1),
      "sysparm_offset" := NumParam(0),
      "sysparm_fields" := TextParam(Join(UserFields, ","))]
  {
  }

  // ---------------------------------------------------------------------
  // The client object
  // ---------------------------------------------------------------------

  class ServiceNowClient {
    const instance: string
    const baseUrl: string
    const auth: (string, string)
    const headers: map<string, string>
    /** The authenticated session: sends a request, returns a reply. */
    const transport: Transport

    constructor (instance: string, username: string, password: string, transport: Transport)
      ensures this.instance == NormalizeInstance(instance)
      ensures baseUrl == BaseUrl(this.instance)
      ensures auth == (username, password) && headers == JsonHeaders
      ensures this.transport == transport
    {
      var name := RemoveAll(instance, "https://");
      name := RemoveAll(name, "http://");
      if Contains(name, ServiceNowDomain) {
        name := Before(name, ServiceNowDomain);
      }
      this.baseUrl := "https://" + name + ServiceNowDomain;
      this.instance := name;
      this.auth := (username, password);
      this.headers := JsonHeaders;
      this.transport := transport;
    }

    method QueryRecords(q: QueryArgs) returns (r: Attempt<ApiResult>)
      ensures r == Exchange(transport, QueryRequest(baseUrl, q))
    {
      var params := map["sysparm_limit" := NumParam(Min(q.limit, MaxLimit)), "sysparm_offset" := NumParam(q.offset)];
      if q.query != "" {
        var fullQuery := q.query;
        if q.orderBy != "" {
          fullQuery := fullQuery + "^ORDERBY" + q.orderBy;
        }
        params := params["sysparm_query" := TextParam(fullQuery)];
      } else if q.orderBy != "" {
        params := params["sysparm_query" := TextParam("ORDERBY" + q.orderBy)];
      }
      if q.fields.Some? && q.fields.value != [] {
        params := params["sysparm_fields" := TextParam(Join(q.fields.value, ","))];
      }
      if q.displayValue {
        params := params["sysparm_display_value" := TextParam("true")];
      }
      r := Exchange(transport, Request(Get, Url(baseUrl, TablePath(q.table)), params, None, RequestTimeout));
    }

    method GetRecord(table: string, sysId: string, fields: Option<seq<string>>, displayValue: bool)
      returns (r: Attempt<ApiResult>)
      ensures r == Exchange(transport, GetRequest(baseUrl, table, sysId, fields, displayValue))
    {
      var params: map<string, ParamValue> := map[];
      if fields.Some? && fields.value != [] {
        params := params["sysparm_fields" := TextParam(Join(fields.value, ","))];
      }
      if displayValue {
        params := params["sysparm_display_value" := TextParam("true")];
      }
      r := Exchange(transport, Request(Get, Url(baseUrl, RecordPath(table, sysId)), params, None, RequestTimeout));
    }

    method CreateRecord(table: string, data: JsonValue, inputDisplayValue: bool) returns (r: Attempt<ApiResult>)
      ensures r == Exchange(transport, CreateRequest(baseUrl, table, data, inputDisplayValue))
    {
      var params: map<string, ParamValue> := map[];
      if inputDisplayValue {
        params := params["sysparm_input_display_value" := TextParam("true")];
      }
      r := Exchange(transport, Request(Post, Url(baseUrl, TablePath(table)), params, Some(data), RequestTimeout));
    }

    method UpdateRecord(table: string, sysId: string, data: JsonValue, inputDisplayValue: bool)
      returns (r: Attempt<ApiResult>)
      ensures r == Exchange(transport, UpdateRequest(baseUrl, table, sysId, data, inputDisplayValue))
    {
      var params: map<string, ParamValue> := map[];
      if inputDisplayValue {
        params := params["sysparm_input_display_value" := TextParam("true")];
      }
      r := Exchange(transport, Request(Patch, Url(baseUrl, RecordPath(table, sysId)), params, Some(data), RequestTimeout));
    }

    method DeleteRecord(table: string, sysId: string) returns (r: Attempt<ApiResult>)
      ensures r == Exchange(transport, DeleteRequest(baseUrl, table, sysId))
    {
      r := Exchange(transport, Request(Delete, Url(baseUrl, RecordPath(table, sysId)), map[], None, RequestTimeout));
    }

    method GetTableSchema(table: string) returns (r: Attempt<ApiResult>)
      ensures r == Exchange(transport, QueryRequest(baseUrl, SchemaQuery(table)))
    {
      r := QueryRecords(SchemaQuery(table));
    }

    method SearchTables(searchTerm: string, limit: int) returns (r: Attempt<ApiResult>)
      ensures r == Exchange(transport, QueryRequest(baseUrl, SearchTablesQuery(searchTerm, limit)))
    {
      r := QueryRecords(SearchTablesQuery(searchTerm, limit));
    }

    method GetUpdateSets(limit: int) returns (r: Attempt<ApiResult>)
      ensures r == Exchange(transport, QueryRequest(baseUrl, UpdateSetsQuery(limit)))
    {
      r := QueryRecords(UpdateSetsQuery(limit));
    }

    method GetApplicationScopes() returns (r: Attempt<ApiResult>)
      ensures r == Exchange(transport, QueryRequest(baseUrl, ScopesQuery()))
    {
      r := QueryRecords(ScopesQuery());
    }

    method TestConnection() returns (r: Attempt<ApiResult>)
      ensures r == Exchange(transport, QueryRequest(baseUrl, TestConnectionQuery()))
    {
      r := QueryRecords(TestConnectionQuery());
    }
  }
}
