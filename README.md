# ServiceNow agent: a Dafny model

This project models the core of a small ServiceNow configuration agent. The
agent is a command-line program. A language model reads and changes a
ServiceNow instance through a fixed catalogue of tools, and each tool calls
the ServiceNow Table API. The model has three layers, one per source file:

- **Client** (`client.dfy`): the `ServiceNowClient` class.
  - It normalises the instance string into a base URL.
  - It builds the query string and request of every Table API operation: query, get, create, update and delete.
  - It models the fixed schema helpers.
  - It turns every HTTP response into one uniform result: success with data, or failure with error, detail and status code.
  - HTTP is a value here. A request is a record; the authenticated session is a function from requests to replies. A reply is a response (status, decoded JSON body if any, raw text) or a transport fault, which Python raises.
- **Tools** (`tools.dfy`): the tool layer.
  - The `TOOL_DEFINITIONS` schemas without their prose: parameter names, types, declared defaults and `required` lists.
  - `_dispatch`, as a function from a tool name and input object to the client call it selects, or to the fault that reading the input raises.
  - `execute_tool`, which turns an unknown name, a fault or a raised transport error into a failure record and never raises.
- **Agent** (`agent.dfy`): `run_agent` and the output helpers.
  - `run_agent`'s loop over the conversation history. The model is a function of the history it is shown; `execute_tool` uses the client's base URL and transport.
  - A 50-call cap and three ways to stop: `end_turn`, another stop reason, or the cap.
  - The `_truncate` and `_summarize` output helpers.

`wrappers.dfy`, `strings.dfy` and `json.dfy` hold shared datatypes. They also
model the Python built-ins the code relies on: `str.replace(p, "")`,
`str.split(sep)[0]`, `",".join`, `s[:n]`, `str(n)` and the truth value of a
JSON value.

Each imperative part is a method proved against a specification function:

- The client's methods build their parameter maps step by step. Each is proved to send exactly `QueryRequest`, `GetRequest`, and so on.
- `Conversation.RunAgent` appends to a `history` field in a `while` loop, with a `for` loop over each tool round. It is proved to leave exactly the history that `Turn` describes.
- The properties are lemmas about those functions.

The error path follows the code:

- When the error body decodes to an object without an `"error"` key, the detail is `""`, not a text snippet.
- The snippet `text[:500]` is used only when a step raises: the body does not decode, it is not an object, or its `"error"` is not an object.

## Model

| member | source | states |
|---|---|---|
| Client.NormalizeInstance | snow_client.py:20-23 | the normalised instance never contains ".service-now.com" |
| Client.StripSchemes | snow_client.py:21 | removing every "https://" and then every "http://" from a slash-free host, with or without a scheme, gives the host back |
| Client.CutAtDomain | snow_client.py:22-23 | "name.service-now.com…" with a dot-free name is cut back to exactly that name |
| Client.NormalizeBareName | snow_client.py:20-25 | a bare instance name, with or without "https://" or "http://", normalises to itself |
| Client.NormalizeHostName | snow_client.py:20-25 | a full host name "name.service-now.com" followed by any remainder (such as a pasted URL's path), with or without a scheme, normalises to the bare name |
| Client.Url | snow_client.py:34-35 | a URL is the base URL followed by exactly the path |
| Client.ServiceNowClient.constructor | snow_client.py:19-32 | the client keeps the normalised instance, base URL "https://" + instance + ".service-now.com", the credentials, the JSON headers and the session |
| Client.ErrorEnvelope | snow_client.py:51-53 | the error envelope is read exactly when the body decodes to an object whose "error", if present, is an object; it is empty when "error" is absent and that object otherwise |
| Client.HandleResponse | snow_client.py:37-64 | success exactly for 204, 200 and 201; 204 carries the fixed acknowledgement; 200/201 unwrap "result" or keep the whole object, or give the raw text when the body is not an object; every other status fails with that status code, message and detail from the error envelope (defaults "HTTP <code>" and ""), or "HTTP <code>" and the first 500 characters of the text when reading the envelope raises |
| Client.RenderResult | snow_client.py:39-64 | the dict always has a "success" flag that is true exactly for a success, with the data, or with the error and the status code |
| Client.RenderResultRoundTrip | snow_client.py:39-64 | every result renders to the uniform dict shape (success+data, or success+error+detail+status_code) and can be read back unchanged |
| Client.ServerErrorWithEnvelope | snow_client.py:48-64 | a 500 with {"error": {"message": "Internal error", "detail": "x"}} fails with "Internal error", "x", 500 |
| Client.ErrorWithoutEnvelope | snow_client.py:48-56 | a failing status whose JSON object has no "error" key gives "HTTP <code>" and an empty detail |
| Client.QueryParams | snow_client.py:81-96 | only the five sysparm keys; limit is min(limit, 1000) and offset is passed through, both always present; the query is query^ORDERBYorder, query, ORDERBYorder, or absent when both are empty; fields present iff the list is non-empty, as its comma join; display flag "true" iff requested |
| Client.RecordParams | snow_client.py:113-117 | get_record sends only the field list (iff non-empty, comma-joined) and the display flag (iff requested) |
| Client.InputParams | snow_client.py:133-135 | create and update send only sysparm_input_display_value="true", and only when requested |
| Client.FieldListReadBack | snow_client.py:93-94 | the comma-joined field list splits back into the same fields when no field name holds a comma |
| Client.Exchange | snow_client.py:98-103 | a delivered response is normalised by HandleResponse; a transport fault is raised with its message |
| Client.QueryRequest | snow_client.py:98-102 | a query is a GET of /api/now/table/<table> under the base URL, carrying QueryParams, no body and timeout 30 |
| Client.GetRequest | snow_client.py:119-123 | a record is read by GET of its table's URL plus "/" + sys_id, carrying RecordParams, no body and timeout 30 |
| Client.CreateRequest | snow_client.py:137-142 | a record is created by POST of the data as body to /api/now/table/<table>, with InputParams and timeout 30 |
| Client.UpdateRequest | snow_client.py:157-162 | a record is updated by PATCH of the data to its table's URL plus "/" + sys_id, with InputParams and timeout 30 |
| Client.DeleteRequest | snow_client.py:167-170 | a record is deleted by DELETE of its table's URL plus "/" + sys_id, with no parameters, no body and timeout 30 |
| Client.RecordUrlsExtendTableUrl | snow_client.py:98-170 | create posts to the same URL a query reads; get, update and delete address that URL followed by "/" and the sys_id |
| Client.ServiceNowClient.QueryRecords | snow_client.py:70-103 | the parameters built step by step are exactly QueryParams, sent by GET to /api/now/table/<table> with timeout 30 |
| Client.ServiceNowClient.GetRecord | snow_client.py:105-124 | sends exactly RecordParams by GET to /api/now/table/<table>/<sys_id> |
| Client.ServiceNowClient.CreateRecord | snow_client.py:126-143 | sends the data as the JSON body by POST to /api/now/table/<table> with InputParams |
| Client.ServiceNowClient.UpdateRecord | snow_client.py:145-163 | sends the data by PATCH to /api/now/table/<table>/<sys_id> with InputParams |
| Client.ServiceNowClient.DeleteRecord | snow_client.py:165-171 | sends DELETE to /api/now/table/<table>/<sys_id> with no parameters and no body |
| Client.ServiceNowClient.GetTableSchema | snow_client.py:177-196 | is query_records on sys_dictionary with the schema filter, ten fields, limit 500 and display values |
| Client.SchemaRequestSent | snow_client.py:177-196 | the schema request is GET .../sys_dictionary with limit 500, offset 0, query "name=<table>^active=true^elementISNOTEMPTY", the field list and the display flag |
| Client.ServiceNowClient.SearchTables | snow_client.py:198-207 | is query_records on sys_db_object matching name or label, five fields, the given limit, display values |
| Client.ServiceNowClient.GetUpdateSets | snow_client.py:209-218 | is query_records on sys_update_set in progress, ordered by name |
| Client.UpdateSetsRequestSent | snow_client.py:209-218 | the update-set query is "state=in progress^ORDERBYname" and its limit is clamped to 1000 |
| Client.ServiceNowClient.GetApplicationScopes | snow_client.py:220-228 | is query_records on active sys_scope rows, limit 100, display values |
| Client.ServiceNowClient.TestConnection | snow_client.py:230-237 | is query_records on sys_user with no filter, four fields, limit 1 |
| Client.TestConnectionRequestSent | snow_client.py:230-237 | the health check sends only limit 1, offset 0 and the field list: no query, no display flag |
| Strings.RemoveAll | snow_client.py:21 | replacing a pattern by "" never lengthens the string and leaves a string without the pattern unchanged |
| Strings.RemoveAllKeepsHead | snow_client.py:21 | when no occurrence of the pattern starts inside a head, removal passes the head through and only works on what follows |
| Strings.Before | snow_client.py:23 | split(sep)[0] is a prefix with no occurrence of sep before its end, ending at the first occurrence or at the end of the string |
| Strings.SplitJoin | snow_client.py:94 | joining parts with a separator none of them holds and splitting again gives the parts back |
| Strings.NatToString | snow_client.py:49 | the decimal rendering of a status code is non-empty, all digits, one digit exactly below 10, no leading zero |
| Strings.ParseNatToString | snow_client.py:49 | the decimal rendering parses back to the number |
| Strings.Take | snow_client.py:57 | text[:500] is a prefix of length min(len, 500) |
| Tools.DefinitionLookup | tools.py:16-214 | each of the nine tool names finds its own definition, and no other name finds one |
| Tools.DispatchFollowsDefinitions | tools.py:231-287 | a name selects the unknown-tool outcome exactly when it has no definition |
| Tools.Dispatch | tools.py:231-287 | the unknown-tool outcome is reached exactly for names outside the nine tool names, and a selected client call always belongs to the tool of the name it was selected by |
| Tools.ReadQueryRecords | tools.py:232-241 | a missing table raises KeyError('table'); a call passes the table through, reads query and order_by as inp.get(k, "") (null as ""), fields as inp.get("fields"), limit and offset as inp.get with 10 and 0, and display_value as its truth value, false when absent, whatever other keys are present |
| Tools.ReadGetRecord | tools.py:243-249 | table then sys_id are read first, the first absent one raising; a call passes both through, reads fields as inp.get("fields") and display_value as its truth value, false when absent |
| Tools.ReadCreateRecord | tools.py:251-256 | table then data are read first, the first absent one raising; a call passes both through unchanged and reads input_display_value as its truth value, false when absent |
| Tools.ReadUpdateRecord | tools.py:258-264 | table, sys_id and data are read in that order, the first absent one raising; a call passes all three through and reads input_display_value, false when absent |
| Tools.ReadDeleteRecord | tools.py:266-270 | table then sys_id are read, the first absent one raising; a call passes both through |
| Tools.ReadTableSchema | tools.py:272-273 | a missing table raises KeyError('table'); a call passes the table through |
| Tools.ReadSearchTables | tools.py:275-279 | a missing search_term raises; a call passes it through and reads limit as inp.get("limit", 20) |
| Tools.ReadUpdateSets | tools.py:281-282 | never raises a KeyError; the limit is inp.get("limit", 20) |
| Tools.OptionalText | tools.py:235-240 | inp.get(key, "") is "" when absent or null and the given string otherwise; any other value is a type fault for that key |
| Tools.OptionalInt | tools.py:237-238 | inp.get(key, default) is the default when absent and the given number otherwise; any other value is a type fault for that key |
| Tools.OptionalFields | tools.py:236 | inp.get("fields") is None when absent or null and the given strings, in order, otherwise; any other value is a type fault |
| Tools.UnknownToolFails | tools.py:287 | an unknown name gives {"success": false, "error": "Unknown tool: <name>"} whatever the input |
| Tools.RequiredKeysAreRead | tools.py:231-285 | the keys read with inp[...] are the declared required list: the first absent one is the KeyError raised, and with none absent no key is missing |
| Tools.ConformingInputIsDispatched | tools.py:231-285 | input with every required key and the declared types always reaches a client call |
| Tools.ExecuteTool | tools.py:221-228 | never raises: the result is always a record with a boolean "success", and a failed one has an "error" |
| Tools.FaultMessage | tools.py:226 | str(exc) of a KeyError is the key in single quotes, read back by dropping the quotes; a type fault's message ends with the offending key |
| Tools.ExecuteToolFailures | tools.py:221-228 | a fault gives a failure record with str(exc) ('key' for a missing key); a transport fault gives its message; a delivered response gives the rendered HandleResponse |
| Tools.Require | tools.py:234 | inp[key] succeeds exactly when the key is present, and fails with that key otherwise |
| Tools.QueryRecordsDefaults | tools.py:232-241 | for any input that reaches the call, an absent limit, offset or display_value takes the default the query_records schema declares (10, 0, false) |
| Tools.GetRecordDefaults | tools.py:243-249 | for any input that reaches the call, an absent display_value takes the default the get_record schema declares |
| Tools.WriteRecordDefaults | tools.py:251-264 | for any input that reaches create_record or update_record, an absent input_display_value takes the default the schema declares |
| Tools.HelperToolDefaults | tools.py:275-285 | for any input without a limit, search_tables and get_update_sets use the declared default 20; get_application_scopes ignores its input |
| Agent.ToolUses | snow_agent.py:370-372 | the requests of a tool round are tool-use blocks of the response, and every tool-use block of the response is among them |
| Agent.ToolUsesConcat | snow_agent.py:370-372 | requests are collected in content order: those of a concatenation are those of its parts, concatenated |
| Agent.ToolResults | snow_agent.py:368-389 | the user message of a tool round holds only tool-result blocks, no more than the response had blocks |
| Agent.ToolResultsAnswerRequests | snow_agent.py:370-389 | a tool round has one result per tool-use block, in content order, carrying that block's id and the executor's result for its name and input |
| Agent.Conversation.RunToolRound | snow_agent.py:368-389 | the loop over the content builds exactly ToolResults |
| Agent.Conversation.RunAgent | snow_agent.py:328-397 | the history left in place is exactly the one Turn describes, after as many model calls |
| Agent.Loop | snow_agent.py:346-397 | the loop calls the model at most as often as the cap allows, at least once while calls remain, and reports the cap only after using all of them |
| Agent.Turn | snow_agent.py:341-347 | a turn calls the model 1 to 50 times and reports the cap only after 50 calls |
| Agent.LoopShape | snow_agent.py:341-397 | the loop only appends, adding two messages per call, one less when it stops before the cap |
| Agent.LoopAnswers | snow_agent.py:349-357 | the k-th assistant message is the model's answer to exactly the history before it |
| Agent.LoopRounds | snow_agent.py:367-391 | every call but the last (and the last at the cap) stopped for tool use, and is followed by one user message with the results of its tool requests |
| Agent.LoopEnding | snow_agent.py:364-395 | a finished turn's last call stopped with "end_turn"; any other stop reason that ended the turn is reported unchanged |
| Agent.AlwaysToolUseHitsCap | snow_agent.py:343-347 | a model that always asks for tools is called exactly as many times as the cap allows |
| Agent.TurnShape | snow_agent.py:341-347 | a turn keeps the earlier history, appends the user message first, and adds 2 messages per call, plus one at the cap |
| Agent.ImmediateEndTurn | snow_agent.py:364-365 | an immediate "end_turn" adds exactly the user message and the answer, after one call |
| Agent.UnexpectedStopEndsTurn | snow_agent.py:392-395 | another stop reason ends the turn after one call and two messages, with no tool round |
| Agent.OneToolRound | snow_agent.py:341-391 | one tool round followed by "end_turn" adds four messages in two calls |
| Agent.EndlessToolUseIsCapped | snow_agent.py:343-347 | a model that always asks for tools is called 50 times and the turn adds 101 messages |
| Agent.Shorten | snow_agent.py:445-449 | the result starts with the first n characters, is the text itself when it fits, and otherwise ends with the marker right after position n |
| Agent.Truncate | snow_agent.py:448-449 | short text is unchanged; longer text is its first n characters followed by "\n  ...(truncated)" |
| Agent.Summarize | snow_agent.py:442-445 | the encoded input is unchanged when it fits, else cut to n characters followed by "..." |
| Agent.PreviewsAreBounded | snow_agent.py:378-383 | with the lengths used, a result preview is at most 400 characters plus its marker and an input summary at most 120 plus "...", each unchanged when it fits |
| Agent.ShortenedIsMarked | snow_agent.py:445-449 | the result is longer than the limit exactly when the text was, in which case it is the head plus the marker |

## Left out

- snow_gui.py is not part of this model. It is a window, worker threads and file attachments around a copy of the agent loop.
- `main` in snow_agent.py is not modelled: environment checks, the console loop and its commands.
- `ServiceNowError` (snow_client.py:11-15) is never raised.
- The HTTP session is the `transport` parameter. Authentication, headers and timeouts are recorded in the request and the client, and go no further.
- The remote store's state between calls is not modelled: each reply is a function of the request alone.
- The model call creates a client from `ANTHROPIC_API_KEY` and sends the system prompt, the tool definitions and `max_tokens`. Here it is a function of the history alone, and it never raises.
- The tool and parameter descriptions in `TOOL_DEFINITIONS` are prose for the model and are not represented.
- Content blocks are text, tool requests and tool results only.
- The printing in `run_agent` is not modelled: model text, tool calls when verbose, the unexpected-stop warning.
  - `_truncate` and `_summarize` are modelled on their own; they are used only for that printing.
- `json.dumps` in `execute_tool` and `_summarize` is not modelled.
  - Tool results stay JSON values and become the tool-result content.
  - `Summarize` takes the encoder as a parameter.
- JSON numbers are integers; floating point is not modelled.
- `run_agent` returns the same list object it was given. Here the history is a `Conversation` field and aliasing is not modelled.
- Tools.ExecuteTool: an input value of a JSON type the call cannot use gives a failure record with a fixed message. Examples are a number as the table name, a string as the limit, or a non-list as the fields. Python's duck typing might instead accept such a value (a number formats into the URL) or raise a `TypeError` with its own text.
- Tools.OptionalText: a JSON null for `query` or `order_by` reads as "". That is how the client treats it: `if query:` is false for both.
