/** The JSON-RPC tool server (src/agents/python/app/mcp_server.py), its client
    (src/infrastructure/FoundryMcpClient.cs) and the client's two retry loops. */
module Mcp {
  import opened Wrappers
  import opened Text
  import opened Json
  import opened Powers

  const PARSE_ERROR := -32700
  const INVALID_REQUEST := -32600
  const METHOD_NOT_FOUND := -32601
  const INVALID_PARAMS := -32602
  const INTERNAL_ERROR := -32603

  // ---- server ----

  function ErrorReply(code: int, message: string, id: Value): Value {
    Obj(map["jsonrpc" := Str("2.0"), "id" := id,
            "error" := Obj(map["code" := Int(code), "message" := Str(message)])])
  }

  function ResultReply(result: Value, id: Value): Value {
    Obj(map["jsonrpc" := Str("2.0"), "id" := id, "result" := result])
  }

  datatype Validated =
    | Refused(reply: Value)
    | Accepted(name: string, id: Value, params: Value)

  function Validate(payload: Value): Validated {
    if !payload.Obj? then Refused(ErrorReply(INVALID_REQUEST, "not an object", Null))
    else
      var id := ValueAt(payload, "id");
      if ValueAt(payload, "jsonrpc") != Str("2.0") then Refused(ErrorReply(INVALID_REQUEST, "jsonrpc", id))
      else if !ValueAt(payload, "method").Str? then Refused(ErrorReply(INVALID_REQUEST, "method", id))
      else
        var params := ValueAt(payload, "params");
        if params == Null then Accepted(ValueAt(payload, "method").s, id, Obj(map[]))
        else if !params.Obj? then Refused(ErrorReply(INVALID_PARAMS, "params", id))
        else Accepted(ValueAt(payload, "method").s, id, params)
  }

  datatype AgentRequest = AgentRequest(message: Value, workflowId: Option<string>, input: Value, context: Value)

  /** arguments.get(a) or arguments.get(b) or "". */
  function FirstTruthy(arguments: Value, names: seq<string>): Value {
    if names == [] then Str("")
    else if Truthy(ValueAt(arguments, names[0])) then ValueAt(arguments, names[0])
    else FirstTruthy(arguments, names[1..])
  }

  /** None is the schema's ValidationError: an empty message, or a workflow id that is not text. */
  function ReadArguments(arguments: Value): Option<AgentRequest> {
    var message := FirstTruthy(arguments, ["user_message", "message"]);
    var workflowId := ValueAt(arguments, "workflow_id");
    if !Truthy(message) || (workflowId != Null && !workflowId.Str?) then None
    else Some(AgentRequest(
      message,
      if workflowId.Str? then Some(workflowId.s) else None,
      arguments,
      if ValueAt(arguments, "context").Obj? then ValueAt(arguments, "context") else Obj(map[])))
  }

  datatype GraphOutcome = Finished(result: Value) | TimedOut | Crashed(errorType: string)

  /** The hosted graph, and json.dumps of its result. */
  type Graph = AgentRequest -> GraphOutcome
  type Dumps = Value -> string

  function ToolContent(result: Value, dumps: Dumps): Value {
    Obj(map[
      "content" := Arr([Obj(map["type" := Str("text"), "text" := Str(dumps(result))])]),
      "structuredContent" := result,
      "isError" := Bool(Get(result, "status") == Some(Str("error")))])
  }

  function ToolResultReply(result: Value, dumps: Dumps, id: Value): Value {
    ResultReply(ToolContent(result, dumps), id)
  }

  function OutcomeReply(outcome: GraphOutcome, dumps: Dumps, id: Value): Value {
    match outcome
    case TimedOut => ErrorReply(INTERNAL_ERROR, "timeout", id)
    case Crashed(errorType) => ErrorReply(INTERNAL_ERROR, errorType, id)
    case Finished(result) => ToolResultReply(result, dumps, id)
  }

  function CallTool(params: Value, id: Value, hosted: string, graph: Graph, dumps: Dumps): Value {
    var arguments := if Get(params, "arguments").Some? then Get(params, "arguments").value else Obj(map[]);
    if ValueAt(params, "name") != Str(hosted) then ErrorReply(INVALID_PARAMS, "unknown tool", id)
    else if !arguments.Obj? then ErrorReply(INVALID_PARAMS, "arguments", id)
    else
      var request := ReadArguments(arguments);
      if request.None? then ErrorReply(INVALID_PARAMS, "schema", id)
      else OutcomeReply(graph(request.value), dumps, id)
  }

  /** The reply to one request body; None is the empty 204. The payload is None when the
      body is not JSON. */
  function Handle(payload: Option<Value>, hosted: string, definition: Value, graph: Graph, dumps: Dumps): Option<Value> {
    if payload.None? then Some(ErrorReply(PARSE_ERROR, "parse", Null))
    else match Validate(payload.value)
      case Refused(reply) => Some(reply)
      case Accepted(name, id, params) =>
        if id == Null then None
        else if name == "initialize" then Some(ResultReply(Obj(map["protocolVersion" := Str("2024-11-05")]), id))
        else if name == "tools/list" then Some(ResultReply(Obj(map["tools" := Arr([definition])]), id))
        else if name != "tools/call" then Some(ErrorReply(METHOD_NOT_FOUND, name, id))
        else Some(CallTool(params, id, hosted, graph, dumps))
  }

  // ---- client ----

  datatype ErrorCode = Numeric(code: int) | Named(name: string)

  /** The response_body entry of a result: absent, text that is not JSON, or a document. */
  datatype Body = NoBody | Unparsed(text: string) | Document(value: Value)

  datatype ToolResult = ToolResult(
    status: string,
    message: string,
    body: Body,
    envelope: Value,
    errorCode: Option<ErrorCode>,
    errorMessage: string,
    attempts: nat)

  function CallParams(tool: string, arguments: Value): Value {
    Obj(map["name" := Str(tool), "arguments" := arguments])
  }

  function CallRequest(id: string, tool: string, arguments: Value): Value {
    Obj(map["jsonrpc" := Str("2.0"), "id" := Str(id), "method" := Str("tools/call"),
            "params" := CallParams(tool, arguments)])
  }

  /** What one HTTP exchange brings back. */
  datatype Delivery =
    | HttpFailure               // a status outside 200..299
    | NotJson                   // a body JsonDocument.Parse rejects, the empty 204 among them
    | Delivered(reply: Value)

  datatype Checked =
    | Passed(root: Value)
    | Protocol(code: int, message: string)
    | HttpError
    | Raised                    // an exception the retry loop does not catch

  /** JsonElement.ToString() of an id, as far as equality with a text id needs it. */
  function IdText(id: Value): Option<string> {
    match id
    case Str(s) => Some(s)
    case Null => Some("")
    case _ => None
  }

  /** Whether a numeric or structured id could print as the request's id is left open. */
  function CheckReply(requestId: string, delivery: Delivery, printsAs: (Value, string) -> bool): Checked {
    match delivery
    case HttpFailure => HttpError
    case NotJson => Raised
    case Delivered(root) =>
      if Get(root, "jsonrpc").None? then Protocol(INVALID_REQUEST, "not a JSON-RPC object")
      else if Get(root, "jsonrpc").value != Null && !Get(root, "jsonrpc").value.Str? then Raised
      else if Get(root, "jsonrpc").value != Str("2.0") then Protocol(INVALID_REQUEST, "not a JSON-RPC object")
      else if Get(root, "id").None? then Protocol(INVALID_REQUEST, "no id")
      else if !(if IdText(Get(root, "id").value).Some? then IdText(Get(root, "id").value).value == requestId
                else printsAs(Get(root, "id").value, requestId))
      then Protocol(INVALID_REQUEST, "other id")
      else if Get(root, "error").Some? && Get(root, "error").value.Obj? then
        var error := Get(root, "error").value;
        var code := ValueAt(error, "code");
        var message := ValueAt(error, "message");
        Protocol(if code.Int? && IsInt32(code.n) then code.n else INTERNAL_ERROR,
                 if message.Str? then message.s else "MCP error.")
      else if Get(root, "result").None? then Protocol(INVALID_REQUEST, "neither result nor error")
      else Passed(root)
  }

  /** The first text block that is not blank. */
  function FirstText(blocks: seq<Value>): Option<string> {
    if blocks == [] then None
    else if ValueAt(blocks[0], "type") == Str("text") && ValueAt(blocks[0], "text").Str?
            && !IsBlank(ValueAt(blocks[0], "text").s)
    then Some(ValueAt(blocks[0], "text").s)
    else FirstText(blocks[1..])
  }

  type ParseJson = string -> Option<Value>

  /** None: the payload text is not JSON, or the result is no object; both raise. */
  function ReadPayload(result: Value, parse: ParseJson): Option<Value> {
    if !result.Obj? then None
    else if ValueAt(result, "structuredContent").Obj? then Some(ValueAt(result, "structuredContent"))
    else if !ValueAt(result, "content").Arr? || FirstText(ValueAt(result, "content").items).None? then Some(result)
    else parse(FirstText(ValueAt(result, "content").items).value)
  }

  /** CreateMcpResponseResult. */
  function ResponseResult(root: Value, attempt: nat, parse: ParseJson): Option<ToolResult> {
    var result := ValueAt(root, "result");
    var payload := ReadPayload(result, parse);
    if payload.None? then None
    else Some(ToolResult(
      if ValueAt(result, "isError") == Bool(true) then "error" else "ok",
      "", Document(payload.value), result, None, "", attempt))
  }

  // ---- the two fit together ----

  /** JSON-RPC 2.0, section 5: the version, the request's id, and exactly one of result
      and error. */
  predicate WellFormedReply(reply: Value, id: Value) {
    && Get(reply, "jsonrpc") == Some(Str("2.0"))
    && Get(reply, "id") == Some(id)
    && (Get(reply, "result").Some? <==> Get(reply, "error").None?)
  }

  lemma RepliesAreWellFormed(code: int, message: string, result: Value, id: Value)
    ensures WellFormedReply(ErrorReply(code, message, id), id) && Get(ErrorReply(code, message, id), "error").Some?
    ensures WellFormedReply(ResultReply(result, id), id)
  {
    assert |"id"| == 2 && |"result"| == 6 && |"error"| == 5 && |"jsonrpc"| == 7;
  }

  lemma OutcomeIsWellFormed(outcome: GraphOutcome, id: Value, dumps: Dumps)
    ensures WellFormedReply(OutcomeReply(outcome, dumps, id), id)
  {
    match outcome {
      case TimedOut => RepliesAreWellFormed(INTERNAL_ERROR, "timeout", Null, id);
      case Crashed(errorType) => RepliesAreWellFormed(INTERNAL_ERROR, errorType, Null, id);
      case Finished(result) => RepliesAreWellFormed(0, "", ToolContent(result, dumps), id);
    }
  }

  lemma CallIsWellFormed(params: Value, id: Value, hosted: string, graph: Graph, dumps: Dumps)
    ensures WellFormedReply(CallTool(params, id, hosted, graph, dumps), id)
  {
    var arguments := if Get(params, "arguments").Some? then Get(params, "arguments").value else Obj(map[]);
    if ValueAt(params, "name") != Str(hosted) {
      RepliesAreWellFormed(INVALID_PARAMS, "unknown tool", Null, id);
    } else if !arguments.Obj? {
      RepliesAreWellFormed(INVALID_PARAMS, "arguments", Null, id);
    } else if ReadArguments(arguments).None? {
      RepliesAreWellFormed(INVALID_PARAMS, "schema", Null, id);
    } else {
      OutcomeIsWellFormed(graph(ReadArguments(arguments).value), id, dumps);
    }
  }

  lemma RefusalIsWellFormed(payload: Value)
    requires payload.Obj? && Validate(payload).Refused?
    ensures WellFormedReply(Validate(payload).reply, ValueAt(payload, "id")) && Get(Validate(payload).reply, "error").Some?
  {
    var id := ValueAt(payload, "id");
    RepliesAreWellFormed(INVALID_REQUEST, "jsonrpc", Null, id);
    RepliesAreWellFormed(INVALID_REQUEST, "method", Null, id);
    RepliesAreWellFormed(INVALID_PARAMS, "params", Null, id);
  }

  /** JSON-RPC 2.0, sections 4.1 and 5: a request object with an id gets one well-formed
      reply to that id; without an id it gets an error or nothing. */
  lemma EveryRequestAnswered(payload: Value, hosted: string, definition: Value, graph: Graph, dumps: Dumps)
    requires payload.Obj?
    ensures var reply := Handle(Some(payload), hosted, definition, graph, dumps);
            && (ValueAt(payload, "id") != Null ==> reply.Some?)
            && (reply.Some? ==>
                  && WellFormedReply(reply.value, ValueAt(payload, "id"))
                  && (ValueAt(payload, "id") == Null ==> Get(reply.value, "error").Some?))
  {
    match Validate(payload) {
      case Refused(_) =>
        RefusalIsWellFormed(payload);
      case Accepted(name, id, params) =>
        RepliesAreWellFormed(METHOD_NOT_FOUND, name, Obj(map["protocolVersion" := Str("2024-11-05")]), id);
        RepliesAreWellFormed(METHOD_NOT_FOUND, name, Obj(map["tools" := Arr([definition])]), id);
        CallIsWellFormed(params, id, hosted, graph, dumps);
    }
  }

  /** A call the server accepts and the graph finishes reaches the caller as exactly the
      graph's result, "ok" unless that result says error. */
  lemma CallRoundTrip(id: string, tool: string, arguments: Value, definition: Value, graph: Graph, dumps: Dumps,
                      printsAs: (Value, string) -> bool, parse: ParseJson, attempt: nat)
    requires arguments.Obj? && ReadArguments(arguments).Some?
    requires graph(ReadArguments(arguments).value).Finished? && graph(ReadArguments(arguments).value).result.Obj?
    ensures var result := graph(ReadArguments(arguments).value).result;
            var reply := Handle(Some(CallRequest(id, tool, arguments)), tool, definition, graph, dumps);
            && reply.Some?
            && CheckReply(id, Delivered(reply.value), printsAs) == Passed(reply.value)
            && ResponseResult(reply.value, attempt, parse).Some?
            && ResponseResult(reply.value, attempt, parse).value.body == Document(result)
            && ResponseResult(reply.value, attempt, parse).value.attempts == attempt
            && (ResponseResult(reply.value, attempt, parse).value.status == "ok" <==> Get(result, "status") != Some(Str("error")))
  {
    CallAccepted(id, tool, arguments, definition, graph, dumps);
    var result := graph(ReadArguments(arguments).value).result;
    ResultAccepted(id, result, dumps, printsAs);
    ResultRead(id, result, dumps, parse, attempt);
  }

  lemma RequestValidated(id: string, tool: string, arguments: Value)
    ensures Validate(CallRequest(id, tool, arguments)) == Accepted("tools/call", Str(id), CallParams(tool, arguments))
  {
    assert |"jsonrpc"| == 7 && |"id"| == 2 && |"method"| == 6 && |"params"| == 6;
    assert "method"[0] == 'm' && "params"[0] == 'p';
  }

  lemma ParamsRead(tool: string, arguments: Value)
    ensures ValueAt(CallParams(tool, arguments), "name") == Str(tool)
    ensures Get(CallParams(tool, arguments), "arguments") == Some(arguments)
  {
    assert |"name"| == 4 && |"arguments"| == 9;
  }

  lemma MethodsDiffer()
    ensures "tools/call" != "initialize" && "tools/call" != "tools/list"
  {
    assert "initialize"[0] == 'i' && "tools/list"[6] == 'l' && "tools/call"[6] == 'c' && "tools/call"[0] == 't';
  }

  lemma CallAccepted(id: string, tool: string, arguments: Value, definition: Value, graph: Graph, dumps: Dumps)
    requires arguments.Obj? && ReadArguments(arguments).Some?
    ensures Handle(Some(CallRequest(id, tool, arguments)), tool, definition, graph, dumps)
         == Some(OutcomeReply(graph(ReadArguments(arguments).value), dumps, Str(id)))
  {
    RequestValidated(id, tool, arguments);
    ParamsRead(tool, arguments);
    MethodsDiffer();
  }

  lemma ResultAccepted(id: string, result: Value, dumps: Dumps, printsAs: (Value, string) -> bool)
    ensures CheckReply(id, Delivered(ToolResultReply(result, dumps, Str(id))), printsAs)
         == Passed(ToolResultReply(result, dumps, Str(id)))
  {
    assert |"jsonrpc"| == 7 && |"id"| == 2 && |"result"| == 6 && |"error"| == 5;
  }

  lemma ResultRead(id: string, result: Value, dumps: Dumps, parse: ParseJson, attempt: nat)
    requires result.Obj?
    ensures var read := ResponseResult(ToolResultReply(result, dumps, Str(id)), attempt, parse);
            && read.Some? && read.value.body == Document(result) && read.value.attempts == attempt
            && (read.value.status == "ok" <==> Get(result, "status") != Some(Str("error")))
  {
    assert |"jsonrpc"| == 7 && |"id"| == 2 && |"result"| == 6;
    assert |"content"| == 7 && |"structuredContent"| == 17 && |"isError"| == 7;
    assert "content"[0] == 'c' && "isError"[0] == 'i';
    assert |"ok"| == 2 && |"error"| == 5;
  }

  lemma ErrorReported(id: string, code: int, message: string, printsAs: (Value, string) -> bool)
    requires IsInt32(code)
    ensures CheckReply(id, Delivered(ErrorReply(code, message, Str(id))), printsAs) == Protocol(code, message)
  {
    assert |"jsonrpc"| == 7 && |"id"| == 2 && |"error"| == 5 && |"code"| == 4 && |"message"| == 7;
  }

  /** A graph that fails or runs out of time reaches the caller as code -32603, and the
      attempt that met it is the last one. */
  lemma GraphFailureReported(id: string, tool: string, arguments: Value, definition: Value, graph: Graph, dumps: Dumps,
                             initialId: string, initial: Delivery, printsAs: (Value, string) -> bool, parse: ParseJson,
                             attempt: nat)
    requires arguments.Obj? && ReadArguments(arguments).Some?
    requires !graph(ReadArguments(arguments).value).Finished?
    requires CheckReply(initialId, initial, printsAs).Passed?
    ensures var reply := Handle(Some(CallRequest(id, tool, arguments)), tool, definition, graph, dumps);
            && reply.Some?
            && var outcome := AttemptOf(initialId, id, initial, Delivered(reply.value), printsAs, parse, attempt);
               outcome.ProtocolFailed? && outcome.code == INTERNAL_ERROR && !McpRetryable(outcome)
  {
    CallAccepted(id, tool, arguments, definition, graph, dumps);
    var failure := match graph(ReadArguments(arguments).value)
      case Crashed(errorType) => errorType
      case _ => "timeout";
    ErrorReported(id, INTERNAL_ERROR, failure, printsAs);
  }

  // ---- retry loops ----

  datatype Loop = Returned(result: ToolResult) | Cancelled | Thrown

  function Failure(code: ErrorCode, message: string, attempt: nat): ToolResult {
    ToolResult("error", message, NoBody, Null, Some(code), message, attempt)
  }

  /** One pass of the MCP loop's try block. */
  datatype McpAttempt =
    | CallerCancelled
    | AttemptTimeout
    | TransportFailed
    | ProtocolFailed(code: int, message: string)
    | OtherException
    | Answered(result: ToolResult)

  /** The initialize exchange and then the call, as the try block runs them. */
  function AttemptOf(initialId: string, callId: string, initial: Delivery, call: Delivery,
                     printsAs: (Value, string) -> bool, parse: ParseJson, attempt: nat): McpAttempt {
    match CheckReply(initialId, initial, printsAs)
    case HttpError => TransportFailed
    case Raised => OtherException
    case Protocol(code, message) => ProtocolFailed(code, message)
    case Passed(_) =>
      match CheckReply(callId, call, printsAs)
      case HttpError => TransportFailed
      case Raised => OtherException
      case Protocol(code, message) => ProtocolFailed(code, message)
      case Passed(root) =>
        if ResponseResult(root, attempt, parse).None? then OtherException
        else Answered(ResponseResult(root, attempt, parse).value)
  }

  predicate McpRetryable(attempt: McpAttempt) {
    attempt.AttemptTimeout? || attempt.TransportFailed?
  }

  /** How the loop leaves on an attempt it does not retry. */
  function McpExit(outcome: McpAttempt, attempt: nat): Loop {
    match outcome
    case CallerCancelled => Cancelled
    case AttemptTimeout => Returned(Failure(Named("timeout"), "Agent invocation failed.", attempt))
    case TransportFailed => Returned(Failure(Named("transport_error"), "Agent invocation failed.", attempt))
    case ProtocolFailed(code, message) => Returned(Failure(Numeric(code), message, attempt))
    case OtherException => Thrown
    case Answered(result) => Returned(result.(attempts := attempt))
  }

  /** InvokeMcpToolAsync. outcomes[k] is what attempt k + 1 meets; delayCancelled[k] says
      that the caller cancels during the pause after it. */
  method InvokeMcpTool(maxAttempts: nat, baseDelay: nat, outcomes: seq<McpAttempt>, delayCancelled: seq<bool>)
    returns (r: Loop, made: nat, planned: nat)
    requires 1 <= maxAttempts <= 5 && |outcomes| == |delayCancelled| == maxAttempts
    ensures 1 <= made <= maxAttempts
    ensures forall k | 0 <= k < made - 1 :: McpRetryable(outcomes[k]) && !delayCancelled[k]
    ensures McpRetryable(outcomes[made - 1]) && made < maxAttempts
            ==> r == Cancelled && delayCancelled[made - 1] && planned == baseDelay * (Power2(made) - 1)
    ensures !McpRetryable(outcomes[made - 1]) || made == maxAttempts
            ==> r == McpExit(outcomes[made - 1], made) && planned == baseDelay * (Power2(made - 1) - 1)
    ensures r.Returned? ==> r.result.attempts == made
  {
    planned := 0;
    made := 0;
    var attempt := 1;
    while attempt <= maxAttempts
      invariant 1 <= attempt <= maxAttempts
      invariant made == attempt - 1
      invariant planned == baseDelay * (Power2(attempt - 1) - 1)
      invariant forall k | 0 <= k < made :: McpRetryable(outcomes[k]) && !delayCancelled[k]
    {
      made := attempt;
      match outcomes[attempt - 1] {
        case CallerCancelled =>
          return Cancelled, made, planned;
        case AttemptTimeout =>
          if attempt == maxAttempts {
            return Returned(Failure(Named("timeout"), "Agent invocation failed.", attempt)), made, planned;
          }
        case TransportFailed =>
          if attempt == maxAttempts {
            return Returned(Failure(Named("transport_error"), "Agent invocation failed.", attempt)), made, planned;
          }
        case ProtocolFailed(code, message) =>
          return Returned(Failure(Numeric(code), message, attempt)), made, planned;
        case OtherException =>
          return Thrown, made, planned;
        case Answered(result) =>
          return Returned(result.(attempts := attempt)), made, planned;
      }
      planned := planned + baseDelay * Power2(attempt - 1);
      assert planned == baseDelay * (Power2(attempt) - 1) by {
        assert Power2(attempt) == 2 * Power2(attempt - 1);
      }
      if delayCancelled[attempt - 1] {
        return Cancelled, made, planned;
      }
      attempt := attempt + 1;
    }
    assert false;
  }

  /** One pass of the typed-envelope loop's try block. */
  datatype HttpAttempt =
    | CallerStopped
    | TimedOutAttempt
    | RequestFailed
    | AzureFailed(status: int)
    | AuthenticationFailed
    | Unexpected
    | Responded(status: int, body: Body)

  predicate IsTransient(status: int) {
    status == 408 || status == 429 || status == 500 || status == 502 || status == 503 || status == 504
  }

  predicate HttpRetryable(outcome: HttpAttempt) {
    match outcome
    case TimedOutAttempt => true
    case RequestFailed => true
    case AzureFailed(status) => IsTransient(status)
    case Responded(status, _) => IsTransient(status)
    case _ => false
  }

  function HttpExit(outcome: HttpAttempt, attempt: nat): Loop {
    match outcome
    case CallerStopped => Cancelled
    case TimedOutAttempt => Returned(Failure(Named("timeout"), "Agent invocation failed.", attempt))
    case RequestFailed => Returned(Failure(Named("transport_error"), "Agent invocation failed.", attempt))
    case AzureFailed(_) => Returned(Failure(Named("azure_request_failed"), "Agent invocation failed.", attempt))
    case AuthenticationFailed => Returned(Failure(Named("authentication_failed"), "Agent invocation failed.", attempt))
    case Unexpected => Thrown
    case Responded(status, body) =>
      Returned(ToolResult(if 200 <= status <= 299 then "ok" else "error", "", body, Null, None, "", attempt))
  }

  /** InvokeAsync's loop for an agent reached by the typed envelope. */
  method InvokeTyped(maxAttempts: nat, baseDelay: nat, outcomes: seq<HttpAttempt>, delayCancelled: seq<bool>)
    returns (r: Loop, made: nat, planned: nat)
    requires 1 <= maxAttempts <= 5 && |outcomes| == |delayCancelled| == maxAttempts
    ensures 1 <= made <= maxAttempts
    ensures forall k | 0 <= k < made - 1 :: HttpRetryable(outcomes[k]) && !delayCancelled[k]
    ensures HttpRetryable(outcomes[made - 1]) && made < maxAttempts
            ==> r == Cancelled && delayCancelled[made - 1] && planned == baseDelay * (Power2(made) - 1)
    ensures !HttpRetryable(outcomes[made - 1]) || made == maxAttempts
            ==> r == HttpExit(outcomes[made - 1], made) && planned == baseDelay * (Power2(made - 1) - 1)
    ensures r.Returned? ==> r.result.attempts == made
    ensures r.Returned? && r.result.status == "ok" ==>
              outcomes[made - 1].Responded? && 200 <= outcomes[made - 1].status <= 299
  {
    planned := 0;
    made := 0;
    assert |"ok"| == 2 && |"error"| == 5;
    var attempt := 1;
    while attempt <= maxAttempts
      invariant 1 <= attempt <= maxAttempts
      invariant made == attempt - 1
      invariant planned == baseDelay * (Power2(attempt - 1) - 1)
      invariant forall k | 0 <= k < made :: HttpRetryable(outcomes[k]) && !delayCancelled[k]
    {
      made := attempt;
      match outcomes[attempt - 1] {
        case CallerStopped =>
          return Cancelled, made, planned;
        case TimedOutAttempt =>
          if attempt == maxAttempts {
            return Returned(Failure(Named("timeout"), "Agent invocation failed.", attempt)), made, planned;
          }
        case RequestFailed =>
          if attempt == maxAttempts {
            return Returned(Failure(Named("transport_error"), "Agent invocation failed.", attempt)), made, planned;
          }
        case AzureFailed(status) =>
          if !IsTransient(status) || attempt == maxAttempts {
            return Returned(Failure(Named("azure_request_failed"), "Agent invocation failed.", attempt)), made, planned;
          }
        case AuthenticationFailed =>
          return Returned(Failure(Named("authentication_failed"), "Agent invocation failed.", attempt)), made, planned;
        case Unexpected =>
          return Thrown, made, planned;
        case Responded(status, body) =>
          if !IsTransient(status) || attempt == maxAttempts {
            var outcome := if 200 <= status <= 299 then "ok" else "error";
            return Returned(ToolResult(outcome, "", body, Null, None, "", attempt)), made, planned;
          }
      }
      planned := planned + baseDelay * Power2(attempt - 1);
      assert planned == baseDelay * (Power2(attempt) - 1) by {
        assert Power2(attempt) == 2 * Power2(attempt - 1);
      }
      if delayCancelled[attempt - 1] {
        return Cancelled, made, planned;
      }
      attempt := attempt + 1;
    }
    assert false;
  }
}
