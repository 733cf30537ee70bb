/** The JSON-RPC exchange over the documents themselves: which request gets which reply,
    which reply the client accepts, and what each failure looks like to the caller. */
module McpMeaning {
  import opened Wrappers
  import opened Text
  import opened Json
  import opened Mcp

  // ---- the server ----

  function ReplyCode(reply: Value): Option<int> {
    var code := ValueAt(ValueAt(reply, "error"), "code");
    if code.Int? then Some(code.n) else None
  }

  /** An error reply with this code to the request with this id. */
  predicate Refuses(reply: Option<Value>, code: int, id: Value) {
    reply.Some? && WellFormedReply(reply.value, id) && ReplyCode(reply.value) == Some(code)
  }

  lemma ErrorRefuses(code: int, message: string, id: Value)
    ensures Refuses(Some(ErrorReply(code, message, id)), code, id)
  {
    RepliesAreWellFormed(code, message, Null, id);
    assert |"id"| == 2 && |"error"| == 5 && |"jsonrpc"| == 7 && |"code"| == 4 && |"message"| == 7;
  }

  lemma ResultFound(result: Value, id: Value)
    ensures ValueAt(ResultReply(result, id), "result") == result
  {
    assert |"id"| == 2 && |"result"| == 6 && |"jsonrpc"| == 7;
  }

  /** A body that is no JSON object is refused without an id. */
  lemma NoObjectRefused(payload: Option<Value>, hosted: string, definition: Value, graph: Graph, dumps: Dumps)
    requires payload.Some? ==> !payload.value.Obj?
    ensures Refuses(Handle(payload, hosted, definition, graph, dumps), if payload.None? then -32700 else -32600, Null)
  {
    ErrorRefuses(-32700, "parse", Null);
    ErrorRefuses(-32600, "not an object", Null);
  }

  /** Which reply a request object gets, in the order the server looks. */
  lemma RequestMeaning(payload: Value, hosted: string, definition: Value, graph: Graph, dumps: Dumps)
    requires payload.Obj?
    ensures var reply := Handle(Some(payload), hosted, definition, graph, dumps);
            var id, name, params := ValueAt(payload, "id"), ValueAt(payload, "method"), ValueAt(payload, "params");
            if ValueAt(payload, "jsonrpc") != Str("2.0") || !name.Str? then Refuses(reply, -32600, id)
            else if params != Null && !params.Obj? then Refuses(reply, -32602, id)
            else if id == Null then reply.None?
            else if name.s == "initialize" then
              reply.Some? && ValueAt(ValueAt(reply.value, "result"), "protocolVersion") == Str("2024-11-05")
            else if name.s == "tools/list" then
              reply.Some? && ValueAt(ValueAt(reply.value, "result"), "tools") == Arr([definition])
            else if name.s == "tools/call" then
              reply == Some(CallTool(if params == Null then Obj(map[]) else params, id, hosted, graph, dumps))
            else Refuses(reply, -32601, id)
  {
    var id, name := ValueAt(payload, "id"), ValueAt(payload, "method");
    ErrorRefuses(-32600, "jsonrpc", id);
    ErrorRefuses(-32600, "method", id);
    ErrorRefuses(-32602, "params", id);
    ResultFound(Obj(map["protocolVersion" := Str("2024-11-05")]), id);
    ResultFound(Obj(map["tools" := Arr([definition])]), id);
    if name.Str? {
      ErrorRefuses(-32601, name.s, id);
    }
    assert |"initialize"| == 10 && |"tools/list"| == 10 && "initialize"[0] == 'i' && "tools/list"[0] == 't';
    assert "tools/list"[6] == 'l' && "tools/call"[6] == 'c' && |"tools/call"| == 10 && "tools/call"[0] == 't';
  }

  /** A tool call reaches the graph exactly when it names the hosted tool with readable
      arguments; every other call is refused as having invalid parameters, and a graph that
      fails or runs out of time as an internal error. */
  lemma CallMeaning(params: Value, id: Value, hosted: string, graph: Graph, dumps: Dumps)
    ensures var reply := Some(CallTool(params, id, hosted, graph, dumps));
            var arguments := if Get(params, "arguments").Some? then Get(params, "arguments").value else Obj(map[]);
            if ValueAt(params, "name") != Str(hosted) || !arguments.Obj? || ReadArguments(arguments).None?
            then Refuses(reply, -32602, id)
            else
              match graph(ReadArguments(arguments).value)
              case Finished(result) =>
                && WellFormedReply(reply.value, id)
                && ValueAt(ValueAt(reply.value, "result"), "structuredContent") == result
                && ValueAt(ValueAt(reply.value, "result"), "isError") == Bool(ValueAt(result, "status") == Str("error"))
              case _ => Refuses(reply, -32603, id)
  {
    var arguments := if Get(params, "arguments").Some? then Get(params, "arguments").value else Obj(map[]);
    if ValueAt(params, "name") != Str(hosted) {
      ErrorRefuses(-32602, "unknown tool", id);
    } else if !arguments.Obj? {
      ErrorRefuses(-32602, "arguments", id);
    } else if ReadArguments(arguments).None? {
      ErrorRefuses(-32602, "schema", id);
    } else {
      OutcomeMeaning(graph(ReadArguments(arguments).value), id, dumps);
    }
  }

  lemma OutcomeMeaning(outcome: GraphOutcome, id: Value, dumps: Dumps)
    ensures var reply := OutcomeReply(outcome, dumps, id);
            match outcome
            case Finished(result) =>
              && WellFormedReply(reply, id)
              && ValueAt(ValueAt(reply, "result"), "structuredContent") == result
              && ValueAt(ValueAt(reply, "result"), "isError") == Bool(ValueAt(result, "status") == Str("error"))
            case _ => Refuses(Some(reply), -32603, id)
  {
    match outcome {
      case TimedOut => ErrorRefuses(-32603, "timeout", id);
      case Crashed(errorType) => ErrorRefuses(-32603, errorType, id);
      case Finished(result) =>
        OutcomeIsWellFormed(outcome, id, dumps);
        ResultFound(ToolContent(result, dumps), id);
        assert |"content"| == 7 && |"structuredContent"| == 17 && |"isError"| == 7;
        assert "content"[0] == 'c' && "isError"[0] == 'i';
    }
  }

  /** Arguments are readable exactly when one of the two message fields says something and
      the workflow id, if given, is text; the first of the two that says something is used. */
  lemma ArgumentsMeaning(arguments: Value)
    requires arguments.Obj?
    ensures var user, plain, workflow := ValueAt(arguments, "user_message"), ValueAt(arguments, "message"), ValueAt(arguments, "workflow_id");
            && (ReadArguments(arguments).Some? <==> (Truthy(user) || Truthy(plain)) && (workflow == Null || workflow.Str?))
            && (ReadArguments(arguments).Some? ==>
                  var request := ReadArguments(arguments).value;
                  && request.message == (if Truthy(user) then user else plain)
                  && request.workflowId == (if workflow.Str? then Some(workflow.s) else None)
                  && request.input == arguments
                  && request.context == (if ValueAt(arguments, "context").Obj? then ValueAt(arguments, "context") else Obj(map[])))
  {
    var names := ["user_message", "message"];
    assert names[1..] == ["message"] && names[1..][1..] == [];
    assert FirstTruthy(arguments, names)
        == if Truthy(ValueAt(arguments, "user_message")) then ValueAt(arguments, "user_message") else FirstTruthy(arguments, ["message"]);
    assert FirstTruthy(arguments, ["message"])
        == if Truthy(ValueAt(arguments, "message")) then ValueAt(arguments, "message") else Str("");
  }

  // ---- the client ----

  /** The reply's id is the request's. */
  predicate Answers(root: Value, requestId: string, printsAs: (Value, string) -> bool) {
    match Get(root, "id")
    case None => false
    case Some(Str(s)) => s == requestId
    case Some(Null) => requestId == ""
    case Some(id) => printsAs(id, requestId)
  }

  /** What the client takes for a result: version 2.0, the request's own id, no error object,
      and a result. Everything else is an error with a code of its own or an exception. */
  lemma ReplyMeaning(requestId: string, delivery: Delivery, printsAs: (Value, string) -> bool)
    ensures var checked := CheckReply(requestId, delivery, printsAs);
            match delivery
            case HttpFailure => checked == HttpError
            case NotJson => checked == Raised
            case Delivered(root) =>
              var version, error := Get(root, "jsonrpc"), ValueAt(root, "error");
              && (checked.Passed? <==> version == Some(Str("2.0")) && Answers(root, requestId, printsAs)
                                       && !error.Obj? && Get(root, "result").Some?)
              && (checked.Passed? ==> checked.root == root)
              && (checked.Raised? <==> version.Some? && version.value != Null && !version.value.Str?)
              && (checked.Protocol? <==> !checked.Passed? && !checked.Raised?)
              && (checked.Protocol? ==>
                    checked.code == if version == Some(Str("2.0")) && Answers(root, requestId, printsAs) && error.Obj?
                                    then (if ValueAt(error, "code").Int? && -0x8000_0000 <= ValueAt(error, "code").n < 0x8000_0000
                                          then ValueAt(error, "code").n else -32603)
                                    else -32600)
  {
  }

  /** The first text block with anything in it. */
  predicate SaysSomething(block: Value) {
    ValueAt(block, "type") == Str("text") && ValueAt(block, "text").Str? && !IsBlank(ValueAt(block, "text").s)
  }

  lemma {:induction false} FirstTextMeaning(blocks: seq<Value>, k: nat)
    requires k <= |blocks| && forall j | 0 <= j < k :: !SaysSomething(blocks[j])
    ensures k == |blocks| ==> FirstText(blocks) == None
    ensures k < |blocks| && SaysSomething(blocks[k]) ==> FirstText(blocks) == Some(ValueAt(blocks[k], "text").s)
    decreases |blocks|
  {
    if blocks != [] && k > 0 {
      assert !SaysSomething(blocks[0]);
      assert forall j | 0 <= j < k - 1 :: blocks[1..][j] == blocks[j + 1];
      FirstTextMeaning(blocks[1..], k - 1);
    }
  }

  /** The payload of a result: the structured content when there is some, else what its first
      text block with anything in it parses to, else the result itself. */
  lemma PayloadMeaning(result: Value, parse: ParseJson, k: nat)
    requires result.Obj?
    requires var content := ValueAt(result, "content");
             content.Arr? ==> k <= |content.items| && forall j | 0 <= j < k :: !SaysSomething(content.items[j])
    ensures var structured, content := ValueAt(result, "structuredContent"), ValueAt(result, "content");
            && (structured.Obj? ==> ReadPayload(result, parse) == Some(structured))
            && (!structured.Obj? && (!content.Arr? || k == |content.items|) ==> ReadPayload(result, parse) == Some(result))
            && (!structured.Obj? && content.Arr? && k < |content.items| && SaysSomething(content.items[k]) ==>
                  ReadPayload(result, parse) == parse(ValueAt(content.items[k], "text").s))
  {
    if ValueAt(result, "content").Arr? {
      FirstTextMeaning(ValueAt(result, "content").items, k);
    }
  }

  lemma ResponseMeaning(root: Value, attempt: nat, parse: ParseJson)
    ensures var result, response := ValueAt(root, "result"), ResponseResult(root, attempt, parse);
            && (response.None? <==> !result.Obj? || ReadPayload(result, parse).None?)
            && (response.Some? ==>
                  && (response.value.status == "error" <==> ValueAt(result, "isError") == Bool(true))
                  && (response.value.status == "ok" <==> ValueAt(result, "isError") != Bool(true))
                  && response.value.body == Document(ReadPayload(result, parse).value)
                  && response.value.errorCode == None && response.value.attempts == attempt)
  {
    assert |"ok"| == 2 && |"error"| == 5;
  }

  /** An attempt is answered exactly when both exchanges pass and the second one's result can
      be read; otherwise the first exchange that does not pass says how it failed. */
  lemma AttemptMeaning(initialId: string, callId: string, initial: Delivery, call: Delivery,
                       printsAs: (Value, string) -> bool, parse: ParseJson, attempt: nat)
    ensures var outcome := AttemptOf(initialId, callId, initial, call, printsAs, parse, attempt);
            var first, second := CheckReply(initialId, initial, printsAs), CheckReply(callId, call, printsAs);
            var failing := if first.Passed? then second else first;
            && (outcome.Answered? <==> first.Passed? && second.Passed? && ResponseResult(second.root, attempt, parse).Some?)
            && (outcome.Answered? ==> Some(outcome.result) == ResponseResult(second.root, attempt, parse))
            && (outcome.TransportFailed? <==> failing.HttpError?)
            && (outcome.ProtocolFailed? <==> failing.Protocol?)
            && (outcome.ProtocolFailed? ==> outcome.code == failing.code && outcome.message == failing.message)
            && !outcome.AttemptTimeout? && !outcome.CallerCancelled?
  {
  }

  // ---- the two loops ----

  /** Which attempts are repeated: those that timed out or could not be sent, and those that
      met a status the service may recover from. */
  lemma RetriedExactly(outcome: HttpAttempt)
    ensures HttpRetryable(outcome) <==>
              || outcome.TimedOutAttempt? || outcome.RequestFailed?
              || ((outcome.AzureFailed? || outcome.Responded?) && outcome.status in {408, 429, 500, 502, 503, 504})
  {
  }

  /** Each error name the caller sees tells one kind of last attempt from all others. */
  lemma HttpErrorsTell(outcome: HttpAttempt, attempt: nat)
    ensures var exit := HttpExit(outcome, attempt);
            && (exit == Mcp.Loop.Cancelled <==> outcome.CallerStopped?)
            && (exit == Thrown <==> outcome.Unexpected?)
            && (exit.Returned? ==>
                  && (exit.result.errorCode == Some(Named("timeout")) <==> outcome.TimedOutAttempt?)
                  && (exit.result.errorCode == Some(Named("transport_error")) <==> outcome.RequestFailed?)
                  && (exit.result.errorCode == Some(Named("azure_request_failed")) <==> outcome.AzureFailed?)
                  && (exit.result.errorCode == Some(Named("authentication_failed")) <==> outcome.AuthenticationFailed?)
                  && (exit.result.errorCode == None <==> outcome.Responded?)
                  && (exit.result.status == "ok" <==> outcome.Responded? && 200 <= outcome.status < 300)
                  && (outcome.Responded? ==> exit.result.body == outcome.body))
  {
    assert |"timeout"| == 7 && |"transport_error"| == 15 && |"azure_request_failed"| == 20 && |"authentication_failed"| == 21;
    assert |"ok"| == 2 && |"error"| == 5;
  }

  lemma McpErrorsTell(outcome: McpAttempt, attempt: nat)
    ensures var exit := McpExit(outcome, attempt);
            && (exit == Mcp.Loop.Cancelled <==> outcome.CallerCancelled?)
            && (exit == Thrown <==> outcome.OtherException?)
            && (exit.Returned? && !outcome.Answered? ==>
                  && exit.result.status == "error" && exit.result.body == NoBody
                  && (exit.result.errorCode == Some(Named("timeout")) <==> outcome.AttemptTimeout?)
                  && (exit.result.errorCode == Some(Named("transport_error")) <==> outcome.TransportFailed?)
                  && (outcome.ProtocolFailed? <==>
                        exit.result.errorCode.Some? && exit.result.errorCode.value.Numeric?)
                  && (outcome.ProtocolFailed? ==>
                        exit.result.errorCode == Some(Numeric(outcome.code)) && exit.result.message == outcome.message))
            && (outcome.Answered? ==> exit == Returned(outcome.result.(attempts := attempt)))
  {
    assert |"timeout"| == 7 && |"transport_error"| == 15;
  }
}
