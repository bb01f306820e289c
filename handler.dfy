/** The action router: one endpoint, three HTTP methods, and an `Action`
    query parameter that selects the operation; plus the wrapper that runs an
    operation, stamps trace id, cost and serving node on its answer and writes
    it out. */
module Handler {
  import opened Common
  import opened Response
  import ObProxyHandler

  datatype HttpMethod = Get | Post | Delete

  /** The named operations a request can reach. */
  datatype Operation =
    | RootServiceGet
    | RootServicePost
    | RootServiceDelete
    | ObProxyConfigGet
    | ObProxyConfigWithTemplateGet
    | ObIdcRegionInfoGet
    | InvalidAction

  /** The `Action` parameter; the empty string when it is absent. */
  function ActionOf(query: ObProxyHandler.Query): (action: string)
    ensures "Action" in query ==> action == query["Action"]
    ensures "Action" !in query ==> action == ""
  {
    if "Action" in query then query["Action"] else ""
  }

  /** The `Action` value that names an operation; none names `invalidAction`. */
  function ActionName(op: Operation): string {
    match op
    case RootServiceGet | RootServicePost | RootServiceDelete => "ObRootServiceInfo"
    case ObProxyConfigGet => "GetObProxyConfig"
    case ObProxyConfigWithTemplateGet => "GetObRootServiceInfoUrlTemplate"
    case ObIdcRegionInfoGet => "ObIDCRegionInfo"
    case InvalidAction => ""
  }

  /** `getHandler`'s switch: four actions, each to the operation it names;
      GET never reaches the writing operations. */
  function GetHandler(action: string): (op: Operation)
    ensures op == InvalidAction <==>
      action !in {"ObRootServiceInfo", "GetObProxyConfig", "GetObRootServiceInfoUrlTemplate", "ObIDCRegionInfo"}
    ensures op != InvalidAction ==> ActionName(op) == action
    ensures op != RootServicePost && op != RootServiceDelete
  {
    if action == "ObRootServiceInfo" then RootServiceGet
    else if action == "GetObProxyConfig" then ObProxyConfigGet
    else if action == "GetObRootServiceInfoUrlTemplate" then ObProxyConfigWithTemplateGet
    else if action == "ObIDCRegionInfo" then ObIdcRegionInfoGet
    else InvalidAction
  }

  /** `postHandler`'s switch: three actions, each to the operation it names;
      POST reaches neither the region-info read nor deletion nor the root-service read. */
  function PostHandler(action: string): (op: Operation)
    ensures op == InvalidAction <==>
      action !in {"ObRootServiceInfo", "GetObProxyConfig", "GetObRootServiceInfoUrlTemplate"}
    ensures op != InvalidAction ==> ActionName(op) == action
    ensures op != RootServiceGet && op != RootServiceDelete && op != ObIdcRegionInfoGet
  {
    if action == "ObRootServiceInfo" then RootServicePost
    else if action == "GetObProxyConfig" then ObProxyConfigGet
    else if action == "GetObRootServiceInfoUrlTemplate" then ObProxyConfigWithTemplateGet
    else InvalidAction
  }

  /** `deleteHandler`'s switch: only deletion is reachable. */
  function DeleteHandler(action: string): (op: Operation)
    ensures op == InvalidAction <==> action != "ObRootServiceInfo"
    ensures op != InvalidAction ==> op == RootServiceDelete
  {
    if action == "ObRootServiceInfo" then RootServiceDelete else InvalidAction
  }

  /** The routing table as data: the (method, action) pairs the service accepts. */
  const Routes: map<(HttpMethod, string), Operation> := map[
    (Get, "ObRootServiceInfo") := RootServiceGet,
    (Get, "GetObProxyConfig") := ObProxyConfigGet,
    (Get, "GetObRootServiceInfoUrlTemplate") := ObProxyConfigWithTemplateGet,
    (Get, "ObIDCRegionInfo") := ObIdcRegionInfoGet,
    (Post, "ObRootServiceInfo") := RootServicePost,
    (Post, "GetObProxyConfig") := ObProxyConfigGet,
    (Post, "GetObRootServiceInfoUrlTemplate") := ObProxyConfigWithTemplateGet,
    (Delete, "ObRootServiceInfo") := RootServiceDelete
  ]

  /** Routing is total: a pair in the table reaches its operation, and every
      other pair (an unknown, empty or differently cased action, or an action
      the method does not accept) reaches `invalidAction`. */
  function Route(m: HttpMethod, action: string): (op: Operation)
    ensures (m, action) in Routes ==> op == Routes[(m, action)]
    ensures (m, action) !in Routes ==> op == InvalidAction
  {
    match m
    case Get => GetHandler(action)
    case Post => PostHandler(action)
    case Delete => DeleteHandler(action)
  }

  /** The region-info read is GET only and deletion is DELETE only. */
  lemma MethodRestrictions(action: string)
    ensures Route(Post, action) != ObIdcRegionInfoGet && Route(Delete, action) != ObIdcRegionInfoGet
    ensures Route(Get, action) != RootServiceDelete && Route(Post, action) != RootServiceDelete
    ensures Route(Delete, action) != InvalidAction <==> action == "ObRootServiceInfo"
  {
  }

  /** `invalidAction`: an illegal-argument answer. */
  function InvalidActionResponse(): (r: ApiResponse)
    ensures IsFailureOf(r, StatusBadRequest, "illegal argument: ", "invalid action")
    ensures KindOf(r) == Some(IllegalArgument)
  {
    KindOfMake(IllegalArgument, NoData, "invalid action");
    NewIllegalArgumentResponse("invalid action")
  }

  /** What reaches the client: the serialised envelope under its own code, or,
      when that envelope cannot be serialised, an internal-error envelope. */
  datatype Written = WrittenString(status: int, body: string) | WrittenJson(status: int, envelope: ApiResponse)

  /** The answer as the wrapper stamps it: trace id, cost and server replaced,
      everything else as the operation left it. */
  function Stamped(r: ApiResponse, traceId: string, cost: int64, server: string): (s: ApiResponse)
    ensures s.TraceId == traceId && s.Cost == cost && s.Server == server
    ensures s.Code == r.Code && s.Message == r.Message && s.Successful == r.Successful && s.Data == r.Data
    ensures KindOf(s) == KindOf(r)
  {
    r.(TraceId := traceId, Cost := cost, Server := server)
  }

  /** `handlerFunctionWrapper` applied to one request: the operation runs once,
      its answer is stamped, and the written status is the answer's own code
      unless serialisation fails. The trace id, the elapsed time and the node
      identity come in as parameters. */
  method HandlerFunctionWrapper(
    operation: ObProxyHandler.Query -> ApiResponse, query: ObProxyHandler.Query,
    traceId: string, cost: int64, server: string, serialize: ApiResponse -> Result<string>)
    returns (response: ApiResponse, written: Written)
    ensures response == Stamped(operation(query), traceId, cost, server)
    ensures serialize(response).Success? ==> written == WrittenString(response.Code, serialize(response).value)
    ensures serialize(response).Failure? ==>
      written == WrittenJson(StatusInternalServerError, NewErrorResponse(Wrap(serialize(response).error, "serialize response")))
  {
    response := operation(query);
    response := response.(TraceId := traceId);
    response := response.(Cost := cost);
    response := response.(Server := server);
    var responseJson := serialize(response);
    if responseJson.Failure? {
      written := WrittenJson(StatusInternalServerError, NewErrorResponse(Wrap(responseJson.error, "serialize response")));
    } else {
      written := WrittenString(response.Code, responseJson.value);
    }
  }

  /** One request through the router: the method and `Action` select an
      operation (the operations themselves are parameters), the invalid-action
      answer is the router's own, and the result goes through the wrapper. */
  method Serve(
    m: HttpMethod, query: ObProxyHandler.Query, operations: Operation -> (ObProxyHandler.Query -> ApiResponse),
    traceId: string, cost: int64, server: string, serialize: ApiResponse -> Result<string>)
    returns (written: Written)
    ensures var op := Route(m, ActionOf(query));
            var answer := if op == InvalidAction then InvalidActionResponse() else operations(op)(query);
            var stamped := Stamped(answer, traceId, cost, server);
            && (serialize(stamped).Success? ==> written == WrittenString(answer.Code, serialize(stamped).value))
            && (serialize(stamped).Failure? ==>
                  written == WrittenJson(StatusInternalServerError, NewErrorResponse(Wrap(serialize(stamped).error, "serialize response"))))
  {
    var op := Route(m, ActionOf(query));
    var operation := if op == InvalidAction then (q: ObProxyHandler.Query) => InvalidActionResponse() else operations(op);
    var response;
    response, written := HandlerFunctionWrapper(operation, query, traceId, cost, server, serialize);
  }
}
