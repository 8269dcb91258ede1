/**
 * DispatcherServlet.service: the routing key of a request (upper-cased verb, path info with
 * a leading context segment dropped), the handler lookup, the choice between calling the
 * controller method with or without its Param, and what the response receives for a View
 * or a Data result.  The servlet container's side effects (redirect, forward, writing JSON)
 * are returned as a Directive; copying a View's model into the request attributes is
 * performed on an HttpRequest object.
 */
module DispatcherServlet {
  import opened Base
  import opened JavaString
  import opened Bean
  import opened ControllerHelper

  /** A View result: the page path and the model handed to it. */
  datatype View = View(path: string, model: map<string, ModelObject>)

  /** What a controller method returns when it returns normally. */
  datatype ActionResult = ViewResult(view: View) | DataResult(data: Data) | OtherResult | NullResult

  /** How the controller method was called, if at all. */
  datatype Invocation =
    | NotInvoked
    | InvokedWithoutArgument(handler: Handler)
    | InvokedWithParam(handler: Handler, param: Param)

  /** What the response receives. */
  datatype Directive = NoOutput | Redirect(location: string) | Forward(dispatchPath: string) | WriteJson(json: ModelObject)

  /** The outcome of service: the call made, the directive, and the attributes it set on the request. */
  datatype Response = Response(invocation: Invocation, directive: Directive, attributesSet: map<string, ModelObject>)

  /**
   * The path looked up for a path info: split on "/", and when there are more than two
   * pieces, "/" followed by the third.  The result is the path info itself or a single
   * segment after a "/".
   */
  function NormalizePath(pathInfo: string): (path: string)
    ensures path == pathInfo || (|path| >= 1 && path[0] == '/' && '/' !in path[1..])
  {
    var splits := Split(pathInfo, '/');
    if |splits| > 2 then
      assert '/' !in splits[2];
      "/" + splits[2]
    else pathInfo
  }

  /** "/" followed by a segment without "/" is looked up as it is ("/userList"). */
  lemma SingleSegmentUnchanged(segment: string)
    requires '/' !in segment
    ensures NormalizePath("/" + segment) == "/" + segment
  {
    FieldsOfPiece("", '/', segment);
    assert "" + ['/'] + segment == "/" + segment;
    FieldsWithoutSeparator(segment, '/');
    assert '/' in "/" + segment by { assert ("/" + segment)[0] == '/'; }
  }

  /** A leading context segment is dropped ("/ctx/userList" is looked up as "/userList"). */
  lemma ContextSegmentDropped(context: string, segment: string)
    requires '/' !in context && '/' !in segment && segment != ""
    ensures NormalizePath("/" + context + "/" + segment) == "/" + segment
  {
    var p := "/" + context + "/" + segment;
    FieldsOfPiece("", '/', context + "/" + segment);
    assert "" + ['/'] + (context + "/" + segment) == p;
    FieldsOfPiece(context, '/', segment);
    assert context + ['/'] + segment == context + "/" + segment;
    FieldsWithoutSeparator(segment, '/');
    assert Fields(p, '/') == ["", context, segment];
    assert '/' in p by { assert p[0] == '/'; }
  }

  /** Normalising a normalised path changes nothing. */
  lemma NormalizePathIdempotent(pathInfo: string)
    ensures NormalizePath(NormalizePath(pathInfo)) == NormalizePath(pathInfo)
  {
    var path := NormalizePath(pathInfo);
    if path != pathInfo {
      SingleSegmentUnchanged(path[1..]);
      assert path == "/" + path[1..];
    }
  }

  /** The example path of a deployment at the root: "/userList" is looked up as it is. */
  lemma RootDeploymentPath()
    ensures NormalizePath("/userList") == "/userList"
  {
    SingleSegmentUnchanged("userList");
    PathLiteral();
  }

  /** The example paths, spelt as concatenations. */
  lemma PathLiteral()
    ensures "/" + "ctx" + "/" + "userList" == "/ctx/userList"
    ensures "/" + "userList" == "/userList"
  {
  }

  /** The example path of a deployment under a context: "/ctx/userList" is looked up as "/userList". */
  lemma ContextDeploymentPath()
    ensures NormalizePath("/ctx/userList") == "/userList"
  {
    ContextSegmentDropped("ctx", "userList");
    PathLiteral();
  }

  /** The key service looks up: the upper-cased verb and the normalised path; a null path info throws. */
  function RouteKey(httpMethod: string, pathInfo: Option<string>): (r: Result<Request, JavaException>)
    ensures pathInfo.None? ==> r == Failure(NullPointer)
    ensures pathInfo.Some? ==> r == Success(Request(UpperAscii(httpMethod), NormalizePath(pathInfo.value)))
  {
    match pathInfo
    case None => Failure(NullPointer)
    case Some(p) => Success(Request(UpperAscii(httpMethod), NormalizePath(p)))
  }

  /** The controller method gets no argument for a null or empty Param, and the Param otherwise. */
  function ChooseInvocation(handler: Handler, param: Option<Param>): (inv: Invocation)
    ensures inv.InvokedWithoutArgument? <==> param.None? || param.value.IsEmpty()
    ensures !inv.NotInvoked? && inv.handler == handler
    ensures inv.InvokedWithParam? ==> inv.param == param.value && !inv.param.IsEmpty()
  {
    if param.None? || param.value.IsEmpty() then InvokedWithoutArgument(handler)
    else InvokedWithParam(handler, param.value)
  }

  /**
   * handleViewResult's decision: nothing for an empty path, a redirect to the context path
   * plus the path for one starting with "/", a forward to the JSP directory plus the path
   * otherwise.
   */
  function ViewDirective(view: View, contextPath: string, jspPath: string): (d: Directive)
    ensures view.path == "" <==> d == NoOutput
    ensures StartsWith(view.path, "/") ==> d == Redirect(contextPath + view.path)
    ensures view.path != "" && !StartsWith(view.path, "/") ==> d == Forward(jspPath + view.path)
  {
    if view.path == "" then NoOutput
    else if StartsWith(view.path, "/") then Redirect(contextPath + view.path)
    else Forward(jspPath + view.path)
  }

  /** handleDataResult: the model is written as JSON unless it is null. */
  function DataDirective(data: Data): (d: Directive)
    ensures d == NoOutput <==> data.model.None?
    ensures data.model.Some? ==> d == WriteJson(data.model.value)
  {
    if data.model.Some? then WriteJson(data.model.value) else NoOutput
  }

  /** The result is classified: View and Data are rendered, anything else is ignored. */
  function ResultResponse(inv: Invocation, result: ActionResult, contextPath: string, jspPath: string): (r: Response)
    ensures r.invocation == inv
    ensures !result.ViewResult? && !result.DataResult? ==> r.directive == NoOutput && r.attributesSet == map[]
    ensures r.attributesSet != map[] ==> result.ViewResult? && r.directive.Forward? && r.attributesSet == result.view.model
  {
    match result
    case ViewResult(view) =>
      var d := ViewDirective(view, contextPath, jspPath);
      Response(inv, d, if d.Forward? then view.model else map[])
    case DataResult(data) => Response(inv, DataDirective(data), map[])
    case _ => Response(inv, NoOutput, map[])
  }

  /**
   * service, as a function of the route table, the request's verb, path info and context
   * path, the Param createParam builds for it, the JSP directory, and what the call of the
   * controller method does: fetching the controller bean and invoking the method either
   * returns a result or throws, and what it throws propagates out of service.
   */
  function Dispatch(table: map<Request, Handler>, httpMethod: string, pathInfo: Option<string>,
                    param: Option<Param>, contextPath: string, jspPath: string,
                    invoke: Invocation -> Result<ActionResult, JavaException>): (r: Result<Response, JavaException>)
    ensures pathInfo.None? ==> r == Failure(NullPointer)
    ensures r.Success? && r.value.invocation.NotInvoked? ==> r.value == Response(NotInvoked, NoOutput, map[])
    ensures r.Failure? && pathInfo.Some? ==> exists h | h in table.Values :: invoke(ChooseInvocation(h, param)) == Failure(r.error)
  {
    var key :- RouteKey(httpMethod, pathInfo);
    if key !in table then Success(Response(NotInvoked, NoOutput, map[]))
    else
      var inv := ChooseInvocation(table[key], param);
      var result :- invoke(inv);
      Success(ResultResponse(inv, result, contextPath, jspPath))
  }

  /** A null path info makes service throw before any lookup. */
  lemma NullPathInfoThrows(table: map<Request, Handler>, httpMethod: string, param: Option<Param>,
                           contextPath: string, jspPath: string, invoke: Invocation -> Result<ActionResult, JavaException>)
    ensures Dispatch(table, httpMethod, None, param, contextPath, jspPath, invoke) == Failure(NullPointer)
  {
  }

  /**
   * A key without a handler calls nothing and outputs nothing; a key with one calls its
   * method, and what that call throws is what service throws.
   */
  lemma RoutingDecidesInvocation(table: map<Request, Handler>, httpMethod: string, pathInfo: string,
                                 param: Option<Param>, contextPath: string, jspPath: string,
                                 invoke: Invocation -> Result<ActionResult, JavaException>)
    ensures var r := Dispatch(table, httpMethod, Some(pathInfo), param, contextPath, jspPath, invoke);
      var key := Request(UpperAscii(httpMethod), NormalizePath(pathInfo));
      && (key !in table ==> r == Success(Response(NotInvoked, NoOutput, map[])))
      && (key in table ==>
            var inv := ChooseInvocation(table[key], param);
            if invoke(inv).Failure? then r == Failure(invoke(inv).error)
            else r.Success? && r.value.invocation == inv && r.value.invocation != NotInvoked)
  {
  }

  /** The verb's letter case does not matter: "get" is served as "GET". */
  lemma VerbCaseIgnored(table: map<Request, Handler>, httpMethod: string, pathInfo: Option<string>,
                        param: Option<Param>, contextPath: string, jspPath: string,
                        invoke: Invocation -> Result<ActionResult, JavaException>)
    ensures Dispatch(table, httpMethod, pathInfo, param, contextPath, jspPath, invoke)
         == Dispatch(table, UpperAscii(httpMethod), pathInfo, param, contextPath, jspPath, invoke)
  {
    UpperAsciiIdempotent(httpMethod);
    assert RouteKey(httpMethod, pathInfo) == RouteKey(UpperAscii(httpMethod), pathInfo);
  }

  /** A lower-case verb matches the route declared for the enum constant. */
  lemma LowerCaseVerbMatches()
    ensures UpperAscii("get") == GET.ToString()
  {
    var u := UpperAscii("get");
    assert u[0] == 'G' && u[1] == 'E' && u[2] == 'T';
  }

  /** A request under a context path is served as the same request without it. */
  lemma ContextPathIgnored(table: map<Request, Handler>, httpMethod: string, context: string, segment: string,
                           param: Option<Param>, contextPath: string, jspPath: string,
                           invoke: Invocation -> Result<ActionResult, JavaException>)
    requires '/' !in context && '/' !in segment && segment != ""
    ensures Dispatch(table, httpMethod, Some("/" + context + "/" + segment), param, contextPath, jspPath, invoke)
         == Dispatch(table, httpMethod, Some("/" + segment), param, contextPath, jspPath, invoke)
  {
    ContextSegmentDropped(context, segment);
    SingleSegmentUnchanged(segment);
  }

  /**
   * The example application: "get /ctx/userList" without parameters calls
   * UserController.getUserList with no argument, and service throws exactly when that call does.
   */
  lemma UserListRequest(param: Option<Param>, contextPath: string, jspPath: string, invoke: Invocation -> Result<ActionResult, JavaException>)
    requires param.None? || param.value.IsEmpty()
    ensures var r := Dispatch(RouteTable([UserController()]), "get", Some("/ctx/userList"), param, contextPath, jspPath, invoke);
      var inv := InvokedWithoutArgument(Handler("cn.egret.controller.UserController", "getUserList"));
      && (r.Failure? <==> invoke(inv).Failure?)
      && (r.Success? ==> r.value.invocation == inv)
  {
    var table := RouteTable([UserController()]);
    var getList := Request("GET", "/userList");
    UserControllerRoutes();
    assert getList in table && table[getList] == Handler("cn.egret.controller.UserController", "getUserList");
    GetUserListKey();
  }

  /** "get /ctx/userList" is looked up as GET /userList. */
  lemma GetUserListKey()
    ensures RouteKey("get", Some("/ctx/userList")) == Success(Request("GET", "/userList"))
  {
    ContextDeploymentPath();
    LowerCaseVerbMatches();
  }

  /** In the example application "POST /userList" matches no route: nothing is called or output. */
  lemma UserListPostMisses(param: Option<Param>, contextPath: string, jspPath: string, invoke: Invocation -> Result<ActionResult, JavaException>)
    ensures Dispatch(RouteTable([UserController()]), "POST", Some("/userList"), param, contextPath, jspPath, invoke)
         == Success(Response(NotInvoked, NoOutput, map[]))
  {
    UserControllerRoutes();
    PostUserListKey();
  }

  /** "POST /userList" is looked up under its own verb and path. */
  lemma PostUserListKey()
    ensures RouteKey("POST", Some("/userList")) == Success(Request("POST", "/userList"))
  {
    RootDeploymentPath();
    UpperAsciiKeepsVerbName(POST);
    assert POST.ToString() == "POST";
  }

  /** The servlet request: its verb, path info and context path, and the attributes set on it. */
  class HttpRequest {
    const httpMethod: string
    const pathInfo: Option<string>
    const contextPath: string
    var attributes: map<string, ModelObject>

    constructor (httpMethod: string, pathInfo: Option<string>, contextPath: string)
      ensures this.httpMethod == httpMethod && this.pathInfo == pathInfo && this.contextPath == contextPath
      ensures attributes == map[]
    {
      this.httpMethod := httpMethod;
      this.pathInfo := pathInfo;
      this.contextPath := contextPath;
      attributes := map[];
    }
  }

  /** The loop of setAttribute calls: every model entry, in the map's unspecified order. */
  method CopyModel(request: HttpRequest, model: map<string, ModelObject>)
    modifies request
    ensures request.attributes == old(request.attributes) + model
  {
    var rest := model;
    while rest != map[]
      invariant request.attributes + rest == old(request.attributes) + model
      decreases |rest|
    {
      var key :| key in rest;
      MoveEntry(request.attributes, rest, key);
      request.attributes := request.attributes[key := rest[key]];
      rest := rest - {key};
    }
    assert request.attributes + rest == request.attributes;
  }

  /** Setting one pending entry and dropping it from the pending ones leaves their union as it is. */
  lemma MoveEntry(done: map<string, ModelObject>, rest: map<string, ModelObject>, key: string)
    requires key in rest
    ensures done[key := rest[key]] + (rest - {key}) == done + rest
  {
    var lhs, rhs := done[key := rest[key]] + (rest - {key}), done + rest;
    assert lhs.Keys == rhs.Keys;
    forall k | k in lhs ensures lhs[k] == rhs[k] {
    }
  }

  /** handleViewResult: the directive, after copying the model into the request when forwarding. */
  method HandleViewResult(view: View, request: HttpRequest, jspPath: string) returns (d: Directive)
    modifies request
    ensures d == ViewDirective(view, request.contextPath, jspPath)
    ensures request.attributes == old(request.attributes) + (if d.Forward? then view.model else map[])
  {
    if view.path != "" {
      if StartsWith(view.path, "/") {
        d := Redirect(request.contextPath + view.path);
      } else {
        CopyModel(request, view.model);
        d := Forward(jspPath + view.path);
      }
    } else {
      d := NoOutput;
    }
    assert old(request.attributes) + map[] == old(request.attributes);
  }

  /**
   * service: look the request up in the route table, call the controller method with or
   * without the Param, and render its result.
   */
  method Service(routes: RequestMapHolder, request: HttpRequest, param: Option<Param>, jspPath: string,
                 invoke: Invocation -> Result<ActionResult, JavaException>) returns (r: Result<Response, JavaException>)
    modifies request
    ensures r == Dispatch(routes.requestMap, request.httpMethod, request.pathInfo, param, request.contextPath, jspPath, invoke)
    ensures request.attributes == old(request.attributes) + (if r.Success? then r.value.attributesSet else map[])
  {
    if request.pathInfo.None? {
      assert old(request.attributes) + map[] == old(request.attributes);
      return Failure(NullPointer);
    }
    var requestMethod := UpperAscii(request.httpMethod);
    var requestPath := NormalizePath(request.pathInfo.value);
    var handler := routes.GetHandler(requestMethod, requestPath);
    assert old(request.attributes) + map[] == old(request.attributes);
    if handler.None? {
      return Success(Response(NotInvoked, NoOutput, map[]));
    }
    var inv := ChooseInvocation(handler.value, param);
    var result := invoke(inv);
    if result.Failure? {
      return Failure(result.error);
    }
    match result.value {
      case ViewResult(view) =>
        var d := HandleViewResult(view, request, jspPath);
        r := Success(Response(inv, d, if d.Forward? then view.model else map[]));
      case DataResult(data) =>
        r := Success(Response(inv, DataDirective(data), map[]));
      case _ =>
        r := Success(Response(inv, NoOutput, map[]));
    }
  }
}
