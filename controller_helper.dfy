/**
 * ControllerHelper: the route table built once from the controller classes.  Every declared
 * method carrying @RequestMapping puts the key (verb name, path) to Handler(class, method);
 * a later put with an equal key replaces the earlier one.  Lookup is by key equality, which
 * for Request is value equality (Bean.EqualsIsValueEquality), so the table is a map keyed
 * by Request values.
 */
module ControllerHelper {
  import opened Base
  import opened Bean

  /** The @RequestMapping annotation: value() is the path, method() the verb. */
  datatype RequestMapping = RequestMapping(value: string, verb: RequestMethod)

  /** A declared method of a controller class, with its @RequestMapping when it carries one. */
  datatype MethodDecl = MethodDecl(name: string, mapping: Option<RequestMapping>)

  /** A controller class and its declared methods, in the order getDeclaredMethods returns them. */
  datatype ControllerClass = ControllerClass(name: ClassName, declaredMethods: seq<MethodDecl>)

  /** One put into the table. */
  datatype Route = Route(request: Request, handler: Handler)

  /** The route a mapped method declares. */
  function RouteOf(c: ControllerClass, m: MethodDecl): (route: Route)
    requires m.mapping.Some?
    ensures route.request == Request(m.mapping.value.verb.ToString(), m.mapping.value.value)
    ensures route.handler == Handler(c.name, m.name)
  {
    Route(Request(m.mapping.value.verb.ToString(), m.mapping.value.value), Handler(c.name, m.name))
  }

  /** The puts made for the methods `ms` of class c, in order: one per mapped method. */
  function MethodRoutes(c: ControllerClass, ms: seq<MethodDecl>): (routes: seq<Route>)
    ensures |routes| <= |ms|
    ensures forall route | route in routes :: route.handler.controllerClass == c.name
  {
    if |ms| == 0 then []
    else
      var m := ms[|ms| - 1];
      MethodRoutes(c, ms[..|ms| - 1]) + (if m.mapping.Some? then [RouteOf(c, m)] else [])
  }

  /** The names of the controller classes. */
  function ClassNames(cs: seq<ControllerClass>): (names: set<ClassName>)
    ensures forall i | 0 <= i < |cs| :: cs[i].name in names
  {
    if |cs| == 0 then {} else ClassNames(cs[..|cs| - 1]) + {cs[|cs| - 1].name}
  }

  /** The puts made for the controller classes, in the order the class set yields them. */
  function Routes(cs: seq<ControllerClass>): (routes: seq<Route>)
    ensures forall route | route in routes :: route.handler.controllerClass in ClassNames(cs)
  {
    if |cs| == 0 then []
    else Routes(cs[..|cs| - 1]) + MethodRoutes(cs[|cs| - 1], cs[|cs| - 1].declaredMethods)
  }

  /** The map that a sequence of puts leaves, starting from an empty map. */
  function PutAll(routes: seq<Route>): (m: map<Request, Handler>)
    ensures forall req | req in m :: Route(req, m[req]) in routes
  {
    if |routes| == 0 then map[]
    else PutAll(routes[..|routes| - 1])[routes[|routes| - 1].request := routes[|routes| - 1].handler]
  }

  /** REQUEST_MAP after the static initialiser. */
  function RouteTable(cs: seq<ControllerClass>): (table: map<Request, Handler>)
    ensures forall req | req in table :: table[req].controllerClass in ClassNames(cs)
  {
    PutAll(Routes(cs))
  }

  /** Some declared method of class c declares the route (req, h). */
  ghost predicate ClassDeclares(c: ControllerClass, req: Request, h: Handler) {
    exists j | 0 <= j < |c.declaredMethods| ::
      c.declaredMethods[j].mapping.Some? && RouteOf(c, c.declaredMethods[j]) == Route(req, h)
  }

  /** Some method of some controller class declares the route (req, h). */
  ghost predicate Declares(cs: seq<ControllerClass>, req: Request, h: Handler) {
    exists i | 0 <= i < |cs| :: ClassDeclares(cs[i], req, h)
  }

  /**
   * Last write wins: a key is in the table iff some put used it, and it maps to the
   * handler of the last such put.
   */
  lemma {:induction false} PutAllLastWins(routes: seq<Route>, req: Request)
    ensures req in PutAll(routes) <==> exists k | 0 <= k < |routes| :: routes[k].request == req
    ensures forall k | 0 <= k < |routes| && routes[k].request == req &&
        (forall l | k < l < |routes| :: routes[l].request != req) ::
      req in PutAll(routes) && PutAll(routes)[req] == routes[k].handler
  {
    if |routes| > 0 {
      var n := |routes| - 1;
      var front := routes[..n];
      PutAllLastWins(front, req);
      forall k | 0 <= k < n ensures front[k] == routes[k] {
      }
    }
  }

  /** The puts for class c are exactly its mapped methods' routes. */
  lemma {:induction false} MethodRoutesMembership(c: ControllerClass, ms: seq<MethodDecl>, route: Route)
    ensures route in MethodRoutes(c, ms) <==>
      exists j | 0 <= j < |ms| :: ms[j].mapping.Some? && RouteOf(c, ms[j]) == route
  {
    if |ms| > 0 {
      var front := ms[..|ms| - 1];
      MethodRoutesMembership(c, front, route);
      if route in MethodRoutes(c, front) {
        var j :| 0 <= j < |front| && front[j].mapping.Some? && RouteOf(c, front[j]) == route;
        assert ms[j] == front[j];
      }
      forall j | 0 <= j < |ms| - 1 ensures ms[j] == front[j] {
      }
    }
  }

  /** The puts are exactly the routes declared by the controllers' mapped methods. */
  lemma {:induction false} RoutesMembership(cs: seq<ControllerClass>, route: Route)
    ensures route in Routes(cs) <==> Declares(cs, route.request, route.handler)
  {
    if |cs| > 0 {
      var n := |cs| - 1;
      var front := cs[..n];
      RoutesMembership(front, route);
      MethodRoutesMembership(cs[n], cs[n].declaredMethods, route);
      assert route in MethodRoutes(cs[n], cs[n].declaredMethods) <==> ClassDeclares(cs[n], route.request, route.handler);
      forall i | 0 <= i < n ensures front[i] == cs[i] {
      }
      if Declares(cs, route.request, route.handler) {
        var i :| 0 <= i < |cs| && ClassDeclares(cs[i], route.request, route.handler);
        if i < n {
          assert ClassDeclares(front[i], route.request, route.handler);
        }
      }
    }
  }

  /**
   * A key is routed iff some controller method declares it, and then to the handler of a
   * method that declares it: with one declaration per key, that method's handler.
   */
  lemma RouteTableCharacterization(cs: seq<ControllerClass>, req: Request)
    ensures req in RouteTable(cs) <==> exists h :: Declares(cs, req, h)
    ensures req in RouteTable(cs) ==> Declares(cs, req, RouteTable(cs)[req])
  {
    var routes := Routes(cs);
    PutAllLastWins(routes, req);
    if req in RouteTable(cs) {
      var k :| 0 <= k < |routes| && routes[k].request == req;
      var last := LastIndexOfKey(routes, req, k);
      RoutesMembership(cs, routes[last]);
      assert routes[last] == Route(req, RouteTable(cs)[req]);
    }
    if h: Handler :| Declares(cs, req, h) {
      RoutesMembership(cs, Route(req, h));
      var k :| 0 <= k < |routes| && routes[k] == Route(req, h);
    }
  }

  /** The position of the last put with key req, given one at position k. */
  function LastIndexOfKey(routes: seq<Route>, req: Request, k: nat): (last: nat)
    requires k < |routes| && routes[k].request == req
    ensures k <= last < |routes| && routes[last].request == req
    ensures forall l | last < l < |routes| :: routes[l].request != req
    decreases |routes| - k
  {
    if exists l | k < l < |routes| :: routes[l].request == req then
      var l :| k < l < |routes| && routes[l].request == req;
      LastIndexOfKey(routes, req, l)
    else k
  }

  /** Methods without @RequestMapping contribute no route: removing them leaves the table as it is. */
  lemma {:induction false} UnmappedMethodsIgnored(c: ControllerClass, ms: seq<MethodDecl>, m: MethodDecl)
    requires m.mapping.None?
    ensures MethodRoutes(c, ms + [m]) == MethodRoutes(c, ms)
  {
    assert (ms + [m])[..|ms|] == ms;
  }

  /** Without controller classes the table is empty. */
  lemma EmptyControllerSetEmptyTable()
    ensures RouteTable([]) == map[]
  {
  }

  /**
   * Between declarations of the same key, the one put last wins: a mapped method m of a
   * controller, with no later method of that controller and no later controller declaring
   * its key, is the key's handler, whatever came before.
   */
  lemma {:induction false} LaterDeclarationWins(before: seq<ControllerClass>, name: ClassName, ms1: seq<MethodDecl>,
                                                m: MethodDecl, ms2: seq<MethodDecl>, after: seq<ControllerClass>)
    requires m.mapping.Some?
    requires forall j | 0 <= j < |ms2| && ms2[j].mapping.Some? ::
      RouteOf(ControllerClass(name, ms1 + [m] + ms2), ms2[j]).request != RouteOf(ControllerClass(name, ms1 + [m] + ms2), m).request
    requires RouteOf(ControllerClass(name, ms1 + [m] + ms2), m).request !in RouteTable(after)
    ensures var key := RouteOf(ControllerClass(name, ms1 + [m] + ms2), m).request;
      var table := RouteTable(before + [ControllerClass(name, ms1 + [m] + ms2)] + after);
      key in table && table[key] == Handler(name, m.name)
  {
    var c := ControllerClass(name, ms1 + [m] + ms2);
    var route := RouteOf(c, m);
    var back := MethodRoutes(c, ms2) + Routes(after);
    SplitAtDeclaration(before, c, ms1, m, ms2, after);
    forall b | b in back ensures b.request != route.request {
      if b in MethodRoutes(c, ms2) {
        MethodRoutesMembership(c, ms2, b);
      } else {
        var k :| 0 <= k < |Routes(after)| && Routes(after)[k] == b;
        PutAllLastWins(Routes(after), route.request);
      }
    }
    PutAllLastOfKey(Routes(before) + MethodRoutes(c, ms1), route, back);
  }

  /** The puts made around method m of class c, split at m's own put. */
  lemma SplitAtDeclaration(before: seq<ControllerClass>, c: ControllerClass, ms1: seq<MethodDecl>,
                           m: MethodDecl, ms2: seq<MethodDecl>, after: seq<ControllerClass>)
    requires m.mapping.Some? && c.declaredMethods == ms1 + [m] + ms2
    ensures Routes(before + [c] + after)
         == Routes(before) + MethodRoutes(c, ms1) + [RouteOf(c, m)] + (MethodRoutes(c, ms2) + Routes(after))
  {
    assert Routes(before + [c] + after) == Routes(before) + Routes([c]) + Routes(after) by {
      RoutesAppend(before, [c]);
      RoutesAppend(before + [c], after);
    }
    assert Routes([c]) == MethodRoutes(c, ms1) + [RouteOf(c, m)] + MethodRoutes(c, ms2) by {
      SingleClassRoutes(c);
      MethodRoutesAppend(c, ms1 + [m], ms2);
      MethodRoutesAppend(c, ms1, [m]);
      SingleMethodRoutes(c, m);
    }
    Regroup(Routes(before), Routes([c]), Routes(after), MethodRoutes(c, ms1), RouteOf(c, m), MethodRoutes(c, ms2));
  }

  /** Regrouping a concatenation around one put. */
  lemma Regroup(r1: seq<Route>, rc: seq<Route>, ra: seq<Route>, m1: seq<Route>, x: Route, m2: seq<Route>)
    requires rc == m1 + [x] + m2
    ensures r1 + rc + ra == r1 + m1 + [x] + (m2 + ra)
  {
  }

  /** The puts for one class are those of its methods. */
  lemma SingleClassRoutes(c: ControllerClass)
    ensures Routes([c]) == MethodRoutes(c, c.declaredMethods)
  {
    assert [c][..0] == [];
  }

  /** The puts for one mapped method are its route. */
  lemma SingleMethodRoutes(c: ControllerClass, m: MethodDecl)
    requires m.mapping.Some?
    ensures MethodRoutes(c, [m]) == [RouteOf(c, m)]
  {
    assert [m][..0] == [];
  }

  /** A put followed by no put with its key determines the key's entry. */
  lemma PutAllLastOfKey(front: seq<Route>, route: Route, back: seq<Route>)
    requires forall b | b in back :: b.request != route.request
    ensures var table := PutAll(front + [route] + back);
      route.request in table && table[route.request] == route.handler
  {
    var routes := front + [route] + back;
    forall l | |front| < l < |routes| ensures routes[l].request != route.request {
      assert routes[l] == back[l - |front| - 1];
    }
    PutAllLastWins(routes, route.request);
    assert routes[|front|] == route;
  }

  /** The puts for a list of classes are those of its parts, in order. */
  lemma {:induction false} RoutesAppend(a: seq<ControllerClass>, b: seq<ControllerClass>)
    ensures Routes(a + b) == Routes(a) + Routes(b)
    decreases |b|
  {
    if |b| == 0 {
      assert a + b == a;
    } else {
      var n := |b| - 1;
      assert (a + b)[..|a + b| - 1] == a + b[..n];
      RoutesAppend(a, b[..n]);
    }
  }

  /** The puts for a list of methods are those of its parts, in order. */
  lemma {:induction false} MethodRoutesAppend(c: ControllerClass, x: seq<MethodDecl>, y: seq<MethodDecl>)
    ensures MethodRoutes(c, x + y) == MethodRoutes(c, x) + MethodRoutes(c, y)
    decreases |y|
  {
    if |y| == 0 {
      assert x + y == x;
    } else {
      var n := |y| - 1;
      assert (x + y)[..|x + y| - 1] == x + y[..n];
      MethodRoutesAppend(c, x, y[..n]);
    }
  }

  /** The static initialiser's nested loops: every class, every declared method, put when mapped. */
  method BuildRequestMap(controllers: seq<ControllerClass>) returns (requestMap: map<Request, Handler>)
    ensures requestMap == RouteTable(controllers)
  {
    requestMap := map[];
    for i := 0 to |controllers|
      invariant requestMap == PutAll(Routes(controllers[..i]))
    {
      var c := controllers[i];
      ghost var done := Routes(controllers[..i]);
      assert controllers[..i + 1][..i] == controllers[..i];
      assert done + MethodRoutes(c, c.declaredMethods[..0]) == done;
      for j := 0 to |c.declaredMethods|
        invariant requestMap == PutAll(done + MethodRoutes(c, c.declaredMethods[..j]))
      {
        var m := c.declaredMethods[j];
        ghost var prefix := MethodRoutes(c, c.declaredMethods[..j]);
        assert c.declaredMethods[..j + 1][..j] == c.declaredMethods[..j];
        if m.mapping.Some? {
          var mapping := m.mapping.value;
          var request := Request(mapping.verb.ToString(), mapping.value);
          requestMap := requestMap[request := Handler(c.name, m.name)];
          assert MethodRoutes(c, c.declaredMethods[..j + 1]) == prefix + [RouteOf(c, m)];
          assert done + (prefix + [RouteOf(c, m)]) == (done + prefix) + [RouteOf(c, m)];
          PutAllSnoc(done + prefix, RouteOf(c, m));
        } else {
          assert MethodRoutes(c, c.declaredMethods[..j + 1]) == prefix;
        }
      }
      assert c.declaredMethods[..|c.declaredMethods|] == c.declaredMethods;
    }
    assert controllers[..|controllers|] == controllers;
  }

  /** One more put at the end. */
  lemma PutAllSnoc(routes: seq<Route>, route: Route)
    ensures PutAll(routes + [route]) == PutAll(routes)[route.request := route.handler]
  {
    assert (routes + [route])[..|routes|] == routes;
  }

  /** ControllerHelper's state: REQUEST_MAP, filled by the static initialiser. */
  class RequestMapHolder {
    var requestMap: map<Request, Handler>

    constructor (controllers: seq<ControllerClass>)
      ensures requestMap == RouteTable(controllers)
    {
      var built := BuildRequestMap(controllers);
      requestMap := built;
    }

    /** getHandler: the handler stored under a key equal to (verb, path), or null. */
    function GetHandler(requestMethod: string, requestPath: string): (h: Option<Handler>)
      reads this
      ensures h.Some? <==> Request(requestMethod, requestPath) in requestMap
      ensures h.Some? ==> h.value == requestMap[Request(requestMethod, requestPath)]
    {
      var request := Request(requestMethod, requestPath);
      if request in requestMap then Some(requestMap[request]) else None
    }
  }

  /** The example application's controller: three GET routes and an unannotated getter. */
  function UserController(): ControllerClass {
    ControllerClass("cn.egret.controller.UserController", [
      MethodDecl("getUserService", None),
      MethodDecl("getUserList", Some(RequestMapping("/userList", GET))),
      MethodDecl("getUserInfo", Some(RequestMapping("/userInfo", GET))),
      MethodDecl("editUser", Some(RequestMapping("/userEdit", GET)))])
  }

  /** Its table routes GET /userList, GET /userInfo and GET /userEdit, and nothing for POST /userList. */
  lemma UserControllerRoutes()
    ensures RouteTable([UserController()]) == map[
      Request("GET", "/userList") := Handler("cn.egret.controller.UserController", "getUserList"),
      Request("GET", "/userInfo") := Handler("cn.egret.controller.UserController", "getUserInfo"),
      Request("GET", "/userEdit") := Handler("cn.egret.controller.UserController", "editUser")]
    ensures Request("POST", "/userList") !in RouteTable([UserController()])
  {
    var c := UserController();
    var ms := c.declaredMethods;
    assert ms[..1][..0] == [];
    assert MethodRoutes(c, ms[..1]) == [];
    assert ms[..2][..1] == ms[..1];
    assert MethodRoutes(c, ms[..2]) == [RouteOf(c, ms[1])];
    assert ms[..3][..2] == ms[..2];
    assert MethodRoutes(c, ms[..3]) == [RouteOf(c, ms[1]), RouteOf(c, ms[2])];
    assert ms[..3] == ms[..|ms| - 1];
    assert [c][..0] == [];
    var routes := [RouteOf(c, ms[1]), RouteOf(c, ms[2]), RouteOf(c, ms[3])];
    assert Routes([c]) == routes;
    assert routes[..2][..1][..0] == [] && routes[..2][..1] == routes[..1] && routes[..3][..2] == routes[..2];
    assert PutAll(routes[..1]) == map[routes[0].request := routes[0].handler];
    assert PutAll(routes[..2]) == PutAll(routes[..1])[routes[1].request := routes[1].handler];
    assert PutAll(routes) == PutAll(routes[..2])[routes[2].request := routes[2].handler];
  }
}
