/**
 * Properties of the routing core that relate several operations, and the
 * behaviour of small servers built through the public API.
 */
module MultiServerProperties {

  import opened Wrappers
  import opened Strings
  import opened Sorting
  import opened MultiServer

  /** The CORS method list has one entry per tracked method plus OPTIONS, and nothing else. */
  lemma AllowedMethodsShape(allowed: set<Method>)
    ensures |SortedMethods(allowed)| == |allowed| + 1
    ensures forall m :: m in SortedMethods(allowed) <==> m == OPTIONS || m in allowed
    ensures multiset(SortedMethods(allowed))[OPTIONS] == if OPTIONS in allowed then 2 else 1
  {
    var r := SortedMethods(allowed);
    assert |r| == |multiset(r)| == 1 + |multiset(allowed)|;
    forall m ensures m in r <==> m == OPTIONS || m in allowed {
      assert m in r <==> m in multiset(r);
    }
  }

  /** A client that splits the Allow-Methods header at ", " recovers the method list. */
  lemma AllowMethodsHeaderRoundTrip(allowed: set<Method>)
    requires forall m :: m in allowed ==> ',' !in m
    ensures Split(OptionsResponse(SortedMethods(allowed)).headers["Access-Control-Allow-Methods"], ", ")
            == SortedMethods(allowed)
  {
    var methods := SortedMethods(allowed);
    AllowedMethodsShape(allowed);
    forall e | e in methods ensures ", "[0] !in e {
      assert e == OPTIONS || e in allowed;
    }
    SplitJoin(methods, ", ");
  }

  /** On a server that keeps its invariant, the method list is OPTIONS plus the methods of the routes. */
  lemma AllowedMethodsAreRouteMethods(s: Server, m: Method)
    requires s.Valid()
    ensures m in SortedMethods(s.allowedMethods) <==>
            m == OPTIONS || exists i :: 0 <= i < |s.routes| && s.routes[i].httpMethod == m
  {
    AllowedMethodsShape(s.allowedMethods);
  }

  /**
   * A preflight sent to a server that keeps its invariant is answered with no
   * error, status 200, and an Allow-Methods header naming exactly OPTIONS and
   * the methods of the mounted routes.
   */
  method PreflightListsRouteMethods(s: Server, path: string) returns (reply: Reply)
    requires s.Valid()
    ensures reply.err == None && reply.response.statusCode == StatusOK
    ensures "Access-Control-Allow-Methods" in reply.response.headers
    ensures reply.response.headers["Access-Control-Allow-Methods"] == Join(SortedMethods(s.allowedMethods), ", ")
    ensures forall m :: m in SortedMethods(s.allowedMethods) <==>
              m == OPTIONS || exists i :: 0 <= i < |s.routes| && s.routes[i].httpMethod == m
  {
    reply := s.HandleLambdaRequest(Request(OPTIONS, path, map[], map[], ""));
    forall m ensures m in SortedMethods(s.allowedMethods) <==>
                     m == OPTIONS || exists i :: 0 <= i < |s.routes| && s.routes[i].httpMethod == m {
      AllowedMethodsAreRouteMethods(s, m);
    }
  }

  /** Mounting a route never changes where an already-routed request goes. */
  lemma {:induction false} MountKeepsEarlierDispatch(routes: seq<Route>, r: Route, req: Request)
    ensures FirstMatch(routes + [r], req) ==
            match FirstMatch(routes, req)
            case Some(i) => Some(i)
            case None => if Matches(r, req) then Some(|routes|) else None
    decreases |routes|
  {
    var rs := routes + [r];
    if |routes| > 0 {
      assert rs[0] == routes[0];
      assert rs[1..] == routes[1..] + [r];
      MountKeepsEarlierDispatch(routes[1..], r, req);
    }
  }

  /** Of two overlapping routes, the one registered first is dispatched. */
  lemma FirstRegistrationWins(routes: seq<Route>, req: Request, i: nat, j: nat)
    requires i < j < |routes|
    requires Matches(routes[i], req) && Matches(routes[j], req)
    ensures FirstMatch(routes, req).Some?
    ensures FirstMatch(routes, req).value <= i < j
  {
  }

  /** Case is ignored in both the path and the method when routes are compared. */
  lemma MatchIgnoresCase(h: Handler)
    ensures Matches(Route(GET, "/Hello", h), Request("get", "/hELLO", map[], map[], ""))
  {
  }

  /** Local mode reveals nothing about a handler's error: every failure looks the same. */
  lemma ServeHTTPHandlerHidesError(h1: Handler, h2: Handler, body: string, query: map<string, string>)
    requires h1(LocalRequest(body, query)).err.Some? && h2(LocalRequest(body, query)).err.Some?
    ensures ServeHTTPHandler(h1, body, query) == ServeHTTPHandler(h2, body, query)
  {
  }

  /** Any sorted list with the right elements is the CORS method list. */
  lemma SortedMethodsIs(allowed: set<Method>, expected: seq<Method>)
    requires Sorted(expected)
    requires multiset(expected) == multiset{OPTIONS} + multiset(allowed)
    ensures SortedMethods(allowed) == expected
  {
    SortedUnique(expected, SortedMethods(allowed));
  }

  /** GET and POST tracked: the list is GET, OPTIONS, POST. */
  lemma ItemsAllowedMethods()
    ensures SortedMethods({GET, POST}) == [GET, OPTIONS, POST]
  {
    assert LexLe(GET, OPTIONS) && LexLe(OPTIONS, POST) && LexLe(GET, POST);
    assert multiset([GET, OPTIONS, POST]) == multiset{OPTIONS} + multiset({GET, POST});
    SortedMethodsIs({GET, POST}, [GET, OPTIONS, POST]);
  }

  /** A mounted OPTIONS route makes OPTIONS appear twice. */
  lemma OptionsListedTwice()
    ensures SortedMethods({OPTIONS}) == [OPTIONS, OPTIONS]
  {
  }

  /** The header a client sees for that list. */
  lemma ItemsAllowMethodsHeader()
    ensures OptionsResponse([GET, OPTIONS, POST]).headers["Access-Control-Allow-Methods"] == "GET, OPTIONS, POST"
  {
    var methods := [GET, OPTIONS, POST];
    assert methods[1..] == [OPTIONS, POST] && methods[1..][1..] == [POST];
    assert Join([OPTIONS, POST], ", ") == OPTIONS + ", " + POST;
    assert Join(methods, ", ") == GET + ", " + OPTIONS + ", " + POST;
  }

  /** GET /hello answers "Hello, World!"; GET /missing gets the 404 fallback. */
  method HelloWorldScenario() returns (hello: Reply, missing: Reply)
    ensures hello == Reply(Response(StatusOK, map[], "Hello, World!"), None)
    ensures missing == Reply(Response(StatusNotFound, map[], "Not Found"), None)
  {
    var s := new Server(true);
    s.MountEndpoint(GET, "/hello", _ => Reply(Response(StatusOK, map[], "Hello, World!"), None));
    hello := s.HandleLambdaRequest(Request(GET, "/hello", map[], map[], ""));
    missing := s.HandleLambdaRequest(Request(GET, "/missing", map[], map[], ""));
  }

  /**
   * A failing handler: Lambda mode hands its error back to the runtime unchanged,
   * local mode turns it into a generic 500.
   */
  method FailingHandlerScenario() returns (lambdaReply: Reply, local: (int, string))
    ensures lambdaReply == Reply(Response(0, map[], ""), Some(Error("boom")))
    ensures local == (StatusInternalServerError, "Internal Server Error")
  {
    var fail: Handler := _ => Reply(Response(0, map[], ""), Some(Error("boom")));
    var s := new Server(true);
    s.MountEndpoint(GET, "/fail", fail);
    lambdaReply := s.HandleLambdaRequest(Request(GET, "/fail", map[], map[], ""));
    local := ServeHTTPHandler(fail, "", map[]);
  }

  /** GET and POST on /items: the preflight lists GET, OPTIONS, POST. */
  method ItemsScenario() returns (methods: seq<Method>, preflight: Reply)
    ensures methods == [GET, OPTIONS, POST]
    ensures preflight == Reply(OptionsResponse([GET, OPTIONS, POST]), None)
  {
    var s := new Server(true);
    s.MountEndpoint(GET, "/items", _ => Reply(Response(StatusOK, map[], "list"), None));
    s.MountEndpoint(POST, "/items", _ => Reply(Response(201, map[], "created"), None));
    assert s.allowedMethods == {GET, POST};
    ItemsAllowedMethods();
    methods := s.GetAllowedMethods();
    preflight := s.HandleLambdaRequest(Request(OPTIONS, "/items", map[], map[], ""));
  }

  /** The lower-case spelling matches a route mounted for OPTIONS. */
  lemma LowerCaseOptionsMatches(route: Route, req: Request)
    requires route.httpMethod == OPTIONS && req.httpMethod == "options"
    requires route.path == req.path
    ensures Matches(route, req)
  {
  }

  /**
   * Only the exact method "OPTIONS" is intercepted: the intercepted answer lists
   * OPTIONS twice once an OPTIONS route is mounted, and that route is reached by
   * the spelling "options".
   */
  method OptionsCaseScenario() returns (upper: Reply, lower: Reply)
    ensures upper == Reply(OptionsResponse([OPTIONS, OPTIONS]), None)
    ensures lower == Reply(Response(StatusOK, map[], "custom preflight"), None)
  {
    var custom: Handler := _ => Reply(Response(StatusOK, map[], "custom preflight"), None);
    var s := new Server(true);
    s.MountEndpoint(OPTIONS, "/x", custom);
    assert s.allowedMethods == {OPTIONS};
    OptionsListedTwice();
    upper := s.HandleLambdaRequest(Request(OPTIONS, "/x", map[], map[], ""));
    var req := Request("options", "/x", map[], map[], "");
    LowerCaseOptionsMatches(s.routes[0], req);
    assert FirstMatch(s.routes, req) == Some(0);
    lower := s.HandleLambdaRequest(req);
  }

}
