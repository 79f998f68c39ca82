/**
 * The routing core of the `server` package (main.go): a route table that grows
 * by registration, the dispatcher used when the program runs as an AWS Lambda
 * function behind API Gateway, the CORS preflight answer, and the adapter that
 * turns a handler's outcome into a status and body in local mode.
 */
module MultiServer {

  import opened Wrappers
  import opened Strings
  import opened Sorting

  /** Go's `Method` is a named string; any string can be mounted. */
  type Method = string

  const GET: Method := "GET"
  const POST: Method := "POST"
  const PUT: Method := "PUT"
  const DELETE: Method := "DELETE"
  const OPTIONS: Method := "OPTIONS"

  const StatusOK := 200
  const StatusNotFound := 404
  const StatusInternalServerError := 500

  /** The fields of API Gateway's proxy request that the core reads or fills. */
  datatype Request = Request(
    httpMethod: string,
    path: string,
    headers: map<string, string>,
    queryStringParameters: map<string, string>,
    body: string)

  /** The fields of API Gateway's proxy response that the core sets. */
  datatype Response = Response(statusCode: int, headers: map<string, string>, body: string)

  datatype Error = Error(message: string)

  /** What a Go handler returns: a response and an error that may be nil. */
  datatype Reply = Reply(response: Response, err: Option<Error>)

  /** A user handler; its behaviour is opaque to the router. */
  type Handler = Request -> Reply

  datatype Route = Route(httpMethod: Method, path: string, handler: Handler)

  const NotFoundReply := Reply(Response(StatusNotFound, map[], "Not Found"), None)

  /** The test `handleLambdaRequest` applies to each route: path and method equal up to case. */
  predicate Matches(route: Route, req: Request)
  {
    EqualFold(req.path, route.path) && EqualFold(req.httpMethod, route.httpMethod)
  }

  /** The index of the earliest registered route that matches, if any. */
  function FirstMatch(routes: seq<Route>, req: Request): (r: Option<nat>)
    ensures r.Some? ==> r.value < |routes| && Matches(routes[r.value], req)
    ensures r.Some? ==> forall j :: 0 <= j < r.value ==> !Matches(routes[j], req)
    ensures r.None? <==> forall j :: 0 <= j < |routes| ==> !Matches(routes[j], req)
    decreases |routes|
  {
    if |routes| == 0 then None
    else if Matches(routes[0], req) then Some(0)
    else
      match FirstMatch(routes[1..], req)
      case None => None
      case Some(k) => Some(k + 1)
  }

  /** The methods of the registered routes. */
  ghost function MethodsOf(routes: seq<Route>): set<Method>
  {
    set i | 0 <= i < |routes| :: routes[i].httpMethod
  }

  /** Registering a route adds its method to the methods of the table, and nothing else. */
  lemma MethodsOfAppend(routes: seq<Route>, r: Route)
    ensures MethodsOf(routes + [r]) == MethodsOf(routes) + {r.httpMethod}
  {
    var rs := routes + [r];
    forall m | m in MethodsOf(rs) ensures m in MethodsOf(routes) + {r.httpMethod} {
      var i :| 0 <= i < |rs| && rs[i].httpMethod == m;
      if i < |routes| {
        assert routes[i].httpMethod == m;
      }
    }
    forall m | m in MethodsOf(routes) ensures m in MethodsOf(rs) {
      var i :| 0 <= i < |routes| && routes[i].httpMethod == m;
      assert rs[i].httpMethod == m;
    }
    assert rs[|routes|].httpMethod == r.httpMethod;
  }

  /** The keys of a Go map visited by `range`, in some order. */
  ghost function SetToSeq(s: set<Method>): (r: seq<Method>)
    ensures multiset(r) == multiset(s)
  {
    if s == {} then []
    else
      var m :| m in s;
      assert multiset(s) == multiset(s - {m}) + multiset{m};
      [m] + SetToSeq(s - {m})
  }

  /** The list `getAllowedMethods` produces for a given set of tracked methods. */
  ghost function SortedMethods(allowed: set<Method>): (r: seq<Method>)
    ensures Sorted(r)
    ensures multiset(r) == multiset{OPTIONS} + multiset(allowed)
  {
    Sort([OPTIONS] + SetToSeq(allowed))
  }

  /** The preflight answer, given the list `getAllowedMethods` returned. */
  function OptionsResponse(methods: seq<Method>): (r: Response)
    ensures r.statusCode == StatusOK
    ensures r.headers.Keys == {"Access-Control-Allow-Origin", "Access-Control-Allow-Methods", "Access-Control-Allow-Headers"}
    ensures r.headers["Access-Control-Allow-Origin"] == "*"
    ensures r.headers["Access-Control-Allow-Headers"] == "Content-Type, Authorization"
    ensures r.headers["Access-Control-Allow-Methods"] == Join(methods, ", ")
    ensures r.body == ""
  {
    Response(
      StatusOK,
      map[
        "Access-Control-Allow-Origin" := "*",
        "Access-Control-Allow-Methods" := Join(methods, ", "),
        "Access-Control-Allow-Headers" := "Content-Type, Authorization"],
      "")
  }

  /** The request a handler sees in local mode: only the body and the query are filled in. */
  function LocalRequest(body: string, query: map<string, string>): Request
  {
    Request("", "", map[], query, body)
  }

  /** Local-mode adapter: a failing handler becomes a generic 500, a succeeding one passes through. */
  function ServeHTTPHandler(handler: Handler, body: string, query: map<string, string>): (r: (int, string))
    ensures handler(LocalRequest(body, query)).err.Some? ==>
      r == (StatusInternalServerError, "Internal Server Error")
    ensures handler(LocalRequest(body, query)).err.None? ==>
      r == (handler(LocalRequest(body, query)).response.statusCode, handler(LocalRequest(body, query)).response.body)
  {
    var reply := handler(LocalRequest(body, query));
    if reply.err.Some? then (StatusInternalServerError, "Internal Server Error")
    else (reply.response.statusCode, reply.response.body)
  }

  class Server {
    /** Whether the process runs on Lambda; read from the environment in the source. */
    const lambda: bool
    /** Methods ever mounted (Go's `map[Method]bool`, whose values are always `true`). */
    var allowedMethods: set<Method>
    /** Mounted routes, in registration order. */
    var routes: seq<Route>

    /** The tracked methods are exactly those of the mounted routes. */
    ghost predicate Valid()
      reads this
    {
      allowedMethods == MethodsOf(routes)
    }

    /** `NewServer`, with the Lambda flag passed in instead of read from the environment. */
    constructor (lambda: bool)
      ensures Valid()
      ensures this.lambda == lambda
      ensures routes == [] && allowedMethods == {}
    {
      this.lambda := lambda;
      allowedMethods := {};
      routes := [];
    }

    /** Registers `handler` for `httpMethod` and `path`, after every earlier route. */
    method MountEndpoint(httpMethod: Method, path: string, handler: Handler)
      requires Valid()
      modifies this
      ensures Valid()
      ensures routes == old(routes) + [Route(httpMethod, path, handler)]
      ensures allowedMethods == old(allowedMethods) + {httpMethod}
    {
      MethodsOfAppend(routes, Route(httpMethod, path, handler));
      allowedMethods := allowedMethods + {httpMethod};
      routes := routes + [Route(httpMethod, path, handler)];
    }

    /** `getAllowedMethods`: OPTIONS plus every tracked method, sorted, duplicates kept. */
    method GetAllowedMethods() returns (methods: seq<Method>)
      ensures methods == SortedMethods(allowedMethods)
    {
      var list: seq<Method> := [OPTIONS];
      var pending := allowedMethods;
      while pending != {}
        invariant pending <= allowedMethods
        invariant multiset(list) + multiset(pending) == multiset{OPTIONS} + multiset(allowedMethods)
        decreases |pending|
      {
        var m :| m in pending;
        assert multiset(pending) == multiset(pending - {m}) + multiset{m};
        list := list + [m];
        pending := pending - {m};
      }
      var a := new Method[|list|](k requires 0 <= k < |list| => list[k]);
      assert a[..] == list;
      SortInPlace(a);
      methods := a[..];
      SortedUnique(methods, SortedMethods(allowedMethods));
    }

    /** `handleLambdaRequest`: answers a preflight, or runs the first matching route, or 404. */
    method HandleLambdaRequest(req: Request) returns (reply: Reply)
      ensures req.httpMethod == OPTIONS ==>
        reply == Reply(OptionsResponse(SortedMethods(allowedMethods)), None)
      ensures req.httpMethod != OPTIONS ==>
        reply == match FirstMatch(routes, req)
                 case Some(i) => routes[i].handler(req)
                 case None => NotFoundReply
    {
      if req.httpMethod == OPTIONS {
        var methods := GetAllowedMethods();
        return Reply(OptionsResponse(methods), None);
      }
      var i := 0;
      while i < |routes|
        invariant 0 <= i <= |routes|
        invariant forall j :: 0 <= j < i ==> !Matches(routes[j], req)
      {
        var route := routes[i];
        if Matches(route, req) {
          return route.handler(req);
        }
        i := i + 1;
      }
      return NotFoundReply;
    }
  }

}
