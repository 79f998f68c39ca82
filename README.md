# gin-multi-server routing core, in Dafny

This project models the routing core of the Go package `server` (`main.go`). That package runs one set of
HTTP handlers either as a local gin server or as an AWS Lambda function behind API Gateway. The model covers:

- the **route table**: a `Server` object with the ordered list of mounted routes and the set of
  methods mounted so far, created empty and extended by `MountEndpoint`;
- the **Lambda-mode dispatcher** `handleLambdaRequest`: a request whose method is exactly `OPTIONS` gets the
  CORS preflight answer; otherwise the routes are scanned in registration order, and the first route whose
  path and method equal the request's, ignoring case, runs its handler; otherwise the reply is 404 `Not Found`;
- the **CORS method list** `getAllowedMethods`: `OPTIONS` plus every tracked method, collected in map order and
  sorted in place. Duplicates are kept, so a mounted `OPTIONS` is listed twice;
- the **preflight response** `optionsResponse` and the **local-mode adapter** `serveHTTPHandler`, which maps a
  handler error to `500 Internal Server Error` and otherwise passes status and body through.

Files:

- `server.dfy`, module `MultiServer`: the data model, the `Server` class and the pure operations.
- `properties.dfy`, module `MultiServerProperties`: lemmas relating several operations, and small servers built
  through the API (the hello-world, failing-handler, `/items` and OPTIONS-spelling cases).
- `sorting.dfy`: Go's string order and `slices.Sort`.
- `strings.dfy`: `strings.EqualFold` and `strings.Join`, plus the split a client uses to read the joined header.
- `wrappers.dfy`: `Option`.

Modelling choices:

- A handler is a total Dafny function `Request -> Reply`. `Reply` pairs a response with an optional error, like
  Go's `(APIGatewayProxyResponse, error)`.
- `allowedMethods` is a `set<Method>`. The Go `map[Method]bool` only ever stores `true`.
- The Lambda flag is a constructor parameter. The source reads it from `AWS_LAMBDA_FUNCTION_NAME`.
- `getAllowedMethods` visits the tracked methods in an arbitrary order (`:|`), as Go's map `range` does. It then
  sorts an array in place. `SortedUnique` shows the result does not depend on that order: it always equals the
  reference list `SortedMethods`.
- Go compares strings byte by byte. On valid UTF-8 text, that order is the same as comparing code points, which is
  the order of Dafny's `char`. `LexLe` uses that order.
- In Lambda mode, `handleLambdaRequest` has no path parameters and no segment-by-segment matching. A route
  matches only when its whole path equals the request path, ignoring case. Local mode hands routing to gin,
  which matches differently (see "## Left out").
- In Lambda mode the code does not turn a handler error into a 500. `handleLambdaRequest` returns the
  handler's response and error unchanged, and the Lambda runtime reports the error. Only the local-mode
  adapter produces `Internal Server Error`. The model follows the code (see `FailingHandlerScenario`).
- The method constants are `GET`, `POST`, `PUT`, `DELETE` and `OPTIONS`, as in the code. There is no `PATCH`.
  In Lambda mode any string can be mounted as a method, and `MountEndpoint` always succeeds; local-mode
  registration through gin can fail (see "## Left out").

## Model

| member | source | states |
|---|---|---|
| `MultiServer.Server.constructor` | main.go:49-57 | a new server has no routes, no tracked methods, the given Lambda flag, and satisfies the invariant that the tracked methods are exactly the methods of the routes |
| `MultiServer.Server.MountEndpoint` | main.go:60-63 | the route list grows by exactly the new route at the end, with earlier routes unchanged and in order; the method set gains the new method and loses nothing (re-mounting a method leaves it unchanged); the invariant is kept |
| `MultiServer.MethodsOfAppend` | main.go:62-63 | appending a route adds exactly its method to the methods of the table |
| `MultiServer.FirstMatch` | main.go:113-118 | the chosen index is a matching route with no matching route before it; no index is chosen exactly when no route matches |
| `MultiServer.Server.HandleLambdaRequest` | main.go:103-123 | an exact `OPTIONS` request gets the preflight answer for the current method list with no error, whatever the routes; any other request gets the reply of the handler of the first matching route, or 404 `Not Found` with no error |
| `MultiServer.SetToSeq` | main.go:171-173 | ranging over the tracked methods visits each of them exactly once |
| `MultiServer.SortedMethods` | main.go:169-176 | the reference method list is sorted and holds `OPTIONS` once plus each tracked method once |
| `MultiServer.Server.GetAllowedMethods` | main.go:169-176 | the list returned equals the reference list, whatever order the map was visited in |
| `MultiServer.OptionsResponse` | main.go:126-137 | the preflight has status 200, an empty body and exactly three headers: origin `*`, headers `Content-Type, Authorization`, and methods equal to the `", "`-join of the list |
| `MultiServer.ServeHTTPHandler` | main.go:141-154 | a handler error gives `(500, "Internal Server Error")`; otherwise the handler's status and body come back unchanged; the handler sees only the body and the query |
| `MultiServerProperties.AllowedMethodsShape` | main.go:169-176 | the method list has one more entry than there are tracked methods; it contains exactly `OPTIONS` and the tracked methods; `OPTIONS` appears twice when it was mounted, otherwise once |
| `MultiServerProperties.AllowedMethodsAreRouteMethods` | main.go:60-63 | on a server that keeps its invariant, a method is in the CORS method list exactly when it is `OPTIONS` or the method of a mounted route |
| `MultiServerProperties.PreflightListsRouteMethods` | main.go:103-137 | an `OPTIONS` request to a server that keeps its invariant gets status 200 and no error, and its Allow-Methods header is the `", "`-join of a list holding exactly `OPTIONS` and the methods of the mounted routes |
| `MultiServerProperties.AllowMethodsHeaderRoundTrip` | main.go:130 | splitting the `Access-Control-Allow-Methods` header at `", "` gives back the method list, provided no mounted method contains a comma |
| `MultiServerProperties.MountKeepsEarlierDispatch` | main.go:113-118 | mounting a route never changes where an already-routed request goes; a request routed nowhere goes to the new route exactly when it matches that route |
| `MultiServerProperties.FirstRegistrationWins` | main.go:113-118 | of two matching routes, the one registered earlier is chosen (or one earlier still) and never the later one |
| `MultiServerProperties.MatchIgnoresCase` | main.go:114 | a request for `get /hELLO` matches the route `GET /Hello` |
| `MultiServerProperties.LowerCaseOptionsMatches` | main.go:108-118 | a request spelled `options` matches a route mounted for `OPTIONS` on the same path |
| `MultiServerProperties.ServeHTTPHandlerHidesError` | main.go:147-151 | in local mode any two failing handlers give the same status and body, so no detail of the error reaches the client |
| `MultiServerProperties.SortedMethodsIs` | main.go:169-176 | any sorted list with `OPTIONS` plus the tracked methods is the method list |
| `MultiServerProperties.ItemsAllowedMethods` | main.go:169-176 | with `GET` and `POST` tracked, the method list is `GET, OPTIONS, POST` |
| `MultiServerProperties.OptionsListedTwice` | main.go:169-176 | with only `OPTIONS` tracked, the method list is `OPTIONS, OPTIONS`, with no de-duplication |
| `MultiServerProperties.ItemsAllowMethodsHeader` | main.go:130 | the header for `GET, OPTIONS, POST` is the text `GET, OPTIONS, POST` |
| `MultiServerProperties.HelloWorldScenario` | main.go:103-123 | with `GET /hello` mounted, `GET /hello` gets the handler's 200 `Hello, World!` and `GET /missing` gets 404 `Not Found` |
| `MultiServerProperties.FailingHandlerScenario` | main.go:113-154 | a failing handler's error is returned unchanged in Lambda mode, and becomes `(500, "Internal Server Error")` in local mode |
| `MultiServerProperties.ItemsScenario` | main.go:169-176 | after mounting `GET /items` and `POST /items`, the method list is `GET, OPTIONS, POST`, and an `OPTIONS` request gets the preflight for it |
| `MultiServerProperties.OptionsCaseScenario` | main.go:108-118 | with an `OPTIONS` route mounted, an exact `OPTIONS` request is intercepted and lists `OPTIONS` twice, while `options` reaches the mounted handler |
| `Sorting.LexLeReflexive` | main.go:174 | every string is at most itself in Go's string order |
| `Sorting.LexLeTotal` | main.go:174 | any two strings are comparable |
| `Sorting.LexLeAntisymmetric` | main.go:174 | two strings that are each at most the other are equal |
| `Sorting.LexLeTransitive` | main.go:174 | the order is transitive |
| `Sorting.Insert` | main.go:174 | inserting into a sorted list gives a sorted list with exactly one more occurrence of the element |
| `Sorting.Sort` | main.go:174 | the reference sort returns a sorted permutation of its input |
| `Sorting.SortedUnique` | main.go:174 | two sorted lists with the same elements are equal, so the sorted method list is deterministic |
| `Sorting.SortInPlace` | main.go:174 | sorting the slice in place leaves it sorted and equal to the reference sort of its old contents, so it is a permutation |
| `Strings.FoldAscii` | main.go:114 | ASCII upper-case letters fold to lower case; every other character is unchanged |
| `Strings.SplitJoin` | main.go:130 | splitting a non-empty join at its separator gives the elements back when no element contains the separator's first character |

Definitions without a row of their own, each used by the rows above:

- `MultiServer.Matches` is the route test of main.go:114.
- `Strings.EqualFold` models `strings.EqualFold` at main.go:114, with ASCII folding only.
- `Strings.Join` models `strings.Join` at main.go:130.
- `MultiServer.LocalRequest` is the request built at main.go:142-145.
- `MultiServer.NotFoundReply` is the 404 reply at main.go:122.

## Left out

- Local-mode routing through gin is not modelled: registering with `s.router.Handle`, reading the body with `c.GetRawData`, collapsing `url.Values` to their first value, and writing with `c.String` (main.go:65-80). This is foreign library code and I/O. Only the adapter `serveHTTPHandler` is modelled. In local mode, gin does the matching: it is case-sensitive, compares path segments, and treats `:name` and `*name` segments as wildcards. None of the dispatch properties proved here describe local mode.
- Server.MountEndpoint: the contract covers only the registration part (main.go:62-63). In local mode gin's `Handle` can panic after both fields have changed. It panics on a method that is not upper-case letters, on a path without a leading `/`, and on a second registration of the same method and path. The model does not include that failure.
- `Serve`, `lambda.Start`, `s.router.Run`, and the `PORT` and `AWS_LAMBDA_FUNCTION_NAME` lookups are not modelled (main.go:84-100, 52). They are process and transport plumbing. The mode is the constructor's `lambda` parameter, which nothing in the modelled core reads.
- `setupCORS` is not modelled (main.go:157-166). It only configures the gin-contrib CORS middleware. Its one input from the core is `getAllowedMethods`, which is modelled.
- Logging and `context.Context` are not modelled. They do not affect any result. Handlers get no context argument.
- `Strings.FoldAscii`: `strings.EqualFold` uses Unicode simple case folding. The model folds ASCII letters only, so pairs such as `K` and the Kelvin sign U+212A, which Go treats as equal, are unequal here.
- Method and path strings are assumed to be valid Unicode text. A Go string can hold any bytes, and `strings.EqualFold` reads invalid UTF-8 as U+FFFD; the byte order of such strings is not modelled.
- Handlers are modelled as pure total functions. Their side effects, panics and running time are not modelled.
- Only the request fields the core reads or fills, and the response fields it sets, are modelled. Multi-value headers, path and stage variables, the request context and `IsBase64Encoded` are left out.
- `Sorting.SortInPlace` uses insertion sort in place of Go's pattern-defeating quicksort. Only the outcome, a sorted permutation, is specified, and that outcome is unique.
- Slice aliasing and capacity growth on `append` are not modelled. The route list and the method list are Dafny sequences; only the final sort works on an array.
- Concurrent use is not modelled. The source mutates the route table without locks and is meant to be fully built before serving.
