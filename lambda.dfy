/** The invocation convention both bridges present to compiled function
    code: the event built from a request, the empty context, the
    `callback(err, response)` protocol and the value `handler(...)` returns.
    Loading a module from source text is an abstract loader, and a loaded
    function's behaviour is an abstract choice of callback calls followed by
    a return or a throw. */
module Lambda {
  import opened Common
  import opened Http

  /** The event handed to `handler`, with the field names the functions see. */
  datatype Event = Event(
    path: string,
    httpMethod: string,
    queryStringParameters: map<string, string>,
    headers: map<string, string>,
    body: string)

  /** The second argument of `handler`: always `{}`. */
  datatype Context = EmptyContext

  /** One `callback(err, response)` call; `None` is `null` or `undefined`. */
  datatype CallbackArgs = CallbackArgs(err: Option<Failure>, response: Option<LambdaResponse>)

  /** What `handler(...)` returned, with its promise (if any) settled:
      a falsy value, a promise that resolved, or a promise that rejected. */
  datatype Returned = Falsy | Resolves(value: Option<LambdaResponse>) | Rejects(reason: Failure)

  /** How the synchronous call of `handler(...)` ended. */
  datatype Ending = Returns(returned: Returned) | Throws(error: Failure)

  /** One run of a function: the callback calls it makes while running, in
      order, then how it ends. A throw out of one of those calls is not
      caught by the function and ends the run. */
  datatype Invocation = Invocation(calls: seq<CallbackArgs>, ending: Ending)

  /** A loaded function: its behaviour for each event and context. */
  type Behaviour = (Event, Context) -> Invocation

  /** What loading source text as a module gives: a load error (syntax
      error, throw during initialisation), a module without a `handler`
      export, or a module whose `handler` behaves as given. */
  datatype LoadResult = LoadFailed(error: Failure) | NoHandlerExport | Loaded(handler: Behaviour)

  /** `requireFromString(source, filename)`, as a function of its arguments:
      every call loads afresh, so the result depends on nothing else. */
  type Loader = (string, string) -> LoadResult

  /** A handler built by `createHandler(source, filename)`: the closure is
      identified by the two strings it captured. */
  datatype HandlerRef = HandlerRef(source: string, filename: string)

  /** How a request or a lambda run ended at the handler boundary: normally,
      or with an exception propagating to the HTTP layer. */
  datatype Outcome = Completed | Thrown(error: Failure)

  /** The `TypeError` raised by reading `statusCode` of a missing response. */
  const MISSING_RESPONSE := Failure("TypeError: Cannot read properties of undefined (reading 'statusCode')")

  /** The `TypeError` raised by calling a `handler` export that is not there. */
  const HANDLER_NOT_FUNCTION := Failure("TypeError: lambda.handler is not a function")

  /** The event literal of src/serve.ts:77-83 and src/handler.ts:59-65. */
  function MakeEvent(req: Request): Event
  {
    Event(req.path, req.httpMethod, req.query, req.headers, req.body)
  }

  /** Each event field is the request field of the same meaning, so the
      event loses nothing of the request: distinct requests give distinct
      events. */
  lemma MakeEventCopiesRequest(a: Request, b: Request)
    ensures MakeEvent(a).path == a.path && MakeEvent(a).httpMethod == a.httpMethod
    ensures MakeEvent(a).queryStringParameters == a.query
    ensures MakeEvent(a).headers == a.headers && MakeEvent(a).body == a.body
    ensures MakeEvent(a) == MakeEvent(b) <==> a == b
  {
  }
}
