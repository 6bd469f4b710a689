/** The stand-alone request handler of src/handler.ts. It differs from the
    one in src/serve.ts in three ways: an error goes to `next` instead of a
    500 response, `promiseCallback` awaits whatever was returned (there is
    no falsy guard), and every exception is rethrown unchanged. */
module Handler {
  import opened Common
  import opened Http
  import opened Lambda

  /** The response recorder together with the errors passed to `next`. */
  datatype Exchange = Exchange(res: ResState, forwarded: seq<Failure>)

  /** The exchange after a step, and the exception the step threw, if any. */
  datatype Step = Step(exchange: Exchange, thrown: Option<Failure>)

  /** `createCallback(res, next)`: an error goes to `next` and nothing is
      written; otherwise the response is written, and a missing response
      throws before anything is written. */
  function CallbackStep(ex: Exchange, args: CallbackArgs): Step
  {
    match args.err
    case Some(e) => Step(ex.(forwarded := ex.forwarded + [e]), None)
    case None =>
      match args.response
      case None => Step(ex, Some(MISSING_RESPONSE))
      case Some(r) => Step(ex.(res := Reply(ex.res, r)), None)
  }

  method Callback(res: Response, next: Next, args: CallbackArgs) returns (thrown: Option<Failure>)
    modifies res, next
    ensures Step(Exchange(res.State(), next.forwarded), thrown) ==
              CallbackStep(Exchange(old(res.State()), old(next.forwarded)), args)
  {
    thrown := None;
    if args.err.Some? {
      next.Call(args.err.value);
      return;
    }
    if args.response.None? {
      thrown := Some(MISSING_RESPONSE);
      return;
    }
    WriteReply(res, args.response.value);
  }

  /** The value `await promise` gives: a falsy return is awaited as it is,
      which for a function that returned nothing is `undefined`. */
  function Awaited(ret: Returned): Option<Option<LambdaResponse>>
  {
    match ret
    case Falsy => Some(None)
    case Resolves(v) => Some(v)
    case Rejects(_) => None
  }

  /** `promiseCallback`: `callback(null, v)` with the awaited value; a
      rejection, or a throw from that call, goes to `callback(err, null)`
      through the `catch`. */
  function PromiseStep(ex: Exchange, ret: Returned): Exchange
  {
    match Awaited(ret)
    case Some(v) =>
      var s := CallbackStep(ex, CallbackArgs(None, v));
      if s.thrown.Some? then CallbackStep(s.exchange, CallbackArgs(s.thrown, None)).exchange else s.exchange
    case None => CallbackStep(ex, CallbackArgs(Some(ret.reason), None)).exchange
  }

  method PromiseCallback(res: Response, next: Next, ret: Returned)
    modifies res, next
    ensures Exchange(res.State(), next.forwarded) == PromiseStep(Exchange(old(res.State()), old(next.forwarded)), ret)
  {
    var awaited := Awaited(ret);
    if awaited.Some? {
      var thrown := Callback(res, next, CallbackArgs(None, awaited.value));
      if thrown.Some? {
        thrown := Callback(res, next, CallbackArgs(thrown, None));
      }
    } else {
      var thrown := Callback(res, next, CallbackArgs(Some(ret.reason), None));
    }
  }

  /** The callback calls a function makes while it runs, in order; the
      first one that throws ends the run. */
  function RunCalls(ex: Exchange, calls: seq<CallbackArgs>): Step
    decreases |calls|
  {
    if calls == [] then Step(ex, None)
    else
      var s := CallbackStep(ex, calls[0]);
      if s.thrown.Some? then s else RunCalls(s.exchange, calls[1..])
  }

  /** The function's own calls of `callback` while `handler(...)` runs. */
  method MakeCalls(res: Response, next: Next, calls: seq<CallbackArgs>) returns (thrown: Option<Failure>)
    modifies res, next
    ensures Step(Exchange(res.State(), next.forwarded), thrown) ==
              RunCalls(Exchange(old(res.State()), old(next.forwarded)), calls)
  {
    thrown := None;
    var i := 0;
    ghost var ex0 := Exchange(res.State(), next.forwarded);
    while i < |calls| && thrown.None?
      invariant 0 <= i <= |calls|
      invariant thrown.None? ==> RunCalls(ex0, calls) == RunCalls(Exchange(res.State(), next.forwarded), calls[i..])
      invariant thrown.Some? ==> RunCalls(ex0, calls) == Step(Exchange(res.State(), next.forwarded), thrown)
    {
      assert calls[i..][0] == calls[i] && calls[i..][1..] == calls[i + 1..];
      thrown := Callback(res, next, calls[i]);
      i := i + 1;
    }
    if thrown.None? {
      assert calls[i..] == [];
    }
  }

  /** The exchange at the end of a request, and how the request ended. */
  datatype Served = Served(exchange: Exchange, outcome: Outcome)

  /** One request through the handler `createHandler(source, filename)`
      builds. Everything runs in one `try` whose `catch` rethrows, so a load
      failure, a missing `handler` export, a throw from the function or from
      one of its callback calls all leave the handler unchanged. */
  function Respond(ex: Exchange, h: HandlerRef, req: Request, load: Loader): Served
  {
    match load(h.source, h.filename)
    case LoadFailed(e) => Served(ex, Thrown(e))
    case NoHandlerExport => Served(ex, Thrown(HANDLER_NOT_FUNCTION))
    case Loaded(f) =>
      var inv := f(MakeEvent(req), EmptyContext);
      var s := RunCalls(ex, inv.calls);
      if s.thrown.Some? then Served(s.exchange, Thrown(s.thrown.value))
      else match inv.ending
        case Throws(e) => Served(s.exchange, Thrown(e))
        case Returns(v) => Served(PromiseStep(s.exchange, v), Completed)
  }

  /** The request handler returned by `createHandler`, invoked once. */
  method InvokeHandler(h: HandlerRef, req: Request, load: Loader, res: Response, next: Next)
    returns (outcome: Outcome)
    modifies res, next
    ensures Served(Exchange(res.State(), next.forwarded), outcome) ==
              Respond(Exchange(old(res.State()), old(next.forwarded)), h, req, load)
  {
    var lambda := load(h.source, h.filename);
    if lambda.LoadFailed? {
      return Thrown(lambda.error);
    }
    if lambda.NoHandlerExport? {
      return Thrown(HANDLER_NOT_FUNCTION);
    }
    var event := MakeEvent(req);
    var inv := lambda.handler(event, EmptyContext);
    var thrown := MakeCalls(res, next, inv.calls);
    if thrown.Some? {
      return Thrown(thrown.value);
    }
    if inv.ending.Throws? {
      return Thrown(inv.ending.error);
    }
    PromiseCallback(res, next, inv.ending.returned);
    outcome := Completed;
  }

  /** A reported error goes to `next` and writes no status, header or body;
      a response without error is written as is and nothing goes to `next`. */
  lemma CallbackRouting(ex: Exchange, e: Failure, r: LambdaResponse, resp: Option<LambdaResponse>)
    ensures CallbackStep(ex, CallbackArgs(Some(e), resp)) == Step(Exchange(ex.res, ex.forwarded + [e]), None)
    ensures CallbackStep(ex, CallbackArgs(None, Some(r))) == Step(Exchange(Reply(ex.res, r), ex.forwarded), None)
  {
  }

  /** Resolution `v` is `callback(null, v)` and rejection `e` is
      `callback(e, null)`; a falsy return is awaited too and reaches
      `callback` as a missing response, whose `TypeError` goes to `next`. */
  lemma PromiseOutcomes(ex: Exchange, r: LambdaResponse, e: Failure)
    ensures PromiseStep(ex, Resolves(Some(r))) == Exchange(Reply(ex.res, r), ex.forwarded)
    ensures PromiseStep(ex, Rejects(e)) == Exchange(ex.res, ex.forwarded + [e])
    ensures PromiseStep(ex, Falsy) == PromiseStep(ex, Resolves(None))
    ensures PromiseStep(ex, Falsy) == Exchange(ex.res, ex.forwarded + [MISSING_RESPONSE])
  {
  }

  /** No 500 is produced here: every load failure is rethrown unchanged and
      leaves the exchange untouched. */
  lemma LoadFailuresRethrown(ex: Exchange, h: HandlerRef, req: Request, load: Loader)
    ensures load(h.source, h.filename).LoadFailed? ==>
              Respond(ex, h, req, load) == Served(ex, Thrown(load(h.source, h.filename).error))
    ensures load(h.source, h.filename).NoHandlerExport? ==>
              Respond(ex, h, req, load) == Served(ex, Thrown(HANDLER_NOT_FUNCTION))
  {
  }

  /** A callback-style function that returns nothing gets its response
      written, and then, because the `undefined` it returned is awaited and
      passed on as a response, a `TypeError` handed to `next` as well. The
      same response returned as a promise reaches `next` with nothing. */
  lemma CallbackStyleAlsoReachesNext(ex: Exchange, h: HandlerRef, req: Request, viaCallback: Loader,
                                     viaPromise: Loader, r: LambdaResponse)
    requires viaCallback(h.source, h.filename).Loaded?
    requires viaCallback(h.source, h.filename).handler(MakeEvent(req), EmptyContext) ==
               Invocation([CallbackArgs(None, Some(r))], Returns(Falsy))
    requires viaPromise(h.source, h.filename).Loaded?
    requires viaPromise(h.source, h.filename).handler(MakeEvent(req), EmptyContext) ==
               Invocation([], Returns(Resolves(Some(r))))
    ensures Respond(ex, h, req, viaCallback) ==
              Served(Exchange(Reply(ex.res, r), ex.forwarded + [MISSING_RESPONSE]), Completed)
    ensures Respond(ex, h, req, viaPromise) == Served(Exchange(Reply(ex.res, r), ex.forwarded), Completed)
  {
    var calls := [CallbackArgs(None, Some(r))];
    var after := Exchange(Reply(ex.res, r), ex.forwarded);
    assert calls[1..] == [];
    assert RunCalls(ex, calls) == RunCalls(after, []);
    assert RunCalls(ex, []) == Step(ex, None);
  }
}
