/** The development server of src/serve.ts: the base-path normaliser, the
    invocation bridge that serves one request from compiled source text, and
    the route table that each build cycle refreshes while the routes
    registered with the HTTP layer stay those of the first cycle. */
module Serve {
  import opened Common
  import opened Http
  import opened Lambda
  import Build

  // ------------------------------------------------------------------
  // Base path

  /** The first half of `getPath`: prefix a `/` unless there is one. */
  function WithLeadingSlash(basePath: string): string
  {
    if StartsWith(basePath, "/") then basePath else "/" + basePath
  }

  /** `getPath`: the base path with a leading `/`, and with one trailing `/`
      removed if there is one. */
  function GetPath(basePath: string): (r: string)
    ensures r == "" <==> basePath == "" || basePath == "/"
    ensures r != "" ==> r[0] == '/'
    ensures StartsWith(basePath, "/") ==> StartsWith(basePath, r)
    ensures !StartsWith(basePath, "/") ==> StartsWith("/" + basePath, r)
  {
    var path := WithLeadingSlash(basePath);
    if EndsWith(path, "/") then path[..|path| - 1] else path
  }

  /** Exactly one trailing slash is removed, when there is one (an empty
      base path counts, since it becomes `/` first); so the result ends in
      `/` exactly when the base path ends in two. */
  lemma GetPathStripsOneSlash(basePath: string)
    ensures |GetPath(basePath)| ==
              |basePath| + (if StartsWith(basePath, "/") then 0 else 1)
                         - (if basePath == "" || EndsWith(basePath, "/") then 1 else 0)
    ensures EndsWith(GetPath(basePath), "/") <==> EndsWith(basePath, "//")
  {
    var path := WithLeadingSlash(basePath);
    var r := GetPath(basePath);
    EndsWithSlashes(basePath);
    EndsWithSlashes(path);
    EndsWithSlashes(r);
    if !StartsWith(basePath, "/") {
      assert path == "/" + basePath;
      assert forall i :: 0 <= i < |basePath| ==> path[i + 1] == basePath[i];
    }
    if EndsWith(path, "/") {
      assert r == path[..|path| - 1];
    }
  }

  /** Only one trailing slash goes, so normalising twice changes the result
      exactly when the base path ends in two slashes. */
  lemma GetPathIdempotentUnlessDoubleSlash(basePath: string)
    ensures GetPath(GetPath(basePath)) == GetPath(basePath) <==> !EndsWith(basePath, "//")
  {
    var r := GetPath(basePath);
    GetPathStripsOneSlash(basePath);
    if r != "" {
      assert StartsWith(r, "/");
      assert WithLeadingSlash(r) == r;
    }
  }

  lemma GetPathExample()
    ensures GetPath("/api//") == "/api/"
  {
    assert StartsWith("/api//", "/");
    assert EndsWith("/api//", "/");
    assert "/api//"[..5] == "/api/";
  }

  // ------------------------------------------------------------------
  // Invocation bridge

  /** The body `handleErr` sends. */
  function FailureBody(e: Failure): string
  {
    "Function invocation failed: " + e.text
  }

  /** The recorder after `handleErr`: status 500 and the rendered error. */
  function HandleErrState(st: ResState, e: Failure): ResState
  {
    st.(status := 500, sent := st.sent + [FailureBody(e)])
  }

  method HandleErr(e: Failure, res: Response)
    modifies res
    ensures res.State() == HandleErrState(old(res.State()), e)
  {
    res.Status(500);
    res.Send(FailureBody(e));
  }

  /** The recorder after a step, and the exception the step threw, if any. */
  datatype Step = Step(state: ResState, thrown: Option<Failure>)

  /** The callback made by `createCallback(res)`: an error becomes the 500
      response; otherwise the response is written, and a missing response
      throws before anything is written. */
  function CallbackStep(st: ResState, args: CallbackArgs): Step
  {
    match args.err
    case Some(e) => Step(HandleErrState(st, e), None)
    case None =>
      match args.response
      case None => Step(st, Some(MISSING_RESPONSE))
      case Some(r) => Step(Reply(st, r), None)
  }

  method Callback(res: Response, args: CallbackArgs) returns (thrown: Option<Failure>)
    modifies res
    ensures Step(res.State(), thrown) == CallbackStep(old(res.State()), args)
  {
    thrown := None;
    if args.err.Some? {
      HandleErr(args.err.value, res);
      return;
    }
    if args.response.None? {
      thrown := Some(MISSING_RESPONSE);
      return;
    }
    WriteReply(res, args.response.value);
  }

  /** `promiseCallback`: nothing for a falsy return; otherwise the resolved
      value goes to `callback(null, v)`, and a rejection, or a throw from
      that call, to `callback(err, null)` through `.catch`. */
  function PromiseStep(st: ResState, ret: Returned): ResState
  {
    match ret
    case Falsy => st
    case Resolves(v) =>
      var s := CallbackStep(st, CallbackArgs(None, v));
      if s.thrown.Some? then CallbackStep(s.state, CallbackArgs(s.thrown, None)).state else s.state
    case Rejects(e) => CallbackStep(st, CallbackArgs(Some(e), None)).state
  }

  method PromiseCallback(res: Response, ret: Returned)
    modifies res
    ensures res.State() == PromiseStep(old(res.State()), ret)
  {
    match ret
    case Falsy =>
    case Resolves(v) =>
      var thrown := Callback(res, CallbackArgs(None, v));
      if thrown.Some? {
        thrown := Callback(res, CallbackArgs(thrown, None));
      }
    case Rejects(e) =>
      var thrown := Callback(res, CallbackArgs(Some(e), None));
  }

  /** The callback calls a function makes while it runs, in order; the
      first one that throws ends the run. */
  function RunCalls(st: ResState, calls: seq<CallbackArgs>): Step
    decreases |calls|
  {
    if calls == [] then Step(st, None)
    else
      var s := CallbackStep(st, calls[0]);
      if s.thrown.Some? then s else RunCalls(s.state, calls[1..])
  }

  /** The function's own calls of `callback` while `handler(...)` runs. */
  method MakeCalls(res: Response, calls: seq<CallbackArgs>) returns (thrown: Option<Failure>)
    modifies res
    ensures Step(res.State(), thrown) == RunCalls(old(res.State()), calls)
  {
    thrown := None;
    var i := 0;
    while i < |calls| && thrown.None?
      invariant 0 <= i <= |calls|
      invariant thrown.None? ==> RunCalls(old(res.State()), calls) == RunCalls(res.State(), calls[i..])
      invariant thrown.Some? ==> RunCalls(old(res.State()), calls) == Step(res.State(), thrown)
    {
      assert calls[i..][0] == calls[i] && calls[i..][1..] == calls[i + 1..];
      thrown := Callback(res, calls[i]);
      i := i + 1;
    }
    if thrown.None? {
      assert calls[i..] == [];
    }
  }

  /** The recorder at the end of a request, and how the request ended. */
  datatype Served = Served(state: ResState, outcome: Outcome)

  /** One request through the handler `createHandler(source, filename)`
      builds: a load failure is rendered as a 500 and the function never
      runs; a missing `handler` export throws, since that call is outside
      the `try`; otherwise the function runs on the event and `{}`, and its
      returned value goes through `promiseCallback`. */
  function Respond(st: ResState, h: HandlerRef, req: Request, load: Loader): Served
  {
    match load(h.source, h.filename)
    case LoadFailed(e) => Served(HandleErrState(st, e), Completed)
    case NoHandlerExport => Served(st, Thrown(HANDLER_NOT_FUNCTION))
    case Loaded(f) =>
      var inv := f(MakeEvent(req), EmptyContext);
      var s := RunCalls(st, inv.calls);
      if s.thrown.Some? then Served(s.state, Thrown(s.thrown.value))
      else match inv.ending
        case Throws(e) => Served(s.state, Thrown(e))
        case Returns(v) => Served(PromiseStep(s.state, v), Completed)
  }

  /** The request handler returned by `createHandler`, invoked once. */
  method InvokeHandler(h: HandlerRef, req: Request, load: Loader, res: Response) returns (outcome: Outcome)
    modifies res
    ensures Served(res.State(), outcome) == Respond(old(res.State()), h, req, load)
  {
    var lambda := load(h.source, h.filename);
    if lambda.LoadFailed? {
      HandleErr(lambda.error, res);
      return Completed;
    }
    if lambda.NoHandlerExport? {
      return Thrown(HANDLER_NOT_FUNCTION);
    }
    var event := MakeEvent(req);
    var inv := lambda.handler(event, EmptyContext);
    var thrown := MakeCalls(res, inv.calls);
    if thrown.Some? {
      return Thrown(thrown.value);
    }
    if inv.ending.Throws? {
      return Thrown(inv.ending.error);
    }
    PromiseCallback(res, inv.ending.returned);
    outcome := Completed;
  }

  /** A reported error always becomes a 500 whose body renders it, whatever
      response came with it; a response without error is written as is. */
  lemma CallbackRendering(st: ResState, e: Failure, r: LambdaResponse, resp: Option<LambdaResponse>)
    ensures CallbackStep(st, CallbackArgs(Some(e), resp)) ==
              Step(ResState(500, st.headers, st.sent + ["Function invocation failed: " + e.text]), None)
    ensures CallbackStep(st, CallbackArgs(None, Some(r))) == Step(Reply(st, r), None)
  {
  }

  /** The four outcomes of `promiseCallback`. */
  lemma PromiseOutcomes(st: ResState, r: LambdaResponse, e: Failure)
    ensures PromiseStep(st, Falsy) == st
    ensures PromiseStep(st, Resolves(Some(r))) == Reply(st, r)
    ensures PromiseStep(st, Rejects(e)) == HandleErrState(st, e)
    ensures PromiseStep(st, Resolves(None)) == HandleErrState(st, MISSING_RESPONSE)
  {
  }

  /** A module that fails to load yields the 500 response and the request
      completes; a module without `handler` throws and writes nothing. */
  lemma LoadFailures(st: ResState, h: HandlerRef, req: Request, load: Loader)
    ensures load(h.source, h.filename).LoadFailed? ==>
              Respond(st, h, req, load) == Served(HandleErrState(st, load(h.source, h.filename).error), Completed)
    ensures load(h.source, h.filename).NoHandlerExport? ==>
              Respond(st, h, req, load) == Served(st, Thrown(HANDLER_NOT_FUNCTION))
  {
  }

  /** Callback style and promise style give the same response: a function
      that calls `callback(null, r)` and returns nothing, and one that
      returns a promise resolving to `r`, leave the same recorder. */
  lemma CallbackAndPromiseAgree(st: ResState, h: HandlerRef, req: Request, viaCallback: Loader,
                                viaPromise: Loader, r: LambdaResponse)
    requires viaCallback(h.source, h.filename).Loaded?
    requires viaCallback(h.source, h.filename).handler(MakeEvent(req), EmptyContext) ==
               Invocation([CallbackArgs(None, Some(r))], Returns(Falsy))
    requires viaPromise(h.source, h.filename).Loaded?
    requires viaPromise(h.source, h.filename).handler(MakeEvent(req), EmptyContext) ==
               Invocation([], Returns(Resolves(Some(r))))
    ensures Respond(st, h, req, viaCallback) == Respond(st, h, req, viaPromise)
    ensures Respond(st, h, req, viaPromise) == Served(Reply(st, r), Completed)
  {
    var calls := [CallbackArgs(None, Some(r))];
    assert calls[1..] == [];
    assert RunCalls(st, calls) == RunCalls(Reply(st, r), []);
    assert RunCalls(st, []) == Step(st, None);
  }

  // ------------------------------------------------------------------
  // Route table

  /** The route a cycle serves an entry under: base path and request path
      joined as they are. */
  function RouteKey(path: string, e: Entry): string
  {
    path + e.requestPath
  }

  /** `modules.find(m => m.identifier.includes(file))`. */
  function FindModule(modules: seq<CompiledModule>, file: string): Option<CompiledModule>
    decreases |modules|
  {
    if modules == [] then None
    else if Contains(modules[0].identifier, file) then Some(modules[0])
    else FindModule(modules[1..], file)
  }

  /** `find` gives a module exactly when one matches, and then the first
      matching one. */
  lemma {:induction false} FindModuleIsFirstMatch(modules: seq<CompiledModule>, file: string)
    ensures FindModule(modules, file).Some? <==>
              exists k :: 0 <= k < |modules| && Contains(modules[k].identifier, file)
    ensures FindModule(modules, file).Some? ==>
              exists k :: 0 <= k < |modules| && modules[k] == FindModule(modules, file).value &&
                Contains(modules[k].identifier, file) &&
                forall j :: 0 <= j < k ==> !Contains(modules[j].identifier, file)
    decreases |modules|
  {
    if modules != [] && !Contains(modules[0].identifier, file) {
      FindModuleIsFirstMatch(modules[1..], file);
      assert forall k :: 1 <= k < |modules| ==> modules[k] == modules[1..][k - 1];
      if FindModule(modules, file).Some? {
        var k :| 0 <= k < |modules[1..]| && modules[1..][k] == FindModule(modules, file).value &&
                 Contains(modules[1..][k].identifier, file) &&
                 forall j :: 0 <= j < k ==> !Contains(modules[1..][j].identifier, file);
        assert modules[k + 1] == modules[1..][k];
        forall j | 0 <= j < k + 1
          ensures !Contains(modules[j].identifier, file)
        {
          if j > 0 { assert modules[j] == modules[1..][j - 1]; }
        }
      }
    }
  }

  /** Every entry has a module in this cycle; the source faults otherwise. */
  predicate AllMatched(entries: seq<Entry>, modules: seq<CompiledModule>)
  {
    forall e :: e in entries ==> FindModule(modules, e.file).Some?
  }

  /** The handler `createHandler(source, lambda.file)` for an entry. */
  function HandlerFor(modules: seq<CompiledModule>, e: Entry): HandlerRef
    requires FindModule(modules, e.file).Some?
  {
    HandlerRef(FindModule(modules, e.file).value.source, e.file)
  }

  /** The table after one cycle's loop over the entries, in order. */
  function Updated(table: map<string, HandlerRef>, path: string, entries: seq<Entry>,
                   modules: seq<CompiledModule>): map<string, HandlerRef>
    requires AllMatched(entries, modules)
    decreases |entries|
  {
    if entries == [] then table
    else
      assert forall e :: e in entries[1..] ==> e in entries;
      Updated(table[RouteKey(path, entries[0]) := HandlerFor(modules, entries[0])], path, entries[1..], modules)
  }

  /** The routes of a cycle, in entry order. */
  function RoutePaths(path: string, entries: seq<Entry>): seq<string>
  {
    seq(|entries|, i requires 0 <= i < |entries| => RouteKey(path, entries[i]))
  }

  /** A cycle leaves every key it does not produce as it was. */
  lemma {:induction false} UpdatedOtherKeys(table: map<string, HandlerRef>, path: string, entries: seq<Entry>,
                                            modules: seq<CompiledModule>, k: string)
    requires AllMatched(entries, modules)
    requires k !in RoutePaths(path, entries)
    ensures k in Updated(table, path, entries, modules) <==> k in table
    ensures k in table ==> Updated(table, path, entries, modules)[k] == table[k]
    decreases |entries|
  {
    if entries != [] {
      assert forall e :: e in entries[1..] ==> e in entries;
      assert RoutePaths(path, entries) == [RouteKey(path, entries[0])] + RoutePaths(path, entries[1..]);
      UpdatedOtherKeys(table[RouteKey(path, entries[0]) := HandlerFor(modules, entries[0])],
                       path, entries[1..], modules, k);
    }
  }

  /** A cycle's keys are the old keys and its routes. */
  lemma {:induction false} UpdatedKeys(table: map<string, HandlerRef>, path: string, entries: seq<Entry>,
                                       modules: seq<CompiledModule>)
    requires AllMatched(entries, modules)
    ensures Updated(table, path, entries, modules).Keys == table.Keys + set k | k in RoutePaths(path, entries)
    decreases |entries|
  {
    if entries != [] {
      assert forall e :: e in entries[1..] ==> e in entries;
      assert RoutePaths(path, entries) == [RouteKey(path, entries[0])] + RoutePaths(path, entries[1..]);
      UpdatedKeys(table[RouteKey(path, entries[0]) := HandlerFor(modules, entries[0])],
                  path, entries[1..], modules);
    }
  }

  /** The last entry with a given route decides that route's handler. */
  lemma {:induction false} UpdatedLastWins(table: map<string, HandlerRef>, path: string, entries: seq<Entry>,
                                           modules: seq<CompiledModule>, i: int)
    requires AllMatched(entries, modules)
    requires 0 <= i < |entries|
    requires forall j :: i < j < |entries| ==> RouteKey(path, entries[j]) != RouteKey(path, entries[i])
    ensures RouteKey(path, entries[i]) in Updated(table, path, entries, modules)
    ensures Updated(table, path, entries, modules)[RouteKey(path, entries[i])] == HandlerFor(modules, entries[i])
    decreases |entries|
  {
    assert forall e :: e in entries[1..] ==> e in entries;
    var next := table[RouteKey(path, entries[0]) := HandlerFor(modules, entries[0])];
    if i == 0 {
      var k := RouteKey(path, entries[0]);
      assert k !in RoutePaths(path, entries[1..]);
      UpdatedOtherKeys(next, path, entries[1..], modules, k);
    } else {
      assert entries[1..][i - 1] == entries[i];
      UpdatedLastWins(next, path, entries[1..], modules, i - 1);
    }
  }

  /** With distinct routes, after a cycle each entry's route holds the
      handler built from the first module whose identifier contains the
      entry's file. */
  lemma UpdatedFromFirstMatch(table: map<string, HandlerRef>, path: string, entries: seq<Entry>,
                              modules: seq<CompiledModule>, i: int)
    requires AllMatched(entries, modules)
    requires 0 <= i < |entries|
    requires forall j, l :: 0 <= j < l < |entries| ==> RouteKey(path, entries[j]) != RouteKey(path, entries[l])
    ensures RouteKey(path, entries[i]) in Updated(table, path, entries, modules)
    ensures exists k :: 0 <= k < |modules| && Contains(modules[k].identifier, entries[i].file) &&
              (forall j :: 0 <= j < k ==> !Contains(modules[j].identifier, entries[i].file)) &&
              Updated(table, path, entries, modules)[RouteKey(path, entries[i])] ==
                HandlerRef(modules[k].source, entries[i].file)
  {
    assert entries[i] in entries;
    FindModuleIsFirstMatch(modules, entries[i].file);
    UpdatedLastWins(table, path, entries, modules, i);
  }

  /** One step of a cycle's loop: the entry at `i` is written, then the
      rest follow. */
  lemma UpdatedUnfold(table: map<string, HandlerRef>, path: string, entries: seq<Entry>,
                      modules: seq<CompiledModule>, i: int)
    requires 0 <= i < |entries| && AllMatched(entries[i..], modules)
    ensures FindModule(modules, entries[i].file).Some? && AllMatched(entries[i + 1..], modules)
    ensures Updated(table, path, entries[i..], modules) ==
              Updated(table[RouteKey(path, entries[i]) := HandlerFor(modules, entries[i])],
                      path, entries[i + 1..], modules)
  {
    assert entries[i..][0] == entries[i] && entries[i..][1..] == entries[i + 1..];
    assert entries[i] in entries[i..];
    assert forall e :: e in entries[i + 1..] ==> e in entries[i..];
  }

  lemma RoutePathsSnoc(path: string, entries: seq<Entry>, i: int)
    requires 0 <= i < |entries|
    ensures RoutePaths(path, entries[..i + 1]) == RoutePaths(path, entries[..i]) + [RouteKey(path, entries[i])]
  {
  }

  /** The table `routeHandlers`. It is module state in the source, so every
      server of the process shares it. */
  class RouteTable {
    var handlers: map<string, HandlerRef>

    constructor ()
      ensures handlers == map[]
    {
      handlers := map[];
    }
  }

  /** One `createServer`: its normalised base path, its `firstRun` flag and
      the routes it registered with `app.all`, over the shared table. */
  class Server {
    const table: RouteTable
    const path: string
    var firstRun: bool
    var routes: seq<string>

    /** Every registered route has a handler to look up. */
    ghost predicate Valid()
      reads this, table
    {
      forall r :: r in routes ==> r in table.handlers
    }

    constructor (table: RouteTable, basePath: string)
      ensures this.table == table && path == GetPath(basePath)
      ensures firstRun && routes == [] && Valid()
    {
      this.table := table;
      path := GetPath(basePath);
      firstRun := true;
      routes := [];
    }

    /** The build callback: for each entry, store the handler built from
        its module at its route; on the first cycle only, register each
        route; then clear `firstRun`. */
    method OnCycle(entries: seq<Entry>, modules: seq<CompiledModule>)
      requires Valid() && AllMatched(entries, modules)
      modifies this, table
      ensures Valid() && !firstRun
      ensures table.handlers == Updated(old(table.handlers), path, entries, modules)
      ensures routes == old(routes) + (if old(firstRun) then RoutePaths(path, entries) else [])
    {
      var i := 0;
      while i < |entries|
        invariant 0 <= i <= |entries|
        invariant firstRun == old(firstRun)
        invariant AllMatched(entries[i..], modules)
        invariant Updated(old(table.handlers), path, entries, modules) ==
                    Updated(table.handlers, path, entries[i..], modules)
        invariant routes == old(routes) + (if firstRun then RoutePaths(path, entries[..i]) else [])
        invariant forall r :: r in routes ==> r in table.handlers
      {
        var lambda := entries[i];
        var requestPath := path + lambda.requestPath;
        UpdatedUnfold(table.handlers, path, entries, modules, i);
        var found := FindModule(modules, lambda.file);
        table.handlers := table.handlers[requestPath := HandlerRef(found.value.source, lambda.file)];
        if firstRun {
          RoutePathsSnoc(path, entries, i);
          routes := routes + [requestPath];
        }
        i := i + 1;
      }
      assert entries[..i] == entries;
      firstRun := false;
    }

    /** The build callback run on each delivered payload in turn. Routes are
        registered once, from the first payload, if this is the first run. */
    method OnCycles(ds: seq<Build.CallbackPayload>)
      requires Valid() && PayloadsMatched(ds)
      modifies this, table
      ensures Valid() && firstRun == (old(firstRun) && ds == [])
      ensures routes == old(routes) + (if old(firstRun) && ds != [] then RoutePaths(path, ds[0].entries) else [])
      ensures table.handlers == ApplyCycles(old(table.handlers), path, ds)
    {
      ghost var first := firstRun;
      ghost var routes0 := routes;
      var i := 0;
      while i < |ds|
        invariant 0 <= i <= |ds|
        invariant Valid() && firstRun == (first && i == 0)
        invariant routes == routes0 + (if first && i > 0 then RoutePaths(path, ds[0].entries) else [])
        invariant ApplyCycles(old(table.handlers), path, ds) == ApplyCycles(table.handlers, path, ds[i..])
      {
        assert ds[i] in ds;
        assert ds[i..][0] == ds[i] && ds[i..][1..] == ds[i + 1..];
        assert forall d :: d in ds[i + 1..] ==> d in ds;
        OnCycle(ds[i].entries, ds[i].modules);
        i := i + 1;
      }
      assert ds[i..] == [];
    }

    /** The stable wrapper registered for `route`: it looks the handler up
        in the table when the request arrives and runs it. */
    method Dispatch(route: string, req: Request, load: Loader, res: Response) returns (outcome: Outcome)
      requires Valid() && route in routes
      modifies res
      ensures Served(res.State(), outcome) == Respond(old(res.State()), table.handlers[route], req, load)
    {
      outcome := InvokeHandler(table.handlers[route], req, load, res);
    }
  }

  // ------------------------------------------------------------------
  // createServer: the build in watch mode, feeding the route table

  /** Every payload handed to the build callback names a module for each
      of its entries. */
  predicate PayloadsMatched(ds: seq<Build.CallbackPayload>)
  {
    forall d :: d in ds ==> AllMatched(d.entries, d.modules)
  }

  /** The table after the build callback has run on each payload in turn. */
  function ApplyCycles(table: map<string, HandlerRef>, path: string, ds: seq<Build.CallbackPayload>): map<string, HandlerRef>
    requires PayloadsMatched(ds)
    decreases |ds|
  {
    if ds == [] then table
    else ApplyCycles(Updated(table, path, ds[0].entries, ds[0].modules), path, ds[1..])
  }

  /** `createServer`: build with the route-table callback (watching and in
      development mode unless told otherwise), each payload applied to the
      server in the order the cycles delivered it. The server's routes are
      the first cycle's, registered once however many cycles follow. */
  method CreateServer(table: RouteTable, basePath: string, entries: Build.EntriesOutcome,
                      setupError: Option<Failure>, reports: seq<Build.CycleReport>,
                      dev: bool := true, watch: bool := true)
    returns (server: Server, settlement: Build.Settlement)
    requires entries.Entries? ==>
               forall r :: r in reports && r.stats.Some? ==> AllMatched(entries.list, r.stats.value.modules)
    modifies table
    ensures fresh(server) && server.table == table && server.path == GetPath(basePath) && server.Valid()
    ensures settlement == Build.Settle(Build.Pending, Build.DriverActions(entries, setupError, watch, true, reports))
    ensures var d := Build.Deliveries(Build.DriverActions(entries, setupError, watch, true, reports));
            PayloadsMatched(d) && (d != [] ==> entries.Entries?) &&
            server.firstRun == (d == []) &&
            server.routes == (if d == [] then [] else RoutePaths(server.path, entries.list)) &&
            table.handlers == ApplyCycles(old(table.handlers), server.path, d)
  {
    server := new Server(table, basePath);
    var deliveries, compiler, crash;
    settlement, deliveries, compiler, crash := Build.Run(entries, setupError, reports, true, dev, watch);
    Build.DriverDeliveries(entries, setupError, watch, true, reports);
    server.OnCycles(deliveries);
  }

  /** A route keeps serving through a rebuild without being registered
      again, and each request runs the source of the latest cycle: a fresh
      server serves `m1`'s source after the first cycle and `m2`'s after
      the second. */
  method ServeAcrossRebuild(table: RouteTable, basePath: string, e: Entry, m1: CompiledModule,
                            m2: CompiledModule, req: Request, load: Loader)
    returns (first: Served, second: Served, routes: seq<string>)
    requires Contains(m1.identifier, e.file) && Contains(m2.identifier, e.file)
    modifies table
    ensures routes == [GetPath(basePath) + e.requestPath]
    ensures first == Respond(UNTOUCHED, HandlerRef(m1.source, e.file), req, load)
    ensures second == Respond(UNTOUCHED, HandlerRef(m2.source, e.file), req, load)
  {
    var server := new Server(table, basePath);
    var route := server.path + e.requestPath;
    assert FindModule([m1], e.file) == Some(m1) && FindModule([m2], e.file) == Some(m2);
    server.OnCycle([e], [m1]);
    assert RoutePaths(server.path, [e]) == [route];
    var res := new Response();
    var outcome := server.Dispatch(route, req, load, res);
    first := Served(res.State(), outcome);
    server.OnCycle([e], [m2]);
    res := new Response();
    outcome := server.Dispatch(route, req, load, res);
    second := Served(res.State(), outcome);
    routes := server.routes;
  }
}
