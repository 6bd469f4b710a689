# lambda-dev core, modelled in Dafny

lambda-dev compiles serverless HTTP functions with a bundler and serves them
locally. This project models the sequential logic between the bundler, the
HTTP layer and the compiled function code:

- **Compilation driver** (`build.dfy`, module `Build`, src/build.ts). The
  build promise is a settle-once cell (`BuildPromise`): state goes
  Pending→Resolved or Pending→Rejected, and later calls change nothing.
  `CycleActions` lists, in order, the `reject` / `callback` / `resolve` calls
  that one cycle's `(err, stats)` report causes. `HandleCycle` performs them
  on the cell. `Run` is the default export: entry discovery, compiler setup
  (the `dev` flag selects in-memory output), then one cycle (`run`) or every
  reported cycle (`watch`).
- **Invocation bridge of the server** (`serve.dfy`, module `Serve`,
  src/serve.ts:14-88). It serves one request from a handler built from
  `(source, filename)`. `Respond` is the value-level specification. The
  methods `HandleErr`, `Callback`, `PromiseCallback` and `InvokeHandler` act
  on a response recorder that stands in for express's `res`.
- **Route table manager** (`serve.dfy`, src/serve.ts:90-157). `GetPath`
  normalises the base path. `RouteTable` holds the module-level
  `routeHandlers`, so every server in the process shares it. `Server` holds
  `firstRun` and the routes registered with `app.all`. `OnCycle` is the build
  callback and `Dispatch` is the stable wrapper that looks the handler up at
  request time. `CreateServer` feeds the build's callback payloads through
  `OnCycle`.
- **Stand-alone handler** (`handler.dfy`, module `Handler`, src/handler.ts).
  It is the same bridge with three differences: errors go to `next`, there is
  no falsy guard before awaiting, and every exception is rethrown.

Shared pieces:

- `common.dfy`: `Option`, `Failure` (a JavaScript error, represented by its
  `toString()`), `Entry`, `CompiledModule`, and `startsWith` / `endsWith` /
  `includes`.
- `http.dfy`: the request, the recorders for `res` and `next`, and the
  status / headers / body translation that both bridges share.
- `lambda.dfy`: the invocation convention.
  - The event and the `{}` context.
  - The `callback(err, response)` arguments.
  - What `handler(...)` returns or throws.
  - A function's behaviour is a list of callback calls, then a return or a
    throw.
  - Module loading is an abstract `Loader` from `(source, filename)` to a
    load result. It is called afresh on every request.

Where the code and the documented design disagree, the model follows the
code:

- A cycle with compilation errors still calls `callback`, so the route table
  is updated even on a failed cycle. This is because there is no `return`
  after `reject` (src/build.ts:57).
- The `resolve` at the end of every cycle is a no-op once the promise has
  settled.
- `getPath` strips only one trailing `/`.
- In src/serve.ts, calling `lambda.handler` is outside the `try`. A module
  without a `handler` export therefore throws out of the request handler
  instead of producing the "Function invocation failed" response.
- If entry discovery throws, the promise is rejected with the raw error.
  That call sits outside the executor's `try` (src/build.ts:95).
- A bundler error without `stats` rejects first and then throws at
  `stats.toJson` (the `Crash` action). In watch mode the modelled cycle
  series ends there.
- In src/handler.ts a callback-style function that returns nothing still
  reaches `next`. The `undefined` it returns is awaited and passed to
  `callback` as a response, and the resulting `TypeError` is caught and
  passed to `next` (`Handler.CallbackStyleAlsoReachesNext`). In src/serve.ts
  the falsy guard prevents this.

## Model

| member | source | states |
|---|---|---|
| `Serve.GetPath` | src/serve.ts:90-93 | The result is `""` exactly for the inputs `""` and `"/"`, and otherwise starts with `/`. An input already starting with `/` keeps that prefix; any other input gets a `/` in front. |
| `Serve.GetPathStripsOneSlash` | src/serve.ts:92 | The exact result length: one `/` is added when missing, and exactly one trailing `/` is removed when present. The result ends in `/` exactly when the input ends in `//`. |
| `Serve.GetPathIdempotentUnlessDoubleSlash` | src/serve.ts:90-93 | Normalising the result again changes it exactly when the base path ends in `//`. |
| `Serve.GetPathExample` | src/serve.ts:92 | `"/api//"` becomes `"/api/"`. |
| `Serve.HandleErr` | src/serve.ts:14-15 | The response gets status 500 and the body `"Function invocation failed: "` plus the error's rendering; headers are untouched. |
| `Serve.Callback` | src/serve.ts:22-35 | The recorder changes as `CallbackStep` says: an error gives the 500 response; a response gives its status, headers and body; a missing response throws a `TypeError` and writes nothing. |
| `Serve.CallbackRendering` | src/serve.ts:26-34 | An error always gives 500 with the rendered body, whatever response came with it. A response with no error is written as given. |
| `Serve.PromiseCallback` | src/serve.ts:37-44 | The recorder changes as `PromiseStep` says: the resolved value goes to the callback, and a rejection or a throw from that call goes to the error path. |
| `Serve.PromiseOutcomes` | src/serve.ts:41-42 | A falsy return does nothing. A resolved response is written. A rejection gives the 500 response. A promise resolving to nothing gives the 500 response for the `TypeError`. |
| `Serve.MakeCalls` | src/serve.ts:85-86 | The function's callback calls take effect in order, and the first throw stops the run (`RunCalls`). |
| `Serve.InvokeHandler` | src/serve.ts:65-88 | The recorder and the outcome of one request are those of `Respond`. |
| `Serve.LoadFailures` | src/serve.ts:71-75 | A load failure gives the 500 response, the request completes and no function runs. A module without `handler` throws and writes nothing. |
| `Serve.CallbackAndPromiseAgree` | src/serve.ts:85-87 | `callback(null, r)` with a falsy return, and a returned promise resolving to `r`, leave the same response: `r` written as given. |
| `Serve.FindModuleIsFirstMatch` | src/serve.ts:125-127 | `find` gives a module exactly when some identifier contains the entry's file, and then gives the first such module. |
| `Serve.UpdatedOtherKeys` | src/serve.ts:130 | Keys that the cycle's routes do not include keep their presence and their handler. |
| `Serve.UpdatedKeys` | src/serve.ts:123-130 | After a cycle the table's keys are the old keys plus the cycle's routes. |
| `Serve.UpdatedLastWins` | src/serve.ts:123-130 | The last entry with a given route decides that route's handler: the source of its first matching module, with its own file. |
| `Serve.UpdatedFromFirstMatch` | src/serve.ts:124-130 | With distinct routes, every entry's route holds the handler built from the first module whose identifier contains the entry's file. |
| `Serve.RouteTable.constructor` | src/serve.ts:96 | The shared table starts empty. |
| `Serve.Server.constructor` | src/serve.ts:114-119 | The server starts with the normalised base path, `firstRun` set and no routes registered. |
| `Serve.Server.OnCycle` | src/serve.ts:122-146 | The table becomes `Updated(old table, ...)`. Routes are appended, in entry order, only when `firstRun` was set. `firstRun` ends false, and every registered route still has a handler. |
| `Serve.Server.OnCycles` | src/serve.ts:122-146 | Each delivered payload is applied to the table in turn (`ApplyCycles`). Routes are registered once, from the first payload, and only on a first run. |
| `Serve.Server.Dispatch` | src/serve.ts:134-136 | A registered route serves whatever handler the table holds for it at request time. |
| `Serve.CreateServer` | src/serve.ts:103-157 | The settlement is that of the build. The routes are the entries' routes once any payload was delivered, registered once over all cycles. The table is every delivered payload applied in order. |
| `Serve.ServeAcrossRebuild` | src/serve.ts:122-136 | Across two cycles a single route stays registered. The first request runs the first module's source and the second request runs the second's. |
| `Build.BuildPromise.Resolve` | src/build.ts:94 | `resolve` settles only a pending promise. |
| `Build.BuildPromise.Reject` | src/build.ts:94 | `reject` settles only a pending promise. |
| `Build.SettledStays` | src/build.ts:94 | A settled promise stays as it is, whatever follows. |
| `Build.RejectedByFirstReject` | src/build.ts:94 | A promise ends Rejected(r) exactly when `reject(r)` is the first settling call, so it comes before any `resolve`. |
| `Build.HandleCycle` | src/build.ts:32-76 | The promise, the payloads given to `callback` and the exception thrown out are those of `CycleActions`, applied in order. |
| `Build.BundlerErrorRejectsFirst` | src/build.ts:38-43 | A bundler error is the first action, `reject({entries, error})`, and the promise ends with that. Without `stats`, the next action is the throw at `stats.toJson`. |
| `Build.CompileErrorsReject` | src/build.ts:50-58 | With compilation errors, a pending promise ends Rejected with `{entries, errors, hash}`, or with the bundler error if one came first. |
| `Build.WarningsNeverReject` | src/build.ts:60-75 | Without errors, a cycle never rejects, whatever its warnings, and resolves with `{entries, hash, modules, warnings}`. |
| `Build.CallbackEveryCycle` | src/build.ts:71-75 | With `stats`, `callback` is called exactly once per cycle with `{entries, hash, modules}`, even when there are errors, and the last action is `resolve`. |
| `Build.CycleSettles` | src/build.ts:75 | Every cycle with `stats` settles a pending promise. |
| `Build.CrashExactlyWithoutStats` | src/build.ts:43 | A cycle throws out of its handler exactly when `stats` is missing. |
| `Build.FirstCycleDecides` | src/build.ts:113-115 | Over any series of cycles, the promise's settlement is the first cycle's. |
| `Build.RunModeOneCycle` | src/build.ts:115 | Without `watch`, exactly the first cycle runs. |
| `Build.SetupFailureRejects` | src/build.ts:95-119 | A throw from entry discovery rejects with the raw error. A throw during setup rejects with `{entries, error}`. Neither delivers anything or throws. |
| `Build.WatchDeliversEveryCycle` | src/build.ts:113-114 | In watch mode with a callback, every cycle's hash and modules reach `callback`, in order, one per cycle. |
| `Build.EntriesCarried` | src/build.ts:40-75 | Every `reject`, `callback` and `resolve` over a series of cycles carries the same `entries`. |
| `Build.DriverCarriesEntries` | src/build.ts:95-118 | The driver passes the discovered entry list unchanged into every payload, in both modes. |
| `Build.DeliveredPayloads` | src/build.ts:71-73 | Every delivered payload is some reported cycle's modules with the driver's entries. |
| `Build.DriverDeliveries` | src/build.ts:83-120 | The driver delivers nothing after a setup failure. Otherwise every delivered payload is a reported cycle's modules with the discovered entries. |
| `Build.WatchCycles` | src/build.ts:113-114 | In watch mode the cycle handler runs once per reported cycle, in order, until one throws. The promise, the deliveries and the throw are those of `CycleSequence`. |
| `Build.Run` | src/build.ts:83-120 | The settlement, the deliveries and the exception thrown out are those of `DriverActions`. The compiler is set up only when discovery and setup succeed, started by `run` or `watch`, with in-memory output in `dev` mode. |
| `Http.WriteReply` | src/serve.ts:28-34 | The recorder gets the function's status, its headers laid over the existing ones, and its body sent. |
| `Http.ReplyHeaders` | src/handler.ts:13-17 | Every header key of the function is copied verbatim and no other header is touched. |
| `Lambda.MakeEventCopiesRequest` | src/serve.ts:77-83 | The event copies `path`, `method`, `query`, `headers` and `body` 1:1 (as src/handler.ts:59-65 also does), so distinct requests give distinct events. |
| `Handler.Callback` | src/handler.ts:7-18 | The recorders change as `CallbackStep` says: an error goes to `next` and nothing is written; a response is written; a missing response throws. |
| `Handler.CallbackRouting` | src/handler.ts:9-17 | An error is passed to `next` with no status, header or body written. A response is written and `next` is not called. |
| `Handler.PromiseCallback` | src/handler.ts:20-30 | The recorders change as `PromiseStep` says: the awaited value goes to the callback; a rejection, or a throw from that call, is caught and passed to the callback as an error. |
| `Handler.PromiseOutcomes` | src/handler.ts:24-29 | Resolution `v` is `callback(null, v)` and rejection `e` is `callback(e, null)`. A falsy return is awaited like a promise resolving to nothing and ends at `next` with a `TypeError`. |
| `Handler.MakeCalls` | src/handler.ts:68 | The function's callback calls take effect in order, and the first throw stops the run. |
| `Handler.InvokeHandler` | src/handler.ts:51-73 | The recorders and the outcome of one request are those of `Handler.Respond`. |
| `Handler.LoadFailuresRethrown` | src/handler.ts:56-72 | A load failure or a missing export is rethrown unchanged, and no 500 is written. |
| `Handler.CallbackStyleAlsoReachesNext` | src/handler.ts:25-26 | A callback-style function returning nothing gets its response written and then a `TypeError` passed to `next`. The same response returned as a promise does not reach `next`. |

## Left out

- The bundler, its configuration (`getWebpackConfig`: node version, target directory, custom config), entry discovery and the in-memory file system are not modelled. They are external. Their effect enters as inputs: the discovery outcome, an optional setup error, and the sequence of cycle reports. Watch mode covers a finite prefix of the cycles, since the real series never ends.
- The express app, the body-parser middleware and `app.listen` with its error callback (src/serve.ts:115-117, 163-192) are left out as HTTP plumbing. An exception leaving a request handler is reported as the `Thrown` outcome; what express then does with it is not modelled.
- `requireFromString` and the function code are the abstract `Loader` and `Behaviour`. A function's callback calls all happen before it returns or throws, and it does not catch exceptions thrown by `callback`. Callbacks made after the returned promise settles are not modelled.
- Logging (`console.*`, `chalk`) has no semantic effect and is left out. This includes the loops that log each compilation error or warning and the "Serving Function" line.
- Concurrency is left out. Each request, each cycle and each promise continuation is a sequential step. `CreateServer` applies the delivered payloads after the build. That order is equivalent, because the callback touches only the route table and the build promise touches none of it.
- JavaScript values are narrowed to `null`/`undefined`, a response object, or a truthy error. The model does not cover:
  - falsy error values passed to `callback`;
  - rejections with a falsy reason;
  - responses that are other non-objects;
  - a truthy non-promise return value in src/serve.ts (where `promise.then` would throw);
  - an undefined `basePath`.
- Behaviour of Node and express beyond recording is left out. Header names are not case-insensitive here. Writing after a response was sent does not raise `ERR_HTTP_HEADERS_SENT`. Status codes are not validated. The model records such repeated writes instead.
- Query strings and headers are flat string maps, and the request body is plain text. Parsed nested queries and binary bodies are not modelled.
- Serve.Server.OnCycle: requires that every entry has a module whose identifier contains its file. Where none does, the source throws at the destructuring (src/serve.ts:125) after updating the earlier entries and without clearing `firstRun`; that failure path is not modelled.
