/** The compilation driver of src/build.ts. The bundler is abstract: setting
    it up either throws or yields a compiler, and each compilation cycle it
    completes is a `CycleReport` from a given sequence. The driver's promise
    is a settle-once cell; the per-cycle handler (`getCallback`) performs an
    ordered list of actions on it, given by `CycleActions`. */
module Build {
  import opened Common

  /** The `{errors, hash, modules, warnings}` part of `stats.toJson(...)`;
      errors and warnings as the bundler renders them. */
  datatype Stats = Stats(errors: seq<string>, hash: string, modules: seq<CompiledModule>, warnings: seq<string>)

  /** The `(err, stats)` pair the bundler passes its handler at the end of a
      cycle; either may be missing. */
  datatype CycleReport = CycleReport(err: Option<Failure>, stats: Option<Stats>)

  /** The value the build promise resolves with. */
  datatype ResolveArgs = ResolveArgs(entries: seq<Entry>, hash: string, modules: seq<CompiledModule>, warnings: seq<string>)

  /** The reasons the build promise rejects with: `{entries, error}`,
      `{entries, errors, hash}`, or the raw error thrown by entry discovery,
      which runs outside the `try` of the promise executor. */
  datatype Rejection =
    | WithError(entries: seq<Entry>, error: Failure)
    | WithErrors(entries: seq<Entry>, errors: seq<string>, hash: string)
    | ExecutorThrew(error: Failure)

  /** The argument of the per-cycle `callback`: no warnings. */
  datatype CallbackPayload = CallbackPayload(entries: seq<Entry>, hash: string, modules: seq<CompiledModule>)

  datatype Settlement = Pending | Resolved(value: ResolveArgs) | Rejected(reason: Rejection)

  /** One side effect of the cycle handler, in the order it happens. `Crash`
      is an exception thrown out of the handler into the bundler. */
  datatype Action =
    | Reject(rejection: Rejection)
    | Deliver(payload: CallbackPayload)
    | Resolve(args: ResolveArgs)
    | Crash(error: Failure)

  /** The `TypeError` raised by `stats.toJson` when `stats` is missing. */
  const STATS_MISSING := Failure("TypeError: Cannot read properties of undefined (reading 'toJson')")

  /** Outcome of entry discovery (`getEntries`), which may throw. */
  datatype EntriesOutcome = Entries(list: seq<Entry>) | EntriesThrew(error: Failure)

  datatype Mode = RunOnce | Watching
  datatype OutputFs = DiskFs | MemoryFs

  /** The compiler the driver set up: how it was started and where its
      output goes. */
  datatype Compiler = Compiler(mode: Mode, outputFs: OutputFs)

  // ------------------------------------------------------------------
  // Settle-once semantics

  /** A promise settles on the first `resolve` or `reject`; every later one,
      and every action that is neither, leaves it as it is. */
  function After(s: Settlement, a: Action): Settlement
  {
    if !s.Pending? then s
    else match a
      case Reject(r) => Rejected(r)
      case Resolve(v) => Resolved(v)
      case _ => s
  }

  function Settle(s: Settlement, acts: seq<Action>): Settlement
    decreases |acts|
  {
    if acts == [] then s else Settle(After(s, acts[0]), acts[1..])
  }

  /** The payloads handed to `callback`, in order. */
  function Deliveries(acts: seq<Action>): seq<CallbackPayload>
    decreases |acts|
  {
    if acts == [] then []
    else (if acts[0].Deliver? then [acts[0].payload] else []) + Deliveries(acts[1..])
  }

  /** The first exception thrown out of the handler, if any. */
  function CrashOf(acts: seq<Action>): Option<Failure>
    decreases |acts|
  {
    if acts == [] then None
    else if acts[0].Crash? then Some(acts[0].error)
    else CrashOf(acts[1..])
  }

  lemma {:induction false} SettleAppend(s: Settlement, a: seq<Action>, b: seq<Action>)
    ensures Settle(s, a + b) == Settle(Settle(s, a), b)
    decreases |a|
  {
    if a != [] {
      assert (a + b)[1..] == a[1..] + b;
      SettleAppend(After(s, a[0]), a[1..], b);
    } else {
      assert a + b == b;
    }
  }

  lemma {:induction false} DeliveriesAppend(a: seq<Action>, b: seq<Action>)
    ensures Deliveries(a + b) == Deliveries(a) + Deliveries(b)
    decreases |a|
  {
    if a != [] {
      assert (a + b)[1..] == a[1..] + b;
      DeliveriesAppend(a[1..], b);
    } else {
      assert a + b == b;
    }
  }

  lemma {:induction false} CrashOfAppend(a: seq<Action>, b: seq<Action>)
    ensures CrashOf(a + b) == if CrashOf(a).Some? then CrashOf(a) else CrashOf(b)
    decreases |a|
  {
    if a != [] {
      assert (a + b)[1..] == a[1..] + b;
      CrashOfAppend(a[1..], b);
    } else {
      assert a + b == b;
    }
  }

  /** A settled promise stays as it is, whatever is done to it later. */
  lemma {:induction false} SettledStays(s: Settlement, acts: seq<Action>)
    requires !s.Pending?
    ensures Settle(s, acts) == s
    decreases |acts|
  {
    if acts != [] {
      SettledStays(After(s, acts[0]), acts[1..]);
    }
  }

  /** A pending promise ends Rejected(r) exactly when `reject(r)` is the
      first settling action: it comes before every `resolve`. */
  lemma {:induction false} RejectedByFirstReject(acts: seq<Action>, r: Rejection)
    ensures Settle(Pending, acts) == Rejected(r) <==>
            exists i :: 0 <= i < |acts| && acts[i] == Reject(r) &&
                        forall j :: 0 <= j < i ==> !acts[j].Resolve? && !acts[j].Reject?
    decreases |acts|
  {
    if acts != [] {
      var a := acts[0];
      if a.Reject? || a.Resolve? {
        SettledStays(After(Pending, a), acts[1..]);
        if Settle(Pending, acts) == Rejected(r) {
          assert acts[0] == Reject(r);
        }
      } else {
        RejectedByFirstReject(acts[1..], r);
        if Settle(Pending, acts) == Rejected(r) {
          var i :| 0 <= i < |acts[1..]| && acts[1..][i] == Reject(r) &&
                   forall j :: 0 <= j < i ==> !acts[1..][j].Resolve? && !acts[1..][j].Reject?;
          assert acts[i + 1] == Reject(r);
          assert forall j :: 0 <= j < i + 1 ==> !acts[j].Resolve? && !acts[j].Reject? by {
            forall j | 0 <= j < i + 1 ensures !acts[j].Resolve? && !acts[j].Reject? {
              if j > 0 { assert acts[j] == acts[1..][j - 1]; }
            }
          }
        }
        if exists i :: 0 <= i < |acts| && acts[i] == Reject(r) &&
                       forall j :: 0 <= j < i ==> !acts[j].Resolve? && !acts[j].Reject? {
          var i :| 0 <= i < |acts| && acts[i] == Reject(r) &&
                   forall j :: 0 <= j < i ==> !acts[j].Resolve? && !acts[j].Reject?;
          assert i > 0;
          assert acts[1..][i - 1] == Reject(r);
          assert forall j :: 0 <= j < i - 1 ==> !acts[1..][j].Resolve? && !acts[1..][j].Reject? by {
            forall j | 0 <= j < i - 1 ensures !acts[1..][j].Resolve? && !acts[1..][j].Reject? {
              assert acts[1..][j] == acts[j + 1];
            }
          }
        }
      }
    }
  }

  /** The settle-once cell behind `new Promise((resolve, reject) => ...)`. */
  class BuildPromise {
    var state: Settlement

    constructor ()
      ensures state == Pending
    {
      state := Pending;
    }

    method Resolve(v: ResolveArgs)
      modifies this
      ensures state == if old(state).Pending? then Resolved(v) else old(state)
    {
      if state.Pending? {
        state := Resolved(v);
      }
    }

    method Reject(r: Rejection)
      modifies this
      ensures state == if old(state).Pending? then Rejected(r) else old(state)
    {
      if state.Pending? {
        state := Rejected(r);
      }
    }
  }

  // ------------------------------------------------------------------
  // One cycle: the handler returned by getCallback

  /** The side effects of the cycle handler for one report, in order. There
      is no `return` after either `reject`, so an erroneous cycle still runs
      on to `callback` and `resolve`; a missing `stats` throws at
      `stats.toJson`. */
  function CycleActions(entries: seq<Entry>, hasCallback: bool, report: CycleReport): seq<Action>
  {
    var onErr := if report.err.Some? then [Reject(WithError(entries, report.err.value))] else [];
    match report.stats
    case None => onErr + [Crash(STATS_MISSING)]
    case Some(s) =>
      onErr
      + (if |s.errors| > 0 then [Reject(WithErrors(entries, s.errors, s.hash))] else [])
      + (if hasCallback then [Deliver(CallbackPayload(entries, s.hash, s.modules))] else [])
      + [Resolve(ResolveArgs(entries, s.hash, s.modules, s.warnings))]
  }

  /** The cycle handler, against the promise cell and an optional callback;
      what was passed to `callback` is returned, as is an exception thrown
      out of the handler. Logging is left out. */
  method HandleCycle(entries: seq<Entry>, hasCallback: bool, promise: BuildPromise, report: CycleReport)
    returns (delivered: seq<CallbackPayload>, crash: Option<Failure>)
    modifies promise
    ensures promise.state == Settle(old(promise.state), CycleActions(entries, hasCallback, report))
    ensures delivered == Deliveries(CycleActions(entries, hasCallback, report))
    ensures crash == CrashOf(CycleActions(entries, hasCallback, report))
  {
    ghost var s0 := promise.state;
    ghost var done: seq<Action> := [];
    delivered, crash := [], None;
    if report.err.Some? {
      promise.Reject(WithError(entries, report.err.value));
      done := [Reject(WithError(entries, report.err.value))];
    }
    assert promise.state == Settle(s0, done);
    if report.stats.None? {
      crash := Some(STATS_MISSING);
      SettleAppend(s0, done, [Crash(STATS_MISSING)]);
      DeliveriesAppend(done, [Crash(STATS_MISSING)]);
      CrashOfAppend(done, [Crash(STATS_MISSING)]);
      return;
    }
    var s := report.stats.value;
    var step: seq<Action> := [];
    if |s.errors| > 0 {
      step := [Reject(WithErrors(entries, s.errors, s.hash))];
      SettleAppend(s0, done, step);
      promise.Reject(WithErrors(entries, s.errors, s.hash));
      DeliveriesAppend(done, step);
      CrashOfAppend(done, step);
      done := done + step;
    }
    if hasCallback {
      step := [Deliver(CallbackPayload(entries, s.hash, s.modules))];
      delivered := [CallbackPayload(entries, s.hash, s.modules)];
      SettleAppend(s0, done, step);
      DeliveriesAppend(done, step);
      CrashOfAppend(done, step);
      done := done + step;
    }
    step := [Resolve(ResolveArgs(entries, s.hash, s.modules, s.warnings))];
    SettleAppend(s0, done, step);
    DeliveriesAppend(done, step);
    CrashOfAppend(done, step);
    promise.Resolve(ResolveArgs(entries, s.hash, s.modules, s.warnings));
    done := done + step;
    assert done == CycleActions(entries, hasCallback, report);
  }

  /** A bundler-level error rejects with `{entries, error}` first of all;
      without `stats` the handler then throws at `stats.toJson`. */
  lemma BundlerErrorRejectsFirst(entries: seq<Entry>, hasCallback: bool, report: CycleReport, e: Failure)
    requires report.err == Some(e)
    ensures CycleActions(entries, hasCallback, report)[0] == Reject(WithError(entries, e))
    ensures Settle(Pending, CycleActions(entries, hasCallback, report)) == Rejected(WithError(entries, e))
    ensures report.stats.None? ==>
              CycleActions(entries, hasCallback, report) == [Reject(WithError(entries, e)), Crash(STATS_MISSING)]
  {
    var acts := CycleActions(entries, hasCallback, report);
    SettledStays(Rejected(WithError(entries, e)), acts[1..]);
  }

  /** Compilation errors reject before anything resolves: a pending promise
      ends Rejected, with `{entries, errors, hash}` unless a bundler error
      came first. */
  lemma CompileErrorsReject(entries: seq<Entry>, hasCallback: bool, report: CycleReport)
    requires report.stats.Some? && |report.stats.value.errors| > 0
    ensures var s := report.stats.value;
            Settle(Pending, CycleActions(entries, hasCallback, report)) ==
              Rejected(if report.err.Some? then WithError(entries, report.err.value)
                       else WithErrors(entries, s.errors, s.hash))
  {
    var acts := CycleActions(entries, hasCallback, report);
    SettledStays(After(Pending, acts[0]), acts[1..]);
  }

  /** A cycle without a bundler error or compilation errors never rejects,
      whatever its warnings, and resolves with the warnings included. */
  lemma WarningsNeverReject(entries: seq<Entry>, hasCallback: bool, report: CycleReport)
    requires report.err.None? && report.stats.Some? && |report.stats.value.errors| == 0
    ensures forall a :: a in CycleActions(entries, hasCallback, report) ==> !a.Reject?
    ensures var s := report.stats.value;
            Settle(Pending, CycleActions(entries, hasCallback, report)) ==
              Resolved(ResolveArgs(entries, s.hash, s.modules, s.warnings))
  {
    var s := report.stats.value;
    var acts := CycleActions(entries, hasCallback, report);
    var r := ResolveArgs(entries, s.hash, s.modules, s.warnings);
    if hasCallback {
      assert acts == [Deliver(CallbackPayload(entries, s.hash, s.modules)), Resolve(r)];
      assert acts[1..] == [Resolve(r)];
      assert Settle(Pending, acts) == Settle(Pending, acts[1..]);
      assert acts[1..][1..] == [];
      assert Settle(Pending, acts[1..]) == Settle(Resolved(r), []);
    } else {
      assert acts == [Resolve(r)];
    }
  }

  /** With `stats` present, `callback` (when given) gets exactly one payload
      per cycle, without warnings, even when the cycle has errors; and the
      cycle ends with `resolve` of the full result. */
  lemma CallbackEveryCycle(entries: seq<Entry>, hasCallback: bool, report: CycleReport)
    requires report.stats.Some?
    ensures var s := report.stats.value;
            Deliveries(CycleActions(entries, hasCallback, report)) ==
              if hasCallback then [CallbackPayload(entries, s.hash, s.modules)] else []
    ensures var acts := CycleActions(entries, hasCallback, report);
            var s := report.stats.value;
            acts[|acts| - 1] == Resolve(ResolveArgs(entries, s.hash, s.modules, s.warnings))
    ensures CrashOf(CycleActions(entries, hasCallback, report)).None?
  {
    var s := report.stats.value;
    var onErr := if report.err.Some? then [Reject(WithError(entries, report.err.value))] else [];
    var errs := if |s.errors| > 0 then [Reject(WithErrors(entries, s.errors, s.hash))] else [];
    var cb := if hasCallback then [Deliver(CallbackPayload(entries, s.hash, s.modules))] else [];
    var res := [Resolve(ResolveArgs(entries, s.hash, s.modules, s.warnings))];
    assert CycleActions(entries, hasCallback, report) == onErr + errs + cb + res;
    DeliveriesAppend(onErr + errs + cb, res);
    DeliveriesAppend(onErr + errs, cb);
    DeliveriesAppend(onErr, errs);
    CrashOfAppend(onErr + errs + cb, res);
    CrashOfAppend(onErr + errs, cb);
    CrashOfAppend(onErr, errs);
  }

  /** Every cycle with `stats` settles a pending promise. */
  lemma CycleSettles(entries: seq<Entry>, hasCallback: bool, report: CycleReport)
    requires report.stats.Some?
    ensures !Settle(Pending, CycleActions(entries, hasCallback, report)).Pending?
  {
    var acts := CycleActions(entries, hasCallback, report);
    CallbackEveryCycle(entries, hasCallback, report);
    SettleAppend(Pending, acts[..|acts| - 1], [acts[|acts| - 1]]);
    assert acts[..|acts| - 1] + [acts[|acts| - 1]] == acts;
  }

  /** A cycle throws out of its handler exactly when `stats` is missing. */
  lemma CrashExactlyWithoutStats(entries: seq<Entry>, hasCallback: bool, report: CycleReport)
    ensures CrashOf(CycleActions(entries, hasCallback, report)) ==
              if report.stats.None? then Some(STATS_MISSING) else None
  {
    if report.stats.Some? {
      CallbackEveryCycle(entries, hasCallback, report);
    }
  }

  // ------------------------------------------------------------------
  // The driver: run once, or watch

  /** The handler's actions over a series of cycles in watch mode; a throw
      out of the handler ends the series. */
  function CycleSequence(entries: seq<Entry>, hasCallback: bool, reports: seq<CycleReport>): seq<Action>
    decreases |reports|
  {
    if reports == [] then []
    else
      var acts := CycleActions(entries, hasCallback, reports[0]);
      if reports[0].stats.None? then acts
      else acts + CycleSequence(entries, hasCallback, reports[1..])
  }

  /** The cycles the compiler reports: all of them when watching, only the
      first when run once. */
  function CyclesRun(watch: bool, reports: seq<CycleReport>): seq<CycleReport>
  {
    if watch || |reports| <= 1 then reports else reports[..1]
  }

  /** Everything the default export's promise executor causes, in order:
      a throw from entry discovery rejects with the raw error; a synchronous
      throw from configuration, compiler creation or starting the compiler
      rejects with `{entries, error}`; otherwise the cycles run. */
  function DriverActions(entries: EntriesOutcome, setupError: Option<Failure>, watch: bool,
                         hasCallback: bool, reports: seq<CycleReport>): seq<Action>
  {
    match entries
    case EntriesThrew(e) => [Reject(ExecutorThrew(e))]
    case Entries(es) =>
      if setupError.Some? then [Reject(WithError(es, setupError.value))]
      else CycleSequence(es, hasCallback, CyclesRun(watch, reports))
  }

  /** The compiler set up by the executor, if setup got that far. */
  function CompilerOf(entries: EntriesOutcome, setupError: Option<Failure>, dev: bool, watch: bool): Option<Compiler>
  {
    if entries.EntriesThrew? || setupError.Some? then None
    else Some(Compiler(if watch then Watching else RunOnce, if dev then MemoryFs else DiskFs))
  }

  /** The build promise is settled by the first cycle alone, in both modes:
      every later cycle in watch mode only reaches `callback`. */
  lemma {:induction false} FirstCycleDecides(es: seq<Entry>, hasCallback: bool, reports: seq<CycleReport>)
    requires |reports| > 0
    ensures Settle(Pending, CycleSequence(es, hasCallback, reports)) ==
              Settle(Pending, CycleActions(es, hasCallback, reports[0]))
  {
    var acts := CycleActions(es, hasCallback, reports[0]);
    if reports[0].stats.Some? {
      SettleAppend(Pending, acts, CycleSequence(es, hasCallback, reports[1..]));
      CycleSettles(es, hasCallback, reports[0]);
      SettledStays(Settle(Pending, acts), CycleSequence(es, hasCallback, reports[1..]));
    }
  }

  /** Run mode handles exactly the first cycle. */
  lemma RunModeOneCycle(es: seq<Entry>, hasCallback: bool, reports: seq<CycleReport>)
    requires |reports| > 0
    ensures DriverActions(Entries(es), None, false, hasCallback, reports) ==
              CycleActions(es, hasCallback, reports[0])
  {
    var acts := CycleActions(es, hasCallback, reports[0]);
    assert CyclesRun(false, reports) == [reports[0]];
    assert [reports[0]][1..] == [];
    if reports[0].stats.Some? {
      assert CycleSequence(es, hasCallback, [reports[0]]) == acts + CycleSequence(es, hasCallback, []);
      assert acts + [] == acts;
    }
  }

  /** The fatal paths: nothing runs, no callback happens, and the promise
      rejects with the thrown error. */
  lemma SetupFailureRejects(entries: EntriesOutcome, setupError: Option<Failure>, watch: bool,
                            hasCallback: bool, reports: seq<CycleReport>)
    requires entries.EntriesThrew? || setupError.Some?
    ensures var acts := DriverActions(entries, setupError, watch, hasCallback, reports);
            Deliveries(acts) == [] && CrashOf(acts).None? &&
            Settle(Pending, acts) ==
              if entries.EntriesThrew? then Rejected(ExecutorThrew(entries.error))
              else Rejected(WithError(entries.list, setupError.value))
  {
  }

  /** In watch mode, with a callback and every cycle reporting `stats`,
      `callback` is called once per cycle, in order, with that cycle's hash
      and modules, errors or not. */
  lemma {:induction false} WatchDeliversEveryCycle(es: seq<Entry>, reports: seq<CycleReport>)
    requires forall i :: 0 <= i < |reports| ==> reports[i].stats.Some?
    ensures var d := Deliveries(CycleSequence(es, true, reports));
            |d| == |reports| &&
            forall i :: 0 <= i < |reports| ==>
              d[i] == CallbackPayload(es, reports[i].stats.value.hash, reports[i].stats.value.modules)
    decreases |reports|
  {
    if reports != [] {
      var acts := CycleActions(es, true, reports[0]);
      var rest := CycleSequence(es, true, reports[1..]);
      var p0 := CallbackPayload(es, reports[0].stats.value.hash, reports[0].stats.value.modules);
      assert CycleSequence(es, true, reports) == acts + rest;
      DeliveriesAppend(acts, rest);
      CallbackEveryCycle(es, true, reports[0]);
      WatchDeliversEveryCycle(es, reports[1..]);
      var d := Deliveries(CycleSequence(es, true, reports));
      assert d == [p0] + Deliveries(rest);
      forall i | 0 < i < |reports|
        ensures d[i] == CallbackPayload(es, reports[i].stats.value.hash, reports[i].stats.value.modules)
      {
        assert d[i] == Deliveries(rest)[i - 1];
        assert reports[i] == reports[1..][i - 1];
      }
    }
  }

  /** The same `entries` value is carried by every `reject`, `callback` and
      `resolve` of a cycle. */
  predicate Carries(es: seq<Entry>, a: Action)
  {
    match a
    case Reject(r) => r.ExecutorThrew? || r.entries == es
    case Deliver(p) => p.entries == es
    case Resolve(v) => v.entries == es
    case Crash(_) => true
  }

  lemma {:induction false} EntriesCarried(es: seq<Entry>, hasCallback: bool, reports: seq<CycleReport>)
    ensures forall a :: a in CycleSequence(es, hasCallback, reports) ==> Carries(es, a)
    decreases |reports|
  {
    if reports != [] {
      EntriesCarried(es, hasCallback, reports[1..]);
    }
  }

  /** Once entry discovery has succeeded, every payload the driver produces,
      in either mode, carries that same entry list. */
  lemma DriverCarriesEntries(es: seq<Entry>, setupError: Option<Failure>, watch: bool,
                             hasCallback: bool, reports: seq<CycleReport>)
    ensures forall a :: a in DriverActions(Entries(es), setupError, watch, hasCallback, reports) ==> Carries(es, a)
  {
    EntriesCarried(es, hasCallback, CyclesRun(watch, reports));
  }

  /** Whatever reaches `callback` is some reported cycle's hash and modules,
      with the driver's own entries. */
  lemma {:induction false} DeliveredPayloads(es: seq<Entry>, hasCallback: bool, reports: seq<CycleReport>)
    ensures forall p :: p in Deliveries(CycleSequence(es, hasCallback, reports)) ==>
              p.entries == es &&
              exists r :: r in reports && r.stats.Some? && p.modules == r.stats.value.modules
    decreases |reports|
  {
    if reports != [] {
      var acts := CycleActions(es, hasCallback, reports[0]);
      if reports[0].stats.Some? {
        var rest := CycleSequence(es, hasCallback, reports[1..]);
        DeliveriesAppend(acts, rest);
        CallbackEveryCycle(es, hasCallback, reports[0]);
        DeliveredPayloads(es, hasCallback, reports[1..]);
        assert forall r :: r in reports[1..] ==> r in reports;
      } else {
        var onErr := if reports[0].err.Some? then [Reject(WithError(es, reports[0].err.value))] else [];
        DeliveriesAppend(onErr, [Crash(STATS_MISSING)]);
      }
    }
  }

  /** The same for the whole driver; nothing is delivered unless entry
      discovery and setup succeeded. */
  lemma DriverDeliveries(entries: EntriesOutcome, setupError: Option<Failure>, watch: bool,
                         hasCallback: bool, reports: seq<CycleReport>)
    ensures forall p :: p in Deliveries(DriverActions(entries, setupError, watch, hasCallback, reports)) ==>
              entries.Entries? && setupError.None? && p.entries == entries.list &&
              exists r :: r in reports && r.stats.Some? && p.modules == r.stats.value.modules
  {
    if entries.Entries? && setupError.None? {
      DeliveredPayloads(entries.list, hasCallback, CyclesRun(watch, reports));
      assert forall r :: r in CyclesRun(watch, reports) ==> r in reports;
    }
  }

  /** One step through the remaining cycles: a cycle without `stats` ends
      the series with its crash; any other cycle is followed by the rest. */
  lemma CycleSequenceStep(es: seq<Entry>, hasCallback: bool, s: Settlement, reports: seq<CycleReport>, i: nat)
    requires i < |reports|
    ensures var acts := CycleActions(es, hasCallback, reports[i]);
            var cur := CycleSequence(es, hasCallback, reports[i..]);
            var rest := CycleSequence(es, hasCallback, reports[i + 1..]);
            if reports[i].stats.None? then cur == acts && CrashOf(acts) == Some(STATS_MISSING)
            else CrashOf(acts) == None && CrashOf(cur) == CrashOf(rest) &&
                 Settle(s, cur) == Settle(Settle(s, acts), rest) &&
                 Deliveries(cur) == Deliveries(acts) + Deliveries(rest)
  {
    var acts := CycleActions(es, hasCallback, reports[i]);
    var rest := CycleSequence(es, hasCallback, reports[i + 1..]);
    assert reports[i..][0] == reports[i] && reports[i..][1..] == reports[i + 1..];
    CrashExactlyWithoutStats(es, hasCallback, reports[i]);
    if reports[i].stats.Some? {
      SettleAppend(s, acts, rest);
      DeliveriesAppend(acts, rest);
      CrashOfAppend(acts, rest);
    }
  }

  /** `compiler.watch`: the cycle handler runs once per reported cycle, in
      order, until a cycle throws out of it. */
  method WatchCycles(es: seq<Entry>, hasCallback: bool, promise: BuildPromise, reports: seq<CycleReport>)
    returns (deliveries: seq<CallbackPayload>, crash: Option<Failure>)
    modifies promise
    ensures promise.state == Settle(old(promise.state), CycleSequence(es, hasCallback, reports))
    ensures deliveries == Deliveries(CycleSequence(es, hasCallback, reports))
    ensures crash == CrashOf(CycleSequence(es, hasCallback, reports))
    decreases |reports|
  {
    if reports == [] {
      return [], None;
    }
    CycleSequenceStep(es, hasCallback, promise.state, reports, 0);
    assert reports[0..] == reports;
    var d, c := HandleCycle(es, hasCallback, promise, reports[0]);
    if c.Some? {
      return d, c;
    }
    var more, last := WatchCycles(es, hasCallback, promise, reports[1..]);
    deliveries, crash := d + more, last;
  }

  /** The default export: entry discovery, compiler setup (the `dev` flag
      sends output to memory), then one cycle (`run`) or every cycle
      (`watch`) through the cycle handler, against one build promise. */
  method Run(entries: EntriesOutcome, setupError: Option<Failure>, reports: seq<CycleReport>,
             hasCallback: bool, dev: bool := false, watch: bool := false)
    returns (settlement: Settlement, deliveries: seq<CallbackPayload>, compiler: Option<Compiler>, crash: Option<Failure>)
    ensures settlement == Settle(Pending, DriverActions(entries, setupError, watch, hasCallback, reports))
    ensures deliveries == Deliveries(DriverActions(entries, setupError, watch, hasCallback, reports))
    ensures crash == CrashOf(DriverActions(entries, setupError, watch, hasCallback, reports))
    ensures compiler == CompilerOf(entries, setupError, dev, watch)
  {
    var promise := new BuildPromise();
    deliveries, compiler, crash := [], None, None;
    if entries.EntriesThrew? {
      promise.Reject(ExecutorThrew(entries.error));
      settlement := promise.state;
      return;
    }
    var es := entries.list;
    if setupError.Some? {
      promise.Reject(WithError(es, setupError.value));
      settlement := promise.state;
      return;
    }
    compiler := Some(Compiler(if watch then Watching else RunOnce, if dev then MemoryFs else DiskFs));
    if !watch {
      if |reports| > 0 {
        RunModeOneCycle(es, hasCallback, reports);
        deliveries, crash := HandleCycle(es, hasCallback, promise, reports[0]);
      }
    } else {
      deliveries, crash := WatchCycles(es, hasCallback, promise, reports);
    }
    settlement := promise.state;
  }
}
