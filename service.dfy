/** One run of a service (service/run.go) and its list of cleanup
    functions (service/cleanup.go). The signal listener and the mock-mode
    log line are left out; the worker group is the one of module Worker. */
module Service {
  import opened Status
  import W = Worker
  import H = Hooks

  /** The steps of Run, in the order they are reached. */
  datatype Step = ConfigSetup | Setup | SetupHTTP | AddServer | PreRun | RunWorkers | CleanupHook

  const HTTPServerName: string := "http_server"

  /** What the hooks of a service do during one run. */
  datatype HookResults = HookResults(
    config: MaybeError,
    setup: MaybeError,
    adds: seq<(string, W.Worker)>,
    http: H.SetupHTTPOutcome,
    prerun: MaybeError,
    cleanup: MaybeError)

  function ResultsOf(h: H.Hookstruct, newServer: H.NewServerResult): HookResults
    reads h
  {
    HookResults(
      h.InvokeConfigSetup(),
      if h.setup.Some? then h.setup.value.result else None,
      if h.setup.Some? then h.setup.value.adds else [],
      h.InvokeSetupHTTP(newServer),
      h.InvokePreRun(),
      h.InvokeCleanup())
  }

  /** The workers the group holds when it is run: those the setup hook
      added, plus the HTTP server under "http_server" when there is one. */
  function Registered(r: HookResults): map<string, W.Worker>
  {
    var added := W.AddAll(map[], r.adds);
    if r.http.server.Some? then added[HTTPServerName := r.http.server.value] else added
  }

  /** The group's result over the registered workers: nil exactly when all
      of them returned nil, otherwise the error of one of them. */
  ghost predicate GroupOutcome(workers: map<string, W.Worker>, e: MaybeError)
  {
    && (e.None? <==> forall n :: n in workers ==> workers[n].result.None?)
    && (e.Some? ==> exists n :: n in workers && workers[n].result == e)
  }

  /** The steps after worker setup, up to but not including the deferred
      cleanup, and the error they end with. `groupErr` is what the worker
      group returns if it is run. */
  function Body(r: HookResults, groupErr: MaybeError): (MaybeError, seq<Step>)
  {
    if r.http.err.Some? then (r.http.err, [SetupHTTP])
    else if r.http.server.Some? && HTTPServerName in W.AddAll(map[], r.adds) then
      (Some(AlreadyExists), [SetupHTTP, AddServer])
    else
      var steps := if r.http.server.Some? then [SetupHTTP, AddServer] else [SetupHTTP];
      if r.prerun.Some? then (r.prerun, steps + [PreRun])
      else (groupErr, steps + [PreRun, RunWorkers])
  }

  /** The whole run: the result and the steps taken. */
  function RunSpec(r: HookResults, groupErr: MaybeError): (MaybeError, seq<Step>)
  {
    if r.config.Some? then (r.config, [ConfigSetup])
    else if r.setup.Some? then (r.setup, [ConfigSetup, Setup])
    else
      var (body, steps) := Body(r, groupErr);
      (if body.Some? then body else r.cleanup, [ConfigSetup, Setup] + steps + [CleanupHook])
  }

  datatype CleanupFunc = CleanupFunc(id: nat)

  /** The order in which registered cleanups are called: last first. */
  function Reversed(s: seq<CleanupFunc>): (r: seq<CleanupFunc>)
    ensures |r| == |s|
  {
    seq(|s|, k requires 0 <= k < |s| => s[|s| - 1 - k])
  }

  class Service {
    const hooks: H.Hookstruct
    var logger: W.Logger
    var cleanups: seq<CleanupFunc>

    constructor (hooks: H.Hookstruct, logger: W.Logger)
      ensures this.hooks == hooks && this.logger == logger && cleanups == []
    {
      this.hooks := hooks;
      this.logger := logger;
      cleanups := [];
    }

    /** Run. `ctx` is the fresh cancellable context of this run and
        `newServer` what http.NewServer returns. `groupErr` tells which
        error the worker group returned when it ran. */
    method Run(ctx: W.Context, newServer: H.NewServerResult)
      returns (status: MaybeError, trace: seq<Step>, ghost groupErr: MaybeError)
      ensures RunWorkers in trace ==> GroupOutcome(Registered(ResultsOf(hooks, newServer)), groupErr)
      ensures (status, trace) == RunSpec(ResultsOf(hooks, newServer), groupErr)
    {
      ghost var r := ResultsOf(hooks, newServer);
      groupErr := None;
      trace := [ConfigSetup];
      status := hooks.InvokeConfigSetup();
      if status.Some? {
        return;
      }
      var group := new W.Group();
      trace := [ConfigSetup, Setup];
      status := hooks.InvokeSetup(group);
      if status.Some? {
        return;
      }
      assert group.workers == W.AddAll(map[], r.adds);
      var steps;
      status, steps, groupErr := RunBody(group, ctx, newServer);
      var cleanupErr := hooks.InvokeCleanup();
      if status.None? {
        status := cleanupErr;
      }
      trace := [ConfigSetup, Setup] + steps + [CleanupHook];
    }

    /** The part of Run between worker setup and the deferred cleanup. */
    method RunBody(group: W.Group, ctx: W.Context, newServer: H.NewServerResult)
      returns (err: MaybeError, steps: seq<Step>, ghost groupErr: MaybeError)
      requires group.Valid() && !group.started
      requires group.workers == W.AddAll(map[], ResultsOf(hooks, newServer).adds)
      modifies group
      ensures RunWorkers in steps ==> GroupOutcome(Registered(ResultsOf(hooks, newServer)), groupErr)
      ensures (err, steps) == Body(ResultsOf(hooks, newServer), groupErr)
    {
      ghost var r := ResultsOf(hooks, newServer);
      groupErr := None;
      steps := [SetupHTTP];
      var http := hooks.InvokeSetupHTTP(newServer);
      if http.err.Some? {
        return http.err, steps, groupErr;
      }
      if http.server.Some? {
        steps := [SetupHTTP, AddServer];
        err := group.Add(HTTPServerName, http.server.value);
        if err.Some? {
          return;
        }
      }
      assert group.workers == Registered(r);
      steps := steps + [PreRun];
      err := hooks.InvokePreRun();
      if err.Some? {
        return;
      }
      assert steps + [RunWorkers] == (steps[..|steps| - 1]) + [PreRun, RunWorkers];
      steps := steps + [RunWorkers];
      err := group.Run(ctx, logger);
      W.WaitReflectsRegistered(group);
      groupErr := err;
    }

    /** Cleanup appends a function to the list; nothing is called. */
    method Cleanup(f: CleanupFunc)
      modifies this`cleanups
      ensures cleanups == old(cleanups) + [f]
    {
      cleanups := cleanups + [f];
    }

    /** invokeCleanups: calls every registered function, last registered
        first. The list itself is left as it is. */
    method InvokeCleanups() returns (calls: seq<CleanupFunc>)
      ensures calls == Reversed(cleanups)
    {
      calls := [];
      var i := |cleanups| - 1;
      while i >= 0
        invariant -1 <= i < |cleanups|
        invariant |calls| == |cleanups| - 1 - i
        invariant forall k :: 0 <= k < |calls| ==> calls[k] == cleanups[|cleanups| - 1 - k]
      {
        calls := calls + [cleanups[i]];
        i := i - 1;
      }
    }
  }

  // Properties of a run.

  /** A failing config setup is returned at once; nothing else runs, no
      cleanup either. */
  lemma ConfigErrorStopsEverything(r: HookResults, g: MaybeError)
    requires r.config.Some?
    ensures RunSpec(r, g) == (r.config, [ConfigSetup])
  {
  }

  /** A failing worker setup is returned; no cleanup runs. */
  lemma SetupErrorSkipsCleanup(r: HookResults, g: MaybeError)
    requires r.config.None? && r.setup.Some?
    ensures RunSpec(r, g).0 == r.setup && CleanupHook !in RunSpec(r, g).1
  {
  }

  /** Once worker setup has succeeded, cleanup runs exactly once, as the
      last step, whatever happens afterwards; its error counts only when
      nothing failed before it. */
  lemma {:induction false} CleanupRunsOnceAfterSetup(r: HookResults, g: MaybeError)
    requires r.config.None? && r.setup.None?
    ensures var (status, trace) := RunSpec(r, g);
      && |trace| >= 3 && trace[|trace| - 1] == CleanupHook
      && (forall i :: 0 <= i < |trace| - 1 ==> trace[i] != CleanupHook)
      && (Body(r, g).0.Some? ==> status == Body(r, g).0)
      && (Body(r, g).0.None? ==> status == r.cleanup)
  {
    var (body, steps) := Body(r, g);
    assert CleanupHook !in steps;
    var trace := [ConfigSetup, Setup] + steps + [CleanupHook];
    forall i | 0 <= i < |trace| - 1
      ensures trace[i] != CleanupHook
    {
      if i >= 2 {
        assert trace[i] == steps[i - 2];
      }
    }
  }

  /** A failing HTTP setup is returned; pre-run and the workers are
      skipped, cleanup still runs. */
  lemma HTTPErrorSkipsPreRun(r: HookResults, g: MaybeError)
    requires r.config.None? && r.setup.None? && r.http.err.Some?
    ensures RunSpec(r, g) == (r.http.err, [ConfigSetup, Setup, SetupHTTP, CleanupHook])
  {
    assert [ConfigSetup, Setup] + [SetupHTTP] + [CleanupHook] == [ConfigSetup, Setup, SetupHTTP, CleanupHook];
  }

  /** A server under a name the setup hook already used cannot be added:
      Run returns AlreadyExists and the workers do not run. */
  lemma ServerNameTaken(r: HookResults, g: MaybeError)
    requires r.config.None? && r.setup.None? && r.http.server.Some? && r.http.err.None?
    requires exists k :: 0 <= k < |r.adds| && r.adds[k].0 == HTTPServerName
    ensures RunSpec(r, g).0 == Some(AlreadyExists)
    ensures RunWorkers !in RunSpec(r, g).1 && PreRun !in RunSpec(r, g).1
  {
    assert HTTPServerName in W.AddAll(map[], r.adds);
  }

  /** A failing pre-run is returned; the workers are not run; cleanup still
      runs. (When the server name is taken, ServerNameTaken applies
      instead: pre-run is not reached.) */
  lemma PreRunErrorSkipsWorkers(r: HookResults, g: MaybeError)
    requires r.config.None? && r.setup.None? && r.http.err.None? && r.prerun.Some?
    requires r.http.server.Some? ==> HTTPServerName !in W.AddAll(map[], r.adds)
    ensures RunSpec(r, g).0 == r.prerun
    ensures RunWorkers !in RunSpec(r, g).1 && CleanupHook in RunSpec(r, g).1
  {
  }

  /** When every step succeeds, Run returns nil exactly when every
      registered worker and the cleanup hook returned nil, and otherwise
      the error of a worker, or the cleanup error when all workers succeeded. */
  lemma {:induction false} AllStepsSucceed(r: HookResults, g: MaybeError)
    requires r.config.None? && r.setup.None? && r.http.err.None? && r.prerun.None?
    requires r.http.server.Some? ==> HTTPServerName !in W.AddAll(map[], r.adds)
    requires GroupOutcome(Registered(r), g)
    ensures RunWorkers in RunSpec(r, g).1
    ensures RunSpec(r, g).0.None? <==>
      (forall n :: n in Registered(r) ==> Registered(r)[n].result.None?) && r.cleanup.None?
    ensures RunSpec(r, g).0.Some? && g.Some? ==>
      exists n :: n in Registered(r) && Registered(r)[n].result == RunSpec(r, g).0
    ensures g.None? ==> RunSpec(r, g).0 == r.cleanup
  {
    var steps := if r.http.server.Some? then [SetupHTTP, AddServer] else [SetupHTTP];
    assert Body(r, g) == (g, steps + [PreRun, RunWorkers]);
    assert RunSpec(r, g).1 == [ConfigSetup, Setup] + steps + [PreRun, RunWorkers] + [CleanupHook];
    assert RunSpec(r, g).1[|steps| + 3] == RunWorkers;
  }

  // Properties of the cleanup list.

  lemma {:induction false} ReversedAppend(s: seq<CleanupFunc>, f: CleanupFunc)
    ensures Reversed(s + [f]) == [f] + Reversed(s)
  {
    var a, b := Reversed(s + [f]), [f] + Reversed(s);
    assert |a| == |b|;
    forall k | 0 <= k < |a|
      ensures a[k] == b[k]
    {
      if k > 0 {
        assert b[k] == Reversed(s)[k - 1] == s[|s| - k];
      }
    }
  }

  /** Every registered cleanup is called exactly as often as it was
      registered: the calls are a permutation of the list. */
  lemma {:induction false} CallsArePermutation(s: seq<CleanupFunc>)
    ensures multiset(Reversed(s)) == multiset(s)
    decreases |s|
  {
    if s != [] {
      var init, last := s[..|s| - 1], s[|s| - 1];
      assert s == init + [last];
      ReversedAppend(init, last);
      CallsArePermutation(init);
    }
  }

  /** The trace of the cleanup test: cleanups registered 1, 2, 3, 4, 5 in
      that order... are called 5, 4, 3, 2, 1. */
  method CleanupOrderExample() returns (calls: seq<CleanupFunc>)
    ensures calls == [CleanupFunc(5), CleanupFunc(4), CleanupFunc(3), CleanupFunc(2), CleanupFunc(1)]
  {
    var h := new H.Hookstruct();
    var s := new Service(h, W.Base(0));
    s.Cleanup(CleanupFunc(1));
    s.Cleanup(CleanupFunc(2));
    s.Cleanup(CleanupFunc(3));
    s.Cleanup(CleanupFunc(4));
    s.Cleanup(CleanupFunc(5));
    calls := s.InvokeCleanups();
  }
}
