/** The service hooks (service/hook.go): one slot per kind of hook, and the
    invoke operations that call a hook when one is set. A hook is modelled
    by what it returns (and, for the setup hook, by the workers it adds). */
module Hooks {
  import opened Status
  import W = Worker

  /** A user hook, identified by a tag, and the error it returns. */
  datatype Hook = Hook(tag: nat, result: MaybeError)

  /** The setup hook: the workers it adds to the group, in order, and the
      error it returns afterwards. */
  datatype SetupHook = SetupHook(tag: nat, adds: seq<(string, W.Worker)>, result: MaybeError)

  /** An HTTP server is a worker of the group once added to it. */
  type Server = W.Worker

  /** What creating an HTTP server returns. */
  datatype NewServerResult = Created(server: Server) | CreateFailed(err: Error)

  /** What invokeSetupHTTP returns, and the server the hook was called
      with, if it was called. */
  datatype SetupHTTPOutcome = SetupHTTPOutcome(server: Option<Server>, err: MaybeError, hookCalledWith: Option<Server>)

  class Hookstruct {
    var cleanup: Option<Hook>
    var configSetup: Option<Hook>
    var prerun: Option<Hook>
    var setup: Option<SetupHook>
    var setupHTTP: Option<Hook>
    /** A replacement for http.NewServer, set by tests. */
    var httpNewServer: Option<NewServerResult>

    constructor ()
      ensures cleanup.None? && configSetup.None? && prerun.None? && setup.None?
      ensures setupHTTP.None? && httpNewServer.None?
    {
      cleanup, configSetup, prerun, setup, setupHTTP, httpNewServer := None, None, None, None, None, None;
    }

    // Each registration overwrites its own slot and no other.

    method Cleanup(f: Hook)
      modifies this`cleanup
      ensures cleanup == Some(f)
    {
      cleanup := Some(f);
    }

    method ConfigSetup(f: Hook)
      modifies this`configSetup
      ensures configSetup == Some(f)
    {
      configSetup := Some(f);
    }

    method PreRun(f: Hook)
      modifies this`prerun
      ensures prerun == Some(f)
    {
      prerun := Some(f);
    }

    method Setup(f: SetupHook)
      modifies this`setup
      ensures setup == Some(f)
    {
      setup := Some(f);
    }

    method SetupHTTP(f: Hook)
      modifies this`setupHTTP
      ensures setupHTTP == Some(f)
    {
      setupHTTP := Some(f);
    }

    function InvokeCleanup(): (r: MaybeError)
      reads this
      ensures cleanup.None? ==> r == None
      ensures cleanup.Some? ==> r == cleanup.value.result
    {
      if cleanup.Some? then cleanup.value.result else None
    }

    function InvokeConfigSetup(): (r: MaybeError)
      reads this
      ensures configSetup.None? ==> r == None
      ensures configSetup.Some? ==> r == configSetup.value.result
    {
      if configSetup.Some? then configSetup.value.result else None
    }

    function InvokePreRun(): (r: MaybeError)
      reads this
      ensures prerun.None? ==> r == None
      ensures prerun.Some? ==> r == prerun.value.result
    {
      if prerun.Some? then prerun.value.result else None
    }

    /** invokeSetup: the setup hook, when set, adds its workers to the group
        and then returns its own result. */
    method InvokeSetup(g: W.Group) returns (err: MaybeError)
      requires g.Valid()
      modifies g
      ensures g.Valid()
      ensures g.started == old(g.started)
      ensures setup.None? ==> err == None && g.workers == old(g.workers)
      ensures setup.Some? ==> err == setup.value.result
      ensures setup.Some? ==> g.workers == W.AddAll(old(g.workers), setup.value.adds)
      ensures !g.started ==> g.launched == []
    {
      if setup.None? {
        return None;
      }
      var adds := setup.value.adds;
      var i := 0;
      while i < |adds|
        invariant 0 <= i <= |adds|
        invariant g.Valid() && g.started == old(g.started)
        invariant W.AddAll(g.workers, adds[i..]) == W.AddAll(old(g.workers), adds)
      {
        ghost var before := g.workers;
        W.AddAllStep(before, adds[i..]);
        assert adds[i..][1..] == adds[i + 1..];
        var _ := g.Add(adds[i].0, adds[i].1);
        i := i + 1;
      }
      err := setup.value.result;
    }

    /** invokeSetupHTTP. `newServer` is what http.NewServer returns; a
        replacement set in httpNewServer takes its place. */
    function InvokeSetupHTTP(newServer: NewServerResult): (r: SetupHTTPOutcome)
      reads this
      ensures setupHTTP.None? ==> r == SetupHTTPOutcome(None, None, None)
      ensures setupHTTP.Some? ==>
        var made := if httpNewServer.Some? then httpNewServer.value else newServer;
        && (made.CreateFailed? ==> r == SetupHTTPOutcome(None, Some(made.err), None))
        && (made.Created? ==> r.hookCalledWith == Some(made.server))
        && (made.Created? && setupHTTP.value.result.Some? ==> r.server.None? && r.err == setupHTTP.value.result)
        && (made.Created? && setupHTTP.value.result.None? ==> r.server == Some(made.server) && r.err.None?)
      ensures r.server.Some? <==> r.err.None? && setupHTTP.Some?
    {
      if setupHTTP.None? then SetupHTTPOutcome(None, None, None)
      else
        var made := if httpNewServer.Some? then httpNewServer.value else newServer;
        match made
        case CreateFailed(e) => SetupHTTPOutcome(None, Some(e), None)
        case Created(s) =>
          if setupHTTP.value.result.Some? then SetupHTTPOutcome(None, setupHTTP.value.result, Some(s))
          else SetupHTTPOutcome(Some(s), None, Some(s))
    }
  }

  /** A later registration replaces an earlier one. */
  method LastRegistrationWins(f1: Hook, f2: Hook) returns (r: MaybeError)
    ensures r == f2.result
  {
    var h := new Hookstruct();
    h.Cleanup(f1);
    h.Cleanup(f2);
    r := h.InvokeCleanup();
  }
}
