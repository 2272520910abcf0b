/** The worker adapter (worker/adapter.go): turns a resource with a
    blocking run and a stop function into a worker. The race between run
    finishing and the context being cancelled is an input. */
module WorkerAdapter {
  import opened Status

  /** The resource: what its run returns and what its stop returns. */
  datatype Adapter = Adapter(runResult: MaybeError, stopResult: MaybeError)

  /** What the adapter does besides returning: calling stop, and logging
      a stop failure. */
  datatype Event = StopCalled | StopErrorLogged(err: Error)

  function Count(events: seq<Event>, e: Event): nat
  {
    |set i | 0 <= i < |events| && events[i] == e|
  }

  /** Run. `cancelledFirst` says whether the context was cancelled before
      run returned; `hasLogger` whether the logger is non-nil. */
  method Run(a: Adapter, cancelledFirst: bool, hasLogger: bool)
    returns (err: MaybeError, events: seq<Event>)
    ensures !cancelledFirst ==> err == a.runResult && events == []
    ensures cancelledFirst ==> |events| >= 1 && events[0] == StopCalled && Count(events, StopCalled) == 1
    ensures cancelledFirst && a.runResult.Some? ==> err == a.runResult
    ensures cancelledFirst && a.runResult.None? ==> err == a.stopResult
    ensures (exists e :: StopErrorLogged(e) in events) <==>
      cancelledFirst && a.stopResult.Some? && hasLogger
    ensures forall e :: StopErrorLogged(e) in events ==> a.stopResult == Some(e)
  {
    events := [];
    if cancelledFirst {
      var stoperr := a.stopResult;
      events := events + [StopCalled];
      if stoperr.Some? {
        if hasLogger {
          events := events + [StopErrorLogged(stoperr.value)];
        }
      }
      assert (set i | 0 <= i < |events| && events[i] == StopCalled) == {0};
      var runErr := a.runResult;
      if runErr.Some? {
        return runErr, events;
      }
      return stoperr, events;
    }
    err := a.runResult;
  }
}
