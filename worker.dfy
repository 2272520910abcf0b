/** The worker group (worker/worker.go): a registry of named workers and a
    started flag. Goroutines are abstracted: launching a worker appends a
    record to `launched`, and a worker carries the error its Run returns. */
module Worker {
  import opened Status

  /** A worker, identified by `id`; `result` is what its Run returns. */
  datatype Worker = Worker(id: nat, result: MaybeError)

  /** A logger as the group sees it: a base logger and the fields added to
      it with With(key, value). */
  datatype Logger = Base(id: nat) | With(parent: Logger, key: string, value: string)

  /** A context: one given by the caller, or the child that
      errgroup.WithContext derives from it. */
  datatype Context = Context(id: nat) | ErrGroupChild(parent: Context)

  /** One goroutine started by the errgroup: which worker, under which
      context, with which logger. */
  datatype Launch = Launch(name: string, worker: Worker, ctx: Context, logger: Logger)

  function Names(ls: seq<Launch>): set<string>
  {
    set l | l in ls :: l.name
  }

  predicate NamesDistinct(ls: seq<Launch>)
  {
    forall i, j :: 0 <= i < j < |ls| ==> ls[i].name != ls[j].name
  }

  /** The logger a worker receives: the group's logger tagged worker=name. */
  function WorkerLogger(l: Logger, name: string): Logger
  {
    With(l, "worker", name)
  }

  /** The error the errgroup reports: the first failing launch, or nil. */
  function FirstError(ls: seq<Launch>): (r: MaybeError)
    ensures r.None? <==> forall i :: 0 <= i < |ls| ==> ls[i].worker.result.None?
    ensures r.Some? ==> exists i :: 0 <= i < |ls| && ls[i].worker.result == r
  {
    if ls == [] then None
    else if ls[0].worker.result.Some? then ls[0].worker.result
    else
      var r := FirstError(ls[1..]);
      assert forall i :: 1 <= i < |ls| ==> ls[i] == ls[1..][i - 1];
      r
  }

  /** The registry after a sequence of Add calls on a fresh name set:
      each name keeps the first worker added under it. */
  function AddAll(m: map<string, Worker>, adds: seq<(string, Worker)>): (r: map<string, Worker>)
    ensures m.Keys <= r.Keys
    ensures forall n :: n in m ==> r[n] == m[n]
    ensures forall k :: 0 <= k < |adds| ==> adds[k].0 in r
    ensures forall n :: n in r ==> n in m || exists k :: 0 <= k < |adds| && adds[k].0 == n
    decreases |adds|
  {
    if adds == [] then m
    else
      var m' := if adds[0].0 in m then m else m[adds[0].0 := adds[0].1];
      var r := AddAll(m', adds[1..]);
      assert forall k :: 1 <= k < |adds| ==> adds[k] == adds[1..][k - 1];
      r
  }

  /** The launches made so far by Start: one per name in `done`, each with
      its registered worker, the group's context and a tagged logger. */
  ghost predicate LaunchedSoFar(ls: seq<Launch>, ws: map<string, Worker>, c: Context, l: Logger, done: set<string>)
  {
    && NamesDistinct(ls)
    && Names(ls) == done
    && forall x :: x in ls ==>
         x.name in ws && x.worker == ws[x.name] && x.ctx == c && x.logger == WorkerLogger(l, x.name)
  }

  /** Launching a registered worker whose name has not been launched yet
      extends the launches by exactly that name. */
  lemma LaunchStep(ls: seq<Launch>, ws: map<string, Worker>, c: Context, l: Logger, done: set<string>, name: string)
    requires LaunchedSoFar(ls, ws, c, l, done) && name in ws && name !in done
    ensures LaunchedSoFar(ls + [Launch(name, ws[name], c, WorkerLogger(l, name))], ws, c, l, done + {name})
  {
    var x := Launch(name, ws[name], c, WorkerLogger(l, name));
    forall i | 0 <= i < |ls|
      ensures ls[i].name in Names(ls)
    {
      assert ls[i] in ls;
    }
    assert forall y :: y in ls + [x] ==> y in ls || y == x;
  }

  /** AddAll unfolded once: the first add, then the rest. */
  lemma AddAllStep(m: map<string, Worker>, adds: seq<(string, Worker)>)
    requires adds != []
    ensures AddAll(m, adds) == AddAll(if adds[0].0 in m then m else m[adds[0].0 := adds[0].1], adds[1..])
  {
  }

  class Group {
    var workers: map<string, Worker>
    var started: bool
    var ctx: Option<Context>
    var logger: Option<Logger>
    var launched: seq<Launch>

    /** Before Start nothing runs; after Start every registered worker has
        been launched exactly once, under the group's context, with a
        logger tagged with its name. */
    ghost predicate Valid()
      reads this
    {
      && (!started ==> launched == [] && ctx.None? && logger.None?)
      && (started ==> ctx.Some? && logger.Some? && LaunchedExactlyOnce())
    }

    ghost predicate LaunchedExactlyOnce()
      reads this
      requires ctx.Some? && logger.Some?
    {
      LaunchedSoFar(launched, workers, ctx.value, logger.value, workers.Keys)
    }

    /** NewGroup */
    constructor ()
      ensures Valid()
      ensures workers == map[] && !started
    {
      workers := map[];
      started := false;
      ctx := None;
      logger := None;
      launched := [];
    }

    method Add(name: string, w: Worker) returns (err: MaybeError)
      requires Valid()
      modifies this
      ensures Valid()
      ensures started == old(started) && ctx == old(ctx) && logger == old(logger)
      ensures name in old(workers) ==>
        err == Some(AlreadyExists) && workers == old(workers) && launched == old(launched)
      ensures name !in old(workers) ==> err == None && workers == old(workers)[name := w]
      ensures name !in old(workers) && !started ==> launched == old(launched)
      ensures name !in old(workers) && started ==>
        launched == old(launched) + [Launch(name, w, ctx.value, WorkerLogger(logger.value, name))]
    {
      if name in workers {
        return Some(AlreadyExists);
      }
      workers := workers[name := w];
      if started {
        err := StartWorker(name, w);
        return;
      }
      err := None;
    }

    /** startWorker: one more goroutine running the worker. */
    method StartWorker(name: string, w: Worker) returns (err: MaybeError)
      requires ctx.Some? && logger.Some?
      modifies this`launched
      ensures err == None
      ensures launched == old(launched) + [Launch(name, w, ctx.value, WorkerLogger(logger.value, name))]
    {
      launched := launched + [Launch(name, w, ctx.value, WorkerLogger(logger.value, name))];
      err := None;
    }

    method Start(c: Context, l: Logger) returns (err: MaybeError)
      requires Valid()
      modifies this
      ensures Valid()
      ensures workers == old(workers)
      ensures old(started) ==>
        err == Some(AlreadyStarted) && started && ctx == old(ctx) &&
        logger == old(logger) && launched == old(launched)
      ensures !old(started) ==>
        err == None && started && ctx == Some(ErrGroupChild(c)) && logger == Some(l)
      ensures !old(started) ==> |launched| == |workers|
    {
      if started {
        return Some(AlreadyStarted);
      }
      ctx := Some(ErrGroupChild(c));
      started := true;
      logger := Some(l);
      LaunchAll();
      err := None;
    }

    /** The loop of Start: one launch per registered worker, in the map's
        (unspecified) order. */
    method LaunchAll()
      requires ctx.Some? && logger.Some? && launched == []
      modifies this`launched
      ensures LaunchedSoFar(launched, workers, ctx.value, logger.value, workers.Keys)
      ensures |launched| == |workers|
    {
      var remaining := workers.Keys;
      while remaining != {}
        invariant remaining <= workers.Keys
        invariant LaunchedSoFar(launched, workers, ctx.value, logger.value, workers.Keys - remaining)
        invariant |launched| + |remaining| == |workers.Keys|
        decreases remaining
      {
        var name :| name in remaining;
        LaunchStep(launched, workers, ctx.value, logger.value, workers.Keys - remaining, name);
        var _ := StartWorker(name, workers[name]);
        remaining := remaining - {name};
      }
      assert workers.Keys - remaining == workers.Keys;
      assert |workers| == |workers.Keys|;
    }

    method Wait() returns (err: MaybeError)
      requires Valid()
      ensures !started ==> err == Some(NotStarted)
      ensures started ==> err == FirstError(launched)
    {
      if !started {
        return Some(NotStarted);
      }
      err := FirstError(launched);
    }

    method Run(c: Context, l: Logger) returns (err: MaybeError)
      requires Valid()
      modifies this
      ensures Valid() && started && workers == old(workers)
      ensures old(started) ==> err == Some(AlreadyStarted) && launched == old(launched)
      ensures !old(started) ==> err == FirstError(launched)
    {
      err := Start(c, l);
      if err.Some? {
        return;
      }
      err := Wait();
    }
  }

  /** The group's result speaks about the registered workers: it is nil
      exactly when every registered worker returned nil, and otherwise it
      is the error of one of them. */
  lemma {:induction false} WaitReflectsRegistered(g: Group)
    requires g.Valid() && g.started
    ensures FirstError(g.launched).None? <==> forall n :: n in g.workers ==> g.workers[n].result.None?
    ensures FirstError(g.launched).Some? ==>
      exists n :: n in g.workers && g.workers[n].result == FirstError(g.launched)
  {
    var r := FirstError(g.launched);
    if forall n :: n in g.workers ==> g.workers[n].result.None? {
      forall i | 0 <= i < |g.launched|
        ensures g.launched[i].worker.result.None?
      {
        assert g.launched[i] in g.launched;
      }
    } else {
      var n :| n in g.workers && g.workers[n].result.Some?;
      assert n in Names(g.launched);
      var x :| x in g.launched && x.name == n;
      var i :| 0 <= i < |g.launched| && g.launched[i] == x;
      assert g.launched[i].worker.result.Some?;
    }
    if r.Some? {
      var i :| 0 <= i < |g.launched| && g.launched[i].worker.result == r;
      assert g.launched[i] in g.launched;
    }
  }

  /** Adding under a taken name, before or after Start, changes nothing;
      a fresh name added after Start runs at once. */
  method AddAfterStart(w1: Worker, w2: Worker, c: Context, l: Logger)
    returns (e1: MaybeError, e2: MaybeError, e3: MaybeError)
    ensures e1 == None && e2 == Some(AlreadyExists) && e3 == None
  {
    var g := new Group();
    e1 := g.Add("a", w1);
    var s := g.Start(c, l);
    e2 := g.Add("a", w2);
    assert g.workers["a"] == w1;
    e3 := g.Add("b", w2);
    assert g.launched[|g.launched| - 1] == Launch("b", w2, ErrGroupChild(c), WorkerLogger(l, "b"));
  }
}
