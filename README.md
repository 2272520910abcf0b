# mu core, modelled in Dafny

This project models the core of `mu`, a Go framework for writing services.
The modelled parts are:

- the worker group that registers, starts and waits for workers, and the adapter that turns a run/stop pair into a worker;
- the service run sequence: config setup, worker setup, HTTP setup, pre-run, running the workers, and the cleanup hook;
- the hook slots and the LIFO cleanup list;
- the configuration registry: `New` with its options, int, string and bool variables, clamping and validators, and the source contract;
- the linear and exponential retry strategies, their options, and the `Do` retry loop;
- the HTTP status classification;
- the error-logging interceptor, the buffered response writer, and the middleware list;
- the adapter from the standard logger to the framework logger;
- the process-wide bug handler;
- metric registration with its per-kind name maps, and the metric handles.

Each Go package is one module: `Status`, `Bug`, `Worker`, `WorkerAdapter`, `Hooks`, `Service`, `Config`, `Retry`, `Http`, `Logging` and `Metrics`.

Code that mutates state stays imperative:

- Objects whose fields Go updates in place are classes, with `modifies` frames.
- Their loops are `while` loops, with invariants tying the state to a specification function of the inputs.
- Pure decisions are functions, with lemmas about them.

Some inputs are outside the model's reach:

- Go errors are an `Option` of the sentinel errors, and a wrapped error is identified with its sentinel.
- Results of code outside the model become parameters: worker and hook results, the Prometheus registry, `fmt.Sprintf`, `strconv`, a cancellation that races with a result, and the HTTP server constructor.

## Model

| member | source | states |
|---|---|---|
| Status.HTTPError | status/http.go:23-34 | a transport error is returned unchanged; otherwise a status of 500 or more is a server error, 400..499 a client error, and below 400 there is no error (each an if-and-only-if, so a 5xx is never a client error) |
| Bug.Call | bug/bug.go:41-45 | the handler receives the message unchanged; only the default handler panics |
| Bug.Registry.SetHandler | bug/bug.go:58-62 | the installed handler becomes the current one |
| Bug.Registry.Handler | bug/bug.go:65-69 | returns the handler most recently installed |
| Bug.Registry.Bug | bug/bug.go:38-40 | the current handler is called with the message unchanged |
| Bug.Registry.Bugf | bug/bug.go:28-30 | Bug applied to the formatted message |
| Bug.HandlerRoundTrip | bug/bug.go:38-69 | the default handler panics; after SetHandler, Handler returns the new handler and Bug reaches it |
| Worker.FirstError | worker/worker.go:122-130 | no error if and only if every launched worker returned none; otherwise the error is one that some launched worker returned |
| Worker.AddAll | worker/worker.go:78-89 | adding workers keeps every earlier registration unchanged, registers every added name, and registers nothing else |
| Worker.Group.constructor | worker/worker.go:69-73 | a new group has no workers and is not started |
| Worker.Group.Add | worker/worker.go:78-89 | a taken name gives AlreadyExists and changes nothing; a fresh name is registered; it is launched at once, with its tagged logger, only if the group has started |
| Worker.Group.StartWorker | worker/worker.go:133-138 | the worker is launched once, with the group's context and a logger tagged with its name |
| Worker.Group.Start | worker/worker.go:103-119 | a started group gives AlreadyStarted and changes nothing; otherwise the group is started and every registered worker is launched exactly once |
| Worker.Group.LaunchAll | worker/worker.go:113-117 | every registered worker is launched exactly once, with its own worker, the group's context and its tagged logger |
| Worker.LaunchStep | worker/worker.go:113-117 | launching a registered worker not yet launched adds exactly its name and keeps names distinct |
| Worker.Group.Wait | worker/worker.go:122-130 | before Start it gives NotStarted; afterwards it gives the first error among the launched workers |
| Worker.Group.Run | worker/worker.go:93-98 | Start's error is returned without waiting; otherwise Wait's result is returned |
| Worker.WaitReflectsRegistered | worker/worker.go:103-130 | after Start, Wait succeeds if and only if every registered worker succeeds, and a failure is some registered worker's error |
| Worker.AddAfterStart | worker/worker.go:78-119 | a worker added after Start is launched at once; a second Add under the same name is refused |
| WorkerAdapter.Run | worker/adapter.go:67-90 | if run finishes first, its result is returned and stop is never called; if cancellation comes first, stop is called exactly once, run's error wins over stop's, and a stop error is logged only when a logger is present |
| Hooks.Hookstruct.constructor | service/hook.go:52-67 | every hook slot starts empty |
| Hooks.Hookstruct.Cleanup | service/hook.go:72-74 | registration overwrites the single cleanup slot |
| Hooks.Hookstruct.ConfigSetup | service/hook.go:77-79 | registration overwrites the single config-setup slot |
| Hooks.Hookstruct.PreRun | service/hook.go:82-84 | registration overwrites the single pre-run slot |
| Hooks.Hookstruct.Setup | service/hook.go:87-89 | registration overwrites the single setup slot |
| Hooks.Hookstruct.SetupHTTP | service/hook.go:92-94 | registration overwrites the single HTTP-setup slot |
| Hooks.Hookstruct.InvokeCleanup | service/hook.go:97-102 | an unset hook gives no error; a set hook gives exactly its result |
| Hooks.Hookstruct.InvokeConfigSetup | service/hook.go:105-110 | an unset hook gives no error; a set hook gives exactly its result |
| Hooks.Hookstruct.InvokePreRun | service/hook.go:113-118 | an unset hook gives no error; a set hook gives exactly its result |
| Hooks.Hookstruct.InvokeSetup | service/hook.go:121-126 | an unset hook leaves the group alone; a set hook's workers are added to the group and its result is returned |
| Hooks.Hookstruct.InvokeSetupHTTP | service/hook.go:129-148 | no hook gives no server and no error; a failed server creation is returned and the hook is not called; a failing hook gives its error; on success the server handed to the hook is returned; a server is returned if and only if there is no error and a hook is set |
| Hooks.LastRegistrationWins | service/hook.go:72-102 | a later registration replaces an earlier one |
| Service.Reversed | service/cleanup.go:28-32 | reversal keeps the length |
| Service.Service.constructor | service/cleanup.go:23-25 | a new service has no cleanup functions |
| Service.Service.Run | service/run.go:27-62 | the status and the steps taken are those of the run specification, and when the workers run, the group's result is one the registered workers allow |
| Service.Service.RunBody | service/run.go:40-61 | after worker setup, the steps and error follow the specification, with the cleanup hook deferred to the end |
| Service.Service.Cleanup | service/cleanup.go:23-25 | appends the function to the end of the list and calls nothing |
| Service.Service.InvokeCleanups | service/cleanup.go:28-32 | calls every registered function once, last registered first, and leaves the list unchanged |
| Service.ConfigErrorStopsEverything | service/run.go:33-35 | a config-setup error is returned and nothing else runs, not even cleanup |
| Service.SetupErrorSkipsCleanup | service/run.go:36-39 | a worker-setup error is returned and no cleanup runs |
| Service.CleanupRunsOnceAfterSetup | service/run.go:40-45 | once worker setup succeeds, the cleanup hook runs exactly once, as the last step, and its error is the result only when no earlier step failed |
| Service.HTTPErrorSkipsPreRun | service/run.go:46-47 | an HTTP-setup error is returned; pre-run and the workers are skipped, and cleanup still runs |
| Service.ServerNameTaken | service/run.go:48-52 | when "http_server" is already a worker name, adding the HTTP server fails with AlreadyExists, and neither pre-run nor the workers run |
| Service.PreRunErrorSkipsWorkers | service/run.go:54-56 | a pre-run error is returned, the workers are not run, and cleanup still runs |
| Service.AllStepsSucceed | service/run.go:57-61 | when every hook succeeds, the workers run; the result is nil if and only if the group and the cleanup succeed; a group error wins over the cleanup error |
| Service.ReversedAppend | service/cleanup.go:23-32 | a function registered last is called first |
| Service.CallsArePermutation | service/cleanup.go:28-31 | every registered cleanup is called exactly as many times as it was registered |
| Service.CleanupOrderExample | service/cleanup.go:23-32 | five registrations are called in reverse order |
| Config.Source.constructor | config/config.go:32-44 | a source starts with an empty prefix |
| Config.Source.SetPrefix | config/config.go:32-44 | the prefix is replaced |
| Config.Source.LoadInt | config/config.go:32-44 | a missing variable is reported as 0 with NotFound; a failing source gives its error |
| Config.Source.LoadString | config/config.go:32-44 | a missing variable is reported as "" with NotFound; a present one is returned as stored under prefix + name |
| Config.Source.LoadBool | config/config.go:32-44 | a missing variable is reported as false with NotFound; a failing source gives its error |
| Config.ClampOrError | config/int.go:152-166 | a value in range is returned unchanged; outside it clamping gives the nearer bound, otherwise the value with OutOfRange; the error arises if and only if the value is out of range and clamping is off |
| Config.ApplyIntOptions | config/int.go:50-79 | options never change the name, description, default or value, and fail if and only if one of them fails |
| Config.BuildInt | config/int.go:82-129 | an accepted variable has min <= default <= max and min <= value <= max, and the validator accepts both; a failing option or a source error other than NotFound is an error |
| Config.ApplyStringOptions | config/string.go:43-48 | options never change the name, description, default or value, and fail if and only if one of them fails |
| Config.BuildString | config/string.go:51-84 | the validator accepts both default and value; a found source value replaces the default; only NotFound keeps the default; a failing option's error is returned, and so is any other load error |
| Config.ConfigImpl.constructor | config/config.go:75-80 | the three registries start empty, with an empty prefix |
| Config.ConfigImpl.Apply | config/config.go:60-72 | WithLoadPrefix sets the prefix; WithSource sets the source |
| Config.ConfigImpl.NewInt | config/int.go:82-129 | a taken name gives AlreadyExists and changes nothing; otherwise the registry changes only when the specification accepts the variable |
| Config.ConfigImpl.Int | config/int.go:133-139 | a registered name gives its value, within its bounds; an unknown one reports a bug and gives 0 |
| Config.ConfigImpl.DescribeInt | config/int.go:143-149 | a registered name gives its description; an unknown one reports a bug and gives "" |
| Config.ConfigImpl.NewString | config/string.go:51-84 | a taken name gives AlreadyExists and changes nothing; otherwise the registry changes only on success |
| Config.ConfigImpl.String | config/string.go:88-94 | a registered name gives a value its validator accepts; an unknown one reports a bug and gives "" |
| Config.ConfigImpl.DescribeString | config/string.go:98-104 | a registered name gives its description; an unknown one reports a bug and gives "" |
| Config.ConfigImpl.NewBool | config/bool.go:38-57 | a taken name gives AlreadyExists; a found value replaces the default; NotFound keeps it; any other source error is returned and nothing is registered |
| Config.ConfigImpl.Bool | config/bool.go:61-67 | a registered name gives its value; an unknown one reports a bug and gives false |
| Config.ConfigImpl.DescribeBool | config/bool.go:71-77 | a registered name gives its description; an unknown one reports a bug and gives "" |
| Config.New | config/config.go:75-89 | the registries start empty; options run in order; without WithSource the environment source is used; the chosen source receives the prefix |
| Config.LastPrefixWins | config/config.go:60-64 | the last WithLoadPrefix decides the prefix |
| Config.NoSourceOptionKeepsEnvironment | config/config.go:84-86 | without WithSource no source is chosen, so the environment is used |
| Config.NoOptionsDefaultBounds | config/int.go:85-91 | with no options the bounds are MinInt32 and MaxInt32 |
| Config.LastMinimumWins | config/int.go:50-55 | a later WithMinimumValue overrides an earlier one |
| Config.FirstOptionErrorWins | config/int.go:93-97 | the first failing option's error is the result, whatever follows |
| Config.IntOptionErrorSticks | config/int.go:93-97 | once an option fails, later options change nothing |
| Config.StringOptionErrorSticks | config/string.go:58-65 | once an option fails, later options change nothing |
| Config.InvalidRangeRefused | config/int.go:98-100 | a minimum above the maximum gives InvalidRange |
| Config.NotFoundKeepsDefault | config/int.go:124-126 | NotFound from the source keeps the (clamped) default as the value |
| Config.SourceValueOverrides | config/int.go:112-123 | a found source value, once clamped and validated, replaces the default |
| Config.ClampIdempotent | config/int.go:152-166 | clamping an accepted value again changes nothing |
| Config.ClampedDefaultExample | config/int.go:82-139 | a default of 10 with a minimum of 20 and clamping on, not found in the source, reads back as 20, and a second NewInt with the same name is refused |
| Retry.Durations | retry/linear.go:70-82 | k calls to Next give k durations |
| Retry.Linear.constructor | retry/linear.go:43-48 | the defaults are base 100ms, max 10s, increment 100ms and unlimited attempts |
| Retry.Linear.Next | retry/linear.go:70-82 | returns the current base, or -1 when the attempts are used up, and advances the state by the step function |
| Retry.Linear.WithBaseInterval | retry/linear.go:85-87 | sets the base interval |
| Retry.Linear.WithMaxInterval | retry/linear.go:90-92 | sets the maximum interval |
| Retry.Linear.WithIncrement | retry/linear.go:95-97 | sets the increment |
| Retry.Linear.WithMaxAttempts | retry/linear.go:100-102 | sets the attempt count |
| Retry.Exponential.constructor | retry/exponential.go:43-48 | the defaults are base 100ms, max 10s, factor 2 and unlimited attempts |
| Retry.Exponential.Next | retry/exponential.go:74-86 | returns the current base, or -1 when the attempts are used up, then multiplies the base by the factor, capped at the maximum |
| Retry.Exponential.WithBaseInterval | retry/exponential.go:89-91 | sets the base interval |
| Retry.Exponential.WithMaxInterval | retry/exponential.go:94-96 | sets the maximum interval |
| Retry.Exponential.WithFactor | retry/exponential.go:99-101 | sets the factor |
| Retry.Exponential.WithMaxAttempts | retry/exponential.go:104-106 | sets the attempt count |
| Retry.ApplyOption | retry/options.go:62-126 | WithFactor on linear and WithIncrement on exponential are refused with a bug report and change nothing; WithBaseInterval, WithMaxInterval and WithMaxAttempts set their field, WithFactor sets an exponential factor and WithIncrement a linear increment, with nothing else changed and no report |
| Retry.ApplyOptions | retry/options.go:62-126 | options never turn one strategy kind into the other |
| Retry.ChecksMatchValid | retry/linear.go:54-65 | the constructors' checks accept exactly the valid strategies |
| Retry.NewLinear | retry/linear.go:42-67 | options apply in order; an invalid result reports a bug and falls back to the default; the returned strategy is always valid |
| Retry.NewExponential | retry/exponential.go:42-71 | options apply in order; an invalid result reports a bug and falls back to the default; the returned strategy is always valid |
| Retry.StepKeepsValid | retry/linear.go:70-82 | a step keeps a strategy valid, never lowers the base, and returns the base while attempts remain |
| Retry.StopIsFinal | retry/exponential.go:75-76 | once Next returns -1, the state no longer changes |
| Retry.AttemptsBound | retry/linear.go:71-75 | with n attempts, exactly the first n durations are non-negative and the rest are -1 |
| Retry.UnlimitedNeverStops | retry/linear.go:71-75 | a negative attempt count never stops |
| Retry.DurationsBetweenBaseAndMax | retry/linear.go:76-80 | every duration is at least the initial base and, with a non-negative maximum, at most the maximum |
| Retry.DurationsNonDecreasing | retry/exponential.go:80-85 | the durations never decrease |
| Retry.ExponentialCapped | retry/exponential.go:66-69 | every exponential duration is at most the maximum interval |
| Retry.DefaultLinearDurations | retry/linear.go:43-48 | the default linear strategy waits 100, 200, 300 and 400ms |
| Retry.DefaultExponentialDurations | retry/exponential.go:43-48 | the default exponential strategy doubles from 100ms up to the 10s cap |
| Retry.Next | retry/linear.go:70-82 | each strategy's Next advances its state by the step function |
| Retry.Do | retry/do.go:32-48 | the outcome, the number of calls and the strategy's final state follow the retry specification |
| Retry.DoResult | retry/do.go:32-48 | Do returns nil exactly when fn succeeds, and every earlier call failed; when the strategy's duration for the last call is negative (a stop) it returns that call's error, otherwise the wait was cancelled and it returns the context's error |
| Retry.CancelledWaitReturnsContextError | retry/do.go:42-44 | a failing first call whose wait is cancelled makes Do return the context's error after one call |
| Retry.DoCallsBounded | retry/do.go:32-48 | a strategy with n attempts calls fn at most n + 1 times and always returns |
| Retry.FiveCallsWithFourAttempts | retry/do.go:32-48 | four attempts and a function that always fails: five calls, and the last error is returned |
| Retry.ApplyDoOptions | retry/options.go:129-167 | no option leaves both callbacks unset; the last option sets its own callback and leaves the other as the earlier options left it |
| Retry.NewDoOptions | retry/options.go:129-167 | the option loop gives the same callbacks as the specification |
| Retry.LastCallbackWins | retry/options.go:150-154 | the last OnRetryAttempt decides the callback, whatever OnRetry options follow |
| Retry.LastRetryCallbackWins | retry/options.go:163-167 | the last OnRetry decides the callback, whatever OnRetryAttempt options follow |
| Http.Recorder.WriteHeader | http/error_logging.go:32-35 | the downstream writer records each status it is sent |
| Http.Recorder.Write | http/buffer.go:55-61 | the downstream writer appends the first `accepted` bytes, never more than it was given, and returns that count with its own error |
| Http.Capture | http/error_logging.go:41-50 | a body of at most 512 bytes is kept whole; a longer one is cut to its first 512 bytes followed by "...", 515 bytes in all |
| Http.ErrorLoggingInterceptor.constructor | http/error_logging.go:56-68 | the interceptor starts with status 0 and nothing captured |
| Http.ErrorLoggingInterceptor.WriteHeader | http/error_logging.go:32-35 | records the status and forwards it downstream |
| Http.ErrorLoggingInterceptor.Write | http/error_logging.go:38-53 | forwards the body and returns the downstream count and error unchanged; below 500 nothing is captured; from 500 on the capture is replaced by a copy of the cut body |
| Http.RetainingInterceptor.constructor | http/error_logging.go:59-61 | as the source builds it: status 0 and an empty capture |
| Http.RetainingInterceptor.WriteHeader | http/error_logging.go:32-35 | records the status |
| Http.RetainingInterceptor.Write | http/error_logging.go:38-50 | as written: from status 500 on, a body of at most 512 bytes is kept as the caller's own buffer, a longer one as a fresh array holding the cut body |
| Http.RetainedBodyChangesExample | http/error_logging.go:43-44 | a caller that reuses its buffer after an error write changes what the retained capture logs |
| Http.ServeWithErrorLogging | http/error_logging.go:56-68 | the middleware logs once, after the handler, if and only if the final status is 500 or more, with the last captured body; it asks of the downstream answers only the io.Writer bound on their counts |
| Http.NoErrorWriteMeansEmpty | http/error_logging.go:41-50 | with no write made under status 500 or more, nothing is captured and an error is logged with an empty body |
| Http.LastErrorWriteIsKept | http/error_logging.go:41-50 | the capture is the cut body of the last write made under status 500 or more; later writes under a lower status do not replace it |
| Http.LongErrorBodyIsCut | http/error_logging.go:44-50 | a 600-byte error body is logged as its first 512 bytes and "..."; a 400 status logs nothing |
| Http.BufferedResponseWriter.constructor | http/buffer.go:33-37 | starts with no body and status 0 |
| Http.BufferedResponseWriter.Header | http/buffer.go:40-42 | is the underlying writer's header map |
| Http.BufferedResponseWriter.Write | http/buffer.go:45-47 | appends to the buffer, returns the length, and sends nothing downstream |
| Http.BufferedResponseWriter.WriteHeader | http/buffer.go:50-52 | only records the status |
| Http.BufferedResponseWriter.Flush | http/buffer.go:55-61 | sends the status only when it is non-zero; the bytes the writer takes leave the buffer in order and the rest stay, so no byte is lost or sent twice; returns the count taken and the writer's error, or ShortWrite when the writer took less without one; no error if and only if the buffer was empty or was sent whole |
| Http.FlushExample | http/buffer.go:45-61 | the buffered body and status reach the downstream writer on each flush |
| Http.ShortFlushExample | http/buffer.go:55-61 | a writer that takes 2 of 3 bytes and fails gives 2 and its error and keeps the third byte; taking nothing without an error gives ShortWrite; a later complete flush sends the byte kept |
| Http.Server.constructor | http/middleware.go:26-32 | a server starts with no middleware |
| Http.Server.WithMiddleware | http/middleware.go:26-32 | appends m, then more, in argument order, keeps the earlier list as a prefix, and never fails |
| Http.InvokedInListOrder | http/middleware.go:22-26 | the first middleware in the list is the outermost and is invoked first |
| Http.ExtendingKeepsOuterLayers | http/middleware.go:26-32 | adding middleware keeps the earlier layers outermost, in their order |
| Logging.LevelOf | logging/adapter.go:26-35 | the levels 0..3 select Debug, Info, Warn and Error; any other level selects nothing |
| Logging.IndexOfNewline | logging/adapter.go:60-64 | a found index holds a newline |
| Logging.IndexOfNewlineIsFirst | logging/adapter.go:60-64 | the index found is the first newline, and finding none means the input has none |
| Logging.Calls | logging/adapter.go:67-76 | without a level nothing is logged; with one, there is one call per line |
| Logging.CallsAt | logging/adapter.go:65-76 | with a level, the k-th line becomes the k-th call, at that level |
| Logging.Sink.Log | logging/adapter.go:67-76 | a call to the framework logger is recorded |
| Logging.Adapter.constructor | logging/adapter.go:49-54 | starts with an empty buffer |
| Logging.Adapter.Write | logging/adapter.go:57-79 | always returns the length and no error; logs each complete line of the old buffer plus the input exactly once, in order and without its newline; leaves the buffer empty |
| Logging.LinesStep | logging/adapter.go:60-66 | reading up to the first newline gives the first line, and the remaining lines are those of what follows it |
| Logging.RestStep | logging/adapter.go:60-64 | the unlogged tail is decided by what follows the first newline |
| Logging.PumpStep | logging/adapter.go:60-76 | one turn of the loop moves one line's call from the pending calls to the logger |
| Logging.CallsCons | logging/adapter.go:60-76 | logging one line and then the rest is logging them all |
| Logging.LinesRoundTrip | logging/adapter.go:57-79 | the lines, each followed by a newline, plus the unlogged tail give back the input: nothing is lost or reordered |
| Logging.LinesHaveNoNewline | logging/adapter.go:65-66 | no logged line contains a newline, and neither does the dropped tail |
| Logging.CountAppend | logging/adapter.go:57-79 | newlines count additively over concatenation |
| Logging.NoNewlineCountsZero | logging/adapter.go:61-64 | input without a newline has none to count |
| Logging.CountAtFirstNewline | logging/adapter.go:60-66 | the newlines of the input are the first one plus those after it |
| Logging.OneLinePerNewline | logging/adapter.go:57-79 | exactly one line is logged per newline written, so a write with no newline logs nothing |
| Logging.PrintExample | logging/adapter.go:57-79 | "hi" and a newline are logged as "hi" at Info |
| Metrics.KindName | metrics/counter.go:103-125 | every kind has a non-empty name for its messages |
| Metrics.ScalarRefusal | metrics/counter.go:103-125 | a plain registration is refused if and only if the name is in either map or the registry rejects it; the report names the metric |
| Metrics.VecRefusal | metrics/counter.go:128-150 | a vec registration is refused if and only if the name is in either map or the registry rejects it; the report names the metric |
| Metrics.Register | metrics/counter.go:95-150 | no labels takes the plain path and labels the vec path; a refusal gives a dummy and leaves both maps unchanged; success adds the name to the path's map only |
| Metrics.Use | metrics/gauge.go:45-163 | for every kind and operation (Inc, Add, Set, Dec, Sub, Observe; counter.go:39-91, histogram.go:37-68 and summary.go:37-68 have the same shape): a dummy ignores every call; a plain metric given label values reports a bug and updates nothing; a vec reports if and only if the label lookup fails; an update carries the metric's name and operation |
| Metrics.Samples.Record | metrics/counter.go:44-81 | an update reaching Prometheus is recorded |
| Metrics.Apply | metrics/gauge.go:45-145 | an update reaches Prometheus, or the bug handler gets the report, or nothing happens, as Use says |
| Metrics.Registry.constructor | metrics/metrics.go:62-74 | every name map starts empty |
| Metrics.Registry.NewMetric | metrics/counter.go:95-150 | the kind's maps change as Register says and stay disjoint; other kinds are untouched; a refusal goes to the bug handler |
| Metrics.Registry.NewCounter | metrics/counter.go:95-100 | registration of a counter, with the other kinds' maps unchanged |
| Metrics.Registry.NewGauge | metrics/gauge.go:166-221 | registration of a gauge, with the other kinds' maps unchanged |
| Metrics.Registry.NewHistogram | metrics/histogram.go:71-128 | registration of a histogram, with the other kinds' maps unchanged |
| Metrics.Registry.NewSummary | metrics/summary.go:71-126 | registration of a summary, with the other kinds' maps unchanged |
| Metrics.RegisterKeepsDisjoint | metrics/counter.go:120-145 | a name is never both a plain and a vec metric of one kind |
| Metrics.AcceptedInExactlyOneMap | metrics/gauge.go:191-216 | an accepted name is in exactly one of the two maps |
| Metrics.SecondRegistrationRefused | metrics/histogram.go:80-113 | registering a name a second time, with or without labels, gives a dummy, leaves the maps alone, and reports which map already holds it |
| Metrics.DummyIsNoOp | metrics/summary.go:68 | the dummy handle changes nothing and reports nothing |
| Metrics.RefusedHandleNeverUpdates | metrics/counter.go:104-119 | the handle of a refused registration never updates anything |
| Metrics.CounterExample | metrics/counter.go:39-150 | a counter registered twice, the second time with labels, gives a dummy; Inc with a label value on the plain counter is reported |

## Left out

- Goroutines, errgroup, mutexes, channels and `select` are left out. A launch is recorded in a `launched` sequence. The worker adapter's race is an input, `cancelledFirst`.
- Worker.Group.Wait: returns the first failing worker in launch order. The real errgroup returns the first error in time, which depends on scheduling.
- The service's signal listener (`startInterruptListener`) is left out: it is concurrency.
- `retry.DoAsync` is left out: it only wraps `Do` in a goroutine.
- Retry.Do: the unbounded Go loop is bounded by a `maxCalls` parameter, and the outcome `StillRunning` stands for a loop still retrying when that bound is reached. Waiting on `time.After` and `ctx.Done` becomes a per-call cancellation input.
- Retry.Exponential.WithFactor: the factor is an integer of at least 1, not a `float64`. Durations are unbounded integers of nanoseconds, so `int64` overflow is not modelled.
- Retry.NewLinear: a bug report is returned as a message. The default handler would panic instead of returning the default strategy.
- Config.ConfigImpl.NewInt: int values are unbounded integers. Go's `int` width is not modelled, beyond the MinInt32/MaxInt32 default bounds.
- The environment source (`config/env_source.go`) is a map of variables. Its `strconv` parsing is given as functions.
- `fmt.Sprintf` is a parameter. Error wrapping with `fmt.Errorf` is identified with the wrapped sentinel.
- Metrics.Use: whether Prometheus's `GetMetricWithLabelValues` fails, for example on a wrong number of label values, is an input. So is whether `registry.Register` fails. Cross-kind clashes, such as a counter and a gauge with the same name, are caught only there.
- Metric sample values are kept as reals and only recorded. Histogram buckets and help texts go to Prometheus and are not kept.
- metrics/metrics.go, metrics/internals.go, metrics/promhttp.go and http/metrics.go are Prometheus plumbing and are not part of this model.
- The HTTP server, gRPC server, TLS, OpenTelemetry, tracing, panic recovery, the zap logger, the command line (`service/main.go`), and service construction and options are left out: they are I/O, foreign libraries or thin wrappers.
- The error-logging middleware is modelled over a handler given as its sequence of WriteHeader and Write calls; the logger call is its result.
- Http.ErrorLoggingInterceptor.Write: the model copies a short error body; the source keeps the caller's slice, which the caller may reuse once Write returns. That behaviour is modelled separately by Http.RetainingInterceptor and reported under Findings.
- Http.BufferedResponseWriter.Flush: a writer that reports more bytes than it was given makes bytes.Buffer.WriteTo panic; the model requires the io.Writer bound instead.
- Http.BufferedResponseWriter.Header: headers are a map owned by the downstream writer; they are not modified here.
- In the service sources, `run.go` calls `invokeSetupConfig` and `invokeSetupWorkers`, while `hook.go` defines `invokeConfigSetup` and `invokeSetup`. The model uses the latter, as the evident intent.
- `run.go` runs the single cleanup hook. The cleanup list of `cleanup.go` is modelled separately, because `Run` never calls `invokeCleanups`.
- Config name collisions are checked per type, as the code does. A test in the repository expects cross-type collisions to be rejected; the code does not do that.
- A negative maximum interval for the linear strategy means no cap, as the code does. A test in the repository expects a panic instead.
- `exponential.go` declares its options with an undefined `Option` type. The model treats them as strategy options.

## Findings

| source | as written | input that shows it | evidently intended | confidence | as-written member | corrected member |
|---|---|---|---|---|---|---|
| http/error_logging.go:43-44 | a 5xx body of at most 512 bytes is kept as the caller's own slice, not a copy, and logged after the handler returns | status 500, then Write of a 2-byte buffer holding 1, 2, which the caller then overwrites to 9, 2 before returning: the log shows 9, 2 | the log shows the bytes that were written, as the copy made for longer bodies does; io.Writer forbids keeping the slice | medium; not executed | Http.RetainedBodyChangesExample | Http.LastErrorWriteIsKept |
