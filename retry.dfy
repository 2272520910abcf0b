/** Retry strategies with linear and exponential backoff (retry/linear.go,
    retry/exponential.go), their options (retry/options.go) and the retry
    loop Do (retry/do.go). Durations are whole nanoseconds. */
module Retry {
  import opened Status

  const Millisecond: int := 1_000_000
  const Second: int := 1_000_000_000

  /** How the interval grows after each attempt: by adding an increment
      (linear) or by multiplying by a factor (exponential; the factor is a
      whole number here). */
  datatype Growth = Add(increment: int) | Multiply(factor: int)

  /** The fields of a strategy. A negative `attempts` means no limit. */
  datatype Backoff = Backoff(growth: Growth, base: int, max: int, attempts: int)

  const DefaultLinear: Backoff := Backoff(Add(100 * Millisecond), 100 * Millisecond, 10 * Second, -1)
  const DefaultExponential: Backoff := Backoff(Multiply(2), 100 * Millisecond, 10 * Second, -1)

  /** The fields a constructor accepts. For linear a negative max means no
      cap; for exponential the max is required and the factor must be at
      least 1. */
  predicate Valid(b: Backoff)
  {
    && b.base >= 0
    && match b.growth
       case Add(inc) => inc >= 0 && (b.max < 0 || b.base <= b.max)
       case Multiply(f) => f >= 1 && b.base <= b.max
  }

  /** The interval after `base`: grown, then capped at max (for linear only
      when max is not negative). */
  function Grow(b: Backoff): int
  {
    match b.growth
    case Add(inc) =>
      var n := b.base + inc;
      if b.max >= 0 && n > b.max then b.max else n
    case Multiply(f) =>
      var n := b.base * f;
      if n > b.max then b.max else n
  }

  /** One call of Next: the duration returned and the fields afterwards.
      With no attempts left it returns -1 and changes nothing. */
  function Step(b: Backoff): (int, Backoff)
  {
    if b.attempts == 0 then (-1, b)
    else
      var attempts := if b.attempts > 0 then b.attempts - 1 else b.attempts;
      (b.base, b.(base := Grow(b), attempts := attempts))
  }

  /** The durations returned by `k` successive calls of Next. */
  function Durations(b: Backoff, k: nat): (r: seq<int>)
    ensures |r| == k
    decreases k
  {
    if k == 0 then [] else [Step(b).0] + Durations(Step(b).1, k - 1)
  }

  class Linear {
    var baseInterval: int
    var maxInterval: int
    var increment: int
    var maxAttempts: int

    ghost function State(): Backoff
      reads this
    {
      Backoff(Add(increment), baseInterval, maxInterval, maxAttempts)
    }

    constructor ()
      ensures State() == DefaultLinear
    {
      baseInterval := 100 * Millisecond;
      maxInterval := 10 * Second;
      increment := 100 * Millisecond;
      maxAttempts := -1;
    }

    method Next(err: Error) returns (d: int)
      modifies this
      ensures (d, State()) == Step(old(State()))
    {
      if maxAttempts == 0 {
        return -1;
      } else if maxAttempts > 0 {
        maxAttempts := maxAttempts - 1;
      }
      d := baseInterval;
      baseInterval := baseInterval + increment;
      if maxInterval >= 0 && baseInterval > maxInterval {
        baseInterval := maxInterval;
      }
    }

    method WithBaseInterval(d: int)
      modifies this`baseInterval
      ensures baseInterval == d
    {
      baseInterval := d;
    }

    method WithMaxInterval(d: int)
      modifies this`maxInterval
      ensures maxInterval == d
    {
      maxInterval := d;
    }

    method WithIncrement(d: int)
      modifies this`increment
      ensures increment == d
    {
      increment := d;
    }

    method WithMaxAttempts(n: int)
      modifies this`maxAttempts
      ensures maxAttempts == n
    {
      maxAttempts := n;
    }
  }

  class Exponential {
    var baseInterval: int
    var maxInterval: int
    var factor: int
    var maxAttempts: int

    ghost function State(): Backoff
      reads this
    {
      Backoff(Multiply(factor), baseInterval, maxInterval, maxAttempts)
    }

    constructor ()
      ensures State() == DefaultExponential
    {
      baseInterval := 100 * Millisecond;
      maxInterval := 10 * Second;
      factor := 2;
      maxAttempts := -1;
    }

    method Next(err: Error) returns (d: int)
      modifies this
      ensures (d, State()) == Step(old(State()))
    {
      if maxAttempts == 0 {
        return -1;
      } else if maxAttempts > 0 {
        maxAttempts := maxAttempts - 1;
      }
      d := baseInterval;
      baseInterval := baseInterval * factor;
      if baseInterval > maxInterval {
        baseInterval := maxInterval;
      }
    }

    method WithBaseInterval(d: int)
      modifies this`baseInterval
      ensures baseInterval == d
    {
      baseInterval := d;
    }

    method WithMaxInterval(d: int)
      modifies this`maxInterval
      ensures maxInterval == d
    {
      maxInterval := d;
    }

    method WithFactor(f: int)
      modifies this`factor
      ensures factor == f
    {
      factor := f;
    }

    method WithMaxAttempts(n: int)
      modifies this`maxAttempts
      ensures maxAttempts == n
    {
      maxAttempts := n;
    }
  }

  // Options of the strategies.

  datatype StrategyOption =
    | WithBaseInterval(d: int)
    | WithMaxInterval(d: int)
    | WithFactor(f: int)
    | WithMaxAttempts(n: int)
    | WithIncrement(d: int)

  /** One option applied to a strategy's fields: the new fields and the
      message reported to the bug handler when the strategy does not
      support the option (the fields are then unchanged). */
  function ApplyOption(b: Backoff, opt: StrategyOption): (r: (Backoff, Option<string>))
    ensures r.1.Some? <==> (opt.WithFactor? && b.growth.Add?) || (opt.WithIncrement? && b.growth.Multiply?)
    ensures r.1.Some? ==> r.0 == b
    ensures r.0.growth.Add? == b.growth.Add?
    ensures opt.WithBaseInterval? ==> r == (b.(base := opt.d), None)
    ensures opt.WithMaxInterval? ==> r == (b.(max := opt.d), None)
    ensures opt.WithMaxAttempts? ==> r == (b.(attempts := opt.n), None)
    ensures opt.WithFactor? && b.growth.Multiply? ==> r == (b.(growth := Multiply(opt.f)), None)
    ensures opt.WithIncrement? && b.growth.Add? ==> r == (b.(growth := Add(opt.d)), None)
  {
    match opt
    case WithBaseInterval(d) => (b.(base := d), None)
    case WithMaxInterval(d) => (b.(max := d), None)
    case WithMaxAttempts(n) => (b.(attempts := n), None)
    case WithFactor(f) =>
      if b.growth.Multiply? then (b.(growth := Multiply(f)), None)
      else (b, Some("Strategy *retry.linear does not support WithFactor"))
    case WithIncrement(d) =>
      if b.growth.Add? then (b.(growth := Add(d)), None)
      else (b, Some("Strategy *retry.exponential does not support WithIncrement"))
  }

  /** The options applied in order: the fields and the bug reports. */
  function ApplyOptions(b: Backoff, opts: seq<StrategyOption>): (r: (Backoff, seq<string>))
    ensures r.0.growth.Add? == b.growth.Add?
  {
    if opts == [] then (b, [])
    else
      var (c, reports) := ApplyOptions(b, opts[..|opts| - 1]);
      var (d, report) := ApplyOption(c, opts[|opts| - 1]);
      (d, if report.Some? then reports + [report.value] else reports)
  }

  /** The validation of Linear: the first failing rule's message. */
  function LinearCheck(b: Backoff): Option<string>
    requires b.growth.Add?
  {
    if b.base < 0 then Some("baseInterval must be >= 0")
    else if b.growth.increment < 0 then Some("increment must be >= 0")
    else if b.max >= 0 && b.max < b.base then Some("maxInterval must be >= baseInterval")
    else None
  }

  /** The validation of Exponential: the first failing rule's message. */
  function ExponentialCheck(b: Backoff): Option<string>
    requires b.growth.Multiply?
  {
    if b.base < 0 then Some("baseInterval must be >= 0")
    else if b.max < 0 then Some("maxInterval must be >= 0")
    else if b.growth.factor < 1 then Some("factor must be >= 1")
    else if b.max < b.base then Some("maxInterval must be >= baseInterval")
    else None
  }

  /** The validations accept exactly the valid fields. */
  lemma ChecksMatchValid(b: Backoff)
    ensures b.growth.Add? ==> (LinearCheck(b).None? <==> Valid(b))
    ensures b.growth.Multiply? ==> (ExponentialCheck(b).None? <==> Valid(b))
  {
  }

  /** Linear(opts...): the options in order, then validation; an invalid
      result is reported to the bug handler and the default strategy is
      returned instead. `reports` are the messages given to the handler,
      in order. */
  method NewLinear(opts: seq<StrategyOption>) returns (l: Linear, reports: seq<string>)
    ensures fresh(l) && Valid(l.State())
    ensures var (b, optReports) := ApplyOptions(DefaultLinear, opts);
      && (LinearCheck(b).None? ==> l.State() == b && reports == optReports)
      && (LinearCheck(b).Some? ==> l.State() == DefaultLinear && reports == optReports + [LinearCheck(b).value])
  {
    l := new Linear();
    reports := [];
    var k := 0;
    while k < |opts|
      invariant 0 <= k <= |opts|
      invariant (l.State(), reports) == ApplyOptions(DefaultLinear, opts[..k])
      modifies l
    {
      assert opts[..k + 1][..k] == opts[..k];
      match opts[k] {
        case WithBaseInterval(d) => l.WithBaseInterval(d);
        case WithMaxInterval(d) => l.WithMaxInterval(d);
        case WithMaxAttempts(n) => l.WithMaxAttempts(n);
        case WithIncrement(d) => l.WithIncrement(d);
        case WithFactor(_) => reports := reports + ["Strategy *retry.linear does not support WithFactor"];
      }
      k := k + 1;
    }
    assert opts[..k] == opts;
    var message: Option<string> := None;
    if l.baseInterval < 0 {
      message := Some("baseInterval must be >= 0");
    } else if l.increment < 0 {
      message := Some("increment must be >= 0");
    } else if l.maxInterval >= 0 && l.maxInterval < l.baseInterval {
      message := Some("maxInterval must be >= baseInterval");
    }
    if message.Some? {
      reports := reports + [message.value];
      l := new Linear();
    }
  }

  /** Exponential(opts...), validated as NewLinear is. */
  method NewExponential(opts: seq<StrategyOption>) returns (e: Exponential, reports: seq<string>)
    ensures fresh(e) && Valid(e.State())
    ensures var (b, optReports) := ApplyOptions(DefaultExponential, opts);
      && (ExponentialCheck(b).None? ==> e.State() == b && reports == optReports)
      && (ExponentialCheck(b).Some? ==> e.State() == DefaultExponential && reports == optReports + [ExponentialCheck(b).value])
  {
    e := new Exponential();
    reports := [];
    var k := 0;
    while k < |opts|
      invariant 0 <= k <= |opts|
      invariant (e.State(), reports) == ApplyOptions(DefaultExponential, opts[..k])
      modifies e
    {
      assert opts[..k + 1][..k] == opts[..k];
      match opts[k] {
        case WithBaseInterval(d) => e.WithBaseInterval(d);
        case WithMaxInterval(d) => e.WithMaxInterval(d);
        case WithMaxAttempts(n) => e.WithMaxAttempts(n);
        case WithFactor(f) => e.WithFactor(f);
        case WithIncrement(_) => reports := reports + ["Strategy *retry.exponential does not support WithIncrement"];
      }
      k := k + 1;
    }
    assert opts[..k] == opts;
    var message: Option<string> := None;
    if e.baseInterval < 0 {
      message := Some("baseInterval must be >= 0");
    } else if e.maxInterval < 0 {
      message := Some("maxInterval must be >= 0");
    } else if e.factor < 1 {
      message := Some("factor must be >= 1");
    } else if e.maxInterval < e.baseInterval {
      message := Some("maxInterval must be >= baseInterval");
    }
    if message.Some? {
      reports := reports + [message.value];
      e := new Exponential();
    }
  }

  // Properties of Next.

  /** Next keeps the fields valid; while attempts remain it returns the
      current base, a duration that is never negative. */
  lemma StepKeepsValid(b: Backoff)
    requires Valid(b)
    ensures Valid(Step(b).1)
    ensures b.attempts != 0 ==> Step(b).0 == b.base >= 0
    ensures Step(b).1.base >= b.base
  {
    if b.growth.Multiply? {
      assert b.base * b.growth.factor - b.base == b.base * (b.growth.factor - 1);
    }
  }

  /** Once Next has returned -1, it returns -1 forever and nothing changes. */
  lemma StopIsFinal(b: Backoff)
    requires Step(b).0 < 0 && Valid(b)
    ensures Step(b).1 == b && b.attempts == 0
  {
  }

  /** With n >= 0 attempts, the first n durations are not negative and
      every later one is -1. */
  lemma {:induction false} AttemptsBound(b: Backoff, k: nat)
    requires Valid(b) && b.attempts >= 0
    ensures forall i :: 0 <= i < k && i < b.attempts ==> Durations(b, k)[i] >= 0
    ensures forall i :: b.attempts <= i < k ==> Durations(b, k)[i] == -1
    decreases k
  {
    if k > 0 {
      StepKeepsValid(b);
      var (d, c) := Step(b);
      if b.attempts == 0 {
        AttemptsBound(c, k - 1);
      } else {
        AttemptsBound(c, k - 1);
        assert c.attempts == b.attempts - 1;
      }
      assert forall i :: 1 <= i < k ==> Durations(b, k)[i] == Durations(c, k - 1)[i - 1];
    }
  }

  /** With no limit on attempts, no duration is ever negative. */
  lemma {:induction false} UnlimitedNeverStops(b: Backoff, k: nat)
    requires Valid(b) && b.attempts < 0
    ensures forall i :: 0 <= i < k ==> Durations(b, k)[i] >= 0
    decreases k
  {
    if k > 0 {
      StepKeepsValid(b);
      UnlimitedNeverStops(Step(b).1, k - 1);
      assert forall i :: 1 <= i < k ==> Durations(b, k)[i] == Durations(Step(b).1, k - 1)[i - 1];
    }
  }

  /** Every duration that is not -1 is at least the current base and, when
      there is a cap, at most the max. */
  lemma {:induction false} DurationsBetweenBaseAndMax(b: Backoff, k: nat)
    requires Valid(b)
    ensures forall i :: 0 <= i < k && Durations(b, k)[i] >= 0 ==> b.base <= Durations(b, k)[i]
    ensures b.max >= 0 ==> forall i :: 0 <= i < k ==> Durations(b, k)[i] <= b.max
    decreases k
  {
    if k > 0 {
      StepKeepsValid(b);
      var c := Step(b).1;
      DurationsBetweenBaseAndMax(c, k - 1);
      assert c.max == b.max;
      assert forall i :: 1 <= i < k ==> Durations(b, k)[i] == Durations(c, k - 1)[i - 1];
    }
  }

  /** The durations returned never decrease, until Next returns -1. */
  lemma {:induction false} DurationsNonDecreasing(b: Backoff, k: nat)
    requires Valid(b)
    ensures forall i, j :: 0 <= i <= j < k && Durations(b, k)[j] >= 0 ==> Durations(b, k)[i] <= Durations(b, k)[j]
    decreases k
  {
    if k > 0 {
      StepKeepsValid(b);
      var c := Step(b).1;
      DurationsNonDecreasing(c, k - 1);
      DurationsBetweenBaseAndMax(c, k - 1);
      var ds := Durations(b, k);
      assert forall i :: 1 <= i < k ==> ds[i] == Durations(c, k - 1)[i - 1];
      forall i, j | 0 <= i <= j < k && ds[j] >= 0
        ensures ds[i] <= ds[j]
      {
        if i == 0 && j > 0 {
          if b.attempts == 0 {
            StopIsFinal(b);
            AttemptsBound(b, k);
          }
        }
      }
    }
  }

  /** Exponential intervals never exceed the max. */
  lemma ExponentialCapped(b: Backoff, k: nat)
    requires Valid(b) && b.growth.Multiply?
    ensures forall i :: 0 <= i < k ==> Durations(b, k)[i] <= b.max
  {
    DurationsBetweenBaseAndMax(b, k);
  }

  /** The default linear strategy waits 100ms, 200ms, 300ms, 400ms. */
  lemma DefaultLinearDurations()
    ensures Durations(DefaultLinear, 4) == [100 * Millisecond, 200 * Millisecond, 300 * Millisecond, 400 * Millisecond]
  {
    var b := DefaultLinear;
    assert Durations(b.(base := 400 * Millisecond), 1) == [400 * Millisecond];
    assert Durations(b.(base := 300 * Millisecond), 2) == [300 * Millisecond, 400 * Millisecond];
    assert Durations(b.(base := 200 * Millisecond), 3) == [200 * Millisecond, 300 * Millisecond, 400 * Millisecond];
  }

  /** The default exponential strategy doubles until the 10s cap. */
  lemma DefaultExponentialDurations()
    ensures Durations(DefaultExponential, 9) ==
      [100 * Millisecond, 200 * Millisecond, 400 * Millisecond, 800 * Millisecond, 1600 * Millisecond,
       3200 * Millisecond, 6400 * Millisecond, 10 * Second, 10 * Second]
  {
    var b := DefaultExponential;
    assert Durations(b.(base := 10 * Second), 2) == [10 * Second, 10 * Second];
    assert Durations(b.(base := 6400 * Millisecond), 3) == [6400 * Millisecond, 10 * Second, 10 * Second];
    assert Durations(b.(base := 3200 * Millisecond), 4) == [3200 * Millisecond] + Durations(b.(base := 6400 * Millisecond), 3);
    assert Durations(b.(base := 1600 * Millisecond), 5) == [1600 * Millisecond] + Durations(b.(base := 3200 * Millisecond), 4);
    assert Durations(b.(base := 800 * Millisecond), 6) == [800 * Millisecond] + Durations(b.(base := 1600 * Millisecond), 5);
    assert Durations(b.(base := 400 * Millisecond), 7) == [400 * Millisecond] + Durations(b.(base := 800 * Millisecond), 6);
    assert Durations(b.(base := 200 * Millisecond), 8) == [200 * Millisecond] + Durations(b.(base := 400 * Millisecond), 7);
  }

  // The retry loop.

  /** The strategy handed to Do. */
  datatype Strategy = LinearStrategy(l: Linear) | ExponentialStrategy(e: Exponential)

  function Obj(s: Strategy): object
  {
    match s
    case LinearStrategy(l) => l
    case ExponentialStrategy(e) => e
  }

  ghost function StateOf(s: Strategy): Backoff
    reads Obj(s)
  {
    match s
    case LinearStrategy(l) => l.State()
    case ExponentialStrategy(e) => e.State()
  }

  method Next(s: Strategy, err: Error) returns (d: int)
    modifies Obj(s)
    ensures (d, StateOf(s)) == Step(old(StateOf(s)))
  {
    match s {
      case LinearStrategy(l) => d := l.Next(err);
      case ExponentialStrategy(e) => d := e.Next(err);
    }
  }

  /** How a run of Do ends: `Returned(err)` is the value Do returns;
      `StillRunning` means that `fn` has been called as often as the bound
      allows and the loop has not ended. */
  datatype DoOutcome = Returned(err: MaybeError) | StillRunning

  /** Do, from the call with index `k` on: `fn(i)` is what the i-th call
      of fn returns, `cancelled(i)` whether the context is done during the
      wait that follows it, and `ctxErr` the context's error. At most
      `fuel` more calls of fn are made. The result is the outcome, the
      number of calls of fn made in all, and the strategy's fields
      afterwards. */
  function DoSpec(b: Backoff, fn: nat -> MaybeError, cancelled: nat -> bool, ctxErr: Error, k: nat, fuel: nat)
    : (DoOutcome, nat, Backoff)
    decreases fuel
  {
    if fuel == 0 then (StillRunning, k, b)
    else if fn(k).None? then (Returned(None), k + 1, b)
    else
      var (d, c) := Step(b);
      if d < 0 then (Returned(fn(k)), k + 1, c)
      else if cancelled(k) then (Returned(Some(ctxErr)), k + 1, c)
      else DoSpec(c, fn, cancelled, ctxErr, k + 1, fuel - 1)
  }

  method Do(s: Strategy, fn: nat -> MaybeError, cancelled: nat -> bool, ctxErr: Error, maxCalls: nat)
    returns (outcome: DoOutcome, calls: nat)
    modifies Obj(s)
    ensures (outcome, calls, StateOf(s)) == DoSpec(old(StateOf(s)), fn, cancelled, ctxErr, 0, maxCalls)
  {
    calls := 0;
    while calls < maxCalls
      invariant calls <= maxCalls
      invariant DoSpec(StateOf(s), fn, cancelled, ctxErr, calls, maxCalls - calls)
             == DoSpec(old(StateOf(s)), fn, cancelled, ctxErr, 0, maxCalls)
      decreases maxCalls - calls
    {
      var err := fn(calls);
      if err.None? {
        return Returned(None), calls + 1;
      }
      var d := Next(s, err.value);
      if d < 0 {
        return Returned(err), calls + 1;
      }
      if cancelled(calls) {
        return Returned(Some(ctxErr)), calls + 1;
      }
      calls := calls + 1;
    }
    outcome := StillRunning;
  }

  /** fn is called first; Do returns nil exactly when the last call of fn
      succeeded, and every earlier call failed (a retry follows only a
      failure). Otherwise, when the strategy's duration for the last call
      is negative (the strategy stopped), it returns that call's error;
      when it is not, the context was cancelled during the wait and it
      returns the context's error. */
  lemma {:induction false} DoResult(b: Backoff, fn: nat -> MaybeError, cancelled: nat -> bool, ctxErr: Error, k: nat, fuel: nat)
    ensures var (outcome, calls, _) := DoSpec(b, fn, cancelled, ctxErr, k, fuel);
      && k <= calls <= k + fuel
      && (fuel > 0 ==> calls > k)
      && (forall i :: k <= i < calls - 1 ==> fn(i).Some? && !cancelled(i))
      && (outcome == Returned(None) ==> fn(calls - 1).None?)
      && (outcome.Returned? ==> k < calls)
      && (outcome.Returned? && outcome.err.Some? ==>
            fn(calls - 1).Some? && (outcome.err == fn(calls - 1) || (outcome.err == Some(ctxErr) && cancelled(calls - 1))))
      && (outcome.Returned? && outcome.err.Some? && Durations(b, calls - k)[calls - 1 - k] < 0 ==>
            outcome.err == fn(calls - 1))
      && (outcome.Returned? && outcome.err.Some? && Durations(b, calls - k)[calls - 1 - k] >= 0 ==>
            outcome.err == Some(ctxErr) && cancelled(calls - 1))
      && (outcome == StillRunning ==> calls == k + fuel)
    decreases fuel
  {
    if fuel > 0 && fn(k).Some? {
      var (d, c) := Step(b);
      if d >= 0 && !cancelled(k) {
        DoResult(c, fn, cancelled, ctxErr, k + 1, fuel - 1);
        var (outcome, calls, _) := DoSpec(b, fn, cancelled, ctxErr, k, fuel);
        if outcome.Returned? {
          assert Durations(b, calls - k)[calls - 1 - k] == Durations(c, calls - (k + 1))[calls - 1 - (k + 1)];
        }
      }
    }
  }

  /** With a valid strategy limited to n attempts, Do ends after at most
      n + 1 calls of fn, and it ends before any bound of n + 1 or more is
      reached. */
  lemma {:induction false} DoCallsBounded(b: Backoff, fn: nat -> MaybeError, cancelled: nat -> bool, ctxErr: Error, k: nat, fuel: nat)
    requires Valid(b) && b.attempts >= 0 && fuel >= b.attempts + 1
    ensures DoSpec(b, fn, cancelled, ctxErr, k, fuel).0.Returned?
    ensures DoSpec(b, fn, cancelled, ctxErr, k, fuel).1 <= k + b.attempts + 1
    decreases fuel
  {
    if fn(k).Some? && b.attempts > 0 {
      StepKeepsValid(b);
      var (d, c) := Step(b);
      if d >= 0 && !cancelled(k) {
        DoCallsBounded(c, fn, cancelled, ctxErr, k + 1, fuel - 1);
      }
    }
  }

  /** A cancellation while the strategy still allows retries: the first
      call fails, the wait is cancelled, and Do returns the context's
      error after one call. */
  lemma CancelledWaitReturnsContextError(fn: nat -> MaybeError, cancelled: nat -> bool, ctxErr: Error)
    requires fn(0).Some? && cancelled(0)
    ensures DoSpec(DefaultLinear, fn, cancelled, ctxErr, 0, 10).0 == Returned(Some(ctxErr))
    ensures DoSpec(DefaultLinear, fn, cancelled, ctxErr, 0, 10).1 == 1
  {
    assert Step(DefaultLinear).0 == 100000000;
  }

  /** The test trace: the default linear strategy capped at 4 attempts and
      a function that always fails is called 5 times, and Do returns the
      fifth error. */
  lemma FiveCallsWithFourAttempts(fn: nat -> MaybeError, cancelled: nat -> bool, ctxErr: Error)
    requires forall i :: 0 <= i < 5 ==> fn(i) == Some(Other(i + 1)) && !cancelled(i)
    ensures DoSpec(DefaultLinear.(attempts := 4), fn, cancelled, ctxErr, 0, 10) == (Returned(Some(Other(5))), 5, DoSpec(DefaultLinear.(attempts := 4), fn, cancelled, ctxErr, 0, 10).2)
  {
    var b := DefaultLinear.(attempts := 4);
    assert fn(0) == Some(Other(1)) && fn(1) == Some(Other(2)) && fn(2) == Some(Other(3));
    assert fn(3) == Some(Other(4)) && fn(4) == Some(Other(5));
    assert !cancelled(0) && !cancelled(1) && !cancelled(2) && !cancelled(3);
  }

  // Options of Do.

  /** OnRetryAttempt and OnRetry; a callback is identified by a tag. */
  datatype DoOption = OnRetryAttempt(attemptCallback: nat) | OnRetry(retryCallback: nat)

  datatype DoOptions = DoOptions(onRetryAttempt: Option<nat>, onRetry: Option<nat>)

  /** The callbacks left by the options: the last one of each kind. */
  function ApplyDoOptions(opts: seq<DoOption>): (r: DoOptions)
    ensures opts == [] ==> r == DoOptions(None, None)
    ensures opts != [] && opts[|opts| - 1].OnRetryAttempt? ==>
      r.onRetryAttempt == Some(opts[|opts| - 1].attemptCallback) &&
      r.onRetry == ApplyDoOptions(opts[..|opts| - 1]).onRetry
    ensures opts != [] && opts[|opts| - 1].OnRetry? ==>
      r.onRetry == Some(opts[|opts| - 1].retryCallback) &&
      r.onRetryAttempt == ApplyDoOptions(opts[..|opts| - 1]).onRetryAttempt
  {
    if opts == [] then DoOptions(None, None)
    else
      var o := ApplyDoOptions(opts[..|opts| - 1]);
      match opts[|opts| - 1]
      case OnRetryAttempt(f) => o.(onRetryAttempt := Some(f))
      case OnRetry(f) => o.(onRetry := Some(f))
  }

  method NewDoOptions(opts: seq<DoOption>) returns (o: DoOptions)
    ensures o == ApplyDoOptions(opts)
  {
    o := DoOptions(None, None);
    var k := 0;
    while k < |opts|
      invariant 0 <= k <= |opts|
      invariant o == ApplyDoOptions(opts[..k])
    {
      assert opts[..k + 1][..k] == opts[..k];
      match opts[k] {
        case OnRetryAttempt(f) => o := o.(onRetryAttempt := Some(f));
        case OnRetry(f) => o := o.(onRetry := Some(f));
      }
      k := k + 1;
    }
    assert opts[..k] == opts;
  }

  /** The last OnRetryAttempt wins, whatever OnRetry options follow it. */
  lemma {:induction false} LastCallbackWins(opts: seq<DoOption>, f: nat, rest: seq<DoOption>)
    requires forall i :: 0 <= i < |rest| ==> rest[i].OnRetry?
    ensures ApplyDoOptions(opts + [OnRetryAttempt(f)] + rest).onRetryAttempt == Some(f)
    decreases |rest|
  {
    var all := opts + [OnRetryAttempt(f)] + rest;
    if rest == [] {
      assert all[..|all| - 1] == opts;
    } else {
      assert all[..|all| - 1] == opts + [OnRetryAttempt(f)] + rest[..|rest| - 1];
      LastCallbackWins(opts, f, rest[..|rest| - 1]);
    }
  }

  /** The last OnRetry wins, whatever OnRetryAttempt options follow it. */
  lemma {:induction false} LastRetryCallbackWins(opts: seq<DoOption>, f: nat, rest: seq<DoOption>)
    requires forall i :: 0 <= i < |rest| ==> rest[i].OnRetryAttempt?
    ensures ApplyDoOptions(opts + [OnRetry(f)] + rest).onRetry == Some(f)
    decreases |rest|
  {
    var all := opts + [OnRetry(f)] + rest;
    if rest == [] {
      assert all[..|all| - 1] == opts;
    } else {
      assert all[..|all| - 1] == opts + [OnRetry(f)] + rest[..|rest| - 1];
      LastRetryCallbackWins(opts, f, rest[..|rest| - 1]);
    }
  }
}
