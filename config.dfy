/** The typed configuration registry (config/config.go, config/int.go,
    config/string.go, config/bool.go): three name maps, one per type, filled
    by NewInt, NewString and NewBool from a default, options and an
    optional value from a source. */
module Config {
  import opened Status
  import Bug

  const MinInt32: int := -2147483648
  const MaxInt32: int := 2147483647

  /** Where a source finds its values. `Lookup` is a finite map from names
      to text, as the environment or the map of the tests; parsing the
      text into an int or a bool (strconv) is given as a function.
      `Failing` answers every load with one error. */
  datatype SourceKind =
    | Lookup(values: map<string, string>,
             atoi: string -> (int, MaybeError),
             parseBool: string -> (bool, MaybeError))
    | Failing(err: Error)

  /** A source of values. Its prefix is prepended to every name it loads. */
  class Source {
    const kind: SourceKind
    var prefix: string

    constructor (kind: SourceKind)
      ensures this.kind == kind && prefix == ""
    {
      this.kind := kind;
      prefix := "";
    }

    method SetPrefix(p: string)
      modifies this`prefix
      ensures prefix == p
    {
      prefix := p;
    }

    // The contract of a source: a variable it does not have is the zero
    // value together with NotFound.

    function LoadInt(name: string): (r: (int, MaybeError))
      reads this
      ensures kind.Lookup? && prefix + name !in kind.values ==> r == (0, Some(NotFound))
      ensures kind.Failing? ==> r == (0, Some(kind.err))
    {
      match kind
      case Lookup(values, atoi, _) =>
        if prefix + name in values then atoi(values[prefix + name]) else (0, Some(NotFound))
      case Failing(err) => (0, Some(err))
    }

    function LoadString(name: string): (r: (string, MaybeError))
      reads this
      ensures kind.Lookup? && prefix + name !in kind.values ==> r == ("", Some(NotFound))
      ensures kind.Lookup? && prefix + name in kind.values ==> r == (kind.values[prefix + name], None)
      ensures kind.Failing? ==> r == ("", Some(kind.err))
    {
      match kind
      case Lookup(values, _, _) =>
        if prefix + name in values then (values[prefix + name], None) else ("", Some(NotFound))
      case Failing(err) => ("", Some(err))
    }

    function LoadBool(name: string): (r: (bool, MaybeError))
      reads this
      ensures kind.Lookup? && prefix + name !in kind.values ==> r == (false, Some(NotFound))
      ensures kind.Failing? ==> r == (false, Some(kind.err))
    {
      match kind
      case Lookup(values, _, parseBool) =>
        if prefix + name in values then parseBool(values[prefix + name]) else (false, Some(NotFound))
      case Failing(err) => (false, Some(err))
    }
  }

  /** A validator: nil accepts the value. */
  type IntValidator = int -> MaybeError
  type StringValidator = string -> MaybeError

  datatype IntVar = IntVar(
    name: string,
    value: int,
    defaultValue: int,
    description: string,
    minimumValue: int,
    maximumValue: int,
    clampValue: bool,
    validator: Option<IntValidator>)

  datatype StringVar = StringVar(
    name: string,
    value: string,
    defaultValue: string,
    description: string,
    validator: Option<StringValidator>)

  datatype BoolVar = BoolVar(name: string, value: bool, defaultValue: bool, description: string)

  /** The options of New. */
  datatype ConfigOption = WithLoadPrefix(prefix: string) | WithSource(source: Source)

  /** The options of an int variable. `FailingIntOption` stands for an
      option of the caller's own that returns an error. */
  datatype IntOption =
    | WithMinimumValue(min: int)
    | WithMaximumValue(max: int)
    | WithIntValidator(f: IntValidator)
    | WithClamping
    | FailingIntOption(err: Error)

  datatype StringOption =
    | WithStringValidator(f: StringValidator)
    | FailingStringOption(err: Error)

  /** What the options of New leave in the load prefix and the source
      (null when no WithSource was given): each option overwrites its own
      field, in order. */
  function ApplyConfigOptions(prefix: string, source: Source?, opts: seq<ConfigOption>): (string, Source?)
  {
    if opts == [] then (prefix, source)
    else
      var (p, s) := ApplyConfigOptions(prefix, source, opts[..|opts| - 1]);
      match opts[|opts| - 1]
      case WithLoadPrefix(q) => (q, s)
      case WithSource(t) => (p, t)
  }

  /** clampOrError: a value in [min, max] is kept; outside it the nearest
      bound is taken when clamping, otherwise the value comes back with
      OutOfRange. */
  function ClampOrError(value: int, min: int, max: int, clamp: bool): (r: (int, MaybeError))
    ensures min <= value <= max ==> r == (value, None)
    ensures r.1.Some? <==> !clamp && !(min <= value <= max)
    ensures r.1.Some? ==> r == (value, Some(OutOfRange))
    ensures r.1.None? && min <= max ==> min <= r.0 <= max
    ensures clamp && value < min ==> r.0 == min
    ensures clamp && min <= max < value ==> r.0 == max
  {
    if value < min then
      if clamp then (min, None) else (value, Some(OutOfRange))
    else if value > max then
      if clamp then (max, None) else (value, Some(OutOfRange))
    else (value, None)
  }

  /** A value is accepted by an optional validator. */
  predicate Accepts<T>(validator: Option<T -> MaybeError>, x: T)
  {
    validator.None? || validator.value(x).None?
  }

  /** The int options applied in order to a fresh variable; the first
      failing option stops the others. */
  function ApplyIntOptions(i: IntVar, opts: seq<IntOption>): (r: Result<IntVar>)
    ensures r.Ok? ==> r.value.name == i.name && r.value.description == i.description
    ensures r.Ok? ==> r.value.defaultValue == i.defaultValue && r.value.value == i.value
    ensures r.Err? <==> exists k :: 0 <= k < |opts| && opts[k].FailingIntOption?
  {
    if opts == [] then Ok(i)
    else
      match ApplyIntOptions(i, opts[..|opts| - 1])
      case Err(e) => Err(e)
      case Ok(j) =>
        match opts[|opts| - 1]
        case WithMinimumValue(m) => Ok(j.(minimumValue := m))
        case WithMaximumValue(m) => Ok(j.(maximumValue := m))
        case WithIntValidator(f) => Ok(j.(validator := Some(f)))
        case WithClamping => Ok(j.(clampValue := true))
        case FailingIntOption(e) => Err(e)
  }

  /** A new int variable before its options: bounds MinInt32..MaxInt32. */
  function FreshInt(name: string, defaultValue: int, description: string): IntVar
  {
    IntVar(name, 0, defaultValue, description, MinInt32, MaxInt32, false, None)
  }

  /** The variable NewInt registers, or the error it returns, given what
      the source answers for the name. */
  function BuildInt(name: string, defaultValue: int, description: string, opts: seq<IntOption>,
                    load: (int, MaybeError)): (r: Result<IntVar>)
    ensures r.Ok? ==> r.value.name == name && r.value.description == description
    ensures r.Ok? ==> r.value.minimumValue <= r.value.defaultValue <= r.value.maximumValue
    ensures r.Ok? ==> r.value.minimumValue <= r.value.value <= r.value.maximumValue
    ensures r.Ok? ==> Accepts(r.value.validator, r.value.defaultValue) && Accepts(r.value.validator, r.value.value)
    ensures ApplyIntOptions(FreshInt(name, defaultValue, description), opts).Err? ==>
      r == Err(ApplyIntOptions(FreshInt(name, defaultValue, description), opts).error)
    ensures load.1.Some? && load.1 != Some(NotFound) ==> r.Err?
  {
    match ApplyIntOptions(FreshInt(name, defaultValue, description), opts)
    case Err(e) => Err(e)
    case Ok(i) =>
      if i.minimumValue > i.maximumValue then Err(InvalidRange)
      else
        var (d, derr) := ClampOrError(i.defaultValue, i.minimumValue, i.maximumValue, i.clampValue);
        if derr.Some? then Err(derr.value)
        else if i.validator.Some? && i.validator.value(d).Some? then Err(i.validator.value(d).value)
        else
          var (v, lerr) := load;
          if lerr.None? then
            var (c, cerr) := ClampOrError(v, i.minimumValue, i.maximumValue, i.clampValue);
            if cerr.Some? then Err(cerr.value)
            else if i.validator.Some? && i.validator.value(c).Some? then Err(i.validator.value(c).value)
            else Ok(i.(defaultValue := d, value := c))
          else if lerr != Some(NotFound) then Err(lerr.value)
          else Ok(i.(defaultValue := d, value := d))
  }

  function ApplyStringOptions(s: StringVar, opts: seq<StringOption>): (r: Result<StringVar>)
    ensures r.Ok? ==> r.value.name == s.name && r.value.description == s.description
    ensures r.Ok? ==> r.value.defaultValue == s.defaultValue && r.value.value == s.value
    ensures r.Err? <==> exists k :: 0 <= k < |opts| && opts[k].FailingStringOption?
  {
    if opts == [] then Ok(s)
    else
      match ApplyStringOptions(s, opts[..|opts| - 1])
      case Err(e) => Err(e)
      case Ok(t) =>
        match opts[|opts| - 1]
        case WithStringValidator(f) => Ok(t.(validator := Some(f)))
        case FailingStringOption(e) => Err(e)
  }

  /** The variable NewString registers, or the error it returns. */
  function BuildString(name: string, defaultValue: string, description: string, opts: seq<StringOption>,
                       load: (string, MaybeError)): (r: Result<StringVar>)
    ensures r.Ok? ==> r.value.name == name && r.value.description == description
    ensures r.Ok? ==> r.value.defaultValue == defaultValue
    ensures r.Ok? ==> Accepts(r.value.validator, r.value.defaultValue) && Accepts(r.value.validator, r.value.value)
    ensures r.Ok? && load.1.None? ==> r.value.value == load.0
    ensures r.Ok? && load.1.Some? ==> r.value.value == defaultValue && load.1 == Some(NotFound)
    ensures ApplyStringOptions(StringVar(name, defaultValue, defaultValue, description, None), opts).Err? ==>
      r == Err(ApplyStringOptions(StringVar(name, defaultValue, defaultValue, description, None), opts).error)
    ensures load.1.Some? && load.1 != Some(NotFound) ==> r.Err?
  {
    match ApplyStringOptions(StringVar(name, defaultValue, defaultValue, description, None), opts)
    case Err(e) => Err(e)
    case Ok(s) =>
      if s.validator.Some? && s.validator.value(s.value).Some? then Err(s.validator.value(s.value).value)
      else
        var (v, lerr) := load;
        if lerr.None? then
          if s.validator.Some? && s.validator.value(v).Some? then Err(s.validator.value(v).value)
          else Ok(s.(value := v))
        else if lerr != Some(NotFound) then Err(lerr.value)
        else Ok(s)
  }

  class ConfigImpl {
    var ints: map<string, IntVar>
    var strings: map<string, StringVar>
    var bools: map<string, BoolVar>
    var loadPrefix: string
    var source: Source?

    /** Every registered variable is filed under its own name, and every
        int lies, with its default, within its bounds and is accepted by
        its validator. */
    ghost predicate Valid()
      reads this
    {
      && source != null
      && (forall n :: n in ints ==> IntInvariant(n, ints[n]))
      && (forall n :: n in strings ==> strings[n].name == n && Accepts(strings[n].validator, strings[n].value))
      && (forall n :: n in bools ==> bools[n].name == n)
    }

    constructor ()
      ensures ints == map[] && strings == map[] && bools == map[]
      ensures loadPrefix == "" && source == null
    {
      ints, strings, bools := map[], map[], map[];
      loadPrefix := "";
      source := null;
    }

    method Apply(opt: ConfigOption)
      modifies this`loadPrefix, this`source
      ensures (loadPrefix, source) == ApplyConfigOptions(old(loadPrefix), old(source), [opt])
    {
      match opt {
        case WithLoadPrefix(p) => loadPrefix := p;
        case WithSource(s) => source := s;
      }
    }

    method NewInt(name: string, defaultValue: int, description: string, opts: seq<IntOption>)
      returns (err: MaybeError)
      requires Valid()
      modifies this`ints
      ensures Valid()
      ensures name in old(ints) ==> err == Some(AlreadyExists) && ints == old(ints)
      ensures name !in old(ints) ==>
        match BuildInt(name, defaultValue, description, opts, source.LoadInt(name))
        case Ok(v) => err == None && ints == old(ints)[name := v]
        case Err(e) => err == Some(e) && ints == old(ints)
    {
      if name in ints {
        return Some(AlreadyExists);
      }
      var i := FreshInt(name, defaultValue, description);
      var k := 0;
      while k < |opts|
        invariant 0 <= k <= |opts|
        invariant ApplyIntOptions(FreshInt(name, defaultValue, description), opts[..k]) == Ok(i)
        decreases |opts| - k
      {
        assert opts[..k + 1][..k] == opts[..k];
        match opts[k] {
          case WithMinimumValue(m) => i := i.(minimumValue := m);
          case WithMaximumValue(m) => i := i.(maximumValue := m);
          case WithIntValidator(f) => i := i.(validator := Some(f));
          case WithClamping => i := i.(clampValue := true);
          case FailingIntOption(e) =>
            IntOptionErrorSticks(FreshInt(name, defaultValue, description), opts, k + 1);
            return Some(e);
        }
        k := k + 1;
      }
      assert opts[..k] == opts;
      if i.minimumValue > i.maximumValue {
        return Some(InvalidRange);
      }
      var d, derr := ClampOrError(i.defaultValue, i.minimumValue, i.maximumValue, i.clampValue).0,
                     ClampOrError(i.defaultValue, i.minimumValue, i.maximumValue, i.clampValue).1;
      if derr.Some? {
        return derr;
      }
      i := i.(defaultValue := d);
      if i.validator.Some? {
        var verr := i.validator.value(i.defaultValue);
        if verr.Some? {
          return verr;
        }
      }
      i := i.(value := i.defaultValue);
      var (v, lerr) := source.LoadInt(name);
      if lerr.None? {
        var c, cerr := ClampOrError(v, i.minimumValue, i.maximumValue, i.clampValue).0,
                       ClampOrError(v, i.minimumValue, i.maximumValue, i.clampValue).1;
        if cerr.Some? {
          return cerr;
        }
        if i.validator.Some? {
          var verr := i.validator.value(c);
          if verr.Some? {
            return verr;
          }
        }
        i := i.(value := c);
      } else if lerr != Some(NotFound) {
        return lerr;
      }
      ints := ints[name := i];
      err := None;
    }

    /** Int: the value of a registered variable; an unknown name is
        reported to the bug handler and 0 comes back if it returns. */
    method Int(name: string, bugs: Bug.Registry, sprintf: (string, seq<string>) -> string)
      returns (v: int, report: Option<Bug.Effect>)
      requires Valid()
      ensures name in ints ==> report.None? && v == ints[name].value
      ensures name in ints ==> ints[name].minimumValue <= v <= ints[name].maximumValue
      ensures name !in ints ==>
        v == 0 && report == Some(Bug.Call(bugs.handler, sprintf("config: int variable %q does not exist", [name])))
    {
      if name in ints {
        return ints[name].value, None;
      }
      var e := bugs.Bugf(sprintf, "config: int variable %q does not exist", [name]);
      return 0, Some(e);
    }

    method DescribeInt(name: string, bugs: Bug.Registry, sprintf: (string, seq<string>) -> string)
      returns (d: string, report: Option<Bug.Effect>)
      ensures name in ints ==> report.None? && d == ints[name].description
      ensures name !in ints ==>
        d == "" && report == Some(Bug.Call(bugs.handler, sprintf("config: int variable %q does not exist", [name])))
    {
      if name in ints {
        return ints[name].description, None;
      }
      var e := bugs.Bugf(sprintf, "config: int variable %q does not exist", [name]);
      return "", Some(e);
    }

    method NewString(name: string, defaultValue: string, description: string, opts: seq<StringOption>)
      returns (err: MaybeError)
      requires Valid()
      modifies this`strings
      ensures Valid()
      ensures name in old(strings) ==> err == Some(AlreadyExists) && strings == old(strings)
      ensures name !in old(strings) ==>
        match BuildString(name, defaultValue, description, opts, source.LoadString(name))
        case Ok(v) => err == None && strings == old(strings)[name := v]
        case Err(e) => err == Some(e) && strings == old(strings)
    {
      if name in strings {
        return Some(AlreadyExists);
      }
      var s := StringVar(name, defaultValue, defaultValue, description, None);
      ghost var s0 := s;
      var k := 0;
      while k < |opts|
        invariant 0 <= k <= |opts|
        invariant ApplyStringOptions(s0, opts[..k]) == Ok(s)
        decreases |opts| - k
      {
        assert opts[..k + 1][..k] == opts[..k];
        match opts[k] {
          case WithStringValidator(f) => s := s.(validator := Some(f));
          case FailingStringOption(e) =>
            StringOptionErrorSticks(s0, opts, k + 1);
            return Some(e);
        }
        k := k + 1;
      }
      assert opts[..k] == opts;
      if s.validator.Some? {
        var verr := s.validator.value(s.value);
        if verr.Some? {
          return verr;
        }
      }
      var (v, lerr) := source.LoadString(name);
      if lerr.None? {
        if s.validator.Some? {
          var verr := s.validator.value(v);
          if verr.Some? {
            return verr;
          }
        }
        s := s.(value := v);
      } else if lerr != Some(NotFound) {
        return lerr;
      }
      strings := strings[name := s];
      err := None;
    }

    method String(name: string, bugs: Bug.Registry, sprintf: (string, seq<string>) -> string)
      returns (v: string, report: Option<Bug.Effect>)
      requires Valid()
      ensures name in strings ==> report.None? && v == strings[name].value
      ensures name in strings ==> Accepts(strings[name].validator, v)
      ensures name !in strings ==>
        v == "" && report == Some(Bug.Call(bugs.handler, sprintf("config: string variable %q does not exist", [name])))
    {
      if name in strings {
        return strings[name].value, None;
      }
      var e := bugs.Bugf(sprintf, "config: string variable %q does not exist", [name]);
      return "", Some(e);
    }

    method DescribeString(name: string, bugs: Bug.Registry, sprintf: (string, seq<string>) -> string)
      returns (d: string, report: Option<Bug.Effect>)
      ensures name in strings ==> report.None? && d == strings[name].description
      ensures name !in strings ==>
        d == "" && report == Some(Bug.Call(bugs.handler, sprintf("config: string variable %q does not exist", [name])))
    {
      if name in strings {
        return strings[name].description, None;
      }
      var e := bugs.Bugf(sprintf, "config: string variable %q does not exist", [name]);
      return "", Some(e);
    }

    method NewBool(name: string, defaultValue: bool, description: string) returns (err: MaybeError)
      requires Valid()
      modifies this`bools
      ensures Valid()
      ensures name in old(bools) ==> err == Some(AlreadyExists) && bools == old(bools)
      ensures name !in old(bools) && source.LoadBool(name).1.None? ==>
        err == None && bools == old(bools)[name := BoolVar(name, source.LoadBool(name).0, defaultValue, description)]
      ensures name !in old(bools) && source.LoadBool(name).1 == Some(NotFound) ==>
        err == None && bools == old(bools)[name := BoolVar(name, defaultValue, defaultValue, description)]
      ensures name !in old(bools) && source.LoadBool(name).1.Some? && source.LoadBool(name).1 != Some(NotFound) ==>
        err == source.LoadBool(name).1 && bools == old(bools)
    {
      if name in bools {
        return Some(AlreadyExists);
      }
      var b := BoolVar(name, defaultValue, defaultValue, description);
      var (v, lerr) := source.LoadBool(name);
      if lerr.None? {
        b := b.(value := v);
      }
      if lerr.Some? && lerr != Some(NotFound) {
        return lerr;
      }
      bools := bools[name := b];
      err := None;
    }

    method Bool(name: string, bugs: Bug.Registry, sprintf: (string, seq<string>) -> string)
      returns (v: bool, report: Option<Bug.Effect>)
      ensures name in bools ==> report.None? && v == bools[name].value
      ensures name !in bools ==>
        !v && report == Some(Bug.Call(bugs.handler, sprintf("config: bool variable %q does not exist", [name])))
    {
      if name in bools {
        return bools[name].value, None;
      }
      var e := bugs.Bugf(sprintf, "config: bool variable %q does not exist", [name]);
      return false, Some(e);
    }

    method DescribeBool(name: string, bugs: Bug.Registry, sprintf: (string, seq<string>) -> string)
      returns (d: string, report: Option<Bug.Effect>)
      ensures name in bools ==> report.None? && d == bools[name].description
      ensures name !in bools ==>
        d == "" && report == Some(Bug.Call(bugs.handler, sprintf("config: bool variable %q does not exist", [name])))
    {
      if name in bools {
        return bools[name].description, None;
      }
      var e := bugs.Bugf(sprintf, "config: bool variable %q does not exist", [name]);
      return "", Some(e);
    }
  }

  ghost predicate IntInvariant(n: string, i: IntVar)
  {
    && i.name == n
    && i.minimumValue <= i.defaultValue <= i.maximumValue
    && i.minimumValue <= i.value <= i.maximumValue
    && Accepts(i.validator, i.defaultValue)
    && Accepts(i.validator, i.value)
  }

  /** The sources named by WithSource options. */
  function ChosenSources(opts: seq<ConfigOption>): set<Source>
  {
    set k | 0 <= k < |opts| && opts[k].WithSource? :: opts[k].source
  }

  /** New: empty registries; the options in order; the environment source
      `env` when no WithSource was given; the load prefix handed to the
      chosen source. */
  method New(opts: seq<ConfigOption>, env: Source) returns (c: ConfigImpl)
    modifies env, ChosenSources(opts)
    ensures fresh(c) && c.Valid()
    ensures c.ints == map[] && c.strings == map[] && c.bools == map[]
    ensures c.loadPrefix == ApplyConfigOptions("", null, opts).0
    ensures ApplyConfigOptions("", null, opts).1 != null ==> c.source == ApplyConfigOptions("", null, opts).1
    ensures ApplyConfigOptions("", null, opts).1 == null ==> c.source == env
    ensures c.source.prefix == c.loadPrefix
  {
    c := new ConfigImpl();
    var k := 0;
    while k < |opts|
      invariant 0 <= k <= |opts|
      invariant fresh(c)
      invariant c.ints == map[] && c.strings == map[] && c.bools == map[]
      invariant (c.loadPrefix, c.source) == ApplyConfigOptions("", null, opts[..k])
      invariant c.source == null || c.source in ChosenSources(opts)
    {
      assert opts[..k + 1][..k] == opts[..k];
      c.Apply(opts[k]);
      k := k + 1;
    }
    assert opts[..k] == opts;
    if c.source == null {
      c.source := env;
    }
    c.source.SetPrefix(c.loadPrefix);
  }

  // Properties of the options of New.

  /** The last WithLoadPrefix wins, whatever follows it that is not one. */
  lemma {:induction false} LastPrefixWins(opts: seq<ConfigOption>, p: string, rest: seq<ConfigOption>)
    requires forall k :: 0 <= k < |rest| ==> rest[k].WithSource?
    ensures ApplyConfigOptions("", null, opts + [WithLoadPrefix(p)] + rest).0 == p
    decreases |rest|
  {
    var all := opts + [WithLoadPrefix(p)] + rest;
    if rest == [] {
      assert all[..|all| - 1] == opts;
    } else {
      var init := rest[..|rest| - 1];
      assert all[..|all| - 1] == opts + [WithLoadPrefix(p)] + init;
      LastPrefixWins(opts, p, init);
    }
  }

  /** Without a WithSource option no source is chosen, so the environment
      source is used. */
  lemma {:induction false} NoSourceOptionKeepsEnvironment(opts: seq<ConfigOption>)
    requires forall k :: 0 <= k < |opts| ==> opts[k].WithLoadPrefix?
    ensures ApplyConfigOptions("", null, opts).1 == null
    decreases |opts|
  {
    if opts != [] {
      NoSourceOptionKeepsEnvironment(opts[..|opts| - 1]);
    }
  }

  // Properties of the int registry.

  /** Default bounds: with no options the variable is registered with the
      bounds MinInt32..MaxInt32, no clamping and no validator. */
  lemma NoOptionsDefaultBounds(name: string, d: int, desc: string, load: (int, MaybeError))
    requires BuildInt(name, d, desc, [], load).Ok?
    ensures var v := BuildInt(name, d, desc, [], load).value;
      v.minimumValue == MinInt32 && v.maximumValue == MaxInt32 && !v.clampValue && v.validator.None?
  {
  }

  /** Options are applied in order and the last of a kind wins. */
  lemma LastMinimumWins(i: IntVar, opts: seq<IntOption>, m: int)
    requires ApplyIntOptions(i, opts).Ok?
    ensures ApplyIntOptions(i, opts + [WithMinimumValue(m)]).Ok?
    ensures ApplyIntOptions(i, opts + [WithMinimumValue(m)]).value.minimumValue == m
  {
    assert (opts + [WithMinimumValue(m)])[..|opts|] == opts;
  }

  /** After a failing option nothing more is applied: the first error is
      the result. */
  lemma {:induction false} FirstOptionErrorWins(i: IntVar, opts: seq<IntOption>, e: Error, rest: seq<IntOption>)
    requires ApplyIntOptions(i, opts).Ok?
    ensures ApplyIntOptions(i, opts + [FailingIntOption(e)] + rest) == Err(e)
    decreases |rest|
  {
    var all := opts + [FailingIntOption(e)] + rest;
    if rest == [] {
      assert all[..|all| - 1] == opts;
    } else {
      assert all[..|all| - 1] == opts + [FailingIntOption(e)] + rest[..|rest| - 1];
      FirstOptionErrorWins(i, opts, e, rest[..|rest| - 1]);
    }
  }

  /** Once an option has failed, the options after it do not matter. */
  lemma {:induction false} IntOptionErrorSticks(i: IntVar, opts: seq<IntOption>, k: nat)
    requires k <= |opts| && ApplyIntOptions(i, opts[..k]).Err?
    ensures ApplyIntOptions(i, opts) == ApplyIntOptions(i, opts[..k])
    decreases |opts| - k
  {
    if k < |opts| {
      assert opts[..k + 1][..k] == opts[..k];
      IntOptionErrorSticks(i, opts, k + 1);
    } else {
      assert opts[..k] == opts;
    }
  }

  lemma {:induction false} StringOptionErrorSticks(s: StringVar, opts: seq<StringOption>, k: nat)
    requires k <= |opts| && ApplyStringOptions(s, opts[..k]).Err?
    ensures ApplyStringOptions(s, opts) == ApplyStringOptions(s, opts[..k])
    decreases |opts| - k
  {
    if k < |opts| {
      assert opts[..k + 1][..k] == opts[..k];
      StringOptionErrorSticks(s, opts, k + 1);
    } else {
      assert opts[..k] == opts;
    }
  }

  /** Bounds in the wrong order are refused. */
  lemma InvalidRangeRefused(name: string, d: int, desc: string, opts: seq<IntOption>, load: (int, MaybeError))
    requires ApplyIntOptions(FreshInt(name, d, desc), opts).Ok?
    requires ApplyIntOptions(FreshInt(name, d, desc), opts).value.minimumValue >
             ApplyIntOptions(FreshInt(name, d, desc), opts).value.maximumValue
    ensures BuildInt(name, d, desc, opts, load) == Err(InvalidRange)
  {
  }

  /** When the source does not have the variable, its value is its
      (clamped) default. */
  lemma NotFoundKeepsDefault(name: string, d: int, desc: string, opts: seq<IntOption>, z: int)
    requires BuildInt(name, d, desc, opts, (z, Some(NotFound))).Ok?
    ensures var v := BuildInt(name, d, desc, opts, (z, Some(NotFound))).value;
      v.value == v.defaultValue &&
      v.defaultValue == ClampOrError(d, v.minimumValue, v.maximumValue, v.clampValue).0
  {
  }

  /** A value found in the source replaces the default once clamped, and
      only if it is in range (or clamping is on) and the validator accepts
      it. */
  lemma SourceValueOverrides(name: string, d: int, desc: string, opts: seq<IntOption>, x: int)
    requires ApplyIntOptions(FreshInt(name, d, desc), opts).Ok?
    ensures var i := ApplyIntOptions(FreshInt(name, d, desc), opts).value;
      var r := BuildInt(name, d, desc, opts, (x, None));
      && (r.Ok? ==> r.value.value == ClampOrError(x, i.minimumValue, i.maximumValue, i.clampValue).0)
      && (!i.clampValue && !(i.minimumValue <= x <= i.maximumValue) ==> r.Err?)
  {
  }

  /** Clamping is idempotent: a clamped value is in range and clamps to
      itself. */
  lemma ClampIdempotent(value: int, min: int, max: int, clamp: bool)
    requires min <= max && ClampOrError(value, min, max, clamp).1.None?
    ensures var c := ClampOrError(value, min, max, clamp).0;
      ClampOrError(c, min, max, clamp) == (c, None)
  {
  }

  /** A trace in the manner of the tests: an int with default 10 and
      minimum 20, clamping on, and a source without it, reads back 20; a
      second registration under the same name is refused. */
  method ClampedDefaultExample(bugs: Bug.Registry, sprintf: (string, seq<string>) -> string)
    returns (v: int, e1: MaybeError, e2: MaybeError)
    ensures e1 == None && v == 20 && e2 == Some(AlreadyExists)
  {
    var env := new Source(Failing(NotFound));
    var c := New([], env);
    assert c.source == env;
    var opts := [WithMinimumValue(20), WithClamping];
    ghost var i := FreshInt("x", 10, "an int").(minimumValue := 20, clampValue := true);
    assert opts[..1] == [WithMinimumValue(20)] && opts[..1][..0] == [];
    assert ApplyIntOptions(FreshInt("x", 10, "an int"), opts) == Ok(i);
    assert BuildInt("x", 10, "an int", opts, (0, Some(NotFound))) == Ok(i.(defaultValue := 20, value := 20));
    e1 := c.NewInt("x", 10, "an int", opts);
    var report;
    v, report := c.Int("x", bugs, sprintf);
    e2 := c.NewInt("x", 1, "again", []);
  }
}
