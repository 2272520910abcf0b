/** The adapter from the standard library's log.Logger to the framework's
    logger (logging/adapter.go): bytes written to it are cut into lines,
    and each complete line is logged at the adapter's level. */
module Logging {
  import opened Status

  type Byte = b: int | 0 <= b < 256

  const Newline: Byte := 10

  /** AdaptedLevel: Debug, Info, Warn and Error are 0, 1, 2 and 3. */
  const AdaptedLevelDebug: int := 0
  const AdaptedLevelInfo: int := 1
  const AdaptedLevelWarn: int := 2
  const AdaptedLevelError: int := 3

  datatype Level = Debug | Info | Warn | Error

  /** A call received by the framework's logger. */
  datatype LogCall = LogCall(level: Level, message: seq<Byte>)

  /** The framework's logger, as the calls it has received. */
  class Sink {
    var calls: seq<LogCall>

    constructor ()
      ensures calls == []
    {
      calls := [];
    }

    method Log(level: Level, message: seq<Byte>)
      modifies this
      ensures calls == old(calls) + [LogCall(level, message)]
    {
      calls := calls + [LogCall(level, message)];
    }
  }

  /** The level method an adapted level selects; other levels select none. */
  function LevelOf(adapted: int): (r: Option<Level>)
    ensures r.None? <==> !(AdaptedLevelDebug <= adapted <= AdaptedLevelError)
  {
    if adapted == AdaptedLevelDebug then Some(Debug)
    else if adapted == AdaptedLevelInfo then Some(Info)
    else if adapted == AdaptedLevelWarn then Some(Warn)
    else if adapted == AdaptedLevelError then Some(Error)
    else None
  }

  /** The index of the first newline in `s`, if there is one. */
  function IndexOfNewline(s: seq<Byte>): (r: Option<nat>)
    ensures r.Some? ==> r.value < |s| && s[r.value] == Newline
  {
    if s == [] then None
    else if s[0] == Newline then Some(0)
    else
      var r := IndexOfNewline(s[1..]);
      if r.Some? then Some(r.value + 1) else None
  }

  /** The index found is the first newline; finding none means there is
      none. */
  lemma {:induction false} IndexOfNewlineIsFirst(s: seq<Byte>)
    ensures IndexOfNewline(s).Some? ==> forall k :: 0 <= k < IndexOfNewline(s).value ==> s[k] != Newline
    ensures IndexOfNewline(s).None? ==> forall k :: 0 <= k < |s| ==> s[k] != Newline
    decreases |s|
  {
    if s != [] && s[0] != Newline {
      IndexOfNewlineIsFirst(s[1..]);
      assert forall k :: 1 <= k < |s| ==> s[k] == s[1..][k - 1];
    }
  }

  /** The complete lines of `s`, in order, without their newlines. */
  function Lines(s: seq<Byte>): (r: seq<seq<Byte>>)
    decreases |s|
  {
    match IndexOfNewline(s)
    case None => []
    case Some(i) => [s[..i]] + Lines(s[i + 1..])
  }

  /** The bytes after the last newline of `s`. */
  function Rest(s: seq<Byte>): seq<Byte>
    decreases |s|
  {
    match IndexOfNewline(s)
    case None => s
    case Some(i) => Rest(s[i + 1..])
  }

  /** Lines put back together, each followed by a newline. */
  function Unlines(lines: seq<seq<Byte>>): seq<Byte>
  {
    if lines == [] then [] else lines[0] + [Newline] + Unlines(lines[1..])
  }

  /** The calls a sequence of lines makes at a level. */
  function Calls(level: Option<Level>, lines: seq<seq<Byte>>): (r: seq<LogCall>)
    ensures level.None? ==> r == []
    ensures level.Some? ==> |r| == |lines|
  {
    if level.None? || lines == [] then []
    else [LogCall(level.value, lines[0])] + Calls(level, lines[1..])
  }

  /** With a level, the k-th line becomes the k-th call, at that level. */
  lemma {:induction false} CallsAt(level: Option<Level>, lines: seq<seq<Byte>>, k: nat)
    requires level.Some? && k < |lines|
    ensures Calls(level, lines)[k] == LogCall(level.value, lines[k])
    decreases k
  {
    if k > 0 {
      CallsAt(level, lines[1..], k - 1);
    }
  }

  class Adapter {
    const level: int
    const logger: Sink
    var buffer: seq<Byte>

    /** NewAdapter */
    constructor (logger: Sink, level: int)
      ensures this.logger == logger && this.level == level && buffer == []
    {
      this.logger := logger;
      this.level := level;
      buffer := [];
    }

    /** Write appends to the buffer and pumps out every complete line. The
        bytes after the last newline are consumed by the read that finds
        no newline, so the buffer is always empty afterwards. */
    method Write(b: seq<Byte>) returns (n: int, err: MaybeError)
      modifies this`buffer, logger
      ensures n == |b| && err == None
      ensures buffer == []
      ensures logger.calls == old(logger.calls) + Calls(LevelOf(level), Lines(old(buffer) + b))
    {
      buffer := buffer + b;
      ghost var all := buffer;
      ghost var lv := LevelOf(level);
      while true
        invariant logger.calls + Calls(lv, Lines(buffer)) == old(logger.calls) + Calls(lv, Lines(all))
        decreases |buffer|
      {
        var i := IndexOfNewline(buffer);
        if i.None? {
          buffer := [];
          break;
        }
        var line := buffer[..i.value + 1];
        ghost var before := buffer;
        buffer := buffer[i.value + 1..];
        line := line[..|line| - 1];
        LinesStep(before, i.value);
        assert line == before[..i.value];
        ghost var callsBefore := logger.calls;
        var selected := LevelOf(level);
        if selected.Some? {
          logger.Log(selected.value, line);
        }
        PumpStep(callsBefore, lv, line, Lines(buffer), logger.calls);
      }
      return |b|, None;
    }
  }

  // Properties of the line pump.

  /** Lines unfolded once at the first newline. */
  lemma LinesStep(s: seq<Byte>, i: nat)
    requires IndexOfNewline(s) == Some(i)
    ensures Lines(s) == [s[..i]] + Lines(s[i + 1..])
  {
  }

  /** One turn of the pump: logging a line moves its call from the pending
      calls to the logger. */
  lemma PumpStep(done: seq<LogCall>, level: Option<Level>, line: seq<Byte>, rest: seq<seq<Byte>>,
                 now: seq<LogCall>)
    requires now == done + (if level.Some? then [LogCall(level.value, line)] else [])
    ensures now + Calls(level, rest) == done + Calls(level, [line] + rest)
  {
    CallsCons(level, line, rest);
    var logged := if level.Some? then [LogCall(level.value, line)] else [];
    var pending := Calls(level, rest);
    assert Calls(level, [line] + rest) == logged + pending;
    assert (done + logged) + pending == done + (logged + pending);
  }

  lemma CallsCons(level: Option<Level>, line: seq<Byte>, lines: seq<seq<Byte>>)
    ensures Calls(level, [line] + lines) ==
      (if level.Some? then [LogCall(level.value, line)] else []) + Calls(level, lines)
  {
    if level.Some? {
      assert ([line] + lines)[1..] == lines;
    }
  }

  /** Cutting into lines loses nothing: the lines, each with its newline,
      followed by the rest, give back the input. */
  lemma {:induction false} LinesRoundTrip(s: seq<Byte>)
    ensures Unlines(Lines(s)) + Rest(s) == s
    decreases |s|
  {
    var r := IndexOfNewline(s);
    if r.Some? {
      var i := r.value;
      var t := s[i + 1..];
      LinesRoundTrip(t);
      LinesStep(s, i);
      RestStep(s, i);
      UnlinesCons(s[..i], Lines(t));
      Reassemble(s, i, Unlines(Lines(t)), Rest(t));
    }
  }

  lemma UnlinesCons(line: seq<Byte>, lines: seq<seq<Byte>>)
    ensures Unlines([line] + lines) == line + [Newline] + Unlines(lines)
  {
    assert ([line] + lines)[1..] == lines;
  }

  lemma RestStep(s: seq<Byte>, i: nat)
    requires IndexOfNewline(s) == Some(i)
    ensures Rest(s) == Rest(s[i + 1..])
  {
  }

  /** Putting a line, its newline and a cut-up remainder back together. */
  lemma Reassemble(s: seq<Byte>, i: nat, u: seq<Byte>, rest: seq<Byte>)
    requires i < |s| && s[i] == Newline && u + rest == s[i + 1..]
    ensures (s[..i] + [Newline] + u) + rest == s
  {
    assert (s[..i] + [Newline] + u) + rest == s[..i] + [Newline] + (u + rest);
    SplitAtNewline(s, i);
  }

  lemma SplitAtNewline(s: seq<Byte>, i: nat)
    requires i < |s| && s[i] == Newline
    ensures s[..i] + [Newline] + s[i + 1..] == s
  {
  }

  /** No logged line contains a newline; the rest has none either. */
  lemma {:induction false} LinesHaveNoNewline(s: seq<Byte>)
    ensures forall k, j :: 0 <= k < |Lines(s)| && 0 <= j < |Lines(s)[k]| ==> Lines(s)[k][j] != Newline
    ensures forall j :: 0 <= j < |Rest(s)| ==> Rest(s)[j] != Newline
    decreases |s|
  {
    IndexOfNewlineIsFirst(s);
    var r := IndexOfNewline(s);
    if r.Some? {
      var i := r.value;
      var t := s[i + 1..];
      LinesHaveNoNewline(t);
      LinesStep(s, i);
      assert forall k :: 1 <= k < |Lines(s)| ==> Lines(s)[k] == Lines(t)[k - 1];
    }
  }

  /** The number of newlines in `s`. */
  function CountNewlines(s: seq<Byte>): nat
  {
    if s == [] then 0 else (if s[0] == Newline then 1 else 0) + CountNewlines(s[1..])
  }

  lemma {:induction false} CountAppend(a: seq<Byte>, b: seq<Byte>)
    ensures CountNewlines(a + b) == CountNewlines(a) + CountNewlines(b)
    decreases |a|
  {
    if a == [] {
      assert a + b == b;
    } else {
      assert (a + b)[0] == a[0];
      assert (a + b)[1..] == a[1..] + b;
      CountAppend(a[1..], b);
      assert CountNewlines(a + b) == (if a[0] == Newline then 1 else 0) + CountNewlines(a[1..] + b);
    }
  }

  lemma {:induction false} NoNewlineCountsZero(s: seq<Byte>)
    requires forall k :: 0 <= k < |s| ==> s[k] != Newline
    ensures CountNewlines(s) == 0
    decreases |s|
  {
    if s != [] {
      NoNewlineCountsZero(s[1..]);
    }
  }

  /** One logged line per newline written: input without a newline logs
      nothing. */
  lemma {:induction false} OneLinePerNewline(s: seq<Byte>)
    ensures |Lines(s)| == CountNewlines(s)
    decreases |s|
  {
    IndexOfNewlineIsFirst(s);
    var r := IndexOfNewline(s);
    if r.None? {
      NoNewlineCountsZero(s);
    } else {
      OneLinePerNewline(s[r.value + 1..]);
      LinesStep(s, r.value);
      CountAtFirstNewline(s, r.value);
    }
  }

  /** The newlines of `s` are the first one plus those after it. */
  lemma CountAtFirstNewline(s: seq<Byte>, i: nat)
    requires i < |s| && s[i] == Newline
    requires forall k :: 0 <= k < i ==> s[k] != Newline
    ensures CountNewlines(s) == 1 + CountNewlines(s[i + 1..])
  {
    var t := s[i + 1..];
    SplitAtNewline(s, i);
    assert s == s[..i] + ([Newline] + t);
    CountAppend(s[..i], [Newline] + t);
    CountAppend([Newline], t);
    NoNewlineCountsZero(s[..i]);
    assert CountNewlines([Newline]) == 1;
  }

  /** The message the standard logger writes for Print("hi") is logged as
      "hi" at the adapter's level. */
  method PrintExample() returns (calls: seq<LogCall>)
    ensures calls == [LogCall(Info, [104, 105])]
  {
    var sink := new Sink();
    var a := new Adapter(sink, AdaptedLevelInfo);
    var message: seq<Byte> := [104, 105, 10];
    assert IndexOfNewline(message) == Some(2);
    assert message[3..] == [] && message[..2] == [104, 105];
    assert Lines(message) == [[104, 105]] + Lines([]);
    assert [] + message == message;
    var _, _ := a.Write(message);
    calls := sink.calls;
    assert calls == Calls(Some(Info), [[104, 105]]);
  }
}
