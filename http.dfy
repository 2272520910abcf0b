/** Small response-writer logic of the HTTP server (http/error_logging.go,
    http/buffer.go, http/middleware.go). A response writer downstream is a
    recorder of what reaches the connection. */
module Http {
  import opened Status

  type Byte = b: int | 0 <= b < 256

  /** The longest error body kept whole, and the marker appended to a cut
      one. */
  const MaxLoggedBody: nat := 512
  const Ellipsis: seq<Byte> := [46, 46, 46]

  /** The writer at the end of the chain: the header map, every status
      sent and the body bytes sent. */
  class Recorder {
    var header: map<string, seq<string>>
    var statuses: seq<int>
    var body: seq<Byte>

    constructor ()
      ensures header == map[] && statuses == [] && body == []
    {
      header, statuses, body := map[], [], [];
    }

    method WriteHeader(statusCode: int)
      modifies this`statuses
      ensures statuses == old(statuses) + [statusCode]
    {
      statuses := statuses + [statusCode];
    }

    /** How much of `data` the connection takes, and the error it
        reports, are decided outside the program: `accepted` and `failure`
        are those answers. As io.Writer promises, the count is at most
        the length of `data`; the first `accepted` bytes are written. */
    method Write(data: seq<Byte>, accepted: nat, failure: MaybeError) returns (n: int, err: MaybeError)
      requires accepted <= |data|
      modifies this`body
      ensures n == accepted && err == failure && body == old(body) + data[..accepted]
    {
      body := body + data[..accepted];
      return accepted, failure;
    }
  }

  // Error logging.

  /** The part of an error body that is logged: the body itself when it is
      short, otherwise its first 512 bytes followed by "...". */
  function Capture(data: seq<Byte>): (r: seq<Byte>)
    ensures |data| <= MaxLoggedBody ==> r == data
    ensures |data| > MaxLoggedBody ==> |r| == MaxLoggedBody + 3
    ensures |data| > MaxLoggedBody ==> r[..MaxLoggedBody] == data[..MaxLoggedBody] && r[MaxLoggedBody..] == Ellipsis
  {
    if |data| <= MaxLoggedBody then data else data[..MaxLoggedBody] + Ellipsis
  }

  /** errorLoggingInterceptor: forwards everything to `w` and remembers the
      status and, for an error status, the body last written. */
  class ErrorLoggingInterceptor {
    const w: Recorder
    var statusCode: int
    var body: seq<Byte>

    constructor (w: Recorder)
      ensures this.w == w && statusCode == 0 && body == []
    {
      this.w := w;
      statusCode := 0;
      body := [];
    }

    method WriteHeader(statusCode: int)
      modifies this`statusCode, w`statuses
      ensures this.statusCode == statusCode
      ensures w.statuses == old(w.statuses) + [statusCode]
    {
      this.statusCode := statusCode;
      w.WriteHeader(statusCode);
    }

    /** Write: the body goes downstream whatever the status, and the
        downstream result is returned; with an error status the body is
        also captured, replacing any earlier capture. The capture is a
        copy of the bytes written (see RetainingInterceptor for the short
        body kept by reference). */
    method Write(data: seq<Byte>, accepted: nat, failure: MaybeError) returns (n: int, err: MaybeError)
      requires accepted <= |data|
      modifies this`body, w`body
      ensures statusCode >= 500 ==> body == Capture(data)
      ensures statusCode < 500 ==> body == old(body)
      ensures n == accepted && err == failure && w.body == old(w.body) + data[..accepted]
    {
      if statusCode >= 500 {
        if |data| <= MaxLoggedBody {
          body := data;
        } else {
          var buf := new Byte[MaxLoggedBody + 3];
          forall k | 0 <= k < MaxLoggedBody {
            buf[k] := data[k];
          }
          forall k | MaxLoggedBody <= k < MaxLoggedBody + 3 {
            buf[k] := Ellipsis[k - MaxLoggedBody];
          }
          body := buf[..];
          assert body[..MaxLoggedBody] == data[..MaxLoggedBody];
          assert body[MaxLoggedBody..] == Ellipsis;
        }
      }
      n, err := w.Write(data, accepted, failure);
    }
  }

  /** errorLoggingInterceptor.Write as the source has it keeps a short
      error body by reference: the capture is the caller's own buffer.
      Only the capture is modelled here; forwarding is as in
      ErrorLoggingInterceptor. */
  class RetainingInterceptor {
    var statusCode: int
    var body: array<Byte>

    constructor ()
      ensures statusCode == 0 && body.Length == 0
    {
      statusCode := 0;
      body := new Byte[0];
    }

    method WriteHeader(statusCode: int)
      modifies this`statusCode
      ensures this.statusCode == statusCode
    {
      this.statusCode := statusCode;
    }

    method Write(data: array<Byte>)
      modifies this`body
      ensures statusCode >= 500 && data.Length <= MaxLoggedBody ==> body == data
      ensures statusCode >= 500 && data.Length > MaxLoggedBody ==> fresh(body) && body[..] == Capture(data[..])
      ensures statusCode < 500 ==> body == old(body)
    {
      if statusCode >= 500 {
        if data.Length <= MaxLoggedBody {
          body := data;
        } else {
          var buf := new Byte[MaxLoggedBody + 3];
          forall k | 0 <= k < MaxLoggedBody {
            buf[k] := data[k];
          }
          forall k | MaxLoggedBody <= k < MaxLoggedBody + 3 {
            buf[k] := Ellipsis[k - MaxLoggedBody];
          }
          body := buf;
          assert body[..][..MaxLoggedBody] == data[..][..MaxLoggedBody];
          assert body[..][MaxLoggedBody..] == Ellipsis;
        }
      }
    }
  }

  /** A handler that writes the bytes 1, 2 with status 500 and then reuses its
      buffer, as io.Writer allows once Write has returned: the retained
      capture logs the reused contents, not the bytes that were written. */
  method RetainedBodyChangesExample() returns (written: seq<Byte>, logged: seq<Byte>)
    ensures written == [1, 2] && logged == [9, 2]
    ensures logged != Capture(written)
  {
    var i := new RetainingInterceptor();
    i.WriteHeader(500);
    var p := new Byte[2];
    p[0], p[1] := 1, 2;
    i.Write(p);
    written := p[..];
    p[0] := 9;
    logged := i.body[..];
  }

  /** What a handler does to its response writer, in order; a write
      carries what the downstream writer answers to it. */
  datatype Action =
    | WriteHeaderAction(code: int)
    | WriteAction(data: seq<Byte>, accepted: nat, failure: MaybeError)

  /** Every downstream answer keeps the io.Writer bound on its count. */
  predicate WellFormed(actions: seq<Action>)
  {
    forall k :: 0 <= k < |actions| && actions[k].WriteAction? ==> actions[k].accepted <= |actions[k].data|
  }

  /** The status and the captured body after a handler's actions. */
  function Replay(actions: seq<Action>): (r: (int, seq<Byte>))
  {
    if actions == [] then (0, [])
    else
      var (status, body) := Replay(actions[..|actions| - 1]);
      match actions[|actions| - 1]
      case WriteHeaderAction(code) => (code, body)
      case WriteAction(data, _, _) => (status, if status >= 500 then Capture(data) else body)
  }

  /** The line the middleware logs. */
  datatype ErrorLog = ErrorLog(statusCode: int, path: string, body: seq<Byte>)

  /** ErrorLoggingMiddleware(logger)(pattern, handler) serving one request:
      the handler runs against the interceptor; afterwards one line is
      logged if the final status is an error status. */
  method ServeWithErrorLogging(pattern: string, handler: seq<Action>, w: Recorder)
    returns (logged: Option<ErrorLog>)
    requires WellFormed(handler)
    modifies w
    ensures logged.Some? <==> Replay(handler).0 >= 500
    ensures logged.Some? ==> logged.value == ErrorLog(Replay(handler).0, pattern, Replay(handler).1)
  {
    var i := new ErrorLoggingInterceptor(w);
    var k := 0;
    while k < |handler|
      invariant 0 <= k <= |handler|
      invariant i.w == w
      invariant (i.statusCode, i.body) == Replay(handler[..k])
      modifies i, w
    {
      assert handler[..k + 1][..k] == handler[..k];
      match handler[k] {
        case WriteHeaderAction(code) => i.WriteHeader(code);
        case WriteAction(data, accepted, failure) => var _, _ := i.Write(data, accepted, failure);
      }
      k := k + 1;
    }
    assert handler[..k] == handler;
    if i.statusCode >= 500 {
      return Some(ErrorLog(i.statusCode, pattern, i.body));
    }
    return None;
  }

  /** The k-th action is a write made while the status is an error
      status. */
  predicate ErrorWrite(actions: seq<Action>, k: int)
    requires 0 <= k < |actions|
  {
    actions[k].WriteAction? && Replay(actions[..k]).0 >= 500
  }

  /** Without a write under an error status nothing is captured. */
  lemma {:induction false} NoErrorWriteMeansEmpty(actions: seq<Action>)
    requires forall k :: 0 <= k < |actions| ==> !ErrorWrite(actions, k)
    ensures Replay(actions).1 == []
    decreases |actions|
  {
    if actions != [] {
      var init := actions[..|actions| - 1];
      forall k | 0 <= k < |init|
        ensures !ErrorWrite(init, k)
      {
        assert init[..k] == actions[..k];
        assert !ErrorWrite(actions, k);
      }
      NoErrorWriteMeansEmpty(init);
      assert !ErrorWrite(actions, |actions| - 1);
    }
  }

  /** What is logged is the last body written under an error status, cut
      as Capture cuts it: later writes under a lower status do not
      replace it. */
  lemma {:induction false} LastErrorWriteIsKept(actions: seq<Action>, k: nat)
    requires k < |actions| && ErrorWrite(actions, k)
    requires forall j :: k < j < |actions| ==> !ErrorWrite(actions, j)
    ensures Replay(actions).1 == Capture(actions[k].data)
    decreases |actions|
  {
    var init := actions[..|actions| - 1];
    if k < |actions| - 1 {
      assert init[..k] == actions[..k];
      forall j | k < j < |init|
        ensures !ErrorWrite(init, j)
      {
        assert init[..j] == actions[..j];
        assert !ErrorWrite(actions, j);
      }
      LastErrorWriteIsKept(init, k);
      assert !ErrorWrite(actions, |actions| - 1);
    }
  }

  /** The trace of the tests: status 500 and a 600-byte body log the first
      512 bytes and "..."; status 400 logs nothing. */
  lemma LongErrorBodyIsCut(data: seq<Byte>)
    requires |data| == 600
    ensures Replay([WriteHeaderAction(500), WriteAction(data, 600, None)]) == (500, data[..512] + Ellipsis)
    ensures |Replay([WriteHeaderAction(500), WriteAction(data, 600, None)]).1| == 515
    ensures Replay([WriteHeaderAction(400), WriteAction(data, 600, None)]).0 < 500
  {
    var a := [WriteHeaderAction(500), WriteAction(data, 600, None)];
    assert a[..1] == [WriteHeaderAction(500)] && a[..1][..0] == [];
    var b := [WriteHeaderAction(400), WriteAction(data, 600, None)];
    assert b[..1] == [WriteHeaderAction(400)] && b[..1][..0] == [];
  }

  // The buffered response writer.

  class BufferedResponseWriter {
    const writer: Recorder
    var body: seq<Byte>
    var statusCode: int

    /** NewBufferedResponseWriter */
    constructor (w: Recorder)
      ensures writer == w && body == [] && statusCode == 0
    {
      writer := w;
      body := [];
      statusCode := 0;
    }

    /** Header is the header map of the writer underneath. */
    function Header(): (h: map<string, seq<string>>)
      reads this, writer
      ensures h == writer.header
    {
      writer.header
    }

    /** Write only buffers: nothing reaches the writer underneath. */
    method Write(data: seq<Byte>) returns (n: int, err: MaybeError)
      modifies this`body
      ensures body == old(body) + data && n == |data| && err == None
    {
      body := body + data;
      return |data|, None;
    }

    /** WriteHeader only records the status. */
    method WriteHeader(statusCode: int)
      modifies this`statusCode
      ensures this.statusCode == statusCode
    {
      this.statusCode := statusCode;
    }

    /** Flush sends the recorded status, if any, then the buffered body
        as bytes.Buffer.WriteTo does: an empty buffer writes nothing;
        otherwise the bytes the writer takes (`accepted`, with its error
        `failure`) leave the buffer and the rest stay. A writer error is
        returned; a writer that took less without an error gives
        ShortWrite; only a complete write empties the buffer with no
        error. */
    method Flush(accepted: nat, failure: MaybeError) returns (n: int, err: MaybeError)
      requires accepted <= |body|
      modifies this`body, writer`statuses, writer`body
      ensures statusCode != 0 ==> writer.statuses == old(writer.statuses) + [statusCode]
      ensures statusCode == 0 ==> writer.statuses == old(writer.statuses)
      ensures n == accepted && writer.body == old(writer.body) + old(body)[..accepted]
      ensures body == old(body)[accepted..]
      ensures writer.body + body == old(writer.body) + old(body)
      ensures old(body) != [] && failure.Some? ==> err == failure
      ensures old(body) != [] && failure.None? && accepted < |old(body)| ==> err == Some(ShortWrite)
      ensures err == None <==> old(body) == [] || (failure.None? && accepted == |old(body)|)
    {
      if statusCode != 0 {
        writer.WriteHeader(statusCode);
      }
      n, err := 0, None;
      var size := |body|;
      if size > 0 {
        var m, e := writer.Write(body, accepted, failure);
        assert body == body[..m] + body[m..];
        body := body[m..];
        n := m;
        if e.Some? {
          return n, e;
        }
        if m != size {
          return n, Some(ShortWrite);
        }
      }
      body := [];
    }
  }

  /** A trace as in the tests: two writes then a status, flushed once,
      reach the writer as the status then the concatenated body; a second
      flush sends the status again and no body. */
  method FlushExample() returns (w: Recorder, n1: int, n2: int)
    ensures w.statuses == [201, 201] && w.body == [104, 105, 33] && n1 == 3 && n2 == 0
  {
    w := new Recorder();
    var b := new BufferedResponseWriter(w);
    var _, _ := b.Write([104, 105]);
    var _, _ := b.Write([33]);
    b.WriteHeader(201);
    assert w.body == [] && w.statuses == [];
    var e;
    n1, e := b.Flush(3, None);
    n2, e := b.Flush(0, None);
  }

  /** A flush the writer cuts short: a writer that takes 2 of 3 bytes and
      fails gives the count 2 and its error and keeps the third byte; one
      that takes nothing without an error gives ShortWrite; a later
      complete flush sends the byte kept. */
  method ShortFlushExample() returns (w: Recorder, n1: int, e1: MaybeError, n2: int, e2: MaybeError, n3: int, e3: MaybeError)
    ensures n1 == 2 && e1 == Some(Other(7))
    ensures n2 == 0 && e2 == Some(ShortWrite)
    ensures n3 == 1 && e3 == None
    ensures w.body == [104, 105, 33]
  {
    w := new Recorder();
    var b := new BufferedResponseWriter(w);
    var _, _ := b.Write([104, 105, 33]);
    n1, e1 := b.Flush(2, Some(Other(7)));
    assert w.body == [104, 105] && b.body == [33];
    n2, e2 := b.Flush(0, None);
    n3, e3 := b.Flush(1, None);
  }

  // The middleware list.

  datatype Middleware = Middleware(tag: nat)

  /** A handler as built from the middleware list: an innermost handler
      wrapped by middleware, outermost first. */
  datatype Handler = Final(tag: nat) | Wrapped(m: Middleware, inner: Handler)

  class Server {
    var middleware: seq<Middleware>

    constructor ()
      ensures middleware == []
    {
      middleware := [];
    }

    /** The WithMiddleware option applied to the server: `m`, then `more`,
        at the end of the list; it never fails. */
    method WithMiddleware(m: Middleware, more: seq<Middleware>) returns (err: MaybeError)
      modifies this`middleware
      ensures middleware == old(middleware) + [m] + more
      ensures err == None
    {
      middleware := middleware + [m];
      middleware := middleware + more;
      err := None;
    }
  }

  /** The handler the list stands for: the first middleware outermost. */
  function Chain(ms: seq<Middleware>, h: Handler): Handler
  {
    if ms == [] then h else Wrapped(ms[0], Chain(ms[1..], h))
  }

  /** The middleware a request passes through, in order. */
  function Invoked(h: Handler): seq<Middleware>
  {
    match h
    case Final(_) => []
    case Wrapped(m, inner) => [m] + Invoked(inner)
  }

  /** A request passes through the middleware in list order: the first
      one added is invoked first. */
  lemma {:induction false} InvokedInListOrder(ms: seq<Middleware>, tag: nat)
    ensures Invoked(Chain(ms, Final(tag))) == ms
    decreases |ms|
  {
    if ms != [] {
      InvokedInListOrder(ms[1..], tag);
    }
  }

  /** Adding middleware keeps what was there as the outer layers: the old
      chain's order is a prefix of the new one's, which grows by 1 + |more|. */
  lemma ExtendingKeepsOuterLayers(before: seq<Middleware>, m: Middleware, more: seq<Middleware>, tag: nat)
    ensures var ms := before + [m] + more;
      && |Invoked(Chain(ms, Final(tag)))| == |before| + 1 + |more|
      && Invoked(Chain(ms, Final(tag)))[..|before|] == before
      && Invoked(Chain(ms, Final(tag)))[|before|] == m
  {
    InvokedInListOrder(before + [m] + more, tag);
  }
}
