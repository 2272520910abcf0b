/** The process-wide bug handler (bug/bug.go). A handler is either the
    default one, which panics with the message, or one installed by the
    application, identified by a tag. */
module Bug {

  datatype HandlerFunc = PanicHandler | Installed(tag: nat)

  /** What happens when a handler is called with a message. */
  datatype Effect = Panicked(message: string) | Handled(tag: nat, message: string)

  /** Calling a handler: the message reaches it unchanged; only the default
      handler panics. */
  function Call(h: HandlerFunc, message: string): (e: Effect)
    ensures e.message == message
    ensures e.Panicked? <==> h == PanicHandler
    ensures e.Handled? ==> e.tag == h.tag
  {
    match h
    case PanicHandler => Panicked(message)
    case Installed(tag) => Handled(tag, message)
  }

  /** The package-level handler variable; the mutex that guards it is left
      out (each method below is one critical section). */
  class Registry {
    var handler: HandlerFunc

    constructor ()
      ensures handler == PanicHandler
    {
      handler := PanicHandler;
    }

    method SetHandler(h: HandlerFunc)
      modifies this
      ensures handler == h
    {
      handler := h;
    }

    method Handler() returns (h: HandlerFunc)
      ensures h == handler
    {
      h := handler;
    }

    /** Bug passes its message unchanged to the current handler. */
    method Bug(message: string) returns (e: Effect)
      ensures e == Call(handler, message)
      ensures e.message == message
    {
      var h := Handler();
      e := Call(h, message);
    }

    /** Bugf is Bug applied to the formatted message; the formatter
        (fmt.Sprintf) is a parameter. */
    method Bugf(sprintf: (string, seq<string>) -> string, format: string, args: seq<string>)
      returns (e: Effect)
      ensures e == Call(handler, sprintf(format, args))
    {
      e := Bug(sprintf(format, args));
    }
  }

  /** A trace as in the tests: after installing a handler, Handler returns
      it and Bug reaches it; the default handler panics. */
  method HandlerRoundTrip(tag: nat, message: string) returns (before: Effect, after: Effect)
    ensures before == Panicked(message)
    ensures after == Handled(tag, message)
  {
    var r := new Registry();
    before := r.Bug(message);
    r.SetHandler(Installed(tag));
    var h := r.Handler();
    assert h == Installed(tag);
    after := r.Bug(message);
  }
}
