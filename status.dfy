/** Errors of the framework (status/error.go) and the classification of an
    HTTP response into an error (status/http.go). */
module Status {

  datatype Option<+T> = None | Some(value: T)

  /** A value or the error that prevented it. */
  datatype Result<+T> = Ok(value: T) | Err(error: Error)

  /** The sentinel errors of the status package. An error that wraps a
      sentinel with extra text is identified here with that sentinel.
      `Canceled` is the error of a cancelled context; `ShortWrite` is
      io.ErrShortWrite, the error of a buffer whose writer took fewer bytes
      than it was given without saying why; `Other` stands for an
      error made by code outside the framework (a hook, a worker, a source). */
  datatype Error =
    | InvalidVersion
    | InvalidRange
    | OutOfRange
    | AlreadyExists
    | NotFound
    | InvalidArgument
    | AlreadyStarted
    | NotStarted
    | NotImplemented
    | ServerError
    | ClientError
    | Canceled
    | ShortWrite
    | Other(code: nat)

  /** A Go `error` value: `None` is nil. */
  type MaybeError = Option<Error>

  const StatusBadRequest: int := 400
  const StatusInternalServerError: int := 500

  /** HTTPError: the transport error if there is one, otherwise a server
      error for 5xx, a client error for 4xx and nil below 400. */
  function HTTPError(statusCode: int, err: MaybeError): (r: MaybeError)
    ensures err.Some? ==> r == err
    ensures err.None? ==> (r == Some(ServerError) <==> statusCode >= StatusInternalServerError)
    ensures err.None? ==> (r == Some(ClientError) <==> StatusBadRequest <= statusCode < StatusInternalServerError)
    ensures err.None? ==> (r == None <==> statusCode < StatusBadRequest)
  {
    if err.Some? then err
    else if statusCode >= StatusInternalServerError then Some(ServerError)
    else if statusCode >= StatusBadRequest then Some(ClientError)
    else None
  }
}
