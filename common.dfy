/** Failure-carrying values shared by every module of the model.

    Go returns `(value, error)` pairs; the model returns a `Result` instead,
    and a bare `error` becomes an `Option<Error>` (None is Go's `nil`). */
module Common {

  datatype Option<+T> = None | Some(value: T)

  datatype Result<+T> = Ok(value: T) | Err(error: Error)

  /** The errors the core builds itself, one constructor per way it builds one.
      `Plain` also stands for an error handed up unchanged from a collaborator
      (the network, the sql driver, the file system). */
  datatype Error =
    | Plain(text: string)                  // errors.New(text)
    | RemoteFailed(code: string)           // fmt.Errorf("error: %s", resp.ErrorCode)
    | NotWithin(timeout: int)              // fmt.Errorf("the result was not obtained within: %d", timeout)
    | Wrapped(context: string, cause: Error) // fmt.Errorf("<context>: %w", cause)

  /** The fixed message of both polling loops when the context is done. */
  const TimeoutWaitingResult: string := "timeout waiting result"

  /** The fixed message of both status checks. */
  const UnexpectedStatusCode: string := "unexpected status code"

  /** database/sql's sql.ErrNoRows, returned by a point lookup that matches nothing. */
  const NoRows: Error := Plain("sql: no rows in result set")

  /** Go's int64 range, which bounds the auto-increment counter. */
  const MaxInt64: int := 0x7FFF_FFFF_FFFF_FFFF
}
