/** The error type with a status code and the last middleware of the
    chain, which turns whatever error reached it into exactly one response
    and never passes it on. */
module ErrorHandler {
  import opened Outcomes

  const InternalServerError: string := "Internal Server Error!"

  /** An error that carries its own HTTP status. */
  datatype CustomError = CustomError(message: string, statusCode: int)

  /** `new CustomError(message, statusCode)`: the status is the one given,
      or 500 when it is missing or falsy (0). */
  function NewCustomError(message: string, statusCode: Option<int>): (e: CustomError)
    ensures e.message == message
    ensures e.statusCode != 0
    ensures statusCode.Some? && statusCode.value != 0 ==> e.statusCode == statusCode.value
    ensures statusCode.None? || statusCode.value == 0 ==> e.statusCode == 500
  {
    var code := if statusCode.Some? && statusCode.value != 0 then statusCode.value else 500;
    CustomError(message, code)
  }

  /** The value the handler receives as `err`. */
  datatype ErrorValue =
    | Falsy
    | Custom(custom: CustomError)
    | Other(message: string)

  /** The single response written: a status and the body `{error: text}`. */
  datatype ErrorResponse = ErrorResponse(status: int, error: string)

  /** A custom error built by its constructor never carries status 0. */
  ghost predicate Constructed(err: ErrorValue) {
    err.Custom? ==> err.custom.statusCode != 0
  }

  /** The handler. Only a CustomError chooses its status; everything else is
      a 500, and the body always carries the error's own message except when
      there is no error at all. */
  function Handle(err: ErrorValue): (r: ErrorResponse)
    ensures r.status != 500 ==> err.Custom? && r.status == err.custom.statusCode
    ensures err.Custom? ==> r.status == err.custom.statusCode && r.error == err.custom.message
    ensures err.Other? ==> r.status == 500 && r.error == err.message
    ensures err.Falsy? ==> r == ErrorResponse(500, InternalServerError)
    ensures Constructed(err) ==> r.status != 0
  {
    match err
    case Falsy => ErrorResponse(500, InternalServerError)
    case Custom(e) => ErrorResponse(e.statusCode, e.message)
    case Other(message) => ErrorResponse(500, message)
  }

  /** A CustomError answers with the status it was built with (500 when
      none or 0 was given) and its own message. */
  lemma CustomErrorResponse(message: string, statusCode: Option<int>)
    ensures Handle(Custom(NewCustomError(message, statusCode))) ==
      ErrorResponse(if statusCode.Some? && statusCode.value != 0 then statusCode.value else 500, message)
  {
  }
}
