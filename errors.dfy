/**
 * Errors and their HTTP rendering: the `AppError` value every handler raises, the
 * errors libraries and the database throw, and the error handler that turns any of
 * them into the response the client sees.
 */
module Errors {
  import opened Wrappers

  /**
   * The `name` of a thrown error, as far as the error handler tells them apart:
   * mongoose's cast and validation errors, the two token-library errors, and
   * everything else (an `AppError`, a driver error, a coding defect).
   */
  datatype ErrorName = CastError | ValidationError | JsonWebTokenError | TokenExpiredError | OtherError

  /**
   * A thrown error, with the properties the error handler reads. Library errors carry
   * no `statusCode`/`status` and are not operational; `code` is the driver's error
   * code (11000 for a duplicate key), `path`/`value` describe a failed cast, and
   * `errors` holds the messages of a failed validation, one per schema path.
   */
  datatype Fault = Fault(
    name: ErrorName,
    message: string,
    code: Option<int>,
    statusCode: Option<int>,
    status: Option<string>,
    isOperational: bool,
    path: string,
    value: string,
    errors: seq<string>)

  /** `new AppError(message, statusCode)`: an operational error with status "error". */
  function AppError(message: string, statusCode: int): (e: Fault)
    ensures e.message == message && e.statusCode == Some(statusCode)
    ensures e.status == Some("error") && e.isOperational
    ensures e.name == OtherError && e.code == None
  {
    Fault(OtherError, message, None, Some(statusCode), Some("error"), true, "", "", [])
  }

  /** An error thrown by a library: no status code, not operational. */
  function LibraryError(name: ErrorName, message: string): Fault {
    Fault(name, message, None, None, None, false, "", "", [])
  }

  /** The driver's message for a write to `collection` that the unique index `index` on `path` refuses. */
  function DupKeyMessage(collection: string, index: string, path: string, value: string): string {
    "E11000 duplicate key error collection: " + collection + " index: " + index + " dup key: { " + path + ": \"" + value + "\" }"
  }

  /** The driver's error for a write that breaks a unique index. */
  function DuplicateKeyError(message: string): Fault {
    Fault(OtherError, message, Some(11000), None, None, false, "", "", [])
  }

  /** mongoose's error for a value that cannot be cast to its path's type. */
  function CastFailure(path: string, value: string): Fault {
    Fault(CastError, "Cast failed for value \"" + value + "\" at path \"" + path + "\"",
          None, None, None, false, path, value, [])
  }

  /** mongoose's error for a document or update that fails its schema validators. */
  function ValidationFailure(model: string, errors: seq<string>): Fault {
    Fault(ValidationError, model + " validation failed", None, None, None, false, "", "", errors)
  }

  /** What the client receives: the HTTP status and the JSON body `{status, message}`. */
  datatype Response = Response(statusCode: int, status: string, message: string)

  /** `parts.join(sep)`. */
  function Join(parts: seq<string>, sep: string): string {
    if parts == [] then ""
    else if |parts| == 1 then parts[0]
    else parts[0] + sep + Join(parts[1..], sep)
  }

  // The converters, one per recognised kind of error.

  function HandleCastErrorDB(err: Fault): Fault {
    AppError("Invalid " + err.path + ": " + err.value + ".", 400)
  }

  function HandleDuplicateFieldsDB(err: Fault): Fault {
    AppError("Duplicate field value: " + err.message + ".", 400)
  }

  function HandleValidationErrorDB(err: Fault): Fault {
    AppError("Invalid input data. " + Join(err.errors, ". "), 400)
  }

  function HandleJWTError(): Fault {
    AppError("Invalid Token", 401)
  }

  function HandleJWTExpiredError(): Fault {
    AppError("Expired Token.", 401)
  }

  /** `sendErrorResponse`: an operational error shows itself; anything else is hidden. */
  function SendErrorResponse(err: Fault): Response
    requires err.statusCode.Some? && err.status.Some?
  {
    if err.isOperational then Response(err.statusCode.value, err.status.value, err.message)
    else Response(500, "error", "Something went very wrong!")
  }

  /** `err.statusCode || 500` and `err.status || "error"`: 0 and "" count as missing. */
  function WithDefaults(err: Fault): (e: Fault)
    ensures err.statusCode.Some? && err.statusCode.value != 0 ==> e.statusCode == err.statusCode
    ensures err.statusCode.None? || err.statusCode.value == 0 ==> e.statusCode == Some(500)
    ensures err.status.Some? && err.status.value != "" ==> e.status == err.status
    ensures err.status.None? || err.status.value == "" ==> e.status == Some("error")
    ensures e.(statusCode := err.statusCode, status := err.status) == err
  {
    err.(statusCode := if err.statusCode.Some? && err.statusCode.value != 0 then err.statusCode else Some(500),
         status := if err.status.Some? && err.status.value != "" then err.status else Some("error"))
  }

  /** Which converter an error gets: the first of the handler's tests it passes. */
  datatype Treatment = AsCast | AsDuplicate | AsValidation | AsInvalidToken | AsExpiredToken | AsIs

  function Classify(err: Fault): Treatment {
    if err.name == CastError then AsCast
    else if err.code == Some(11000) then AsDuplicate
    else if err.name == ValidationError then AsValidation
    else if err.name == JsonWebTokenError then AsInvalidToken
    else if err.name == TokenExpiredError then AsExpiredToken
    else AsIs
  }

  function Translate(err: Fault): Fault
    requires err.statusCode.Some? && err.status.Some?
  {
    match Classify(err)
    case AsCast => HandleCastErrorDB(err)
    case AsDuplicate => HandleDuplicateFieldsDB(err)
    case AsValidation => HandleValidationErrorDB(err)
    case AsInvalidToken => HandleJWTError()
    case AsExpiredToken => HandleJWTExpiredError()
    case AsIs => err
  }

  /** The response the error handler sends for a thrown error. */
  function Respond(err: Fault): (r: Response)
    ensures err.name == CastError ==>
      r == Response(400, "error", "Invalid " + err.path + ": " + err.value + ".")
    ensures err.name != CastError && err.code == Some(11000) ==>
      r == Response(400, "error", "Duplicate field value: " + err.message + ".")
    ensures err.name == ValidationError && err.code != Some(11000) ==>
      r == Response(400, "error", "Invalid input data. " + Join(err.errors, ". "))
    ensures err.name == JsonWebTokenError && err.code != Some(11000) ==>
      r == Response(401, "error", "Invalid Token")
    ensures err.name == TokenExpiredError && err.code != Some(11000) ==>
      r == Response(401, "error", "Expired Token.")
    ensures err.name == OtherError && err.code != Some(11000) && err.isOperational ==>
      r == Response(if err.statusCode.Some? && err.statusCode.value != 0 then err.statusCode.value else 500,
                    if err.status.Some? && err.status.value != "" then err.status.value else "error",
                    err.message)
    ensures err.name == OtherError && err.code != Some(11000) && !err.isOperational ==>
      r == Response(500, "error", "Something went very wrong!")
  {
    SendErrorResponse(Translate(WithDefaults(err)))
  }

  /**
   * The exported error handler as written: default the status fields in place, copy
   * the error, then run the five tests in turn, each possibly replacing the copy.
   * A replacement is an `AppError`, which none of the later tests picks up again,
   * so the chain behaves as a first-match classification.
   */
  method HandleError(err: Fault) returns (res: Response)
    ensures res == Respond(err)
  {
    var e := err;
    e := e.(statusCode := if e.statusCode.Some? && e.statusCode.value != 0 then e.statusCode else Some(500));
    e := e.(status := if e.status.Some? && e.status.value != "" then e.status else Some("error"));

    var error := e;
    if error.name == CastError {
      error := HandleCastErrorDB(error);
    }
    if error.code == Some(11000) {
      error := HandleDuplicateFieldsDB(error);
    }
    if error.name == ValidationError {
      error := HandleValidationErrorDB(error);
    }
    if error.name == JsonWebTokenError {
      error := HandleJWTError();
    }
    if error.name == TokenExpiredError {
      error := HandleJWTExpiredError();
    }
    res := SendErrorResponse(error);
  }

  /** A failed validation, a failed cast and a duplicate key all reach the client as 400. */
  lemma DatabaseRejectionsAre400(model: string, errors: seq<string>, path: string, value: string, message: string)
    ensures Respond(ValidationFailure(model, errors)).statusCode == 400
    ensures Respond(CastFailure(path, value)).statusCode == 400
    ensures Respond(DuplicateKeyError(message)).statusCode == 400
  {
  }

  /** An error a library throws for a failed operation, not marked operational, reaches the client as 500. */
  lemma LibraryFailuresAre500(message: string)
    ensures Respond(LibraryError(OtherError, message)) == Response(500, "error", "Something went very wrong!")
  {
  }

  /** Every `AppError` with a non-zero status reaches the client as raised. */
  lemma AppErrorSurfaces(message: string, statusCode: int)
    requires statusCode != 0
    ensures Respond(AppError(message, statusCode)) == Response(statusCode, "error", message)
  {
  }
}
