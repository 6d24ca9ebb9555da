/**
 * The global error handler: every failure raised by a middleware or handler
 * ends here and is turned into one JSON response. In development mode the
 * error is echoed with diagnostics; otherwise an ordered table of cases picks
 * the status code and message.
 */
module ErrorHandler {
  import opened Js
  import opened AppErrors

  /** What the client receives: the HTTP status, the `status` field of the
      body (None when the error carried none: JSON drops undefined fields),
      the message, and whether stack and raw error are attached. */
  datatype Response = Response(statusCode: int, status: Option<string>, message: string, diagnostics: bool)

  const DevelopmentMode := "DEVELOPMENT"
  const ReloginMessage := "token expire or invalid! try logging again"
  const GenericMessage := "something wrong happen"

  /** `err.statusCode || 500`: undefined and 0 are both falsy. */
  function DefaultCode(statusCode: Option<int>): (c: int)
    ensures c != 0
    ensures statusCode.Some? && statusCode.value != 0 ==> c == statusCode.value
  {
    if statusCode.Some? && statusCode.value != 0 then statusCode.value else 500
  }

  /** `sendResponse`: status code, status text and message, nothing else. */
  function SendResponse(e: ErrorValue): (r: Response)
    requires e.statusCode.Some?
    ensures r.statusCode == e.statusCode.value && r.status == e.status && r.message == e.message
    ensures !r.diagnostics
  {
    Response(e.statusCode.value, e.status, e.message, false)
  }

  /** The unmatched-route handler: an operational 404 naming the URL. */
  function NotFoundError(url: string): ErrorValue
  {
    NewAppError("No APi URl found " + url, 404)
  }

  /** The decision the global handler takes for an error, given NODE_ENV.
      `copy` is the shallow copy taken before the code and status are
      defaulted, so the remapped cases answer with the status text the error
      already carried. */
  function Handle(err: ErrorValue, nodeEnv: string): Response
  {
    var code := DefaultCode(err.statusCode);
    var prepared := err.(statusCode := Some(code), status := Some(StatusText(code)));
    var copy := err;
    if nodeEnv == DevelopmentMode then Response(code, prepared.status, err.message, true)
    else if err.operational then SendResponse(prepared)
    else if err.name == "CastError" then
      SendResponse(copy.(message := "invalid " + err.path + ": " + err.value, statusCode := Some(400)))
    else if err.name == "MongoServerError" then SendResponse(copy.(message := err.message, statusCode := Some(409)))
    else if err.name == "ValidationError" then SendResponse(copy.(message := err.message, statusCode := Some(403)))
    else if err.name == "JsonWebTokenError" || err.name == "TokenExpiredError" then
      SendResponse(copy.(message := ReloginMessage, statusCode := Some(401)))
    else Response(500, Some("fail"), GenericMessage, false)
  }

  /** In development mode every error is echoed with its own (defaulted)
      code, the status derived from that code, its message and diagnostics. */
  lemma DevelopmentEchoes(err: ErrorValue)
    ensures Handle(err, DevelopmentMode) ==
      Response(DefaultCode(err.statusCode), Some(StatusText(DefaultCode(err.statusCode))), err.message, true)
  {
  }

  /** Outside development mode an operational error is answered with its own
      code and message before any test on the error's name. */
  lemma OperationalFirst(err: ErrorValue, nodeEnv: string)
    requires nodeEnv != DevelopmentMode && err.operational
    ensures Handle(err, nodeEnv) ==
      Response(DefaultCode(err.statusCode), Some(StatusText(DefaultCode(err.statusCode))), err.message, false)
  {
  }

  /** Outside development mode no diagnostics leak, and the code is one of the
      table's fixed codes unless the error is operational. */
  lemma ProductionCodes(err: ErrorValue, nodeEnv: string)
    requires nodeEnv != DevelopmentMode
    ensures !Handle(err, nodeEnv).diagnostics
    ensures !err.operational ==> Handle(err, nodeEnv).statusCode in {400, 401, 403, 409, 500}
  {
  }

  /** The library-error rows of the table. */
  lemma LibraryErrorRows(err: ErrorValue, nodeEnv: string)
    requires nodeEnv != DevelopmentMode && !err.operational
    ensures err.name == "CastError" ==>
      Handle(err, nodeEnv).statusCode == 400 && Handle(err, nodeEnv).message == "invalid " + err.path + ": " + err.value
    ensures err.name == "MongoServerError" ==>
      Handle(err, nodeEnv).statusCode == 409 && Handle(err, nodeEnv).message == err.message
    ensures err.name == "ValidationError" ==>
      Handle(err, nodeEnv).statusCode == 403 && Handle(err, nodeEnv).message == err.message
    ensures err.name in {"JsonWebTokenError", "TokenExpiredError"} ==>
      Handle(err, nodeEnv).statusCode == 401 && Handle(err, nodeEnv).message == ReloginMessage
    ensures err.name !in {"CastError", "MongoServerError", "ValidationError", "JsonWebTokenError", "TokenExpiredError"} ==>
      Handle(err, nodeEnv) == Response(500, Some("fail"), GenericMessage, false)
  {
  }

  /** The remapped rows send the copy taken before the status was derived:
      their status text is whatever the error carried (usually none), not
      the text of the new code. The catch-all row says "fail" for a 500,
      which the prefix rule would call "error". */
  lemma StatusNotRecomputed(err: ErrorValue, nodeEnv: string)
    requires nodeEnv != DevelopmentMode && !err.operational
    ensures err.name in {"CastError", "MongoServerError", "ValidationError", "JsonWebTokenError", "TokenExpiredError"} ==>
      Handle(err, nodeEnv).status == err.status
    ensures err.name !in {"CastError", "MongoServerError", "ValidationError", "JsonWebTokenError", "TokenExpiredError"} ==>
      Handle(err, nodeEnv).status != Some(StatusText(Handle(err, nodeEnv).statusCode))
  {
    StatusExamples();
  }

  /** An `AppError` with a non-zero code reaches the client unchanged: its
      code, the status derived from it and its message. */
  lemma AppErrorReachesClient(message: string, statusCode: int, nodeEnv: string)
    requires statusCode != 0
    ensures Handle(NewAppError(message, statusCode), nodeEnv) ==
      Response(statusCode, Some(StatusText(statusCode)), message, nodeEnv == DevelopmentMode)
  {
  }

  /** An unmatched route answers 404 "fail" with the URL in the message. */
  lemma NotFoundResponse(url: string, nodeEnv: string)
    ensures Handle(NotFoundError(url), nodeEnv) ==
      Response(404, Some("fail"), "No APi URl found " + url, nodeEnv == DevelopmentMode)
  {
    StatusExamples();
  }

  /** The error object the handler receives; it defaults `statusCode` and
      recomputes `status` in place before deciding. */
  class RaisedError {
    const name: string
    const message: string
    const operational: bool
    const path: string
    const value: string
    var statusCode: Option<int>
    var status: Option<string>

    constructor (e: ErrorValue)
      ensures Value() == e
    {
      name, message, operational, path, value := e.name, e.message, e.operational, e.path, e.value;
      statusCode, status := e.statusCode, e.status;
    }

    function Value(): ErrorValue
      reads this
    {
      ErrorValue(name, message, statusCode, status, operational, path, value)
    }
  }

  /** `globalErrorHandler`: copy the error, default its code and status in
      place, then walk the table. */
  method GlobalErrorHandler(err: RaisedError, nodeEnv: string) returns (res: Response)
    modifies err
    ensures res == Handle(old(err.Value()), nodeEnv)
    ensures err.statusCode == Some(DefaultCode(old(err.statusCode)))
    ensures err.status == Some(StatusText(DefaultCode(old(err.statusCode))))
  {
    var error := err.Value();
    err.statusCode := Some(DefaultCode(err.statusCode));
    err.status := Some(StatusText(err.statusCode.value));

    if nodeEnv == DevelopmentMode {
      return Response(err.statusCode.value, err.status, err.message, true);
    }
    if err.operational {
      return SendResponse(err.Value());
    }
    if err.name == "CastError" {
      error := error.(message := "invalid " + err.path + ": " + err.value, statusCode := Some(400));
      return SendResponse(error);
    }
    if err.name == "MongoServerError" {
      error := error.(message := err.message, statusCode := Some(409));
      return SendResponse(error);
    }
    if err.name == "ValidationError" {
      error := error.(message := err.message, statusCode := Some(403));
      return SendResponse(error);
    }
    if err.name == "JsonWebTokenError" || err.name == "TokenExpiredError" {
      error := error.(message := ReloginMessage, statusCode := Some(401));
      return SendResponse(error);
    }
    res := Response(500, Some("fail"), GenericMessage, false);
  }
}
