/**
 * middleware/responseMiddleware.js: the response object after the middleware
 * has overridden `res.json` and installed the `res.*` helpers, the error
 * handler's mapping from an error to a status and an envelope, and the 404
 * handler for unknown routes.
 */
module ResponseMiddleware {
  import opened Wrappers
  import opened Js
  import opened ResponseUtils

  /** The test the overridden res.json starts with: the body already is an envelope. */
  predicate IsEnvelope(body: JsValue) {
    Truthy(body) && (Get(body, "data") != Undefined || Get(body, "error") != Undefined)
  }

  /** What the overridden res.json hands on to Express's own json, given res.statusCode. */
  function WrapBody(statusCode: int, body: JsValue): (r: JsValue)
    ensures IsEnvelope(body) ==> r == body
    ensures !IsEnvelope(body) && statusCode >= 400 ==>
              && IsErrorShape(r)
              && StatusCodeOf(r) == Str(IntToString(statusCode))
              && ErrorField(r, "message") == Or(Get(body, "message"), Str("An error occurred"))
              && ErrorField(r, "code") == Or(Get(body, "code"), Str("ERROR"))
              && ErrorField(r, "details") == Or(Get(body, "details"), EmptyObject)
    ensures !IsEnvelope(body) && statusCode < 400 ==>
              && IsSuccessShape(r) && "pagination" !in r.fields
              && Get(r, "data") == body
              && Get(r, "message") == Or(Get(body, "message"), Str("Success"))
              && StatusCodeOf(r) == Str("200")
  {
    if IsEnvelope(body) then body
    else if statusCode >= 400 then
      ErrorResponse(
        Or(Get(body, "message"), Str("An error occurred")),
        Or(Get(body, "code"), Str("ERROR")),
        Or(Get(body, "details"), EmptyObject),
        Str(IntToString(statusCode)))
    else SuccessResponse(body, Or(Get(body, "message"), Str("Success")), Undefined)
  }

  /**
   * Wrapping is idempotent except for one body: `res.json()` with no body on a
   * non-error status yields `{ data: undefined, ... }`, which is not recognised
   * as an envelope the second time.
   */
  lemma WrapIdempotent(statusCode: int, body: JsValue)
    ensures WrapBody(statusCode, WrapBody(statusCode, body)) == WrapBody(statusCode, body)
            <==> !(body.Undefined? && statusCode < 400)
  {
    if body.Undefined? && statusCode < 400 {
      var once := WrapBody(statusCode, body);
      assert Get(WrapBody(statusCode, once), "data") == once != Undefined;
    }
  }

  /** A body that is already wrapped is passed on unchanged, whatever the status is later. */
  lemma WrappedPassesThrough(s1: int, s2: int, body: JsValue)
    requires !(body.Undefined? && s1 < 400)
    ensures WrapBody(s2, WrapBody(s1, body)) == WrapBody(s1, body)
  {
  }

  /** The envelope's status_code is the decimal text of this transport status. */
  predicate StatusAgrees(statusCode: int, envelope: JsValue) {
    StatusCodeOf(envelope) == Str(IntToString(statusCode))
  }

  /** The response object as the handlers see it after responseMiddleware ran. */
  class Response {
    /** `res.statusCode` */
    var statusCode: int
    /** The body handed to Express's original json, once one was sent. */
    var sent: Option<JsValue>

    constructor ()
      ensures statusCode == 200 && sent == None
    {
      statusCode := 200;
      sent := None;
    }

    /** `res.status(code)` */
    method Status(code: int)
      modifies this
      ensures statusCode == code && sent == old(sent)
    {
      statusCode := code;
    }

    /** The overridden `res.json(data)`. */
    method Json(body: JsValue)
      modifies this
      ensures statusCode == old(statusCode)
      ensures sent == Some(WrapBody(old(statusCode), body))
    {
      sent := Some(WrapBody(statusCode, body));
    }

    /** `res.success(data, message = 'Success', pagination = null)`: the status is left as it is. */
    method Success(data: JsValue, message: JsValue, pagination: JsValue)
      modifies this
      ensures statusCode == old(statusCode)
      ensures sent == Some(WrapBody(old(statusCode), SuccessResponse(data, message, pagination)))
      ensures data != Undefined ==> sent == Some(SuccessResponse(data, message, pagination))
    {
      var response := SuccessResponse(data, message, pagination);
      Json(response);
    }

    /**
     * `res.created(data, message = 'Created successfully')` as written: the
     * transport status is 201, the envelope is a successResponse saying '200'.
     */
    method CreatedAsWritten(data: JsValue, message: JsValue)
      modifies this
      ensures statusCode == 201
      ensures sent == Some(WrapBody(201, SuccessResponse(data, Default(message, Str("Created successfully")), Undefined)))
      ensures data != Undefined ==> sent.Some? && StatusCodeOf(sent.value) == Str("200") && !StatusAgrees(statusCode, sent.value)
    {
      var response := SuccessResponse(data, Default(message, Str("Created successfully")), Undefined);
      Status(201);
      Json(response);
      CreatedAsWrittenDisagrees(data, message);
    }

    /** `res.created` as evidently intended: a createdResponse, whose '201' agrees with the status. */
    method Created(data: JsValue, message: JsValue)
      modifies this
      ensures statusCode == 201
      ensures sent == Some(WrapBody(201, CreatedResponse(data, message)))
      ensures data != Undefined ==> sent == Some(CreatedResponse(data, message)) && StatusAgrees(statusCode, sent.value)
    {
      var response := CreatedResponse(data, message);
      Status(201);
      Json(response);
      CreatedAgrees(data, message);
    }

    /** `res.error(message, code = 'ERROR', details = {}, statusCode = 400)` */
    method Error(message: JsValue, code: JsValue, details: JsValue, status: int)
      modifies this
      ensures statusCode == status
      ensures sent == Some(ErrorResponse(message, code, details, Str(IntToString(status))))
      ensures StatusAgrees(statusCode, sent.value)
    {
      var response := ErrorResponse(message, code, details, Str(IntToString(status)));
      Status(status);
      Json(response);
    }

    /** `res.validationError(validationErrors)` */
    method ValidationError(validationErrors: JsValue)
      modifies this
      ensures statusCode == 422
      ensures sent == Some(ErrorResponse(Str("Validation failed"), Str("VALIDATION_ERROR"), validationErrors, Str("422")))
      ensures StatusAgrees(statusCode, sent.value)
    {
      var response := ErrorResponse(Str("Validation failed"), Str("VALIDATION_ERROR"), validationErrors, Str("422"));
      Status(422);
      Json(response);
      assert IntToString(422) == "422";
    }

    /** `res.notFound(resource = 'Resource')` */
    method NotFound(resource: Option<string>)
      modifies this
      ensures statusCode == 404
      ensures sent == Some(NotFoundResponse(resource))
      ensures StatusAgrees(statusCode, sent.value)
    {
      var response := ErrorResponse(Str(NotFoundMessage(resource)), Str("NOT_FOUND"), EmptyObject, Str("404"));
      Status(404);
      Json(response);
      assert IntToString(404) == "404";
    }

    /** `res.unauthorized(message = 'Unauthorized')` */
    method Unauthorized(message: JsValue)
      modifies this
      ensures statusCode == 401
      ensures sent == Some(UnauthorizedResponse(message))
      ensures StatusAgrees(statusCode, sent.value)
    {
      var response := ErrorResponse(Default(message, Str("Unauthorized")), Str("UNAUTHORIZED"), EmptyObject, Str("401"));
      Status(401);
      Json(response);
      assert IntToString(401) == "401";
    }

    /** `res.forbidden(message = 'Forbidden')` */
    method Forbidden(message: JsValue)
      modifies this
      ensures statusCode == 403
      ensures sent == Some(ForbiddenResponse(message))
      ensures StatusAgrees(statusCode, sent.value)
    {
      var response := ErrorResponse(Default(message, Str("Forbidden")), Str("FORBIDDEN"), EmptyObject, Str("403"));
      Status(403);
      Json(response);
      assert IntToString(403) == "403";
    }

    /** `res.internalError(message = 'Internal server error')` */
    method InternalError(message: JsValue)
      modifies this
      ensures statusCode == 500
      ensures sent == Some(InternalErrorResponse(message))
      ensures StatusAgrees(statusCode, sent.value)
    {
      var response := InternalErrorResponse(message);
      Status(500);
      Json(response);
      assert IntToString(500) == "500";
    }
  }

  /** The envelope res.created builds says '200' while the transport status is 201. */
  lemma CreatedAsWrittenDisagrees(data: JsValue, message: JsValue)
    ensures var e := SuccessResponse(data, Default(message, Str("Created successfully")), Undefined);
            StatusCodeOf(e) == Str("200") && !StatusAgrees(201, e)
  {
    assert IntToString(201) == "201";
  }

  /** A createdResponse agrees with the 201 status that res.created sets. */
  lemma CreatedAgrees(data: JsValue, message: JsValue)
    ensures StatusAgrees(201, CreatedResponse(data, message))
  {
    assert IntToString(201) == "201";
  }

  // ---------------------------------------------------------------------------
  // errorHandler

  /** The parts of a thrown error that errorHandler reads. */
  datatype AppError = AppError(
    name: string,
    message: string,
    /** `err.code`: a driver code such as 11000, an application code string, or undefined. */
    code: JsValue,
    /** `err.statusCode`; None when the error carries none. */
    statusCode: Option<int>,
    details: JsValue,
    /** `Object.keys(err.errors)` in order, each with `err.errors[key].message`. */
    errors: seq<(string, string)>,
    /** `Object.keys(err.keyValue)` in order. */
    keyValue: seq<string>)

  /** The validationErrors dictionary after the forEach over the first |errors| keys. */
  function DetailsOf(errors: seq<(string, string)>): map<string, JsValue> {
    if |errors| == 0 then map[]
    else DetailsOf(errors[..|errors| - 1])[errors[|errors| - 1].0 := Str(errors[|errors| - 1].1)]
  }

  predicate DistinctKeys(errors: seq<(string, string)>) {
    forall a, b :: 0 <= a < b < |errors| ==> errors[a].0 != errors[b].0
  }

  /** The loop of errorHandler that copies every field error's message into a dictionary. */
  method ValidationDetails(errors: seq<(string, string)>) returns (details: map<string, JsValue>)
    ensures details == DetailsOf(errors)
  {
    details := map[];
    var i := 0;
    while i < |errors|
      invariant 0 <= i <= |errors|
      invariant details == DetailsOf(errors[..i])
    {
      assert errors[..i + 1][..i] == errors[..i];
      details := details[errors[i].0 := Str(errors[i].1)];
      i := i + 1;
    }
    assert errors[..|errors|] == errors;
  }

  /** The details have exactly the keys of err.errors. */
  lemma {:induction false} DetailsKeys(errors: seq<(string, string)>)
    ensures DetailsOf(errors).Keys == set i | 0 <= i < |errors| :: errors[i].0
  {
    if |errors| > 0 {
      var init := errors[..|errors| - 1];
      DetailsKeys(init);
      assert (set i | 0 <= i < |errors| :: errors[i].0)
          == (set i | 0 <= i < |init| :: init[i].0) + {errors[|errors| - 1].0};
    }
  }

  /** Each key maps to its own field error's message. */
  lemma {:induction false} DetailsValues(errors: seq<(string, string)>, i: int)
    requires DistinctKeys(errors) && 0 <= i < |errors|
    ensures errors[i].0 in DetailsOf(errors) && DetailsOf(errors)[errors[i].0] == Str(errors[i].1)
  {
    if i < |errors| - 1 {
      DetailsValues(errors[..|errors| - 1], i);
    }
  }

  /** The field errorHandler names for a duplicate key: the first key of err.keyValue (`${undefined}` if none). */
  function DuplicateField(err: AppError): string {
    if |err.keyValue| > 0 then err.keyValue[0] else "undefined"
  }

  /** The status errorHandler's last branch uses: err.statusCode, else 500. */
  function DefaultStatus(err: AppError): int {
    if err.statusCode.Some? && err.statusCode.value != 0 then err.statusCode.value else 500
  }

  /** The transport status and the envelope errorHandler sends for err. */
  function HandledError(err: AppError): (r: (int, JsValue))
    ensures IsErrorShape(r.1) && "data" !in r.1.fields
    ensures err.name == "ValidationError" ==> r.0 == 422
  {
    if err.name == "ValidationError" then
      (422, ErrorResponse(Str("Validation failed"), Str("VALIDATION_ERROR"), Obj(DetailsOf(err.errors)), Str("422")))
    else if err.code == Num(11000) then
      var field := DuplicateField(err);
      (409, ErrorResponse(Str(field + " already exists"), Str("DUPLICATE_ERROR"),
                          Obj(map[field := Str(field + " must be unique")]), Str(IntToString(409))))
    else if err.name == "JsonWebTokenError" then
      (401, UnauthorizedResponse(Str("Invalid token")))
    else if err.name == "TokenExpiredError" then
      (401, UnauthorizedResponse(Str("Token expired")))
    else
      var status := DefaultStatus(err);
      (status, ErrorResponse(
                 Str(if err.message != "" then err.message else "Internal server error"),
                 Or(err.code, Str("INTERNAL_ERROR")),
                 Or(err.details, EmptyObject),
                 Str(IntToString(status))))
  }

  /** `errorHandler(err, req, res)`; what was set on res before is ignored. */
  method ErrorHandler(err: AppError, res: Response)
    modifies res
    ensures res.statusCode == HandledError(err).0
    ensures res.sent == Some(HandledError(err).1)
  {
    ghost var h := HandledError(err);
    if err.name == "ValidationError" {
      var details := ValidationDetails(err.errors);
      res.ValidationError(Obj(details));
    } else if err.code == Num(11000) {
      var field := DuplicateField(err);
      res.Error(Str(field + " already exists"), Str("DUPLICATE_ERROR"),
                Obj(map[field := Str(field + " must be unique")]), 409);
    } else if err.name == "JsonWebTokenError" {
      res.Unauthorized(Str("Invalid token"));
    } else if err.name == "TokenExpiredError" {
      res.Unauthorized(Str("Token expired"));
    } else {
      var status := DefaultStatus(err);
      var message := if err.message != "" then err.message else "Internal server error";
      var body := ErrorResponse(Str(message), Or(err.code, Str("INTERNAL_ERROR")), Or(err.details, EmptyObject),
                                Str(IntToString(status)));
      assert h == (status, body);
      res.Status(status);
      res.Json(body);
    }
  }

  /** Whatever the error, the envelope's status_code is the text of the status sent with it. */
  lemma HandledStatusAgrees(err: AppError)
    ensures IsErrorShape(HandledError(err).1)
    ensures StatusAgrees(HandledError(err).0, HandledError(err).1)
  {
    assert IntToString(422) == "422";
    assert IntToString(401) == "401";
  }

  /** A ValidationError becomes 422 VALIDATION_ERROR with one detail per field error, keyed like err.errors. */
  lemma HandledValidation(err: AppError)
    requires err.name == "ValidationError"
    ensures var (status, body) := HandledError(err);
            && status == 422 && ErrorField(body, "code") == Str("VALIDATION_ERROR")
            && ErrorField(body, "details").Obj?
            && ErrorField(body, "details").fields.Keys == (set i | 0 <= i < |err.errors| :: err.errors[i].0)
            && (DistinctKeys(err.errors) ==>
                 forall i :: 0 <= i < |err.errors| ==> Get(ErrorField(body, "details"), err.errors[i].0) == Str(err.errors[i].1))
  {
    DetailsKeys(err.errors);
    if DistinctKeys(err.errors) {
      forall i | 0 <= i < |err.errors|
        ensures Get(ErrorField(HandledError(err).1, "details"), err.errors[i].0) == Str(err.errors[i].1)
      {
        DetailsValues(err.errors, i);
      }
    }
  }

  /** A duplicate-key error (code 11000) becomes 409 DUPLICATE_ERROR naming the first key of keyValue. */
  lemma HandledDuplicate(err: AppError)
    requires err.name != "ValidationError" && err.code == Num(11000) && |err.keyValue| > 0
    ensures var (status, body) := HandledError(err);
            var field := err.keyValue[0];
            && status == 409 && ErrorField(body, "code") == Str("DUPLICATE_ERROR")
            && ErrorField(body, "message") == Str(field + " already exists")
            && ErrorField(body, "details") == Obj(map[field := Str(field + " must be unique")])
  {
  }

  /** Token errors become 401 UNAUTHORIZED with a fixed message. */
  lemma HandledJwt(err: AppError)
    requires err.name != "ValidationError" && err.code != Num(11000)
    requires err.name == "JsonWebTokenError" || err.name == "TokenExpiredError"
    ensures var (status, body) := HandledError(err);
            && status == 401 && ErrorField(body, "code") == Str("UNAUTHORIZED")
            && ErrorField(body, "message") == Str(if err.name == "JsonWebTokenError" then "Invalid token" else "Token expired")
  {
  }

  /** Any other error keeps its own status (else 500), code (else INTERNAL_ERROR) and message (else a fixed one). */
  lemma HandledOther(err: AppError)
    requires err.name !in {"ValidationError", "JsonWebTokenError", "TokenExpiredError"} && err.code != Num(11000)
    ensures var (status, body) := HandledError(err);
            && status == (if err.statusCode.Some? && err.statusCode.value != 0 then err.statusCode.value else 500)
            && ErrorField(body, "code") == (if Truthy(err.code) then err.code else Str("INTERNAL_ERROR"))
            && ErrorField(body, "message") == Str(if err.message == "" then "Internal server error" else err.message)
            && ErrorField(body, "details") == (if Truthy(err.details) then err.details else EmptyObject)
  {
  }

  /** `notFoundHandler(req, res)` for a request whose originalUrl is url. */
  method NotFoundHandler(url: string, res: Response)
    modifies res
    ensures res.statusCode == 404
    ensures res.sent == Some(ErrorResponse(Str("Route " + url + " not found"), Str("NOT_FOUND"), EmptyObject, Str("404")))
    ensures StatusAgrees(res.statusCode, res.sent.value)
  {
    res.Status(404);
    res.Json(ErrorResponse(Str("Route " + url + " not found"), Str("NOT_FOUND"), EmptyObject, Str("404")));
    assert IntToString(404) == "404";
  }
}
