/**
 * The response envelope builders of utils/responseUtils.js. Every endpoint
 * answers with one of two JSON shapes:
 *   success: { data, message, status_code [, pagination] }
 *   error:   { error: { message, code, details }, status_code }
 * Parameters the source declares with a default take a JsValue; passing
 * `Undefined` stands for omitting the argument.
 */
module ResponseUtils {
  import opened Wrappers
  import opened Js

  const SuccessKeys: set<string> := {"data", "message", "status_code"}
  const ErrorKeys: set<string> := {"error", "status_code"}
  const ErrorBodyKeys: set<string> := {"message", "code", "details"}

  /** A success envelope: exactly data, message and status_code, plus pagination when present. */
  predicate IsSuccessShape(r: JsValue) {
    r.Obj? && (r.fields.Keys == SuccessKeys || r.fields.Keys == SuccessKeys + {"pagination"})
  }

  /** An error envelope: exactly error and status_code, the error holding exactly message, code and details. */
  predicate IsErrorShape(r: JsValue) {
    && r.Obj? && r.fields.Keys == ErrorKeys
    && r.fields["error"].Obj? && r.fields["error"].fields.Keys == ErrorBodyKeys
  }

  function StatusCodeOf(r: JsValue): JsValue {
    Get(r, "status_code")
  }

  /** `r.error[k]` */
  function ErrorField(r: JsValue, k: string): JsValue {
    Get(Get(r, "error"), k)
  }

  /** createResponse(data, message, statusCode = '200', pagination = null) */
  function CreateResponse(data: JsValue, message: JsValue, statusCode: JsValue, pagination: JsValue): (r: JsValue)
    ensures IsSuccessShape(r)
    ensures ("pagination" in r.fields) <==> Truthy(pagination)
    ensures Get(r, "data") == data && Get(r, "message") == message
    ensures StatusCodeOf(r) == Default(statusCode, Str("200"))
    ensures Get(r, "pagination") == (if Truthy(pagination) then pagination else Undefined)
  {
    var base := map["data" := data, "message" := message, "status_code" := Default(statusCode, Str("200"))];
    if Truthy(Default(pagination, Null)) then Obj(base["pagination" := pagination]) else Obj(base)
  }

  /** successResponse(data, message = 'Success', pagination = null) */
  function SuccessResponse(data: JsValue, message: JsValue, pagination: JsValue): (r: JsValue)
    ensures IsSuccessShape(r)
    ensures StatusCodeOf(r) == Str("200")
    ensures Get(r, "data") == data
    ensures Get(r, "message") == (if message.Undefined? then Str("Success") else message)
    ensures ("pagination" in r.fields) <==> Truthy(pagination)
  {
    CreateResponse(data, Default(message, Str("Success")), Str("200"), Default(pagination, Null))
  }

  /** createdResponse(data, message = 'Created successfully'): never carries pagination. */
  function CreatedResponse(data: JsValue, message: JsValue): (r: JsValue)
    ensures IsSuccessShape(r) && r.fields.Keys == SuccessKeys
    ensures StatusCodeOf(r) == Str("201")
    ensures Get(r, "data") == data
    ensures Get(r, "message") == (if message.Undefined? then Str("Created successfully") else message)
  {
    CreateResponse(data, Default(message, Str("Created successfully")), Str("201"), Undefined)
  }

  /** errorResponse(message, code = 'ERROR', details = {}, statusCode = '400') */
  function ErrorResponse(message: JsValue, code: JsValue, details: JsValue, statusCode: JsValue): (r: JsValue)
    ensures IsErrorShape(r) && "data" !in r.fields
    ensures ErrorField(r, "message") == message
    ensures ErrorField(r, "code") == (if code.Undefined? then Str("ERROR") else code)
    ensures ErrorField(r, "details") == (if details.Undefined? then EmptyObject else details)
    ensures StatusCodeOf(r) == (if statusCode.Undefined? then Str("400") else statusCode)
  {
    Obj(map[
      "error" := Obj(map[
        "message" := message,
        "code" := Default(code, Str("ERROR")),
        "details" := Default(details, EmptyObject)]),
      "status_code" := Default(statusCode, Str("400"))])
  }

  /** validationErrorResponse(validationErrors): the details are the field errors given, or `{}` when none are. */
  function ValidationErrorResponse(validationErrors: JsValue): (r: JsValue)
    ensures IsErrorShape(r)
    ensures ErrorField(r, "message") == Str("Validation failed")
    ensures ErrorField(r, "code") == Str("VALIDATION_ERROR")
    ensures validationErrors != Undefined ==> ErrorField(r, "details") == validationErrors
    ensures validationErrors == Undefined ==> ErrorField(r, "details") == EmptyObject
    ensures StatusCodeOf(r) == Str("422")
  {
    ErrorResponse(Str("Validation failed"), Str("VALIDATION_ERROR"), validationErrors, Str("422"))
  }

  /** The text of `${resource} not found`, with resource defaulting to 'Resource'. */
  function NotFoundMessage(resource: Option<string>): string {
    (if resource.Some? then resource.value else "Resource") + " not found"
  }

  /** notFoundResponse(resource = 'Resource') */
  function NotFoundResponse(resource: Option<string>): (r: JsValue)
    ensures IsErrorShape(r)
    ensures ErrorField(r, "message") == Str(NotFoundMessage(resource))
    ensures ErrorField(r, "code") == Str("NOT_FOUND") && ErrorField(r, "details") == EmptyObject
    ensures StatusCodeOf(r) == Str("404")
  {
    ErrorResponse(Str(NotFoundMessage(resource)), Str("NOT_FOUND"), EmptyObject, Str("404"))
  }

  /** unauthorizedResponse(message = 'Unauthorized') */
  function UnauthorizedResponse(message: JsValue): (r: JsValue)
    ensures IsErrorShape(r)
    ensures ErrorField(r, "message") == Default(message, Str("Unauthorized"))
    ensures ErrorField(r, "code") == Str("UNAUTHORIZED") && StatusCodeOf(r) == Str("401")
  {
    ErrorResponse(Default(message, Str("Unauthorized")), Str("UNAUTHORIZED"), EmptyObject, Str("401"))
  }

  /** forbiddenResponse(message = 'Forbidden') */
  function ForbiddenResponse(message: JsValue): (r: JsValue)
    ensures IsErrorShape(r)
    ensures ErrorField(r, "message") == Default(message, Str("Forbidden"))
    ensures ErrorField(r, "code") == Str("FORBIDDEN") && StatusCodeOf(r) == Str("403")
  {
    ErrorResponse(Default(message, Str("Forbidden")), Str("FORBIDDEN"), EmptyObject, Str("403"))
  }

  /** internalErrorResponse(message = 'Internal server error') */
  function InternalErrorResponse(message: JsValue): (r: JsValue)
    ensures IsErrorShape(r)
    ensures ErrorField(r, "message") == Default(message, Str("Internal server error"))
    ensures ErrorField(r, "code") == Str("INTERNAL_ERROR") && StatusCodeOf(r) == Str("500")
  {
    ErrorResponse(Default(message, Str("Internal server error")), Str("INTERNAL_ERROR"), EmptyObject, Str("500"))
  }

  /** createPagination(currentPage, count, pageSize): total_pages is the least page count covering count items. */
  function CreatePagination(currentPage: int, count: int, pageSize: int): (r: JsValue)
    requires pageSize > 0
    ensures r.Obj? && r.fields.Keys == {"current_page", "count", "total_pages"}
    ensures r.fields["current_page"] == Num(currentPage) && r.fields["count"] == Num(count)
    ensures r.fields["total_pages"].Num?
    ensures var t := r.fields["total_pages"].n; t * pageSize >= count && (t - 1) * pageSize < count
  {
    Obj(map["current_page" := Num(currentPage), "count" := Num(count), "total_pages" := Num(CeilDiv(count, pageSize))])
  }

  /** createPaginatedData(items, pagination) */
  function CreatePaginatedData(items: JsValue, pagination: JsValue): (r: JsValue)
    ensures r.Obj? && r.fields.Keys == {"items", "pagination"}
    ensures Get(r, "items") == items && Get(r, "pagination") == pagination
  {
    Obj(map["items" := items, "pagination" := pagination])
  }
}
