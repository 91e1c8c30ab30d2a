/**
 * The application's error classes and `handleError`, which turns anything thrown into the
 * API error the framework sends back. A thrown value is an `AppError` (with the subclass that
 * built it), a plain `Error`, or any other value.
 */
module Errors {
  import opened Wrappers
  import opened Text
  import JsValue

  datatype ErrorCode =
    | ValidationCode | AuthenticationCode | AuthorizationCode | NotFoundCode | ConflictCode
    | RateLimitedCode | ExternalServiceCode | DatabaseCode | InternalCode | InsufficientCreditsCode

  /** `ErrorCode`'s string values. */
  function CodeName(c: ErrorCode): string {
    match c
    case ValidationCode => "VALIDATION_ERROR"
    case AuthenticationCode => "AUTHENTICATION_ERROR"
    case AuthorizationCode => "AUTHORIZATION_ERROR"
    case NotFoundCode => "NOT_FOUND"
    case ConflictCode => "CONFLICT"
    case RateLimitedCode => "RATE_LIMITED"
    case ExternalServiceCode => "EXTERNAL_SERVICE_ERROR"
    case DatabaseCode => "DATABASE_ERROR"
    case InternalCode => "INTERNAL_ERROR"
    case InsufficientCreditsCode => "INSUFFICIENT_CREDITS"
  }

  /** The class whose constructor built an `AppError`, for `instanceof` checks. */
  datatype ErrorClass =
    | BaseClass | ValidationClass | NotFoundClass | UnauthorizedClass | ConflictClass
    | InsufficientCreditsClass | ExternalServiceClass | DatabaseClass

  datatype AppError = AppError(cls: ErrorClass, code: ErrorCode, message: string, statusCode: int, data: seq<JsValue.Field>)

  /** What a `catch` can receive. */
  datatype Thrown = App(err: AppError) | Plain(message: string) | Other(v: JsValue.Value)

  /** `new AppError(code, message, statusCode = 500, data)`. */
  function NewAppError(code: ErrorCode, message: string, statusCode: Option<int>, data: seq<JsValue.Field>): (r: AppError)
    ensures r.cls == BaseClass && r.code == code && r.message == message
    ensures r.statusCode == (if statusCode.Some? then statusCode.value else 500)
  {
    AppError(BaseClass, code, message, statusCode.UnwrapOr(500), data)
  }

  function OptStr(s: Option<string>): JsValue.Value {
    match s
    case Some(t) => JsValue.Str(t)
    case None => JsValue.Undefined
  }

  function ValidationError(message: string, field: Option<string>): (r: AppError)
    ensures r.cls == ValidationClass && r.code == ValidationCode && r.statusCode == 400
    ensures r.message == message && r.data == [JsValue.Field("field", OptStr(field))]
  {
    AppError(ValidationClass, ValidationCode, message, 400, [JsValue.Field("field", OptStr(field))])
  }

  function NotFoundError(resource: string, id: JsValue.Value): (r: AppError)
    ensures r.cls == NotFoundClass && r.code == NotFoundCode && r.statusCode == 404
    ensures r.message == resource + " not found"
  {
    AppError(NotFoundClass, NotFoundCode, resource + " not found", 404,
      [JsValue.Field("resource", JsValue.Str(resource)), JsValue.Field("id", id)])
  }

  /** A missing message defaults to "Unauthorized"; the code is the authorization one and the status 403. */
  function UnauthorizedError(message: Option<string>): (r: AppError)
    ensures r.cls == UnauthorizedClass && r.code == AuthorizationCode && r.statusCode == 403
    ensures r.message == (if message.Some? then message.value else "Unauthorized")
  {
    AppError(UnauthorizedClass, AuthorizationCode, message.UnwrapOr("Unauthorized"), 403, [])
  }

  function ConflictError(message: string): (r: AppError)
    ensures r.cls == ConflictClass && r.code == ConflictCode && r.statusCode == 409 && r.message == message
  {
    AppError(ConflictClass, ConflictCode, message, 409, [])
  }

  /** `required` defaults to 1 and `available` to 0; the message names both. */
  function InsufficientCreditsError(required: Option<real>, available: Option<real>): (r: AppError)
    ensures r.cls == InsufficientCreditsClass && r.code == InsufficientCreditsCode && r.statusCode == 402
    ensures var q := if required.Some? then required.value else 1.0;
      var a := if available.Some? then available.value else 0.0;
      r.message == "Insufficient credits. Required: " + JsValue.NumberToString(q) + ", Available: " + JsValue.NumberToString(a)
      && r.data == [JsValue.Field("required", JsValue.Num(q)), JsValue.Field("available", JsValue.Num(a))]
  {
    var q := required.UnwrapOr(1.0);
    var a := available.UnwrapOr(0.0);
    AppError(InsufficientCreditsClass, InsufficientCreditsCode,
      "Insufficient credits. Required: " + JsValue.NumberToString(q) + ", Available: " + JsValue.NumberToString(a), 402,
      [JsValue.Field("required", JsValue.Num(q)), JsValue.Field("available", JsValue.Num(a))])
  }

  function ExternalServiceError(service: string, originalError: Option<string>): (r: AppError)
    ensures r.cls == ExternalServiceClass && r.code == ExternalServiceCode && r.statusCode == 502
    ensures r.message == "External service error: " + service
  {
    AppError(ExternalServiceClass, ExternalServiceCode, "External service error: " + service, 502,
      [JsValue.Field("service", JsValue.Str(service)), JsValue.Field("originalError", OptStr(originalError))])
  }

  function DatabaseError(operation: string, originalError: Option<string>): (r: AppError)
    ensures r.cls == DatabaseClass && r.code == DatabaseCode && r.statusCode == 500
    ensures r.message == "Database error during " + operation
  {
    AppError(DatabaseClass, DatabaseCode, "Database error during " + operation, 500,
      [JsValue.Field("operation", JsValue.Str(operation)), JsValue.Field("originalError", OptStr(originalError))])
  }

  /** The framework's error categories that `handleError` uses. */
  datatype ApiKind = Internal | NotFound | Unauthenticated | AlreadyExists | InvalidArgument

  datatype ApiError = ApiError(kind: ApiKind, message: string)

  predicate MentionsNotFound(m: string) { Contains(m, "not found") }
  predicate MentionsAuth(m: string) { Contains(m, "unauthorized") || Contains(m, "invalid token") }
  predicate MentionsCredits(m: string) { Contains(m, "credits") }
  predicate MentionsDuplicate(m: string) { Contains(m, "unique constraint") || Contains(m, "duplicate key") }
  predicate MentionsForeignKey(m: string) { Contains(m, "foreign key constraint") }

  /**
   * `handleError`: the API error it throws (it never returns normally). Every `AppError`
   * becomes an internal error with its own message, whatever its status code. A plain
   * error is classified by the first rule its message matches; anything else is a generic
   * internal error.
   */
  function HandleError(e: Thrown): (r: ApiError)
    ensures e.App? ==> r == ApiError(Internal, e.err.message)
    ensures r.kind == NotFound <==> e.Plain? && MentionsNotFound(e.message)
    ensures r.kind == Unauthenticated <==> e.Plain? && !MentionsNotFound(e.message) && MentionsAuth(e.message)
    ensures r.kind == AlreadyExists <==>
      e.Plain? && !MentionsNotFound(e.message) && !MentionsAuth(e.message) && !MentionsCredits(e.message) && MentionsDuplicate(e.message)
    ensures r.kind == InvalidArgument <==>
      && e.Plain? && !MentionsNotFound(e.message) && !MentionsAuth(e.message) && !MentionsCredits(e.message)
      && !MentionsDuplicate(e.message) && MentionsForeignKey(e.message)
    ensures r.kind in {NotFound, Unauthenticated} ==> r.message == e.message
    ensures r.kind == AlreadyExists ==> r.message == "Resource already exists"
    ensures r.kind == InvalidArgument ==> r.message == "Invalid reference to related resource"
    ensures e.Other? ==> r == ApiError(Internal, "An unexpected error occurred")
  {
    match e
    case App(err) => ApiError(Internal, err.message)
    case Plain(m) =>
      if MentionsNotFound(m) then ApiError(NotFound, m)
      else if MentionsAuth(m) then ApiError(Unauthenticated, m)
      else if MentionsCredits(m) then ApiError(Internal, m)
      else if MentionsDuplicate(m) then ApiError(AlreadyExists, "Resource already exists")
      else if MentionsForeignKey(m) then ApiError(InvalidArgument, "Invalid reference to related resource")
      else ApiError(Internal, "An unexpected error occurred")
    case Other(_) => ApiError(Internal, "An unexpected error occurred")
  }

  /** The status code an `AppError` carries never reaches the client: a 404 `NotFoundError` is still internal. */
  lemma AppErrorsAreInternal(resource: string, id: JsValue.Value)
    ensures HandleError(App(NotFoundError(resource, id))) == ApiError(Internal, resource + " not found")
  {
  }

  /** A plain message that mentions "credits" but none of the earlier rules keeps its text as an internal error. */
  lemma CreditsMessageIsInternal(m: string)
    requires !MentionsNotFound(m) && !MentionsAuth(m) && MentionsCredits(m)
    ensures HandleError(Plain(m)) == ApiError(Internal, m)
  {
  }

  /** The rules overlap and the earlier wins: "not found" beats "duplicate key". */
  lemma NotFoundBeatsDuplicate(a: string, b: string)
    ensures HandleError(Plain(a + "not found" + b + "duplicate key")).kind == NotFound
  {
    var m := a + "not found" + b + "duplicate key";
    assert m[|a|..|a| + |"not found"|] == "not found";
    ContainsAt(m, "not found", |a|);
  }
}
