/**
  The application's exception handlers: each turns a caught exception into
  an HTTP response whose body is an error record. A body field that is
  `None` here is a key the JSON body omits (the handlers dump with
  `exclude_none`).
 */
module ExceptionHandlers {
  import opened Wrappers
  import opened Text
  import opened Exceptions
  import opened Externals

  /** One validation problem in the response's `errors` list. */
  datatype ErrorDetail = ErrorDetail(field: Option<string>, message: string, errorType: Option<string>)

  /** The response body: the plain error record, or the validation record
      that adds the list of problems. */
  datatype ErrorBody =
    | ErrorResponse(error: string, message: string, statusCode: int, details: Option<Details>, path: Option<string>)
    | ValidationErrorResponse(error: string, message: string, statusCode: int, details: Option<Details>,
                              path: Option<string>, errors: seq<ErrorDetail>)

  datatype JsonResponse = JsonResponse(statusCode: int, content: ErrorBody)

  /** The detail of a framework HTTP exception: a string, or any other value
      together with its `str()` rendering. */
  datatype HttpDetail = TextDetail(text: string) | OtherDetail(rendered: string)

  datatype HttpException = HttpException(statusCode: int, detail: HttpDetail)

  /** An element of a validation error's location: a field name or an index. */
  datatype Loc = LocName(name: string) | LocIndex(index: int)

  /** One entry of the framework's list of validation errors. */
  datatype RawError = RawError(loc: seq<Loc>, msg: string, errorType: string)

  const ValidationFailedMessage := "Input validation failed"
  const UnexpectedErrorMessage := "An unexpected error occurred. Please try again later."

  /** Handler for the application's own exceptions: the response carries the
      exception's class name, message and status code; empty details are
      dropped. */
  function WhiteRabbitExceptionHandler(path: string, exc: AppError): (r: JsonResponse)
    ensures r.statusCode == exc.statusCode && r.content.ErrorResponse?
    ensures r.content.error == ClassName(exc.kind) && r.content.message == exc.message
    ensures r.content.statusCode == exc.statusCode && r.content.path == Some(path)
    ensures r.content.details.None? <==> |exc.details| == 0
    ensures r.content.details.Some? ==> r.content.details.value == exc.details
  {
    JsonResponse(exc.statusCode,
                 ErrorResponse(ClassName(exc.kind), exc.message, exc.statusCode,
                               if |exc.details| == 0 then None else Some(exc.details), Some(path)))
  }

  /** Reads an application exception back from a response body; an
      omitted `details` is the empty dictionary. */
  function Recovered(r: JsonResponse): Option<AppError>
  {
    match r.content
    case ErrorResponse(error, message, statusCode, details, _) =>
      (match KindOfName(error)
       case Some(k) => Some(AppError(k, message, statusCode, if details.Some? then details.value else map[]))
       case None => None)
    case ValidationErrorResponse(_, _, _, _, _, _) => None
  }

  /** Nothing about an application exception is lost in its response: the
      exception can be read back from the body. */
  lemma WhiteRabbitResponseRoundTrip(path: string, exc: AppError)
    ensures Recovered(WhiteRabbitExceptionHandler(path, exc)) == Some(exc)
  {
    if |exc.details| == 0 {
      assert exc.details == map[];
    }
  }

  /** Handler for framework HTTP exceptions. */
  function HttpExceptionHandler(path: string, exc: HttpException): (r: JsonResponse)
    ensures r.statusCode == exc.statusCode && r.content.ErrorResponse?
    ensures r.content.error == "HTTPException" && r.content.details.None?
    ensures r.content.message == (match exc.detail case TextDetail(t) => t case OtherDetail(s) => s)
    ensures r.content.statusCode == exc.statusCode && r.content.path == Some(path)
  {
    var message := match exc.detail case TextDetail(t) => t case OtherDetail(s) => s;
    JsonResponse(exc.statusCode, ErrorResponse("HTTPException", message, exc.statusCode, None, Some(path)))
  }

  /** `str(loc)` */
  function LocText(l: Loc): (r: string)
    ensures l.LocName? ==> r == l.name
    ensures l.LocIndex? ==> r != "" && '.' !in r
  {
    match l
    case LocName(n) => n
    case LocIndex(i) => IntToString(i)
  }

  function LocTexts(locs: seq<Loc>): (r: seq<string>)
    ensures |r| == |locs| && forall i :: 0 <= i < |locs| ==> r[i] == LocText(locs[i])
  {
    seq(|locs|, i requires 0 <= i < |locs| => LocText(locs[i]))
  }

  /** The field text of one validation error: the location without its first
      element, joined with dots, when it has more than one element;
      otherwise its only element. An empty location makes the lookup of its
      first element raise. */
  function FieldText(loc: seq<Loc>): (r: Result<string, Raised>)
    ensures r.Ok? <==> |loc| > 0
    ensures r.Err? ==> r.error.typeName == "IndexError"
    ensures |loc| == 1 ==> r == Ok(LocText(loc[0]))
  {
    if |loc| > 1 then Ok(Join(LocTexts(loc[1..]), "."))
    else if |loc| == 1 then Ok(LocText(loc[0]))
    else Err(Raised("IndexError", "tuple index out of range"))
  }

  /** `field if field else None` */
  function FieldOf(text: string): (r: Option<string>)
    ensures r.None? <==> text == ""
    ensures r.Some? ==> r.value == text
  {
    if text == "" then None else Some(text)
  }

  /** The field of an error is absent exactly when its location is one empty
      name, or two elements the second of which renders empty. */
  lemma FieldAbsentIff(loc: seq<Loc>)
    requires |loc| > 0
    ensures FieldText(loc).Ok?
    ensures FieldOf(FieldText(loc).value).None? <==>
            (|loc| == 1 && LocText(loc[0]) == "") || (|loc| == 2 && LocText(loc[1]) == "")
  {
    if |loc| > 1 {
      JoinEmptyIff(LocTexts(loc[1..]), ".");
    }
  }

  /** The dotted field names the location after its first element: splitting
      it on `.` gives that location back, element by element, when no
      element's text contains a dot. */
  lemma FieldPathRoundTrip(loc: seq<Loc>)
    requires |loc| > 1
    requires forall i, k :: 1 <= i < |loc| && 0 <= k < |LocText(loc[i])| ==> LocText(loc[i])[k] != '.'
    ensures FieldText(loc).Ok?
    ensures Split(FieldText(loc).value, '.') == LocTexts(loc[1..])
  {
    var parts := LocTexts(loc[1..]);
    assert forall i, k :: 0 <= i < |parts| && 0 <= k < |parts[i]| ==> parts[i][k] != '.' by {
      forall i, k | 0 <= i < |parts| && 0 <= k < |parts[i]|
        ensures parts[i][k] != '.'
      {
        assert parts[i] == LocText(loc[i + 1]);
      }
    }
    SplitJoin(parts, '.');
  }

  /** The entry of the response's `errors` list for one validation error. */
  function DetailOf(e: RawError): ErrorDetail
    requires |e.loc| > 0
  {
    ErrorDetail(FieldOf(FieldText(e.loc).value), e.msg, Some(e.errorType))
  }

  /** Handler for request validation errors: one detail per error, in order,
      and the number of errors under `error_count`. */
  method ValidationExceptionHandler(path: string, raw: seq<RawError>) returns (r: Result<JsonResponse, Raised>)
    ensures r.Err? <==> exists i :: 0 <= i < |raw| && |raw[i].loc| == 0
    ensures r.Err? ==> r.error.typeName == "IndexError"
    ensures r.Ok? ==> r.value.statusCode == 422 && r.value.content.ValidationErrorResponse?
    ensures r.Ok? ==> r.value.content.error == "ValidationError" && r.value.content.message == ValidationFailedMessage
    ensures r.Ok? ==> r.value.content.statusCode == 422 && r.value.content.path == Some(path)
    ensures r.Ok? ==> r.value.content.details == Some(map["error_count" := DInt(|raw|)])
    ensures r.Ok? ==> |r.value.content.errors| == |raw|
    ensures r.Ok? ==> forall i :: 0 <= i < |raw| ==> |raw[i].loc| > 0 && r.value.content.errors[i] == DetailOf(raw[i])
  {
    var errors: seq<ErrorDetail> := [];
    for i := 0 to |raw|
      invariant |errors| == i
      invariant forall j :: 0 <= j < i ==> |raw[j].loc| > 0 && errors[j] == DetailOf(raw[j])
    {
      var field := FieldText(raw[i].loc);
      if field.Err? {
        assert |raw[i].loc| == 0;
        return Err(field.error);
      }
      var detail := ErrorDetail(FieldOf(field.value), raw[i].msg, Some(raw[i].errorType));
      assert detail == DetailOf(raw[i]);
      errors := errors + [detail];
    }
    var body := ValidationErrorResponse("ValidationError", ValidationFailedMessage, 422,
                                        Some(map["error_count" := DInt(|errors|)]), Some(path), errors);
    return Ok(JsonResponse(422, body));
  }

  /** Catch-all handler: always 500 with a fixed message; the exception's
      class name is included only in debug mode. */
  function GenericExceptionHandler(path: string, excTypeName: string, debug: bool): (r: JsonResponse)
    ensures r.statusCode == 500 && r.content.ErrorResponse?
    ensures r.content.error == "InternalServerError" && r.content.message == UnexpectedErrorMessage
    ensures r.content.statusCode == 500 && r.content.path == Some(path)
    ensures r.content.details.Some? <==> debug
    ensures debug ==> r.content.details.value == map["error_type" := DStr(excTypeName)]
  {
    JsonResponse(500, ErrorResponse("InternalServerError", UnexpectedErrorMessage, 500,
                                    if debug then Some(map["error_type" := DStr(excTypeName)]) else None,
                                    Some(path)))
  }
}
