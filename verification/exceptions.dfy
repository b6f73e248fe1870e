/**
  The application's exception hierarchy: a base exception carrying a
  message, an HTTP status code and a details dictionary, and one subclass
  per failure kind, each of which fixes its status code and builds or
  defaults its message. An exception value is a record; the subclass is
  its `kind`.
 */
module Exceptions {
  import opened Wrappers
  import opened Text

  datatype Kind =
    | WhiteRabbit          // the base class itself
    | DatabaseConnection
    | DatabaseQuery
    | ResourceNotFound
    | Validation
    | InvalidNodeType
    | InvalidParameter
    | TTSGeneration
    | TTSModelNotReady
    | TextTooLong

  /** The values that appear in a details dictionary: strings and integers. */
  datatype DetailValue = DStr(s: string) | DInt(i: int)

  type Details = map<string, DetailValue>

  datatype AppError = AppError(kind: Kind, message: string, statusCode: int, details: Details)

  /** `type(exc).__name__`; class names are distinct, so the name
      identifies the kind. */
  function ClassName(k: Kind): (n: string)
    ensures KindOfName(n) == Some(k)
  {
    match k
    case WhiteRabbit => "WhiteRabbitException"
    case DatabaseConnection => "DatabaseConnectionError"
    case DatabaseQuery => "DatabaseQueryError"
    case ResourceNotFound => "ResourceNotFoundError"
    case Validation => "ValidationError"
    case InvalidNodeType => "InvalidNodeTypeError"
    case InvalidParameter => "InvalidParameterError"
    case TTSGeneration => "TTSGenerationError"
    case TTSModelNotReady => "TTSModelNotReadyError"
    case TextTooLong => "TextTooLongError"
  }

  /** The exception class a response's `error` field names, if any. */
  function KindOfName(name: string): Option<Kind>
  {
    if name == "WhiteRabbitException" then Some(WhiteRabbit)
    else if name == "DatabaseConnectionError" then Some(DatabaseConnection)
    else if name == "DatabaseQueryError" then Some(DatabaseQuery)
    else if name == "ResourceNotFoundError" then Some(ResourceNotFound)
    else if name == "ValidationError" then Some(Validation)
    else if name == "InvalidNodeTypeError" then Some(InvalidNodeType)
    else if name == "InvalidParameterError" then Some(InvalidParameter)
    else if name == "TTSGenerationError" then Some(TTSGeneration)
    else if name == "TTSModelNotReadyError" then Some(TTSModelNotReady)
    else if name == "TextTooLongError" then Some(TextTooLong)
    else None
  }

  /** The details stored on every exception: an omitted (or empty) dictionary
      becomes the empty dictionary, so `details` is never `None`. */
  function StoredDetails(details: Option<Details>): (d: Details)
    ensures details.Some? ==> d == details.value
    ensures details.None? ==> |d| == 0
  {
    if details.Some? then details.value else map[]
  }

  /** The base constructor; the status code defaults to 500. */
  function WhiteRabbitException(message: string, statusCode: Option<int>, details: Option<Details>): (e: AppError)
    ensures e.kind == WhiteRabbit && e.message == message
    ensures e.statusCode == (if statusCode.Some? then statusCode.value else 500)
    ensures e.details == StoredDetails(details)
  {
    AppError(WhiteRabbit, message, if statusCode.Some? then statusCode.value else 500, StoredDetails(details))
  }

  function DatabaseConnectionError(message: Option<string>, details: Option<Details>): (e: AppError)
    ensures e.kind == DatabaseConnection && e.statusCode == 503
    ensures e.message == (if message.Some? then message.value else "Database connection failed")
    ensures e.details == StoredDetails(details)
  {
    AppError(DatabaseConnection, if message.Some? then message.value else "Database connection failed", 503,
             StoredDetails(details))
  }

  function DatabaseQueryError(message: Option<string>, details: Option<Details>): (e: AppError)
    ensures e.kind == DatabaseQuery && e.statusCode == 500
    ensures e.message == (if message.Some? then message.value else "Database query failed")
    ensures e.details == StoredDetails(details)
  {
    AppError(DatabaseQuery, if message.Some? then message.value else "Database query failed", 500,
             StoredDetails(details))
  }

  function NotFoundMessage(resourceType: string, resourceId: string): string
  {
    resourceType + " with id '" + resourceId + "' not found"
  }

  function ResourceNotFoundError(resourceType: string, resourceId: string, details: Option<Details>): (e: AppError)
    ensures e.kind == ResourceNotFound && e.statusCode == 404
    ensures e.message == NotFoundMessage(resourceType, resourceId)
    ensures e.details == StoredDetails(details)
  {
    AppError(ResourceNotFound, NotFoundMessage(resourceType, resourceId), 404, StoredDetails(details))
  }

  function ValidationError(message: string, details: Option<Details>): (e: AppError)
    ensures e.kind == Validation && e.statusCode == 422 && e.message == message
    ensures e.details == StoredDetails(details)
  {
    AppError(Validation, message, 422, StoredDetails(details))
  }

  function InvalidNodeTypeMessage(nodeType: string, validTypes: seq<string>): string
  {
    "Invalid node type '" + nodeType + "'. Valid types are: " + Join(validTypes, ", ")
  }

  function InvalidNodeTypeError(nodeType: string, validTypes: seq<string>, details: Option<Details>): (e: AppError)
    ensures e.kind == InvalidNodeType && e.statusCode == 400
    ensures e.message == InvalidNodeTypeMessage(nodeType, validTypes)
    ensures e.details == StoredDetails(details)
  {
    AppError(InvalidNodeType, InvalidNodeTypeMessage(nodeType, validTypes), 400, StoredDetails(details))
  }

  function InvalidParameterError(parameter: string, reason: string, details: Option<Details>): (e: AppError)
    ensures e.kind == InvalidParameter && e.statusCode == 400
    ensures e.message == "Invalid parameter '" + parameter + "': " + reason
    ensures e.details == StoredDetails(details)
  {
    AppError(InvalidParameter, "Invalid parameter '" + parameter + "': " + reason, 400, StoredDetails(details))
  }

  function TTSGenerationError(message: Option<string>, details: Option<Details>): (e: AppError)
    ensures e.kind == TTSGeneration && e.statusCode == 500
    ensures e.message == (if message.Some? then message.value else "TTS audio generation failed")
    ensures e.details == StoredDetails(details)
  {
    AppError(TTSGeneration, if message.Some? then message.value else "TTS audio generation failed", 500,
             StoredDetails(details))
  }

  function TTSModelNotReadyError(message: Option<string>, details: Option<Details>): (e: AppError)
    ensures e.kind == TTSModelNotReady && e.statusCode == 503
    ensures e.message == (if message.Some? then message.value else "TTS model is not ready")
    ensures e.details == StoredDetails(details)
  {
    AppError(TTSModelNotReady, if message.Some? then message.value else "TTS model is not ready", 503,
             StoredDetails(details))
  }

  const TooLongHead := "Text length ("
  const TooLongMiddle := ") exceeds maximum allowed length ("

  function TextTooLongMessage(textLength: int, maxLength: int): string
  {
    TooLongHead + IntToString(textLength) + TooLongMiddle + IntToString(maxLength) + ")"
  }

  function TextTooLongError(textLength: int, maxLength: int, details: Option<Details>): (e: AppError)
    ensures e.kind == TextTooLong && e.statusCode == 400
    ensures e.message == TextTooLongMessage(textLength, maxLength)
    ensures e.details == StoredDetails(details)
  {
    AppError(TextTooLong, TextTooLongMessage(textLength, maxLength), 400, StoredDetails(details))
  }

  /** Two strings that each start with a `)`-free prefix followed by `)`
      split at the same place. */
  lemma PrefixBeforeParen(a: string, x: string, b: string, y: string)
    requires forall k :: 0 <= k < |a| ==> a[k] != ')'
    requires forall k :: 0 <= k < |b| ==> b[k] != ')'
    requires |x| > 0 && x[0] == ')' && |y| > 0 && y[0] == ')'
    requires a + x == b + y
    ensures a == b && x == y
  {
    var k := if |a| <= |b| then |a| else |b|;
    assert (a + x)[k] == (b + y)[k];
    assert |a| == |b|;
    assert a == (a + x)[..|a|] && b == (b + y)[..|b|];
    assert x == (a + x)[|a|..] && y == (b + y)[|b|..];
  }

  lemma CancelPrefix(p: string, s1: string, s2: string)
    requires p + s1 == p + s2
    ensures s1 == s2
  {
    assert s1 == (p + s1)[|p|..] && s2 == (p + s2)[|p|..];
  }

  lemma RenderedIntHasNoParen(i: int)
    ensures forall k :: 0 <= k < |IntToString(i)| ==> IntToString(i)[k] != ')'
  {
  }

  /** `h + a + m + b + ")"` determines `a` and `b` when neither contains
      a `)` and `m` starts with one. */
  lemma FramedPairInjective(h: string, m: string, a1: string, b1: string, a2: string, b2: string)
    requires forall k :: 0 <= k < |a1| ==> a1[k] != ')'
    requires forall k :: 0 <= k < |a2| ==> a2[k] != ')'
    requires |m| > 0 && m[0] == ')'
    requires h + a1 + m + b1 + ")" == h + a2 + m + b2 + ")"
    ensures a1 == a2 && b1 == b2
  {
    var t1, t2 := m + (b1 + ")"), m + (b2 + ")");
    assert h + a1 + m + b1 + ")" == h + (a1 + t1);
    assert h + a2 + m + b2 + ")" == h + (a2 + t2);
    CancelPrefix(h, a1 + t1, a2 + t2);
    PrefixBeforeParen(a1, t1, a2, t2);
    CancelPrefix(m, b1 + ")", b2 + ")");
    assert b1 == (b1 + ")")[..|b1|] && b2 == (b2 + ")")[..|b2|];
  }

  /** The text-too-long message determines both numbers it reports: the
      actual length and the maximum can be read back from it. */
  lemma TextTooLongMessageInjective(n1: int, m1: int, n2: int, m2: int)
    requires TextTooLongMessage(n1, m1) == TextTooLongMessage(n2, m2)
    ensures n1 == n2 && m1 == m2
  {
    RenderedIntHasNoParen(n1);
    RenderedIntHasNoParen(n2);
    FramedPairInjective(TooLongHead, TooLongMiddle, IntToString(n1), IntToString(m1), IntToString(n2), IntToString(m2));
    IntToStringInjective(n1, n2);
    IntToStringInjective(m1, m2);
  }
}
