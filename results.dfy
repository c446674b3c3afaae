/** The application's Result<T> record (Result.cs), the HTTP mapping of a
  * failed result (ResultExtensions.cs), and the exceptions handlers raise. */
module Results {
  import opened Wrappers
  import opened Text

  /** ResultStatus; a C# enum may hold any other integer as well. */
  datatype ResultStatus =
    | NotFound
    | Unauthorized
    | Forbidden
    | UnprocessedEntity
    | BadRequest
    | UndefinedStatus(value: int)

  type Errors = map<string, seq<string>>

  datatype AppResult<T> = AppResult(
    data: Option<T>,
    errors: Option<Errors>,
    message: string,
    isSuccess: bool,
    errorCode: Option<ResultStatus>)

  /** The fixed text for each status, used when a failure carries no message. */
  function StatusText(code: ResultStatus): string
  {
    match code
    case NotFound => "The requested resource was not found."
    case Unauthorized => "You are not authorized access."
    case Forbidden => "You are authorized, but forbidden access."
    case UnprocessedEntity => "The request payload is invalid."
    case BadRequest => "Unable to process request."
    case UndefinedStatus(_) => "An unknown error has occurred."
  }

  /** Every status text starts with a capital letter. */
  lemma StatusTextStartsWithCapital(code: ResultStatus)
    ensures |StatusText(code)| > 0 && 'A' <= StatusText(code)[0] <= 'Z'
    ensures !IsBlank(StatusText(code))
  {
    var t := StatusText(code);
    match code
    case NotFound => assert t[0] == 'T';
    case Unauthorized => assert t[0] == 'Y';
    case Forbidden => assert t[0] == 'Y';
    case UnprocessedEntity => assert t[0] == 'T';
    case BadRequest => assert t[0] == 'U';
    case UndefinedStatus(_) => assert t[0] == 'A';
  }

  /** The five named statuses have five different texts. */
  lemma StatusTextsDistinct(a: ResultStatus, b: ResultStatus)
    requires !a.UndefinedStatus? && !b.UndefinedStatus? && a != b
    ensures StatusText(a) != StatusText(b)
  {
    // The five texts differ in length.
    assert |StatusText(a)| != |StatusText(b)|;
  }

  /** GetDefaultMessage: the caller's message unless it is blank. */
  function DefaultMessage(code: ResultStatus, message: string): (r: string)
    ensures !IsBlank(message) ==> r == message
    ensures !IsBlank(r)
  {
    if !IsBlank(message) then message
    else
      StatusTextStartsWithCapital(code);
      StatusText(code)
  }

  /** Result<T>.Fail */
  function Fail<T>(code: ResultStatus, message: string := "", errors: Option<Errors> := None): (r: AppResult<T>)
    ensures !r.isSuccess && r.errorCode == Some(code) && r.errors == errors && r.data == None
    ensures !IsBlank(message) ==> r.message == message
    ensures IsBlank(message) ==> r.message == StatusText(code)
  {
    AppResult(None, errors, DefaultMessage(code, message), false, Some(code))
  }

  /** Result<T>.Success */
  function Success<T>(data: T): (r: AppResult<T>)
    ensures r.isSuccess && r.data == Some(data) && r.message == "Success"
    ensures r.errorCode == None && r.errors == None
  {
    AppResult(Some(data), None, "Success", true, None)
  }

  /** The implicit conversion to bool. */
  predicate AsBool<T>(r: AppResult<T>)
  {
    r.isSuccess
  }

  lemma AsBoolOfConstructors<T>(code: ResultStatus, message: string, data: T)
    ensures AsBool(Success(data)) && !AsBool(Fail<T>(code, message))
  {
  }

  // -----------------------------------------------------------------------
  // ResultExtensions (web layer)
  // -----------------------------------------------------------------------

  /** ToErrorCode: the HTTP status for a result's error code. */
  function ToErrorCode<T>(r: AppResult<T>): (code: int)
    ensures code in {400, 401, 403, 404, 422, 500}
    ensures code == 500 <==> (r.errorCode.None? || r.errorCode.value.UndefinedStatus?)
  {
    match r.errorCode
    case Some(NotFound) => 404
    case Some(Unauthorized) => 401
    case Some(Forbidden) => 403
    case Some(UnprocessedEntity) => 422
    case Some(BadRequest) => 400
    case _ => 500
  }

  lemma ToErrorCodeOfFail<T>(code: ResultStatus, message: string)
    ensures code == NotFound ==> ToErrorCode(Fail<T>(code, message)) == 404
    ensures code == Unauthorized ==> ToErrorCode(Fail<T>(code, message)) == 401
    ensures code == Forbidden ==> ToErrorCode(Fail<T>(code, message)) == 403
    ensures code == UnprocessedEntity ==> ToErrorCode(Fail<T>(code, message)) == 422
    ensures code == BadRequest ==> ToErrorCode(Fail<T>(code, message)) == 400
  {
  }

  /** Two failures with different named statuses never share an HTTP code. */
  lemma ToErrorCodeInjective<T>(a: AppResult<T>, b: AppResult<T>)
    requires a.errorCode.Some? && !a.errorCode.value.UndefinedStatus?
    requires b.errorCode.Some? && !b.errorCode.value.UndefinedStatus?
    requires ToErrorCode(a) == ToErrorCode(b)
    ensures a.errorCode == b.errorCode
  {
  }

  datatype ErrorViewModel = ErrorViewModel(code: int, message: string, errors: Option<Errors>)

  datatype ObjectResult = ObjectResult(value: ErrorViewModel, statusCode: int)

  /** ReturnErrorResponse: the response body and status both carry the mapped code. */
  function ReturnErrorResponse<T>(r: AppResult<T>): (o: ObjectResult)
    ensures o.statusCode == o.value.code == ToErrorCode(r)
    ensures o.value.message == r.message && o.value.errors == r.errors
  {
    var response := ErrorViewModel(ToErrorCode(r), r.message, r.errors);
    ObjectResult(response, response.code)
  }

  // -----------------------------------------------------------------------
  // Exceptions
  // -----------------------------------------------------------------------

  /** The exceptions the modelled code raises or lets through. */
  datatype Exception =
    | ArgumentException(paramName: string)
    | ArgumentNullException(paramName: string)
    | ArgumentOutOfRangeException(paramName: string)
    | BuilderException(message: string)
    | StorageException
    | DatabaseException
    | ImageException
    | NullReferenceException
    | InvalidOperationException

  /** What a handler does: return a result, or let an exception escape. */
  datatype Outcome<T> = Returned(result: AppResult<T>) | Raised(error: Exception)
  {
    predicate IsFailure(code: ResultStatus)
    {
      Returned? && !result.isSuccess && result.errorCode == Some(code)
    }
  }
}
