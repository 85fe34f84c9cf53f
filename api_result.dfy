/**
 * `ApiResult`: the envelope every client operation returns. Its two attributes may each be nil,
 * and its state (success, error, empty, value) is read off which of them are.
 */
module ApiResults {
  import opened Wrappers

  datatype ApiResult<+T> = ApiResult(value: Option<T>, error: Option<string>) {

    predicate IsSuccess() {
      error.None?
    }

    predicate IsError() {
      !IsSuccess()
    }

    predicate IsEmpty() {
      IsSuccess() && value.None?
    }

    predicate HasValue() {
      IsSuccess() && value.Some?
    }
  }

  /** What `ApiResult.error` is given: an exception, whose message is kept, or any other value, kept as it is. */
  datatype ErrorSource = Exception(message: string) | Plain(err: Option<string>)

  /** `ApiResult.success(val)`: no error, and the value as given (nil included). */
  function Success<T>(v: Option<T>): (r: ApiResult<T>)
    ensures r.IsSuccess() && !r.IsError() && r.value == v
    ensures r.IsEmpty() <==> v.None?
    ensures r.HasValue() <==> v.Some?
  {
    ApiResult(v, None)
  }

  /** `ApiResult.error(err)`: never a value; an exception's message, or the plain value, as the error. */
  function Error<T>(e: ErrorSource): (r: ApiResult<T>)
    ensures r.value.None?
    ensures e.Exception? ==> r.IsError() && r.error == Some(e.message)
    ensures e.Plain? ==> r.error == e.err
    ensures r.IsError() <==> e.Exception? || e.err.Some?
  {
    match e
    case Exception(m) => ApiResult(None, Some(m))
    case Plain(x) => ApiResult(None, x)
  }

  /** `EmptyApiResult`: the shared result with neither a value nor an error. */
  function Empty<T>(): (r: ApiResult<T>)
    ensures r.IsSuccess() && r.IsEmpty()
    ensures !r.HasValue() && !r.IsError()
  {
    ApiResult(None, None)
  }

  /**
   * The predicates partition every result: it is an error, empty, or holds a value, exactly one
   * of the three; success is the negation of error.
   */
  lemma TriState<T>(r: ApiResult<T>)
    ensures r.IsSuccess() <==> r.error.None?
    ensures r.IsError() <==> !r.IsSuccess()
    ensures r.IsEmpty() <==> r.IsSuccess() && r.value.None?
    ensures r.HasValue() <==> r.IsSuccess() && r.value.Some?
    ensures r.IsError() || r.IsEmpty() || r.HasValue()
    ensures !(r.IsEmpty() && r.HasValue()) && !(r.IsError() && r.IsSuccess())
  {
  }

  /**
   * The same envelope seen at another value type: how `find_category` and `main_category` hand
   * back the categories result they were given when it holds no value.
   */
  function Forward<T, U>(r: ApiResult<T>): (s: ApiResult<U>)
    requires r.value.None?
    ensures s.error == r.error && s.value.None?
  {
    ApiResult(None, r.error)
  }
}
