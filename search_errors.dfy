/** nakari/search/errors.py: the search error classes. */
module SearchErrors {
  import opened Wrappers
  import opened PyValue

  /** Which class was raised; all three are `SearchError`s. */
  datatype ErrorClass = Base | Auth | RateLimit

  const SEARCH_ERROR: string := "SEARCH_ERROR"
  const AUTH_ERROR: string := "AUTH_ERROR"
  const RATE_LIMIT_ERROR: string := "RATE_LIMIT_ERROR"
  const HTTP_ERROR: string := "HTTP_ERROR"
  const TIMEOUT_ERROR: string := "TIMEOUT_ERROR"
  const REQUEST_ERROR: string := "REQUEST_ERROR"
  const UNKNOWN_ERROR: string := "UNKNOWN_ERROR"

  /** The state of an error object, as a value. */
  datatype ErrorValue = ErrorValue(cls: ErrorClass, message: string, code: string,
                                   context: Option<map<string, Value>>)

  /** A raised `SearchError` (of any subclass). `message` is its `str()`. */
  class SearchError {
    const cls: ErrorClass
    const message: string
    const code: string
    var context: Option<map<string, Value>>

    /** `SearchError(message, code="SEARCH_ERROR")`. */
    constructor (message: string, code: string := SEARCH_ERROR)
      ensures View() == ErrorValue(Base, message, code, None)
    {
      this.cls := Base;
      this.message := message;
      this.code := code;
      context := None;
    }

    /** `SearchAuthError(message="Authentication failed")`. */
    constructor AuthError(message: string := "Authentication failed")
      ensures View() == ErrorValue(Auth, message, AUTH_ERROR, None)
    {
      this.cls := Auth;
      this.message := message;
      this.code := AUTH_ERROR;
      context := None;
    }

    /** `SearchRateLimitError(message="Rate limit exceeded")`. */
    constructor RateLimitError(message: string := "Rate limit exceeded")
      ensures View() == ErrorValue(RateLimit, message, RATE_LIMIT_ERROR, None)
    {
      this.cls := RateLimit;
      this.message := message;
      this.code := RATE_LIMIT_ERROR;
      context := None;
    }

    function View(): ErrorValue
      reads this
    {
      ErrorValue(cls, message, code, context)
    }

    /** `with_context(**kwargs)`: replaces the context and returns the same
        object. */
    method WithContext(kwargs: map<string, Value>) returns (self: SearchError)
      modifies this
      ensures self == this
      ensures View() == old(View()).(context := Some(kwargs))
    {
      context := Some(kwargs);
      self := this;
    }
  }
}
