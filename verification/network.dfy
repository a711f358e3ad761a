/** The outcome of one `fetch` as the data hooks see it; the request itself is not modelled. */
module Network {
  import opened Text

  datatype Response<T> =
    | Ok(body: T)                 // a 2xx response whose JSON body was read
    | HttpError(status: int)      // `!response.ok`: the hook throws `HTTP error! status: <status>`
    | Timeout                     // the abort controller fired: an `AbortError`
    | Failure(message: string)    // any other thrown `Error`
    | NonError                    // a thrown value that is not an `Error`

  const TimeoutMessage := "Request timeout. Please try again."
  const UnknownErrorMessage := "Unknown error occurred"
  const HttpErrorPrefix := "HTTP error! status: "

  /** The text a hook stores in `error` after a failed request. */
  function ErrorMessage<T>(r: Response<T>): (msg: string)
    requires !r.Ok?
    ensures r.HttpError? ==> msg == HttpErrorPrefix + IntToString(r.status)
    ensures r.HttpError? ==> StartsWith(msg, HttpErrorPrefix) && |msg| > |HttpErrorPrefix|
    ensures r.HttpError? ==> msg != TimeoutMessage && msg != UnknownErrorMessage
    ensures r.Timeout? ==> msg == TimeoutMessage
    ensures r.Failure? ==> msg == r.message
    ensures r.NonError? ==> msg == UnknownErrorMessage
  {
    match r
    case HttpError(status) =>
      var msg := HttpErrorPrefix + IntToString(status);
      assert msg[..|HttpErrorPrefix|] == HttpErrorPrefix;
      assert msg[0] == 'H';
      msg
    case Timeout => TimeoutMessage
    case Failure(message) => message
    case NonError => UnknownErrorMessage
  }

  /** Two failed responses with different statuses leave different messages. */
  lemma HttpErrorNamesStatus<T>(a: int, b: int)
    ensures ErrorMessage<T>(HttpError(a)) == ErrorMessage<T>(HttpError(b)) ==> a == b
  {
    AppendCancel(HttpErrorPrefix, IntToString(a), IntToString(b));
    IntToStringInjective(a, b);
  }
}
