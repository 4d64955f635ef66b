/** The result of one backend call, as the pages observe it once the request settles. */
module Http {

  /** A status for which the Fetch API's `Response.ok` is false. */
  type FailureStatus = c: int | c < 200 || 299 < c witness 500

  datatype Outcome<+T> =
    | Ok(payload: T)               // `response.ok`, and `response.json()` gives `payload`
    | Malformed                    // `response.ok`, but `response.json()` rejects
    | Status(code: FailureStatus)  // a response whose `ok` is false
    | Aborted                      // the request was aborted (an `AbortError`)
    | NetworkError                 // `fetch` rejected for any other reason
  {
    /** The promise of the call was fulfilled with a response. */
    predicate Responded()
    {
      Ok? || Malformed? || Status?
    }

    /** `response.ok` */
    predicate IsOk()
    {
      Ok? || Malformed?
    }
  }

  /** `Promise.all` over three calls fulfils exactly when each of them does. */
  predicate AllResponded<A, B, C>(a: Outcome<A>, b: Outcome<B>, c: Outcome<C>)
  {
    a.Responded() && b.Responded() && c.Responded()
  }
}
