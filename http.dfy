/** What the components see of an HTTP request: the response's status, the
    body once read, or the value thrown when the request fails. The requests
    themselves (URLs, headers, JSON decoding) are outside the model. */
module Http {
  import opened Text

  /** A response as far as the components read it. */
  datatype Response = Response(status: nat, statusText: string) {

    /** `response.ok`: the status is in the range 200 to 299. */
    predicate Ok() {
      200 <= status <= 299
    }
  }

  /** A value that reaches a `catch` block: an `Error` object, which carries a
      message, or any other thrown value. */
  datatype Thrown = ErrorObject(message: string) | OtherValue

  /** How an awaited request ends: a response (with the body its JSON decodes
      to, read only when the component reads it), or a rejection. A body that
      fails to decode reaches the same `catch` as a rejection and is written as
      `Failed`. */
  datatype FetchOutcome<T> = Responded(response: Response, body: T) | Failed(thrown: Thrown)

  /** The end of a `try` block that rejects a non-ok response with
      `throw new Error(...)` and otherwise yields the decoded body. */
  datatype Attempt<T> = Loaded(value: T) | Caught(thrown: Thrown)

  /** The message `Error: <status> - <statusText>` that the components build for
      a non-ok response. */
  function HttpErrorMessage(r: Response): (m: string)
    ensures "Error: " <= m
  {
    "Error: " + Decimal(r.status) + " - " + r.statusText
  }

  /** The message identifies the response: two responses with different status
      or status text never give the same message. */
  lemma HttpErrorMessageInjective(r1: Response, r2: Response)
    requires HttpErrorMessage(r1) == HttpErrorMessage(r2)
    ensures r1 == r2
  {
    var d1, d2 := Decimal(r1.status), Decimal(r2.status);
    var m1, m2 := HttpErrorMessage(r1), HttpErrorMessage(r2);
    assert m1 == "Error: " + (d1 + (" - " + r1.statusText));
    assert m2 == "Error: " + (d2 + (" - " + r2.statusText));
    assert d1 + (" - " + r1.statusText) == m1[7..] == m2[7..] == d2 + (" - " + r2.statusText);
    DigitsPrefixUnique(d1, " - " + r1.statusText, d2, " - " + r2.statusText);
    DecimalInjective(r1.status, r2.status);
    assert r1.statusText == (" - " + r1.statusText)[3..];
    assert r2.statusText == (" - " + r2.statusText)[3..];
  }

  /** The shared `try` block of the list and detail fetches: a non-ok response
      becomes a thrown `Error` with `HttpErrorMessage`, an ok response yields
      its body, a rejection propagates unchanged. */
  function TryFetch<T>(o: FetchOutcome<T>): (a: Attempt<T>)
    ensures a.Loaded? <==> o.Responded? && o.response.Ok()
    ensures a.Loaded? ==> a.value == o.body
    ensures o.Failed? ==> a == Caught(o.thrown)
    ensures o.Responded? && !o.response.Ok() ==> a == Caught(ErrorObject(HttpErrorMessage(o.response)))
  {
    match o
    case Failed(t) => Caught(t)
    case Responded(r, body) =>
      if !r.Ok() then Caught(ErrorObject(HttpErrorMessage(r))) else Loaded(body)
  }

  /** `err instanceof Error ? err.message : fallback`. */
  function CaughtMessage(t: Thrown, fallback: string): (m: string)
    ensures t.ErrorObject? ==> m == t.message
    ensures t.OtherValue? ==> m == fallback
  {
    match t
    case ErrorObject(message) => message
    case OtherValue => fallback
  }

  /** For a non-ok response, the message a `catch` block reads off the thrown
      error is `HttpErrorMessage` whatever the fallback. */
  lemma NonOkMessage<T>(o: FetchOutcome<T>, fallback: string)
    requires o.Responded? && !o.response.Ok()
    ensures TryFetch(o).Caught? && CaughtMessage(TryFetch(o).thrown, fallback) == HttpErrorMessage(o.response)
  {
  }
}
