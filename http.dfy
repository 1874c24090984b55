/**
 * The browser's `fetch` as the client uses it: a request goes out, and the
 * reply is either a status with a decoded body or a network failure. Every
 * fetcher and mutation function of the client rejects exactly when the reply
 * is not `ok`, which is the rule `Expect` states once.
 */
module Http {
  import opened Wrappers

  datatype Method = GET | POST | DELETE

  /**
   * A request to the API, with its path relative to the configured base URL.
   * Query values are kept as given; their URL encoding is not modelled.
   */
  datatype Request = Request(verb: Method, path: string, query: seq<(string, string)>, body: Option<map<string, string>>)

  /** The transport's answer: a status and a decoded JSON body, or no answer at all. */
  datatype Reply<T> = Reply(status: int, body: T) | NetworkFailure

  /** Why a fetch rejected: the status of a reply that was not ok, or the network. */
  datatype FetchError = HttpStatus(status: int) | Unreachable

  /** `Response.ok`: exactly the statuses in the range 200-299. */
  predicate IsOk(status: int)
    ensures IsOk(status) <==> 200 <= status < 300
  {
    200 <= status <= 299
  }

  /** The rule every fetcher follows: `if (!res.ok) throw ...; return res.json()`. */
  function Expect<T>(reply: Reply<T>): (r: Result<T, FetchError>)
    ensures r.Success? <==> reply.Reply? && IsOk(reply.status)
    ensures r.Success? ==> r.value == reply.body
    ensures reply.Reply? && !IsOk(reply.status) ==> r == Failure(HttpStatus(reply.status))
    ensures reply.NetworkFailure? ==> r == Failure(Unreachable)
  {
    match reply
    case NetworkFailure => Failure(Unreachable)
    case Reply(status, body) => if IsOk(status) then Success(body) else Failure(HttpStatus(status))
  }

  /** A request together with what its fetcher made of the reply. */
  datatype Exchange<T> = Exchange(request: Request, result: Result<T, FetchError>)

  /**
   * The first value given for query parameter `name`, as the server's
   * `form:"streamName"` binding reads a query string the client built with a
   * template literal (StreamOverview.tsx:30).
   */
  function QueryParam(query: seq<(string, string)>, name: string): (r: Option<string>)
    ensures r.Some? <==> exists i :: 0 <= i < |query| && query[i].0 == name
    ensures r.Some? ==> exists i :: 0 <= i < |query| && query[i] == (name, r.value)
                                 && forall j :: 0 <= j < i ==> query[j].0 != name
    decreases |query|
  {
    if |query| == 0 then None
    else if query[0].0 == name then Some(query[0].1)
    else
      var r := QueryParam(query[1..], name);
      assert forall i :: 1 <= i < |query| ==> query[i] == query[1..][i - 1];
      r
  }
}
