/**
  * The abstract view of `fetch` that every client module shares. A request is
  * what the client sends (paths are relative to the CMS base URL); a reply is
  * what the network gives back: a response with a status and its parsed JSON
  * body, or an exception. Replies are inputs of the model; operations return
  * the requests they sent, so "no request was made" is an empty trace.
  */
module Http {
  import opened Wrappers

  datatype Method = GET | POST | PUT | DELETE

  /** A query-string parameter, key then value, in `URLSearchParams` order. */
  type Param = (string, string)

  /** A request header, name then value. */
  type Header = (string, string)

  /** The JSON a request body is stringified from. */
  datatype Json =
    | JNull
    | JBool(b: bool)
    | JNum(n: int)
    | JStr(s: string)
    | JArr(items: seq<Json>)
    | JObj(members: seq<(string, Json)>)

  datatype Request = Request(verb: Method, path: string, query: seq<Param>, headers: seq<Header>, body: Option<Json>)

  /** The outcome of one `fetch` (and the `response.json()` after it): a response, or a thrown error. */
  datatype Reply<+B> = Response(status: int, body: B) | Thrown(error: Error)

  /** `response.ok`: the status is in 200..299. */
  predicate IsOk<B>(r: Reply<B>) {
    r.Response? && 200 <= r.status <= 299
  }

  /** What an operation computed, with the requests it sent, in order. */
  datatype Traced<+T> = Traced(value: T, sent: seq<Request>)

  /** Bodies of error responses carry `error.message`; "" when absent. */
  datatype ErrorBody = ErrorBody(errorMessage: string)

  const JsonContentType: Header := ("Content-Type", "application/json")
  const AcceptJson: Header := ("Accept", "application/json")

  function Bearer(token: string): Header {
    ("Authorization", "Bearer " + token)
  }

  /** The value of member `key` of a JSON object, if present. */
  function Member(j: Json, key: string): Option<Json> {
    if j.JObj? then Find(j.members, key) else None
  }

  function Find(members: seq<(string, Json)>, key: string): Option<Json> {
    if members == [] then None
    else if members[0].0 == key then Some(members[0].1)
    else Find(members[1..], key)
  }

  /** The value of the first parameter named `key`, as `URLSearchParams.get` gives it. */
  function Lookup(query: seq<Param>, key: string): Option<string> {
    if query == [] then None
    else if query[0].0 == key then Some(query[0].1)
    else Lookup(query[1..], key)
  }

  /** Members whose key differs from `key` can be skipped when looking it up. */
  lemma {:induction false} FindSkip(members: seq<(string, Json)>, key: string, n: nat)
    requires n <= |members|
    requires forall i :: 0 <= i < n ==> members[i].0 != key
    ensures Find(members, key) == Find(members[n..], key)
  {
    if n > 0 {
      FindSkip(members[1..], key, n - 1);
      assert members[1..][n - 1..] == members[n..];
    }
  }

  /** Parameters whose key differs from `key` can be skipped when looking it up. */
  lemma {:induction false} LookupSkip(query: seq<Param>, key: string, n: nat)
    requires n <= |query|
    requires forall i :: 0 <= i < n ==> query[i].0 != key
    ensures Lookup(query, key) == Lookup(query[n..], key)
  {
    if n > 0 {
      LookupSkip(query[1..], key, n - 1);
      assert query[1..][n - 1..] == query[n..];
    }
  }
}
