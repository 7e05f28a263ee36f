/** What the admin screens send: HTTP requests as values. A screen method
    returns the requests it issued, in order; whether each request succeeds
    is a parameter of the method. */
module Client {

  datatype Verb = Get | Post | Put | Patch | Delete

  /** A request: the verb, the path, and the JSON body (for a GET, the query
      parameters), every value written as text. */
  datatype Request = Request(verb: Verb, path: string, data: map<string, string>)

  function Del(path: string): Request {
    Request(Delete, path, map[])
  }

  function BoolText(b: bool): string {
    if b then "true" else "false"
  }

  /** Two calls in a promise chain: the second request is sent only after
      the first one succeeded. */
  function Chain(first: Request, second: Request, firstOk: bool): (r: seq<Request>)
    ensures |r| >= 1 && r[0] == first
    ensures |r| == 2 <==> firstOk
    ensures |r| <= 2
  {
    if firstOk then [first, second] else [first]
  }

  /** In a chain the dependent request always goes first: whenever the
      second request is sent it comes after the first, and the first
      succeeded. */
  lemma ChainOrder(first: Request, second: Request, firstOk: bool, i: int)
    requires first != second
    requires 0 <= i < |Chain(first, second, firstOk)| && Chain(first, second, firstOk)[i] == second
    ensures i == 1 && firstOk
    ensures Chain(first, second, firstOk)[..i] == [first]
  {
  }
}
