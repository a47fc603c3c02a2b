/**
 * What the client's `fetchBaseQuery` sends and gets back, with the server as an
 * oracle: the k-th request sent on a `Network` is answered by `respond(k, request)`.
 */
module Http {
  import opened Json

  /** A query-string value as the client hands it to the request builder. */
  datatype Param = PNum(x: real) | PBool(b: bool) | PStr(s: string)

  /** The `args` of a query: a URL, an HTTP method (`verb`) and the query-string parameters. */
  datatype Args = Args(url: string, verb: string, params: map<string, Param>)

  /** A request as it leaves the browser: its arguments and the headers prepared for it. */
  datatype Sent = Sent(args: Args, headers: map<string, string>)

  /** The status of a failed query: an HTTP status, or a failure before any response (`FETCH_ERROR`). */
  datatype ErrorStatus = Status(code: int) | FetchError

  /** A query result: `{ data }` or `{ error }`. */
  datatype QueryResult = Data(data: Json) | Failed(status: ErrorStatus)

  const AuthorizationHeader := "Authorization"

  /** `result.error && result.error.status === 401`. */
  predicate IsUnauthorized(r: QueryResult)
  {
    r.Failed? && r.status == Status(401)
  }

  /** A plain GET to `url`, which is what a query given as a bare string sends. */
  function FromUrl(url: string): (a: Args)
    ensures a.verb == "GET" && a.params == map[] && a.url == url
  {
    Args(url, "GET", map[])
  }

  /** The `Headers` object `prepareHeaders` receives and fills. */
  class Headers {
    var entries: map<string, string>

    constructor ()
      ensures entries == map[]
    {
      entries := map[];
    }

    method Set(name: string, value: string)
      modifies this
      ensures entries == old(entries)[name := value]
    {
      entries := entries[name := value];
    }
  }

  /** The network as seen by the client: every request sent, in order, and the server's answers. */
  class Network {
    var sent: seq<Sent>
    const respond: (nat, Sent) -> QueryResult

    constructor (respond: (nat, Sent) -> QueryResult)
      ensures sent == [] && this.respond == respond
    {
      sent := [];
      this.respond := respond;
    }

    /** Sends one request and returns the server's answer to it. */
    method Fetch(s: Sent) returns (r: QueryResult)
      modifies this
      ensures sent == old(sent) + [s]
      ensures r == respond(|old(sent)|, s)
    {
      r := respond(|sent|, s);
      sent := sent + [s];
    }
  }
}
