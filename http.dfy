/** The transport shim: the module-level `get` and `post` wrappers and the
    remote API they talk to. The remote API is an oracle, a fixed function
    from the request sent to the response received; the network object also
    keeps a ghost log of every request sent, so that the number of fetches an
    operation performs can be stated. */
module Http {
  import opened Values
  import opened Decimal

  datatype Verb = GET | POST

  /** A file object handed to the multipart encoder, named by its path. */
  datatype FileRef = FileRef(path: string)

  /** What goes on the wire: the query parameters as `requests` sends them
      (parameters whose value is None are dropped), and for a POST the form
      fields and the attached files. */
  datatype Request = Request(
    verb: Verb,
    url: string,
    params: map<string, string>,
    form: map<string, Json>,
    files: map<string, FileRef>)

  /** A response: its status code and its decoded JSON body (`r.json()`). */
  datatype Response = Response(status: nat, body: Json)

  /** A GET with the given query parameters and no body. */
  function GetRequest(url: string, params: map<string, string>): Request {
    Request(GET, url, params, map[], map[])
  }

  /** The remote API as the `requests` library reaches it. */
  class Network {
    const server: Request -> Response
    ghost var log: seq<Request>

    constructor (server: Request -> Response)
      ensures this.server == server && log == []
    {
      this.server := server;
      log := [];
    }

    /** One HTTP round trip, no retry. */
    method Send(req: Request) returns (resp: Response)
      modifies this
      ensures log == old(log) + [req]
      ensures resp == server(req)
    {
      resp := server(req);
      log := log + [req];
    }
  }

  function VerbName(v: Verb): string {
    match v
    case GET => "GET"
    case POST => "POST"
  }

  /** `API_ERROR_MESSAGE.format(verb, status)`. */
  function ApiErrorMessage(v: Verb, status: nat): string {
    "Mixcloud " + VerbName(v) + " API returned HTTP code " + NatToString(status)
  }

  /** The status test shared by `get` and `post`. */
  function CheckStatus(v: Verb, resp: Response): (r: Result<Response>)
    ensures r.Ok? <==> resp.status == 200
    ensures r.Ok? ==> r.value == resp
    ensures r.Err? ==> r.error == APIError(ApiErrorMessage(v, resp.status))
  {
    if resp.status == 200 then Ok(resp) else Err(APIError(ApiErrorMessage(v, resp.status)))
  }

  /** The error message names the verb and the status code: two failures
      with different verbs or different codes never share a message. */
  lemma ApiErrorMessageInjective(v1: Verb, s1: nat, v2: Verb, s2: nat)
    requires ApiErrorMessage(v1, s1) == ApiErrorMessage(v2, s2)
    ensures v1 == v2 && s1 == s2
  {
    var m1, m2 := ApiErrorMessage(v1, s1), ApiErrorMessage(v2, s2);
    assert m1[9] == VerbName(v1)[0] && m2[9] == VerbName(v2)[0];
    var head := "Mixcloud " + VerbName(v1) + " API returned HTTP code ";
    assert m1 == head + NatToString(s1);
    assert m2 == head + NatToString(s2);
    assert NatToString(s1) == m1[|head|..] == m2[|head|..] == NatToString(s2);
    NatToStringInjective(s1, s2);
  }

  /** The body of the response to `req`, or the APIError `get`/`post` raise. */
  function Fetch(server: Request -> Response, req: Request): (r: Result<Json>)
    ensures r.Ok? <==> server(req).status == 200
    ensures r.Ok? ==> r.value == server(req).body
  {
    var resp :- CheckStatus(req.verb, server(req));
    Ok(resp.body)
  }

  /** `get(url, params=params)`: exactly one GET; the response unchanged on
      status 200, otherwise an APIError naming GET and the status. */
  method Get(net: Network, url: string, params: map<string, string>) returns (r: Result<Response>)
    modifies net
    ensures net.log == old(net.log) + [GetRequest(url, params)]
    ensures r == CheckStatus(GET, net.server(GetRequest(url, params)))
  {
    var resp := net.Send(GetRequest(url, params));
    if resp.status == 200 {
      return Ok(resp);
    }
    return Err(APIError(ApiErrorMessage(GET, resp.status)));
  }

  /** `post(url, data=form, params=params, files=files)`: exactly one POST,
      with the same status test as `get`. */
  method Post(net: Network, url: string, form: map<string, Json>, params: map<string, string>,
              files: map<string, FileRef>) returns (r: Result<Response>)
    modifies net
    ensures net.log == old(net.log) + [Request(POST, url, params, form, files)]
    ensures r == CheckStatus(POST, net.server(Request(POST, url, params, form, files)))
  {
    var resp := net.Send(Request(POST, url, params, form, files));
    if resp.status == 200 {
      return Ok(resp);
    }
    return Err(APIError(ApiErrorMessage(POST, resp.status)));
  }
}
