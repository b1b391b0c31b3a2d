/** The world the client talks to: a `requests` session over a scripted server.

    The server is a map from (method, URL) to the responses that endpoint will give,
    in order; each request takes the next one, and a request to an endpoint with no
    response left fails as a connection error would. Every request, answered or not,
    is appended to a log, with the headers it carried. Cookies set by responses are
    kept, as the session's cookie jar keeps them, and calls to time.sleep are counted. */
module Transport {
  import opened Text

  /** A decoded JSON value. */
  datatype Json =
    | JNull
    | JBool(b: bool)
    | JInt(i: int)
    | JStr(s: string)
    | JArr(items: seq<Json>)
    | JObj(fields: map<string, Json>)

  /** Python's truth value of a decoded JSON value (`if style:`). */
  predicate Truthy(j: Json) {
    match j
    case JNull => false
    case JBool(b) => b
    case JInt(i) => i != 0
    case JStr(s) => s != []
    case JArr(items) => items != []
    case JObj(fields) => fields != map[]
  }

  /** The exceptions the core raises or lets through. */
  datatype Error =
    | ConnectionError(url: string)      // no response: requests raises ConnectionError
    | HttpError(status: int)            // raise_for_status, or a failed resource fetch
    | LoginRequired(status: int)        // LoginRequiredError
    | Forbidden(status: int)            // ForbiddenError
    | ValueError(message: string)
    | DatasetImportError(message: string)
    | KeyError(key: string)
    | AttributeError(name: string)
    | IndexError
    | TypeError
    | Malformed(url: string)            // a body that is not the resource asked for
    | FileNotFound(path: string)        // open() of a path that does not exist

  datatype Result<T> = Ok(value: T) | Err(error: Error)

  /** A header value: the client stores text (the user name) and bytes (time, signature). */
  datatype HeaderValue = Text(s: string) | Raw(bytes: seq<byte>)

  /** A Python file object or in-memory buffer. `entries` are the member names when it
      holds a zip archive; nothing else of its content is modelled. */
  class FileObject {
    const path: Option<string>
    var entries: seq<string>
    var closed: bool

    /** open(path, mode): a file whose archive members, if it is a zip, are `entries`. */
    constructor Open(path: string, entries: seq<string>)
      ensures this.path == Some(path) && this.entries == entries && !closed
    {
      this.path := Some(path);
      this.entries := entries;
      closed := false;
    }

    /** six.BytesIO() */
    constructor Buffer()
      ensures path == None && entries == [] && !closed
    {
      path := None;
      entries := [];
      closed := false;
    }

    function Snapshot(): Content
      reads this`entries
    {
      Content(path, entries)
    }

    /** zf.write(path, name) or zf.writestr(name, data): one more archive member. */
    method Append(name: string)
      modifies this`entries
      ensures entries == old(entries) + [name]
    {
      entries := entries + [name];
    }

    method Close()
      modifies this`closed
      ensures closed
    {
      closed := true;
    }
  }

  /** What a file holds, as far as the model sees it: where it was opened from, if it
      was, and its archive members. A request records the content it carried. */
  datatype Content = Content(path: Option<string>, entries: seq<string>)

  datatype FilePart = FilePart(filename: Option<string>, content: Content)

  datatype Payload =
    | NoPayload
    | JsonPayload(json: Json)                                          // json=...
    | FormPayload(data: map<string, Json>, files: map<string, FilePart>)  // data=..., files=...

  datatype Request = Request(verb: string, url: string, headers: map<string, HeaderValue>, payload: Payload)

  /** A response body as the resource classes deserialise it. */
  datatype Body =
    | NoContent
    | ListBody(objects: seq<Json>, next: Option<string>, totalCount: int)
    | JobBody(id: string, jobName: string, status: string, progress: int, message: Option<string>)
    | UploadBody(uuid: string)
    | TemporaryFileBody(uuid: string, date: string, isImage: bool, filename: string, fileUrl: string)
    | RecordBody(id: string)

  datatype Response = Response(status: int, headers: map<string, string>, setCookies: map<string, string>, body: Body)

  datatype Endpoint = Endpoint(verb: string, url: string)

  datatype World = World(server: map<Endpoint, seq<Response>>, log: seq<Request>, cookies: map<string, string>, sleeps: nat)

  function Queue(server: map<Endpoint, seq<Response>>, e: Endpoint): seq<Response> {
    if e in server then server[e] else []
  }

  /** One request against the world: logged, answered by the endpoint's next response if
      there is one, and that response's cookies kept. */
  function Exchange(w: World, req: Request): (r: (World, Option<Response>))
    ensures r.0.log == w.log + [req] && r.0.sleeps == w.sleeps
    ensures r.0.server.Keys == w.server.Keys
    ensures var q := Queue(w.server, Endpoint(req.verb, req.url));
      if q == [] then r.1 == None && r.0.server == w.server && r.0.cookies == w.cookies
      else (r.1 == Some(q[0]) && r.0.cookies == w.cookies + q[0].setCookies &&
            r.0.server == w.server[Endpoint(req.verb, req.url) := q[1..]])
  {
    var e := Endpoint(req.verb, req.url);
    var q := Queue(w.server, e);
    if q == [] then (w.(log := w.log + [req]), None)
    else (World(w.server[e := q[1..]], w.log + [req], w.cookies + q[0].setCookies, w.sleeps), Some(q[0]))
  }

  /** RefererHTTPAdapter.add_headers (client.py), which Client mounts on its session.
      The Referer is always the request URL. X-CSRFToken, the csrftoken cookie, is added
      exactly for methods other than GET and HEAD (in any letter case) when that cookie
      exists. Nothing else changes. */
  function AddHeaders(verb: string, url: string, cookies: map<string, string>,
                      headers: map<string, HeaderValue>): (r: map<string, HeaderValue>)
    ensures "Referer" in r && r["Referer"] == Text(url)
    ensures var unsafe := Lower(verb) != "get" && Lower(verb) != "head";
      && (unsafe && "csrftoken" in cookies ==>
            "X-CSRFToken" in r && r["X-CSRFToken"] == Text(cookies["csrftoken"]))
      && (!(unsafe && "csrftoken" in cookies) ==>
            r == headers["Referer" := Text(url)])
      && r.Keys == headers.Keys + {"Referer"} + (if unsafe && "csrftoken" in cookies then {"X-CSRFToken"} else {})
    ensures forall k :: k in headers && k != "Referer" && k != "X-CSRFToken" ==> k in r && r[k] == headers[k]
  {
    var h := headers["Referer" := Text(url)];
    var m := Lower(verb);
    if m != "get" && m != "head" && "csrftoken" in cookies then
      h["X-CSRFToken" := Text(cookies["csrftoken"])]
    else h
  }

  /** The headers a request leaves the session with: the session's own, passed through
      the adapter when it is mounted. */
  function Prepared(adapter: bool, headers: map<string, HeaderValue>, cookies: map<string, string>,
                    verb: string, url: string): map<string, HeaderValue>
  {
    if adapter then AddHeaders(verb, url, cookies, headers) else headers
  }

  /** The GET request a session sends for `url`. */
  function GetRequest(adapter: bool, headers: map<string, HeaderValue>, url: string): Request {
    Request("GET", url, if adapter then headers["Referer" := Text(url)] else headers, NoPayload)
  }

  /** Cookies play no part in a GET: the adapter adds no CSRF token to it. */
  lemma GetIgnoresCookies(adapter: bool, headers: map<string, HeaderValue>, cookies: map<string, string>, url: string)
    ensures GetRequest(adapter, headers, url) == Request("GET", url, Prepared(adapter, headers, cookies, "GET", url), NoPayload)
  {
    if adapter {
      var r := AddHeaders("GET", url, cookies, headers);
      assert Lower("GET") == "get";
      assert r == headers["Referer" := Text(url)];
    }
  }

  /** response.raise_for_status(): a 4xx or 5xx status is an error. */
  function RaiseForStatus(status: int): Option<Error> {
    if 400 <= status < 600 then Some(HttpError(status)) else None
  }

  /** What a resource fetch of `url` gives: the body of a response that is neither
      missing nor a 4xx/5xx. */
  function Fetched(url: string, resp: Option<Response>): (r: Result<Body>)
    ensures r.Ok? <==> resp.Some? && !(400 <= resp.value.status < 600)
    ensures r.Ok? ==> r.value == resp.value.body
  {
    match resp
    case None => Err(ConnectionError(url))
    case Some(response) =>
      if 400 <= response.status < 600 then Err(HttpError(response.status)) else Ok(response.body)
  }

  /** requests.utils.default_headers(): what a new requests.Session sends until its
      headers are replaced. */
  function DefaultHeaders(requestsVersion: string): map<string, HeaderValue> {
    map["User-Agent" := Text("python-requests/" + requestsVersion),
        "Accept-Encoding" := Text("gzip, deflate"),
        "Accept" := Text("*/*"),
        "Connection" := Text("keep-alive")]
  }

  /** requests.Session, with the attributes the client gives it: `refererAdapter` says
      whether RefererHTTPAdapter is mounted, `hasClient` whether `session.client` exists
      and `clientUsername` that client's user name. */
  class Session {
    var world: World
    var headers: map<string, HeaderValue>
    var refererAdapter: bool
    var hasClient: bool
    var clientUsername: Option<string>

    /** Session(): requests' default headers, no adapter, no client, no cookies. */
    constructor (server: map<Endpoint, seq<Response>>, requestsVersion: string)
      ensures world == World(server, [], map[], 0)
      ensures headers == DefaultHeaders(requestsVersion)
      ensures !refererAdapter && !hasClient && clientUsername == None
    {
      world := World(server, [], map[], 0);
      headers := DefaultHeaders(requestsVersion);
      refererAdapter := false;
      hasClient := false;
      clientUsername := None;
    }

    /** The headers a request carries when it leaves the session. */
    function Outgoing(verb: string, url: string): map<string, HeaderValue>
      reads this
    {
      Prepared(refererAdapter, headers, world.cookies, verb, url)
    }

    /** jobs.py's notion of a logged-in session: it has a client whose user name is set. */
    predicate IsLoggedIn()
      reads this`hasClient, this`clientUsername
    {
      hasClient && clientUsername.Some?
    }

    method Send(verb: string, url: string, payload: Payload) returns (resp: Option<Response>)
      modifies this`world
      ensures (world, resp) == Exchange(old(world), Request(verb, url, old(Outgoing(verb, url)), payload))
    {
      var out := Outgoing(verb, url);
      var next := Exchange(world, Request(verb, url, out, payload));
      world := next.0;
      resp := next.1;
    }

    /** time.sleep(1) */
    method Sleep()
      modifies this`world
      ensures world == old(world).(sleeps := old(world).sleeps + 1)
    {
      world := world.(sleeps := world.sleeps + 1);
    }
  }
}
