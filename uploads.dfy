/** databasin/uploads.py: uploading a file as a temporary file of the service. */
module Uploads {
  import opened Text
  import opened Urls
  import opened Transport
  import opened Utils

  /** TEMPORARY_FILE_DETAIL_PATH, with the uuid filled in. */
  function DetailPath(uuid: string): string {
    "/api/v1/uploads/temporary-files/" + uuid + "/"
  }

  /** The page the session loads to obtain a csrftoken cookie. */
  const CSRF_URL: string := "http://databasin.org"

  /** TemporaryFileResource as fetched from its detail URL. */
  datatype TemporaryFile = TemporaryFile(url: string, uuid: string, date: string, isImage: bool,
                                         filename: string, fileUrl: string)

  /** What `upload` is given as `f`: a path to open, or a file object. */
  datatype Source = PathSource(path: string) | FileSource(file: FileObject)

  /** The file part's name: an explicit non-empty filename; otherwise, for a path, the
      path's base name; otherwise the (missing or empty) filename as given. */
  function UploadName(f: Source, filename: Option<string>): Option<string> {
    if f.PathSource? && (filename == None || filename == Some("")) then Some(Basename(f.path))
    else filename
  }

  lemma UploadNameDefault(path: string, filename: Option<string>)
    requires filename == None || filename == Some("")
    ensures var name := UploadName(PathSource(path), filename).value;
      && Free(name, '/') && EndsWith(path, name)
      && (|name| < |path| ==> path[|path| - |name| - 1] == '/')
  {
  }

  /** The authorization check after the POST as uploads.py writes it: the argument
      `session.client.username is not None` is evaluated first, and a session without a
      `client` attribute (the plain Session() that `session=None` creates) raises
      AttributeError there, whatever the server answered. */
  function UploadAuthAsWritten(status: int, hasClient: bool, clientUsername: Option<string>): (r: Option<Error>)
    ensures !hasClient ==> r == Some(AttributeError("client"))
    ensures hasClient ==> r == RaiseForAuthorization(status, clientUsername.Some?)
  {
    if !hasClient then Some(AttributeError("client"))
    else RaiseForAuthorization(status, clientUsername.Some?)
  }

  /** A successful upload through a session without a client fails as written, where the
      guarded check jobs.py uses (Session.IsLoggedIn) lets it through. */
  lemma UploadWithoutClientFails()
    ensures UploadAuthAsWritten(201, false, None) == Some(AttributeError("client"))
    ensures RaiseForAuthorization(201, false) == None
  {
  }

  /** The guarded check, as jobs.py writes it, agrees with the code as written on every
      session that has a client, as every session a Client makes does. */
  lemma UploadAuthCorrected(status: int, hasClient: bool, clientUsername: Option<string>)
    requires hasClient
    ensures UploadAuthAsWritten(status, hasClient, clientUsername) ==
            RaiseForAuthorization(status, hasClient && clientUsername.Some?)
  {
  }

  /** The POST `upload` sends: the CSRF token as form data and the file as `file`. */
  function PostUpload(w: World, adapter: bool, headers: map<string, HeaderValue>, url: string,
                      name: Option<string>, content: Content): Request
    requires "csrftoken" in w.cookies
  {
    Request("POST", url, Prepared(adapter, headers, w.cookies, "POST", url),
            FormPayload(map["csrfmiddlewaretoken" := JStr(w.cookies["csrftoken"])], map["file" := FilePart(name, content)]))
  }

  /** TemporaryFileResource.get(detail, lazy=False): one GET of the detail URL. */
  function FetchTemporaryFile(w: World, adapter: bool, headers: map<string, HeaderValue>, url: string): (r: (World, Result<TemporaryFile>))
    ensures r.0.log == w.log + [GetRequest(adapter, headers, url)] && r.0.sleeps == w.sleeps
    ensures r.1.Ok? ==> r.1.value.url == url
    ensures r.1.Err? ==> !r.1.error.DatasetImportError?
  {
    var sent := Exchange(w, GetRequest(adapter, headers, url));
    match Fetched(url, sent.1)
    case Err(e) => (sent.0, Err(e))
    case Ok(body) =>
      if body.TemporaryFileBody? then
        (sent.0, Ok(TemporaryFile(url, body.uuid, body.date, body.isImage, body.filename, body.fileUrl)))
      else (sent.0, Err(Malformed(url)))
  }

  /** The state after the CSRF pre-fetch: none without a csrftoken cookie, a GET of the
      home page otherwise, which fails when the page does not answer. */
  function Prefetch(w: World, adapter: bool, headers: map<string, HeaderValue>): (r: (World, bool))
    ensures "csrftoken" in w.cookies ==> r == (w, true)
    ensures "csrftoken" !in w.cookies ==> r.0.log == w.log + [GetRequest(adapter, headers, CSRF_URL)]
    ensures r.0.sleeps == w.sleeps
  {
    if "csrftoken" in w.cookies then (w, true)
    else
      var sent := Exchange(w, GetRequest(adapter, headers, CSRF_URL));
      (sent.0, sent.1.Some?)
  }

  /** TemporaryFileResource.upload, from the CSRF pre-fetch to the detail fetch, for a
      session that has a `client` attribute exactly when `hasClient`, whose user name is
      `clientUsername`. */
  function UploadOutcome(w: World, adapter: bool, headers: map<string, HeaderValue>,
                         hasClient: bool, clientUsername: Option<string>,
                         url: string, name: Option<string>, content: Content): (r: (World, Result<TemporaryFile>))
    ensures r.0.sleeps == w.sleeps
    ensures r.1.Err? ==> !r.1.error.DatasetImportError?
  {
    var pre := Prefetch(w, adapter, headers);
    if !pre.1 then (pre.0, Err(ConnectionError(CSRF_URL)))
    else if "csrftoken" !in pre.0.cookies then (pre.0, Err(KeyError("csrftoken")))
    else Posted(pre.0, adapter, headers, hasClient, clientUsername, url, name, content)
  }

  /** upload once the session holds a csrftoken: the POST, the authorization and status
      checks, and the fetch of the detail URL named by the uuid the POST answered. */
  function Posted(w: World, adapter: bool, headers: map<string, HeaderValue>,
                  hasClient: bool, clientUsername: Option<string>,
                  url: string, name: Option<string>, content: Content): (r: (World, Result<TemporaryFile>))
    requires "csrftoken" in w.cookies
    ensures r.0.sleeps == w.sleeps
    ensures r.1.Err? ==> !r.1.error.DatasetImportError?
  {
    var sent := Exchange(w, PostUpload(w, adapter, headers, url, name, content));
    match sent.1
    case None => (sent.0, Err(ConnectionError(url)))
    case Some(resp) => Answered(sent.0, adapter, headers, hasClient, clientUsername, url, resp)
  }

  /** What follows the POST's response: the authorization check as written, which fails
      for a session without a client, then raise_for_status and the detail fetch. */
  function Answered(w: World, adapter: bool, headers: map<string, HeaderValue>,
                    hasClient: bool, clientUsername: Option<string>,
                    url: string, resp: Response): (r: (World, Result<TemporaryFile>))
    ensures |w.log| <= |r.0.log| <= |w.log| + 1 && r.0.log[..|w.log|] == w.log
    ensures r.0.sleeps == w.sleeps
    ensures r.1.Err? ==> !r.1.error.DatasetImportError?
    ensures r.1.Ok? ==> && resp.body.UploadBody?
                        && r.1.value.url == Origin(url) + DetailPath(resp.body.uuid)
                        && r.0.log == w.log + [GetRequest(adapter, headers, r.1.value.url)]
  {
    match UploadAuthAsWritten(resp.status, hasClient, clientUsername)
    case Some(e) => (w, Err(e))
    case None =>
      match RaiseForStatus(resp.status)
      case Some(e) => (w, Err(e))
      case None =>
        if !resp.body.UploadBody? then (w, Err(KeyError("uuid")))
        else FetchTemporaryFile(w, adapter, headers, Origin(url) + DetailPath(resp.body.uuid))
  }

  /** From a world holding the cookie, upload sends the POST first, carrying the
      cookie's token and the file under its name, and at most one request after it; a
      successful upload sends exactly the POST and the GET of the detail URL, built
      from the upload URL's scheme and host and the uuid the POST answered. */
  lemma UploadWithCookie(w: World, adapter: bool, headers: map<string, HeaderValue>,
                         hasClient: bool, clientUsername: Option<string>,
                         url: string, name: Option<string>, content: Content)
    requires "csrftoken" in w.cookies
    ensures var r := UploadOutcome(w, adapter, headers, hasClient, clientUsername, url, name, content);
      var post := PostUpload(w, adapter, headers, url, name, content);
      && post.payload.data["csrfmiddlewaretoken"] == JStr(w.cookies["csrftoken"])
      && post.payload.files["file"] == FilePart(name, content)
      && |w.log| < |r.0.log| <= |w.log| + 2 && r.0.log[..|w.log| + 1] == w.log + [post]
      && (r.1.Ok? ==> && r.0.log == w.log + [post, GetRequest(adapter, headers, r.1.value.url)]
                      && exists uuid :: r.1.value.url == Origin(url) + DetailPath(uuid))
  {
    var r := UploadOutcome(w, adapter, headers, hasClient, clientUsername, url, name, content);
    var post := PostUpload(w, adapter, headers, url, name, content);
    assert r == Posted(w, adapter, headers, hasClient, clientUsername, url, name, content);
    var sent := Exchange(w, post);
    assert sent.0.log == w.log + [post];
    if sent.1.Some? {
      var a := Answered(sent.0, adapter, headers, hasClient, clientUsername, url, sent.1.value);
      assert a.0.log[..|w.log| + 1] == w.log + [post];
      assert r.0.log[..|w.log| + 1] == a.0.log[..|w.log| + 1];
    }
  }

  /** Without the cookie, one GET of the home page comes first; a successful upload
      then sends the POST and the detail GET, as it would from the world that GET left. */
  lemma UploadWithoutCookie(w: World, adapter: bool, headers: map<string, HeaderValue>,
                            hasClient: bool, clientUsername: Option<string>,
                            url: string, name: Option<string>, content: Content)
    requires "csrftoken" !in w.cookies
    ensures var r := UploadOutcome(w, adapter, headers, hasClient, clientUsername, url, name, content);
      var pre := Prefetch(w, adapter, headers).0;
      && pre.log == w.log + [GetRequest(adapter, headers, CSRF_URL)]
      && (r.1.Ok? ==> "csrftoken" in pre.cookies && r == UploadOutcome(pre, adapter, headers, hasClient, clientUsername, url, name, content))
  {
  }

  /** Authorization is classified before raise_for_status: a 401 to a session whose client
      has no user is LoginRequired, with the POST the last request sent. */
  lemma UploadLoginRequired(w: World, adapter: bool, headers: map<string, HeaderValue>,
                            url: string, name: Option<string>, content: Content)
    requires "csrftoken" in w.cookies
    requires var q := Queue(w.server, Endpoint("POST", url)); q != [] && q[0].status == 401
    ensures var r := UploadOutcome(w, adapter, headers, true, None, url, name, content);
      r.1 == Err(LoginRequired(401)) && r.0.log == w.log + [PostUpload(w, adapter, headers, url, name, content)]
  {
    var post := PostUpload(w, adapter, headers, url, name, content);
    assert Exchange(w, post).1 == Some(Queue(w.server, Endpoint("POST", url))[0]);
  }

  /** As written, an upload through a session without a client fails once its POST is
      answered, whatever the status, with AttributeError and no request after the POST. */
  lemma UploadWithoutClient(w: World, adapter: bool, headers: map<string, HeaderValue>, clientUsername: Option<string>,
                            url: string, name: Option<string>, content: Content)
    requires "csrftoken" in w.cookies && Queue(w.server, Endpoint("POST", url)) != []
    ensures var r := UploadOutcome(w, adapter, headers, false, clientUsername, url, name, content);
      r.1 == Err(AttributeError("client")) && r.0.log == w.log + [PostUpload(w, adapter, headers, url, name, content)]
  {
    var post := PostUpload(w, adapter, headers, url, name, content);
    assert Exchange(w, post).1 == Some(Queue(w.server, Endpoint("POST", url))[0]);
  }

  /** For an absolute upload URL, the detail URL is on the same scheme and host. */
  lemma DetailUrlShape(scheme: string, host: string, tail: string, uuid: string)
    requires IsScheme(scheme) && IsHost(host) && IsTail(tail)
    ensures Origin(scheme + "://" + host + tail) + DetailPath(uuid) ==
      scheme + "://" + host + "/api/v1/uploads/temporary-files/" + uuid + "/"
  {
    OriginOfAbsolute(scheme, host, tail);
  }

  /** The file part's handle: the file object passed in, if any. */
  function Handles(f: Source): set<FileObject> {
    if f.FileSource? then {f.file} else {}
  }

  /** TemporaryFileResource.upload(url, f, filename, session). A path is opened from
      `disk`, which maps the paths that exist to their archive members; opening a path
      that does not exist fails before any request. The file is closed whether the upload
      succeeds or not, a file object passed in included. */
  method Upload(url: string, f: Source, filename: Option<string>, disk: map<string, seq<string>>, session: Session)
    returns (r: Result<TemporaryFile>, handle: Option<FileObject>)
    modifies session`world, Handles(f)`closed
    ensures f.PathSource? && f.path !in disk ==>
      r == Err(FileNotFound(f.path)) && handle == None && session.world == old(session.world)
    ensures f.FileSource? ==> (
      && handle == Some(f.file) && f.file.closed &&
      var o := UploadOutcome(old(session.world), session.refererAdapter, session.headers,
                             session.hasClient, session.clientUsername, url, UploadName(f, filename), old(f.file.Snapshot()));
      session.world == o.0 && r == o.1)
    ensures f.PathSource? && f.path in disk ==> (
      && handle.Some? && fresh(handle.value) && handle.value.closed &&
      var o := UploadOutcome(old(session.world), session.refererAdapter, session.headers,
                             session.hasClient, session.clientUsername, url, UploadName(f, filename), Content(Some(f.path), disk[f.path]));
      session.world == o.0 && r == o.1)
  {
    var name := UploadName(f, filename);
    var file: FileObject;
    if f.PathSource? {
      if f.path !in disk {
        return Err(FileNotFound(f.path)), None;
      }
      file := new FileObject.Open(f.path, disk[f.path]);
    } else {
      file := f.file;
    }
    handle := Some(file);
    r := Send(url, name, file.Snapshot(), session);
    file.Close();
  }

  /** The body of the try block, up to returning the fetched temporary file. */
  method Send(url: string, name: Option<string>, content: Content, session: Session) returns (r: Result<TemporaryFile>)
    modifies session`world
    ensures var o := UploadOutcome(old(session.world), session.refererAdapter, session.headers,
                                   session.hasClient, session.clientUsername, url, name, content);
      session.world == o.0 && r == o.1
  {
    var answered := EnsureToken(session);
    if !answered {
      return Err(ConnectionError(CSRF_URL));
    }
    if "csrftoken" !in session.world.cookies {
      return Err(KeyError("csrftoken"));
    }
    r := PostFile(url, name, content, session);
  }

  /** `if 'csrftoken' not in session.cookies: session.get('http://databasin.org')` */
  method EnsureToken(session: Session) returns (answered: bool)
    modifies session`world
    ensures var p := Prefetch(old(session.world), session.refererAdapter, session.headers);
      session.world == p.0 && answered == p.1
  {
    answered := true;
    if "csrftoken" !in session.world.cookies {
      GetIgnoresCookies(session.refererAdapter, session.headers, session.world.cookies, CSRF_URL);
      var home := session.Send("GET", CSRF_URL, NoPayload);
      answered := home.Some?;
    }
  }

  /** The POST and what follows it. */
  method PostFile(url: string, name: Option<string>, content: Content, session: Session) returns (r: Result<TemporaryFile>)
    requires "csrftoken" in session.world.cookies
    modifies session`world
    ensures var o := Posted(old(session.world), session.refererAdapter, session.headers,
                            session.hasClient, session.clientUsername, url, name, content);
      session.world == o.0 && r == o.1
  {
    var token := session.world.cookies["csrftoken"];
    var resp := session.Send("POST", url, FormPayload(map["csrfmiddlewaretoken" := JStr(token)], map["file" := FilePart(name, content)]));
    if resp.None? {
      return Err(ConnectionError(url));
    }
    var denied := UploadAuthAsWritten(resp.value.status, session.hasClient, session.clientUsername);
    if denied.Some? {
      return Err(denied.value);
    }
    var failed := RaiseForStatus(resp.value.status);
    if failed.Some? {
      return Err(failed.value);
    }
    if !resp.value.body.UploadBody? {
      return Err(KeyError("uuid"));
    }
    r := GetTemporaryFile(Origin(url) + DetailPath(resp.value.body.uuid), session);
  }

  /** TemporaryFileResource.get(detail, session=session, lazy=False) */
  method GetTemporaryFile(url: string, session: Session) returns (r: Result<TemporaryFile>)
    modifies session`world
    ensures var f := FetchTemporaryFile(old(session.world), session.refererAdapter, session.headers, url);
      session.world == f.0 && r == f.1
  {
    GetIgnoresCookies(session.refererAdapter, session.headers, session.world.cookies, url);
    var got := session.Send("GET", url, NoPayload);
    match Fetched(url, got)
    case Err(e) => r := Err(e);
    case Ok(body) =>
      if body.TemporaryFileBody? {
        r := Ok(TemporaryFile(url, body.uuid, body.date, body.isImage, body.filename, body.fileUrl));
      } else {
        r := Err(Malformed(url));
      }
  }
}
