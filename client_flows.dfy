/** What each operation of the Client in databasin/client.py does, as a function of the
    client's configuration and the state it acts on: the world behind the session, the
    session's headers and the number of API signatures made so far. The methods of
    Clients.Client are proved to do exactly this; the lemmas here say what it means. */
module ClientFlows {
  import opened Text
  import opened Urls
  import opened Transport
  import opened Utils
  import opened Jobs
  import opened Uploads
  import opened ClientRules

  /** What a client holds that its operations read: the base URL, the user, the stored
      API key and the environment (clock, randomness, digests, JSON parsing). */
  datatype Config = Config(baseUrl: string, username: Option<string>, apiKey: Option<seq<byte>>, env: Env)
  {
    /** set_api_key never stores a key without a user. */
    predicate Consistent() {
      apiKey.Some? ==> username.Some?
    }

    /** `self.username is not None`; it is also what `session.client.username is not
        None` reads, since the session's client is this client. */
    predicate LoggedIn() {
      username.Some?
    }
  }

  /** What the operations change. */
  datatype Conn = Conn(world: World, headers: map<string, HeaderValue>, signings: nat)

  /** How many CSRF pre-fetches an upload from this world sends. */
  function Prefetches(w: World): nat {
    if "csrftoken" in w.cookies then 0 else 1
  }

  /** The (method, URL) pairs of the requests sent between two worlds. */
  function Sent(before: World, after: World): seq<Endpoint>
    requires |before.log| <= |after.log|
  {
    seq(|after.log| - |before.log|, i requires 0 <= i < |after.log| - |before.log| =>
      Endpoint(after.log[|before.log| + i].verb, after.log[|before.log| + i].url))
  }

  // ---------------------------------------------------------------------------------
  // update_headers

  /** The session headers after update_headers: without a key the three API headers are
      deleted, with one they are set from the k-th signature. */
  function UpdatedHeaders(headers: map<string, HeaderValue>, username: Option<string>, key: Option<seq<byte>>,
                          env: Env, k: nat): map<string, HeaderValue>
    requires key.Some? ==> username.Some?
  {
    if key.None? then Unsigned(headers) else Signed(headers, username.value, env, k, key.value)
  }

  /** update_headers keeps the three API headers all present or all absent, present
      exactly when a key is stored, and changes no other header. */
  lemma UpdatedHeadersAllOrNone(headers: map<string, HeaderValue>, username: Option<string>, key: Option<seq<byte>>,
                                env: Env, k: nat)
    requires AllOrNone(headers) && (key.Some? ==> username.Some?)
    ensures var r := UpdatedHeaders(headers, username, key, env, k);
      && AllOrNone(r) && (API_USER in r <==> key.Some?)
      && (key.Some? ==> r[API_USER] == Text(username.value))
      && r.Keys - {API_USER, API_TIME, API_SIGNATURE} == headers.Keys - {API_USER, API_TIME, API_SIGNATURE}
      && forall h :: h in headers && h !in {API_USER, API_TIME, API_SIGNATURE} ==> r[h] == headers[h]
  {
    if key.None? {
      UnsignedRemovesAll(headers);
    }
  }

  /** update_headers as a step of an operation: the headers updated, one more signature
      counted when a key is used. */
  function Sign(cfg: Config, c: Conn): (r: Conn)
    requires cfg.Consistent()
  {
    Conn(c.world, UpdatedHeaders(c.headers, cfg.username, cfg.apiKey, cfg.env, c.signings),
         if cfg.apiKey.Some? then c.signings + 1 else c.signings)
  }

  // ---------------------------------------------------------------------------------
  // get_dataset and get_import

  /** A resource fetch with lazy=False under the client's handler: a 4xx or 5xx answer
      raises HTTPException, which is classified by raise_for_authorization with
      `self.username is not None` before it is re-raised. */
  function RecordFrom(url: string, resp: Option<Response>, loggedIn: bool): (r: Result<Body>)
    ensures r.Ok? <==> resp.Some? && !(400 <= resp.value.status < 600) && resp.value.body.RecordBody?
    ensures r.Ok? ==> r.value == resp.value.body
    ensures resp.Some? && resp.value.status == 401 ==> r == Err(if loggedIn then Forbidden(403) else LoginRequired(401))
    ensures resp.Some? && resp.value.status == 403 ==> r == Err(Forbidden(403))
    ensures r.Err? ==> !r.error.DatasetImportError?
  {
    match resp
    case None => Err(ConnectionError(url))
    case Some(response) =>
      if 400 <= response.status < 600 then
        match RaiseForAuthorization(response.status, loggedIn)
        case Some(e) => Err(e)
        case None => Err(HttpError(response.status))
      else if response.body.RecordBody? then Ok(response.body)
      else Err(Malformed(url))
  }

  /** get_dataset / get_import of a resource URL: update_headers, then one GET. */
  function GetRecord(cfg: Config, c: Conn, url: string): (r: (Conn, Result<Body>))
    requires cfg.Consistent()
    ensures var s := Sign(cfg, c);
      && r.0.world.log == c.world.log + [GetRequest(true, s.headers, url)]
      && r.0.world.sleeps == c.world.sleeps
      && r.0.headers == s.headers && r.0.signings == s.signings
  {
    var s := Sign(cfg, c);
    var sent := Exchange(s.world, GetRequest(true, s.headers, url));
    (s.(world := sent.0), RecordFrom(url, sent.1, cfg.LoggedIn()))
  }

  /** dataset_import.cancel(): one DELETE of the import's URL through the session; a
      missing or 4xx/5xx answer raises. */
  function Cancel(c: Conn, url: string): (r: (Conn, Option<Error>))
    ensures |r.0.world.log| == |c.world.log| + 1 && r.0.world.log[..|c.world.log|] == c.world.log
    ensures r.0.world.log[|c.world.log|].verb == "DELETE" && r.0.world.log[|c.world.log|].url == url
    ensures r.0.world.sleeps == c.world.sleeps && r.0.headers == c.headers && r.0.signings == c.signings
    ensures r.1.Some? ==> !r.1.value.DatasetImportError?
  {
    var delete := Request("DELETE", url, Prepared(true, c.headers, c.world.cookies, "DELETE", url), NoPayload);
    var sent := Exchange(c.world, delete);
    assert sent.0.log == c.world.log + [delete];
    (c.(world := sent.0), Raised(url, sent.1))
  }

  // ---------------------------------------------------------------------------------
  // create_job

  /** A job as the client holds it after create_job. */
  datatype JobView = JobView(location: string, status: string, progress: int, message: Option<string>)

  /** create_job(name, job_args, block): update_headers, JobResource.create on the jobs
      URL, and, when `block`, join. */
  function CreateJob(cfg: Config, c: Conn, name: string, args: Json, block: bool): (r: (Conn, Result<JobView>))
    requires cfg.Consistent()
    ensures r.0.headers == Sign(cfg, c).headers && r.0.signings == Sign(cfg, c).signings
    ensures block && r.1.Ok? ==> !Active(r.1.value.status)
    ensures !block ==> r.0.world.sleeps == c.world.sleeps
  {
    var created := SubmitJob(cfg, c, name, args);
    if block && created.1.Ok? then AwaitJob(created.0, created.1.value) else created
  }

  /** create_job up to and including JobResource.create. */
  function SubmitJob(cfg: Config, c: Conn, name: string, args: Json): (r: (Conn, Result<JobView>))
    requires cfg.Consistent()
    ensures r.0.headers == Sign(cfg, c).headers && r.0.signings == Sign(cfg, c).signings
    ensures r.0.world.sleeps == c.world.sleeps
  {
    var s := Sign(cfg, c);
    var o := CreateOutcome(s.world, true, s.headers, cfg.LoggedIn(), BuildUrl(cfg.baseUrl, JOB_CREATE_PATH), name, args);
    (s.(world := o.0),
     match o.1
     case Err(e) => Err(e)
     case Ok(created) => Ok(JobView(created.location, created.job.status, created.job.progress, created.job.message)))
  }

  /** job.join() on a job the client holds. */
  function AwaitJob(c: Conn, job: JobView): (r: (Conn, Result<JobView>))
    ensures r.0.headers == c.headers && r.0.signings == c.signings
    ensures r.1.Ok? ==> !Active(r.1.value.status) && r.1.value.location == job.location
  {
    var j := JoinOutcome(job.status, job.progress, job.message, c.world, true, c.headers, job.location);
    (c.(world := j.world), if j.error.Some? then Err(j.error.value) else Ok(JobView(job.location, j.status, j.progress, j.message)))
  }

  /** A blocking create_job that succeeds sends the POST, the GET of the job, and one
      more GET of the job per second slept; one that fails never fails with an import
      error of its own. */
  lemma CreateJobRequests(cfg: Config, c: Conn, name: string, args: Json)
    requires cfg.Consistent()
    ensures var r := CreateJob(cfg, c, name, args, true);
      && r.0.world.sleeps >= c.world.sleeps
      && (r.1.Ok? ==> |r.0.world.log| == |c.world.log| + 2 + (r.0.world.sleeps - c.world.sleeps))
      && (r.1.Err? ==> !r.1.error.DatasetImportError?)
  {
    var s := Sign(cfg, c);
    var url := BuildUrl(cfg.baseUrl, JOB_CREATE_PATH);
    CreateRequests(s.world, true, s.headers, cfg.LoggedIn(), url, name, args);
    var o := CreateOutcome(s.world, true, s.headers, cfg.LoggedIn(), url, name, args);
    var created := SubmitJob(cfg, c, name, args);
    assert created.0.world == o.0;
    if o.1.Ok? {
      var job := created.1.value;
      JoinErrors(job.status, job.progress, job.message, o.0, true, s.headers, job.location);
      var j := JoinOutcome(job.status, job.progress, job.message, o.0, true, s.headers, job.location);
      assert |o.0.log| == |c.world.log| + 2 && o.0.sleeps == c.world.sleeps;
      assert AwaitJob(created.0, job).0.world == j.world;
    }
  }

  // ---------------------------------------------------------------------------------
  // upload_temporary_file

  /** upload_temporary_file(f, filename): update_headers, then TemporaryFileResource.upload
      to the upload URL. */
  function UploadTemporaryFile(cfg: Config, c: Conn, name: Option<string>, content: Content): (r: (Conn, Result<TemporaryFile>))
    requires cfg.Consistent()
    ensures r.0.headers == Sign(cfg, c).headers && r.0.signings == Sign(cfg, c).signings
    ensures r.0.world.sleeps == c.world.sleeps
    ensures r.1.Err? ==> !r.1.error.DatasetImportError?
  {
    var s := Sign(cfg, c);
    var o := UploadOutcome(s.world, true, s.headers, true, cfg.username, BuildUrl(cfg.baseUrl, TEMPORARY_FILE_UPLOAD_PATH), name, content);
    (s.(world := o.0), o.1)
  }

  /** A successful upload sends the POST and the detail GET, after one CSRF pre-fetch
      when the session has no csrftoken cookie yet. */
  lemma UploadRequests(cfg: Config, c: Conn, name: Option<string>, content: Content)
    requires cfg.Consistent()
    ensures var r := UploadTemporaryFile(cfg, c, name, content);
      r.1.Ok? ==> |r.0.world.log| == |c.world.log| + 2 + Prefetches(c.world)
  {
    var s := Sign(cfg, c);
    var url := BuildUrl(cfg.baseUrl, TEMPORARY_FILE_UPLOAD_PATH);
    if "csrftoken" in s.world.cookies {
      UploadWithCookie(s.world, true, s.headers, true, cfg.username, url, name, content);
    } else {
      UploadWithoutCookie(s.world, true, s.headers, true, cfg.username, url, name, content);
      var pre := Prefetch(s.world, true, s.headers).0;
      if UploadOutcome(s.world, true, s.headers, true, cfg.username, url, name, content).1.Ok? {
        UploadWithCookie(pre, true, s.headers, true, cfg.username, url, name, content);
      }
    }
  }

  // ---------------------------------------------------------------------------------
  // The end of both imports

  const LPK_INCOMPLETE: string :=
    "Layer Package " + "imports must have all necessary metadata information necessary for one-step import."
  const NETCDF_INCOMPLETE: string :=
    "NetCDF " + "imports must have all necessary style and metadata information necessary for one-step import."

  /** 'Import failed: {0}'.format(job.message) */
  function FailureMessage(message: Option<string>): (r: string)
    ensures |r| > 0 && r[0] == 'I'
  {
    "Import failed: " + (if message.Some? then message.value else "None")
  }

  /** json.loads(job.message)['next_uri']: a missing message is a TypeError, one that is
      not JSON a ValueError. */
  function NextUriOf(env: Env, message: Option<string>): (r: Result<string>)
    ensures r.Err? ==> !r.error.DatasetImportError?
  {
    match message
    case None => Err(TypeError)
    case Some(m) =>
      match env.parseJson(m)
      case None => Err(ValueError("message is not JSON"))
      case Some(data) => NextUri(data)
  }

  function ImportUrl(cfg: Config, id: string): string {
    BuildUrl(cfg.baseUrl, DatasetImportDetailPath(id))
  }

  function DatasetUrl(cfg: Config, id: string): string {
    BuildUrl(cfg.baseUrl, DatasetDetailPath(id))
  }

  /** After the last job of an import: a job that did not succeed fails the import with
      no further request; a next_uri that names an import is fetched, cancelled and the
      import fails; any other next_uri names the dataset, which is fetched. */
  function Conclude(cfg: Config, c: Conn, job: JobView, incomplete: string): (r: (Conn, Result<Body>))
    requires cfg.Consistent()
  {
    if job.status != "succeeded" then (c, Err(DatasetImportError(FailureMessage(job.message))))
    else
      match NextUriOf(cfg.env, job.message)
      case Err(e) => (c, Err(e))
      case Ok(next) =>
        match ImportId(next)
        case Some(id) => Abandon(cfg, c, id, incomplete)
        case None => GetRecord(cfg, c, DatasetUrl(cfg, LastSegment(next)))
  }

  /** get_import(id), cancel it, and raise the import's error; a failing fetch or cancel
      raises its own error instead. */
  function Abandon(cfg: Config, c: Conn, id: string, incomplete: string): (r: (Conn, Result<Body>))
    requires cfg.Consistent()
    ensures r.1.Err? && r.0.world.sleeps == c.world.sleeps
    ensures |c.world.log| < |r.0.world.log| <= |c.world.log| + 2
    ensures r.1.error.DatasetImportError? ==> r.1.error.message == incomplete
    ensures r.1 == Err(DatasetImportError(incomplete)) ==>
      Sent(c.world, r.0.world) == [Endpoint("GET", ImportUrl(cfg, id)), Endpoint("DELETE", ImportUrl(cfg, id))]
  {
    var url := ImportUrl(cfg, id);
    var got := GetRecord(cfg, c, url);
    match got.1
    case Err(e) => (got.0, Err(e))
    case Ok(_) =>
      var k := Cancel(got.0, url);
      assert k.0.world.log == c.world.log + [k.0.world.log[|c.world.log|], k.0.world.log[|c.world.log| + 1]];
      (k.0, Err(if k.1.Some? then k.1.value else DatasetImportError(incomplete)))
  }

  /** What Conclude does, case by case: the failed job, the complete import (one GET of
      the dataset named by the last segment of next_uri) and the incomplete one. */
  lemma ConcludeCases(cfg: Config, c: Conn, job: JobView, incomplete: string)
    requires cfg.Consistent() && |incomplete| > 0 && incomplete[0] != 'I'
    ensures var r := Conclude(cfg, c, job, incomplete);
      && r.0.world.sleeps == c.world.sleeps
      && (job.status != "succeeded" ==> r == (c, Err(DatasetImportError(FailureMessage(job.message)))))
      && (r.1.Ok? ==> && job.status == "succeeded" && NextUriOf(cfg.env, job.message).Ok?
                      && var next := NextUriOf(cfg.env, job.message).value;
                         && !Contains(next, "/import/")
                         && Sent(c.world, r.0.world) == [Endpoint("GET", DatasetUrl(cfg, LastSegment(next)))])
      && (r.1 == Err(DatasetImportError(incomplete)) ==>
            && job.status == "succeeded" && NextUriOf(cfg.env, job.message).Ok?
            && var next := NextUriOf(cfg.env, job.message).value;
               && Contains(next, "/import/")
               && Sent(c.world, r.0.world) == [Endpoint("GET", ImportUrl(cfg, ImportId(next).value)),
                                               Endpoint("DELETE", ImportUrl(cfg, ImportId(next).value))])
      && (r.1.Err? && r.1.error.DatasetImportError? ==>
            r.1.error.message == incomplete || r == (c, Err(DatasetImportError(FailureMessage(job.message)))))
  {
    if job.status == "succeeded" && NextUriOf(cfg.env, job.message).Ok? {
      var next := NextUriOf(cfg.env, job.message).value;
      if ImportId(next).None? {
        var url := DatasetUrl(cfg, LastSegment(next));
        assert Conclude(cfg, c, job, incomplete) == GetRecord(cfg, c, url);
        GetRecordSent(cfg, c, url);
      } else {
        assert Conclude(cfg, c, job, incomplete) == Abandon(cfg, c, ImportId(next).value, incomplete);
      }
    }
  }

  lemma GetRecordSent(cfg: Config, c: Conn, url: string)
    requires cfg.Consistent()
    ensures Sent(c.world, GetRecord(cfg, c, url).0.world) == [Endpoint("GET", url)]
  {
  }

  // ---------------------------------------------------------------------------------
  // import_lpk

  const LPK_EXTENSION_ERROR: string := "File must be an ArcGIS Layer Package with a .lpk extension"

  /** The job_args of create_import_job. */
  function ImportArgs(uuid: string, datasetType: string): Json {
    JObj(map["file" := JStr(uuid), "url" := JNull, "dataset_type" := JStr(datasetType)])
  }

  /** The job_args of finalize_import_job. */
  function FinalizeArgs(id: string): Json {
    JObj(map["import_id" := JStr(id)])
  }

  /** The form data of the metadata upload. */
  const METADATA_DATA: map<string, Json> := map["layerOrderArray" := JInt(0), "source" := JStr("")]

  /** The form of the metadata upload: the XML file under its base name as `data`. */
  function MetadataPayload(xml: string, content: Content): Payload {
    FormPayload(METADATA_DATA, map["data" := FilePart(Some(Basename(xml)), content)])
  }

  /** post(url, ...): update_headers, then one POST through the session. */
  function Post(cfg: Config, c: Conn, url: string, payload: Payload): (r: (Conn, Option<Response>))
    requires cfg.Consistent()
    ensures var s := Sign(cfg, c);
      && r.0.world.log == c.world.log + [Request("POST", url, Prepared(true, s.headers, c.world.cookies, "POST", url), payload)]
      && r.0.world.sleeps == c.world.sleeps && r.0.headers == s.headers && r.0.signings == s.signings
  {
    var s := Sign(cfg, c);
    var sent := Exchange(s.world, Request("POST", url, Prepared(true, s.headers, s.world.cookies, "POST", url), payload));
    (s.(world := sent.0), sent.1)
  }

  /** r.raise_for_status() on the answer to a request to `url`. */
  function Raised(url: string, resp: Option<Response>): (r: Option<Error>)
    ensures r.None? <==> resp.Some? && !(400 <= resp.value.status < 600)
    ensures r.Some? ==> !r.value.DatasetImportError?
  {
    match resp
    case None => Some(ConnectionError(url))
    case Some(response) => RaiseForStatus(response.status)
  }

  /** import_lpk's metadata step: open the XML file, post it and raise_for_status. */
  function PostMetadata(cfg: Config, c: Conn, id: string, xml: string, disk: map<string, seq<string>>): (r: (Conn, Option<Error>))
    requires cfg.Consistent()
    ensures xml !in disk ==> r == (c, Some(FileNotFound(xml)))
    ensures xml in disk ==> |r.0.world.log| == |c.world.log| + 1
    ensures r.0.world.sleeps == c.world.sleeps
    ensures r.1.Some? ==> !r.1.value.DatasetImportError?
  {
    if xml !in disk then (c, Some(FileNotFound(xml)))
    else
      var url := BuildUrl(cfg.baseUrl, MetadataFileUploadPath(id));
      var posted := Post(cfg, c, url, MetadataPayload(xml, Content(Some(xml), disk[xml])));
      (posted.0, Raised(url, posted.1))
  }

  /** Client.import_lpk(lpk_file, xml): check the extension, open the package, upload it
      under its base name, run create_import_job, take the import id from the job's
      message, post the metadata if there is any, run finalize_import_job, conclude. */
  function ImportLpk(cfg: Config, c: Conn, path: string, xml: Option<string>, disk: map<string, seq<string>>): (r: (Conn, Result<Body>))
    requires cfg.Consistent()
  {
    if !EndsWith(path, ".lpk") then (c, Err(ValueError(LPK_EXTENSION_ERROR)))
    else if path !in disk then (c, Err(FileNotFound(path)))
    else LpkUpload(cfg, c, Basename(path), Content(Some(path), disk[path]), xml, disk)
  }

  /** import_lpk from the upload of the opened package on. */
  function LpkUpload(cfg: Config, c: Conn, name: string, content: Content, xml: Option<string>,
                     disk: map<string, seq<string>>): (r: (Conn, Result<Body>))
    requires cfg.Consistent()
  {
    var up := UploadTemporaryFile(cfg, c, Some(name), content);
    match up.1
    case Err(e) => (up.0, Err(e))
    case Ok(tmp) => LpkJobs(cfg, up.0, tmp.uuid, xml, disk)
  }

  /** import_lpk from the first job on. */
  function LpkJobs(cfg: Config, c: Conn, uuid: string, xml: Option<string>, disk: map<string, seq<string>>): (r: (Conn, Result<Body>))
    requires cfg.Consistent()
  {
    var job := CreateJob(cfg, c, "create_import_job", ImportArgs(uuid, "ArcGIS_Native"), true);
    match job.1
    case Err(e) => (job.0, Err(e))
    case Ok(created) =>
      match SecondLast(created.message)
      case Err(e) => (job.0, Err(e))
      case Ok(id) => LpkFinish(cfg, job.0, id, xml, disk)
  }

  /** import_lpk from the metadata upload on. */
  function LpkFinish(cfg: Config, c: Conn, id: string, xml: Option<string>, disk: map<string, seq<string>>): (r: (Conn, Result<Body>))
    requires cfg.Consistent()
  {
    var meta := if xml.None? then (c, None) else PostMetadata(cfg, c, id, xml.value, disk);
    if meta.1.Some? then (meta.0, Err(meta.1.value))
    else
      var fin := CreateJob(cfg, meta.0, "finalize_import_job", FinalizeArgs(id), true);
      match fin.1
      case Err(e) => (fin.0, Err(e))
      case Ok(final) => Conclude(cfg, fin.0, final, LPK_INCOMPLETE)
  }

  /** A path without the .lpk extension, or one that does not exist, fails before any
      request and changes nothing. */
  lemma LpkRejectsEarly(cfg: Config, c: Conn, path: string, xml: Option<string>, disk: map<string, seq<string>>)
    requires cfg.Consistent()
    ensures !EndsWith(path, ".lpk") ==> ImportLpk(cfg, c, path, xml, disk) == (c, Err(ValueError(LPK_EXTENSION_ERROR)))
    ensures EndsWith(path, ".lpk") && path !in disk ==> ImportLpk(cfg, c, path, xml, disk) == (c, Err(FileNotFound(path)))
  {
  }

  /** A successful LPK import sends seven requests (upload POST and GET, two jobs each
      POSTed and fetched, the dataset GET), one more with XML metadata, one more for a
      missing CSRF cookie, and one more job fetch per second slept. */
  lemma LpkRequests(cfg: Config, c: Conn, path: string, xml: Option<string>, disk: map<string, seq<string>>)
    requires cfg.Consistent()
    ensures var r := ImportLpk(cfg, c, path, xml, disk);
      r.1.Ok? ==>
        && r.0.world.sleeps >= c.world.sleeps
        && |r.0.world.log| == |c.world.log| + 7 + (if xml.Some? then 1 else 0) + Prefetches(c.world) +
                              (r.0.world.sleeps - c.world.sleeps)
  {
    if EndsWith(path, ".lpk") && path in disk {
      LpkUploadRequests(cfg, c, Basename(path), Content(Some(path), disk[path]), xml, disk);
    }
  }

  lemma LpkUploadRequests(cfg: Config, c: Conn, name: string, content: Content, xml: Option<string>,
                          disk: map<string, seq<string>>)
    requires cfg.Consistent()
    ensures var r := LpkUpload(cfg, c, name, content, xml, disk);
      r.1.Ok? ==>
        && r.0.world.sleeps >= c.world.sleeps
        && |r.0.world.log| == |c.world.log| + 7 + (if xml.Some? then 1 else 0) + Prefetches(c.world) +
                              (r.0.world.sleeps - c.world.sleeps)
  {
    var up := UploadTemporaryFile(cfg, c, Some(name), content);
    if up.1.Ok? {
      UploadRequests(cfg, c, Some(name), content);
      LpkJobsRequests(cfg, up.0, up.1.value.uuid, xml, disk);
    }
  }

  lemma LpkJobsRequests(cfg: Config, c: Conn, uuid: string, xml: Option<string>, disk: map<string, seq<string>>)
    requires cfg.Consistent()
    ensures var r := LpkJobs(cfg, c, uuid, xml, disk);
      r.1.Ok? ==>
        && r.0.world.sleeps >= c.world.sleeps
        && |r.0.world.log| == |c.world.log| + 5 + (if xml.Some? then 1 else 0) + (r.0.world.sleeps - c.world.sleeps)
  {
    var r := LpkJobs(cfg, c, uuid, xml, disk);
    if r.1.Ok? {
      var args := ImportArgs(uuid, "ArcGIS_Native");
      CreateJobRequests(cfg, c, "create_import_job", args);
      var job := CreateJob(cfg, c, "create_import_job", args, true);
      var id := SecondLast(job.1.value.message).value;
      var meta := if xml.None? then (job.0, None) else PostMetadata(cfg, job.0, id, xml.value, disk);
      CreateJobRequests(cfg, meta.0, "finalize_import_job", FinalizeArgs(id));
      var fin := CreateJob(cfg, meta.0, "finalize_import_job", FinalizeArgs(id), true);
      ConcludeCases(cfg, fin.0, fin.1.value, LPK_INCOMPLETE);
    }
  }


  // ---------------------------------------------------------------------------------
  // import_netcdf_dataset

  const NETCDF_EXTENSION_ERROR: string := "File must be .nc or .zip"
  const STYLE_REQUIRED: string :=
    "Import must include style information (either in the zip archive or passed in as an argument)"

  /** The style argument: JSON text to be parsed, or an already decoded value. */
  datatype Style = StyleText(text: string) | StyleValue(value: Json)

  /** The archive before the style step: a .zip is opened for appending (a path that does
      not exist is created, empty); a .nc is written into a new in-memory archive under
      its base name, which reads it from disk. */
  function OpenedArchive(path: string, disk: map<string, seq<string>>): (r: Result<Content>)
    ensures r.Err? ==> r.error == ValueError(NETCDF_EXTENSION_ERROR) || r.error == FileNotFound(path)
    ensures r == Err(ValueError(NETCDF_EXTENSION_ERROR)) <==> !EndsWith(path, ".zip") && !EndsWith(path, ".nc")
  {
    if EndsWith(path, ".zip") then Ok(Content(Some(path), if path in disk then disk[path] else []))
    else if EndsWith(path, ".nc") then
      if path in disk then Ok(Content(None, [Basename(path)])) else Err(FileNotFound(path))
    else Err(ValueError(NETCDF_EXTENSION_ERROR))
  }

  /** A style given as text is parsed with json.loads. */
  function DecodedStyle(env: Env, style: Option<Style>): Result<Option<Json>> {
    match style
    case None => Ok(None)
    case Some(StyleValue(j)) => Ok(Some(j))
    case Some(StyleText(s)) =>
      match env.parseJson(s)
      case None => Err(ValueError("style is not JSON"))
      case Some(j) => Ok(Some(j))
  }

  /** A truthy style is written as style.json; otherwise the archive must already hold an
      entry whose name ends with style.json. */
  function Styled(content: Content, style: Option<Json>): (r: Result<Content>)
    ensures r.Ok? ==> HasStyleEntry(r.value.entries)
    ensures r.Ok? <==> (style.Some? && Truthy(style.value)) || HasStyleEntry(content.entries)
    ensures r.Err? ==> r.error == ValueError(STYLE_REQUIRED)
  {
    if style.Some? && Truthy(style.value) then
      var entries := content.entries + ["style.json"];
      assert EndsWith(entries[|entries| - 1], "style.json");
      Ok(content.(entries := entries))
    else if !HasStyleEntry(content.entries) then Err(ValueError(STYLE_REQUIRED))
    else Ok(content)
  }

  /** The archive import_netcdf_dataset uploads, or the error that stops it before any
      request. */
  function Archive(env: Env, path: string, style: Option<Style>, disk: map<string, seq<string>>): (r: Result<Content>)
    ensures r.Ok? ==> HasStyleEntry(r.value.entries)
  {
    match OpenedArchive(path, disk)
    case Err(e) => Err(e)
    case Ok(content) => StyledArchive(env, content, style)
  }

  /** The style step on an opened archive: decode the style, then write or require it. */
  function StyledArchive(env: Env, content: Content, style: Option<Style>): (r: Result<Content>)
    ensures r.Ok? ==> HasStyleEntry(r.value.entries)
  {
    match DecodedStyle(env, style)
    case Err(e) => Err(e)
    case Ok(s) => Styled(content, s)
  }

  /** Client.import_netcdf_dataset(nc_or_zip_file, style): build the archive, upload it
      as <stem>.zip, run create_import_job, check it succeeded, conclude. */
  function ImportNetcdf(cfg: Config, c: Conn, path: string, style: Option<Style>, disk: map<string, seq<string>>): (r: (Conn, Result<Body>))
    requires cfg.Consistent()
  {
    match Archive(cfg.env, path, style, disk)
    case Err(e) => (c, Err(e))
    case Ok(content) => NetcdfUpload(cfg, c, ZipName(path), content)
  }

  /** import_netcdf_dataset from the upload of the finished archive on. */
  function NetcdfUpload(cfg: Config, c: Conn, name: string, content: Content): (r: (Conn, Result<Body>))
    requires cfg.Consistent()
  {
    var up := UploadTemporaryFile(cfg, c, Some(name), content);
    match up.1
    case Err(e) => (up.0, Err(e))
    case Ok(tmp) => NetcdfJob(cfg, up.0, tmp.uuid)
  }

  /** import_netcdf_dataset from the job on. */
  function NetcdfJob(cfg: Config, c: Conn, uuid: string): (r: (Conn, Result<Body>))
    requires cfg.Consistent()
  {
    var job := CreateJob(cfg, c, "create_import_job", ImportArgs(uuid, "NetCDF_Native"), true);
    match job.1
    case Err(e) => (job.0, Err(e))
    case Ok(created) => Conclude(cfg, job.0, created, NETCDF_INCOMPLETE)
  }

  /** A path that is neither .zip nor .nc, a style that is not JSON, or an archive left
      without style information fails with ValueError before any request. */
  lemma NetcdfRejectsEarly(cfg: Config, c: Conn, path: string, style: Option<Style>, disk: map<string, seq<string>>)
    requires cfg.Consistent()
    ensures !EndsWith(path, ".zip") && !EndsWith(path, ".nc") ==>
      ImportNetcdf(cfg, c, path, style, disk) == (c, Err(ValueError(NETCDF_EXTENSION_ERROR)))
    ensures EndsWith(path, ".zip") && (style == None || (style.value.StyleValue? && !Truthy(style.value.value))) &&
            !HasStyleEntry(if path in disk then disk[path] else []) ==>
      ImportNetcdf(cfg, c, path, style, disk) == (c, Err(ValueError(STYLE_REQUIRED)))
  {
  }

  /** What is uploaded: the archive under the name <stem>.zip, holding a style entry. */
  lemma NetcdfUploadsArchive(cfg: Config, c: Conn, path: string, style: Option<Style>, disk: map<string, seq<string>>)
    requires cfg.Consistent() && Archive(cfg.env, path, style, disk).Ok?
    ensures var content := Archive(cfg.env, path, style, disk).value;
      var up := UploadTemporaryFile(cfg, c, Some(ZipName(path)), content);
      && HasStyleEntry(content.entries) && EndsWith(ZipName(path), ".zip")
      && (up.1.Err? ==> ImportNetcdf(cfg, c, path, style, disk) == (up.0, Err(up.1.error)))
      && (up.1.Ok? ==> ImportNetcdf(cfg, c, path, style, disk) == NetcdfJob(cfg, up.0, up.1.value.uuid))
  {
  }

  /** A successful NetCDF import sends five requests (upload POST and GET, the job POST
      and GET, the dataset GET), one more for a missing CSRF cookie and one more job
      fetch per second slept. An incomplete one sends the import's GET and DELETE in
      place of the dataset GET. */
  lemma NetcdfRequests(cfg: Config, c: Conn, path: string, style: Option<Style>, disk: map<string, seq<string>>)
    requires cfg.Consistent()
    ensures var r := ImportNetcdf(cfg, c, path, style, disk);
      && (r.1.Ok? || r.1 == Err(DatasetImportError(NETCDF_INCOMPLETE)) ==>
            && r.0.world.sleeps >= c.world.sleeps
            && |r.0.world.log| == |c.world.log| + (if r.1.Ok? then 5 else 6) + Prefetches(c.world) +
                                  (r.0.world.sleeps - c.world.sleeps))
  {
    var a := Archive(cfg.env, path, style, disk);
    if a.Ok? {
      NetcdfUploadRequests(cfg, c, ZipName(path), a.value);
    }
  }

  lemma NetcdfUploadRequests(cfg: Config, c: Conn, name: string, content: Content)
    requires cfg.Consistent()
    ensures var r := NetcdfUpload(cfg, c, name, content);
      && (r.1.Ok? || r.1 == Err(DatasetImportError(NETCDF_INCOMPLETE)) ==>
            && r.0.world.sleeps >= c.world.sleeps
            && |r.0.world.log| == |c.world.log| + (if r.1.Ok? then 5 else 6) + Prefetches(c.world) +
                                  (r.0.world.sleeps - c.world.sleeps))
  {
    var up := UploadTemporaryFile(cfg, c, Some(name), content);
    if up.1.Ok? {
      UploadRequests(cfg, c, Some(name), content);
      NetcdfJobRequests(cfg, up.0, up.1.value.uuid);
    }
  }

  lemma NetcdfJobRequests(cfg: Config, c: Conn, uuid: string)
    requires cfg.Consistent()
    ensures var r := NetcdfJob(cfg, c, uuid);
      && (r.1.Ok? || r.1 == Err(DatasetImportError(NETCDF_INCOMPLETE)) ==>
            && r.0.world.sleeps >= c.world.sleeps
            && |r.0.world.log| == |c.world.log| + (if r.1.Ok? then 3 else 4) + (r.0.world.sleeps - c.world.sleeps))
  {
    var args := ImportArgs(uuid, "NetCDF_Native");
    CreateJobRequests(cfg, c, "create_import_job", args);
    var job := CreateJob(cfg, c, "create_import_job", args, true);
    if job.1.Ok? {
      ConcludeCases(cfg, job.0, job.1.value, NETCDF_INCOMPLETE);
    }
  }

}
