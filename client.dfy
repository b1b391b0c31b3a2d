/** databasin/client.py: the Client, a requests session set up for Data Basin (its
    user-agent header, the Referer/CSRF adapter, the client attached to it) together with
    the operations that refresh the API headers and call the resource classes. Every
    method here is proved to do what the function of the same name in ClientFlows
    describes, which is where the properties of the operations are proved. */
module Clients {
  import opened Text
  import opened Transport
  import opened Utils
  import opened Jobs
  import opened Uploads
  import opened ClientRules
  import opened ClientFlows

  /** What list_my_datasets returns: [] without a user, otherwise the paginator. */
  datatype Listing = NoDatasets | Datasets(paginator: ResourcePaginator)

  /** The client's view of a job object. */
  function View(job: Job): JobView
    reads job
  {
    JobView(job.url, job.status, job.progress, job.message)
  }

  /** The first step of import_netcdf_dataset: a .zip is opened for appending (created
      empty when it does not exist); a .nc is written under its base name into a new
      in-memory archive, which fails when the file does not exist. */
  method OpenArchive(path: string, disk: map<string, seq<string>>) returns (r: Result<FileObject>)
    ensures r.Err? <==> OpenedArchive(path, disk).Err?
    ensures r.Err? ==> r.error == OpenedArchive(path, disk).error
    ensures r.Ok? ==> fresh(r.value) && !r.value.closed && r.value.Snapshot() == OpenedArchive(path, disk).value
  {
    var f: FileObject;
    if EndsWith(path, ".zip") {
      f := new FileObject.Open(path, if path in disk then disk[path] else []);
    } else if EndsWith(path, ".nc") {
      f := new FileObject.Buffer();
      if path !in disk {
        return Err(FileNotFound(path));
      }
      f.Append(Basename(path));
    } else {
      return Err(ValueError(NETCDF_EXTENSION_ERROR));
    }
    return Ok(f);
  }

  /** The style step of import_netcdf_dataset: a style given as text is parsed; a truthy
      style is written as style.json; otherwise the archive must already hold a member
      whose name ends with style.json. */
  method WriteStyle(env: Env, f: FileObject, style: Option<Style>) returns (error: Option<Error>)
    modifies f`entries
    ensures var a := StyledArchive(env, old(f.Snapshot()), style);
      && (error.None? <==> a.Ok?)
      && (error.Some? ==> error.value == a.error && f.entries == old(f.entries))
      && (error.None? ==> f.Snapshot() == a.value)
  {
    var decoded := DecodedStyle(env, style);
    if decoded.Err? {
      return Some(decoded.error);
    }
    if decoded.value.Some? && Truthy(decoded.value.value) {
      f.Append("style.json");
    } else if !HasStyleEntry(f.entries) {
      return Some(ValueError(STYLE_REQUIRED));
    }
    return None;
  }

  class Client {
    /** self._session; its `client` attribute is this client. */
    const session: Session
    /** The clock, the random source, the digests and the JSON parser. */
    const env: Env
    var baseUrl: string
    var username: Option<string>
    var apiKey: Option<seq<byte>>
    /** How many API signatures update_headers has made, which picks the clock reading
        and the salt of the next one. */
    var signings: nat

    /** The session is this client's, with the adapter mounted; the user name the session
        sees is the client's; a key is stored only with a user; the three API headers are
        all present or all absent. */
    ghost predicate Valid()
      reads this`username, this`apiKey
      reads session`hasClient, session`refererAdapter, session`clientUsername, session`headers
    {
      && session.hasClient && session.refererAdapter
      && session.clientUsername == username
      && (apiKey.Some? ==> username.Some?)
      && AllOrNone(session.headers)
    }

    function Cfg(): Config
      reads this
    {
      Config(baseUrl, username, apiKey, env)
    }

    function State(): Conn
      reads this, session
    {
      Conn(session.world, session.headers, signings)
    }

    /** Client(host): a new session whose default headers are replaced by the user-agent
        header alone, the adapter mounted, the base URL https://host, no user and no key. */
    constructor (host: string, version: string, requestsVersion: string, server: map<Endpoint, seq<Response>>, env: Env)
      ensures Valid() && fresh(session) && this.env == env
      ensures baseUrl == BaseUrl(host) && username == None && apiKey == None && signings == 0
      ensures session.world == World(server, [], map[], 0)
      ensures session.headers == map["user-agent" := Text("python-databasin/" + version)]
    {
      var s := new Session(server, requestsVersion);
      s.hasClient := true;
      s.headers := map["user-agent" := Text("python-databasin/" + version)];
      s.refererAdapter := true;
      session := s;
      this.env := env;
      baseUrl := BaseUrl(host);
      username := None;
      apiKey := None;
      signings := 0;
    }

    /** Client(host, user, api_key): the constructor followed by set_api_key, whose
        ValueError escapes the constructor. */
    static method New(host: string, user: Option<string>, key: Option<KeyArg>, version: string, requestsVersion: string,
                      server: map<Endpoint, seq<Response>>, env: Env) returns (r: Result<Client>)
      ensures r.Err? <==> user.None? && key.Some?
      ensures r.Err? ==> Some(r.error) == CheckApiKey(user, key)
      ensures r.Ok? ==> (
        && fresh(r.value) && fresh(r.value.session) && r.value.Valid()
        && r.value.baseUrl == BaseUrl(host) && r.value.env == env && r.value.signings == 0
        && r.value.username == user
        && r.value.apiKey == (if key.Some? then Some(KeyBytes(key.value)) else None)
        && r.value.session.world == World(server, [], map[], 0)
        && r.value.session.headers == map["user-agent" := Text("python-databasin/" + version)])
    {
      var c := new Client(host, version, requestsVersion, server, env);
      var error := c.SetApiKey(user, key);
      if error.Some? {
        return Err(error.value);
      }
      return Ok(c);
    }

    /** set_api_key(username, api_key): a key without a user is refused and nothing
        changes; otherwise both are stored, a text key as its UTF-8 bytes. */
    method SetApiKey(user: Option<string>, key: Option<KeyArg>) returns (error: Option<Error>)
      requires Valid()
      modifies this`username, this`apiKey, session`clientUsername
      ensures Valid()
      ensures error == CheckApiKey(user, key)
      ensures error.Some? ==> username == old(username) && apiKey == old(apiKey)
      ensures error.None? ==> username == user && apiKey == (if key.Some? then Some(KeyBytes(key.value)) else None)
    {
      error := CheckApiKey(user, key);
      if error.Some? {
        return;
      }
      username := user;
      session.clientUsername := user;
      apiKey := if key.Some? then Some(KeyBytes(key.value)) else None;
    }

    /** update_headers(): without a key, delete the three API headers, stopping at the
        first one missing; with a key, set the user, the time and a fresh signature. */
    method UpdateHeaders()
      requires Valid()
      modifies session`headers, this`signings
      ensures Valid()
      ensures State() == Sign(Cfg(), old(State()))
    {
      UpdatedHeadersAllOrNone(session.headers, username, apiKey, env, signings);
      if apiKey.None? {
        if API_USER !in session.headers {
          return;
        }
        session.headers := session.headers - {API_USER};
        if API_TIME !in session.headers {
          return;
        }
        session.headers := session.headers - {API_TIME};
        if API_SIGNATURE !in session.headers {
          return;
        }
        session.headers := session.headers - {API_SIGNATURE};
        return;
      }
      session.headers := session.headers[API_USER := Text(username.value)]
                                        [API_TIME := Raw(env.now(signings))]
                                        [API_SIGNATURE := Raw(Signature(env, signings, apiKey.value))];
      signings := signings + 1;
    }

    /** list_datasets(filters, items_per_page): update_headers, one GET of the dataset
        list with `limit` set, and a paginator over the pages from that one on, which
        starts with no URL recorded as loaded. */
    method ListDatasets(filters: Filters, itemsPerPage: int) returns (r: Result<ResourcePaginator>)
      requires Valid()
      modifies session`headers, session`world, this`signings
      ensures Valid()
      ensures var s := Sign(Cfg(), old(State()));
        var f := Fetch(s.world, true, s.headers, ListDatasetsUrl(baseUrl, filters, itemsPerPage));
        && State() == s.(world := f.0)
        && (r.Err? <==> f.1.Err?) && (r.Err? ==> r.error == f.1.error)
        && (r.Ok? ==> fresh(r.value) && r.value.session == session &&
                      r.value.resource == f.1.value && r.value.loadedUrls == {})
    {
      UpdateHeaders();
      var page := FetchPage(session, ListDatasetsUrl(baseUrl, filters, itemsPerPage));
      if page.Err? {
        return Err(page.error);
      }
      var paginator := new ResourcePaginator(page.value, session);
      return Ok(paginator);
    }

    /** list_my_datasets(filters, items_per_page): nothing at all without a (non-empty)
        user name; otherwise list_datasets with the filters narrowed to that owner. */
    method ListMyDatasets(filters: Filters, itemsPerPage: int) returns (r: Result<Listing>)
      requires Valid()
      modifies session`headers, session`world, this`signings
      ensures Valid()
      ensures username.None? || username == Some("") ==> r == Ok(NoDatasets) && State() == old(State())
      ensures username.Some? && username != Some("") ==> (
        var s := Sign(Cfg(), old(State()));
        var f := Fetch(s.world, true, s.headers, ListDatasetsUrl(baseUrl, MyFilters(filters, username.value), itemsPerPage));
        && State() == s.(world := f.0)
        && (r.Err? <==> f.1.Err?) && (r.Err? ==> r.error == f.1.error)
        && (r.Ok? ==> r.value.Datasets? && fresh(r.value.paginator) &&
                      r.value.paginator.resource == f.1.value && r.value.paginator.loadedUrls == {}))
    {
      if username.None? || username == Some("") {
        return Ok(NoDatasets);
      }
      var listed := ListDatasets(MyFilters(filters, username.value), itemsPerPage);
      if listed.Err? {
        return Err(listed.error);
      }
      return Ok(Datasets(listed.value));
    }

    /** What get_dataset and get_import share: update_headers, one GET, and an HTTP
        error classified by raise_for_authorization. */
    method GetResource(url: string) returns (r: Result<Body>)
      requires Valid()
      modifies session`headers, session`world, this`signings
      ensures Valid()
      ensures var o := GetRecord(Cfg(), old(State()), url); State() == o.0 && r == o.1
    {
      UpdateHeaders();
      GetIgnoresCookies(true, session.headers, session.world.cookies, url);
      var resp := session.Send("GET", url, NoPayload);
      r := RecordFrom(url, resp, username.Some?);
    }

    /** get_dataset(dataset_id) */
    method GetDataset(id: string) returns (r: Result<Body>)
      requires Valid()
      modifies session`headers, session`world, this`signings
      ensures Valid()
      ensures var o := GetRecord(Cfg(), old(State()), DatasetUrl(Cfg(), id)); State() == o.0 && r == o.1
    {
      r := GetResource(BuildUrl(baseUrl, DatasetDetailPath(id)));
    }

    /** get_import(import_id) */
    method GetImport(id: string) returns (r: Result<Body>)
      requires Valid()
      modifies session`headers, session`world, this`signings
      ensures Valid()
      ensures var o := GetRecord(Cfg(), old(State()), ImportUrl(Cfg(), id)); State() == o.0 && r == o.1
    {
      r := GetResource(BuildUrl(baseUrl, DatasetImportDetailPath(id)));
    }

    /** dataset_import.cancel(): a DELETE of the import's URL. */
    method CancelImport(url: string) returns (error: Option<Error>)
      requires Valid()
      modifies session`world
      ensures Valid()
      ensures var o := Cancel(old(State()), url); State() == o.0 && error == o.1
    {
      var resp := session.Send("DELETE", url, NoPayload);
      error := Raised(url, resp);
    }

    /** create_job(name, job_args, block): update_headers, JobResource.create on the jobs
        URL, and join() when `block`. */
    method CreateJob(name: string, args: Json, block: bool) returns (r: Result<Job>)
      requires Valid()
      modifies session`headers, session`world, this`signings
      ensures Valid()
      ensures var o := ClientFlows.CreateJob(Cfg(), old(State()), name, args, block);
        && State() == o.0
        && (r.Err? <==> o.1.Err?) && (r.Err? ==> r.error == o.1.error)
        && (r.Ok? ==> fresh(r.value) && r.value.session == session && View(r.value) == o.1.value)
    {
      r := SubmitJob(name, args);
      if block && r.Ok? {
        var error := AwaitJob(r.value);
        if error.Some? {
          r := Err(error.value);
        }
      }
    }

    /** create_job up to and including JobResource.create. */
    method SubmitJob(name: string, args: Json) returns (r: Result<Job>)
      requires Valid()
      modifies session`headers, session`world, this`signings
      ensures Valid()
      ensures var o := ClientFlows.SubmitJob(Cfg(), old(State()), name, args);
        && State() == o.0
        && (r.Err? <==> o.1.Err?) && (r.Err? ==> r.error == o.1.error)
        && (r.Ok? ==> fresh(r.value) && r.value.session == session && View(r.value) == o.1.value)
    {
      UpdateHeaders();
      r := Job.Create(BuildUrl(baseUrl, JOB_CREATE_PATH), name, args, session);
    }

    /** job.join() on a job of this client's session. */
    method AwaitJob(job: Job) returns (error: Option<Error>)
      requires Valid() && job.session == session
      modifies job`status, job`progress, job`message, session`world
      ensures Valid()
      ensures var o := ClientFlows.AwaitJob(old(State()), old(View(job)));
        && State() == o.0
        && (error.None? <==> o.1.Ok?) && (error.Some? ==> error.value == o.1.error)
        && (error.None? ==> View(job) == o.1.value)
    {
      error := job.Join();
    }

    /** upload_temporary_file(f, filename): update_headers, then
        TemporaryFileResource.upload to the upload URL. */
    method UploadTemporaryFile(f: Source, filename: Option<string>, disk: map<string, seq<string>>)
      returns (r: Result<TemporaryFile>, handle: Option<FileObject>)
      requires Valid()
      modifies session`headers, session`world, this`signings, Handles(f)`closed
      ensures Valid()
      ensures f.PathSource? && f.path !in disk ==>
        State() == Sign(Cfg(), old(State())) && r == Err(FileNotFound(f.path)) && handle == None
      ensures f.FileSource? ==> (
        && handle == Some(f.file) && f.file.closed
        && var o := ClientFlows.UploadTemporaryFile(Cfg(), old(State()), UploadName(f, filename), old(f.file.Snapshot()));
           State() == o.0 && r == o.1)
      ensures f.PathSource? && f.path in disk ==> (
        && handle.Some? && fresh(handle.value) && handle.value.closed
        && var o := ClientFlows.UploadTemporaryFile(Cfg(), old(State()), UploadName(f, filename), Content(Some(f.path), disk[f.path]));
           State() == o.0 && r == o.1)
    {
      UpdateHeaders();
      r, handle := Upload(BuildUrl(baseUrl, TEMPORARY_FILE_UPLOAD_PATH), f, filename, disk, session);
    }

    /** upload_temporary_file(f, filename=name) on a file both imports have open; the
        upload closes it. */
    method UploadOpenFile(f: FileObject, name: string) returns (r: Result<TemporaryFile>)
      requires Valid()
      modifies session`headers, session`world, this`signings, f`closed
      ensures Valid() && f.closed
      ensures var o := ClientFlows.UploadTemporaryFile(Cfg(), old(State()), Some(name), old(f.Snapshot()));
        State() == o.0 && r == o.1
    {
      var handle;
      r, handle := UploadTemporaryFile(FileSource(f), Some(name), map[]);
    }

    /** The end both imports share, from the last job on. */
    method Conclude(job: Job, incomplete: string) returns (r: Result<Body>)
      requires Valid()
      modifies session`headers, session`world, this`signings
      ensures Valid()
      ensures var o := ClientFlows.Conclude(Cfg(), old(State()), View(job), incomplete); State() == o.0 && r == o.1
    {
      if job.status != "succeeded" {
        return Err(DatasetImportError(FailureMessage(job.message)));
      }
      var next := NextUriOf(env, job.message);
      if next.Err? {
        return Err(next.error);
      }
      if Contains(next.value, "/import/") {
        var id := ImportId(next.value).value;
        var imported := GetImport(id);
        if imported.Err? {
          return Err(imported.error);
        }
        var error := CancelImport(ImportUrl(Cfg(), id));
        if error.Some? {
          return Err(error.value);
        }
        return Err(DatasetImportError(incomplete));
      }
      r := GetDataset(LastSegment(next.value));
    }

    /** import_lpk(lpk_file, xml) */
    method ImportLpk(path: string, xml: Option<string>, disk: map<string, seq<string>>) returns (r: Result<Body>)
      requires Valid()
      modifies session`headers, session`world, this`signings
      ensures Valid()
      ensures var o := ClientFlows.ImportLpk(Cfg(), old(State()), path, xml, disk); State() == o.0 && r == o.1
    {
      if !EndsWith(path, ".lpk") {
        return Err(ValueError(LPK_EXTENSION_ERROR));
      }
      if path !in disk {
        return Err(FileNotFound(path));
      }
      var f := new FileObject.Open(path, disk[path]);
      var filename := Basename(path);
      r := UploadPackage(f, filename, xml, disk);
    }

    /** import_lpk from the upload of the opened package on; the upload closes it. */
    method UploadPackage(f: FileObject, name: string, xml: Option<string>, disk: map<string, seq<string>>)
      returns (r: Result<Body>)
      requires Valid()
      modifies session`headers, session`world, this`signings, f`closed
      ensures Valid() && f.closed
      ensures var o := LpkUpload(Cfg(), old(State()), name, old(f.Snapshot()), xml, disk); State() == o.0 && r == o.1
    {
      var tmp := UploadOpenFile(f, name);
      // f.close(): the upload has closed the package already, so closing it before the
      // failed upload propagates changes nothing
      f.Close();
      if tmp.Err? {
        return Err(tmp.error);
      }
      r := LpkJobs(tmp.value.uuid, xml, disk);
    }

    /** import_lpk from create_import_job on. */
    method LpkJobs(uuid: string, xml: Option<string>, disk: map<string, seq<string>>) returns (r: Result<Body>)
      requires Valid()
      modifies session`headers, session`world, this`signings
      ensures Valid()
      ensures var o := ClientFlows.LpkJobs(Cfg(), old(State()), uuid, xml, disk); State() == o.0 && r == o.1
    {
      ghost var created := ClientFlows.CreateJob(Cfg(), State(), "create_import_job", ImportArgs(uuid, "ArcGIS_Native"), true);
      var job := CreateJob("create_import_job", ImportArgs(uuid, "ArcGIS_Native"), true);
      assert State() == created.0;
      if job.Err? {
        return Err(job.error);
      }
      var id := SecondLast(job.value.message);
      assert id == SecondLast(created.1.value.message);
      if id.Err? {
        return Err(id.error);
      }
      r := LpkFinish(id.value, xml, disk);
    }

    /** import_lpk from the metadata upload on. */
    method LpkFinish(id: string, xml: Option<string>, disk: map<string, seq<string>>) returns (r: Result<Body>)
      requires Valid()
      modifies session`headers, session`world, this`signings
      ensures Valid()
      ensures var o := ClientFlows.LpkFinish(Cfg(), old(State()), id, xml, disk); State() == o.0 && r == o.1
    {
      if xml.Some? {
        var error := PostMetadata(id, xml.value, disk);
        if error.Some? {
          return Err(error.value);
        }
      }
      var finalJob := CreateJob("finalize_import_job", FinalizeArgs(id), true);
      if finalJob.Err? {
        return Err(finalJob.error);
      }
      r := Conclude(finalJob.value, LPK_INCOMPLETE);
    }

    /** post(url, ...): update_headers, then one POST through the session. */
    method Post(url: string, payload: Payload) returns (resp: Option<Response>)
      requires Valid()
      modifies session`headers, session`world, this`signings
      ensures Valid()
      ensures var o := ClientFlows.Post(Cfg(), old(State()), url, payload); State() == o.0 && resp == o.1
    {
      UpdateHeaders();
      resp := session.Send("POST", url, payload);
    }

    /** The metadata upload of import_lpk: open the XML file, self.post the form and
        raise_for_status; the file is closed on leaving the `with` block. */
    method PostMetadata(id: string, xml: string, disk: map<string, seq<string>>) returns (error: Option<Error>)
      requires Valid()
      modifies session`headers, session`world, this`signings
      ensures Valid()
      ensures var o := ClientFlows.PostMetadata(Cfg(), old(State()), id, xml, disk); State() == o.0 && error == o.1
    {
      if xml !in disk {
        return Some(FileNotFound(xml));
      }
      var f := new FileObject.Open(xml, disk[xml]);
      var url := BuildUrl(baseUrl, MetadataFileUploadPath(id));
      var resp := Post(url, MetadataPayload(xml, f.Snapshot()));
      f.Close();
      error := Raised(url, resp);
    }

    /** import_netcdf_dataset(nc_or_zip_file, style) */
    method ImportNetcdf(path: string, style: Option<Style>, disk: map<string, seq<string>>) returns (r: Result<Body>)
      requires Valid()
      modifies session`headers, session`world, this`signings
      ensures Valid()
      ensures var o := ClientFlows.ImportNetcdf(Cfg(), old(State()), path, style, disk); State() == o.0 && r == o.1
    {
      var archive := OpenArchive(path, disk);
      if archive.Err? {
        return Err(archive.error);
      }
      var f := archive.value;
      var error := WriteStyle(env, f, style);
      if error.Some? {
        f.Close();
        return Err(error.value);
      }
      r := UploadArchive(f, ZipName(path));
    }

    /** import_netcdf_dataset from the upload of the finished archive on; the archive
        is closed once the upload is done. */
    method UploadArchive(f: FileObject, name: string) returns (r: Result<Body>)
      requires Valid()
      modifies session`headers, session`world, this`signings, f`closed
      ensures Valid() && f.closed
      ensures var o := NetcdfUpload(Cfg(), old(State()), name, old(f.Snapshot())); State() == o.0 && r == o.1
    {
      var tmp := UploadOpenFile(f, name);
      f.Close();
      if tmp.Err? {
        return Err(tmp.error);
      }
      r := NetcdfJob(tmp.value.uuid);
    }

    /** import_netcdf_dataset from create_import_job on. */
    method NetcdfJob(uuid: string) returns (r: Result<Body>)
      requires Valid()
      modifies session`headers, session`world, this`signings
      ensures Valid()
      ensures var o := ClientFlows.NetcdfJob(Cfg(), old(State()), uuid); State() == o.0 && r == o.1
    {
      var job := CreateJob("create_import_job", ImportArgs(uuid, "NetCDF_Native"), true);
      if job.Err? {
        return Err(job.error);
      }
      r := Conclude(job.value, NETCDF_INCOMPLETE);
    }
  }
}
