# python-databasin, modelled in Dafny

This project models the core of `python-databasin`, the Python client of the Data Basin
web service. It covers four areas:

- **The session.** The client's `requests` session carries a `user-agent` header and the
  `RefererHTTPAdapter`. That adapter stamps every request with a `Referer` header, and
  with an `X-CSRFToken` header on unsafe methods when the session holds a `csrftoken`
  cookie.
- **API-key signing.** `update_headers` keeps the three `x-api-*` headers all present or
  all absent, and signs each request with a salted HMAC.
- **The resource helpers in `utils.py`, `jobs.py` and `uploads.py`.**
  - `raise_for_authorization` rewrites a 401 for a logged-in client into a 403.
  - `ResourcePaginator` follows `meta.next` links and has a guard against link cycles.
  - `JobResource` creates a job, refreshes it and joins it by polling once a second.
  - `TemporaryFileResource.upload` makes a CSRF pre-fetch, POSTs the file, then fetches
    the file's detail URL.
- **The two import workflows of `Client`.**
  - `import_lpk` uploads a package and runs two jobs, with an optional metadata POST.
  - `import_netcdf_dataset` builds a zip archive, checks its style information and runs
    one job.
  - Both end the same way: the new dataset is fetched, or an incomplete import is
    cancelled and reported.

The service is a scripted server. A `World` holds, for each (method, URL) pair, the
responses that endpoint will give in order. It also holds the log of every request sent
with its headers, the session's cookie jar, and the number of `time.sleep(1)` calls made.
A request to an endpoint with no response left fails as a connection error would.

Objects that the source updates in place are Dafny classes: the session, the client, the
job, the paginator and file objects. Each of their methods is proved equal to a function
on values: `Utils.Walk`, `Jobs.JoinOutcome`, `Uploads.UploadOutcome`, and the functions
in `ClientFlows`. The lemmas then state what those functions mean:

- the requests sent, in order;
- the errors raised;
- the cycle guard;
- the termination bound;
- the authorization classification;
- the import outcomes.

The files are:

- `text.dfy`: the string rules of Python the client uses, namely `lower`, `in`, `split`,
  `strip`, `basename`, `splitext`, UTF-8 and `quote_plus`.
- `urls.dfy`: the part of `urlparse` the client uses.
- `transport.dfy`: the session, file objects and the scripted server.
- `utils.dfy`, `jobs.dfy`, `uploads.dfy`: one file per source module.
- `client_rules.dfy`: the pure rules of `client.py`.
- `client_flows.dfy`: each client operation as a function of the client's configuration
  and state.
- `client.dfy`: the `Client` class, whose methods are proved against those functions.

## Model

| member | source | states |
|---|---|---|
| Utils.RaiseForAuthorization | databasin/utils.py:36-48 | LoginRequired(401) exactly for a 401 to a client that is not logged in; Forbidden(403) exactly for a 403 or a 401 to a logged-in client; no error exactly for every other status |
| Utils.PageFrom | databasin/utils.py:27 | a page is produced only from a response that arrived, and it records the URL it was fetched from |
| Utils.Fetch | databasin/utils.py:27 | fetching a page appends exactly one GET of the URL, carrying the session's prepared headers, to the log; no sleep; a page is produced only when that endpoint still had a response |
| Utils.Walk | databasin/utils.py:13-27 | the traversal always yields the starting page first |
| Utils.StopsWithoutFetch | databasin/utils.py:18-24 | with no next link, or a next URL already loaded once lower-cased, iteration stops after this page's objects and sends no request |
| Utils.WalkContinues | databasin/utils.py:21-27 | otherwise the lower-cased next URL is recorded, that URL is fetched, and iteration goes on from the fetched page |
| Utils.WalkFails | databasin/utils.py:25-27 | a failing fetch of the next URL ends the iteration with that error, after the URL was recorded as loaded |
| Utils.WalkFollowsLinks | databasin/utils.py:21-22 | each fetched URL is the previous page's scheme://netloc followed by its meta.next, and the next page is the one fetched from it; there is one page more than fetches unless the last fetch failed |
| Utils.WalkEndsAtLoaded | databasin/utils.py:18-24 | an iteration without error ends on a page with no next link, or on one whose next URL was already loaded |
| Utils.WalkGuardsCycles | databasin/utils.py:23-25 | no URL is fetched twice (compared lower-cased), none that was loaded before is fetched, and every fetched URL ends up loaded |
| Utils.WalkRequests | databasin/utils.py:27 | iteration sends nothing but one GET per fetched URL, in order, and never sleeps |
| Utils.WalkFetchBound | databasin/utils.py:23-25 | the number of fetches is at most the number of distinct lower-cased GET URLs the server answers that were not loaded yet, plus one failing fetch, so iteration terminates |
| Utils.FetchList | databasin/utils.py:27 | a 2xx list response becomes the page at that URL, with the response's objects, next link and total_count |
| Utils.FetchKeepsTotals | databasin/utils.py:32-33 | when every list response reports the same total_count, every page fetched reports it too |
| Utils.CountAfterTraversal | databasin/utils.py:29-33 | count() after iteration is the total_count of the last page held; with a stable total it is the value count() gave before iterating |
| Utils.TwoPages | tests/test_datasets.py:223-253 | the pagination scenario: a first page with two objects and a next link to a second page holding one object yields the three objects in order, with one request |
| Utils.FirstPageRevisited | databasin/utils.py:9-11 | as written, a first page whose next link points back to itself is fetched again and its objects are yielded twice |
| Utils.SeededNeverRevisits | databasin/utils.py:9-27 | once the first page's URL is recorded as loaded, no fetched URL equals it once lower-cased |
| Utils.ResourcePaginator.Advance | databasin/utils.py:18-27 | one round of the generator loop: it stops exactly where Walk stops, or moves to the fetched page with Walk continuing from there, and the measure Walk terminates on strictly decreases |
| Utils.ResourcePaginator.Iterate | databasin/utils.py:13-27 | iterating to the end yields exactly the objects of the pages Walk visits, ends with Walk's error, and leaves the paginator on the last page, with the loaded URLs and the world Walk describes |
| Utils.FetchPage | databasin/utils.py:27 | a list-page GET through the session changes the world exactly as Fetch does and returns its page |
| Jobs.ResolveAbsolute | databasin/jobs.py:32-34 | a Location header that has a scheme is used unchanged |
| Jobs.ResolveRelative | databasin/jobs.py:33-36 | a Location holding only a path resolves to the submission URL's scheme://netloc followed by that path, with the query dropped; the origin is kept |
| Jobs.JobFrom | databasin/jobs.py:38-41 | a job is produced only from a job body the server sent |
| Jobs.FetchJob | databasin/jobs.py:38-41 | a job fetch logs one GET of the job's URL and never sleeps; a successful fetch yields a job body and uses up one queued answer of that URL; its errors are never import errors |
| Jobs.GetJob | databasin/jobs.py:41 | the job GET through the session changes the world exactly as FetchJob does |
| Jobs.CreateOutcome | databasin/jobs.py:19-38 | create never sleeps; a successful create yields a job body; it never fails with an import error |
| Jobs.CreateChecksAuthorizationFirst | databasin/jobs.py:28-30 | a 401 or 403 answer to the POST fails at once, as LoginRequired (401 without a logged-in client) or Forbidden, after exactly one request |
| Jobs.CreateRequests | databasin/jobs.py:28-38 | create sends the POST of {job_name, job_args} first; on success it then sends exactly one GET, of the resolved location |
| Jobs.Job.Create | databasin/jobs.py:19-38 | the job returned is fresh, lives at the resolved location and holds the fetched body; the world and any error are those of CreateOutcome |
| Jobs.Job.Refresh | databasin/jobs.py:40-43 | status, progress and message are taken from the fetched job, and id and job name are kept; a failed fetch raises and leaves every field unchanged |
| Jobs.Job.Join | databasin/jobs.py:45-50 | join ends with the job settled (neither queued nor running) unless a refresh raised; the world and fields are those JoinOutcome gives |
| Jobs.Job.Poll | databasin/jobs.py:48-50 | one loop round (sleep, refresh) turns join from the old fields into join from the new ones, or into a stop with the refresh's error; each continuing round uses up one queued answer |
| Jobs.JoinOutcome | databasin/jobs.py:45-50 | a settled job returns at once, unchanged; otherwise join ends settled unless it stopped on an error; each second slept adds exactly one GET of the job's URL to the log |
| Jobs.JoinRoundOutcome | databasin/jobs.py:48-50 | a round from an active job sleeps at least once and keeps the set of endpoints the server answers; it ends settled unless it stopped on an error |
| Jobs.RoundLog | databasin/jobs.py:48-50 | a round and the rest of join add one GET of the job's URL to the log for each second slept |
| Jobs.JoinStep | databasin/jobs.py:48-50 | join from an active job is one sleep and one fetch, followed by join from the fetched job, or a stop with the fields unchanged when the fetch fails |
| Jobs.JoinNext | databasin/jobs.py:48-50 | the same round with its world named: one more GET, one more sleep, and a shorter queue on success |
| Jobs.JoinErrors | databasin/jobs.py:45-50 | a join that stops on an error stops on a job-fetch error, never an import error |
| Jobs.FetchQueued | databasin/jobs.py:41 | a fetch whose next queued answer is a 200 with a job takes that job off the queue |
| Jobs.JoinRound | databasin/jobs.py:48-50 | a round answered by a given job state continues from that state, with one GET and one sleep more and the rest of the queue left |
| Jobs.JoinScripted | databasin/jobs.py:45-50 | a job URL that answers a run of active states ending in a settled one is joined with one round per state: no error, the last state's fields, as many sleeps as states, and that many GETs |
| Jobs.JoinThreeRounds | tests/test_jobs.py:215-240 | the join scenario: answers queued, queued, succeeded end as succeeded after three sleeps and three GETs |
| Uploads.UploadNameDefault | databasin/uploads.py:29-31 | without a filename, a path is uploaded under its base name: the part after the last '/' |
| Uploads.UploadAuthAsWritten | databasin/uploads.py:43 | as written, a session without a client raises AttributeError whatever the answer was; with a client, the answer is classified by raise_for_authorization |
| Uploads.UploadWithoutClientFails | databasin/uploads.py:23-25 | a 201 to a plain Session() fails as written, where a guarded check would let it through |
| Uploads.UploadAuthCorrected | databasin/uploads.py:43 | the guarded check agrees with the code as written on every session that has a client |
| Uploads.FetchTemporaryFile | databasin/uploads.py:47-51 | the detail fetch logs one GET of the detail URL; the file it returns records that URL |
| Uploads.Prefetch | databasin/uploads.py:37-38 | the home page is fetched once exactly when the session has no csrftoken cookie; otherwise nothing is sent |
| Uploads.UploadOutcome | databasin/uploads.py:36-51 | an upload never sleeps and never fails with an import error; the authorization check after the POST is the one written at uploads.py:43, so a session without a client fails with AttributeError |
| Uploads.Posted | databasin/uploads.py:40-51 | the same for the part after the pre-fetch, classifying the POST's answer with the check as written |
| Uploads.Answered | databasin/uploads.py:43-51 | after the POST's answer, at most one more request is sent; success means an upload body and one GET of scheme://netloc + the detail path of its uuid |
| Uploads.UploadWithCookie | databasin/uploads.py:40-51 | with the cookie, the POST comes first and carries the token as csrfmiddlewaretoken and the file under its name; at most one request follows; success means exactly the POST and the detail GET |
| Uploads.UploadWithoutCookie | databasin/uploads.py:37-38 | without the cookie, one GET of the home page comes first, and success continues as from the world it left, now holding the cookie |
| Uploads.UploadLoginRequired | databasin/uploads.py:43-44 | a 401 to a session whose client has no user is LoginRequired, with the POST the last request sent |
| Uploads.UploadWithoutClient | databasin/uploads.py:40-43 | as written, a session without a client fails with AttributeError once its POST is answered, whatever the status, and sends nothing after the POST |
| Uploads.DetailUrlShape | databasin/uploads.py:46-48 | the detail URL is on the upload URL's scheme and host, at /api/v1/uploads/temporary-files/<uuid>/ |
| Uploads.Upload | databasin/uploads.py:22-54 | a missing path fails before any request; otherwise the world and result are UploadOutcome's for the file's name and content, and the file is closed on every path, including a file object passed in |
| Uploads.Send | databasin/uploads.py:36-51 | the try block changes the world exactly as UploadOutcome describes for the session's client attribute |
| Uploads.EnsureToken | databasin/uploads.py:37-38 | the pre-fetch through the session is Prefetch |
| Uploads.PostFile | databasin/uploads.py:40-51 | the POST and what follows it are Posted, with the check as written on the session's client attribute |
| Uploads.GetTemporaryFile | databasin/uploads.py:47-51 | the detail GET through the session is FetchTemporaryFile |
| Transport.AddHeaders | databasin/client.py:45-50 | Referer is always the request URL; X-CSRFToken is added, set to the csrftoken cookie, exactly for methods other than GET and HEAD (in any case) when that cookie exists; no other header changes |
| Transport.GetIgnoresCookies | databasin/client.py:49 | cookies play no part in a GET's headers |
| Transport.Exchange | databasin/client.py:70 | a request is logged, takes the endpoint's next answer if there is one and keeps that answer's cookies; with no answer left the world is unchanged apart from the log |
| Transport.Fetched | databasin/client.py:152-154 | a fetch succeeds exactly on an answer that is not 4xx or 5xx, and returns its body |
| Transport.Session.Send | databasin/client.py:70 | sending through the session is Exchange with the headers the adapter prepares |
| Transport.Session.Sleep | databasin/jobs.py:49 | time.sleep(1) counts one sleep and changes nothing else |
| Transport.Session.constructor | databasin/jobs.py:21-22 | Session() starts with requests' default headers (User-Agent python-requests/<version>, Accept-Encoding, Accept, Connection) and has no adapter, client or cookies |
| Transport.FileObject.Append | databasin/client.py:284-293 | writing an archive member appends its name |
| Transport.FileObject.Close | databasin/uploads.py:52-54 | close leaves the file closed |
| Transport.FileObject.Open | databasin/uploads.py:33 | open(path) gives an open file holding that path's archive members |
| Transport.FileObject.Buffer | databasin/client.py:282 | BytesIO() gives an empty open buffer |
| Transport.Truthy | databasin/client.py:292 | Python's truth value of a decoded JSON style |
| ClientRules.BuildUrlOrigin | databasin/client.py:98-99 | every URL built from a host and a path is https on that host |
| ClientRules.ImportId | databasin/client.py:42 | the regex matches exactly when "/import/" occurs; the id is the '/'-free text after the first occurrence, up to the next '/' or the end |
| ClientRules.ImportIdExample | tests/test_client.py:315-317 | the id of /datasets/import/a1b2c3/overview/ is a1b2c3 |
| ClientRules.LastSegment | databasin/client.py:274 | the dataset id taken from next_uri holds no '/' |
| ClientRules.LastSegmentOf | databasin/client.py:274 | for a rooted path of non-empty segments, with or without a trailing '/', it is the last segment |
| ClientRules.StripRooted | databasin/client.py:274 | strip('/') removes exactly the slashes around a rooted path |
| ClientRules.SecondLast | databasin/client.py:243 | the import id holds no '/'; a message without '/' fails with IndexError, and only such a message does |
| ClientRules.SecondLastOfPath | databasin/client.py:243 | a message of two or more slash-separated pieces names the second-to-last as the id |
| ClientRules.SplitCount | databasin/client.py:243 | a string splits into more than one piece exactly when it contains the separator |
| ClientRules.ZipName | databasin/client.py:302 | the uploaded archive name ends in .zip and holds no '/' |
| ClientRules.ZipNameOf | databasin/client.py:302 | dir/stem.ext is uploaded as stem.zip |
| ClientRules.BasenameOfName | databasin/client.py:230 | the base name of dir/name is name |
| ClientRules.SetFilter | databasin/client.py:133 | filters[key] = value replaces that key's value in place, keeping every other entry and the order, or appends the pair when the key is new |
| ClientRules.Replace | databasin/client.py:133 | the in-place replacement keeps the length and changes only that key's values |
| ClientRules.MyDatasetsQuery | databasin/client.py:130-146 | list_my_datasets with no filters fetches <base>/api/v1/datasets/?owner_id=<user>&limit=<n>, in that order |
| ClientRules.QuotePlusName | databasin/client.py:134 | quote_plus keeps names made of unreserved characters |
| ClientRules.NextUri | databasin/client.py:263-264 | next_uri is read exactly when the parsed message is an object with a string next_uri |
| ClientRules.Letter | databasin/client.py:88 | each salt character is an ASCII letter |
| ClientRules.Salt | databasin/client.py:88 | the salt is ten letters, each drawn from the random source |
| ClientRules.Letters | databasin/client.py:88 | the first n letters of a salt |
| ClientRules.SignatureSplits | databasin/client.py:93-95 | the signature is the salt, ':', then base64url(HMAC-SHA1(SHA1(salt + key), time)); the salt holds no ':', so splitting at the first ':' gives both parts back |
| ClientRules.Signed | databasin/client.py:87-96 | with a key, x-api-user, x-api-time and x-api-signature are set to the user, the time and the signature; every other header is kept |
| ClientRules.UnsignedRemovesAll | databasin/client.py:78-85 | on headers where the three API headers are all present or all absent, the deletions remove exactly those three |
| ClientRules.CheckApiKey | databasin/client.py:121-122 | a key without a user is refused, and nothing else is |
| ClientFlows.UpdatedHeadersAllOrNone | databasin/client.py:77-96 | update_headers keeps the three API headers all present or all absent, present exactly when a key is stored, with the user as x-api-user; no other header changes |
| ClientFlows.RecordFrom | databasin/client.py:148-157 | a record is returned exactly for an answer that is neither missing nor 4xx/5xx and holds a record; a 401 raises Forbidden when logged in and LoginRequired otherwise; a 403 raises Forbidden |
| ClientFlows.GetRecord | databasin/client.py:168-177 | get_dataset and get_import sign, then send exactly one GET of the URL |
| ClientFlows.GetRecordSent | databasin/client.py:168-177 | that GET is the only request sent |
| ClientFlows.Cancel | databasin/client.py:268 | cancel sends exactly one DELETE of the import's URL |
| ClientFlows.CreateJob | databasin/client.py:179-186 | create_job signs once; a blocking call that succeeds returns a settled job; a non-blocking one never sleeps |
| ClientFlows.SubmitJob | databasin/client.py:180-182 | the part up to JobResource.create signs once and never sleeps |
| ClientFlows.AwaitJob | databasin/client.py:183-184 | join leaves the headers unchanged; success means a settled job at the same location |
| ClientFlows.CreateJobRequests | databasin/client.py:179-186 | a blocking create_job that succeeds sends the POST, the job GET and one GET per second slept; its failures are never import errors |
| ClientFlows.UploadTemporaryFile | databasin/client.py:199-204 | the upload signs once, never sleeps and never fails with an import error |
| ClientFlows.UploadRequests | databasin/client.py:199-204 | a successful upload sends two requests, plus one pre-fetch when there is no csrftoken cookie |
| ClientFlows.FailureMessage | databasin/client.py:261 | the failure message starts with "Import failed" |
| ClientFlows.NextUriOf | databasin/client.py:263-264 | reading next_uri never fails with an import error |
| ClientFlows.Abandon | databasin/client.py:265-272 | an incomplete import always fails, never sleeps and sends one or two requests; when it fails with the import's own error it has sent exactly the GET and the DELETE of the import |
| ClientFlows.ConcludeCases | databasin/client.py:315-332 | a job that did not succeed fails with "Import failed: ..." and sends nothing; a success means a next_uri without "/import/" and exactly one GET of the dataset named by its last segment; the incomplete-import error means a next_uri with "/import/" and exactly the GET and the DELETE of that import |
| ClientFlows.Post | databasin/client.py:72-75 | post signs, then sends exactly one POST with the prepared headers and the payload |
| ClientFlows.Raised | databasin/client.py:256 | raise_for_status raises exactly on a missing or 4xx/5xx answer |
| ClientFlows.PostMetadata | databasin/client.py:249-256 | a missing XML file fails before any request; otherwise exactly one request is sent |
| ClientFlows.LpkRejectsEarly | databasin/client.py:225-228 | a path without .lpk raises the ValueError, and a missing package raises FileNotFound, both before any request and with nothing changed |
| ClientFlows.LpkRequests | databasin/client.py:224-275 | a successful LPK import sends seven requests, one more with XML metadata, one more for a missing CSRF cookie, and one more job GET per second slept |
| ClientFlows.LpkUploadRequests | databasin/client.py:232-275 | the same count from the upload on |
| ClientFlows.LpkJobsRequests | databasin/client.py:236-275 | five requests from the first job on, plus metadata and sleeps |
| ClientFlows.OpenedArchive | databasin/client.py:278-286 | the extension ValueError is raised exactly for a path ending in neither .zip nor .nc; the only other failure is a missing .nc file |
| ClientFlows.Styled | databasin/client.py:292-297 | the style step succeeds exactly when the style is truthy or the archive already has a *style.json member; success leaves a style member, and failure is the style ValueError |
| ClientFlows.Archive | databasin/client.py:278-302 | every archive that is uploaded has a style member |
| ClientFlows.StyledArchive | databasin/client.py:289-297 | the same after parsing a textual style |
| ClientFlows.NetcdfRejectsEarly | databasin/client.py:278-297 | a bad extension, or a .zip without style information and no truthy style, fails with ValueError before any request and with nothing changed |
| ClientFlows.NetcdfUploadsArchive | databasin/client.py:299-316 | the archive, holding a style member, is uploaded as <stem>.zip; a failed upload ends the import with its error, and a successful one continues with the job on its uuid |
| ClientFlows.NetcdfRequests | databasin/client.py:277-332 | a successful NetCDF import sends five requests, an incomplete one six, plus one pre-fetch for a missing cookie and one job GET per second slept |
| ClientFlows.NetcdfUploadRequests | databasin/client.py:303-332 | the same from the upload on |
| ClientFlows.NetcdfJobRequests | databasin/client.py:308-332 | three requests (four when incomplete) from the job on, plus sleeps |
| Clients.OpenArchive | databasin/client.py:278-286 | opening the archive fails exactly as OpenedArchive says; on success it gives a fresh open file holding those members |
| Clients.WriteStyle | databasin/client.py:289-297 | the style step fails exactly as StyledArchive does, leaving the archive unchanged; on success the archive holds what StyledArchive gives |
| Clients.Client.New | databasin/client.py:54-65 | Client(host, user, key) fails exactly for a key without a user; otherwise the session carries only the user-agent header, the base URL is https://host, and user and key (text encoded to UTF-8) are stored |
| Clients.Client.constructor | databasin/client.py:54-64 | a fresh session whose default headers are replaced by the user-agent header alone, with the adapter mounted, the client attached, no user and no key |
| Clients.Client.SetApiKey | databasin/client.py:120-128 | the error is CheckApiKey's; on error nothing changes, otherwise user and key are stored |
| Clients.Client.UpdateHeaders | databasin/client.py:77-96 | the state becomes Sign of the old state, and the invariant (headers all or none, a key only with a user) is kept |
| Clients.Client.ListDatasets | databasin/client.py:130-136 | sign, then GET the datasets URL with the filters and limit; the paginator holds the first page and, as written, no URL recorded as loaded; errors are the fetch's |
| Clients.Client.ListMyDatasets | databasin/client.py:138-146 | without a user or with an empty one it returns [] and changes nothing; otherwise it is list_datasets with owner_id set to the user, and its paginator starts with no URL recorded as loaded |
| Clients.Client.GetResource | databasin/client.py:148-157 | the state and the result are GetRecord's |
| Clients.Client.GetDataset | databasin/client.py:148-157 | GetRecord on /api/v1/datasets/<id>/ |
| Clients.Client.GetImport | databasin/client.py:168-177 | GetRecord on /api/v1/dataset_imports/<id>/ |
| Clients.Client.CancelImport | databasin/client.py:268 | the state and error are Cancel's |
| Clients.Client.CreateJob | databasin/client.py:179-186 | the state and the result are ClientFlows.CreateJob's; the job returned is fresh and on this session |
| Clients.Client.SubmitJob | databasin/client.py:180-182 | the state and the result are ClientFlows.SubmitJob's |
| Clients.Client.AwaitJob | databasin/client.py:183-184 | the state, the error and the job's fields are AwaitJob's |
| Clients.Client.UploadTemporaryFile | databasin/client.py:199-204 | a missing path signs, then fails with FileNotFound; otherwise the state and result are UploadTemporaryFile's, and the file is closed |
| Clients.Client.UploadOpenFile | databasin/client.py:232-234 | uploading an open file is UploadTemporaryFile, and the file is left closed |
| Clients.Client.Conclude | databasin/client.py:258-275 | the state and the result are ClientFlows.Conclude's |
| Clients.Client.ImportLpk | databasin/client.py:224-275 | the state and the result are ClientFlows.ImportLpk's |
| Clients.Client.UploadPackage | databasin/client.py:230-275 | the same from the upload on, and the package is closed |
| Clients.Client.LpkJobs | databasin/client.py:236-275 | the same from the first job on |
| Clients.Client.LpkFinish | databasin/client.py:249-275 | the same from the metadata step on |
| Clients.Client.Post | databasin/client.py:72-75 | the state and the answer are ClientFlows.Post's |
| Clients.Client.PostMetadata | databasin/client.py:249-256 | the state and the error are ClientFlows.PostMetadata's |
| Clients.Client.ImportNetcdf | databasin/client.py:277-332 | the state and the result are ClientFlows.ImportNetcdf's |
| Clients.Client.UploadArchive | databasin/client.py:302-332 | the same from the upload on, and the archive is closed |
| Clients.Client.NetcdfJob | databasin/client.py:308-332 | the same from the job on |
| Text.Lower | databasin/utils.py:23 | lower() keeps the length and lower-cases each character |
| Text.LowerIdempotent | databasin/utils.py:23 | lower-casing twice is lower-casing once |
| Text.Find | databasin/client.py:265-266 | the leftmost occurrence at or after the start, and no earlier one |
| Text.ContainsIff | databasin/client.py:265 | `in` holds exactly when the text occurs at some index |
| Text.SplitJoin | databasin/client.py:243 | joining the pieces of a split gives the string back, and no piece holds the separator |
| Text.JoinSplit | databasin/client.py:243 | splitting a join of separator-free pieces gives the pieces back |
| Text.LastPiece | databasin/client.py:274 | the last piece is what follows the last separator |
| Text.Basename | databasin/uploads.py:31 | the base name holds no '/', ends the path, and follows a '/' |
| Text.StripShape | databasin/client.py:274 | strip removes only the character, from both ends, and what remains neither starts nor ends with it |
| Text.RFind | databasin/client.py:302 | the index of the last occurrence |
| Text.SplitextOfExtension | databasin/client.py:302 | splitext drops exactly the final extension |
| Text.Utf8Ascii | databasin/client.py:125 | an ASCII key encodes to its code points, one byte each |
| Text.Utf8Append | databasin/client.py:125 | encoding distributes over concatenation |
| Text.QuotePlusShape | databasin/client.py:134 | quote_plus keeps unreserved text, and its output never holds '&' or '=' |
| Text.PercentFree | databasin/client.py:134 | %XX escapes never hold '&' or '=' |
| Urls.FirstWhere | databasin/utils.py:21 | the first index matching the stop predicate, with no match before it |
| Urls.SchemeColon | databasin/jobs.py:33-34 | the colon that ends a scheme is inside the URL |
| Urls.OriginOfAbsolute | databasin/utils.py:21-22 | urlparse of scheme://host/tail gives back the scheme and host |
| Urls.SchemeOfAbsolute | databasin/jobs.py:33-34 | the scheme of scheme:rest is found at its colon |
| Urls.NetlocOfSlashes | databasin/jobs.py:35-36 | the netloc of //host/tail is host |
| Urls.OriginStable | databasin/utils.py:21-22 | appending a path to a URL's origin keeps the origin, so pages reached by links stay on the first page's scheme and host |
| Urls.PathOnly | databasin/jobs.py:33-36 | a server-relative path has no scheme and no netloc, and urlparse gives back the path alone |

## Left out

- restle's resource classes are modelled as one eager fetch; lazy loading is not modelled. The members below are where this changes what is sent.
- Jobs.CreateOutcome: sends and checks the GET of the job's location inside create, where jobs.py:38 returns a lazy resource whose GET happens at its first attribute read.
- Jobs.Job.Create: the same eager job GET as CreateOutcome.
- ClientFlows.CreateJob: a non-blocking create_job sends and checks the job GET, which the source defers to the caller's first attribute read; a blocking one reads the status at once in join, so nothing changes there.
- ClientFlows.SubmitJob: the same eager job GET as CreateOutcome.
- Clients.Client.CreateJob: the same eager job GET as ClientFlows.CreateJob.
- Clients.Client.SubmitJob: the same eager job GET as CreateOutcome.
- Utils.ResourcePaginator.Advance: after a failed next-page fetch the paginator keeps the last good page, where the source holds the failed lazy resource, so a later count() there sends another GET.
- Utils.ResourcePaginator.Iterate: the same as Advance for the page held after a failed fetch.
- Clients.Client.ListDatasets: writes `limit` into a copy of the filters; the source writes it into the dict the caller passed (client.py:133).
- Clients.Client.ListMyDatasets: writes `owner_id` and `limit` into a copy of the filters; the source writes them into the dict the caller passed (client.py:143).
- URL normalisation by requests is not modelled: requests sends an empty path as '/', so the home-page pre-fetch goes to http://databasin.org/ while the model logs the URL as written.
- requests' default Accept-Encoding is taken as "gzip, deflate"; requests adds "br" or "zstd" when those decoders are installed, which is not modelled.
- The `session=None` default of `JobResource.create` and `TemporaryFileResource.upload` is modelled only for the upload's authorization check (see Findings). Every caller in the client passes its own session.
- The test double `requests_mock` repeats its last response for ever. Here each endpoint's answers are a finite queue, which is what makes `join` terminate.
- urlparse is modelled for scheme, netloc and path only. Parameters, IPv6 netlocs and other corner cases are not modelled.
- Text.Lower: lower-cases ASCII letters only; Python's Unicode case mapping is not modelled.
- `login`, `get_job`, `list_imports`, `list_temporary_files` and `get_temporary_file` are not part of this model. They follow the same patterns as `get_dataset` and `list_datasets`.
- The mutable default `filters={}` of `list_datasets`, which is shared between calls, is not modelled; each call receives its filters.
- HTTP header names are compared case-sensitively.
- `DatasetImportResource.cancel` (datasets.py) is not part of this model. It is modelled as one DELETE of the import's URL whose 4xx/5xx answer raises.
- The clock, the random source, SHA-1, HMAC, base64 and JSON parsing are parameters of the client's environment, not computed.
- File contents are abstracted to the path a file came from and its archive member names.
- Writing `style.json` back into a `.zip` file on disk is not modelled, because the disk is a read-only map.
- urljoin is modelled only for joining the base URL with the server-absolute paths the client uses.
- A `next_uri` that is not a string is treated as a TypeError, without Python's exact exception.
- Utils.ResourcePaginator.Count: count() and `__len__` are the current page's total_count. This is stated through Utils.CountAfterTraversal, not through an ensures of its own.
- Concurrency, timeouts and retries of `requests` are not modelled.

## Findings

| source | as written | input that shows it | evidently intended | confidence | as-written member | corrected member |
|---|---|---|---|---|---|---|
| databasin/utils.py:9-27 | the paginator starts with an empty `loaded_urls`, so the first page's own URL is never guarded | a first page whose `meta.next` leads back to its own URL: it is fetched again and its objects are yielded twice | every page, the first one included, is fetched and yielded at most once | not executed | Utils.FirstPageRevisited | Utils.SeededNeverRevisits |
| databasin/uploads.py:43 | `session.client.username is not None`, unlike jobs.py:29, has no `hasattr(session, 'client')` guard | `upload(url, f)` with the default `session=None`: a plain `Session()` has no `client`, so even a 201 answer raises AttributeError | the guarded check that jobs.py uses | not executed | Uploads.UploadAuthAsWritten | Uploads.UploadAuthCorrected |

In both rows the rest of the model follows the code as written; the corrected member states the intended property of the corrected definition beside it (the `Seeded` constructor for the paginator, `RaiseForAuthorization` on the guarded condition for the check).
