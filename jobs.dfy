/** databasin/jobs.py: a job submitted to the service, refreshed and waited on. */
module Jobs {
  import opened Text
  import opened Urls
  import opened Transport
  import opened Utils

  /** The statuses `join` keeps waiting on. */
  predicate Active(status: string) {
    status == "queued" || status == "running"
  }

  /** The JSON body `create` posts. */
  function JobPayload(name: string, args: Json): Json {
    JObj(map["job_name" := JStr(name), "job_args" := args])
  }

  /** The URL a job's Location header points to: a Location without a scheme is taken
      as a path on the submission URL's scheme and network location (its query and
      fragment dropped); one with a scheme is used as it is. */
  function Resolve(url: string, location: string): string {
    if Scheme(location) == "" then Origin(url) + PathOf(location) else location
  }

  lemma ResolveAbsolute(url: string, scheme: string, host: string, tail: string)
    requires IsScheme(scheme) && IsHost(host) && IsTail(tail)
    ensures Resolve(url, scheme + "://" + host + tail) == scheme + "://" + host + tail
  {
    OriginOfAbsolute(scheme, host, tail);
  }

  lemma ResolveRelative(url: string, path: string, rest: string)
    requires SchemeColon(url).Some? && StartsWith(AfterScheme(url), "//")
    requires |path| >= 1 && path[0] == '/' && !StartsWith(path, "//")
    requires forall j :: 0 <= j < |path| ==> !EndsPath(path[j])
    requires rest == [] || EndsPath(rest[0])
    ensures Resolve(url, path + rest) == Origin(url) + path
    ensures Origin(Resolve(url, path + rest)) == Origin(url)
  {
    PathOnly(path, rest);
    OriginStable(url, path);
  }

  /** What a job fetch of `url` gives: a job body, or the error the fetch raises. */
  function JobFrom(url: string, resp: Option<Response>): (r: Result<Body>)
    ensures r.Ok? ==> r.value.JobBody? && resp.Some? && r.value == resp.value.body
  {
    match Fetched(url, resp)
    case Err(e) => Err(e)
    case Ok(body) => if body.JobBody? then Ok(body) else Err(Malformed(url))
  }

  /** JobResource.get(url, lazy=False, session=...): one GET of the job's URL. A job it
      yields is the next response queued for that URL, which the fetch consumes. */
  function FetchJob(w: World, adapter: bool, headers: map<string, HeaderValue>, url: string): (r: (World, Result<Body>))
    ensures r.0.log == w.log + [GetRequest(adapter, headers, url)]
    ensures r.0.sleeps == w.sleeps && r.0.server.Keys == w.server.Keys
    ensures r.1.Ok? ==> r.1.value.JobBody?
    ensures r.1.Err? ==> !r.1.error.DatasetImportError?
    ensures r.1.Ok? ==> |Queue(r.0.server, Endpoint("GET", url))| < |Queue(w.server, Endpoint("GET", url))|
  {
    var sent := Exchange(w, GetRequest(adapter, headers, url));
    (sent.0, JobFrom(url, sent.1))
  }

  method GetJob(session: Session, url: string) returns (r: Result<Body>)
    modifies session`world
    ensures var f := FetchJob(old(session.world), session.refererAdapter, session.headers, url);
      session.world == f.0 && r == f.1
  {
    GetIgnoresCookies(session.refererAdapter, session.headers, session.world.cookies, url);
    var resp := session.Send("GET", url, NoPayload);
    r := JobFrom(url, resp);
  }

  /** The POST `create` sends: the payload as JSON, with the session's headers. */
  function PostJob(w: World, adapter: bool, headers: map<string, HeaderValue>, url: string, name: string, args: Json): Request {
    Request("POST", url, Prepared(adapter, headers, w.cookies, "POST", url), JsonPayload(JobPayload(name, args)))
  }

  /** A successful create: where the job lives and the job fetched from there. */
  datatype Created = Created(location: string, job: Body)

  /** JobResource.create(url, name, job_args, session): POST the payload; classify a
      401/403 before raise_for_status; resolve the Location header; fetch the job. */
  function CreateOutcome(w: World, adapter: bool, headers: map<string, HeaderValue>, loggedIn: bool,
                         url: string, name: string, args: Json): (r: (World, Result<Created>))
    ensures r.0.sleeps == w.sleeps
    ensures r.1.Ok? ==> r.1.value.job.JobBody?
    ensures r.1.Err? ==> !r.1.error.DatasetImportError?
  {
    var sent := Exchange(w, PostJob(w, adapter, headers, url, name, args));
    match sent.1
    case None => (sent.0, Err(ConnectionError(url)))
    case Some(resp) =>
      match RaiseForAuthorization(resp.status, loggedIn)
      case Some(e) => (sent.0, Err(e))
      case None =>
        match RaiseForStatus(resp.status)
        case Some(e) => (sent.0, Err(e))
        case None =>
          if "Location" !in resp.headers then (sent.0, Err(KeyError("Location")))
          else
            var location := Resolve(url, resp.headers["Location"]);
            var fetched := FetchJob(sent.0, adapter, headers, location);
            match fetched.1
            case Err(e) => (fetched.0, Err(e))
            case Ok(job) => (fetched.0, Ok(Created(location, job)))
  }

  /** The POST's response decides the outcome before any status check: a 401 to a
      session without a logged-in client is LoginRequired, any other 401 and every 403
      Forbidden, and then nothing more is requested. */
  lemma CreateChecksAuthorizationFirst(w: World, adapter: bool, headers: map<string, HeaderValue>, loggedIn: bool,
                                       url: string, name: string, args: Json)
    requires var q := Queue(w.server, Endpoint("POST", url)); q != [] && (q[0].status == 401 || q[0].status == 403)
    ensures var r := CreateOutcome(w, adapter, headers, loggedIn, url, name, args);
      var status := Queue(w.server, Endpoint("POST", url))[0].status;
      && |r.0.log| == |w.log| + 1
      && r.1 == Err(if status == 401 && !loggedIn then LoginRequired(401) else Forbidden(403))
  {
    var status := Queue(w.server, Endpoint("POST", url))[0].status;
    var a := RaiseForAuthorization(status, loggedIn);
    assert a.Some?;
  }

  /** create sends the POST first and, when it succeeds, exactly one more request: the
      GET of the resolved location. */
  lemma CreateRequests(w: World, adapter: bool, headers: map<string, HeaderValue>, loggedIn: bool,
                       url: string, name: string, args: Json)
    ensures var r := CreateOutcome(w, adapter, headers, loggedIn, url, name, args);
      && |r.0.log| > |w.log| && r.0.log[..|w.log|] == w.log
      && r.0.log[|w.log|] == PostJob(w, adapter, headers, url, name, args)
      && (r.1.Ok? ==> r.0.log == w.log + [PostJob(w, adapter, headers, url, name, args),
                                           GetRequest(adapter, headers, r.1.value.location)])
  {
    var post := PostJob(w, adapter, headers, url, name, args);
    var sent := Exchange(w, post);
    assert sent.0.log == w.log + [post];
    if sent.1.Some? {
      var resp := sent.1.value;
      if RaiseForAuthorization(resp.status, loggedIn).None? && RaiseForStatus(resp.status).None? && "Location" in resp.headers {
        var location := Resolve(url, resp.headers["Location"]);
        var fetched := FetchJob(sent.0, adapter, headers, location);
        assert fetched.0.log == w.log + [post, GetRequest(adapter, headers, location)];
      }
    }
  }

  /** A job as fetched: its URL and session, and the fields the service reports. */
  class Job {
    const url: string
    const session: Session
    var id: string
    var jobName: string
    var status: string
    var progress: int
    var message: Option<string>

    /** The fields of this job are those of the job body. */
    predicate Holds(body: Body)
      reads this
    {
      body.JobBody? && id == body.id && jobName == body.jobName && status == body.status &&
      progress == body.progress && message == body.message
    }

    constructor (url: string, session: Session, body: Body)
      requires body.JobBody?
      ensures this.url == url && this.session == session && Holds(body)
    {
      this.url := url;
      this.session := session;
      id := body.id;
      jobName := body.jobName;
      status := body.status;
      progress := body.progress;
      message := body.message;
    }

    /** JobResource.create. The source's session=None default is not modelled: every
        caller in the client passes its own session. */
    static method Create(url: string, name: string, args: Json, session: Session) returns (r: Result<Job>)
      modifies session`world
      ensures var o := CreateOutcome(old(session.world), session.refererAdapter, session.headers,
                                     old(session.IsLoggedIn()), url, name, args);
        && session.world == o.0
        && (r.Err? <==> o.1.Err?)
        && (r.Err? ==> r.error == o.1.error)
        && (r.Ok? ==> fresh(r.value) && r.value.url == o.1.value.location &&
                      r.value.session == session && r.value.Holds(o.1.value.job))
    {
      var post := session.Send("POST", url, JsonPayload(JobPayload(name, args)));
      match post
      case None => return Err(ConnectionError(url));
      case Some(resp) =>
        var denied := RaiseForAuthorization(resp.status, session.IsLoggedIn());
        if denied.Some? {
          return Err(denied.value);
        }
        var failed := RaiseForStatus(resp.status);
        if failed.Some? {
          return Err(failed.value);
        }
        if "Location" !in resp.headers {
          return Err(KeyError("Location"));
        }
        var location := Resolve(url, resp.headers["Location"]);
        var fetched := GetJob(session, location);
        match fetched
        case Err(e) => return Err(e);
        case Ok(body) =>
          var job := new Job(location, session, body);
          return Ok(job);
    }

    /** refresh(): fetch this job again and take over its status, progress and message;
        the id, the job name and the URL stay as they are. A failed fetch raises and
        changes no field. */
    method Refresh() returns (error: Option<Error>)
      modifies this`status, this`progress, this`message, session`world
      ensures var f := FetchJob(old(session.world), session.refererAdapter, session.headers, url);
        && session.world == f.0
        && (f.1.Err? ==> error == Some(f.1.error) &&
                         status == old(status) && progress == old(progress) && message == old(message))
        && (f.1.Ok? ==> error == None && status == f.1.value.status &&
                        progress == f.1.value.progress && message == f.1.value.message)
      ensures id == old(id) && jobName == old(jobName)
    {
      var fetched := GetJob(session, url);
      match fetched
      case Err(e) =>
        error := Some(e);
      case Ok(body) =>
        status, progress, message := body.status, body.progress, body.message;
        error := None;
    }

    /** join(): while the job is queued or running, sleep one second and refresh. Returns
        at once for a job that is settled already; stops with the error of a refresh
        that fails. */
    method Join() returns (error: Option<Error>)
      modifies this`status, this`progress, this`message, session`world
      ensures error.None? ==> !Active(status)
      ensures var o := JoinOutcome(old(status), old(progress), old(message), old(session.world),
                                   session.refererAdapter, session.headers, url);
        && session.world == o.world && error == o.error
        && status == o.status && progress == o.progress && message == o.message
    {
      ghost var adapter, headers := session.refererAdapter, session.headers;
      ghost var goal := JoinOutcome(status, progress, message, session.world, adapter, headers, url);
      while Active(status)
        invariant session.refererAdapter == adapter && session.headers == headers
        invariant JoinOutcome(status, progress, message, session.world, adapter, headers, url) == goal
        decreases |Queue(session.world.server, Endpoint("GET", url))|
      {
        error := Poll();
        if error.Some? {
          return;
        }
      }
      error := None;
    }

    /** One round of join's loop, time.sleep(1) then refresh(): join from the job as it
        was ends as join from the job as the round leaves it, or, when the refresh fails,
        with the state the round leaves. Each round that goes on uses up one answer of
        the job's URL. */
    method Poll() returns (error: Option<Error>)
      requires Active(status)
      modifies this`status, this`progress, this`message, session`world
      ensures var before := JoinOutcome(old(status), old(progress), old(message), old(session.world),
                                        session.refererAdapter, session.headers, url);
        && (error.Some? ==> before == Joined(session.world, status, progress, message, error))
        && (error.None? ==> before == JoinOutcome(status, progress, message, session.world, session.refererAdapter, session.headers, url))
      ensures error.None? ==>
        |Queue(session.world.server, Endpoint("GET", url))| < |Queue(old(session.world).server, Endpoint("GET", url))|
    {
      ghost var adapter, headers := session.refererAdapter, session.headers;
      ghost var w := session.world;
      JoinStep(status, progress, message, w, adapter, headers, url);
      ghost var f := FetchJob(w.(sleeps := w.sleeps + 1), adapter, headers, url);
      session.Sleep();
      error := Refresh();
      assert session.world == f.0;
    }
  }

  /** The state join leaves: the world, the job's fields and the error it stopped on. */
  datatype Joined = Joined(world: World, status: string, progress: int, message: Option<string>, error: Option<Error>)

  /** join run from a job with the given fields: nothing while the job is settled,
      otherwise rounds until a fetch fails or reports a settled job. */
  function JoinOutcome(status: string, progress: int, message: Option<string>, w: World,
                       adapter: bool, headers: map<string, HeaderValue>, url: string): (r: Joined)
    ensures r.error.None? ==> !Active(r.status)
    ensures !Active(status) ==> r == Joined(w, status, progress, message, None)
    ensures r.world.sleeps >= w.sleeps && r.world.server.Keys == w.server.Keys
    ensures r.world.log == w.log + Repeat(GetRequest(adapter, headers, url), r.world.sleeps - w.sleeps)
    decreases |Queue(w.server, Endpoint("GET", url))|, 2
  {
    if !Active(status) then
      assert w.log + Repeat(GetRequest(adapter, headers, url), 0) == w.log;
      Joined(w, status, progress, message, None)
    else
      RoundLog(status, progress, message, w, adapter, headers, url);
      JoinRoundOutcome(status, progress, message, w, adapter, headers, url)
  }

  /** One round of join and the rest of it: sleep once, fetch the job once; a fetch that
      fails ends the join with that error and the fields unchanged, a fetched job goes on
      as join from that job. Every round adds one sleep and one GET of the job's URL. */
  function JoinRoundOutcome(status: string, progress: int, message: Option<string>, w: World,
                            adapter: bool, headers: map<string, HeaderValue>, url: string): (r: Joined)
    ensures r.error.None? ==> !Active(r.status)
    ensures r.world.sleeps > w.sleeps && r.world.server.Keys == w.server.Keys
    decreases |Queue(w.server, Endpoint("GET", url))|, 0
  {
    var f := FetchJob(Slept(w), adapter, headers, url);
    if f.1.Err? then Joined(f.0, status, progress, message, Some(f.1.error))
    else JoinOutcome(f.1.value.status, f.1.value.progress, f.1.value.message, f.0, adapter, headers, url)
  }

  /** Every round of join adds one GET of the job's URL to the log for each sleep. */
  lemma {:induction false} RoundLog(status: string, progress: int, message: Option<string>, w: World,
                                    adapter: bool, headers: map<string, HeaderValue>, url: string)
    ensures var r := JoinRoundOutcome(status, progress, message, w, adapter, headers, url);
      r.world.log == w.log + Repeat(GetRequest(adapter, headers, url), r.world.sleeps - w.sleeps)
    decreases |Queue(w.server, Endpoint("GET", url))|, 1
  {
    var get := GetRequest(adapter, headers, url);
    var f := FetchJob(Slept(w), adapter, headers, url);
    if f.1.Err? {
      assert Repeat(get, 1) == [get];
    } else {
      var r := JoinOutcome(f.1.value.status, f.1.value.progress, f.1.value.message, f.0, adapter, headers, url);
      RepeatFront(w.log, get, r.world.sleeps - f.0.sleeps);
    }
  }

  /** One round of join from an active job: sleep, fetch, and go on from the job fetched,
      or stop with the fields unchanged when the fetch fails. */
  lemma JoinStep(status: string, progress: int, message: Option<string>, w: World,
                 adapter: bool, headers: map<string, HeaderValue>, url: string)
    requires Active(status)
    ensures var f := FetchJob(w.(sleeps := w.sleeps + 1), adapter, headers, url);
      && (f.1.Err? ==> JoinOutcome(status, progress, message, w, adapter, headers, url) ==
                       Joined(f.0, status, progress, message, Some(f.1.error)))
      && (f.1.Ok? ==> JoinOutcome(status, progress, message, w, adapter, headers, url) ==
                      JoinOutcome(f.1.value.status, f.1.value.progress, f.1.value.message, f.0, adapter, headers, url))
  {
  }

  /** JoinStep with the world the round leaves and the fetch's outcome named: one more GET
      in the log, one more sleep, and on success a shorter queue for the job's URL. */
  lemma JoinNext(status: string, progress: int, message: Option<string>, w: World,
                 adapter: bool, headers: map<string, HeaderValue>, url: string)
    returns (w': World, fetched: Result<Body>)
    requires Active(status)
    ensures w'.log == w.log + [GetRequest(adapter, headers, url)] && w'.sleeps == w.sleeps + 1
    ensures fetched.Err? ==> (!fetched.error.DatasetImportError? &&
      JoinOutcome(status, progress, message, w, adapter, headers, url) == Joined(w', status, progress, message, Some(fetched.error)))
    ensures fetched.Ok? ==> (fetched.value.JobBody? &&
      JoinOutcome(status, progress, message, w, adapter, headers, url) ==
      JoinOutcome(fetched.value.status, fetched.value.progress, fetched.value.message, w', adapter, headers, url))
    ensures fetched.Ok? ==> |Queue(w'.server, Endpoint("GET", url))| < |Queue(w.server, Endpoint("GET", url))|
  {
    JoinStep(status, progress, message, w, adapter, headers, url);
    var f := FetchJob(w.(sleeps := w.sleeps + 1), adapter, headers, url);
    w', fetched := f.0, f.1;
  }

  /** A join that stops on an error stops on the error of a job fetch. */
  lemma {:induction false} JoinErrors(status: string, progress: int, message: Option<string>, w: World,
                                      adapter: bool, headers: map<string, HeaderValue>, url: string)
    ensures var r := JoinOutcome(status, progress, message, w, adapter, headers, url);
      r.error.Some? ==> !r.error.value.DatasetImportError?
    decreases |Queue(w.server, Endpoint("GET", url))|
  {
    if Active(status) {
      var w', fetched := JoinNext(status, progress, message, w, adapter, headers, url);
      if fetched.Ok? {
        JoinErrors(fetched.value.status, fetched.value.progress, fetched.value.message, w', adapter, headers, url);
      }
    }
  }

  /** n copies of x. */
  function Repeat<T>(x: T, n: nat): (r: seq<T>)
    ensures |r| == n
  {
    if n == 0 then [] else [x] + Repeat(x, n - 1)
  }

  /** The world after time.sleep(1). */
  function Slept(w: World): (r: World)
    ensures r.server == w.server && r.log == w.log && r.sleeps == w.sleeps + 1
  {
    w.(sleeps := w.sleeps + 1)
  }

  /** One more copy in front of a run of copies. */
  lemma RepeatFront<T>(log: seq<T>, x: T, n: nat)
    ensures (log + [x]) + Repeat(x, n) == log + Repeat(x, n + 1)
  {
    assert Repeat(x, n + 1) == [x] + Repeat(x, n);
  }

  /** The job body the service reports for `status`, every other field kept. */
  function WithStatus(job: Body, status: string): Body
    requires job.JobBody?
  {
    job.(status := status)
  }

  function Ok200(body: Body): Response {
    Response(200, map[], map[], body)
  }

  /** A fetch of a job URL whose next response is a 200 with a job takes that job off
      the queue. */
  lemma FetchQueued(w: World, adapter: bool, headers: map<string, HeaderValue>, url: string, job: Body, rest: seq<Response>)
    requires job.JobBody? && Queue(w.server, Endpoint("GET", url)) == [Ok200(job)] + rest
    ensures var f := FetchJob(w, adapter, headers, url);
      f.1 == Ok(job) && Queue(f.0.server, Endpoint("GET", url)) == rest && f.0.sleeps == w.sleeps
  {
    assert ([Ok200(job)] + rest)[1..] == rest;
  }

  /** One round of join from an active job whose URL answers with `next`: the join goes on
      from `next` in the world after one sleep and one fetch, with `rest` left queued. */
  lemma JoinRound(status: string, progress: int, message: Option<string>, w: World,
                  adapter: bool, headers: map<string, HeaderValue>, url: string, next: Body, rest: seq<Response>)
    returns (w': World)
    requires Active(status) && next.JobBody?
    requires Queue(w.server, Endpoint("GET", url)) == [Ok200(next)] + rest
    ensures JoinOutcome(status, progress, message, w, adapter, headers, url) ==
            JoinOutcome(next.status, next.progress, next.message, w', adapter, headers, url)
    ensures w'.log == w.log + [GetRequest(adapter, headers, url)] && w'.sleeps == w.sleeps + 1
    ensures Queue(w'.server, Endpoint("GET", url)) == rest
  {
    JoinStep(status, progress, message, w, adapter, headers, url);
    FetchQueued(w.(sleeps := w.sleeps + 1), adapter, headers, url, next, rest);
    w' := FetchJob(w.(sleeps := w.sleeps + 1), adapter, headers, url).0;
  }

  /** The responses of a job URL that reports the states of `script` in turn. */
  function Answers(script: seq<Body>): (r: seq<Response>)
    ensures |r| == |script| && forall i :: 0 <= i < |script| ==> r[i] == Ok200(script[i])
  {
    seq(|script|, i requires 0 <= i < |script| => Ok200(script[i]))
  }

  /** A script of job states that join runs through to its end: each one a job, every
      one but the last still active. */
  predicate Settles(script: seq<Body>) {
    && |script| > 0
    && (forall i :: 0 <= i < |script| ==> script[i].JobBody?)
    && (forall i :: 0 <= i < |script| - 1 ==> Active(script[i].status))
    && !Active(script[|script| - 1].status)
  }

  /** What is left of a settling script after its first state settles too. */
  lemma SettlesTail(script: seq<Body>)
    requires Settles(script) && |script| > 1
    ensures Settles(script[1..]) && script[1..][|script| - 2] == script[|script| - 1]
  {
    var rest := script[1..];
    forall i | 0 <= i < |rest| - 1 ensures Active(rest[i].status) {
      assert rest[i] == script[i + 1];
    }
  }

  /** One more copy of x after a prefix, in front of n copies. */
  lemma AppendRepeat<T>(prefix: seq<T>, x: T, n: nat)
    ensures (prefix + [x]) + Repeat(x, n) == prefix + Repeat(x, n + 1)
  {
    assert Repeat(x, n + 1) == [x] + Repeat(x, n);
  }

  /** join from an active job whose URL reports the states of a settling script takes one
      round per state: as many sleeps and GETs as the script is long, no error, and the
      job's fields are those of the last state. */
  lemma {:induction false} JoinScripted(status: string, progress: int, message: Option<string>, w: World,
                                        adapter: bool, headers: map<string, HeaderValue>, url: string,
                                        script: seq<Body>)
    requires Active(status) && Settles(script)
    requires Queue(w.server, Endpoint("GET", url)) == Answers(script)
    ensures var r := JoinOutcome(status, progress, message, w, adapter, headers, url);
      var last := script[|script| - 1];
      && r.error == None && r.status == last.status && r.progress == last.progress && r.message == last.message
      && r.world.sleeps == w.sleeps + |script|
      && r.world.log == w.log + Repeat(GetRequest(adapter, headers, url), |script|)
    decreases |script|
  {
    var get := GetRequest(adapter, headers, url);
    assert Answers(script) == [Ok200(script[0])] + Answers(script[1..]);
    var w' := JoinRound(status, progress, message, w, adapter, headers, url, script[0], Answers(script[1..]));
    if |script| == 1 {
      assert Repeat(get, 1) == [get];
    } else {
      var rest := script[1..];
      SettlesTail(script);
      JoinScripted(script[0].status, script[0].progress, script[0].message, w', adapter, headers, url, rest);
      RepeatFront(w.log, get, |rest|);
    }
  }

  /** The scripted join: a queued job whose URL answers queued, queued, then succeeded is
      settled as succeeded after three sleeps and three fetches. */
  lemma JoinThreeRounds(job: Body, w: World, adapter: bool, headers: map<string, HeaderValue>, url: string)
    requires job.JobBody? && job.status == "queued"
    requires Queue(w.server, Endpoint("GET", url)) ==
      [Ok200(job), Ok200(job), Ok200(WithStatus(job, "succeeded"))]
    ensures var r := JoinOutcome(job.status, job.progress, job.message, w, adapter, headers, url);
      && r.error == None && r.status == "succeeded"
      && r.world.sleeps == w.sleeps + 3
      && r.world.log == w.log + [GetRequest(adapter, headers, url), GetRequest(adapter, headers, url), GetRequest(adapter, headers, url)]
  {
    var script := [job, job, WithStatus(job, "succeeded")];
    var get := GetRequest(adapter, headers, url);
    assert Answers(script) == [Ok200(job), Ok200(job), Ok200(WithStatus(job, "succeeded"))];
    JoinScripted(job.status, job.progress, job.message, w, adapter, headers, url, script);
    assert Repeat(get, 3) == [get, get, get] by {
      assert Repeat(get, 3) == [get] + Repeat(get, 2);
      assert Repeat(get, 2) == [get] + Repeat(get, 1);
    }
  }
}
