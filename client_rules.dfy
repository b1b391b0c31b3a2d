/** The pure rules of databasin/client.py: the URLs the client builds, the strings the
    import workflows take apart, the archive checks, and the structure of the API-key
    headers. Clock, randomness, hashing, encoding and JSON parsing are parameters. */
module ClientRules {
  import opened Text
  import opened Urls
  import opened Transport

  const DEFAULT_HOST: string := "databasin.org"
  const DATASET_LIST_PATH: string := "/api/v1/datasets/"
  const JOB_CREATE_PATH: string := "/api/v1/jobs/"
  const TEMPORARY_FILE_UPLOAD_PATH: string := "/uploads/upload-temporary-file/"

  function DatasetDetailPath(id: string): string {
    "/api/v1/datasets/" + id + "/"
  }

  function DatasetImportDetailPath(id: string): string {
    "/api/v1/dataset_imports/" + id + "/"
  }

  function MetadataFileUploadPath(id: string): string {
    "/datasets/" + id + "/import/metadata/"
  }

  /** Client.base_url for a host. */
  function BaseUrl(host: string): string {
    "https://" + host
  }

  /** build_url: urljoin of the base URL with a server-absolute path, which replaces the
      base's (empty) path. */
  function BuildUrl(base: string, path: string): string {
    base + path
  }

  /** Every URL the client builds from a host and a path is on https and that host. */
  lemma BuildUrlOrigin(host: string, path: string)
    requires IsHost(host) && IsTail(path)
    ensures Scheme(BuildUrl(BaseUrl(host), path)) == "https"
    ensures Netloc(BuildUrl(BaseUrl(host), path)) == host
    ensures Origin(BuildUrl(BaseUrl(host), path)) == BaseUrl(host)
  {
    assert IsScheme("https");
    assert BuildUrl(BaseUrl(host), path) == "https" + "://" + host + path;
    OriginOfAbsolute("https", host, path);
  }

  predicate IsSlash(c: char) {
    c == '/'
  }

  /** DATASET_IMPORT_ID_RE.search(uri).group(1): the text after the first "/import/" up
      to the next '/' or the end; no match when "/import/" does not occur. */
  function ImportId(uri: string): (r: Option<string>)
    ensures r.Some? <==> Contains(uri, "/import/")
    ensures r.Some? ==> && Free(r.value, '/')
                        && var i := Find(uri, "/import/", 0).value;
                           var end := i + 8 + |r.value|;
                           && OccursAt(uri, "/import/" + r.value, i)
                           && (end == |uri| || uri[end] == '/')
  {
    match Find(uri, "/import/", 0)
    case None => None
    case Some(i) =>
      var end := FirstWhere(uri, i + 8, IsSlash);
      var id := uri[i + 8..end];
      assert uri[i..end] == uri[i..i + 8] + id;
      Some(id)
  }

  const EXAMPLE_IMPORT_URI := "/datasets/import/a1b2c3/overview/"

  /** The id of an import is read from its overview page's address. */
  lemma ImportIdExample()
    ensures ImportId(EXAMPLE_IMPORT_URI) == Some("a1b2c3")
  {
    ExampleMarker();
    ExampleId();
  }

  lemma ExampleMarker()
    ensures Find(EXAMPLE_IMPORT_URI, "/import/", 0) == Some(9)
  {
    var uri := EXAMPLE_IMPORT_URI;
    var marker := "/import/";
    assert forall i :: 0 <= i < 8 ==> uri[9 + i] == marker[i];
    assert uri[9..17] == marker;
    forall j | 0 <= j < 9 ensures !OccursAt(uri, marker, j) {
      assert uri[j] != '/' || uri[j + 1] != 'i';
      assert uri[j..j + 8][0] == uri[j] && uri[j..j + 8][1] == uri[j + 1];
    }
  }

  lemma ExampleId()
    ensures FirstWhere(EXAMPLE_IMPORT_URI, 17, IsSlash) == 23
    ensures EXAMPLE_IMPORT_URI[17..23] == "a1b2c3"
  {
    var uri := EXAMPLE_IMPORT_URI;
    assert IsSlash(uri[23]);
    assert forall i :: 17 <= i < 23 ==> !IsSlash(uri[i]);
    var id := "a1b2c3";
    assert forall i :: 0 <= i < 6 ==> uri[17 + i] == id[i];
  }

  /** next_uri.strip('/').split('/')[-1]: the last path segment. */
  function LastSegment(uri: string): (r: string)
    ensures Free(r, '/')
  {
    Basename(Strip(uri, '/'))
  }

  /** The last segment of a rooted path made of non-empty segments, with or without a
      trailing '/', is its last segment. */
  lemma LastSegmentOf(segments: seq<string>)
    requires |segments| >= 1
    requires forall k :: 0 <= k < |segments| ==> segments[k] != [] && Free(segments[k], '/')
    ensures var path := Join(segments, '/');
      LastSegment("/" + path) == Last(segments) && LastSegment("/" + path + "/") == Last(segments)
  {
    var path := Join(segments, '/');
    JoinSplit(segments, '/');
    JoinEndsWith(segments, '/');
    var last := Last(segments);
    assert path[|path| - |last|..] == last;
    assert path[|path| - 1] == last[|last| - 1];
    if |segments| > 1 {
      assert path == segments[0] + ['/'] + Join(segments[1..], '/');
    }
    assert path[0] == segments[0][0];
    StripRooted(path);
    assert Basename(path) == Last(Split(path, '/'));
  }

  /** Stripping the '/' around a path that neither starts nor ends with '/'. */
  lemma StripRooted(path: string)
    requires path != [] && path[0] != '/' && path[|path| - 1] != '/'
    ensures Strip("/" + path, '/') == path && Strip("/" + path + "/", '/') == path
  {
    StripLeftOne(path);
    var p := path + "/";
    assert p[0] == path[0];
    StripLeftOne(p);
    assert "/" + path + "/" == "/" + p;
    StripRightOne(path);
    assert Strip("/" + path, '/') == StripRight(path, '/');
    assert Strip("/" + p, '/') == StripRight(p, '/');
  }

  lemma StripLeftOne(s: string)
    requires s != [] && s[0] != '/'
    ensures StripLeft("/" + s, '/') == s
  {
    assert ("/" + s)[1..] == s;
  }

  lemma StripRightOne(s: string)
    requires s != [] && s[|s| - 1] != '/'
    ensures StripRight(s + "/", '/') == s && StripRight(s, '/') == s
  {
    assert (s + "/")[..|s|] == s;
  }

  /** A join ends with its last piece. */
  lemma {:induction false} JoinEndsWith(parts: seq<string>, sep: char)
    requires |parts| >= 1
    ensures EndsWith(Join(parts, sep), Last(parts))
    decreases |parts|
  {
    if |parts| > 1 {
      JoinEndsWith(parts[1..], sep);
      assert Last(parts[1..]) == Last(parts);
      var tail := Join(parts[1..], sep);
      var whole := Join(parts, sep);
      assert whole == parts[0] + [sep] + tail;
      assert whole[|whole| - |tail|..] == tail;
    }
  }

  /** job.message.split("/")[-2]: the second-to-last piece of the message; a message with
      no '/' has one piece and fails with IndexError, a missing message has no split. */
  function SecondLast(message: Option<string>): (r: Result<string>)
    ensures r.Ok? ==> Free(r.value, '/')
    ensures message.Some? ==> (r == Err(IndexError) <==> Free(message.value, '/'))
  {
    match message
    case None => Err(AttributeError("split"))
    case Some(m) =>
      var parts := Split(m, '/');
      SplitJoin(m, '/');
      if |parts| < 2 then
        assert Free(m, '/') by { assert m == parts[0]; }
        Err(IndexError)
      else
        assert !Free(m, '/') by { SplitCount(m); }
        Ok(parts[|parts| - 2])
  }

  /** A string splits into more than one piece exactly when it holds the separator. */
  lemma {:induction false} SplitCount(s: string)
    ensures |Split(s, '/')| > 1 <==> !Free(s, '/')
    decreases |s|
  {
    if s != [] {
      SplitCount(s[1..]);
      if s[0] != '/' {
        assert !Free(s[1..], '/') <==> !Free(s, '/') by {
          if !Free(s, '/') {
            var i :| 0 <= i < |s| && s[i] == '/';
            assert s[1..][i - 1] == '/';
          }
        }
      }
    }
  }

  /** A message that is a path ending in "/<id>/" names <id>. */
  lemma SecondLastOfPath(parts: seq<string>)
    requires |parts| >= 2 && forall k :: 0 <= k < |parts| ==> Free(parts[k], '/')
    ensures SecondLast(Some(Join(parts, '/'))) == Ok(parts[|parts| - 2])
  {
    var m := Join(parts, '/');
    JoinSplit(parts, '/');
    assert |Split(m, '/')| >= 2;
  }

  /** '{0}.zip'.format(os.path.splitext(os.path.basename(path))[0]) */
  function ZipName(path: string): (r: string)
    ensures EndsWith(r, ".zip") && Free(r, '/')
  {
    var root := SplitextRoot(Basename(path));
    RootFree(Basename(path));
    root + ".zip"
  }

  lemma RootFree(name: string)
    requires Free(name, '/')
    ensures Free(SplitextRoot(name), '/')
  {
    match RFind(name, '.')
    case None =>
    case Some(d) =>
      forall j | 0 <= j < d ensures name[..d][j] != '/' {
        assert name[..d][j] == name[j];
      }
  }

  /** A data file named stem + extension, in any directory, is uploaded as stem.zip. */
  lemma ZipNameOf(dir: string, stem: string, ext: string)
    requires Free(stem, '/') && Free(ext, '/')
    requires |ext| >= 1 && ext[0] == '.' && Free(ext[1..], '.') && !AllDots(stem)
    requires dir == [] || dir[|dir| - 1] == '/'
    ensures ZipName(dir + stem + ext) == stem + ".zip"
  {
    var name := stem + ext;
    assert dir + stem + ext == dir + name;
    assert Free(name, '/');
    BasenameOfName(dir, name);
    SplitextOfExtension(stem, ext);
  }

  /** The base name of dir/name, for a name without '/', is the name. */
  lemma BasenameOfName(dir: string, name: string)
    requires Free(name, '/') && (dir == [] || dir[|dir| - 1] == '/')
    ensures Basename(dir + name) == name
  {
    SplitOfFree(name, '/');
    if dir != [] {
      var d := dir[..|dir| - 1];
      assert dir + name == d + ['/'] + name;
      SplitConcat(d, name, '/');
    }
  }

  /** A string without the separator is one piece. */
  lemma {:induction false} SplitOfFree(s: string, sep: char)
    requires Free(s, sep)
    ensures Split(s, sep) == [s]
    decreases |s|
  {
    if s != [] {
      SplitOfFree(s[1..], sep);
      assert s == [s[0]] + s[1..];
    }
  }

  /** Splitting at a separator splits the two sides apart. */
  lemma {:induction false} SplitConcat(a: string, b: string, sep: char)
    ensures Split(a + [sep] + b, sep) == Split(a, sep) + Split(b, sep)
    decreases |a|
  {
    if a == [] {
      assert a + [sep] + b == [sep] + b;
      SplitCons(sep, b, sep);
    } else {
      var t := a[1..] + [sep] + b;
      assert a + [sep] + b == [a[0]] + t;
      assert a == [a[0]] + a[1..];
      SplitConcat(a[1..], b, sep);
      SplitCons(a[0], t, sep);
      SplitCons(a[0], a[1..], sep);
      SplitPrepend(a[0], Split(a[1..], sep), Split(b, sep), sep);
    }
  }

  /** One step of Split: a leading separator starts a new piece, any other character
      joins the first piece. */
  lemma SplitCons(c: char, t: string, sep: char)
    ensures Split([c] + t, sep) == Prepend(c, Split(t, sep), sep)
  {
    assert ([c] + t)[1..] == t;
  }

  function Prepend(c: char, parts: seq<string>, sep: char): seq<string>
    requires |parts| >= 1
  {
    if c == sep then [[]] + parts else [[c] + parts[0]] + parts[1..]
  }

  lemma SplitPrepend(c: char, front: seq<string>, back: seq<string>, sep: char)
    requires |front| >= 1
    ensures Prepend(c, front + back, sep) == Prepend(c, front, sep) + back
  {
    if c != sep {
      assert (front + back)[0] == front[0];
      assert (front + back)[1..] == front[1..] + back;
    }
  }

  /** any(name.endswith('style.json') for name in namelist) */
  predicate HasStyleEntry(entries: seq<string>) {
    exists i :: 0 <= i < |entries| && EndsWith(entries[i], "style.json")
  }

  /** A query's parameters in insertion order, as a Python dict keeps them. */
  type Filters = seq<(string, string)>

  predicate HasKey(filters: Filters, key: string) {
    exists i :: 0 <= i < |filters| && filters[i].0 == key
  }

  /** filters[key] = value: replaces the value in place, or appends a new parameter. */
  function SetFilter(filters: Filters, key: string, value: string): (r: Filters)
    ensures HasKey(filters, key) ==> |r| == |filters|
    ensures !HasKey(filters, key) ==> r == filters + [(key, value)]
    ensures forall i :: 0 <= i < |filters| ==> r[i].0 == filters[i].0
    ensures forall i :: 0 <= i < |filters| ==> r[i].1 == (if filters[i].0 == key then value else filters[i].1)
  {
    if HasKey(filters, key) then Replace(filters, key, value) else filters + [(key, value)]
  }

  function Replace(filters: Filters, key: string, value: string): (r: Filters)
    ensures |r| == |filters|
    ensures forall i :: 0 <= i < |filters| ==> r[i] == (filters[i].0, if filters[i].0 == key then value else filters[i].1)
  {
    seq(|filters|, i requires 0 <= i < |filters| => (filters[i].0, if filters[i].0 == key then value else filters[i].1))
  }

  /** urlencode(filters): key=value pairs, each side quote_plus-ed, joined by '&'. */
  function UrlEncode(filters: Filters): string
    decreases |filters|
  {
    if filters == [] then ""
    else
      var pair := QuotePlus(filters[0].0) + "=" + QuotePlus(filters[0].1);
      if |filters| == 1 then pair else pair + "&" + UrlEncode(filters[1..])
  }

  /** The URL list_datasets fetches first. */
  function ListDatasetsUrl(base: string, filters: Filters, itemsPerPage: int): string {
    BuildUrl(base, DATASET_LIST_PATH) + "?" + UrlEncode(SetFilter(filters, "limit", DecimalString(itemsPerPage)))
  }

  /** The filters list_my_datasets passes on: the caller's, owned by the user. */
  function MyFilters(filters: Filters, username: string): Filters {
    SetFilter(filters, "owner_id", username)
  }

  /** With no filters of the caller's, the user's datasets are asked for by owner and
      page size, in that order. */
  lemma MyDatasetsQuery(base: string, username: string, itemsPerPage: int)
    ensures ListDatasetsUrl(base, MyFilters([], username), itemsPerPage) ==
      base + DATASET_LIST_PATH + "?" + ("owner_id" + "=" + QuotePlus(username)) + "&" + ("limit" + "=" + QuotePlus(DecimalString(itemsPerPage)))
  {
    var limit := DecimalString(itemsPerPage);
    MyFiltersAlone(username, limit);
    UrlEncodeTwo("owner_id", username, "limit", limit);
    QuotePlusNames();
    QueryShape(base + DATASET_LIST_PATH, "owner_id", QuotePlus(username), "limit", QuotePlus(limit));
  }

  lemma QuotePlusNames()
    ensures QuotePlus("owner_id") == "owner_id" && QuotePlus("limit") == "limit"
  {
    QuotePlusName("owner_id");
    QuotePlusName("limit");
  }

  lemma QueryShape(prefix: string, k1: string, v1: string, k2: string, v2: string)
    ensures prefix + "?" + (k1 + "=" + v1 + "&" + (k2 + "=" + v2)) == prefix + "?" + (k1 + "=" + v1) + "&" + (k2 + "=" + v2)
  {
  }

  lemma MyFiltersAlone(username: string, limit: string)
    ensures SetFilter(MyFilters([], username), "limit", limit) == [("owner_id", username), ("limit", limit)]
  {
    var f := MyFilters([], username);
    assert f == [("owner_id", username)];
    assert !HasKey(f, "limit");
  }

  lemma UrlEncodeTwo(k1: string, v1: string, k2: string, v2: string)
    ensures UrlEncode([(k1, v1), (k2, v2)]) == QuotePlus(k1) + "=" + QuotePlus(v1) + "&" + (QuotePlus(k2) + "=" + QuotePlus(v2))
  {
    assert [(k1, v1), (k2, v2)][1..] == [(k2, v2)];
  }

  /** quote_plus keeps a name made of unreserved characters. */
  lemma QuotePlusName(s: string)
    requires forall i :: 0 <= i < |s| ==> IsUnreserved(s[i])
    ensures QuotePlus(s) == s
  {
    QuotePlusShape(s);
  }

  /** The value `data['next_uri']` of a parsed job message; a body that is not an object
      fails as subscripting would, one without the key with KeyError. */
  function NextUri(data: Json): (r: Result<string>)
    ensures r.Ok? <==> data.JObj? && "next_uri" in data.fields && data.fields["next_uri"].JStr?
  {
    if !data.JObj? then Err(TypeError)
    else if "next_uri" !in data.fields then Err(KeyError("next_uri"))
    else match data.fields["next_uri"]
      case JStr(s) => Ok(s)
      case _ => Err(TypeError)
  }

  /** The service-side effects update_headers depends on and the model does not compute:
      the clock and the random source, indexed by how many signatures came before, the
      digests, the encoding, and JSON parsing (None: not JSON). */
  datatype Env = Env(
    now: nat -> seq<byte>,
    draw: (nat, nat) -> nat,
    sha1: seq<byte> -> seq<byte>,
    hmacSha1: (seq<byte>, seq<byte>) -> seq<byte>,
    b64url: seq<byte> -> seq<byte>,
    parseJson: string -> Option<Json>)

  const COLON: byte := 58

  /** string.ascii_letters[n], as a byte: the lower-case letters, then the upper-case. */
  function Letter(n: nat): (b: byte)
    requires n < 52
    ensures IsAsciiLetter(b as char)
  {
    if n < 26 then 97 + n else 65 + (n - 26)
  }

  /** The salt of the k-th signature: ten letters chosen at random. */
  function Salt(env: Env, k: nat): (r: seq<byte>)
    ensures |r| == 10 && forall i :: 0 <= i < 10 ==> r[i] == Letter(env.draw(k, i) % 52)
  {
    Letters(env, k, 10)
  }

  /** The first n letters of the k-th salt. */
  function Letters(env: Env, k: nat, n: nat): (r: seq<byte>)
    ensures |r| == n && forall i :: 0 <= i < n ==> r[i] == Letter(env.draw(k, i) % 52)
  {
    if n == 0 then [] else Letters(env, k, n - 1) + [Letter(env.draw(k, n - 1) % 52)]
  }

  /** The k-th x-api-signature: salt ':' base64url(HMAC-SHA1(SHA1(salt + key), time)). */
  function Signature(env: Env, k: nat, key: seq<byte>): seq<byte> {
    var salt := Salt(env, k);
    salt + [COLON] + env.b64url(env.hmacSha1(env.sha1(salt + key), env.now(k)))
  }

  /** A server splitting the signature at its first ':' gets the salt and the MAC back. */
  lemma SignatureSplits(env: Env, k: nat, key: seq<byte>)
    ensures var s := Signature(env, k, key);
      var salt := Salt(env, k);
      && |s| > 10 && s[10] == COLON && (forall j :: 0 <= j < 10 ==> s[j] != COLON)
      && s[..10] == salt
      && s[11..] == env.b64url(env.hmacSha1(env.sha1(salt + key), env.now(k)))
  {
    var s := Signature(env, k, key);
    forall j | 0 <= j < 10 ensures s[j] != COLON {
      assert s[j] == Letter(env.draw(k, j) % 52);
    }
  }

  const API_USER: string := "x-api-user"
  const API_TIME: string := "x-api-time"
  const API_SIGNATURE: string := "x-api-signature"

  /** The three API headers are all present or all absent. */
  predicate AllOrNone(headers: map<string, HeaderValue>) {
    (API_USER in headers <==> API_TIME in headers) && (API_TIME in headers <==> API_SIGNATURE in headers)
  }

  /** update_headers with a key: the user, the time and the k-th signature. */
  function Signed(headers: map<string, HeaderValue>, username: string, env: Env, k: nat, key: seq<byte>): (r: map<string, HeaderValue>)
    ensures AllOrNone(r) && API_USER in r
    ensures r[API_USER] == Text(username) && r[API_TIME] == Raw(env.now(k)) && r[API_SIGNATURE] == Raw(Signature(env, k, key))
    ensures forall h :: h in headers && h !in {API_USER, API_TIME, API_SIGNATURE} ==> h in r && r[h] == headers[h]
    ensures r.Keys == headers.Keys + {API_USER, API_TIME, API_SIGNATURE}
  {
    headers[API_USER := Text(username)][API_TIME := Raw(env.now(k))][API_SIGNATURE := Raw(Signature(env, k, key))]
  }

  /** update_headers without a key, as written: the three headers are deleted in turn,
      and the first one missing stops the deletions (the KeyError is swallowed). */
  function Unsigned(headers: map<string, HeaderValue>): map<string, HeaderValue> {
    if API_USER !in headers then headers
    else
      var h1 := headers - {API_USER};
      if API_TIME !in h1 then h1
      else
        var h2 := h1 - {API_TIME};
        if API_SIGNATURE !in h2 then h2 else h2 - {API_SIGNATURE}
  }

  /** On headers that keep the all-or-none rule, as every update keeps it, the deletions
      remove exactly the three API headers. */
  lemma UnsignedRemovesAll(headers: map<string, HeaderValue>)
    requires AllOrNone(headers)
    ensures Unsigned(headers) == headers - {API_USER, API_TIME, API_SIGNATURE}
    ensures AllOrNone(Unsigned(headers)) && API_USER !in Unsigned(headers)
  {
    if API_USER in headers {
      assert API_TIME in headers - {API_USER};
      assert API_SIGNATURE in headers - {API_USER} - {API_TIME};
      assert headers - {API_USER} - {API_TIME} - {API_SIGNATURE} == headers - {API_USER, API_TIME, API_SIGNATURE};
    } else {
      assert headers - {API_USER, API_TIME, API_SIGNATURE} == headers;
    }
  }

  /** The stored API key: text is encoded to UTF-8, bytes are kept. */
  datatype KeyArg = TextKey(text: string) | BytesKey(bytes: seq<byte>)

  function KeyBytes(key: KeyArg): seq<byte> {
    match key
    case TextKey(s) => Utf8(s)
    case BytesKey(b) => b
  }

  /** set_api_key's check: a key needs a user. */
  function CheckApiKey(username: Option<string>, key: Option<KeyArg>): (r: Option<Error>)
    ensures r.Some? <==> username.None? && key.Some?
  {
    if username.None? && key.Some? then Some(ValueError("A user is required with API keys")) else None
  }
}
