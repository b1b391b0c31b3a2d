/** The part of Python 3's urllib.parse.urlparse the client uses: the scheme, the
    network location and the path of a URL, and the `scheme://netloc` prefix that
    utils.py, jobs.py and uploads.py build new URLs from. */
module Urls {
  import opened Text

  predicate IsSchemeChar(c: char) {
    IsAsciiLetter(c) || IsDigit(c) || c == '+' || c == '-' || c == '.'
  }

  /** The first index at or after `from` whose character satisfies `stop`, or |s|. */
  function FirstWhere(s: string, from: nat, stop: char -> bool): (r: nat)
    requires from <= |s|
    ensures from <= r <= |s|
    ensures forall j :: from <= j < r ==> !stop(s[j])
    ensures r < |s| ==> stop(s[r])
    decreases |s| - from
  {
    if from == |s| || stop(s[from]) then from else FirstWhere(s, from + 1, stop)
  }

  predicate EndsNetloc(c: char) {
    c == '/' || c == '?' || c == '#'
  }

  predicate EndsPath(c: char) {
    c == '?' || c == '#'
  }

  /** The index of the ':' that ends a scheme: the first ':' of the URL, when what
      precedes it is non-empty, starts with a letter and holds only scheme characters. */
  function SchemeColon(url: string): (r: Option<nat>)
    ensures r.Some? ==> 0 < r.value < |url| && url[r.value] == ':'
  {
    match Find(url, ":", 0)
    case None => None
    case Some(i) =>
      if i > 0 && IsAsciiLetter(url[0]) && forall j :: 0 <= j < i ==> IsSchemeChar(url[j])
      then Some(i) else None
  }

  /** urlparse(url).scheme, lower-cased as urlparse does. */
  function Scheme(url: string): string {
    match SchemeColon(url)
    case None => ""
    case Some(i) => Lower(url[..i])
  }

  function AfterScheme(url: string): string {
    match SchemeColon(url)
    case None => url
    case Some(i) => url[i + 1..]
  }

  /** The network location and what follows it, for the text after the scheme. */
  function SplitNetloc(rest: string): (string, string) {
    if StartsWith(rest, "//") then
      var e := FirstWhere(rest, 2, EndsNetloc);
      (rest[2..e], rest[e..])
    else ("", rest)
  }

  /** urlparse(url).netloc */
  function Netloc(url: string): string {
    SplitNetloc(AfterScheme(url)).0
  }

  /** urlparse(url).path: what follows the network location, up to the query or fragment. */
  function PathOf(url: string): string {
    var rest := SplitNetloc(AfterScheme(url)).1;
    rest[..FirstWhere(rest, 0, EndsPath)]
  }

  /** '{0}://{1}'.format(o.scheme, o.netloc) for o = urlparse(url). */
  function Origin(url: string): string {
    Scheme(url) + "://" + Netloc(url)
  }

  predicate IsScheme(scheme: string) {
    |scheme| > 0 && IsAsciiLetter(scheme[0]) &&
    (forall j :: 0 <= j < |scheme| ==> IsSchemeChar(scheme[j])) &&
    Lower(scheme) == scheme
  }

  predicate IsHost(host: string) {
    forall j :: 0 <= j < |host| ==> !EndsNetloc(host[j])
  }

  /** What may follow the host in an absolute URL: nothing, or a path, query or fragment. */
  predicate IsTail(tail: string) {
    tail == [] || EndsNetloc(tail[0])
  }

  /** Parsing an absolute URL built from a scheme, a host and a tail gives back the
      scheme and the host, so its origin is scheme://host. */
  lemma OriginOfAbsolute(scheme: string, host: string, tail: string)
    requires IsScheme(scheme) && IsHost(host) && IsTail(tail)
    ensures var url := scheme + "://" + host + tail;
      Scheme(url) == scheme && Netloc(url) == host && Origin(url) == scheme + "://" + host
  {
    var url := scheme + "://" + host + tail;
    SchemeOfAbsolute(scheme, "//" + host + tail);
    assert url == scheme + ":" + ("//" + host + tail);
    NetlocOfSlashes(host, tail);
  }

  /** The scheme of scheme:rest, and what follows its colon. */
  lemma SchemeOfAbsolute(scheme: string, rest: string)
    requires IsScheme(scheme)
    ensures SchemeColon(scheme + ":" + rest) == Some(|scheme|)
    ensures Scheme(scheme + ":" + rest) == scheme && AfterScheme(scheme + ":" + rest) == rest
  {
    var url := scheme + ":" + rest;
    var i := |scheme|;
    assert OccursAt(url, ":", i);
    forall j | 0 <= j < i ensures !OccursAt(url, ":", j) {
      assert url[j] == scheme[j];
    }
    assert Find(url, ":", 0) == Some(i);
    assert url[..i] == scheme;
    assert url[i + 1..] == rest;
  }

  /** The network location of //host followed by a tail is the host. */
  lemma NetlocOfSlashes(host: string, tail: string)
    requires IsHost(host) && IsTail(tail)
    ensures SplitNetloc("//" + host + tail).0 == host
  {
    var rest := "//" + host + tail;
    assert StartsWith(rest, "//");
    forall j | 2 <= j < 2 + |host| ensures !EndsNetloc(rest[j]) {
      assert rest[j] == host[j - 2];
    }
    if tail != [] {
      assert rest[2 + |host|] == tail[0];
    }
    assert FirstWhere(rest, 2, EndsNetloc) == 2 + |host|;
    assert rest[2..2 + |host|] == host;
  }

  /** Every URL that has a scheme and a network location is such a composition, so
      appending a path to its origin keeps the origin: all pages reached by following
      server-relative links stay on the scheme and host of the first one. */
  lemma OriginStable(url: string, path: string)
    requires SchemeColon(url).Some? && StartsWith(AfterScheme(url), "//")
    requires IsTail(path)
    ensures Origin(Origin(url) + path) == Origin(url)
  {
    var i := SchemeColon(url).value;
    var scheme := Scheme(url);
    assert Find(url, ":", 0) == Some(i);
    LowerIdempotent(url[..i]);
    assert IsScheme(scheme) by {
      assert forall j :: 0 <= j < |scheme| ==> scheme[j] == LowerChar(url[j]);
      forall j | 0 <= j < |scheme| ensures IsSchemeChar(scheme[j]) {
        assert IsSchemeChar(url[j]);
      }
      assert IsAsciiLetter(url[0]);
    }
    var rest := AfterScheme(url);
    var e := FirstWhere(rest, 2, EndsNetloc);
    var host := rest[2..e];
    assert Netloc(url) == host;
    assert IsHost(host) by {
      forall j | 0 <= j < |host| ensures !EndsNetloc(host[j]) {
        assert host[j] == rest[j + 2];
      }
    }
    assert Origin(url) + path == scheme + "://" + host + path;
    OriginOfAbsolute(scheme, host, path);
  }

  /** A server-relative path such as "/api/v1/jobs/1234/", possibly followed by a query
      or fragment, has no scheme and no network location, and urlparse gives back the
      path alone. */
  lemma PathOnly(path: string, rest: string)
    requires |path| >= 1 && path[0] == '/' && !StartsWith(path, "//")
    requires forall j :: 0 <= j < |path| ==> !EndsPath(path[j])
    requires rest == [] || EndsPath(rest[0])
    ensures Scheme(path + rest) == "" && Netloc(path + rest) == "" && PathOf(path + rest) == path
  {
    var loc := path + rest;
    assert loc[0] == '/';
    assert SchemeColon(loc) == None;
    assert !StartsWith(loc, "//") by {
      if |path| == 1 && rest != [] {
        assert loc[1] == rest[0];
      } else if |path| >= 2 {
        assert loc[1] == path[1];
      }
    }
    forall j | 0 <= j < |path| ensures !EndsPath(loc[j]) {
      assert loc[j] == path[j];
    }
    if rest != [] {
      assert loc[|path|] == rest[0];
    }
    assert FirstWhere(loc, 0, EndsPath) == |path|;
    assert loc[..|path|] == path;
  }
}
