/** databasin/utils.py: the authorization classifier and the paginator that follows
    the `meta.next` links of a list resource. */
module Utils {
  import opened Text
  import opened Urls
  import opened Transport

  /** raise_for_authorization(response, is_logged_in). The service answers 401 where it
      means 403, so a 401 to a logged-in client has its status rewritten to 403 and
      raises ForbiddenError; a 401 otherwise raises LoginRequiredError; a 403 raises
      ForbiddenError; any other status returns. The rewrite is only visible through the
      error raised right after it, which carries the response's status. */
  function RaiseForAuthorization(status: int, isLoggedIn: bool): (r: Option<Error>)
    ensures r == Some(LoginRequired(401)) <==> status == 401 && !isLoggedIn
    ensures r == Some(Forbidden(403)) <==> status == 403 || (status == 401 && isLoggedIn)
    ensures r == None <==> status != 401 && status != 403
  {
    var status' := if status == 401 && isLoggedIn then 403 else status;
    if status == 401 && !isLoggedIn then Some(LoginRequired(status))
    else if status' == 403 then Some(Forbidden(status'))
    else None
  }

  /** A list resource as fetched: the URL it came from, its objects and its meta. */
  datatype Page = Page(url: string, objects: seq<Json>, next: Option<string>, totalCount: int)

  /** The page a GET of `url` yields, if the fetch succeeds and the body is a list. */
  function PageFrom(url: string, resp: Option<Response>): (r: Result<Page>)
    ensures r.Ok? ==> resp.Some? && r.value.url == url
  {
    match Fetched(url, resp)
    case Err(e) => Err(e)
    case Ok(body) =>
      if body.ListBody? then Ok(Page(url, body.objects, body.next, body.totalCount))
      else Err(Malformed(url))
  }

  /** `if not self.resource.meta.next`: a missing or empty link ends the traversal. */
  predicate HasNext(p: Page) {
    p.next.Some? && p.next.value != ""
  }

  /** The next page's URL: this page's scheme://netloc followed by meta.next. */
  function NextUrl(p: Page): string
    requires HasNext(p)
  {
    Origin(p.url) + p.next.value
  }

  /** The objects of the pages, page after page. */
  function Items(pages: seq<Page>): seq<Json>
    decreases |pages|
  {
    if pages == [] then [] else pages[0].objects + Items(pages[1..])
  }

  lemma ItemsSnoc(pages: seq<Page>, p: Page)
    ensures Items(pages + [p]) == Items(pages) + p.objects
  {
    ItemsAppend(pages, [p]);
    assert Items([p]) == p.objects + Items([]);
  }

  lemma {:induction false} ItemsAppend(a: seq<Page>, b: seq<Page>)
    ensures Items(a + b) == Items(a) + Items(b)
    decreases |a|
  {
    if a != [] {
      ItemsAppend(a[1..], b);
      assert (a + b)[1..] == a[1..] + b;
    } else {
      assert a + b == b;
    }
  }

  /** The lower-cased URLs the server answers GETs for. */
  function LowerGets(keys: set<Endpoint>): set<string> {
    set e | e in keys && e.verb == "GET" :: Lower(e.url)
  }

  /** A GET that got a response was for an endpoint the server knows, so recording its
      lower-cased URL as loaded leaves fewer such URLs unloaded. */
  lemma FetchShrinks(w: World, url: string, loaded: set<string>)
    requires Queue(w.server, Endpoint("GET", url)) != []
    requires Lower(url) !in loaded
    ensures |LowerGets(w.server.Keys) - (loaded + {Lower(url)})| < |LowerGets(w.server.Keys) - loaded|
  {
    var all := LowerGets(w.server.Keys);
    assert Endpoint("GET", url) in w.server.Keys;
    assert Lower(url) in all;
    assert all - (loaded + {Lower(url)}) == (all - loaded) - {Lower(url)};
  }

  /** One page fetch: the GET the session sends for `url`, and the page it yields. */
  function Fetch(w: World, adapter: bool, headers: map<string, HeaderValue>, url: string): (r: (World, Result<Page>))
    ensures r.0.log == w.log + [GetRequest(adapter, headers, url)]
    ensures r.0.sleeps == w.sleeps && r.0.server.Keys == w.server.Keys
    ensures r.1.Ok? ==> Queue(w.server, Endpoint("GET", url)) != [] && r.1.value.url == url
  {
    var sent := Exchange(w, GetRequest(adapter, headers, url));
    (sent.0, PageFrom(url, sent.1))
  }

  /** The outcome of a traversal: the pages whose objects were yielded, first page first;
      the URLs fetched; the loaded-URL set, the world and the error it ended with. */
  datatype Walked = Walked(pages: seq<Page>, fetched: seq<string>, loaded: set<string>, world: World, error: Option<Error>)

  function Prepend(pages: seq<Page>, fetched: seq<string>, w: Walked): Walked {
    w.(pages := pages + w.pages, fetched := fetched + w.fetched)
  }

  /** ResourcePaginator.__iter__ run to the end from page `p`: yield the page's objects;
      stop if there is no next link, or if the lower-cased next URL was loaded already;
      otherwise record it, fetch it and go on from the page it gives. */
  ghost function Walk(p: Page, loaded: set<string>, w: World, adapter: bool,
                      headers: map<string, HeaderValue>): (r: Walked)
    ensures |r.pages| >= 1 && r.pages[0] == p
    decreases |LowerGets(w.server.Keys) - loaded|
  {
    if !HasNext(p) then Walked([p], [], loaded, w, None)
    else
      var url := NextUrl(p);
      if Lower(url) in loaded then Walked([p], [], loaded, w, None)
      else
        var f := Fetch(w, adapter, headers, url);
        match f.1
        case Err(e) => Walked([p], [url], loaded + {Lower(url)}, f.0, Some(e))
        case Ok(page) =>
          FetchShrinks(w, url, loaded);
          Prepend([p], [url], Walk(page, loaded + {Lower(url)}, f.0, adapter, headers))
  }

  /** Where the walk stops at page `p` without a request: there is no next link, or
      the next URL was loaded already. */
  lemma StopsWithoutFetch(p: Page, loaded: set<string>, w: World, adapter: bool,
                          headers: map<string, HeaderValue>)
    requires !HasNext(p) || Lower(NextUrl(p)) in loaded
    ensures Walk(p, loaded, w, adapter, headers) == Walked([p], [], loaded, w, None)
  {
  }

  /** Where the walk goes on from page `p`: it fetches the next URL and, when that gives
      a page, walks on from it with the URL loaded. */
  lemma WalkContinues(p: Page, loaded: set<string>, w: World, adapter: bool,
                      headers: map<string, HeaderValue>)
    requires HasNext(p) && Lower(NextUrl(p)) !in loaded
    ensures var url := NextUrl(p);
      var f := Fetch(w, adapter, headers, url);
      f.1.Ok? ==> (Walk(p, loaded, w, adapter, headers) ==
                   Prepend([p], [url], Walk(f.1.value, loaded + {Lower(url)}, f.0, adapter, headers)))
  {
  }

  /** Where the walk fails at page `p`: the fetch of the next URL fails. */
  lemma WalkFails(p: Page, loaded: set<string>, w: World, adapter: bool,
                  headers: map<string, HeaderValue>)
    requires HasNext(p) && Lower(NextUrl(p)) !in loaded
    ensures var url := NextUrl(p);
      var f := Fetch(w, adapter, headers, url);
      f.1.Err? ==> (Walk(p, loaded, w, adapter, headers) ==
                    Walked([p], [url], loaded + {Lower(url)}, f.0, Some(f.1.error)))
  {
  }

  /** The lower-cased forms of some URLs. */
  function LowerAll(urls: seq<string>): set<string> {
    if urls == [] then {} else {Lower(urls[0])} + LowerAll(urls[1..])
  }

  /** The GET requests the session sends for some URLs, in order. */
  function Gets(adapter: bool, headers: map<string, HeaderValue>, urls: seq<string>): seq<Request> {
    if urls == [] then [] else [GetRequest(adapter, headers, urls[0])] + Gets(adapter, headers, urls[1..])
  }

  lemma LowerAllCons(url: string, urls: seq<string>)
    ensures LowerAll([url] + urls) == {Lower(url)} + LowerAll(urls)
  {
    assert ([url] + urls)[1..] == urls;
  }

  lemma GetsCons(adapter: bool, headers: map<string, HeaderValue>, url: string, urls: seq<string>)
    ensures Gets(adapter, headers, [url] + urls) == [GetRequest(adapter, headers, url)] + Gets(adapter, headers, urls)
  {
    assert ([url] + urls)[1..] == urls;
  }

  /** Each fetched URL is the scheme://netloc of the page before it followed by that
      page's meta.next, and the page after it is the one fetched from it. */
  ghost predicate FollowsLinks(pages: seq<Page>, fetched: seq<string>) {
    (|fetched| == |pages| - 1 || |fetched| == |pages|) &&
    forall i :: 0 <= i < |fetched| ==>
      HasNext(pages[i]) && fetched[i] == NextUrl(pages[i]) &&
      (i + 1 < |pages| ==> pages[i + 1].url == fetched[i])
  }

  lemma LinksPrepend(p: Page, url: string, pages: seq<Page>, fetched: seq<string>)
    requires HasNext(p) && url == NextUrl(p)
    requires |pages| >= 1 && pages[0].url == url && FollowsLinks(pages, fetched)
    ensures FollowsLinks([p] + pages, [url] + fetched)
  {
    var pages', fetched' := [p] + pages, [url] + fetched;
    forall i | 0 <= i < |fetched'|
      ensures HasNext(pages'[i]) && fetched'[i] == NextUrl(pages'[i]) &&
              (i + 1 < |pages'| ==> pages'[i + 1].url == fetched'[i])
    {
      if i == 0 {
        assert pages'[0] == p && fetched'[0] == url && pages'[1] == pages[0];
      } else {
        assert pages'[i] == pages[i - 1] && fetched'[i] == fetched[i - 1];
        if i + 1 < |pages'| {
          assert pages'[i + 1] == pages[i];
        }
      }
    }
  }

  /** Link following: a walk yields one page more than it fetches, unless its last fetch
      failed, and each fetch follows the link of the page before it. */
  lemma {:induction false} WalkFollowsLinks(p: Page, loaded: set<string>, w: World, adapter: bool,
                                            headers: map<string, HeaderValue>)
    ensures var r := Walk(p, loaded, w, adapter, headers);
      FollowsLinks(r.pages, r.fetched) && (|r.fetched| == |r.pages| <==> r.error.Some?)
    decreases |LowerGets(w.server.Keys) - loaded|
  {
    if !HasNext(p) || Lower(NextUrl(p)) in loaded {
      StopsWithoutFetch(p, loaded, w, adapter, headers);
    } else {
      var url := NextUrl(p);
      var f := Fetch(w, adapter, headers, url);
      WalkFails(p, loaded, w, adapter, headers);
      WalkContinues(p, loaded, w, adapter, headers);
      if f.1.Ok? {
        FetchShrinks(w, url, loaded);
        WalkFollowsLinks(f.1.value, loaded + {Lower(url)}, f.0, adapter, headers);
        var rest := Walk(f.1.value, loaded + {Lower(url)}, f.0, adapter, headers);
        LinksPrepend(p, url, rest.pages, rest.fetched);
      }
    }
  }

  /** A walk that ends without error ends on a page with no next link, or on one whose
      next URL was loaded before the walk or fetched during it. */
  ghost predicate EndsAtLoaded(r: Walked, loaded: set<string>) {
    |r.pages| >= 1 &&
    (r.error.None? ==> !HasNext(Last(r.pages)) || Lower(NextUrl(Last(r.pages))) in loaded + LowerAll(r.fetched))
  }

  lemma EndsPrepend(p: Page, url: string, rest: Walked, loaded: set<string>)
    requires EndsAtLoaded(rest, loaded + {Lower(url)})
    ensures EndsAtLoaded(Prepend([p], [url], rest), loaded)
  {
    assert Last([p] + rest.pages) == Last(rest.pages);
    LowerAllCons(url, rest.fetched);
  }

  lemma {:induction false} WalkEndsAtLoaded(p: Page, loaded: set<string>, w: World, adapter: bool,
                                            headers: map<string, HeaderValue>)
    ensures EndsAtLoaded(Walk(p, loaded, w, adapter, headers), loaded)
    decreases |LowerGets(w.server.Keys) - loaded|
  {
    if !HasNext(p) || Lower(NextUrl(p)) in loaded {
      StopsWithoutFetch(p, loaded, w, adapter, headers);
    } else {
      var url := NextUrl(p);
      var f := Fetch(w, adapter, headers, url);
      WalkFails(p, loaded, w, adapter, headers);
      WalkContinues(p, loaded, w, adapter, headers);
      if f.1.Ok? {
        FetchShrinks(w, url, loaded);
        WalkEndsAtLoaded(f.1.value, loaded + {Lower(url)}, f.0, adapter, headers);
        EndsPrepend(p, url, Walk(f.1.value, loaded + {Lower(url)}, f.0, adapter, headers), loaded);
      }
    }
  }

  /** The cycle guard: no fetched URL was loaded before, once lower-cased, the fetched
      URLs are pairwise distinct once lower-cased, and afterwards all of them are loaded. */
  ghost predicate GuardsCycles(r: Walked, loaded: set<string>) {
    && (forall i :: 0 <= i < |r.fetched| ==> Lower(r.fetched[i]) !in loaded)
    && (forall i, j :: 0 <= i < j < |r.fetched| ==> Lower(r.fetched[i]) != Lower(r.fetched[j]))
    && r.loaded == loaded + LowerAll(r.fetched)
  }

  lemma GuardsPrepend(p: Page, url: string, rest: Walked, loaded: set<string>)
    requires Lower(url) !in loaded && GuardsCycles(rest, loaded + {Lower(url)})
    ensures GuardsCycles(Prepend([p], [url], rest), loaded)
  {
    var f := [url] + rest.fetched;
    forall i, j | 0 <= i < j < |f| ensures Lower(f[i]) != Lower(f[j]) {
      assert f[j] == rest.fetched[j - 1];
      if i > 0 {
        assert f[i] == rest.fetched[i - 1];
      }
    }
    forall i | 0 <= i < |f| ensures Lower(f[i]) !in loaded {
      if i > 0 {
        assert f[i] == rest.fetched[i - 1];
      }
    }
    LowerAllCons(url, rest.fetched);
  }

  lemma {:induction false} WalkGuardsCycles(p: Page, loaded: set<string>, w: World, adapter: bool,
                                            headers: map<string, HeaderValue>)
    ensures GuardsCycles(Walk(p, loaded, w, adapter, headers), loaded)
    decreases |LowerGets(w.server.Keys) - loaded|
  {
    if !HasNext(p) || Lower(NextUrl(p)) in loaded {
      StopsWithoutFetch(p, loaded, w, adapter, headers);
    } else {
      var url := NextUrl(p);
      var f := Fetch(w, adapter, headers, url);
      WalkFails(p, loaded, w, adapter, headers);
      WalkContinues(p, loaded, w, adapter, headers);
      if f.1.Ok? {
        FetchShrinks(w, url, loaded);
        WalkGuardsCycles(f.1.value, loaded + {Lower(url)}, f.0, adapter, headers);
        GuardsPrepend(p, url, Walk(f.1.value, loaded + {Lower(url)}, f.0, adapter, headers), loaded);
      } else {
        LowerAllCons(url, []);
      }
    }
  }

  /** The traversal sends nothing but one GET per fetched URL, in order, and never sleeps. */
  ghost predicate OnlyGets(r: Walked, w: World, adapter: bool, headers: map<string, HeaderValue>) {
    r.world.log == w.log + Gets(adapter, headers, r.fetched) && r.world.sleeps == w.sleeps
  }

  lemma GetsPrepend(p: Page, url: string, rest: Walked, w: World, w': World,
                    adapter: bool, headers: map<string, HeaderValue>)
    requires w'.log == w.log + [GetRequest(adapter, headers, url)] && w'.sleeps == w.sleeps
    requires OnlyGets(rest, w', adapter, headers)
    ensures OnlyGets(Prepend([p], [url], rest), w, adapter, headers)
  {
    GetsCons(adapter, headers, url, rest.fetched);
  }

  lemma {:induction false} WalkRequests(p: Page, loaded: set<string>, w: World, adapter: bool,
                                        headers: map<string, HeaderValue>)
    ensures OnlyGets(Walk(p, loaded, w, adapter, headers), w, adapter, headers)
    decreases |LowerGets(w.server.Keys) - loaded|
  {
    if !HasNext(p) || Lower(NextUrl(p)) in loaded {
      StopsWithoutFetch(p, loaded, w, adapter, headers);
    } else {
      var url := NextUrl(p);
      var f := Fetch(w, adapter, headers, url);
      WalkFails(p, loaded, w, adapter, headers);
      WalkContinues(p, loaded, w, adapter, headers);
      if f.1.Ok? {
        FetchShrinks(w, url, loaded);
        WalkRequests(f.1.value, loaded + {Lower(url)}, f.0, adapter, headers);
        GetsPrepend(p, url, Walk(f.1.value, loaded + {Lower(url)}, f.0, adapter, headers), w, f.0, adapter, headers);
      } else {
        GetsCons(adapter, headers, url, []);
      }
    }
  }

  /** Termination bound: the walk fetches at most one URL per lower-cased URL the server
      answers GETs for that was not loaded before, plus one last fetch that fails. */
  lemma {:induction false} WalkFetchBound(p: Page, loaded: set<string>, w: World, adapter: bool,
                                          headers: map<string, HeaderValue>)
    ensures |Walk(p, loaded, w, adapter, headers).fetched| <= |LowerGets(w.server.Keys) - loaded| + 1
    decreases |LowerGets(w.server.Keys) - loaded|
  {
    if !HasNext(p) || Lower(NextUrl(p)) in loaded {
      StopsWithoutFetch(p, loaded, w, adapter, headers);
    } else {
      var url := NextUrl(p);
      var f := Fetch(w, adapter, headers, url);
      WalkFails(p, loaded, w, adapter, headers);
      WalkContinues(p, loaded, w, adapter, headers);
      if f.1.Ok? {
        FetchShrinks(w, url, loaded);
        WalkFetchBound(f.1.value, loaded + {Lower(url)}, f.0, adapter, headers);
      }
    }
  }

  /** A page fetch answered by a list body gives that list as the page at `url`. */
  lemma FetchList(w: World, adapter: bool, headers: map<string, HeaderValue>, url: string)
    requires Queue(w.server, Endpoint("GET", url)) != []
    requires var resp := Queue(w.server, Endpoint("GET", url))[0];
      !(400 <= resp.status < 600) && resp.body.ListBody?
    ensures var body := Queue(w.server, Endpoint("GET", url))[0].body;
      Fetch(w, adapter, headers, url).1 == Ok(Page(url, body.objects, body.next, body.totalCount))
  {
  }

  /** Every list response the server holds reports `total` as its total_count. */
  ghost predicate TotalsAre(server: map<Endpoint, seq<Response>>, total: int) {
    forall e :: e in server ==> ReportTotal(server[e], total)
  }

  /** Every list response of a queue reports `total`. */
  ghost predicate ReportTotal(q: seq<Response>, total: int) {
    forall k :: 0 <= k < |q| && q[k].body.ListBody? ==> q[k].body.totalCount == total
  }

  lemma FetchKeepsTotals(w: World, adapter: bool, headers: map<string, HeaderValue>, url: string, total: int)
    requires TotalsAre(w.server, total)
    ensures var f := Fetch(w, adapter, headers, url);
      f.1.Ok? ==> f.1.value.totalCount == total && TotalsAre(f.0.server, f.1.value.totalCount)
  {
    var e0 := Endpoint("GET", url);
    var q := Queue(w.server, e0);
    var sent := Exchange(w, GetRequest(adapter, headers, url));
    if q != [] {
      assert e0 in w.server && sent.1 == Some(w.server[e0][0]);
      assert ReportTotal(w.server[e0], total);
      forall e | e in sent.0.server ensures ReportTotal(sent.0.server[e], total) {
        if e == e0 {
          assert ReportTotal(w.server[e0], total);
          forall k | 0 <= k < |sent.0.server[e]| ensures sent.0.server[e][k] == w.server[e][k + 1] {
          }
        } else {
          assert sent.0.server[e] == w.server[e];
        }
      }
    }
  }

  /** count() after a traversal is the total_count of the last page fetched; when the
      server reports the same total on every page, it is the one count() gave before. */
  lemma LastPrepend(p: Page, url: string, rest: Walked)
    requires |rest.pages| >= 1
    ensures Last(Prepend([p], [url], rest).pages) == Last(rest.pages)
  {
  }

  lemma {:induction false} CountAfterTraversal(p: Page, loaded: set<string>, w: World, adapter: bool,
                                               headers: map<string, HeaderValue>)
    requires TotalsAre(w.server, p.totalCount)
    ensures Last(Walk(p, loaded, w, adapter, headers).pages).totalCount == p.totalCount
    decreases |LowerGets(w.server.Keys) - loaded|
  {
    if !HasNext(p) || Lower(NextUrl(p)) in loaded {
      StopsWithoutFetch(p, loaded, w, adapter, headers);
    } else {
      var url := NextUrl(p);
      var f := Fetch(w, adapter, headers, url);
      WalkFails(p, loaded, w, adapter, headers);
      if f.1.Ok? {
        FetchShrinks(w, url, loaded);
        FetchKeepsTotals(w, adapter, headers, url, p.totalCount);
        CountAfterTraversal(f.1.value, loaded + {Lower(url)}, f.0, adapter, headers);
        WalkContinues(p, loaded, w, adapter, headers);
        LastPrepend(p, url, Walk(f.1.value, loaded + {Lower(url)}, f.0, adapter, headers));
      }
    }
  }

  /** The paginated datasets listing: a first page with two objects and a link to a second
      page holding one object and no link yields the three objects in order, with exactly
      one further request. */
  lemma TwoPages(p: Page, a: Json, b: Json, c: Json, w: World, adapter: bool,
                 headers: map<string, HeaderValue>, second: Response)
    requires p.objects == [a, b] && HasNext(p)
    requires Queue(w.server, Endpoint("GET", NextUrl(p))) == [second]
    requires second.status == 200 && second.body == ListBody([c], None, p.totalCount)
    ensures var r := Walk(p, {}, w, adapter, headers);
      Items(r.pages) == [a, b, c] && r.fetched == [NextUrl(p)] && r.error == None &&
      |r.world.log| == |w.log| + 1 && Last(r.pages).totalCount == p.totalCount
  {
    var url := NextUrl(p);
    FetchList(w, adapter, headers, url);
    var f := Fetch(w, adapter, headers, url);
    var page := Page(url, [c], None, p.totalCount);
    StopsWithoutFetch(page, {Lower(url)}, f.0, adapter, headers);
    WalkContinues(p, {}, w, adapter, headers);
    var r := Walk(p, {}, w, adapter, headers);
    assert r == Prepend([p], [url], Walked([page], [], {Lower(url)}, f.0, None));
    assert r.pages == [p, page];
    assert Items(r.pages) == [a, b] + Items([page]);
  }

  /** As written, the paginator starts with no loaded URL, so the first page's own URL is
      not guarded: a first page whose next link leads back to itself is fetched again
      and its objects are yielded twice before the guard stops the walk. */
  lemma FirstPageRevisited(p: Page, w: World, adapter: bool, headers: map<string, HeaderValue>, again: Response)
    requires HasNext(p) && NextUrl(p) == p.url
    requires Queue(w.server, Endpoint("GET", p.url)) == [again]
    requires again.status == 200 && again.body == ListBody(p.objects, p.next, p.totalCount)
    ensures var r := Walk(p, {}, w, adapter, headers);
      r.fetched == [p.url] && Items(r.pages) == p.objects + p.objects
  {
    FetchList(w, adapter, headers, p.url);
    var f := Fetch(w, adapter, headers, p.url);
    assert f.1 == Ok(p);
    StopsWithoutFetch(p, {Lower(p.url)}, f.0, adapter, headers);
    WalkContinues(p, {}, w, adapter, headers);
    var r := Walk(p, {}, w, adapter, headers);
    assert r == Prepend([p], [p.url], Walked([p], [], {Lower(p.url)}, f.0, None));
    assert r.pages == [p, p];
    assert Items(r.pages) == p.objects + Items([p]);
  }

  /** With the first page's URL recorded before the walk, no URL that is the first page's
      once lower-cased is ever fetched. */
  lemma SeededNeverRevisits(p: Page, w: World, adapter: bool, headers: map<string, HeaderValue>)
    ensures var r := Walk(p, {Lower(p.url)}, w, adapter, headers);
      forall i :: 0 <= i < |r.fetched| ==> Lower(r.fetched[i]) != Lower(p.url)
  {
    WalkGuardsCycles(p, {Lower(p.url)}, w, adapter, headers);
  }

  /** ResourcePaginator: the page currently held and the lower-cased URLs loaded so far. */
  class ResourcePaginator {
    var resource: Page
    var loadedUrls: set<string>
    const session: Session

    /** ResourcePaginator(resource), as written: nothing recorded as loaded. */
    constructor (resource: Page, session: Session)
      ensures this.resource == resource && loadedUrls == {} && this.session == session
    {
      this.resource := resource;
      loadedUrls := {};
      this.session := session;
    }

    /** The corrected paginator: the first page's own URL counts as loaded. */
    constructor Seeded(resource: Page, session: Session)
      ensures this.resource == resource && loadedUrls == {Lower(resource.url)} && this.session == session
    {
      this.resource := resource;
      loadedUrls := {Lower(resource.url)};
      this.session := session;
    }

    /** count() and __len__(): the total_count of the page held now. */
    function Count(): int
      reads this
    {
      resource.totalCount
    }

    /** One round of the generator loop after the current page's objects are yielded:
        stop if there is no next link or it was loaded already, otherwise record the
        lower-cased next URL and fetch it, stopping with the error if that fails. */
    method Advance() returns (stop: bool, error: Option<Error>)
      modifies this`resource, this`loadedUrls, session`world
      ensures var w := Walk(old(resource), old(loadedUrls), old(session.world), session.refererAdapter, session.headers);
        if stop then
          w == Walked([old(resource)], w.fetched, loadedUrls, session.world, error) && resource == old(resource)
        else
          && error == None && HasNext(old(resource))
          && w == Prepend([old(resource)], [NextUrl(old(resource))], Walk(resource, loadedUrls, session.world, session.refererAdapter, session.headers))
          && |LowerGets(session.world.server.Keys) - loadedUrls| < |LowerGets(old(session.world).server.Keys) - old(loadedUrls)|
    {
      if !HasNext(resource) || Lower(NextUrl(resource)) in loadedUrls {
        StopsWithoutFetch(resource, loadedUrls, session.world, session.refererAdapter, session.headers);
        return true, None;
      }
      var url := NextUrl(resource);
      WalkFails(resource, loadedUrls, session.world, session.refererAdapter, session.headers);
      WalkContinues(resource, loadedUrls, session.world, session.refererAdapter, session.headers);
      ghost var before, loadedBefore := session.world, loadedUrls;
      loadedUrls := loadedUrls + {Lower(url)};
      var next := FetchPage(session, url);
      if next.Err? {
        return true, Some(next.error);
      }
      FetchShrinks(before, url, loadedBefore);
      resource := next.value;
      return false, None;
    }

    /** Iterating to the end: every object of every page, as Walk describes, and the
        paginator left holding the last page fetched. */
    method Iterate() returns (items: seq<Json>, error: Option<Error>)
      modifies this`resource, this`loadedUrls, session`world
      ensures var r := Walk(old(resource), old(loadedUrls), old(session.world), session.refererAdapter, session.headers);
        && items == Items(r.pages) && error == r.error
        && resource == Last(r.pages) && loadedUrls == r.loaded && session.world == r.world
    {
      ghost var adapter, headers := session.refererAdapter, session.headers;
      ghost var start := Walk(resource, loadedUrls, session.world, adapter, headers);
      ghost var done: seq<Page> := [];
      ghost var doneFetched: seq<string> := [];
      items := [];
      while true
        invariant session.refererAdapter == adapter && session.headers == headers
        invariant start == Prepend(done, doneFetched, Walk(resource, loadedUrls, session.world, adapter, headers))
        invariant items == Items(done)
        decreases |LowerGets(session.world.server.Keys) - loadedUrls|
      {
        ItemsSnoc(done, resource);
        items := items + resource.objects;
        ghost var page, loadedBefore, worldBefore := resource, loadedUrls, session.world;
        var stop;
        stop, error := Advance();
        if stop {
          Finish(start, done, doneFetched, Walk(page, loadedBefore, worldBefore, adapter, headers));
          return;
        }
        PrependPrepend(done, doneFetched, page, NextUrl(page), Walk(resource, loadedUrls, session.world, adapter, headers));
        done := done + [page];
        doneFetched := doneFetched + [NextUrl(page)];
      }
    }
  }

  /** ResourceBase.get(url, session=...): the GET of a list page through the session. */
  method FetchPage(session: Session, url: string) returns (next: Result<Page>)
    modifies session`world
    ensures var f := Fetch(old(session.world), session.refererAdapter, session.headers, url);
      session.world == f.0 && next == f.1
  {
    GetIgnoresCookies(session.refererAdapter, session.headers, session.world.cookies, url);
    var resp := session.Send("GET", url, NoPayload);
    next := PageFrom(url, resp);
  }

  lemma Finish(start: Walked, done: seq<Page>, doneFetched: seq<string>, last: Walked)
    requires |last.pages| == 1 && start == Prepend(done, doneFetched, last)
    ensures Items(start.pages) == Items(done) + last.pages[0].objects
    ensures Last(start.pages) == last.pages[0]
    ensures start.loaded == last.loaded && start.world == last.world && start.error == last.error
  {
    ItemsAppend(done, last.pages);
    assert Items(last.pages) == last.pages[0].objects + Items([]);
  }

  lemma PrependPrepend(done: seq<Page>, doneFetched: seq<string>, p: Page, url: string, rest: Walked)
    ensures Prepend(done, doneFetched, Prepend([p], [url], rest)) == Prepend(done + [p], doneFetched + [url], rest)
  {
  }
}
