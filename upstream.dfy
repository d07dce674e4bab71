/**
 * The data proxy of server.js: page URLs, the pagination loop over a
 * cursor-based collection, the mapping of upstream statuses to replies, and
 * the aggregate of the five resources.
 *
 * The upstream is a finite sequence of page responses consumed in order,
 * one per request; a failing request (the fetch throws) is a response of
 * its own.
 */
module Upstream {
  import opened Wrappers

  // ---------------------------------------------------------------------
  // buildWhoopUrl
  // ---------------------------------------------------------------------

  const WhoopBase := "https://api.prod.whoop.com/developer"

  /** The page size asked for on every collection request: the largest the upstream accepts. */
  const PageLimit := "25"

  /** The optional query of a collection request; an absent or empty value is the empty string. */
  datatype Query = Query(start: string, end: string, nextToken: string)

  type QueryPair = (string, string)

  /** A URL under `WhoopBase`: the path and its query pairs in order. */
  datatype Url = Url(base: string, path: string, params: seq<QueryPair>)

  /** The position of a parameter name in the order start, end, limit, nextToken. */
  function ParamRank(name: string): nat
  {
    if name == "start" then 0
    else if name == "end" then 1
    else if name == "limit" then 2
    else if name == "nextToken" then 3
    else 4
  }

  /** The value of the first pair named `name`. */
  function Lookup(params: seq<QueryPair>, name: string): Option<string>
  {
    if params == [] then None
    else if params[0].0 == name then Some(params[0].1)
    else Lookup(params[1..], name)
  }

  /** A truthy value gives one pair, a falsy one none. */
  function OptionalPair(name: string, value: string): seq<QueryPair>
  {
    if value == "" then [] else [(name, value)]
  }

  /** `buildWhoopUrl(path, query)`: the optional start and end, the fixed limit, then the optional cursor. */
  function BuildWhoopUrl(path: string, q: Query): (u: Url)
    ensures u.base == WhoopBase && u.path == path
  {
    Url(WhoopBase, path, OptionalPair("start", q.start) + OptionalPair("end", q.end)
      + [("limit", PageLimit)] + OptionalPair("nextToken", q.nextToken))
  }

  /**
   * The query of a page URL: `limit=25` always, and each of start, end and
   * nextToken exactly when it is truthy, in the order start, end, limit,
   * nextToken, and nothing else.
   */
  lemma BuildWhoopUrlQuery(path: string, q: Query)
    ensures Lookup(BuildWhoopUrl(path, q).params, "limit") == Some(PageLimit)
    ensures Lookup(BuildWhoopUrl(path, q).params, "start") == (if q.start == "" then None else Some(q.start))
    ensures Lookup(BuildWhoopUrl(path, q).params, "end") == (if q.end == "" then None else Some(q.end))
    ensures Lookup(BuildWhoopUrl(path, q).params, "nextToken") == (if q.nextToken == "" then None else Some(q.nextToken))
    ensures forall i :: 0 <= i < |BuildWhoopUrl(path, q).params| ==> ParamRank(BuildWhoopUrl(path, q).params[i].0) < 4
    ensures forall i, j :: 0 <= i < j < |BuildWhoopUrl(path, q).params| ==>
      ParamRank(BuildWhoopUrl(path, q).params[i].0) < ParamRank(BuildWhoopUrl(path, q).params[j].0)
  {
    var s, e, n := OptionalPair("start", q.start), OptionalPair("end", q.end), OptionalPair("nextToken", q.nextToken);
    var front := s + e;
    var withLimit := front + [("limit", PageLimit)];
    assert BuildWhoopUrl(path, q).params == withLimit + n;
    LookupName(s, e, n, "start");
    LookupName(s, e, n, "end");
    LookupName(s, e, n, "limit");
    LookupName(s, e, n, "nextToken");
  }

  lemma LookupName(s: seq<QueryPair>, e: seq<QueryPair>, n: seq<QueryPair>, name: string)
    ensures Lookup(s + e + [("limit", PageLimit)] + n, name)
      == if Lookup(s, name).Some? then Lookup(s, name)
         else if Lookup(e, name).Some? then Lookup(e, name)
         else if name == "limit" then Some(PageLimit)
         else Lookup(n, name)
  {
    LookupAppend(s, e, name);
    LookupAppend(s + e, [("limit", PageLimit)], name);
    LookupAppend(s + e + [("limit", PageLimit)], n, name);
  }

  /** Looking a name up in two runs of pairs: the first run wins. */
  lemma {:induction false} LookupAppend(a: seq<QueryPair>, b: seq<QueryPair>, name: string)
    ensures Lookup(a + b, name) == if Lookup(a, name).Some? then Lookup(a, name) else Lookup(b, name)
  {
    if a != [] {
      assert (a + b)[0] == a[0];
      assert (a + b)[1..] == a[1..] + b;
      LookupAppend(a[1..], b, name);
    } else {
      assert a + b == b;
    }
  }

  // ---------------------------------------------------------------------
  // whoopFetch and whoopFetchAllPages
  // ---------------------------------------------------------------------

  /** The upstream's answer to one page request. */
  datatype Page<R> =
    | PageOk(records: seq<R>, nextToken: string)  // 2xx; absent records are [], an absent cursor is ""
    | PageError(status: int)                      // non-2xx
    | PageUnreachable                             // the fetch threw

  /** One authenticated GET: the URL and the bearer token it carries. */
  datatype Request = Request(url: Url, bearer: string)

  /** The result of a sweep, or `Threw` when a fetch threw out of it. */
  datatype Collection<R> = Collection(ok: bool, status: int, records: seq<R>) | Threw

  /** The page asks for another one: its `next_token` is truthy. */
  predicate Continues<R>(p: Page<R>)
  {
    p.PageOk? && p.nextToken != ""
  }

  /** The upstream stops handing out cursors at some page (a requirement on the upstream). */
  predicate UpstreamTerminates<R>(pages: seq<Page<R>>)
  {
    exists i :: 0 <= i < |pages| && !Continues(pages[i])
  }

  /** The index of the first page that does not ask for another one: requests go to pages 0..StopIndex. */
  function StopIndex<R>(pages: seq<Page<R>>): (n: nat)
    ensures n <= |pages|
    ensures forall j :: 0 <= j < n ==> Continues(pages[j])
    ensures n < |pages| ==> !Continues(pages[n])
    ensures UpstreamTerminates(pages) ==> n < |pages|
  {
    if pages == [] then 0
    else if !Continues(pages[0]) then 0
    else
      var m := StopIndex(pages[1..]);
      assert forall j :: 1 <= j < |pages| ==> pages[1..][j - 1] == pages[j];
      1 + m
  }

  /** The records of the successful pages of `pages`, in page order. */
  function Concat<R>(pages: seq<Page<R>>): seq<R>
  {
    if pages == [] then []
    else Concat(pages[..|pages| - 1]) + (if pages[|pages| - 1].PageOk? then pages[|pages| - 1].records else [])
  }

  lemma ConcatStep<R>(pages: seq<Page<R>>, i: nat)
    requires i < |pages| && pages[i].PageOk?
    ensures Concat(pages[..i + 1]) == Concat(pages[..i]) + pages[i].records
  {
    assert pages[..i + 1][..i] == pages[..i];
  }

  /** The URL of request `j` of a sweep: the first one as given, then the same range with the previous page's cursor. */
  function PageUrl<R>(path: string, q: Query, pages: seq<Page<R>>, j: nat): Url
    requires j == 0 || (j - 1 < |pages| && pages[j - 1].PageOk?)
  {
    if j == 0 then BuildWhoopUrl(path, q) else BuildWhoopUrl(path, q.(nextToken := pages[j - 1].nextToken))
  }

  /** The first `i` requests of a sweep: request `j` goes to `PageUrl(path, q, pages, j)`. */
  function SweepRequests<R>(path: string, q: Query, bearer: string, pages: seq<Page<R>>, i: nat): (rs: seq<Request>)
    requires i <= |pages| && forall j :: 0 <= j < i - 1 ==> pages[j].PageOk?
    ensures |rs| == i
  {
    if i == 0 then [] else SweepRequests(path, q, bearer, pages, i - 1) + [Request(PageUrl(path, q, pages, i - 1), bearer)]
  }

  lemma {:induction false} SweepRequestAt<R>(path: string, q: Query, bearer: string, pages: seq<Page<R>>, i: nat, j: nat)
    requires i <= |pages| && forall j :: 0 <= j < i - 1 ==> pages[j].PageOk?
    requires j < i
    ensures SweepRequests(path, q, bearer, pages, i)[j] == Request(PageUrl(path, q, pages, j), bearer)
  {
    if j < i - 1 {
      SweepRequestAt(path, q, bearer, pages, i - 1, j);
    }
  }

  /**
   * The requests a sweep sends and its result: a failing first page is
   * fatal, a failing later page ends the sweep with what was gathered, and
   * a page without a cursor ends it normally.
   */
  function FetchAllPagesSpec<R>(path: string, q: Query, bearer: string, pages: seq<Page<R>>): (Collection<R>, seq<Request>)
    requires UpstreamTerminates(pages)
  {
    var n := StopIndex(pages);
    var requests := SweepRequests(path, q, bearer, pages, n + 1);
    var result :=
      match pages[n]
      case PageUnreachable => Threw
      case PageError(status) => if n == 0 then Collection(false, status, []) else Collection(true, 200, Concat(pages[..n]))
      case PageOk(_, _) => Collection(true, 200, Concat(pages[..n + 1]));
    (result, requests)
  }

  /**
   * `whoopFetchAllPages(path, query)` against the `upstream` pages, each
   * request carrying `bearer`; also returns the requests sent, in order.
   */
  method FetchAllPages<R>(path: string, query: Query, bearer: string, upstream: seq<Page<R>>)
    returns (result: Collection<R>, requests: seq<Request>)
    requires UpstreamTerminates(upstream)
    ensures (result, requests) == FetchAllPagesSpec(path, query, bearer, upstream)
  {
    ghost var n := StopIndex(upstream);
    // first page
    requests := [Request(BuildWhoopUrl(path, query), bearer)];
    var first := upstream[0];
    assert requests == SweepRequests(path, query, bearer, upstream, 1);
    if first.PageUnreachable? {
      assert n == 0 && upstream[n] == first;
      assert FetchAllPagesSpec(path, query, bearer, upstream).1 == requests;
      assert FetchAllPagesSpec(path, query, bearer, upstream).0 == Threw;
      return Threw, requests;
    }
    if first.PageError? {
      assert n == 0 && upstream[n] == first;
      assert FetchAllPagesSpec(path, query, bearer, upstream).1 == requests;
      assert FetchAllPagesSpec(path, query, bearer, upstream).0 == Collection(false, first.status, []);
      return Collection(false, first.status, []), requests;
    }
    var allRecords := first.records;
    var nextToken := first.nextToken;
    assert upstream[..1] == [first];
    var i := 1;
    // follow pagination
    while nextToken != ""
      invariant 1 <= i <= n + 1 <= |upstream|
      invariant upstream[i - 1].PageOk? && nextToken == upstream[i - 1].nextToken
      invariant nextToken == "" <==> i == n + 1
      invariant allRecords == Concat(upstream[..i])
      invariant requests == SweepRequests(path, query, bearer, upstream, i)
      decreases n + 1 - i
    {
      assert PageUrl(path, query, upstream, i) == BuildWhoopUrl(path, query.(nextToken := nextToken));
      requests := requests + [Request(BuildWhoopUrl(path, query.(nextToken := nextToken)), bearer)];
      var page := upstream[i];
      if page.PageUnreachable? {
        assert i == n && upstream[n] == page;
        assert FetchAllPagesSpec(path, query, bearer, upstream).1 == requests;
        assert FetchAllPagesSpec(path, query, bearer, upstream).0 == Threw;
        return Threw, requests;
      }
      if page.PageError? {
        // the source breaks out of the loop and returns what it has gathered
        assert i == n && upstream[n] == page;
        assert FetchAllPagesSpec(path, query, bearer, upstream).1 == requests;
        assert FetchAllPagesSpec(path, query, bearer, upstream).0 == Collection(true, 200, allRecords);
        return Collection(true, 200, allRecords), requests;
      }
      ConcatStep(upstream, i);
      allRecords := allRecords + page.records;
      nextToken := page.nextToken;
      i := i + 1;
    }
    assert i == n + 1 && upstream[n].PageOk?;
    result := Collection(true, 200, allRecords);
    assert FetchAllPagesSpec(path, query, bearer, upstream).1 == requests;
    assert FetchAllPagesSpec(path, query, bearer, upstream).0 == result;
  }

  // ---------------------------------------------------------------------
  // Properties of a sweep
  // ---------------------------------------------------------------------

  /** Only the pages up to the stop are requested, one request per page. */
  lemma SweepRequestCount<R>(path: string, q: Query, bearer: string, pages: seq<Page<R>>)
    requires UpstreamTerminates(pages)
    ensures |FetchAllPagesSpec(path, q, bearer, pages).1| == StopIndex(pages) + 1 <= |pages|
  {
  }

  /**
   * Every request carries the same bearer token and the same start and end;
   * the first carries the caller's cursor, and each later one the cursor of
   * the page before it.
   */
  lemma SweepRequestsFollowCursors<R>(path: string, q: Query, bearer: string, pages: seq<Page<R>>)
    requires UpstreamTerminates(pages)
    ensures forall j :: 0 <= j < |FetchAllPagesSpec(path, q, bearer, pages).1| ==>
      FetchAllPagesSpec(path, q, bearer, pages).1[j].bearer == bearer &&
      FetchAllPagesSpec(path, q, bearer, pages).1[j].url.path == path &&
      Lookup(FetchAllPagesSpec(path, q, bearer, pages).1[j].url.params, "start") == (if q.start == "" then None else Some(q.start)) &&
      Lookup(FetchAllPagesSpec(path, q, bearer, pages).1[j].url.params, "end") == (if q.end == "" then None else Some(q.end)) &&
      Lookup(FetchAllPagesSpec(path, q, bearer, pages).1[j].url.params, "limit") == Some(PageLimit) &&
      Lookup(FetchAllPagesSpec(path, q, bearer, pages).1[j].url.params, "nextToken") ==
        (if j == 0 then (if q.nextToken == "" then None else Some(q.nextToken)) else Some(pages[j - 1].nextToken))
  {
    var requests := FetchAllPagesSpec(path, q, bearer, pages).1;
    forall j | 0 <= j < |requests|
      ensures requests[j].bearer == bearer && requests[j].url.path == path
      ensures Lookup(requests[j].url.params, "start") == (if q.start == "" then None else Some(q.start))
      ensures Lookup(requests[j].url.params, "end") == (if q.end == "" then None else Some(q.end))
      ensures Lookup(requests[j].url.params, "limit") == Some(PageLimit)
      ensures Lookup(requests[j].url.params, "nextToken") ==
        (if j == 0 then (if q.nextToken == "" then None else Some(q.nextToken)) else Some(pages[j - 1].nextToken))
    {
      SweepRequestAt(path, q, bearer, pages, StopIndex(pages) + 1, j);
      if j == 0 {
        BuildWhoopUrlQuery(path, q);
      } else {
        assert Continues(pages[j - 1]);
        BuildWhoopUrlQuery(path, q.(nextToken := pages[j - 1].nextToken));
      }
    }
  }

  /** A failing first page is fatal: not ok, its status, no records, and no further request. */
  lemma FirstPageFailureIsFatal<R>(path: string, q: Query, bearer: string, pages: seq<Page<R>>)
    requires |pages| > 0 && pages[0].PageError?
    ensures UpstreamTerminates(pages)
    ensures FetchAllPagesSpec(path, q, bearer, pages).0 == Collection(false, pages[0].status, [])
    ensures |FetchAllPagesSpec(path, q, bearer, pages).1| == 1
  {
    assert !Continues(pages[0]);
  }

  /** A sweep that returns a collection is ok exactly when its first page was not an error. */
  lemma SweepOkUnlessFirstPageFails<R>(path: string, q: Query, bearer: string, pages: seq<Page<R>>)
    requires UpstreamTerminates(pages)
    requires FetchAllPagesSpec(path, q, bearer, pages).0.Collection?
    ensures FetchAllPagesSpec(path, q, bearer, pages).0.ok <==> !pages[0].PageError?
    ensures FetchAllPagesSpec(path, q, bearer, pages).0.ok ==> FetchAllPagesSpec(path, q, bearer, pages).0.status == 200
  {
    var n := StopIndex(pages);
    if n > 0 {
      assert Continues(pages[0]);
    }
  }

  /** A failing later page ends the sweep, which keeps the records of the pages before it. */
  lemma LaterPageFailureKeepsPrefix<R>(path: string, q: Query, bearer: string, pages: seq<Page<R>>, k: nat)
    requires 0 < k < |pages| && pages[k].PageError?
    requires forall j :: 0 <= j < k ==> Continues(pages[j])
    ensures UpstreamTerminates(pages)
    ensures FetchAllPagesSpec(path, q, bearer, pages).0 == Collection(true, 200, Concat(pages[..k]))
    ensures |FetchAllPagesSpec(path, q, bearer, pages).1| == k + 1
  {
    assert !Continues(pages[k]);
    StopIndexIsFirstStop(pages, k);
  }

  /** The stop index is the first page that does not continue. */
  lemma StopIndexIsFirstStop<R>(pages: seq<Page<R>>, k: nat)
    requires k < |pages| && !Continues(pages[k])
    requires forall j :: 0 <= j < k ==> Continues(pages[j])
    ensures StopIndex(pages) == k
  {
  }

  /** A sweep's records are the successful pages' records in page order; a prefix of all the upstream holds. */
  lemma SweepRecordsArePrefix<R>(path: string, q: Query, bearer: string, pages: seq<Page<R>>)
    requires UpstreamTerminates(pages)
    requires FetchAllPagesSpec(path, q, bearer, pages).0.Collection?
    ensures FetchAllPagesSpec(path, q, bearer, pages).0.records <= Concat(pages)
  {
    var n := StopIndex(pages);
    ConcatPrefix(pages, n);
    ConcatPrefix(pages, n + 1);
  }

  lemma {:induction false} ConcatPrefix<R>(pages: seq<Page<R>>, k: nat)
    requires k <= |pages|
    ensures Concat(pages[..k]) <= Concat(pages)
    decreases |pages|
  {
    if k < |pages| {
      var init := pages[..|pages| - 1];
      assert init[..k] == pages[..k];
      ConcatPrefix(init, k);
    } else {
      assert pages[..k] == pages;
    }
  }

  /** Three pages chained by two cursors: three requests, the records of all three in order. */
  lemma ThreePageSweep<R>(path: string, q: Query, bearer: string, a: seq<R>, b: seq<R>, c: seq<R>, t1: string, t2: string)
    requires t1 != "" && t2 != ""
    ensures UpstreamTerminates([PageOk(a, t1), PageOk(b, t2), PageOk(c, "")])
    ensures FetchAllPagesSpec(path, q, bearer, [PageOk(a, t1), PageOk(b, t2), PageOk(c, "")]).0 == Collection(true, 200, a + b + c)
    ensures FetchAllPagesSpec(path, q, bearer, [PageOk(a, t1), PageOk(b, t2), PageOk(c, "")]).1 ==
      [Request(BuildWhoopUrl(path, q), bearer),
       Request(BuildWhoopUrl(path, q.(nextToken := t1)), bearer),
       Request(BuildWhoopUrl(path, q.(nextToken := t2)), bearer)]
  {
    var pages := [PageOk(a, t1), PageOk(b, t2), PageOk(c, "")];
    assert !Continues(pages[2]);
    StopIndexIsFirstStop(pages, 2);
    assert pages[..3] == pages;
    assert pages[..3][..2] == pages[..2] && pages[..2][..1] == pages[..1] && pages[..1][..0] == [];
    assert Concat(pages[..1]) == a;
    assert Concat(pages[..2]) == a + b;
    assert SweepRequests(path, q, bearer, pages, 1) == [Request(BuildWhoopUrl(path, q), bearer)];
    assert SweepRequests(path, q, bearer, pages, 2) == SweepRequests(path, q, bearer, pages, 1) + [Request(BuildWhoopUrl(path, q.(nextToken := t1)), bearer)];
  }

  /** Three pages where the second fails: a successful sweep holding exactly the first page's records. */
  lemma SecondOfThreePagesFails<R>(path: string, q: Query, bearer: string, a: seq<R>, t1: string, status: int, third: Page<R>)
    requires t1 != ""
    ensures UpstreamTerminates([PageOk(a, t1), PageError(status), third])
    ensures FetchAllPagesSpec(path, q, bearer, [PageOk(a, t1), PageError(status), third]).0 == Collection(true, 200, a)
    ensures |FetchAllPagesSpec(path, q, bearer, [PageOk(a, t1), PageError(status), third]).1| == 2
  {
    var pages := [PageOk(a, t1), PageError(status), third];
    LaterPageFailureKeepsPrefix(path, q, bearer, pages, 1);
    assert pages[..1] == [PageOk(a, t1)] && pages[..1][..0] == [];
  }

  // ---------------------------------------------------------------------
  // whoopErrorResponse, requireAuth and the data routes
  // ---------------------------------------------------------------------

  /** A JSON error reply: the HTTP status, the error tag and the user-facing message. */
  datatype ErrorReply = ErrorReply(httpStatus: int, error: string, message: string)

  /** A route's reply: an error, or the payload it sends with status 200. */
  datatype Reply<P> = Fail(err: ErrorReply) | Success(payload: P)

  const SessionExpired := ErrorReply(401, "auth_expired", "Your session has expired. Please reconnect to Whoop.")
  const RateLimited := ErrorReply(429, "rate_limited", "Rate limit reached. Please wait a moment and try again.")
  const UpstreamError := ErrorReply(502, "whoop_api_error", "Could not retrieve data from Whoop. Please try again later.")

  /** `whoopErrorResponse(res, status)`: the reply for an upstream status that was not ok. */
  function WhoopErrorResponse(status: int): (r: ErrorReply)
    ensures r.httpStatus == 401 <==> status == 401
    ensures r.httpStatus == 429 <==> status == 429
    ensures status == 401 ==> r.error == "auth_expired"
    ensures status == 429 ==> r.error == "rate_limited"
    ensures status != 401 && status != 429 ==> r.httpStatus == 502 && r.error == "whoop_api_error"
  {
    if status == 401 then SessionExpired
    else if status == 429 then RateLimited
    else UpstreamError
  }

  /** The mapping is total onto three replies; only 401 and 429 are passed through, everything else becomes 502. */
  lemma WhoopErrorResponseCases(status: int)
    ensures WhoopErrorResponse(status) in {SessionExpired, RateLimited, UpstreamError}
    ensures WhoopErrorResponse(status).httpStatus in {401, 429, 502}
    ensures WhoopErrorResponse(status).httpStatus == status <==> status in {401, 429, 502}
    ensures WhoopErrorResponse(status) == UpstreamError <==> status != 401 && status != 429
  {
  }

  /** The 502 reply a route sends when the upstream request throws. */
  function ThrownReply(what: string): (r: ErrorReply)
    ensures r.httpStatus == 502 && r.error == "whoop_api_error"
  {
    ErrorReply(502, "whoop_api_error", "Could not retrieve " + what + " data.")
  }

  /** The result of one `whoopFetch`: ok with its data, not ok with its status, or a thrown fetch. */
  datatype Single<D> = SingleOk(data: D) | SingleError(status: int) | SingleThrew

  /**
   * `/api/body`: the auth check (`requireAuth`), then the data or the
   * mapped upstream error; a thrown fetch gives the body-specific 502.
   */
  function BodyRoute<D>(authenticated: bool, result: Single<D>): (r: Reply<D>)
    ensures !authenticated ==> r == Fail(SessionExpired)
    ensures r.Success? <==> authenticated && result.SingleOk?
    ensures r.Success? ==> r.payload == result.data
    ensures authenticated && result.SingleError? ==> r == Fail(WhoopErrorResponse(result.status))
    ensures authenticated && result.SingleThrew? ==> r == Fail(ThrownReply("body"))
  {
    if !authenticated then Fail(SessionExpired)
    else match result
      case SingleThrew => Fail(ThrownReply("body"))
      case SingleError(status) => Fail(WhoopErrorResponse(status))
      case SingleOk(data) => Success(data)
  }

  /**
   * `/api/recovery`, `/api/sleep`, `/api/cycle` and `/api/workout`: the
   * auth check, then `{records}` of the sweep or the mapped error of its
   * first page; a thrown sweep gives the resource's own 502.
   */
  function CollectionRoute<R>(authenticated: bool, resource: string, result: Collection<R>): (r: Reply<seq<R>>)
    ensures !authenticated ==> r == Fail(SessionExpired)
    ensures r.Success? <==> authenticated && result.Collection? && result.ok
    ensures r.Success? ==> r.payload == result.records
    ensures authenticated && result.Collection? && !result.ok ==> r == Fail(WhoopErrorResponse(result.status))
    ensures authenticated && result.Threw? ==> r == Fail(ThrownReply(resource))
  {
    if !authenticated then Fail(SessionExpired)
    else match result
      case Threw => Fail(ThrownReply(resource))
      case Collection(ok, status, records) => if ok then Success(records) else Fail(WhoopErrorResponse(status))
  }

  /** A route over a collection answers with exactly the records a sweep of the upstream gathers. */
  lemma CollectionRouteOfSweep<R>(resource: string, path: string, q: Query, bearer: string, pages: seq<Page<R>>)
    requires UpstreamTerminates(pages)
    requires pages[0].PageOk?
    requires forall j :: 0 <= j < |pages| ==> !pages[j].PageUnreachable?
    ensures CollectionRoute(true, resource, FetchAllPagesSpec(path, q, bearer, pages).0)
      == Success(FetchAllPagesSpec(path, q, bearer, pages).0.records)
  {
    SweepOkUnlessFirstPageFails(path, q, bearer, pages);
  }

  // ---------------------------------------------------------------------
  // /api/whoop/all
  // ---------------------------------------------------------------------

  /** The aggregate payload; an absent period bound is `null` (None). */
  datatype AllData<D, R> = AllData(
    pullDate: string,
    periodStart: Option<string>,
    periodEnd: Option<string>,
    body: D,
    recovery: seq<R>,
    sleep: seq<R>,
    cycles: seq<R>,
    workouts: seq<R>)

  /** `ok` and `status` of a fetch result that did not throw. */
  datatype Outcome = Outcome(ok: bool, status: int)

  /** The index of the first result that is not ok, if any. */
  function FirstFailure(rs: seq<Outcome>): (f: Option<nat>)
    ensures f.Some? ==> f.value < |rs| && !rs[f.value].ok && forall j :: 0 <= j < f.value ==> rs[j].ok
    ensures f.None? ==> forall j :: 0 <= j < |rs| ==> rs[j].ok
  {
    if rs == [] then None
    else if !rs[0].ok then Some(0)
    else match FirstFailure(rs[1..])
      case None => None
      case Some(i) => Some(i + 1)
  }

  function BodyOutcome<D>(r: Single<D>): Outcome
    requires !r.SingleThrew?
  {
    if r.SingleOk? then Outcome(true, 200) else Outcome(false, r.status)
  }

  function CollectionOutcome<R>(r: Collection<R>): Outcome
    requires r.Collection?
  {
    Outcome(r.ok, r.status)
  }

  /** `.slice(0, 10)` of an ISO timestamp: its date part. */
  function DatePart(iso: string): (d: string)
    ensures d <= iso && |d| == if |iso| < 10 then |iso| else 10
  {
    if |iso| < 10 then iso else iso[..10]
  }

  function Nullable(s: string): (o: Option<string>)
    ensures o.None? <==> s == ""
    ensures o.Some? ==> o.value == s
  {
    if s == "" then None else Some(s)
  }

  /**
   * `/api/whoop/all`: the auth check; a thrown fetch anywhere rejects the
   * whole `Promise.all` (the generic 502); otherwise the mapped error of the
   * first result that is not ok in the order body, recovery, sleep, cycle,
   * workout; otherwise the payload. `isoNow` is the current time as an ISO
   * string.
   */
  function Aggregate<D, R>(authenticated: bool, start: string, end: string, isoNow: string,
                           body: Single<D>, recovery: Collection<R>, sleep: Collection<R>,
                           cycle: Collection<R>, workout: Collection<R>): Reply<AllData<D, R>>
  {
    if !authenticated then Fail(SessionExpired)
    else if body.SingleThrew? || recovery.Threw? || sleep.Threw? || cycle.Threw? || workout.Threw? then
      Fail(ThrownReply("all"))
    else
      var rs := [BodyOutcome(body), CollectionOutcome(recovery), CollectionOutcome(sleep),
                 CollectionOutcome(cycle), CollectionOutcome(workout)];
      match FirstFailure(rs)
      case Some(i) => Fail(WhoopErrorResponse(rs[i].status))
      case None =>
        Success(AllData(DatePart(isoNow), Nullable(start), Nullable(end), body.data,
                        recovery.records, sleep.records, cycle.records, workout.records))
  }

  /** Without a session the aggregate asks for reconnection and fetches nothing it reports. */
  lemma AggregateUnauthenticated<D, R>(start: string, end: string, isoNow: string, body: Single<D>,
                                       recovery: Collection<R>, sleep: Collection<R>, cycle: Collection<R>, workout: Collection<R>)
    ensures Aggregate(false, start, end, isoNow, body, recovery, sleep, cycle, workout) == Fail(SessionExpired)
  {
  }

  /** A throw anywhere wins over every non-ok status: the generic 502 "Could not retrieve all data.". */
  lemma AggregateThrowWins<D, R>(start: string, end: string, isoNow: string, body: Single<D>,
                                 recovery: Collection<R>, sleep: Collection<R>, cycle: Collection<R>, workout: Collection<R>)
    requires body.SingleThrew? || recovery.Threw? || sleep.Threw? || cycle.Threw? || workout.Threw?
    ensures Aggregate(true, start, end, isoNow, body, recovery, sleep, cycle, workout)
      == Fail(ErrorReply(502, "whoop_api_error", "Could not retrieve all data."))
  {
  }

  /**
   * With no throw, a failing result is reported exactly when every result
   * before it in the order body, recovery, sleep, cycle, workout is ok,
   * whatever the later ones are.
   */
  lemma AggregateReportsFirstFailure<D, R>(start: string, end: string, isoNow: string, body: Single<D>,
                                           recovery: Collection<R>, sleep: Collection<R>, cycle: Collection<R>, workout: Collection<R>)
    requires !body.SingleThrew? && recovery.Collection? && sleep.Collection? && cycle.Collection? && workout.Collection?
    ensures body.SingleError? ==>
      Aggregate(true, start, end, isoNow, body, recovery, sleep, cycle, workout) == Fail(WhoopErrorResponse(body.status))
    ensures body.SingleOk? && !recovery.ok ==>
      Aggregate(true, start, end, isoNow, body, recovery, sleep, cycle, workout) == Fail(WhoopErrorResponse(recovery.status))
    ensures body.SingleOk? && recovery.ok && !sleep.ok ==>
      Aggregate(true, start, end, isoNow, body, recovery, sleep, cycle, workout) == Fail(WhoopErrorResponse(sleep.status))
    ensures body.SingleOk? && recovery.ok && sleep.ok && !cycle.ok ==>
      Aggregate(true, start, end, isoNow, body, recovery, sleep, cycle, workout) == Fail(WhoopErrorResponse(cycle.status))
    ensures body.SingleOk? && recovery.ok && sleep.ok && cycle.ok && !workout.ok ==>
      Aggregate(true, start, end, isoNow, body, recovery, sleep, cycle, workout) == Fail(WhoopErrorResponse(workout.status))
  {
    var rs := [BodyOutcome(body), CollectionOutcome(recovery), CollectionOutcome(sleep),
               CollectionOutcome(cycle), CollectionOutcome(workout)];
    if body.SingleError? {
      FirstFailureAt(rs, 0);
    } else if !recovery.ok {
      FirstFailureAt(rs, 1);
    } else if !sleep.ok {
      FirstFailureAt(rs, 2);
    } else if !cycle.ok {
      FirstFailureAt(rs, 3);
    } else if !workout.ok {
      FirstFailureAt(rs, 4);
    }
  }

  /** The first failure is the failing result that every earlier one precedes ok. */
  lemma FirstFailureAt(rs: seq<Outcome>, i: nat)
    requires i < |rs| && !rs[i].ok
    requires forall j :: 0 <= j < i ==> rs[j].ok
    ensures FirstFailure(rs) == Some(i)
  {
  }

  /** Only the sleep sweep fails: the reply is its mapped error and there is no payload. */
  lemma AggregateSleepFailure<D, R>(start: string, end: string, isoNow: string, data: D,
                                    recovery: seq<R>, records: seq<R>, status: int, cycles: seq<R>, workouts: seq<R>)
    ensures Aggregate(true, start, end, isoNow, SingleOk(data), Collection(true, 200, recovery), Collection(false, status, records),
                      Collection(true, 200, cycles), Collection(true, 200, workouts))
      == Fail(WhoopErrorResponse(status))
  {
    AggregateReportsFirstFailure(start, end, isoNow, SingleOk(data), Collection(true, 200, recovery), Collection(false, status, records),
                                 Collection(true, 200, cycles), Collection(true, 200, workouts));
  }

  /**
   * The aggregate sends a payload exactly when the session holds and all
   * five results are ok; the payload carries each sweep's records, the
   * date part of the clock, and `null` for a falsy period bound.
   */
  lemma AggregatePayload<D, R>(authenticated: bool, start: string, end: string, isoNow: string, body: Single<D>,
                               recovery: Collection<R>, sleep: Collection<R>, cycle: Collection<R>, workout: Collection<R>)
    ensures Aggregate(authenticated, start, end, isoNow, body, recovery, sleep, cycle, workout).Success? <==>
      authenticated && body.SingleOk? && recovery.Collection? && recovery.ok && sleep.Collection? && sleep.ok
      && cycle.Collection? && cycle.ok && workout.Collection? && workout.ok
    ensures Aggregate(authenticated, start, end, isoNow, body, recovery, sleep, cycle, workout).Success? ==>
      Aggregate(authenticated, start, end, isoNow, body, recovery, sleep, cycle, workout).payload ==
        AllData(DatePart(isoNow), Nullable(start), Nullable(end), body.data,
                recovery.records, sleep.records, cycle.records, workout.records)
  {
    if authenticated && !body.SingleThrew? && recovery.Collection? && sleep.Collection? && cycle.Collection? && workout.Collection? {
      var rs := [BodyOutcome(body), CollectionOutcome(recovery), CollectionOutcome(sleep),
                 CollectionOutcome(cycle), CollectionOutcome(workout)];
      if FirstFailure(rs).None? {
        assert rs[0].ok && rs[1].ok && rs[2].ok && rs[3].ok && rs[4].ok;
      } else {
        assert !rs[FirstFailure(rs).value].ok;
      }
    }
  }

  /**
   * The aggregate handler: the body is a single fetch, the four collections
   * are sweeps of their upstreams with the current access token, and the
   * reply is the aggregate selection over the five results.
   */
  method WhoopAll<D, R>(authenticated: bool, bearer: string, start: string, end: string, isoNow: string,
                        body: Single<D>, recoveryPages: seq<Page<R>>, sleepPages: seq<Page<R>>,
                        cyclePages: seq<Page<R>>, workoutPages: seq<Page<R>>)
    returns (reply: Reply<AllData<D, R>>)
    requires UpstreamTerminates(recoveryPages) && UpstreamTerminates(sleepPages)
    requires UpstreamTerminates(cyclePages) && UpstreamTerminates(workoutPages)
    ensures reply == Aggregate(authenticated, start, end, isoNow, body,
      FetchAllPagesSpec("/v2/recovery", Query(start, end, ""), bearer, recoveryPages).0,
      FetchAllPagesSpec("/v2/activity/sleep", Query(start, end, ""), bearer, sleepPages).0,
      FetchAllPagesSpec("/v2/cycle", Query(start, end, ""), bearer, cyclePages).0,
      FetchAllPagesSpec("/v2/activity/workout", Query(start, end, ""), bearer, workoutPages).0)
  {
    if !authenticated {
      return Fail(SessionExpired);
    }
    var q := Query(start, end, "");
    var recovery, _ := FetchAllPages("/v2/recovery", q, bearer, recoveryPages);
    var sleep, _ := FetchAllPages("/v2/activity/sleep", q, bearer, sleepPages);
    var cycle, _ := FetchAllPages("/v2/cycle", q, bearer, cyclePages);
    var workout, _ := FetchAllPages("/v2/activity/workout", q, bearer, workoutPages);
    reply := Aggregate(true, start, end, isoNow, body, recovery, sleep, cycle, workout);
  }
}
