/** connectors/sentos_api.py: the source system's connector. Its settings never change
    after construction, so they are a value; each remote call is replaced by the replies
    it would get, one per attempt or per page. */
module SentosApi {
  import opened Wrappers
  import opened Strs

  const MaxRetries: nat := 5
  /** `base_delay`, in seconds */
  const BaseDelay: nat := 15
  const CookieRequiredError := "Cookie ile istek için Sentos API Cookie ayarı gereklidir."
  const EmptySkuError := "Aranacak SKU boş olamaz."
  const JsonContentType := "application/json"
  const FormContentType := "application/x-www-form-urlencoded"
  const ImageEndpoint := "/urun_sayfalari/include/ajax/fetch_urunresimler.php"

  // ---------------------------------------------------------------- settings and URLs

  /** The connector's settings: `api_url`, the basic-auth key and secret, the cookie. */
  datatype SentosConfig = SentosConfig(apiUrl: string, apiKey: string, apiSecret: string, cookie: Option<string>)

  /** `api_url.strip().rstrip('/')` */
  function ApiUrl(raw: string): string {
    StripRightChar(Trim(raw), '/')
  }

  /** `SentosAPI(api_url, api_key, api_secret, api_cookie)` */
  function NewSentos(apiUrl: string, apiKey: string, apiSecret: string, cookie: Option<string>): SentosConfig {
    SentosConfig(ApiUrl(apiUrl), apiKey, apiSecret, cookie)
  }

  /** The stored URL is the trimmed URL without its trailing slashes. */
  lemma ApiUrlSpec(raw: string)
    ensures var u := ApiUrl(raw);
            && (u == [] || u[|u| - 1] != '/')
            && StartsWith(Trim(raw), u)
            && forall i :: |u| <= i < |Trim(raw)| ==> Trim(raw)[i] == '/'
  {
    var t := Trim(raw);
    StripRightSlashes(t);
  }

  lemma {:induction false} StripRightSlashes(s: string)
    ensures var u := StripRightChar(s, '/');
            forall i :: |u| <= i < |s| ==> s[i] == '/'
    decreases |s|
  {
    if |s| > 0 && s[|s| - 1] == '/' {
      StripRightSlashes(s[..|s| - 1]);
    }
  }

  /** The first index of "://" at or after `i`, if any. */
  function SchemeEnd(s: string, i: nat): (r: Option<nat>)
    decreases |s| - i
    ensures r.Some? ==> i <= r.value && r.value + 3 <= |s| && s[r.value..r.value + 3] == "://"
  {
    if i + 3 > |s| then None
    else if s[i..i + 3] == "://" then Some(i)
    else SchemeEnd(s, i + 1)
  }

  /** The network location: the text up to the first '/', '?' or '#'. */
  function HostPart(s: string): (r: string)
    ensures StartsWith(s, r)
    ensures forall i :: 0 <= i < |r| ==> r[i] != '/' && r[i] != '?' && r[i] != '#'
  {
    if |s| == 0 || s[0] == '/' || s[0] == '?' || s[0] == '#' then []
    else [s[0]] + HostPart(s[1..])
  }

  /** `f"{parsed.scheme}://{parsed.netloc}"` for `urlparse(api_url)`: both parts are empty
      when the URL has no "://". */
  function SchemeAndHost(url: string): string {
    match SchemeEnd(url, 0)
    case None => "://"
    case Some(i) => url[..i] + "://" + HostPart(url[i + 3..])
  }

  /** The URL `_make_request` calls: scheme and host plus the endpoint for internal
      calls, otherwise `api_url + '/' + endpoint.lstrip('/')`. */
  function RequestUrl(cfg: SentosConfig, endpoint: string, internal: bool): string {
    if internal then SchemeAndHost(cfg.apiUrl) + endpoint
    else cfg.apiUrl + "/" + StripLeftChar(endpoint, '/')
  }

  /** Internal calls go to the site root of `api_url` and end with the endpoint as given;
      other calls extend `api_url` with exactly one '/' before the endpoint. */
  lemma RequestUrlSpec(cfg: SentosConfig, endpoint: string, internal: bool)
    ensures var u := RequestUrl(cfg, endpoint, internal);
            && (internal ==> EndsWith(u, endpoint))
            && (internal && SchemeEnd(cfg.apiUrl, 0).Some? ==>
                  StartsWith(u, cfg.apiUrl[..SchemeEnd(cfg.apiUrl, 0).value] + "://"))
            && (!internal ==> StartsWith(u, cfg.apiUrl + "/") && |u| >= |cfg.apiUrl| + 1
                              && (|u| == |cfg.apiUrl| + 1 || u[|cfg.apiUrl| + 1] != '/'))
            && (!internal ==> u[|cfg.apiUrl| + 1..] == StripLeftChar(endpoint, '/'))
  {
    if internal {
      InternalUrl(cfg.apiUrl, endpoint);
    } else {
      ExternalUrl(cfg.apiUrl, endpoint);
    }
  }

  /** The URL of an internal call: scheme and host of the API URL, then the endpoint. */
  lemma InternalUrl(apiUrl: string, endpoint: string)
    ensures var u := SchemeAndHost(apiUrl) + endpoint;
            && EndsWith(u, endpoint)
            && (SchemeEnd(apiUrl, 0).Some? ==> StartsWith(u, apiUrl[..SchemeEnd(apiUrl, 0).value] + "://"))
  {
    ConcatEnds(SchemeAndHost(apiUrl), endpoint);
    match SchemeEnd(apiUrl, 0)
    case None =>
    case Some(i) =>
      var p := apiUrl[..i] + "://";
      var rest := HostPart(apiUrl[i + 3..]);
      assert SchemeAndHost(apiUrl) + endpoint == p + (rest + endpoint);
      ConcatEnds(p, rest + endpoint);
  }

  /** `urljoin(api_url + '/', endpoint.lstrip('/'))` for a relative endpoint: one '/'
      between the two. */
  lemma ExternalUrl(apiUrl: string, endpoint: string)
    ensures var u := apiUrl + "/" + StripLeftChar(endpoint, '/');
            && StartsWith(u, apiUrl + "/") && |u| >= |apiUrl| + 1
            && (|u| == |apiUrl| + 1 || u[|apiUrl| + 1] != '/')
            && u[|apiUrl| + 1..] == StripLeftChar(endpoint, '/')
  {
    var e := StripLeftChar(endpoint, '/');
    var u := apiUrl + "/" + e;
    assert u[..|apiUrl| + 1] == apiUrl + "/";
    assert u[|apiUrl| + 1..] == e;
  }

  // ---------------------------------------------------------------- authentication

  datatype Headers = Headers(contentType: string, accept: string, cookie: Option<string>)

  /** The headers sent and the basic-auth pair, when basic auth is used. */
  datatype RequestAuth = RequestAuth(headers: Headers, basicAuth: Option<(string, string)>)

  /** What an exception raised by the connector is: a ValueError or another exception. */
  datatype SentosError = ValueError(text: string) | RaisedError(text: string)

  /** The value of a call, or the exception it raises. */
  datatype Outcome<T> = Done(value: T) | Failed(error: SentosError)

  /** The headers and auth of `_make_request` for cookie or basic authentication. */
  function AuthFor(cfg: SentosConfig, cookieAuth: bool): Outcome<RequestAuth> {
    if cookieAuth then
      if !Present(cfg.cookie) then Failed(ValueError(CookieRequiredError))
      else Done(RequestAuth(Headers(FormContentType, JsonContentType, cfg.cookie), None))
    else Done(RequestAuth(Headers(JsonContentType, JsonContentType, None), Some((cfg.apiKey, cfg.apiSecret))))
  }

  /** Cookie authentication without a cookie is a ValueError; with one it sends the
      cookie as a form post and never basic auth; otherwise basic auth with JSON
      headers and no cookie. */
  lemma AuthForSpec(cfg: SentosConfig, cookieAuth: bool)
    ensures var a := AuthFor(cfg, cookieAuth);
            && (a.Failed? <==> cookieAuth && !Present(cfg.cookie))
            && (a.Failed? ==> a.error == ValueError(CookieRequiredError))
            && (a.Done? && cookieAuth ==>
                  a.value.basicAuth.None? && a.value.headers.cookie == cfg.cookie
                  && a.value.headers.contentType == FormContentType)
            && (a.Done? && !cookieAuth ==>
                  a.value.basicAuth == Some((cfg.apiKey, cfg.apiSecret)) && a.value.headers.cookie.None?
                  && a.value.headers.contentType == JsonContentType)
  {
  }

  // ---------------------------------------------------------------- the retry loop

  /** What one request brings back: a response, an HTTPError with its status and text,
      or another RequestException. */
  datatype Reply<T> = Responded(value: T) | HttpStatus(status: int, text: string) | ConnectionFailed(text: string)

  /** What one iteration of the retry loop does. */
  datatype Step<T> = RetryAfter(wait: nat) | Return(value: T) | Raise(message: string)

  /** `base_delay * (2 ** attempt)` */
  function RetryWait(attempt: nat): nat {
    BaseDelay * Pow2(attempt)
  }

  function HttpErrorText(url: string, text: string): string {
    "Sentos API Hatası (" + url + "): " + text
  }

  function ConnectionErrorText(url: string, text: string): string {
    "Sentos API Bağlantı Hatası (" + url + "): " + text
  }

  /** One iteration: a response is returned; HTTP 500 and 429 are retried while attempts
      are left; any other HTTP error, one on the last attempt, and every other request
      failure raise. */
  function RequestStep<T>(url: string, reply: Reply<T>, attempt: nat): (s: Step<T>)
    ensures s.RetryAfter? ==> attempt < MaxRetries - 1 && s.wait == RetryWait(attempt)
  {
    match reply
    case Responded(v) => Return(v)
    case HttpStatus(status, text) =>
      if (status == 500 || status == 429) && attempt < MaxRetries - 1 then RetryAfter(RetryWait(attempt))
      else Raise(HttpErrorText(url, text))
    case ConnectionFailed(text) => Raise(ConnectionErrorText(url, text))
  }

  datatype RequestOutcome<T> = RequestOutcome(result: Outcome<T>, waits: seq<nat>)

  function StepOutcome<T>(s: Step<T>): Outcome<T> {
    match s
    case Return(v) => Done(v)
    case Raise(m) => Failed(RaisedError(m))
    case RetryAfter(_) => Failed(RaisedError("retry"))
  }

  /** The loop from attempt `k` on: the waits slept and what the call returns or raises. */
  function RequestRun<T>(url: string, replies: seq<Reply<T>>, k: nat): (o: RequestOutcome<T>)
    requires |replies| == MaxRetries && k < MaxRetries
    decreases MaxRetries - k
    ensures k + |o.waits| < MaxRetries
  {
    match RequestStep(url, replies[k], k)
    case RetryAfter(w) =>
      var rest := RequestRun(url, replies, k + 1);
      RequestOutcome(rest.result, [w] + rest.waits)
    case Return(v) => RequestOutcome(Done(v), [])
    case Raise(m) => RequestOutcome(Failed(RaisedError(m)), [])
  }

  /** The run from `k` waits 15·2^i seconds before attempt i + 1, retries only on HTTP 500
      and 429, and ends with what the first attempt that does not retry decides. */
  lemma {:induction false} RequestRunSpec<T>(url: string, replies: seq<Reply<T>>, k: nat)
    requires |replies| == MaxRetries && k < MaxRetries
    decreases MaxRetries - k
    ensures var o := RequestRun(url, replies, k);
            && (forall i :: 0 <= i < |o.waits| ==> o.waits[i] == RetryWait(k + i))
            && (forall i :: k <= i < k + |o.waits| ==>
                  replies[i].HttpStatus? && (replies[i].status == 500 || replies[i].status == 429))
            && !RequestStep(url, replies[k + |o.waits|], k + |o.waits|).RetryAfter?
            && o.result == StepOutcome(RequestStep(url, replies[k + |o.waits|], k + |o.waits|))
  {
    if RequestStep(url, replies[k], k).RetryAfter? {
      RequestRunSpec(url, replies, k + 1);
      var o := RequestRun(url, replies, k);
      var rest := RequestRun(url, replies, k + 1);
      assert o.waits == [RetryWait(k)] + rest.waits;
      forall i | 0 <= i < |o.waits| ensures o.waits[i] == RetryWait(k + i) {
        if i > 0 {
          assert o.waits[i] == rest.waits[i - 1];
        }
      }
    }
  }

  /** A connection failure is never retried, whatever the attempt. */
  lemma ConnectionFailureRaises<T>(url: string, replies: seq<Reply<T>>)
    requires |replies| == MaxRetries && replies[0].ConnectionFailed?
    ensures RequestRun(url, replies, 0) == RequestOutcome(Failed(RaisedError(ConnectionErrorText(url, replies[0].text))), [])
  {
  }

  /** Five HTTP 500 replies in a row: four waits of 15, 30, 60 and 120 seconds, then the
      error is raised. */
  lemma ServerErrorsExhaustRetries<T>(url: string, replies: seq<Reply<T>>)
    requires |replies| == MaxRetries
    requires forall i :: 0 <= i < MaxRetries ==> replies[i] == HttpStatus(500, "boom")
    ensures RequestRun(url, replies, 0) == RequestOutcome(Failed(RaisedError(HttpErrorText(url, "boom"))), [15, 30, 60, 120])
  {
    assert RequestStep(url, replies[4], 4) == Raise(HttpErrorText(url, "boom"));
    assert RequestRun(url, replies, 4).waits == [];
    assert RequestRun(url, replies, 3).waits == [120];
    assert RequestRun(url, replies, 2).waits == [60, 120];
    assert RequestRun(url, replies, 1).waits == [30, 60, 120];
  }

  /** One retry of the run: its wait comes first, then the rest of the run. */
  lemma RequestRunRetry<T>(url: string, replies: seq<Reply<T>>, k: nat, w: nat)
    requires |replies| == MaxRetries && k < MaxRetries
    requires RequestStep(url, replies[k], k) == RetryAfter(w)
    ensures k + 1 < MaxRetries
    ensures RequestRun(url, replies, k)
         == RequestOutcome(RequestRun(url, replies, k + 1).result, [w] + RequestRun(url, replies, k + 1).waits)
  {
  }

  /** An attempt that does not retry ends the run with what it decides. */
  lemma RequestRunStop<T>(url: string, replies: seq<Reply<T>>, k: nat)
    requires |replies| == MaxRetries && k < MaxRetries
    requires !RequestStep(url, replies[k], k).RetryAfter?
    ensures RequestRun(url, replies, k) == RequestOutcome(StepOutcome(RequestStep(url, replies[k], k)), [])
  {
  }

  /** The retry loop of `_make_request` on `url`: `replies[i]` is what the i-th attempt
      would get. */
  method RetryLoop<T>(url: string, replies: seq<Reply<T>>) returns (result: Outcome<T>, waits: seq<nat>)
    requires |replies| == MaxRetries
    ensures RequestOutcome(result, waits) == RequestRun(url, replies, 0)
  {
    waits := [];
    var attempt: nat := 0;
    // the last attempt never retries, so the loop always ends by returning
    while attempt < MaxRetries
      invariant attempt < MaxRetries
      invariant RequestRun(url, replies, 0).result == RequestRun(url, replies, attempt).result
      invariant RequestRun(url, replies, 0).waits == waits + RequestRun(url, replies, attempt).waits
      decreases MaxRetries - attempt
    {
      var step := RequestStep(url, replies[attempt], attempt);
      if step.RetryAfter? {
        RequestRunRetry(url, replies, attempt, step.wait);
        assert waits + RequestRun(url, replies, attempt).waits
            == (waits + [step.wait]) + RequestRun(url, replies, attempt + 1).waits;
        waits := waits + [step.wait];
        attempt := attempt + 1;
      } else {
        RequestRunStop(url, replies, attempt);
        assert waits + [] == waits;
        return StepOutcome(step), waits;
      }
    }
    assert false;
  }

  /** `_make_request`: the authentication check, then the retry loop on the request URL. */
  method MakeRequest<T>(cfg: SentosConfig, endpoint: string, cookieAuth: bool, internal: bool, replies: seq<Reply<T>>)
    returns (result: Outcome<T>, waits: seq<nat>)
    requires |replies| == MaxRetries
    ensures AuthFor(cfg, cookieAuth).Failed? ==> result == Failed(AuthFor(cfg, cookieAuth).error) && waits == []
    ensures AuthFor(cfg, cookieAuth).Done? ==>
              RequestOutcome(result, waits) == RequestRun(RequestUrl(cfg, endpoint, internal), replies, 0)
  {
    var auth := AuthFor(cfg, cookieAuth);
    if auth.Failed? {
      return Failed(auth.error), [];
    }
    result, waits := RetryLoop(RequestUrl(cfg, endpoint, internal), replies);
  }

  // ---------------------------------------------------------------- product pages

  const ProductsFailedPrefix := "Sentos API'den ürünler çekilemedi: "

  /** `total_elements` as read: absent is the text 'Bilinmiyor', null is None. */
  datatype TotalValue = NoTotal | IntTotal(n: int) | OtherTotal

  /** What `_make_request(...).json()` gives for one page: its 'data' list and
      'total_elements' entry, or the text of the exception raised. */
  datatype PageFetch<P> = PageOf(products: seq<P>, total: TotalValue) | PageRaised(text: string)

  /** The report given to the progress callback after a page. */
  datatype ProgressReport = ProgressReport(fetched: nat, total: TotalValue, percent: int)

  /** `int(len / total * 100)` when the total is a positive int, else 0. */
  function FetchProgress(fetched: nat, total: TotalValue): int {
    if total.IntTotal? && total.n > 0 then (fetched * 100) / total.n else 0
  }

  /** Whether the loop goes on after page `j` (0-based): it was fetched, it was not an
      empty page after the first, and it was full. */
  predicate PageContinues<P>(pages: seq<PageFetch<P>>, j: nat, pageSize: int)
    requires j < |pages|
  {
    pages[j].PageOf? && !(|pages[j].products| == 0 && j > 0) && |pages[j].products| >= pageSize
  }

  /** The loop went on after each of the first `n` pages. */
  predicate PagesContinue<P>(pages: seq<PageFetch<P>>, n: nat, pageSize: int)
    requires n <= |pages|
  {
    n == 0 || (PagesContinue(pages, n - 1, pageSize) && PageContinues(pages, n - 1, pageSize))
  }

  lemma {:induction false} PagesContinueSpec<P>(pages: seq<PageFetch<P>>, n: nat, pageSize: int, j: nat)
    requires j < n <= |pages| && PagesContinue(pages, n, pageSize)
    ensures PageContinues(pages, j, pageSize)
  {
    if j < n - 1 {
      PagesContinueSpec(pages, n - 1, pageSize, j);
    }
  }

  /** The products of the first `n` pages, concatenated in page order. */
  function Collected<P>(pages: seq<PageFetch<P>>, n: nat): seq<P>
    requires n <= |pages|
  {
    if n == 0 then []
    else Collected(pages, n - 1) + (if pages[n - 1].PageOf? then pages[n - 1].products else [])
  }

  /** The first `total_elements` read that is not None, from the first `n` pages. */
  function KnownTotal<P>(pages: seq<PageFetch<P>>, n: nat): TotalValue
    requires n <= |pages|
  {
    if n == 0 then NoTotal
    else
      var prev := KnownTotal(pages, n - 1);
      if prev.NoTotal? && pages[n - 1].PageOf? then pages[n - 1].total else prev
  }

  /** The progress reports after each of the first `n` pages. */
  function Reports<P>(pages: seq<PageFetch<P>>, n: nat): (r: seq<ProgressReport>)
    requires n <= |pages|
    ensures |r| == n
  {
    if n == 0 then []
    else
      var count := |Collected(pages, n)|;
      var total := KnownTotal(pages, n);
      Reports(pages, n - 1) + [ProgressReport(count, total, FetchProgress(count, total))]
  }

  /** How the page loop ends: the products and the reports of the pages read, the
      wrapped exception of a failed page, or (in the model only) the end of the given
      pages. */
  datatype ProductsFetch<P> =
    | AllProducts(products: seq<P>, reports: seq<ProgressReport>, pagesRead: nat)
    | ProductsFailed(message: string)
    | ProductPagesExhausted

  /** An earlier prefix of pages collects a prefix of the products. */
  lemma {:induction false} CollectedGrows<P>(pages: seq<PageFetch<P>>, m: nat, n: nat)
    requires m <= n <= |pages|
    ensures Collected(pages, m) <= Collected(pages, n)
    decreases n - m
  {
    if m < n {
      CollectedGrows(pages, m, n - 1);
    }
  }

  /** An empty first page, whatever total it reports, ends the loop with no products
      when pages are not empty. */
  lemma EmptyFirstPage<P>(pages: seq<PageFetch<P>>, pageSize: int)
    requires |pages| > 0 && pages[0].PageOf? && pages[0].products == [] && pageSize > 0
    ensures !PageContinues(pages, 0, pageSize) && Collected(pages, 1) == []
  {
  }

  /** `get_all_products`: `pages[i]` is what page i + 1 would give. */
  method GetAllProducts<P>(pages: seq<PageFetch<P>>, pageSize: int) returns (r: ProductsFetch<P>)
    ensures r.AllProducts? ==>
              && 1 <= r.pagesRead <= |pages|
              && PagesContinue(pages, r.pagesRead - 1, pageSize)
              && pages[r.pagesRead - 1].PageOf?
              && !PageContinues(pages, r.pagesRead - 1, pageSize)
              && (|pages[r.pagesRead - 1].products| == 0 && r.pagesRead > 1 ==>
                    r.products == Collected(pages, r.pagesRead - 1) && r.reports == Reports(pages, r.pagesRead - 1))
              && (!(|pages[r.pagesRead - 1].products| == 0 && r.pagesRead > 1) ==>
                    r.products == Collected(pages, r.pagesRead) && r.reports == Reports(pages, r.pagesRead))
    ensures r.ProductsFailed? ==>
              exists i :: 0 <= i < |pages| && PagesContinue(pages, i, pageSize) && pages[i].PageRaised?
                          && r.message == ProductsFailedPrefix + pages[i].text
    ensures r.ProductPagesExhausted? ==> PagesContinue(pages, |pages|, pageSize)
  {
    var all: seq<P> := [];
    var reports: seq<ProgressReport> := [];
    var total := NoTotal;
    var i := 0;
    while i < |pages|
      invariant 0 <= i <= |pages|
      invariant PagesContinue(pages, i, pageSize)
      invariant all == Collected(pages, i) && reports == Reports(pages, i) && total == KnownTotal(pages, i)
    {
      var page := pages[i];
      if page.PageRaised? {
        return ProductsFailed(ProductsFailedPrefix + page.text);
      }
      if |page.products| == 0 && i > 0 {
        return AllProducts(all, reports, i + 1);
      }
      all := all + page.products;
      if total.NoTotal? {
        total := page.total;
      }
      reports := reports + [ProgressReport(|all|, total, FetchProgress(|all|, total))];
      if |page.products| < pageSize {
        return AllProducts(all, reports, i + 1);
      }
      i := i + 1;
    }
    return ProductPagesExhausted;
  }

  // ---------------------------------------------------------------- ordered image URLs

  /** The first index holding '"' at or after `i`, or |s|. */
  function QuoteFrom(s: string, i: nat): (r: nat)
    requires i <= |s|
    decreases |s| - i
    ensures i <= r <= |s| && (r < |s| ==> s[r] == '"')
    ensures forall j :: i <= j < r ==> s[j] != '"'
  {
    if i == |s| || s[i] == '"' then i else QuoteFrom(s, i + 1)
  }

  /** "/o_" starts at index j of `body`. */
  predicate MarkerAt(body: string, j: int) {
    1 <= j && j + 3 < |body| && body[j..j + 3] == "/o_"
  }

  /** `[^"]+/o_[^"]+`: some "/o_" with text before and after it. */
  predicate HasImageMarker(body: string) {
    exists j :: 1 <= j < |body| && MarkerAt(body, j)
  }

  /** Where the scheme of a match at p ends: after "http" and an optional 's'. */
  function SchemeStop(s: string, p: nat): nat {
    if p + 10 < |s| && s[p + 10] == 's' then p + 11 else p + 10
  }

  /** Where the group of `href="(https?://[^"]+/o_[^"]+)"` ends when it matches at p: at
      the first quote after "://". */
  function MatchEnd(s: string, p: nat): Option<nat> {
    var q := SchemeStop(s, p);
    if p + 10 <= |s| && s[p..p + 6] == "href=\"" && s[p + 6..p + 10] == "http" && q + 3 <= |s| && s[q..q + 3] == "://" then
      var e := QuoteFrom(s, q + 3);
      if e < |s| && HasImageMarker(s[q + 3..e]) then Some(e) else None
    else None
  }

  /** The group of the regular expression when it matches at index p. */
  function MatchAt(s: string, p: nat): (r: Option<string>)
    requires p <= |s|
  {
    match MatchEnd(s, p)
    case None => None
    case Some(e) => Some(s[p + 6..e])
  }

  /** `re.search(...)`: the group of the leftmost match from `p` on. */
  function FirstImageUrl(s: string, p: nat): Option<string>
    requires p <= |s|
    decreases |s| - p
  {
    if p == |s| then None
    else if MatchAt(s, p).Some? then MatchAt(s, p)
    else FirstImageUrl(s, p + 1)
  }

  /** A matched URL is an http(s) URL with an "/o_" file and no quote, and it stands in
      the cell as `href="<url>"`. */
  lemma MatchAtSpec(s: string, p: nat)
    requires p <= |s| && MatchAt(s, p).Some?
    ensures var u := MatchAt(s, p).value;
            && StartsWith(u, "http") && Contains(u, "/o_")
            && (forall i :: 0 <= i < |u| ==> u[i] != '"')
            && p + 6 + |u| < |s| && s[p..p + 6] == "href=\"" && s[p + 6..p + 6 + |u|] == u && s[p + 6 + |u|] == '"'
  {
    var e := MatchEnd(s, p).value;
    var u := s[p + 6..e];
    assert MatchAt(s, p).value == u;
    assert u[..4] == s[p + 6..p + 10];
    MatchHasMarker(s, p);
    MatchHasNoQuote(s, p);
  }

  /** The group of a match holds "/o_". */
  lemma MatchHasMarker(s: string, p: nat)
    requires MatchEnd(s, p).Some?
    ensures p + 6 <= MatchEnd(s, p).value <= |s| && Contains(s[p + 6..MatchEnd(s, p).value], "/o_")
  {
    var q := SchemeStop(s, p);
    var e := MatchEnd(s, p).value;
    var u := s[p + 6..e];
    var body := s[q + 3..e];
    var j :| 1 <= j < |body| && MarkerAt(body, j);
    var k := q + 3 - (p + 6) + j;
    SliceOfSlice(s, q + 3, e, j, j + 3);
    SliceOfSlice(s, p + 6, e, k, k + 3);
    ContainsAt(u, "/o_", k);
  }

  /** A slice of a slice is a slice of the whole. */
  lemma SliceOfSlice<T>(s: seq<T>, a: nat, b: nat, c: nat, d: nat)
    requires a <= b <= |s| && c <= d <= b - a
    ensures s[a..b][c..d] == s[a + c..a + d]
  {
    var x, y := s[a..b][c..d], s[a + c..a + d];
    assert |x| == |y|;
    forall t | 0 <= t < |x|
      ensures x[t] == y[t]
    {
      assert x[t] == s[a..b][c + t] == s[a + c + t];
    }
  }

  /** The group of a match holds no quote. */
  lemma MatchHasNoQuote(s: string, p: nat)
    requires MatchEnd(s, p).Some?
    ensures p + 6 <= MatchEnd(s, p).value <= |s| && forall i :: p + 6 <= i < MatchEnd(s, p).value ==> s[i] != '"'
  {
    var q := SchemeStop(s, p);
    var e := MatchEnd(s, p).value;
    forall i | p + 6 <= i < e
      ensures s[i] != '"'
    {
      if i < p + 10 {
        assert s[i] == s[p + 6..p + 10][i - (p + 6)];
      } else if i < q {
        assert s[i] == 's';
      } else if i < q + 3 {
        assert s[i] == s[q..q + 3][i - q];
      }
    }
  }

  lemma {:induction false} ContainsAt(s: string, sub: string, k: nat)
    requires k + |sub| <= |s| && s[k..k + |sub|] == sub
    ensures Contains(s, sub)
    decreases k
  {
    if k > 0 {
      assert s[1..][k - 1..k - 1 + |sub|] == s[k..k + |sub|];
      ContainsAt(s[1..], sub, k - 1);
    } else {
      assert s[..|sub|] == sub;
    }
  }

  /** The leftmost match wins: no earlier index matches. */
  lemma FirstImageUrlSpec(s: string, p: nat)
    requires p <= |s|
    ensures FirstImageUrl(s, p).None? <==> forall i :: p <= i <= |s| ==> MatchAt(s, i).None?
    ensures FirstImageUrl(s, p).Some? ==>
              exists i :: p <= i <= |s| && FirstImageUrl(s, p) == MatchAt(s, i)
                          && forall j :: p <= j < i ==> MatchAt(s, j).None?
  {
    NoMatchFrom(s, p);
    if FirstImageUrl(s, p).Some? {
      var i := LeftmostMatch(s, p);
    }
  }

  /** One step of the search: a match at `p` is the answer, otherwise the search goes on
      from `p + 1`. */
  lemma FirstImageUrlStep(s: string, p: nat)
    requires p < |s|
    ensures MatchAt(s, p).Some? ==> FirstImageUrl(s, p) == MatchAt(s, p)
    ensures MatchAt(s, p).None? ==> FirstImageUrl(s, p) == FirstImageUrl(s, p + 1)
  {
  }

  /** No URL is found exactly when no index from `p` on matches. */
  lemma {:induction false} NoMatchFrom(s: string, p: nat)
    requires p <= |s|
    decreases |s| - p
    ensures FirstImageUrl(s, p).None? <==> forall i :: p <= i <= |s| ==> MatchAt(s, i).None?
  {
    if p == |s| {
      assert MatchAt(s, p).None?;
    } else {
      FirstImageUrlStep(s, p);
      if MatchAt(s, p).None? {
        NoMatchFrom(s, p + 1);
      }
    }
  }

  /** The index whose match is the URL found; no earlier index matches. */
  lemma {:induction false} LeftmostMatch(s: string, p: nat) returns (i: nat)
    requires p <= |s| && FirstImageUrl(s, p).Some?
    decreases |s| - p
    ensures p <= i <= |s| && FirstImageUrl(s, p) == MatchAt(s, i)
    ensures forall j :: p <= j < i ==> MatchAt(s, j).None?
  {
    FirstImageUrlStep(s, p);
    if MatchAt(s, p).Some? {
      i := p;
    } else {
      i := LeftmostMatch(s, p + 1);
    }
  }

  /** The URLs of the first `n` data rows: cell 2's first match, for rows with more than
      two cells, in row order. */
  function ImageUrls(rows: seq<seq<string>>, n: nat): (r: seq<string>)
    requires n <= |rows|
    ensures |r| <= n
  {
    if n == 0 then []
    else
      var row := rows[n - 1];
      var m := if |row| > 2 then FirstImageUrl(row[2], 0) else None;
      ImageUrls(rows, n - 1) + (if m.Some? then [m.value] else [])
  }

  /** Rows with at most two cells, or without a match, add nothing; a row with a match
      adds exactly its URL at the end. */
  lemma ImageUrlsStep(rows: seq<seq<string>>, n: nat)
    requires n < |rows|
    ensures |rows[n]| <= 2 ==> ImageUrls(rows, n + 1) == ImageUrls(rows, n)
    ensures |rows[n]| > 2 && FirstImageUrl(rows[n][2], 0).Some? ==>
              ImageUrls(rows, n + 1) == ImageUrls(rows, n) + [FirstImageUrl(rows[n][2], 0).value]
    ensures |rows[n]| > 2 && FirstImageUrl(rows[n][2], 0).None? ==> ImageUrls(rows, n + 1) == ImageUrls(rows, n)
  {
  }

  /** What the image request's reply parses to: its data rows, or a body that is not
      JSON (a ValueError). */
  datatype ImageBody = ImageRows(rows: seq<seq<string>>) | NotJson

  /** The URL loop of `get_ordered_image_urls`. */
  method CollectImageUrls(rows: seq<seq<string>>) returns (urls: seq<string>)
    ensures urls == ImageUrls(rows, |rows|)
  {
    urls := [];
    var i := 0;
    while i < |rows|
      invariant 0 <= i <= |rows|
      invariant urls == ImageUrls(rows, i)
    {
      if |rows[i]| > 2 {
        var m := FirstImageUrl(rows[i][2], 0);
        if m.Some? {
          urls := urls + [m.value];
        }
      }
      i := i + 1;
    }
  }

  /** `get_ordered_image_urls`: None without a cookie or on a ValueError, [] on any other
      failure, otherwise the URLs in row order. */
  method GetOrderedImageUrls(cfg: SentosConfig, replies: seq<Reply<ImageBody>>) returns (r: Option<seq<string>>)
    requires |replies| == MaxRetries
    ensures !Present(cfg.cookie) ==> r.None?
    ensures Present(cfg.cookie) ==>
              var call := RequestRun(RequestUrl(cfg, ImageEndpoint, true), replies, 0).result;
              && (call.Failed? ==> r == Some([]))
              && (call.Done? && call.value.NotJson? ==> r.None?)
              && (call.Done? && call.value.ImageRows? ==> r == Some(ImageUrls(call.value.rows, |call.value.rows|)))
  {
    if !Present(cfg.cookie) {
      return None;
    }
    var call, _ := MakeRequest(cfg, ImageEndpoint, true, true, replies);
    if call.Failed? {
      if call.error.ValueError? {
        return None;
      }
      return Some([]);
    }
    if call.value.NotJson? {
      return None;
    }
    var urls := CollectImageUrls(call.value.rows);
    return Some(urls);
  }

  // ---------------------------------------------------------------- one product by SKU

  function SkuEndpoint(sku: string): string {
    "/products?sku=" + Trim(sku)
  }

  /** `get_product_by_sku`: a missing or empty SKU is a ValueError; otherwise the first
      product the trimmed SKU finds, None when it finds none, or the request's exception. */
  method GetProductBySku<P>(cfg: SentosConfig, sku: Option<string>, replies: seq<Reply<seq<P>>>)
    returns (r: Outcome<Option<P>>)
    requires |replies| == MaxRetries
    ensures !Present(sku) ==> r == Failed(ValueError(EmptySkuError))
    ensures Present(sku) ==>
              var call := RequestRun(RequestUrl(cfg, SkuEndpoint(sku.value), false), replies, 0).result;
              && (call.Failed? ==> r == Failed(call.error))
              && (call.Done? && |call.value| == 0 ==> r == Done(None))
              && (call.Done? && |call.value| > 0 ==> r == Done(Some(call.value[0])))
  {
    if !Present(sku) {
      return Failed(ValueError(EmptySkuError));
    }
    var call, _ := MakeRequest(cfg, SkuEndpoint(sku.value), false, false, replies);
    if call.Failed? {
      return Failed(call.error);
    }
    if |call.value| == 0 {
      return Done(None);
    }
    return Done(Some(call.value[0]));
  }
}
