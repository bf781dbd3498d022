/** connectors/shopify_api.py: the destination-store connector. Remote replies are
    inputs (one value per request), the clock is an input, and the token-bucket wait and
    the GraphQL retry backoffs are returned as durations; the fixed pauses between pages
    and SKU batches are not. */
module ShopifyApi {
  import opened Wrappers
  import opened Strs
  import opened Json
  import opened Batching
  import opened Dicts

  // ---------------------------------------------------------------- configuration

  const DefaultApiVersion := "2024-10"
  const EmptyStoreUrlError := "Shopify Mağaza URL'si boş olamaz."
  const EmptyTokenError := "Shopify Erişim Token'ı boş olamaz."

  /** What the constructor derives from its arguments. */
  datatype Endpoints = Endpoints(storeUrl: string, accessToken: string, apiVersion: string, graphqlUrl: string)

  /** A store URL that does not start with "http" is trimmed and given "https://". */
  function NormalizeStoreUrl(storeUrl: string): (r: string)
    ensures StartsWith(r, "http")
    ensures StartsWith(storeUrl, "http") ==> r == storeUrl
    ensures !StartsWith(storeUrl, "http") ==> StartsWith(r, "https://") && r[8..] == Trim(storeUrl)
  {
    if StartsWith(storeUrl, "http") then storeUrl else "https://" + Trim(storeUrl)
  }

  /** Normalising twice changes nothing. */
  lemma NormalizeStoreUrlIdempotent(storeUrl: string)
    ensures NormalizeStoreUrl(NormalizeStoreUrl(storeUrl)) == NormalizeStoreUrl(storeUrl)
  {
  }

  /** The constructor's checks and derived URLs (ValueError becomes `Err`). */
  function Configure(storeUrl: string, accessToken: string, apiVersion: string): (r: Result<Endpoints>)
    ensures r.Err? <==> storeUrl == "" || accessToken == ""
    ensures storeUrl == "" ==> r == Err(EmptyStoreUrlError)
    ensures storeUrl != "" && accessToken == "" ==> r == Err(EmptyTokenError)
    ensures r.Ok? ==> (r.value.storeUrl == NormalizeStoreUrl(storeUrl)
                       && r.value.apiVersion == apiVersion
                       && r.value.accessToken == accessToken
                       && r.value.graphqlUrl == r.value.storeUrl + "/admin/api/" + apiVersion + "/graphql.json")
  {
    if storeUrl == "" then Err(EmptyStoreUrlError)
    else if accessToken == "" then Err(EmptyTokenError)
    else
      var base := NormalizeStoreUrl(storeUrl);
      Ok(Endpoints(base, accessToken, apiVersion, base + "/admin/api/" + apiVersion + "/graphql.json"))
  }

  /** URL choice in `_make_request`. */
  function RequestUrl(e: Endpoints, endpoint: string, isGraphql: bool): (url: string)
    ensures StartsWith(endpoint, "http") ==> url == endpoint
    ensures !StartsWith(endpoint, "http") && !isGraphql ==>
              url == e.storeUrl + "/admin/api/" + e.apiVersion + "/" + endpoint
    ensures !StartsWith(endpoint, "http") && isGraphql ==> url == e.graphqlUrl
  {
    if !isGraphql && !StartsWith(endpoint, "http") then
      e.storeUrl + "/admin/api/" + e.apiVersion + "/" + endpoint
    else if StartsWith(endpoint, "http") then endpoint
    else e.graphqlUrl
  }

  lemma StartsWithAppend(a: string, b: string, p: string)
    requires StartsWith(a, p)
    ensures StartsWith(a + b, p)
  {
    assert (a + b)[..|p|] == a[..|p|];
  }

  /** Every request of a configured connector goes to an absolute http(s) URL. */
  lemma RequestUrlAbsolute(storeUrl: string, token: string, version: string, endpoint: string, isGraphql: bool)
    requires Configure(storeUrl, token, version).Ok?
    ensures StartsWith(RequestUrl(Configure(storeUrl, token, version).value, endpoint, isGraphql), "http")
  {
    var e := Configure(storeUrl, token, version).value;
    var base := e.storeUrl;
    assert StartsWith(base, "http");
    StartsWithAppend(base, "/admin/api/", "http");
    StartsWithAppend(base + "/admin/api/", version, "http");
    if !StartsWith(endpoint, "http") {
      if isGraphql {
        StartsWithAppend(base + "/admin/api/" + version, "/graphql.json", "http");
      } else {
        StartsWithAppend(base + "/admin/api/" + version, "/", "http");
        StartsWithAppend(base + "/admin/api/" + version + "/", endpoint, "http");
      }
    }
  }

  // ---------------------------------------------------------------- token bucket

  const BurstTokens: real := 10.0
  /** `max_requests_per_minute / 60.0` with 40 requests per minute */
  const RefillPerSecond: real := 40.0 / 60.0

  datatype Bucket = Bucket(tokens: real, lastRequest: real)
  datatype BucketStep = BucketStep(after: Bucket, wait: real)

  /** Tokens after the refill at time `now`. */
  function Refilled(b: Bucket, now: real): real {
    MinR(BurstTokens, b.tokens + (now - b.lastRequest) * RefillPerSecond)
  }

  /** One `_rate_limit_wait` call at time `now`; the clock read after the sleep is
      taken to be `now + wait`. */
  function RateLimitStep(b: Bucket, now: real): (s: BucketStep)
    ensures 0.0 <= s.after.tokens <= BurstTokens - 1.0
    ensures s.wait >= 0.0
    ensures s.wait == 0.0 <==> Refilled(b, now) >= 1.0
    ensures s.wait == 0.0 ==> s.after == Bucket(Refilled(b, now) - 1.0, now)
    ensures s.wait > 0.0 ==> s.after == Bucket(0.0, now + s.wait)
    ensures b.tokens >= 0.0 && now >= b.lastRequest ==> s.wait <= 1.0 / RefillPerSecond
  {
    var t := Refilled(b, now);
    if t >= 1.0 then BucketStep(Bucket(t - 1.0, now), 0.0)
    else
      var w := (1.0 - t) / RefillPerSecond;
      BucketStep(Bucket(0.0, now + w), w)
  }

  /** After an idle second and a half a request never waits. */
  lemma IdleBucketDoesNotWait(b: Bucket, now: real)
    requires b.tokens >= 0.0 && now - b.lastRequest >= 1.5
    ensures RateLimitStep(b, now).wait == 0.0
  {
  }

  /** The bucket after `n` requests made at `clock[0], ..., clock[n - 1]`. */
  function BucketAfter(b: Bucket, clock: seq<real>, n: nat): Bucket
    requires n <= |clock|
  {
    if n == 0 then b else RateLimitStep(BucketAfter(b, clock, n - 1), clock[n - 1]).after
  }

  // ---------------------------------------------------------------- GraphQL retry loop

  const MaxGraphqlAttempts: nat := 8
  const RetryDelay: nat := 2
  const UnknownGraphqlError := "Bilinmeyen GraphQL hatası"

  /** One entry of a GraphQL `errors` array: its `extensions.code` and `message`. */
  datatype GqlError = GqlError(code: Option<string>, message: Option<string>)

  /** What one request brings back: a JSON body (with or without an `errors` key),
      an HTTPError raised by `raise_for_status`, or another RequestException. */
  datatype GqlReply =
    | Body(errors: Option<seq<GqlError>>, data: Option<Json>)
    | HttpStatusError(status: int)
    | ConnectionError(reason: string)

  /** The exception a call ends with. */
  datatype ApiFailure =
    | ExceptionRaised(message: string)
    | HttpFailure(status: int)
    | RequestFailure(reason: string)

  /** The value of a call, or the exception it raises. */
  datatype Fetched<T> = Fetched(value: T) | Raised(failure: ApiFailure)

  /** What one iteration of the retry loop does. */
  datatype GqlStep = Retry(wait: nat) | Deliver(data: Json) | Fail(failure: ApiFailure)

  datatype GqlOutcome = GqlOutcome(result: Fetched<Json>, waits: seq<nat>)

  /** `retry_delay * (2 ** attempt)`: the delay doubles with every attempt. */
  function Backoff(attempt: nat): nat {
    if attempt == 0 then RetryDelay else 2 * Backoff(attempt - 1)
  }

  predicate Throttled(errors: seq<GqlError>) {
    exists i :: 0 <= i < |errors| && errors[i].code == Some("THROTTLED")
  }

  /** The exception text: every message (or the fallback text) joined with ", ". */
  function GraphqlErrorMessage(errors: seq<GqlError>): string {
    "GraphQL Error: " + Join(", ", ErrorTexts(errors))
  }

  /** Each error's message, or the fallback text when it has none, in order. */
  function ErrorTexts(errors: seq<GqlError>): (r: seq<string>)
    ensures |r| == |errors|
  {
    if |errors| == 0 then []
    else [if errors[0].message.Some? then errors[0].message.value else UnknownGraphqlError] + ErrorTexts(errors[1..])
  }

  /** Python's `bool(response)`: a requests Response is truthy only when its status is below 400. */
  predicate ResponseTruthy(status: int) {
    status < 400
  }

  /** One iteration with the HTTP 429 guard as the code writes it: `e.response and status == 429`. */
  function GraphqlStepAsWritten(reply: GqlReply, attempt: nat): (s: GqlStep)
    requires attempt < MaxGraphqlAttempts
    ensures s.Retry? ==> attempt < MaxGraphqlAttempts - 1 && s.wait == Backoff(attempt)
  {
    match reply
    case HttpStatusError(status) =>
      if ResponseTruthy(status) && status == 429 && attempt < MaxGraphqlAttempts - 1 then Retry(Backoff(attempt))
      else Fail(HttpFailure(status))
    case _ => GraphqlStep(reply, attempt)
  }

  /** As written, an HTTP 429 is never retried: the response of an HTTPError is falsy. */
  lemma AsWrittenNeverRetriesHttp429(attempt: nat)
    requires attempt < MaxGraphqlAttempts
    ensures GraphqlStepAsWritten(HttpStatusError(429), attempt) == Fail(HttpFailure(429))
    ensures attempt < MaxGraphqlAttempts - 1 ==> GraphqlStep(HttpStatusError(429), attempt) == Retry(Backoff(attempt))
  {
  }

  /** The as-written and corrected iterations differ only on HTTP 429 before the last attempt. */
  lemma AsWrittenDiffersOnlyOn429(reply: GqlReply, attempt: nat)
    requires attempt < MaxGraphqlAttempts
    ensures GraphqlStepAsWritten(reply, attempt) != GraphqlStep(reply, attempt) <==>
              reply == HttpStatusError(429) && attempt < MaxGraphqlAttempts - 1
  {
  }

  /** One iteration of the `execute_graphql` loop, with the 429 guard as intended. */
  function GraphqlStep(reply: GqlReply, attempt: nat): (s: GqlStep)
    requires attempt < MaxGraphqlAttempts
    ensures s.Retry? ==> attempt < MaxGraphqlAttempts - 1 && s.wait == Backoff(attempt)
  {
    match reply
    case Body(errors, data) =>
      if errors.Some? then
        if Throttled(errors.value) && attempt < MaxGraphqlAttempts - 1 then Retry(Backoff(attempt))
        else Fail(ExceptionRaised(GraphqlErrorMessage(errors.value)))
      else Deliver(if data.Some? then data.value else JObj(map[]))
    case HttpStatusError(status) =>
      if status == 429 && attempt < MaxGraphqlAttempts - 1 then Retry(Backoff(attempt))
      else Fail(HttpFailure(status))
    case ConnectionError(reason) => Fail(RequestFailure(reason))
  }

  /** An iteration retries exactly on a throttled GraphQL reply or an HTTP 429 before the
      last attempt; it delivers exactly an error-free body (its data, or an empty object);
      other GraphQL errors raise their joined messages and connection errors raise as such. */
  lemma GraphqlStepSpec(reply: GqlReply, attempt: nat)
    requires attempt < MaxGraphqlAttempts
    ensures var s := GraphqlStep(reply, attempt);
            && (s.Retry? <==> (attempt < MaxGraphqlAttempts - 1 &&
                                ((reply.Body? && reply.errors.Some? && Throttled(reply.errors.value))
                                 || reply == HttpStatusError(429))))
            && (s.Deliver? <==> reply.Body? && reply.errors.None?)
            && (reply.Body? && reply.errors.Some? && !s.Retry? ==>
                  s == Fail(ExceptionRaised(GraphqlErrorMessage(reply.errors.value))))
            && (reply.Body? && reply.errors.None? ==>
                  s.data == (if reply.data.Some? then reply.data.value else JObj(map[])))
            && (reply.ConnectionError? ==> s == Fail(RequestFailure(reply.reason)))
  {
  }

  /** As written, an iteration retries exactly on a throttled GraphQL reply before the last
      attempt; an HTTP error always raises with its status. */
  lemma AsWrittenStepSpec(reply: GqlReply, attempt: nat)
    requires attempt < MaxGraphqlAttempts
    ensures var s := GraphqlStepAsWritten(reply, attempt);
            && (s.Retry? <==> attempt < MaxGraphqlAttempts - 1 && reply.Body? && reply.errors.Some? && Throttled(reply.errors.value))
            && (reply.HttpStatusError? ==> s == Fail(HttpFailure(reply.status)))
  {
  }

  /** Which HTTP 429 guard the loop uses: the one the code writes, or the intended one. */
  datatype Guard429 = AsWritten | Intended

  /** One iteration of the loop under the given guard. */
  function AttemptStep(guard: Guard429, reply: GqlReply, attempt: nat): (s: GqlStep)
    requires attempt < MaxGraphqlAttempts
    ensures s.Retry? ==> attempt < MaxGraphqlAttempts - 1 && s.wait == Backoff(attempt)
  {
    match guard
    case AsWritten => GraphqlStepAsWritten(reply, attempt)
    case Intended => GraphqlStep(reply, attempt)
  }

  /** What a non-retrying iteration makes the call return or raise. */
  function StepResult(s: GqlStep): Fetched<Json> {
    match s
    case Deliver(d) => Fetched(d)
    case Fail(f) => Raised(f)
    case Retry(_) => Raised(ExceptionRaised("API isteği 8 denemenin ardından başarısız oldu."))
  }

  /** The loop from attempt `k` on, given the reply to every attempt: the backoffs slept
      and the value returned or the exception raised. */
  function GraphqlRun(guard: Guard429, replies: seq<GqlReply>, k: nat): (o: GqlOutcome)
    requires |replies| == MaxGraphqlAttempts && k < MaxGraphqlAttempts
    decreases MaxGraphqlAttempts - k
    ensures k + |o.waits| < MaxGraphqlAttempts
  {
    match AttemptStep(guard, replies[k], k)
    case Retry(w) =>
      var rest := GraphqlRun(guard, replies, k + 1);
      GqlOutcome(rest.result, [w] + rest.waits)
    case Deliver(d) => GqlOutcome(Fetched(d), [])
    case Fail(f) => GqlOutcome(Raised(f), [])
  }

  /** The run from `k` sleeps the backoff of every attempt that retried, stops at
      the first attempt that does not retry, and returns or raises what that attempt decides. */
  lemma GraphqlRunSpec(guard: Guard429, replies: seq<GqlReply>, k: nat)
    requires |replies| == MaxGraphqlAttempts && k < MaxGraphqlAttempts
    ensures var o := GraphqlRun(guard, replies, k);
            && (forall i :: 0 <= i < |o.waits| ==> o.waits[i] == Backoff(k + i))
            && (forall i :: k <= i < k + |o.waits| ==> AttemptStep(guard, replies[i], i).Retry?)
            && !AttemptStep(guard, replies[k + |o.waits|], k + |o.waits|).Retry?
            && o.result == StepResult(AttemptStep(guard, replies[k + |o.waits|], k + |o.waits|))
  {
    GraphqlRunWaits(guard, replies, k);
    GraphqlRunRetries(guard, replies, k);
    GraphqlRunStops(guard, replies, k);
  }

  /** The run from `k` sleeps first exactly when attempt `k` retries, and then sleeps its
      backoff before the rest of the run. */
  lemma GraphqlRunRetry(guard: Guard429, replies: seq<GqlReply>, k: nat)
    requires |replies| == MaxGraphqlAttempts && k < MaxGraphqlAttempts
    ensures |GraphqlRun(guard, replies, k).waits| > 0 <==> AttemptStep(guard, replies[k], k).Retry?
    ensures AttemptStep(guard, replies[k], k).Retry? ==>
              k + 1 < MaxGraphqlAttempts
              && GraphqlRun(guard, replies, k).waits == [Backoff(k)] + GraphqlRun(guard, replies, k + 1).waits
  {
  }

  /** Backoffs from attempt k + 1 on, after the backoff of attempt k, are backoffs from
      attempt k on. */
  lemma BackoffsFrom(o: seq<nat>, rest: seq<nat>, k: nat)
    requires o == [Backoff(k)] + rest
    requires forall i :: 0 <= i < |rest| ==> rest[i] == Backoff(k + 1 + i)
    ensures forall i :: 0 <= i < |o| ==> o[i] == Backoff(k + i)
  {
    forall i | 0 <= i < |o| ensures o[i] == Backoff(k + i) {
      if i > 0 { assert o[i] == rest[i - 1]; }
    }
  }

  /** The i-th sleep of the run from attempt `k` is the backoff of attempt k + i. */
  lemma {:induction false} GraphqlRunWaits(guard: Guard429, replies: seq<GqlReply>, k: nat)
    requires |replies| == MaxGraphqlAttempts && k < MaxGraphqlAttempts
    decreases MaxGraphqlAttempts - k
    ensures forall i :: 0 <= i < |GraphqlRun(guard, replies, k).waits| ==> GraphqlRun(guard, replies, k).waits[i] == Backoff(k + i)
  {
    GraphqlRunRetry(guard, replies, k);
    if AttemptStep(guard, replies[k], k).Retry? {
      GraphqlRunWaits(guard, replies, k + 1);
      BackoffsFrom(GraphqlRun(guard, replies, k).waits, GraphqlRun(guard, replies, k + 1).waits, k);
    }
  }

  /** Every attempt the run from `k` slept after is one that retried. */
  lemma {:induction false} GraphqlRunRetries(guard: Guard429, replies: seq<GqlReply>, k: nat)
    requires |replies| == MaxGraphqlAttempts && k < MaxGraphqlAttempts
    decreases MaxGraphqlAttempts - k
    ensures forall i :: k <= i < k + |GraphqlRun(guard, replies, k).waits| ==> AttemptStep(guard, replies[i], i).Retry?
  {
    if AttemptStep(guard, replies[k], k).Retry? {
      GraphqlRunRetries(guard, replies, k + 1);
      var n := |GraphqlRun(guard, replies, k + 1).waits|;
      assert |GraphqlRun(guard, replies, k).waits| == n + 1;
      forall i | k <= i < k + n + 1 ensures AttemptStep(guard, replies[i], i).Retry? {
        if i > k { assert k + 1 <= i < k + 1 + n; }
      }
    } else {
      assert |GraphqlRun(guard, replies, k).waits| == 0;
    }
  }

  /** The run from `k` ends at an attempt that does not retry, with that attempt's result. */
  lemma {:induction false} GraphqlRunStops(guard: Guard429, replies: seq<GqlReply>, k: nat)
    requires |replies| == MaxGraphqlAttempts && k < MaxGraphqlAttempts
    decreases MaxGraphqlAttempts - k
    ensures var o := GraphqlRun(guard, replies, k);
            && !AttemptStep(guard, replies[k + |o.waits|], k + |o.waits|).Retry?
            && o.result == StepResult(AttemptStep(guard, replies[k + |o.waits|], k + |o.waits|))
  {
    GraphqlRunUnfold(guard, replies, k);
    if AttemptStep(guard, replies[k], k).Retry? {
      GraphqlRunStops(guard, replies, k + 1);
      assert k + |GraphqlRun(guard, replies, k).waits| == k + 1 + |GraphqlRun(guard, replies, k + 1).waits|;
    }
  }

  /** One attempt of the run from `k`: a retry leaves the result to the run from k + 1,
      one more sleep ahead of its sleeps; any other step ends the run with its result. */
  lemma GraphqlRunUnfold(guard: Guard429, replies: seq<GqlReply>, k: nat)
    requires |replies| == MaxGraphqlAttempts && k < MaxGraphqlAttempts
    ensures AttemptStep(guard, replies[k], k).Retry? ==>
              k + 1 < MaxGraphqlAttempts
              && GraphqlRun(guard, replies, k).result == GraphqlRun(guard, replies, k + 1).result
              && |GraphqlRun(guard, replies, k).waits| == |GraphqlRun(guard, replies, k + 1).waits| + 1
    ensures !AttemptStep(guard, replies[k], k).Retry? ==>
              GraphqlRun(guard, replies, k) == GqlOutcome(StepResult(AttemptStep(guard, replies[k], k)), [])
  {
  }

  /** The first `attempt` attempts all retried, and `waits` holds their backoffs. */
  predicate RetriedSoFar(guard: Guard429, replies: seq<GqlReply>, attempt: nat, waits: seq<nat>)
    requires |replies| == MaxGraphqlAttempts && attempt <= MaxGraphqlAttempts
  {
    && |waits| == attempt
    && (forall i :: 0 <= i < attempt ==> AttemptStep(guard, replies[i], i).Retry?)
    && (forall i :: 0 <= i < attempt ==> waits[i] == Backoff(i))
  }

  /** When every attempt before `attempt` retried and `attempt` does not, the run is
      exactly those backoffs followed by what that attempt decides. */
  lemma GraphqlRunFromPrefix(guard: Guard429, replies: seq<GqlReply>, attempt: nat, waits: seq<nat>)
    requires |replies| == MaxGraphqlAttempts && attempt < MaxGraphqlAttempts
    requires RetriedSoFar(guard, replies, attempt, waits)
    requires !AttemptStep(guard, replies[attempt], attempt).Retry?
    ensures GraphqlRun(guard, replies, 0) == GqlOutcome(StepResult(AttemptStep(guard, replies[attempt], attempt)), waits)
  {
    GraphqlRunSpec(guard, replies, 0);
    var o := GraphqlRun(guard, replies, 0);
    var n := |o.waits|;
    assert !AttemptStep(guard, replies[n], n).Retry?;
    assert n == attempt;
    assert o.waits == waits;
  }

  /** The loop as written raises an HTTP 429 on the first attempt at once, where the intended
      loop sleeps 2 seconds and tries again. */
  lemma AsWrittenRunRaises429(replies: seq<GqlReply>)
    requires |replies| == MaxGraphqlAttempts && replies[0] == HttpStatusError(429)
    ensures GraphqlRun(AsWritten, replies, 0) == GqlOutcome(Raised(HttpFailure(429)), [])
    ensures |GraphqlRun(Intended, replies, 0).waits| > 0 && GraphqlRun(Intended, replies, 0).waits[0] == 2
  {
  }

  /** An error-free first reply is returned at once, without sleeping. */
  lemma GraphqlFirstReplyClean(guard: Guard429, replies: seq<GqlReply>)
    requires |replies| == MaxGraphqlAttempts
    requires replies[0].Body? && replies[0].errors.None?
    ensures |GraphqlRun(guard, replies, 0).waits| == 0
    ensures GraphqlRun(guard, replies, 0).result.Fetched?
  {
  }

  /** Eight throttled replies in a row end with the GraphQL exception, after seven backoffs
      of 2, 4, ..., 128 seconds. */
  lemma GraphqlAlwaysThrottled(guard: Guard429, replies: seq<GqlReply>, errors: seq<GqlError>)
    requires Throttled(errors)
    requires |replies| == MaxGraphqlAttempts
    requires forall i :: 0 <= i < |replies| ==> replies[i] == Body(Some(errors), None)
    ensures GraphqlRun(guard, replies, 0).result == Raised(ExceptionRaised(GraphqlErrorMessage(errors)))
    ensures |GraphqlRun(guard, replies, 0).waits| == MaxGraphqlAttempts - 1
    ensures GraphqlRun(guard, replies, 0).waits[6] == 128
  {
    GraphqlRunSpec(guard, replies, 0);
    var o := GraphqlRun(guard, replies, 0);
    var last := |o.waits|;
    assert replies[last] == Body(Some(errors), None);
    assert o.waits[6] == Backoff(6);
  }

  // ---------------------------------------------------------------- cursor pagination

  /** One page of a `connection(first: n, after: $cursor)` query: its edge nodes and its
      pageInfo. `MissingConnection` is a reply without the connection key, which
      `data.get(key, {})` reads as an empty page with no next page; in the collection loop
      it is also a falsy `collection`, on which that loop breaks. `NullConnection` is a
      connection key present with a null value: the `.get("edges", [])` that follows is
      called on None and raises AttributeError. */
  datatype PageReply =
    | PageOf(nodes: seq<Json>, hasNext: bool, endCursor: Json)
    | MissingConnection
    | NullConnection
    | PageFailed(failure: ApiFailure)

  /** The AttributeError `None.get(...)` raises. */
  const NoneGetError := "'NoneType' object has no attribute 'get'"

  /** How a pagination loop ends; `cursors` are the `after` values of the requests made.
      `PagesExhausted` means the supplied replies ran out while pages were still announced. */
  datatype PageWalk =
    | Walked(items: seq<Json>, cursors: seq<Json>)
    | WalkFailed(failure: ApiFailure, cursors: seq<Json>)
    | PagesExhausted(cursors: seq<Json>)

  function NodesOf(p: PageReply): seq<Json> {
    if p.PageOf? then p.nodes else []
  }

  /** The nodes of the first `n` pages, concatenated in page order. */
  function AllNodes(pages: seq<PageReply>, n: nat): seq<Json>
    requires n <= |pages|
  {
    if n == 0 then [] else AllNodes(pages, n - 1) + NodesOf(pages[n - 1])
  }

  /** Each of the first `n` pages arrived and announced a next page. */
  predicate PagesAnnounced(pages: seq<PageReply>, n: nat)
    requires n <= |pages|
  {
    n == 0 || (PagesAnnounced(pages, n - 1) && pages[n - 1].PageOf? && pages[n - 1].hasNext)
  }

  /** The recursive reading of `PagesAnnounced` says the same as its quantified one. */
  lemma {:induction false} PagesAnnouncedSpec(pages: seq<PageReply>, n: nat)
    requires n <= |pages|
    ensures PagesAnnounced(pages, n) <==> forall j :: 0 <= j < n ==> pages[j].PageOf? && pages[j].hasNext
  {
    if n > 0 {
      PagesAnnouncedSpec(pages, n - 1);
    }
  }

  /** The first request has no cursor; every later one uses the previous page's endCursor,
      and every page but the last announced a next page. */
  predicate CursorChain(pages: seq<PageReply>, cursors: seq<Json>)
    decreases |cursors|
  {
    && |cursors| <= |pages|
    && (|cursors| == 0 ||
          var n := |cursors| - 1;
          && CursorChain(pages, cursors[..n])
          && (n == 0 ==> cursors[n] == JNull)
          && (n > 0 ==> pages[n - 1].PageOf? && pages[n - 1].hasNext && cursors[n] == pages[n - 1].endCursor))
  }

  /** The recursive reading of `CursorChain` says the same as its quantified one. */
  lemma {:induction false} CursorChainSpec(pages: seq<PageReply>, cursors: seq<Json>)
    ensures CursorChain(pages, cursors) <==>
              && |cursors| <= |pages|
              && (|cursors| > 0 ==> cursors[0] == JNull)
              && (forall j :: 0 <= j < |cursors| - 1 ==> pages[j].PageOf? && pages[j].hasNext)
              && (forall j :: 0 < j < |cursors| ==> cursors[j] == pages[j - 1].endCursor)
    decreases |cursors|
  {
    if |cursors| > 0 {
      var n := |cursors| - 1;
      CursorChainSpec(pages, cursors[..n]);
      assert forall j :: 0 <= j < n ==> cursors[..n][j] == cursors[j];
    }
  }

  /** A request made with the previous page's endCursor, after a page that announced a
      next one, extends the chain. */
  lemma CursorChainNext(pages: seq<PageReply>, cursors: seq<Json>, cursor: Json)
    requires CursorChain(pages, cursors) && |cursors| < |pages|
    requires |cursors| == 0 ==> cursor == JNull
    requires |cursors| > 0 ==> pages[|cursors| - 1].PageOf? && pages[|cursors| - 1].hasNext
                               && cursor == pages[|cursors| - 1].endCursor
    ensures CursorChain(pages, cursors + [cursor])
  {
    assert (cursors + [cursor])[..|cursors|] == cursors;
  }

  /** The `while True` cursor loops of `get_orders_by_date_range`, `get_all_collections`,
      `get_all_products_for_export` and `get_products_in_collection_with_inventory`;
      `pages[i]` is what `execute_graphql` gives for the i-th request. Only the collection
      loop breaks on a null (falsy) `collection`; that reply is a `MissingConnection`, and a
      null connection inside it, like a null connection in the other three, raises. */
  method Paginate(pages: seq<PageReply>) returns (walk: PageWalk)
    ensures CursorChain(pages, walk.cursors)
    ensures walk.Walked? ==>
              var n := |walk.cursors|;
              && 1 <= n <= |pages|
              && (pages[n - 1].MissingConnection? || (pages[n - 1].PageOf? && !pages[n - 1].hasNext))
              && walk.items == AllNodes(pages, n)
    ensures walk.WalkFailed? ==>
              && 1 <= |walk.cursors| <= |pages|
              && (pages[|walk.cursors| - 1] == PageFailed(walk.failure) ||
                  (pages[|walk.cursors| - 1].NullConnection? && walk.failure == ExceptionRaised(NoneGetError)))
    ensures walk.PagesExhausted? ==> |walk.cursors| == |pages| && PagesAnnounced(pages, |pages|)
  {
    var i := 0;
    var items: seq<Json> := [];
    var cursors: seq<Json> := [];
    var cursor := JNull;
    while i < |pages|
      invariant 0 <= i <= |pages| && |cursors| == i
      invariant CursorChain(pages, cursors)
      invariant PagesAnnounced(pages, i)
      invariant i > 0 ==> pages[i - 1].PageOf? && cursor == pages[i - 1].endCursor
      invariant i == 0 ==> cursor == JNull
      invariant items == AllNodes(pages, i)
    {
      CursorChainNext(pages, cursors, cursor);
      cursors := cursors + [cursor];
      var page := pages[i];
      if page.PageFailed? {
        return WalkFailed(page.failure, cursors);
      }
      if page.NullConnection? {
        return WalkFailed(ExceptionRaised(NoneGetError), cursors);
      }
      items := items + NodesOf(page);
      if page.MissingConnection? || !page.hasNext {
        return Walked(items, cursors);
      }
      cursor := page.endCursor;
      i := i + 1;
    }
    return PagesExhausted(cursors);
  }

  // ---------------------------------------------------------------- variant ids by SKU

  const SkuBatchSize: nat := 2

  datatype VariantRef = VariantRef(variantId: string, productId: string)
  datatype VariantHit = VariantHit(id: Option<string>, sku: Option<string>)
  datatype ProductHit = ProductHit(id: Option<string>, variants: seq<VariantHit>)
  datatype SkuBatchReply = Hits(products: seq<ProductHit>) | BatchFailed(failure: ApiFailure)

  /** `[str(sku).strip() for sku in skus if sku]` over string SKUs. */
  function SanitizeSkus(skus: seq<string>): (r: seq<string>)
    ensures |r| <= |skus|
  {
    if |skus| == 0 then []
    else
      var init := SanitizeSkus(skus[..|skus| - 1]);
      var last := skus[|skus| - 1];
      if last == "" then init else init + [Trim(last)]
  }

  /** Cleaning drops exactly the empty SKUs and strips the others, keeping their order:
      the result is empty only when every SKU was, and holds no surrounding whitespace. */
  lemma SanitizeSkusSpec(skus: seq<string>)
    ensures |SanitizeSkus(skus)| == 0 <==> forall i :: 0 <= i < |skus| ==> skus[i] == ""
    ensures forall i :: 0 <= i < |SanitizeSkus(skus)| ==> SanitizeSkus(skus)[i] == Trim(SanitizeSkus(skus)[i])
    ensures forall i :: 0 <= i < |skus| && skus[i] != "" ==> Trim(skus[i]) in SanitizeSkus(skus)
  {
    SanitizeSkusTrimmed(skus);
    forall i | 0 <= i < |skus| && skus[i] != ""
      ensures Trim(skus[i]) in SanitizeSkus(skus)
    {
      SanitizeSkusKeeps(skus, i);
    }
    if |SanitizeSkus(skus)| > 0 {
      SanitizeSkusFrom(skus);
    }
  }

  /** Every cleaned SKU is already stripped. */
  lemma {:induction false} SanitizeSkusTrimmed(skus: seq<string>)
    ensures forall i :: 0 <= i < |SanitizeSkus(skus)| ==> SanitizeSkus(skus)[i] == Trim(SanitizeSkus(skus)[i])
    decreases |skus|
  {
    if |skus| > 0 {
      var last := skus[|skus| - 1];
      SanitizeSkusTrimmed(skus[..|skus| - 1]);
      if last != "" {
        TrimIdempotent(last);
      }
    }
  }

  /** A non-empty SKU is kept, stripped. */
  lemma {:induction false} SanitizeSkusKeeps(skus: seq<string>, i: nat)
    requires i < |skus| && skus[i] != ""
    ensures Trim(skus[i]) in SanitizeSkus(skus)
    decreases |skus|
  {
    var init := skus[..|skus| - 1];
    if i < |skus| - 1 {
      assert init[i] == skus[i];
      SanitizeSkusKeeps(init, i);
    }
  }

  /** Something is left only when some SKU was not empty. */
  lemma {:induction false} SanitizeSkusFrom(skus: seq<string>)
    requires |SanitizeSkus(skus)| > 0
    ensures exists i :: 0 <= i < |skus| && skus[i] != ""
    decreases |skus|
  {
    var init := skus[..|skus| - 1];
    if skus[|skus| - 1] == "" {
      SanitizeSkusFrom(init);
      var i :| 0 <= i < |init| && init[i] != "";
      assert skus[i] == init[i];
    }
  }

  /** `json.dumps` of a string: its escaped body between double quotes. */
  function JsonQuote(s: string): (r: string)
    ensures |r| >= 2 && r[0] == '"' && r[|r| - 1] == '"'
  {
    "\"" + JsonEscape(s) + "\""
  }

  /** A lower-case hexadecimal digit. */
  function HexDigit(d: nat): (c: char)
    requires d < 16
    ensures '0' <= c <= '9' || 'a' <= c <= 'f'
  {
    if d < 10 then ('0' as int + d) as char else ('a' as int + d - 10) as char
  }

  /** `'{0:04x}'.format(n)`: four lower-case hexadecimal digits. */
  function Hex4(n: nat): (r: string)
    requires n < 0x10000
    ensures |r| == 4
  {
    [HexDigit(n / 0x1000), HexDigit(n / 0x100 % 16), HexDigit(n / 16 % 16), HexDigit(n % 16)]
  }

  /** What `json.dumps` (with `ensure_ascii`) writes for one character of a string: the
      two-character escapes for quote, backslash, newline, carriage return, tab,
      backspace and form feed; printable ASCII as it is; any other character below
      U+10000 as `\uXXXX`; and a character above as its UTF-16 surrogate pair. */
  function EscapeChar(c: char): (r: string)
    ensures |r| > 0
  {
    if c == '"' then "\\\""
    else if c == '\\' then "\\\\"
    else if c == '\n' then "\\n"
    else if c == '\r' then "\\r"
    else if c == '\t' then "\\t"
    else if c == '\U{0008}' then "\\b"
    else if c == '\U{000C}' then "\\f"
    else if ' ' <= c <= '~' then [c]
    else if c as int < 0x10000 then UnicodeEscape(c as int)
    else
      var v := c as int - 0x10000;
      UnicodeEscape(0xD800 + v / 0x400) + UnicodeEscape(0xDC00 + v % 0x400)
  }

  /** `\uXXXX` for a code unit. */
  function UnicodeEscape(n: nat): (r: string)
    requires n < 0x10000
    ensures |r| == 6
  {
    "\\u" + Hex4(n)
  }

  /** The body `json.dumps` writes between the quotes of a string. */
  function JsonEscape(s: string): string {
    if |s| == 0 then "" else EscapeChar(s[0]) + JsonEscape(s[1..])
  }

  /** The reading direction, as `json.loads` reads a string body: the value of one
      hexadecimal digit in either case. */

  function HexValue(c: char): Option<nat> {
    if '0' <= c <= '9' then Some(c as int - '0' as int)
    else if 'a' <= c <= 'f' then Some(c as int - 'a' as int + 10)
    else if 'A' <= c <= 'F' then Some(c as int - 'A' as int + 10)
    else None
  }

  /** The number four hexadecimal digits spell. */
  function Hex4Value(t: string): (r: Option<nat>)
    requires |t| == 4
    ensures r.Some? ==> r.value < 0x10000
  {
    var a, b, c, d := HexValue(t[0]), HexValue(t[1]), HexValue(t[2]), HexValue(t[3]);
    if a.Some? && b.Some? && c.Some? && d.Some? && a.value < 16 && b.value < 16 && c.value < 16 && d.value < 16
    then Some(a.value * 0x1000 + b.value * 0x100 + c.value * 16 + d.value)
    else None
  }

  /** The character a `\uXXXX` escape (or a surrogate pair of two) at the start of `t`
      stands for, and how many characters it takes. */
  function ReadUnicode(t: string): (r: Option<(char, nat)>)
    requires |t| >= 6
    ensures r.Some? ==> 6 <= r.value.1 <= |t|
  {
    var hi := Hex4Value(t[2..6]);
    if hi.None? then None
    else if 0xD800 <= hi.value < 0xDC00 then
      if |t| >= 12 && t[6] == '\\' && t[7] == 'u' then
        var lo := Hex4Value(t[8..12]);
        if lo.Some? && 0xDC00 <= lo.value < 0xE000
        then Some(((0x10000 + (hi.value - 0xD800) * 0x400 + (lo.value - 0xDC00)) as char, 12))
        else None
      else None
    else if 0xDC00 <= hi.value < 0xE000 then None
    else Some((hi.value as char, 6))
  }

  /** The first character of a string body and how many characters it takes; None for a
      bare quote, a raw control character or a malformed escape. */
  function ReadUnit(t: string): (r: Option<(char, nat)>)
    requires |t| > 0
    ensures r.Some? ==> 1 <= r.value.1 <= |t|
  {
    if t[0] == '"' || t[0] < ' ' then None
    else if t[0] != '\\' then Some((t[0], 1))
    else if |t| < 2 then None
    else if t[1] == '"' || t[1] == '\\' || t[1] == '/' then Some((t[1], 2))
    else if t[1] == 'n' then Some(('\n', 2))
    else if t[1] == 'r' then Some(('\r', 2))
    else if t[1] == 't' then Some(('\t', 2))
    else if t[1] == 'b' then Some(('\U{0008}', 2))
    else if t[1] == 'f' then Some(('\U{000C}', 2))
    else if t[1] == 'u' && |t| >= 6 then ReadUnicode(t)
    else None
  }

  /** The text a string body stands for; None when it is malformed. */
  function JsonUnescape(t: string): Option<string>
    decreases |t|
  {
    if |t| == 0 then Some("")
    else
      match ReadUnit(t)
      case None => None
      case Some((c, n)) =>
        match JsonUnescape(t[n..])
        case None => None
        case Some(rest) => Some([c] + rest)
  }

  /** Each digit written reads back as its value. */
  lemma HexDigitValue(d: nat)
    requires d < 16
    ensures HexValue(HexDigit(d)) == Some(d)
  {
  }

  /** Four digits written read back as their number. */
  lemma Hex4RoundTrip(n: nat)
    requires n < 0x10000
    ensures Hex4Value(Hex4(n)) == Some(n)
  {
    var t := Hex4(n);
    HexDigitValue(n / 0x1000);
    HexDigitValue(n / 0x100 % 16);
    HexDigitValue(n / 16 % 16);
    HexDigitValue(n % 16);
    var q := n / 16;
    assert n == q * 16 + n % 16;
    assert q / 16 == n / 0x100;
    assert n / 0x100 == (n / 0x100) / 16 * 16 + n / 0x100 % 16;
    assert (n / 0x100) / 16 == n / 0x1000;
  }

  /** A character below U+10000 outside printable ASCII and the short escapes reads back
      from its `\uXXXX`. */
  lemma ReadBmpEscape(c: char, rest: string)
    requires c as int < 0x10000 && !(' ' <= c <= '~')
    requires c != '\n' && c != '\r' && c != '\t' && c != '\U{0008}' && c != '\U{000C}'
    ensures EscapeChar(c) == UnicodeEscape(c as int)
    ensures ReadUnit(EscapeChar(c) + rest) == Some((c, 6))
  {
    var t := EscapeChar(c) + rest;
    Hex4RoundTrip(c as int);
    assert t[2..6] == Hex4(c as int);
  }

  /** The two halves of a surrogate pair lie in their ranges and recombine. */
  lemma SurrogateHalves(v: nat)
    requires v < 0x100000
    ensures 0xD800 <= 0xD800 + v / 0x400 < 0xDC00
    ensures 0xDC00 <= 0xDC00 + v % 0x400 < 0xE000
    ensures 0x10000 + (v / 0x400) * 0x400 + v % 0x400 == 0x10000 + v
  {
  }

  /** The surrogate pair of the character `0x10000 + v`, each half written as `\uXXXX`,
      reads back as that character. */
  lemma ReadPairUnits(v: nat, rest: string)
    requires v < 0x100000
    ensures ReadUnicode(UnicodeEscape(0xD800 + v / 0x400) + UnicodeEscape(0xDC00 + v % 0x400) + rest)
            == Some(((0x10000 + v) as char, 12))
  {
    var hi := 0xD800 + v / 0x400;
    var lo := 0xDC00 + v % 0x400;
    SurrogateHalves(v);
    var t := UnicodeEscape(hi) + UnicodeEscape(lo) + rest;
    Hex4RoundTrip(hi);
    Hex4RoundTrip(lo);
    assert t[2..6] == Hex4(hi);
    assert t[6] == '\\' && t[7] == 'u';
    assert t[8..12] == Hex4(lo);
  }

  /** A backslash and a `u` hand the reading to the `\uXXXX` reader. */
  lemma ReadUnitUnicode(t: string)
    requires |t| >= 6 && t[0] == '\\' && t[1] == 'u'
    ensures ReadUnit(t) == ReadUnicode(t)
  {
  }

  /** Above U+FFFF, the escape is the surrogate pair. */
  lemma EscapePair(c: char)
    requires c as int >= 0x10000
    ensures var v := c as int - 0x10000;
            EscapeChar(c) == UnicodeEscape(0xD800 + v / 0x400) + UnicodeEscape(0xDC00 + v % 0x400)
  {
  }

  /** A character above U+FFFF reads back from its surrogate pair. */
  lemma ReadPairEscape(c: char, rest: string)
    requires c as int >= 0x10000
    ensures |EscapeChar(c)| == 12
    ensures ReadUnit(EscapeChar(c) + rest) == Some((c, 12))
  {
    var v := c as int - 0x10000;
    EscapePair(c);
    var t := EscapeChar(c) + rest;
    ReadPairUnits(v, rest);
    assert t == UnicodeEscape(0xD800 + v / 0x400) + UnicodeEscape(0xDC00 + v % 0x400) + rest;
    ReadUnitUnicode(t);
  }

  /** Every character reads back from its escape, which the reader consumes whole. */
  lemma ReadEscape(c: char, rest: string)
    ensures ReadUnit(EscapeChar(c) + rest) == Some((c, |EscapeChar(c)|))
  {
    if c == '"' || c == '\\' || c == '\n' || c == '\r' || c == '\t' || c == '\U{0008}' || c == '\U{000C}' {
    } else if ' ' <= c <= '~' {
    } else if c as int < 0x10000 {
      ReadBmpEscape(c, rest);
    } else {
      ReadPairEscape(c, rest);
    }
  }

  /** Reading back what `json.dumps` wrote gives the string it was given. */
  lemma {:induction false} JsonEscapeRoundTrip(s: string)
    ensures JsonUnescape(JsonEscape(s)) == Some(s)
    decreases |s|
  {
    if |s| > 0 {
      var e := EscapeChar(s[0]);
      var t := JsonEscape(s);
      assert t == e + JsonEscape(s[1..]);
      ReadEscape(s[0], JsonEscape(s[1..]));
      assert t[|e|..] == JsonEscape(s[1..]);
      JsonEscapeRoundTrip(s[1..]);
      assert s == [s[0]] + s[1..];
    }
  }

  /** Only the characters from space to tilde. */
  predicate PrintableAscii(s: string) {
    forall i :: 0 <= i < |s| ==> ' ' <= s[i] <= '~'
  }

  /** Hexadecimal digits are printable ASCII. */
  lemma Hex4Ascii(n: nat)
    requires n < 0x10000
    ensures PrintableAscii(Hex4(n))
  {
  }

  /** One character's escape is printable ASCII. */
  lemma EscapeCharAscii(c: char)
    ensures PrintableAscii(EscapeChar(c))
  {
    if c == '"' || c == '\\' || c == '\n' || c == '\r' || c == '\t' || c == '\U{0008}' || c == '\U{000C}' {
    } else if ' ' <= c <= '~' {
    } else if c as int < 0x10000 {
      Hex4Ascii(c as int);
    } else {
      var v := c as int - 0x10000;
      Hex4Ascii(0xD800 + v / 0x400);
      Hex4Ascii(0xDC00 + v % 0x400);
    }
  }

  /** Joining two printable ASCII texts gives one. */
  lemma PrintableConcat(a: string, b: string)
    requires PrintableAscii(a) && PrintableAscii(b)
    ensures PrintableAscii(a + b)
  {
    assert forall i :: 0 <= i < |a + b| ==> (a + b)[i] == if i < |a| then a[i] else b[i - |a|];
  }

  /** With `ensure_ascii`, the written text is printable ASCII only. */
  lemma {:induction false} JsonEscapeAscii(s: string)
    ensures PrintableAscii(JsonEscape(s))
    decreases |s|
  {
    if |s| > 0 {
      JsonEscapeAscii(s[1..]);
      EscapeCharAscii(s[0]);
      PrintableConcat(EscapeChar(s[0]), JsonEscape(s[1..]));
    }
  }

  /** A non-ASCII letter is written as its `\\uXXXX` code: "KÇ" becomes `K\\u00c7`. */
  lemma EscapeNonAscii()
    ensures JsonEscape("K\U{00C7}") == "K\\u00c7"
  {
    assert EscapeChar('\U{00C7}') == "\\u00c7";
    assert JsonEscape("K\U{00C7}") == EscapeChar('K') + EscapeChar('\U{00C7}') + "";
  }

  /** A newline is written as backslash and `n`. */
  lemma EscapeNewline()
    ensures JsonEscape("a\nb") == "a\\nb"
  {
    assert JsonEscape("a\nb") == EscapeChar('a') + EscapeChar('\n') + EscapeChar('b') + "";
  }

  /** The search filter for one chunk: `sku:"…"` terms joined by " OR ". */
  function SkuQuery(chunk: seq<string>): string {
    Join(" OR ", SkuTerms(chunk))
  }

  /** One `sku:"…"` term per SKU, in order. */
  function SkuTerms(chunk: seq<string>): (r: seq<string>)
    ensures |r| == |chunk|
  {
    if |chunk| == 0 then [] else ["sku:" + JsonQuote(chunk[0])] + SkuTerms(chunk[1..])
  }

  /** The map entries one reply contributes, in reply order: a variant counts only when
      its SKU, its id and its product's id are all present. */
  function HitEntries(products: seq<ProductHit>): (r: seq<(string, VariantRef)>) {
    if |products| == 0 then []
    else
      var p := products[|products| - 1];
      HitEntries(products[..|products| - 1]) +
        (if Present(p.id) then VariantEntries(p.variants, p.id.value) else [])
  }

  function VariantEntries(vs: seq<VariantHit>, productId: string): (r: seq<(string, VariantRef)>)
    ensures |r| <= |vs|
  {
    if |vs| == 0 then []
    else
      var v := vs[|vs| - 1];
      VariantEntries(vs[..|vs| - 1], productId)
        + (if Present(v.sku) && Present(v.id) then [(v.sku.value, VariantRef(v.id.value, productId))] else [])
  }

  /** Entry e maps the SKU of one of `vs` to that variant's id and the product's id, and
      the variant has both. */
  predicate EntryOf(e: (string, VariantRef), vs: seq<VariantHit>, productId: string) {
    exists j :: 0 <= j < |vs| && Present(vs[j].sku) && Present(vs[j].id)
      && e == (vs[j].sku.value, VariantRef(vs[j].id.value, productId))
  }

  /** Each entry of a product maps a variant's non-empty SKU to that variant's non-empty
      id and the product's id; every variant with both is entered. */
  lemma {:induction false} VariantEntriesSpec(vs: seq<VariantHit>, productId: string)
    ensures forall i :: 0 <= i < |VariantEntries(vs, productId)| ==> EntryOf(VariantEntries(vs, productId)[i], vs, productId)
    ensures forall j :: 0 <= j < |vs| && Present(vs[j].sku) && Present(vs[j].id) ==>
              (vs[j].sku.value, VariantRef(vs[j].id.value, productId)) in VariantEntries(vs, productId)
    decreases |vs|
  {
    if |vs| > 0 {
      var init := vs[..|vs| - 1];
      VariantEntriesSpec(init, productId);
      var r := VariantEntries(vs, productId);
      var ri := VariantEntries(init, productId);
      assert forall j :: 0 <= j < |init| ==> init[j] == vs[j];
      assert forall i :: 0 <= i < |ri| ==> r[i] == ri[i];
      forall i | 0 <= i < |r|
        ensures EntryOf(r[i], vs, productId)
      {
        if i < |ri| {
          assert EntryOf(ri[i], init, productId);
          var j :| 0 <= j < |init| && Present(init[j].sku) && Present(init[j].id)
                  && ri[i] == (init[j].sku.value, VariantRef(init[j].id.value, productId));
          assert vs[j] == init[j];
        } else {
          var j := |vs| - 1;
          assert r[i] == (vs[j].sku.value, VariantRef(vs[j].id.value, productId));
        }
      }
      forall j | 0 <= j < |vs| && Present(vs[j].sku) && Present(vs[j].id)
        ensures (vs[j].sku.value, VariantRef(vs[j].id.value, productId)) in r
      {
        if j < |vs| - 1 {
          assert (vs[j].sku.value, VariantRef(vs[j].id.value, productId)) in ri;
        } else {
          assert r[|r| - 1] == (vs[j].sku.value, VariantRef(vs[j].id.value, productId));
        }
      }
    } else {
      assert |VariantEntries(vs, productId)| == 0;
    }
  }

  /** Entry e is one of the entries of a product in the reply that has an id. */
  predicate EnteredFrom(e: (string, VariantRef), products: seq<ProductHit>) {
    exists k :: 0 <= k < |products| && Present(products[k].id)
      && e in VariantEntries(products[k].variants, products[k].id.value)
  }

  /** An entry of a reply comes from a product with an id and one of its variants with
      a SKU and an id; every such variant is entered. */
  lemma {:induction false} HitEntriesSpec(products: seq<ProductHit>)
    ensures forall i :: 0 <= i < |HitEntries(products)| ==> EnteredFrom(HitEntries(products)[i], products)
    ensures forall k :: 0 <= k < |products| && Present(products[k].id) ==>
              forall e :: e in VariantEntries(products[k].variants, products[k].id.value) ==> e in HitEntries(products)
    decreases |products|
  {
    if |products| > 0 {
      var init := products[..|products| - 1];
      var p := products[|products| - 1];
      HitEntriesSpec(init);
      var r := HitEntries(products);
      var ri := HitEntries(init);
      assert forall k :: 0 <= k < |init| ==> init[k] == products[k];
      assert forall i :: 0 <= i < |ri| ==> r[i] == ri[i];
      forall i | 0 <= i < |r|
        ensures EnteredFrom(r[i], products)
      {
        if i < |ri| {
          assert EnteredFrom(ri[i], init);
          var k :| 0 <= k < |init| && Present(init[k].id)
                  && ri[i] in VariantEntries(init[k].variants, init[k].id.value);
          assert products[k] == init[k];
        } else {
          assert Present(p.id) && r == ri + VariantEntries(p.variants, p.id.value);
          assert r[i] == VariantEntries(p.variants, p.id.value)[i - |ri|];
          assert products[|products| - 1] == p;
        }
      }
      forall k, e | 0 <= k < |products| && Present(products[k].id)
                    && e in VariantEntries(products[k].variants, products[k].id.value)
        ensures e in r
      {
        if k < |init| {
          assert init[k] == products[k];
          assert e in ri;
        }
      }
    } else {
      assert |HitEntries(products)| == 0;
    }
  }

  /** The entries of the first `n` replies, in order. */
  function LookupEntries(replies: seq<SkuBatchReply>, n: nat): seq<(string, VariantRef)>
    requires n <= |replies|
  {
    if n == 0 then []
    else
      LookupEntries(replies, n - 1) + (if replies[n - 1].Hits? then HitEntries(replies[n - 1].products) else [])
  }

  /** `get_variant_ids_by_skus`: the SKUs are cleaned, cut into chunks of two and looked up
      one chunk per query; `replies[i]` is the reply to the i-th query. Nothing is queried
      when no SKU is left after cleaning. */
  method VariantIdsBySkus(skus: seq<string>, replies: seq<SkuBatchReply>)
    returns (r: Fetched<map<string, VariantRef>>, queries: seq<string>)
    requires |replies| == |Chunks(SanitizeSkus(skus), SkuBatchSize)|
    ensures |SanitizeSkus(skus)| == 0 ==> r == Fetched(map[]) && |queries| == 0
    ensures LookupOutcome(Chunks(SanitizeSkus(skus), SkuBatchSize), replies, r, queries)
  {
    var sanitized := SanitizeSkus(skus);
    if |sanitized| == 0 {
      return Fetched(map[]), [];
    }
    r, queries := LookupChunks(Chunks(sanitized, SkuBatchSize), replies);
  }

  /** What the chunk loop promises: the i-th query asks for the i-th chunk, every query but
      the last was answered, a completed run had every chunk answered and holds the entries
      of all replies (a later entry for the same SKU replacing an earlier one), a failed run
      stops at the failing reply, and the run fails exactly when some chunk's query raised. */
  predicate LookupOutcome(chunks: seq<seq<string>>, replies: seq<SkuBatchReply>,
                          r: Fetched<map<string, VariantRef>>, queries: seq<string>)
    requires |replies| == |chunks|
  {
    && |queries| <= |chunks|
    && queries <= SkuQueries(chunks)
    && (forall i :: 0 <= i < |queries| - 1 ==> replies[i].Hits?)
    && (r.Fetched? ==> |queries| == |chunks| && r.value == AssignAll(map[], LookupEntries(replies, |chunks|)))
    && (r.Fetched? ==> forall i :: 0 <= i < |chunks| ==> replies[i].Hits?)
    && (r.Raised? ==> |queries| >= 1 && replies[|queries| - 1] == BatchFailed(r.failure))
    && (r.Raised? <==> exists i :: 0 <= i < |chunks| && replies[i].BatchFailed?)
  }

  /** The loop over the chunks: each answered chunk's entries are written in order; an
      exception in a chunk is re-raised and ends the lookup. */
  method LookupChunks(chunks: seq<seq<string>>, replies: seq<SkuBatchReply>)
    returns (r: Fetched<map<string, VariantRef>>, queries: seq<string>)
    requires |replies| == |chunks|
    ensures LookupOutcome(chunks, replies, r, queries)
  {
    var i, entries := AnsweredChunks(chunks, replies);
    if i < |chunks| {
      RaisedOutcome(chunks, replies, i);
      return Raised(replies[i].failure), SkuQueries(chunks)[..i + 1];
    }
    // the map is only seen when no chunk raised, so writing the collected entries in
    // order here gives the map the per-chunk writes build
    r := WriteEntries(entries);
    FetchedOutcome(chunks, replies);
    return r, SkuQueries(chunks);
  }

  /** The chunks are read in order until one raised: `i` is the first that raised, or
      the number of chunks when none did, and `entries` holds those of the answered ones. */
  method AnsweredChunks(chunks: seq<seq<string>>, replies: seq<SkuBatchReply>)
    returns (i: nat, entries: seq<(string, VariantRef)>)
    requires |replies| == |chunks|
    ensures i <= |chunks| && (i < |chunks| ==> replies[i].BatchFailed?)
    ensures forall j :: 0 <= j < i ==> replies[j].Hits?
    ensures entries == LookupEntries(replies, i)
  {
    entries := [];
    i := 0;
    while i < |chunks|
      invariant 0 <= i <= |chunks|
      invariant forall j :: 0 <= j < i ==> replies[j].Hits?
      invariant entries == LookupEntries(replies, i)
    {
      if replies[i].BatchFailed? {
        return;
      }
      entries := entries + HitEntries(replies[i].products);
      i := i + 1;
    }
  }

  /** A lookup whose only chunk raised cannot return a map: the exception is re-raised. */
  lemma FailedLastBatchRaises(f: ApiFailure)
    ensures !LookupOutcome([["a"]], [BatchFailed(f)], Fetched(map[]), SkuQueries([["a"]]))
  {
  }

  /** A lookup whose chunks were all answered meets the outcome with the map of all entries. */
  lemma FetchedOutcome(chunks: seq<seq<string>>, replies: seq<SkuBatchReply>)
    requires |replies| == |chunks|
    requires forall j :: 0 <= j < |chunks| ==> replies[j].Hits?
    ensures LookupOutcome(chunks, replies, Fetched(AssignAll(map[], LookupEntries(replies, |chunks|))), SkuQueries(chunks))
  {
  }

  /** A lookup whose chunk `i` raised after all earlier ones were answered meets the
      outcome with that failure and the queries up to chunk `i`. */
  lemma RaisedOutcome(chunks: seq<seq<string>>, replies: seq<SkuBatchReply>, i: nat)
    requires |replies| == |chunks| && i < |chunks| && replies[i].BatchFailed?
    requires forall j :: 0 <= j < i ==> replies[j].Hits?
    ensures LookupOutcome(chunks, replies, Raised(replies[i].failure), SkuQueries(chunks)[..i + 1])
  {
  }

  /** `sku_map[sku] = …` for every entry in order, into an empty map. */
  method WriteEntries(entries: seq<(string, VariantRef)>) returns (r: Fetched<map<string, VariantRef>>)
    ensures r == Fetched(AssignAll(map[], entries))
  {
    var skuMap := AssignEach(map[], entries);
    r := Fetched(skuMap);
  }

  /** The query filters of all chunks, in order. */
  function SkuQueries(chunks: seq<seq<string>>): (r: seq<string>)
    ensures |r| == |chunks|
  {
    if |chunks| == 0 then [] else SkuQueries(chunks[..|chunks| - 1]) + [SkuQuery(chunks[|chunks| - 1])]
  }

  /** The i-th query asks for the i-th chunk. */
  lemma {:induction false} SkuQueriesSpec(chunks: seq<seq<string>>)
    ensures forall i :: 0 <= i < |chunks| ==> SkuQueries(chunks)[i] == SkuQuery(chunks[i])
    decreases |chunks|
  {
    if |chunks| > 0 {
      var init := chunks[..|chunks| - 1];
      SkuQueriesSpec(init);
      assert forall i :: 0 <= i < |init| ==> init[i] == chunks[i];
    }
  }

  /** Every cleaned SKU is queried exactly once, in order, at most two per query. */
  lemma SkuChunksCoverInput(skus: seq<string>)
    ensures Flatten(Chunks(SanitizeSkus(skus), SkuBatchSize)) == SanitizeSkus(skus)
    ensures forall c :: c in Chunks(SanitizeSkus(skus), SkuBatchSize) ==> 0 < |c| <= SkuBatchSize
  {
    ChunksFlatten(SanitizeSkus(skus), SkuBatchSize);
    ChunksSizes(SanitizeSkus(skus), SkuBatchSize);
  }

  // ---------------------------------------------------------------- media helpers

  datatype Move = Move(id: string, newPosition: string)

  /** `delete_product_media` sends the ids only when there are some. */
  function DeleteMediaRequest(mediaIds: seq<string>): (r: Option<seq<string>>)
    ensures r.None? <==> |mediaIds| == 0
    ensures r.Some? ==> r.value == mediaIds
  {
    if |mediaIds| == 0 then None else Some(mediaIds)
  }

  /** `reorder_product_media` sends one move per id, to its index, and nothing for fewer than two ids. */
  function ReorderMoves(mediaIds: seq<string>): (r: Option<seq<Move>>)
    ensures r.None? <==> |mediaIds| < 2
    ensures r.Some? ==> |r.value| == |mediaIds|
    ensures r.Some? ==> forall i :: 0 <= i < |mediaIds| ==>
              (r.value[i].id == mediaIds[i] && r.value[i].newPosition == NatToString(i)
               && DigitsValue(r.value[i].newPosition) == i)
  {
    if |mediaIds| < 2 then None
    else
      NatToStringRoundTripAll(|mediaIds|);
      Some(seq(|mediaIds|, i requires 0 <= i < |mediaIds| => Move(mediaIds[i], NatToString(i))))
  }

  lemma NatToStringRoundTripAll(n: nat)
    ensures forall i: nat :: i < n ==> DigitsValue(NatToString(i)) == i
  {
    forall i: nat | i < n ensures DigitsValue(NatToString(i)) == i {
      NatToStringRoundTrip(i);
    }
  }

  /** No two moves target the same position. */
  lemma ReorderPositionsDistinct(mediaIds: seq<string>, i: nat, j: nat)
    requires ReorderMoves(mediaIds).Some?
    requires i < j < |mediaIds|
    ensures ReorderMoves(mediaIds).value[i].newPosition != ReorderMoves(mediaIds).value[j].newPosition
  {
  }

  // ---------------------------------------------------------------- product cache

  datatype CachedProduct = CachedProduct(id: nat, gid: string)
  datatype RestProduct = RestProduct(id: nat, title: Option<string>, variantSkus: seq<Option<string>>)
  /** One `products.json` page and whether its Link header names a next page. */
  datatype RestPage = RestPage(products: seq<RestProduct>, hasNext: bool) | RestFailed(status: int)
  datatype CacheLoad = Loaded(total: nat, pagesRead: nat) | LoadFailed(status: int, pagesRead: nat) | CachePagesExhausted

  const NoActiveLocationError := "Shopify mağazasında aktif bir envanter lokasyonu bulunamadı."

  /** The first endpoint of `load_all_products_for_cache`: the API version is fixed at 2024-10. */
  function CacheFirstEndpoint(storeUrl: string): string {
    storeUrl + "/admin/api/2024-10/products.json?limit=50&fields=id,title,variants"
  }

  function ProductGid(id: nat): string {
    "gid://shopify/Product/" + NatToString(id)
  }

  /** The cache writes for one product: its title key, then one key per variant SKU. */
  function ProductCacheEntries(p: RestProduct): (r: seq<(string, CachedProduct)>) {
    var data := CachedProduct(p.id, ProductGid(p.id));
    (if Present(p.title) then [("title:" + Trim(p.title.value), data)] else [])
      + SkuCacheEntries(p.variantSkus, data)
  }

  function SkuCacheEntries(skus: seq<Option<string>>, data: CachedProduct): (r: seq<(string, CachedProduct)>)
    ensures |r| <= |skus|
  {
    if |skus| == 0 then []
    else
      SkuCacheEntries(skus[..|skus| - 1], data) +
        (if Present(skus[|skus| - 1]) then [("sku:" + Trim(skus[|skus| - 1].value), data)] else [])
  }

  /** Every SKU write is under a "sku:" key and stores the product's data; each non-empty
      SKU is written under "sku:" and its trimmed text. */
  lemma {:induction false} SkuCacheEntriesShape(skus: seq<Option<string>>, data: CachedProduct)
    ensures forall i :: 0 <= i < |SkuCacheEntries(skus, data)| ==>
              SkuCacheEntries(skus, data)[i].1 == data && StartsWith(SkuCacheEntries(skus, data)[i].0, "sku:")
    ensures forall j :: 0 <= j < |skus| && Present(skus[j]) ==> ("sku:" + Trim(skus[j].value), data) in SkuCacheEntries(skus, data)
    decreases |skus|
  {
    if |skus| > 0 {
      var init := skus[..|skus| - 1];
      SkuCacheEntriesShape(init, data);
      var r := SkuCacheEntries(skus, data);
      var ri := SkuCacheEntries(init, data);
      assert forall i :: 0 <= i < |ri| ==> r[i] == ri[i];
      forall j | 0 <= j < |skus| && Present(skus[j])
        ensures ("sku:" + Trim(skus[j].value), data) in r
      {
        if j < |skus| - 1 {
          assert init[j] == skus[j];
          assert ("sku:" + Trim(skus[j].value), data) in ri;
        } else {
          assert r[|r| - 1] == ("sku:" + Trim(skus[j].value), data);
        }
      }
    }
  }

  /** One product's writes all store its id and gid, under "title:" or "sku:" keys, and
      the title key is written exactly when the product has a non-empty title. */
  lemma ProductCacheEntriesShape(p: RestProduct)
    ensures forall i :: 0 <= i < |ProductCacheEntries(p)| ==>
              ProductCacheEntries(p)[i].1 == CachedProduct(p.id, ProductGid(p.id))
    ensures forall i :: 0 <= i < |ProductCacheEntries(p)| ==>
              StartsWith(ProductCacheEntries(p)[i].0, "title:") || StartsWith(ProductCacheEntries(p)[i].0, "sku:")
    ensures Present(p.title) ==> ProductCacheEntries(p)[0] == ("title:" + Trim(p.title.value), CachedProduct(p.id, ProductGid(p.id)))
    ensures forall j :: 0 <= j < |p.variantSkus| && Present(p.variantSkus[j]) ==>
              ("sku:" + Trim(p.variantSkus[j].value), CachedProduct(p.id, ProductGid(p.id))) in ProductCacheEntries(p)
  {
    var data := CachedProduct(p.id, ProductGid(p.id));
    SkuCacheEntriesShape(p.variantSkus, data);
    var head: seq<(string, CachedProduct)> := if Present(p.title) then [("title:" + Trim(p.title.value), data)] else [];
    var skus := SkuCacheEntries(p.variantSkus, data);
    var r := ProductCacheEntries(p);
    assert r == head + skus;
    assert forall i :: |head| <= i < |r| ==> r[i] == skus[i - |head|];
  }

  function PageCacheEntries(products: seq<RestProduct>): seq<(string, CachedProduct)> {
    if |products| == 0 then []
    else PageCacheEntries(products[..|products| - 1]) + ProductCacheEntries(products[|products| - 1])
  }

  /** The cache writes and the product count of the first `n` pages. */
  function PagesCacheEntries(pages: seq<RestPage>, n: nat): seq<(string, CachedProduct)>
    requires n <= |pages|
  {
    if n == 0 then []
    else PagesCacheEntries(pages, n - 1) + (if pages[n - 1].RestPage? then PageCacheEntries(pages[n - 1].products) else [])
  }

  function PagesProductCount(pages: seq<RestPage>, n: nat): nat
    requires n <= |pages|
  {
    if n == 0 then 0
    else PagesProductCount(pages, n - 1) + (if pages[n - 1].RestPage? then |pages[n - 1].products| else 0)
  }

  /** Each of the first `n` pages was read and announced a next page. */
  predicate PagesContinued(pages: seq<RestPage>, n: nat)
    requires n <= |pages|
  {
    n == 0 || (PagesContinued(pages, n - 1) && pages[n - 1].RestPage? && pages[n - 1].hasNext)
  }

  /** The recursive reading of `PagesContinued` says the same as its quantified one. */
  lemma {:induction false} PagesContinuedSpec(pages: seq<RestPage>, n: nat)
    requires n <= |pages|
    ensures PagesContinued(pages, n) <==> forall j :: 0 <= j < n ==> pages[j].RestPage? && pages[j].hasNext
  {
    if n > 0 {
      PagesContinuedSpec(pages, n - 1);
    }
  }

  /** The connector object: the derived URLs, the product cache, the memoised location id
      and the token bucket of `_rate_limit_wait`. */
  class ShopifyConnector {
    const endpoints: Endpoints
    var productCache: map<string, CachedProduct>
    var locationId: Option<string>
    var currentTokens: real
    var lastRequestTime: real

    ghost predicate Valid()
      reads this
    {
      0.0 <= currentTokens <= BurstTokens
    }

    constructor(e: Endpoints)
      ensures Valid()
      ensures endpoints == e && productCache == map[] && locationId == None
      ensures currentTokens == BurstTokens && lastRequestTime == 0.0
    {
      endpoints := e;
      productCache := map[];
      locationId := None;
      currentTokens := BurstTokens;
      lastRequestTime := 0.0;
    }

    /** `ShopifyAPI(store_url, access_token, api_version)`, with the ValueError as `Err`. */
    static method Connect(storeUrl: string, accessToken: string, apiVersion: string)
      returns (r: Result<ShopifyConnector>)
      ensures r.Err? <==> Configure(storeUrl, accessToken, apiVersion).Err?
      ensures r.Err? ==> r.error == Configure(storeUrl, accessToken, apiVersion).error
      ensures r.Ok? ==> (fresh(r.value) && r.value.Valid()
                         && r.value.endpoints == Configure(storeUrl, accessToken, apiVersion).value
                         && r.value.productCache == map[] && r.value.locationId == None)
    {
      var cfg := Configure(storeUrl, accessToken, apiVersion);
      if cfg.Err? {
        return Err(cfg.error);
      }
      var c := new ShopifyConnector(cfg.value);
      return Ok(c);
    }

    /** `_rate_limit_wait` at time `now`; returns how long it sleeps. */
    method RateLimitWait(now: real) returns (wait: real)
      requires Valid()
      modifies this`currentTokens, this`lastRequestTime
      ensures Valid()
      ensures BucketStep(Bucket(currentTokens, lastRequestTime), wait)
              == RateLimitStep(Bucket(old(currentTokens), old(lastRequestTime)), now)
    {
      var elapsed := now - lastRequestTime;
      currentTokens := MinR(BurstTokens, currentTokens + elapsed * RefillPerSecond);
      if currentTokens >= 1.0 {
        currentTokens := currentTokens - 1.0;
        lastRequestTime := now;
        return 0.0;
      }
      wait := (1.0 - currentTokens) / RefillPerSecond;
      lastRequestTime := now + wait;
      currentTokens := 0.0;
    }

    /** `execute_graphql`: `replies[i]` is the outcome the i-th request would get and
        `clock[i]` the time it would be made, for each of the eight possible attempts. Each attempt first passes the token bucket. Returns the data or
        the exception, and the backoffs slept between attempts. */
    method ExecuteGraphql(replies: seq<GqlReply>, clock: seq<real>)
      returns (result: Fetched<Json>, waits: seq<nat>)
      requires |replies| == MaxGraphqlAttempts && |clock| == MaxGraphqlAttempts
      requires Valid()
      modifies this`currentTokens, this`lastRequestTime
      ensures Valid()
      ensures GqlOutcome(result, waits) == GraphqlRun(AsWritten, replies, 0)
      ensures Bucket(currentTokens, lastRequestTime)
              == BucketAfter(Bucket(old(currentTokens), old(lastRequestTime)), clock, |waits| + 1)
    {
      ghost var start := Bucket(currentTokens, lastRequestTime);
      var attempt: nat := 0;
      waits := [];
      // the last attempt never retries, so the loop always ends by returning
      while attempt < MaxGraphqlAttempts
        invariant attempt < MaxGraphqlAttempts
        invariant RetriedSoFar(AsWritten, replies, attempt, waits)
        invariant Valid()
        invariant Bucket(currentTokens, lastRequestTime) == BucketAfter(start, clock, attempt)
        decreases MaxGraphqlAttempts - attempt
      {
        var _ := RateLimitWait(clock[attempt]);
        var step := GraphqlStepAsWritten(replies[attempt], attempt);
        if step.Retry? {
          waits := waits + [step.wait];
          attempt := attempt + 1;
        } else {
          GraphqlRunFromPrefix(AsWritten, replies, attempt, waits);
          return StepResult(step), waits;
        }
      }
      assert false;
    }

    /** `get_default_location_id`: no query once a truthy id is stored; otherwise the first
        active location is stored and returned, and none raises. */
    method GetDefaultLocationId(reply: Fetched<seq<string>>) returns (r: Fetched<string>, queried: bool)
      modifies this`locationId
      ensures Present(old(locationId)) ==> (!queried && r == Fetched(old(locationId).value) && locationId == old(locationId))
      ensures !Present(old(locationId)) ==> queried
      ensures queried && reply.Fetched? && |reply.value| > 0 ==>
                r == Fetched(reply.value[0]) && locationId == Some(reply.value[0])
      ensures queried && reply.Fetched? && |reply.value| == 0 ==>
                r == Raised(ExceptionRaised(NoActiveLocationError)) && locationId == old(locationId)
      ensures queried && reply.Raised? ==> r == Raised(reply.failure) && locationId == old(locationId)
    {
      if Present(locationId) {
        return Fetched(locationId.value), false;
      }
      queried := true;
      if reply.Raised? {
        return Raised(reply.failure), queried;
      }
      if |reply.value| == 0 {
        return Raised(ExceptionRaised(NoActiveLocationError)), queried;
      }
      locationId := Some(reply.value[0]);
      r := Fetched(reply.value[0]);
    }

    /** The cache writes of one page, `product_cache[key] = …` for each of its entries,
        and the running product count. */
    method CachePage(ghost start: map<string, CachedProduct>, pages: seq<RestPage>, i: nat, total: nat)
      returns (total': nat)
      modifies this`productCache
      requires i < |pages| && pages[i].RestPage?
      requires productCache == AssignAll(start, PagesCacheEntries(pages, i))
      requires total == PagesProductCount(pages, i)
      ensures productCache == AssignAll(start, PagesCacheEntries(pages, i + 1))
      ensures total' == PagesProductCount(pages, i + 1)
    {
      productCache := AssignEach(productCache, PageCacheEntries(pages[i].products));
      AssignAllAppend(start, PagesCacheEntries(pages, i), PageCacheEntries(pages[i].products));
      total' := total + |pages[i].products|;
    }

    /** `load_all_products_for_cache`: every product of every page is written under
        "title:" + trimmed title and "sku:" + each trimmed variant SKU, in order, so later
        writes win. Returns the number of products seen. An HTTP error is raised after the
        earlier pages have already been written. */
    method LoadAllProductsForCache(pages: seq<RestPage>) returns (out: CacheLoad)
      modifies this`productCache
      ensures out.Loaded? ==>
                && 1 <= out.pagesRead <= |pages|
                && PagesContinued(pages, out.pagesRead - 1)
                && pages[out.pagesRead - 1].RestPage? && !pages[out.pagesRead - 1].hasNext
                && out.total == PagesProductCount(pages, out.pagesRead)
                && productCache == AssignAll(old(productCache), PagesCacheEntries(pages, out.pagesRead))
      ensures out.LoadFailed? ==>
                && 1 <= out.pagesRead <= |pages|
                && PagesContinued(pages, out.pagesRead - 1)
                && pages[out.pagesRead - 1] == RestFailed(out.status)
                && productCache == AssignAll(old(productCache), PagesCacheEntries(pages, out.pagesRead - 1))
      ensures out.CachePagesExhausted? ==>
                && PagesContinued(pages, |pages|)
                && productCache == AssignAll(old(productCache), PagesCacheEntries(pages, |pages|))
    {
      ghost var start := productCache;
      var total: nat := 0;
      var i := 0;
      while i < |pages|
        invariant 0 <= i <= |pages|
        invariant PagesContinued(pages, i)
        invariant total == PagesProductCount(pages, i)
        invariant productCache == AssignAll(start, PagesCacheEntries(pages, i))
      {
        if pages[i].RestFailed? {
          out := LoadFailed(pages[i].status, i + 1);
          assert out.pagesRead - 1 == i;
          return;
        }
        total := CachePage(start, pages, i, total);
        if !pages[i].hasNext {
          return Loaded(total, i + 1);
        }
        i := i + 1;
      }
      return CachePagesExhausted;
    }
  }
}
