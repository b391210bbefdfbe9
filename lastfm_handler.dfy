/** The Last.fm handler: the base query options, the parameter merge of `fetch`, and the
    bulk retrieval `get_user_tracks` written step by step, each step proved to compute
    what `Retrieval.Retrieve` describes. */
module LastFm {
  import opened Wrappers
  import opened QueryParams
  import opened Planner
  import opened Retrieval

  /** The handler's state, fixed once built: the options every request starts from.
      (Its endpoint URL only feeds URL building, which is not part of this model.) */
  datatype LastFmHandler = LastFmHandler(baseOptions: Params)

  /** The remote call behind one URL: the merged query parameters in, a decoded page or
      an error out. */
  type Transport<T, E> = Params -> Result<Page<T>, E>

  /** `LastFMHandler::new`, with the API key passed in rather than read from the
      environment. Neither a method name nor a page number is among the base options. */
  function NewHandler(apiKey: string, username: string): (h: LastFmHandler)
    ensures h.baseOptions.Keys == {"api_key", "limit", "format", "user"}
    ensures "method" !in h.baseOptions && "page" !in h.baseOptions
    ensures h.baseOptions["user"] == username && h.baseOptions["api_key"] == apiKey
    ensures ParseDecimal(h.baseOptions["limit"]) == ApiMaxLimit
  {
    DecimalRoundTrip(ApiMaxLimit);
    LastFmHandler(map["api_key" := apiKey, "limit" := Decimal(ApiMaxLimit),
                      "format" := "json", "user" := username])
  }

  /** The parameters `get_user_tracks` hands to `fetch` for a request: an unpaged request
      (the probe, the single page) carries only its limit; a paged one starts from the
      base options and sets its limit and page. */
  function RequestParams(base: Params, req: Request): Params {
    match req.page
    case None => map["limit" := Decimal(req.limit)]
    case Some(p) => base["limit" := Decimal(req.limit)]["page" := Decimal(p)]
  }

  /** The remote source as the retrieval sees it: a request, sent through `fetch`. */
  function Oracle<T, E>(h: LastFmHandler, transport: Transport<T, E>, apiMethod: string): Request -> Result<Page<T>, E> {
    req => transport(Merge(h.baseOptions, apiMethod, RequestParams(h.baseOptions, req)))
  }

  /** The parameter map the transport receives for one request. */
  function SentFor(h: LastFmHandler, apiMethod: string, req: Request): Params {
    Merge(h.baseOptions, apiMethod, RequestParams(h.baseOptions, req))
  }

  /** The parameter maps the transport receives for a list of requests, in order. */
  function Sent(h: LastFmHandler, apiMethod: string, reqs: seq<Request>): (r: seq<Params>)
    ensures |r| == |reqs|
  {
    seq(|reqs|, k requires 0 <= k < |reqs| => SentFor(h, apiMethod, reqs[k]))
  }

  lemma SentAppend(h: LastFmHandler, apiMethod: string, r1: seq<Request>, r2: seq<Request>)
    ensures Sent(h, apiMethod, r1 + r2) == Sent(h, apiMethod, r1) + Sent(h, apiMethod, r2)
  {
  }

  /** Two steps of the log, one after the other, sent the two request lists in turn. */
  lemma SentStep(h: LastFmHandler, apiMethod: string, log0: seq<Params>, log1: seq<Params>, log2: seq<Params>,
                 r1: seq<Request>, r2: seq<Request>)
    requires log1 == log0 + Sent(h, apiMethod, r1)
    requires log2 == log1 + Sent(h, apiMethod, r2)
    ensures log2 == log0 + Sent(h, apiMethod, r1 + r2)
  {
    SentAppend(h, apiMethod, r1, r2);
  }

  /** The remote end of the HTTP calls (`reqwest::get` and the JSON decoding): it answers
      each parameter map through `respond`, and `sent` records every map it has been sent,
      in order. */
  class Remote<T, E> {
    const respond: Transport<T, E>
    ghost var sent: seq<Params>

    constructor (respond: Transport<T, E>)
      ensures this.respond == respond && sent == []
    {
      this.respond := respond;
      sent := [];
    }

    /** One HTTP call: the parameters are recorded as sent and answered. */
    method Get(params: Params) returns (r: Result<Page<T>, E>)
      modifies this
      ensures sent == old(sent) + [params]
      ensures r == respond(params)
    {
      sent := sent + [params];
      r := respond(params);
    }
  }

  /** `fetch`: the base options, then the method name, then the request's own parameters,
      sent to the remote as one call. */
  method Fetch<T, E>(h: LastFmHandler, remote: Remote<T, E>, apiMethod: string, params: Params)
    returns (r: Result<Page<T>, E>)
    modifies remote
    ensures remote.sent == old(remote.sent) + [Merge(h.baseOptions, apiMethod, params)]
    ensures r == remote.respond(Merge(h.baseOptions, apiMethod, params))
  {
    var finalParams := h.baseOptions;
    finalParams := finalParams["method" := apiMethod];
    finalParams := finalParams + params;
    r := remote.Get(finalParams);
  }

  /** `join_all` over the batch's fetches: every request is sent, in request order, and
      the results come back in request order, whatever order they complete in. */
  method JoinAll<T, E>(h: LastFmHandler, remote: Remote<T, E>, apiMethod: string, fetches: seq<Request>)
    returns (results: seq<Result<Page<T>, E>>)
    modifies remote
    ensures remote.sent == old(remote.sent) + Sent(h, apiMethod, fetches)
    ensures |results| == |fetches|
    ensures forall k :: 0 <= k < |fetches| ==> results[k] == Oracle(h, remote.respond, apiMethod)(fetches[k])
  {
    results := [];
    for k := 0 to |fetches|
      invariant remote.sent == old(remote.sent) + Sent(h, apiMethod, fetches[..k])
      invariant |results| == k
      invariant forall j :: 0 <= j < k ==> results[j] == Oracle(h, remote.respond, apiMethod)(fetches[j])
    {
      var result := Fetch(h, remote, apiMethod, RequestParams(h.baseOptions, fetches[k]));
      assert Sent(h, apiMethod, [fetches[k]]) == [SentFor(h, apiMethod, fetches[k])];
      assert fetches[..k + 1] == fetches[..k] + [fetches[k]];
      SentAppend(h, apiMethod, fetches[..k], [fetches[k]]);
      results := results + [result];
    }
    assert fetches[..|fetches|] == fetches;
  }

  /** One batch: await all its fetches, then take the results in order, leaving with the
      first error or with every page's items appended. */
  method ExecuteBatch<T, E>(h: LastFmHandler, remote: Remote<T, E>, apiMethod: string, fetches: seq<Request>)
    returns (r: Result<seq<T>, E>)
    modifies remote
    ensures remote.sent == old(remote.sent) + Sent(h, apiMethod, fetches)
    ensures r == RunBatch(Oracle(h, remote.respond, apiMethod), fetches)
  {
    ghost var fetch := Oracle(h, remote.respond, apiMethod);
    var chunkResults := JoinAll(h, remote, apiMethod, fetches);
    var tracks: seq<T> := [];
    for k := 0 to |chunkResults|
      invariant remote.sent == old(remote.sent) + Sent(h, apiMethod, fetches)
      invariant RunBatch(fetch, fetches[..k]) == Success(tracks)
    {
      assert fetches[..k + 1] == fetches[..k] + [fetches[k]];
      RunBatchAppend(fetch, fetches[..k], [fetches[k]]);
      assert [fetches[k]][1..] == [];
      match chunkResults[k]
      case Success(page) =>
        tracks := tracks + page.tracks;
        assert page.tracks + [] == page.tracks;
      case Failure(e) =>
        assert fetches == fetches[..k + 1] + fetches[k + 1..];
        RunBatchAppend(fetch, fetches[..k + 1], fetches[k + 1..]);
        return Failure(e);
    }
    assert fetches[..|chunkResults|] == fetches;
    r := Success(tracks);
  }

  /** The fetches pushed for one batch: `count` full-size requests for consecutive pages
      starting at `first`. */
  method PageRequests(first: nat, count: nat) returns (allFetches: seq<Request>)
    ensures |allFetches| == count
    ensures forall k :: 0 <= k < count ==> allFetches[k] == Request(Some(first + k), ApiMaxLimit)
    ensures allFetches == PageBatch(first, count)
  {
    allFetches := [];
    for j := 0 to count
      invariant |allFetches| == j
      invariant forall k :: 0 <= k < j ==> allFetches[k] == Request(Some(first + k), ApiMaxLimit)
    {
      allFetches := allFetches + [Request(Some(first + j), ApiMaxLimit)];
    }
  }

  /** The chunked branch of `get_user_tracks`, for an effective limit above one page:
      `actualLimit / ChunkSize` full batches, then a remainder batch continuing the page
      numbers; the first failed batch ends it. Returns the gathered items, not yet cut; the
      remote has been sent exactly the requests of the batches up to the first failed one. */
  method FetchChunked<T, E>(h: LastFmHandler, remote: Remote<T, E>, apiMethod: string, actualLimit: nat)
    returns (r: Result<seq<T>, E>)
    requires actualLimit > ApiMaxLimit
    modifies remote
    ensures var run := RunBatches(Oracle(h, remote.respond, apiMethod), Plan(actualLimit));
      r == run.result && remote.sent == old(remote.sent) + Sent(h, apiMethod, run.issued)
  {
    ghost var fetch := Oracle(h, remote.respond, apiMethod);
    var neededChunks := actualLimit / ChunkSize;
    var allTracks := FetchFullBatches(h, remote, apiMethod, neededChunks);
    if allTracks.Failure? {
      ChunkedFailure(fetch, actualLimit);
      return Failure(allTracks.error);
    }
    ghost var issued := RunBatches(fetch, FullBatches(neededChunks)).issued;
    ghost var logBefore := remote.sent;

    var chunkResult := FetchRemainder(h, remote, apiMethod, actualLimit);
    ChunkedRemainder(fetch, actualLimit);
    SentStep(h, apiMethod, old(remote.sent), logBefore, remote.sent, issued, RemainderBatch(actualLimit));
    if chunkResult.Failure? {
      return Failure(chunkResult.error);
    }
    r := Success(allTracks.value + chunkResult.value);
  }

  /** The loop over the full batches of the chunked branch: batch `i` holds
      `ChunkMultiplier` consecutive full-size pages; the first failed batch ends the loop. */
  method FetchFullBatches<T, E>(h: LastFmHandler, remote: Remote<T, E>, apiMethod: string, neededChunks: nat)
    returns (r: Result<seq<T>, E>)
    modifies remote
    ensures var run := RunBatches(Oracle(h, remote.respond, apiMethod), FullBatches(neededChunks));
      r == run.result && remote.sent == old(remote.sent) + Sent(h, apiMethod, run.issued)
  {
    ghost var fetch := Oracle(h, remote.respond, apiMethod);
    var allTracks: seq<T> := [];
    ghost var issued: seq<Request> := [];

    for i := 0 to neededChunks
      invariant RunBatches(fetch, FullBatches(i)) == Outcome(Success(allTracks), issued)
      invariant remote.sent == old(remote.sent) + Sent(h, apiMethod, issued)
    {
      ghost var logBefore := remote.sent;
      var chunkResult := FetchFullBatch(h, remote, apiMethod, i);
      ghost var batch := PageBatch(ChunkMultiplier * i + 1, ChunkMultiplier);
      FullBatchesSnoc(i);
      RunBatchesSnoc(fetch, FullBatches(i), batch);
      SentStep(h, apiMethod, old(remote.sent), logBefore, remote.sent, issued, batch);
      issued := issued + batch;
      if chunkResult.Failure? {
        FullBatchesFailure(fetch, neededChunks, i);
        return Failure(chunkResult.error);
      }
      allTracks := allTracks + chunkResult.value;
    }
    r := Success(allTracks);
  }

  /** Batch `i` of the chunked branch: `ChunkMultiplier` full-size pages numbered on from
      `ChunkMultiplier * i + 1`, awaited together. */
  method FetchFullBatch<T, E>(h: LastFmHandler, remote: Remote<T, E>, apiMethod: string, i: nat)
    returns (r: Result<seq<T>, E>)
    modifies remote
    ensures r == RunBatch(Oracle(h, remote.respond, apiMethod), PageBatch(ChunkMultiplier * i + 1, ChunkMultiplier))
    ensures remote.sent == old(remote.sent) + Sent(h, apiMethod, PageBatch(ChunkMultiplier * i + 1, ChunkMultiplier))
  {
    var allFetches := PageRequests(i * ChunkMultiplier + 1, ChunkMultiplier);
    r := ExecuteBatch(h, remote, apiMethod, allFetches);
  }

  /** The remainder batch of the chunked branch: `ceil((actualLimit mod ChunkSize) / ApiMaxLimit)`
      full-size pages continuing after the full batches, awaited together. */
  method FetchRemainder<T, E>(h: LastFmHandler, remote: Remote<T, E>, apiMethod: string, actualLimit: nat)
    returns (r: Result<seq<T>, E>)
    modifies remote
    ensures r == RunBatch(Oracle(h, remote.respond, apiMethod), RemainderBatch(actualLimit))
    ensures remote.sent == old(remote.sent) + Sent(h, apiMethod, RemainderBatch(actualLimit))
  {
    var neededChunks := actualLimit / ChunkSize;
    var remainder := actualLimit % ChunkSize;
    var neededCalls := CeilDiv(remainder, ApiMaxLimit);
    var allFetches := PageRequests(ChunkMultiplier * neededChunks + 1, neededCalls);
    r := ExecuteBatch(h, remote, apiMethod, allFetches);
  }

  /** The single-page branch of `get_user_tracks`, for an effective limit of at most one
      page: one request with that limit and no page number. */
  method FetchSingle<T, E>(h: LastFmHandler, remote: Remote<T, E>, apiMethod: string, actualLimit: nat)
    returns (r: Result<seq<T>, E>)
    requires actualLimit <= ApiMaxLimit
    modifies remote
    ensures var run := RunBatches(Oracle(h, remote.respond, apiMethod), Plan(actualLimit));
      r == run.result && remote.sent == old(remote.sent) + Sent(h, apiMethod, run.issued)
  {
    ghost var fetch := Oracle(h, remote.respond, apiMethod);
    var request := Request(None, actualLimit);
    var response := Fetch(h, remote, apiMethod, RequestParams(h.baseOptions, request));
    assert fetch(request) == response;
    assert Plan(actualLimit) == [[request]];
    RunSingleRequest(fetch, request);
    assert Sent(h, apiMethod, [request]) == [SentFor(h, apiMethod, request)];
    if response.Failure? {
      return Failure(response.error);
    }
    r := Success(response.value.tracks);
  }

  /** `get_user_tracks`: probe for the total, clamp the limit, then either one unpaged
      request or the chunked batches, and finally the gathered items cut to the effective
      limit. The remote has been sent exactly the requests `Retrieve` lists, in order. */
  method GetUserTracks<T, E>(h: LastFmHandler, remote: Remote<T, E>, apiMethod: string, limit: Option<nat>)
    returns (r: Result<seq<T>, E>)
    modifies remote
    ensures var o := Retrieve(Oracle(h, remote.respond, apiMethod), limit);
      r == o.result && remote.sent == old(remote.sent) + Sent(h, apiMethod, o.issued)
  {
    ghost var fetch := Oracle(h, remote.respond, apiMethod);
    var allTracks: seq<T> := [];
    var finalLimit := limit.GetOr(ApiMaxLimit);

    var initialResponse := Fetch(h, remote, apiMethod, RequestParams(h.baseOptions, Probe));
    assert fetch(Probe) == initialResponse;
    assert Sent(h, apiMethod, [Probe]) == [SentFor(h, apiMethod, Probe)];
    if initialResponse.Failure? {
      return Failure(initialResponse.error);
    }
    var totalTracks := initialResponse.value.total;
    var actualLimit := if finalLimit <= totalTracks then finalLimit else totalTracks;
    assert actualLimit == EffectiveLimit(limit, totalTracks);

    ghost var run := RunBatches(fetch, Plan(actualLimit));
    ghost var logBefore := remote.sent;
    var pages;
    if actualLimit > ApiMaxLimit {
      pages := FetchChunked(h, remote, apiMethod, actualLimit);
    } else {
      pages := FetchSingle(h, remote, apiMethod, actualLimit);
    }
    SentStep(h, apiMethod, old(remote.sent), logBefore, remote.sent, [Probe], run.issued);
    if pages.Failure? {
      return Failure(pages.error);
    }
    allTracks := allTracks + pages.value;
    assert allTracks == pages.value;

    r := Success(Take(allTracks, actualLimit));
  }

  /** `get_user_loved_tracks`: the bulk retrieval of the `user.getlovedtracks` method. */
  method GetUserLovedTracks<T, E>(h: LastFmHandler, remote: Remote<T, E>, limit: Option<nat>)
    returns (r: Result<seq<T>, E>)
    modifies remote
    ensures var o := Retrieve(Oracle(h, remote.respond, "user.getlovedtracks"), limit);
      r == o.result && remote.sent == old(remote.sent) + Sent(h, "user.getlovedtracks", o.issued)
  {
    r := GetUserTracks(h, remote, "user.getlovedtracks", limit);
  }

  /** `get_user_recent_tracks`: the bulk retrieval of the `user.getrecenttracks` method. */
  method GetUserRecentTracks<T, E>(h: LastFmHandler, remote: Remote<T, E>, limit: Option<nat>)
    returns (r: Result<seq<T>, E>)
    modifies remote
    ensures var o := Retrieve(Oracle(h, remote.respond, "user.getrecenttracks"), limit);
      r == o.result && remote.sent == old(remote.sent) + Sent(h, "user.getrecenttracks", o.issued)
  {
    r := GetUserTracks(h, remote, "user.getrecenttracks", limit);
  }

  /** What the transport receives for a request: the method name, the request's limit,
      a page number exactly when the request has one, and every other base option
      unchanged. */
  lemma SentParams(base: Params, apiMethod: string, req: Request)
    requires "method" !in base && "page" !in base
    ensures var sent := Merge(base, apiMethod, RequestParams(base, req));
      && sent["method"] == apiMethod
      && sent["limit"] == Decimal(req.limit)
      && ("page" in sent <==> req.page.Some?)
      && (req.page.Some? ==> sent["page"] == Decimal(req.page.value))
      && forall k :: k in base && k != "limit" ==> sent[k] == base[k]
  {
  }

  /** Distinct requests reach the transport as distinct parameter maps, and the remote
      side reads back the page and limit that were meant. */
  lemma SentParamsIdentifyRequest(base: Params, apiMethod: string, req1: Request, req2: Request)
    requires "method" !in base && "page" !in base
    requires Merge(base, apiMethod, RequestParams(base, req1)) == Merge(base, apiMethod, RequestParams(base, req2))
    ensures req1 == req2
  {
    SentParams(base, apiMethod, req1);
    SentParams(base, apiMethod, req2);
    DecimalInjective(req1.limit, req2.limit);
    if req1.page.Some? {
      DecimalInjective(req1.page.value, req2.page.value);
    }
  }
}
