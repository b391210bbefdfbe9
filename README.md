# Bulk track retrieval of the Last.fm handler, modelled in Dafny

This project models `LastFMHandler::get_user_tracks`. This routine fetches a user's loved or recent tracks from the Last.fm API, which returns at most 1000 items per request. It works in four steps:

1. It sends a probe with `limit=1` to learn the total number of tracks.
2. It clamps the caller's limit (1000 by default) to that total. The result is the effective limit.
3. It requests the pages:
   - If the effective limit fits in one page, it sends one request with `limit` equal to the effective limit and no `page`.
   - Otherwise it sends `a / 5000` batches of five full-size pages (1000 items each) and then a remainder batch of `ceil((a mod 5000) / 1000)` full-size pages. Page numbers run on from 1 without gaps.
   - Every request of a batch is awaited together (`join_all`). The first error in request order ends the call.
4. It concatenates the items in request order and cuts them to the effective limit.

The model is split into five modules:

- `Wrappers`: `Option` and `Result`.
- `QueryParams`: the query-parameter map. It holds `Decimal` (`u32::to_string`), its inverse `ParseDecimal`, and `Merge`, the parameter merge of `fetch`.
- `Planner`: the constants, the `Request` type, the effective limit and the page plan. `Plan(a)` is the list of batches sent after the probe.
- `Retrieval`: what the routine computes, as functions of an abstract remote source `fetch: Request -> Result<Page<T>, E>`.
  - `Page` is the `TrackContainer` shape: `total` and `tracks`.
  - `RunBatch` covers one batch and `RunBatches` covers the batches in sequence.
  - `Retrieve` covers the whole call and also returns the requests it sent.
  - The lemmas here state the routine's properties.
- `LastFm`: the handler itself.
  - `GetUserTracks`, `FetchChunked` and `FetchSingle` follow the source's branches, one step at a time. The chunked branch's loop over full batches is `FetchFullBatches`, one full batch is `FetchFullBatch`, and the remainder batch is `FetchRemainder`.
  - `ExecuteBatch` covers the batch-result loop and `JoinAll` covers `join_all`. `Fetch` covers the parameter merge.
  - The remote side is an object of class `Remote`. Its `Get` answers a merged parameter map with a decoded page or an error, and appends that map to a ghost log `sent`.
  - `Oracle(h, respond, method)` is the resulting `Request -> Result<Page<T>, E>`. `Sent(h, method, reqs)` lists the parameter maps of the requests `reqs`.
  - Each method is proved to compute the matching function in `Retrieval`. It is also proved to have sent exactly the parameter maps of that function's requests, in order.

Three behaviours of the code worth noting:

- An effective limit of 0 still sends one request with `limit=0`. If that request succeeds, the call returns an empty list.
- The single-page request carries no `page` parameter.
- A failed batch reports the first error in request order, not in completion order. This is because the results of `join_all` are examined in input order.

## Model

| member | source | states |
|---|---|---|
| `QueryParams.Decimal` | src/lastfm_handler.rs:79-81 | a number is rendered as base-ten digits only, non-empty, without a leading zero |
| `QueryParams.DecimalRoundTrip` | src/lastfm_handler.rs:114-115 | parsing a rendered number gives that number back, so the page and limit sent are the ones the remote side reads |
| `QueryParams.DecimalInjective` | src/lastfm_handler.rs:135-137 | distinct limits or page numbers are rendered as distinct strings |
| `QueryParams.Merge` | src/lastfm_handler.rs:155-157 | the sent map has exactly the base keys, `method` and the request's keys; request parameters override everything; `method` is set unless the request overrides it; other base options are kept |
| `Planner.EffectiveLimit` | src/lastfm_handler.rs:54-64 | the effective limit is at most the total and at most the caller's limit (1000 when absent), and equals one of them, so an absent limit never exceeds one page |
| `Planner.CeilDiv` | src/lastfm_handler.rs:109 | the remainder's page count is the fewest full pages that hold the remainder |
| `Planner.PlanPages` | src/lastfm_handler.rs:66-123 | above one page, the requests are pages 1..N in order, strictly increasing, each with limit 1000; N = 5*(a/5000) + ceil((a mod 5000)/1000); 1000*N >= a and 1000*(N-1) < a |
| `Planner.PlanShape` | src/lastfm_handler.rs:66-137 | up to one page, the plan is one unpaged request with the effective limit; above it, a/5000 batches of exactly 5 requests and a remainder batch of 0 to 5 requests, empty exactly when a mod 5000 = 0 |
| `Planner.TwelveThousandItems` | src/lastfm_handler.rs:71-123 | 12000 items give batches of 5, 5 and 2 requests for pages 1 to 12 |
| `Retrieval.Take` | src/lastfm_handler.rs:145 | the result is the first min(n, length) items of the gathered list |
| `Retrieval.PageTracksLength` | src/lastfm_handler.rs:100 | pages of at least n items each give at least n items per request |
| `Retrieval.RunBatchSuccess` | src/lastfm_handler.rs:94-103 | a batch succeeds exactly when every request in it succeeds, and then yields every page's tracks in request order |
| `Retrieval.RunBatchFirstFailure` | src/lastfm_handler.rs:97-103 | a failed batch returns the error of its first failing request in request order, and every earlier request succeeded |
| `Retrieval.RunBatchesSuccess` | src/lastfm_handler.rs:71-132 | a run of batches succeeds exactly when every planned request succeeds; it then sent every planned request and yields all pages' tracks in request order |
| `Retrieval.RunBatchesFailure` | src/lastfm_handler.rs:71-132 | a failed run stops at the first failing batch; all earlier batches succeeded, the error is that batch's, and only requests up to the end of that batch were sent |
| `Retrieval.RunBatchesFailedPrefix` | src/lastfm_handler.rs:101 | once a batch has failed, later batches neither are sent nor change the outcome |
| `Retrieval.FullBatchesFailure` | src/lastfm_handler.rs:99-101 | once a full batch fails, the later full batches are neither sent nor change the outcome |
| `Retrieval.ChunkedFailure` | src/lastfm_handler.rs:101-107 | when the full batches fail, the remainder batch is never sent and the chunked run's outcome is theirs |
| `Retrieval.ChunkedRemainder` | src/lastfm_handler.rs:106-132 | after successful full batches, the chunked run sends the remainder batch, and returns its error or the full batches' tracks followed by its own |
| `Retrieval.RetrieveProbeFailure` | src/lastfm_handler.rs:57-60 | a failed probe is the call's error and the only request sent |
| `Retrieval.RetrieveSinglePage` | src/lastfm_handler.rs:133-147 | up to one page, exactly one request follows the probe; it has the effective limit and no page, and the result is its tracks cut to the limit or its error; with limit 0 a success is empty |
| `Retrieval.RetrieveDefaultLimit` | src/lastfm_handler.rs:54-66 | with no caller limit, at most the probe and one unpaged request of at most 1000 items are sent |
| `Retrieval.RetrieveSuccess` | src/lastfm_handler.rs:97-147 | a successful call sent the probe and then every planned request, all of which succeeded; it returns the planned pages' tracks concatenated in request order and cut to the effective limit, so it returns at most that many |
| `Retrieval.RetrieveSucceedsIff` | src/lastfm_handler.rs:60-142 | the call succeeds exactly when the probe and every planned request succeed |
| `Retrieval.RetrieveFullPages` | src/lastfm_handler.rs:66-147 | when every planned page holds at least its limit, the result has exactly the effective limit's number of items |
| `Retrieval.RetrieveFailure` | src/lastfm_handler.rs:99-139 | a failed call is all or nothing: either the probe failed alone, or some batch failed after all earlier ones succeeded; its error is returned and nothing after that batch was sent |
| `LastFm.NewHandler` | src/lastfm_handler.rs:21-29 | base options are exactly `api_key`, `limit`, `format` and `user`, with limit 1000 and neither `method` nor `page` |
| `LastFm.Remote.Get` | src/lastfm_handler.rs:163-165 | each call sends one parameter map, appended to the remote's log, and returns the remote's answer to it |
| `LastFm.Fetch` | src/lastfm_handler.rs:150-167 | the remote receives exactly one map, the base options overridden by `method` and then by the request's parameters, and its answer to that map is returned |
| `LastFm.JoinAll` | src/lastfm_handler.rs:94 | every request of a batch is sent, once each and in request order, and the results come back in request order |
| `LastFm.ExecuteBatch` | src/lastfm_handler.rs:94-103 | the whole batch is sent, and the loop returns the first error in request order or all pages' tracks in order, as `RunBatch` |
| `LastFm.PageRequests` | src/lastfm_handler.rs:76-91 | a batch's fetches are full-size requests for consecutive pages from the given first page, as `PageBatch` |
| `LastFm.FetchFullBatch` | src/lastfm_handler.rs:72-103 | full batch i sends exactly pages 5i+1 to 5i+5 and returns their tracks or the first error, as `RunBatch` of that batch |
| `LastFm.FetchFullBatches` | src/lastfm_handler.rs:71-104 | the loop over full batches sends them in order up to the first failed one and gathers their tracks, as `RunBatches` of `FullBatches` |
| `LastFm.FetchRemainder` | src/lastfm_handler.rs:106-132 | the remainder batch sends exactly the pages of `RemainderBatch` and returns their tracks or the first error |
| `LastFm.FetchChunked` | src/lastfm_handler.rs:66-132 | the chunked loops send exactly the batches of `Plan` up to the first failed one, as recorded in the remote's `sent` log, and gather their tracks or return that batch's error, as `RunBatches` |
| `LastFm.FetchSingle` | src/lastfm_handler.rs:133-142 | up to one page, exactly one unpaged request with the effective limit is sent, and its tracks or its error are returned, as `RunBatches` of the plan |
| `LastFm.GetUserTracks` | src/lastfm_handler.rs:47-148 | the routine returns what `Retrieve` describes, and the remote's `sent` log grows by exactly the parameter maps of `Retrieve`'s requests, in order, so every `Retrieval` lemma applies to it |
| `LastFm.GetUserLovedTracks` | src/lastfm_handler.rs:31-37 | loved tracks are the bulk retrieval of `user.getlovedtracks`: its result and the requests it sends |
| `LastFm.GetUserRecentTracks` | src/lastfm_handler.rs:39-45 | recent tracks are the bulk retrieval of `user.getrecenttracks`: its result and the requests it sends |
| `LastFm.SentParams` | src/lastfm_handler.rs:84-86 | every sent map carries the method name and the request's limit, and a page exactly when the request has one; other base options are unchanged |
| `LastFm.SentParamsIdentifyRequest` | src/lastfm_handler.rs:117-119 | distinct requests reach the transport as distinct parameter maps |

## Left out

- HTTP transport and JSON decoding (`reqwest::get`, `response.json`): the remote's `respond` is a parameter, a total function from the merged parameters to a decoded page or an error.
- `Remote.Get`: the answer depends only on the parameters sent, so the same parameters always get the same answer. With an effective limit of 1, the single-page request repeats the probe's parameters and gets the probe's answer. A remote whose total or answers change between requests is not modelled.
- URL building (`Url::add_args(..).build()`) and the handler's `url` field: the transport receives the parameter map directly. The `url_builder` and `types` modules are not part of this model.
- The `LAST_FM_API_KEY` environment read in `new`: the key is a parameter of `NewHandler`.
- The `println!` diagnostics.
- Asynchronous execution and completion order: `join_all` is modelled as sequential evaluation in request order. This is the order in which its results are examined.
- The unused `test_fetch` stub.
- The `f32` casts: the chunk count is integer division and the remainder's page count is an exact integer ceiling. Both are exact for the values that occur.
- `u32` widths: limits, totals and page numbers are unbounded naturals, so overflow is not modelled.
- The `TrackContainer` trait and its two implementations for loved and recent tracks: both are projections onto the response's total and track list, so they are modelled by the generic `Page<T>` with fields `total` and `tracks`.
- The batch-result loop appears twice in the source. Here it is one method, `ExecuteBatch`. The chunked branch is split into `FetchChunked`, `FetchFullBatches`, `FetchFullBatch` and `FetchRemainder`. These return their items and let the caller append them, where the source appends to `all_tracks` directly. The outcome is the same, because a failure discards `all_tracks` and returns at once.
