/** What `get_user_tracks` computes, as functions of the remote source: how one batch's
    results are gathered, how batches follow one another, and the whole retrieval with its
    probe and final truncation. */
module Retrieval {
  import opened Wrappers
  import opened Planner

  /** The page shape every remote method's response exposes (`TrackContainer`): the total
      number of items available and the items on this page. */
  datatype Page<T> = Page(total: nat, tracks: seq<T>)

  /** What a retrieval returns, together with the requests it sent, in order. */
  datatype Outcome<T, E> = Outcome(result: Result<seq<T>, E>, issued: seq<Request>)

  /** The first `n` items, or all of them when there are fewer (`into_iter().take(n)`). */
  function Take<T>(xs: seq<T>, n: nat): (r: seq<T>)
    ensures |r| == if |xs| <= n then |xs| else n
    ensures r == xs[..|r|]
  {
    if |xs| <= n then xs else xs[..n]
  }

  /** Reference definition: the items of every page, in request order. A failed request
      contributes no items here; this function is only used where every request of `reqs`
      succeeded (`RunBatchSuccess`, `RunBatchesSuccess`, `RetrieveSuccess`), so that case
      never stands for an answer of the routine. */
  function PageTracks<T, E>(fetch: Request -> Result<Page<T>, E>, reqs: seq<Request>): seq<T> {
    if reqs == [] then []
    else
      (match fetch(reqs[0]) case Success(p) => p.tracks case Failure(_) => [])
      + PageTracks(fetch, reqs[1..])
  }

  /** One batch: the results in request order; the first error ends it, otherwise the
      pages' items are appended one after the other. */
  function RunBatch<T, E>(fetch: Request -> Result<Page<T>, E>, batch: seq<Request>): Result<seq<T>, E> {
    if batch == [] then Success([])
    else
      match fetch(batch[0])
      case Failure(e) => Failure(e)
      case Success(p) =>
        match RunBatch(fetch, batch[1..])
        case Failure(e) => Failure(e)
        case Success(rest) => Success(p.tracks + rest)
  }

  function Prepend<T, E>(xs: seq<T>, r: Result<seq<T>, E>): Result<seq<T>, E> {
    match r
    case Success(ys) => Success(xs + ys)
    case Failure(e) => Failure(e)
  }

  /** Batches one after another: every request of a batch is sent; a failed batch ends the
      run with its error and no later batch is sent. */
  function RunBatches<T, E>(fetch: Request -> Result<Page<T>, E>, bs: seq<seq<Request>>): Outcome<T, E> {
    if bs == [] then Outcome(Success([]), [])
    else
      match RunBatch(fetch, bs[0])
      case Failure(e) => Outcome(Failure(e), bs[0])
      case Success(xs) =>
        var rest := RunBatches(fetch, bs[1..]);
        Outcome(Prepend(xs, rest.result), bs[0] + rest.issued)
  }

  /** The whole retrieval for a caller's limit: the probe, then the plan for the effective
      limit, then the gathered items cut down to that limit. */
  function Retrieve<T, E>(fetch: Request -> Result<Page<T>, E>, limit: Option<nat>): Outcome<T, E> {
    match fetch(Probe)
    case Failure(e) => Outcome(Failure(e), [Probe])
    case Success(probed) =>
      var a := EffectiveLimit(limit, probed.total);
      var run := RunBatches(fetch, Plan(a));
      Outcome(
        match run.result case Success(xs) => Success(Take(xs, a)) case Failure(e) => Failure(e),
        [Probe] + run.issued)
  }

  // ---------------------------------------------------------------------------------------
  // One batch

  lemma {:induction false} PageTracksAppend<T, E>(fetch: Request -> Result<Page<T>, E>, r1: seq<Request>, r2: seq<Request>)
    ensures PageTracks(fetch, r1 + r2) == PageTracks(fetch, r1) + PageTracks(fetch, r2)
  {
    if r1 != [] {
      assert (r1 + r2)[1..] == r1[1..] + r2;
      PageTracksAppend(fetch, r1[1..], r2);
    } else {
      assert r1 + r2 == r2;
    }
  }

  /** Every page at least `n` items long gives at least `n` items per request. */
  lemma {:induction false} PageTracksLength<T, E>(fetch: Request -> Result<Page<T>, E>, reqs: seq<Request>, n: nat)
    requires forall k :: 0 <= k < |reqs| ==> fetch(reqs[k]).Success? && n <= |fetch(reqs[k]).value.tracks|
    ensures n * |reqs| <= |PageTracks(fetch, reqs)|
  {
    if reqs != [] {
      PageTracksLength(fetch, reqs[1..], n);
    }
  }

  /** A batch succeeds exactly when every request in it does, and then yields every page's
      items in request order. */
  lemma {:induction false} RunBatchSuccess<T, E>(fetch: Request -> Result<Page<T>, E>, batch: seq<Request>)
    ensures RunBatch(fetch, batch).Success? <==> forall k :: 0 <= k < |batch| ==> fetch(batch[k]).Success?
    ensures RunBatch(fetch, batch).Success? ==> RunBatch(fetch, batch).value == PageTracks(fetch, batch)
  {
    if batch != [] {
      RunBatchSuccess(fetch, batch[1..]);
      assert forall k :: 1 <= k < |batch| ==> batch[k] == batch[1..][k - 1];
    }
  }

  /** A failed batch reports the error of its first failing request in request order. */
  lemma {:induction false} RunBatchFirstFailure<T, E>(fetch: Request -> Result<Page<T>, E>, batch: seq<Request>)
    requires RunBatch(fetch, batch).Failure?
    ensures exists k :: (0 <= k < |batch|
      && fetch(batch[k]) == Failure(RunBatch(fetch, batch).error)
      && forall j :: 0 <= j < k ==> fetch(batch[j]).Success?)
  {
    if fetch(batch[0]).Success? {
      RunBatchFirstFailure(fetch, batch[1..]);
      var k :| 0 <= k < |batch[1..]|
        && fetch(batch[1..][k]) == Failure(RunBatch(fetch, batch[1..]).error)
        && forall j :: 0 <= j < k ==> fetch(batch[1..][j]).Success?;
      assert forall j :: 1 <= j < k + 1 ==> batch[j] == batch[1..][j - 1];
      assert fetch(batch[k + 1]) == Failure(RunBatch(fetch, batch).error);
    } else {
      assert fetch(batch[0]) == Failure(RunBatch(fetch, batch).error);
    }
  }

  /** Gathering a batch piece by piece: the first part's error wins, otherwise the parts'
      items are joined. */
  lemma {:induction false} RunBatchAppend<T, E>(fetch: Request -> Result<Page<T>, E>, b1: seq<Request>, b2: seq<Request>)
    ensures RunBatch(fetch, b1 + b2) ==
      match RunBatch(fetch, b1)
      case Failure(e) => Failure(e)
      case Success(xs) => Prepend(xs, RunBatch(fetch, b2))
  {
    if b1 == [] {
      assert b1 + b2 == b2;
      match RunBatch(fetch, b2) {
        case Success(ys) => assert [] + ys == ys;
        case Failure(_) =>
      }
    } else {
      assert (b1 + b2)[0] == b1[0];
      assert (b1 + b2)[1..] == b1[1..] + b2;
      RunBatchAppend(fetch, b1[1..], b2);
      match fetch(b1[0]) {
        case Failure(_) =>
        case Success(p) =>
          match RunBatch(fetch, b1[1..]) {
            case Failure(_) =>
            case Success(xs) =>
              match RunBatch(fetch, b2) {
                case Failure(_) =>
                case Success(ys) => assert p.tracks + (xs + ys) == (p.tracks + xs) + ys;
              }
          }
      }
    }
  }

  // ---------------------------------------------------------------------------------------
  // Batches in sequence

  /** Running batches piece by piece: a failed first part is the outcome, otherwise the
      second part runs after it. */
  lemma {:induction false} RunBatchesAppend<T, E>(fetch: Request -> Result<Page<T>, E>, bs: seq<seq<Request>>, cs: seq<seq<Request>>)
    ensures var o := RunBatches(fetch, bs);
      RunBatches(fetch, bs + cs) ==
        if o.result.Failure? then o
        else Outcome(Prepend(o.result.value, RunBatches(fetch, cs).result), o.issued + RunBatches(fetch, cs).issued)
  {
    if bs == [] {
      assert bs + cs == cs;
      var o2 := RunBatches(fetch, cs);
      match o2.result {
        case Success(ys) => assert [] + ys == ys;
        case Failure(_) =>
      }
      assert [] + o2.issued == o2.issued;
    } else {
      assert (bs + cs)[1..] == bs[1..] + cs;
      RunBatchesAppend(fetch, bs[1..], cs);
      match RunBatch(fetch, bs[0]) {
        case Failure(_) =>
        case Success(xs) =>
          var o1 := RunBatches(fetch, bs[1..]);
          var o2 := RunBatches(fetch, cs);
          if o1.result.Success? {
            match o2.result {
              case Success(ys) => assert xs + (o1.result.value + ys) == (xs + o1.result.value) + ys;
              case Failure(_) =>
            }
            assert bs[0] + (o1.issued + o2.issued) == (bs[0] + o1.issued) + o2.issued;
          }
      }
    }
  }

  /** One more batch after a successful run. */
  lemma RunBatchesSnoc<T, E>(fetch: Request -> Result<Page<T>, E>, bs: seq<seq<Request>>, b: seq<Request>)
    requires RunBatches(fetch, bs).result.Success?
    ensures var o := RunBatches(fetch, bs);
      RunBatches(fetch, bs + [b]) ==
        match RunBatch(fetch, b)
        case Success(ys) => Outcome(Success(o.result.value + ys), o.issued + b)
        case Failure(e) => Outcome(Failure(e), o.issued + b)
  {
    RunBatchesAppend(fetch, bs, [b]);
    assert [b][1..] == [];
    match RunBatch(fetch, b) {
      case Success(ys) => assert ys + [] == ys;
      case Failure(_) =>
    }
    assert b + [] == b;
  }

  /** A plan of one single-request batch: that request's items, or its error. */
  lemma RunSingleRequest<T, E>(fetch: Request -> Result<Page<T>, E>, req: Request)
    ensures RunBatches(fetch, [[req]]) ==
      match fetch(req)
      case Success(p) => Outcome(Success(p.tracks), [req])
      case Failure(e) => Outcome(Failure(e), [req])
  {
    assert [[req]][1..] == [] && [req][1..] == [];
    assert [req] + [] == [req];
    match fetch(req) {
      case Success(p) =>
        assert RunBatch(fetch, [req]) == Success(p.tracks + []);
        assert p.tracks + [] == p.tracks;
      case Failure(_) =>
    }
  }

  /** Nothing after a failed part of a run is sent or changes its outcome. */
  lemma RunBatchesFailedPrefix<T, E>(fetch: Request -> Result<Page<T>, E>, bs: seq<seq<Request>>, cs: seq<seq<Request>>)
    requires RunBatches(fetch, bs).result.Failure?
    ensures RunBatches(fetch, bs + cs) == RunBatches(fetch, bs)
  {
    RunBatchesAppend(fetch, bs, cs);
  }

  /** Once full batch `i` has failed, the later full batches change nothing. */
  lemma FullBatchesFailure<T, E>(fetch: Request -> Result<Page<T>, E>, n: nat, i: nat)
    requires i < n
    requires RunBatches(fetch, FullBatches(i + 1)).result.Failure?
    ensures RunBatches(fetch, FullBatches(n)) == RunBatches(fetch, FullBatches(i + 1))
  {
    FullBatchesPrefix(n, i + 1);
    assert FullBatches(n) == FullBatches(i + 1) + FullBatches(n)[i + 1..];
    RunBatchesFailedPrefix(fetch, FullBatches(i + 1), FullBatches(n)[i + 1..]);
  }

  /** When a full batch of the chunked run fails, the remainder batch is never sent. */
  lemma ChunkedFailure<T, E>(fetch: Request -> Result<Page<T>, E>, a: nat)
    requires a > ApiMaxLimit
    requires RunBatches(fetch, FullBatches(a / ChunkSize)).result.Failure?
    ensures RunBatches(fetch, Plan(a)) == RunBatches(fetch, FullBatches(a / ChunkSize))
  {
    RunBatchesFailedPrefix(fetch, FullBatches(a / ChunkSize), [RemainderBatch(a)]);
  }

  /** When every full batch succeeds, the chunked run ends with the remainder batch. */
  lemma ChunkedRemainder<T, E>(fetch: Request -> Result<Page<T>, E>, a: nat)
    requires a > ApiMaxLimit
    requires RunBatches(fetch, FullBatches(a / ChunkSize)).result.Success?
    ensures var o := RunBatches(fetch, FullBatches(a / ChunkSize));
      var last := RunBatch(fetch, RemainderBatch(a));
      && RunBatches(fetch, Plan(a)).issued == o.issued + RemainderBatch(a)
      && (last.Failure? ==> RunBatches(fetch, Plan(a)).result == Failure(last.error))
      && (last.Success? ==> RunBatches(fetch, Plan(a)).result == Success(o.result.value + last.value))
  {
    RunBatchesSnoc(fetch, FullBatches(a / ChunkSize), RemainderBatch(a));
  }

  /** A run succeeds exactly when every request of every batch does; it then sends every
      planned request and yields every page's items in request order. */
  lemma {:induction false} RunBatchesSuccess<T, E>(fetch: Request -> Result<Page<T>, E>, bs: seq<seq<Request>>)
    ensures var flat := Flatten(bs);
      RunBatches(fetch, bs).result.Success? <==> forall k :: 0 <= k < |flat| ==> fetch(flat[k]).Success?
    ensures RunBatches(fetch, bs).result.Success? ==>
      && RunBatches(fetch, bs).result.value == PageTracks(fetch, Flatten(bs))
      && RunBatches(fetch, bs).issued == Flatten(bs)
  {
    if bs != [] {
      var flat := Flatten(bs);
      RunBatchesSuccess(fetch, bs[1..]);
      RunBatchSuccess(fetch, bs[0]);
      PageTracksAppend(fetch, bs[0], Flatten(bs[1..]));
      var rest := Flatten(bs[1..]);
      assert flat == bs[0] + rest;
      if forall k :: 0 <= k < |flat| ==> fetch(flat[k]).Success? {
        assert forall k :: 0 <= k < |bs[0]| ==> fetch(bs[0][k]).Success? by {
          forall k | 0 <= k < |bs[0]| ensures fetch(bs[0][k]).Success? {
            assert flat[k] == bs[0][k];
          }
        }
        assert forall k :: 0 <= k < |rest| ==> fetch(rest[k]).Success? by {
          forall k | 0 <= k < |rest| ensures fetch(rest[k]).Success? {
            assert flat[|bs[0]| + k] == rest[k];
          }
        }
      }
      if RunBatches(fetch, bs).result.Success? {
        forall k | 0 <= k < |flat| ensures fetch(flat[k]).Success? {
          if k < |bs[0]| {
            assert flat[k] == bs[0][k];
          } else {
            assert flat[k] == rest[k - |bs[0]|];
          }
        }
      }
    }
  }

  /** A failed run stops at the first failing batch: every earlier batch succeeded, the
      error is that batch's, and the requests sent are exactly those of the batches up to
      and including it. */
  lemma {:induction false} RunBatchesFailure<T, E>(fetch: Request -> Result<Page<T>, E>, bs: seq<seq<Request>>)
    requires RunBatches(fetch, bs).result.Failure?
    ensures exists i :: (0 <= i < |bs|
      && (forall j :: 0 <= j < i ==> RunBatch(fetch, bs[j]).Success?)
      && RunBatch(fetch, bs[i]) == RunBatches(fetch, bs).result
      && RunBatches(fetch, bs).issued == Flatten(bs[..i + 1]))
  {
    assert bs != [];
    assert bs[..1] == [bs[0]];
    assert Flatten([bs[0]]) == bs[0] + Flatten([]);
    if RunBatch(fetch, bs[0]).Success? {
      RunBatchesFailure(fetch, bs[1..]);
      var i :| 0 <= i < |bs[1..]|
        && (forall j :: 0 <= j < i ==> RunBatch(fetch, bs[1..][j]).Success?)
        && RunBatch(fetch, bs[1..][i]) == RunBatches(fetch, bs[1..]).result
        && RunBatches(fetch, bs[1..]).issued == Flatten(bs[1..][..i + 1]);
      var rest := RunBatches(fetch, bs[1..]);
      assert RunBatches(fetch, bs).issued == bs[0] + rest.issued;
      assert bs[..i + 2][1..] == bs[1..][..i + 1];
      assert Flatten(bs[..i + 2]) == bs[0] + Flatten(bs[1..][..i + 1]);
      forall j | 0 <= j < i + 1 ensures RunBatch(fetch, bs[j]).Success? {
        if 0 < j {
          assert bs[j] == bs[1..][j - 1];
        }
      }
      assert RunBatch(fetch, bs[i + 1]) == RunBatches(fetch, bs).result;
    } else {
      assert RunBatches(fetch, bs).issued == Flatten(bs[..1]);
    }
  }

  // ---------------------------------------------------------------------------------------
  // The whole retrieval

  /** When the probe fails, its error is the result and nothing else is requested. */
  lemma RetrieveProbeFailure<T, E>(fetch: Request -> Result<Page<T>, E>, limit: Option<nat>)
    requires fetch(Probe).Failure?
    ensures Retrieve(fetch, limit) == Outcome(Failure(fetch(Probe).error), [Probe])
  {
  }

  /** Up to one page: exactly one request follows the probe, with the effective limit and
      no page number, and its items cut to the effective limit are the result; an
      effective limit of zero still sends it and succeeds with nothing. */
  lemma RetrieveSinglePage<T, E>(fetch: Request -> Result<Page<T>, E>, limit: Option<nat>)
    requires fetch(Probe).Success?
    requires EffectiveLimit(limit, fetch(Probe).value.total) <= ApiMaxLimit
    ensures var a := EffectiveLimit(limit, fetch(Probe).value.total);
      var o := Retrieve(fetch, limit);
      && o.issued == [Probe, Request(None, a)]
      && o.result == (match fetch(Request(None, a))
                      case Success(p) => Success(Take(p.tracks, a))
                      case Failure(e) => Failure(e))
      && (a == 0 && o.result.Success? ==> o.result.value == [])
  {
    var a := EffectiveLimit(limit, fetch(Probe).value.total);
    RunSingleRequest(fetch, Request(None, a));
  }

  /** Without a caller's limit the single-page path is always taken: at most the probe and
      one unpaged request of at most a page are sent. */
  lemma RetrieveDefaultLimit<T, E>(fetch: Request -> Result<Page<T>, E>)
    ensures var o := Retrieve(fetch, None);
      && 1 <= |o.issued| <= 2
      && o.issued[0] == Probe
      && forall k :: 0 <= k < |o.issued| ==> o.issued[k].page.None? && o.issued[k].limit <= ApiMaxLimit
  {
    if fetch(Probe).Success? {
      RetrieveSinglePage(fetch, None);
    }
  }

  /** A successful retrieval sent the probe and then every planned request, all of which
      succeeded, and returns the planned pages' items in request order cut to the effective
      limit. */
  lemma RetrieveSuccess<T, E>(fetch: Request -> Result<Page<T>, E>, limit: Option<nat>)
    requires Retrieve(fetch, limit).result.Success?
    ensures fetch(Probe).Success?
    ensures var a := EffectiveLimit(limit, fetch(Probe).value.total);
      var o := Retrieve(fetch, limit);
      var planned := Flatten(Plan(a));
      && o.issued == [Probe] + planned
      && (forall k :: 0 <= k < |planned| ==> fetch(planned[k]).Success?)
      && o.result.value == Take(PageTracks(fetch, planned), a)
      && |o.result.value| <= a
  {
    var a := EffectiveLimit(limit, fetch(Probe).value.total);
    RunBatchesSuccess(fetch, Plan(a));
  }

  /** The retrieval succeeds exactly when the probe and every planned request succeed. */
  lemma RetrieveSucceedsIff<T, E>(fetch: Request -> Result<Page<T>, E>, limit: Option<nat>)
    ensures Retrieve(fetch, limit).result.Success? <==>
      && fetch(Probe).Success?
      && var planned := Flatten(Plan(EffectiveLimit(limit, fetch(Probe).value.total)));
         forall k :: 0 <= k < |planned| ==> fetch(planned[k]).Success?
  {
    if fetch(Probe).Success? {
      RunBatchesSuccess(fetch, Plan(EffectiveLimit(limit, fetch(Probe).value.total)));
    }
  }

  /** When every planned request returns a full page (at least its limit), the result holds
      exactly the effective limit's number of items. */
  lemma RetrieveFullPages<T, E>(fetch: Request -> Result<Page<T>, E>, limit: Option<nat>)
    requires fetch(Probe).Success?
    requires var planned := Flatten(Plan(EffectiveLimit(limit, fetch(Probe).value.total)));
      forall k :: 0 <= k < |planned| ==>
        fetch(planned[k]).Success? && planned[k].limit <= |fetch(planned[k]).value.tracks|
    ensures Retrieve(fetch, limit).result.Success?
    ensures |Retrieve(fetch, limit).result.value| == EffectiveLimit(limit, fetch(Probe).value.total)
  {
    var a := EffectiveLimit(limit, fetch(Probe).value.total);
    var planned := Flatten(Plan(a));
    RunBatchesSuccess(fetch, Plan(a));
    if a > ApiMaxLimit {
      PlanPages(a);
      PageTracksLength(fetch, planned, ApiMaxLimit);
    } else {
      assert Plan(a) == [[Request(None, a)]];
      assert planned == [Request(None, a)] by {
        assert Flatten([[Request(None, a)]]) == [Request(None, a)] + Flatten([]);
      }
      PageTracksLength(fetch, planned, a);
    }
  }

  /** A failed retrieval is all or nothing: either the probe failed and was the only
      request, or the planned batches before some batch all succeeded, that batch failed
      with the returned error, and nothing after that batch was requested. */
  lemma RetrieveFailure<T, E>(fetch: Request -> Result<Page<T>, E>, limit: Option<nat>)
    requires Retrieve(fetch, limit).result.Failure?
    ensures var o := Retrieve(fetch, limit);
      || (fetch(Probe).Failure? && o.result == Failure(fetch(Probe).error) && o.issued == [Probe])
      || (&& fetch(Probe).Success?
          && var plan := Plan(EffectiveLimit(limit, fetch(Probe).value.total));
             exists i :: (0 <= i < |plan|
               && (forall j :: 0 <= j < i ==> RunBatch(fetch, plan[j]).Success?)
               && RunBatch(fetch, plan[i]) == o.result
               && o.issued == [Probe] + Flatten(plan[..i + 1])))
  {
    if fetch(Probe).Success? {
      RunBatchesFailure(fetch, Plan(EffectiveLimit(limit, fetch(Probe).value.total)));
    }
  }
}
