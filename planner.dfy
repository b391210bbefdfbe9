/** The page plan of `get_user_tracks`: which requests are sent after the probe, grouped
    into the batches that are awaited together. */
module Planner {
  import opened Wrappers

  /** The most items the remote source returns for one request. */
  const ApiMaxLimit: nat := 1000
  /** Requests awaited together in one batch. */
  const ChunkMultiplier: nat := 5
  /** Items one full batch covers. */
  const ChunkSize: nat := ApiMaxLimit * ChunkMultiplier

  /** One call to the remote method: an optional 1-based `page` and a `limit`. */
  datatype Request = Request(page: Option<nat>, limit: nat)

  /** The probe asks for a single item and no page, only to learn the total. */
  const Probe: Request := Request(None, 1)

  /** The caller's limit, defaulting to one page, clamped to the probed total. */
  function EffectiveLimit(limit: Option<nat>, total: nat): (a: nat)
    ensures a <= total && a <= limit.GetOr(ApiMaxLimit)
    ensures a == total || a == limit.GetOr(ApiMaxLimit)
    ensures limit.None? ==> a <= ApiMaxLimit
  {
    var finalLimit := limit.GetOr(ApiMaxLimit);
    if finalLimit <= total then finalLimit else total
  }

  /** The ceiling of `x / d`: the fewest `d`-sized pages that hold `x` items. */
  function CeilDiv(x: nat, d: nat): (q: nat)
    requires 0 < d
    ensures x <= d * q
    ensures 0 < q ==> d * (q - 1) < x
  {
    if x == 0 then 0 else 1 + (x - 1) / d
  }

  /** `count` full-size requests for consecutive pages starting at `first`. */
  function PageBatch(first: nat, count: nat): seq<Request> {
    seq(count, k requires 0 <= k => Request(Some(first + k), ApiMaxLimit))
  }

  /** The `n` batches of `ChunkMultiplier` pages each, numbered on from page 1. */
  function FullBatches(n: nat): seq<seq<Request>> {
    seq(n, i requires 0 <= i => PageBatch(ChunkMultiplier * i + 1, ChunkMultiplier))
  }

  /** The batch after the full ones: enough full-size pages for `a mod ChunkSize` items. */
  function RemainderBatch(a: nat): seq<Request> {
    PageBatch(ChunkMultiplier * (a / ChunkSize) + 1, CeilDiv(a % ChunkSize, ApiMaxLimit))
  }

  /** The requests sent after the probe for an effective limit `a`, batch by batch. */
  function Plan(a: nat): seq<seq<Request>> {
    if a > ApiMaxLimit then FullBatches(a / ChunkSize) + [RemainderBatch(a)]
    else [[Request(None, a)]]
  }

  /** All requests of a plan, in the order they are sent. */
  function Flatten(bs: seq<seq<Request>>): seq<Request> {
    if bs == [] then [] else bs[0] + Flatten(bs[1..])
  }

  lemma {:induction false} FlattenAppend(bs: seq<seq<Request>>, cs: seq<seq<Request>>)
    ensures Flatten(bs + cs) == Flatten(bs) + Flatten(cs)
  {
    if bs == [] {
      assert bs + cs == cs;
    } else {
      assert (bs + cs)[1..] == bs[1..] + cs;
      FlattenAppend(bs[1..], cs);
    }
  }

  lemma PageBatchAppend(first: nat, m: nat, n: nat)
    ensures PageBatch(first, m) + PageBatch(first + m, n) == PageBatch(first, m + n)
  {
  }

  lemma FullBatchesPrefix(n: nat, m: nat)
    requires m <= n
    ensures FullBatches(n)[..m] == FullBatches(m)
  {
  }

  lemma FullBatchesSnoc(n: nat)
    ensures FullBatches(n + 1) == FullBatches(n) + [PageBatch(ChunkMultiplier * n + 1, ChunkMultiplier)]
  {
  }

  lemma {:induction false} FlattenFullBatches(n: nat)
    ensures Flatten(FullBatches(n)) == PageBatch(1, ChunkMultiplier * n)
  {
    if n == 0 {
      assert FullBatches(0) == [];
    } else {
      var last := PageBatch(ChunkMultiplier * (n - 1) + 1, ChunkMultiplier);
      assert FullBatches(n) == FullBatches(n - 1) + [last];
      FlattenAppend(FullBatches(n - 1), [last]);
      assert Flatten([last]) == last + Flatten([]);
      FlattenFullBatches(n - 1);
      PageBatchAppend(1, ChunkMultiplier * (n - 1), ChunkMultiplier);
    }
  }

  /** Beyond one page, the requests are pages 1, 2, ..., N in order, each of full size,
      and N is the fewest full pages that cover the effective limit. */
  lemma PlanPages(a: nat)
    requires a > ApiMaxLimit
    ensures var flat := Flatten(Plan(a));
      && |flat| == ChunkMultiplier * (a / ChunkSize) + CeilDiv(a % ChunkSize, ApiMaxLimit)
      && (forall k :: 0 <= k < |flat| ==> flat[k] == Request(Some(k + 1), ApiMaxLimit))
      && (forall i, j :: 0 <= i < j < |flat| ==> flat[i].page.value < flat[j].page.value)
      && a <= ApiMaxLimit * |flat|
      && ApiMaxLimit * (|flat| - 1) < a
  {
    var n := a / ChunkSize;
    var c := CeilDiv(a % ChunkSize, ApiMaxLimit);
    var flat := Flatten(Plan(a));
    assert flat == PageBatch(1, ChunkMultiplier * n + c) by {
      var rem := RemainderBatch(a);
      FlattenAppend(FullBatches(n), [rem]);
      assert Flatten([rem]) == rem + Flatten([]);
      FlattenFullBatches(n);
      PageBatchAppend(1, ChunkMultiplier * n, c);
    }
    PageCountCovers(a);
  }

  lemma PageCountCovers(a: nat)
    ensures var count := ChunkMultiplier * (a / ChunkSize) + CeilDiv(a % ChunkSize, ApiMaxLimit);
      a <= ApiMaxLimit * count && (0 < a ==> ApiMaxLimit * (count - 1) < a)
  {
    var n, r := a / ChunkSize, a % ChunkSize;
    var c := CeilDiv(r, ApiMaxLimit);
    assert a == ChunkSize * n + r;
    assert ApiMaxLimit * (ChunkMultiplier * n + c) == ChunkSize * n + ApiMaxLimit * c;
  }

  /** Beyond one page, the plan is `a / ChunkSize` batches of exactly `ChunkMultiplier`
      requests and one remainder batch of at most that many, empty exactly when the limit
      is a whole number of batches; up to one page, it is one request with no page number. */
  lemma PlanShape(a: nat)
    ensures a <= ApiMaxLimit ==> Plan(a) == [[Request(None, a)]]
    ensures a > ApiMaxLimit ==>
      && |Plan(a)| == a / ChunkSize + 1
      && (forall i :: 0 <= i < |Plan(a)| - 1 ==> |Plan(a)[i]| == ChunkMultiplier)
      && |Plan(a)[|Plan(a)| - 1]| <= ChunkMultiplier
      && (|Plan(a)[|Plan(a)| - 1]| == 0 <==> a % ChunkSize == 0)
  {
  }

  /** Twelve thousand items: two full batches for pages 1 to 10, then a remainder batch
      for pages 11 and 12. */
  lemma TwelveThousandItems()
    ensures |Plan(12000)| == 3
    ensures |Plan(12000)[0]| == 5 && |Plan(12000)[1]| == 5 && |Plan(12000)[2]| == 2
    ensures Flatten(Plan(12000)) == PageBatch(1, 12)
  {
    PlanPages(12000);
  }
}
