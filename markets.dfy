/** The market-list hook: it reads every market of the prediction-market
    contract through batched multicalls, numbers the ones that came back, and
    keeps the list in a module-wide cache keyed by contract address and market
    count for two minutes. */
module Markets {
  import opened Base

  /** How long a cached list is served, in milliseconds. */
  const CacheDuration: int := 120000
  /** How many `getMarket` calls go into one multicall. */
  const BatchSize: nat := 5

  /** The tuple `getMarket` returns. Addresses and byte strings are kept as
      their hex text. */
  datatype MarketTuple = MarketTuple(
    question: string,
    categoryId: int,
    deadline: int,
    creator: string,
    resolved: bool,
    winningSide: bool,
    targetPrice: int,
    participantCount: int,
    aggregatedHandles: string,
    inputProof: string)

  /** A market as the hook hands it out (the participant count is dropped). */
  datatype Market = Market(
    id: int,
    question: string,
    categoryId: int,
    deadline: int,
    creator: string,
    resolved: bool,
    winningSide: bool,
    targetPrice: int,
    aggregatedHandles: string,
    inputProof: string)

  /** One entry of a multicall's answer: a success carrying a payload (which may
      be empty), or a failure. */
  datatype CallResult = CallSuccess(payload: Option<MarketTuple>) | CallFailure

  datatype CacheEntry = CacheEntry(data: seq<Market>, timestamp: int)

  /** What a trigger asks the network for: the cache key the answer is stored
      under, and the market indices of each multicall. */
  datatype FetchPlan = FetchPlan(key: string, batches: seq<seq<nat>>)

  // ---------------------------------------------------------------------------
  // Cache key and freshness.
  // ---------------------------------------------------------------------------

  /** `${address}-${count}`. */
  function CacheKey(address: string, count: nat): (key: string)
    ensures |key| == |address| + 1 + |NatToString(count)|
    ensures key[..|address|] == address && key[|address|] == '-'
    ensures key[|address| + 1..] == NatToString(count)
  {
    address + "-" + NatToString(count)
  }

  predicate NoDash(s: string) {
    forall i :: 0 <= i < |s| ==> s[i] != '-'
  }

  /** For addresses without a `-` (hex addresses), the key determines both the
      address and the count. */
  lemma CacheKeyInjective(a1: string, c1: nat, a2: string, c2: nat)
    requires NoDash(a1) && NoDash(a2)
    requires CacheKey(a1, c1) == CacheKey(a2, c2)
    ensures a1 == a2 && c1 == c2
  {
    var key := CacheKey(a1, c1);
    if |a1| < |a2| {
      assert false;
    } else if |a2| < |a1| {
      assert false;
    }
    assert a1 == key[..|a1|] == a2;
    NatToStringInjective(c1, c2);
  }

  /** An entry is served while strictly less than `CacheDuration` has passed. */
  predicate Fresh(e: CacheEntry, now: int) {
    now - e.timestamp < CacheDuration
  }

  /** The list the cache serves for `key` at time `now`, if any. */
  function Cached(entries: map<string, CacheEntry>, key: string, now: int): (r: Option<seq<Market>>)
    ensures r.Some? <==> key in entries && now - entries[key].timestamp < CacheDuration
    ensures r.Some? ==> r.value == entries[key].data
  {
    if key in entries && Fresh(entries[key], now) then Some(entries[key].data) else None
  }

  /** A list stored at time `t` is served for exactly the two minutes that
      follow, and storing it leaves every other key's answer alone. */
  lemma CachedAfterStore(entries: map<string, CacheEntry>, key: string, data: seq<Market>,
                         t: int, other: string, now: int)
    ensures Cached(entries[key := CacheEntry(data, t)], key, now) ==
              if now < t + CacheDuration then Some(data) else None
    ensures other != key ==>
              Cached(entries[key := CacheEntry(data, t)], other, now) == Cached(entries, other, now)
  {
  }

  // ---------------------------------------------------------------------------
  // Batches.
  // ---------------------------------------------------------------------------

  /** `[lo, lo + 1, …, hi - 1]`. */
  function Range(lo: nat, hi: nat): (r: seq<nat>)
    requires lo <= hi
    ensures |r| == hi - lo
    ensures forall i :: 0 <= i < |r| ==> r[i] == lo + i
    decreases hi - lo
  {
    if lo == hi then [] else Range(lo, hi - 1) + [hi - 1]
  }

  function Flatten<T>(ss: seq<seq<T>>): seq<T> {
    if ss == [] then [] else Flatten(ss[..|ss| - 1]) + ss[|ss| - 1]
  }

  /** Batch `k` of `count` markets holds indices `5k` up to `min(5k + 5, count)`. */
  function Batch(k: nat, count: nat): seq<nat>
    requires BatchSize * k <= count
  {
    Range(BatchSize * k, Min(BatchSize * k + BatchSize, count))
  }

  predicate IsBatching(batches: seq<seq<nat>>, count: nat) {
    |batches| == (count + BatchSize - 1) / BatchSize
    && forall k :: 0 <= k < |batches| ==> BatchSize * k <= count && batches[k] == Batch(k, count)
  }

  /** The batches cover `0..count-1` once each, in order, with 1 to 5 indices
      in every batch. */
  lemma {:induction false} BatchingCovers(batches: seq<seq<nat>>, count: nat)
    requires IsBatching(batches, count)
    ensures Flatten(batches) == Range(0, count)
    ensures forall k :: 0 <= k < |batches| ==> 1 <= |batches[k]| <= BatchSize
  {
    forall k | 0 <= k < |batches|
      ensures 1 <= |batches[k]| <= BatchSize
    {
      assert BatchSize * k < count;
    }
    var n := |batches|;
    FlattenPrefix(batches, count, n);
    assert count + BatchSize - 1 == BatchSize * n + (count + BatchSize - 1) % BatchSize;
    assert Min(BatchSize * n, count) == count;
    assert batches[..n] == batches;
  }

  /** The first `n` batches cover `0..min(5n, count)-1`. */
  lemma {:induction false} FlattenPrefix(batches: seq<seq<nat>>, count: nat, n: nat)
    requires IsBatching(batches, count)
    requires n <= |batches|
    ensures BatchSize * n <= count + BatchSize - 1
    ensures Flatten(batches[..n]) == Range(0, Min(BatchSize * n, count))
    decreases n
  {
    if n > 0 {
      FlattenPrefix(batches, count, n - 1);
      assert batches[..n][..n - 1] == batches[..n - 1];
      var lo := BatchSize * (n - 1);
      assert Min(lo, count) == lo;
      var hi := Min(lo + BatchSize, count);
      RangeAppend(0, lo, hi);
    }
  }

  lemma RangeAppend(lo: nat, mid: nat, hi: nat)
    requires lo <= mid <= hi
    ensures Range(lo, mid) + Range(mid, hi) == Range(lo, hi)
  {
  }

  /** The batch-building loop. */
  method BuildBatches(count: nat) returns (batches: seq<seq<nat>>)
    ensures IsBatching(batches, count)
    ensures Flatten(batches) == Range(0, count)
    ensures forall k :: 0 <= k < |batches| ==> 1 <= |batches[k]| <= BatchSize
  {
    batches := [];
    var i := 0;
    while i < count
      invariant i == BatchSize * |batches|
      invariant i < count + BatchSize
      invariant forall k :: 0 <= k < |batches| ==> BatchSize * k <= count && batches[k] == Batch(k, count)
      decreases count - i
    {
      var batchEnd := Min(i + BatchSize, count);
      var batchCalls := seq(batchEnd - i, j requires 0 <= j < batchEnd - i => i + j);
      assert batchCalls == Batch(|batches|, count);
      batches := batches + [batchCalls];
      i := i + BatchSize;
    }
    BatchingCovers(batches, count);
  }

  // ---------------------------------------------------------------------------
  // Flattening the answers.
  // ---------------------------------------------------------------------------

  /** `result.status === "success" && result.result`. */
  predicate Keep(r: CallResult) {
    r.CallSuccess? && r.payload.Some?
  }

  /** The payloads of the kept results, in order. */
  function Kept(rs: seq<CallResult>): (ts: seq<MarketTuple>)
    ensures |ts| <= |rs|
  {
    if rs == [] then []
    else if Keep(rs[|rs| - 1]) then Kept(rs[..|rs| - 1]) + [rs[|rs| - 1].payload.value]
    else Kept(rs[..|rs| - 1])
  }

  /** The positions of the kept results, in order. */
  function KeptIndices(rs: seq<CallResult>): (ks: seq<nat>)
    ensures |ks| == |Kept(rs)|
    ensures forall i :: 0 <= i < |ks| ==> ks[i] < |rs|
  {
    if rs == [] then []
    else if Keep(rs[|rs| - 1]) then KeptIndices(rs[..|rs| - 1]) + [|rs| - 1]
    else KeptIndices(rs[..|rs| - 1])
  }

  /** One more result extends the kept payloads and positions by at most one. */
  lemma KeptStep(rs: seq<CallResult>, r: CallResult)
    ensures Kept(rs + [r]) == if Keep(r) then Kept(rs) + [r.payload.value] else Kept(rs)
    ensures KeptIndices(rs + [r]) == if Keep(r) then KeptIndices(rs) + [|rs|] else KeptIndices(rs)
  {
    assert (rs + [r])[..|rs|] == rs;
  }

  function ToMarket(id: int, t: MarketTuple): Market {
    Market(id, t.question, t.categoryId, t.deadline, t.creator, t.resolved, t.winningSide,
           t.targetPrice, t.aggregatedHandles, t.inputProof)
  }

  /** `KeptIndices` lists, in increasing order, exactly the positions whose result
      is kept, and `Kept` holds their payloads. */
  lemma {:induction false} KeptIndicesSound(rs: seq<CallResult>)
    ensures |KeptIndices(rs)| == |Kept(rs)|
    ensures forall i :: 0 <= i < |Kept(rs)| ==>
              KeptIndices(rs)[i] < |rs| && Keep(rs[KeptIndices(rs)[i]])
              && rs[KeptIndices(rs)[i]].payload.value == Kept(rs)[i]
    ensures forall i, j :: 0 <= i < j < |Kept(rs)| ==> KeptIndices(rs)[i] < KeptIndices(rs)[j]
    ensures forall p :: 0 <= p < |rs| && Keep(rs[p]) ==> p in KeptIndices(rs)
  {
    if rs != [] {
      var init := rs[..|rs| - 1];
      KeptIndicesSound(init);
      assert forall p :: 0 <= p < |init| ==> rs[p] == init[p];
    }
  }

  /** Every result is kept exactly when as many markets come back as were asked for. */
  lemma {:induction false} KeptAll(rs: seq<CallResult>)
    ensures |Kept(rs)| == |rs| <==> forall j :: 0 <= j < |rs| ==> Keep(rs[j])
  {
    if rs != [] {
      var init := rs[..|rs| - 1];
      KeptAll(init);
      assert forall p :: 0 <= p < |init| ==> rs[p] == init[p];
    }
  }

  /** A kept market's position in the list equals the position of its call
      exactly when no earlier call was dropped. */
  lemma {:induction false} PositionIsIndexIff(rs: seq<CallResult>, i: nat)
    requires i < |Kept(rs)|
    ensures KeptIndices(rs)[i] >= i
    ensures KeptIndices(rs)[i] == i <==> forall j :: 0 <= j < KeptIndices(rs)[i] ==> Keep(rs[j])
  {
    var init := rs[..|rs| - 1];
    assert forall p :: 0 <= p < |init| ==> rs[p] == init[p];
    KeptIndicesSound(init);
    if i < |Kept(init)| {
      PositionIsIndexIff(init, i);
    } else {
      KeptAll(init);
    }
  }

  /** `markets` numbers the kept payloads of `rs` by their position in the
      list (`indexed` false) or by the position of their call (`indexed` true). */
  ghost predicate Numbered(markets: seq<Market>, rs: seq<CallResult>, indexed: bool) {
    |markets| == |Kept(rs)|
    && forall i :: 0 <= i < |markets| ==>
         markets[i] == ToMarket(if indexed then KeptIndices(rs)[i] else i, Kept(rs)[i])
  }

  lemma NumberedStep(markets: seq<Market>, rs: seq<CallResult>, indexed: bool, r: CallResult)
    requires Numbered(markets, rs, indexed)
    ensures Keep(r) ==>
              Numbered(markets + [ToMarket(if indexed then |rs| else |markets|, r.payload.value)], rs + [r], indexed)
    ensures !Keep(r) ==> Numbered(markets, rs + [r], indexed)
  {
    KeptStep(rs, r);
  }

  lemma FlattenStep<T>(ss: seq<seq<T>>, b: nat)
    requires b < |ss|
    ensures Flatten(ss[..b + 1]) == Flatten(ss[..b]) + ss[b]
  {
    assert ss[..b + 1][..b] == ss[..b];
  }

  /** The inner `forEach` over one multicall's answer. */
  method NumberBatch(markets0: seq<Market>, ghost done: seq<CallResult>, offset: nat,
                     batchResult: seq<CallResult>, indexed: bool)
    returns (markets: seq<Market>)
    requires offset == |done|
    requires Numbered(markets0, done, indexed)
    ensures Numbered(markets, done + batchResult, indexed)
  {
    markets := markets0;
    var localIndex := 0;
    assert done + batchResult[..0] == done;
    while localIndex < |batchResult|
      invariant 0 <= localIndex <= |batchResult|
      invariant Numbered(markets, done + batchResult[..localIndex], indexed)
    {
      assert done + batchResult[..localIndex + 1] == (done + batchResult[..localIndex]) + [batchResult[localIndex]];
      var result := batchResult[localIndex];
      NumberedStep(markets, done + batchResult[..localIndex], indexed, result);
      if Keep(result) {
        var id := if indexed then offset + localIndex else |markets|;
        markets := markets + [ToMarket(id, result.payload.value)];
      }
      localIndex := localIndex + 1;
    }
    assert batchResult[..|batchResult|] == batchResult;
  }

  /** The outer `forEach` over the multicall answers. */
  method NumberAll(batchResults: seq<seq<CallResult>>, indexed: bool) returns (markets: seq<Market>)
    ensures Numbered(markets, Flatten(batchResults), indexed)
  {
    markets := [];
    var b := 0;
    var offset := 0;
    while b < |batchResults|
      invariant 0 <= b <= |batchResults|
      invariant offset == |Flatten(batchResults[..b])|
      invariant Numbered(markets, Flatten(batchResults[..b]), indexed)
    {
      FlattenStep(batchResults, b);
      markets := NumberBatch(markets, Flatten(batchResults[..b]), offset, batchResults[b], indexed);
      offset := offset + |batchResults[b]|;
      b := b + 1;
    }
    assert batchResults[..|batchResults|] == batchResults;
  }

  /** The flattening as written: each kept payload becomes a market numbered by
      its position in the list. */
  method FlattenResults(batchResults: seq<seq<CallResult>>) returns (markets: seq<Market>)
    ensures |markets| == |Kept(Flatten(batchResults))|
    ensures forall i :: 0 <= i < |markets| ==> markets[i] == ToMarket(i, Kept(Flatten(batchResults))[i])
  {
    markets := NumberAll(batchResults, false);
  }

  /** The numbering the market pages evidently expect: each kept market carries
      the index of the `getMarket` call that produced it. */
  method FlattenResultsIndexed(batchResults: seq<seq<CallResult>>) returns (markets: seq<Market>)
    ensures |markets| == |Kept(Flatten(batchResults))|
    ensures forall i :: 0 <= i < |markets| ==>
              markets[i] == ToMarket(KeptIndices(Flatten(batchResults))[i], Kept(Flatten(batchResults))[i])
  {
    markets := NumberAll(batchResults, true);
  }

  /** When the answers line up with the batches, position `p` of the flattened
      answers is the answer to `getMarket(p)`: the corrected numbering gives
      every market the index it was read from. */
  lemma AnswersLineUp(batches: seq<seq<nat>>, count: nat, p: nat)
    requires IsBatching(batches, count)
    requires p < count
    ensures p < |Flatten(batches)| && Flatten(batches)[p] == p
  {
    BatchingCovers(batches, count);
  }

  /** One failed call ahead of a good one: the list as written numbers the good
      market 0 although it was read as market 1. */
  lemma FailedCallShiftsIds(t: MarketTuple)
    ensures Kept(Flatten([[CallFailure, CallSuccess(Some(t))]])) == [t]
    ensures KeptIndices(Flatten([[CallFailure, CallSuccess(Some(t))]])) == [1]
  {
    var rs := [CallFailure, CallSuccess(Some(t))];
    assert Flatten([rs]) == Flatten<CallResult>([]) + rs;
    assert rs[..1] == [CallFailure];
    assert rs[..1][..0] == [];
  }

  // ---------------------------------------------------------------------------
  // The hook.
  // ---------------------------------------------------------------------------

  /** The module-level `marketCache`, shared by every use of the hook. */
  class MarketCache {
    var entries: map<string, CacheEntry>

    constructor ()
      ensures entries == map[]
    {
      entries := map[];
    }
  }

  class MarketsHook {
    var markets: seq<Market>
    var isLoading: bool
    /** `isFetchingRef.current`. */
    var isFetching: bool
    const cache: MarketCache

    constructor (cache: MarketCache)
      ensures this.cache == cache
      ensures markets == [] && isLoading && !isFetching
    {
      this.cache := cache;
      markets := [];
      isLoading := true;
      isFetching := false;
    }

    /** The effect body, run when the contract, client or count changes.
        `address` is the deployed contract's address, `hasClient` whether a
        public client exists, `now` the value of `Date.now()`. A plan is
        returned exactly when a fetch starts. */
    method Trigger(address: Option<string>, hasClient: bool, marketCount: Option<nat>, now: int)
      returns (plan: Option<FetchPlan>)
      modifies this
      ensures !(NonEmpty(address) && hasClient) ==>
                plan.None? && !isLoading && markets == old(markets) && isFetching == old(isFetching)
      ensures NonEmpty(address) && hasClient && marketCount.None? ==>
                plan.None? && unchanged(this)
      ensures NonEmpty(address) && hasClient && marketCount == Some(0) ==>
                plan.None? && markets == [] && !isLoading && isFetching == old(isFetching)
      ensures NonEmpty(address) && hasClient && marketCount.Some? && marketCount.value > 0 ==>
                var key := CacheKey(address.value, marketCount.value);
                match Cached(cache.entries, key, now)
                case Some(data) =>
                  plan.None? && markets == data && !isLoading && isFetching == old(isFetching)
                case None =>
                  if old(isFetching) then plan.None? && unchanged(this)
                  else plan.Some? && plan.value.key == key
                       && IsBatching(plan.value.batches, marketCount.value)
                       && Flatten(plan.value.batches) == Range(0, marketCount.value)
                       && isLoading && isFetching && markets == old(markets)
    {
      if !NonEmpty(address) || !hasClient {
        isLoading := false;
        return None;
      }
      if marketCount.None? {
        return None;
      }
      var count := marketCount.value;
      if count == 0 {
        markets := [];
        isLoading := false;
        return None;
      }
      var cacheKey := CacheKey(address.value, count);
      if cacheKey in cache.entries && now - cache.entries[cacheKey].timestamp < CacheDuration {
        markets := cache.entries[cacheKey].data;
        isLoading := false;
        return None;
      }
      if isFetching {
        return None;
      }
      isLoading := true;
      isFetching := true;
      var batches := BuildBatches(count);
      plan := Some(FetchPlan(cacheKey, batches));
    }

    /** The promise chain settling: `outcome` is the multicall answers, or
        `None` when any multicall was rejected; `now` is `Date.now()` then. */
    method Complete(plan: FetchPlan, outcome: Option<seq<seq<CallResult>>>, now: int)
      modifies this, cache
      ensures !isLoading && !isFetching
      ensures outcome.None? ==> markets == [] && cache.entries == old(cache.entries)
      ensures outcome.Some? ==>
                |markets| == |Kept(Flatten(outcome.value))|
                && (forall i :: 0 <= i < |markets| ==> markets[i] == ToMarket(i, Kept(Flatten(outcome.value))[i]))
                && cache.entries == old(cache.entries)[plan.key := CacheEntry(markets, now)]
    {
      if outcome.Some? {
        var allMarketsData := FlattenResults(outcome.value);
        markets := allMarketsData;
        cache.entries := cache.entries[plan.key := CacheEntry(allMarketsData, now)];
      } else {
        markets := [];
      }
      isLoading := false;
      isFetching := false;
    }
  }
}
