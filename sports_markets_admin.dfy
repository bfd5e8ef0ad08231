/** The admin page that turns sports events into on-chain markets. It keeps the
    set of events whose creation is in flight and a map from event id to
    on-chain market id, refuses to create an event twice, and records every
    successful creation in the mapping store. The contract is modelled by the
    list of markets it holds: an accepted `createMarket` (submitted and then
    mined successfully) appends one, so a market's on-chain id is its
    position in that list. */
module SportsMarketsAdmin {
  import opened Base
  import opened SportsMarketMapping
  import opened SportsApi

  /** Category id of sports markets. */
  const SportsCategory: int := 2
  /** Sports markets carry no target price. */
  const NoTargetPrice: int := 0

  /** The arguments of one `createMarket` call. */
  datatype CreateCall = CreateCall(question: string, categoryId: int, deadline: int, targetPrice: int)

  /** What the environment does with one creation: the event's deadline as
      Unix seconds (`None` when the date does not parse, so that `BigInt`
      throws before the contract is called), whether the transaction is
      accepted, and the clock when the handler resumes. An accepted
      transaction is one that is submitted and then mined successfully, in
      submission order, before the next creation starts. */
  datatype Attempt = Attempt(deadlineSeconds: Option<int>, accepted: bool, now: int)

  /** A creation waiting for its transaction: the event, the call issued and
      the market id the handler will record. */
  datatype InFlight = InFlight(event: SportsMarket, call: CreateCall, newMarketId: int)

  /** `Number(marketCount || 0)`: an unknown count reads as 0. */
  function CountOrZero(marketCount: Option<int>): int {
    marketCount.GetOr(0)
  }

  function CallFor(event: SportsMarket, deadlineSeconds: int): CreateCall {
    CreateCall(event.question, SportsCategory, deadlineSeconds, NoTargetPrice)
  }

  function RecordFor(event: SportsMarket, marketId: int, now: int): Mapping {
    Mapping(event.id, marketId, event.question, event.sport, event.homeTeam, event.awayTeam, event.deadline, now)
  }

  /** A creation reaches the contract and is accepted there. */
  predicate Succeeds(a: Attempt) {
    a.deadlineSeconds.Some? && a.accepted
  }

  // ---------------------------------------------------------------------------
  // The created-markets map rebuilt from the stored records.
  // ---------------------------------------------------------------------------

  /** The map `loadExistingMappings` builds: one `set` per record, in order,
      so a later record for the same event would win. */
  function CreatedMap(entries: seq<Mapping>): (m: map<string, int>)
    ensures m.Keys == set j | 0 <= j < |entries| :: entries[j].sportsEventId
    decreases |entries|
  {
    if entries == [] then map[]
    else
      var last := entries[|entries| - 1];
      var before := entries[..|entries| - 1];
      assert forall j :: 0 <= j < |before| ==> before[j] == entries[j];
      CreatedMap(before)[last.sportsEventId := last.onChainMarketId]
  }

  /** An event is a key of the map exactly when the store reports it created. */
  lemma CreatedMapKeys(entries: seq<Mapping>, id: string)
    ensures id in CreatedMap(entries) <==> IsCreated(entries, id)
  {
    CreatedIffRecorded(entries, id);
  }

  /** With distinct event ids, the map gives each event the on-chain id the
      store's lookup gives it. */
  lemma {:induction false} CreatedMapAgreesWithLookup(entries: seq<Mapping>, id: string)
    requires UniqueEvents(entries)
    ensures id in CreatedMap(entries) ==> LookupOnChainId(entries, id) == Some(CreatedMap(entries)[id])
    decreases |entries|
  {
    if entries != [] && id in CreatedMap(entries) {
      var last := entries[|entries| - 1];
      var before := entries[..|entries| - 1];
      assert entries == before + [last];
      assert UniqueEvents(before);
      EventIndexAppend(before, last, id);
      if id == last.sportsEventId {
        assert forall j :: 0 <= j < |before| ==> before[j].sportsEventId != id;
      } else {
        CreatedMapAgreesWithLookup(before, id);
      }
    }
  }

  // ---------------------------------------------------------------------------
  // A bulk run, as a function of the events it goes through.
  // ---------------------------------------------------------------------------

  /** The events `createAllSportsMarkets` goes through: those not yet in the
      map, in list order. */
  function Pending(events: seq<SportsMarket>, created: map<string, int>): (r: seq<SportsMarket>)
    ensures forall i :: 0 <= i < |r| ==> r[i].id !in created && r[i] in events
    ensures forall i :: 0 <= i < |events| && events[i].id !in created ==> events[i] in r
    ensures |events| == 1 ==> r == if events[0].id in created then [] else events
    decreases |events|
  {
    if events == [] then []
    else
      var last := events[|events| - 1];
      var before := Pending(events[..|events| - 1], created);
      assert forall e :: e in events[..|events| - 1] ==> e in events;
      if last.id in created then before else before + [last]
  }

  /** Filtering keeps list order: the pending events of a concatenation are
      those of the first part followed by those of the second. */
  lemma {:induction false} PendingAppend(a: seq<SportsMarket>, b: seq<SportsMarket>, created: map<string, int>)
    ensures Pending(a + b, created) == Pending(a, created) + Pending(b, created)
    decreases |b|
  {
    if b == [] {
      assert a + b == a;
    } else {
      var init, x := b[..|b| - 1], b[|b| - 1];
      var tail := if x.id in created then [] else [x];
      PendingAppend(a, init, created);
      assert (a + b)[..|a + b| - 1] == a + init;
      assert (a + b)[|a + b| - 1] == x;
      assert Pending(a + b, created) == Pending(a + init, created) + tail;
      assert Pending(b, created) == Pending(init, created) + tail;
      AppendAssoc(Pending(a, created), Pending(init, created), tail);
    }
  }

  /** Filtering keeps distinct ids distinct. */
  lemma {:induction false} PendingDistinct(events: seq<SportsMarket>, created: map<string, int>)
    requires DistinctIds(events)
    ensures DistinctIds(Pending(events, created))
    decreases |events|
  {
    if events != [] {
      var before := events[..|events| - 1];
      var last := events[|events| - 1];
      assert DistinctIds(before);
      PendingDistinct(before, created);
      var p := Pending(before, created);
      forall i | 0 <= i < |p|
        ensures p[i].id != last.id
      {
        var j :| 0 <= j < |before| && before[j] == p[i];
        assert events[j] == p[i];
      }
    }
  }

  /** The call one creation issues: none when its deadline does not parse. */
  function IssuedBy(event: SportsMarket, a: Attempt): seq<CreateCall> {
    if a.deadlineSeconds.Some? then [CallFor(event, a.deadlineSeconds.value)] else []
  }

  /** The market one creation adds to the contract. */
  function AcceptedBy(event: SportsMarket, a: Attempt): seq<CreateCall> {
    if Succeeds(a) then [CallFor(event, a.deadlineSeconds.value)] else []
  }

  /** The record one creation stores, under the given market id. */
  function RecordedBy(event: SportsMarket, a: Attempt, marketId: int): seq<Mapping> {
    if Succeeds(a) then [RecordFor(event, marketId, a.now)] else []
  }

  /** The calls the first `n` creations of a run issue. */
  function Issued(pending: seq<SportsMarket>, attempts: seq<Attempt>, n: nat): seq<CreateCall>
    requires n <= |pending| == |attempts|
  {
    if n == 0 then []
    else
      Issued(pending, attempts, n - 1) + IssuedBy(pending[n - 1], attempts[n - 1])
  }

  /** The markets the first `n` creations of a run add to the contract. */
  function Accepted(pending: seq<SportsMarket>, attempts: seq<Attempt>, n: nat): seq<CreateCall>
    requires n <= |pending| == |attempts|
  {
    if n == 0 then []
    else
      Accepted(pending, attempts, n - 1) + AcceptedBy(pending[n - 1], attempts[n - 1])
  }

  /** The records a run stores when every creation records the same market
      id: what the page does, since the whole run reads one render's count. */
  function StaleRecords(pending: seq<SportsMarket>, attempts: seq<Attempt>, n: nat, marketId: int): seq<Mapping>
    requires n <= |pending| == |attempts|
  {
    if n == 0 then []
    else
      StaleRecords(pending, attempts, n - 1, marketId) + RecordedBy(pending[n - 1], attempts[n - 1], marketId)
  }

  /** The records a run stores when each creation records the count read just
      before it: the contract's market count advanced by the earlier successes. */
  function FreshRecords(pending: seq<SportsMarket>, attempts: seq<Attempt>, n: nat, base: int): seq<Mapping>
    requires n <= |pending| == |attempts|
  {
    if n == 0 then []
    else
      var id := base + |Accepted(pending, attempts, n - 1)|;
      FreshRecords(pending, attempts, n - 1, base) + RecordedBy(pending[n - 1], attempts[n - 1], id)
  }

  lemma AppendAssoc<T>(a: seq<T>, b: seq<T>, c: seq<T>)
    ensures (a + b) + c == a + (b + c)
  {
  }

  /** The records of a run, with or without re-reading the count. */
  function RunRecords(pending: seq<SportsMarket>, attempts: seq<Attempt>, n: nat, refresh: bool, base: int, marketId: int): seq<Mapping>
    requires n <= |pending| == |attempts|
  {
    if refresh then FreshRecords(pending, attempts, n, base) else StaleRecords(pending, attempts, n, marketId)
  }

  /** One step of a run adds the step's record, if any, under the id the run uses. */
  lemma RunStepRecords(pending: seq<SportsMarket>, attempts: seq<Attempt>, k: nat, refresh: bool, base: int, marketId: int, id: int)
    requires k < |pending| == |attempts|
    requires id == if refresh then base + |Accepted(pending, attempts, k)| else marketId
    ensures RunRecords(pending, attempts, k + 1, refresh, base, marketId) ==
              RunRecords(pending, attempts, k, refresh, base, marketId) + RecordedBy(pending[k], attempts[k], id)
  {
  }

  /** The i-th record of a run corresponds to the i-th accepted call. */
  lemma {:induction false} RecordsMatchAccepted(pending: seq<SportsMarket>, attempts: seq<Attempt>, n: nat, marketId: int, base: int)
    requires n <= |pending| == |attempts|
    ensures |StaleRecords(pending, attempts, n, marketId)| == |Accepted(pending, attempts, n)|
    ensures |FreshRecords(pending, attempts, n, base)| == |Accepted(pending, attempts, n)|
    ensures forall i :: 0 <= i < |Accepted(pending, attempts, n)| ==>
              StaleRecords(pending, attempts, n, marketId)[i].question == Accepted(pending, attempts, n)[i].question
              && FreshRecords(pending, attempts, n, base)[i].question == Accepted(pending, attempts, n)[i].question
  {
    if n > 0 {
      RecordsMatchAccepted(pending, attempts, n - 1, marketId, base);
    }
  }

  /** With fresh counts, the i-th record of a run names market `base + i`, the
      id the contract gave the i-th market the run created. */
  lemma {:induction false} FreshRecordsNumbered(pending: seq<SportsMarket>, attempts: seq<Attempt>, n: nat, base: int)
    requires n <= |pending| == |attempts|
    ensures var rs := FreshRecords(pending, attempts, n, base);
            |rs| == |Accepted(pending, attempts, n)|
            && forall i :: 0 <= i < |rs| ==> rs[i].onChainMarketId == base + i
  {
    RecordsMatchAccepted(pending, attempts, n, 0, base);
    if n > 0 {
      FreshRecordsNumbered(pending, attempts, n - 1, base);
    }
  }

  /** A record points at its own market when the contract's market under the
      recorded id carries the record's question. */
  ghost predicate PointsToOwnMarket(m: Mapping, onChain: seq<CreateCall>) {
    0 <= m.onChainMarketId < |onChain| && onChain[m.onChainMarketId].question == m.question
  }

  /** With fresh counts, every record a run stores points at the market created
      for it. */
  lemma FreshRecordsPointToOwnMarkets(pending: seq<SportsMarket>, attempts: seq<Attempt>, n: nat, onChain: seq<CreateCall>)
    requires n <= |pending| == |attempts|
    ensures var rs := FreshRecords(pending, attempts, n, |onChain|);
            forall i :: 0 <= i < |rs| ==> PointsToOwnMarket(rs[i], onChain + Accepted(pending, attempts, n))
  {
    FreshRecordsNumbered(pending, attempts, n, |onChain|);
    RecordsMatchAccepted(pending, attempts, n, 0, |onChain|);
  }

  /** The records a fresh run appends to the store all point at their own
      markets on the contract the run leaves behind. */
  lemma FreshRunPointsToOwnMarkets(before: seq<Mapping>, chain: seq<CreateCall>,
                                   pending: seq<SportsMarket>, attempts: seq<Attempt>)
    requires |pending| == |attempts|
    ensures var all := before + FreshRecords(pending, attempts, |pending|, |chain|);
            forall j :: |before| <= j < |all| ==> PointsToOwnMarket(all[j], chain + Accepted(pending, attempts, |pending|))
  {
    FreshRecordsPointToOwnMarkets(pending, attempts, |pending|, chain);
  }

  /** With one count for the whole run, every record names the same market, so
      from the second accepted creation on the recorded id is not the id the
      contract gave that market. */
  lemma StaleRecordsMisnumbered(pending: seq<SportsMarket>, attempts: seq<Attempt>, n: nat, base: int)
    requires n <= |pending| == |attempts|
    ensures var rs := StaleRecords(pending, attempts, n, base);
            |rs| == |Accepted(pending, attempts, n)|
            && forall i :: 1 <= i < |rs| ==> rs[i].onChainMarketId == rs[0].onChainMarketId != base + i
  {
    RecordsMatchAccepted(pending, attempts, n, base, base);
    StaleRecordsSameId(pending, attempts, n, base);
  }

  lemma {:induction false} StaleRecordsSameId(pending: seq<SportsMarket>, attempts: seq<Attempt>, n: nat, marketId: int)
    requires n <= |pending| == |attempts|
    ensures forall i :: 0 <= i < |StaleRecords(pending, attempts, n, marketId)| ==>
              StaleRecords(pending, attempts, n, marketId)[i].onChainMarketId == marketId
  {
    if n > 0 {
      StaleRecordsSameId(pending, attempts, n - 1, marketId);
    }
  }

  /** Two fallback events created in one run on a contract that holds no
      market yet: both records name market 0, while the contract gave the
      second event market 1. */
  lemma BulkRunCounterexample()
    ensures var pending := MockMarkets()[..2];
            var attempts := [Attempt(Some(1765756800), true, 0), Attempt(Some(1766188800), true, 0)];
            var rs := StaleRecords(pending, attempts, 2, 0);
            |rs| == 2 && rs[0].sportsEventId != rs[1].sportsEventId
            && rs[0].onChainMarketId == rs[1].onChainMarketId == 0
            && Accepted(pending, attempts, 2)[1].question == rs[1].question
            && !PointsToOwnMarket(rs[1], Accepted(pending, attempts, 2))
  {
    var pending := MockMarkets()[..2];
    var attempts := [Attempt(Some(1765756800), true, 0), Attempt(Some(1766188800), true, 0)];
    assert Accepted(pending, attempts, 1) == [CallFor(pending[0], 1765756800)];
    assert StaleRecords(pending, attempts, 1, 0) == [RecordFor(pending[0], 0, 0)];
    assert pending[0].id[6] != pending[1].id[6];
    assert pending[0].question[5] != pending[1].question[5];
  }

  // ---------------------------------------------------------------------------
  // The page state.
  // ---------------------------------------------------------------------------

  class AdminPage {
    const store: MappingStore
    /** The market count this render of the page sees. */
    var marketCount: Option<int>
    /** `creatingMarkets`: events whose creation is in flight. */
    var creating: set<string>
    /** `createdMarkets`: event id to on-chain market id. */
    var created: map<string, int>
    /** Every `createMarket` call issued, in order. */
    var calls: seq<CreateCall>
    /** The contract's markets; a market's id is its position. */
    var onChain: seq<CreateCall>

    /** The page's map mirrors the stored records. */
    ghost predicate Consistent()
      reads this, store
    {
      store.browser && created == CreatedMap(store.Mappings())
    }

    /** Mounting the page: empty state, then `loadExistingMappings`. */
    constructor (store: MappingStore, onChain: seq<CreateCall>, marketCount: Option<int>)
      requires store.browser
      ensures this.store == store && this.onChain == onChain && this.marketCount == marketCount
      ensures creating == {} && calls == []
      ensures Consistent()
    {
      this.store := store;
      this.onChain := onChain;
      this.marketCount := marketCount;
      creating := {};
      created := map[];
      calls := [];
      new;
      LoadExistingMappings();
    }

    /** `loadExistingMappings`: rebuild the map from the stored records. */
    method LoadExistingMappings()
      modifies this
      ensures created == CreatedMap(store.Mappings())
      ensures created.Keys == set j | 0 <= j < |store.Mappings()| :: store.Mappings()[j].sportsEventId
      ensures creating == old(creating) && calls == old(calls) && onChain == old(onChain)
      ensures marketCount == old(marketCount)
    {
      var mappings := store.Mappings();
      var m: map<string, int> := map[];
      var i := 0;
      while i < |mappings|
        invariant 0 <= i <= |mappings|
        invariant m == CreatedMap(mappings[..i])
      {
        assert mappings[..i + 1][..i] == mappings[..i];
        m := m[mappings[i].sportsEventId := mappings[i].onChainMarketId];
        i := i + 1;
      }
      assert mappings[..i] == mappings;
      created := m;
    }

    /** The part of `createSportsMarket` before the transaction is awaited:
        the duplicate check, marking the event in flight and issuing the call.
        A deadline that does not parse makes the handler throw before the
        call, and its `finally` clears the mark at once. */
    method BeginCreate(event: SportsMarket, deadlineSeconds: Option<int>) returns (flight: Option<InFlight>)
      modifies this
      ensures var blocked := event.id in old(creating) || IsCreated(store.Mappings(), event.id);
              && (blocked || deadlineSeconds.None? ==> flight.None? && creating == old(creating) && calls == old(calls))
              && (!blocked && deadlineSeconds.Some? ==>
                    flight == Some(InFlight(event, CallFor(event, deadlineSeconds.value), CountOrZero(old(marketCount))))
                    && creating == old(creating) + {event.id}
                    && calls == old(calls) + [CallFor(event, deadlineSeconds.value)])
      ensures created == old(created) && onChain == old(onChain) && marketCount == old(marketCount)
    {
      var already := store.IsSportsMarketCreated(event.id);
      CreatedIffRecorded(store.Mappings(), event.id);
      if event.id in creating || already {
        return None;
      }
      creating := creating + {event.id};
      match deadlineSeconds
      case None =>
        creating := creating - {event.id};
        flight := None;
      case Some(seconds) =>
        var call := CallFor(event, seconds);
        calls := calls + [call];
        flight := Some(InFlight(event, call, CountOrZero(marketCount)));
    }

    /** The part of `createSportsMarket` after the transaction: on acceptance
        the contract holds one more market, the record is saved and the map
        updated; in every case the event leaves the in-flight set. */
    method FinishCreate(flight: InFlight, accepted: bool, now: int)
      modifies this, store
      ensures onChain == old(onChain) + (if accepted then [flight.call] else [])
      ensures creating == old(creating) - {flight.event.id}
      ensures accepted ==>
                created == old(created)[flight.event.id := flight.newMarketId]
                && store.slot == (if store.browser && !IsCreated(old(store.Mappings()), flight.event.id)
                                  then Parsed(old(store.Mappings()) + [RecordFor(flight.event, flight.newMarketId, now)])
                                  else old(store.slot))
      ensures !accepted ==> created == old(created) && store.slot == old(store.slot)
      ensures calls == old(calls) && marketCount == old(marketCount)
      ensures old(Consistent()) && !IsCreated(old(store.Mappings()), flight.event.id) ==> Consistent()
    {
      if accepted {
        onChain := onChain + [flight.call];
        ghost var before := store.Mappings();
        var record := RecordFor(flight.event, flight.newMarketId, now);
        store.Save(record);
        created := created[flight.event.id := flight.newMarketId];
        if store.browser && !IsCreated(before, flight.event.id) {
          assert (before + [record])[..|before|] == before;
        }
      }
      creating := creating - {flight.event.id};
    }

    /** `createSportsMarket`, awaited to completion. */
    method CreateSportsMarket(event: SportsMarket, attempt: Attempt)
      modifies this, store
      ensures creating == old(creating) && marketCount == old(marketCount)
      ensures var blocked := event.id in old(creating) || IsCreated(old(store.Mappings()), event.id);
              && (blocked ==> calls == old(calls) && onChain == old(onChain)
                              && created == old(created) && store.slot == old(store.slot))
              && (!blocked ==>
                    calls == old(calls) + (if attempt.deadlineSeconds.Some? then [CallFor(event, attempt.deadlineSeconds.value)] else [])
                    && onChain == old(onChain) + (if Succeeds(attempt) then [CallFor(event, attempt.deadlineSeconds.value)] else [])
                    && (Succeeds(attempt) ==>
                          created == old(created)[event.id := CountOrZero(old(marketCount))]
                          && (store.browser ==>
                                store.Mappings() == old(store.Mappings()) + [RecordFor(event, CountOrZero(old(marketCount)), attempt.now)]))
                    && (!Succeeds(attempt) ==> created == old(created) && store.slot == old(store.slot)))
      ensures old(Consistent()) ==> Consistent()
      ensures old(marketCount) == Some(|old(onChain)|) && Succeeds(attempt) && !IsCreated(old(store.Mappings()), event.id)
                && event.id !in old(creating) && store.browser
              ==> PointsToOwnMarket(store.Mappings()[|store.Mappings()| - 1], onChain)
    {
      var flight := BeginCreate(event, attempt.deadlineSeconds);
      if flight.Some? {
        FinishCreate(flight.value, attempt.accepted, attempt.now);
      }
    }

    /** One creation of a bulk run, for an event that is neither in flight nor
        created; with `refresh` the count is re-read from the contract first. */
    method RunStep(event: SportsMarket, attempt: Attempt, refresh: bool)
      requires Consistent() && event.id !in creating && event.id !in created
      modifies this, store
      ensures Consistent() && creating == old(creating)
      ensures marketCount == if refresh then Some(|old(onChain)|) else old(marketCount)
      ensures calls == old(calls) + IssuedBy(event, attempt)
      ensures onChain == old(onChain) + AcceptedBy(event, attempt)
      ensures store.Mappings() == old(store.Mappings()) + RecordedBy(event, attempt, CountOrZero(marketCount))
      ensures created.Keys <= old(created).Keys + {event.id}
    {
      if refresh {
        marketCount := Some(|onChain|);
      }
      CreatedMapKeys(store.Mappings(), event.id);
      CreateSportsMarket(event, attempt);
    }

    /** Creation `k` of a bulk run, stated against the run so far: the calls,
        markets and records of the first `k` creations become those of the
        first `k + 1`. */
    method RunStepInRun(pending: seq<SportsMarket>, attempts: seq<Attempt>, k: nat, refresh: bool,
                        ghost calls0: seq<CreateCall>, ghost chain0: seq<CreateCall>,
                        ghost mappings0: seq<Mapping>, ghost staleId: int)
      requires k < |pending| == |attempts|
      requires Consistent() && pending[k].id !in creating && DistinctIds(pending)
      requires forall i :: k <= i < |pending| ==> pending[i].id !in created
      requires calls == calls0 + Issued(pending, attempts, k)
      requires onChain == chain0 + Accepted(pending, attempts, k)
      requires store.Mappings() == mappings0 + RunRecords(pending, attempts, k, refresh, |chain0|, staleId)
      requires !refresh ==> CountOrZero(marketCount) == staleId
      modifies this, store
      ensures Consistent() && creating == old(creating)
      ensures !refresh ==> marketCount == old(marketCount)
      ensures calls == calls0 + Issued(pending, attempts, k + 1)
      ensures onChain == chain0 + Accepted(pending, attempts, k + 1)
      ensures store.Mappings() == mappings0 + RunRecords(pending, attempts, k + 1, refresh, |chain0|, staleId)
      ensures forall i :: k + 1 <= i < |pending| ==> pending[i].id !in created
    {
      var event, attempt := pending[k], attempts[k];
      ghost var records := RunRecords(pending, attempts, k, refresh, |chain0|, staleId);
      ghost var id := if refresh then |chain0| + |Accepted(pending, attempts, k)| else staleId;
      RunStep(event, attempt, refresh);
      RunStepRecords(pending, attempts, k, refresh, |chain0|, staleId, id);
      assert CountOrZero(marketCount) == id;
      assert store.Mappings() == (mappings0 + records) + RecordedBy(event, attempt, id);
      AppendAssoc(calls0, Issued(pending, attempts, k), IssuedBy(event, attempt));
      AppendAssoc(chain0, Accepted(pending, attempts, k), AcceptedBy(event, attempt));
      AppendAssoc(mappings0, records, RecordedBy(event, attempt, id));
      forall i | k + 1 <= i < |pending|
        ensures pending[i].id !in created
      {
        assert pending[i].id != event.id;
      }
    }

    /** The loop of a bulk run, shared by the page's version and the corrected
        one; `refresh` re-reads the contract's market count before each
        creation. */
    method RunAll(pending: seq<SportsMarket>, attempts: seq<Attempt>, refresh: bool)
      requires |attempts| == |pending|
      requires Consistent() && DistinctIds(pending)
      requires forall i :: 0 <= i < |pending| ==> pending[i].id !in created && pending[i].id !in creating
      modifies this, store
      ensures Consistent()
      ensures creating == old(creating)
      ensures calls == old(calls) + Issued(pending, attempts, |pending|)
      ensures onChain == old(onChain) + Accepted(pending, attempts, |pending|)
      ensures !refresh ==> marketCount == old(marketCount)
      ensures store.Mappings() == old(store.Mappings()) + RunRecords(pending, attempts, |pending|, refresh, |old(onChain)|, CountOrZero(old(marketCount)))
    {
      ghost var calls0, chain0, mappings0 := calls, onChain, store.Mappings();
      ghost var staleId := CountOrZero(marketCount);
      var k := 0;
      while k < |pending|
        invariant 0 <= k <= |pending|
        invariant Consistent()
        invariant creating == old(creating)
        invariant !refresh ==> marketCount == old(marketCount)
        invariant calls == calls0 + Issued(pending, attempts, k)
        invariant onChain == chain0 + Accepted(pending, attempts, k)
        invariant store.Mappings() == mappings0 + RunRecords(pending, attempts, k, refresh, |chain0|, staleId)
        invariant forall i :: k <= i < |pending| ==> pending[i].id !in created
      {
        RunStepInRun(pending, attempts, k, refresh, calls0, chain0, mappings0, staleId);
        k := k + 1;
      }
    }

    /** `createAllSportsMarkets`: confirm, then create every event not yet in
        the map, one after the other. The whole run reads the market count of
        the render it started from. */
    method CreateAllSportsMarkets(events: seq<SportsMarket>, confirmed: bool, attempts: seq<Attempt>)
      requires |attempts| == |Pending(events, created)|
      requires Consistent() && DistinctIds(events) && creating == {}
      modifies this, store
      ensures var pending := Pending(events, old(created));
              var run := pending != [] && confirmed;
              && (!run ==> calls == old(calls) && onChain == old(onChain) && store.Mappings() == old(store.Mappings()))
              && (run ==>
                    calls == old(calls) + Issued(pending, attempts, |pending|)
                    && onChain == old(onChain) + Accepted(pending, attempts, |pending|)
                    && store.Mappings() == old(store.Mappings()) + StaleRecords(pending, attempts, |pending|, CountOrZero(old(marketCount))))
      ensures Consistent() && creating == {} && marketCount == old(marketCount)
    {
      var pending := Pending(events, created);
      if |pending| == 0 {
        return;
      }
      if !confirmed {
        return;
      }
      PendingDistinct(events, created);
      RunAll(pending, attempts, false);
    }

    /** `createAllSportsMarkets` with the market count re-read from the
        contract before each creation, so that each record names the market
        created for it. */
    method CreateAllSportsMarketsFresh(events: seq<SportsMarket>, confirmed: bool, attempts: seq<Attempt>)
      requires |attempts| == |Pending(events, created)|
      requires Consistent() && DistinctIds(events) && creating == {}
      modifies this, store
      ensures var pending := Pending(events, old(created));
              var run := pending != [] && confirmed;
              && (!run ==> calls == old(calls) && onChain == old(onChain) && store.Mappings() == old(store.Mappings()))
              && (run ==>
                    calls == old(calls) + Issued(pending, attempts, |pending|)
                    && onChain == old(onChain) + Accepted(pending, attempts, |pending|)
                    && store.Mappings() == old(store.Mappings()) + FreshRecords(pending, attempts, |pending|, |old(onChain)|))
      ensures forall j :: |old(store.Mappings())| <= j < |store.Mappings()| ==> PointsToOwnMarket(store.Mappings()[j], onChain)
      ensures Consistent() && creating == {}
    {
      var pending := Pending(events, created);
      if |pending| == 0 {
        return;
      }
      if !confirmed {
        return;
      }
      PendingDistinct(events, created);
      ghost var before := store.Mappings();
      ghost var chain := onChain;
      RunAll(pending, attempts, true);
      FreshRunPointsToOwnMarkets(before, chain, pending, attempts);
    }
  }
}
