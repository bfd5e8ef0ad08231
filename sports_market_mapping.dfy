/** The browser-side record of which external sports event was turned into which
    on-chain market. The records live as one JSON array under a fixed
    `localStorage` key; the store only ever appends to that array or removes the
    key. */
module SportsMarketMapping {
  import opened Base

  const StorageKey: string := "spectra_sports_market_mapping"

  datatype Mapping = Mapping(
    sportsEventId: string,
    onChainMarketId: int,
    question: string,
    sport: string,
    homeTeam: string,
    awayTeam: string,
    deadline: string,
    createdAt: int)

  /** What `localStorage` holds under `StorageKey`: nothing (or an empty
      string), text that does not parse, or a parsed array of mappings. */
  datatype Slot = Missing | Unparsable | Parsed(entries: seq<Mapping>)

  /** The list a read yields in the browser. */
  function Read(slot: Slot): (entries: seq<Mapping>)
    ensures slot.Parsed? ==> entries == slot.entries
    ensures !slot.Parsed? ==> entries == []
  {
    match slot
    case Parsed(e) => e
    case _ => []
  }

  /** No two records share a `sportsEventId`. */
  ghost predicate UniqueEvents(entries: seq<Mapping>) {
    forall i, j :: 0 <= i < j < |entries| ==> entries[i].sportsEventId != entries[j].sportsEventId
  }

  // ---------------------------------------------------------------------------
  // The two `find`s: first record with a given event id / on-chain id.
  // ---------------------------------------------------------------------------

  /** Position of the first record for event `id`, or `|entries|` when none. */
  function EventIndex(entries: seq<Mapping>, id: string): (k: nat)
    ensures k <= |entries|
    ensures k < |entries| ==> entries[k].sportsEventId == id
    ensures forall j :: 0 <= j < k ==> entries[j].sportsEventId != id
    decreases |entries|
  {
    if entries == [] then 0
    else if entries[0].sportsEventId == id then 0
    else 1 + EventIndex(entries[1..], id)
  }

  /** Position of the first record for on-chain market `n`, or `|entries|` when none. */
  function MarketIndex(entries: seq<Mapping>, n: int): (k: nat)
    ensures k <= |entries|
    ensures k < |entries| ==> entries[k].onChainMarketId == n
    ensures forall j :: 0 <= j < k ==> entries[j].onChainMarketId != n
    decreases |entries|
  {
    if entries == [] then 0
    else if entries[0].onChainMarketId == n then 0
    else 1 + MarketIndex(entries[1..], n)
  }

  function FindByEvent(entries: seq<Mapping>, id: string): Option<Mapping> {
    var k := EventIndex(entries, id);
    if k < |entries| then Some(entries[k]) else None
  }

  /** The lookup behind `getOnChainMarketId`. */
  function LookupOnChainId(entries: seq<Mapping>, id: string): (r: Option<int>)
    ensures r.None? <==> forall j :: 0 <= j < |entries| ==> entries[j].sportsEventId != id
    ensures r.Some? ==> exists k :: 0 <= k < |entries| && entries[k].sportsEventId == id
                                    && entries[k].onChainMarketId == r.value
                                    && forall j :: 0 <= j < k ==> entries[j].sportsEventId != id
  {
    match FindByEvent(entries, id)
    case Some(m) => Some(m.onChainMarketId)
    case None => None
  }

  /** The test behind `isSportsMarketCreated`: the lookup is not null. */
  predicate IsCreated(entries: seq<Mapping>, id: string) {
    LookupOnChainId(entries, id).Some?
  }

  /** The lookup behind `getSportsEventInfo`: the first record for market `n`. */
  function FindByMarket(entries: seq<Mapping>, n: int): (r: Option<Mapping>)
    ensures r.None? <==> forall j :: 0 <= j < |entries| ==> entries[j].onChainMarketId != n
    ensures r.Some? ==> exists k :: 0 <= k < |entries| && entries[k] == r.value && r.value.onChainMarketId == n
                                    && forall j :: 0 <= j < k ==> entries[j].onChainMarketId != n
  {
    var k := MarketIndex(entries, n);
    if k < |entries| then Some(entries[k]) else None
  }

  /** The list `saveSportsMarketMapping` leaves behind: unchanged when the event
      is already recorded, otherwise the new record appended. */
  function SaveTo(entries: seq<Mapping>, m: Mapping): seq<Mapping> {
    if FindByEvent(entries, m.sportsEventId).Some? then entries else entries + [m]
  }

  // ---------------------------------------------------------------------------
  // Properties of the record list.
  // ---------------------------------------------------------------------------

  /** A record counts as created whatever its on-chain id, including market 0. */
  lemma CreatedIffRecorded(entries: seq<Mapping>, id: string)
    ensures IsCreated(entries, id) <==> exists j :: 0 <= j < |entries| && entries[j].sportsEventId == id
  {
  }

  /** Appending a record for a new event makes the lookup find exactly that record. */
  lemma {:induction false} EventIndexAppend(entries: seq<Mapping>, m: Mapping, id: string)
    ensures EventIndex(entries + [m], id) ==
              if EventIndex(entries, id) < |entries| then EventIndex(entries, id)
              else if m.sportsEventId == id then |entries| else |entries| + 1
    decreases |entries|
  {
    if entries != [] {
      assert (entries + [m])[1..] == entries[1..] + [m];
      EventIndexAppend(entries[1..], m, id);
    }
  }

  /** Saving never reorders or drops records: the old list is a prefix of the
      new one, which is at most one record longer. */
  lemma SaveAppendsOnly(entries: seq<Mapping>, m: Mapping)
    ensures var r := SaveTo(entries, m);
            entries <= r && |r| <= |entries| + 1
            && (|r| == |entries| + 1 <==> !IsCreated(entries, m.sportsEventId))
            && (|r| == |entries| + 1 ==> r[|entries|] == m)
  {
  }

  /** Saving the same record twice leaves the list as saving it once. */
  lemma SaveIdempotent(entries: seq<Mapping>, m: Mapping)
    ensures SaveTo(SaveTo(entries, m), m) == SaveTo(entries, m)
  {
    EventIndexAppend(entries, m, m.sportsEventId);
  }

  /** Saving keeps event ids pairwise distinct. */
  lemma SaveKeepsUnique(entries: seq<Mapping>, m: Mapping)
    ensures UniqueEvents(entries) ==> UniqueEvents(SaveTo(entries, m))
  {
    var r := SaveTo(entries, m);
    if UniqueEvents(entries) && r != entries {
      forall i, j | 0 <= i < j < |r|
        ensures r[i].sportsEventId != r[j].sportsEventId
      {
        if j == |entries| {
          assert r[i] == entries[i];
        }
      }
    }
  }

  /** After a save, the lookup for the saved event answers with the record that
      is now stored for it (the new one when the event was not yet recorded),
      and the lookup for every other event is unchanged. */
  lemma LookupAfterSave(entries: seq<Mapping>, m: Mapping, id: string)
    ensures LookupOnChainId(SaveTo(entries, m), id) ==
              if id == m.sportsEventId && !IsCreated(entries, id) then Some(m.onChainMarketId)
              else LookupOnChainId(entries, id)
  {
    EventIndexAppend(entries, m, id);
  }

  /** With distinct event ids the lookup answers with the unique record's id. */
  lemma LookupUnique(entries: seq<Mapping>, j: nat)
    requires UniqueEvents(entries)
    requires j < |entries|
    ensures LookupOnChainId(entries, entries[j].sportsEventId) == Some(entries[j].onChainMarketId)
  {
    assert EventIndex(entries, entries[j].sportsEventId) == j;
  }

  /** Records are unique per event but not per market: two events may name the
      same on-chain market, and the lookup by market then answers with the
      earlier one. */
  lemma FindByMarketPrefersEarlier(a: Mapping, b: Mapping)
    requires a.sportsEventId != b.sportsEventId && a.onChainMarketId == b.onChainMarketId
    ensures UniqueEvents([a, b])
    ensures FindByMarket([a, b], b.onChainMarketId) == Some(a)
  {
  }

  // ---------------------------------------------------------------------------
  // The store.
  // ---------------------------------------------------------------------------

  class MappingStore {
    /** `typeof window !== "undefined"`: false during server-side rendering,
        where every read is empty and every write is skipped. */
    const browser: bool
    var slot: Slot

    constructor (browser: bool, slot: Slot)
      ensures this.browser == browser && this.slot == slot
    {
      this.browser := browser;
      this.slot := slot;
    }

    /** `getSportsMarketMappings`. */
    function Mappings(): (entries: seq<Mapping>)
      reads this
      ensures browser && slot.Parsed? ==> entries == slot.entries
      ensures !(browser && slot.Parsed?) ==> entries == []
    {
      if browser then Read(slot) else []
    }

    /** `saveSportsMarketMapping`: append unless the event is already recorded. */
    method Save(m: Mapping)
      modifies this
      ensures slot == if browser && !IsCreated(old(Mappings()), m.sportsEventId)
                      then Parsed(old(Mappings()) + [m]) else old(slot)
      ensures browser ==> Mappings() == SaveTo(old(Mappings()), m)
      ensures UniqueEvents(old(Mappings())) ==> UniqueEvents(Mappings())
    {
      if !browser {
        return;
      }
      var mappings := Mappings();
      if FindByEvent(mappings, m.sportsEventId).Some? {
        return;
      }
      SaveKeepsUnique(mappings, m);
      slot := Parsed(mappings + [m]);
    }

    /** `getOnChainMarketId`. */
    method GetOnChainMarketId(id: string) returns (r: Option<int>)
      ensures r.None? <==> forall j :: 0 <= j < |Mappings()| ==> Mappings()[j].sportsEventId != id
      ensures r == LookupOnChainId(Mappings(), id)
    {
      r := LookupOnChainId(Mappings(), id);
    }

    /** `getSportsEventInfo`. */
    method GetSportsEventInfo(n: int) returns (r: Option<Mapping>)
      ensures r == FindByMarket(Mappings(), n)
    {
      r := FindByMarket(Mappings(), n);
    }

    /** `isSportsMarketCreated`. */
    method IsSportsMarketCreated(id: string) returns (created: bool)
      ensures created <==> exists j :: 0 <= j < |Mappings()| && Mappings()[j].sportsEventId == id
    {
      var r := GetOnChainMarketId(id);
      created := r.Some?;
    }

    /** `clearSportsMarketMappings`: removes the key. */
    method Clear()
      modifies this
      ensures slot == if browser then Missing else old(slot)
      ensures Mappings() == []
    {
      if browser {
        slot := Missing;
      }
    }
  }
}
