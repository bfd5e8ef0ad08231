/** Turning upcoming fixtures from three fixed leagues into candidate sports
    markets, with a fixed fallback list, and the sport-to-icon lookup. The HTTP
    requests themselves are outside the model: each league's response arrives
    as an input. */
module SportsApi {
  import opened Base

  datatype League = League(id: string, name: string, sport: string)

  /** The leagues queried, in order. */
  const Leagues: seq<League> := [
    League("4328", "English Premier League", "Soccer"),
    League("4391", "NBA", "Basketball"),
    League("4424", "NFL", "American Football")
  ]

  const PerLeagueCap: nat := 5
  const TotalCap: nat := 10
  const Unknown: string := "TBD"

  /** A string field of the fixtures JSON, which may also be `null` or absent. */
  datatype JsField = Text(s: string) | Null | Undefined

  datatype RawEvent = RawEvent(strHomeTeam: JsField, strAwayTeam: JsField, dateEvent: JsField)

  /** One league's response: not ok, ok without an `events` array, ok with
      one, or the request (or its JSON decoding) threw. */
  datatype LeagueResponse = NotOk | NoEventList | EventList(events: seq<RawEvent>) | Threw

  datatype SportsMarket = SportsMarket(
    id: string,
    question: string,
    sport: string,
    homeTeam: string,
    awayTeam: string,
    deadline: string)

  /** What a template literal makes of the field. */
  function Interpolate(f: JsField): string {
    match f
    case Text(s) => s
    case Null => "null"
    case Undefined => "undefined"
  }

  /** `f || fallback`: the fallback replaces a missing or empty field. */
  function OrDefault(f: JsField, fallback: string): (r: string)
    ensures f.Text? && f.s != "" ==> r == f.s
    ensures !(f.Text? && f.s != "") ==> r == fallback
  {
    if f.Text? && f.s != "" then f.s else fallback
  }

  function MarketId(leagueId: string, idx: nat): string {
    "sport-" + leagueId + "-" + NatToString(idx)
  }

  function Question(e: RawEvent): string {
    "Will " + Interpolate(e.strHomeTeam) + " beat " + Interpolate(e.strAwayTeam) + "?"
  }

  /** One fixture as a market; `fallbackDeadline` is the date a week from now,
      which the caller computes from the clock. */
  function ToMarket(league: League, e: RawEvent, idx: nat, fallbackDeadline: string): SportsMarket {
    SportsMarket(
      MarketId(league.id, idx),
      Question(e),
      league.sport,
      OrDefault(e.strHomeTeam, Unknown),
      OrDefault(e.strAwayTeam, Unknown),
      OrDefault(e.dateEvent, fallbackDeadline))
  }

  /** The markets one league contributes: its first five fixtures, in order,
      numbered by position; nothing when the response is unusable. */
  function LeagueMarkets(league: League, response: LeagueResponse, fallbackDeadline: string): (r: seq<SportsMarket>)
    ensures |r| <= PerLeagueCap
    ensures !response.EventList? ==> r == []
    ensures response.EventList? ==>
              |r| == Min(PerLeagueCap, |response.events|)
              && forall i :: 0 <= i < |r| ==> r[i] == ToMarket(league, response.events[i], i, fallbackDeadline)
  {
    match response
    case EventList(events) =>
      var first := events[..Min(PerLeagueCap, |events|)];
      seq(|first|, i requires 0 <= i < |first| => ToMarket(league, first[i], i, fallbackDeadline))
    case _ => []
  }

  /** Everything the first `n` leagues contribute, in league order. */
  function Collected(responses: seq<LeagueResponse>, n: nat, fallbackDeadline: string): seq<SportsMarket>
    requires n <= |Leagues| && |responses| == |Leagues|
  {
    if n == 0 then []
    else Collected(responses, n - 1, fallbackDeadline) + LeagueMarkets(Leagues[n - 1], responses[n - 1], fallbackDeadline)
  }

  /** The result of `fetchUpcomingSportsEvents`. */
  function UpcomingMarkets(responses: seq<LeagueResponse>, fallbackDeadline: string): seq<SportsMarket>
    requires |responses| == |Leagues|
  {
    var all := Collected(responses, |Leagues|, fallbackDeadline);
    if |all| == 0 then MockMarkets() else all[..Min(TotalCap, |all|)]
  }

  /** The fixed fallback list. */
  function MockMarkets(): seq<SportsMarket> {
    [
      SportsMarket("sport-1", "Will Manchester United beat Liverpool?", "Soccer", "Manchester United", "Liverpool", "2025-12-15"),
      SportsMarket("sport-2", "Will Lakers beat Warriors?", "Basketball", "Lakers", "Warriors", "2025-12-20"),
      SportsMarket("sport-3", "Will Chiefs beat Bills?", "American Football", "Chiefs", "Bills", "2025-12-25"),
      SportsMarket("sport-4", "Will Arsenal beat Chelsea?", "Soccer", "Arsenal", "Chelsea", "2025-12-18"),
      SportsMarket("sport-5", "Will Celtics beat Heat?", "Basketball", "Celtics", "Heat", "2025-12-22")
    ]
  }

  /** `fetchUpcomingSportsEvents`, with each league's response given. */
  method FetchUpcomingSportsEvents(responses: seq<LeagueResponse>, fallbackDeadline: string)
    returns (markets: seq<SportsMarket>)
    requires |responses| == |Leagues|
    ensures markets == UpcomingMarkets(responses, fallbackDeadline)
    ensures 1 <= |markets| <= TotalCap
    ensures DistinctIds(markets)
  {
    var all: seq<SportsMarket> := [];
    var k := 0;
    while k < |Leagues|
      invariant 0 <= k <= |Leagues|
      invariant all == Collected(responses, k, fallbackDeadline)
    {
      all := all + LeagueMarkets(Leagues[k], responses[k], fallbackDeadline);
      k := k + 1;
    }
    UpcomingShape(responses, fallbackDeadline);
    UpcomingDistinctIds(responses, fallbackDeadline);
    if |all| == 0 {
      return MockMarkets();
    }
    markets := all[..Min(TotalCap, |all|)];
  }

  // ---------------------------------------------------------------------------
  // Properties of the result.
  // ---------------------------------------------------------------------------

  ghost predicate DistinctIds(ms: seq<SportsMarket>) {
    forall i, j :: 0 <= i < j < |ms| ==> ms[i].id != ms[j].id
  }

  /** The result is the first ten collected markets, or the fallback list when
      no league contributed anything. */
  lemma UpcomingShape(responses: seq<LeagueResponse>, fallbackDeadline: string)
    requires |responses| == |Leagues|
    ensures var r := UpcomingMarkets(responses, fallbackDeadline);
            var all := Collected(responses, |Leagues|, fallbackDeadline);
            1 <= |r| <= TotalCap
            && (all == [] ==> r == MockMarkets())
            && (all != [] ==> r <= all && |r| == Min(TotalCap, |all|))
  {
  }

  /** When every league fails, the fallback list is returned. */
  lemma {:induction false} AllFailedGivesMock(responses: seq<LeagueResponse>, fallbackDeadline: string)
    requires |responses| == |Leagues|
    requires forall k :: 0 <= k < |responses| ==> !responses[k].EventList?
    ensures UpcomingMarkets(responses, fallbackDeadline) == MockMarkets()
  {
    assert Collected(responses, 1, fallbackDeadline) == [];
    assert Collected(responses, 2, fallbackDeadline) == [];
    assert Collected(responses, 3, fallbackDeadline) == [];
  }

  /** A failing league contributes nothing and does not stop the leagues after it. */
  lemma FailedLeagueSkipped(responses: seq<LeagueResponse>, k: nat, fallbackDeadline: string)
    requires |responses| == |Leagues| && k < |Leagues|
    requires !responses[k].EventList?
    ensures Collected(responses, k + 1, fallbackDeadline) == Collected(responses, k, fallbackDeadline)
  {
  }

  /** The shape of a generated id: `sport-`, the four-character league id, `-`,
      and one digit. */
  lemma MarketIdShape(leagueId: string, idx: nat)
    requires |leagueId| == 4 && idx < PerLeagueCap
    ensures var id := MarketId(leagueId, idx);
            |id| == 12 && id[6..10] == leagueId && id[11] == DigitChar(idx)
  {
    var id := MarketId(leagueId, idx);
    assert id == "sport-" + leagueId + "-" + [DigitChar(idx)];
    assert id[6..10] == leagueId;
  }

  /** The league ids, in league order. */
  function LeagueIds(): seq<string> {
    ["4328", "4391", "4424"]
  }

  lemma LeagueIdsMatch(k: nat)
    requires k < |Leagues|
    ensures Leagues[k].id == LeagueIds()[k] && |Leagues[k].id| == 4
    ensures Leagues[k].id !in LeagueIds()[..k]
  {
  }

  /** Every id one league contributes names that league and carries its
      position as the last character. */
  lemma LeagueMarketIds(k: nat, response: LeagueResponse, fallbackDeadline: string)
    requires k < |Leagues|
    ensures var seg := LeagueMarkets(Leagues[k], response, fallbackDeadline);
            forall i :: 0 <= i < |seg| ==>
              |seg[i].id| == 12 && seg[i].id[6..10] == Leagues[k].id && seg[i].id[11] == DigitChar(i)
  {
    LeagueIdsMatch(k);
    var seg := LeagueMarkets(Leagues[k], response, fallbackDeadline);
    forall i | 0 <= i < |seg|
      ensures |seg[i].id| == 12 && seg[i].id[6..10] == Leagues[k].id && seg[i].id[11] == DigitChar(i)
    {
      MarketIdShape(Leagues[k].id, i);
    }
  }

  /** All ids collected from the first `n` leagues are distinct, and each names
      one of those leagues. */
  lemma {:induction false} CollectedIds(responses: seq<LeagueResponse>, n: nat, fallbackDeadline: string)
    requires n <= |Leagues| && |responses| == |Leagues|
    ensures var all := Collected(responses, n, fallbackDeadline);
            DistinctIds(all)
            && forall p :: 0 <= p < |all| ==> |all[p].id| == 12 && all[p].id[6..10] in LeagueIds()[..n]
  {
    if n > 0 {
      CollectedIds(responses, n - 1, fallbackDeadline);
      var seg := LeagueMarkets(Leagues[n - 1], responses[n - 1], fallbackDeadline);
      LeagueMarketIds(n - 1, responses[n - 1], fallbackDeadline);
      LeagueIdsMatch(n - 1);
      AppendLeagueIds(Collected(responses, n - 1, fallbackDeadline), seg, n - 1);
    }
  }

  /** Appending one league's markets to those of the leagues before it keeps
      the ids distinct. */
  lemma AppendLeagueIds(before: seq<SportsMarket>, seg: seq<SportsMarket>, k: nat)
    requires k < |Leagues| && |seg| <= PerLeagueCap
    requires DistinctIds(before)
    requires forall p :: 0 <= p < |before| ==> |before[p].id| == 12 && before[p].id[6..10] in LeagueIds()[..k]
    requires forall i :: 0 <= i < |seg| ==>
               |seg[i].id| == 12 && seg[i].id[6..10] == Leagues[k].id && seg[i].id[11] == DigitChar(i)
    requires Leagues[k].id == LeagueIds()[k] && Leagues[k].id !in LeagueIds()[..k]
    ensures DistinctIds(before + seg)
    ensures forall p :: 0 <= p < |before + seg| ==>
              |(before + seg)[p].id| == 12 && (before + seg)[p].id[6..10] in LeagueIds()[..k + 1]
  {
    var all := before + seg;
    assert LeagueIds()[..k + 1] == LeagueIds()[..k] + [Leagues[k].id];
    forall p, q | 0 <= p < q < |all|
      ensures all[p].id != all[q].id
    {
      if q >= |before| {
        if p >= |before| {
          assert all[p].id[11] == DigitChar(p - |before|);
          assert all[q].id[11] == DigitChar(q - |before|);
        } else {
          assert all[p].id[6..10] != all[q].id[6..10];
        }
      }
    }
  }

  lemma MockIdsDistinct()
    ensures DistinctIds(MockMarkets())
  {
    var ms := MockMarkets();
    forall i, j | 0 <= i < j < |ms|
      ensures ms[i].id != ms[j].id
    {
      assert ms[i].id[6] != ms[j].id[6];
    }
  }

  /** The ids handed out are pairwise distinct, so they can key the record of
      created markets. */
  lemma UpcomingDistinctIds(responses: seq<LeagueResponse>, fallbackDeadline: string)
    requires |responses| == |Leagues|
    ensures DistinctIds(UpcomingMarkets(responses, fallbackDeadline))
  {
    CollectedIds(responses, |Leagues|, fallbackDeadline);
    MockIdsDistinct();
  }

  // ---------------------------------------------------------------------------
  // Icons.
  // ---------------------------------------------------------------------------

  const Trophy: string := "🏆"

  const SportIcons: map<string, string> := map[
    "Soccer" := "⚽",
    "Basketball" := "🏀",
    "American Football" := "🏈",
    "Baseball" := "⚾",
    "Hockey" := "🏒",
    "Tennis" := "🎾",
    "Cricket" := "🏏"
  ]

  /** `getSportIcon`: the listed icon, or the trophy for any other sport. */
  function GetSportIcon(sport: string): (icon: string)
    ensures sport in SportIcons ==> icon == SportIcons[sport]
    ensures sport !in SportIcons ==> icon == Trophy
  {
    if sport in SportIcons && SportIcons[sport] != "" then SportIcons[sport] else Trophy
  }

  /** The trophy is shown exactly for the sports that are not listed, and
      listed sports get pairwise distinct icons. */
  lemma SportIconsDistinct(a: string, b: string)
    ensures GetSportIcon(a) == Trophy <==> a !in SportIcons
    ensures a in SportIcons && b in SportIcons && a != b ==> GetSportIcon(a) != GetSportIcon(b)
  {
    assert forall s :: s in SportIcons ==> |SportIcons[s]| == 1 && SportIcons[s][0] != Trophy[0];
    if a in SportIcons && b in SportIcons && a != b {
      assert SportIcons[a][0] != SportIcons[b][0];
    }
  }
}
