/**
  The itinerary planner (`TripPlanner.plan_trip`).  Every place is scored
  against the requested interests, the scored list is stably sorted by
  descending score, the places are grouped by zone (keeping that order inside
  each zone), zones are ranked by descending size (stably, so equal-sized zones
  keep the order in which they first appear), and the first `days` zones become
  "Day 1", "Day 2", ..., each filled from the zone's first three places.

  The specification functions below describe each stage as a value; the class
  `TripPlanner` performs the same stages with loops and is proved equal to
  `Plan`.  The lemmas in `PlannerProperties` state what the planner promises.
 */
module TripPlanning {
  import opened Wrappers
  import opened Text
  import opened Seqs
  import opened Catalog
  import opened StableSort

  /** A place together with its score (`{"data": place, "score": score}`). */
  datatype Scored = Scored(place: Place, score: int)

  /** One day of the itinerary: its zone and the three slots. */
  datatype DayPlan = DayPlan(zone: string, morning: string, afternoon: string, evening: string)

  /** An itinerary entry: the key `"Day n"` and its plan. */
  datatype Day = Day(key: string, plan: DayPlan)

  const MorningFiller := "Relax"
  const AfternoonFiller := "Local Exploration"
  const EveningFiller := "Sunset View"

  // ---------------------------------------------------------------- scoring

  /** How many entries of `interests` the place carries, counting repeated entries again. */
  function MatchCount(interests: seq<string>, p: Place): nat
  {
    if interests == [] then 0
    else MatchCount(interests[..|interests| - 1], p) + (if HasTag(p, interests[|interests| - 1]) then 1 else 0)
  }

  /** Base score 1 plus 5 for every interest the place carries. */
  function Score(p: Place, interests: seq<string>): int
  {
    1 + 5 * MatchCount(interests, p)
  }

  function ScoreKey(s: Scored): int { s.score }

  /** `scored_places` before sorting: every place with its score, in catalog order. */
  function ScoreAll(places: seq<Place>, interests: seq<string>): (scored: seq<Scored>)
    ensures |scored| == |places|
    ensures forall i :: 0 <= i < |places| ==> scored[i] == Scored(places[i], Score(places[i], interests))
  {
    seq(|places|, i requires 0 <= i < |places| => Scored(places[i], Score(places[i], interests)))
  }

  /** `scored_places` after `sort(key=score, reverse=True)`. */
  function ByScore(places: seq<Place>, interests: seq<string>): seq<Scored>
  {
    SortDesc(ScoreAll(places, interests), ScoreKey)
  }

  function Places(s: seq<Scored>): (ps: seq<Place>)
    ensures |ps| == |s|
    ensures forall i :: 0 <= i < |s| ==> ps[i] == s[i].place
  {
    seq(|s|, i requires 0 <= i < |s| => s[i].place)
  }

  // ---------------------------------------------------------------- grouping

  /** The keys of `zones` in insertion order: each zone once, in order of first appearance in `s`. */
  function ZoneOrder(s: seq<Scored>): seq<string>
  {
    if s == [] then []
    else
      var order := ZoneOrder(s[..|s| - 1]);
      var z := s[|s| - 1].place.zone;
      if z in order then order else order + [z]
  }

  /** `zones[z]`: the places of zone `z`, in the order of `s`. */
  function Members(s: seq<Scored>, z: string): seq<Place>
  {
    if s == [] then []
    else
      var last := s[|s| - 1];
      Members(s[..|s| - 1], z) + (if last.place.zone == z then [last.place] else [])
  }

  /** `len(zones[z])`, the key by which zones are ranked. */
  function ZoneSize(s: seq<Scored>): string -> int
  {
    z => |Members(s, z)|
  }

  /** `sorted(zones.keys(), key=len(zones[z]), reverse=True)`. */
  function RankZones(s: seq<Scored>): seq<string>
  {
    SortDesc(ZoneOrder(s), ZoneSize(s))
  }

  // ---------------------------------------------------------------- allocation

  /** `f"Day {n}"` */
  function DayLabel(n: nat): string
  {
    "Day " + NatToString(n)
  }

  /** `day_places[k]['name'] if len(day_places) > k else filler` */
  function Slot(dayPlaces: seq<Place>, k: nat, filler: string): string
  {
    if |dayPlaces| > k then dayPlaces[k].name else filler
  }

  /** `zones[zone][:3]`: the places a day visits. */
  function DayPlaces(members: seq<Place>): seq<Place>
  {
    if |members| <= 3 then members else members[..3]
  }

  function PlanDay(zone: string, members: seq<Place>): DayPlan
  {
    var dp := DayPlaces(members);
    DayPlan(zone, Slot(dp, 0, MorningFiller), Slot(dp, 1, AfternoonFiller), Slot(dp, 2, EveningFiller))
  }

  /** How many days the loop fills: it stops after `days` days or when the zones run out. */
  function DayCount(zones: nat, days: int): nat
  {
    if days <= 0 then 0 else if days < zones then days else zones
  }

  /** The itinerary: day `i + 1` visits the `i`-th ranked zone. */
  function Allocate(ranked: seq<string>, s: seq<Scored>, days: int): (days': seq<Day>)
    ensures |days'| == DayCount(|ranked|, days)
  {
    seq(DayCount(|ranked|, days), i requires 0 <= i < DayCount(|ranked|, days) =>
      Day(DayLabel(i + 1), PlanDay(ranked[i], Members(s, ranked[i]))))
  }

  /** The whole planner as a value. */
  function Plan(places: seq<Place>, days: int, interests: seq<string>): seq<Day>
  {
    var sorted := ByScore(places, interests);
    Allocate(RankZones(sorted), sorted, days)
  }

  // ---------------------------------------------------------------- the planner

  /** Two key functions that agree on the list's elements sort it the same way. */
  lemma {:induction false} SortDescSameKeys<T>(s: seq<T>, k1: T -> int, k2: T -> int)
    requires forall x :: x in s ==> k1(x) == k2(x)
    ensures SortDesc(s, k1) == SortDesc(s, k2)
  {
    if s != [] {
      SortDescSameKeys(s[1..], k1, k2);
      SortDescPermutes(s[1..], k1);
      forall y | y in SortDesc(s[1..], k1)
        ensures k1(y) == k2(y)
      {
        assert y in multiset(SortDesc(s[1..], k1));
        assert y in s[1..];
      }
      InsertSameKeys(s[0], SortDesc(s[1..], k1), k1, k2);
    }
  }

  lemma {:induction false} InsertSameKeys<T>(x: T, s: seq<T>, k1: T -> int, k2: T -> int)
    requires k1(x) == k2(x)
    requires forall y :: y in s ==> k1(y) == k2(y)
    ensures Insert(x, s, k1) == Insert(x, s, k2)
  {
    if s != [] {
      InsertSameKeys(x, s[1..], k1, k2);
    }
  }

  class TripPlanner {
    const locations: seq<Place>

    constructor (allLocations: seq<Place>)
      ensures locations == allLocations
    {
      locations := allLocations;
    }

    /** The score of one place: 1, plus 5 for each interest found among its lower-cased tags. */
    static method ScorePlace(place: Place, interests: seq<string>) returns (score: int)
      ensures score == 1 + 5 * MatchCount(interests, place)
    {
      score := 0;
      score := score + 1;
      var placeTags := LowerAll(place.tags);
      for i := 0 to |interests|
        invariant score == 1 + 5 * MatchCount(interests[..i], place)
      {
        if LowerStr(interests[i]) in placeTags {
          score := score + 5;
        }
        assert interests[..i + 1][..i] == interests[..i];
      }
      assert interests[..|interests|] == interests;
    }

    /** `plan_trip(days, interests)`; `interests = None` means no interests. */
    method PlanTrip(days: int, interests: Option<seq<string>>) returns (itinerary: seq<Day>)
      ensures itinerary == Plan(locations, days, interests.GetOr([]))
    {
      var wanted := if interests.None? then [] else interests.value;
      // 1. Score every place.
      var scored := ScorePlaces(locations, wanted);
      // 2. Sort by score, highest first (stable).
      scored := SortDesc(scored, ScoreKey);
      // 3. Group by zone.
      var zoneNames, zones := GroupByZone(scored);
      // 4. Rank zones by size, largest first (stable).
      var size := (z: string) => if z in zones then |zones[z]| else 0;
      var rankedZones := SortDesc(zoneNames, size);
      SortDescSameKeys(zoneNames, size, ZoneSize(scored));
      SortDescPermutes(zoneNames, size);
      forall z | z in rankedZones
        ensures z in zones && zones[z] == Members(scored, z)
      {
        assert z in multiset(rankedZones);
      }
      // 5. One zone per day, at most three places per day.
      itinerary := AllocateDays(rankedZones, zones, scored, days);
    }

    /** The scoring loop: appends each place with its score, in catalog order. */
    static method ScorePlaces(places: seq<Place>, interests: seq<string>) returns (scored: seq<Scored>)
      ensures scored == ScoreAll(places, interests)
    {
      scored := [];
      for i := 0 to |places|
        invariant |scored| == i
        invariant forall j :: 0 <= j < i ==> scored[j] == Scored(places[j], Score(places[j], interests))
      {
        var score := ScorePlace(places[i], interests);
        scored := scored + [Scored(places[i], score)];
      }
    }

    /** The grouping loop: `zones[zone].append(place)` for each scored place, in order. */
    static method GroupByZone(scored: seq<Scored>) returns (zoneNames: seq<string>, zones: map<string, seq<Place>>)
      ensures zoneNames == ZoneOrder(scored)
      ensures forall z :: z in zones <==> z in zoneNames
      ensures forall z :: z in zones ==> zones[z] == Members(scored, z)
    {
      zoneNames := [];
      zones := map[];
      for i := 0 to |scored|
        invariant zoneNames == ZoneOrder(scored[..i])
        invariant forall z :: z in zones <==> z in zoneNames
        invariant forall z :: z in zones ==> zones[z] == Members(scored[..i], z)
      {
        var item := scored[i];
        var zoneName := item.place.zone;
        if zoneName !in zones {
          MembersAbsent(scored[..i], zoneName);
          zoneNames := zoneNames + [zoneName];
          zones := zones[zoneName := []];
        }
        zones := zones[zoneName := zones[zoneName] + [item.place]];
        assert scored[..i + 1][..i] == scored[..i];
      }
      assert scored[..|scored|] == scored;
    }

    /** The allocation loop: one ranked zone per day until `days` days are filled or the zones run out. */
    static method AllocateDays(rankedZones: seq<string>, zones: map<string, seq<Place>>, scored: seq<Scored>, days: int)
      returns (itinerary: seq<Day>)
      requires forall z :: z in rankedZones ==> z in zones && zones[z] == Members(scored, z)
      ensures itinerary == Allocate(rankedZones, scored, days)
    {
      itinerary := [];
      var currentDay := 1;
      var k := 0;
      while k < |rankedZones|
        invariant k <= |rankedZones|
        invariant currentDay == k + 1
        invariant k == 0 || k <= days
        invariant |itinerary| == k
        invariant forall j :: 0 <= j < k ==>
          itinerary[j] == Day(DayLabel(j + 1), PlanDay(rankedZones[j], Members(scored, rankedZones[j])))
      {
        if currentDay > days {
          break;
        }
        var zone := rankedZones[k];
        var dayPlaces := if |zones[zone]| <= 3 then zones[zone] else zones[zone][..3];
        itinerary := itinerary + [Day(DayLabel(currentDay), DayPlan(zone,
          if |dayPlaces| > 0 then dayPlaces[0].name else MorningFiller,
          if |dayPlaces| > 1 then dayPlaces[1].name else AfternoonFiller,
          if |dayPlaces| > 2 then dayPlaces[2].name else EveningFiller))];
        currentDay := currentDay + 1;
        k := k + 1;
      }
    }
  }

  /** A zone that does not occur in `s` has no members. */
  lemma {:induction false} MembersAbsent(s: seq<Scored>, z: string)
    requires z !in ZoneOrder(s)
    ensures Members(s, z) == []
  {
    if s != [] {
      var init := s[..|s| - 1];
      assert z !in ZoneOrder(init);
      MembersAbsent(init, z);
    }
  }
}
