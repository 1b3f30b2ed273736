/**
  What the itinerary planner promises, stated about the specification `Plan`
  that `TripPlanner.PlanTrip` is proved to compute.
 */
module PlannerProperties {
  import opened Text
  import opened Seqs
  import opened Catalog
  import opened StableSort
  import opened TripPlanning

  // ---------------------------------------------------------------- scoring

  /** The score is 1 plus 5 per matching interest: at least 1, at most 1 + 5 per interest. */
  lemma {:induction false} ScoreBounds(p: Place, interests: seq<string>)
    ensures 1 <= Score(p, interests) <= 1 + 5 * |interests|
    ensures (Score(p, interests) - 1) % 5 == 0
  {
    MatchCountBound(p, interests);
  }

  lemma {:induction false} MatchCountBound(p: Place, interests: seq<string>)
    ensures MatchCount(interests, p) <= |interests|
  {
    if interests != [] {
      MatchCountBound(p, interests[..|interests| - 1]);
    }
  }

  /** A place without tags, or a request without interests, scores exactly 1. */
  lemma {:induction false} ScoreBase(p: Place, interests: seq<string>)
    requires p.tags == [] || interests == []
    ensures Score(p, interests) == 1
  {
    if interests != [] {
      ScoreBase(p, interests[..|interests| - 1]);
      assert !HasTag(p, interests[|interests| - 1]);
    }
  }

  /** Interests are counted entry by entry, so a repeated interest counts again. */
  lemma {:induction false} MatchCountAppend(p: Place, a: seq<string>, b: seq<string>)
    ensures MatchCount(a + b, p) == MatchCount(a, p) + MatchCount(b, p)
  {
    if b != [] {
      var b' := b[..|b| - 1];
      MatchCountAppend(p, a, b');
      assert (a + b)[..|a + b| - 1] == a + b';
    } else {
      assert a + b == a;
    }
  }

  /** Asking for an interest twice adds 10 when the place carries it. */
  lemma RepeatedInterestCountsTwice(p: Place, interest: string)
    requires HasTag(p, interest)
    ensures Score(p, [interest, interest]) == 11
  {
    ScoreOfTwo(p, interest, interest);
  }

  /** Interests are compared after `lower()`: lists that agree entry by entry ignoring case match alike. */
  lemma {:induction false} MatchCountIgnoresCase(p: Place, a: seq<string>, b: seq<string>)
    requires |a| == |b| && forall i :: 0 <= i < |a| ==> LowerStr(a[i]) == LowerStr(b[i])
    ensures MatchCount(a, p) == MatchCount(b, p)
  {
    if a != [] {
      MatchCountIgnoresCase(p, a[..|a| - 1], b[..|b| - 1]);
    }
  }

  /** ... and so produce the same itinerary. */
  lemma PlanIgnoresInterestCase(places: seq<Place>, days: int, a: seq<string>, b: seq<string>)
    requires |a| == |b| && forall i :: 0 <= i < |a| ==> LowerStr(a[i]) == LowerStr(b[i])
    ensures Plan(places, days, a) == Plan(places, days, b)
  {
    forall p | p in places
      ensures Score(p, a) == Score(p, b)
    {
      MatchCountIgnoresCase(p, a, b);
    }
    assert ScoreAll(places, a) == ScoreAll(places, b);
  }

  // ---------------------------------------------------------------- sorting by score

  /** Every sorted entry is a catalog place carrying its own score. */
  lemma ByScoreEntries(places: seq<Place>, interests: seq<string>)
    ensures forall x :: x in ByScore(places, interests) ==> x.place in places && x.score == Score(x.place, interests)
  {
    SortDescPermutes(ScoreAll(places, interests), ScoreKey);
    forall x | x in ByScore(places, interests)
      ensures x.place in places && x.score == Score(x.place, interests)
    {
      assert x in multiset(ByScore(places, interests));
      assert x in ScoreAll(places, interests);
    }
  }

  /**
    The score order: non-increasing scores, a permutation of the scored catalog,
    and places with equal scores in catalog order.
   */
  lemma ByScoreOrder(places: seq<Place>, interests: seq<string>)
    ensures var sorted := ByScore(places, interests);
      && (forall i, j :: 0 <= i < j < |sorted| ==> sorted[i].score >= sorted[j].score)
      && multiset(sorted) == multiset(ScoreAll(places, interests))
      && (forall x: Scored, y: Scored :: x.score == y.score ==>
            (Before(sorted, x, y) <==> Before(ScoreAll(places, interests), x, y)))
  {
    var scored := ScoreAll(places, interests);
    SortDescSorted(scored, ScoreKey);
    SortDescPermutes(scored, ScoreKey);
    forall x: Scored, y: Scored | x.score == y.score
      ensures Before(ByScore(places, interests), x, y) <==> Before(scored, x, y)
    {
      SortDescKeepsOrder(scored, ScoreKey, x, y);
    }
  }

  // ---------------------------------------------------------------- grouping

  /** The set of zones the entries of `s` belong to. */
  function ZonesOf(s: seq<Scored>): set<string>
  {
    set x | x in s :: x.place.zone
  }

  /** The set of zones of a catalog. */
  function CatalogZones(places: seq<Place>): set<string>
  {
    set p | p in places :: p.zone
  }

  /** The zone keys: every zone of `s` exactly once. */
  lemma {:induction false} ZoneOrderKeys(s: seq<Scored>)
    ensures NoDup(ZoneOrder(s))
    ensures forall z :: z in ZoneOrder(s) <==> z in ZonesOf(s)
  {
    if s != [] {
      var init, x := s[..|s| - 1], s[|s| - 1];
      ZoneOrderKeys(init);
      assert s == init + [x];
    }
  }

  /** Zone keys are in order of first appearance: each zone occurs in `s` before any occurrence of a later key. */
  lemma {:induction false} ZoneOrderFirstAppearance(s: seq<Scored>, a: nat, b: nat, q: nat)
    requires a < b < |ZoneOrder(s)|
    requires q < |s| && s[q].place.zone == ZoneOrder(s)[b]
    ensures exists p :: 0 <= p < q && s[p].place.zone == ZoneOrder(s)[a]
  {
    var init, x := s[..|s| - 1], s[|s| - 1];
    var order := ZoneOrder(init);
    ZoneOrderKeys(init);
    if x.place.zone in order {
      if q < |init| {
        assert init[q] == s[q];
        ZoneOrderFirstAppearance(init, a, b, q);
        var p :| 0 <= p < q && init[p].place.zone == order[a];
        assert s[p] == init[p];
      } else {
        assert order[b] in ZonesOf(init);
        var y :| y in init && y.place.zone == order[b];
        var q' :| 0 <= q' < |init| && init[q'] == y;
        ZoneOrderFirstAppearance(init, a, b, q');
        var p :| 0 <= p < q' && init[p].place.zone == order[a];
        assert s[p] == init[p];
      }
    } else {
      assert ZoneOrder(s) == order + [x.place.zone];
      if b < |order| {
        assert s[q].place.zone in order;
        assert s[q] != x;
        assert init[q] == s[q];
        ZoneOrderFirstAppearance(init, a, b, q);
        var p :| 0 <= p < q && init[p].place.zone == order[a];
        assert s[p] == init[p];
      } else {
        assert ZoneOrder(s)[a] in ZonesOf(init);
        var y :| y in init && y.place.zone == order[a];
        var p :| 0 <= p < |init| && init[p] == y;
        assert s[p] == init[p];
        assert forall k :: 0 <= k < |init| ==> init[k].place.zone != x.place.zone by {
          forall k | 0 <= k < |init|
            ensures init[k].place.zone != x.place.zone
          {
            assert init[k] in init;
          }
        }
        assert forall k :: 0 <= k < |init| ==> s[k] == init[k];
      }
    }
  }

  /** A zone's list holds exactly that zone's entries: each of its places as often as in `s`, and no other place. */
  lemma {:induction false} MembersCount(s: seq<Scored>, z: string)
    ensures forall p :: multiset(Members(s, z))[p] == if p.zone == z then multiset(Places(s))[p] else 0
  {
    if s != [] {
      var init, x := s[..|s| - 1], s[|s| - 1];
      MembersCount(init, z);
      assert Places(s) == Places(init) + [x.place];
    }
  }

  /** A zone's list keeps the order of the score-sorted list. */
  lemma {:induction false} MembersSubsequence(s: seq<Scored>, z: string)
    ensures IsSubsequence(Members(s, z), Places(s))
  {
    if s != [] {
      var init, x := s[..|s| - 1], s[|s| - 1];
      MembersSubsequence(init, z);
      assert Places(s) == Places(init) + [x.place];
      if x.place.zone == z {
        assert Members(s, z)[..|Members(s, z)| - 1] == Members(init, z);
      } else {
        assert Members(s, z) == Members(init, z);
        SubsequenceSnoc(Members(init, z), Places(init), x.place);
      }
    }
  }

  /** Every place in a zone's list belongs to that zone and comes from `s`. */
  lemma MembersBelong(s: seq<Scored>, z: string)
    ensures forall p :: p in Members(s, z) ==> p.zone == z && p in Places(s)
  {
    MembersCount(s, z);
    forall p | p in Members(s, z)
      ensures p.zone == z && p in Places(s)
    {
      assert multiset(Members(s, z))[p] > 0;
    }
  }

  /** Every zone key has a non-empty list. */
  lemma MembersNonEmpty(s: seq<Scored>, z: string)
    requires z in ZoneOrder(s)
    ensures |Members(s, z)| >= 1
  {
    ZoneOrderKeys(s);
    MembersCount(s, z);
    var y :| y in s && y.place.zone == z;
    var i :| 0 <= i < |s| && s[i] == y;
    assert Places(s)[i] == y.place;
    assert multiset(Members(s, z))[y.place] > 0;
  }

  /** The zone lists laid end to end, in the order of `zones`. */
  function Grouped(s: seq<Scored>, zones: seq<string>): seq<Place>
  {
    if zones == [] then [] else Grouped(s, zones[..|zones| - 1]) + Members(s, zones[|zones| - 1])
  }

  lemma {:induction false} GroupedCount(s: seq<Scored>, zones: seq<string>, p: Place)
    requires NoDup(zones)
    ensures multiset(Grouped(s, zones))[p] == if p.zone in zones then multiset(Places(s))[p] else 0
  {
    if zones != [] {
      var init := zones[..|zones| - 1];
      GroupedCount(s, init, p);
      MembersCount(s, zones[|zones| - 1]);
      assert zones == init + [zones[|zones| - 1]];
    }
  }

  /** The zone lists partition the sorted catalog: together they hold every place exactly as often as it occurs. */
  lemma Partition(s: seq<Scored>)
    ensures multiset(Grouped(s, ZoneOrder(s))) == multiset(Places(s))
  {
    ZoneOrderKeys(s);
    forall p
      ensures multiset(Grouped(s, ZoneOrder(s)))[p] == multiset(Places(s))[p]
    {
      GroupedCount(s, ZoneOrder(s), p);
      if p in Places(s) {
        var i :| 0 <= i < |s| && Places(s)[i] == p;
        assert s[i] in s;
      }
    }
  }

  // ---------------------------------------------------------------- ranking zones

  /**
    The zone ranking: every zone once, sizes never increase, and zones of equal
    size keep their order of first appearance.
   */
  lemma RankZonesOrder(s: seq<Scored>)
    ensures var ranked := RankZones(s);
      && multiset(ranked) == multiset(ZoneOrder(s))
      && NoDup(ranked)
      && (forall i, j :: 0 <= i < j < |ranked| ==> |Members(s, ranked[i])| >= |Members(s, ranked[j])|)
      && (forall a, b :: |Members(s, a)| == |Members(s, b)| ==>
            (Before(ranked, a, b) <==> Before(ZoneOrder(s), a, b)))
  {
    var order := ZoneOrder(s);
    SortDescPermutes(order, ZoneSize(s));
    SortDescSorted(order, ZoneSize(s));
    ZoneOrderKeys(s);
    NoDupMultiset(order);
    MultisetNoDup(RankZones(s));
    forall a, b | |Members(s, a)| == |Members(s, b)|
      ensures Before(RankZones(s), a, b) <==> Before(order, a, b)
    {
      SortDescKeepsOrder(order, ZoneSize(s), a, b);
    }
  }

  // ---------------------------------------------------------------- the itinerary

  /** Day `n` is keyed "Day n"; keys of different days differ. */
  lemma PlanKeys(places: seq<Place>, days: int, interests: seq<string>)
    ensures var plan := Plan(places, days, interests);
      && (forall i :: 0 <= i < |plan| ==> plan[i].key == "Day " + NatToString(i + 1))
      && (forall i, j :: 0 <= i < j < |plan| ==> plan[i].key != plan[j].key)
  {
    var sorted := ByScore(places, interests);
    AllocateKeys(RankZones(sorted), sorted, days);
  }

  lemma AllocateKeys(ranked: seq<string>, s: seq<Scored>, days: int)
    ensures var plan := Allocate(ranked, s, days);
      && (forall i :: 0 <= i < |plan| ==> plan[i].key == "Day " + NatToString(i + 1))
      && (forall i, j :: 0 <= i < j < |plan| ==> plan[i].key != plan[j].key)
  {
    var plan := Allocate(ranked, s, days);
    forall i, j | 0 <= i < j < |plan|
      ensures plan[i].key != plan[j].key
    {
      DayLabelInjective(i + 1, j + 1);
    }
  }

  /** Different day numbers give different labels. */
  lemma DayLabelInjective(m: nat, n: nat)
    requires m != n
    ensures DayLabel(m) != DayLabel(n)
  {
    NatToStringInjective(m, n);
    assert DayLabel(m)[4..] == NatToString(m);
    assert DayLabel(n)[4..] == NatToString(n);
  }

  /** The itinerary has one day per zone, up to `days` days; none when `days <= 0`. */
  lemma PlanLength(places: seq<Place>, days: int, interests: seq<string>)
    ensures |Plan(places, days, interests)| ==
      if days <= 0 then 0
      else if days < |CatalogZones(places)| then days
      else |CatalogZones(places)|
  {
    var sorted := ByScore(places, interests);
    RankZonesOrder(sorted);
    ZoneOrderKeys(sorted);
    SortDescPermutes(ZoneOrder(sorted), ZoneSize(sorted));
    SortDescPermutes(ScoreAll(places, interests), ScoreKey);
    assert ZonesOf(sorted) == CatalogZones(places) by {
      forall z | z in ZonesOf(sorted)
        ensures z in CatalogZones(places)
      {
        var x :| x in sorted && x.place.zone == z;
        assert x in multiset(ScoreAll(places, interests));
      }
      forall z | z in CatalogZones(places)
        ensures z in ZonesOf(sorted)
      {
        var p :| p in places && p.zone == z;
        var i :| 0 <= i < |places| && places[i] == p;
        assert ScoreAll(places, interests)[i] in multiset(sorted);
      }
    }
    NoDupCard(ZoneOrder(sorted));
    assert (set z | z in ZoneOrder(sorted)) == ZonesOf(sorted);
  }

  /** The zone ranked `i`-th, for a plan's day `i + 1`. */
  function DayZone(places: seq<Place>, interests: seq<string>, i: nat): string
    requires i < |RankZones(ByScore(places, interests))|
  {
    RankZones(ByScore(places, interests))[i]
  }

  /** A zone's places in score order (catalog order among equal scores). */
  function ZoneList(places: seq<Place>, interests: seq<string>, z: string): seq<Place>
  {
    Members(ByScore(places, interests), z)
  }

  /**
    A day visits the first three places of its zone's list: Morning is always a
    place, Afternoon is the filler exactly when the zone has fewer than two
    places, Evening exactly when it has fewer than three.
   */
  lemma PlanDaySlots(places: seq<Place>, days: int, interests: seq<string>, i: nat)
    requires i < |Plan(places, days, interests)|
    ensures i < |RankZones(ByScore(places, interests))|
    ensures var plan := Plan(places, days, interests)[i].plan;
      var m := ZoneList(places, interests, DayZone(places, interests, i));
      && plan.zone == DayZone(places, interests, i)
      && |m| >= 1
      && (forall p :: p in m ==> p.zone == plan.zone && p in places)
      && plan.morning == m[0].name
      && (if |m| >= 2 then plan.afternoon == m[1].name else plan.afternoon == AfternoonFiller)
      && (if |m| >= 3 then plan.evening == m[2].name else plan.evening == EveningFiller)
  {
    var sorted := ByScore(places, interests);
    var z := RankZones(sorted)[i];
    RankZonesOrder(sorted);
    assert z in multiset(ZoneOrder(sorted));
    MembersNonEmpty(sorted, z);
    MembersBelong(sorted, z);
    ByScoreEntries(places, interests);
    forall p | p in Members(sorted, z)
      ensures p in places
    {
      var k :| 0 <= k < |sorted| && Places(sorted)[k] == p;
      assert sorted[k] in sorted;
    }
  }

  /** No zone is assigned to two days, and bigger zones come first; equal-sized zones in order of first appearance. */
  lemma PlanZoneOrder(places: seq<Place>, days: int, interests: seq<string>, i: nat, j: nat)
    requires i < j < |Plan(places, days, interests)|
    ensures var sorted := ByScore(places, interests);
      var zi := Plan(places, days, interests)[i].plan.zone;
      var zj := Plan(places, days, interests)[j].plan.zone;
      && zi != zj
      && |Members(sorted, zi)| >= |Members(sorted, zj)|
      && (|Members(sorted, zi)| == |Members(sorted, zj)| ==>
            forall q :: 0 <= q < |sorted| && sorted[q].place.zone == zj ==>
              exists p :: 0 <= p < q && sorted[p].place.zone == zi)
  {
    var sorted := ByScore(places, interests);
    var ranked := RankZones(sorted);
    var zi, zj := ranked[i], ranked[j];
    RankZonesOrder(sorted);
    if |Members(sorted, zi)| == |Members(sorted, zj)| {
      assert Before(ranked, zi, zj);
      var order := ZoneOrder(sorted);
      var a, b :| 0 <= a < b < |order| && order[a] == zi && order[b] == zj;
      forall q | 0 <= q < |sorted| && sorted[q].place.zone == zj
        ensures exists p :: 0 <= p < q && sorted[p].place.zone == zi
      {
        ZoneOrderFirstAppearance(sorted, a, b, q);
      }
    }
  }

  /** The places the itinerary visits, day after day. */
  function Visits(s: seq<Scored>, zones: seq<string>): seq<Place>
  {
    if zones == [] then [] else Visits(s, zones[..|zones| - 1]) + DayPlaces(Members(s, zones[|zones| - 1]))
  }

  lemma {:induction false} MembersNoDup(s: seq<Scored>, z: string)
    requires NoDup(Places(s))
    ensures NoDup(Members(s, z))
  {
    if s != [] {
      var init, x := s[..|s| - 1], s[|s| - 1];
      assert Places(init) == Places(s)[..|s| - 1];
      MembersNoDup(init, z);
      MembersBelong(init, z);
      assert x.place !in Places(init) by {
        forall k | 0 <= k < |init|
          ensures Places(init)[k] != x.place
        {
          assert Places(s)[k] == Places(init)[k];
        }
      }
    }
  }

  lemma {:induction false} VisitsNoDup(s: seq<Scored>, zones: seq<string>)
    requires NoDup(Places(s)) && NoDup(zones)
    ensures NoDup(Visits(s, zones))
    ensures forall p :: p in Visits(s, zones) ==> p.zone in zones && p in Places(s)
  {
    if zones != [] {
      var init, z := zones[..|zones| - 1], zones[|zones| - 1];
      VisitsNoDup(s, init);
      MembersNoDup(s, z);
      MembersBelong(s, z);
      var day := DayPlaces(Members(s, z));
      var before := Visits(s, init);
      assert forall p :: p in day ==> p in Members(s, z);
      assert z !in init by {
        forall k | 0 <= k < |init|
          ensures init[k] != z
        {
          assert zones[k] == init[k];
        }
      }
      forall a, b | 0 <= a < b < |before + day|
        ensures (before + day)[a] != (before + day)[b]
      {
        if b >= |before| && a < |before| {
          assert (before + day)[a] in before;
          assert (before + day)[b] in day;
        } else if a >= |before| {
          assert (before + day)[a] == day[a - |before|];
          assert (before + day)[b] == day[b - |before|];
        }
      }
      assert zones == init + [z];
    }
  }

  /** Distinct catalog names make the sorted list's places distinct. */
  lemma ByScoreNoDup(places: seq<Place>, interests: seq<string>)
    requires NoDup(Names(places))
    ensures NoDup(Places(ByScore(places, interests)))
  {
    var sorted := ByScore(places, interests);
    var scored := ScoreAll(places, interests);
    assert NoDup(scored) by {
      forall a, b | 0 <= a < b < |scored|
        ensures scored[a] != scored[b]
      {
        assert Names(places)[a] != Names(places)[b];
      }
    }
    SortDescPermutes(scored, ScoreKey);
    NoDupMultiset(scored);
    MultisetNoDup(sorted);
    forall a, b | 0 <= a < b < |sorted|
      ensures Places(sorted)[a] != Places(sorted)[b]
    {
      assert sorted[a] in multiset(scored) && sorted[b] in multiset(scored);
    }
  }

  /**
    No place is visited twice: with the catalog's names unique, the real
    (non-filler) slots of the whole itinerary name pairwise different places.
   */
  lemma PlanNoRepeat(places: seq<Place>, days: int, interests: seq<string>)
    requires NoDup(Names(places))
    ensures var sorted := ByScore(places, interests);
      var n := |Plan(places, days, interests)|;
      n <= |RankZones(sorted)| && NoDup(Names(Visits(sorted, RankZones(sorted)[..n])))
  {
    var sorted := ByScore(places, interests);
    var ranked := RankZones(sorted);
    var n := |Plan(places, days, interests)|;
    RankZonesOrder(sorted);
    ByScoreNoDup(places, interests);
    ByScoreEntries(places, interests);
    var zones := ranked[..n];
    assert NoDup(zones);
    VisitsNoDup(sorted, zones);
    var v := Visits(sorted, zones);
    forall a, b | 0 <= a < b < |v|
      ensures Names(v)[a] != Names(v)[b]
    {
      assert v[a] in Places(sorted) && v[b] in Places(sorted);
      var ia :| 0 <= ia < |sorted| && Places(sorted)[ia] == v[a];
      var ib :| 0 <= ib < |sorted| && Places(sorted)[ib] == v[b];
      assert sorted[ia] in sorted && sorted[ib] in sorted;
      var ca :| 0 <= ca < |places| && places[ca] == v[a];
      var cb :| 0 <= cb < |places| && places[cb] == v[b];
      assert ca != cb;
      assert Names(places)[ca] != Names(places)[cb];
    }
  }

  // ---------------------------------------------------------------- the planner's own example

  const Ayodhya := Place("Ayodhya Hills", "", ["Nature", "Adventure"], "South-West")
  const Bamni := Place("Bamni Falls", "", ["Nature", "Waterfall"], "South-West")
  const Charida := Place("Charida Village", "", ["Culture", "Art"], "South-West")
  const Panchakot := Place("Garh Panchakot", "", ["History", "Ruins"], "North-East")
  const Joychandi := Place("Joychandi Pahar", "", ["Adventure", "Hiking"], "North-East")
  const MockLocations := [Ayodhya, Bamni, Charida, Panchakot, Joychandi]

  const MockInterests := ["Nature", "History"]

  /** Places with a Nature or History tag score 6, the others 1. */
  lemma MockScores()
    ensures ScoreAll(MockLocations, MockInterests) == [
      Scored(Ayodhya, 6), Scored(Bamni, 6), Scored(Charida, 1), Scored(Panchakot, 6), Scored(Joychandi, 1)]
  {
    MockTags();
    ScoreOfTwo(Ayodhya, "Nature", "History");
    ScoreOfTwo(Bamni, "Nature", "History");
    ScoreOfTwo(Charida, "Nature", "History");
    ScoreOfTwo(Panchakot, "Nature", "History");
    ScoreOfTwo(Joychandi, "Nature", "History");
  }

  /** Which of the mock places carry Nature and History. */
  lemma MockTags()
    ensures HasTag(Ayodhya, "Nature") && !HasTag(Ayodhya, "History")
    ensures HasTag(Bamni, "Nature") && !HasTag(Bamni, "History")
    ensures !HasTag(Charida, "Nature") && !HasTag(Charida, "History")
    ensures !HasTag(Panchakot, "Nature") && HasTag(Panchakot, "History")
    ensures !HasTag(Joychandi, "Nature") && !HasTag(Joychandi, "History")
  {
    LowerStrIs("Nature", "nature");
    LowerStrIs("History", "history");
    MockLowerTags();
  }

  lemma MockLowerTags()
    ensures LowerAll(Ayodhya.tags) == ["nature", "adventure"]
    ensures LowerAll(Bamni.tags) == ["nature", "waterfall"]
    ensures LowerAll(Charida.tags) == ["culture", "art"]
    ensures LowerAll(Panchakot.tags) == ["history", "ruins"]
    ensures LowerAll(Joychandi.tags) == ["adventure", "hiking"]
  {
    LowerTagsAyodhya();
    LowerTagsBamni();
    LowerTagsCharida();
    LowerTagsPanchakot();
    LowerTagsJoychandi();
  }

  lemma LowerTagsAyodhya()
    ensures LowerAll(Ayodhya.tags) == ["nature", "adventure"]
  {
    LowerStrIs("Nature", "nature");
    LowerStrIs("Adventure", "adventure");
  }

  lemma LowerTagsBamni()
    ensures LowerAll(Bamni.tags) == ["nature", "waterfall"]
  {
    LowerStrIs("Nature", "nature");
    LowerStrIs("Waterfall", "waterfall");
  }

  lemma LowerTagsCharida()
    ensures LowerAll(Charida.tags) == ["culture", "art"]
  {
    LowerStrIs("Culture", "culture");
    LowerStrIs("Art", "art");
  }

  lemma LowerTagsPanchakot()
    ensures LowerAll(Panchakot.tags) == ["history", "ruins"]
  {
    LowerStrIs("History", "history");
    LowerStrIs("Ruins", "ruins");
  }

  lemma LowerTagsJoychandi()
    ensures LowerAll(Joychandi.tags) == ["adventure", "hiking"]
  {
    LowerStrIs("Adventure", "adventure");
    LowerStrIs("Hiking", "hiking");
  }

  /** The score for two interests. */
  lemma ScoreOfTwo(p: Place, i1: string, i2: string)
    ensures Score(p, [i1, i2]) == 1 + 5 * ((if HasTag(p, i1) then 1 else 0) + (if HasTag(p, i2) then 1 else 0))
  {
    assert [i1, i2][..1] == [i1];
    assert [i1][..0] == [];
    assert MatchCount([i1], p) == if HasTag(p, i1) then 1 else 0;
    assert MatchCount([i1, i2], p) == MatchCount([i1], p) + (if HasTag(p, i2) then 1 else 0);
  }

  /** The last three scored places sorted: Garh Panchakot overtakes Charida Village. */
  lemma MockSortTail()
    ensures SortDesc([Scored(Charida, 1), Scored(Panchakot, 6), Scored(Joychandi, 1)], ScoreKey)
         == [Scored(Panchakot, 6), Scored(Charida, 1), Scored(Joychandi, 1)]
  {
    var c, g, j := Scored(Charida, 1), Scored(Panchakot, 6), Scored(Joychandi, 1);
    assert [c, g, j][1..] == [g, j];
    assert [g, j][1..] == [j];
    assert [j][1..] == [];
    assert SortDesc([j], ScoreKey) == [j];
    assert SortDesc([g, j], ScoreKey) == [g, j];
    assert Insert(c, [j], ScoreKey) == [c, j];
  }

  /** The stable sort moves Garh Panchakot ahead of the two places scoring 1. */
  lemma MockByScore()
    ensures ByScore(MockLocations, MockInterests) == [
      Scored(Ayodhya, 6), Scored(Bamni, 6), Scored(Panchakot, 6), Scored(Charida, 1), Scored(Joychandi, 1)]
  {
    MockScores();
    MockSortTail();
    var a, b, c, g, j := Scored(Ayodhya, 6), Scored(Bamni, 6), Scored(Charida, 1), Scored(Panchakot, 6), Scored(Joychandi, 1);
    assert [a, b, c, g, j][1..] == [b, c, g, j];
    assert [b, c, g, j][1..] == [c, g, j];
    assert SortDesc([b, c, g, j], ScoreKey) == [b, g, c, j];
    assert SortDesc([a, b, c, g, j], ScoreKey) == [a, b, g, c, j];
  }

  const MockSorted := [Scored(Ayodhya, 6), Scored(Bamni, 6), Scored(Panchakot, 6), Scored(Charida, 1), Scored(Joychandi, 1)]

  lemma MockPrefixes()
    ensures MockSorted[..5] == MockSorted
    ensures MockSorted[..5][..4] == MockSorted[..4]
    ensures MockSorted[..4][..3] == MockSorted[..3]
    ensures MockSorted[..3][..2] == MockSorted[..2]
    ensures MockSorted[..2][..1] == MockSorted[..1]
    ensures MockSorted[..1][..0] == []
  {
  }

  lemma MockZoneOrder()
    ensures ZoneOrder(MockSorted) == ["South-West", "North-East"]
  {
    var s := MockSorted;
    MockPrefixes();
    assert ZoneOrder(s[..1]) == ["South-West"];
    assert ZoneOrder(s[..2]) == ["South-West"];
    assert ZoneOrder(s[..3]) == ["South-West", "North-East"];
    assert ZoneOrder(s[..4]) == ["South-West", "North-East"];
  }

  lemma MockSouthWest()
    ensures Members(MockSorted, "South-West") == [Ayodhya, Bamni, Charida]
  {
    var s := MockSorted;
    MockPrefixes();
    assert Members(s[..1], "South-West") == [Ayodhya];
    assert Members(s[..2], "South-West") == [Ayodhya, Bamni];
    assert Members(s[..3], "South-West") == [Ayodhya, Bamni];
    assert Members(s[..4], "South-West") == [Ayodhya, Bamni, Charida];
  }

  lemma MockNorthEast()
    ensures Members(MockSorted, "North-East") == [Panchakot, Joychandi]
  {
    var s := MockSorted;
    MockPrefixes();
    assert Members(s[..1], "North-East") == [];
    assert Members(s[..2], "North-East") == [];
    assert Members(s[..3], "North-East") == [Panchakot];
    assert Members(s[..4], "North-East") == [Panchakot];
  }

  /** South-West appears first and holds three places; North-East holds two. */
  lemma MockZones()
    ensures ZoneOrder(MockSorted) == ["South-West", "North-East"]
    ensures Members(MockSorted, "South-West") == [Ayodhya, Bamni, Charida]
    ensures Members(MockSorted, "North-East") == [Panchakot, Joychandi]
  {
    MockZoneOrder();
    MockSouthWest();
    MockNorthEast();
  }

  /** The larger South-West zone is ranked first. */
  lemma MockRanking()
    ensures RankZones(MockSorted) == ["South-West", "North-East"]
  {
    MockZones();
    var zones := ["South-West", "North-East"];
    assert zones[1..] == ["North-East"];
    assert zones[1..][1..] == [];
    assert ZoneSize(MockSorted)("North-East") == 2;
    assert ZoneSize(MockSorted)("South-West") == 3;
  }

  lemma MockLabels()
    ensures DayLabel(1) == "Day 1" && DayLabel(2) == "Day 2"
  {
    assert NatToString(1) == "1";
    assert NatToString(2) == "2";
  }

  /** The two days the sample ranking fills. */
  lemma MockAllocate()
    ensures Allocate(["South-West", "North-East"], MockSorted, 2) == [
      Day("Day 1", DayPlan("South-West", "Ayodhya Hills", "Bamni Falls", "Charida Village")),
      Day("Day 2", DayPlan("North-East", "Garh Panchakot", "Joychandi Pahar", "Sunset View"))]
  {
    MockSouthWest();
    MockNorthEast();
    MockLabels();
    var plan := Allocate(["South-West", "North-East"], MockSorted, 2);
    assert |plan| == 2;
    assert plan[0] == Day(DayLabel(1), PlanDay("South-West", [Ayodhya, Bamni, Charida]));
    assert plan[1] == Day(DayLabel(2), PlanDay("North-East", [Panchakot, Joychandi]));
    assert PlanDay("South-West", [Ayodhya, Bamni, Charida])
        == DayPlan("South-West", "Ayodhya Hills", "Bamni Falls", "Charida Village");
    assert PlanDay("North-East", [Panchakot, Joychandi])
        == DayPlan("North-East", "Garh Panchakot", "Joychandi Pahar", "Sunset View");
  }

  /** Two days for Nature and History: South-West (three places) first, then North-East with an evening filler. */
  lemma MockTwoDayPlan()
    ensures Plan(MockLocations, 2, MockInterests) == [
      Day("Day 1", DayPlan("South-West", "Ayodhya Hills", "Bamni Falls", "Charida Village")),
      Day("Day 2", DayPlan("North-East", "Garh Panchakot", "Joychandi Pahar", "Sunset View"))]
  {
    MockByScore();
    MockRanking();
    MockAllocate();
  }
}
