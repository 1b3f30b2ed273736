/**
  The earlier `PuruliaBrain.process_query` (src/pipeline.py), which routes
  with fixed rules instead of the keyword table and the day pattern:
  recommendations look for "adventure", then "history", in the lower-cased
  query and otherwise suggest two fixed places; the trip branch plans two days
  when the query literally contains "2 day" or "two day" (case matters) and
  one day otherwise, for the interests "nature" and "history", or only
  "adventure" when the query literally contains that word.

  The history branch is the same as in the current version (`HistoryAnswer`).
 */
module LegacyPipeline {
  import opened Text
  import opened Catalog
  import opened Routing
  import opened TripPlanning
  import Extraction
  import ExtractionExamples
  import PlannerProperties

  /** The suggestions when the query names neither interest. */
  const DefaultPicks: seq<string> := ["Ayodhya Hills", "Charida Village"]

  /** The interests the trip branch plans with unless the query says "adventure". */
  const LegacyDefaultInterests: seq<string> := ["nature", "history"]

  /** The number of days: two or one, found by exact (case-sensitive) substring search. */
  function LegacyDays(text: string): (days: int)
    ensures days == 1 || days == 2
  {
    if Contains(text, "2 day") || Contains(text, "two day") then 2 else 1
  }

  /** The interests: only "adventure" when the query contains it as written, the two defaults otherwise. */
  function LegacyInterests(text: string): (interests: seq<string>)
    ensures interests == ["adventure"] || interests == LegacyDefaultInterests
  {
    if Contains(text, "adventure") then ["adventure"] else LegacyDefaultInterests
  }

  /** The recommendation branch: "adventure" wins over "history"; neither gives the fixed suggestions. */
  function LegacyRecommend(places: seq<Place>, text: string): seq<string>
  {
    var t := LowerStr(text);
    if Contains(t, "adventure") then Tagged(places, "Adventure")
    else if Contains(t, "history") then Tagged(places, "History")
    else DefaultPicks
  }

  /** `process_query` of the earlier version, with the classified intent and the search hits as inputs. */
  function LegacyProcessQuery(places: seq<Place>, intent: Intent, text: string, hits: seq<SearchHit>): (r: Response)
    ensures intent == HistoryCulture ==> r.Info? || r.Error?
    ensures intent == Recommendation ==> r.Recommendations?
    ensures intent == TripPlanner ==> r.PlanResponse?
  {
    match intent
    case HistoryCulture => HistoryAnswer(hits)
    case Recommendation => Recommendations(LegacyRecommend(places, text))
    case TripPlanner => PlanResponse(Plan(places, LegacyDays(text), LegacyInterests(text)))
  }

  /** Adding words to a query never shortens the trip. */
  lemma LegacyDaysGrow(a: string, b: string)
    ensures LegacyDays(a) <= LegacyDays(a + b)
    ensures LegacyDays(b) <= LegacyDays(a + b)
  {
    if Contains(a, "2 day") { ContainsExtend(a, b, "2 day"); }
    if Contains(a, "two day") { ContainsExtend(a, b, "two day"); }
    if Contains(b, "2 day") { ContainsExtend(b, a, "2 day"); }
    if Contains(b, "two day") { ContainsExtend(b, a, "two day"); }
  }

  /** The recommendations: the names tagged with the first interest the lower-cased query mentions, else the fixed pair. */
  lemma LegacyRecommendMembers(places: seq<Place>, text: string)
    ensures var t := LowerStr(text); var r := LegacyRecommend(places, text);
      && (Contains(t, "adventure") ==>
            forall x :: x in r <==> exists p :: p in places && HasTag(p, "Adventure") && p.name == x)
      && (!Contains(t, "adventure") && Contains(t, "history") ==>
            forall x :: x in r <==> exists p :: p in places && HasTag(p, "History") && p.name == x)
      && (!Contains(t, "adventure") && !Contains(t, "history") ==> r == DefaultPicks)
  {
    TaggedMembers(places, "Adventure");
    TaggedMembers(places, "History");
  }

  /** The recommendation branch ignores case: lower-casing the query first changes nothing. */
  lemma LegacyRecommendIgnoresCase(places: seq<Place>, text: string)
    ensures LegacyRecommend(places, LowerStr(text)) == LegacyRecommend(places, text)
  {
    LowerStrIdempotent(text);
  }

  /** The trip branch plans at most two days. */
  lemma LegacyTripLength(places: seq<Place>, text: string, hits: seq<SearchHit>)
    ensures |LegacyProcessQuery(places, TripPlanner, text, hits).itinerary| <= 2
  {
    PlannerProperties.PlanLength(places, LegacyDays(text), LegacyInterests(text));
  }

  /**
    When the query mentions no keyword of the current table (among them
    "adventure"), and both versions read the same number of days from it,
    the earlier trip branch plans exactly what the current one does: its
    lower-case interests match the same tags as the current default
    `["Nature", "History"]`.
   */
  lemma TripResponsesAgree(places: seq<Place>, text: string, hits: seq<SearchHit>)
    requires forall k :: 0 <= k < |Extraction.Keywords| ==> !Contains(LowerStr(text), Extraction.Keywords[k].0)
    requires Extraction.ExtractDays(text) == LegacyDays(text)
    ensures LegacyProcessQuery(places, TripPlanner, text, hits)
         == PlanResponse(Plan(places, Extraction.ExtractDays(text), Extraction.Interests(text)))
  {
    NoKeywordNoAdventure(text);
    Extraction.InterestsDefault(text);
    DefaultsPlanAlike(places, LegacyDays(text));
  }

  /** "adventure" is a keyword of the current table, so a query without keywords does not contain it as written. */
  lemma NoKeywordNoAdventure(text: string)
    requires forall k :: 0 <= k < |Extraction.Keywords| ==> !Contains(LowerStr(text), Extraction.Keywords[k].0)
    ensures LegacyInterests(text) == LegacyDefaultInterests
  {
    var word := Extraction.Keywords[12].0;
    assert word == "adventure";
    assert !Contains(LowerStr(text), word);
    LowerStrIs(word, word);
    ContainsLower(text, word);
  }

  /** `["nature", "history"]` and `["Nature", "History"]` plan the same trip. */
  lemma DefaultsPlanAlike(places: seq<Place>, days: int)
    ensures Plan(places, days, LegacyDefaultInterests) == Plan(places, days, Extraction.DefaultInterests)
  {
    LowerStrIs("Nature", "nature");
    LowerStrIs("History", "history");
    LowerStrIs("nature", "nature");
    LowerStrIs("history", "history");
    PlannerProperties.PlanIgnoresInterestCase(places, days, LegacyDefaultInterests, Extraction.DefaultInterests);
  }

  // ---------------------------------------------------------------- examples

  /** "12 days" contains "2 day": two days. */
  lemma TwelveDaysReadAsTwo()
    ensures LegacyDays("12 days") == 2
  {
    assert OccursAt("12 days", "2 day", 1);
  }

  /** Case matters: "2 Days" is a one-day trip. */
  lemma CapitalDaysReadAsOne()
    ensures LegacyDays("2 Days") == 1
  {
    AbsentChar("2 Days", "2 day", 2);
    AbsentChar("2 Days", "two day", 1);
  }

  /** "two days" plans two days. */
  lemma SpelledTwoDays()
    ensures LegacyDays("two days") == 2
  {
    assert OccursAt("two days", "two day", 0);
  }

  /** The current version reads "3 days" as three days; the earlier one plans one. */
  lemma ThreeDaysDisagree()
    ensures LegacyDays("3 days") == 1
    ensures Extraction.ExtractDays("3 days") == 3
  {
    AbsentChar("3 days", "2 day", 0);
    AbsentChar("3 days", "two day", 1);
    ExtractionExamples.ThreeDays();
  }

  /** "Adventure" with a capital letter does not switch the trip's interests. */
  lemma CapitalAdventureKeepsDefaults()
    ensures LegacyInterests("Adventure") == LegacyDefaultInterests
  {
    AbsentChar("Adventure", "adventure", 0);
  }

  /** "hi" names neither interest, so it gets the fixed suggestions. */
  lemma NoInterestGivesDefaults(places: seq<Place>)
    ensures LegacyRecommend(places, "hi") == DefaultPicks
  {
    LowerStrIs("hi", "hi");
    AbsentChar("hi", "adventure", 0);
    AbsentChar("hi", "history", 2);
  }

  /** Which sample places carry "Adventure". */
  lemma MockAdventureTags()
    ensures HasTag(PlannerProperties.Ayodhya, "Adventure") && HasTag(PlannerProperties.Joychandi, "Adventure")
    ensures !HasTag(PlannerProperties.Bamni, "Adventure") && !HasTag(PlannerProperties.Charida, "Adventure")
    ensures !HasTag(PlannerProperties.Panchakot, "Adventure")
  {
    LowerStrIs("Adventure", "adventure");
    PlannerProperties.LowerTagsAyodhya();
    PlannerProperties.LowerTagsBamni();
    PlannerProperties.LowerTagsCharida();
    PlannerProperties.LowerTagsPanchakot();
    PlannerProperties.LowerTagsJoychandi();
  }

  /** "Adventure" in the sample catalog: the hills and the hike. */
  lemma MockAdventure()
    ensures LegacyRecommend(PlannerProperties.MockLocations, "Adventure") == ["Ayodhya Hills", "Joychandi Pahar"]
  {
    LowerStrIs("Adventure", "adventure");
    assert OccursAt("adventure", "adventure", 0);
    MockAdventureTags();
    var m := PlannerProperties.MockLocations;
    assert m[..1][..0] == [];
    assert m[..2][..1] == m[..1];
    assert m[..3][..2] == m[..2];
    assert m[..4][..3] == m[..3];
    assert m[..5][..4] == m[..4];
    assert m[..5] == m;
    assert Tagged(m[..1], "Adventure") == ["Ayodhya Hills"];
    assert Tagged(m[..2], "Adventure") == ["Ayodhya Hills"];
    assert Tagged(m[..3], "Adventure") == ["Ayodhya Hills"];
    assert Tagged(m[..4], "Adventure") == ["Ayodhya Hills"];
  }
}
