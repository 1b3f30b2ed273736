/**
  `PuruliaBrain.process_query`: dispatch on the classified intent.  The
  history branch answers from the best search hit; the recommendation branch
  extracts interests, collects the catalog names tagged with any of them and
  removes duplicates; the trip branch extracts the number of days and the
  interests and runs the itinerary planner over the whole catalog.

  The intent and the search hits are inputs: they come from the sentence
  encoder and the similarity index.
 */
module Pipeline {
  import opened Seqs
  import opened Catalog
  import opened Extraction
  import opened Routing
  import TripPlanning
  import Wrappers
  import ExtractionExamples
  import PlannerProperties

  /** The names found for each interest, one `filter_by_tag` result after another. */
  function Found(places: seq<Place>, interests: seq<string>): seq<string>
  {
    if interests == [] then []
    else Found(places, interests[..|interests| - 1]) + Tagged(places, interests[|interests| - 1])
  }

  /** `x` names a catalog place carrying one of the interests. */
  ghost predicate Recommended(places: seq<Place>, interests: seq<string>, x: string)
  {
    exists p, k :: p in places && 0 <= k < |interests| && HasTag(p, interests[k]) && p.name == x
  }

  /** A name is found exactly when it names a place carrying one of the interests. */
  lemma {:induction false} FoundMembers(places: seq<Place>, interests: seq<string>)
    ensures forall x :: x in Found(places, interests) <==> Recommended(places, interests, x)
  {
    if interests != [] {
      var init, last := interests[..|interests| - 1], interests[|interests| - 1];
      FoundMembers(places, init);
      TaggedMembers(places, last);
      forall x
        ensures Recommended(places, interests, x) <==> Recommended(places, init, x) || x in Tagged(places, last)
      {
        if Recommended(places, init, x) {
          var p, k :| p in places && 0 <= k < |init| && HasTag(p, init[k]) && p.name == x;
          assert interests[k] == init[k];
        }
        if Recommended(places, interests, x) {
          var p, k :| p in places && 0 <= k < |interests| && HasTag(p, interests[k]) && p.name == x;
          if k < |init| {
            assert interests[k] == init[k];
          }
        }
      }
    }
  }

  /** The recommendation set does not depend on the order or repetition of the interests. */
  lemma RecommendedSameInterests(places: seq<Place>, a: seq<string>, b: seq<string>, x: string)
    requires forall i :: i in a <==> i in b
    ensures Recommended(places, a, x) <==> Recommended(places, b, x)
  {
    if Recommended(places, a, x) {
      var p, k :| p in places && 0 <= k < |a| && HasTag(p, a[k]) && p.name == x;
      assert a[k] in b;
      var k' :| 0 <= k' < |b| && b[k'] == a[k];
    }
    if Recommended(places, b, x) {
      var p, k :| p in places && 0 <= k < |b| && HasTag(p, b[k]) && p.name == x;
      assert b[k] in a;
      var k' :| 0 <= k' < |a| && a[k'] == b[k];
    }
  }

  /** The distinct entries of `s`: one of the orders `list(set(s))` may produce. */
  function Distinct(s: seq<string>): (r: seq<string>)
    ensures NoDup(r)
    ensures forall x :: x in r <==> x in s
  {
    if s == [] then []
    else
      var r := Distinct(s[..|s| - 1]);
      assert s == s[..|s| - 1] + [s[|s| - 1]];
      if s[|s| - 1] in r then r else r + [s[|s| - 1]]
  }

  /** "0 day" reaches the planner as zero days, and zero days plan an empty itinerary. */
  lemma ZeroDayPlansNothing(places: seq<Place>)
    ensures TripPlanning.Plan(places, ExtractDays("0 day"), Interests("0 day")) == []
  {
    ExtractionExamples.ZeroDay();
    PlannerProperties.PlanLength(places, 0, Interests("0 day"));
  }

  class Brain {
    const data: TourismData

    constructor (data: TourismData)
      ensures this.data == data
    {
      this.data := data;
    }

    /** The recommendation branch: every name tagged with one of the interests, once. */
    method Recommend(interests: seq<string>) returns (places: seq<string>)
      ensures NoDup(places)
      ensures forall x :: x in places <==> Recommended(data.data, interests, x)
    {
      var found: seq<string> := [];
      for i := 0 to |interests|
        invariant found == Found(data.data, interests[..i])
      {
        var names := data.FilterByTag(interests[i]);
        found := found + names;
        assert interests[..i + 1][..i] == interests[..i];
      }
      assert interests[..|interests|] == interests;
      FoundMembers(data.data, interests);
      places := Distinct(found);
    }

    /** `process_query`, with the classified intent and the search hits as inputs. */
    method ProcessQuery(intent: Intent, text: string, hits: seq<SearchHit>) returns (response: Response)
      ensures intent == HistoryCulture ==> response == HistoryAnswer(hits)
      ensures intent == Recommendation ==>
        && response.Recommendations?
        && NoDup(response.places)
        && forall x :: x in response.places <==> Recommended(data.data, Interests(text), x)
      ensures intent == TripPlanner ==>
        response == PlanResponse(TripPlanning.Plan(data.data, ExtractDays(text), Interests(text)))
    {
      match intent {
        case HistoryCulture =>
          response := HistoryAnswer(hits);
        case Recommendation =>
          var interests := ExtractInterests(text);
          var places := Recommend(interests);
          response := Recommendations(places);
        case TripPlanner =>
          var locations := data.GetAllLocations();
          var planner := new TripPlanning.TripPlanner(locations);
          var days := ExtractDays(text);
          var interests := ExtractInterests(text);
          var itinerary := planner.PlanTrip(days, Wrappers.Some(interests));
          response := PlanResponse(itinerary);
      }
    }
  }
}
