/**
  What both versions of `PuruliaBrain.process_query` share: the three intents,
  the choice among them (`classify_intent` picks the intent whose description
  is most similar to the query, via `np.argmax`), the search hits the history
  branch reads, and the response records.
 */
module Routing {
  import TripPlanning

  /** The keys of `self.intents`, in their dictionary order. */
  datatype Intent = HistoryCulture | Recommendation | TripPlanner

  const IntentNames: seq<Intent> := [HistoryCulture, Recommendation, TripPlanner]

  /** One result of the similarity search: the matched record's `name` and `description`. */
  datatype SearchHit = SearchHit(name: string, description: string)

  /** The response dictionaries. */
  datatype Response =
    | Info(subject: string, text: string)              // {"type": "info", "subject": ..., "text": ...}
    | Error(message: string)                           // {"error": ...}
    | Recommendations(places: seq<string>)             // {"type": "recommendation", "places": ...}
    | PlanResponse(itinerary: seq<TripPlanning.Day>)   // {"type": "plan", "itinerary": ...}

  const NoHistory := "No relevant history found."

  /** `np.argmax(scores)`: the first index holding the largest score. */
  function ArgMax(scores: seq<real>): (k: nat)
    requires |scores| > 0
    ensures k < |scores|
    ensures forall j :: 0 <= j < |scores| ==> scores[j] <= scores[k]
    ensures forall j :: 0 <= j < k ==> scores[j] < scores[k]
  {
    if |scores| == 1 then 0
    else
      var k := ArgMax(scores[..|scores| - 1]);
      if scores[|scores| - 1] > scores[k] then |scores| - 1 else k
  }

  /** `classify_intent`, given the similarity of the query to each intent's description. */
  function Classify(scores: seq<real>): (intent: Intent)
    requires |scores| == |IntentNames|
    ensures exists k :: (0 <= k < |scores| && IntentNames[k] == intent
                         && (forall j :: 0 <= j < |scores| ==> scores[j] <= scores[k])
                         && (forall j :: 0 <= j < k ==> scores[j] < scores[k]))
  {
    IntentNames[ArgMax(scores)]
  }

  /** On a tie the earlier intent wins: equal scores for all three choose history and culture. */
  lemma ClassifyTie(s: real)
    ensures Classify([s, s, s]) == HistoryCulture
  {
    var k := ArgMax([s, s, s]);
    assert [s, s, s][k] == s;
    assert k == 0 by {
      assert [s, s, s][0] == s;
    }
  }

  /** The history branch: the best hit's name and description, or the fixed error. */
  function HistoryAnswer(hits: seq<SearchHit>): (r: Response)
    ensures r.Info? <==> hits != []
    ensures r.Info? ==> r.subject == hits[0].name && r.text == hits[0].description
    ensures r.Error? ==> r.message == NoHistory
    ensures r.Info? || r.Error?
  {
    if hits != [] then Info(hits[0].name, hits[0].description) else Error(NoHistory)
  }
}
