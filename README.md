# Purulia tourism assistant: query pipeline and itinerary planner

This project models the query-handling core of the Purulia tourism assistant in Dafny and proves what it does:

- **Catalog** (`TourismDataHandler`). The list of places with lookup by interest tag (`filter_by_tag`), the raw list (`get_all_locations`) and the "name: description" corpus (`get_text_corpus`).
- **Itinerary planner** (`TripPlanner.plan_trip`). It works in four stages:
  1. Score each place against the interests: 1, plus 5 per interest found among its tags, ignoring case.
  2. Sort stably by descending score.
  3. Group by zone, keeping the sorted order inside each zone.
  4. Rank the zones by size, largest first, stably. The first `days` zones become "Day 1", "Day 2", and so on. Each day fills its morning, afternoon and evening slots from the zone's first three places, or with the fillers "Relax", "Local Exploration" and "Sunset View".

  `TripPlanner` is a class whose loops are proved to compute the specification function `Plan`. `PlannerProperties` proves what the planner promises: the score bounds, that the sort is a stable permutation, that the zones partition the places, the ranking order, the day count `min(days, zones)`, the slot contents, that no place is visited twice, and the source's own two-day example.
- **Constraint extraction** (`PuruliaBrain.extract_days`, `extract_interests`).
  - `ExtractDays` is a scan. It is proved to return the group of the leftmost match of `(\d+)\s*-?\s*day` in the lower-cased text, as the regular expression defines it, and 1 when nothing matches.
  - `ExtractInterests` walks the keyword table in dictionary order.
  - The three examples in `extract_days`' docstring ("3 days", "2 day", "5-day") are proved, along with further day and interest examples and the source's test query.
- **Routing** (`PuruliaBrain.process_query`). The current version (`oindrieel/src/pipeline.py`) is a class `Brain`. It answers history questions from the best search hit. Recommendations are the names tagged with any extracted interest, without duplicates. Trips are planned over the whole catalog with the extracted days and interests. The classified intent and the search hits are inputs. `classify_intent`'s `argmax` tie-break is modelled on the similarity scores.
- **The earlier router** (`src/pipeline.py`) has fixed rules:
  - Recommendations go to "adventure", then "history", otherwise two fixed places.
  - A trip has two days only when the query contains exactly "2 day" or "two day".
  - The trip's interests are "nature" and "history", or "adventure" alone when the query contains that word.

  It is modelled as pure functions. It is compared with the current version: for example, "3 days" is one day there and three here. Both versions plan the same trip when the query has no keywords and both versions read the same number of days from it.

Files: `wrappers.dfy`, `text.dfy` and `seqs.dfy` hold primitives. `catalog.dfy`, `stable_sort.dfy`, `trip_planner.dfy` and `planner_properties.dfy` cover the catalog and the planner. `extraction.dfy` and `extraction_examples.dfy` cover extraction. `routing.dfy`, `pipeline.dfy` and `legacy_pipeline.dfy` cover routing.

## Model

| member | source | states |
|---|---|---|
| Catalog.TourismData.constructor | oindrieel/src/data_loader.py:6-10 | the handler holds the loaded list of records |
| Catalog.TourismData.GetAllLocations | oindrieel/src/data_loader.py:21-23 | returns the loaded records, unchanged |
| Catalog.TourismData.FilterByTag | oindrieel/src/data_loader.py:25-34 | the loop's result is `Tagged(data, tag)`: the names of the places carrying the tag, in catalog order |
| Catalog.TaggedMembers | oindrieel/src/data_loader.py:25-34 | a name is returned exactly when some place with that name carries the tag, ignoring case |
| Catalog.TaggedSubsequence | oindrieel/src/data_loader.py:30-34 | the result is a subsequence of the catalog's names, so it is in catalog order and no longer than the catalog |
| Catalog.TaggedIgnoresCase | oindrieel/src/data_loader.py:32 | two tags that are equal after `lower()` select the same names |
| Catalog.TaggedAbsent | oindrieel/src/data_loader.py:25-34 | a tag no place carries gives the empty list, not an error |
| Catalog.TaggedHistoryAnyCase | oindrieel/src/data_loader.py:32 | "history" and "HISTORY" select the same places |
| Catalog.TourismData.GetTextCorpus | oindrieel/src/data_loader.py:36-45 | one entry per place, index-aligned with the catalog, each `CorpusEntry` of its place |
| Catalog.CorpusEntry | oindrieel/src/data_loader.py:43 | the entry starts with the name, continues with ": " and the description, and has exactly that length |
| Text.LowerStrIdempotent | src/pipeline.py:71-73 | lower-casing an already lower-cased text changes nothing |
| Text.NatToStringRoundTrip | oindrieel/src/trip_planner.py:59 | the decimal day number in a label parses back to the number |
| Text.NatToStringInjective | oindrieel/src/trip_planner.py:59 | different day numbers print differently |
| StableSort.SortDescPermutes | oindrieel/src/trip_planner.py:37 | sorting returns a permutation of its input |
| StableSort.SortDescSorted | oindrieel/src/trip_planner.py:37 | the keys of the result never increase |
| StableSort.SortDescStable | oindrieel/src/trip_planner.py:37 | for every key, the elements with that key appear in their input order |
| StableSort.SortDescKeepsOrder | oindrieel/src/trip_planner.py:37 | two elements with equal keys are in the same relative order before and after sorting (both directions) |
| StableSort.InsertPermutes | oindrieel/src/trip_planner.py:37 | inserting one element adds exactly that element |
| StableSort.InsertSorted | oindrieel/src/trip_planner.py:37 | inserting into a sorted list keeps it sorted |
| StableSort.KeyClassMembers | oindrieel/src/trip_planner.py:37 | the key class holds exactly the input elements with that key |
| TripPlanning.TripPlanner.constructor | oindrieel/src/trip_planner.py:5-9 | the planner holds the list it is given |
| TripPlanning.TripPlanner.ScorePlace | oindrieel/src/trip_planner.py:21-29 | the score is 1 plus 5 for every interest whose lower-cased form is among the place's lower-cased tags |
| TripPlanning.TripPlanner.ScorePlaces | oindrieel/src/trip_planner.py:19-34 | every place with its score, in catalog order (`ScoreAll`) |
| TripPlanning.TripPlanner.GroupByZone | oindrieel/src/trip_planner.py:41-44 | the keys are the zones in order of first appearance; each zone maps to its places in sorted order (`ZoneOrder`, `Members`) |
| TripPlanning.TripPlanner.AllocateDays | oindrieel/src/trip_planner.py:47-65 | the loop's result is `Allocate`: day `i + 1` takes the `i`-th ranked zone, stopping after `days` days or when the zones run out |
| TripPlanning.TripPlanner.PlanTrip | oindrieel/src/trip_planner.py:11-67 | the itinerary is `Plan(locations, days, interests)`, with `None` read as no interests |
| TripPlanning.SortDescSameKeys | oindrieel/src/trip_planner.py:48 | ranking by the map's list lengths gives the same order as ranking by zone sizes |
| TripPlanning.MembersAbsent | oindrieel/src/trip_planner.py:41-44 | a zone no place belongs to has no members |
| PlannerProperties.ScoreBounds | oindrieel/src/trip_planner.py:21-29 | each score is between 1 and 1 + 5 × the number of interests, and is 1 more than a multiple of 5 |
| PlannerProperties.MatchCountBound | oindrieel/src/trip_planner.py:27-29 | no more matches than interests |
| PlannerProperties.ScoreBase | oindrieel/src/trip_planner.py:12-29 | a place without tags, or a request without interests, scores exactly 1 |
| PlannerProperties.MatchCountAppend | oindrieel/src/trip_planner.py:27-29 | matches add up over concatenated interest lists |
| PlannerProperties.RepeatedInterestCountsTwice | oindrieel/src/trip_planner.py:27-29 | an interest listed twice adds 5 twice (the loop does not deduplicate) |
| PlannerProperties.MatchCountIgnoresCase | oindrieel/src/trip_planner.py:26-28 | interest lists equal after `lower()` give the same match counts |
| PlannerProperties.PlanIgnoresInterestCase | oindrieel/src/trip_planner.py:26-28 | interest lists equal after `lower()` give the same itinerary |
| PlannerProperties.ByScoreEntries | oindrieel/src/trip_planner.py:19-37 | every sorted entry is a catalog place carrying its own score |
| PlannerProperties.ByScoreOrder | oindrieel/src/trip_planner.py:36-37 | the sorted list is a permutation of the scored list with non-increasing scores; two entries with equal scores keep their catalog order (both directions) |
| PlannerProperties.ZoneOrderKeys | oindrieel/src/trip_planner.py:41-44 | the zone keys are distinct and are exactly the zones of the sorted places |
| PlannerProperties.ZoneOrderFirstAppearance | oindrieel/src/trip_planner.py:41-44 | if zone a's key precedes zone b's, some place of a comes before any given place of b |
| PlannerProperties.MembersCount | oindrieel/src/trip_planner.py:41-44 | a zone's list holds every sorted place of that zone, with multiplicity, and nothing else |
| PlannerProperties.MembersSubsequence | oindrieel/src/trip_planner.py:41-44 | a zone's list keeps the sorted order |
| PlannerProperties.MembersBelong | oindrieel/src/trip_planner.py:41-44 | every place in a zone's list is from that zone and from the sorted list |
| PlannerProperties.MembersNonEmpty | oindrieel/src/trip_planner.py:41-44 | every zone that is a key holds at least one place |
| PlannerProperties.GroupedCount | oindrieel/src/trip_planner.py:41-44 | concatenating the lists of distinct zones counts each place of those zones exactly as often as the sorted list does |
| PlannerProperties.Partition | oindrieel/src/trip_planner.py:41-44 | the zone lists together are a permutation of the sorted places |
| PlannerProperties.RankZonesOrder | oindrieel/src/trip_planner.py:48 | the ranked zones are a permutation of the keys, without repeats, largest zone first; zones of equal size keep their first-appearance order (both directions) |
| PlannerProperties.PlanKeys | oindrieel/src/trip_planner.py:50-65 | the days are labelled "Day 1", "Day 2", ... in order, and no label repeats |
| PlannerProperties.AllocateKeys | oindrieel/src/trip_planner.py:50-65 | the allocation labels its days "Day 1", "Day 2", ... and no label repeats |
| PlannerProperties.DayLabelInjective | oindrieel/src/trip_planner.py:59 | different day numbers give different labels |
| PlannerProperties.PlanLength | oindrieel/src/trip_planner.py:50-53 | the itinerary has no days when `days <= 0`, and otherwise `min(days, number of distinct zones)` |
| PlannerProperties.PlanDaySlots | oindrieel/src/trip_planner.py:57-64 | day `i` visits the `i`-th ranked zone; the morning is that zone's first place; the afternoon and evening are its second and third places, or the fillers exactly when the zone has fewer |
| PlannerProperties.PlanZoneOrder | oindrieel/src/trip_planner.py:48-51 | an earlier day's zone is a different zone, at least as large, and when sizes tie it appeared first in the sorted list |
| PlannerProperties.MembersNoDup | oindrieel/src/trip_planner.py:41-44 | a zone list has no repeats when the sorted list has none |
| PlannerProperties.VisitsNoDup | oindrieel/src/trip_planner.py:57 | the places of distinct zones' days are distinct and lie in those zones |
| PlannerProperties.ByScoreNoDup | oindrieel/src/trip_planner.py:36-37 | distinct catalog names give distinct sorted places |
| PlannerProperties.PlanNoRepeat | oindrieel/src/trip_planner.py:50-65 | with distinct catalog names, no place is visited on two days or twice in one day |
| PlannerProperties.MockScores | oindrieel/src/trip_planner.py:73-105 | the sample catalog scores 6, 6, 1, 6, 1 for Nature and History |
| PlannerProperties.MockByScore | oindrieel/src/trip_planner.py:73-105 | the stable sort moves Garh Panchakot ahead of the two places that score 1 |
| PlannerProperties.MockZones | oindrieel/src/trip_planner.py:73-105 | South-West appears first with three places; North-East has two |
| PlannerProperties.MockRanking | oindrieel/src/trip_planner.py:73-105 | South-West is ranked first |
| PlannerProperties.MockAllocate | oindrieel/src/trip_planner.py:73-105 | the two days filled from that ranking |
| PlannerProperties.MockTwoDayPlan | oindrieel/src/trip_planner.py:73-105 | the whole two-day plan for the sample: Ayodhya Hills, Bamni Falls and Charida Village on Day 1; Garh Panchakot, Joychandi Pahar and "Sunset View" on Day 2 |
| Extraction.Span | oindrieel/src/pipeline.py:34 | the greedy `\d+` / `\s*` run: every character up to the end satisfies the class, and the next one does not |
| Extraction.SpanUnique | oindrieel/src/pipeline.py:34 | a block of the class that cannot be extended is the one the scan finds |
| Extraction.FirstMatch | oindrieel/src/pipeline.py:34 | a reported match starts at a digit inside the text |
| Extraction.SuffixIff | oindrieel/src/pipeline.py:34 | reading `\s*-?\s*` greedily finds "day" exactly when some reading of it does |
| Extraction.MatchGroup | oindrieel/src/pipeline.py:34-36 | the group of any match is the whole digit run, because `\d+` cannot stop early |
| Extraction.MatchIff | oindrieel/src/pipeline.py:34 | the expression matches at a position exactly when a digit run starts there and the separator and "day" follow it |
| Extraction.FirstMatchSpec | oindrieel/src/pipeline.py:34 | the scan finds the leftmost match, or reports that there is none |
| Extraction.FirstMatchSkips | oindrieel/src/pipeline.py:34 | the search passes over non-digits |
| Extraction.LeftmostMatch | oindrieel/src/pipeline.py:34-36 | the leftmost match is the scan's result, and its group is the scanned digit run |
| Extraction.ExtractDaysSpec | oindrieel/src/pipeline.py:32-37 | `extract_days` returns `int` of the group of the leftmost match in the lower-cased text, and 1 when nothing matches |
| Extraction.ExtractDaysNoMatch | oindrieel/src/pipeline.py:35-37 | no match gives the default 1 |
| Extraction.ExtractDaysLeftmost | oindrieel/src/pipeline.py:34-36 | a leftmost match gives its group's value |
| Extraction.ExtractDaysFound | oindrieel/src/pipeline.py:32-37 | the result is the value of the digits where the scan stops |
| Extraction.FirstMatchHere | oindrieel/src/pipeline.py:34 | digits, then blanks, then "day": the scan stops at the digits |
| Extraction.ExtractInterests | oindrieel/src/pipeline.py:39-60 | the loop computes `Interests(text)` |
| Extraction.HitsMembers | oindrieel/src/pipeline.py:52-55 | the collected tags have no repeats, and a tag is collected exactly when one of its keywords occurs in the lower-cased text |
| Extraction.HitsPrefix | oindrieel/src/pipeline.py:52-55 | scanning more of the table only appends tags |
| Extraction.HitsOrder | oindrieel/src/pipeline.py:52-55 | tags are in the order in which the table first produces them |
| Extraction.InterestsShape | oindrieel/src/pipeline.py:39-60 | the result is never empty, has no repeats, and holds only History, Nature, Culture and Adventure |
| Extraction.InterestsMembers | oindrieel/src/pipeline.py:52-58 | when some keyword occurs, a tag is returned exactly when one of its keywords occurs |
| Extraction.HistoryFirst | oindrieel/src/pipeline.py:43-55 | when a history keyword occurs, "History" comes first, whatever the order in the text |
| Extraction.InterestsDefault | oindrieel/src/pipeline.py:57-58 | the result is `["Nature", "History"]` exactly when no keyword occurs |
| ExtractionExamples.ThreeDays | oindrieel/src/pipeline.py:32-37 | "3 days" gives 3 |
| ExtractionExamples.TwoDashDay | oindrieel/src/pipeline.py:32-37 | "2-day" gives 2 |
| ExtractionExamples.FiveUpperDay | oindrieel/src/pipeline.py:32-37 | "5 DAY" gives 5 (the text is lower-cased) |
| ExtractionExamples.TwoSpaceDay | oindrieel/src/pipeline.py:33 | "2 day" gives 2 |
| ExtractionExamples.FiveDashDay | oindrieel/src/pipeline.py:33 | "5-day" gives 5 |
| ExtractionExamples.TenSpacedDashDay | oindrieel/src/pipeline.py:32-37 | "10 - day" gives 10 |
| ExtractionExamples.ZeroDay | oindrieel/src/pipeline.py:32-37 | "0 day" gives 0, not the default 1 |
| Pipeline.ZeroDayPlansNothing | oindrieel/src/pipeline.py:102-107 | the trip branch plans an empty itinerary for "0 day" |
| ExtractionExamples.SpelledOutDays | oindrieel/src/pipeline.py:32-37 | "two days" gives the default 1 |
| ExtractionExamples.NumberAfterDay | oindrieel/src/pipeline.py:32-37 | "day 3" gives the default 1 |
| ExtractionExamples.RangeOfDays | oindrieel/src/pipeline.py:32-37 | "1-2 days" gives 2: the match starting at "1" fails, and the next one starts at "2" |
| ExtractionExamples.ScenicPlanDays | oindrieel/src/pipeline.py:32-37 | the test query "Plan a 3 day trip for scenic places" gives 3 |
| ExtractionExamples.WaterfallsAndRuins | oindrieel/src/pipeline.py:39-60 | "waterfalls and ancient ruins" gives History before Nature |
| ExtractionExamples.TrekWithCamera | oindrieel/src/pipeline.py:39-60 | a trek with a camera gives Adventure then Nature |
| ExtractionExamples.StartHasArt | oindrieel/src/pipeline.py:39-60 | "start" gives Culture, because "art" is matched as a substring |
| ExtractionExamples.ScenicPlan | oindrieel/src/pipeline.py:39-60 | the test query gives Nature only |
| Routing.ArgMax | oindrieel/src/pipeline.py:27 | the first index holding the largest score |
| Routing.Classify | oindrieel/src/pipeline.py:23-30 | the intent at a first index of the largest similarity |
| Routing.ClassifyTie | oindrieel/src/pipeline.py:27-28 | a three-way tie chooses history and culture |
| Routing.HistoryAnswer | oindrieel/src/pipeline.py:70-81 | an info response with the first hit's name and description exactly when there is a hit, otherwise the fixed error |
| Pipeline.FoundMembers | oindrieel/src/pipeline.py:87-89 | the extended list holds exactly the names of places carrying one of the interests |
| Pipeline.RecommendedSameInterests | oindrieel/src/pipeline.py:85-91 | the recommended set depends only on which interests are present, not on their order or repetition |
| Pipeline.Distinct | oindrieel/src/pipeline.py:91 | the result has no repeats and holds exactly the input's elements |
| Pipeline.Brain.constructor | oindrieel/src/pipeline.py:9-11 | the router holds the catalog handler |
| Pipeline.Brain.Recommend | oindrieel/src/pipeline.py:87-91 | no repeats, and a name is returned exactly when some catalog place carrying one of the interests has it |
| Pipeline.Brain.ProcessQuery | oindrieel/src/pipeline.py:62-115 | history gives `HistoryAnswer(hits)`; recommendation gives the names for the extracted interests, once each; trip gives `Plan(catalog, ExtractDays(text), Interests(text))` |
| LegacyPipeline.LegacyDays | src/pipeline.py:96 | the trip length is 1 or 2 |
| LegacyPipeline.LegacyInterests | src/pipeline.py:100-102 | `["adventure"]` or the two defaults |
| LegacyPipeline.LegacyProcessQuery | src/pipeline.py:42-116 | each intent produces a response of its own kind |
| LegacyPipeline.LegacyDaysGrow | src/pipeline.py:96 | adding text on either side never shortens the trip |
| LegacyPipeline.LegacyRecommendMembers | src/pipeline.py:66-81 | "adventure" wins over "history"; each gives exactly the names of the places carrying that tag; neither gives Ayodhya Hills and Charida Village |
| LegacyPipeline.LegacyRecommendIgnoresCase | src/pipeline.py:71-73 | the recommendation branch does not depend on the query's case |
| LegacyPipeline.LegacyTripLength | src/pipeline.py:84-114 | the trip branch plans at most two days |
| LegacyPipeline.TripResponsesAgree | src/pipeline.py:96-106 | with no keyword of the current table and the same day count, the earlier trip branch plans exactly what the current one does |
| LegacyPipeline.NoKeywordNoAdventure | src/pipeline.py:100-102 | a query with no keyword of the current table keeps the earlier trip branch's default interests |
| LegacyPipeline.DefaultsPlanAlike | src/pipeline.py:100 | `["nature", "history"]` plans like `["Nature", "History"]` |
| LegacyPipeline.TwelveDaysReadAsTwo | src/pipeline.py:96 | "12 days" is read as two days |
| LegacyPipeline.CapitalDaysReadAsOne | src/pipeline.py:96 | "2 Days" is read as one day (case-sensitive test) |
| LegacyPipeline.SpelledTwoDays | src/pipeline.py:96 | "two days" is read as two days |
| LegacyPipeline.ThreeDaysDisagree | src/pipeline.py:96 | "3 days" plans one day here and three days in the current version |
| LegacyPipeline.CapitalAdventureKeepsDefaults | src/pipeline.py:100-102 | "Adventure" capitalised keeps the default interests |
| LegacyPipeline.NoInterestGivesDefaults | src/pipeline.py:75-76 | the query "hi", which names neither word, gets the two fixed suggestions (the general case is the third conjunct of `LegacyRecommendMembers`) |
| LegacyPipeline.MockAdventure | src/pipeline.py:71-72 | "Adventure" over the sample catalog recommends Ayodhya Hills and Joychandi Pahar |

## Left out

- Sentence encoding and similarity search are not modelled. `Classify` takes the three similarity scores as given. The history branch takes the search hits as given: an empty sequence, or the best hit's name and description. Distances and `match_score` are dropped.
- Routing.Classify: does not model `np.argmax` on NaN scores. The scores are reals.
- Extraction.ExtractDays: does not model the `ValueError` that `int()` raises on a digit run longer than 4300 digits (Python's default `int_max_str_digits`). Neither `extract_days` nor `process_query` catches it, so such a query fails in the source; the model returns the number.
- Loading `locations.json` is not modelled: the catalog is built from an already-loaded list. This leaves out `_load_data` and its fallback to an empty list on `FileNotFoundError`.
- All `print` output and the reported confidence are left out.
- The HTTP layer (`api.py`), the chat front end (`chatbot.py`) and `vector_engine.py` are not part of this model.
- `src/trip_planner.py` and `src/data_loader.py` are not part of this model. The earlier router imports these two files, which are not available here. It is assumed that they behave like the `oindrieel/src` planner and catalog handler, and the earlier router is modelled over those.
- Records are modelled with every field present, so a record missing `tags`, `name`, `description` or `location_data.zone` (a `KeyError` in the source) is not modelled. A place without tags has an empty tag list, as the planner's `place.get('tags', [])` gives.
- Text handling is ASCII only:
  - `lower()` changes only A–Z.
  - `\d` is 0–9.
  - `\s` is ASCII whitespace plus 0x1C–0x1F.
  - Unicode case mapping, Unicode digits and Unicode spaces are not modelled.
- Pipeline.Brain.Recommend: states the set of names and that none repeats, not their order. `list(set(...))` orders strings by their hashes, which vary from run to run. The model keeps first occurrences in order.
- TripPlanning.TripPlanner.PlanTrip: the default `days=1` of `plan_trip` is not modelled; every caller passes `days`.
- `scored_places.sort(...)` is in-place in the source; it is modelled as a stable sort on values.
- The itinerary dictionary is modelled as a sequence of (label, day) pairs in insertion order, which is the dictionary's iteration order.
- The empty response `{}` (line 68 of `oindrieel/src/pipeline.py`) is not modelled. The classified intent is always one of the three keys, so it cannot be returned.
