/**
  The location catalog (`TourismDataHandler`): the list of places loaded once at
  start-up, with lookup by interest tag and the "name: description" corpus the
  similarity index is built from.  Loading the JSON file is not modelled: the
  handler is constructed from the already-loaded list.
 */
module Catalog {
  import opened Text
  import opened Seqs

  /** One record of the catalog; `zone` is the record's `location_data.zone`. */
  datatype Place = Place(name: string, description: string, tags: seq<string>, zone: string)

  /** `[t.lower() for t in tags]` */
  function LowerAll(tags: seq<string>): seq<string>
  {
    seq(|tags|, i requires 0 <= i < |tags| => LowerStr(tags[i]))
  }

  /** `tag.lower() in [t.lower() for t in place['tags']]`: the place carries `tag`, ignoring case. */
  predicate HasTag(p: Place, tag: string)
  {
    LowerStr(tag) in LowerAll(p.tags)
  }

  function Names(places: seq<Place>): (names: seq<string>)
    ensures |names| == |places|
    ensures forall i :: 0 <= i < |places| ==> names[i] == places[i].name
  {
    seq(|places|, i requires 0 <= i < |places| => places[i].name)
  }

  /** The names of the places carrying `tag`, in catalog order. */
  function Tagged(places: seq<Place>, tag: string): seq<string>
  {
    if places == [] then []
    else
      var last := places[|places| - 1];
      Tagged(places[..|places| - 1], tag) + (if HasTag(last, tag) then [last.name] else [])
  }

  /** `f"{name}: {description}"`, one entry of the text corpus. */
  function CorpusEntry(p: Place): (entry: string)
    ensures |entry| == |p.name| + 2 + |p.description|
    ensures entry[..|p.name|] == p.name
    ensures entry[|p.name|..] == ": " + p.description
  {
    p.name + ": " + p.description
  }

  /** A name is in the filter's result exactly when some place with that name carries the tag. */
  lemma {:induction false} TaggedMembers(places: seq<Place>, tag: string)
    ensures forall x :: x in Tagged(places, tag) <==> exists p :: p in places && HasTag(p, tag) && p.name == x
  {
    if places != [] {
      var init, last := places[..|places| - 1], places[|places| - 1];
      TaggedMembers(init, tag);
      assert places == init + [last];
    }
  }

  /** The filter keeps catalog order: its result is a subsequence of the catalog's names. */
  lemma {:induction false} TaggedSubsequence(places: seq<Place>, tag: string)
    ensures IsSubsequence(Tagged(places, tag), Names(places))
    ensures |Tagged(places, tag)| <= |places|
  {
    if places != [] {
      var init, last := places[..|places| - 1], places[|places| - 1];
      TaggedSubsequence(init, tag);
      assert Names(places) == Names(init) + [last.name];
      if HasTag(last, tag) {
        assert Tagged(places, tag)[..|Tagged(places, tag)| - 1] == Tagged(init, tag);
      } else {
        assert Tagged(places, tag) == Tagged(init, tag);
        SubsequenceSnoc(Tagged(init, tag), Names(init), last.name);
      }
    }
  }

  /** The argument's case does not matter: tags equal after `lower()` select the same places. */
  lemma {:induction false} TaggedIgnoresCase(places: seq<Place>, tag1: string, tag2: string)
    requires LowerStr(tag1) == LowerStr(tag2)
    ensures Tagged(places, tag1) == Tagged(places, tag2)
  {
    if places != [] {
      TaggedIgnoresCase(places[..|places| - 1], tag1, tag2);
    }
  }

  /** A tag that no place carries selects nothing, and this is not an error. */
  lemma {:induction false} TaggedAbsent(places: seq<Place>, tag: string)
    requires forall p :: p in places ==> !HasTag(p, tag)
    ensures Tagged(places, tag) == []
  {
    if places != [] {
      TaggedAbsent(places[..|places| - 1], tag);
    }
  }

  /** "history" and "HISTORY" select the same places. */
  lemma TaggedHistoryAnyCase(places: seq<Place>)
    ensures Tagged(places, "history") == Tagged(places, "HISTORY")
  {
    TaggedIgnoresCase(places, "history", "HISTORY");
  }

  /** The data handler: the catalog, loaded once and only read afterwards. */
  class TourismData {
    const data: seq<Place>

    constructor (data: seq<Place>)
      ensures this.data == data
    {
      this.data := data;
    }

    /** The raw list of records, unchanged. */
    method GetAllLocations() returns (locations: seq<Place>)
      ensures locations == data
    {
      locations := data;
    }

    /** `filter_by_tag`: appends the name of every place carrying `tag`, in catalog order. */
    method FilterByTag(tag: string) returns (results: seq<string>)
      ensures results == Tagged(data, tag)
    {
      results := [];
      for i := 0 to |data|
        invariant results == Tagged(data[..i], tag)
      {
        var place := data[i];
        if LowerStr(tag) in LowerAll(place.tags) {
          results := results + [place.name];
        }
        assert data[..i + 1][..i] == data[..i];
      }
      assert data[..|data|] == data;
    }

    /** `get_text_corpus`: one "name: description" entry per place, index-aligned with the catalog. */
    method GetTextCorpus() returns (corpus: seq<string>)
      ensures |corpus| == |data|
      ensures forall i :: 0 <= i < |data| ==> corpus[i] == CorpusEntry(data[i])
    {
      corpus := [];
      for i := 0 to |data|
        invariant |corpus| == i
        invariant forall k :: 0 <= k < i ==> corpus[k] == CorpusEntry(data[k])
      {
        var place := data[i];
        corpus := corpus + [place.name + ": " + place.description];
      }
    }
  }
}
