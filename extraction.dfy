/**
  The two constraint extractors of the query pipeline (`PuruliaBrain`).

  `extract_days` searches the lower-cased text for the regular expression
  `(\d+)\s*-?\s*day` and returns the integer value of the digit group of the
  leftmost match, or 1 when there is none.  `ExtractDays` computes this by a
  scan; `RegexMatch` states what the expression matches, and
  `ExtractDaysSpec` proves that the scan returns the group of the leftmost
  match.

  `extract_interests` walks a fixed keyword table in its dictionary order and
  collects, once each, the tag of every keyword that occurs as a substring of
  the lower-cased text, falling back to `["Nature", "History"]`.
 */
module Extraction {
  import opened Wrappers
  import opened Text
  import opened Seqs

  // ---------------------------------------------------------------- extract_days

  /** End of the longest block of characters satisfying `P` that starts at `i`. */
  function Span(t: string, i: nat, P: char -> bool): (e: nat)
    requires i <= |t|
    ensures i <= e <= |t|
    ensures forall k :: i <= k < e ==> P(t[k])
    ensures e == |t| || !P(t[e])
    decreases |t| - i
  {
    if i < |t| && P(t[i]) then Span(t, i + 1, P) else i
  }

  /** A block of `P`-characters from `i` that cannot be extended is the one `Span` finds. */
  lemma {:induction false} SpanUnique(t: string, i: nat, P: char -> bool, e: nat)
    requires i <= e <= |t|
    requires forall k :: i <= k < e ==> P(t[k])
    requires e == |t| || !P(t[e])
    ensures Span(t, i, P) == e
    decreases e - i
  {
    if i < e {
      SpanUnique(t, i + 1, P, e);
    }
  }

  /** `t[e..]` begins with `\s*-?\s*day`, the blanks filling `t[e..a]` and `t[b..c]`, the optional `-` `t[a..b]`. */
  ghost predicate SeparatorThenDay(t: string, e: nat, a: nat, b: nat, c: nat)
  {
    && e <= a <= b <= c && c + 3 <= |t|
    && (forall k :: e <= k < a ==> IsSpace(t[k]))
    && (b == a || (b == a + 1 && t[a] == '-'))
    && (forall k :: b <= k < c ==> IsSpace(t[k]))
    && t[c..c + 3] == "day"
  }

  /** `(\d+)\s*-?\s*day` matches at `i`, its group being `t[i..e]`. */
  ghost predicate RegexMatch(t: string, i: nat, e: nat)
  {
    && i < e <= |t|
    && (forall k :: i <= k < e ==> IsDigit(t[k]))
    && exists a, b, c :: SeparatorThenDay(t, e, a, b, c)
  }

  /** The expression matches at position `i`. */
  ghost predicate MatchesAt(t: string, i: nat)
  {
    exists e :: RegexMatch(t, i, e)
  }

  /** `\s*-?\s*day` at `e`, each part taken greedily. */
  predicate SuffixMatches(t: string, e: nat)
    requires e <= |t|
  {
    var a := Span(t, e, IsSpace);
    var c := if a < |t| && t[a] == '-' then Span(t, a + 1, IsSpace) else a;
    c + 3 <= |t| && t[c..c + 3] == "day"
  }

  /** The leftmost start, from `i` on, of a digit run followed by the separator and "day". */
  function FirstMatch(t: string, i: nat): (r: Option<nat>)
    requires i <= |t|
    ensures r.Some? ==> i <= r.value < |t| && IsDigit(t[r.value])
    decreases |t| - i
  {
    if i == |t| then None
    else if IsDigit(t[i]) then
      var e := Span(t, i, IsDigit);
      if SuffixMatches(t, e) then Some(i) else FirstMatch(t, e)
    else FirstMatch(t, i + 1)
  }

  /** `extract_days(text)` */
  function ExtractDays(text: string): nat
  {
    var t := LowerStr(text);
    match FirstMatch(t, 0)
    case None => 1
    case Some(i) => DigitsValue(t[i..Span(t, i, IsDigit)])
  }

  /** The scan passes over characters that are not digits. */
  lemma {:induction false} FirstMatchSkips(t: string, i: nat, j: nat)
    requires i <= j <= |t|
    requires forall k :: i <= k < j ==> !IsDigit(t[k])
    ensures FirstMatch(t, i) == FirstMatch(t, j)
    decreases j - i
  {
    if i < j {
      FirstMatchStep(t, i);
      FirstMatchSkips(t, i + 1, j);
    }
  }

  lemma FirstMatchStep(t: string, i: nat)
    requires i < |t| && !IsDigit(t[i])
    ensures FirstMatch(t, i) == FirstMatch(t, i + 1)
  {
  }

  /** A digit run from `i` to `e`, blanks up to `c`, then "day": the scan stops at `i`. */
  lemma FirstMatchHere(t: string, i: nat, e: nat, c: nat)
    requires i < e <= c && c + 3 <= |t|
    requires forall k :: i <= k < e ==> IsDigit(t[k])
    requires forall k :: e <= k < c ==> IsSpace(t[k])
    requires t[c..c + 3] == "day"
    ensures FirstMatch(t, i) == Some(i) && Span(t, i, IsDigit) == e
  {
    assert t[c] == "day"[0];
    SpanUnique(t, i, IsDigit, e);
    SpanUnique(t, e, IsSpace, c);
  }

  /** `extract_days` in terms of the scan of the lower-cased text. */
  lemma ExtractDaysFound(text: string, t: string, i: nat, e: nat, n: nat)
    requires LowerStr(text) == t
    requires FirstMatch(t, 0) == Some(i) && Span(t, i, IsDigit) == e
    requires DigitsValue(t[i..e]) == n
    ensures ExtractDays(text) == n
  {
  }

  /** The greedy reading of the separator finds "day" exactly when some reading does. */
  lemma SuffixIff(t: string, e: nat)
    requires e <= |t|
    ensures SuffixMatches(t, e) <==> exists a, b, c :: SeparatorThenDay(t, e, a, b, c)
  {
    if SuffixMatches(t, e) {
      SuffixSound(t, e);
    }
    forall a: nat, b: nat, c: nat | SeparatorThenDay(t, e, a, b, c)
      ensures SuffixMatches(t, e)
    {
      SuffixComplete(t, e, a, b, c);
    }
  }

  /** A greedy success is a reading of the separator. */
  lemma SuffixSound(t: string, e: nat)
    requires e <= |t| && SuffixMatches(t, e)
    ensures exists a, b, c :: SeparatorThenDay(t, e, a, b, c)
  {
    var a := Span(t, e, IsSpace);
    if a < |t| && t[a] == '-' {
      assert SeparatorThenDay(t, e, a, a + 1, Span(t, a + 1, IsSpace));
    } else {
      assert SeparatorThenDay(t, e, a, a, a);
    }
  }

  /** Any reading of the separator is the greedy one, since "day" starts with neither a blank nor `-`. */
  lemma SuffixComplete(t: string, e: nat, a: nat, b: nat, c: nat)
    requires SeparatorThenDay(t, e, a, b, c)
    ensures SuffixMatches(t, e)
  {
    assert t[c] == "day"[0];
    if b == a {
      SpanUnique(t, e, IsSpace, c);
    } else {
      SpanUnique(t, e, IsSpace, a);
      SpanUnique(t, a + 1, IsSpace, c);
    }
  }

  /** The group of a match is the whole digit run: `\d+` cannot stop early, since a digit is never a separator. */
  lemma MatchGroup(t: string, i: nat, e: nat)
    requires RegexMatch(t, i, e)
    ensures e == Span(t, i, IsDigit)
  {
    var a: nat, b: nat, c: nat :| SeparatorThenDay(t, e, a, b, c);
    assert t[c] == "day"[0];
    assert !IsDigit(t[e]);
    SpanUnique(t, i, IsDigit, e);
  }

  /** The expression matches at `i` exactly when a digit run starts there and the greedy suffix test passes at its end. */
  lemma MatchIff(t: string, i: nat)
    requires i <= |t|
    ensures MatchesAt(t, i) <==> i < |t| && IsDigit(t[i]) && SuffixMatches(t, Span(t, i, IsDigit))
  {
    if MatchesAt(t, i) {
      var e :| RegexMatch(t, i, e);
      MatchGroup(t, i, e);
      SuffixIff(t, e);
    }
    if i < |t| && IsDigit(t[i]) && SuffixMatches(t, Span(t, i, IsDigit)) {
      var e := Span(t, i, IsDigit);
      SuffixIff(t, e);
      assert RegexMatch(t, i, e);
    }
  }

  /** The scan finds the leftmost match from `i` on, or reports that there is none. */
  lemma {:induction false} FirstMatchSpec(t: string, i: nat)
    requires i <= |t|
    ensures FirstMatch(t, i).None? ==> forall j :: i <= j <= |t| ==> !MatchesAt(t, j)
    ensures FirstMatch(t, i).Some? ==>
      && MatchesAt(t, FirstMatch(t, i).value)
      && forall j :: i <= j < FirstMatch(t, i).value ==> !MatchesAt(t, j)
    decreases |t| - i
  {
    MatchIff(t, i);
    if i < |t| {
      if IsDigit(t[i]) {
        var e := Span(t, i, IsDigit);
        if !SuffixMatches(t, e) {
          FirstMatchSpec(t, e);
          forall j | i <= j < e
            ensures !MatchesAt(t, j)
          {
            SpanUnique(t, j, IsDigit, e);
            MatchIff(t, j);
          }
        }
      } else {
        FirstMatchSpec(t, i + 1);
      }
    }
  }

  /**
    `extract_days` returns the value of the group of the leftmost match of
    `(\d+)\s*-?\s*day` in the lower-cased text, and 1 when nothing matches.
   */
  lemma ExtractDaysSpec(text: string)
    ensures (forall i: nat :: i <= |LowerStr(text)| ==> !MatchesAt(LowerStr(text), i)) ==> ExtractDays(text) == 1
    ensures var t := LowerStr(text);
      forall i: nat, e: nat :: RegexMatch(t, i, e) && (forall j :: 0 <= j < i ==> !MatchesAt(t, j)) ==>
        ExtractDays(text) == DigitsValue(t[i..e])
  {
    ExtractDaysNoMatch(text);
    ExtractDaysLeftmost(text);
  }

  /** No match anywhere: one day. */
  lemma ExtractDaysNoMatch(text: string)
    ensures (forall i: nat :: i <= |LowerStr(text)| ==> !MatchesAt(LowerStr(text), i)) ==> ExtractDays(text) == 1
  {
    var t := LowerStr(text);
    FirstMatchSpec(t, 0);
    if FirstMatch(t, 0).Some? {
      var first := FirstMatch(t, 0).value;
      assert 0 <= first <= |t| && MatchesAt(t, first);
      assert !(forall i: nat :: i <= |t| ==> !MatchesAt(t, i));
    } else {
      assert ExtractDays(text) == 1;
    }
  }

  /** A leftmost match: the value of its group. */
  lemma ExtractDaysLeftmost(text: string)
    ensures var t := LowerStr(text);
      forall i: nat, e: nat :: RegexMatch(t, i, e) && (forall j :: 0 <= j < i ==> !MatchesAt(t, j)) ==>
        ExtractDays(text) == DigitsValue(t[i..e])
  {
    var t := LowerStr(text);
    forall i: nat, e: nat | RegexMatch(t, i, e) && (forall j :: 0 <= j < i ==> !MatchesAt(t, j))
      ensures ExtractDays(text) == DigitsValue(t[i..e])
    {
      LeftmostMatch(t, i, e);
    }
  }

  /** The leftmost match is the one the scan finds, and its group is the whole digit run. */
  lemma LeftmostMatch(t: string, i: nat, e: nat)
    requires RegexMatch(t, i, e)
    requires forall j :: 0 <= j < i ==> !MatchesAt(t, j)
    ensures FirstMatch(t, 0) == Some(i)
    ensures e == Span(t, i, IsDigit)
  {
    FirstMatchSpec(t, 0);
    assert MatchesAt(t, i);
    MatchGroup(t, i, e);
  }

  // ---------------------------------------------------------------- extract_interests

  /** `keywords`, in its dictionary (insertion) order: keyword and tag. */
  const Keywords: seq<(string, string)> := [
    ("history", "History"), ("historical", "History"), ("ancient", "History"), ("ruins", "History"),
    ("nature", "Nature"), ("scenic", "Nature"), ("waterfall", "Nature"), ("hill", "Nature"),
    ("culture", "Culture"), ("mask", "Culture"), ("dance", "Culture"), ("art", "Culture"),
    ("adventure", "Adventure"), ("trek", "Adventure"), ("hiking", "Adventure"),
    ("photography", "Nature"), ("photo", "Nature"), ("camera", "Nature"),
    ("relax", "Nature"), ("chill", "Nature")]

  /** The interests used when no keyword occurs. */
  const DefaultInterests: seq<string> := ["Nature", "History"]

  /** The four tags the table can produce. */
  const InterestTags: seq<string> := ["History", "Nature", "Culture", "Adventure"]

  /** The tags of the table's keywords occurring in `t`, each once, in table order of their first such keyword. */
  function Hits(t: string, table: seq<(string, string)>): seq<string>
  {
    if table == [] then []
    else
      var prev := Hits(t, table[..|table| - 1]);
      var entry := table[|table| - 1];
      if Contains(t, entry.0) && entry.1 !in prev then prev + [entry.1] else prev
  }

  /** `extract_interests(text)` */
  function Interests(text: string): seq<string>
  {
    var hits := Hits(LowerStr(text), Keywords);
    if hits == [] then DefaultInterests else hits
  }

  /** The scan over the keyword table, appending each new tag. */
  method ExtractInterests(text: string) returns (interests: seq<string>)
    ensures interests == Interests(text)
  {
    var t := LowerStr(text);
    interests := [];
    for i := 0 to |Keywords|
      invariant interests == Hits(t, Keywords[..i])
    {
      var (word, tag) := Keywords[i];
      if Contains(t, word) {
        if tag !in interests {
          interests := interests + [tag];
        }
      }
      assert Keywords[..i + 1][..i] == Keywords[..i];
    }
    assert Keywords[..|Keywords|] == Keywords;
    if interests == [] {
      interests := DefaultInterests;
    }
  }

  /** Some keyword among the first `n` entries of the table has tag `tag` and occurs in `t`. */
  ghost predicate FoundBy(t: string, table: seq<(string, string)>, n: nat, tag: string)
  {
    exists k :: 0 <= k < n && k < |table| && table[k].1 == tag && Contains(t, table[k].0)
  }

  /** A tag is collected exactly when one of its keywords occurs; none is collected twice. */
  lemma {:induction false} HitsMembers(t: string, table: seq<(string, string)>)
    ensures NoDup(Hits(t, table))
    ensures forall tag :: tag in Hits(t, table) <==> FoundBy(t, table, |table|, tag)
  {
    if table != [] {
      var init := table[..|table| - 1];
      HitsMembers(t, init);
      forall tag
        ensures FoundBy(t, table, |table|, tag) <==> FoundBy(t, init, |init|, tag) || (table[|table| - 1].1 == tag && Contains(t, table[|table| - 1].0))
      {
        if FoundBy(t, init, |init|, tag) {
          var k :| 0 <= k < |init| && init[k].1 == tag && Contains(t, init[k].0);
          assert table[k] == init[k];
        }
        if FoundBy(t, table, |table|, tag) {
          var k :| 0 <= k < |table| && table[k].1 == tag && Contains(t, table[k].0);
          if k < |init| {
            assert table[k] == init[k];
          }
        }
      }
    }
  }

  /** The tags collected from a prefix of the table start the tags collected from the whole table. */
  lemma {:induction false} HitsPrefix(t: string, table: seq<(string, string)>, n: nat)
    requires n <= |table|
    ensures Hits(t, table[..n]) <= Hits(t, table)
  {
    if n < |table| {
      var init := table[..|table| - 1];
      assert init[..n] == table[..n];
      HitsPrefix(t, init, n);
    } else {
      assert table[..n] == table;
    }
  }

  /**
    Tags come in table order: for tags `i < j` of the result, some prefix of
    the table already finds the `i`-th tag but not yet the `j`-th, that is, the
    first keyword found for the `i`-th tag precedes every keyword found for
    the `j`-th.
   */
  lemma {:induction false} HitsOrder(t: string, table: seq<(string, string)>, i: nat, j: nat)
    requires i < j < |Hits(t, table)|
    ensures exists n :: 0 <= n <= |table| && FoundBy(t, table, n, Hits(t, table)[i]) && !FoundBy(t, table, n, Hits(t, table)[j])
  {
    var init := table[..|table| - 1];
    var prev := Hits(t, init);
    var h := Hits(t, table);
    assert forall k :: 0 <= k < |init| ==> table[k] == init[k];
    if j < |prev| {
      HitsOrder(t, init, i, j);
      var n :| 0 <= n <= |init| && FoundBy(t, init, n, prev[i]) && !FoundBy(t, init, n, prev[j]);
      assert h[i] == prev[i] && h[j] == prev[j];
      assert FoundBy(t, table, n, h[i]);
    } else {
      HitsMembers(t, init);
      assert h[i] == prev[i] && h[j] !in prev;
      assert FoundBy(t, init, |init|, h[i]);
      assert FoundBy(t, table, |init|, h[i]);
    }
  }

  /** The result is never empty, has no duplicates, and uses only the four tags. */
  lemma InterestsShape(text: string)
    ensures Interests(text) != []
    ensures NoDup(Interests(text))
    ensures forall tag :: tag in Interests(text) ==> tag in InterestTags
  {
    var t := LowerStr(text);
    HitsMembers(t, Keywords);
    forall tag | tag in Hits(t, Keywords)
      ensures tag in InterestTags
    {
      var k :| 0 <= k < |Keywords| && Keywords[k].1 == tag && Contains(t, Keywords[k].0);
    }
  }

  /** With at least one keyword in the text, a tag is an interest exactly when one of its keywords occurs. */
  lemma InterestsMembers(text: string)
    requires exists k :: 0 <= k < |Keywords| && Contains(LowerStr(text), Keywords[k].0)
    ensures forall tag :: tag in Interests(text) <==> FoundBy(LowerStr(text), Keywords, |Keywords|, tag)
  {
    HitsMembers(LowerStr(text), Keywords);
    var k :| 0 <= k < |Keywords| && Contains(LowerStr(text), Keywords[k].0);
    assert Keywords[k].1 in Hits(LowerStr(text), Keywords);
  }

  /** The History keywords open the table, so History, when found, is always the first interest. */
  lemma HistoryFirst(text: string)
    requires FoundBy(LowerStr(text), Keywords, |Keywords|, "History")
    ensures Interests(text)[0] == "History"
  {
    var t := LowerStr(text);
    var h := Hits(t, Keywords);
    var head := Keywords[..4];
    HitsMembers(t, Keywords);
    HitsMembers(t, head);
    HitsPrefix(t, Keywords, 4);
    assert "History" in h;
    var k :| 0 <= k < |Keywords| && Keywords[k].1 == "History" && Contains(t, Keywords[k].0);
    assert k < 4;
    assert head[k] == Keywords[k];
    assert FoundBy(t, head, |head|, "History");
    var p := Hits(t, head);
    assert "History" in p;
    assert p[0] in p;
    assert FoundBy(t, head, |head|, p[0]);
    var k0 :| 0 <= k0 < |head| && head[k0].1 == p[0] && Contains(t, head[k0].0);
  }

  /** The default is returned exactly when no keyword occurs; found interests never coincide with it. */
  lemma InterestsDefault(text: string)
    ensures Interests(text) == DefaultInterests <==>
      forall k :: 0 <= k < |Keywords| ==> !Contains(LowerStr(text), Keywords[k].0)
  {
    var t := LowerStr(text);
    HitsMembers(t, Keywords);
    if Hits(t, Keywords) == [] {
      forall k | 0 <= k < |Keywords|
        ensures !Contains(t, Keywords[k].0)
      {
        assert !FoundBy(t, Keywords, |Keywords|, Keywords[k].1);
      }
    } else {
      var tag := Hits(t, Keywords)[0];
      assert tag in Hits(t, Keywords);
      assert FoundBy(t, Keywords, |Keywords|, tag);
      var k :| 0 <= k < |Keywords| && Keywords[k].1 == tag && Contains(t, Keywords[k].0);
      if "History" in Hits(t, Keywords) {
        HistoryFirst(text);
      }
    }
  }
}
