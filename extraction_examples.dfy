/** Worked examples of the two extractors, on concrete queries. */
module ExtractionExamples {
  import opened Wrappers
  import opened Text
  import opened Extraction

  /** "3 days": the plural still contains "day". */
  lemma ThreeDays()
    ensures ExtractDays("3 days") == 3
  {
    ThreeDaysLowered();
    ThreeDaysScan();
    ThreeDaysGroup();
    ExtractDaysFound("3 days", "3 days", 0, 1, 3);
  }

  lemma ThreeDaysLowered()
    ensures LowerStr("3 days") == "3 days"
  {
    LowerStrIs("3 days", "3 days");
  }

  lemma ThreeDaysGroup()
    ensures AllDigits("3 days"[0..1]) && DigitsValue("3 days"[0..1]) == 3
  {
    assert "3 days"[..1] == "3";
    assert "3 days"[..1][0..] == "3";
    assert DigitsValue("3") == 3;
  }

  lemma ThreeDaysScan()
    ensures FirstMatch("3 days", 0) == Some(0) && Span("3 days", 0, IsDigit) == 1
  {
    var t := "3 days";
    assert Span(t, 0, IsDigit) == 1;
    assert Span(t, 1, IsSpace) == 2;
    assert t[..5] == "3 day";
    assert t[..5][2..] == "day";
    assert FirstMatch(t, 0) == Some(0);
  }

  /** "2-day": the optional hyphen. */
  lemma TwoDashDay()
    ensures ExtractDays("2-day") == 2
  {
    TwoDashDayLowered();
    TwoDashDayScan();
    TwoDashDayGroup();
    ExtractDaysFound("2-day", "2-day", 0, 1, 2);
  }

  lemma TwoDashDayLowered()
    ensures LowerStr("2-day") == "2-day"
  {
    LowerStrIs("2-day", "2-day");
  }

  lemma TwoDashDayGroup()
    ensures AllDigits("2-day"[0..1]) && DigitsValue("2-day"[0..1]) == 2
  {
    assert "2-day"[..1] == "2";
    assert "2-day"[..1][0..] == "2";
    assert DigitsValue("2") == 2;
  }

  lemma TwoDashDayScan()
    ensures FirstMatch("2-day", 0) == Some(0) && Span("2-day", 0, IsDigit) == 1
  {
    var t := "2-day";
    assert Span(t, 0, IsDigit) == 1;
    assert Span(t, 1, IsSpace) == 1;
    assert Span(t, 2, IsSpace) == 2;
    assert t[..5] == "2-day";
    assert t[..5][2..] == "day";
    assert FirstMatch(t, 0) == Some(0);
  }

  /** "5 DAY": the text is lower-cased first. */
  lemma FiveUpperDay()
    ensures ExtractDays("5 DAY") == 5
  {
    FiveUpperDayLowered();
    FiveUpperDayScan();
    FiveUpperDayGroup();
    ExtractDaysFound("5 DAY", "5 day", 0, 1, 5);
  }

  lemma FiveUpperDayLowered()
    ensures LowerStr("5 DAY") == "5 day"
  {
    LowerStrIs("5 DAY", "5 day");
  }

  lemma FiveUpperDayGroup()
    ensures AllDigits("5 day"[0..1]) && DigitsValue("5 day"[0..1]) == 5
  {
    assert "5 day"[..1] == "5";
    assert "5 day"[..1][0..] == "5";
    assert DigitsValue("5") == 5;
  }

  lemma FiveUpperDayScan()
    ensures FirstMatch("5 day", 0) == Some(0) && Span("5 day", 0, IsDigit) == 1
  {
    var t := "5 day";
    assert Span(t, 0, IsDigit) == 1;
    assert Span(t, 1, IsSpace) == 2;
    assert t[..5] == "5 day";
    assert t[..5][2..] == "day";
    assert FirstMatch(t, 0) == Some(0);
  }

  /** "10 - day": blanks on both sides of the hyphen, and a two-digit number. */
  lemma TenSpacedDashDay()
    ensures ExtractDays("10 - day") == 10
  {
    TenSpacedDashDayLowered();
    TenSpacedDashDayScan();
    TenSpacedDashDayGroup();
    ExtractDaysFound("10 - day", "10 - day", 0, 2, 10);
  }

  lemma TenSpacedDashDayLowered()
    ensures LowerStr("10 - day") == "10 - day"
  {
    LowerStrIs("10 - day", "10 - day");
  }

  lemma TenSpacedDashDayGroup()
    ensures AllDigits("10 - day"[0..2]) && DigitsValue("10 - day"[0..2]) == 10
  {
    assert "10 - day"[..2] == "10";
    assert "10 - day"[..2][0..] == "10";
    assert "10"[..1] == "1";
    assert DigitsValue("10") == 10;
  }

  lemma TenSpacedDashDayScan()
    ensures FirstMatch("10 - day", 0) == Some(0) && Span("10 - day", 0, IsDigit) == 2
  {
    var t := "10 - day";
    assert Span(t, 0, IsDigit) == 2;
    assert Span(t, 2, IsSpace) == 3;
    assert Span(t, 4, IsSpace) == 5;
    assert t[..8] == "10 - day";
    assert t[..8][5..] == "day";
    assert FirstMatch(t, 0) == Some(0);
  }

  /** "0 day": zero is returned as it is, not replaced by the default. */
  lemma ZeroDay()
    ensures ExtractDays("0 day") == 0
  {
    ZeroDayLowered();
    ZeroDayScan();
    ZeroDayGroup();
    ExtractDaysFound("0 day", "0 day", 0, 1, 0);
  }

  lemma ZeroDayLowered()
    ensures LowerStr("0 day") == "0 day"
  {
    LowerStrIs("0 day", "0 day");
  }

  lemma ZeroDayGroup()
    ensures AllDigits("0 day"[0..1]) && DigitsValue("0 day"[0..1]) == 0
  {
    assert "0 day"[..1] == "0";
    assert "0 day"[..1][0..] == "0";
    assert DigitsValue("0") == 0;
  }

  lemma ZeroDayScan()
    ensures FirstMatch("0 day", 0) == Some(0) && Span("0 day", 0, IsDigit) == 1
  {
    var t := "0 day";
    assert Span(t, 0, IsDigit) == 1;
    assert Span(t, 1, IsSpace) == 2;
    assert t[..5] == "0 day";
    assert t[..5][2..] == "day";
    assert FirstMatch(t, 0) == Some(0);
  }

  /** "2 day": the singular, with a blank before it. */
  lemma TwoSpaceDay()
    ensures ExtractDays("2 day") == 2
  {
    var t := "2 day";
    LowerStrIs(t, t);
    assert t[2..5] == "day";
    FirstMatchHere(t, 0, 1, 2);
    assert t[0..1] == "2";
    assert DigitsValue("2") == 2;
    ExtractDaysFound(t, t, 0, 1, 2);
  }

  /** "5-day": the hyphen with no blank on either side. */
  lemma FiveDashDay()
    ensures ExtractDays("5-day") == 5
  {
    var t := "5-day";
    LowerStrIs(t, t);
    assert Span(t, 0, IsDigit) == 1;
    assert Span(t, 1, IsSpace) == 1;
    assert Span(t, 2, IsSpace) == 2;
    assert t[..5][2..] == "day";
    assert FirstMatch(t, 0) == Some(0);
    assert t[0..1] == "5";
    assert DigitsValue("5") == 5;
    ExtractDaysFound(t, t, 0, 1, 5);
  }

  /** "two days": spelled-out numbers are not recognised, so the default 1 is returned. */
  lemma SpelledOutDays()
    ensures ExtractDays("two days") == 1
  {
    SpelledOutDaysLowered();
    SpelledOutDaysScan();
  }

  lemma SpelledOutDaysLowered()
    ensures LowerStr("two days") == "two days"
  {
    LowerStrIs("two days", "two days");
  }

  lemma SpelledOutDaysScan()
    ensures FirstMatch("two days", 0) == None
  {
    var t := "two days";
    assert FirstMatch(t, 8) == None;
    assert FirstMatch(t, 7) == None;
    assert FirstMatch(t, 6) == None;
    assert FirstMatch(t, 5) == None;
    assert FirstMatch(t, 4) == None;
    assert FirstMatch(t, 3) == None;
    assert FirstMatch(t, 2) == None;
    assert FirstMatch(t, 1) == None;
    assert FirstMatch(t, 0) == None;
  }

  /** "day 3": the number must come before "day". */
  lemma NumberAfterDay()
    ensures ExtractDays("day 3") == 1
  {
    NumberAfterDayLowered();
    NumberAfterDayScan();
  }

  lemma NumberAfterDayLowered()
    ensures LowerStr("day 3") == "day 3"
  {
    LowerStrIs("day 3", "day 3");
  }

  lemma NumberAfterDayScan()
    ensures FirstMatch("day 3", 0) == None
  {
    var t := "day 3";
    assert Span(t, 4, IsDigit) == 5;
    assert Span(t, 5, IsSpace) == 5;
    assert !SuffixMatches(t, 5);
    assert FirstMatch(t, 5) == None;
    assert FirstMatch(t, 4) == None;
    assert FirstMatch(t, 3) == None;
    assert FirstMatch(t, 2) == None;
    assert FirstMatch(t, 1) == None;
    assert FirstMatch(t, 0) == None;
  }

  /** "1-2 days": "1" is followed by "-2", not by "day", so the leftmost match is "2 day". */
  lemma RangeOfDays()
    ensures ExtractDays("1-2 days") == 2
  {
    RangeOfDaysLowered();
    RangeOfDaysScan();
    RangeOfDaysGroup();
    ExtractDaysFound("1-2 days", "1-2 days", 2, 3, 2);
  }

  lemma RangeOfDaysLowered()
    ensures LowerStr("1-2 days") == "1-2 days"
  {
    LowerStrIs("1-2 days", "1-2 days");
  }

  lemma RangeOfDaysGroup()
    ensures AllDigits("1-2 days"[2..3]) && DigitsValue("1-2 days"[2..3]) == 2
  {
    assert "1-2 days"[..3] == "1-2";
    assert "1-2 days"[..3][2..] == "2";
    assert DigitsValue("2") == 2;
  }

  lemma RangeOfDaysScan()
    ensures FirstMatch("1-2 days", 0) == Some(2) && Span("1-2 days", 2, IsDigit) == 3
  {
    var t := "1-2 days";
    assert Span(t, 0, IsDigit) == 1;
    assert Span(t, 1, IsSpace) == 1;
    assert Span(t, 2, IsSpace) == 2;
    assert !SuffixMatches(t, 1);
    assert Span(t, 2, IsDigit) == 3;
    assert Span(t, 3, IsSpace) == 4;
    assert t[..7] == "1-2 day";
    assert t[..7][4..] == "day";
    assert FirstMatch(t, 2) == Some(2);
    assert FirstMatch(t, 1) == Some(2);
    assert FirstMatch(t, 0) == Some(2);
  }

  /** The pipeline's own sample query plans three days. */
  lemma ScenicPlanDays()
    ensures ExtractDays("Plan a 3 day trip for scenic places") == 3
  {
    ScenicPlanDaysLowered();
    ScenicPlanDaysScan();
    ScenicPlanDaysGroup();
    ExtractDaysFound("Plan a 3 day trip for scenic places", "plan a 3 day trip for scenic places", 7, 8, 3);
  }

  lemma ScenicPlanDaysLowered()
    ensures LowerStr("Plan a 3 day trip for scenic places") == "plan a 3 day trip for scenic places"
  {
    LowerStrIs("Plan a 3 day trip for scenic places", "plan a 3 day trip for scenic places");
  }

  lemma ScenicPlanDaysGroup()
    ensures AllDigits("plan a 3 day trip for scenic places"[7..8]) && DigitsValue("plan a 3 day trip for scenic places"[7..8]) == 3
  {
    assert "plan a 3 day trip for scenic places"[..8] == "plan a 3";
    assert "plan a 3 day trip for scenic places"[..8][7..] == "3";
    assert DigitsValue("3") == 3;
  }

  lemma ScenicPlanDaysScan()
    ensures FirstMatch("plan a 3 day trip for scenic places", 0) == Some(7) && Span("plan a 3 day trip for scenic places", 7, IsDigit) == 8
  {
    var t := "plan a 3 day trip for scenic places";
    ScenicPlanDaysAtDigit();
    assert t[..7] == "plan a ";
    assert forall k :: 0 <= k < 7 ==> t[k] == "plan a "[k];
    FirstMatchSkips(t, 0, 7);
  }

  lemma ScenicPlanDaysAtDigit()
    ensures FirstMatch("plan a 3 day trip for scenic places", 7) == Some(7)
    ensures Span("plan a 3 day trip for scenic places", 7, IsDigit) == 8
  {
    var t := "plan a 3 day trip for scenic places";
    assert t[..12] == "plan a 3 day";
    assert t[..12][9..] == "day";
    assert IsDigit(t[7]) && IsSpace(t[8]);
    FirstMatchHere(t, 7, 8, 9);
  }

  /** History keywords precede Nature keywords in the table, whatever the order in the text. */
  lemma WaterfallsAndRuins()
    ensures Interests("waterfalls and ancient ruins") == ["History", "Nature"]
  {
    WaterfallsAndRuinsLowered();
    WaterfallsAndRuinsHits();
  }

  lemma WaterfallsAndRuinsLowered()
    ensures LowerStr("waterfalls and ancient ruins") == "waterfalls and ancient ruins"
  {
    LowerStrIs("waterfalls and ancient ruins", "waterfalls and ancient ruins");
  }

  lemma WaterfallsAndRuinsHits()
    ensures Hits("waterfalls and ancient ruins", Keywords) == ["History", "Nature"]
  {
    var t := "waterfalls and ancient ruins";
    WaterfallsAndRuinsFirstHits();
    WaterfallsAndRuinsKeywords6();
    WaterfallsAndRuinsKeywords7();
    WaterfallsAndRuinsKeywords8();
    WaterfallsAndRuinsKeywords9();
    WaterfallsAndRuinsKeywords10();
    assert Keywords[..11][..10] == Keywords[..10];
    assert Hits(t, Keywords[..11]) == ["History", "Nature"];
    assert Keywords[..12][..11] == Keywords[..11];
    assert Hits(t, Keywords[..12]) == ["History", "Nature"];
    assert Keywords[..13][..12] == Keywords[..12];
    assert Hits(t, Keywords[..13]) == ["History", "Nature"];
    assert Keywords[..14][..13] == Keywords[..13];
    assert Hits(t, Keywords[..14]) == ["History", "Nature"];
    assert Keywords[..15][..14] == Keywords[..14];
    assert Hits(t, Keywords[..15]) == ["History", "Nature"];
    assert Keywords[..16][..15] == Keywords[..15];
    assert Hits(t, Keywords[..16]) == ["History", "Nature"];
    assert Keywords[..17][..16] == Keywords[..16];
    assert Hits(t, Keywords[..17]) == ["History", "Nature"];
    assert Keywords[..18][..17] == Keywords[..17];
    assert Hits(t, Keywords[..18]) == ["History", "Nature"];
    assert Keywords[..19][..18] == Keywords[..18];
    assert Hits(t, Keywords[..19]) == ["History", "Nature"];
    assert Keywords[..20][..19] == Keywords[..19];
    assert Hits(t, Keywords[..20]) == ["History", "Nature"];
    assert Keywords[..20] == Keywords;
  }

  lemma WaterfallsAndRuinsFirstHits()
    ensures Hits("waterfalls and ancient ruins", Keywords[..10]) == ["History", "Nature"]
  {
    var t := "waterfalls and ancient ruins";
    WaterfallsAndRuinsKeywords1();
    WaterfallsAndRuinsKeywords2();
    WaterfallsAndRuinsKeywords3();
    WaterfallsAndRuinsKeywords4();
    WaterfallsAndRuinsKeywords5();
    assert Hits(t, Keywords[..1]) == [];
    assert Keywords[..2][..1] == Keywords[..1];
    assert Hits(t, Keywords[..2]) == [];
    assert Keywords[..3][..2] == Keywords[..2];
    assert Hits(t, Keywords[..3]) == ["History"];
    assert Keywords[..4][..3] == Keywords[..3];
    assert Hits(t, Keywords[..4]) == ["History"];
    assert Keywords[..5][..4] == Keywords[..4];
    assert Hits(t, Keywords[..5]) == ["History"];
    assert Keywords[..6][..5] == Keywords[..5];
    assert Hits(t, Keywords[..6]) == ["History"];
    assert Keywords[..7][..6] == Keywords[..6];
    assert Hits(t, Keywords[..7]) == ["History", "Nature"];
    assert Keywords[..8][..7] == Keywords[..7];
    assert Hits(t, Keywords[..8]) == ["History", "Nature"];
    assert Keywords[..9][..8] == Keywords[..8];
    assert Hits(t, Keywords[..9]) == ["History", "Nature"];
    assert Keywords[..10][..9] == Keywords[..9];
    assert Hits(t, Keywords[..10]) == ["History", "Nature"];
  }

  lemma WaterfallsAndRuinsKeywords1()
    ensures !Contains("waterfalls and ancient ruins", "history")
    ensures !Contains("waterfalls and ancient ruins", "historical")
  {
    AbsentChar("waterfalls and ancient ruins", "history", 0);
    AbsentChar("waterfalls and ancient ruins", "historical", 0);
  }

  lemma WaterfallsAndRuinsKeywords2()
    ensures Contains("waterfalls and ancient ruins", "ancient")
    ensures Contains("waterfalls and ancient ruins", "ruins")
  {
    assert OccursAt("waterfalls and ancient ruins", "ancient", 15);
    assert OccursAt("waterfalls and ancient ruins", "ruins", 23);
  }

  lemma WaterfallsAndRuinsKeywords3()
    ensures !Contains("waterfalls and ancient ruins", "nature")
    ensures !Contains("waterfalls and ancient ruins", "scenic")
  {
    AbsentPair("waterfalls and ancient ruins", "nature", 0);
    AbsentPair("waterfalls and ancient ruins", "scenic", 0);
  }

  lemma WaterfallsAndRuinsKeywords4()
    ensures Contains("waterfalls and ancient ruins", "waterfall")
    ensures !Contains("waterfalls and ancient ruins", "hill")
  {
    assert OccursAt("waterfalls and ancient ruins", "waterfall", 0);
    AbsentChar("waterfalls and ancient ruins", "hill", 0);
  }

  lemma WaterfallsAndRuinsKeywords5()
    ensures !Contains("waterfalls and ancient ruins", "culture")
    ensures !Contains("waterfalls and ancient ruins", "mask")
  {
    AbsentPair("waterfalls and ancient ruins", "culture", 0);
    AbsentChar("waterfalls and ancient ruins", "mask", 0);
  }

  lemma WaterfallsAndRuinsKeywords6()
    ensures !Contains("waterfalls and ancient ruins", "dance")
    ensures !Contains("waterfalls and ancient ruins", "art")
  {
    AbsentPair("waterfalls and ancient ruins", "dance", 0);
    AbsentPair("waterfalls and ancient ruins", "art", 0);
  }

  lemma WaterfallsAndRuinsKeywords7()
    ensures !Contains("waterfalls and ancient ruins", "adventure")
    ensures !Contains("waterfalls and ancient ruins", "trek")
  {
    AbsentChar("waterfalls and ancient ruins", "adventure", 2);
    AbsentChar("waterfalls and ancient ruins", "trek", 3);
  }

  lemma WaterfallsAndRuinsKeywords8()
    ensures !Contains("waterfalls and ancient ruins", "hiking")
    ensures !Contains("waterfalls and ancient ruins", "photography")
  {
    AbsentChar("waterfalls and ancient ruins", "hiking", 0);
    AbsentChar("waterfalls and ancient ruins", "photography", 0);
  }

  lemma WaterfallsAndRuinsKeywords9()
    ensures !Contains("waterfalls and ancient ruins", "photo")
    ensures !Contains("waterfalls and ancient ruins", "camera")
  {
    AbsentChar("waterfalls and ancient ruins", "photo", 0);
    AbsentChar("waterfalls and ancient ruins", "camera", 2);
  }

  lemma WaterfallsAndRuinsKeywords10()
    ensures !Contains("waterfalls and ancient ruins", "relax")
    ensures !Contains("waterfalls and ancient ruins", "chill")
  {
    AbsentChar("waterfalls and ancient ruins", "relax", 4);
    AbsentChar("waterfalls and ancient ruins", "chill", 1);
  }

  /** "camera" is a late Nature keyword, so Nature follows Adventure. */
  lemma TrekWithCamera()
    ensures Interests("trek with a camera") == ["Adventure", "Nature"]
  {
    TrekWithCameraLowered();
    TrekWithCameraHits();
  }

  lemma TrekWithCameraLowered()
    ensures LowerStr("trek with a camera") == "trek with a camera"
  {
    LowerStrIs("trek with a camera", "trek with a camera");
  }

  lemma TrekWithCameraHits()
    ensures Hits("trek with a camera", Keywords) == ["Adventure", "Nature"]
  {
    var t := "trek with a camera";
    TrekWithCameraFirstHits();
    TrekWithCameraKeywords6();
    TrekWithCameraKeywords7();
    TrekWithCameraKeywords8();
    TrekWithCameraKeywords9();
    TrekWithCameraKeywords10();
    assert Keywords[..11][..10] == Keywords[..10];
    assert Hits(t, Keywords[..11]) == [];
    assert Keywords[..12][..11] == Keywords[..11];
    assert Hits(t, Keywords[..12]) == [];
    assert Keywords[..13][..12] == Keywords[..12];
    assert Hits(t, Keywords[..13]) == [];
    assert Keywords[..14][..13] == Keywords[..13];
    assert Hits(t, Keywords[..14]) == ["Adventure"];
    assert Keywords[..15][..14] == Keywords[..14];
    assert Hits(t, Keywords[..15]) == ["Adventure"];
    assert Keywords[..16][..15] == Keywords[..15];
    assert Hits(t, Keywords[..16]) == ["Adventure"];
    assert Keywords[..17][..16] == Keywords[..16];
    assert Hits(t, Keywords[..17]) == ["Adventure"];
    assert Keywords[..18][..17] == Keywords[..17];
    assert Hits(t, Keywords[..18]) == ["Adventure", "Nature"];
    assert Keywords[..19][..18] == Keywords[..18];
    assert Hits(t, Keywords[..19]) == ["Adventure", "Nature"];
    assert Keywords[..20][..19] == Keywords[..19];
    assert Hits(t, Keywords[..20]) == ["Adventure", "Nature"];
    assert Keywords[..20] == Keywords;
  }

  lemma TrekWithCameraFirstHits()
    ensures Hits("trek with a camera", Keywords[..10]) == []
  {
    var t := "trek with a camera";
    TrekWithCameraKeywords1();
    TrekWithCameraKeywords2();
    TrekWithCameraKeywords3();
    TrekWithCameraKeywords4();
    TrekWithCameraKeywords5();
    assert Hits(t, Keywords[..1]) == [];
    assert Keywords[..2][..1] == Keywords[..1];
    assert Hits(t, Keywords[..2]) == [];
    assert Keywords[..3][..2] == Keywords[..2];
    assert Hits(t, Keywords[..3]) == [];
    assert Keywords[..4][..3] == Keywords[..3];
    assert Hits(t, Keywords[..4]) == [];
    assert Keywords[..5][..4] == Keywords[..4];
    assert Hits(t, Keywords[..5]) == [];
    assert Keywords[..6][..5] == Keywords[..5];
    assert Hits(t, Keywords[..6]) == [];
    assert Keywords[..7][..6] == Keywords[..6];
    assert Hits(t, Keywords[..7]) == [];
    assert Keywords[..8][..7] == Keywords[..7];
    assert Hits(t, Keywords[..8]) == [];
    assert Keywords[..9][..8] == Keywords[..8];
    assert Hits(t, Keywords[..9]) == [];
    assert Keywords[..10][..9] == Keywords[..9];
    assert Hits(t, Keywords[..10]) == [];
  }

  lemma TrekWithCameraKeywords1()
    ensures !Contains("trek with a camera", "history")
    ensures !Contains("trek with a camera", "historical")
  {
    AbsentChar("trek with a camera", "history", 2);
    AbsentChar("trek with a camera", "historical", 2);
  }

  lemma TrekWithCameraKeywords2()
    ensures !Contains("trek with a camera", "ancient")
    ensures !Contains("trek with a camera", "ruins")
  {
    AbsentChar("trek with a camera", "ancient", 1);
    AbsentChar("trek with a camera", "ruins", 1);
  }

  lemma TrekWithCameraKeywords3()
    ensures !Contains("trek with a camera", "nature")
    ensures !Contains("trek with a camera", "scenic")
  {
    AbsentChar("trek with a camera", "nature", 0);
    AbsentChar("trek with a camera", "scenic", 0);
  }

  lemma TrekWithCameraKeywords4()
    ensures !Contains("trek with a camera", "waterfall")
    ensures !Contains("trek with a camera", "hill")
  {
    AbsentChar("trek with a camera", "waterfall", 5);
    AbsentChar("trek with a camera", "hill", 2);
  }

  lemma TrekWithCameraKeywords5()
    ensures !Contains("trek with a camera", "culture")
    ensures !Contains("trek with a camera", "mask")
  {
    AbsentChar("trek with a camera", "culture", 1);
    AbsentChar("trek with a camera", "mask", 2);
  }

  lemma TrekWithCameraKeywords6()
    ensures !Contains("trek with a camera", "dance")
    ensures !Contains("trek with a camera", "art")
  {
    AbsentChar("trek with a camera", "dance", 0);
    AbsentPair("trek with a camera", "art", 0);
  }

  lemma TrekWithCameraKeywords7()
    ensures !Contains("trek with a camera", "adventure")
    ensures Contains("trek with a camera", "trek")
  {
    AbsentChar("trek with a camera", "adventure", 1);
    assert OccursAt("trek with a camera", "trek", 0);
  }

  lemma TrekWithCameraKeywords8()
    ensures !Contains("trek with a camera", "hiking")
    ensures !Contains("trek with a camera", "photography")
  {
    AbsentChar("trek with a camera", "hiking", 4);
    AbsentChar("trek with a camera", "photography", 0);
  }

  lemma TrekWithCameraKeywords9()
    ensures !Contains("trek with a camera", "photo")
    ensures Contains("trek with a camera", "camera")
  {
    AbsentChar("trek with a camera", "photo", 0);
    assert OccursAt("trek with a camera", "camera", 12);
  }

  lemma TrekWithCameraKeywords10()
    ensures !Contains("trek with a camera", "relax")
    ensures !Contains("trek with a camera", "chill")
  {
    AbsentChar("trek with a camera", "relax", 2);
    AbsentChar("trek with a camera", "chill", 3);
  }

  /** Substring matching without word boundaries: "start" contains "art". */
  lemma StartHasArt()
    ensures Interests("start") == ["Culture"]
  {
    StartHasArtLowered();
    StartHasArtHits();
  }

  lemma StartHasArtLowered()
    ensures LowerStr("start") == "start"
  {
    LowerStrIs("start", "start");
  }

  lemma StartHasArtHits()
    ensures Hits("start", Keywords) == ["Culture"]
  {
    var t := "start";
    StartHasArtFirstHits();
    StartHasArtKeywords3();
    StartHasArtKeywords4();
    assert Keywords[..11][..10] == Keywords[..10];
    assert Hits(t, Keywords[..11]) == [];
    assert Keywords[..12][..11] == Keywords[..11];
    assert Hits(t, Keywords[..12]) == ["Culture"];
    assert Keywords[..13][..12] == Keywords[..12];
    assert Hits(t, Keywords[..13]) == ["Culture"];
    assert Keywords[..14][..13] == Keywords[..13];
    assert Hits(t, Keywords[..14]) == ["Culture"];
    assert Keywords[..15][..14] == Keywords[..14];
    assert Hits(t, Keywords[..15]) == ["Culture"];
    assert Keywords[..16][..15] == Keywords[..15];
    assert Hits(t, Keywords[..16]) == ["Culture"];
    assert Keywords[..17][..16] == Keywords[..16];
    assert Hits(t, Keywords[..17]) == ["Culture"];
    assert Keywords[..18][..17] == Keywords[..17];
    assert Hits(t, Keywords[..18]) == ["Culture"];
    assert Keywords[..19][..18] == Keywords[..18];
    assert Hits(t, Keywords[..19]) == ["Culture"];
    assert Keywords[..20][..19] == Keywords[..19];
    assert Hits(t, Keywords[..20]) == ["Culture"];
    assert Keywords[..20] == Keywords;
  }

  lemma StartHasArtFirstHits()
    ensures Hits("start", Keywords[..10]) == []
  {
    var t := "start";
    StartHasArtKeywords1();
    StartHasArtKeywords2();
    assert Hits(t, Keywords[..1]) == [];
    assert Keywords[..2][..1] == Keywords[..1];
    assert Hits(t, Keywords[..2]) == [];
    assert Keywords[..3][..2] == Keywords[..2];
    assert Hits(t, Keywords[..3]) == [];
    assert Keywords[..4][..3] == Keywords[..3];
    assert Hits(t, Keywords[..4]) == [];
    assert Keywords[..5][..4] == Keywords[..4];
    assert Hits(t, Keywords[..5]) == [];
    assert Keywords[..6][..5] == Keywords[..5];
    assert Hits(t, Keywords[..6]) == [];
    assert Keywords[..7][..6] == Keywords[..6];
    assert Hits(t, Keywords[..7]) == [];
    assert Keywords[..8][..7] == Keywords[..7];
    assert Hits(t, Keywords[..8]) == [];
    assert Keywords[..9][..8] == Keywords[..8];
    assert Hits(t, Keywords[..9]) == [];
    assert Keywords[..10][..9] == Keywords[..9];
    assert Hits(t, Keywords[..10]) == [];
  }

  lemma StartHasArtKeywords1()
    ensures !Contains("start", "history")
    ensures !Contains("start", "historical")
    ensures !Contains("start", "ancient")
    ensures !Contains("start", "ruins")
    ensures !Contains("start", "nature")
  {
    AbsentChar("start", "history", 0);
    AbsentChar("start", "historical", 0);
    AbsentChar("start", "ancient", 1);
    AbsentChar("start", "ruins", 1);
    AbsentChar("start", "nature", 0);
  }

  lemma StartHasArtKeywords2()
    ensures !Contains("start", "scenic")
    ensures !Contains("start", "waterfall")
    ensures !Contains("start", "hill")
    ensures !Contains("start", "culture")
    ensures !Contains("start", "mask")
  {
    AbsentChar("start", "scenic", 1);
    AbsentChar("start", "waterfall", 0);
    AbsentChar("start", "hill", 0);
    AbsentChar("start", "culture", 0);
    AbsentChar("start", "mask", 0);
  }

  lemma StartHasArtKeywords3()
    ensures !Contains("start", "dance")
    ensures Contains("start", "art")
    ensures !Contains("start", "adventure")
    ensures !Contains("start", "trek")
    ensures !Contains("start", "hiking")
  {
    AbsentChar("start", "dance", 0);
    assert OccursAt("start", "art", 2);
    AbsentChar("start", "adventure", 1);
    AbsentChar("start", "trek", 2);
    AbsentChar("start", "hiking", 0);
  }

  lemma StartHasArtKeywords4()
    ensures !Contains("start", "photography")
    ensures !Contains("start", "photo")
    ensures !Contains("start", "camera")
    ensures !Contains("start", "relax")
    ensures !Contains("start", "chill")
  {
    AbsentChar("start", "photography", 0);
    AbsentChar("start", "photo", 0);
    AbsentChar("start", "camera", 0);
    AbsentChar("start", "relax", 1);
    AbsentChar("start", "chill", 0);
  }

  /** The pipeline's own sample query asks for Nature only. */
  lemma ScenicPlan()
    ensures Interests("Plan a 3 day trip for scenic places") == ["Nature"]
  {
    ScenicPlanLowered();
    ScenicPlanHits();
  }

  lemma ScenicPlanLowered()
    ensures LowerStr("Plan a 3 day trip for scenic places") == "plan a 3 day trip for scenic places"
  {
    LowerStrIs("Plan a 3 day trip for scenic places", "plan a 3 day trip for scenic places");
  }

  lemma ScenicPlanHits()
    ensures Hits("plan a 3 day trip for scenic places", Keywords) == ["Nature"]
  {
    var t := "plan a 3 day trip for scenic places";
    ScenicPlanFirstHits();
    ScenicPlanKeywords6();
    ScenicPlanKeywords7();
    ScenicPlanKeywords8();
    ScenicPlanKeywords9();
    ScenicPlanKeywords10();
    assert Keywords[..11][..10] == Keywords[..10];
    assert Hits(t, Keywords[..11]) == ["Nature"];
    assert Keywords[..12][..11] == Keywords[..11];
    assert Hits(t, Keywords[..12]) == ["Nature"];
    assert Keywords[..13][..12] == Keywords[..12];
    assert Hits(t, Keywords[..13]) == ["Nature"];
    assert Keywords[..14][..13] == Keywords[..13];
    assert Hits(t, Keywords[..14]) == ["Nature"];
    assert Keywords[..15][..14] == Keywords[..14];
    assert Hits(t, Keywords[..15]) == ["Nature"];
    assert Keywords[..16][..15] == Keywords[..15];
    assert Hits(t, Keywords[..16]) == ["Nature"];
    assert Keywords[..17][..16] == Keywords[..16];
    assert Hits(t, Keywords[..17]) == ["Nature"];
    assert Keywords[..18][..17] == Keywords[..17];
    assert Hits(t, Keywords[..18]) == ["Nature"];
    assert Keywords[..19][..18] == Keywords[..18];
    assert Hits(t, Keywords[..19]) == ["Nature"];
    assert Keywords[..20][..19] == Keywords[..19];
    assert Hits(t, Keywords[..20]) == ["Nature"];
    assert Keywords[..20] == Keywords;
  }

  lemma ScenicPlanFirstHits()
    ensures Hits("plan a 3 day trip for scenic places", Keywords[..10]) == ["Nature"]
  {
    var t := "plan a 3 day trip for scenic places";
    ScenicPlanKeywords1();
    ScenicPlanKeywords2();
    ScenicPlanKeywords3();
    ScenicPlanKeywords4();
    ScenicPlanKeywords5();
    assert Hits(t, Keywords[..1]) == [];
    assert Keywords[..2][..1] == Keywords[..1];
    assert Hits(t, Keywords[..2]) == [];
    assert Keywords[..3][..2] == Keywords[..2];
    assert Hits(t, Keywords[..3]) == [];
    assert Keywords[..4][..3] == Keywords[..3];
    assert Hits(t, Keywords[..4]) == [];
    assert Keywords[..5][..4] == Keywords[..4];
    assert Hits(t, Keywords[..5]) == [];
    assert Keywords[..6][..5] == Keywords[..5];
    assert Hits(t, Keywords[..6]) == ["Nature"];
    assert Keywords[..7][..6] == Keywords[..6];
    assert Hits(t, Keywords[..7]) == ["Nature"];
    assert Keywords[..8][..7] == Keywords[..7];
    assert Hits(t, Keywords[..8]) == ["Nature"];
    assert Keywords[..9][..8] == Keywords[..8];
    assert Hits(t, Keywords[..9]) == ["Nature"];
    assert Keywords[..10][..9] == Keywords[..9];
    assert Hits(t, Keywords[..10]) == ["Nature"];
  }

  lemma ScenicPlanKeywords1()
    ensures !Contains("plan a 3 day trip for scenic places", "history")
    ensures !Contains("plan a 3 day trip for scenic places", "historical")
  {
    AbsentChar("plan a 3 day trip for scenic places", "history", 0);
    AbsentChar("plan a 3 day trip for scenic places", "historical", 0);
  }

  lemma ScenicPlanKeywords2()
    ensures !Contains("plan a 3 day trip for scenic places", "ancient")
    ensures !Contains("plan a 3 day trip for scenic places", "ruins")
  {
    AbsentPair("plan a 3 day trip for scenic places", "ancient", 1);
    AbsentChar("plan a 3 day trip for scenic places", "ruins", 1);
  }

  lemma ScenicPlanKeywords3()
    ensures !Contains("plan a 3 day trip for scenic places", "nature")
    ensures Contains("plan a 3 day trip for scenic places", "scenic")
  {
    AbsentChar("plan a 3 day trip for scenic places", "nature", 3);
    assert OccursAt("plan a 3 day trip for scenic places", "scenic", 22);
  }

  lemma ScenicPlanKeywords4()
    ensures !Contains("plan a 3 day trip for scenic places", "waterfall")
    ensures !Contains("plan a 3 day trip for scenic places", "hill")
  {
    AbsentChar("plan a 3 day trip for scenic places", "waterfall", 0);
    AbsentChar("plan a 3 day trip for scenic places", "hill", 0);
  }

  lemma ScenicPlanKeywords5()
    ensures !Contains("plan a 3 day trip for scenic places", "culture")
    ensures !Contains("plan a 3 day trip for scenic places", "mask")
  {
    AbsentChar("plan a 3 day trip for scenic places", "culture", 1);
    AbsentChar("plan a 3 day trip for scenic places", "mask", 0);
  }

  lemma ScenicPlanKeywords6()
    ensures !Contains("plan a 3 day trip for scenic places", "dance")
    ensures !Contains("plan a 3 day trip for scenic places", "art")
  {
    AbsentPair("plan a 3 day trip for scenic places", "dance", 2);
    AbsentPair("plan a 3 day trip for scenic places", "art", 0);
  }

  lemma ScenicPlanKeywords7()
    ensures !Contains("plan a 3 day trip for scenic places", "adventure")
    ensures !Contains("plan a 3 day trip for scenic places", "trek")
  {
    AbsentChar("plan a 3 day trip for scenic places", "adventure", 2);
    AbsentChar("plan a 3 day trip for scenic places", "trek", 3);
  }

  lemma ScenicPlanKeywords8()
    ensures !Contains("plan a 3 day trip for scenic places", "hiking")
    ensures !Contains("plan a 3 day trip for scenic places", "photography")
  {
    AbsentChar("plan a 3 day trip for scenic places", "hiking", 0);
    AbsentChar("plan a 3 day trip for scenic places", "photography", 1);
  }

  lemma ScenicPlanKeywords9()
    ensures !Contains("plan a 3 day trip for scenic places", "photo")
    ensures !Contains("plan a 3 day trip for scenic places", "camera")
  {
    AbsentChar("plan a 3 day trip for scenic places", "photo", 1);
    AbsentChar("plan a 3 day trip for scenic places", "camera", 2);
  }

  lemma ScenicPlanKeywords10()
    ensures !Contains("plan a 3 day trip for scenic places", "relax")
    ensures !Contains("plan a 3 day trip for scenic places", "chill")
  {
    AbsentChar("plan a 3 day trip for scenic places", "relax", 4);
    AbsentChar("plan a 3 day trip for scenic places", "chill", 1);
  }
}
