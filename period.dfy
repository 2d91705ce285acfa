/** The recruiting period ("Spring", "Summer", "Fall", "Winter" or "")
    of a posting: a calendar fallback from the month number, and a
    detector that looks for season keywords, then month abbreviations, in
    the lower-cased text of the title, the URL and the notes. */
module Period {
  import opened Text

  /** The season keyword table, in the order it is scanned. */
  const SeasonWords: seq<(string, seq<string>)> := [
    ("spring", ["spring"]),
    ("summer", ["summer", "may-aug", "may to aug", "may through aug"]),
    ("fall", ["fall", "autumn", "sep-dec", "sept-dec"]),
    ("winter", ["winter", "dec-mar", "jan-mar"])
  ]

  const Months: seq<string> := ["jan", "feb", "mar", "apr", "may", "jun", "jul", "aug", "sep", "sept", "oct", "nov", "dec"]
  const SummerMonths: seq<string> := ["may", "jun", "jul", "aug"]
  const SpringMonths: seq<string> := ["mar", "apr"]
  const FallMonths: seq<string> := ["sep", "sept", "oct", "nov", "dec"]
  const WinterMonths: seq<string> := ["jan", "feb"]

  /** The values a period can take. */
  predicate IsPeriod(p: string) {
    p == "" || p == "Spring" || p == "Summer" || p == "Fall" || p == "Winter"
  }

  /** `month_to_season`: months 1-4 are spring, 5-8 summer, 9-12 fall,
      anything else has no season; winter is never produced. */
  function MonthToSeason(m: int): (r: string)
    ensures IsPeriod(r) && r != "Winter"
    ensures r == "" <==> !(1 <= m <= 12)
    ensures r == "Spring" <==> 1 <= m <= 4
    ensures r == "Summer" <==> 5 <= m <= 8
    ensures r == "Fall" <==> 9 <= m <= 12
  {
    if 1 <= m <= 4 then "Spring"
    else if 5 <= m <= 8 then "Summer"
    else if 9 <= m <= 12 then "Fall"
    else ""
  }

  /** `guess_period` on the current date, given its month (1 to 12): never
      empty. */
  function GuessPeriod(month: int): (r: string)
    requires 1 <= month <= 12
    ensures r != "" && IsPeriod(r) && r != "Winter"
    ensures r == MonthToSeason(month)
  {
    MonthToSeason(month)
  }

  /** Some word of the list occurs in the text. */
  predicate AnyIn(words: seq<string>, blob: string) {
    exists k :: 0 <= k < |words| && Contains(blob, words[k])
  }

  /** The lower-cased text the detector searches: the texts joined with
      single spaces. */
  function Blob(texts: seq<string>): string {
    Lower(JoinWith(texts, " "))
  }

  /** Index of the first season in the table with a keyword in the text. */
  function FirstSeasonFrom(blob: string, i: nat): (r: Option<nat>)
    requires i <= |SeasonWords|
    ensures r.Some? ==> i <= r.value < |SeasonWords| && AnyIn(SeasonWords[r.value].1, blob)
    ensures r.Some? ==> forall j :: i <= j < r.value ==> !AnyIn(SeasonWords[j].1, blob)
    ensures r.None? ==> forall j :: i <= j < |SeasonWords| ==> !AnyIn(SeasonWords[j].1, blob)
    decreases |SeasonWords| - i
  {
    if i == |SeasonWords| then None
    else if AnyIn(SeasonWords[i].1, blob) then Some(i)
    else FirstSeasonFrom(blob, i + 1)
  }

  /** The month-abbreviation stage: summer months beat spring months,
      which beat fall months; January and February alone mean spring. */
  function MonthGuess(blob: string): (r: string)
    ensures r == "" || r == "Spring" || r == "Summer" || r == "Fall"
  {
    if AnyIn(Months, blob) then
      if AnyIn(SummerMonths, blob) then "Summer"
      else if AnyIn(SpringMonths, blob) then "Spring"
      else if AnyIn(FallMonths, blob) then "Fall"
      else if Contains(blob, "jan") || Contains(blob, "feb") then "Spring"
      else ""
    else ""
  }

  /** `detect_period_from_text(*texts)`. */
  function DetectPeriodFromText(texts: seq<string>): (r: string)
    ensures IsPeriod(r)
  {
    var blob := Blob(texts);
    match FirstSeasonFrom(blob, 0)
    case Some(i) =>
      SeasonNames(i);
      Capitalize(SeasonWords[i].0)
    case None => MonthGuess(blob)
  }

  /** `season.capitalize()` over the table gives the four season names. */
  lemma SeasonNames(i: nat)
    requires i < |SeasonWords|
    ensures Capitalize(SeasonWords[i].0) == ["Spring", "Summer", "Fall", "Winter"][i]
  {
    var w := SeasonWords[i].0;
    var c := Capitalize(w);
    assert |c| == |w|;
    if i == 0 {
      assert c == "Spring";
    } else if i == 1 {
      assert c == "Summer";
    } else if i == 2 {
      assert c == "Fall";
    } else {
      assert c == "Winter";
    }
  }

  /** The month stage gives "" exactly when no month abbreviation occurs:
      every abbreviation belongs to one of the four buckets. */
  lemma MonthGuessEmpty(blob: string)
    ensures MonthGuess(blob) == "" <==> !AnyIn(Months, blob)
  {
    if AnyIn(Months, blob) {
      var k :| 0 <= k < |Months| && Contains(blob, Months[k]);
      var m := Months[k];
      if k < 2 {
        assert Contains(blob, WinterMonths[k]);
      } else if k < 4 {
        assert SpringMonths[k - 2] == m;
      } else if k < 8 {
        assert SummerMonths[k - 4] == m;
      } else {
        assert FallMonths[k - 8] == m;
      }
    }
  }

  /** A season keyword decides, in table order, before any month
      abbreviation is considered. */
  lemma KeywordWins(texts: seq<string>, i: nat)
    requires i < |SeasonWords| && AnyIn(SeasonWords[i].1, Blob(texts))
    requires forall j :: 0 <= j < i ==> !AnyIn(SeasonWords[j].1, Blob(texts))
    ensures DetectPeriodFromText(texts) == Capitalize(SeasonWords[i].0)
  {
    var r := FirstSeasonFrom(Blob(texts), 0);
    assert r.Some? && r.value == i;
  }

  /** Without any season keyword the result is the month stage's, so it is
      never "Winter", and it is "" exactly when no month abbreviation occurs
      either. */
  lemma NoKeywordMonthStage(texts: seq<string>)
    requires forall j :: 0 <= j < |SeasonWords| ==> !AnyIn(SeasonWords[j].1, Blob(texts))
    ensures DetectPeriodFromText(texts) == MonthGuess(Blob(texts))
    ensures DetectPeriodFromText(texts) != "Winter"
    ensures DetectPeriodFromText(texts) == "" <==> !AnyIn(Months, Blob(texts))
  {
    MonthGuessEmpty(Blob(texts));
  }

  /** Without a season keyword, any of may/jun/jul/aug means summer, else
      mar/apr spring, else a fall month fall, else jan/feb spring. */
  lemma MonthBuckets(texts: seq<string>)
    requires forall j :: 0 <= j < |SeasonWords| ==> !AnyIn(SeasonWords[j].1, Blob(texts))
    ensures AnyIn(SummerMonths, Blob(texts)) ==> DetectPeriodFromText(texts) == "Summer"
    ensures !AnyIn(SummerMonths, Blob(texts)) && AnyIn(SpringMonths, Blob(texts)) ==>
              DetectPeriodFromText(texts) == "Spring"
    ensures !AnyIn(SummerMonths, Blob(texts)) && !AnyIn(SpringMonths, Blob(texts)) && AnyIn(FallMonths, Blob(texts)) ==>
              DetectPeriodFromText(texts) == "Fall"
    ensures (!AnyIn(SummerMonths, Blob(texts)) && !AnyIn(SpringMonths, Blob(texts)) && !AnyIn(FallMonths, Blob(texts))
             && AnyIn(WinterMonths, Blob(texts))) ==> DetectPeriodFromText(texts) == "Spring"
  {
    var blob := Blob(texts);
    if AnyIn(SummerMonths, blob) {
      var k :| 0 <= k < |SummerMonths| && Contains(blob, SummerMonths[k]);
      assert Months[k + 4] == SummerMonths[k];
    } else if AnyIn(SpringMonths, blob) {
      var k :| 0 <= k < |SpringMonths| && Contains(blob, SpringMonths[k]);
      assert Months[k + 2] == SpringMonths[k];
    } else if AnyIn(FallMonths, blob) {
      var k :| 0 <= k < |FallMonths| && Contains(blob, FallMonths[k]);
      assert Months[k + 8] == FallMonths[k];
    } else if AnyIn(WinterMonths, blob) {
      var k :| 0 <= k < |WinterMonths| && Contains(blob, WinterMonths[k]);
      assert Months[k] == WinterMonths[k];
    }
  }
}
