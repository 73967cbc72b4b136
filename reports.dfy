/** The report routes: the dashboard statistics over every stored analysis
    (rating distribution, average trust score, this month's count, the five
    most frequent scam indicators) and the CSV export. */
module Reports {
  import opened Wrappers
  import Strings
  import JsMath

  // ---------------------------------------------------------------------
  // Stored analyses, as far as the reports read them
  // ---------------------------------------------------------------------

  /** `analysis_result.verdict`. */
  datatype Verdict = Verdict(rating: Option<string>, trustScore: Option<int>)

  /** `analysis_result.contentCheck`, with `engagementMetrics.engagementRatio`
      folded in. */
  datatype ContentCheck = ContentCheck(relevance: Option<string>, engagementRatio: Option<string>,
                                       scamIndicators: Option<seq<string>>)

  /** `analysis_result`, with `profileCheck.bioConsistency` folded in. */
  datatype AnalysisResult = AnalysisResult(verdict: Option<Verdict>, bioConsistency: Option<string>,
                                           contentCheck: Option<ContentCheck>)

  /** `channel_info`, as far as the export reads it. */
  datatype ChannelInfo = ChannelInfo(title: Option<string>, subscribers: Option<int>)

  /** A row of `channel_analyses`; `createdMonth` and `createdYear` are the
      local calendar month and year of `createdAt`. */
  datatype StoredAnalysis = StoredAnalysis(
    channelName: string,
    channelLink: string,
    info: ChannelInfo,
    result: AnalysisResult,
    createdAt: int,
    createdMonth: int,
    createdYear: int)

  /** `s || fallback` on an optional string: an absent or empty string
      gives the fallback. */
  function StringOr(s: Option<string>, fallback: string): string {
    if s.Some? && s.value != "" then s.value else fallback
  }

  /** `n || 0` on an optional integer. */
  function IntOrZero(n: Option<int>): int {
    if n.Some? then n.value else 0
  }

  /** `result.verdict?.rating || 'Unknown'`. */
  function RatingOf(a: StoredAnalysis): string {
    if a.result.verdict.Some? then StringOr(a.result.verdict.value.rating, "Unknown") else "Unknown"
  }

  /** `result.verdict?.trustScore || 0`. */
  function TrustScoreOf(a: StoredAnalysis): int {
    if a.result.verdict.Some? then IntOrZero(a.result.verdict.value.trustScore) else 0
  }

  /** `result.contentCheck?.scamIndicators || []`. */
  function IndicatorsOf(a: StoredAnalysis): seq<string> {
    if a.result.contentCheck.Some? && a.result.contentCheck.value.scamIndicators.Some?
    then a.result.contentCheck.value.scamIndicators.value
    else []
  }

  // ---------------------------------------------------------------------
  // Reference definitions of the statistics
  // ---------------------------------------------------------------------

  const Legit := "Legit"
  const Doubtful := "Doubtful"
  const ScamRisk := "Scam Risk"
  const TopIndicatorCount: nat := 5

  /** The number of analyses rated `rating`. */
  function RatingCount(analyses: seq<StoredAnalysis>, rating: string): nat {
    if analyses == [] then 0
    else
      var last := analyses[|analyses| - 1];
      RatingCount(analyses[..|analyses| - 1], rating) + (if RatingOf(last) == rating then 1 else 0)
  }

  /** The sum of the trust scores, a missing score counting as 0. */
  function TrustTotal(analyses: seq<StoredAnalysis>): int {
    if analyses == [] then 0
    else TrustTotal(analyses[..|analyses| - 1]) + TrustScoreOf(analyses[|analyses| - 1])
  }

  /** The number of analyses created in the given month of the given year. */
  function MonthCount(analyses: seq<StoredAnalysis>, month: int, year: int): nat {
    if analyses == [] then 0
    else
      var last := analyses[|analyses| - 1];
      MonthCount(analyses[..|analyses| - 1], month, year)
      + (if last.createdMonth == month && last.createdYear == year then 1 else 0)
  }

  /** How often `indicator` is listed, over all analyses. */
  function Occurrences(analyses: seq<StoredAnalysis>, indicator: string): nat {
    if analyses == [] then 0
    else
      Occurrences(analyses[..|analyses| - 1], indicator)
      + multiset(IndicatorsOf(analyses[|analyses| - 1]))[indicator]
  }

  /** `Math.round(totalTrustScore / analyses.length)`, or 0 without analyses. */
  function AverageTrustScore(analyses: seq<StoredAnalysis>): (r: int)
    ensures |analyses| > 0 ==>
              2 * r * |analyses| <= 2 * TrustTotal(analyses) + |analyses| < 2 * r * |analyses| + 2 * |analyses|
  {
    if |analyses| > 0 then JsMath.RoundDiv(TrustTotal(analyses), |analyses|) else 0
  }

  // ---------------------------------------------------------------------
  // The indicator tally: an object used as a dictionary
  // ---------------------------------------------------------------------

  datatype IndicatorCount = IndicatorCount(indicator: string, count: nat)

  predicate DistinctKeys(entries: seq<IndicatorCount>) {
    forall i, j :: 0 <= i < j < |entries| ==> entries[i].indicator != entries[j].indicator
  }

  predicate PositiveCounts(entries: seq<IndicatorCount>) {
    forall i :: 0 <= i < |entries| ==> entries[i].count > 0
  }

  /** Some entry has the key `indicator`. */
  predicate Listed(entries: seq<IndicatorCount>, indicator: string) {
    entries != [] && (entries[0].indicator == indicator || Listed(entries[1..], indicator))
  }

  /** `tally[indicator] || 0`: the count of the first entry for the key. */
  function CountOf(entries: seq<IndicatorCount>, indicator: string): nat {
    if entries == [] then 0
    else if entries[0].indicator == indicator then entries[0].count
    else CountOf(entries[1..], indicator)
  }

  /** `tally[indicator] = (tally[indicator] || 0) + 1`: the entry is
      incremented in place, or a new one is appended, so the keys keep their
      insertion order. */
  function Bump(entries: seq<IndicatorCount>, indicator: string): (r: seq<IndicatorCount>)
    ensures forall x :: CountOf(r, x) == CountOf(entries, x) + (if x == indicator then 1 else 0)
    ensures |r| == if Listed(entries, indicator) then |entries| else |entries| + 1
    ensures forall i :: 0 <= i < |entries| ==> r[i].indicator == entries[i].indicator
    ensures !Listed(entries, indicator) ==> r == entries + [IndicatorCount(indicator, 1)]
    ensures Listed(entries, indicator) ==> forall i :: 0 <= i < |r| ==> r[i].count >= entries[i].count
  {
    if entries == [] then [IndicatorCount(indicator, 1)]
    else if entries[0].indicator == indicator then
      [entries[0].(count := entries[0].count + 1)] + entries[1..]
    else
      var rest := Bump(entries[1..], indicator);
      assert !Listed(entries[1..], indicator) ==>
               [entries[0]] + rest == [entries[0]] + entries[1..] + [IndicatorCount(indicator, 1)];
      assert entries == [entries[0]] + entries[1..];
      [entries[0]] + rest
  }

  /** Counting one more occurrence keeps the keys distinct and the counts
      positive. */
  lemma BumpKeepsShape(entries: seq<IndicatorCount>, indicator: string)
    ensures DistinctKeys(entries) ==> DistinctKeys(Bump(entries, indicator))
    ensures PositiveCounts(entries) ==> PositiveCounts(Bump(entries, indicator))
  {
    var r := Bump(entries, indicator);
    if !Listed(entries, indicator) {
      assert forall i :: 0 <= i < |entries| ==> r[i] == entries[i];
      if DistinctKeys(entries) {
        ListedIndex(entries, indicator);
      }
    }
  }

  /** `Listed` holds exactly when some index carries the key. */
  lemma {:induction false} ListedIndex(entries: seq<IndicatorCount>, indicator: string)
    ensures Listed(entries, indicator) <==> exists i :: 0 <= i < |entries| && entries[i].indicator == indicator
  {
    if entries != [] {
      ListedIndex(entries[1..], indicator);
      if exists i :: 0 <= i < |entries| && entries[i].indicator == indicator {
        var i :| 0 <= i < |entries| && entries[i].indicator == indicator;
        if i > 0 {
          assert entries[1..][i - 1] == entries[i];
        }
      }
      if Listed(entries[1..], indicator) {
        var i :| 0 <= i < |entries[1..]| && entries[1..][i].indicator == indicator;
        assert entries[i + 1] == entries[1..][i];
      }
    }
  }

  /** Every indicator of `indicators` counted, in order. */
  function BumpAll(entries: seq<IndicatorCount>, indicators: seq<string>): (r: seq<IndicatorCount>)
    ensures forall x :: CountOf(r, x) == CountOf(entries, x) + multiset(indicators)[x]
    ensures DistinctKeys(entries) ==> DistinctKeys(r)
    ensures PositiveCounts(entries) ==> PositiveCounts(r)
    ensures |r| >= |entries| && forall i :: 0 <= i < |entries| ==> r[i].indicator == entries[i].indicator
  {
    if indicators == [] then entries
    else
      var init := indicators[..|indicators| - 1];
      assert indicators == init + [indicators[|indicators| - 1]];
      BumpKeepsShape(BumpAll(entries, init), indicators[|indicators| - 1]);
      Bump(BumpAll(entries, init), indicators[|indicators| - 1])
  }

  /** The tally the statistics loop builds: each indicator with its number
      of occurrences, in order of first appearance. */
  function Tally(analyses: seq<StoredAnalysis>): (r: seq<IndicatorCount>)
    ensures forall x :: CountOf(r, x) == Occurrences(analyses, x)
    ensures DistinctKeys(r) && PositiveCounts(r)
  {
    if analyses == [] then []
    else BumpAll(Tally(analyses[..|analyses| - 1]), IndicatorsOf(analyses[|analyses| - 1]))
  }

  /** Under distinct keys an entry holds the count of its key, and a key with
      a positive count has an entry. */
  lemma {:induction false} CountOfEntries(entries: seq<IndicatorCount>, indicator: string)
    requires DistinctKeys(entries)
    ensures forall i :: 0 <= i < |entries| && entries[i].indicator == indicator ==>
              entries[i].count == CountOf(entries, indicator)
    ensures CountOf(entries, indicator) > 0 ==> exists i :: 0 <= i < |entries| && entries[i] == IndicatorCount(indicator, CountOf(entries, indicator))
  {
    if entries != [] {
      var rest := entries[1..];
      assert DistinctKeys(rest) by {
        forall i, j | 0 <= i < j < |rest| ensures rest[i].indicator != rest[j].indicator {
          assert rest[i] == entries[i + 1] && rest[j] == entries[j + 1];
        }
      }
      CountOfEntries(rest, indicator);
      forall i | 0 <= i < |entries| && entries[i].indicator == indicator
        ensures entries[i].count == CountOf(entries, indicator)
      {
        if i > 0 {
          assert entries[0].indicator != indicator;
          assert rest[i - 1] == entries[i];
        }
      }
      if CountOf(entries, indicator) > 0 && entries[0].indicator != indicator {
        var i :| 0 <= i < |rest| && rest[i] == IndicatorCount(indicator, CountOf(rest, indicator));
        assert entries[i + 1] == rest[i];
      }
    }
  }

  // ---------------------------------------------------------------------
  // Sort by count, descending, and keep the first five
  // ---------------------------------------------------------------------

  predicate NonIncreasing(entries: seq<IndicatorCount>) {
    forall i, j :: 0 <= i < j < |entries| ==> entries[i].count >= entries[j].count
  }

  /** An entry counting at least as much as the head keeps the order. */
  lemma PrependKeepsOrder(y: IndicatorCount, rest: seq<IndicatorCount>)
    requires NonIncreasing(rest)
    requires rest != [] ==> rest[0].count <= y.count
    ensures NonIncreasing([y] + rest)
  {
  }

  /** `x` placed after every entry counting at least as much. */
  function InsertByCount(x: IndicatorCount, sorted: seq<IndicatorCount>): (r: seq<IndicatorCount>)
    requires NonIncreasing(sorted)
    ensures NonIncreasing(r)
    ensures multiset(r) == multiset(sorted) + multiset{x}
    ensures |r| == |sorted| + 1
    ensures r[0] == x || (sorted != [] && r[0] == sorted[0])
  {
    if sorted == [] then [x]
    else if sorted[0].count >= x.count then
      var rest := InsertByCount(x, sorted[1..]);
      PrependKeepsOrder(sorted[0], rest);
      assert sorted == [sorted[0]] + sorted[1..];
      [sorted[0]] + rest
    else
      PrependKeepsOrder(x, sorted);
      [x] + sorted
  }

  /** `entries.sort(([, a], [, b]) => b - a)`: a sort by count, largest
      first. Each later entry is inserted after the earlier ones with the
      same count. */
  function SortByCount(entries: seq<IndicatorCount>): (r: seq<IndicatorCount>)
    ensures NonIncreasing(r)
    ensures multiset(r) == multiset(entries)
    ensures |r| == |entries|
  {
    if entries == [] then []
    else
      var init := entries[..|entries| - 1];
      assert entries == init + [entries[|entries| - 1]];
      InsertByCount(entries[|entries| - 1], SortByCount(init))
  }

  /** `.slice(0, 5)` of the sorted tally. */
  function TopIndicators(entries: seq<IndicatorCount>): (r: seq<IndicatorCount>)
    ensures |r| == if |entries| < TopIndicatorCount then |entries| else TopIndicatorCount
    ensures NonIncreasing(r)
    ensures forall e :: e in r ==> e in entries
  {
    var sorted := SortByCount(entries);
    var n := if |sorted| < TopIndicatorCount then |sorted| else TopIndicatorCount;
    assert forall e :: e in sorted[..n] ==> e in multiset(sorted);
    sorted[..n]
  }

  /** An entry of the tally is among the sorted entries. */
  lemma SortedHoldsEntry(entries: seq<IndicatorCount>, x: IndicatorCount)
    requires x in entries
    ensures x in SortByCount(entries)
  {
    assert x in multiset(entries);
  }

  /** The reported indicators carry their true, positive counts. */
  lemma TopIndicatorsCountTruly(analyses: seq<StoredAnalysis>)
    ensures forall e :: e in TopIndicators(Tally(analyses)) ==>
              e.count == Occurrences(analyses, e.indicator) && e.count > 0
  {
    var tally := Tally(analyses);
    forall e | e in TopIndicators(tally) ensures e.count == Occurrences(analyses, e.indicator) && e.count > 0 {
      CountOfEntries(tally, e.indicator);
    }
  }

  /** An entry kept out of the first five of the sorted entries counts no
      more than any of the five. */
  lemma LeftOutCountsNoMore(entries: seq<IndicatorCount>, x: IndicatorCount)
    requires x in entries
    requires forall q :: 0 <= q < |TopIndicators(entries)| ==> TopIndicators(entries)[q].indicator != x.indicator
    ensures |TopIndicators(entries)| == TopIndicatorCount
    ensures forall q :: 0 <= q < |TopIndicators(entries)| ==> TopIndicators(entries)[q].count >= x.count
  {
    var sorted := SortByCount(entries);
    var top := TopIndicators(entries);
    SortedHoldsEntry(entries, x);
    assert top == sorted[..|top|];
    assert forall q :: 0 <= q < |top| ==> sorted[q] == top[q];
    LeftOutOfPrefix(sorted, |top|, x);
  }

  /** In a sequence sorted by count, an entry outside the first `n` counts no
      more than any of them. */
  lemma LeftOutOfPrefix(sorted: seq<IndicatorCount>, n: nat, x: IndicatorCount)
    requires NonIncreasing(sorted) && n <= |sorted| && x in sorted
    requires forall q :: 0 <= q < n ==> sorted[q].indicator != x.indicator
    ensures n < |sorted|
    ensures forall q :: 0 <= q < n ==> sorted[q].count >= x.count
  {
    var p :| 0 <= p < |sorted| && sorted[p] == x;
    assert forall q :: 0 <= q < n ==> sorted[q] != sorted[p];
  }

  /** An indicator left out of the report never outnumbers one reported:
      when one is left out, five are shown and each occurs at least as often. */
  lemma TopIndicatorsAreMostFrequent(analyses: seq<StoredAnalysis>, indicator: string)
    requires Occurrences(analyses, indicator) > 0
    requires forall q :: 0 <= q < |TopIndicators(Tally(analyses))| ==>
               TopIndicators(Tally(analyses))[q].indicator != indicator
    ensures |TopIndicators(Tally(analyses))| == TopIndicatorCount
    ensures forall q :: 0 <= q < |TopIndicators(Tally(analyses))| ==>
              TopIndicators(Tally(analyses))[q].count >= Occurrences(analyses, indicator)
  {
    var tally := Tally(analyses);
    CountOfEntries(tally, indicator);
    var x := IndicatorCount(indicator, Occurrences(analyses, indicator));
    assert x in tally;
    LeftOutCountsNoMore(tally, x);
  }

  // ---------------------------------------------------------------------
  // GET /stats
  // ---------------------------------------------------------------------

  datatype RatingDistribution = RatingDistribution(legit: nat, doubtful: nat, scamRisk: nat)

  datatype Stats = Stats(
    totalAnalyses: nat,
    ratingDistribution: RatingDistribution,
    averageTrustScore: int,
    analysesThisMonth: nat,
    topScamIndicators: seq<IndicatorCount>)

  /** One more analysis adds its share to each reference statistic. */
  lemma StatsSnoc(analyses: seq<StoredAnalysis>, i: nat, month: int, year: int)
    requires i < |analyses|
    ensures var done := analyses[..i];
            var a := analyses[i];
            var more := analyses[..i + 1];
            (forall rating :: RatingCount(more, rating) == RatingCount(done, rating) + (if RatingOf(a) == rating then 1 else 0))
            && TrustTotal(more) == TrustTotal(done) + TrustScoreOf(a)
            && MonthCount(more, month, year)
               == MonthCount(done, month, year) + (if a.createdMonth == month && a.createdYear == year then 1 else 0)
            && Tally(more) == BumpAll(Tally(done), IndicatorsOf(a))
  {
    assert analyses[..i + 1][..i] == analyses[..i];
  }

  /** The inner `forEach`: each indicator of one analysis counted in turn. */
  method CountIndicators(tally: seq<IndicatorCount>, indicators: seq<string>) returns (r: seq<IndicatorCount>)
    ensures r == BumpAll(tally, indicators)
  {
    r := tally;
    var j := 0;
    while j < |indicators|
      invariant j <= |indicators|
      invariant r == BumpAll(tally, indicators[..j])
    {
      assert indicators[..j + 1][..j] == indicators[..j];
      r := Bump(r, indicators[j]);
      j := j + 1;
    }
    assert indicators[..j] == indicators;
  }

  /** The `forEach` over the analyses that fills in the statistics, then
      the average and the five most frequent indicators. `currentMonth` and
      `currentYear` are the clock's local month and year. */
  method DashboardStats(analyses: seq<StoredAnalysis>, currentMonth: int, currentYear: int)
    returns (stats: Stats)
    ensures stats.totalAnalyses == |analyses|
    ensures stats.ratingDistribution == RatingDistribution(RatingCount(analyses, Legit),
                                                           RatingCount(analyses, Doubtful),
                                                           RatingCount(analyses, ScamRisk))
    ensures stats.averageTrustScore == AverageTrustScore(analyses)
    ensures stats.analysesThisMonth == MonthCount(analyses, currentMonth, currentYear)
    ensures stats.topScamIndicators == TopIndicators(Tally(analyses))
  {
    var legit, doubtful, scamRisk, thisMonth := 0, 0, 0, 0;
    var totalTrustScore := 0;
    var tally: seq<IndicatorCount> := [];
    var i := 0;
    while i < |analyses|
      invariant i <= |analyses|
      invariant legit == RatingCount(analyses[..i], Legit)
      invariant doubtful == RatingCount(analyses[..i], Doubtful)
      invariant scamRisk == RatingCount(analyses[..i], ScamRisk)
      invariant totalTrustScore == TrustTotal(analyses[..i])
      invariant thisMonth == MonthCount(analyses[..i], currentMonth, currentYear)
      invariant tally == Tally(analyses[..i])
    {
      var analysis := analyses[i];
      StatsSnoc(analyses, i, currentMonth, currentYear);
      var rating := RatingOf(analysis);
      if rating == Legit {
        legit := legit + 1;
      } else if rating == Doubtful {
        doubtful := doubtful + 1;
      } else if rating == ScamRisk {
        scamRisk := scamRisk + 1;
      }
      totalTrustScore := totalTrustScore + TrustScoreOf(analysis);
      if analysis.createdMonth == currentMonth && analysis.createdYear == currentYear {
        thisMonth := thisMonth + 1;
      }
      tally := CountIndicators(tally, IndicatorsOf(analysis));
      i := i + 1;
    }
    assert analyses[..i] == analyses;
    var average := if |analyses| > 0 then JsMath.RoundDiv(totalTrustScore, |analyses|) else 0;
    stats := Stats(|analyses|, RatingDistribution(legit, doubtful, scamRisk), average, thisMonth,
                   TopIndicators(tally));
  }

  /** One of the three ratings the statistics count. */
  predicate KnownRating(rating: string) {
    rating == Legit || rating == Doubtful || rating == ScamRisk
  }

  /** An analysis adds one to the count of its own rating and nothing to the
      other two. */
  lemma OneRatingEach(a: StoredAnalysis)
    ensures (if RatingOf(a) == Legit then 1 else 0) + (if RatingOf(a) == Doubtful then 1 else 0)
            + (if RatingOf(a) == ScamRisk then 1 else 0) == (if KnownRating(RatingOf(a)) then 1 else 0)
  {
    assert Legit[0] != Doubtful[0] && Legit[0] != ScamRisk[0] && Doubtful[0] != ScamRisk[0];
  }

  /** Every analysis has one of the three counted ratings. */
  predicate AllKnown(analyses: seq<StoredAnalysis>) {
    analyses == []
    || (AllKnown(analyses[..|analyses| - 1]) && KnownRating(RatingOf(analyses[|analyses| - 1])))
  }

  lemma {:induction false} AllKnownEach(analyses: seq<StoredAnalysis>)
    ensures AllKnown(analyses) <==> forall i :: 0 <= i < |analyses| ==> KnownRating(RatingOf(analyses[i]))
  {
    if analyses != [] {
      var init := analyses[..|analyses| - 1];
      AllKnownEach(init);
      assert forall i :: 0 <= i < |init| ==> init[i] == analyses[i];
    }
  }

  lemma {:induction false} RatingSum(analyses: seq<StoredAnalysis>)
    ensures RatingCount(analyses, Legit) + RatingCount(analyses, Doubtful) + RatingCount(analyses, ScamRisk)
            <= |analyses|
    ensures RatingCount(analyses, Legit) + RatingCount(analyses, Doubtful) + RatingCount(analyses, ScamRisk)
            == |analyses|
            <==> AllKnown(analyses)
  {
    if analyses != [] {
      RatingSum(analyses[..|analyses| - 1]);
      OneRatingEach(analyses[|analyses| - 1]);
    }
  }

  /** The three rating counts never add up to more than the analyses, and
      add up to exactly that many when every analysis has one of the three
      ratings. */
  lemma RatingsWithinTotal(analyses: seq<StoredAnalysis>)
    ensures RatingCount(analyses, Legit) + RatingCount(analyses, Doubtful) + RatingCount(analyses, ScamRisk)
            <= |analyses|
    ensures RatingCount(analyses, Legit) + RatingCount(analyses, Doubtful) + RatingCount(analyses, ScamRisk)
            == |analyses|
            <==> forall i :: 0 <= i < |analyses| ==> KnownRating(RatingOf(analyses[i]))
  {
    RatingSum(analyses);
    AllKnownEach(analyses);
  }

  /** The trust total lies between the smallest and largest possible sums. */
  lemma {:induction false} TrustTotalBetween(analyses: seq<StoredAnalysis>, lo: int, hi: int)
    requires forall i :: 0 <= i < |analyses| ==> lo <= TrustScoreOf(analyses[i]) <= hi
    ensures lo * |analyses| <= TrustTotal(analyses) <= hi * |analyses|
  {
    if analyses != [] {
      var init := analyses[..|analyses| - 1];
      assert forall i :: 0 <= i < |init| ==> init[i] == analyses[i];
      TrustTotalBetween(init, lo, hi);
      var n := |init|;
      assert lo * (n + 1) == lo * n + lo && hi * (n + 1) == hi * n + hi;
    }
  }

  /** Scores between `lo` and `hi` average to a score between them; with
      scores on a 0 to 100 scale the average stays on that scale, and with no
      analyses it is 0. */
  lemma AverageWithinScores(analyses: seq<StoredAnalysis>, lo: int, hi: int)
    requires lo <= 0 <= hi
    requires forall i :: 0 <= i < |analyses| ==> lo <= TrustScoreOf(analyses[i]) <= hi
    ensures lo <= AverageTrustScore(analyses) <= hi
  {
    if |analyses| > 0 {
      TrustTotalBetween(analyses, lo, hi);
      JsMath.RoundDivBetween(TrustTotal(analyses), |analyses|, lo, hi);
    }
  }

  /** `GET /stats`: the statistics of what the store answers, or its error. */
  method StatsResponse(loaded: Result<seq<StoredAnalysis>, string>, currentMonth: int, currentYear: int)
    returns (r: Result<Stats, string>)
    ensures loaded.Err? ==> r == Err(loaded.error)
    ensures loaded.Ok? ==> r.Ok? && r.value.totalAnalyses == |loaded.value|
                           && r.value.topScamIndicators == TopIndicators(Tally(loaded.value))
                           && r.value.averageTrustScore == AverageTrustScore(loaded.value)
                           && r.value.ratingDistribution == RatingDistribution(RatingCount(loaded.value, Legit),
                                                                               RatingCount(loaded.value, Doubtful),
                                                                               RatingCount(loaded.value, ScamRisk))
                           && r.value.analysesThisMonth == MonthCount(loaded.value, currentMonth, currentYear)
  {
    match loaded
    case Err(e) =>
      r := Err(e);
    case Ok(analyses) =>
      var stats := DashboardStats(analyses, currentMonth, currentYear);
      r := Ok(stats);
  }

  // ---------------------------------------------------------------------
  // GET /csv
  // ---------------------------------------------------------------------

  const CsvHeaders: seq<string> := [
    "Channel Name", "Channel Link", "Subscribers", "Trust Score", "Rating",
    "Bio Consistency", "Content Relevance", "Engagement Ratio", "Scam Indicators", "Analysis Date"]

  function Quoted(s: string): string {
    "\"" + s + "\""
  }

  /** The ten cells of one analysis; `localDate` renders `createdAt` as
      `toLocaleDateString` does. */
  function CsvFields(a: StoredAnalysis, localDate: int -> string): (fields: seq<string>)
    ensures |fields| == |CsvHeaders|
  {
    var cc := a.result.contentCheck;
    [ Quoted(StringOr(a.info.title, a.channelName)),
      Quoted(a.channelLink),
      Strings.IntToString(IntOrZero(a.info.subscribers)),
      Strings.IntToString(TrustScoreOf(a)),
      Quoted(RatingOf(a)),
      Quoted(StringOr(a.result.bioConsistency, "Unknown")),
      Quoted(if cc.Some? then StringOr(cc.value.relevance, "Unknown") else "Unknown"),
      Quoted(if cc.Some? then StringOr(cc.value.engagementRatio, "0%") else "0%"),
      Quoted(if cc.Some? && cc.value.scamIndicators.Some?
             then StringOr(Some(Strings.Join(cc.value.scamIndicators.value, "; ")), "None")
             else "None"),
      localDate(a.createdAt) ]
  }

  function CsvRow(a: StoredAnalysis, localDate: int -> string): string {
    Strings.Join(CsvFields(a, localDate), ",")
  }

  /** The header line, then one line per analysis in the order given. */
  function Csv(analyses: seq<StoredAnalysis>, localDate: int -> string): string {
    Strings.Join([Strings.Join(CsvHeaders, ",")] + CsvRows(analyses, localDate), "\n")
  }

  /** `analyses.map(a => ...join(','))`. */
  function CsvRows(analyses: seq<StoredAnalysis>, localDate: int -> string): (rows: seq<string>)
    ensures |rows| == |analyses| && forall i :: 0 <= i < |analyses| ==> rows[i] == CsvRow(analyses[i], localDate)
  {
    seq(|analyses|, i requires 0 <= i < |analyses| => CsvRow(analyses[i], localDate))
  }

  /** An analysis with nothing but its name, link and date exports the
      defaults: the name for the title, zeroes, `Unknown`, `0%` and `None`. */
  lemma BareAnalysisDefaults(a: StoredAnalysis, localDate: int -> string)
    requires a.info == ChannelInfo(None, None) && a.result == AnalysisResult(None, None, None)
    ensures CsvFields(a, localDate)
            == [Quoted(a.channelName), Quoted(a.channelLink), "0", "0", Quoted("Unknown"), Quoted("Unknown"),
                Quoted("Unknown"), Quoted("0%"), Quoted("None"), localDate(a.createdAt)]
  {
    assert Strings.IntToString(0) == "0";
  }

  /** An empty indicator list exports as `None`, like a missing one. */
  lemma NoIndicatorsExportNone(a: StoredAnalysis, localDate: int -> string)
    requires a.result.contentCheck.Some? && a.result.contentCheck.value.scamIndicators == Some([])
    ensures CsvFields(a, localDate)[8] == Quoted("None")
  {
  }

  /** The header line has its ten column names. */
  lemma HeaderHasTenColumns()
    ensures Strings.Split(Strings.Join(CsvHeaders, ","), ',') == CsvHeaders
    ensures |CsvHeaders| == 10
  {
    Strings.JoinThenSplit(CsvHeaders, ',');
  }

  /** When no cell holds a line break, the export's lines are the header and
      then exactly one row per analysis, in order. */
  lemma CsvLines(analyses: seq<StoredAnalysis>, localDate: int -> string)
    requires forall i :: 0 <= i < |analyses| ==> '\n' !in CsvRow(analyses[i], localDate)
    ensures var lines := Strings.Split(Csv(analyses, localDate), '\n');
            |lines| == |analyses| + 1
            && lines[0] == Strings.Join(CsvHeaders, ",")
            && forall i :: 0 <= i < |analyses| ==> lines[i + 1] == CsvRow(analyses[i], localDate)
  {
    HeaderHasNoLineBreak();
    LinesSplitBack(Strings.Join(CsvHeaders, ","), CsvRows(analyses, localDate));
  }

  /** Lines without line breaks, joined by line breaks, split back into
      themselves. */
  lemma LinesSplitBack(header: string, rows: seq<string>)
    requires '\n' !in header && forall i :: 0 <= i < |rows| ==> '\n' !in rows[i]
    ensures Strings.Split(Strings.Join([header] + rows, "\n"), '\n') == [header] + rows
  {
    var parts := [header] + rows;
    forall k | 0 <= k < |parts| ensures '\n' !in parts[k] {
      if k > 0 {
        assert parts[k] == rows[k - 1];
      }
    }
    Strings.JoinThenSplit(parts, '\n');
  }

  lemma HeaderHasNoLineBreak()
    ensures '\n' !in Strings.Join(CsvHeaders, ",")
  {
    Strings.JoinKeepsOut(CsvHeaders, ",", '\n');
  }

  function NonEmpty(s: Option<string>): Option<string> {
    if s.Some? && s.value != "" then s else None
  }

  /** What the export filters on: each query parameter only when non-empty. */
  datatype CsvFilter = CsvFilter(rating: Option<string>, dateFrom: Option<string>, dateTo: Option<string>)

  function FilterOf(rating: Option<string>, dateFrom: Option<string>, dateTo: Option<string>): (f: CsvFilter)
    ensures f.rating.Some? <==> rating.Some? && rating.value != ""
    ensures f.dateFrom.Some? <==> dateFrom.Some? && dateFrom.value != ""
    ensures f.dateTo.Some? <==> dateTo.Some? && dateTo.value != ""
  {
    CsvFilter(NonEmpty(rating), NonEmpty(dateFrom), NonEmpty(dateTo))
  }

  /** `GET /csv`: the export of the filtered analyses, newest first as the
      store answers them, or the store's error. */
  function CsvResponse(filter: CsvFilter, store: CsvFilter -> Result<seq<StoredAnalysis>, string>,
                       localDate: int -> string): (r: Result<string, string>)
    ensures r.Err? <==> store(filter).Err?
    ensures r.Err? ==> r.error == store(filter).error
    ensures r.Ok? ==> r.value == Csv(store(filter).value, localDate)
  {
    match store(filter)
    case Err(e) => Err(e)
    case Ok(analyses) => Ok(Csv(analyses, localDate))
  }
}
