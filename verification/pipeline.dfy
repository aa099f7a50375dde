/** The whole script as one function (main.py:29-74): load the three
    headline files, stack them, score and average per day, join with the
    market bars, add the lag and the scaled volume, and drop incomplete
    rows. The OLS fit and the plot that follow are not modelled. */
module Pipeline {
  import opened Values
  import opened Seqs
  import Loader
  import Daily
  import Market
  import Features

  /** One headline file together with the date parser pandas settles on
      for its date column. */
  datatype Source = Source(table: Loader.RawTable, parse: Loader.Parser)

  function Load(s: Source): Result<seq<Loader.Article>, Loader.LoadError> {
    Loader.LoadAndClean(s.table, s.parse)
  }

  /** The three `load_and_clean` calls and the `concat` (main.py:30-35).
      The script stops at the first file that fails, so the error reported
      is that file's. */
  function LoadAll(a: Source, b: Source, c: Source): (r: Result<seq<Loader.Article>, Loader.LoadError>)
    ensures r.Ok? <==> Load(a).Ok? && Load(b).Ok? && Load(c).Ok?
    ensures r.Ok? ==> r.value == Daily.Combine(Load(a).value, Load(b).value, Load(c).value)
    ensures Load(a).Err? ==> r == Err(Load(a).error)
    ensures Load(a).Ok? && Load(b).Err? ==> r == Err(Load(b).error)
    ensures Load(a).Ok? && Load(b).Ok? && Load(c).Err? ==> r == Err(Load(c).error)
  {
    match Load(a)
    case Err(e) => Err(e)
    case Ok(x) =>
      match Load(b)
      case Err(e) => Err(e)
      case Ok(y) =>
        match Load(c)
        case Err(e) => Err(e)
        case Ok(z) => Ok(Daily.Combine(x, y, z))
  }

  /** The scored headlines of the combined table (main.py:39). */
  function ScoredArticles(arts: seq<Loader.Article>, score: Daily.Scorer): seq<Daily.Scored> {
    Daily.ScoreAll(arts, score)
  }

  /** `daily_sentiment` (main.py:42-45). */
  function DailyTable(arts: seq<Loader.Article>, score: Daily.Scorer): seq<Daily.DailySentiment> {
    Daily.GroupMean(ScoredArticles(arts, score))
  }

  /** `merged` before the derived columns (main.py:60-64). */
  function Merged(arts: seq<Loader.Article>, score: Daily.Scorer, bars: seq<Market.Bar>): seq<Features.MergedRow> {
    Features.Merge(Market.WithReturns(bars), DailyTable(arts, score))
  }

  /** `merged` after `dropna` (main.py:68-74): the table the regression
      receives. Every row is complete, and at least one merged row is
      always lost, so the table is shorter than the bar series unless it
      is empty. */
  function FeatureTable(arts: seq<Loader.Article>, score: Daily.Scorer, bars: seq<Market.Bar>, sqrt: Features.Sqrt): (rows: seq<Features.FeatureRow>)
    requires Features.PositiveOnPositives(sqrt)
    ensures forall k :: 0 <= k < |rows| ==> Features.Complete(rows[k])
    ensures |rows| == 0 || |rows| < |bars|
  {
    var merged := Merged(arts, score, bars);
    var rows := Features.DropNa(Features.AddFeatures(merged, sqrt));
    assert Features.DistinctDays(DailyTable(arts, score));
    Features.MergeLength(Market.WithReturns(bars), DailyTable(arts, score));
    if |merged| == 0 then rows
    else
      Features.FirstMergedRowDropped(merged, sqrt);
      rows
  }

  /** The whole run. Without time zones, it fails exactly when a headline
      file lacks a usable date or headline column; otherwise it yields
      complete rows only. */
  function Run(a: Source, b: Source, c: Source, score: Daily.Scorer, bars: seq<Market.Bar>, sqrt: Features.Sqrt): (r: Result<seq<Features.FeatureRow>, Loader.LoadError>)
    requires Features.PositiveOnPositives(sqrt)
    ensures r.Ok? <==> Load(a).Ok? && Load(b).Ok? && Load(c).Ok?
    ensures r.Err? ==> r.error == LoadAll(a, b, c).error
    ensures r.Ok? ==> forall k :: 0 <= k < |r.value| ==> Features.Complete(r.value[k])
  {
    match LoadAll(a, b, c)
    case Err(e) => Err(e)
    case Ok(arts) => Ok(FeatureTable(arts, score, bars, sqrt))
  }

  /** The inner join keeps at most one row per bar, and, when the bars are
      on distinct days, at most one row per headline day. */
  lemma MergedLength(arts: seq<Loader.Article>, score: Daily.Scorer, bars: seq<Market.Bar>)
    ensures |Merged(arts, score, bars)| <= |bars|
    ensures Distinct(Features.MarketDays(Market.WithReturns(bars))) ==>
      |Merged(arts, score, bars)| <= |Daily.Days(ScoredArticles(arts, score))|
  {
    assert Features.DistinctDays(DailyTable(arts, score));
    Features.MergeLength(Market.WithReturns(bars), DailyTable(arts, score));
  }

  /** Where each value of a merged row comes from: its bar is one of the
      downloaded bars other than the first, its return is the percentage
      change of close at that position, and its sentiment is the mean of
      every scored headline on the bar's calendar day. */
  predicate Traced(row: Features.MergedRow, bars: seq<Market.Bar>, xs: seq<Daily.Scored>) {
    && (exists j :: 0 < j < |bars| && row.market.bar == bars[j] && row.market.dailyReturn == Market.PctChange(bars)[j])
    && Daily.CountOn(xs, row.market.bar.day) > 0
    && row.dailySentiment == Daily.MeanOn(xs, row.market.bar.day)
  }

  /** Every merged row with a return is traced to its bar and its headlines. */
  lemma MergedRowsTraced(arts: seq<Loader.Article>, score: Daily.Scorer, bars: seq<Market.Bar>)
    ensures var merged := Merged(arts, score, bars);
      forall i :: 0 <= i < |merged| && merged[i].market.dailyReturn != NaN ==>
        Traced(merged[i], bars, ScoredArticles(arts, score))
  {
    MarketProvenance(bars, DailyTable(arts, score));
    SentimentProvenance(ScoredArticles(arts, score), Market.WithReturns(bars));
  }

  /** Every row of the final table is traced to its bar and its headlines. */
  lemma FeatureRowProvenance(arts: seq<Loader.Article>, score: Daily.Scorer, bars: seq<Market.Bar>, sqrt: Features.Sqrt)
    requires Features.PositiveOnPositives(sqrt)
    ensures var table := FeatureTable(arts, score, bars, sqrt);
      forall k :: 0 <= k < |table| ==> Traced(table[k].merged, bars, ScoredArticles(arts, score))
  {
    var merged := Merged(arts, score, bars);
    var table := FeatureTable(arts, score, bars, sqrt);
    assert table == Features.DropNa(Features.AddFeatures(merged, sqrt));
    Features.FinalRowsAreMergedRows(merged, sqrt);
    MergedRowsTraced(arts, score, bars);
  }

  /** A merged row with a return comes from a bar other than the first and
      carries the percentage change at that bar's position. */
  lemma MarketProvenance(bars: seq<Market.Bar>, right: seq<Daily.DailySentiment>)
    ensures var merged := Features.Merge(Market.WithReturns(bars), right);
      forall i :: 0 <= i < |merged| && merged[i].market.dailyReturn != NaN ==>
        exists j :: 0 < j < |bars| && merged[i].market.bar == bars[j] && merged[i].market.dailyReturn == Market.PctChange(bars)[j]
  {
    var left := Market.WithReturns(bars);
    var merged := Features.Merge(left, right);
    forall i | 0 <= i < |merged| && merged[i].market.dailyReturn != NaN
      ensures exists j :: 0 < j < |bars| && merged[i].market.bar == bars[j] && merged[i].market.dailyReturn == Market.PctChange(bars)[j]
    {
      assert merged[i].market in left;
      var j :| 0 <= j < |left| && left[j] == merged[i].market;
      assert Market.PctChange(bars)[0] == NaN;
      assert j != 0;
    }
  }

  /** A merged row's sentiment is the mean of the headlines on its day. */
  lemma SentimentProvenance(xs: seq<Daily.Scored>, left: seq<Market.MarketRow>)
    ensures var merged := Features.Merge(left, Daily.GroupMean(xs));
      forall i :: 0 <= i < |merged| ==>
        Daily.CountOn(xs, merged[i].market.bar.day) > 0 && merged[i].dailySentiment == Daily.MeanOn(xs, merged[i].market.bar.day)
  {
    var right := Daily.GroupMean(xs);
    var merged := Features.Merge(left, right);
    forall i | 0 <= i < |merged|
      ensures Daily.CountOn(xs, merged[i].market.bar.day) > 0 && merged[i].dailySentiment == Daily.MeanOn(xs, merged[i].market.bar.day)
    {
      var jr :| 0 <= jr < |right| && right[jr].day == Features.DayOf(merged[i]) && right[jr].value == merged[i].dailySentiment;
    }
  }

  /** A score of 0.5, -0.2 and 0.3 for three headlines on day `d`, and
      closes of 100 on the day before and 102 on `d`: the daily sentiment
      is 0.2, the return of the second bar 0.02, the single merged row
      carries both, and `dropna` leaves nothing, because that row has no
      lagged return. */
  lemma WorkedExample(score: Daily.Scorer, sqrt: Features.Sqrt, d: int, volume: real)
    requires score("a") == 0.5 && score("b") == -0.2 && score("c") == 0.3
    requires Features.PositiveOnPositives(sqrt)
    ensures var arts := [Loader.Article(Loader.Timestamp(d, 9), "a"), Loader.Article(Loader.Timestamp(d, 12), "b"), Loader.Article(Loader.Timestamp(d, 15), "c")];
      var bars := [Market.Bar(d - 1, Some(100.0), Some(101.0), Some(99.0), Some(100.0), Some(volume)),
                   Market.Bar(d, Some(102.0), Some(103.0), Some(100.0), Some(101.0), Some(volume))];
      && DailyTable(arts, score) == [Daily.DailySentiment(d, 0.2)]
      && Merged(arts, score, bars) == [Features.MergedRow(Market.MarketRow(bars[1], Finite(0.02)), 0.2)]
      && FeatureTable(arts, score, bars, sqrt) == []
  {
    var arts := [Loader.Article(Loader.Timestamp(d, 9), "a"), Loader.Article(Loader.Timestamp(d, 12), "b"), Loader.Article(Loader.Timestamp(d, 15), "c")];
    var bars := [Market.Bar(d - 1, Some(100.0), Some(101.0), Some(99.0), Some(100.0), Some(volume)),
                 Market.Bar(d, Some(102.0), Some(103.0), Some(100.0), Some(101.0), Some(volume))];
    var xs := ScoredArticles(arts, score);
    assert xs == [Daily.Scored(d, 0.5), Daily.Scored(d, -0.2), Daily.Scored(d, 0.3)];
    ExampleDaily(xs, d);
    var left := Market.WithReturns(bars);
    Market.PctChangeExample(d - 1, volume);
    assert left == [Market.MarketRow(bars[0], NaN), Market.MarketRow(bars[1], Finite(0.02))];
    var right := [Daily.DailySentiment(d, 0.2)];
    MergeExample(left, right);
    Features.FirstMergedRowDropped(Merged(arts, score, bars), sqrt);
  }

  lemma MergeExample(left: seq<Market.MarketRow>, right: seq<Daily.DailySentiment>)
    requires |left| == 2 && |right| == 1
    requires left[0].bar.day != right[0].day && left[1].bar.day == right[0].day
    ensures Features.Merge(left, right) == [Features.MergedRow(left[1], right[0].value)]
  {
    assert right[..0] == [];
    assert Features.Matches(left[0], right) == Features.Matches(left[0], []);
    assert Features.Matches(left[1], right) == Features.Matches(left[1], []) + [Features.MergedRow(left[1], right[0].value)];
    assert left[..1][..0] == [];
    assert Features.Merge(left[..1], right) == Features.Merge([], right) + Features.Matches(left[0], right);
  }

  lemma ExampleDaily(xs: seq<Daily.Scored>, d: int)
    requires xs == [Daily.Scored(d, 0.5), Daily.Scored(d, -0.2), Daily.Scored(d, 0.3)]
    ensures Daily.GroupMean(xs) == [Daily.DailySentiment(d, 0.2)]
  {
    assert Daily.Days(xs) == {d} by {
      assert forall x :: x in xs ==> x.day == d;
      assert xs[0] in xs;
    }
    var x1, x2 := xs[..1], xs[..2];
    assert x1[..0] == [] && x2[..1] == x1 && xs[..2] == x2;
    assert Daily.SumOn(x1, d) == 0.5 && Daily.CountOn(x1, d) == 1;
    assert Daily.SumOn(x2, d) == 0.3 && Daily.CountOn(x2, d) == 2;
    assert Daily.SumOn(xs, d) == 0.6 && Daily.CountOn(xs, d) == 3;
    var r := Daily.GroupMean(xs);
    assert |r| == 1;
    assert r[0].day == d;
  }
}
