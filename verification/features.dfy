/** The merge and feature stage (main.py:63-74): the market rows are
    inner-joined with the daily sentiment on the day, a one-row lag of the
    return and a standardised volume are added, and every row holding a NaN
    in any column is dropped. */
module Features {
  import opened Values
  import opened Seqs
  import Market
  import Daily
  import opened Stats

  /** A market row joined with the sentiment of its day. */
  datatype MergedRow = MergedRow(market: Market.MarketRow, dailySentiment: real)

  /** A merged row with the two derived columns `prev_return` and `volume_scaled`. */
  datatype FeatureRow = FeatureRow(merged: MergedRow, prevReturn: Num, volumeScaled: Num)

  /** The square-root routine used for the standard deviation. It is a
      parameter because a square root is not exact over the reals. */
  type Sqrt = real -> real

  ghost predicate PositiveOnPositives(sqrt: Sqrt) {
    forall x: real :: 0.0 < x ==> 0.0 < sqrt(x)
  }

  function DayOf(m: MergedRow): int {
    m.market.bar.day
  }

  // ---------------------------------------------------------------------
  // Inner merge on the day (main.py:64)
  // ---------------------------------------------------------------------

  /** The rows of `right` on the day of `m`, joined to `m`, in `right`'s order. */
  function Matches(m: Market.MarketRow, right: seq<Daily.DailySentiment>): (r: seq<MergedRow>)
    ensures forall k :: 0 <= k < |r| ==>
      && r[k].market == m
      && exists j :: 0 <= j < |right| && right[j].day == m.bar.day && right[j].value == r[k].dailySentiment
    ensures forall j :: 0 <= j < |right| && right[j].day == m.bar.day ==> MergedRow(m, right[j].value) in r
    decreases |right|
  {
    if |right| == 0 then []
    else
      var front := right[..|right| - 1];
      var last := right[|right| - 1];
      var r := Matches(m, front);
      assert forall j :: 0 <= j < |front| ==> front[j] == right[j];
      if last.day == m.bar.day then r + [MergedRow(m, last.value)] else r
  }

  /** `pd.merge(spy_data, sentiment_df, on='Date', how='inner')`: for each
      market row in order, one merged row per sentiment row of the same day.
      Days present on one side only produce nothing. */
  function Merge(left: seq<Market.MarketRow>, right: seq<Daily.DailySentiment>): (r: seq<MergedRow>)
    ensures forall k :: 0 <= k < |r| ==> r[k].market in left && FromRight(r[k], right)
    ensures forall i, j :: 0 <= i < |left| && 0 <= j < |right| && left[i].bar.day == right[j].day ==>
      MergedRow(left[i], right[j].value) in r
    decreases |left|
  {
    if |left| == 0 then []
    else
      var front, m := left[..|left| - 1], left[|left| - 1];
      var head, tail := Merge(front, right), Matches(m, right);
      assert forall i :: 0 <= i < |front| ==> front[i] == left[i];
      assert forall k :: 0 <= k < |tail| ==> FromRight(tail[k], right);
      head + tail
  }

  /** `row` carries the sentiment of a row of `right` on its own day. */
  predicate FromRight(row: MergedRow, right: seq<Daily.DailySentiment>) {
    exists j :: 0 <= j < |right| && right[j].day == DayOf(row) && right[j].value == row.dailySentiment
  }

  predicate DistinctDays(right: seq<Daily.DailySentiment>) {
    forall j, k :: 0 <= j < k < |right| ==> right[j].day != right[k].day
  }

  /** The sentiment of `day` in a table with one row per day. */
  function Lookup(right: seq<Daily.DailySentiment>, day: int): (v: Option<real>)
    ensures v.Some? <==> exists j :: 0 <= j < |right| && right[j].day == day
    ensures v.Some? ==> exists j :: 0 <= j < |right| && right[j].day == day && right[j].value == v.value
    decreases |right|
  {
    if |right| == 0 then None
    else if right[|right| - 1].day == day then Some(right[|right| - 1].value)
    else
      var front := right[..|right| - 1];
      assert forall j :: 0 <= j < |front| ==> front[j] == right[j];
      Lookup(front, day)
  }

  function Joiner(right: seq<Daily.DailySentiment>): Market.MarketRow -> Option<MergedRow> {
    (m: Market.MarketRow) => match Lookup(right, m.bar.day)
         case Some(v) => Some(MergedRow(m, v))
         case None => None
  }

  lemma {:induction false} MatchesUnique(m: Market.MarketRow, right: seq<Daily.DailySentiment>)
    requires DistinctDays(right)
    ensures Matches(m, right) == match Joiner(right)(m) case Some(row) => [row] case None => []
    decreases |right|
  {
    if |right| > 0 {
      var front := right[..|right| - 1];
      var last := right[|right| - 1];
      assert DistinctDays(front);
      if last.day == m.bar.day {
        NoMatches(m, front);
      } else {
        MatchesUnique(m, front);
      }
    }
  }

  lemma {:induction false} NoMatches(m: Market.MarketRow, right: seq<Daily.DailySentiment>)
    requires forall j :: 0 <= j < |right| ==> right[j].day != m.bar.day
    ensures Matches(m, right) == []
    decreases |right|
  {
    if |right| > 0 {
      NoMatches(m, right[..|right| - 1]);
    }
  }

  /** Because the daily table has one row per day, the inner merge keeps
      each market row at most once, with the sentiment of its day, in the
      market table's order: it is a filter of the market rows. */
  lemma {:induction false} MergeIsFilter(left: seq<Market.MarketRow>, right: seq<Daily.DailySentiment>)
    requires DistinctDays(right)
    ensures Merge(left, right) == FilterMap(left, Joiner(right))
    decreases |left|
  {
    if |left| > 0 {
      MergeIsFilter(left[..|left| - 1], right);
      MatchesUnique(left[|left| - 1], right);
    }
  }

  /** The merged table is no longer than the market table, and when the
      market days are distinct too, no longer than the daily table. */
  lemma MergeLength(left: seq<Market.MarketRow>, right: seq<Daily.DailySentiment>)
    requires DistinctDays(right)
    ensures |Merge(left, right)| <= |left|
    ensures Distinct(MarketDays(left)) ==> |Merge(left, right)| <= |right|
  {
    MergeIsFilter(left, right);
    if Distinct(MarketDays(left)) {
      var merged := Merge(left, right);
      MergedDaysDistinct(left, right);
      DistinctCard(MergedDays(merged));
      SetCardAtMostLength(RightDays(right));
      MergedDaysInRight(left, right);
      SubsetCard(set x | x in MergedDays(merged), set x | x in RightDays(right));
    }
  }

  function MergedDays(merged: seq<MergedRow>): (r: seq<int>)
    ensures |r| == |merged| && forall k :: 0 <= k < |r| ==> r[k] == DayOf(merged[k])
  {
    seq(|merged|, k requires 0 <= k < |merged| => DayOf(merged[k]))
  }

  function RightDays(right: seq<Daily.DailySentiment>): (r: seq<int>)
    ensures |r| == |right| && forall j :: 0 <= j < |r| ==> r[j] == right[j].day
  {
    seq(|right|, j requires 0 <= j < |right| => right[j].day)
  }

  lemma MergedDaysDistinct(left: seq<Market.MarketRow>, right: seq<Daily.DailySentiment>)
    requires DistinctDays(right) && Distinct(MarketDays(left))
    ensures Distinct(MergedDays(Merge(left, right)))
  {
    MergeIsFilter(left, right);
    var f := Joiner(right);
    var merged := Merge(left, right);
    var kept := Kept(left, f);
    var mdays := MergedDays(merged);
    forall k, m | 0 <= k < m < |mdays|
      ensures mdays[k] != mdays[m]
    {
      assert f(left[kept[k]]) == Some(merged[k]);
      assert f(left[kept[m]]) == Some(merged[m]);
      assert MarketDays(left)[kept[k]] != MarketDays(left)[kept[m]];
    }
  }

  lemma MergedDaysInRight(left: seq<Market.MarketRow>, right: seq<Daily.DailySentiment>)
    ensures (set x | x in MergedDays(Merge(left, right))) <= (set x | x in RightDays(right))
  {
    var merged := Merge(left, right);
    var mdays, rdays := MergedDays(merged), RightDays(right);
    forall x | x in mdays
      ensures x in rdays
    {
      var k :| 0 <= k < |mdays| && mdays[k] == x;
      var j :| 0 <= j < |right| && right[j].day == DayOf(merged[k]) && right[j].value == merged[k].dailySentiment;
      assert rdays[j] == x;
    }
  }

  lemma SubsetCard<T>(a: set<T>, b: set<T>)
    requires a <= b
    ensures |a| <= |b|
  {
    assert b == a + (b - a);
  }

  function MarketDays(left: seq<Market.MarketRow>): (r: seq<int>)
    ensures |r| == |left| && forall i :: 0 <= i < |r| ==> r[i] == left[i].bar.day
  {
    seq(|left|, i requires 0 <= i < |left| => left[i].bar.day)
  }

  // ---------------------------------------------------------------------
  // Lagged return (main.py:68)
  // ---------------------------------------------------------------------

  /** `shift(1)` on a column: every value moves down one row by position and
      the first row gets NaN. */
  function Shift(xs: seq<Num>): (r: seq<Num>)
    ensures |r| == |xs|
    ensures |r| > 0 ==> r[0] == NaN
    ensures forall i {:trigger r[i]} :: 0 < i < |r| ==> r[i] == xs[i - 1]
  {
    if |xs| == 0 then [] else [NaN] + xs[..|xs| - 1]
  }

  // ---------------------------------------------------------------------
  // Standardised volume (main.py:71)
  // ---------------------------------------------------------------------

  /** The non-missing values of a column, in order: what `mean` and `std` use. */
  function Present(vols: seq<Option<real>>): (xs: seq<real>)
    ensures |xs| <= |vols|
  {
    if |vols| == 0 then []
    else Present(vols[..|vols| - 1]) + match vols[|vols| - 1] case Some(v) => [v] case None => []
  }

  /** `(v - m) / sd` on every present value; NaN for a missing one. */
  function Standardise(vols: seq<Option<real>>, m: real, sd: real): (r: seq<Num>)
    requires sd != 0.0
    ensures |r| == |vols|
    ensures forall i :: 0 <= i < |r| ==> (r[i] == NaN <==> vols[i].None?) && !r[i].Infinite?
  {
    seq(|vols|, i requires 0 <= i < |vols| => match vols[i] case None => NaN case Some(v) => Finite((v - m) / sd))
  }

  /** `(v - v.mean()) / v.std()` over the whole column. The result is NaN
      for a missing volume, and for every row when fewer than two volumes
      are present (`std` is NaN) or all present volumes are equal (0 / 0). */
  function VolumeScaled(vols: seq<Option<real>>, sqrt: Sqrt): (r: seq<Num>)
    requires PositiveOnPositives(sqrt)
    ensures |r| == |vols|
    ensures forall i :: 0 <= i < |r| ==>
      (r[i] == NaN <==> vols[i].None? || |Present(vols)| < 2 || AllEqual(Present(vols)))
    ensures forall i :: 0 <= i < |r| ==> !r[i].Infinite?
  {
    var xs := Present(vols);
    if |xs| < 2 then seq(|vols|, i => NaN)
    else
      var variance := Variance(xs);
      VarianceZeroIffAllEqual(xs);
      if variance == 0.0 then seq(|vols|, i => NaN)
      else
        var sd := sqrt(variance);
        assert sd > 0.0;
        Standardise(vols, Mean(xs), sd)
  }

  /** The finite values of a derived column, in order. */
  function FiniteValues(r: seq<Num>): seq<real> {
    if |r| == 0 then []
    else FiniteValues(r[..|r| - 1]) + match r[|r| - 1] case Finite(v) => [v] case _ => []
  }

  /** The finite values `Standardise` produces are the present values, scaled. */
  lemma {:induction false} StandardiseFinite(vols: seq<Option<real>>, m: real, sd: real)
    requires sd != 0.0
    ensures FiniteValues(Standardise(vols, m, sd)) == Scaled(Present(vols), m, sd)
    decreases |vols|
  {
    if |vols| > 0 {
      var front := vols[..|vols| - 1];
      var r, rf := Standardise(vols, m, sd), Standardise(front, m, sd);
      assert r[..|r| - 1] == rf;
      StandardiseFinite(front, m, sd);
      match vols[|vols| - 1]
      case None =>
        assert r[|r| - 1] == NaN;
        assert FiniteValues(r) == FiniteValues(rf);
        assert Present(vols) == Present(front);
      case Some(v) =>
        assert r[|r| - 1] == Finite((v - m) / sd);
        assert FiniteValues(r) == FiniteValues(rf) + [(v - m) / sd];
        var xs := Present(vols);
        assert xs == Present(front) + [v];
        assert xs[..|xs| - 1] == Present(front);
        assert Scaled(xs, m, sd) == Scaled(Present(front), m, sd) + [(v - m) / sd];
    }
  }

  lemma VolumeScaledIsStandardise(vols: seq<Option<real>>, sqrt: Sqrt)
    requires PositiveOnPositives(sqrt)
    requires |Present(vols)| >= 2 && !AllEqual(Present(vols))
    ensures sqrt(Variance(Present(vols))) > 0.0
    ensures FiniteValues(VolumeScaled(vols, sqrt)) == Scaled(Present(vols), Mean(Present(vols)), sqrt(Variance(Present(vols))))
  {
    VarianceZeroIffAllEqual(Present(vols));
    StandardiseFinite(vols, Mean(Present(vols)), sqrt(Variance(Present(vols))));
  }

  /** Over the merged table the standardised volumes sum to zero: their
      sample mean is 0, before any row is dropped. */
  lemma VolumeScaledCentred(vols: seq<Option<real>>, sqrt: Sqrt)
    requires PositiveOnPositives(sqrt)
    requires |Present(vols)| >= 2 && !AllEqual(Present(vols))
    ensures Sum(FiniteValues(VolumeScaled(vols, sqrt))) == 0.0
  {
    VolumeScaledIsStandardise(vols, sqrt);
    ScaledAroundMeanSumsToZero(Present(vols), sqrt(Variance(Present(vols))));
  }

  /** When the routine returns an exact square root, the standardised
      volumes have sample variance 1: their squares sum to n - 1. */
  lemma VolumeScaledUnitVariance(vols: seq<Option<real>>, sqrt: Sqrt)
    requires PositiveOnPositives(sqrt)
    requires |Present(vols)| >= 2 && !AllEqual(Present(vols))
    requires Square(sqrt(Variance(Present(vols)))) == Variance(Present(vols))
    ensures SumSquares(FiniteValues(VolumeScaled(vols, sqrt))) == (|Present(vols)| - 1) as real
  {
    VolumeScaledIsStandardise(vols, sqrt);
    ScaledUnitVariance(Present(vols), sqrt(Variance(Present(vols))));
  }

  /** Volumes 1, 2 and 3 have mean 2 and sample variance 1, so they scale
      to -1, 0 and 1. Once `dropna` removes the first row, the scaled
      volumes left are 0 and 1, whose mean is not 0. */
  lemma VolumeScaledExample(sqrt: Sqrt)
    requires PositiveOnPositives(sqrt) && sqrt(1.0) == 1.0
    ensures VolumeScaled([Some(1.0), Some(2.0), Some(3.0)], sqrt) == [Finite(-1.0), Finite(0.0), Finite(1.0)]
  {
    var vols: seq<Option<real>> := [Some(1.0), Some(2.0), Some(3.0)];
    var xs: seq<real> := [1.0, 2.0, 3.0];
    assert vols[..2][..1] == [vols[0]] && vols[..2][..1][..0] == [];
    assert Present(vols) == xs;
    ThreeValues();
    VarianceZeroIffAllEqual(xs);
    var r := VolumeScaled(vols, sqrt);
    assert r == Standardise(vols, 2.0, 1.0);
  }

  // ---------------------------------------------------------------------
  // Derived columns and dropna (main.py:68-74)
  // ---------------------------------------------------------------------

  function Returns(merged: seq<MergedRow>): (r: seq<Num>)
    ensures |r| == |merged| && forall i :: 0 <= i < |r| ==> r[i] == merged[i].market.dailyReturn
  {
    seq(|merged|, i requires 0 <= i < |merged| => merged[i].market.dailyReturn)
  }

  function Volumes(merged: seq<MergedRow>): (r: seq<Option<real>>)
    ensures |r| == |merged| && forall i :: 0 <= i < |r| ==> r[i] == merged[i].market.bar.volume
  {
    seq(|merged|, i requires 0 <= i < |merged| => merged[i].market.bar.volume)
  }

  /** The merged table with `prev_return` and `volume_scaled` added. */
  function AddFeatures(merged: seq<MergedRow>, sqrt: Sqrt): (r: seq<FeatureRow>)
    requires PositiveOnPositives(sqrt)
    ensures |r| == |merged|
    ensures forall i :: 0 <= i < |r| ==> r[i].merged == merged[i]
    ensures |r| > 0 ==> r[0].prevReturn == NaN
    ensures forall i {:trigger r[i]} :: 0 < i < |r| ==> r[i].prevReturn == merged[i - 1].market.dailyReturn
    ensures forall i :: 0 <= i < |r| ==> r[i].volumeScaled == VolumeScaled(Volumes(merged), sqrt)[i]
  {
    var lagged := Shift(Returns(merged));
    var scaled := VolumeScaled(Volumes(merged), sqrt);
    seq(|merged|, i requires 0 <= i < |merged| => FeatureRow(merged[i], lagged[i], scaled[i]))
  }

  predicate BarComplete(b: Market.Bar) {
    b.close.Some? && b.high.Some? && b.low.Some? && b.open.Some? && b.volume.Some?
  }

  /** No column of the row is NaN. Infinite values are not NaN. */
  predicate Complete(f: FeatureRow) {
    && BarComplete(f.merged.market.bar)
    && f.merged.market.dailyReturn != NaN
    && f.prevReturn != NaN
    && f.volumeScaled != NaN
  }

  function KeepComplete(f: FeatureRow): Option<FeatureRow> {
    if Complete(f) then Some(f) else None
  }

  /** `dropna()` without a subset: a row is dropped when any column,
      derived or downloaded, is NaN; the others keep their order. */
  function DropNa(rows: seq<FeatureRow>): (r: seq<FeatureRow>)
    ensures |r| == |Kept(rows, KeepComplete)| <= |rows|
    ensures forall k :: 0 <= k < |r| ==> Complete(r[k])
    ensures forall k :: 0 <= k < |r| ==> r[k] == rows[Kept(rows, KeepComplete)[k]]
    ensures forall i :: 0 <= i < |rows| ==> (i in Kept(rows, KeepComplete) <==> Complete(rows[i]))
  {
    var r := FilterMap(rows, KeepComplete);
    var kept := Kept(rows, KeepComplete);
    forall i | 0 <= i < |rows| && i in kept
      ensures Complete(rows[i])
    {
      var k :| 0 <= k < |kept| && kept[k] == i;
    }
    r
  }

  /** The first merged row never reaches the feature table: its lag is NaN. */
  lemma FirstMergedRowDropped(merged: seq<MergedRow>, sqrt: Sqrt)
    requires PositiveOnPositives(sqrt) && |merged| > 0
    ensures 0 !in Kept(AddFeatures(merged, sqrt), KeepComplete)
    ensures |DropNa(AddFeatures(merged, sqrt))| < |merged|
  {
    var rows := AddFeatures(merged, sqrt);
    assert !Complete(rows[0]);
    assert rows == [rows[0]] + rows[1..];
    FilterMapAppend([rows[0]], rows[1..], KeepComplete);
    assert FilterMap([rows[0]], KeepComplete) == [];
  }

  /** In the feature table, `prev_return` is the return of the merged row
      just before the row's own position in the merged table, whatever
      the calendar gap between the two days. */
  lemma PrevReturnIsPositional(merged: seq<MergedRow>, sqrt: Sqrt, k: nat)
    requires PositiveOnPositives(sqrt)
    requires k < |DropNa(AddFeatures(merged, sqrt))|
    ensures var i := Kept(AddFeatures(merged, sqrt), KeepComplete)[k];
      && 0 < i < |merged|
      && DropNa(AddFeatures(merged, sqrt))[k].merged == merged[i]
      && DropNa(AddFeatures(merged, sqrt))[k].prevReturn == merged[i - 1].market.dailyReturn
  {
    var rows := AddFeatures(merged, sqrt);
    var i := Kept(rows, KeepComplete)[k];
    FirstMergedRowDropped(merged, sqrt);
    assert i != 0;
  }

  /** Every row of the final table is a complete merged row other than the first. */
  lemma FinalRowsAreMergedRows(merged: seq<MergedRow>, sqrt: Sqrt)
    requires PositiveOnPositives(sqrt)
    ensures var rows := DropNa(AddFeatures(merged, sqrt));
      forall k :: 0 <= k < |rows| ==>
        rows[k].merged.market.dailyReturn != NaN && exists i :: 0 < i < |merged| && rows[k].merged == merged[i]
  {
    var rows := DropNa(AddFeatures(merged, sqrt));
    forall k | 0 <= k < |rows|
      ensures exists i :: 0 < i < |merged| && rows[k].merged == merged[i]
    {
      PrevReturnIsPositional(merged, sqrt, k);
    }
  }

  /** Three merged rows with complete bars, known returns and volumes 1, 2
      and 3: `dropna` keeps the last two, whose scaled volumes 0 and 1 do
      not average to 0, so the final table is not centred. */
  lemma DroppedTableNotCentred(merged: seq<MergedRow>, sqrt: Sqrt)
    requires PositiveOnPositives(sqrt) && sqrt(1.0) == 1.0
    requires |merged| == 3
    requires forall i :: 0 <= i < 3 ==> BarComplete(merged[i].market.bar) && merged[i].market.dailyReturn != NaN
    requires merged[0].market.bar.volume == Some(1.0)
    requires merged[1].market.bar.volume == Some(2.0)
    requires merged[2].market.bar.volume == Some(3.0)
    ensures var rows := DropNa(AddFeatures(merged, sqrt));
      && |rows| == 2
      && rows[0].merged == merged[1] && rows[1].merged == merged[2]
      && rows[0].volumeScaled == Finite(0.0) && rows[1].volumeScaled == Finite(1.0)
  {
    var rows := AddFeatures(merged, sqrt);
    assert Volumes(merged) == [Some(1.0), Some(2.0), Some(3.0)];
    VolumeScaledExample(sqrt);
    assert !Complete(rows[0]) && Complete(rows[1]) && Complete(rows[2]);
    DropFirstOfThree(rows);
  }

  lemma DropFirstOfThree(rows: seq<FeatureRow>)
    requires |rows| == 3 && !Complete(rows[0]) && Complete(rows[1]) && Complete(rows[2])
    ensures DropNa(rows) == [rows[1], rows[2]]
  {
    assert rows == [rows[0]] + ([rows[1]] + [rows[2]]);
    FilterMapAppend([rows[1]], [rows[2]], KeepComplete);
    FilterMapAppend([rows[0]], [rows[1]] + [rows[2]], KeepComplete);
    assert FilterMap([rows[0]], KeepComplete) == [];
    assert FilterMap([rows[1]], KeepComplete) == [rows[1]];
    assert FilterMap([rows[2]], KeepComplete) == [rows[2]];
  }
}
