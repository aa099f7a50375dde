/** The market stage (main.py:47-60): the downloaded daily bars, taken here
    as an input, with their two-level column labels flattened and a
    `daily_return` column added by `pct_change` on the close. */
module Market {
  import opened Values

  /** One daily bar of the index fund. The download may leave any price or
      the volume missing (NaN). */
  datatype Bar = Bar(day: int, close: Option<real>, high: Option<real>, low: Option<real>,
                     open: Option<real>, volume: Option<real>)

  /** A bar together with its `daily_return`. */
  datatype MarketRow = MarketRow(bar: Bar, dailyReturn: Num)

  /** Flattening of two-level column labels into `metric_symbol` names
      (main.py:52-53), e.g. ("Close", "SPY") becomes "Close_SPY". */
  function FlattenLabels(levels: seq<(string, string)>): (r: seq<string>)
    ensures |r| == |levels|
    ensures forall i :: 0 <= i < |r| ==> |r[i]| == |levels[i].0| + 1 + |levels[i].1|
    ensures forall i :: 0 <= i < |r| ==> r[i][..|levels[i].0|] == levels[i].0 && r[i][|levels[i].0|] == '_'
    ensures forall i :: 0 <= i < |r| ==> r[i][|levels[i].0| + 1..] == levels[i].1
  {
    seq(|levels|, i requires 0 <= i < |levels| => levels[i].0 + "_" + levels[i].1)
  }

  /** For a single-symbol download (every second level the same symbol)
      flattening loses nothing: distinct metrics keep distinct names. */
  lemma FlattenSingleSymbolInjective(levels: seq<(string, string)>, symbol: string, i: nat, j: nat)
    requires forall k :: 0 <= k < |levels| ==> levels[k].1 == symbol
    requires i < |levels| && j < |levels|
    requires FlattenLabels(levels)[i] == FlattenLabels(levels)[j]
    ensures levels[i].0 == levels[j].0
  {
    var r := FlattenLabels(levels);
    assert |levels[i].0| == |levels[j].0|;
    assert levels[i].0 == r[i][..|levels[i].0|] == r[j][..|levels[j].0|] == levels[j].0;
  }

  /** The return from the previous close to the current one, as pandas
      computes it: `cur / prev - 1`, NaN when either is missing or both are
      zero, and an infinity when only the previous close is zero, negative
      exactly when the current close is. */
  function Change(prev: Option<real>, cur: Option<real>): (r: Num)
    ensures prev.Some? && cur.Some? && prev.value != 0.0 ==>
      r == Finite((cur.value - prev.value) / prev.value)
    ensures r == NaN <==> prev.None? || cur.None? || (prev.value == 0.0 && cur.value == 0.0)
    ensures r.Infinite? <==> prev == Some(0.0) && cur.Some? && cur.value != 0.0
    ensures r.Infinite? ==> r.negative == (cur.value < 0.0)
  {
    match (prev, cur)
    case (Some(p), Some(c)) =>
      if p != 0.0 then RatioMinusOne(c, p); Finite(c / p - 1.0)
      else if c == 0.0 then NaN
      else Infinite(c < 0.0)
    case _ => NaN
  }

  /** `pct_change()` on the close column (main.py:60): the first bar has
      no previous bar; every other bar gets the percentage change of its
      close from the close of the bar before it, by position. */
  function PctChange(bars: seq<Bar>): (r: seq<Num>)
    ensures |r| == |bars|
    ensures |r| > 0 ==> r[0] == NaN
    ensures forall i {:trigger r[i]} :: 0 < i < |r| && bars[i - 1].close.Some? && bars[i].close.Some? && bars[i - 1].close.value != 0.0 ==>
      r[i] == Finite((bars[i].close.value - bars[i - 1].close.value) / bars[i - 1].close.value)
    ensures forall i {:trigger r[i]} :: 0 < i < |r| ==>
      (r[i] == NaN <==> bars[i - 1].close.None? || bars[i].close.None? ||
                        (bars[i - 1].close.value == 0.0 && bars[i].close.value == 0.0))
    ensures forall i {:trigger r[i]} :: 0 < i < |r| ==>
      (r[i].Infinite? <==> bars[i - 1].close == Some(0.0) && bars[i].close.Some? && bars[i].close.value != 0.0)
    ensures forall i {:trigger r[i]} :: 0 < i < |r| && r[i].Infinite? ==> r[i].negative == (bars[i].close.value < 0.0)
  {
    var r := seq(|bars|, i requires 0 <= i < |bars| => if i == 0 then NaN else Change(bars[i - 1].close, bars[i].close));
    assert forall i {:trigger r[i]} :: 0 < i < |r| ==> r[i] == Change(bars[i - 1].close, bars[i].close);
    r
  }

  lemma RatioMinusOne(c: real, p: real)
    requires p != 0.0
    ensures c / p - 1.0 == (c - p) / p
  {
    var q := c / p;
    var e := (c - p) / p;
    assert q * p == c;
    assert e * p == c - p;
    var x := q - 1.0 - e;
    assert x * p == 0.0;
    assert x == x * p / p;
  }

  /** The bars with their `daily_return` column, in download order. */
  function WithReturns(bars: seq<Bar>): (r: seq<MarketRow>)
    ensures |r| == |bars|
    ensures forall i :: 0 <= i < |r| ==> r[i].bar == bars[i] && r[i].dailyReturn == PctChange(bars)[i]
  {
    var changes := PctChange(bars);
    seq(|bars|, i requires 0 <= i < |bars| => MarketRow(bars[i], changes[i]))
  }

  /** Two closes of 100 and 102 give a return of 0.02 on the second bar. */
  lemma PctChangeExample(day: int, volume: real)
    ensures var first := Bar(day, Some(100.0), Some(101.0), Some(99.0), Some(100.0), Some(volume));
      var second := Bar(day + 1, Some(102.0), Some(103.0), Some(100.0), Some(101.0), Some(volume));
      PctChange([first, second]) == [NaN, Finite(0.02)]
  {
    var first := Bar(day, Some(100.0), Some(101.0), Some(99.0), Some(100.0), Some(volume));
    var second := Bar(day + 1, Some(102.0), Some(103.0), Some(100.0), Some(101.0), Some(volume));
    var r := PctChange([first, second]);
    assert r[1] == Finite((102.0 - 100.0) / 100.0);
  }
}
