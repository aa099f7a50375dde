/** The aggregation stage (main.py:35-45): the three cleaned files are
    stacked, each headline is scored, and the scores are averaged per
    calendar day. The scorer is a parameter: any function from headline text
    to a real number. */
module Daily {
  import opened Values
  import Loader
  import Seqs

  /** A scored headline reduced to the calendar day of its date. */
  datatype Scored = Scored(day: int, sentiment: real)

  /** One row of the daily sentiment table: a day and its mean score. */
  datatype DailySentiment = DailySentiment(day: int, value: real)

  type Scorer = string -> real

  /** `pd.concat([df1, df2, df3], ignore_index=True)`: the files in order,
      every row kept, duplicates included. */
  function Combine(a: seq<Loader.Article>, b: seq<Loader.Article>, c: seq<Loader.Article>): (r: seq<Loader.Article>)
    ensures |r| == |a| + |b| + |c|
    ensures r[..|a|] == a && r[|a|..|a| + |b|] == b && r[|a| + |b|..] == c
  {
    a + b + c
  }

  /** The sentiment column (main.py:39) keyed by the calendar day of the
      date, the time of day being discarded (main.py:42). */
  function ScoreAll(arts: seq<Loader.Article>, score: Scorer): (r: seq<Scored>)
    ensures |r| == |arts|
    ensures forall i :: 0 <= i < |r| ==> r[i].day == arts[i].date.day && r[i].sentiment == score(arts[i].headline)
  {
    seq(|arts|, i requires 0 <= i < |arts| => Scored(arts[i].date.day, score(arts[i].headline)))
  }

  function Days(xs: seq<Scored>): set<int> {
    set x | x in xs :: x.day
  }

  /** The sum of the scores of the rows on day `d`. */
  function SumOn(xs: seq<Scored>, d: int): real {
    if |xs| == 0 then 0.0
    else SumOn(xs[..|xs| - 1], d) + (if xs[|xs| - 1].day == d then xs[|xs| - 1].sentiment else 0.0)
  }

  /** The number of rows on day `d`. */
  function CountOn(xs: seq<Scored>, d: int): nat {
    if |xs| == 0 then 0
    else CountOn(xs[..|xs| - 1], d) + (if xs[|xs| - 1].day == d then 1 else 0)
  }

  /** The arithmetic mean of the scores of the rows on day `d`. */
  function MeanOn(xs: seq<Scored>, d: int): real
    requires CountOn(xs, d) > 0
  {
    SumOn(xs, d) / CountOn(xs, d) as real
  }

  lemma {:induction false} CountOnPositive(xs: seq<Scored>, d: int)
    ensures CountOn(xs, d) > 0 <==> d in Days(xs)
    ensures CountOn(xs, d) == 0 ==> SumOn(xs, d) == 0.0
    decreases |xs|
  {
    if |xs| > 0 {
      var front := xs[..|xs| - 1];
      CountOnPositive(front, d);
      assert Days(xs) == Days(front) + {xs[|xs| - 1].day} by {
        assert xs == front + [xs[|xs| - 1]];
      }
    }
  }

  predicate StrictlyIncreasing(s: seq<int>) {
    forall k, m :: 0 <= k < m < |s| ==> s[k] < s[m]
  }

  function Insert(s: seq<int>, d: int): (r: seq<int>)
    requires StrictlyIncreasing(s)
    ensures StrictlyIncreasing(r)
    ensures forall x :: x in r <==> x in s || x == d
  {
    if |s| == 0 then [d]
    else if d < s[0] then [d] + s
    else if d == s[0] then s
    else
      var rest := Insert(s[1..], d);
      assert forall x :: x in rest ==> s[0] < x by {
        forall x | x in rest
          ensures s[0] < x
        {
          if x != d {
            var j :| 0 <= j < |s[1..]| && s[1..][j] == x;
            assert s[1 + j] == x;
          }
        }
      }
      var r := [s[0]] + rest;
      forall k | 0 < k < |r|
        ensures r[0] < r[k]
      {
        assert r[k] == rest[k - 1] && rest[k - 1] in rest;
      }
      r
  }

  /** The distinct days of `xs`, ascending: the group keys of `groupby`. */
  function SortedDays(xs: seq<Scored>): (r: seq<int>)
    ensures StrictlyIncreasing(r)
    ensures forall d :: d in r <==> d in Days(xs)
  {
    if |xs| == 0 then []
    else
      var front := xs[..|xs| - 1];
      assert xs == front + [xs[|xs| - 1]];
      Insert(SortedDays(front), xs[|xs| - 1].day)
  }

  /** `df.groupby(df['date'].dt.date)['sentiment'].mean()` (main.py:42):
      one row per distinct day, days ascending, each holding the mean of
      the scores of all rows on that day. */
  function GroupMean(xs: seq<Scored>): (r: seq<DailySentiment>)
    ensures forall k, m :: 0 <= k < m < |r| ==> r[k].day < r[m].day
    ensures forall d :: d in Days(xs) <==> exists k :: 0 <= k < |r| && r[k].day == d
    ensures |r| == |Days(xs)|
    ensures forall k :: 0 <= k < |r| ==> CountOn(xs, r[k].day) > 0 && r[k].value == MeanOn(xs, r[k].day)
  {
    var days := SortedDays(xs);
    forall d | d in days
      ensures CountOn(xs, d) > 0
    {
      CountOnPositive(xs, d);
    }
    Seqs.DistinctCard(days);
    assert (set x | x in days) == Days(xs);
    MeansOf(xs, days)
  }

  /** The mean of each of `days`, in the order given. */
  function MeansOf(xs: seq<Scored>, days: seq<int>): (r: seq<DailySentiment>)
    requires forall d :: d in days ==> CountOn(xs, d) > 0
    ensures |r| == |days|
    ensures forall k :: 0 <= k < |r| ==> r[k].day == days[k] && r[k].value == MeanOn(xs, days[k])
  {
    seq(|days|, k requires 0 <= k < |days| => DailySentiment(days[k], MeanOn(xs, days[k])))
  }

  /** Appending one row changes only its own day's sum and count. */
  lemma Snoc(xs: seq<Scored>, x: Scored)
    ensures Days(xs + [x]) == Days(xs) + {x.day}
    ensures forall d :: SumOn(xs + [x], d) == SumOn(xs, d) + (if x.day == d then x.sentiment else 0.0)
    ensures forall d :: CountOn(xs + [x], d) == CountOn(xs, d) + (if x.day == d then 1 else 0)
  {
    assert (xs + [x])[..|xs|] == xs;
  }

  /** `sums` and `counts` hold, for every day of `xs` and no other, the
      day's score total and its positive number of rows. */
  predicate Tallies(xs: seq<Scored>, sums: map<int, real>, counts: map<int, nat>) {
    && sums.Keys == Days(xs) && counts.Keys == Days(xs)
    && (forall d :: d in sums ==> sums[d] == SumOn(xs, d))
    && (forall d :: d in counts ==> counts[d] == CountOn(xs, d) > 0)
  }

  lemma TallyStep(xs: seq<Scored>, x: Scored, sums: map<int, real>, counts: map<int, nat>)
    requires Tallies(xs, sums, counts)
    ensures x.day in sums ==> Tallies(xs + [x], sums[x.day := sums[x.day] + x.sentiment], counts[x.day := counts[x.day] + 1])
    ensures x.day !in sums ==> Tallies(xs + [x], sums[x.day := x.sentiment], counts[x.day := 1])
  {
    Snoc(xs, x);
    CountOnPositive(xs, x.day);
  }

  /** One pass over the rows keeping a running sum and count per day. */
  method Accumulate(xs: seq<Scored>) returns (sums: map<int, real>, counts: map<int, nat>)
    ensures Tallies(xs, sums, counts)
  {
    sums, counts := map[], map[];
    var i := 0;
    while i < |xs|
      invariant 0 <= i <= |xs|
      invariant Tallies(xs[..i], sums, counts)
    {
      var x := xs[i];
      assert xs[..i + 1] == xs[..i] + [x];
      TallyStep(xs[..i], x, sums, counts);
      if x.day in sums {
        sums := sums[x.day := sums[x.day] + x.sentiment];
        counts := counts[x.day := counts[x.day] + 1];
      } else {
        sums := sums[x.day := x.sentiment];
        counts := counts[x.day := 1];
      }
      i := i + 1;
    }
    assert xs[..|xs|] == xs;
  }

  /** The daily means computed the way a group-by does it: one pass that
      accumulates a running sum and count per day, then one division per
      day in ascending order of day. */
  method DailyMeansOnePass(xs: seq<Scored>) returns (r: seq<DailySentiment>)
    ensures r == GroupMean(xs)
  {
    var sums, counts := Accumulate(xs);
    var days := SortedDays(xs);
    r := Divide(xs, days, sums, counts);
  }

  /** The division step: each day's running sum over its running count. */
  method Divide(xs: seq<Scored>, days: seq<int>, sums: map<int, real>, counts: map<int, nat>) returns (r: seq<DailySentiment>)
    requires forall d :: d in days ==> d in sums && d in counts && CountOn(xs, d) > 0
    requires forall d :: d in days ==> sums[d] == SumOn(xs, d) && counts[d] == CountOn(xs, d)
    ensures r == MeansOf(xs, days)
  {
    r := [];
    var k := 0;
    while k < |days|
      invariant 0 <= k <= |days|
      invariant r == MeansOf(xs, days[..k])
    {
      var d := days[k];
      assert days[..k + 1] == days[..k] + [d];
      r := r + [DailySentiment(d, sums[d] / counts[d] as real)];
      k := k + 1;
    }
    assert days[..|days|] == days;
  }

  lemma {:induction false} SumOnAppend(a: seq<Scored>, b: seq<Scored>, d: int)
    ensures SumOn(a + b, d) == SumOn(a, d) + SumOn(b, d)
    ensures CountOn(a + b, d) == CountOn(a, d) + CountOn(b, d)
    decreases |b|
  {
    if |b| == 0 {
      assert a + b == a;
    } else {
      var b' := b[..|b| - 1];
      assert (a + b)[..|a + b| - 1] == a + b';
      SumOnAppend(a, b', d);
    }
  }

  lemma ScoreAllAppend(a: seq<Loader.Article>, b: seq<Loader.Article>, score: Scorer)
    ensures ScoreAll(a + b, score) == ScoreAll(a, score) + ScoreAll(b, score)
  {
    var l, r := ScoreAll(a + b, score), ScoreAll(a, score) + ScoreAll(b, score);
    assert |l| == |r|;
    forall i | 0 <= i < |l|
      ensures l[i] == r[i]
    {
      if i < |a| {
        assert (a + b)[i] == a[i];
      } else {
        assert (a + b)[i] == b[i - |a|];
      }
    }
  }

  /** The daily value over the combined table pools the three files: it is
      the total of the day's scores in all three divided by the total number
      of the day's headlines in all three, with no weighting by file. */
  lemma CombinedDailyMean(a: seq<Loader.Article>, b: seq<Loader.Article>, c: seq<Loader.Article>, score: Scorer, d: int)
    ensures var xs, sa, sb, sc := ScoreAll(Combine(a, b, c), score), ScoreAll(a, score), ScoreAll(b, score), ScoreAll(c, score);
      CountOn(sa, d) + CountOn(sb, d) + CountOn(sc, d) > 0 ==>
        && CountOn(xs, d) > 0
        && MeanOn(xs, d) == (SumOn(sa, d) + SumOn(sb, d) + SumOn(sc, d)) / (CountOn(sa, d) + CountOn(sb, d) + CountOn(sc, d)) as real
  {
    CombinedDailyTotals(a, b, c, score, d);
  }

  /** The day's headline count and score total over the combined table are
      the sums of those of the three files. */
  lemma CombinedDailyTotals(a: seq<Loader.Article>, b: seq<Loader.Article>, c: seq<Loader.Article>, score: Scorer, d: int)
    ensures var xs, sa, sb, sc := ScoreAll(Combine(a, b, c), score), ScoreAll(a, score), ScoreAll(b, score), ScoreAll(c, score);
      && CountOn(xs, d) == CountOn(sa, d) + CountOn(sb, d) + CountOn(sc, d)
      && SumOn(xs, d) == SumOn(sa, d) + SumOn(sb, d) + SumOn(sc, d)
  {
    ScoreAllCombine(a, b, c, score);
    PooledTotals(ScoreAll(a, score), ScoreAll(b, score), ScoreAll(c, score), d);
  }

  /** Sums and counts per day add up over stacked tables. */
  lemma PooledTotals(sa: seq<Scored>, sb: seq<Scored>, sc: seq<Scored>, d: int)
    ensures CountOn(sa + sb + sc, d) == CountOn(sa, d) + CountOn(sb, d) + CountOn(sc, d)
    ensures SumOn(sa + sb + sc, d) == SumOn(sa, d) + SumOn(sb, d) + SumOn(sc, d)
  {
    SumOnAppend(sa + sb, sc, d);
    SumOnAppend(sa, sb, d);
  }

  lemma ScoreAllCombine(a: seq<Loader.Article>, b: seq<Loader.Article>, c: seq<Loader.Article>, score: Scorer)
    ensures ScoreAll(Combine(a, b, c), score) == ScoreAll(a, score) + ScoreAll(b, score) + ScoreAll(c, score)
  {
    ScoreAllAppend(a + b, c, score);
    ScoreAllAppend(a, b, score);
  }

  lemma {:induction false} SumOnBounded(xs: seq<Scored>, d: int)
    requires forall i :: 0 <= i < |xs| ==> -1.0 <= xs[i].sentiment <= 1.0
    ensures -(CountOn(xs, d) as real) <= SumOn(xs, d) <= CountOn(xs, d) as real
    decreases |xs|
  {
    if |xs| > 0 {
      SumOnBounded(xs[..|xs| - 1], d);
    }
  }

  /** With a scorer whose values lie in [-1, 1], as a compound polarity
      score does, every daily mean lies in [-1, 1] too. */
  lemma DailySentimentInRange(arts: seq<Loader.Article>, score: Scorer)
    requires forall h :: -1.0 <= score(h) <= 1.0
    ensures forall k :: 0 <= k < |GroupMean(ScoreAll(arts, score))| ==>
      -1.0 <= GroupMean(ScoreAll(arts, score))[k].value <= 1.0
  {
    var xs := ScoreAll(arts, score);
    var r := GroupMean(xs);
    forall k | 0 <= k < |r|
      ensures -1.0 <= r[k].value <= 1.0
    {
      SumOnBounded(xs, r[k].day);
      RatioInUnitRange(SumOn(xs, r[k].day), CountOn(xs, r[k].day) as real);
    }
  }

  lemma RatioInUnitRange(s: real, n: real)
    requires 0.0 < n && -n <= s <= n
    ensures -1.0 <= s / n <= 1.0
  {
    assert s / n * n == s;
  }
}
