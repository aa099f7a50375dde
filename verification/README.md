# Headline sentiment and index returns: a Dafny model of the feature pipeline

The modelled program is a single pandas script (`main.py`). It reads three
files of news headlines and normalises their column labels. It drops the
rows whose date does not parse or whose headline is missing, stacks the
three files, and scores every headline. It then averages the scores per
calendar day. It adds the daily return of the close to the daily market
bars of an index fund, over the whole bar series, and then joins the bars
with the daily averages. After the join it adds
- the previous merged row's return (`prev_return`),
- a standardised volume (`volume_scaled`).

Finally it drops every row that still holds a missing value. What follows
(an OLS fit and a scatter plot) is outside the model.

The model works on immutable sequences of records, with exact `real`
numbers:

| file | module | what it holds |
|---|---|---|
| `values.dfy` | `Values` | `Option`, `Result`, and `Num` (a column value: NaN, finite or ±infinity) |
| `seqs.dfy` | `Seqs` | `FilterMap`, a generic filter that records which indices it kept; `Distinct` and cardinality facts |
| `labels.dfy` | `Labels` | the column-label normalisation of `load_and_clean` |
| `loader.dfy` | `Loader` | `load_and_clean`: label lookup, date parsing, row filter |
| `daily.dfy` | `Daily` | concatenation, scoring, and the per-day mean of the group-by |
| `market.dfy` | `Market` | the bars, label flattening, `pct_change` |
| `stats.dfy` | `Stats` | sum, mean, sample variance and the standard score |
| `features.dfy` | `Features` | the inner merge, `shift(1)`, the volume z-score, `dropna` |
| `pipeline.dfy` | `Pipeline` | the whole run, end-to-end facts and a worked example |

Several things the script obtains from outside are parameters of the model:
- the date parser (`string -> Option<Timestamp>`);
- the sentiment scorer (`string -> real`);
- the downloaded bars (a sequence);
- the square-root routine (any function positive on positive numbers).

## Model

| member | source | states |
|---|---|---|
| Labels.Lower | main.py:12 | lower-casing keeps the length, turns each capital `A`-`Z` into the lower-case letter at the same alphabet position, changes no other character, and is the identity on lower-case text |
| Labels.RenameIfPresent | main.py:15-22 | a guarded rename replaces every label equal to the old name by the new one and leaves every other label alone |
| Labels.NormalizeLabels | main.py:12-22 | the four guarded renames after lower-casing keep length and order, and each label becomes the canonical form of its lower-cased self: `headlines`/`text` become `headline`, `published`/`time` become `date`, anything else is kept |
| Labels.NormalizedLabelsAreCanonical | main.py:12-22 | after normalisation every label is lower-case and none is a synonym |
| Labels.NormalizeKeepsOtherLabels | main.py:12-22 | a label that is already lower-case and not a synonym is unchanged |
| Labels.NormalizeRenamesSynonyms | main.py:15-22 | a synonym in any letter case becomes `headline` or `date` |
| Labels.NormalizeIdempotent | main.py:12-22 | normalising twice gives the same labels as normalising once |
| Loader.Occurrences | main.py:25-26 | a label occurs zero times exactly when it is absent |
| Loader.LoadAndClean | main.py:10-27 | loading fails exactly when no `date` column exists, when `date` occurs twice, or when the `headline` column is missing or repeated, each with its own error; it succeeds exactly when each occurs once, and then yields the cleaned rows of the first `date` and `headline` columns |
| Loader.Clean | main.py:25-26 | a row survives exactly when its date parses and its headline is present; survivors keep their order and carry their parsed date and headline text |
| Loader.LoadIsRowLocal | main.py:10-27 | a file loads exactly when each of its two pieces loads, and then its cleaned rows are those of the first piece followed by those of the second |
| Seqs.FilterMap | main.py:26 | a row filter yields one output per kept index, in index order, each the image of its input row |
| Seqs.FilterMapAppend | main.py:26 | filtering a concatenation is the concatenation of the filtered parts |
| Daily.Combine | main.py:35 | concatenation keeps every row of the three files, in file order, with no de-duplication |
| Daily.ScoreAll | main.py:39-42 | every headline gets the scorer's value and the calendar day of its date, the time of day being dropped |
| Daily.CountOnPositive | main.py:42 | a day has headlines exactly when it is the day of some row |
| Daily.SortedDays | main.py:42 | the group keys are the distinct days of the rows, strictly ascending |
| Daily.GroupMean | main.py:42-45 | the daily table has exactly one row per distinct day, days ascending, and each row's value is the mean of the scores of all rows on that day |
| Daily.Accumulate | main.py:42 | one pass leaves, for exactly the days present, each day's score total and its positive headline count |
| Daily.DailyMeansOnePass | main.py:42 | computing the group means with running sums and counts gives the reference daily table |
| Daily.CombinedDailyTotals | main.py:35-42 | a day's headline count and score total over the stacked table are the sums over the three files |
| Daily.CombinedDailyMean | main.py:35-42 | a day's mean pools the three files: total score over total count, with no weighting by file |
| Daily.DailySentimentInRange | main.py:39-42 | with scores in [-1, 1], every daily mean lies in [-1, 1] |
| Market.FlattenLabels | main.py:52-53 | each two-level label becomes the first level, an underscore and the second level |
| Market.FlattenSingleSymbolInjective | main.py:52-53 | for a single-symbol download distinct metrics keep distinct flattened names |
| Market.Change | main.py:60 | the return is `(cur - prev) / prev` when both closes exist and `prev` is non-zero; it is NaN exactly when a close is missing or both are zero, and infinite exactly when only `prev` is zero, with the sign of the current close |
| Market.PctChange | main.py:60 | the first bar's return is NaN; every later bar's return is the change from the close of the bar just before it, by position, with the same NaN and infinity cases and the same sign of the infinity |
| Market.WithReturns | main.py:60 | each market row keeps its bar and gets the return at its own position |
| Market.PctChangeExample | main.py:60 | closes 100 then 102 give returns NaN then 0.02 |
| Features.Matches | main.py:64 | the merge rows of one market row are that row joined to sentiment rows of its own day, and every such sentiment row is joined |
| Features.Merge | main.py:64 | every merged row comes from a market row and a sentiment row of the same day, and every pair of a market row and a sentiment row of the same day is in the result |
| Features.MatchesUnique | main.py:64 | with one sentiment row per day a market row yields at most one merged row: the one carrying its day's value |
| Features.NoMatches | main.py:64 | a market row whose day has no sentiment row produces no merged row |
| Features.MergeIsFilter | main.py:64 | with one sentiment row per day the merge is a filter of the market rows in their order |
| Features.MergeLength | main.py:64 | the merge has at most as many rows as the market table, and no more than the sentiment table when the market days are distinct |
| Features.Shift | main.py:68 | `shift(1)` puts NaN first and each earlier value one position later |
| Features.Standardise | main.py:71 | standard scores are NaN exactly where the volume is missing and never infinite |
| Features.VolumeScaled | main.py:71 | the scaled volume is NaN exactly when the volume is missing, fewer than two volumes exist, or all present volumes are equal; it is never infinite |
| Features.StandardiseFinite | main.py:71 | the finite scaled volumes are exactly the present volumes, in order, scaled |
| Features.VolumeScaledIsStandardise | main.py:71 | when the volumes vary, the scaled column is the standard score of the present volumes around their mean, over a positive deviation |
| Features.VolumeScaledCentred | main.py:71 | over the merged table the scaled volumes sum to zero |
| Features.VolumeScaledUnitVariance | main.py:71 | with an exact square root, the squared scaled volumes sum to n - 1, a sample variance of 1 |
| Features.VolumeScaledExample | main.py:71 | volumes 1, 2, 3 scale to -1, 0, 1 |
| Features.DroppedTableNotCentred | main.py:68-74 | three complete merged rows with volumes 1, 2, 3 leave two rows after `dropna`, the second and third, with scaled volumes 0 and 1, whose mean is 1/2, not 0 |
| Features.AddFeatures | main.py:68-71 | each merged row gets the previous row's return by position (NaN for the first) and its own scaled volume |
| Features.DropNa | main.py:74 | `dropna()` keeps exactly the rows with no NaN in any column, market columns included, in their order |
| Features.FirstMergedRowDropped | main.py:68-74 | the first merged row never survives `dropna`, so the final table is shorter than the merged one |
| Features.FinalRowsAreMergedRows | main.py:68-74 | every final row carries a merged row other than the first, with a return |
| Features.PrevReturnIsPositional | main.py:68-74 | in the final table `prev_return` is the return of the merged row just before, by position |
| Stats.SquaredDeviation | main.py:71 | the sum of squared deviations is never negative |
| Stats.Variance | main.py:71 | the sample variance is never negative |
| Stats.VarianceZeroIffAllEqual | main.py:71 | the sample variance is zero exactly when all values are equal |
| Stats.ScaledSums | main.py:71 | the standard scores sum to the deviation sum over the scale, and their squares to the squared deviations over the squared scale |
| Stats.ScaledAroundMeanSumsToZero | main.py:71 | standard scores around the values' own mean sum to zero |
| Stats.ScaledUnitVariance | main.py:71 | with scale squared equal to the sample variance, the squared scores sum to n - 1 |
| Stats.ThreeValues | main.py:71 | 1, 2, 3 have mean 2 and sample variance 1 |
| Pipeline.LoadAll | main.py:29-35 | the run stops at the first file that fails to load, with that file's error; otherwise it stacks the three cleaned files |
| Pipeline.FeatureTable | main.py:42-74 | the final table has only complete rows and is shorter than the bar series unless empty |
| Pipeline.Run | main.py:29-74 | the modelled run fails exactly when one of the files fails to load, with that file's error, and otherwise yields only complete rows |
| Pipeline.MergedLength | main.py:64 | the merged table has at most one row per bar, and at most one per headline day when bar days are distinct |
| Pipeline.MergedRowsTraced | main.py:35-64 | every merged row with a return holds a bar other than the first, the percentage change of close at that bar's position, and the mean score of all combined headlines on the bar's day |
| Pipeline.FeatureRowProvenance | main.py:35-74 | every final row holds a bar other than the first, the percentage change of close at that bar's position, and the mean score of all combined headlines on the bar's day |
| Pipeline.MarketProvenance | main.py:60-64 | a merged row with a return comes from a bar other than the first and carries that bar's return |
| Pipeline.SentimentProvenance | main.py:42-64 | a merged row's sentiment is the mean of the headlines on its day, and that day has headlines |
| Pipeline.WorkedExample | main.py:35-74 | scores 0.5, -0.2, 0.3 on one day give a daily sentiment of 0.2; closes 100 then 102 give a return of 0.02; the single merged row carries both; the final table is empty |

## Left out

- Reading the CSV files (main.py:11), writing the merged table (main.py:95), the regression (main.py:77-81) and the plot (main.py:84-92): I/O, numerical libraries and UI.
- The VADER compound scorer (main.py:38-39) is a parameter. Its [-1, 1] range is assumed only where a lemma says so.
- The market-data download (main.py:48) is network I/O. The bars are an input, and the date range the request uses is not modelled.
- `pd.to_datetime(..., errors='coerce')` is a parameter from text to an optional timestamp. pandas infers one format per column; the model fixes no format.
- `read_csv` details are not modelled: the default NA strings and the renaming of duplicate header names. A cell is either present text or null, and short rows are padded with nulls.
- Labels.Lower: lower-cases ASCII letters only, while `str.lower` also folds non-ASCII letters; the column names that matter here are ASCII.
- Loader.LoadAndClean: a file with two `headline` columns is rejected at load time. The script itself carries on and fails later: either `pd.concat` (main.py:35) cannot align the duplicate labels, or the sentiment column computed from a two-column `headline` selection cannot be assigned as one column (main.py:39).
- Market.PctChange: models `pct_change` without forward-filling missing closes, as pandas 3 does. Earlier pandas forward-fills a missing previous close first.
- Features.Merge: lists the rows in market order, then in sentiment order within a day, as pandas 2.2 and later order an inner merge.
- Features.VolumeScaled: the square root is a parameter, positive on positive numbers; it is not computed. The unit-variance lemma requires it to be exact.
- Floating point is not modelled: every number is an exact real, and NaN and ±infinity are explicit values of `Num`.
- The mean-zero property of `volume_scaled` holds over the merged table, before `dropna`, not over the final table. The first merged row is always dropped, so the final scaled volumes are generally not centred (Features.DroppedTableNotCentred).
- Pipeline.Run: time zones are not modelled. A timestamp has a day and a time of day only. The script also aborts when the three files' dates mix zone-aware and naive values: the stacked `date` column then holds objects, and `.dt.date` (main.py:42) raises. The model's run succeeds on such input.
