/** `load_and_clean` (main.py:10-27): normalise the column labels of one
    headline file, convert its `date` column with a date parser that maps
    unparseable text to NaT, and drop the rows whose date or headline is
    missing. */
module Loader {
  import opened Values
  import opened Seqs
  import Labels

  /** One field as the CSV reader delivers it; empty fields are `Null`. */
  datatype Cell = Null | Text(text: string)

  /** A headline file: its header labels and its rows of fields. */
  datatype RawTable = RawTable(labels: seq<string>, rows: seq<seq<Cell>>)

  /** A parsed date-time: a day number (days since an epoch) and the time of day. */
  datatype Timestamp = Timestamp(day: int, timeOfDay: int)

  /** A row that survived cleaning: its parsed date and its headline. */
  datatype Article = Article(date: Timestamp, headline: string)

  /** `d['date']` or the `dropna` subset naming a column that is absent
      raises; a `date` label held by two columns makes the conversion raise. */
  datatype LoadError = MissingColumn(column: string) | DuplicateColumn(column: string)

  /** The date parser; `None` stands for the NaT that coercion produces. */
  type Parser = string -> Option<Timestamp>

  /** The field of `row` in column `j`; the CSV reader pads short rows. */
  function CellAt(row: seq<Cell>, j: nat): Cell {
    if j < |row| then row[j] else Null
  }

  /** How many columns carry the label `name`. */
  function Occurrences(labels: seq<string>, name: string): (n: nat)
    ensures n == 0 <==> name !in labels
    ensures n <= |labels|
  {
    if |labels| == 0 then 0
    else Occurrences(labels[1..], name) + (if labels[0] == name then 1 else 0)
  }

  /** The position of the first column labelled `name`. */
  function IndexOf(labels: seq<string>, name: string): (j: nat)
    requires name in labels
    ensures j < |labels| && labels[j] == name
    ensures forall i :: 0 <= i < j ==> labels[i] != name
  {
    if labels[0] == name then 0 else 1 + IndexOf(labels[1..], name)
  }

  /** `pd.to_datetime(..., errors='coerce')` on one field. */
  function ParseDate(c: Cell, parse: Parser): Option<Timestamp> {
    match c
    case Null => None
    case Text(s) => parse(s)
  }

  /** The condition under which a row is kept by `dropna(subset=['date', 'headline'])`. */
  predicate Survives(row: seq<Cell>, dateCol: nat, headlineCol: nat, parse: Parser) {
    ParseDate(CellAt(row, dateCol), parse).Some? && CellAt(row, headlineCol).Text?
  }

  function CleanRow(row: seq<Cell>, dateCol: nat, headlineCol: nat, parse: Parser): Option<Article> {
    match (ParseDate(CellAt(row, dateCol), parse), CellAt(row, headlineCol))
    case (Some(t), Text(h)) => Some(Article(t, h))
    case _ => None
  }

  function Cleaner(dateCol: nat, headlineCol: nat, parse: Parser): seq<Cell> -> Option<Article> {
    row => CleanRow(row, dateCol, headlineCol, parse)
  }

  /** `dropna(subset=['date', 'headline'])` after the date conversion,
      given the positions of the two columns: the rows kept are exactly
      those whose date parses and whose headline is present, in their
      original order, each carrying its parsed date and its headline text. */
  function Clean(rows: seq<seq<Cell>>, dateCol: nat, headlineCol: nat, parse: Parser): (r: seq<Article>)
    ensures var kept := Kept(rows, Cleaner(dateCol, headlineCol, parse));
      && (forall i :: 0 <= i < |rows| ==> (i in kept <==> Survives(rows[i], dateCol, headlineCol, parse)))
      && (forall k, m :: 0 <= k < m < |kept| ==> kept[k] < kept[m])
      && |r| == |kept| <= |rows|
      && (forall k :: 0 <= k < |r| ==>
            r[k] == Article(ParseDate(CellAt(rows[kept[k]], dateCol), parse).value,
                            CellAt(rows[kept[k]], headlineCol).text))
  {
    var f := Cleaner(dateCol, headlineCol, parse);
    var kept := Kept(rows, f);
    KeptExactly(rows, f);
    var out := FilterMap(rows, f);
    assert forall i :: 0 <= i < |rows| ==> (f(rows[i]).Some? <==> Survives(rows[i], dateCol, headlineCol, parse));
    assert forall k :: 0 <= k < |out| ==> f(rows[kept[k]]) == Some(out[k]);
    out
  }

  /** `load_and_clean` on a file that has already been read. */
  function LoadAndClean(t: RawTable, parse: Parser): (r: Result<seq<Article>, LoadError>)
    ensures var labels := Labels.NormalizeLabels(t.labels);
      && (r == Err(MissingColumn("date")) <==> "date" !in labels)
      && (r == Err(DuplicateColumn("date")) <==> Occurrences(labels, "date") > 1)
      && (r == Err(MissingColumn("headline")) <==> "date" in labels && Occurrences(labels, "date") == 1 && "headline" !in labels)
      && (r == Err(DuplicateColumn("headline")) <==>
            Occurrences(labels, "date") == 1 && Occurrences(labels, "headline") > 1)
      && (r.Ok? <==> Occurrences(labels, "date") == 1 && Occurrences(labels, "headline") == 1)
    ensures r.Ok? ==> var labels := Labels.NormalizeLabels(t.labels);
      && "date" in labels && "headline" in labels
      && r.value == Clean(t.rows, IndexOf(labels, "date"), IndexOf(labels, "headline"), parse)
  {
    var labels := Labels.NormalizeLabels(t.labels);
    var dates := Occurrences(labels, "date");
    var headlines := Occurrences(labels, "headline");
    if dates == 0 then Err(MissingColumn("date"))
    else if dates > 1 then Err(DuplicateColumn("date"))
    else if headlines == 0 then Err(MissingColumn("headline"))
    else if headlines > 1 then Err(DuplicateColumn("headline"))
    else Ok(Clean(t.rows, IndexOf(labels, "date"), IndexOf(labels, "headline"), parse))
  }

  /** Cleaning is row-local: a file split in two and cleaned piecewise gives
      the same rows as the whole file, so no row is reordered or merged. */
  lemma LoadIsRowLocal(labels: seq<string>, a: seq<seq<Cell>>, b: seq<seq<Cell>>, parse: Parser)
    ensures var whole := LoadAndClean(RawTable(labels, a + b), parse);
      var first, second := LoadAndClean(RawTable(labels, a), parse), LoadAndClean(RawTable(labels, b), parse);
      && (whole.Ok? <==> first.Ok?) && (whole.Ok? <==> second.Ok?)
      && (whole.Ok? ==> whole.value == first.value + second.value)
  {
    var ls := Labels.NormalizeLabels(labels);
    if "date" in ls && "headline" in ls {
      FilterMapAppend(a, b, Cleaner(IndexOf(ls, "date"), IndexOf(ls, "headline"), parse));
    }
  }
}
