/**
  `load_events`: the events table the dashboard draws on its chart. After the
  CSV reader (left out) the table is a header and rows of optional cells; the
  function normalises the header, adds the missing columns and splits the rows
  into one-day line events and span events with parsed dates.
*/
module Events {
  import opened Wrappers
  import opened Strings
  import opened Calendar

  /** The columns `load_events` guarantees, in the order its loop adds them. */
  const Required: seq<string> := ["type", "date", "start", "end", "label", "category"]

  /** What `pd.read_csv(..., dtype=str)` returns: a header and rows of cells, `None` for a missing cell. */
  datatype Table = Table(columns: seq<string>, rows: seq<seq<Option<string>>>)

  /** A `DataFrame` has one cell per column in every row. */
  predicate Rectangular(cols: seq<string>, rows: seq<seq<string>>) {
    forall j :: 0 <= j < |rows| ==> |rows[j]| == |cols|
  }

  /** A `type == "line"` row whose `date` parsed. */
  datatype LineEvent = LineEvent(date: DateTime, text: string, category: string)

  /** A `type == "span"` row whose `start` and `end` parsed. */
  datatype SpanEvent = SpanEvent(start: DateTime, end: DateTime, text: string, category: string)

  /**
    The two tables `load_events` returns: two empty frames without columns when
    the file is missing, or the line and span events.
  */
  datatype EventTables = NoFile | Loaded(lines: seq<LineEvent>, spans: seq<SpanEvent>)

  /** A required column that occurs twice after normalisation: pandas then raises when the column is used. */
  datatype EventsError = AmbiguousColumn(name: string)

  // ----- The header and the cells -----

  /** `df.fillna("")`. */
  function Filled(rows: seq<seq<Option<string>>>): (r: seq<seq<string>>)
    ensures |r| == |rows|
    ensures forall j :: 0 <= j < |rows| ==> |r[j]| == |rows[j]|
    ensures forall j, k :: 0 <= j < |rows| && 0 <= k < |rows[j]| ==>
              r[j][k] == (if rows[j][k].Some? then rows[j][k].value else "")
  {
    seq(|rows|, j requires 0 <= j < |rows| =>
      seq(|rows[j]|, k requires 0 <= k < |rows[j]| => if rows[j][k].Some? then rows[j][k].value else ""))
  }

  /** `[c.strip().lower() for c in df.columns]`. */
  function NormalColumns(cols: seq<string>): (r: seq<string>)
    ensures |r| == |cols|
    ensures forall i :: 0 <= i < |cols| ==> r[i] == AsciiLower(Strip(cols[i]))
  {
    seq(|cols|, i requires 0 <= i < |cols| => AsciiLower(Strip(cols[i])))
  }

  /** Every row with one more cell, the empty string. */
  function WithBlank(rows: seq<seq<string>>): (r: seq<seq<string>>)
    ensures |r| == |rows|
    ensures forall j :: 0 <= j < |rows| ==> r[j] == rows[j] + [""]
  {
    seq(|rows|, j requires 0 <= j < |rows| => rows[j] + [""])
  }

  /** The loop `for col in names: if col not in df.columns: df[col] = ""`. */
  function WithColumns(cols: seq<string>, rows: seq<seq<string>>, names: seq<string>): (seq<string>, seq<seq<string>>)
    decreases |names|
  {
    if names == [] then (cols, rows)
    else if names[0] in cols then WithColumns(cols, rows, names[1..])
    else WithColumns(cols + [names[0]], WithBlank(rows), names[1..])
  }

  /** `n` empty cells. */
  function Blanks(n: nat): (r: seq<string>)
    ensures |r| == n && forall k :: 0 <= k < n ==> r[k] == ""
  {
    seq(n, k => "")
  }

  /**
    After the loop every name is a column; the old columns come first and keep
    their cells; every added column is a name that was missing, and its cells are
    empty strings.
  */
  lemma {:induction false} WithColumnsAdds(cols: seq<string>, rows: seq<seq<string>>, names: seq<string>)
    requires Rectangular(cols, rows)
    ensures var (c, r) := WithColumns(cols, rows, names);
            && |c| >= |cols| && c[..|cols|] == cols
            && (forall n :: n in names ==> n in c)
            && (forall k :: |cols| <= k < |c| ==> c[k] in names && c[k] !in cols)
            && |r| == |rows| && Rectangular(c, r)
            && (forall j :: 0 <= j < |rows| ==> r[j] == rows[j] + Blanks(|c| - |cols|))
    decreases |names|
  {
    if names != [] {
      if names[0] in cols {
        WithColumnsAdds(cols, rows, names[1..]);
        assert names == [names[0]] + names[1..];
      } else {
        var cols1, rows1 := cols + [names[0]], WithBlank(rows);
        WithColumnsAdds(cols1, rows1, names[1..]);
        var (c, r) := WithColumns(cols1, rows1, names[1..]);
        assert c[..|cols|] == c[..|cols1|][..|cols|];
        assert names == [names[0]] + names[1..];
        forall k | |cols| <= k < |c| ensures c[k] in names && c[k] !in cols {
          if k == |cols| {
            assert c[k] == c[..|cols1|][k];
          }
        }
        forall j | 0 <= j < |rows| ensures r[j] == rows[j] + Blanks(|c| - |cols|) {
          assert r[j] == (rows[j] + [""]) + Blanks(|c| - |cols1|);
          assert [""] + Blanks(|c| - |cols1|) == Blanks(|c| - |cols|);
        }
      }
    } else {
      forall j | 0 <= j < |rows| ensures rows[j] == rows[j] + Blanks(0) {
        assert Blanks(0) == [];
      }
    }
  }

  /** The loop at the top of `load_events` that adds the missing required columns. */
  method AddMissingColumns(cols0: seq<string>, rows0: seq<seq<string>>) returns (cols: seq<string>, rows: seq<seq<string>>)
    ensures (cols, rows) == WithColumns(cols0, rows0, Required)
  {
    cols, rows := cols0, rows0;
    var i := 0;
    while i < |Required|
      invariant 0 <= i <= |Required|
      invariant WithColumns(cols, rows, Required[i..]) == WithColumns(cols0, rows0, Required)
    {
      var col := Required[i];
      assert Required[i..] == [col] + Required[i + 1..];
      if col !in cols {
        cols := cols + [col];
        rows := WithBlank(rows);
      }
      i := i + 1;
    }
    assert Required[i..] == [];
  }

  // ----- Column access -----

  /** How often `name` occurs in `cols`. */
  function CountIn(cols: seq<string>, name: string): nat
    decreases |cols|
  {
    if cols == [] then 0 else (if cols[0] == name then 1 else 0) + CountIn(cols[1..], name)
  }

  /** The position of the first column called `name`. */
  function Find(cols: seq<string>, name: string): (i: nat)
    requires name in cols
    ensures i < |cols| && cols[i] == name && name !in cols[..i]
    decreases |cols|
  {
    if cols[0] == name then 0
    else
      var i := 1 + Find(cols[1..], name);
      assert cols[..i] == [cols[0]] + cols[1..][..i - 1];
      i
  }

  /** The first required column that occurs more than once, in the order `load_events` uses them. */
  function FirstAmbiguous(cols: seq<string>, names: seq<string>): (r: Option<string>)
    ensures r.Some? ==> r.value in names && CountIn(cols, r.value) >= 2
    ensures r.None? ==> forall n :: n in names ==> CountIn(cols, n) <= 1
    decreases |names|
  {
    if names == [] then None
    else if CountIn(cols, names[0]) >= 2 then Some(names[0])
    else FirstAmbiguous(cols, names[1..])
  }

  /** The columns `load_events` reads are all present. */
  predicate HasRequired(cols: seq<string>) {
    "type" in cols && "date" in cols && "start" in cols && "end" in cols && "label" in cols && "category" in cols
  }

  lemma RequiredPresent(cols: seq<string>)
    requires forall n :: n in Required ==> n in cols
    ensures HasRequired(cols)
  {
    assert Required[0] in cols && Required[1] in cols && Required[2] in cols;
    assert Required[3] in cols && Required[4] in cols && Required[5] in cols;
  }

  /** Where `row["type"]`, `row["date"]`, ... are found: the first column of each name. */
  datatype Layout = Layout(kind: nat, date: nat, start: nat, end: nat, text: nat, category: nat)

  function LayoutOf(cols: seq<string>): (l: Layout)
    requires HasRequired(cols)
    ensures Fits(l, |cols|)
    ensures cols[l.kind] == "type" && cols[l.date] == "date" && cols[l.start] == "start"
    ensures cols[l.end] == "end" && cols[l.text] == "label" && cols[l.category] == "category"
  {
    Layout(Find(cols, "type"), Find(cols, "date"), Find(cols, "start"), Find(cols, "end"),
           Find(cols, "label"), Find(cols, "category"))
  }

  /** Every column of the layout exists in a row of `width` cells. */
  predicate Fits(l: Layout, width: nat) {
    l.kind < width && l.date < width && l.start < width && l.end < width && l.text < width && l.category < width
  }

  predicate RowsFit(l: Layout, rows: seq<seq<string>>) {
    forall j :: 0 <= j < |rows| ==> Fits(l, |rows[j]|)
  }

  // ----- Classification -----

  /** `type.lower() == "line"` and `pd.to_datetime(date, errors="coerce")`, taken cell by cell, is not NaT. */
  predicate IsLineRow(l: Layout, row: seq<string>, parseDate: string -> Option<DateTime>)
    requires Fits(l, |row|)
  {
    AsciiLower(row[l.kind]) == "line" && parseDate(row[l.date]).Some?
  }

  /** `type.lower() == "span"` and both `start` and `end` parse. */
  predicate IsSpanRow(l: Layout, row: seq<string>, parseDate: string -> Option<DateTime>)
    requires Fits(l, |row|)
  {
    AsciiLower(row[l.kind]) == "span" && parseDate(row[l.start]).Some? && parseDate(row[l.end]).Some?
  }

  /** The line event of a line row: its parsed date, its label and category with the whitespace stripped. */
  function LineOf(l: Layout, row: seq<string>, parseDate: string -> Option<DateTime>): (e: LineEvent)
    requires Fits(l, |row|) && IsLineRow(l, row, parseDate)
    ensures Some(e.date) == parseDate(row[l.date])
    ensures Trimmed(e.text) && Trimmed(e.category)
  {
    StripTrimmed(row[l.text]);
    StripTrimmed(row[l.category]);
    LineEvent(parseDate(row[l.date]).value, Strip(row[l.text]), Strip(row[l.category]))
  }

  /** The span event of a span row, its bounds as written (not yet ordered). */
  function SpanOf(l: Layout, row: seq<string>, parseDate: string -> Option<DateTime>): (e: SpanEvent)
    requires Fits(l, |row|) && IsSpanRow(l, row, parseDate)
    ensures Some(e.start) == parseDate(row[l.start]) && Some(e.end) == parseDate(row[l.end])
    ensures Trimmed(e.text) && Trimmed(e.category)
  {
    StripTrimmed(row[l.text]);
    StripTrimmed(row[l.category]);
    SpanEvent(parseDate(row[l.start]).value, parseDate(row[l.end]).value, Strip(row[l.text]), Strip(row[l.category]))
  }

  /** `ev_lines`: the line rows in table order, with their labels and categories stripped. */
  function Lines(l: Layout, rows: seq<seq<string>>, parseDate: string -> Option<DateTime>): seq<LineEvent>
    requires RowsFit(l, rows)
    decreases |rows|
  {
    if rows == [] then []
    else
      (if IsLineRow(l, rows[0], parseDate) then [LineOf(l, rows[0], parseDate)] else [])
      + Lines(l, rows[1..], parseDate)
  }

  /** `ev_spans`: the span rows in table order. */
  function Spans(l: Layout, rows: seq<seq<string>>, parseDate: string -> Option<DateTime>): seq<SpanEvent>
    requires RowsFit(l, rows)
    decreases |rows|
  {
    if rows == [] then []
    else
      (if IsSpanRow(l, rows[0], parseDate) then [SpanOf(l, rows[0], parseDate)] else [])
      + Spans(l, rows[1..], parseDate)
  }

  // ----- What the classification keeps -----

  /** Every line row yields its line event. */
  lemma {:induction false} LineRowIsLoaded(l: Layout, rows: seq<seq<string>>, parseDate: string -> Option<DateTime>, j: int)
    requires RowsFit(l, rows)
    requires 0 <= j < |rows| && IsLineRow(l, rows[j], parseDate)
    ensures LineOf(l, rows[j], parseDate) in Lines(l, rows, parseDate)
    decreases |rows|
  {
    if j > 0 {
      assert rows[1..][j - 1] == rows[j];
      LineRowIsLoaded(l, rows[1..], parseDate, j - 1);
    }
  }

  /** Every line event comes from a line row. */
  lemma {:induction false} LoadedLineHasRow(l: Layout, rows: seq<seq<string>>, parseDate: string -> Option<DateTime>, e: LineEvent)
    returns (j: int)
    requires RowsFit(l, rows)
    requires e in Lines(l, rows, parseDate)
    ensures 0 <= j < |rows| && IsLineRow(l, rows[j], parseDate) && e == LineOf(l, rows[j], parseDate)
    decreases |rows|
  {
    var head := if IsLineRow(l, rows[0], parseDate) then [LineOf(l, rows[0], parseDate)] else [];
    assert Lines(l, rows, parseDate) == head + Lines(l, rows[1..], parseDate);
    if e in head {
      j := 0;
    } else {
      var k := LoadedLineHasRow(l, rows[1..], parseDate, e);
      j := k + 1;
      assert rows[j] == rows[1..][k];
    }
  }

  /** Every span row yields its span event. */
  lemma {:induction false} SpanRowIsLoaded(l: Layout, rows: seq<seq<string>>, parseDate: string -> Option<DateTime>, j: int)
    requires RowsFit(l, rows)
    requires 0 <= j < |rows| && IsSpanRow(l, rows[j], parseDate)
    ensures SpanOf(l, rows[j], parseDate) in Spans(l, rows, parseDate)
    decreases |rows|
  {
    if j > 0 {
      assert rows[1..][j - 1] == rows[j];
      SpanRowIsLoaded(l, rows[1..], parseDate, j - 1);
    }
  }

  /** Every span event comes from a span row. */
  lemma {:induction false} LoadedSpanHasRow(l: Layout, rows: seq<seq<string>>, parseDate: string -> Option<DateTime>, e: SpanEvent)
    returns (j: int)
    requires RowsFit(l, rows)
    requires e in Spans(l, rows, parseDate)
    ensures 0 <= j < |rows| && IsSpanRow(l, rows[j], parseDate) && e == SpanOf(l, rows[j], parseDate)
    decreases |rows|
  {
    var head := if IsSpanRow(l, rows[0], parseDate) then [SpanOf(l, rows[0], parseDate)] else [];
    assert Spans(l, rows, parseDate) == head + Spans(l, rows[1..], parseDate);
    if e in head {
      j := 0;
    } else {
      var k := LoadedSpanHasRow(l, rows[1..], parseDate, e);
      j := k + 1;
      assert rows[j] == rows[1..][k];
    }
  }

  /** No row is both kinds, so a row lands in at most one of the two tables. */
  lemma {:induction false} AtMostOneTablePerRow(l: Layout, rows: seq<seq<string>>, parseDate: string -> Option<DateTime>)
    requires RowsFit(l, rows)
    ensures |Lines(l, rows, parseDate)| + |Spans(l, rows, parseDate)| <= |rows|
    decreases |rows|
  {
    if rows != [] {
      AtMostOneTablePerRow(l, rows[1..], parseDate);
      assert !(IsLineRow(l, rows[0], parseDate) && IsSpanRow(l, rows[0], parseDate)) by {
        assert "line" != "span" by { assert "line"[0] != "span"[0]; }
      }
    }
  }

  // ----- load_events -----

  /** A table as `read_csv` returns it: as many cells in every row as there are columns. */
  predicate Shaped(t: Table) {
    forall j :: 0 <= j < |t.rows| ==> |t.rows[j]| == |t.columns|
  }

  /**
    `load_events(csv_path)`, with `None` for a file that does not exist: no
    file gives the two column-less tables; otherwise the header is normalised,
    the missing required columns are added, and the rows are classified. A
    required column that occurs twice after normalisation makes pandas raise.
  */
  function LoadedEvents(file: Option<Table>, parseDate: string -> Option<DateTime>): Result<EventTables, EventsError>
    requires file.Some? ==> Shaped(file.value)
  {
    match file
    case None => Ok(NoFile)
    case Some(t) =>
      var (cols, rows) := WithColumns(NormalColumns(t.columns), Filled(t.rows), Required);
      WithColumnsAdds(NormalColumns(t.columns), Filled(t.rows), Required);
      RequiredPresent(cols);
      match FirstAmbiguous(cols, Required)
      case Some(name) => Err(AmbiguousColumn(name))
      case None => Ok(Loaded(Lines(LayoutOf(cols), rows, parseDate), Spans(LayoutOf(cols), rows, parseDate)))
  }

  /** The steps of `load_events` in the order it takes them. */
  method LoadEvents(file: Option<Table>, parseDate: string -> Option<DateTime>) returns (r: Result<EventTables, EventsError>)
    requires file.Some? ==> Shaped(file.value)
    ensures r == LoadedEvents(file, parseDate)
  {
    if file.None? {
      return Ok(NoFile);
    }
    var t := file.value;
    var cols, rows := AddMissingColumns(NormalColumns(t.columns), Filled(t.rows));
    WithColumnsAdds(NormalColumns(t.columns), Filled(t.rows), Required);
    RequiredPresent(cols);
    var dup := FirstAmbiguous(cols, Required);
    if dup.Some? {
      return Err(AmbiguousColumn(dup.value));
    }
    var l := LayoutOf(cols);
    r := Ok(Loaded(Lines(l, rows, parseDate), Spans(l, rows, parseDate)));
  }

  /** A file without a `type` column has no events: the added column is blank in every row. */
  lemma NoTypeColumnNoEvents(t: Table, parseDate: string -> Option<DateTime>)
    requires Shaped(t)
    requires "type" !in NormalColumns(t.columns)
    requires FirstAmbiguous(WithColumns(NormalColumns(t.columns), Filled(t.rows), Required).0, Required).None?
    ensures LoadedEvents(Some(t), parseDate) == Ok(Loaded([], []))
  {
    var cols0, rows0 := NormalColumns(t.columns), Filled(t.rows);
    WithColumnsAdds(cols0, rows0, Required);
    var (cols, rows) := WithColumns(cols0, rows0, Required);
    RequiredPresent(cols);
    var l := LayoutOf(cols);
    MissingColumnBlank(cols0, rows0, Required, "type", l.kind);
    NothingTyped(l, rows, parseDate);
  }

  /** A column the header did not have before comes out with a blank cell in every row. */
  lemma MissingColumnBlank(cols0: seq<string>, rows0: seq<seq<string>>, names: seq<string>, name: string, k: nat)
    requires Rectangular(cols0, rows0)
    requires name !in cols0
    requires k < |WithColumns(cols0, rows0, names).0| && WithColumns(cols0, rows0, names).0[k] == name
    ensures var rows := WithColumns(cols0, rows0, names).1;
            forall j :: 0 <= j < |rows| ==> k < |rows[j]| && rows[j][k] == ""
  {
    WithColumnsAdds(cols0, rows0, names);
    var (cols, rows) := WithColumns(cols0, rows0, names);
    assert k >= |cols0|;
    forall j | 0 <= j < |rows| ensures k < |rows[j]| && rows[j][k] == "" {
      assert rows[j][k] == Blanks(|cols| - |cols0|)[k - |cols0|];
    }
  }

  /** Rows whose `type` cell is blank are neither lines nor spans. */
  lemma {:induction false} NothingTyped(l: Layout, rows: seq<seq<string>>, parseDate: string -> Option<DateTime>)
    requires RowsFit(l, rows)
    requires forall j :: 0 <= j < |rows| ==> rows[j][l.kind] == ""
    ensures Lines(l, rows, parseDate) == [] && Spans(l, rows, parseDate) == []
    decreases |rows|
  {
    if rows != [] {
      assert rows[0][l.kind] == "";
      NothingTyped(l, rows[1..], parseDate);
    }
  }

  /** The labels and categories of the loaded events are stripped. */
  lemma {:induction false} LoadedTextTrimmed(l: Layout, rows: seq<seq<string>>, parseDate: string -> Option<DateTime>)
    requires RowsFit(l, rows)
    ensures forall e :: e in Lines(l, rows, parseDate) ==> Trimmed(e.text) && Trimmed(e.category)
    ensures forall e :: e in Spans(l, rows, parseDate) ==> Trimmed(e.text) && Trimmed(e.category)
  {
    forall e | e in Lines(l, rows, parseDate) ensures Trimmed(e.text) && Trimmed(e.category) {
      var j := LoadedLineHasRow(l, rows, parseDate, e);
    }
    forall e | e in Spans(l, rows, parseDate) ensures Trimmed(e.text) && Trimmed(e.category) {
      var j := LoadedSpanHasRow(l, rows, parseDate, e);
    }
  }
}
