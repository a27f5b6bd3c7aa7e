/**
  The rules of the dashboard page itself: the item list and the event
  categories offered, the default selections, the plot-preparation loop with
  its date-range filters, and the default view window of the chart.
*/
module Dashboard {
  import opened Wrappers
  import opened Strings
  import opened Sorting
  import opened Calendar
  import opened Events
  import opened Overlay

  /** `special_item`: the entry that stands for the average of the selected items. */
  const SpecialItem: string := "Average (selected items)"

  /** `preferred_defaults`. */
  const PreferredEvents: seq<string> := ["Major", "Holiday"]

  /** `preferred_items`: the special entry and seven display names of rifle skins. */
  function PreferredItems(): seq<string> { [
    "Average (selected items)", "AK-47  Bloodsport (Field-Tested)", "AK-47  Redline (Field-Tested)",
    "AK-47  Vulcan (Field-Tested)", "Galil AR  Chatterbox (Field-Tested)", "M4A1-S  Golden Coil (Field-Tested)",
    "M4A1-S  Printstream (Field-Tested)", "M4A4  Asiimov (Field-Tested)"] }

  /** `years_default`: the length of the default view window. */
  const YearsDefault: nat := 3

  /** `label_angle` and `show_labels` as the page calls `add_events_to_figure`. */
  const LabelAngle: int := -45
  const ShowLabels: bool := true

  // ----- Sorting names, as `sorted` does -----

  lemma StrLeTotalPreorder()
    ensures TotalPreorder(StrLe)
  {
    forall a, b ensures StrLe(a, b) || StrLe(b, a) {
      StrLeTotal(a, b);
    }
    forall a, b, c | StrLe(a, b) && StrLe(b, c) ensures StrLe(a, c) {
      StrLeTransitive(a, b, c);
    }
  }

  /** `sorted(names)`. */
  function SortedNames(names: seq<string>): (r: seq<string>)
    ensures SortedBy(r, StrLe) && multiset(r) == multiset(names)
  {
    StrLeTotalPreorder();
    Sort(names, StrLe)
  }

  lemma StrLeAntisymmetry()
    ensures Antisymmetric(StrLe)
  {
    forall a, b | StrLe(a, b) && StrLe(b, a) ensures a == b {
      StrLeAntisymmetric(a, b);
    }
  }

  /**
    `items = [special_item] + sorted(dfs.keys())`, with the keys in whatever
    order the dictionary holds them.
  */
  function ItemsList(keys: seq<string>): (r: seq<string>)
    ensures |r| == |keys| + 1 && r[0] == SpecialItem
    ensures SortedBy(r[1..], StrLe) && multiset(r[1..]) == multiset(keys)
  {
    [SpecialItem] + SortedNames(keys)
  }

  /** The item list depends on the set of loaded names only, not on the order of the dictionary. */
  lemma ItemsListOrderFree(keys1: seq<string>, keys2: seq<string>)
    requires multiset(keys1) == multiset(keys2)
    ensures ItemsList(keys1) == ItemsList(keys2)
  {
    StrLeAntisymmetry();
    SortedUnique(SortedNames(keys1), SortedNames(keys2), StrLe);
  }

  // ----- Event categories -----

  /** The distinct entries of `s`, first occurrences kept. */
  function Distinct(s: seq<string>): (r: seq<string>)
    ensures forall x :: x in r <==> x in s
    ensures forall x :: multiset(r)[x] <= 1
    decreases |s|
  {
    if s == [] then []
    else
      var d := Distinct(s[..|s| - 1]);
      var x := s[|s| - 1];
      assert s == s[..|s| - 1] + [x];
      if x in d then d else d + [x]
  }

  /** Two equal entries in a list count twice in its multiset. */
  lemma RepeatCountsTwice(s: seq<string>, i: int, j: int)
    requires 0 <= i < j < |s| && s[i] == s[j]
    ensures multiset(s)[s[i]] >= 2
  {
    assert s == s[..j] + [s[j]] + s[j + 1..];
    assert s[i] == s[..j][i];
    assert multiset(s) == multiset(s[..j]) + multiset{s[j]} + multiset(s[j + 1..]);
  }

  function Categories(lines: seq<LineEvent>, spans: seq<SpanEvent>): (r: seq<string>)
    ensures forall c :: c in r <==> (exists e :: e in lines && e.category == c) || (exists e :: e in spans && e.category == c)
    decreases |lines| + |spans|
  {
    if lines != [] then
      var rest := Categories(lines[..|lines| - 1], spans);
      assert lines == lines[..|lines| - 1] + [lines[|lines| - 1]];
      rest + [lines[|lines| - 1].category]
    else if spans != [] then
      var rest := Categories(lines, spans[..|spans| - 1]);
      assert spans == spans[..|spans| - 1] + [spans[|spans| - 1]];
      rest + [spans[|spans| - 1].category]
    else []
  }

  /**
    `sorted(set(list(ev_lines["category"].unique()) + list(ev_spans["category"].unique())))`
    for loaded event tables: every category of a line or span event, once, in
    code-point order.
  */
  function CategoryList(lines: seq<LineEvent>, spans: seq<SpanEvent>): (r: seq<string>)
    ensures SortedBy(r, StrLe)
    ensures forall i, j :: 0 <= i < j < |r| ==> r[i] != r[j]
    ensures forall c :: c in r <==> (exists e :: e in lines && e.category == c) || (exists e :: e in spans && e.category == c)
  {
    var d := Distinct(Categories(lines, spans));
    var r := SortedNames(d);
    SortedDistinct(d, r);
    r
  }

  /** A reordering of a list without repeats has no repeats and the same entries. */
  lemma SortedDistinct(d: seq<string>, r: seq<string>)
    requires multiset(r) == multiset(d)
    requires forall x :: multiset(d)[x] <= 1
    ensures forall i, j :: 0 <= i < j < |r| ==> r[i] != r[j]
    ensures forall c :: c in r <==> c in d
  {
    forall i, j | 0 <= i < j < |r| ensures r[i] != r[j] {
      if r[i] == r[j] {
        RepeatCountsTwice(r, i, j);
      }
    }
    forall c ensures c in r <==> c in d {
      assert c in r <==> c in multiset(r);
      assert c in d <==> c in multiset(d);
    }
  }

  /**
    `all_categories` as the page computes it: the column lookup
    `ev_lines["category"]` raises a `KeyError` when the events file is
    missing, because `load_events` then returns two frames without columns.
  */
  function AllCategoriesAsWritten(t: EventTables): (r: Result<seq<string>, string>)
    ensures t.NoFile? ==> r == Err("category")
    ensures t.Loaded? ==> r == Ok(CategoryList(t.lines, t.spans))
  {
    match t
    case NoFile => Err("category")
    case Loaded(lines, spans) => Ok(CategoryList(lines, spans))
  }

  /** Without an events file the page never reaches its widgets. */
  lemma MissingEventsFileRaises()
    ensures AllCategoriesAsWritten(NoFile).Err?
  {
  }

  /** The events the rest of the page works with: no file means no events. */
  function EventsOf(t: EventTables): (r: (seq<LineEvent>, seq<SpanEvent>))
    ensures t.NoFile? ==> r == ([], [])
    ensures t.Loaded? ==> r == (t.lines, t.spans)
  {
    match t
    case NoFile => ([], [])
    case Loaded(lines, spans) => (lines, spans)
  }

  /** `all_categories` as intended: no categories when there is no events file. */
  function AllCategories(t: EventTables): (r: seq<string>)
    ensures SortedBy(r, StrLe)
    ensures forall i, j :: 0 <= i < j < |r| ==> r[i] != r[j]
    ensures t.NoFile? ==> r == []
    ensures t.Loaded? ==> forall c :: c in r <==> (exists e :: e in t.lines && e.category == c) || (exists e :: e in t.spans && e.category == c)
  {
    CategoryList(EventsOf(t).0, EventsOf(t).1)
  }

  /** Where the events file exists the corrected list is the one the page computes. */
  lemma AllCategoriesAgrees(t: EventTables)
    requires t.Loaded?
    ensures AllCategoriesAsWritten(t) == Ok(AllCategories(t))
  {
  }

  // ----- Default selections -----

  /** `r` lists some of the entries of `s`, in the order they have in `s`. */
  predicate SubsequenceOf(r: seq<string>, s: seq<string>)
    decreases |s|
  {
    if r == [] then true
    else if s == [] then false
    else (r[0] == s[0] && SubsequenceOf(r[1..], s[1..])) || SubsequenceOf(r, s[1..])
  }

  /** `[c for c in preferred if c in available]`. */
  function KeepPresent(preferred: seq<string>, available: seq<string>): (r: seq<string>)
    ensures forall x :: x in r <==> x in preferred && x in available
    ensures SubsequenceOf(r, preferred)
    decreases |preferred|
  {
    if preferred == [] then []
    else
      var rest := KeepPresent(preferred[1..], available);
      assert preferred == [preferred[0]] + preferred[1..];
      if preferred[0] in available then
        assert ([preferred[0]] + rest)[1..] == rest;
        [preferred[0]] + rest
      else rest
  }

  /** `default_events`. */
  function DefaultEvents(allCategories: seq<string>): (r: seq<string>)
    ensures forall x :: x in r <==> x in PreferredEvents && x in allCategories
    ensures SubsequenceOf(r, PreferredEvents)
  {
    KeepPresent(PreferredEvents, allCategories)
  }

  /**
    `default_events` of the page, on the corrected category list: the preferred
    categories that some loaded event has, and none without an events file.
  */
  function EventDefaults(t: EventTables): (r: seq<string>)
    ensures t.NoFile? ==> r == []
    ensures t.Loaded? ==> forall x :: x in r <==>
              && x in PreferredEvents
              && ((exists e :: e in t.lines && e.category == x) || (exists e :: e in t.spans && e.category == x))
    ensures SubsequenceOf(r, PreferredEvents)
  {
    DefaultEvents(AllCategories(t))
  }

  /** `default_items`. */
  function DefaultItems(items: seq<string>): (r: seq<string>)
    ensures forall x :: x in r <==> x in PreferredItems() && x in items
    ensures SubsequenceOf(r, PreferredItems())
  {
    KeepPresent(PreferredItems(), items)
  }

  // ----- Plot preparation and the date-range filter -----

  /** A row of a loaded history table; `price_median` is undefined on days without sales. */
  datatype HistoryRow = HistoryRow(timestamp: DateTime, priceMedian: Option<real>)

  /** A row of a plot frame: `df_item[["timestamp", "price_median"]]` renamed, with the `item` column. */
  datatype PlotRow = PlotRow(timestamp: DateTime, price: Option<real>, item: string)

  /** `start <= t <= end`. */
  predicate InRange(t: DateTime, start: DateTime, end: DateTime) {
    AtOrBefore(start, t) && AtOrBefore(t, end)
  }

  function RowsInRange(rows: seq<HistoryRow>, start: DateTime, end: DateTime): (r: seq<HistoryRow>)
    ensures forall x :: x in r <==> x in rows && InRange(x.timestamp, start, end)
    ensures |r| <= |rows|
    decreases |rows|
  {
    if rows == [] then []
    else
      assert rows == [rows[0]] + rows[1..];
      (if InRange(rows[0].timestamp, start, end) then [rows[0]] else []) + RowsInRange(rows[1..], start, end)
  }

  /** The line-event filter: `start <= date <= end`. */
  function LinesInRange(lines: seq<LineEvent>, start: DateTime, end: DateTime): (r: seq<LineEvent>)
    ensures forall x :: x in r <==> x in lines && InRange(x.date, start, end)
    ensures |r| <= |lines|
    decreases |lines|
  {
    if lines == [] then []
    else
      assert lines == [lines[0]] + lines[1..];
      (if InRange(lines[0].date, start, end) then [lines[0]] else []) + LinesInRange(lines[1..], start, end)
  }

  /** A span overlaps the range: it ends at or after its start and starts at or before its end. */
  predicate Overlaps(e: SpanEvent, start: DateTime, end: DateTime) {
    AtOrBefore(start, e.end) && AtOrBefore(e.start, end)
  }

  /** The span-event filter: `end >= start and start <= end`. */
  function SpansInRange(spans: seq<SpanEvent>, start: DateTime, end: DateTime): (r: seq<SpanEvent>)
    ensures forall x :: x in r <==> x in spans && Overlaps(x, start, end)
    ensures |r| <= |spans|
    decreases |spans|
  {
    if spans == [] then []
    else
      assert spans == [spans[0]] + spans[1..];
      (if Overlaps(spans[0], start, end) then [spans[0]] else []) + SpansInRange(spans[1..], start, end)
  }

  /** Filtering the line events twice keeps what filtering once kept. */
  lemma {:induction false} LinesInRangeIdempotent(lines: seq<LineEvent>, start: DateTime, end: DateTime)
    ensures LinesInRange(LinesInRange(lines, start, end), start, end) == LinesInRange(lines, start, end)
    decreases |lines|
  {
    if lines != [] {
      LinesInRangeIdempotent(lines[1..], start, end);
      var head := if InRange(lines[0].date, start, end) then [lines[0]] else [];
      var once := LinesInRange(lines, start, end);
      assert once == head + LinesInRange(lines[1..], start, end);
      if head != [] {
        assert once[0] == lines[0] && once[1..] == LinesInRange(lines[1..], start, end);
        assert LinesInRange(once, start, end) == [once[0]] + LinesInRange(once[1..], start, end);
      } else {
        assert once == LinesInRange(lines[1..], start, end);
      }
    }
  }

  /** Filtering the span events twice keeps what filtering once kept. */
  lemma {:induction false} SpansInRangeIdempotent(spans: seq<SpanEvent>, start: DateTime, end: DateTime)
    ensures SpansInRange(SpansInRange(spans, start, end), start, end) == SpansInRange(spans, start, end)
    decreases |spans|
  {
    if spans != [] {
      SpansInRangeIdempotent(spans[1..], start, end);
      var head := if Overlaps(spans[0], start, end) then [spans[0]] else [];
      var once := SpansInRange(spans, start, end);
      assert once == head + SpansInRange(spans[1..], start, end);
      if head != [] {
        assert once[0] == spans[0] && once[1..] == SpansInRange(spans[1..], start, end);
        assert SpansInRange(once, start, end) == [once[0]] + SpansInRange(once[1..], start, end);
      } else {
        assert once == SpansInRange(spans[1..], start, end);
      }
    }
  }

  /** `df_item[["timestamp", "price_median"]].rename(...)` with `df_item["item"] = item`. */
  function PlotFrame(rows: seq<HistoryRow>, item: string): (r: seq<PlotRow>)
    ensures |r| == |rows|
    ensures forall k :: 0 <= k < |rows| ==> r[k] == PlotRow(rows[k].timestamp, rows[k].priceMedian, item)
  {
    seq(|rows|, k requires 0 <= k < |rows| => PlotRow(rows[k].timestamp, rows[k].priceMedian, item))
  }

  /** The date range in effect: `date_range` has exactly two entries, taken at midnight. */
  function RangeOf(dateRange: seq<Date>): Option<(DateTime, DateTime)> {
    if |dateRange| == 2 then Some((Midnight(dateRange[0]), Midnight(dateRange[1]))) else None
  }

  /** The frame of one selected item, cut to the date range when one is in effect. */
  function ItemFrame(rows: seq<HistoryRow>, item: string, range: Option<(DateTime, DateTime)>): seq<PlotRow> {
    if range.Some? then PlotFrame(RowsInRange(rows, range.value.0, range.value.1), item) else PlotFrame(rows, item)
  }

  /** The items of the selection that get a frame of their own: all but the special entry. */
  predicate Plotted(selItems: seq<string>) {
    exists i :: 0 <= i < |selItems| && selItems[i] != SpecialItem
  }

  /** `frames`: one frame per selected item apart from the special entry, in selection order. */
  function Frames(selItems: seq<string>, dfs: map<string, seq<HistoryRow>>, range: Option<(DateTime, DateTime)>): seq<seq<PlotRow>>
    requires forall i :: 0 <= i < |selItems| ==> selItems[i] == SpecialItem || selItems[i] in dfs
    decreases |selItems|
  {
    if selItems == [] then []
    else
      var init := selItems[..|selItems| - 1];
      var item := selItems[|selItems| - 1];
      assert forall i :: 0 <= i < |init| ==> init[i] == selItems[i];
      Frames(init, dfs, range) + (if item == SpecialItem then [] else [ItemFrame(dfs[item], item, range)])
  }

  /** There is a frame exactly when an item other than the special entry is selected. */
  lemma {:induction false} FramesExist(selItems: seq<string>, dfs: map<string, seq<HistoryRow>>, range: Option<(DateTime, DateTime)>)
    requires forall i :: 0 <= i < |selItems| ==> selItems[i] == SpecialItem || selItems[i] in dfs
    ensures Frames(selItems, dfs, range) != [] <==> Plotted(selItems)
    decreases |selItems|
  {
    if selItems != [] {
      var init := selItems[..|selItems| - 1];
      assert forall i :: 0 <= i < |init| ==> init[i] == selItems[i];
      FramesExist(init, dfs, range);
      if Plotted(init) {
        var i :| 0 <= i < |init| && init[i] != SpecialItem;
        assert selItems[i] != SpecialItem;
      }
      if Plotted(selItems) && !Plotted(init) {
        assert selItems[|selItems| - 1] != SpecialItem;
      }
    }
  }

  /** One more selected entry makes the selection plotted exactly when it is not the special entry. */
  lemma PlottedStep(selItems: seq<string>, i: int)
    requires 0 <= i < |selItems|
    ensures Plotted(selItems[..i + 1]) <==> Plotted(selItems[..i]) || selItems[i] != SpecialItem
  {
    assert forall k :: 0 <= k < i + 1 ==> selItems[..i + 1][k] == selItems[k];
    assert forall k :: 0 <= k < i ==> selItems[..i][k] == selItems[k];
  }

  /** One more selected entry adds its frame, unless it is the special entry. */
  lemma FramesStep(selItems: seq<string>, dfs: map<string, seq<HistoryRow>>, range: Option<(DateTime, DateTime)>, i: int)
    requires forall i :: 0 <= i < |selItems| ==> selItems[i] == SpecialItem || selItems[i] in dfs
    requires 0 <= i < |selItems|
    ensures Frames(selItems[..i + 1], dfs, range)
            == Frames(selItems[..i], dfs, range)
               + (if selItems[i] == SpecialItem then [] else [ItemFrame(dfs[selItems[i]], selItems[i], range)])
  {
    assert selItems[..i + 1][..i] == selItems[..i];
    assert selItems[..i + 1][i] == selItems[i];
  }

  /** What the preparation loop leaves: the frames, and the event tables filtered when the range applied at least once. */
  datatype Prepared = Prepared(frames: seq<seq<PlotRow>>, lines: seq<LineEvent>, spans: seq<SpanEvent>)

  /** The line events on show: filtered to the range once an item has been plotted with one in effect. */
  function LinesShown(lines: seq<LineEvent>, range: Option<(DateTime, DateTime)>, plotted: bool): seq<LineEvent> {
    if range.Some? && plotted then LinesInRange(lines, range.value.0, range.value.1) else lines
  }

  /** The span events on show, in the same way. */
  function SpansShown(spans: seq<SpanEvent>, range: Option<(DateTime, DateTime)>, plotted: bool): seq<SpanEvent> {
    if range.Some? && plotted then SpansInRange(spans, range.value.0, range.value.1) else spans
  }

  /**
    One pass of the loop for an item other than the special entry: its frame,
    and the event tables filtered once more when two dates are chosen. Filtering
    again what was already filtered changes nothing, so after the pass the
    tables are the filtered ones whatever came before.
  */
  method PlotItem(item: string, rows: seq<HistoryRow>, dateRange: seq<Date>,
                  ghost lines: seq<LineEvent>, ghost spans: seq<SpanEvent>, ghost plottedBefore: bool,
                  linesBefore: seq<LineEvent>, spansBefore: seq<SpanEvent>)
    returns (frame: seq<PlotRow>, linesAfter: seq<LineEvent>, spansAfter: seq<SpanEvent>)
    requires linesBefore == LinesShown(lines, RangeOf(dateRange), plottedBefore)
    requires spansBefore == SpansShown(spans, RangeOf(dateRange), plottedBefore)
    ensures frame == ItemFrame(rows, item, RangeOf(dateRange))
    ensures linesAfter == LinesShown(lines, RangeOf(dateRange), true)
    ensures spansAfter == SpansShown(spans, RangeOf(dateRange), true)
  {
    var shown := rows;
    linesAfter, spansAfter := linesBefore, spansBefore;
    if |dateRange| == 2 {
      var start, end := Midnight(dateRange[0]), Midnight(dateRange[1]);
      shown := RowsInRange(rows, start, end);
      if plottedBefore {
        LinesInRangeIdempotent(lines, start, end);
        SpansInRangeIdempotent(spans, start, end);
      }
      linesAfter := LinesInRange(linesBefore, start, end);
      spansAfter := SpansInRange(spansBefore, start, end);
    }
    frame := PlotFrame(shown, item);
  }

  /**
    The loop `for item in sel_items` (Home.py): it skips the special entry,
    cuts each item's table to the date range when two dates are chosen, and
    re-applies the event filters on every such pass.
  */
  method PrepareFrames(selItems: seq<string>, dfs: map<string, seq<HistoryRow>>, dateRange: seq<Date>,
                       lines: seq<LineEvent>, spans: seq<SpanEvent>) returns (p: Prepared)
    requires forall i :: 0 <= i < |selItems| ==> selItems[i] == SpecialItem || selItems[i] in dfs
    ensures p.frames == Frames(selItems, dfs, RangeOf(dateRange))
    ensures RangeOf(dateRange).Some? && Plotted(selItems) ==>
              var (start, end) := RangeOf(dateRange).value;
              p.lines == LinesInRange(lines, start, end) && p.spans == SpansInRange(spans, start, end)
    ensures RangeOf(dateRange).None? || !Plotted(selItems) ==> p.lines == lines && p.spans == spans
  {
    var frames: seq<seq<PlotRow>> := [];
    var linesFiltered, spansFiltered := lines, spans;
    ghost var range := RangeOf(dateRange);
    var i := 0;
    while i < |selItems|
      invariant 0 <= i <= |selItems|
      invariant frames == Frames(selItems[..i], dfs, range)
      invariant linesFiltered == LinesShown(lines, range, Plotted(selItems[..i]))
      invariant spansFiltered == SpansShown(spans, range, Plotted(selItems[..i]))
    {
      var item := selItems[i];
      PlottedStep(selItems, i);
      FramesStep(selItems, dfs, range, i);
      if item != SpecialItem {
        var frame;
        frame, linesFiltered, spansFiltered :=
          PlotItem(item, dfs[item], dateRange, lines, spans, Plotted(selItems[..i]), linesFiltered, spansFiltered);
        frames := frames + [frame];
      }
      i := i + 1;
    }
    assert selItems[..i] == selItems;
    p := Prepared(frames, linesFiltered, spansFiltered);
  }

  // ----- The default view window -----

  /** `plot_df["timestamp"].max()`. */
  function Latest(rows: seq<PlotRow>): (t: DateTime)
    requires rows != []
    ensures exists k :: 0 <= k < |rows| && rows[k].timestamp == t
    ensures forall k :: 0 <= k < |rows| ==> AtOrBefore(rows[k].timestamp, t)
    decreases |rows|
  {
    if |rows| == 1 then rows[0].timestamp
    else
      var rest := Latest(rows[1..]);
      assert forall k :: 1 <= k < |rows| ==> rows[k] == rows[1..][k - 1];
      AtOrBeforeTotal(rows[0].timestamp, rest);
      if AtOrBefore(rows[0].timestamp, rest) then
        forall k | 0 <= k < |rows| ensures AtOrBefore(rows[k].timestamp, rest) {
          if k > 0 { assert rows[k] == rows[1..][k - 1]; }
        }
        rest
      else
        forall k | 0 <= k < |rows| ensures AtOrBefore(rows[k].timestamp, rows[0].timestamp) {
          if k > 0 {
            assert rows[k] == rows[1..][k - 1];
            AtOrBeforeTransitive(rows[k].timestamp, rest, rows[0].timestamp);
          }
        }
        rows[0].timestamp
  }

  /** `plot_df["timestamp"].min()`. */
  function Earliest(rows: seq<PlotRow>): (t: DateTime)
    requires rows != []
    ensures exists k :: 0 <= k < |rows| && rows[k].timestamp == t
    ensures forall k :: 0 <= k < |rows| ==> AtOrBefore(t, rows[k].timestamp)
    decreases |rows|
  {
    if |rows| == 1 then rows[0].timestamp
    else
      var rest := Earliest(rows[1..]);
      assert forall k :: 1 <= k < |rows| ==> rows[k] == rows[1..][k - 1];
      AtOrBeforeTotal(rows[0].timestamp, rest);
      if AtOrBefore(rest, rows[0].timestamp) then
        forall k | 0 <= k < |rows| ensures AtOrBefore(rest, rows[k].timestamp) {
          if k > 0 { assert rows[k] == rows[1..][k - 1]; }
        }
        rest
      else
        forall k | 0 <= k < |rows| ensures AtOrBefore(rows[0].timestamp, rows[k].timestamp) {
          if k > 0 {
            assert rows[k] == rows[1..][k - 1];
            AtOrBeforeTransitive(rows[0].timestamp, rest, rows[k].timestamp);
          }
        }
        rows[0].timestamp
  }

  /** Timestamps as pandas holds them: real calendar dates and times of day. */
  predicate ValidRows(rows: seq<PlotRow>) {
    forall k :: 0 <= k < |rows| ==> ValidDateTime(rows[k].timestamp)
  }

  /**
    `max(max_ts - pd.DateOffset(years=years_default), min_ts)`: the start of
    the default window, never before the first data point nor after the last.
  */
  function ViewStart(rows: seq<PlotRow>): (start: DateTime)
    requires rows != [] && ValidRows(rows)
    ensures AtOrBefore(Earliest(rows), start) && AtOrBefore(start, Latest(rows))
    ensures AtOrBefore(MinusYears(Latest(rows), YearsDefault), start)
    ensures start == MinusYears(Latest(rows), YearsDefault) || start == Earliest(rows)
  {
    var hi, lo := Latest(rows), Earliest(rows);
    var k :| 0 <= k < |rows| && rows[k].timestamp == hi;
    assert ValidDateTime(hi);
    var back := MinusYears(hi, YearsDefault);
    AtOrBeforeTotal(back, lo);
    assert AtOrBefore(lo, hi);
    if AtOrBefore(lo, back) then back else lo
  }

  /** The plot rows of all frames, in frame order: `pd.concat(frames)` before its sort. */
  function Concat(frames: seq<seq<PlotRow>>): seq<PlotRow>
    decreases |frames|
  {
    if frames == [] then [] else Concat(frames[..|frames| - 1]) + frames[|frames| - 1]
  }

  /** The window the chart shows by default: only when no two-date range is chosen and there are data. */
  function DefaultWindow(rows: seq<PlotRow>, dateRange: seq<Date>): (w: Option<(DateTime, DateTime)>)
    requires ValidRows(rows)
    ensures w.Some? <==> |dateRange| != 2 && rows != []
    ensures w.Some? ==> w.value == (ViewStart(rows), Latest(rows)) && AtOrBefore(w.value.0, w.value.1)
  {
    if |dateRange| != 2 && rows != [] then Some((ViewStart(rows), Latest(rows))) else None
  }

  /**
    The chart part of the page: with at least one frame, the line chart, its
    default window when no date range is chosen, and the event overlay for
    the selected categories. Without frames there is no chart.
  */
  method DrawChart(p: Prepared, dateRange: seq<Date>, selCats: seq<string>) returns (fig: Figure?)
    requires ValidRows(Concat(p.frames))
    ensures p.frames == [] <==> fig == null
    ensures fig != null ==> fresh(fig)
    ensures fig != null ==> && fig.shapes == LineShapes(p.lines, selCats) + SpanShapes(p.spans, selCats)
                            && fig.annotations == LineNotes(p.lines, selCats, ShowLabels, LabelAngle)
                                                  + SpanNotes(p.spans, selCats, ShowLabels, LabelAngle)
                            && fig.xRange == DefaultWindow(Concat(p.frames), dateRange)
  {
    if p.frames == [] {
      return null;
    }
    var plot := Concat(p.frames);
    fig := new Figure();
    var w := DefaultWindow(plot, dateRange);
    if w.Some? {
      fig.SetRange(w.value.0, w.value.1);
    }
    ghost var shapes, notes := LineShapes(p.lines, selCats), LineNotes(p.lines, selCats, ShowLabels, LabelAngle);
    assert [] + shapes == shapes && [] + notes == notes;
    AddEventsToFigure(fig, p.lines, p.spans, selCats, ShowLabels, LabelAngle);
  }
}
