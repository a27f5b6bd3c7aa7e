/**
  `add_events_to_figure`: the event overlay of the price chart. The figure is
  modelled by what the function adds to it, the shapes and the annotations
  in the order they are appended, and by the x-axis window the page sets.
*/
module Overlay {
  import opened Wrappers
  import opened Sequences
  import opened Calendar
  import opened Events

  /** `CATEGORY_COLORS`. */
  const CategoryColors: map<string, string> :=
    map["Major" := "red", "Holiday" := "green", "Promotion" := "blue", "Politics" := "orange", "Global" := "purple"]

  /** `DEFAULT_COLOR`. */
  const DefaultColor: string := "gray"

  /** `CATEGORY_COLORS.get(category, DEFAULT_COLOR)`: gray exactly for the categories without a colour of their own. */
  function CategoryColor(category: string): (c: string)
    ensures category in CategoryColors ==> c == CategoryColors[category]
    ensures c == DefaultColor <==> category !in CategoryColors
  {
    if category in CategoryColors then CategoryColors[category] else DefaultColor
  }

  /**
    A shape across the whole height of the plot (`y0=0, y1=1, yref="paper"`):
    a dashed vertical line of width 2 above the traces, or a rectangle filled
    at opacity 0.12 below them.
  */
  datatype Shape = VLine(x: DateTime, color: string) | Rect(x0: DateTime, x1: DateTime, fill: string)

  datatype Align = Center | Left

  /** A label at height 1.02 of the plot, size 14, without an arrow, rotated by `angle` degrees. */
  datatype Annotation = Annotation(x: DateTime, text: string, color: string, align: Align, angle: int)

  /** The parts of a plotly figure the dashboard changes. */
  class Figure {
    var shapes: seq<Shape>
    var annotations: seq<Annotation>
    var xRange: Option<(DateTime, DateTime)>

    /** `px.line(...)`: a chart without shapes, annotations or a fixed window. */
    constructor ()
      ensures shapes == [] && annotations == [] && xRange == None
    {
      shapes := [];
      annotations := [];
      xRange := None;
    }

    /** `fig.update_xaxes(range=[lo, hi], autorange=False)`. */
    method SetRange(lo: DateTime, hi: DateTime)
      modifies this
      ensures xRange == Some((lo, hi))
      ensures shapes == old(shapes) && annotations == old(annotations)
    {
      xRange := Some((lo, hi));
    }
  }

  // ----- One event -----

  /** The bounds of a span's rectangle: start and end, swapped when the end comes first. */
  function SpanBounds(e: SpanEvent): (b: (DateTime, DateTime))
    ensures AtOrBefore(b.0, b.1)
    ensures b == (e.start, e.end) || b == (e.end, e.start)
    ensures !Before(e.end, e.start) ==> b == (e.start, e.end)
  {
    AtOrBeforeTotal(e.start, e.end);
    if Before(e.end, e.start) then (e.end, e.start) else (e.start, e.end)
  }

  /** Whether an event's label is written next to its shape: labels shown and the label not empty. */
  predicate Labelled(showLabels: bool, text: string) {
    showLabels && text != []
  }

  /** The shape one line event adds: none when its category is not selected. */
  function LineShape(e: LineEvent, selected: seq<string>): (r: seq<Shape>)
    ensures r != [] <==> e.category in selected
    ensures r != [] ==> r == [VLine(e.date, CategoryColor(e.category))]
  {
    if e.category in selected then [VLine(e.date, CategoryColor(e.category))] else []
  }

  /** The label one line event adds: centred on the line, in the line's colour. */
  function LineNote(e: LineEvent, selected: seq<string>, showLabels: bool, angle: int): (r: seq<Annotation>)
    ensures r != [] <==> e.category in selected && Labelled(showLabels, e.text)
    ensures |r| <= |LineShape(e, selected)|
    ensures r != [] ==> r == [Annotation(e.date, e.text, CategoryColor(e.category), Center, angle)]
  {
    if e.category in selected && Labelled(showLabels, e.text)
    then [Annotation(e.date, e.text, CategoryColor(e.category), Center, angle)]
    else []
  }

  /** The rectangle one span event adds: none when its category is not selected. */
  function SpanShape(e: SpanEvent, selected: seq<string>): (r: seq<Shape>)
    ensures r != [] <==> e.category in selected
    ensures r != [] ==> r == [Rect(SpanBounds(e).0, SpanBounds(e).1, CategoryColor(e.category))]
  {
    if e.category in selected then [Rect(SpanBounds(e).0, SpanBounds(e).1, CategoryColor(e.category))] else []
  }

  /** The label one span event adds: left-aligned at the rectangle's left edge. */
  function SpanNote(e: SpanEvent, selected: seq<string>, showLabels: bool, angle: int): (r: seq<Annotation>)
    ensures r != [] <==> e.category in selected && Labelled(showLabels, e.text)
    ensures |r| <= |SpanShape(e, selected)|
    ensures r != [] ==> r == [Annotation(SpanBounds(e).0, e.text, CategoryColor(e.category), Left, angle)]
  {
    if e.category in selected && Labelled(showLabels, e.text)
    then [Annotation(SpanBounds(e).0, e.text, CategoryColor(e.category), Left, angle)]
    else []
  }

  // ----- All events, in table order -----

  function LineShapes(lines: seq<LineEvent>, selected: seq<string>): seq<Shape>
    decreases |lines|
  {
    if lines == [] then []
    else LineShapes(lines[..|lines| - 1], selected) + LineShape(lines[|lines| - 1], selected)
  }

  function LineNotes(lines: seq<LineEvent>, selected: seq<string>, showLabels: bool, angle: int): seq<Annotation>
    decreases |lines|
  {
    if lines == [] then []
    else LineNotes(lines[..|lines| - 1], selected, showLabels, angle) + LineNote(lines[|lines| - 1], selected, showLabels, angle)
  }

  function SpanShapes(spans: seq<SpanEvent>, selected: seq<string>): seq<Shape>
    decreases |spans|
  {
    if spans == [] then []
    else SpanShapes(spans[..|spans| - 1], selected) + SpanShape(spans[|spans| - 1], selected)
  }

  function SpanNotes(spans: seq<SpanEvent>, selected: seq<string>, showLabels: bool, angle: int): seq<Annotation>
    decreases |spans|
  {
    if spans == [] then []
    else SpanNotes(spans[..|spans| - 1], selected, showLabels, angle) + SpanNote(spans[|spans| - 1], selected, showLabels, angle)
  }

  /**
    `add_events_to_figure(fig, ev_lines, ev_spans, selected_categories,
    show_labels, label_angle)`: nothing for an empty selection; otherwise
    one dashed line per selected line event, then one rectangle per selected
    span event, each with its label when labels are shown.
  */
  method AddEventsToFigure(fig: Figure, lines: seq<LineEvent>, spans: seq<SpanEvent>,
                           selected: seq<string>, showLabels: bool, labelAngle: int)
    modifies fig
    ensures fig.shapes == old(fig.shapes) + LineShapes(lines, selected) + SpanShapes(spans, selected)
    ensures fig.annotations == old(fig.annotations) + LineNotes(lines, selected, showLabels, labelAngle)
                                                    + SpanNotes(spans, selected, showLabels, labelAngle)
    ensures fig.xRange == old(fig.xRange)
  {
    if selected == [] {
      NothingSelected(lines, spans, showLabels, labelAngle);
      assert old(fig.shapes) + [] + [] == old(fig.shapes);
      assert old(fig.annotations) + [] + [] == old(fig.annotations);
      return;
    }
    DrawLines(fig, lines, selected, showLabels, labelAngle);
    DrawSpans(fig, spans, selected, showLabels, labelAngle);
  }

  /** The loop over `ev_lines.iterrows()`. */
  method DrawLines(fig: Figure, lines: seq<LineEvent>, selected: seq<string>, showLabels: bool, labelAngle: int)
    modifies fig
    ensures fig.shapes == old(fig.shapes) + LineShapes(lines, selected)
    ensures fig.annotations == old(fig.annotations) + LineNotes(lines, selected, showLabels, labelAngle)
    ensures fig.xRange == old(fig.xRange)
  {
    var i := 0;
    while i < |lines|
      invariant 0 <= i <= |lines|
      invariant fig.shapes == old(fig.shapes) + LineShapes(lines[..i], selected)
      invariant fig.annotations == old(fig.annotations) + LineNotes(lines[..i], selected, showLabels, labelAngle)
      invariant fig.xRange == old(fig.xRange)
    {
      LineStep(lines, i, selected, showLabels, labelAngle);
      ghost var shapes, notes := LineShapes(lines[..i], selected), LineNotes(lines[..i], selected, showLabels, labelAngle);
      DrawLine(fig, lines[i], selected, showLabels, labelAngle);
      AppendAssociative(old(fig.shapes), shapes, LineShape(lines[i], selected));
      AppendAssociative(old(fig.annotations), notes, LineNote(lines[i], selected, showLabels, labelAngle));
      i := i + 1;
    }
    assert lines[..i] == lines;
  }

  /** The loop over `ev_spans.iterrows()`, with the swap of a span whose end comes first. */
  method DrawSpans(fig: Figure, spans: seq<SpanEvent>, selected: seq<string>, showLabels: bool, labelAngle: int)
    modifies fig
    ensures fig.shapes == old(fig.shapes) + SpanShapes(spans, selected)
    ensures fig.annotations == old(fig.annotations) + SpanNotes(spans, selected, showLabels, labelAngle)
    ensures fig.xRange == old(fig.xRange)
  {
    var k := 0;
    while k < |spans|
      invariant 0 <= k <= |spans|
      invariant fig.shapes == old(fig.shapes) + SpanShapes(spans[..k], selected)
      invariant fig.annotations == old(fig.annotations) + SpanNotes(spans[..k], selected, showLabels, labelAngle)
      invariant fig.xRange == old(fig.xRange)
    {
      SpanStep(spans, k, selected, showLabels, labelAngle);
      ghost var shapes, notes := SpanShapes(spans[..k], selected), SpanNotes(spans[..k], selected, showLabels, labelAngle);
      DrawSpan(fig, spans[k], selected, showLabels, labelAngle);
      AppendAssociative(old(fig.shapes), shapes, SpanShape(spans[k], selected));
      AppendAssociative(old(fig.annotations), notes, SpanNote(spans[k], selected, showLabels, labelAngle));
      k := k + 1;
    }
    assert spans[..k] == spans;
  }

  /** The shapes and labels of one more line event. */
  lemma LineStep(lines: seq<LineEvent>, i: int, selected: seq<string>, showLabels: bool, angle: int)
    requires 0 <= i < |lines|
    ensures LineShapes(lines[..i + 1], selected) == LineShapes(lines[..i], selected) + LineShape(lines[i], selected)
    ensures LineNotes(lines[..i + 1], selected, showLabels, angle)
            == LineNotes(lines[..i], selected, showLabels, angle) + LineNote(lines[i], selected, showLabels, angle)
  {
    assert lines[..i + 1][..i] == lines[..i];
  }

  /** The shapes and labels of one more span event. */
  lemma SpanStep(spans: seq<SpanEvent>, k: int, selected: seq<string>, showLabels: bool, angle: int)
    requires 0 <= k < |spans|
    ensures SpanShapes(spans[..k + 1], selected) == SpanShapes(spans[..k], selected) + SpanShape(spans[k], selected)
    ensures SpanNotes(spans[..k + 1], selected, showLabels, angle)
            == SpanNotes(spans[..k], selected, showLabels, angle) + SpanNote(spans[k], selected, showLabels, angle)
  {
    assert spans[..k + 1][..k] == spans[..k];
  }

  /** One row of `ev_lines`: a vertical line, and its label when labels are on and it has text. */
  method DrawLine(fig: Figure, row: LineEvent, selected: seq<string>, showLabels: bool, labelAngle: int)
    modifies fig
    ensures fig.shapes == old(fig.shapes) + LineShape(row, selected)
    ensures fig.annotations == old(fig.annotations) + LineNote(row, selected, showLabels, labelAngle)
    ensures fig.xRange == old(fig.xRange)
  {
    if row.category in selected {
      var color := CategoryColor(row.category);
      fig.shapes := fig.shapes + [VLine(row.date, color)];
      if showLabels && row.text != [] {
        fig.annotations := fig.annotations + [Annotation(row.date, row.text, color, Center, labelAngle)];
      }
    }
  }

  /** One row of `ev_spans`: a rectangle from the earlier to the later date, and its label. */
  method DrawSpan(fig: Figure, row: SpanEvent, selected: seq<string>, showLabels: bool, labelAngle: int)
    modifies fig
    ensures fig.shapes == old(fig.shapes) + SpanShape(row, selected)
    ensures fig.annotations == old(fig.annotations) + SpanNote(row, selected, showLabels, labelAngle)
    ensures fig.xRange == old(fig.xRange)
  {
    if row.category in selected {
      var color := CategoryColor(row.category);
      var s, e := row.start, row.end;
      if Before(e, s) {
        s, e := e, s;
      }
      assert (s, e) == SpanBounds(row);
      fig.shapes := fig.shapes + [Rect(s, e, color)];
      if showLabels && row.text != [] {
        fig.annotations := fig.annotations + [Annotation(s, row.text, color, Left, labelAngle)];
      }
    }
  }

  // ----- What the overlay draws -----

  /** An empty selection adds neither shapes nor labels. */
  lemma NothingSelected(lines: seq<LineEvent>, spans: seq<SpanEvent>, showLabels: bool, angle: int)
    ensures LineShapes(lines, []) == [] && LineNotes(lines, [], showLabels, angle) == []
    ensures SpanShapes(spans, []) == [] && SpanNotes(spans, [], showLabels, angle) == []
  {
    NoLineSelected(lines, showLabels, angle);
    NoSpanSelected(spans, showLabels, angle);
  }

  lemma {:induction false} NoLineSelected(lines: seq<LineEvent>, showLabels: bool, angle: int)
    ensures LineShapes(lines, []) == [] && LineNotes(lines, [], showLabels, angle) == []
    decreases |lines|
  {
    if lines != [] {
      NoLineSelected(lines[..|lines| - 1], showLabels, angle);
    }
  }

  lemma {:induction false} NoSpanSelected(spans: seq<SpanEvent>, showLabels: bool, angle: int)
    ensures SpanShapes(spans, []) == [] && SpanNotes(spans, [], showLabels, angle) == []
    decreases |spans|
  {
    if spans != [] {
      NoSpanSelected(spans[..|spans| - 1], showLabels, angle);
    }
  }

  /** Every line drawn belongs to a line event of a selected category and has that category's colour. */
  lemma {:induction false} DrawnLineIsSelected(lines: seq<LineEvent>, selected: seq<string>, k: int) returns (i: int)
    requires 0 <= k < |LineShapes(lines, selected)|
    ensures 0 <= i < |lines| && lines[i].category in selected
    ensures LineShapes(lines, selected)[k] == VLine(lines[i].date, CategoryColor(lines[i].category))
    decreases |lines|
  {
    var init := lines[..|lines| - 1];
    var last := lines[|lines| - 1];
    if k < |LineShapes(init, selected)| {
      i := DrawnLineIsSelected(init, selected, k);
      assert lines[i] == init[i];
    } else {
      i := |lines| - 1;
    }
  }

  /** Every line event of a selected category is drawn. */
  lemma {:induction false} SelectedLineIsDrawn(lines: seq<LineEvent>, selected: seq<string>, i: int)
    requires 0 <= i < |lines| && lines[i].category in selected
    ensures VLine(lines[i].date, CategoryColor(lines[i].category)) in LineShapes(lines, selected)
    decreases |lines|
  {
    var init := lines[..|lines| - 1];
    if i < |lines| - 1 {
      assert lines[i] == init[i];
      SelectedLineIsDrawn(init, selected, i);
    }
  }

  /** Every rectangle drawn belongs to a span event of a selected category and spans it from its earlier to its later end. */
  lemma {:induction false} DrawnRectIsSelected(spans: seq<SpanEvent>, selected: seq<string>, k: int) returns (i: int)
    requires 0 <= k < |SpanShapes(spans, selected)|
    ensures 0 <= i < |spans| && spans[i].category in selected
    ensures var r := SpanShapes(spans, selected)[k];
            && r.Rect? && AtOrBefore(r.x0, r.x1) && r.fill == CategoryColor(spans[i].category)
            && ((r.x0, r.x1) == (spans[i].start, spans[i].end) || (r.x0, r.x1) == (spans[i].end, spans[i].start))
    decreases |spans|
  {
    var init := spans[..|spans| - 1];
    if k < |SpanShapes(init, selected)| {
      i := DrawnRectIsSelected(init, selected, k);
      assert spans[i] == init[i];
    } else {
      i := |spans| - 1;
    }
  }

  /** Every span event of a selected category is drawn. */
  lemma {:induction false} SelectedSpanIsDrawn(spans: seq<SpanEvent>, selected: seq<string>, i: int)
    requires 0 <= i < |spans| && spans[i].category in selected
    ensures Rect(SpanBounds(spans[i]).0, SpanBounds(spans[i]).1, CategoryColor(spans[i].category)) in SpanShapes(spans, selected)
    decreases |spans|
  {
    var init := spans[..|spans| - 1];
    if i < |spans| - 1 {
      assert spans[i] == init[i];
      SelectedSpanIsDrawn(init, selected, i);
    }
  }

  /** At most one label per drawn shape, and none when labels are hidden. */
  lemma {:induction false} LineLabelsPerShape(lines: seq<LineEvent>, selected: seq<string>, showLabels: bool, angle: int)
    ensures |LineNotes(lines, selected, showLabels, angle)| <= |LineShapes(lines, selected)|
    ensures !showLabels ==> LineNotes(lines, selected, showLabels, angle) == []
    decreases |lines|
  {
    if lines != [] {
      LineLabelsPerShape(lines[..|lines| - 1], selected, showLabels, angle);
    }
  }

  lemma {:induction false} SpanLabelsPerShape(spans: seq<SpanEvent>, selected: seq<string>, showLabels: bool, angle: int)
    ensures |SpanNotes(spans, selected, showLabels, angle)| <= |SpanShapes(spans, selected)|
    ensures !showLabels ==> SpanNotes(spans, selected, showLabels, angle) == []
    decreases |spans|
  {
    if spans != [] {
      SpanLabelsPerShape(spans[..|spans| - 1], selected, showLabels, angle);
    }
  }

  /** A labelled line event of a selected category gets its centred label. */
  lemma {:induction false} LabelledLineIsAnnotated(lines: seq<LineEvent>, selected: seq<string>, showLabels: bool, angle: int, i: int)
    requires 0 <= i < |lines| && lines[i].category in selected && Labelled(showLabels, lines[i].text)
    ensures Annotation(lines[i].date, lines[i].text, CategoryColor(lines[i].category), Center, angle)
            in LineNotes(lines, selected, showLabels, angle)
    decreases |lines|
  {
    var init := lines[..|lines| - 1];
    if i < |lines| - 1 {
      assert lines[i] == init[i];
      LabelledLineIsAnnotated(init, selected, showLabels, angle, i);
    }
  }

  /** Every line label belongs to a labelled line event of a selected category. */
  lemma {:induction false} LineLabelIsLabelled(lines: seq<LineEvent>, selected: seq<string>, showLabels: bool, angle: int, k: int)
    returns (i: int)
    requires 0 <= k < |LineNotes(lines, selected, showLabels, angle)|
    ensures 0 <= i < |lines| && lines[i].category in selected && Labelled(showLabels, lines[i].text)
    ensures LineNotes(lines, selected, showLabels, angle)[k]
            == Annotation(lines[i].date, lines[i].text, CategoryColor(lines[i].category), Center, angle)
    decreases |lines|
  {
    var init := lines[..|lines| - 1];
    if k < |LineNotes(init, selected, showLabels, angle)| {
      i := LineLabelIsLabelled(init, selected, showLabels, angle, k);
      assert lines[i] == init[i];
    } else {
      i := |lines| - 1;
    }
  }

  /** A labelled span event of a selected category gets its label at the rectangle's left edge. */
  lemma {:induction false} LabelledSpanIsAnnotated(spans: seq<SpanEvent>, selected: seq<string>, showLabels: bool, angle: int, i: int)
    requires 0 <= i < |spans| && spans[i].category in selected && Labelled(showLabels, spans[i].text)
    ensures Annotation(SpanBounds(spans[i]).0, spans[i].text, CategoryColor(spans[i].category), Left, angle)
            in SpanNotes(spans, selected, showLabels, angle)
    decreases |spans|
  {
    var init := spans[..|spans| - 1];
    if i < |spans| - 1 {
      assert spans[i] == init[i];
      LabelledSpanIsAnnotated(init, selected, showLabels, angle, i);
    }
  }

  /** Every span label belongs to a labelled span event of a selected category. */
  lemma {:induction false} SpanLabelIsLabelled(spans: seq<SpanEvent>, selected: seq<string>, showLabels: bool, angle: int, k: int)
    returns (i: int)
    requires 0 <= k < |SpanNotes(spans, selected, showLabels, angle)|
    ensures 0 <= i < |spans| && spans[i].category in selected && Labelled(showLabels, spans[i].text)
    ensures SpanNotes(spans, selected, showLabels, angle)[k]
            == Annotation(SpanBounds(spans[i]).0, spans[i].text, CategoryColor(spans[i].category), Left, angle)
    decreases |spans|
  {
    var init := spans[..|spans| - 1];
    if k < |SpanNotes(init, selected, showLabels, angle)| {
      i := SpanLabelIsLabelled(init, selected, showLabels, angle, k);
      assert spans[i] == init[i];
    } else {
      i := |spans| - 1;
    }
  }
}
