/**
 * The telemetry PDF writer. The jsPDF document is modelled as the ordered
 * list of elements drawn on it: text lines (with the font size and weight in
 * force when they were drawn) and tables. Where `autoTable` leaves the cursor
 * (`lastAutoTable.finalY`) is an input: `finalY(i)` is what it reports after
 * the table of the section at index `i`.
 */
module PdfReport {
  import opened Common

  /** The em-dash placeholder for missing values. */
  const Dash: string := "\U{2014}"

  /** Left margin of every text line. */
  const Margin: int := 14

  /** A statistic cell: `number | string`, or the null/undefined that `??` guards against. */
  datatype Cell = NumberCell(v: Val) | StringCell(s: string) | NullCell

  datatype PdfReportRow = PdfReportRow(
    entityName: string, unit: string, last: Cell, min: Cell, max: Cell, avg: Cell)

  datatype PdfReportDeviceSection = PdfReportDeviceSection(
    deviceName: string, rows: seq<PdfReportRow>)

  datatype TableHeaders = TableHeaders(
    entityName: string, unit: string, last: string, min: string, max: string, avg: string)

  datatype PdfReportOptions = PdfReportOptions(
    title: string,
    companyName: Option<string>,
    dashboardName: Option<string>,
    dateRange: string,
    deviceSections: seq<PdfReportDeviceSection>,
    generatedAt: string,
    defaultTitle: string,
    generatedAtLabel: string,
    ariotLabel: string,
    dashboardLabel: string,
    deviceLabel: string,
    tableHeaders: TableHeaders)

  /** What ends up on the page, in drawing order. */
  datatype Element =
    | Text(fontSize: int, bold: bool, content: string, x: int, y: int)
    | Table(startY: int, head: seq<string>, body: seq<seq<string>>)

  /**
   * `fmt`: NaN and null/undefined become the placeholder, any other number
   * is rendered by `show`, a string is passed through untouched (so `''`
   * stays `''`).
   */
  function Fmt(v: Cell, show: real -> string): (r: string)
    ensures v.StringCell? ==> r == v.s
    ensures v.NumberCell? && v.v.Num? ==> r == show(v.v.x)
    ensures r == Dash <==>
      v == NumberCell(NaN) || v == NullCell || v == StringCell(Dash)
      || (v.NumberCell? && v.v.Num? && show(v.v.x) == Dash)
  {
    match v
    case NumberCell(NaN) => Dash
    case NumberCell(Num(x)) => show(x)
    case StringCell(s) => s
    case NullCell => Dash
  }

  /** The head row of every table: the six header labels in column order. */
  function HeadRow(h: TableHeaders): seq<string> {
    [h.entityName, h.unit, h.last, h.min, h.max, h.avg]
  }

  /** One body row: name, unit (placeholder when empty), then the four statistics. */
  function BodyRow(r: PdfReportRow, show: real -> string): seq<string> {
    [r.entityName, if r.unit == "" then Dash else r.unit,
     Fmt(r.last, show), Fmt(r.min, show), Fmt(r.max, show), Fmt(r.avg, show)]
  }

  /** The table body, `rows.map(...)`. */
  function BodyOf(rows: seq<PdfReportRow>, show: real -> string): seq<seq<string>> {
    seq(|rows|, k requires 0 <= k < |rows| => BodyRow(rows[k], show))
  }

  /**
   * A table body has exactly one six-cell row per report row, in order: the
   * name, the unit (the placeholder exactly when the unit is empty or is the
   * placeholder itself), then `fmt` of the four statistics.
   */
  lemma BodyOfRows(rows: seq<PdfReportRow>, show: real -> string)
    ensures |BodyOf(rows, show)| == |rows|
    ensures forall k :: 0 <= k < |rows| ==>
      var cells := BodyOf(rows, show)[k];
      && |cells| == 6 && cells[0] == rows[k].entityName
      && (cells[1] == Dash <==> rows[k].unit == "" || rows[k].unit == Dash)
      && (rows[k].unit != "" ==> cells[1] == rows[k].unit)
      && cells[2..] == [Fmt(rows[k].last, show), Fmt(rows[k].min, show), Fmt(rows[k].max, show), Fmt(rows[k].avg, show)]
  {
  }

  /** True when an optional header value has something left after trimming. */
  predicate Present(s: Option<string>) {
    s.Some? && Trim(s.value) != ""
  }

  /** Number of optional header lines (company, dashboard) that are drawn. */
  function OptionalLines(o: PdfReportOptions): nat {
    (if CompanyLine(o).Some? then 1 else 0) + (if DashboardLine(o).Some? then 1 else 0)
  }

  /** The title line: the trimmed title, or the default title when that is empty. */
  function TitleText(o: PdfReportOptions): string {
    if Trim(o.title) != "" then Trim(o.title) else o.defaultTitle
  }

  /** The company line, drawn only when the trimmed company name is not empty. */
  function CompanyLine(o: PdfReportOptions): Option<string> {
    if Present(o.companyName) then Some(Trim(o.companyName.value)) else None
  }

  /** The `<dashboardLabel>: <name>` line, drawn only when the trimmed name is not empty. */
  function DashboardLine(o: PdfReportOptions): Option<string> {
    if Present(o.dashboardName) then Some(o.dashboardLabel + ": " + Trim(o.dashboardName.value)) else None
  }

  /**
   * The header texts: the title line is the trimmed title, or the default
   * title when the title is all white space; the company and dashboard lines
   * are drawn exactly when their value has a character that is not white
   * space, and then carry the trimmed value.
   */
  lemma HeaderTexts(o: PdfReportOptions)
    ensures AllSpace(o.title) ==> TitleText(o) == o.defaultTitle
    ensures !AllSpace(o.title) ==> TitleText(o) == Trim(o.title) && !IsSpace(TitleText(o)[0])
    ensures CompanyLine(o).Some? <==> o.companyName.Some? && !AllSpace(o.companyName.value)
    ensures CompanyLine(o).Some? ==> CompanyLine(o).value == Trim(o.companyName.value)
    ensures DashboardLine(o).Some? <==> o.dashboardName.Some? && !AllSpace(o.dashboardName.value)
    ensures DashboardLine(o).Some? ==> DashboardLine(o).value == o.dashboardLabel + ": " + Trim(o.dashboardName.value)
    ensures OptionalLines(o) <= 2
  {
  }

  /** Indices, from `i` on and in increasing order, of the sections that have rows. */
  function NonEmptyFrom(secs: seq<PdfReportDeviceSection>, i: nat): (ix: seq<nat>)
    requires i <= |secs|
    decreases |secs| - i
    ensures forall k :: 0 <= k < |ix| ==> i <= ix[k] < |secs| && secs[ix[k]].rows != []
  {
    if i == |secs| then []
    else if secs[i].rows == [] then NonEmptyFrom(secs, i + 1)
    else [i] + NonEmptyFrom(secs, i + 1)
  }

  /** The drawn sections come in increasing index order. */
  lemma {:induction false} NonEmptyFromIncreasing(secs: seq<PdfReportDeviceSection>, i: nat)
    requires i <= |secs|
    ensures forall k :: 0 < k < |NonEmptyFrom(secs, i)| ==> NonEmptyFrom(secs, i)[k - 1] < NonEmptyFrom(secs, i)[k]
    decreases |secs| - i
  {
    if i < |secs| {
      NonEmptyFromIncreasing(secs, i + 1);
      var ix, rest := NonEmptyFrom(secs, i), NonEmptyFrom(secs, i + 1);
      if secs[i].rows != [] {
        assert ix == [i] + rest;
        forall k | 0 < k < |ix| ensures ix[k - 1] < ix[k] {
          assert ix[k] == rest[k - 1];
          if k > 1 {
            assert ix[k - 1] == rest[k - 2];
          }
        }
      }
    }
  }

  /** Every section with rows, from `i` on, is drawn. */
  lemma {:induction false} NonEmptyFromComplete(secs: seq<PdfReportDeviceSection>, i: nat, j: nat)
    requires i <= j < |secs| && secs[j].rows != []
    ensures j in NonEmptyFrom(secs, i)
    decreases |secs| - i
  {
    var ix := NonEmptyFrom(secs, i);
    if i == j {
      assert ix[0] == j;
    } else {
      NonEmptyFromComplete(secs, i + 1, j);
      var rest := NonEmptyFrom(secs, i + 1);
      if secs[i].rows != [] {
        assert ix == [i] + rest;
      } else {
        assert ix == rest;
      }
    }
  }

  /** The bold `<deviceLabel>: <deviceName>` heading of a section. */
  predicate IsHeading(e: Element, o: PdfReportOptions, s: PdfReportDeviceSection) {
    e.Text? && e == Text(12, true, o.deviceLabel + ": " + s.deviceName, Margin, e.y)
  }

  /** The table of a section: the six labels as head, one body row per report row. */
  predicate IsTableOf(e: Element, o: PdfReportOptions, s: PdfReportDeviceSection, show: real -> string) {
    e.Table? && e == Table(e.startY, HeadRow(o.tableHeaders), BodyOf(s.rows, show))
  }

  /**
   * Where the cursor goes after the table of section `j` that started at
   * `startY`: `finalY`, or 10 below the start when there is none, plus 5
   * unless `j` is the last index of the input.
   */
  function AfterTable(o: PdfReportOptions, finalY: nat -> Option<int>, j: nat, startY: int): int {
    finalY(j).GetOr(startY + 10) + (if j < |o.deviceSections| - 1 then 5 else 0)
  }

  datatype Layout = Layout(elements: seq<Element>, y: int)

  /**
   * The elements the section loop draws from index `i` on, starting with the
   * cursor at `y`, and the cursor it leaves.
   */
  function SectionsFrom(o: PdfReportOptions, show: real -> string, finalY: nat -> Option<int>,
                        i: nat, y: int): (r: Layout)
    requires i <= |o.deviceSections|
    decreases |o.deviceSections| - i
  {
    var secs := o.deviceSections;
    if i == |secs| then Layout([], y)
    else if secs[i].rows == [] then SectionsFrom(o, show, finalY, i + 1, y)
    else
      var heading := Text(12, true, o.deviceLabel + ": " + secs[i].deviceName, Margin, y);
      var table := Table(y + 6, HeadRow(o.tableHeaders), BodyOf(secs[i].rows, show));
      var rest := SectionsFrom(o, show, finalY, i + 1, AfterTable(o, finalY, i, y + 6));
      Layout([heading, table] + rest.elements, rest.y)
  }

  /** The line on which an element starts. */
  function Top(e: Element): int {
    match e
    case Text(_, _, _, _, y) => y
    case Table(startY, _, _) => startY
  }

  /** The `k`-th heading and the `k`-th table of a list of heading/table pairs. */
  function HeadingAt(els: seq<Element>, k: nat): Element
    requires 2 * k + 1 < |els|
  {
    els[2 * k]
  }

  function TableAt(els: seq<Element>, k: nat): Element
    requires 2 * k + 1 < |els|
  {
    els[2 * k + 1]
  }

  /** The `k`-th pair of `els` is the heading and the table of section `ix[k]`, the table 6 lower. */
  ghost predicate PairAt(o: PdfReportOptions, show: real -> string, ix: seq<nat>, els: seq<Element>, k: nat)
    requires |els| == 2 * |ix| && k < |ix|
  {
    && ix[k] < |o.deviceSections|
    && IsHeading(HeadingAt(els, k), o, o.deviceSections[ix[k]])
    && IsTableOf(TableAt(els, k), o, o.deviceSections[ix[k]], show)
    && Top(TableAt(els, k)) == Top(HeadingAt(els, k)) + 6
  }

  /** `els` is a heading and a table for each section index of `ix`, in that order. */
  ghost predicate Pairs(o: PdfReportOptions, show: real -> string, ix: seq<nat>, els: seq<Element>) {
    && |els| == 2 * |ix|
    && forall k :: 0 <= k < |ix| ==> PairAt(o, show, ix, els, k)
  }

  /** The `k`-th heading sits where the table before it left the cursor. */
  ghost predicate LinkAt(o: PdfReportOptions, finalY: nat -> Option<int>, ix: seq<nat>, els: seq<Element>, k: nat)
    requires |els| == 2 * |ix| && 0 < k < |ix|
  {
    Top(HeadingAt(els, k)) == AfterTable(o, finalY, ix[k - 1], Top(TableAt(els, k - 1)))
  }

  /** Each heading after the first sits where the previous table left the cursor. */
  ghost predicate Chained(o: PdfReportOptions, finalY: nat -> Option<int>, ix: seq<nat>, els: seq<Element>)
    requires |els| == 2 * |ix|
  {
    forall k :: 0 < k < |ix| ==> LinkAt(o, finalY, ix, els, k)
  }

  /** Where the cursor is after the pairs: `y` when there are none. */
  function EndY(o: PdfReportOptions, finalY: nat -> Option<int>, ix: seq<nat>, els: seq<Element>, y: int): int
    requires |els| == 2 * |ix|
  {
    if ix == [] then y else AfterTable(o, finalY, ix[|ix| - 1], Top(TableAt(els, |ix| - 1)))
  }

  /**
   * `els` is the heading/table pairs of the sections `ix`, chained down the
   * page from `y`, leaving the cursor at `endY`.
   */
  ghost predicate LaidOut(o: PdfReportOptions, show: real -> string, finalY: nat -> Option<int>,
                          ix: seq<nat>, els: seq<Element>, y: int, endY: int)
  {
    && Pairs(o, show, ix, els)
    && Chained(o, finalY, ix, els)
    && (ix != [] ==> Top(HeadingAt(els, 0)) == y)
    && endY == EndY(o, finalY, ix, els, y)
  }

  lemma PairsCons(o: PdfReportOptions, show: real -> string,
                  i: nat, h: Element, t: Element, ix: seq<nat>, els: seq<Element>)
    requires i < |o.deviceSections|
    requires IsHeading(h, o, o.deviceSections[i]) && IsTableOf(t, o, o.deviceSections[i], show)
    requires Top(t) == Top(h) + 6
    requires Pairs(o, show, ix, els)
    ensures Pairs(o, show, [i] + ix, [h, t] + els)
  {
    var ix2, els2 := [i] + ix, [h, t] + els;
    forall k | 0 <= k < |ix2| ensures PairAt(o, show, ix2, els2, k) {
      if k > 0 {
        assert PairAt(o, show, ix, els, k - 1);
        assert HeadingAt(els2, k) == HeadingAt(els, k - 1);
        assert TableAt(els2, k) == TableAt(els, k - 1);
        assert ix2[k] == ix[k - 1];
      } else {
        assert HeadingAt(els2, 0) == h && TableAt(els2, 0) == t;
      }
    }
  }

  lemma ChainedCons(o: PdfReportOptions, finalY: nat -> Option<int>,
                    i: nat, h: Element, t: Element, ix: seq<nat>, els: seq<Element>)
    requires |els| == 2 * |ix|
    requires Chained(o, finalY, ix, els)
    requires ix != [] ==> Top(HeadingAt(els, 0)) == AfterTable(o, finalY, i, Top(t))
    ensures Chained(o, finalY, [i] + ix, [h, t] + els)
  {
    var ix2, els2 := [i] + ix, [h, t] + els;
    forall k | 0 < k < |ix2| ensures LinkAt(o, finalY, ix2, els2, k) {
      assert HeadingAt(els2, k) == HeadingAt(els, k - 1);
      if k > 1 {
        assert LinkAt(o, finalY, ix, els, k - 1);
        assert TableAt(els2, k - 1) == TableAt(els, k - 2);
        assert ix2[k - 1] == ix[k - 2];
      } else {
        assert TableAt(els2, 0) == t;
      }
    }
  }

  /** Putting one more heading/table pair in front of a laid-out list. */
  lemma LaidOutCons(o: PdfReportOptions, show: real -> string, finalY: nat -> Option<int>,
                    i: nat, h: Element, t: Element, ix: seq<nat>, els: seq<Element>, y: int, endY: int)
    requires i < |o.deviceSections|
    requires IsHeading(h, o, o.deviceSections[i]) && Top(h) == y
    requires IsTableOf(t, o, o.deviceSections[i], show) && Top(t) == y + 6
    requires LaidOut(o, show, finalY, ix, els, AfterTable(o, finalY, i, y + 6), endY)
    ensures LaidOut(o, show, finalY, [i] + ix, [h, t] + els, y, endY)
  {
    PairsCons(o, show, i, h, t, ix, els);
    ChainedCons(o, finalY, i, h, t, ix, els);
    var ix2, els2 := [i] + ix, [h, t] + els;
    assert HeadingAt(els2, 0) == h;
    if ix != [] {
      assert TableAt(els2, |ix2| - 1) == TableAt(els, |ix| - 1);
      assert ix2[|ix2| - 1] == ix[|ix| - 1];
    } else {
      assert TableAt(els2, 0) == t;
    }
  }

  /**
   * The section loop, characterised without recursion: a heading and a table
   * for every section that has rows, in input order, nothing for the others.
   */
  lemma {:induction false} SectionsLayout(o: PdfReportOptions, show: real -> string,
                                          finalY: nat -> Option<int>, i: nat, y: int)
    requires i <= |o.deviceSections|
    ensures var r := SectionsFrom(o, show, finalY, i, y);
            LaidOut(o, show, finalY, NonEmptyFrom(o.deviceSections, i), r.elements, y, r.y)
    decreases |o.deviceSections| - i
  {
    var secs := o.deviceSections;
    if i == |secs| {
    } else if secs[i].rows == [] {
      SectionsLayout(o, show, finalY, i + 1, y);
    } else {
      var y1 := AfterTable(o, finalY, i, y + 6);
      SectionsLayout(o, show, finalY, i + 1, y1);
      var rest := SectionsFrom(o, show, finalY, i + 1, y1);
      LaidOutCons(o, show, finalY, i,
                  Text(12, true, o.deviceLabel + ": " + secs[i].deviceName, Margin, y),
                  Table(y + 6, HeadRow(o.tableHeaders), BodyOf(secs[i].rows, show)),
                  NonEmptyFrom(secs, i + 1), rest.elements, y, rest.y);
    }
  }

  /**
   * `h` is the header of the report: the title at 16, the company and
   * dashboard lines only when present, 6 apart from 26 on, and the date range
   * 6 below the last of them, all in normal weight.
   */
  ghost predicate HeaderLaidOut(o: PdfReportOptions, h: seq<Element>) {
    var n := OptionalLines(o);
    && |h| == n + 2
    && h[0] == Text(16, false, TitleText(o), Margin, 16)
    && (CompanyLine(o).Some? ==> h[1] == Text(11, false, CompanyLine(o).value, Margin, 26))
    && (DashboardLine(o).Some? ==> h[n] == Text(11, false, DashboardLine(o).value, Margin, 20 + 6 * n))
    && h[n + 1] == Text(10, false, o.dateRange, Margin, 26 + 6 * n)
  }

  /** The two footer lines, size 9 in normal weight, for a cursor left at `y`. */
  function Footer(o: PdfReportOptions, y: int): seq<Element> {
    [Text(9, false, o.generatedAtLabel + " " + o.generatedAt, Margin, y + 10),
     Text(9, false, o.ariotLabel, Margin, y + 15)]
  }

  /**
   * The header part of `buildTelemetryPdf`, drawn on a fresh document (font
   * size 16, normal weight); the cursor ends 8 below the date range.
   */
  method DrawHeader(o: PdfReportOptions) returns (doc: seq<Element>, y: int)
    ensures HeaderLaidOut(o, doc)
    ensures y == 34 + 6 * OptionalLines(o)
  {
    doc := [];
    var fontSize, bold := 16, false;
    y := 16;

    // Report title
    fontSize := 16;
    doc := doc + [Text(fontSize, bold, TitleText(o), Margin, y)];
    y := y + 10;
    ghost var title := doc;

    // Company name (optional)
    var company := CompanyLine(o);
    if company.Some? {
      fontSize := 11;
      doc := doc + [Text(fontSize, bold, company.value, Margin, y)];
      y := y + 6;
    }
    ghost var lines := doc;
    assert lines[..1] == title;

    // Dashboard name (optional)
    var dashboard := DashboardLine(o);
    if dashboard.Some? {
      fontSize := 11;
      doc := doc + [Text(fontSize, bold, dashboard.value, Margin, y)];
      y := y + 6;
    }
    ghost var n := OptionalLines(o);
    assert |doc| == n + 1 && y == 26 + 6 * n && doc[..|lines|] == lines;

    // Date range
    fontSize := 10;
    doc := doc + [Text(fontSize, bold, o.dateRange, Margin, y)];
    y := y + 8;
  }

  /**
   * The section loop of `buildTelemetryPdf`: for every section with rows a
   * bold size-12 heading at the cursor and the table 6 below it; then the
   * cursor moves to `finalY` (10 below the table's start when there is none)
   * and 5 further unless the section is the last one of the input.
   */
  method DrawSections(o: PdfReportOptions, show: real -> string, finalY: nat -> Option<int>,
                      doc0: seq<Element>, y0: int) returns (doc: seq<Element>, y: int)
    ensures doc == doc0 + SectionsFrom(o, show, finalY, 0, y0).elements
    ensures y == SectionsFrom(o, show, finalY, 0, y0).y
  {
    doc, y := doc0, y0;
    var fontSize, bold;
    ghost var all := SectionsFrom(o, show, finalY, 0, y0);
    var secs := o.deviceSections;
    if |secs| > 0 {
      for i := 0 to |secs|
        invariant doc + SectionsFrom(o, show, finalY, i, y).elements == doc0 + all.elements
        invariant SectionsFrom(o, show, finalY, i, y).y == all.y
      {
        var section := secs[i];
        if |section.rows| == 0 {
          continue;
        }

        // Device name header
        fontSize, bold := 12, true;
        doc := doc + [Text(fontSize, bold, o.deviceLabel + ": " + section.deviceName, Margin, y)];
        y := y + 6;

        // Table for this device
        doc := doc + [Table(y, HeadRow(o.tableHeaders), BodyOf(section.rows, show))];
        var lastFinalY := finalY(i);
        y := if lastFinalY.Some? then lastFinalY.value else y + 10;

        // Spacing between device sections (except after the last index)
        if i < |secs| - 1 {
          y := y + 5;
        }
      }
    }
  }

  /**
   * `buildTelemetryPdf`: the header, then the sections as `SectionsFrom`
   * lays them out from 8 below the date range, then the generated-at line 10
   * below where the sections left the cursor and the attribution line 5
   * further down.
   */
  method BuildTelemetryPdf(o: PdfReportOptions, show: real -> string, finalY: nat -> Option<int>)
    returns (doc: seq<Element>)
    ensures var n := OptionalLines(o);
            var body := SectionsFrom(o, show, finalY, 0, 34 + 6 * n);
            && |doc| == n + 4 + |body.elements|
            && HeaderLaidOut(o, doc[..n + 2])
            && doc[n + 2 .. n + 2 + |body.elements|] == body.elements
            && doc[n + 2 + |body.elements| ..] == Footer(o, body.y)
  {
    var header, y := DrawHeader(o);
    ghost var body := SectionsFrom(o, show, finalY, 0, y);
    doc, y := DrawSections(o, show, finalY, header, y);

    // Footer
    y := y + 10;
    var fontSize, bold := 9, false;
    doc := doc + [Text(fontSize, bold, o.generatedAtLabel + " " + o.generatedAt, Margin, y)];
    y := y + 5;
    doc := doc + [Text(fontSize, bold, o.ariotLabel, Margin, y)];
    assert doc == header + body.elements + Footer(o, body.y);
    ghost var n := OptionalLines(o);
    assert |header| == n + 2 && doc[..n + 2] == header;
    assert doc[n + 2 .. n + 2 + |body.elements|] == body.elements;
    assert doc[n + 2 + |body.elements| ..] == Footer(o, body.y);
  }

  /** When every section has rows (as the report page guarantees), none is skipped. */
  lemma {:induction false} NoSectionSkipped(secs: seq<PdfReportDeviceSection>, i: nat)
    requires i <= |secs|
    requires forall j :: 0 <= j < |secs| ==> secs[j].rows != []
    ensures |NonEmptyFrom(secs, i)| == |secs| - i
    ensures forall k :: 0 <= k < |secs| - i ==> NonEmptyFrom(secs, i)[k] == i + k
    decreases |secs| - i
  {
    if i < |secs| {
      NoSectionSkipped(secs, i + 1);
      var ix, rest := NonEmptyFrom(secs, i), NonEmptyFrom(secs, i + 1);
      assert ix == [i] + rest;
      forall k | 0 <= k < |secs| - i ensures ix[k] == i + k {
        if k > 0 {
          assert ix[k] == rest[k - 1];
        }
      }
    }
  }
}
