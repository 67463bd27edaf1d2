/** The package writer: which part writers it calls, in which order, with which chart, drawing and
    comment ids, and which of their failures reach the caller.

    What each part writer puts into the package is not part of this model; a call is recorded as a
    `PartCall` with the arguments that matter for numbering. The file system is a parameter: which
    part writes fail, and whether creating the temporary directory, packing it into the file and
    closing it fail. */
module PackageWriter {
  import opened Xml

  /** What the loop asks of a worksheet: whether it has drawing objects and comments, and how many
      graphic frames (charts) and pictures its drawing holds. */
  datatype SheetInfo = SheetInfo(hasDrawingObject: bool, hasComments: bool, graphicFrames: nat, pictures: nat)

  datatype Spreadsheet = Spreadsheet(sheets: seq<SheetInfo>, activeSheet: nat)

  /** One call of a part writer, with the ids it is given. */
  datatype PartCall =
    | ContentTypes | DocPropsApp | DocPropsCore | VbaProject | Rels | WorkbookRels | ThemePart | WorkbookPart
    | SharedStrings | Styles
    | WorksheetPart(sheetId: nat, selected: bool)
    | WorksheetRels(sheetId: nat, drawingId: nat, commentId: nat)
    | DrawingPart(drawingId: nat)
    | DrawingRels(drawingId: nat, chartId: nat)
    | CommentPart(commentId: nat)
    | VmlDrawingPart(commentId: nat)
    | ChartPart(chartId: nat)
    | MediaPart(sheetIndex: nat, picture: nat)

  /** Which steps fail. */
  datatype Environment = Environment(tempDirFails: bool, failing: set<PartCall>, packFails: bool, closeFails: bool)

  /** The chart, drawing and comment counters. */
  datatype Ids = Ids(chart: nat, drawing: nat, comment: nat)

  /** The workbook-level parts, in the order they are written; shared strings and styles last. */
  const FixedCalls: seq<PartCall> :=
    [ContentTypes, DocPropsApp, DocPropsCore, VbaProject, Rels, WorkbookRels, ThemePart, WorkbookPart,
     SharedStrings, Styles]

  /** The number of sheets with drawing objects, the number with comments and the number of graphic
      frames among `sheets`. */
  function DrawingSheets(sheets: seq<SheetInfo>): nat
    decreases |sheets|
  {
    if sheets == [] then 0
    else DrawingSheets(sheets[..|sheets| - 1]) + (if sheets[|sheets| - 1].hasDrawingObject then 1 else 0)
  }

  function CommentSheets(sheets: seq<SheetInfo>): nat
    decreases |sheets|
  {
    if sheets == [] then 0
    else CommentSheets(sheets[..|sheets| - 1]) + (if sheets[|sheets| - 1].hasComments then 1 else 0)
  }

  function Frames(sheets: seq<SheetInfo>): nat
    decreases |sheets|
  {
    if sheets == [] then 0 else Frames(sheets[..|sheets| - 1]) + sheets[|sheets| - 1].graphicFrames
  }

  /** The counters when the writer reaches the sheet after `before`: each starts at 1, the drawing id
      has gone up once per sheet with drawing objects, the comment id once per sheet with comments,
      and the chart id once per graphic frame. */
  function IdsBefore(before: seq<SheetInfo>): Ids
  {
    Ids(1 + Frames(before), 1 + DrawingSheets(before), 1 + CommentSheets(before))
  }

  /** The chart parts of a sheet, numbered from `first`, and its media parts. */
  function ChartCalls(first: nat, n: nat): (r: seq<PartCall>)
    ensures |r| == n
  {
    seq(n, k requires 0 <= k < n => ChartPart(first + k))
  }

  function MediaCalls(i: nat, n: nat): (r: seq<PartCall>)
    ensures |r| == n
  {
    seq(n, k requires 0 <= k < n => MediaPart(i, k))
  }

  /** The calls for sheet `i` (0-based) reached with counters `ids`. */
  function SheetCalls(i: nat, active: nat, sheet: SheetInfo, ids: Ids): seq<PartCall>
  {
    [WorksheetPart(i + 1, active == i), WorksheetRels(i + 1, ids.drawing, ids.comment), DrawingPart(ids.drawing),
     DrawingRels(ids.drawing, ids.chart), CommentPart(ids.comment), VmlDrawingPart(ids.comment)] +
    ChartCalls(ids.chart, sheet.graphicFrames) + MediaCalls(i, sheet.pictures)
  }

  /** The calls for all of `sheets`, in order. */
  function SheetsCalls(sheets: seq<SheetInfo>, active: nat): seq<PartCall>
    decreases |sheets|
  {
    if sheets == [] then []
    else
      var before := sheets[..|sheets| - 1];
      SheetsCalls(before, active) + SheetCalls(|before|, active, sheets[|sheets| - 1], IdsBefore(before))
  }

  /** The calls made, given that creating the temporary directory succeeded: a failing shared
      strings or styles writer stops everything after it. */
  function Trace(book: Spreadsheet, env: Environment): seq<PartCall>
  {
    if SharedStrings in env.failing then FixedCalls[..9]
    else if Styles in env.failing then FixedCalls
    else FixedCalls + SheetsCalls(book.sheets, book.activeSheet)
  }

  /** What `write` returns: the temporary directory, the shared strings and styles writers, the
      packing and the closing can fail it; the other part writers' failures are discarded. */
  function Outcome(env: Environment): Result<()>
  {
    if env.tempDirFails then Err(IoFailed("TempDir::new"))
    else if SharedStrings in env.failing then Err(PartWriteFailed("xl/sharedStrings.xml"))
    else if Styles in env.failing then Err(PartWriteFailed("xl/styles.xml"))
    else if env.packFails then Err(IoFailed("write_to_file"))
    else if env.closeFails then Err(IoFailed("close"))
    else Ok(())
  }

  // ---------------------------------------------------------------------------------------
  // Properties of the numbering

  /** The sheet ids of the worksheet calls, and the chart ids of the chart calls, in call order. */
  function WorksheetIds(calls: seq<PartCall>): seq<nat>
    decreases |calls|
  {
    if calls == [] then []
    else (if calls[0].WorksheetPart? then [calls[0].sheetId] else []) + WorksheetIds(calls[1..])
  }

  function ChartIds(calls: seq<PartCall>): seq<nat>
    decreases |calls|
  {
    if calls == [] then []
    else (if calls[0].ChartPart? then [calls[0].chartId] else []) + ChartIds(calls[1..])
  }

  lemma {:induction false} WorksheetIdsAppend(a: seq<PartCall>, b: seq<PartCall>)
    ensures WorksheetIds(a + b) == WorksheetIds(a) + WorksheetIds(b)
    decreases |a|
  {
    if a == [] {
      assert a + b == b;
    } else {
      assert (a + b)[0] == a[0] && (a + b)[1..] == a[1..] + b;
      WorksheetIdsAppend(a[1..], b);
    }
  }

  lemma {:induction false} ChartIdsAppend(a: seq<PartCall>, b: seq<PartCall>)
    ensures ChartIds(a + b) == ChartIds(a) + ChartIds(b)
    decreases |a|
  {
    if a == [] {
      assert a + b == b;
    } else {
      assert (a + b)[0] == a[0] && (a + b)[1..] == a[1..] + b;
      ChartIdsAppend(a[1..], b);
    }
  }

  /** Calls that are not worksheet calls contribute no sheet id; calls that are not chart calls
      contribute no chart id. */
  lemma {:induction false} NoWorksheetIds(calls: seq<PartCall>)
    requires forall k :: 0 <= k < |calls| ==> !calls[k].WorksheetPart?
    ensures WorksheetIds(calls) == []
    decreases |calls|
  {
    if calls != [] {
      NoWorksheetIds(calls[1..]);
    }
  }

  lemma {:induction false} NoChartIds(calls: seq<PartCall>)
    requires forall k :: 0 <= k < |calls| ==> !calls[k].ChartPart?
    ensures ChartIds(calls) == []
    decreases |calls|
  {
    if calls != [] {
      NoChartIds(calls[1..]);
    }
  }

  lemma {:induction false} ChartCallIds(first: nat, n: nat)
    ensures ChartIds(ChartCalls(first, n)) == seq(n, k requires 0 <= k < n => first + k)
    decreases n
  {
    if n > 0 {
      assert ChartCalls(first, n)[1..] == ChartCalls(first + 1, n - 1);
      ChartCallIds(first + 1, n - 1);
    }
  }

  /** One sheet's calls hold its own worksheet id, once, and the chart ids from the current counter on. */
  lemma SheetCallIds(i: nat, active: nat, sheet: SheetInfo, ids: Ids)
    ensures WorksheetIds(SheetCalls(i, active, sheet, ids)) == [i + 1]
    ensures ChartIds(SheetCalls(i, active, sheet, ids)) ==
            seq(sheet.graphicFrames, k requires 0 <= k < sheet.graphicFrames => ids.chart + k)
  {
    var head := [WorksheetPart(i + 1, active == i), WorksheetRels(i + 1, ids.drawing, ids.comment), DrawingPart(ids.drawing),
                 DrawingRels(ids.drawing, ids.chart), CommentPart(ids.comment), VmlDrawingPart(ids.comment)];
    var charts := ChartCalls(ids.chart, sheet.graphicFrames);
    var media := MediaCalls(i, sheet.pictures);
    WorksheetIdsAppend(head + charts, media);
    WorksheetIdsAppend(head, charts);
    ChartIdsAppend(head + charts, media);
    ChartIdsAppend(head, charts);
    assert WorksheetIds(head) == [i + 1] by {
      NoWorksheetIds(head[1..]);
    }
    NoWorksheetIds(charts);
    NoWorksheetIds(media);
    NoChartIds(head);
    NoChartIds(media);
    ChartCallIds(ids.chart, sheet.graphicFrames);
  }

  /** Sheet i (0-based) is written with id i + 1: the worksheet calls carry 1, 2, ..., n in order. */
  lemma {:induction false} SheetIdsInOrder(sheets: seq<SheetInfo>, active: nat)
    ensures WorksheetIds(SheetsCalls(sheets, active)) == seq(|sheets|, i requires 0 <= i < |sheets| => i + 1)
    decreases |sheets|
  {
    if sheets != [] {
      var before := sheets[..|sheets| - 1];
      SheetIdsInOrder(before, active);
      WorksheetIdsAppend(SheetsCalls(before, active), SheetCalls(|before|, active, sheets[|sheets| - 1], IdsBefore(before)));
      SheetCallIds(|before|, active, sheets[|sheets| - 1], IdsBefore(before));
    }
  }

  /** The chart id goes up once per graphic frame across all sheets and is never reset: the chart
      calls carry 1, 2, ... up to the number of graphic frames, in order. */
  lemma {:induction false} ChartIdsInOrder(sheets: seq<SheetInfo>, active: nat)
    ensures ChartIds(SheetsCalls(sheets, active)) == seq(Frames(sheets), k requires 0 <= k < Frames(sheets) => k + 1)
    decreases |sheets|
  {
    if sheets != [] {
      var before := sheets[..|sheets| - 1];
      ChartIdsInOrder(before, active);
      ChartIdsAppend(SheetsCalls(before, active), SheetCalls(|before|, active, sheets[|sheets| - 1], IdsBefore(before)));
      SheetCallIds(|before|, active, sheets[|sheets| - 1], IdsBefore(before));
    }
  }

  lemma {:induction false} DrawingSheetsGrow(sheets: seq<SheetInfo>, i: nat, j: nat)
    requires i <= j <= |sheets|
    ensures DrawingSheets(sheets[..i]) <= DrawingSheets(sheets[..j])
    ensures CommentSheets(sheets[..i]) <= CommentSheets(sheets[..j])
    decreases j - i
  {
    if i < j {
      DrawingSheetsGrow(sheets, i, j - 1);
      assert sheets[..j][..j - 1] == sheets[..j - 1];
    }
  }

  /** A sheet with drawing objects has a drawing id no later sheet gets; likewise a sheet with
      comments and its comment id. */
  lemma IdsNotReused(sheets: seq<SheetInfo>, i: nat, j: nat)
    requires i < j <= |sheets|
    ensures sheets[i].hasDrawingObject ==> IdsBefore(sheets[..i]).drawing < IdsBefore(sheets[..j]).drawing
    ensures sheets[i].hasComments ==> IdsBefore(sheets[..i]).comment < IdsBefore(sheets[..j]).comment
  {
    DrawingSheetsGrow(sheets, i + 1, j);
    assert sheets[..i + 1][..i] == sheets[..i];
  }

  lemma {:induction false} SheetsCallsPrefix(sheets: seq<SheetInfo>, active: nat, i: nat)
    requires i <= |sheets|
    ensures SheetsCalls(sheets[..i], active) <= SheetsCalls(sheets, active)
    decreases |sheets| - i
  {
    if i < |sheets| {
      SheetsCallsPrefix(sheets, active, i + 1);
      assert sheets[..i + 1][..i] == sheets[..i];
    } else {
      assert sheets[..i] == sheets;
    }
  }

  /** The first sheet is written with every counter at 1. */
  lemma CountersStartAtOne(book: Spreadsheet)
    requires book.sheets != []
    ensures SheetsCalls(book.sheets, book.activeSheet)[..6] ==
            [WorksheetPart(1, book.activeSheet == 0), WorksheetRels(1, 1, 1), DrawingPart(1), DrawingRels(1, 1),
             CommentPart(1), VmlDrawingPart(1)]
  {
    SheetsCallsPrefix(book.sheets, book.activeSheet, 1);
    assert book.sheets[..1][..0] == [];
  }

  /** Shared strings and styles are written before any worksheet. */
  lemma SharedStringsAndStylesFirst(book: Spreadsheet, env: Environment, k: nat)
    requires k < |Trace(book, env)| && Trace(book, env)[k].WorksheetPart?
    ensures Trace(book, env)[8] == SharedStrings && Trace(book, env)[9] == Styles && 10 <= k
  {
  }

  /** Only the shared strings and styles writers can fail the package among the part writers: two
      file systems that differ only in other part writers give the same calls and result. */
  lemma DiscardedFailuresIgnored(book: Spreadsheet, env: Environment, other: Environment)
    requires env.(failing := other.failing) == other
    requires (SharedStrings in env.failing <==> SharedStrings in other.failing)
    requires (Styles in env.failing <==> Styles in other.failing)
    ensures Trace(book, env) == Trace(book, other) && Outcome(env) == Outcome(other)
  {
  }

  /** The loop body for sheet `i`: its part writers with the current ids, then the increments. */
  method WriteSheet(i: nat, active: nat, sheet: SheetInfo, ids: Ids) returns (calls: seq<PartCall>, next: Ids)
    ensures calls == SheetCalls(i, active, sheet, ids)
    ensures next.drawing == ids.drawing + (if sheet.hasDrawingObject then 1 else 0)
    ensures next.comment == ids.comment + (if sheet.hasComments then 1 else 0)
    ensures next.chart == ids.chart + sheet.graphicFrames
  {
    var chartId, drawingId, commentId := ids.chart, ids.drawing, ids.comment;
    calls := [WorksheetPart(i + 1, active == i), WorksheetRels(i + 1, drawingId, commentId), DrawingPart(drawingId),
              DrawingRels(drawingId, chartId), CommentPart(commentId), VmlDrawingPart(commentId)];
    if sheet.hasDrawingObject {
      drawingId := drawingId + 1;
    }
    if sheet.hasComments {
      commentId := commentId + 1;
    }
    ghost var head := calls;
    var k := 0;
    while k < sheet.graphicFrames
      invariant k <= sheet.graphicFrames
      invariant chartId == ids.chart + k
      invariant calls == head + ChartCalls(ids.chart, k)
    {
      assert ChartCalls(ids.chart, k + 1) == ChartCalls(ids.chart, k) + [ChartPart(chartId)];
      calls := calls + [ChartPart(chartId)];
      chartId := chartId + 1;
      k := k + 1;
    }
    ghost var charts := calls;
    k := 0;
    while k < sheet.pictures
      invariant k <= sheet.pictures
      invariant calls == charts + MediaCalls(i, k)
    {
      assert MediaCalls(i, k + 1) == MediaCalls(i, k) + [MediaPart(i, k)];
      calls := calls + [MediaPart(i, k)];
      k := k + 1;
    }
    next := Ids(chartId, drawingId, commentId);
  }

  /** `writer::xlsx::write`: the calls made, in order, and the result. */
  method Write(book: Spreadsheet, env: Environment) returns (calls: seq<PartCall>, r: Result<()>)
    ensures r == Outcome(env)
    ensures env.tempDirFails ==> calls == []
    ensures !env.tempDirFails ==> calls == Trace(book, env)
  {
    calls := [];
    if env.tempDirFails {
      return calls, Err(IoFailed("TempDir::new"));
    }
    // The workbook-level writers; their results are discarded.
    calls := FixedCalls[..8];
    calls := calls + [SharedStrings];
    if SharedStrings in env.failing {
      return calls, Err(PartWriteFailed("xl/sharedStrings.xml"));
    }
    calls := calls + [Styles];
    if Styles in env.failing {
      return calls, Err(PartWriteFailed("xl/styles.xml"));
    }
    var ids := Ids(1, 1, 1);
    var i := 0;
    while i < |book.sheets|
      invariant i <= |book.sheets|
      invariant ids == IdsBefore(book.sheets[..i])
      invariant calls == FixedCalls + SheetsCalls(book.sheets[..i], book.activeSheet)
    {
      var sheetCalls, next := WriteSheet(i, book.activeSheet, book.sheets[i], ids);
      assert book.sheets[..i + 1][..i] == book.sheets[..i];
      calls := calls + sheetCalls;
      ids := next;
      i := i + 1;
    }
    assert book.sheets[..i] == book.sheets;
    if env.packFails {
      return calls, Err(IoFailed("write_to_file"));
    }
    if env.closeFails {
      return calls, Err(IoFailed("close"));
    }
    return calls, Ok(());
  }
}
