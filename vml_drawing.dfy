/** The legacy-drawing (VML) part of a worksheet: which shapes it holds, with which shape ids and
    relationship numbers.

    Shape ids come from one counter that starts at `drawing_id * 1000 + 25` and goes up by one per
    shape, OLE objects first and then comments; OLE shapes also get relationship numbers 1, 2, ...
    while comment shapes always get 0. What a shape writes is `Shape::write_to`, which is not part
    of this model (`ShapeEvents`). */
module VmlDrawings {
  import opened Xml
  import opened Numeric
  import opened Collaborators

  /** What the writer asks of a worksheet: whether it has a legacy drawing, OLE objects and
      comments, and the shapes of its OLE objects and of its comments in collection order. */
  datatype VmlSheet = VmlSheet(
    hasLegacyDrawing: bool,
    hasOleObjects: bool,
    oleShapes: seq<Shape>,
    hasComments: bool,
    commentShapes: seq<Shape>)

  /** One call of `Shape::write_to(writer, id, r_id)`. */
  datatype ShapeCall = ShapeCall(shape: Shape, id: nat, rId: nat)

  /** The part written: its path in the package, its events, and the shape calls in order. */
  datatype VmlPart = VmlPart(path: string, events: seq<Event>, shapes: seq<ShapeCall>)

  const SubDir: string := "xl/drawings"

  /** `vmlDrawing{vml_drawing_id}.vml` under `xl/drawings`. */
  function PartPath(vmlDrawingId: nat): string
  {
    SubDir + "/" + "vmlDrawing" + NatToDecimal(vmlDrawingId) + ".vml"
  }

  /** The id of the first shape of a drawing. */
  function FirstShapeId(drawingId: nat): nat
  {
    drawingId * 1000 + 25
  }

  /** The shapes the writer visits: OLE shapes only when the sheet has OLE objects, comment shapes
      only when it has comments. */
  function OleShapes(sheet: VmlSheet): seq<Shape>
  {
    if sheet.hasOleObjects then sheet.oleShapes else []
  }

  function CommentShapes(sheet: VmlSheet): seq<Shape>
  {
    if sheet.hasComments then sheet.commentShapes else []
  }

  /** The OLE shape calls in closed form: the k-th shape gets id `first + k` and relationship
      number k + 1. */
  function OleCalls(shapes: seq<Shape>, first: nat): (calls: seq<ShapeCall>)
    ensures |calls| == |shapes|
  {
    seq(|shapes|, k requires 0 <= k < |shapes| => ShapeCall(shapes[k], first + k, k + 1))
  }

  /** The comment shape calls in closed form: the k-th shape gets id `first + k` and relationship
      number 0. */
  function CommentCalls(shapes: seq<Shape>, first: nat): (calls: seq<ShapeCall>)
    ensures |calls| == |shapes|
  {
    seq(|shapes|, k requires 0 <= k < |shapes| => ShapeCall(shapes[k], first + k, 0))
  }

  /** All shape calls of a part: the OLE shapes from the first id on, then the comment shapes. */
  function Allocation(sheet: VmlSheet, drawingId: nat): (calls: seq<ShapeCall>)
    ensures |calls| == |OleShapes(sheet)| + |CommentShapes(sheet)|
  {
    OleCalls(OleShapes(sheet), FirstShapeId(drawingId)) +
    CommentCalls(CommentShapes(sheet), FirstShapeId(drawingId) + |OleShapes(sheet)|)
  }

  /** The events of a run of shape calls, in order. */
  function ShapesEvents(calls: seq<ShapeCall>): seq<Event>
    decreases |calls|
  {
    if calls == [] then []
    else
      var c := calls[|calls| - 1];
      ShapesEvents(calls[..|calls| - 1]) + ShapeEvents(c.shape, c.id, c.rId)
  }

  /** `xml` with its namespaces, then `o:shapelayout` holding `o:idmap` whose `data` is the drawing id. */
  function Header(drawingId: nat): seq<Event>
  {
    [Start("xml", [Attribute("xmlns:v", "urn:schemas-microsoft-com:vml"),
                   Attribute("xmlns:o", "urn:schemas-microsoft-com:office:office"),
                   Attribute("xmlns:x", "urn:schemas-microsoft-com:office:excel")]),
     Start("o:shapelayout", [Attribute("v:ext", "edit")]),
     Empty("o:idmap", [Attribute("v:ext", "edit"), Attribute("data", NatToDecimal(drawingId))]),
     End("o:shapelayout")]
  }

  const OleShapeTypeAttributes := [
    Attribute("id", "_x0000_t75"), Attribute("coordsize", "21600,21600"), Attribute("o:spt", "75"),
    Attribute("o:preferrelative", "t"), Attribute("path", "m@4@5l@4@11@9@11@9@5xe"),
    Attribute("filled", "f"), Attribute("stroked", "f")]

  /** The `v:shapetype` of picture frames (`_x0000_t75`), written before the OLE shapes. */
  const OleShapeType: seq<Event> :=
    [Start("v:shapetype", OleShapeTypeAttributes),
     Empty("v:stroke", [Attribute("joinstyle", "miter")]),
     Start("v:formulas", []),
     Empty("v:f", [Attribute("eqn", "if lineDrawn pixelLineWidth 0")]),
     Empty("v:f", [Attribute("eqn", "sum @0 1 0")]),
     Empty("v:f", [Attribute("eqn", "sum 0 0 @1")]),
     Empty("v:f", [Attribute("eqn", "prod @2 1 2")]),
     Empty("v:f", [Attribute("eqn", "prod @3 21600 pixelWidth")]),
     Empty("v:f", [Attribute("eqn", "prod @3 21600 pixelHeight")]),
     Empty("v:f", [Attribute("eqn", "sum @0 0 1")]),
     Empty("v:f", [Attribute("eqn", "prod @6 1 2")]),
     Empty("v:f", [Attribute("eqn", "prod @7 21600 pixelWidth")]),
     Empty("v:f", [Attribute("eqn", "sum @8 21600 0")]),
     Empty("v:f", [Attribute("eqn", "prod @7 21600 pixelHeight")]),
     Empty("v:f", [Attribute("eqn", "sum @10 21600 0")]),
     End("v:formulas"),
     Empty("v:path", [Attribute("o:extrusionok", "f"), Attribute("gradientshapeok", "t"), Attribute("o:connecttype", "rect")]),
     Empty("o:lock", [Attribute("v:ext", "edit"), Attribute("aspectratio", "t")]),
     End("v:shapetype")]

  const CommentShapeTypeAttributes := [
    Attribute("id", "_x0000_t202"), Attribute("coordsize", "21600,21600"), Attribute("o:spt", "202"),
    Attribute("path", "m,l,21600r21600,l21600,xe")]

  /** The `v:shapetype` of text boxes (`_x0000_t202`), written before the comment shapes. */
  const CommentShapeType: seq<Event> :=
    [Start("v:shapetype", CommentShapeTypeAttributes),
     Empty("v:stroke", [Attribute("joinstyle", "miter")]),
     Empty("v:path", [Attribute("gradientshapeok", "t"), Attribute("o:connecttype", "rect")]),
     End("v:shapetype")]

  /** The OLE block and the comment block: each is its shape type followed by its shapes, and is
      written only when the sheet has OLE objects or comments respectively. */
  function OleBlock(sheet: VmlSheet, drawingId: nat): seq<Event>
  {
    if sheet.hasOleObjects then OleShapeType + ShapesEvents(OleCalls(sheet.oleShapes, FirstShapeId(drawingId))) else []
  }

  function CommentBlock(sheet: VmlSheet, drawingId: nat): seq<Event>
  {
    if sheet.hasComments
    then CommentShapeType + ShapesEvents(CommentCalls(sheet.commentShapes, FirstShapeId(drawingId) + |OleShapes(sheet)|))
    else []
  }

  /** The events of the part. */
  function VmlEvents(sheet: VmlSheet, drawingId: nat): seq<Event>
  {
    Header(drawingId) + OleBlock(sheet, drawingId) + CommentBlock(sheet, drawingId) + [End("xml")]
  }

  /** Whether the id counter overflows `usize` (a panic in a debug build): its start, or its last
      increment after the final shape. */
  predicate IdsOverflow(sheet: VmlSheet, drawingId: nat)
  {
    FirstShapeId(drawingId) + |OleShapes(sheet)| + |CommentShapes(sheet)| >= USIZE_LIMIT
  }

  /** Shape by shape: the k-th shape visited gets id `FirstShapeId + k`; it is the k-th OLE shape
      with relationship number k + 1 while k is below the number of OLE shapes, and a comment shape
      with relationship number 0 after that. */
  lemma AllocationAt(sheet: VmlSheet, drawingId: nat, k: nat)
    requires k < |Allocation(sheet, drawingId)|
    ensures Allocation(sheet, drawingId)[k].id == FirstShapeId(drawingId) + k
    ensures k < |OleShapes(sheet)| ==>
              Allocation(sheet, drawingId)[k] == ShapeCall(sheet.oleShapes[k], FirstShapeId(drawingId) + k, k + 1)
    ensures k >= |OleShapes(sheet)| ==>
              sheet.hasComments &&
              Allocation(sheet, drawingId)[k] ==
              ShapeCall(sheet.commentShapes[k - |OleShapes(sheet)|], FirstShapeId(drawingId) + k, 0)
  {
    var n := |OleShapes(sheet)|;
    if k >= n {
      assert Allocation(sheet, drawingId)[k] == CommentCalls(CommentShapes(sheet), FirstShapeId(drawingId) + n)[k - n];
    }
  }

  /** Shape ids within a part are strictly increasing, so no two shapes share one. */
  lemma ShapeIdsIncrease(sheet: VmlSheet, drawingId: nat, i: nat, j: nat)
    requires i < j < |Allocation(sheet, drawingId)|
    ensures FirstShapeId(drawingId) <= Allocation(sheet, drawingId)[i].id < Allocation(sheet, drawingId)[j].id
  {
    AllocationAt(sheet, drawingId, i);
    AllocationAt(sheet, drawingId, j);
  }

  /** Each drawing's ids start 25 into its own block of 1000: a part with at most 1000 shapes
      uses only ids below the first id of any later drawing. */
  lemma DrawingBlocksDisjoint(sheet: VmlSheet, drawingId: nat, laterId: nat, k: nat)
    requires drawingId < laterId && |Allocation(sheet, drawingId)| <= 1000
    requires k < |Allocation(sheet, drawingId)|
    ensures Allocation(sheet, drawingId)[k].id < FirstShapeId(laterId)
  {
    AllocationAt(sheet, drawingId, k);
    assert drawingId * 1000 + 1000 <= laterId * 1000 by {
      assert (laterId - drawingId) * 1000 >= 1000;
    }
  }

  /** With 1001 shapes the ids run into the next drawing's: the 1001st shape of drawing 1 has the
      first id of drawing 2. */
  lemma CrowdedDrawingReachesNextBlock(sheet: VmlSheet)
    requires |Allocation(sheet, 1)| >= 1001
    ensures Allocation(sheet, 1)[1000].id == FirstShapeId(2) == 2025
  {
    AllocationAt(sheet, 1, 1000);
  }

  /** The `data` attribute of `o:idmap` is the drawing id, and reads back as that number. */
  lemma IdMapNamesDrawing(sheet: VmlSheet, drawingId: nat)
    requires drawingId < USIZE_LIMIT
    ensures VmlEvents(sheet, drawingId)[2].Empty? && VmlEvents(sheet, drawingId)[2].name == "o:idmap"
    ensures GetAttribute(VmlEvents(sheet, drawingId)[2].attrs, "data") == Some(NatToDecimal(drawingId))
    ensures ParseUnsigned(NatToDecimal(drawingId), USIZE_LIMIT) == Some(drawingId)
  {
    ParseUnsignedOfDecimal(drawingId, USIZE_LIMIT);
  }

  /** Which shape type follows the header: `_x0000_t75` when there are OLE objects, otherwise
      `_x0000_t202` when there are comments, otherwise the part ends there. With both, the comment
      shape type comes after the OLE block. */
  lemma ShapeTypesGated(sheet: VmlSheet, drawingId: nat)
    ensures var es := VmlEvents(sheet, drawingId);
            (sheet.hasOleObjects ==> es[4] == Start("v:shapetype", OleShapeTypeAttributes)) &&
            (!sheet.hasOleObjects && sheet.hasComments ==> es[4] == Start("v:shapetype", CommentShapeTypeAttributes)) &&
            (!sheet.hasOleObjects && !sheet.hasComments ==> es == Header(drawingId) + [End("xml")])
    ensures var es := VmlEvents(sheet, drawingId);
            var n := |OleBlock(sheet, drawingId)|;
            sheet.hasOleObjects && sheet.hasComments ==> es[4 + n] == Start("v:shapetype", CommentShapeTypeAttributes)
  {
  }

  /** The loop over the OLE objects: each shape is written with the current id and relationship
      number, then both go up by one; `None` when the id overflows `usize`. */
  method WriteOleShapes(shapes: seq<Shape>, first: nat) returns (r: Option<(seq<Event>, seq<ShapeCall>)>)
    requires first < USIZE_LIMIT
    ensures r.None? <==> first + |shapes| >= USIZE_LIMIT
    ensures r.Some? ==> r.value.1 == OleCalls(shapes, first) && r.value.0 == ShapesEvents(r.value.1)
  {
    var out: seq<Event> := [];
    var calls: seq<ShapeCall> := [];
    var id := first;
    var rId := 1;
    var k := 0;
    while k < |shapes|
      invariant 0 <= k <= |shapes|
      invariant id == first + k && rId == k + 1 && id < USIZE_LIMIT
      invariant calls == OleCalls(shapes, first)[..k]
      invariant out == ShapesEvents(calls)
    {
      var call := ShapeCall(shapes[k], id, rId);
      assert OleCalls(shapes, first)[..k + 1] == calls + [call];
      out := out + ShapeEvents(shapes[k], id, rId);
      calls := calls + [call];
      assert calls[..|calls| - 1] == calls[..k];
      if id + 1 >= USIZE_LIMIT {
        return None;
      }
      rId := rId + 1;
      id := id + 1;
      k := k + 1;
    }
    assert calls == OleCalls(shapes, first);
    return Some((out, calls));
  }

  /** The loop over the comments: each shape is written with the current id and relationship
      number 0, then the id goes up by one; `None` when the id overflows `usize`. */
  method WriteCommentShapes(shapes: seq<Shape>, first: nat) returns (r: Option<(seq<Event>, seq<ShapeCall>)>)
    requires first < USIZE_LIMIT
    ensures r.None? <==> first + |shapes| >= USIZE_LIMIT
    ensures r.Some? ==> r.value.1 == CommentCalls(shapes, first) && r.value.0 == ShapesEvents(r.value.1)
  {
    var out: seq<Event> := [];
    var calls: seq<ShapeCall> := [];
    var id := first;
    var k := 0;
    while k < |shapes|
      invariant 0 <= k <= |shapes|
      invariant id == first + k && id < USIZE_LIMIT
      invariant calls == CommentCalls(shapes, first)[..k]
      invariant out == ShapesEvents(calls)
    {
      var call := ShapeCall(shapes[k], id, 0);
      assert CommentCalls(shapes, first)[..k + 1] == calls + [call];
      out := out + ShapeEvents(shapes[k], id, 0);
      calls := calls + [call];
      assert calls[..|calls| - 1] == calls[..k];
      if id + 1 >= USIZE_LIMIT {
        return None;
      }
      id := id + 1;
      k := k + 1;
    }
    assert calls == CommentCalls(shapes, first);
    return Some((out, calls));
  }

  /** `vml_drawing::write`: nothing for a sheet without a legacy drawing; otherwise the part with its
      shapes, unless the id counter overflows or writing the part fails (`unwrap`), which are
      failures. `failing` holds the part paths whose write fails. */
  method Write(sheet: VmlSheet, drawingId: nat, vmlDrawingId: nat, failing: set<string>)
    returns (r: Result<Option<VmlPart>>)
    ensures !sheet.hasLegacyDrawing ==> r == Ok(None)
    ensures sheet.hasLegacyDrawing && IdsOverflow(sheet, drawingId) ==> r == Err(Overflow)
    ensures sheet.hasLegacyDrawing && !IdsOverflow(sheet, drawingId) && PartPath(vmlDrawingId) in failing ==>
              r == Err(PartWriteFailed(PartPath(vmlDrawingId)))
    ensures sheet.hasLegacyDrawing && !IdsOverflow(sheet, drawingId) && PartPath(vmlDrawingId) !in failing ==>
              r == Ok(Some(VmlPart(PartPath(vmlDrawingId), VmlEvents(sheet, drawingId), Allocation(sheet, drawingId))))
  {
    if !sheet.hasLegacyDrawing {
      return Ok(None);
    }
    var path := PartPath(vmlDrawingId);
    var id := drawingId * 1000 + 25;
    if id >= USIZE_LIMIT {
      return Err(Overflow);
    }
    var oleBlock: seq<Event> := [];
    var oleCalls: seq<ShapeCall> := [];
    if sheet.hasOleObjects {
      var ole := WriteOleShapes(sheet.oleShapes, id);
      if ole.None? {
        return Err(Overflow);
      }
      oleBlock := OleShapeType + ole.value.0;
      oleCalls := ole.value.1;
      id := id + |sheet.oleShapes|;
    }
    assert oleBlock == OleBlock(sheet, drawingId);
    var commentBlock: seq<Event> := [];
    var commentCalls: seq<ShapeCall> := [];
    if sheet.hasComments {
      var comments := WriteCommentShapes(sheet.commentShapes, id);
      if comments.None? {
        return Err(Overflow);
      }
      commentBlock := CommentShapeType + comments.value.0;
      commentCalls := comments.value.1;
    }
    assert commentBlock == CommentBlock(sheet, drawingId);
    var out := Header(drawingId) + oleBlock + commentBlock + [End("xml")];
    if path in failing {
      return Err(PartWriteFailed(path));
    }
    return Ok(Some(VmlPart(path, out, oleCalls + commentCalls)));
  }
}
