/** `BackWall`: the `c:backWall` element of a chart, with an optional thickness and optional
    shape properties. */
module BackWalls {
  import opened Xml
  import opened Collaborators

  /** The part of a wall that the reader and the writer deal with. */
  datatype Wall = Wall(thickness: Option<Thickness>, shapeProperties: Option<ShapeProperties>)

  /** The loop of `set_attributes`, from position `p` with the wall read so far. A self-closing
      `c:thickness` sets the thickness; a started `c:spPr` hands the stream to the shape-properties
      reader and sets what it returns; `</c:backWall>` ends the read. */
  function BackWallFrom(events: seq<Event>, p: nat, w: Wall): (r: Result<(Wall, nat)>)
    ensures r.Ok? ==> p < r.value.1 <= |events| && events[r.value.1 - 1] == End("c:backWall")
    ensures r.Ok? ==> r.value.0.thickness == w.thickness ||
                      exists i :: p <= i < r.value.1 && events[i].Empty? && events[i].name == "c:thickness" &&
                                  r.value.0.thickness == Some(ThicknessFromAttributes(events[i].attrs))
    ensures r.Err? && r.error != MissingEndTag("c:backWall") ==>
              exists i :: p <= i < |events| && events[i].Start? && events[i].name == "c:spPr" &&
                          ReadShapeProperties(events[i + 1..]) == Err(r.error)
    decreases |events| - p
  {
    if p >= |events| then Err(MissingEndTag("c:backWall"))
    else match events[p]
      case Empty(name, attrs) =>
        if name == "c:thickness" then BackWallFrom(events, p + 1, w.(thickness := Some(ThicknessFromAttributes(attrs))))
        else BackWallFrom(events, p + 1, w)
      case Start(name, _) =>
        if name == "c:spPr" then
          match ReadShapeProperties(events[p + 1..])
          case Err(e) => Err(e)
          case Ok((v, n)) => BackWallFrom(events, Resume(events, p, n), w.(shapeProperties := Some(v)))
        else BackWallFrom(events, p + 1, w)
      case End(name) =>
        if name == "c:backWall" then Ok((w, p + 1)) else BackWallFrom(events, p + 1, w)
      case Eof => Err(MissingEndTag("c:backWall"))
      case Text(_) => BackWallFrom(events, p + 1, w)
  }

  /** `write_to`: `c:backWall`, the thickness if present, the shape properties if present, the end tag. */
  function BackWallEvents(w: Wall): (r: seq<Event>)
    ensures |r| >= 2 && r[0] == Start("c:backWall", []) && r[|r| - 1] == End("c:backWall")
    ensures w.thickness.None? && w.shapeProperties.None? ==> r == [Start("c:backWall", []), End("c:backWall")]
  {
    [Start("c:backWall", [])] +
    (if w.thickness.Some? then ThicknessEvents(w.thickness.value) else []) +
    (if w.shapeProperties.Some? then ShapePropertiesEvents(w.shapeProperties.value) else []) +
    [End("c:backWall")]
  }

  /** A stretch of events the reader walks through without effect. */
  predicate Inert(e: Event)
  {
    match e
    case Empty(name, _) => name != "c:thickness"
    case Start(name, _) => name != "c:spPr"
    case End(name) => name != "c:backWall"
    case Text(_) => true
    case Eof => false
  }

  /** One such event leaves the wall as it was. */
  lemma InertStep(events: seq<Event>, p: nat, w: Wall)
    requires p < |events| && Inert(events[p])
    ensures BackWallFrom(events, p, w) == BackWallFrom(events, p + 1, w)
  {
  }

  /** Elements other than the two children leave the wall as it was. */
  lemma {:induction false} InertRun(events: seq<Event>, p: nat, q: nat, w: Wall)
    requires p <= q <= |events|
    requires forall i :: p <= i < q ==> Inert(events[i])
    ensures BackWallFrom(events, p, w) == BackWallFrom(events, q, w)
    decreases q - p
  {
    if p < q {
      InertStep(events, p, w);
      InertRun(events, p + 1, q, w);
    }
  }

  /** A second `c:thickness` overwrites the first, whatever lies between them, as long as the
      reader does not stop there. */
  lemma RepeatedThicknessOverwrites(events: seq<Event>, p: nat, q: nat, w: Wall, a: seq<Attribute>, b: seq<Attribute>)
    requires p < q < |events|
    requires events[p] == Empty("c:thickness", a) && events[q] == Empty("c:thickness", b)
    requires forall i :: p < i < q ==> Inert(events[i])
    ensures BackWallFrom(events, p, w) ==
            BackWallFrom(events, q + 1, w.(thickness := Some(ThicknessFromAttributes(b))))
  {
    var w1 := w.(thickness := Some(ThicknessFromAttributes(a)));
    InertRun(events, p + 1, q, w1);
    assert w1.(thickness := Some(ThicknessFromAttributes(b))) == w.(thickness := Some(ThicknessFromAttributes(b)));
  }

  /** Where the parts of a written wall lie: the thickness at 1 if present, the shape properties
      (taking `m` events) from `p` on, `</c:backWall>` right after them. */
  predicate WallAt(es: seq<Event>, w: Wall, p: nat, m: nat, thicknessAttrs: seq<Attribute>, spPrAttrs: seq<Attribute>)
  {
    p == (if w.thickness.Some? then 2 else 1) && p + m < |es| && es[p + m] == End("c:backWall") &&
    (w.thickness.Some? ==>
       es[1] == Empty("c:thickness", thicknessAttrs) && ThicknessFromAttributes(thicknessAttrs) == w.thickness.value) &&
    (w.shapeProperties.Some? ==>
       m >= 1 && es[p] == Start("c:spPr", spPrAttrs) &&
       ReadShapeProperties(es[p + 1..]) == Ok((w.shapeProperties.value, m - 1))) &&
    (w.shapeProperties.None? ==> m == 0)
  }

  /** The reader walks a laid-out wall part by part. */
  lemma ReadWallAt(es: seq<Event>, w: Wall, held: Wall, p: nat, m: nat, thicknessAttrs: seq<Attribute>, spPrAttrs: seq<Attribute>)
    requires WallAt(es, w, p, m, thicknessAttrs, spPrAttrs)
    ensures BackWallFrom(es, 1, held) ==
            Ok((Wall(if w.thickness.Some? then w.thickness else held.thickness,
                     if w.shapeProperties.Some? then w.shapeProperties else held.shapeProperties),
                p + m + 1))
  {
    var w1 := if w.thickness.Some? then held.(thickness := w.thickness) else held;
    assert BackWallFrom(es, 1, held) == BackWallFrom(es, p, w1);
    var w2 := if w.shapeProperties.Some? then w1.(shapeProperties := w.shapeProperties) else w1;
    if w.shapeProperties.Some? {
      assert Resume(es, p, m - 1) == p + m;
    }
    assert BackWallFrom(es, p, w1) == BackWallFrom(es, p + m, w2);
  }

  /** Written parts, between a prefix and a tail, start right after the prefix and are followed by the tail. */
  lemma PartAt<T>(prefix: seq<T>, a: seq<T>, tail: seq<T>)
    requires |a| >= 1 && |tail| >= 1
    ensures (prefix + a + tail)[|prefix|] == a[0]
    ensures (prefix + a + tail)[|prefix| + 1..] == a[1..] + tail
    ensures (prefix + a + tail)[|prefix| + |a|] == tail[0]
  {
  }

  /** What `write_to` writes is laid out as `WallAt` says. */
  lemma WrittenLayout(w: Wall, rest: seq<Event>, thicknessAttrs: seq<Attribute>, spPrAttrs: seq<Attribute>)
    requires w.thickness.Some? ==>
               ThicknessEvents(w.thickness.value) == [Empty("c:thickness", thicknessAttrs)] &&
               ThicknessFromAttributes(thicknessAttrs) == w.thickness.value
    requires w.shapeProperties.Some? ==>
               var sp := ShapePropertiesEvents(w.shapeProperties.value);
               |sp| >= 1 && sp[0] == Start("c:spPr", spPrAttrs) &&
               ReadShapeProperties(sp[1..] + [End("c:backWall")] + rest) == Ok((w.shapeProperties.value, |sp| - 1))
    ensures var sp := if w.shapeProperties.Some? then ShapePropertiesEvents(w.shapeProperties.value) else [];
            var p := if w.thickness.Some? then 2 else 1;
            WallAt(BackWallEvents(w) + rest, w, p, |sp|, thicknessAttrs, spPrAttrs) &&
            |BackWallEvents(w)| == p + |sp| + 1
  {
    var th := if w.thickness.Some? then ThicknessEvents(w.thickness.value) else [];
    var sp := if w.shapeProperties.Some? then ShapePropertiesEvents(w.shapeProperties.value) else [];
    var head := [Start("c:backWall", [])] + th;
    var tail := [End("c:backWall")] + rest;
    var es := BackWallEvents(w) + rest;
    assert es == head + sp + tail;
    if w.thickness.Some? {
      assert es[1] == head[1];
    }
    if sp != [] {
      PartAt(head, sp, tail);
      assert sp[1..] + tail == sp[1..] + [End("c:backWall")] + rest;
    } else {
      assert es[|head|] == tail[0];
    }
  }

  /** Reading back what `write_to` wrote restores each child that was present and keeps the
      reader's own value of each absent one, provided the thickness writes itself as one
      self-closing element that reads back to it and the shape properties write a `c:spPr`
      element that their reader consumes exactly and reads back. */
  lemma ReadOfWrite(w: Wall, held: Wall, rest: seq<Event>, thicknessAttrs: seq<Attribute>, spPrAttrs: seq<Attribute>)
    requires w.thickness.Some? ==>
               ThicknessEvents(w.thickness.value) == [Empty("c:thickness", thicknessAttrs)] &&
               ThicknessFromAttributes(thicknessAttrs) == w.thickness.value
    requires w.shapeProperties.Some? ==>
               var sp := ShapePropertiesEvents(w.shapeProperties.value);
               |sp| >= 1 && sp[0] == Start("c:spPr", spPrAttrs) &&
               ReadShapeProperties(sp[1..] + [End("c:backWall")] + rest) == Ok((w.shapeProperties.value, |sp| - 1))
    ensures BackWallFrom(BackWallEvents(w) + rest, 1, held) ==
            Ok((Wall(if w.thickness.Some? then w.thickness else held.thickness,
                     if w.shapeProperties.Some? then w.shapeProperties else held.shapeProperties),
                |BackWallEvents(w)|))
  {
    var sp := if w.shapeProperties.Some? then ShapePropertiesEvents(w.shapeProperties.value) else [];
    var p := if w.thickness.Some? then 2 else 1;
    WrittenLayout(w, rest, thicknessAttrs, spPrAttrs);
    ReadWallAt(BackWallEvents(w) + rest, w, held, p, |sp|, thicknessAttrs, spPrAttrs);
  }

  class BackWall {
    var thickness: Option<Thickness>
    var shapeProperties: Option<ShapeProperties>

    /** The derived default: neither child present. */
    constructor ()
      ensures Value() == Wall(None, None)
    {
      thickness, shapeProperties := None, None;
    }

    function Value(): Wall
      reads this
    {
      Wall(thickness, shapeProperties)
    }

    method SetThickness(v: Thickness)
      modifies this
      ensures Value() == old(Value()).(thickness := Some(v))
    {
      thickness := Some(v);
    }

    method SetShapeProperties(v: ShapeProperties)
      modifies this
      ensures Value() == old(Value()).(shapeProperties := Some(v))
    {
      shapeProperties := Some(v);
    }

    /** `set_attributes`: the event loop, started just after `<c:backWall>`. */
    method SetAttributes(events: seq<Event>, pos: nat) returns (r: Result<nat>)
      modifies this
      ensures var spec := BackWallFrom(events, pos, old(Value()));
              (r.Ok? <==> spec.Ok?) &&
              (r.Ok? ==> r.value == spec.value.1 && Value() == spec.value.0) &&
              (r.Err? ==> r.error == spec.error)
    {
      ghost var spec := BackWallFrom(events, pos, Value());
      var p := pos;
      while p < |events|
        invariant BackWallFrom(events, p, Value()) == spec
        decreases |events| - p
      {
        match events[p] {
          case Empty(name, attrs) =>
            if name == "c:thickness" {
              SetThickness(ThicknessFromAttributes(attrs));
            }
            p := p + 1;
          case Start(name, _) =>
            if name == "c:spPr" {
              var read := ReadShapeProperties(events[p + 1..]);
              if read.Err? {
                return Err(read.error);
              }
              SetShapeProperties(read.value.0);
              p := Resume(events, p, read.value.1);
            } else {
              p := p + 1;
            }
          case End(name) =>
            if name == "c:backWall" {
              return Ok(p + 1);
            }
            p := p + 1;
          case Eof =>
            return Err(MissingEndTag("c:backWall"));
          case Text(_) =>
            p := p + 1;
        }
      }
      return Err(MissingEndTag("c:backWall"));
    }

    function WriteTo(): (r: seq<Event>)
      reads this
      ensures r == BackWallEvents(Value())
    {
      BackWallEvents(Value())
    }
  }
}
