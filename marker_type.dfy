/** `MarkerType`: the `xdr:from` / `xdr:to` anchor of a drawing object (section 20.5 of
    ECMA-376 Part 1). Column and row are stored 0-based; coordinates are 1-based.

    Integer arithmetic follows a debug build: a `u32`/`i32` overflow or underflow panics,
    and here becomes `Err(Overflow)`. */
module MarkerTypes {
  import opened Xml
  import opened Numeric
  import opened Collaborators

  /** The four fields of an anchor. */
  datatype Marker = Marker(col: U32, colOff: I32, row: U32, rowOff: I32)

  predicate InI32(n: int) { -(I32_LIMIT as int) <= n < I32_LIMIT }

  /** The loop of `set_attributes`: `text` is the last text seen, and each field's end tag
      parses it into that field. The read ends at `</xdr:from>` or `</xdr:to>`. */
  function ReadMarkerFrom(events: seq<Event>, p: nat, m: Marker, text: string): (r: Result<(Marker, nat)>)
    ensures r.Ok? ==> p < r.value.1 <= |events| &&
                      events[r.value.1 - 1] in {End("xdr:from"), End("xdr:to")}
    decreases |events| - p
  {
    if p >= |events| then Err(MissingEndTag("xdr:from,xdr:to"))
    else match events[p]
      case Text(t) => ReadMarkerFrom(events, p + 1, m, t)
      case End(name) =>
        if name == "xdr:col" then
          match ParseUnsigned(text, U32_LIMIT)
          case None => Err(InvalidNumber(text))
          case Some(v) => ReadMarkerFrom(events, p + 1, m.(col := v), text)
        else if name == "xdr:colOff" then
          match ParseSigned(text, I32_LIMIT)
          case None => Err(InvalidNumber(text))
          case Some(v) => ReadMarkerFrom(events, p + 1, m.(colOff := v), text)
        else if name == "xdr:row" then
          match ParseUnsigned(text, U32_LIMIT)
          case None => Err(InvalidNumber(text))
          case Some(v) => ReadMarkerFrom(events, p + 1, m.(row := v), text)
        else if name == "xdr:rowOff" then
          match ParseSigned(text, I32_LIMIT)
          case None => Err(InvalidNumber(text))
          case Some(v) => ReadMarkerFrom(events, p + 1, m.(rowOff := v), text)
        else if name == "xdr:from" || name == "xdr:to" then Ok((m, p + 1))
        else ReadMarkerFrom(events, p + 1, m, text)
      case Eof => Err(MissingEndTag("xdr:from,xdr:to"))
      case Start(_, _) => ReadMarkerFrom(events, p + 1, m, text)
      case Empty(_, _) => ReadMarkerFrom(events, p + 1, m, text)
  }

  /** A successful read stops at the first `</xdr:from>` or `</xdr:to>`: no event it passed over
      is either of them or the end of the stream. */
  lemma {:induction false} StopsAtFirstEnd(events: seq<Event>, p: nat, m: Marker, text: string)
    requires ReadMarkerFrom(events, p, m, text).Ok?
    ensures forall i :: p <= i < ReadMarkerFrom(events, p, m, text).value.1 - 1 ==>
              events[i] != End("xdr:from") && events[i] != End("xdr:to") && events[i] != Eof
    decreases |events| - p
  {
    var r := ReadMarkerFrom(events, p, m, text);
    if events[p] != End("xdr:from") && events[p] != End("xdr:to") {
      var e := events[p];
      var t := if e.Text? then e.text else text;
      var m' := if e == End("xdr:col") then m.(col := ParseUnsigned(text, U32_LIMIT).value)
                else if e == End("xdr:colOff") then m.(colOff := ParseSigned(text, I32_LIMIT).value)
                else if e == End("xdr:row") then m.(row := ParseUnsigned(text, U32_LIMIT).value)
                else if e == End("xdr:rowOff") then m.(rowOff := ParseSigned(text, I32_LIMIT).value)
                else m;
      assert r == ReadMarkerFrom(events, p + 1, m', t);
      StopsAtFirstEnd(events, p + 1, m', t);
    }
  }

  /** `write_to(tag)`: the anchor element wrapping col, colOff, row and rowOff in that order,
      each holding its decimal text (never empty, so always exactly one text event). */
  function MarkerEvents(m: Marker, tag: string): (r: seq<Event>)
    ensures |r| == 14 && r[0] == Start(tag, []) && r[13] == End(tag)
  {
    [Start(tag, []),
     Start("xdr:col", []), Text(NatToDecimal(m.col)), End("xdr:col"),
     Start("xdr:colOff", []), Text(IntToDecimal(m.colOff)), End("xdr:colOff"),
     Start("xdr:row", []), Text(NatToDecimal(m.row)), End("xdr:row"),
     Start("xdr:rowOff", []), Text(IntToDecimal(m.rowOff)), End("xdr:rowOff"),
     End(tag)]
  }

  /** A start tag or a text event moves the read on by one; a text replaces the last text seen. */
  lemma OpenStep(events: seq<Event>, p: nat, m: Marker, prior: string, tag: string, text: string)
    requires p + 2 <= |events|
    requires events[p] == Start(tag, []) && events[p + 1] == Text(text)
    ensures ReadMarkerFrom(events, p, m, prior) == ReadMarkerFrom(events, p + 2, m, text)
  {
    assert ReadMarkerFrom(events, p, m, prior) == ReadMarkerFrom(events, p + 1, m, prior);
  }

  /** The element of each field, `<tag>text</tag>`, with a text that parses: the read moves
      past it with that field set. */
  lemma ColStep(events: seq<Event>, p: nat, m: Marker, prior: string, text: string, v: U32)
    requires p + 3 <= |events|
    requires events[p] == Start("xdr:col", []) && events[p + 1] == Text(text) && events[p + 2] == End("xdr:col")
    requires ParseUnsigned(text, U32_LIMIT) == Some(v as nat)
    ensures ReadMarkerFrom(events, p, m, prior) == ReadMarkerFrom(events, p + 3, m.(col := v), text)
  {
    OpenStep(events, p, m, prior, "xdr:col", text);
  }

  lemma ColOffStep(events: seq<Event>, p: nat, m: Marker, prior: string, text: string, v: I32)
    requires p + 3 <= |events|
    requires events[p] == Start("xdr:colOff", []) && events[p + 1] == Text(text) && events[p + 2] == End("xdr:colOff")
    requires ParseSigned(text, I32_LIMIT) == Some(v as int)
    ensures ReadMarkerFrom(events, p, m, prior) == ReadMarkerFrom(events, p + 3, m.(colOff := v), text)
  {
    OpenStep(events, p, m, prior, "xdr:colOff", text);
  }

  lemma RowStep(events: seq<Event>, p: nat, m: Marker, prior: string, text: string, v: U32)
    requires p + 3 <= |events|
    requires events[p] == Start("xdr:row", []) && events[p + 1] == Text(text) && events[p + 2] == End("xdr:row")
    requires ParseUnsigned(text, U32_LIMIT) == Some(v as nat)
    ensures ReadMarkerFrom(events, p, m, prior) == ReadMarkerFrom(events, p + 3, m.(row := v), text)
  {
    OpenStep(events, p, m, prior, "xdr:row", text);
  }

  lemma RowOffStep(events: seq<Event>, p: nat, m: Marker, prior: string, text: string, v: I32)
    requires p + 3 <= |events|
    requires events[p] == Start("xdr:rowOff", []) && events[p + 1] == Text(text) && events[p + 2] == End("xdr:rowOff")
    requires ParseSigned(text, I32_LIMIT) == Some(v as int)
    ensures ReadMarkerFrom(events, p, m, prior) == ReadMarkerFrom(events, p + 3, m.(rowOff := v), text)
  {
    OpenStep(events, p, m, prior, "xdr:rowOff", text);
  }

  /** The anchor's end tag ends the read with the fields as they stand. */
  lemma EndStep(events: seq<Event>, p: nat, m: Marker, text: string, tag: string)
    requires tag == "xdr:from" || tag == "xdr:to"
    requires p < |events| && events[p] == End(tag)
    ensures ReadMarkerFrom(events, p, m, text) == Ok((m, p + 1))
  {
  }

  /** Each field element of a written anchor, read from its own position on. */
  lemma ReadColField(es: seq<Event>, m: Marker, tag: string, held: Marker, text: string)
    requires |es| >= 14 && es[..14] == MarkerEvents(m, tag)
    ensures ReadMarkerFrom(es, 1, held, text) == ReadMarkerFrom(es, 4, held.(col := m.col), NatToDecimal(m.col))
  {
    var w := MarkerEvents(m, tag);
    assert es[1] == w[1] && es[2] == w[2] && es[3] == w[3];
    ParseUnsignedOfDecimal(m.col, U32_LIMIT);
    ColStep(es, 1, held, text, NatToDecimal(m.col), m.col);
  }

  lemma ReadColOffField(es: seq<Event>, m: Marker, tag: string, held: Marker, text: string)
    requires |es| >= 14 && es[..14] == MarkerEvents(m, tag)
    ensures ReadMarkerFrom(es, 4, held, text) == ReadMarkerFrom(es, 7, held.(colOff := m.colOff), IntToDecimal(m.colOff))
  {
    var w := MarkerEvents(m, tag);
    assert es[4] == w[4] && es[5] == w[5] && es[6] == w[6];
    ParseSignedOfDecimal(m.colOff, I32_LIMIT);
    ColOffStep(es, 4, held, text, IntToDecimal(m.colOff), m.colOff);
  }

  lemma ReadRowField(es: seq<Event>, m: Marker, tag: string, held: Marker, text: string)
    requires |es| >= 14 && es[..14] == MarkerEvents(m, tag)
    ensures ReadMarkerFrom(es, 7, held, text) == ReadMarkerFrom(es, 10, held.(row := m.row), NatToDecimal(m.row))
  {
    var w := MarkerEvents(m, tag);
    assert es[7] == w[7] && es[8] == w[8] && es[9] == w[9];
    ParseUnsignedOfDecimal(m.row, U32_LIMIT);
    RowStep(es, 7, held, text, NatToDecimal(m.row), m.row);
  }

  lemma ReadRowOffField(es: seq<Event>, m: Marker, tag: string, held: Marker, text: string)
    requires |es| >= 14 && es[..14] == MarkerEvents(m, tag)
    ensures ReadMarkerFrom(es, 10, held, text) == ReadMarkerFrom(es, 13, held.(rowOff := m.rowOff), IntToDecimal(m.rowOff))
  {
    var w := MarkerEvents(m, tag);
    assert es[10] == w[10] && es[11] == w[11] && es[12] == w[12];
    ParseSignedOfDecimal(m.rowOff, I32_LIMIT);
    RowOffStep(es, 10, held, text, IntToDecimal(m.rowOff), m.rowOff);
  }

  /** The reader walks a written anchor field by field. */
  lemma ReadLaidOut(es: seq<Event>, m: Marker, tag: string, before: Marker, text: string)
    requires tag == "xdr:from" || tag == "xdr:to"
    requires |es| >= 14 && es[..14] == MarkerEvents(m, tag)
    ensures ReadMarkerFrom(es, 1, before, text) == Ok((m, 14))
  {
    var m1 := before.(col := m.col);
    var m2 := m1.(colOff := m.colOff);
    var m3 := m2.(row := m.row);
    ReadColField(es, m, tag, before, text);
    ReadColOffField(es, m, tag, m1, NatToDecimal(m.col));
    ReadRowField(es, m, tag, m2, IntToDecimal(m.colOff));
    ReadRowOffField(es, m, tag, m3, NatToDecimal(m.row));
    assert m3.(rowOff := m.rowOff) == m;
    assert es[13] == MarkerEvents(m, tag)[13];
    EndStep(es, 13, m, IntToDecimal(m.rowOff), tag);
  }

  /** Reading back what `write_to_from` / `write_to_to` wrote restores all four fields,
      whatever the reader's object held before, and stops right after the end tag. */
  lemma ReadOfWrite(m: Marker, tag: string, rest: seq<Event>, before: Marker, text: string)
    requires tag == "xdr:from" || tag == "xdr:to"
    ensures ReadMarkerFrom(MarkerEvents(m, tag) + rest, 1, before, text) == Ok((m, 14))
  {
    var w := MarkerEvents(m, tag);
    assert (w + rest)[..14] == w;
    ReadLaidOut(w + rest, m, tag, before, text);
  }

  /** An event the read passes over without touching a field or stopping: anything but the end
      tag of a field or of the anchor, and the end of the stream. */
  predicate Passive(e: Event)
  {
    e != Eof &&
    !(e.End? && e.name in {"xdr:col", "xdr:colOff", "xdr:row", "xdr:rowOff", "xdr:from", "xdr:to"})
  }

  /** A stretch of passive events leaves the fields as they were and the last text it holds as
      the text seen, or the earlier text when it holds none. */
  lemma {:induction false} SkipsPassive(events: seq<Event>, p: nat, q: nat, m: Marker, text: string)
    requires p <= q <= |events|
    requires forall i :: p <= i < q ==> Passive(events[i])
    ensures ReadMarkerFrom(events, p, m, text) ==
            ReadMarkerFrom(events, q, m, LastText(events[p..q], Some(text)).value)
    decreases q - p
  {
    if p < q {
      var t := if events[p].Text? then events[p].text else text;
      assert Passive(events[p]);
      assert ReadMarkerFrom(events, p, m, text) == ReadMarkerFrom(events, p + 1, m, t);
      SkipsPassive(events, p + 1, q, m, t);
      SliceFront(events, p, q);
      LastTextFront(events[p..q], Some(text));
    } else {
      assert events[p..q] == [];
    }
  }

  /** Each field's end tag parses the last text seen before it, whichever element that text came
      from (an empty field element re-reads an earlier field's text): a text that parses sets the
      field and the read goes on, one that does not fails the read with that text. */
  lemma FieldTakesLastText(events: seq<Event>, p: nat, q: nat, m: Marker, text: string)
    requires p <= q < |events|
    requires forall i :: p <= i < q ==> Passive(events[i])
    ensures var t := LastText(events[p..q], Some(text)).value;
            var r := ReadMarkerFrom(events, p, m, text);
            var u := ParseUnsigned(t, U32_LIMIT);
            var s := ParseSigned(t, I32_LIMIT);
            && (events[q] == End("xdr:col") ==>
                  r == if u.None? then Err(InvalidNumber(t)) else ReadMarkerFrom(events, q + 1, m.(col := u.value), t))
            && (events[q] == End("xdr:colOff") ==>
                  r == if s.None? then Err(InvalidNumber(t)) else ReadMarkerFrom(events, q + 1, m.(colOff := s.value), t))
            && (events[q] == End("xdr:row") ==>
                  r == if u.None? then Err(InvalidNumber(t)) else ReadMarkerFrom(events, q + 1, m.(row := u.value), t))
            && (events[q] == End("xdr:rowOff") ==>
                  r == if s.None? then Err(InvalidNumber(t)) else ReadMarkerFrom(events, q + 1, m.(rowOff := s.value), t))
  {
    SkipsPassive(events, p, q, m, text);
  }

  /** A field's end tag whose text does not parse as that field's type (`u32` for column and row,
      `i32` for the offsets) fails the whole read with that text. */
  lemma NonNumericFieldFails(events: seq<Event>, p: nat, m: Marker, text: string)
    requires p < |events| && events[p].End?
    requires (events[p].name in {"xdr:col", "xdr:row"} && ParseUnsigned(text, U32_LIMIT).None?) ||
             (events[p].name in {"xdr:colOff", "xdr:rowOff"} && ParseSigned(text, I32_LIMIT).None?)
    ensures ReadMarkerFrom(events, p, m, text) == Err(InvalidNumber(text))
  {
  }

  /** `<xdr:col>c</xdr:col><xdr:row></xdr:row></xdr:from>`: the empty row element re-reads the
      column's text, so column and row both become c. */
  lemma EmptyFieldRereadsEarlierText(c: U32, m: Marker, text: string)
    ensures ReadMarkerFrom([Start("xdr:col", []), Text(NatToDecimal(c)), End("xdr:col"),
                            Start("xdr:row", []), End("xdr:row"), End("xdr:from")], 0, m, text)
            == Ok((m.(col := c, row := c), 6))
  {
    var es := [Start("xdr:col", []), Text(NatToDecimal(c)), End("xdr:col"),
               Start("xdr:row", []), End("xdr:row"), End("xdr:from")];
    ParseUnsignedOfDecimal(c, U32_LIMIT);
    ColStep(es, 0, m, text, NatToDecimal(c), c);
    assert ReadMarkerFrom(es, 3, m.(col := c), NatToDecimal(c)) ==
           ReadMarkerFrom(es, 4, m.(col := c), NatToDecimal(c));
  }

  /** One 1-based index pushed through an adjustment helper: `helper(index + 1, root, offset) - 1`. */
  function Shifted(index: U32, helper: (U32, U32, U32) -> U32, root: U32, offset: U32): (r: Result<U32>)
    ensures r.Ok? <==> index + 1 < U32_LIMIT && helper(index + 1, root, offset) >= 1
    ensures r.Ok? ==> r.value + 1 == helper(index + 1, root, offset)
  {
    if index + 1 >= U32_LIMIT then Err(Overflow)
    else
      var v := helper(index + 1, root, offset);
      if v == 0 then Err(Overflow) else Ok(v - 1)
  }

  class MarkerType {
    var col: U32
    var colOff: I32
    var row: U32
    var rowOff: I32

    /** The derived default: all four fields zero. */
    constructor ()
      ensures Value() == Marker(0, 0, 0, 0)
    {
      col, colOff, row, rowOff := 0, 0, 0, 0;
    }

    function Value(): Marker
      reads this
    {
      Marker(col, colOff, row, rowOff)
    }

    method SetCol(v: U32)
      modifies this
      ensures Value() == old(Value()).(col := v)
    {
      col := v;
    }

    method SetColOff(v: I32)
      modifies this
      ensures Value() == old(Value()).(colOff := v)
    {
      colOff := v;
    }

    method SetRow(v: U32)
      modifies this
      ensures Value() == old(Value()).(row := v)
    {
      row := v;
    }

    method SetRowOff(v: I32)
      modifies this
      ensures Value() == old(Value()).(rowOff := v)
    {
      rowOff := v;
    }

    /** `add_col_off`: `col_off += v`. */
    method AddColOff(v: I32) returns (r: Result<()>)
      modifies this
      ensures r.Ok? <==> InI32(old(colOff) + v)
      ensures r.Ok? ==> Value() == old(Value()).(colOff := old(colOff) + v)
      ensures r.Err? ==> r.error == Overflow && Value() == old(Value())
    {
      if !InI32(colOff + v) {
        return Err(Overflow);
      }
      colOff := colOff + v;
      return Ok(());
    }

    /** `add_row_off`: `row_off += v`. */
    method AddRowOff(v: I32) returns (r: Result<()>)
      modifies this
      ensures r.Ok? <==> InI32(old(rowOff) + v)
      ensures r.Ok? ==> Value() == old(Value()).(rowOff := old(rowOff) + v)
      ensures r.Err? ==> r.error == Overflow && Value() == old(Value())
    {
      if !InI32(rowOff + v) {
        return Err(Overflow);
      }
      rowOff := rowOff + v;
      return Ok(());
    }

    /** `get_coordinate`: the coordinate helper applied to the 1-based column and row. */
    function GetCoordinate(): (r: Result<string>)
      reads this
      ensures r.Ok? <==> col + 1 < U32_LIMIT && row + 1 < U32_LIMIT
      ensures r.Ok? ==> r.value == CoordinateFromIndex(col + 1, row + 1)
    {
      if col + 1 >= U32_LIMIT || row + 1 >= U32_LIMIT then Err(Overflow)
      else Ok(CoordinateFromIndex(col + 1, row + 1))
    }

    /** `set_coordinate`: store the helper's 1-based column and row minus one. The column is
        stored before the row is unwrapped, as in the source. */
    method SetCoordinate(s: string) returns (r: Result<()>)
      modifies this
      ensures colOff == old(colOff) && rowOff == old(rowOff)
      ensures var (c, rw) := IndexFromCoordinate(s);
              if c.None? || c.value == 0 then r.Err? && Value() == old(Value())
              else col == c.value - 1 &&
                   if rw.None? || rw.value == 0 then r.Err? && row == old(row)
                   else r.Ok? && row == rw.value - 1
    {
      var (c, rw) := IndexFromCoordinate(s);
      if c.None? {
        return Err(InvalidValue(s));
      }
      if c.value == 0 {
        return Err(Overflow);
      }
      col := c.value - 1;
      if rw.None? {
        return Err(InvalidValue(s));
      }
      if rw.value == 0 {
        return Err(Overflow);
      }
      row := rw.value - 1;
      return Ok(());
    }

    /** `set_attributes`: the event loop, started just after the anchor's own start tag. */
    method SetAttributes(events: seq<Event>, pos: nat) returns (r: Result<nat>)
      modifies this
      ensures var spec := ReadMarkerFrom(events, pos, old(Value()), "");
              (r.Ok? <==> spec.Ok?) &&
              (r.Ok? ==> r.value == spec.value.1 && Value() == spec.value.0) &&
              (r.Err? ==> r.error == spec.error)
    {
      ghost var spec := ReadMarkerFrom(events, pos, Value(), "");
      var stringValue: string := "";
      var p := pos;
      while p < |events|
        invariant pos <= p
        invariant ReadMarkerFrom(events, p, Value(), stringValue) == spec
        decreases |events| - p
      {
        match events[p] {
          case Text(t) =>
            stringValue := t;
          case End(name) =>
            if name == "xdr:col" {
              var v := ParseUnsigned(stringValue, U32_LIMIT);
              if v.None? { return Err(InvalidNumber(stringValue)); }
              col := v.value;
            } else if name == "xdr:colOff" {
              var v := ParseSigned(stringValue, I32_LIMIT);
              if v.None? { return Err(InvalidNumber(stringValue)); }
              colOff := v.value;
            } else if name == "xdr:row" {
              var v := ParseUnsigned(stringValue, U32_LIMIT);
              if v.None? { return Err(InvalidNumber(stringValue)); }
              row := v.value;
            } else if name == "xdr:rowOff" {
              var v := ParseSigned(stringValue, I32_LIMIT);
              if v.None? { return Err(InvalidNumber(stringValue)); }
              rowOff := v.value;
            } else if name == "xdr:from" || name == "xdr:to" {
              return Ok(p + 1);
            }
          case Eof =>
            return Err(MissingEndTag("xdr:from,xdr:to"));
          case Start(_, _) =>
          case Empty(_, _) =>
        }
        p := p + 1;
      }
      return Err(MissingEndTag("xdr:from,xdr:to"));
    }

    function WriteTo(tag: string): (r: seq<Event>)
      reads this
      ensures r == MarkerEvents(Value(), tag)
    {
      MarkerEvents(Value(), tag)
    }

    function WriteToFrom(): (r: seq<Event>)
      reads this
      ensures r == MarkerEvents(Value(), "xdr:from")
    {
      WriteTo("xdr:from")
    }

    function WriteToTo(): (r: seq<Event>)
      reads this
      ensures r == MarkerEvents(Value(), "xdr:to")
    {
      WriteTo("xdr:to")
    }

    /** The insert adjustment: column and row each go through the 1-based helper on their own. */
    method AdjustmentInsertCoordinate(rootCol: U32, offsetCol: U32, rootRow: U32, offsetRow: U32)
      returns (r: Result<()>)
      modifies this
      ensures colOff == old(colOff) && rowOff == old(rowOff)
      ensures var c := Shifted(old(col), AdjustInsertCoordinate, rootCol, offsetCol);
              var rw := Shifted(old(row), AdjustInsertCoordinate, rootRow, offsetRow);
              if c.Err? then r.Err? && Value() == old(Value())
              else col == c.value &&
                   if rw.Err? then r.Err? && row == old(row) else r.Ok? && row == rw.value
    {
      var c := Shifted(col, AdjustInsertCoordinate, rootCol, offsetCol);
      if c.Err? {
        return Err(c.error);
      }
      col := c.value;
      var rw := Shifted(row, AdjustInsertCoordinate, rootRow, offsetRow);
      if rw.Err? {
        return Err(rw.error);
      }
      row := rw.value;
      return Ok(());
    }

    /** The remove adjustment, shaped like the insert one. */
    method AdjustmentRemoveCoordinate(rootCol: U32, offsetCol: U32, rootRow: U32, offsetRow: U32)
      returns (r: Result<()>)
      modifies this
      ensures colOff == old(colOff) && rowOff == old(rowOff)
      ensures var c := Shifted(old(col), AdjustRemoveCoordinate, rootCol, offsetCol);
              var rw := Shifted(old(row), AdjustRemoveCoordinate, rootRow, offsetRow);
              if c.Err? then r.Err? && Value() == old(Value())
              else col == c.value &&
                   if rw.Err? then r.Err? && row == old(row) else r.Ok? && row == rw.value
    {
      var c := Shifted(col, AdjustRemoveCoordinate, rootCol, offsetCol);
      if c.Err? {
        return Err(c.error);
      }
      col := c.value;
      var rw := Shifted(row, AdjustRemoveCoordinate, rootRow, offsetRow);
      if rw.Err? {
        return Err(rw.error);
      }
      row := rw.value;
      return Ok(());
    }

    /** `is_remove_coordinate`: the column test or (only when that is false) the row test. */
    function IsRemoveCoordinate(rootCol: U32, offsetCol: U32, rootRow: U32, offsetRow: U32): (r: Result<bool>)
      reads this
      ensures r.Ok? <==> col + 1 < U32_LIMIT &&
                         (IsRemoveCoordinateAt(col + 1, rootCol, offsetCol) || row + 1 < U32_LIMIT)
      ensures r.Ok? ==> (r.value <==> IsRemoveCoordinateAt(col + 1, rootCol, offsetCol) ||
                                      (row + 1 < U32_LIMIT && IsRemoveCoordinateAt(row + 1, rootRow, offsetRow)))
    {
      if col + 1 >= U32_LIMIT then Err(Overflow)
      else if IsRemoveCoordinateAt(col + 1, rootCol, offsetCol) then Ok(true)
      else if row + 1 >= U32_LIMIT then Err(Overflow)
      else Ok(IsRemoveCoordinateAt(row + 1, rootRow, offsetRow))
    }
  }
}
