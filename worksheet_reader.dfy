/** The top-level loop of the worksheet reader: what it does with conditional formatting,
    hyperlinks, the auto filter and the drawing references of one worksheet part.

    The loop runs to the end of the stream (it has no end tag of its own). A started
    `conditionalFormatting` hands the stream to `get_conditional_formatting`; a started child
    with its own reader (`row`, `cols`, `sheetView`, ...) hands it to that reader, which is not
    part of this model and consumes `DelegateConsumes` events. */
module WorksheetReader {
  import opened Xml
  import opened Collaborators
  import opened ConditionalFormatting

  /** The fields of a `Hyperlink` that the reader sets. */
  datatype Hyperlink = Hyperlink(url: string, location: bool)

  /** `Hyperlink::default()`. */
  const DefaultHyperlink := Hyperlink("", false)

  /** `get_hyperlink`: the cell reference, the relationship id and the hyperlink of one
      self-closing `hyperlink` element. `ref` is mandatory; with `location` the hyperlink points
      there and there is no relationship, otherwise `r:id` is mandatory. */
  function GetHyperlink(attrs: seq<Attribute>): (r: Result<(string, string, Hyperlink)>)
    ensures r.Err? <==> GetAttribute(attrs, "ref").None? ||
                        (GetAttribute(attrs, "location").None? && GetAttribute(attrs, "r:id").None?)
    ensures r.Err? ==> r.error == MissingAttribute(if GetAttribute(attrs, "ref").None? then "ref" else "r:id")
    ensures r.Ok? ==> Some(r.value.0) == GetAttribute(attrs, "ref")
    ensures r.Ok? && GetAttribute(attrs, "location").Some? ==>
              r.value.1 == "" && r.value.2 == Hyperlink(GetAttribute(attrs, "location").value, true)
    ensures r.Ok? && GetAttribute(attrs, "location").None? ==>
              Some(r.value.1) == GetAttribute(attrs, "r:id") && r.value.2 == DefaultHyperlink
  {
    match GetAttribute(attrs, "ref")
    case None => Err(MissingAttribute("ref"))
    case Some(coordinate) =>
      match GetAttribute(attrs, "location")
      case Some(v) => Ok((coordinate, "", Hyperlink(v, true)))
      case None =>
        match GetAttribute(attrs, "r:id")
        case None => Err(MissingAttribute("r:id"))
        case Some(rid) => Ok((coordinate, rid, DefaultHyperlink))
  }

  /** A recorded hyperlink relationship always has an id, and it is the `r:id` of a hyperlink
      without `location`. */
  lemma RecordedRelationship(attrs: seq<Attribute>)
    requires GetHyperlink(attrs).Ok? && GetHyperlink(attrs).value.1 != ""
    ensures GetAttribute(attrs, "location").None?
    ensures GetAttribute(attrs, "r:id") == Some(GetHyperlink(attrs).value.1)
    ensures GetHyperlink(attrs).value.2 == DefaultHyperlink
  {
  }

  /** What the loop has gathered: the worksheet's conditional-formatting sets (`sqref` and
      rules), auto filter and cell hyperlinks, and the three results of `read`. */
  datatype SheetRead = SheetRead(
    conditionalSets: seq<(string, seq<Conditional>)>,
    autoFilter: Option<string>,
    cellHyperlinks: map<string, Hyperlink>,
    drawing: Option<string>,
    legacyDrawing: Option<string>,
    hyperlinkRels: seq<(string, string)>)

  /** A new sheet and the loop's initial locals. */
  const EmptySheet := SheetRead([], None, map[], None, None, [])

  /** The started children that have a reader of their own. */
  predicate IsDelegate(name: string)
  {
    name in {"sheetView", "row", "cols", "mergeCells", "oleObjects", "headerFooter", "rowBreaks", "colBreaks"}
  }

  /** What one event does to the loop: go on from `next` with a new state, stop, or fail. */
  datatype Outcome = Continue(state: SheetRead, next: nat) | Stop | Fail(error: Error)

  /** One turn of the loop at position `p`. */
  function SheetStep(events: seq<Event>, p: nat, s: SheetRead, styles: Stylesheet, theme: Theme): (o: Outcome)
    requires p < |events|
    ensures o.Continue? ==> p < o.next <= |events|
  {
    match events[p]
    case Start(name, attrs) =>
      if name == "conditionalFormatting" then
        match GetAttribute(attrs, "sqref")
        case None => Fail(MissingAttribute("sqref"))
        case Some(sqref) =>
          match RulesFrom(events, p + 1, [], DefaultConditional, styles, theme)
          case Err(e) => Fail(e)
          case Ok((rules, q)) => Continue(s.(conditionalSets := s.conditionalSets + [(sqref, rules)]), q)
      else if IsDelegate(name) then Continue(s, Resume(events, p, DelegateConsumes(name, events[p + 1..])))
      else Continue(s, p + 1)
    case Empty(name, attrs) =>
      if name == "autoFilter" then
        match GetAttribute(attrs, "ref")
        case None => Fail(MissingAttribute("ref"))
        case Some(v) => Continue(s.(autoFilter := Some(v)), p + 1)
      else if name == "drawing" then
        match GetAttribute(attrs, "r:id")
        case None => Fail(MissingAttribute("r:id"))
        case Some(v) => Continue(s.(drawing := Some(v)), p + 1)
      else if name == "legacyDrawing" then
        match GetAttribute(attrs, "r:id")
        case None => Fail(MissingAttribute("r:id"))
        case Some(v) => Continue(s.(legacyDrawing := Some(v)), p + 1)
      else if name == "hyperlink" then
        match GetHyperlink(attrs)
        case Err(e) => Fail(e)
        case Ok((coordinate, rid, link)) =>
          Continue(s.(cellHyperlinks := s.cellHyperlinks[coordinate := link],
                      hyperlinkRels := if rid != "" then s.hyperlinkRels + [(coordinate, rid)] else s.hyperlinkRels),
                   p + 1)
      else Continue(s, p + 1)
    case Eof => Stop
    case Text(_) => Continue(s, p + 1)
    case End(_) => Continue(s, p + 1)
  }

  /** The loop of `read` from position `p`: it ends, with what it gathered, at end-of-stream. */
  function SheetFrom(events: seq<Event>, p: nat, s: SheetRead, styles: Stylesheet, theme: Theme): (r: Result<SheetRead>)
    decreases |events| - p
  {
    if p >= |events| then Ok(s)
    else match SheetStep(events, p, s, styles, theme)
      case Stop => Ok(s)
      case Fail(e) => Err(e)
      case Continue(s', q) => SheetFrom(events, q, s', styles, theme)
  }

  /** How a later state extends an earlier one: sets and relationships are only appended, cell
      hyperlinks are never dropped, and each appended relationship has an id and a cell hyperlink. */
  predicate Extends(s: SheetRead, t: SheetRead)
  {
    s.conditionalSets <= t.conditionalSets &&
    s.hyperlinkRels <= t.hyperlinkRels &&
    s.cellHyperlinks.Keys <= t.cellHyperlinks.Keys &&
    forall k :: |s.hyperlinkRels| <= k < |t.hyperlinkRels| ==>
      t.hyperlinkRels[k].1 != "" && t.hyperlinkRels[k].0 in t.cellHyperlinks
  }

  lemma ExtendsTrans(s: SheetRead, t: SheetRead, u: SheetRead)
    requires Extends(s, t) && Extends(t, u)
    ensures Extends(s, u)
  {
    forall k | |s.hyperlinkRels| <= k < |u.hyperlinkRels|
      ensures u.hyperlinkRels[k].1 != "" && u.hyperlinkRels[k].0 in u.cellHyperlinks
    {
      if k < |t.hyperlinkRels| {
        assert u.hyperlinkRels[k] == t.hyperlinkRels[k];
      }
    }
  }

  /** One turn of the loop extends the state. */
  lemma StepExtends(events: seq<Event>, p: nat, s: SheetRead, styles: Stylesheet, theme: Theme)
    requires p < |events|
    ensures var o := SheetStep(events, p, s, styles, theme);
            o.Continue? ==> Extends(s, o.state)
  {
  }

  /** The whole loop extends the state it starts from: conditional-formatting sets and
      hyperlink relationships come out in document order after those already there, and a
      relationship is recorded only with a non-empty id, for a cell that got a hyperlink. */
  lemma {:induction false} ReadExtends(events: seq<Event>, p: nat, s: SheetRead, styles: Stylesheet, theme: Theme)
    ensures var r := SheetFrom(events, p, s, styles, theme);
            r.Ok? ==> Extends(s, r.value)
    decreases |events| - p
  {
    if p < |events| {
      var o := SheetStep(events, p, s, styles, theme);
      if o.Continue? {
        StepExtends(events, p, s, styles, theme);
        ReadExtends(events, o.next, o.state, styles, theme);
        var r := SheetFrom(events, o.next, o.state, styles, theme);
        if r.Ok? {
          ExtendsTrans(s, o.state, r.value);
        }
      }
    }
  }

  /** A hyperlink with a `location` sets the cell's hyperlink and records no relationship. */
  lemma LocationRecordsNoRelationship(events: seq<Event>, p: nat, s: SheetRead, attrs: seq<Attribute>,
                                      coordinate: string, target: string, styles: Stylesheet, theme: Theme)
    requires p < |events| && events[p] == Empty("hyperlink", attrs)
    requires GetAttribute(attrs, "ref") == Some(coordinate) && GetAttribute(attrs, "location") == Some(target)
    ensures SheetFrom(events, p, s, styles, theme) ==
            SheetFrom(events, p + 1, s.(cellHyperlinks := s.cellHyperlinks[coordinate := Hyperlink(target, true)]), styles, theme)
  {
    assert GetHyperlink(attrs) == Ok((coordinate, "", Hyperlink(target, true)));
    var t := s.(cellHyperlinks := s.cellHyperlinks[coordinate := Hyperlink(target, true)]);
    assert SheetStep(events, p, s, styles, theme) == Continue(t, p + 1);
  }

  /** A hyperlink without `location` whose `r:id` is not empty records `(ref, r:id)` after the
      relationships already recorded. */
  lemma RelationshipRecorded(events: seq<Event>, p: nat, s: SheetRead, attrs: seq<Attribute>,
                             coordinate: string, rid: string, styles: Stylesheet, theme: Theme)
    requires p < |events| && events[p] == Empty("hyperlink", attrs)
    requires GetAttribute(attrs, "ref") == Some(coordinate) && GetAttribute(attrs, "location").None?
    requires GetAttribute(attrs, "r:id") == Some(rid) && rid != ""
    ensures SheetFrom(events, p, s, styles, theme) ==
            SheetFrom(events, p + 1, s.(cellHyperlinks := s.cellHyperlinks[coordinate := DefaultHyperlink],
                                        hyperlinkRels := s.hyperlinkRels + [(coordinate, rid)]), styles, theme)
  {
    assert GetHyperlink(attrs) == Ok((coordinate, rid, DefaultHyperlink));
    var t := s.(cellHyperlinks := s.cellHyperlinks[coordinate := DefaultHyperlink],
                hyperlinkRels := s.hyperlinkRels + [(coordinate, rid)]);
    assert SheetStep(events, p, s, styles, theme) == Continue(t, p + 1);
  }

  /** A started `conditionalFormatting` whose rules are laid out as written adds one set with its
      `sqref` and the rules in document order, and the loop goes on after its end tag; a failing
      rule fails the read. */
  lemma ReadConditionalSet(events: seq<Event>, p: nat, s: SheetRead, attrs: seq<Attribute>, sqref: string,
                           rs: seq<RuleXml>, styles: Stylesheet, theme: Theme)
    requires p < |events| && events[p] == Start("conditionalFormatting", attrs)
    requires GetAttribute(attrs, "sqref") == Some(sqref)
    requires RulesAt(events, p + 1, rs)
    ensures RulesOf(rs, styles, theme).Err? ==>
              SheetFrom(events, p, s, styles, theme) == Err(RulesOf(rs, styles, theme).error)
    ensures RulesOf(rs, styles, theme).Ok? ==>
              SheetFrom(events, p, s, styles, theme) ==
              SheetFrom(events, p + RunLength(rs) + 2,
                        s.(conditionalSets := s.conditionalSets + [(sqref, RulesOf(rs, styles, theme).value)]), styles, theme)
  {
    ReadRuleRun(events, p + 1, rs, [], p + RunLength(rs) + 2, styles, theme);
    var r := RulesOf(rs, styles, theme);
    if r.Ok? {
      assert [] + r.value == r.value;
    }
  }

  /** A `conditionalFormatting` without `sqref`, an `autoFilter` without `ref`, or a `drawing` or
      `legacyDrawing` without `r:id` fails the read. */
  lemma MissingMandatoryAttributeFails(events: seq<Event>, p: nat, s: SheetRead, styles: Stylesheet, theme: Theme)
    requires p < |events|
    requires (events[p].Start? && events[p].name == "conditionalFormatting" && GetAttribute(events[p].attrs, "sqref").None?) ||
             (events[p].Empty? && events[p].name == "autoFilter" && GetAttribute(events[p].attrs, "ref").None?) ||
             (events[p].Empty? && events[p].name in {"drawing", "legacyDrawing"} && GetAttribute(events[p].attrs, "r:id").None?)
    ensures SheetFrom(events, p, s, styles, theme).Err?
    ensures SheetFrom(events, p, s, styles, theme).error.MissingAttribute?
  {
  }

  /** The worksheet fields that the loop fills. */
  class Worksheet {
    var conditionalSets: seq<(string, seq<Conditional>)>
    var autoFilter: Option<string>
    var cellHyperlinks: map<string, Hyperlink>

    /** `add_new_sheet_crate`: a sheet with none of them. */
    constructor ()
      ensures conditionalSets == [] && autoFilter == None && cellHyperlinks == map[]
    {
      conditionalSets := [];
      autoFilter := None;
      cellHyperlinks := map[];
    }

    /** The loop state made of these fields and the loop's locals. */
    function State(drawing: Option<string>, legacyDrawing: Option<string>, hyperlinkRels: seq<(string, string)>): SheetRead
      reads this
    {
      SheetRead(conditionalSets, autoFilter, cellHyperlinks, drawing, legacyDrawing, hyperlinkRels)
    }
  }

  /** `read`: fill a new sheet from the worksheet part's events and return the drawing and legacy
      drawing relationship ids and the hyperlink relationships. */
  method Read(events: seq<Event>, styles: Stylesheet, theme: Theme)
    returns (ws: Worksheet, r: Result<(Option<string>, Option<string>, seq<(string, string)>)>)
    ensures fresh(ws)
    ensures var spec := SheetFrom(events, 0, EmptySheet, styles, theme);
            (r.Ok? <==> spec.Ok?) &&
            (r.Err? ==> r.error == spec.error) &&
            (r.Ok? ==> r.value == (spec.value.drawing, spec.value.legacyDrawing, spec.value.hyperlinkRels) &&
                       ws.State(r.value.0, r.value.1, r.value.2) == spec.value)
  {
    ws := new Worksheet();
    ghost var spec := SheetFrom(events, 0, EmptySheet, styles, theme);
    var drawing: Option<string> := None;
    var legacyDrawing: Option<string> := None;
    var hyperlinkRels: seq<(string, string)> := [];
    var p := 0;
    while p < |events|
      invariant SheetFrom(events, p, ws.State(drawing, legacyDrawing, hyperlinkRels), styles, theme) == spec
      decreases |events| - p
    {
      var next := p + 1;
      match events[p] {
        case Start(name, attrs) =>
          if name == "conditionalFormatting" {
            var sqref := GetAttribute(attrs, "sqref");
            if sqref.None? {
              return ws, Err(MissingAttribute("sqref"));
            }
            var rules := GetConditionalFormatting(events, p + 1, styles, theme);
            if rules.Err? {
              return ws, Err(rules.error);
            }
            ws.conditionalSets := ws.conditionalSets + [(sqref.value, rules.value.0)];
            next := rules.value.1;
          } else if IsDelegate(name) {
            next := Resume(events, p, DelegateConsumes(name, events[p + 1..]));
          }
        case Empty(name, attrs) =>
          if name == "autoFilter" {
            var v := GetAttribute(attrs, "ref");
            if v.None? {
              return ws, Err(MissingAttribute("ref"));
            }
            ws.autoFilter := Some(v.value);
          } else if name == "drawing" {
            var v := GetAttribute(attrs, "r:id");
            if v.None? {
              return ws, Err(MissingAttribute("r:id"));
            }
            drawing := Some(v.value);
          } else if name == "legacyDrawing" {
            var v := GetAttribute(attrs, "r:id");
            if v.None? {
              return ws, Err(MissingAttribute("r:id"));
            }
            legacyDrawing := Some(v.value);
          } else if name == "hyperlink" {
            var h := GetHyperlink(attrs);
            if h.Err? {
              return ws, Err(h.error);
            }
            var (coordinate, rid, link) := h.value;
            ws.cellHyperlinks := ws.cellHyperlinks[coordinate := link];
            if rid != "" {
              hyperlinkRels := hyperlinkRels + [(coordinate, rid)];
            }
          }
        case Eof =>
          return ws, Ok((drawing, legacyDrawing, hyperlinkRels));
        case Text(_) =>
        case End(_) =>
      }
      p := next;
    }
    return ws, Ok((drawing, legacyDrawing, hyperlinkRels));
  }
}
