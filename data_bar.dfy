/** `DataBar` (section 18.3.1.28 of ECMA-376 Part 1): a list of value objects and a list of
    colours. Its reader appends every `cfvo` and every `color` it meets to its own list, in
    document order, without pairing them or checking their counts. */
module DataBars {
  import opened Xml
  import opened Collaborators

  /** The value object a single event contributes: one for a self-closing `cfvo`, none otherwise. */
  function CfvoOf(e: Event): seq<ConditionalFormatValueObject>
  {
    if e.Empty? && e.name == "cfvo" then [CfvoFromAttributes(e.attrs)] else []
  }

  /** The colour a single event contributes: one for a self-closing `color`, none otherwise. */
  function ColorOf(e: Event): seq<Color>
  {
    if e.Empty? && e.name == "color" then [ColorFromAttributes(e.attrs)] else []
  }

  /** The value objects of all self-closing `cfvo` elements of a stretch of events, in document order. */
  function CfvosIn(events: seq<Event>): (r: seq<ConditionalFormatValueObject>)
    ensures |r| <= |events|
    decreases |events|
  {
    if events == [] then [] else CfvoOf(events[0]) + CfvosIn(events[1..])
  }

  /** The colours of all self-closing `color` elements of a stretch of events, in document order. */
  function ColorsIn(events: seq<Event>): (r: seq<Color>)
    ensures |r| <= |events|
    decreases |events|
  {
    if events == [] then [] else ColorOf(events[0]) + ColorsIn(events[1..])
  }

  /** The value objects read from self-closing `cfvo` elements with these attributes. */
  function Cfvos(attrs: seq<seq<Attribute>>): (r: seq<ConditionalFormatValueObject>)
    ensures |r| == |attrs|
    ensures forall i :: 0 <= i < |attrs| ==> r[i] == CfvoFromAttributes(attrs[i])
  {
    seq(|attrs|, i requires 0 <= i < |attrs| => CfvoFromAttributes(attrs[i]))
  }

  /** The colours read from self-closing `color` elements with these attributes. */
  function Colors(attrs: seq<seq<Attribute>>): (r: seq<Color>)
    ensures |r| == |attrs|
    ensures forall i :: 0 <= i < |attrs| ==> r[i] == ColorFromAttributes(attrs[i])
  {
    seq(|attrs|, i requires 0 <= i < |attrs| => ColorFromAttributes(attrs[i]))
  }

  /** The loop of `set_attributes`, from position `p` with the lists read so far: the two
      lists and the position after `</dataBar>`, or end-of-stream. */
  function DataBarFrom(events: seq<Event>, p: nat, cfvos: seq<ConditionalFormatValueObject>, colors: seq<Color>)
    : (r: Result<(seq<ConditionalFormatValueObject>, seq<Color>, nat)>)
    ensures r.Ok? ==> p < r.value.2 <= |events| && events[r.value.2 - 1] == End("dataBar")
    ensures r.Err? ==> r.error == MissingEndTag("dataBar")
    decreases |events| - p
  {
    if p >= |events| then Err(MissingEndTag("dataBar"))
    else match events[p]
      case Empty(name, attrs) =>
        if name == "cfvo" then DataBarFrom(events, p + 1, cfvos + [CfvoFromAttributes(attrs)], colors)
        else if name == "color" then DataBarFrom(events, p + 1, cfvos, colors + [ColorFromAttributes(attrs)])
        else DataBarFrom(events, p + 1, cfvos, colors)
      case End(name) =>
        if name == "dataBar" then Ok((cfvos, colors, p + 1)) else DataBarFrom(events, p + 1, cfvos, colors)
      case Eof => Err(MissingEndTag("dataBar"))
      case Start(_, _) => DataBarFrom(events, p + 1, cfvos, colors)
      case Text(_) => DataBarFrom(events, p + 1, cfvos, colors)
  }

  /** `write_to`: `dataBar` wrapping all value objects, then all colours, each in stored order. */
  function DataBarEvents(cfvos: seq<ConditionalFormatValueObject>, colors: seq<Color>): (r: seq<Event>)
    ensures |r| >= 2 && r[0] == Start("dataBar", []) && r[|r| - 1] == End("dataBar")
  {
    [Start("dataBar", [])] +
    Flatten(seq(|cfvos|, i requires 0 <= i < |cfvos| => CfvoEvents(cfvos[i]))) +
    Flatten(seq(|colors|, i requires 0 <= i < |colors| => ColorEvents(colors[i]))) +
    [End("dataBar")]
  }

  /** Any event other than `</dataBar>` and end-of-stream moves the read on by one, adding
      what that event contributes. */
  lemma Step(events: seq<Event>, p: nat, cfvos: seq<ConditionalFormatValueObject>, colors: seq<Color>)
    requires p < |events| && events[p] != End("dataBar") && events[p] != Eof
    ensures DataBarFrom(events, p, cfvos, colors) ==
            DataBarFrom(events, p + 1, cfvos + CfvoOf(events[p]), colors + ColorOf(events[p]))
  {
    assert cfvos + [] == cfvos && colors + [] == colors;
  }

  /** A non-empty slice is its first element followed by the rest. */
  lemma SliceFront<T>(s: seq<T>, p: nat, q: nat)
    requires p < q <= |s|
    ensures s[p..q] != [] && s[p..q][0] == s[p] && s[p..q][1..] == s[p + 1..q]
  {
  }

  /** What a stretch contributes is what its first event contributes, then what the rest does. */
  lemma InCons(s: seq<Event>, cfvos: seq<ConditionalFormatValueObject>, colors: seq<Color>)
    requires s != []
    ensures cfvos + CfvoOf(s[0]) + CfvosIn(s[1..]) == cfvos + CfvosIn(s)
    ensures colors + ColorOf(s[0]) + ColorsIn(s[1..]) == colors + ColorsIn(s)
  {
    assert CfvosIn(s) == CfvoOf(s[0]) + CfvosIn(s[1..]);
    assert ColorsIn(s) == ColorOf(s[0]) + ColorsIn(s[1..]);
    AppendAssoc(cfvos, CfvoOf(s[0]), CfvosIn(s[1..]));
    AppendAssoc(colors, ColorOf(s[0]), ColorsIn(s[1..]));
  }

  lemma AppendAssoc<T>(a: seq<T>, b: seq<T>, c: seq<T>)
    ensures a + b + c == a + (b + c)
  {
  }

  /** What a read collects from position `p + 1` on, preceded by what `events[p]` contributes. */
  lemma CollectsCons(events: seq<Event>, p: nat, q: nat, cfvos: seq<ConditionalFormatValueObject>, colors: seq<Color>,
                     c: seq<ConditionalFormatValueObject>, k: seq<Color>)
    requires p + 1 < q <= |events|
    requires c == cfvos + CfvoOf(events[p]) + CfvosIn(events[p + 1..q - 1])
    requires k == colors + ColorOf(events[p]) + ColorsIn(events[p + 1..q - 1])
    ensures c == cfvos + CfvosIn(events[p..q - 1]) && k == colors + ColorsIn(events[p..q - 1])
  {
    SliceFront(events, p, q - 1);
    InCons(events[p..q - 1], cfvos, colors);
  }

  /** A successful read appends, to the lists it started with, the value objects and the colours
      of the self-closing `cfvo` and `color` elements before `</dataBar>`, in document order. */
  lemma {:induction false} ReadCollects(events: seq<Event>, p: nat, cfvos: seq<ConditionalFormatValueObject>, colors: seq<Color>)
    requires DataBarFrom(events, p, cfvos, colors).Ok?
    ensures var (c, k, q) := DataBarFrom(events, p, cfvos, colors).value;
            c == cfvos + CfvosIn(events[p..q - 1]) && k == colors + ColorsIn(events[p..q - 1])
    decreases |events| - p
  {
    if events[p] != End("dataBar") {
      assert events[p] != Eof;
      Step(events, p, cfvos, colors);
      var cfvos', colors' := cfvos + CfvoOf(events[p]), colors + ColorOf(events[p]);
      ReadCollects(events, p + 1, cfvos', colors');
      var r := DataBarFrom(events, p + 1, cfvos', colors');
      CollectsCons(events, p, r.value.2, cfvos, colors, r.value.0, r.value.1);
    } else {
      assert cfvos + [] == cfvos && colors + [] == colors;
    }
  }

  /** With no `</dataBar>` left in the stream the read fails. */
  lemma {:induction false} ReadWithoutEndFails(events: seq<Event>, p: nat, cfvos: seq<ConditionalFormatValueObject>, colors: seq<Color>)
    requires forall i :: p <= i < |events| ==> events[i] != End("dataBar")
    ensures DataBarFrom(events, p, cfvos, colors) == Err(MissingEndTag("dataBar"))
    decreases |events| - p
  {
    if p < |events| && events[p] != Eof {
      Step(events, p, cfvos, colors);
      ReadWithoutEndFails(events, p + 1, cfvos + CfvoOf(events[p]), colors + ColorOf(events[p]));
    }
  }

  /** The value objects of a non-empty run are those of its first element, then those of the others. */
  lemma CfvosCons(cfvos: seq<ConditionalFormatValueObject>, attrs: seq<seq<Attribute>>)
    requires attrs != []
    ensures cfvos + [CfvoFromAttributes(attrs[0])] + Cfvos(attrs[1..]) == cfvos + Cfvos(attrs)
  {
    assert Cfvos(attrs) == [CfvoFromAttributes(attrs[0])] + Cfvos(attrs[1..]);
  }

  /** The colours of a non-empty run are those of its first element, then those of the others. */
  lemma ColorsCons(colors: seq<Color>, attrs: seq<seq<Attribute>>)
    requires attrs != []
    ensures colors + [ColorFromAttributes(attrs[0])] + Colors(attrs[1..]) == colors + Colors(attrs)
  {
    assert Colors(attrs) == [ColorFromAttributes(attrs[0])] + Colors(attrs[1..]);
  }

  /** Self-closing `cfvo` elements are appended one after the other. */
  lemma {:induction false} ReadCfvoRun(events: seq<Event>, p: nat, attrs: seq<seq<Attribute>>,
                                       cfvos: seq<ConditionalFormatValueObject>, colors: seq<Color>)
    requires ElementsAt(events, p, "cfvo", attrs)
    ensures DataBarFrom(events, p, cfvos, colors) == DataBarFrom(events, p + |attrs|, cfvos + Cfvos(attrs), colors)
    decreases |attrs|
  {
    if attrs != [] {
      ElementsAtTail(events, p, "cfvo", attrs);
      var c := cfvos + [CfvoFromAttributes(attrs[0])];
      assert DataBarFrom(events, p, cfvos, colors) == DataBarFrom(events, p + 1, c, colors);
      ReadCfvoRun(events, p + 1, attrs[1..], c, colors);
      CfvosCons(cfvos, attrs);
    } else {
      assert cfvos + Cfvos(attrs) == cfvos;
    }
  }

  /** Self-closing `color` elements are appended one after the other. */
  lemma {:induction false} ReadColorRun(events: seq<Event>, p: nat, attrs: seq<seq<Attribute>>,
                                        cfvos: seq<ConditionalFormatValueObject>, colors: seq<Color>)
    requires ElementsAt(events, p, "color", attrs)
    ensures DataBarFrom(events, p, cfvos, colors) == DataBarFrom(events, p + |attrs|, cfvos, colors + Colors(attrs))
    decreases |attrs|
  {
    if attrs != [] {
      ElementsAtTail(events, p, "color", attrs);
      var k := colors + [ColorFromAttributes(attrs[0])];
      assert DataBarFrom(events, p, cfvos, colors) == DataBarFrom(events, p + 1, cfvos, k);
      ReadColorRun(events, p + 1, attrs[1..], cfvos, k);
      ColorsCons(colors, attrs);
    } else {
      assert colors + Colors(attrs) == colors;
    }
  }

  /** Writing one-event parts one after the other gives the run of self-closing elements. */
  lemma {:induction false} FlattenSingletons(parts: seq<seq<Event>>, name: string, attrs: seq<seq<Attribute>>)
    requires |parts| == |attrs|
    requires forall i :: 0 <= i < |parts| ==> parts[i] == [Empty(name, attrs[i])]
    ensures Flatten(parts) == EmptyElements(name, attrs)
    decreases |parts|
  {
    if parts != [] {
      FlattenSingletons(parts[1..], name, attrs[1..]);
    }
  }

  /** The written `dataBar`, when each part writes itself as one self-closing element. */
  lemma WrittenLayout(cfvos: seq<ConditionalFormatValueObject>, colors: seq<Color>,
                      cfvoAttrs: seq<seq<Attribute>>, colorAttrs: seq<seq<Attribute>>)
    requires |cfvoAttrs| == |cfvos| && |colorAttrs| == |colors|
    requires forall i :: 0 <= i < |cfvos| ==> CfvoEvents(cfvos[i]) == [Empty("cfvo", cfvoAttrs[i])]
    requires forall i :: 0 <= i < |colors| ==> ColorEvents(colors[i]) == [Empty("color", colorAttrs[i])]
    ensures DataBarEvents(cfvos, colors) ==
            [Start("dataBar", [])] + EmptyElements("cfvo", cfvoAttrs) + EmptyElements("color", colorAttrs) + [End("dataBar")]
  {
    FlattenSingletons(seq(|cfvos|, i requires 0 <= i < |cfvos| => CfvoEvents(cfvos[i])), "cfvo", cfvoAttrs);
    FlattenSingletons(seq(|colors|, i requires 0 <= i < |colors| => ColorEvents(colors[i])), "color", colorAttrs);
  }

  /** The reader walks a laid-out `dataBar` run by run. */
  lemma ReadLaidOut(es: seq<Event>, cfvoAttrs: seq<seq<Attribute>>, colorAttrs: seq<seq<Attribute>>,
                    heldCfvos: seq<ConditionalFormatValueObject>, heldColors: seq<Color>)
    requires ElementsAt(es, 1, "cfvo", cfvoAttrs) && ElementsAt(es, 1 + |cfvoAttrs|, "color", colorAttrs)
    requires 1 + |cfvoAttrs| + |colorAttrs| < |es| && es[1 + |cfvoAttrs| + |colorAttrs|] == End("dataBar")
    ensures DataBarFrom(es, 1, heldCfvos, heldColors) ==
            Ok((heldCfvos + Cfvos(cfvoAttrs), heldColors + Colors(colorAttrs), 2 + |cfvoAttrs| + |colorAttrs|))
  {
    ReadCfvoRun(es, 1, cfvoAttrs, heldCfvos, heldColors);
    ReadColorRun(es, 1 + |cfvoAttrs|, colorAttrs, heldCfvos + Cfvos(cfvoAttrs), heldColors);
  }

  /** Reading back what `write_to` wrote, when each value object and each colour writes itself
      as one self-closing element whose attributes read back to it, appends exactly the stored
      lists to whatever the reading object held, and stops right after `</dataBar>`. */
  lemma ReadOfWrite(cfvos: seq<ConditionalFormatValueObject>, colors: seq<Color>,
                    cfvoAttrs: seq<seq<Attribute>>, colorAttrs: seq<seq<Attribute>>, rest: seq<Event>,
                    heldCfvos: seq<ConditionalFormatValueObject>, heldColors: seq<Color>)
    requires |cfvoAttrs| == |cfvos| && |colorAttrs| == |colors|
    requires forall i :: 0 <= i < |cfvos| ==>
               CfvoEvents(cfvos[i]) == [Empty("cfvo", cfvoAttrs[i])] && CfvoFromAttributes(cfvoAttrs[i]) == cfvos[i]
    requires forall i :: 0 <= i < |colors| ==>
               ColorEvents(colors[i]) == [Empty("color", colorAttrs[i])] && ColorFromAttributes(colorAttrs[i]) == colors[i]
    ensures DataBarFrom(DataBarEvents(cfvos, colors) + rest, 1, heldCfvos, heldColors) ==
            Ok((heldCfvos + cfvos, heldColors + colors, |DataBarEvents(cfvos, colors)|))
  {
    var cs, ks := EmptyElements("cfvo", cfvoAttrs), EmptyElements("color", colorAttrs);
    WrittenLayout(cfvos, colors, cfvoAttrs, colorAttrs);
    var es := DataBarEvents(cfvos, colors) + rest;
    assert es == [Start("dataBar", [])] + cs + (ks + [End("dataBar")] + rest);
    EmptyElementsAt([Start("dataBar", [])], "cfvo", cfvoAttrs, ks + [End("dataBar")] + rest);
    assert es == [Start("dataBar", [])] + cs + ks + ([End("dataBar")] + rest);
    EmptyElementsAt([Start("dataBar", [])] + cs, "color", colorAttrs, [End("dataBar")] + rest);
    assert es[1 + |cs| + |ks|] == End("dataBar");
    ReadLaidOut(es, cfvoAttrs, colorAttrs, heldCfvos, heldColors);
    assert Cfvos(cfvoAttrs) == cfvos;
    assert Colors(colorAttrs) == colors;
  }

  class DataBar {
    var cfvoCollection: seq<ConditionalFormatValueObject>
    var colorCollection: seq<Color>

    /** The derived default: both lists empty. */
    constructor ()
      ensures cfvoCollection == [] && colorCollection == []
    {
      cfvoCollection, colorCollection := [], [];
    }

    method SetCfvoCollection(value: seq<ConditionalFormatValueObject>)
      modifies this
      ensures cfvoCollection == value && colorCollection == old(colorCollection)
    {
      cfvoCollection := value;
    }

    method AddCfvoCollection(value: ConditionalFormatValueObject)
      modifies this
      ensures cfvoCollection == old(cfvoCollection) + [value] && colorCollection == old(colorCollection)
    {
      cfvoCollection := cfvoCollection + [value];
    }

    method SetColorCollection(value: seq<Color>)
      modifies this
      ensures colorCollection == value && cfvoCollection == old(cfvoCollection)
    {
      colorCollection := value;
    }

    method AddColorCollection(value: Color)
      modifies this
      ensures colorCollection == old(colorCollection) + [value] && cfvoCollection == old(cfvoCollection)
    {
      colorCollection := colorCollection + [value];
    }

    /** `set_attributes`: the event loop, started just after `<dataBar>`. */
    method SetAttributes(events: seq<Event>, pos: nat) returns (r: Result<nat>)
      modifies this
      ensures var spec := DataBarFrom(events, pos, old(cfvoCollection), old(colorCollection));
              (r.Ok? <==> spec.Ok?) &&
              (r.Ok? ==> r.value == spec.value.2 &&
                         cfvoCollection == spec.value.0 && colorCollection == spec.value.1) &&
              (r.Err? ==> r.error == spec.error)
    {
      ghost var spec := DataBarFrom(events, pos, cfvoCollection, colorCollection);
      var p := pos;
      while p < |events|
        invariant pos <= p
        invariant DataBarFrom(events, p, cfvoCollection, colorCollection) == spec
        decreases |events| - p
      {
        match events[p] {
          case Empty(name, attrs) =>
            if name == "cfvo" {
              AddCfvoCollection(CfvoFromAttributes(attrs));
            } else if name == "color" {
              AddColorCollection(ColorFromAttributes(attrs));
            }
          case End(name) =>
            if name == "dataBar" {
              return Ok(p + 1);
            }
          case Eof =>
            return Err(MissingEndTag("dataBar"));
          case Start(_, _) =>
          case Text(_) =>
        }
        p := p + 1;
      }
      return Err(MissingEndTag("dataBar"));
    }

    function WriteTo(): (r: seq<Event>)
      reads this
      ensures r == DataBarEvents(cfvoCollection, colorCollection)
    {
      DataBarEvents(cfvoCollection, colorCollection)
    }
  }
}
