/** The conditional-formatting part of the worksheet reader (section 18.3.1 of ECMA-376 Part 1):
    `get_conditional_formatting` collects the `cfRule` elements of one `conditionalFormatting`
    in document order, and `get_cfvo` reads the value objects and colours of one `dataBar`,
    `colorScale` or `iconSet`, pairing the k-th colour with the k-th value object. */
module ConditionalFormatting {
  import opened Xml
  import opened Numeric
  import opened Collaborators
  import StringValues

  /** One entry of a rule's value-object list: the `cfvo` type and value, and the colour. */
  datatype CfvoEntry = CfvoEntry(kind: string, value: Option<string>, color: Option<Color>)

  /** A `Conditional`: one formatting rule. */
  datatype Conditional = Conditional(
    dataType: string,
    conditionType: string,
    priority: nat,
    percent: nat,
    bottom: nat,
    rank: nat,
    style: Option<Style>,
    cfvoCollection: seq<CfvoEntry>)

  /** `Conditional::default()`. */
  const DefaultConditional := Conditional("", "", 0, 0, 0, 0, None, [])

  /** The element names that start a value-object list; any of their end tags ends one. */
  predicate IsScaleName(name: string)
  {
    name == "dataBar" || name == "colorScale" || name == "iconSet"
  }

  /** The value of the last attribute named `key`, if any: a later attribute overwrites an earlier one. */
  function LastAttribute(attrs: seq<Attribute>, key: string): (r: Option<string>)
    ensures r.None? <==> forall i :: 0 <= i < |attrs| ==> attrs[i].key != key
    ensures r.Some? ==> exists i :: 0 <= i < |attrs| && attrs[i] == Attribute(key, r.value) &&
                                    forall j :: i < j < |attrs| ==> attrs[j].key != key
    decreases |attrs|
  {
    if attrs == [] then None
    else if attrs[|attrs| - 1].key == key then Some(attrs[|attrs| - 1].value)
    else LastAttribute(attrs[..|attrs| - 1], key)
  }

  /** Appending one attribute: it wins if it has the key, and otherwise changes nothing. */
  lemma LastAttributeAppend(attrs: seq<Attribute>, a: Attribute, key: string)
    ensures LastAttribute(attrs + [a], key) == if a.key == key then Some(a.value) else LastAttribute(attrs, key)
  {
    assert (attrs + [a])[..|attrs|] == attrs;
  }

  /** The type and value a self-closing `cfvo` contributes: both start blank for every `cfvo`. */
  function CfvoFields(attrs: seq<Attribute>): (string, Option<string>)
  {
    (StringValues.Get(LastAttribute(attrs, "type")), LastAttribute(attrs, "value"))
  }

  /** The attribute loop of a self-closing `cfvo`. */
  method ReadCfvoAttributes(attrs: seq<Attribute>) returns (kind: string, value: Option<string>)
    ensures (kind, value) == CfvoFields(attrs)
  {
    kind, value := "", None;
    var i := 0;
    while i < |attrs|
      invariant 0 <= i <= |attrs|
      invariant kind == StringValues.Get(LastAttribute(attrs[..i], "type"))
      invariant value == LastAttribute(attrs[..i], "value")
    {
      assert attrs[..i + 1] == attrs[..i] + [attrs[i]];
      LastAttributeAppend(attrs[..i], attrs[i], "type");
      LastAttributeAppend(attrs[..i], attrs[i], "value");
      if attrs[i].key == "type" {
        kind := attrs[i].value;
      } else if attrs[i].key == "value" {
        value := Some(attrs[i].value);
      }
      i := i + 1;
    }
    assert attrs[..i] == attrs;
  }

  /** The loop of `get_cfvo` from position `p`, with the value objects read so far and the
      entries built so far (one per colour). A colour takes the type and value of the value object
      whose index is the number of colours before it; when there is none the read fails. Any of
      the three list end tags ends the read. */
  function CfvoFrom(events: seq<Event>, p: nat, cfvos: seq<(string, Option<string>)>, result: seq<CfvoEntry>, theme: Theme)
    : (r: Result<(seq<CfvoEntry>, nat)>)
    ensures r.Ok? ==> p < r.value.1 <= |events| && events[r.value.1 - 1].End? && IsScaleName(events[r.value.1 - 1].name)
    ensures r.Ok? ==> result <= r.value.0
    decreases |events| - p
  {
    if p >= |events| then Err(MissingEndTag("cfRule"))
    else match events[p]
      case Empty(name, attrs) =>
        if name == "cfvo" then CfvoFrom(events, p + 1, cfvos + [CfvoFields(attrs)], result, theme)
        else if name == "color" then
          var k := |result|;
          if k >= |cfvos| then Err(MissingCfvo(k))
          else CfvoFrom(events, p + 1, cfvos, result + [CfvoEntry(cfvos[k].0, cfvos[k].1, Some(ThemedColor(attrs, theme)))], theme)
        else CfvoFrom(events, p + 1, cfvos, result, theme)
      case End(name) =>
        if IsScaleName(name) then Ok((result, p + 1)) else CfvoFrom(events, p + 1, cfvos, result, theme)
      case Eof => Err(MissingEndTag("cfRule"))
      case Start(_, _) => CfvoFrom(events, p + 1, cfvos, result, theme)
      case Text(_) => CfvoFrom(events, p + 1, cfvos, result, theme)
  }

  /** `get_cfvo`: the event loop, started just after the list's own start tag. */
  method GetCfvo(events: seq<Event>, pos: nat, theme: Theme) returns (r: Result<(seq<CfvoEntry>, nat)>)
    ensures r == CfvoFrom(events, pos, [], [], theme)
  {
    var cfvos: seq<(string, Option<string>)> := [];
    var result: seq<CfvoEntry> := [];
    var colorCount := 0;
    var p := pos;
    while p < |events|
      invariant colorCount == |result|
      invariant CfvoFrom(events, p, cfvos, result, theme) == CfvoFrom(events, pos, [], [], theme)
      decreases |events| - p
    {
      match events[p] {
        case Empty(name, attrs) =>
          if name == "cfvo" {
            var kind, value := ReadCfvoAttributes(attrs);
            cfvos := cfvos + [(kind, value)];
          } else if name == "color" {
            if colorCount >= |cfvos| {
              return Err(MissingCfvo(colorCount));
            }
            var (t, v) := cfvos[colorCount];
            ghost var entry := CfvoEntry(cfvos[colorCount].0, cfvos[colorCount].1, Some(ThemedColor(attrs, theme)));
            assert CfvoFrom(events, p, cfvos, result, theme) == CfvoFrom(events, p + 1, cfvos, result + [entry], theme);
            assert result[..colorCount] == result && result[colorCount..] == [];
            assert result[..colorCount] + [entry] + result[colorCount..] == result + [entry];
            result := result[..colorCount] + [CfvoEntry(t, v, Some(ThemedColor(attrs, theme)))] + result[colorCount..];
            colorCount := colorCount + 1;
          }
        case End(name) =>
          if IsScaleName(name) {
            return Ok((result, p + 1));
          }
        case Eof =>
          return Err(MissingEndTag("cfRule"));
        case Start(_, _) =>
        case Text(_) =>
      }
      p := p + 1;
    }
    return Err(MissingEndTag("cfRule"));
  }

  /** One attribute of a `cfRule` applied to the rule being built. The numeric attributes are
      parsed as `usize`, and `dxfId` is resolved through the differential formats at once. */
  function ApplyRuleAttribute(c: Conditional, a: Attribute, styles: Stylesheet): (r: Result<Conditional>)
    ensures a.key !in {"dxfId", "priority", "percent", "bottom", "rank"} ==> r.Ok?
    ensures r.Err? ==> r.error == InvalidNumber(a.value) && ParseUnsigned(a.value, USIZE_LIMIT).None?
  {
    if a.key == "type" then Ok(c.(conditionType := a.value))
    else if a.key in {"dxfId", "priority", "percent", "bottom", "rank"} then
      match ParseUnsigned(a.value, USIZE_LIMIT)
      case None => Err(InvalidNumber(a.value))
      case Some(n) =>
        if a.key == "dxfId" then Ok(c.(style := Some(DifferentialStyle(styles, n))))
        else if a.key == "priority" then Ok(c.(priority := n))
        else if a.key == "percent" then Ok(c.(percent := n))
        else if a.key == "bottom" then Ok(c.(bottom := n))
        else Ok(c.(rank := n))
    else Ok(c)
  }

  /** The attribute loop of a `cfRule` tag, in attribute order; the first bad number fails it. */
  function ApplyRuleAttributes(c: Conditional, attrs: seq<Attribute>, styles: Stylesheet): (r: Result<Conditional>)
    decreases |attrs|
  {
    if attrs == [] then Ok(c)
    else
      match ApplyRuleAttributes(c, attrs[..|attrs| - 1], styles)
      case Err(e) => Err(e)
      case Ok(prev) => ApplyRuleAttribute(prev, attrs[|attrs| - 1], styles)
  }

  method ReadRuleAttributes(c: Conditional, attrs: seq<Attribute>, styles: Stylesheet) returns (r: Result<Conditional>)
    ensures r == ApplyRuleAttributes(c, attrs, styles)
  {
    var cur := c;
    var i := 0;
    while i < |attrs|
      invariant 0 <= i <= |attrs|
      invariant ApplyRuleAttributes(c, attrs[..i], styles) == Ok(cur)
    {
      ApplyRuleAttributesSnoc(c, attrs, i, styles);
      var a := attrs[i];
      if a.key == "type" {
        cur := cur.(conditionType := a.value);
      } else if a.key in {"dxfId", "priority", "percent", "bottom", "rank"} {
        var n := ParseUnsigned(a.value, USIZE_LIMIT);
        if n.None? {
          ApplyRuleAttributesPrefixErr(c, attrs, i + 1, styles);
          return Err(InvalidNumber(a.value));
        }
        if a.key == "dxfId" {
          cur := cur.(style := Some(DifferentialStyle(styles, n.value)));
        } else if a.key == "priority" {
          cur := cur.(priority := n.value);
        } else if a.key == "percent" {
          cur := cur.(percent := n.value);
        } else if a.key == "bottom" {
          cur := cur.(bottom := n.value);
        } else {
          cur := cur.(rank := n.value);
        }
      }
      i := i + 1;
    }
    assert attrs[..i] == attrs;
    return Ok(cur);
  }

  /** One attribute more applies it to what the attributes before it gave. */
  lemma ApplyRuleAttributesSnoc(c: Conditional, attrs: seq<Attribute>, i: nat, styles: Stylesheet)
    requires i < |attrs|
    ensures ApplyRuleAttributes(c, attrs[..i + 1], styles) ==
            match ApplyRuleAttributes(c, attrs[..i], styles)
            case Err(e) => Err(e)
            case Ok(prev) => ApplyRuleAttribute(prev, attrs[i], styles)
  {
    assert attrs[..i + 1][..i] == attrs[..i];
  }

  /** A failure on a prefix of the attributes is the failure of the whole list. */
  lemma {:induction false} ApplyRuleAttributesPrefixErr(c: Conditional, attrs: seq<Attribute>, n: nat, styles: Stylesheet)
    requires n <= |attrs|
    requires ApplyRuleAttributes(c, attrs[..n], styles).Err?
    ensures ApplyRuleAttributes(c, attrs, styles) == ApplyRuleAttributes(c, attrs[..n], styles)
    decreases |attrs| - n
  {
    if n < |attrs| {
      assert attrs[..n + 1][..n] == attrs[..n];
      ApplyRuleAttributesPrefixErr(c, attrs, n + 1, styles);
    } else {
      assert attrs[..n] == attrs;
    }
  }

  /** The loop of `get_conditional_formatting` from position `p`, with the rules pushed so far
      and the rule being built. A self-closing `cfRule` is pushed at once; a started one at its
      end tag; after each push the rule being built starts again from the default. */
  function RulesFrom(events: seq<Event>, p: nat, rules: seq<Conditional>, cur: Conditional, styles: Stylesheet, theme: Theme)
    : (r: Result<(seq<Conditional>, nat)>)
    ensures r.Ok? ==> p < r.value.1 <= |events| && events[r.value.1 - 1] == End("conditionalFormatting")
    ensures r.Ok? ==> rules <= r.value.0
    decreases |events| - p
  {
    if p >= |events| then Err(MissingEndTag("conditionalFormatting"))
    else match events[p]
      case Empty(name, attrs) =>
        if name == "cfRule" then
          match ApplyRuleAttributes(cur, attrs, styles)
          case Err(e) => Err(e)
          case Ok(c) => RulesFrom(events, p + 1, rules + [c], DefaultConditional, styles, theme)
        else RulesFrom(events, p + 1, rules, cur, styles, theme)
      case Start(name, attrs) =>
        if name == "cfRule" then
          match ApplyRuleAttributes(cur, attrs, styles)
          case Err(e) => Err(e)
          case Ok(c) => RulesFrom(events, p + 1, rules, c, styles, theme)
        else if IsScaleName(name) then
          match CfvoFrom(events, p + 1, [], [], theme)
          case Err(e) => Err(e)
          case Ok((entries, q)) =>
            RulesFrom(events, q, rules, cur.(dataType := name, cfvoCollection := entries), styles, theme)
        else RulesFrom(events, p + 1, rules, cur, styles, theme)
      case End(name) =>
        if name == "conditionalFormatting" then Ok((rules, p + 1))
        else if name == "cfRule" then RulesFrom(events, p + 1, rules + [cur], DefaultConditional, styles, theme)
        else RulesFrom(events, p + 1, rules, cur, styles, theme)
      case Eof => Err(MissingEndTag("conditionalFormatting"))
      case Text(_) => RulesFrom(events, p + 1, rules, cur, styles, theme)
  }

  /** `get_conditional_formatting`: the event loop, started just after `<conditionalFormatting>`. */
  method GetConditionalFormatting(events: seq<Event>, pos: nat, styles: Stylesheet, theme: Theme)
    returns (r: Result<(seq<Conditional>, nat)>)
    ensures r == RulesFrom(events, pos, [], DefaultConditional, styles, theme)
  {
    var rules: seq<Conditional> := [];
    var cur := DefaultConditional;
    var p := pos;
    while p < |events|
      invariant RulesFrom(events, p, rules, cur, styles, theme) == RulesFrom(events, pos, [], DefaultConditional, styles, theme)
      decreases |events| - p
    {
      match events[p] {
        case Empty(name, attrs) =>
          if name == "cfRule" {
            var c := ReadRuleAttributes(cur, attrs, styles);
            if c.Err? {
              return Err(c.error);
            }
            rules := rules + [c.value];
            cur := DefaultConditional;
          }
          p := p + 1;
        case Start(name, attrs) =>
          if name == "cfRule" {
            var c := ReadRuleAttributes(cur, attrs, styles);
            if c.Err? {
              return Err(c.error);
            }
            cur := c.value;
            p := p + 1;
          } else if IsScaleName(name) {
            var read := GetCfvo(events, p + 1, theme);
            if read.Err? {
              return Err(read.error);
            }
            cur := cur.(dataType := name, cfvoCollection := read.value.0);
            p := read.value.1;
          } else {
            p := p + 1;
          }
        case End(name) =>
          if name == "conditionalFormatting" {
            return Ok((rules, p + 1));
          } else if name == "cfRule" {
            rules := rules + [cur];
            cur := DefaultConditional;
          }
          p := p + 1;
        case Eof =>
          return Err(MissingEndTag("conditionalFormatting"));
        case Text(_) =>
          p := p + 1;
      }
    }
    return Err(MissingEndTag("conditionalFormatting"));
  }

  // ---------------------------------------------------------------------------------------
  // Reading well-laid-out lists and rules back

  /** The fields of a run of self-closing `cfvo` elements. */
  function CfvoFieldsOf(attrs: seq<seq<Attribute>>): (r: seq<(string, Option<string>)>)
    ensures |r| == |attrs|
    ensures forall i :: 0 <= i < |attrs| ==> r[i] == CfvoFields(attrs[i])
  {
    seq(|attrs|, i requires 0 <= i < |attrs| => CfvoFields(attrs[i]))
  }

  /** The entries of a run of colours whose first one is the `offset`-th colour of the list:
      each takes the type and value of the value object with its own index. */
  function Paired(fields: seq<(string, Option<string>)>, offset: nat, colors: seq<seq<Attribute>>, theme: Theme)
    : (r: seq<CfvoEntry>)
    requires offset + |colors| <= |fields|
    ensures |r| == |colors|
    ensures forall k :: 0 <= k < |colors| ==>
              r[k] == CfvoEntry(fields[offset + k].0, fields[offset + k].1, Some(ThemedColor(colors[k], theme)))
  {
    seq(|colors|, k requires 0 <= k < |colors| =>
      CfvoEntry(fields[offset + k].0, fields[offset + k].1, Some(ThemedColor(colors[k], theme))))
  }

  /** A value-object list as written: the start tag, the `cfvo` elements, the `color` elements
      and the end tag. */
  function ScaleEvents(name: string, cfvos: seq<seq<Attribute>>, colors: seq<seq<Attribute>>): (r: seq<Event>)
    ensures |r| == |cfvos| + |colors| + 2
  {
    [Start(name, [])] + EmptyElements("cfvo", cfvos) + EmptyElements("color", colors) + [End(name)]
  }

  /** What `get_cfvo` makes of such a list: one entry per colour, the k-th colour with the k-th
      value object; extra value objects are dropped, and a colour without its value object fails. */
  function PairCfvos(cfvos: seq<seq<Attribute>>, colors: seq<seq<Attribute>>, theme: Theme): (r: Result<seq<CfvoEntry>>)
    ensures r.Err? <==> |colors| > |cfvos|
    ensures r.Err? ==> r.error == MissingCfvo(|cfvos|)
    ensures r.Ok? ==> |r.value| == |colors| &&
                      forall k :: 0 <= k < |colors| ==> r.value[k].kind == CfvoFields(cfvos[k]).0 &&
                                                        r.value[k].value == CfvoFields(cfvos[k]).1 &&
                                                        r.value[k].color == Some(ThemedColor(colors[k], theme))
  {
    if |colors| > |cfvos| then Err(MissingCfvo(|cfvos|)) else Ok(Paired(CfvoFieldsOf(cfvos), 0, colors, theme))
  }

  /** Appending one more element then a run is appending the run's head-extended form. */
  lemma AppendCons<T>(xs: seq<T>, x: T, ys: seq<T>)
    ensures xs + [x] + ys == xs + ([x] + ys)
  {
  }

  /** One `cfvo` element appends its fields. */
  lemma CfvoStep(events: seq<Event>, p: nat, a: seq<Attribute>, cfvos: seq<(string, Option<string>)>,
                 result: seq<CfvoEntry>, theme: Theme)
    requires p < |events| && events[p] == Empty("cfvo", a)
    ensures CfvoFrom(events, p, cfvos, result, theme) == CfvoFrom(events, p + 1, cfvos + [CfvoFields(a)], result, theme)
  {
  }

  /** A run of `cfvo` elements appends their fields. */
  lemma {:induction false} CfvoRun(events: seq<Event>, p: nat, attrs: seq<seq<Attribute>>,
                                   cfvos: seq<(string, Option<string>)>, result: seq<CfvoEntry>, theme: Theme)
    requires ElementsAt(events, p, "cfvo", attrs)
    ensures CfvoFrom(events, p, cfvos, result, theme) ==
            CfvoFrom(events, p + |attrs|, cfvos + CfvoFieldsOf(attrs), result, theme)
    decreases |attrs|
  {
    if attrs == [] {
      assert cfvos + CfvoFieldsOf(attrs) == cfvos;
    } else {
      ElementsAtTail(events, p, "cfvo", attrs);
      CfvoStep(events, p, attrs[0], cfvos, result, theme);
      CfvoRun(events, p + 1, attrs[1..], cfvos + [CfvoFields(attrs[0])], result, theme);
      AppendCons(cfvos, CfvoFields(attrs[0]), CfvoFieldsOf(attrs[1..]));
      assert [CfvoFields(attrs[0])] + CfvoFieldsOf(attrs[1..]) == CfvoFieldsOf(attrs);
    }
  }

  /** One `color` element takes the value object with its own index, or fails without one. */
  lemma ColorStep(events: seq<Event>, p: nat, a: seq<Attribute>, cfvos: seq<(string, Option<string>)>,
                  result: seq<CfvoEntry>, theme: Theme)
    requires p < |events| && events[p] == Empty("color", a)
    ensures |result| >= |cfvos| ==> CfvoFrom(events, p, cfvos, result, theme) == Err(MissingCfvo(|result|))
    ensures |result| < |cfvos| ==>
              CfvoFrom(events, p, cfvos, result, theme) ==
              CfvoFrom(events, p + 1, cfvos,
                       result + [CfvoEntry(cfvos[|result|].0, cfvos[|result|].1, Some(ThemedColor(a, theme)))], theme)
  {
  }

  /** A run of `color` elements, the first of which is the `|result|`-th colour: each takes its
      value object, or the run fails at the first colour without one. */
  lemma {:induction false} ColorRun(events: seq<Event>, p: nat, attrs: seq<seq<Attribute>>,
                                    cfvos: seq<(string, Option<string>)>, result: seq<CfvoEntry>, theme: Theme)
    requires ElementsAt(events, p, "color", attrs)
    requires |result| <= |cfvos|
    ensures |result| + |attrs| <= |cfvos| ==>
              CfvoFrom(events, p, cfvos, result, theme) ==
              CfvoFrom(events, p + |attrs|, cfvos, result + Paired(cfvos, |result|, attrs, theme), theme)
    ensures |result| + |attrs| > |cfvos| ==>
              CfvoFrom(events, p, cfvos, result, theme) == Err(MissingCfvo(|cfvos|))
    decreases |attrs|
  {
    if attrs == [] {
      assert result + Paired(cfvos, |result|, attrs, theme) == result;
    } else {
      ElementsAtTail(events, p, "color", attrs);
      ColorStep(events, p, attrs[0], cfvos, result, theme);
      if |result| < |cfvos| {
        var entry := CfvoEntry(cfvos[|result|].0, cfvos[|result|].1, Some(ThemedColor(attrs[0], theme)));
        ColorRun(events, p + 1, attrs[1..], cfvos, result + [entry], theme);
        if |result| + |attrs| <= |cfvos| {
          AppendCons(result, entry, Paired(cfvos, |result| + 1, attrs[1..], theme));
          assert [entry] + Paired(cfvos, |result| + 1, attrs[1..], theme) == Paired(cfvos, |result|, attrs, theme);
        }
      }
    }
  }

  /** A list laid out as `ScaleEvents` lays it out, its start tag just before position `p`. */
  predicate ScaleAt(events: seq<Event>, p: nat, name: string, cfvos: seq<seq<Attribute>>, colors: seq<seq<Attribute>>)
  {
    ElementsAt(events, p, "cfvo", cfvos) && ElementsAt(events, p + |cfvos|, "color", colors) &&
    p + |cfvos| + |colors| < |events| && events[p + |cfvos| + |colors|] == End(name)
  }

  /** The reader walks a laid-out list run by run. */
  lemma ReadScaleAt(events: seq<Event>, p: nat, name: string, cfvos: seq<seq<Attribute>>, colors: seq<seq<Attribute>>, theme: Theme)
    requires IsScaleName(name) && ScaleAt(events, p, name, cfvos, colors)
    ensures CfvoFrom(events, p, [], [], theme) ==
            match PairCfvos(cfvos, colors, theme)
            case Ok(entries) => Ok((entries, p + |cfvos| + |colors| + 1))
            case Err(e) => Err(e)
  {
    var n, m := |cfvos|, |colors|;
    CfvoRun(events, p, cfvos, [], [], theme);
    assert [] + CfvoFieldsOf(cfvos) == CfvoFieldsOf(cfvos);
    ColorRun(events, p + n, colors, CfvoFieldsOf(cfvos), [], theme);
    if m <= n {
      assert [] + Paired(CfvoFieldsOf(cfvos), 0, colors, theme) == Paired(CfvoFieldsOf(cfvos), 0, colors, theme);
    }
  }

  /** Reading back a written list gives `PairCfvos`, and stops right after the list's end tag. */
  lemma ReadScale(name: string, cfvos: seq<seq<Attribute>>, colors: seq<seq<Attribute>>, rest: seq<Event>, theme: Theme)
    requires IsScaleName(name)
    ensures var es := ScaleEvents(name, cfvos, colors);
            CfvoFrom(es + rest, 1, [], [], theme) ==
            match PairCfvos(cfvos, colors, theme)
            case Ok(entries) => Ok((entries, |es|))
            case Err(e) => Err(e)
  {
    var w := ScaleEvents(name, cfvos, colors);
    assert (w + rest)[0..|w|] == w;
    LaidOutScale(w + rest, 0, name, cfvos, colors);
    ReadScaleAt(w + rest, 1, name, cfvos, colors, theme);
  }

  /** An `iconSet` (or any list) without colours reads as an empty list, however many value
      objects it has. */
  lemma NoColorsNoEntries(name: string, cfvos: seq<seq<Attribute>>, rest: seq<Event>, theme: Theme)
    requires IsScaleName(name)
    ensures CfvoFrom(ScaleEvents(name, cfvos, []) + rest, 1, [], [], theme) == Ok(([], |cfvos| + 2))
  {
    ReadScale(name, cfvos, [], rest, theme);
  }

  /** A value-object list as a rule's child. */
  datatype ScaleXml = ScaleXml(name: string, cfvos: seq<seq<Attribute>>, colors: seq<seq<Attribute>>)

  /** A `cfRule` as written: self-closing when it has no list, otherwise started, holding its
      list, and ended. */
  datatype RuleXml = RuleXml(attrs: seq<Attribute>, scale: Option<ScaleXml>)

  predicate WellNamed(r: RuleXml)
  {
    r.scale.Some? ==> IsScaleName(r.scale.value.name)
  }

  function RuleEvents(r: RuleXml): (es: seq<Event>)
    ensures |es| >= 1
  {
    match r.scale
    case None => [Empty("cfRule", r.attrs)]
    case Some(sc) => [Start("cfRule", r.attrs)] + ScaleEvents(sc.name, sc.cfvos, sc.colors) + [End("cfRule")]
  }

  function RulesEvents(rs: seq<RuleXml>): seq<Event>
    decreases |rs|
  {
    if rs == [] then [] else RuleEvents(rs[0]) + RulesEvents(rs[1..])
  }

  /** The rule a written `cfRule` stands for: its own attributes applied to the default rule,
      then its list, if any. */
  function RuleOf(r: RuleXml, styles: Stylesheet, theme: Theme): Result<Conditional>
  {
    match ApplyRuleAttributes(DefaultConditional, r.attrs, styles)
    case Err(e) => Err(e)
    case Ok(c) =>
      match r.scale
      case None => Ok(c)
      case Some(sc) =>
        match PairCfvos(sc.cfvos, sc.colors, theme)
        case Err(e) => Err(e)
        case Ok(entries) => Ok(c.(dataType := sc.name, cfvoCollection := entries))
  }

  /** The rules of a run of written `cfRule` elements, or the failure of the first one that fails. */
  function RulesOf(rs: seq<RuleXml>, styles: Stylesheet, theme: Theme): Result<seq<Conditional>>
    decreases |rs|
  {
    if rs == [] then Ok([])
    else
      match RuleOf(rs[0], styles, theme)
      case Err(e) => Err(e)
      case Ok(c) =>
        match RulesOf(rs[1..], styles, theme)
        case Err(e) => Err(e)
        case Ok(cs) => Ok([c] + cs)
  }

  /** The rules come out one per `cfRule`, in document order, the i-th built from the i-th
      `cfRule` alone. */
  lemma {:induction false} RulesOfInOrder(rs: seq<RuleXml>, styles: Stylesheet, theme: Theme)
    ensures var r := RulesOf(rs, styles, theme);
            r.Ok? ==> |r.value| == |rs| && forall i :: 0 <= i < |rs| ==> RuleOf(rs[i], styles, theme) == Ok(r.value[i])
    decreases |rs|
  {
    if rs != [] && RuleOf(rs[0], styles, theme).Ok? && RulesOf(rs[1..], styles, theme).Ok? {
      RulesOfInOrder(rs[1..], styles, theme);
      var c := RuleOf(rs[0], styles, theme).value;
      var cs := RulesOf(rs[1..], styles, theme).value;
      assert RulesOf(rs, styles, theme) == Ok([c] + cs);
      forall i | 0 < i < |rs| ensures RuleOf(rs[i], styles, theme) == Ok(([c] + cs)[i]) {
        assert rs[i] == rs[1..][i - 1];
      }
    }
  }

  /** A failure is that of the first `cfRule` that fails. */
  lemma {:induction false} RulesOfFirstFailure(rs: seq<RuleXml>, styles: Stylesheet, theme: Theme)
    ensures var r := RulesOf(rs, styles, theme);
            r.Err? ==> exists i :: 0 <= i < |rs| && RuleOf(rs[i], styles, theme) == Err(r.error) &&
                                   forall j :: 0 <= j < i ==> RuleOf(rs[j], styles, theme).Ok?
    decreases |rs|
  {
    if rs != [] && RuleOf(rs[0], styles, theme).Ok? {
      RulesOfFirstFailure(rs[1..], styles, theme);
      var rest := RulesOf(rs[1..], styles, theme);
      if rest.Err? {
        var i :| 0 <= i < |rs[1..]| && RuleOf(rs[1..][i], styles, theme) == Err(rest.error) &&
                 forall j :: 0 <= j < i ==> RuleOf(rs[1..][j], styles, theme).Ok?;
        assert RuleOf(rs[i + 1], styles, theme) == Err(rest.error);
        forall j | 0 <= j < i + 1 ensures RuleOf(rs[j], styles, theme).Ok? {
          if j > 0 { assert rs[j] == rs[1..][j - 1]; }
        }
      }
    }
  }

  /** A written `cfRule` found at position `p`, element by element. */
  predicate RuleAt(events: seq<Event>, p: nat, r: RuleXml)
  {
    match r.scale
    case None => p < |events| && events[p] == Empty("cfRule", r.attrs)
    case Some(sc) =>
      p + 1 < |events| && events[p] == Start("cfRule", r.attrs) && events[p + 1] == Start(sc.name, []) &&
      ScaleAt(events, p + 2, sc.name, sc.cfvos, sc.colors) &&
      p + 3 + |sc.cfvos| + |sc.colors| < |events| && events[p + 3 + |sc.cfvos| + |sc.colors|] == End("cfRule")
  }

  /** The events of a written list, found at position `p`, lay it out element by element. */
  lemma LaidOutScale(events: seq<Event>, p: nat, name: string, cfvos: seq<seq<Attribute>>, colors: seq<seq<Attribute>>)
    requires var w := ScaleEvents(name, cfvos, colors); p + |w| <= |events| && events[p..p + |w|] == w
    ensures events[p] == Start(name, []) && ScaleAt(events, p + 1, name, cfvos, colors)
  {
    var w := ScaleEvents(name, cfvos, colors);
    var n, m := |cfvos|, |colors|;
    assert events[p] == events[p..p + |w|][0];
    forall k | 0 <= k < n ensures events[p + 1 + k] == Empty("cfvo", cfvos[k]) {
      assert events[p + 1 + k] == events[p..p + |w|][1 + k] == EmptyElements("cfvo", cfvos)[k];
    }
    forall k | 0 <= k < m ensures events[p + 1 + n + k] == Empty("color", colors[k]) {
      assert events[p + 1 + n + k] == events[p..p + |w|][1 + n + k] == EmptyElements("color", colors)[k];
    }
    assert events[p + 1 + n + m] == events[p..p + |w|][1 + n + m];
  }

  /** The events of a written `cfRule`, found at position `p`, lay it out element by element. */
  lemma LaidOutRule(events: seq<Event>, p: nat, r: RuleXml)
    requires p + |RuleEvents(r)| <= |events| && events[p..p + |RuleEvents(r)|] == RuleEvents(r)
    ensures RuleAt(events, p, r)
    ensures r.scale.Some? ==> |RuleEvents(r)| == |r.scale.value.cfvos| + |r.scale.value.colors| + 4
  {
    var w := RuleEvents(r);
    if r.scale.Some? {
      var sc := r.scale.value;
      var body := ScaleEvents(sc.name, sc.cfvos, sc.colors);
      Framed(events, p, Start("cfRule", r.attrs), body, End("cfRule"));
      LaidOutScale(events, p + 1, sc.name, sc.cfvos, sc.colors);
    } else {
      assert events[p] == events[p..p + |w|][0];
    }
  }

  /** An element found at `p`: its start, its body right after it, its end right after that. */
  lemma Framed<T>(events: seq<T>, p: nat, open: T, body: seq<T>, close: T)
    requires p + |body| + 2 <= |events| && events[p..p + |body| + 2] == [open] + body + [close]
    ensures events[p] == open && events[p + 1 + |body|] == close
    ensures events[p + 1..p + 1 + |body|] == body
  {
    var w := [open] + body + [close];
    assert events[p] == w[0];
    assert events[p + 1 + |body|] == w[1 + |body|];
    forall k | 0 <= k < |body| ensures events[p + 1 + k] == body[k] {
      assert events[p + 1 + k] == w[1 + k];
    }
  }

  /** The reader walks a laid-out list inside the rule being built. */
  lemma ScaleStep(events: seq<Event>, p: nat, name: string, cfvos: seq<seq<Attribute>>, colors: seq<seq<Attribute>>,
                  rules: seq<Conditional>, cur: Conditional, styles: Stylesheet, theme: Theme)
    requires IsScaleName(name) && p < |events| && events[p] == Start(name, []) && ScaleAt(events, p + 1, name, cfvos, colors)
    ensures RulesFrom(events, p, rules, cur, styles, theme) ==
            match PairCfvos(cfvos, colors, theme)
            case Err(e) => Err(e)
            case Ok(entries) =>
              RulesFrom(events, p + |cfvos| + |colors| + 2, rules, cur.(dataType := name, cfvoCollection := entries), styles, theme)
  {
    ReadScaleAt(events, p + 1, name, cfvos, colors, theme);
  }

  /** The reader walks one started `cfRule` holding a list. */
  lemma ReadStartedRule(events: seq<Event>, p: nat, r: RuleXml, rules: seq<Conditional>, styles: Stylesheet, theme: Theme)
    requires WellNamed(r) && r.scale.Some? && RuleAt(events, p, r)
    ensures RulesFrom(events, p, rules, DefaultConditional, styles, theme) ==
            match RuleOf(r, styles, theme)
            case Err(e) => Err(e)
            case Ok(c) =>
              RulesFrom(events, p + |r.scale.value.cfvos| + |r.scale.value.colors| + 4, rules + [c], DefaultConditional, styles, theme)
  {
    var sc := r.scale.value;
    var q := p + 3 + |sc.cfvos| + |sc.colors|;
    var a := ApplyRuleAttributes(DefaultConditional, r.attrs, styles);
    if a.Ok? {
      assert RulesFrom(events, p, rules, DefaultConditional, styles, theme) ==
             RulesFrom(events, p + 1, rules, a.value, styles, theme);
      ScaleStep(events, p + 1, sc.name, sc.cfvos, sc.colors, rules, a.value, styles, theme);
      var pc := PairCfvos(sc.cfvos, sc.colors, theme);
      if pc.Ok? {
        var c := a.value.(dataType := sc.name, cfvoCollection := pc.value);
        assert RulesFrom(events, q, rules, c, styles, theme) ==
               RulesFrom(events, q + 1, rules + [c], DefaultConditional, styles, theme);
      }
    }
  }

  /** The reader walks one written `cfRule`: it pushes that rule, built from the default, or fails
      as the rule does. */
  lemma ReadRule(events: seq<Event>, p: nat, r: RuleXml, rules: seq<Conditional>, styles: Stylesheet, theme: Theme)
    requires WellNamed(r)
    requires p + |RuleEvents(r)| <= |events| && events[p..p + |RuleEvents(r)|] == RuleEvents(r)
    ensures RuleOf(r, styles, theme).Err? ==>
              RulesFrom(events, p, rules, DefaultConditional, styles, theme) == Err(RuleOf(r, styles, theme).error)
    ensures RuleOf(r, styles, theme).Ok? ==>
              RulesFrom(events, p, rules, DefaultConditional, styles, theme) ==
              RulesFrom(events, p + |RuleEvents(r)|, rules + [RuleOf(r, styles, theme).value], DefaultConditional, styles, theme)
  {
    LaidOutRule(events, p, r);
    if r.scale.Some? {
      ReadStartedRule(events, p, r, rules, styles, theme);
    }
  }

  /** The events of a run of rules are those of its first rule, then those of the others. */
  lemma RulesEventsCons(rs: seq<RuleXml>)
    requires rs != []
    ensures RulesEvents(rs) == RuleEvents(rs[0]) + RulesEvents(rs[1..])
  {
  }

  /** What the reader returns after a run of rules that reads as `r`, starting from `rules`. */
  function AfterRun(r: Result<seq<Conditional>>, rules: seq<Conditional>, q: nat): Result<(seq<Conditional>, nat)>
  {
    match r
    case Err(e) => Err(e)
    case Ok(cs) => Ok((rules + cs, q))
  }

  /** Reading a run of rules is reading its first rule, then the others after it. */
  lemma AfterRunCons(rs: seq<RuleXml>, rules: seq<Conditional>, q: nat, styles: Stylesheet, theme: Theme)
    requires rs != []
    ensures RuleOf(rs[0], styles, theme).Err? ==>
              AfterRun(RulesOf(rs, styles, theme), rules, q) == Err(RuleOf(rs[0], styles, theme).error)
    ensures RuleOf(rs[0], styles, theme).Ok? ==>
              AfterRun(RulesOf(rs, styles, theme), rules, q) ==
              AfterRun(RulesOf(rs[1..], styles, theme), rules + [RuleOf(rs[0], styles, theme).value], q)
  {
    var c := RuleOf(rs[0], styles, theme);
    var rest := RulesOf(rs[1..], styles, theme);
    if c.Ok? && rest.Ok? {
      assert rules + [c.value] + rest.value == rules + ([c.value] + rest.value);
    }
  }

  /** The end tag of the formatting ends the read with the rules gathered so far. */
  lemma ReadRunEnd(events: seq<Event>, p: nat, rules: seq<Conditional>, styles: Stylesheet, theme: Theme)
    requires p < |events| && events[p] == End("conditionalFormatting")
    ensures RulesFrom(events, p, rules, DefaultConditional, styles, theme) == Ok((rules, p + 1))
  {
  }

  /** The number of events a run of written rules takes. */
  function RunLength(rs: seq<RuleXml>): nat
    decreases |rs|
  {
    if rs == [] then 0 else |RuleEvents(rs[0])| + RunLength(rs[1..])
  }

  /** A run of written rules found at position `p`, rule by rule, then `</conditionalFormatting>`. */
  predicate RulesAt(events: seq<Event>, p: nat, rs: seq<RuleXml>)
    decreases |rs|
  {
    if rs == [] then p < |events| && events[p] == End("conditionalFormatting")
    else
      var n := |RuleEvents(rs[0])|;
      WellNamed(rs[0]) && p + n <= |events| && events[p..p + n] == RuleEvents(rs[0]) && RulesAt(events, p + n, rs[1..])
  }

  /** A part of a concatenation, between a prefix and a tail, starts right after the prefix. */
  lemma ConsLayout<T>(prefix: seq<T>, whole: seq<T>, w: seq<T>, more: seq<T>, tail: seq<T>)
    requires whole == w + more
    ensures prefix + whole + tail == (prefix + w) + more + tail
    ensures (prefix + whole + tail)[|prefix|..|prefix| + |w|] == w
    ensures |whole| == |w| + |more|
  {
    assert prefix + whole + tail == prefix + w + (more + tail);
  }

  /** Regrouping a concatenation behind an empty prefix. */
  lemma Regroup<T>(a: seq<T>, b: seq<T>, c: seq<T>)
    ensures [] + a + (b + c) == a + b + c
  {
  }

  /** The first rule of a run laid out after a prefix, with the others laid out after it. */
  lemma LaidOutRunCons(prefix: seq<Event>, rs: seq<RuleXml>, tail: seq<Event>)
    requires rs != [] && WellNamed(rs[0])
    requires var w := RuleEvents(rs[0]);
             RulesAt((prefix + w) + RulesEvents(rs[1..]) + tail, |prefix + w|, rs[1..]) &&
             RunLength(rs[1..]) == |RulesEvents(rs[1..])|
    ensures RulesAt(prefix + RulesEvents(rs) + tail, |prefix|, rs)
    ensures RunLength(rs) == |RulesEvents(rs)|
  {
    RulesEventsCons(rs);
    ConsLayout(prefix, RulesEvents(rs), RuleEvents(rs[0]), RulesEvents(rs[1..]), tail);
  }

  /** The events of a written run, between any prefix and the end tag, lay it out rule by rule. */
  lemma {:induction false} LaidOutRun(prefix: seq<Event>, rs: seq<RuleXml>, tail: seq<Event>)
    requires forall i :: 0 <= i < |rs| ==> WellNamed(rs[i])
    requires |tail| > 0 && tail[0] == End("conditionalFormatting")
    ensures RulesAt(prefix + RulesEvents(rs) + tail, |prefix|, rs)
    ensures RunLength(rs) == |RulesEvents(rs)|
    decreases |rs|
  {
    if rs == [] {
      assert (prefix + [] + tail)[|prefix|] == tail[0];
    } else {
      assert forall i :: 0 <= i < |rs[1..]| ==> WellNamed(rs[1..][i]);
      LaidOutRun(prefix + RuleEvents(rs[0]), rs[1..], tail);
      LaidOutRunCons(prefix, rs, tail);
    }
  }

  /** The reader walks the first rule of a run, then goes on as it does from the second. */
  lemma ReadRuleRunCons(events: seq<Event>, p: nat, rs: seq<RuleXml>, rules: seq<Conditional>, q: nat,
                        styles: Stylesheet, theme: Theme)
    requires rs != [] && WellNamed(rs[0])
    requires p + |RuleEvents(rs[0])| <= |events| && events[p..p + |RuleEvents(rs[0])|] == RuleEvents(rs[0])
    requires var c := RuleOf(rs[0], styles, theme);
             c.Ok? ==>
               RulesFrom(events, p + |RuleEvents(rs[0])|, rules + [c.value], DefaultConditional, styles, theme) ==
               AfterRun(RulesOf(rs[1..], styles, theme), rules + [c.value], q)
    ensures RulesFrom(events, p, rules, DefaultConditional, styles, theme) ==
            AfterRun(RulesOf(rs, styles, theme), rules, q)
  {
    ReadRule(events, p, rs[0], rules, styles, theme);
    AfterRunCons(rs, rules, q, styles, theme);
  }

  /** The reader walks a run of written `cfRule` elements up to `</conditionalFormatting>`,
      which it leaves at `q`. */
  lemma {:induction false} ReadRuleRun(events: seq<Event>, p: nat, rs: seq<RuleXml>, rules: seq<Conditional>, q: nat,
                                       styles: Stylesheet, theme: Theme)
    requires RulesAt(events, p, rs) && q == p + RunLength(rs) + 1
    ensures RulesFrom(events, p, rules, DefaultConditional, styles, theme) ==
            AfterRun(RulesOf(rs, styles, theme), rules, q)
    decreases |rs|
  {
    if rs == [] {
      ReadRunEnd(events, p, rules, styles, theme);
      assert rules + [] == rules;
    } else {
      var c := RuleOf(rs[0], styles, theme);
      if c.Ok? {
        ReadRuleRun(events, p + |RuleEvents(rs[0])|, rs[1..], rules + [c.value], q, styles, theme);
      }
      ReadRuleRunCons(events, p, rs, rules, q, styles, theme);
    }
  }

  /** Reading back a written `conditionalFormatting` body gives its rules in document order,
      each built only from its own `cfRule`, or the failure of the first rule that fails. */
  lemma ReadFormatting(rs: seq<RuleXml>, rest: seq<Event>, styles: Stylesheet, theme: Theme)
    requires forall i :: 0 <= i < |rs| ==> WellNamed(rs[i])
    ensures var es := RulesEvents(rs) + [End("conditionalFormatting")] + rest;
            RulesFrom(es, 0, [], DefaultConditional, styles, theme) ==
            AfterRun(RulesOf(rs, styles, theme), [], |RulesEvents(rs)| + 1)
  {
    var es := RulesEvents(rs) + [End("conditionalFormatting")] + rest;
    LaidOutRun([], rs, [End("conditionalFormatting")] + rest);
    Regroup(RulesEvents(rs), [End("conditionalFormatting")], rest);
    ReadRuleRun(es, 0, rs, [], |RulesEvents(rs)| + 1, styles, theme);
  }

  // ---------------------------------------------------------------------------------------
  // Consequences for single attributes and for rule order

  /** One attribute alone is applied as `ApplyRuleAttribute` applies it. */
  lemma ApplySingle(c: Conditional, a: Attribute, styles: Stylesheet)
    ensures ApplyRuleAttributes(c, [a], styles) == ApplyRuleAttribute(c, a, styles)
  {
    assert [a][..0] == [];
  }

  /** A `dxfId` that is a decimal number is resolved at once to that differential format. */
  lemma DxfIdResolved(c: Conditional, n: nat, styles: Stylesheet)
    requires n < USIZE_LIMIT
    ensures ApplyRuleAttributes(c, [Attribute("dxfId", NatToDecimal(n))], styles) ==
            Ok(c.(style := Some(DifferentialStyle(styles, n))))
  {
    ApplySingle(c, Attribute("dxfId", NatToDecimal(n)), styles);
    ParseUnsignedOfDecimal(n, USIZE_LIMIT);
  }

  /** A numeric attribute (`dxfId`, `priority`, `percent`, `bottom`, `rank`) whose text is not a
      `usize` fails the whole `cfRule`, whatever follows it, once the attributes before it applied. */
  lemma BadNumberFails(c: Conditional, attrs: seq<Attribute>, i: nat, styles: Stylesheet)
    requires i < |attrs| && attrs[i].key in {"dxfId", "priority", "percent", "bottom", "rank"}
    requires ParseUnsigned(attrs[i].value, USIZE_LIMIT).None?
    requires ApplyRuleAttributes(c, attrs[..i], styles).Ok?
    ensures ApplyRuleAttributes(c, attrs, styles) == Err(InvalidNumber(attrs[i].value))
  {
    assert attrs[..i + 1][..i] == attrs[..i];
    ApplyRuleAttributesPrefixErr(c, attrs, i + 1, styles);
  }

  /** The reader stops at such a `cfRule`, self-closing or started, with that failure. */
  lemma BadNumberStopsRead(events: seq<Event>, p: nat, rules: seq<Conditional>, cur: Conditional, i: nat,
                           styles: Stylesheet, theme: Theme)
    requires p < |events| && (events[p].Empty? || events[p].Start?) && events[p].name == "cfRule"
    requires var attrs := events[p].attrs;
             i < |attrs| && attrs[i].key in {"dxfId", "priority", "percent", "bottom", "rank"} &&
             ParseUnsigned(attrs[i].value, USIZE_LIMIT).None? &&
             ApplyRuleAttributes(cur, attrs[..i], styles).Ok?
    ensures RulesFrom(events, p, rules, cur, styles, theme) == Err(InvalidNumber(events[p].attrs[i].value))
  {
    BadNumberFails(cur, events[p].attrs, i, styles);
  }

  /** Self-closing rules that each carry only a decimal priority. */
  function PriorityRules(ps: seq<nat>): (r: seq<RuleXml>)
    ensures |r| == |ps|
    ensures forall i :: 0 <= i < |ps| ==> r[i] == RuleXml([Attribute("priority", NatToDecimal(ps[i]))], None)
  {
    seq(|ps|, i requires 0 <= i < |ps| => RuleXml([Attribute("priority", NatToDecimal(ps[i]))], None))
  }

  /** A `cfRule` carrying only a decimal priority is the default rule with that priority. */
  lemma PriorityRuleOf(n: nat, styles: Stylesheet, theme: Theme)
    requires n < USIZE_LIMIT
    ensures RuleOf(RuleXml([Attribute("priority", NatToDecimal(n))], None), styles, theme) ==
            Ok(DefaultConditional.(priority := n))
  {
    ApplySingle(DefaultConditional, Attribute("priority", NatToDecimal(n)), styles);
    ParseUnsignedOfDecimal(n, USIZE_LIMIT);
  }

  /** The default rule once per priority, in the given order. */
  function Prioritised(ps: seq<nat>): (r: seq<Conditional>)
    ensures |r| == |ps|
    ensures forall i :: 0 <= i < |ps| ==> r[i] == DefaultConditional.(priority := ps[i])
  {
    seq(|ps|, i requires 0 <= i < |ps| => DefaultConditional.(priority := ps[i]))
  }

  /** Rules carrying only priorities build the default rule once per priority, in order. */
  lemma {:induction false} PriorityRulesOf(ps: seq<nat>, styles: Stylesheet, theme: Theme)
    requires forall i :: 0 <= i < |ps| ==> ps[i] < USIZE_LIMIT
    ensures RulesOf(PriorityRules(ps), styles, theme) == Ok(Prioritised(ps))
    decreases |ps|
  {
    if ps != [] {
      var rs := PriorityRules(ps);
      PriorityRuleOf(ps[0], styles, theme);
      assert rs[1..] == PriorityRules(ps[1..]);
      PriorityRulesOf(ps[1..], styles, theme);
      assert Prioritised(ps) == [DefaultConditional.(priority := ps[0])] + Prioritised(ps[1..]);
    }
  }

  /** The rules come back in document order with their own priorities: the reader does not sort
      them by priority. */
  lemma PrioritiesKeepDocumentOrder(ps: seq<nat>, rest: seq<Event>, styles: Stylesheet, theme: Theme)
    requires forall i :: 0 <= i < |ps| ==> ps[i] < USIZE_LIMIT
    ensures var r := RulesFrom(RulesEvents(PriorityRules(ps)) + [End("conditionalFormatting")] + rest, 0, [],
                               DefaultConditional, styles, theme);
            r.Ok? && |r.value.0| == |ps| &&
            forall i :: 0 <= i < |ps| ==> r.value.0[i] == DefaultConditional.(priority := ps[i])
  {
    var rs := PriorityRules(ps);
    PriorityRulesOf(ps, styles, theme);
    ReadFormatting(rs, rest, styles, theme);
    assert [] + Prioritised(ps) == Prioritised(ps);
  }

  /** Priorities 30, 10, 20 come back as 30, 10, 20. */
  lemma UnsortedPrioritiesExample(rest: seq<Event>, styles: Stylesheet, theme: Theme)
    ensures var r := RulesFrom(RulesEvents(PriorityRules([30, 10, 20])) + [End("conditionalFormatting")] + rest, 0, [],
                               DefaultConditional, styles, theme);
            r.Ok? && |r.value.0| == 3 &&
            r.value.0[0].priority == 30 && r.value.0[1].priority == 10 && r.value.0[2].priority == 20
  {
    PrioritiesKeepDocumentOrder([30, 10, 20], rest, styles, theme);
  }
}
