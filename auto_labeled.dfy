/** `AutoLabeled`: the `val` of `c:auto`: whether a chart axis's labels are generated automatically. The value is held by `BooleanValue`, whose string conversions are
    not part of this model. */
module AutoLabeleds {
  import opened Xml
  import opened Numeric
  import opened Collaborators

  /** `set_attributes` on the element's own tag: the value the `val` attribute parses to. The
      attribute is mandatory and the wrapper's parser may reject its text. */
  function ValFromAttributes(attrs: seq<Attribute>): (r: Result<bool>)
    ensures GetAttribute(attrs, "val").None? ==> r == Err(MissingAttribute("val"))
    ensures GetAttribute(attrs, "val").Some? ==>
              var text := GetAttribute(attrs, "val").value;
              if BooleanFromString(text).Some? then r == Ok(BooleanFromString(text).value) else r == Err(InvalidValue(text))
  {
    match GetAttribute(attrs, "val")
    case None => Err(MissingAttribute("val"))
    case Some(text) =>
      match BooleanFromString(text)
      case None => Err(InvalidValue(text))
      case Some(v) => Ok(v)
  }

  /** `write_to`: one self-closing `c:auto` whose only attribute is `val`. */
  function ValEvents(v: bool): (r: seq<Event>)
    ensures |r| == 1 && r[0].Empty? && r[0].name == "c:auto"
    ensures |r[0].attrs| == 1 && r[0].attrs[0].key == "val"
  {
    [Empty("c:auto", [Attribute("val", BooleanToString(v))])]
  }

  /** Reading the written element gives the value back whenever the wrapper's parser accepts
      what its printer wrote for that value. */
  lemma ReadOfWrite(v: bool)
    requires BooleanFromString(BooleanToString(v)) == Some(v)
    ensures ValFromAttributes(ValEvents(v)[0].attrs) == Ok(v)
  {
  }

  /** Only the first `val` attribute matters: attributes with other names, before or after it,
      change nothing. */
  lemma OtherAttributesIgnored(before: seq<Attribute>, text: string, after: seq<Attribute>)
    requires forall i :: 0 <= i < |before| ==> before[i].key != "val"
    ensures ValFromAttributes(before + [Attribute("val", text)] + after) ==
            ValFromAttributes([Attribute("val", text)])
  {
    var attrs := before + [Attribute("val", text)] + after;
    assert attrs[|before|] == Attribute("val", text);
    assert GetAttribute(attrs, "val") == Some(text);
  }

  class AutoLabeled {
    var val: bool

    /** The derived default. */
    constructor ()
      ensures val == false
    {
      val := false;
    }

    function GetVal(): bool
      reads this
    {
      val
    }

    method SetVal(v: bool)
      modifies this
      ensures val == v && GetVal() == v
    {
      val := v;
    }

    /** `set_attributes`: it reads no event of the stream, so on success the reader stays
        where it was; on failure the value is left as it was. */
    method SetAttributes(events: seq<Event>, pos: nat, attrs: seq<Attribute>) returns (r: Result<nat>)
      modifies this
      ensures var spec := ValFromAttributes(attrs);
              (r.Ok? <==> spec.Ok?) &&
              (r.Ok? ==> r.value == pos && val == spec.value) &&
              (r.Err? ==> r.error == spec.error && val == old(val))
    {
      var text := GetAttribute(attrs, "val");
      if text.None? {
        return Err(MissingAttribute("val"));
      }
      var v := BooleanFromString(text.value);
      if v.None? {
        return Err(InvalidValue(text.value));
      }
      SetVal(v.value);
      return Ok(pos);
    }

    function WriteTo(): (r: seq<Event>)
      reads this
      ensures r == ValEvents(val)
    {
      ValEvents(val)
    }
  }
}
