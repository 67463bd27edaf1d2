/** `SupplementalFont`: the self-closing `a:font` element of a theme's font scheme, carrying a
    script name and a typeface. */
module SupplementalFonts {
  import opened Xml
  import StringValues

  /** The two string fields; `None` is a field never set. */
  datatype Font = Font(script: Option<string>, typeface: Option<string>)

  /** `set_attributes`: each attribute present replaces its field; an absent one keeps it. */
  function WithAttributes(f: Font, attrs: seq<Attribute>): (r: Font)
    ensures GetAttribute(attrs, "script").Some? ==> r.script == GetAttribute(attrs, "script")
    ensures GetAttribute(attrs, "script").None? ==> r.script == f.script
    ensures GetAttribute(attrs, "typeface").Some? ==> r.typeface == GetAttribute(attrs, "typeface")
    ensures GetAttribute(attrs, "typeface").None? ==> r.typeface == f.typeface
  {
    var s := GetAttribute(attrs, "script");
    var t := GetAttribute(attrs, "typeface");
    Font(if s.Some? then s else f.script, if t.Some? then t else f.typeface)
  }

  /** `write_to`: one self-closing `a:font` with `script` and then `typeface`. */
  function FontEvents(f: Font): (r: seq<Event>)
    ensures |r| == 1 && r[0].Empty? && r[0].name == "a:font"
    ensures |r[0].attrs| == 2 && r[0].attrs[0].key == "script" && r[0].attrs[1].key == "typeface"
  {
    [Empty("a:font", [Attribute("script", StringValues.Get(f.script)),
                      Attribute("typeface", StringValues.Get(f.typeface))])]
  }

  /** Reading the attributes of the written element into any font gives both getters back. */
  lemma ReadOfWrite(f: Font, held: Font)
    ensures var g := WithAttributes(held, FontEvents(f)[0].attrs);
            StringValues.Get(g.script) == StringValues.Get(f.script) &&
            StringValues.Get(g.typeface) == StringValues.Get(f.typeface) &&
            g.script.Some? && g.typeface.Some?
  {
    var attrs := FontEvents(f)[0].attrs;
    assert attrs[1].key != "script";
    assert GetAttribute(attrs, "script") == Some(StringValues.Get(f.script));
    assert GetAttribute(attrs, "typeface") == Some(StringValues.Get(f.typeface));
  }

  class SupplementalFont {
    var script: Option<string>
    var typeface: Option<string>

    /** The derived default: neither field set. */
    constructor ()
      ensures Value() == Font(None, None) && GetScript() == "" && GetTypeface() == ""
    {
      script, typeface := None, None;
    }

    function Value(): Font
      reads this
    {
      Font(script, typeface)
    }

    function GetScript(): (r: string)
      reads this
      ensures r == StringValues.Get(script)
    {
      StringValues.Get(script)
    }

    function GetTypeface(): (r: string)
      reads this
      ensures r == StringValues.Get(typeface)
    {
      StringValues.Get(typeface)
    }

    method SetScript(v: string)
      modifies this
      ensures Value() == old(Value()).(script := Some(v)) && GetScript() == v
    {
      script := Some(v);
    }

    method SetTypeface(v: string)
      modifies this
      ensures Value() == old(Value()).(typeface := Some(v)) && GetTypeface() == v
    {
      typeface := Some(v);
    }

    /** `set_attributes` on the element's own tag: it reads no event of the stream, so the
        reader stays where it was. */
    method SetAttributes(events: seq<Event>, pos: nat, attrs: seq<Attribute>) returns (next: nat)
      modifies this
      ensures next == pos
      ensures Value() == WithAttributes(old(Value()), attrs)
    {
      var s := GetAttribute(attrs, "script");
      if s.Some? {
        SetScript(s.value);
      }
      var t := GetAttribute(attrs, "typeface");
      if t.Some? {
        SetTypeface(t.value);
      }
      return pos;
    }

    function WriteTo(): (r: seq<Event>)
      reads this
      ensures r == FontEvents(Value())
    {
      FontEvents(Value())
    }
  }
}
