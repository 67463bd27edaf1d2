/** `TrueFalseBlankValue`: a boolean that may also be blank (unset). */
module TrueFalseBlankValues {
  import opened Xml

  /** ASCII lower-casing of one character; every other character is left alone. */
  function AsciiLower(c: char): char {
    if 'A' <= c <= 'Z' then (c as int + 32) as char else c
  }

  /** `str::eq_ignore_ascii_case`. */
  predicate EqIgnoreAsciiCase(a: string, b: string) {
    |a| == |b| && forall i :: 0 <= i < |a| ==> AsciiLower(a[i]) == AsciiLower(b[i])
  }

  /** The boolean `set_value_string` stores for a text: false only for `f` and `false`,
      ignoring ASCII case; true for everything else. */
  function BoolFromText(s: string): bool {
    !(EqIgnoreAsciiCase(s, "f") || EqIgnoreAsciiCase(s, "false"))
  }

  /** `_get_value_str`: `t`, `f`, or the empty string when blank. */
  function ValueStr(v: Option<bool>): (r: string)
    ensures r == "t" <==> v == Some(true)
    ensures r == "f" <==> v == Some(false)
    ensures r == "" <==> v == None
  {
    match v
    case None => ""
    case Some(b) => if b then "t" else "f"
  }

  /** `get_value_string2`: `True`, `False`, or the empty string when blank. */
  function ValueString2(v: Option<bool>): (r: string)
    ensures r == "True" <==> v == Some(true)
    ensures r == "False" <==> v == Some(false)
    ensures r == "" <==> v == None
  {
    match v
    case None => ""
    case Some(b) => if b then "True" else "False"
  }

  /** `_get_hash_string`: the value string, or `empty!!` when blank. */
  function HashString(v: Option<bool>): (r: string)
    ensures v.None? ==> r == "empty!!"
    ensures v.Some? ==> r == ValueStr(v)
  {
    if v.Some? then ValueStr(v) else "empty!!"
  }

  class TrueFalseBlankValue {
    var value: Option<bool>

    /** The derived default: blank. */
    constructor ()
      ensures value == None && !HasValue() && GetValue() == None
    {
      value := None;
    }

    function GetValue(): Option<bool>
      reads this
    {
      value
    }

    function GetValueStr(): (r: string)
      reads this
      ensures r == ValueStr(value)
    {
      ValueStr(value)
    }

    function GetValueString2(): (r: string)
      reads this
      ensures r == ValueString2(value)
    {
      ValueString2(value)
    }

    function HasValue(): (r: bool)
      reads this
      ensures r <==> GetValue().Some?
    {
      value.Some?
    }

    function GetHashString(): (r: string)
      reads this
      ensures r == HashString(value)
    {
      if HasValue() then GetValueStr() else "empty!!"
    }

    method SetValue(b: bool)
      modifies this
      ensures value == Some(b) && HasValue() && GetValue() == Some(b)
    {
      value := Some(b);
    }

    method SetValueString(s: string)
      modifies this
      ensures value == Some(BoolFromText(s)) && HasValue()
    {
      SetValue(!(EqIgnoreAsciiCase(s, "f") || EqIgnoreAsciiCase(s, "false")));
    }
  }

  /** ASCII lower-casing of a whole string. */
  function LowerCase(s: string): (r: string)
    ensures |r| == |s|
    ensures forall i :: 0 <= i < |s| ==> r[i] == AsciiLower(s[i])
  {
    seq(|s|, i requires 0 <= i < |s| => AsciiLower(s[i]))
  }

  lemma EqIgnoreAsciiCaseLower(s: string, lower: string)
    requires LowerCase(lower) == lower
    ensures EqIgnoreAsciiCase(s, lower) <==> LowerCase(s) == lower
  {
    if EqIgnoreAsciiCase(s, lower) {
      assert forall i :: 0 <= i < |s| ==> LowerCase(s)[i] == lower[i] by {
        forall i | 0 <= i < |s| ensures LowerCase(s)[i] == lower[i] {
          assert AsciiLower(lower[i]) == LowerCase(lower)[i];
        }
      }
    }
    if LowerCase(s) == lower {
      forall i | 0 <= i < |s| ensures AsciiLower(s[i]) == AsciiLower(lower[i]) {
        assert AsciiLower(s[i]) == lower[i] == LowerCase(lower)[i];
      }
    }
  }

  /** The parser stores false exactly for the texts whose ASCII lower case is `f` or `false`. */
  lemma BoolFromTextFalseExactly(s: string)
    ensures !BoolFromText(s) <==> LowerCase(s) == "f" || LowerCase(s) == "false"
  {
    EqIgnoreAsciiCaseLower(s, "f");
    EqIgnoreAsciiCaseLower(s, "false");
  }

  /** `0`, the empty string and `no` all store true; `FALSE` and `F` store false. */
  lemma BoolFromTextExamples()
    ensures BoolFromText("0") && BoolFromText("") && BoolFromText("no") && BoolFromText("t")
    ensures !BoolFromText("FALSE") && !BoolFromText("F") && !BoolFromText("fAlSe")
  {
    assert AsciiLower("0"[0]) != AsciiLower("f"[0]);
    assert AsciiLower("t"[0]) != AsciiLower("f"[0]);
    assert EqIgnoreAsciiCase("FALSE", "false");
    assert EqIgnoreAsciiCase("fAlSe", "false");
    assert EqIgnoreAsciiCase("F", "f");
  }

  /** Parsing either printed form of a set value restores that value. */
  lemma PrintedValueReadsBack(b: bool)
    ensures BoolFromText(ValueStr(Some(b))) == b
    ensures BoolFromText(ValueString2(Some(b))) == b
  {
    if !b {
      assert EqIgnoreAsciiCase("False", "false");
    }
  }

  /** The hash string tells all three states apart. */
  lemma HashStringInjective(u: Option<bool>, v: Option<bool>)
    requires HashString(u) == HashString(v)
    ensures u == v
  {
  }
}
