/** `SeriesText`: the `c:tx` element of a chart series, holding its name as the text of a
    nested `c:v`. */
module SeriesTexts {
  import opened Xml
  import StringValues

  /** The loop of `set_attributes`, from position `p` with the value read so far: the value and
      the position after `</c:tx>`. No other end tag stops it. */
  function SeriesTextFrom(events: seq<Event>, p: nat, v: Option<string>): (r: Result<(Option<string>, nat)>)
    ensures r.Ok? ==> p < r.value.1 <= |events| && events[r.value.1 - 1] == End("c:tx")
    ensures r.Ok? ==> forall i :: p <= i < r.value.1 - 1 ==> events[i] != End("c:tx") && events[i] != Eof
    ensures r.Err? ==> r.error == MissingEndTag("c:tx")
    decreases |events| - p
  {
    if p >= |events| then Err(MissingEndTag("c:tx"))
    else match events[p]
      case Text(t) => SeriesTextFrom(events, p + 1, Some(t))
      case End(name) => if name == "c:tx" then Ok((v, p + 1)) else SeriesTextFrom(events, p + 1, v)
      case Eof => Err(MissingEndTag("c:tx"))
      case Start(_, _) => SeriesTextFrom(events, p + 1, v)
      case Empty(_, _) => SeriesTextFrom(events, p + 1, v)
  }

  /** Any event other than `</c:tx>` and the end of the stream moves the read on by one, a text
      replacing the value. */
  lemma Step(events: seq<Event>, p: nat, v: Option<string>)
    requires p < |events| && events[p] != End("c:tx") && events[p] != Eof
    ensures SeriesTextFrom(events, p, v) ==
            SeriesTextFrom(events, p + 1, if events[p].Text? then Some(events[p].text) else v)
  {
  }

  /** The last text from position `p + 1` on, starting from what `events[p]` leaves, is the last
      text from `p` on. */
  lemma KeepsCons(events: seq<Event>, p: nat, q: nat, v: Option<string>, w: Option<string>)
    requires p + 1 < q <= |events|
    requires w == LastText(events[p + 1..q - 1], if events[p].Text? then Some(events[p].text) else v)
    ensures w == LastText(events[p..q - 1], v)
  {
    SliceFront(events, p, q - 1);
    LastTextFront(events[p..q - 1], v);
  }

  /** The value a successful read leaves is the last text before `</c:tx>`, or the value the
      object already held when there is none. */
  lemma {:induction false} ReadKeepsLastText(events: seq<Event>, p: nat, v: Option<string>)
    requires SeriesTextFrom(events, p, v).Ok?
    ensures var (w, q) := SeriesTextFrom(events, p, v).value;
            w == LastText(events[p..q - 1], v)
    decreases |events| - p
  {
    if events[p] != End("c:tx") {
      var v' := if events[p].Text? then Some(events[p].text) else v;
      Step(events, p, v);
      ReadKeepsLastText(events, p + 1, v');
      var (w, q) := SeriesTextFrom(events, p + 1, v').value;
      KeepsCons(events, p, q, v, w);
    }
  }

  /** `write_to`: `c:tx`, `c:v`, the value's text, `</c:v>`, `</c:tx>`. */
  function SeriesTextEvents(value: string): (r: seq<Event>)
    ensures |r| == if value == "" then 4 else 5
    ensures r[0] == Start("c:tx", []) && r[1] == Start("c:v", [])
    ensures r[|r| - 2] == End("c:v") && r[|r| - 1] == End("c:tx")
  {
    [Start("c:tx", []), Start("c:v", [])] + TextNode(value) + [End("c:v"), End("c:tx")]
  }

  /** The events `write_to` lays out for a value, met by the reader exactly as written: a
      non-empty value is set, an empty one leaves no text event, so the reading object keeps what
      it held. Either way the read stops right after `</c:tx>` and not at `</c:v>`. */
  lemma ReadLaidOut(value: string, rest: seq<Event>, held: Option<string>)
    ensures SeriesTextFrom(SeriesTextEvents(value) + rest, 1, held) ==
            Ok((if value != "" then Some(value) else held, |SeriesTextEvents(value)|))
  {
    var es := SeriesTextEvents(value) + rest;
    if value != "" {
      assert es[1] == Start("c:v", []) && es[2] == Text(value) && es[3] == End("c:v") && es[4] == End("c:tx");
      assert SeriesTextFrom(es, 3, Some(value)) == Ok((Some(value), 5));
    } else {
      assert es[1] == Start("c:v", []) && es[2] == End("c:v") && es[3] == End("c:tx");
      assert SeriesTextFrom(es, 3, held) == Ok((held, 4));
    }
  }

  /** The trimming tokenizer hands on a written `c:tx` as the events `write_to` writes for the
      trimmed value. */
  lemma TokenizedWrite(value: string)
    ensures Tokenized(SeriesTextEvents(value)) == SeriesTextEvents(Trim(value))
  {
    var open: seq<Event> := [Start("c:tx", []), Start("c:v", [])];
    var close: seq<Event> := [End("c:v"), End("c:tx")];
    assert open[1..][1..] == [] && close[1..][1..] == [];
    assert Tokenized(open) == open && Tokenized(close) == close;
    TokenizedAppend(open, TextNode(value));
    TokenizedAppend(open + TextNode(value), close);
    TokenizedTextNode(value);
  }

  /** Reading back what `write_to` wrote, through the trimming tokenizer, sets the value to its
      trimmed text. A value that trims to nothing leaves no text event, so the reading object keeps
      what it held. The read stops right after `</c:tx>`. */
  lemma ReadOfWrite(value: string, rest: seq<Event>, held: Option<string>)
    ensures var written := Tokenized(SeriesTextEvents(value));
            SeriesTextFrom(written + rest, 1, held) ==
            Ok((if Trim(value) != "" then Some(Trim(value)) else held, |written|))
  {
    TokenizedWrite(value);
    ReadLaidOut(Trim(value), rest, held);
  }

  /** A value with no white space at either end survives the round trip exactly (when non-empty). */
  lemma ReadOfWriteTrimmed(value: string, rest: seq<Event>, held: Option<string>)
    requires value != "" && Trimmed(value)
    ensures SeriesTextFrom(Tokenized(SeriesTextEvents(value)) + rest, 1, held).Ok?
    ensures SeriesTextFrom(Tokenized(SeriesTextEvents(value)) + rest, 1, held).value.0 == Some(value)
  {
    ReadOfWrite(value, rest, held);
  }

  class SeriesText {
    var value: Option<string>

    /** The derived default: unset. */
    constructor ()
      ensures value == None && GetValue() == ""
    {
      value := None;
    }

    function GetValue(): (r: string)
      reads this
      ensures r == StringValues.Get(value)
    {
      StringValues.Get(value)
    }

    method SetValue(v: string)
      modifies this
      ensures value == Some(v) && GetValue() == v
    {
      value := Some(v);
    }

    /** `set_attributes`: the event loop, started just after `<c:tx>`. */
    method SetAttributes(events: seq<Event>, pos: nat) returns (r: Result<nat>)
      modifies this
      ensures var spec := SeriesTextFrom(events, pos, old(value));
              (r.Ok? <==> spec.Ok?) &&
              (r.Ok? ==> r.value == spec.value.1 && value == spec.value.0) &&
              (r.Err? ==> r.error == spec.error)
    {
      ghost var spec := SeriesTextFrom(events, pos, value);
      var p := pos;
      while p < |events|
        invariant SeriesTextFrom(events, p, value) == spec
        decreases |events| - p
      {
        match events[p] {
          case Text(t) =>
            SetValue(t);
          case End(name) =>
            if name == "c:tx" {
              return Ok(p + 1);
            }
          case Eof =>
            return Err(MissingEndTag("c:tx"));
          case Start(_, _) =>
          case Empty(_, _) =>
        }
        p := p + 1;
      }
      return Err(MissingEndTag("c:tx"));
    }

    function WriteTo(): (r: seq<Event>)
      reads this
      ensures r == SeriesTextEvents(GetValue())
    {
      SeriesTextEvents(GetValue())
    }
  }
}
