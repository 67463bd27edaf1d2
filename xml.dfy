/** The parse events of the streaming XML tokenizer, and the failures a reader can report.

    A reader of an element receives the whole event stream and the position just after the
    element's own opening tag (the caller has already matched it). It returns the position
    just after the element's own end tag. Positions at or past the end of the sequence read
    as end-of-stream, exactly like an explicit `Eof` event. */
module Xml {

  /** One attribute of an element: its qualified name and its unescaped value. */
  datatype Attribute = Attribute(key: string, value: string)

  /** A tokenizer event. `Empty` is a self-closing element. */
  datatype Event =
    | Start(name: string, attrs: seq<Attribute>)
    | Empty(name: string, attrs: seq<Attribute>)
    | Text(text: string)
    | End(name: string)
    | Eof

  datatype Option<+T> = None | Some(value: T)

  /** The explicit forms of the source's panics and unwraps. */
  datatype Error =
    | MissingEndTag(tag: string)      // end-of-stream before the owning end tag
    | MissingAttribute(key: string)   // a mandatory attribute is absent
    | InvalidNumber(text: string)     // text that does not parse as the expected integer type
    | InvalidValue(text: string)      // text rejected by a value wrapper's string parser
    | MissingCfvo(index: nat)         // the index-th colour of a scale has no index-th cfvo
    | Overflow                        // integer arithmetic outside the field's width
    | PartWriteFailed(part: string)   // an unwrapped part writer failed
    | IoFailed(step: string)          // a propagated I/O failure

  datatype Result<+T> = Ok(value: T) | Err(error: Error) {
    predicate IsFailure() { Err? }

    function PropagateFailure<U>(): Result<U>
      requires Err?
    {
      Err(error)
    }

    function Extract(): T
      requires Ok?
    {
      value
    }
  }

  /** `get_attribute`: the value of the first attribute named `key`, if any. */
  function GetAttribute(attrs: seq<Attribute>, key: string): (r: Option<string>)
    ensures r.None? <==> forall i :: 0 <= i < |attrs| ==> attrs[i].key != key
    ensures r.Some? ==> exists i :: 0 <= i < |attrs| && attrs[i] == Attribute(key, r.value) &&
                                    forall j :: 0 <= j < i ==> attrs[j].key != key
    decreases |attrs|
  {
    if attrs == [] then None
    else if attrs[0].key == key then Some(attrs[0].value)
    else
      var r := GetAttribute(attrs[1..], key);
      if r.Some? then
        ghost var i :| 0 <= i < |attrs| - 1 && attrs[1..][i] == Attribute(key, r.value) &&
                        forall j :: 0 <= j < i ==> attrs[1..][j].key != key;
        assert attrs[i + 1] == Attribute(key, r.value);
        r
      else r
  }

  /** The events of one text node as a reader sees them again: an empty text node leaves no event. */
  function TextNode(s: string): (r: seq<Event>)
    ensures s != [] ==> r == [Text(s)]
    ensures s == [] ==> r == []
  {
    if s == [] then [] else [Text(s)]
  }

  /** The white space the tokenizer trims from text: space, tab, carriage return, line feed. */
  predicate IsXmlSpace(c: char) { c == ' ' || c == '\t' || c == '\r' || c == '\n' }

  /** A text with no white space at either end. */
  predicate Trimmed(s: string) { s == [] || (!IsXmlSpace(s[0]) && !IsXmlSpace(s[|s| - 1])) }

  /** The text without its leading white space. */
  function TrimStart(s: string): (r: string)
    ensures |r| <= |s| && r == s[|s| - |r|..]
    ensures forall i :: 0 <= i < |s| - |r| ==> IsXmlSpace(s[i])
    ensures r == [] || !IsXmlSpace(r[0])
    decreases |s|
  {
    if s != [] && IsXmlSpace(s[0]) then TrimStart(s[1..]) else s
  }

  /** The text without its trailing white space. */
  function TrimEnd(s: string): (r: string)
    ensures |r| <= |s| && r == s[..|r|]
    ensures forall i :: |r| <= i < |s| ==> IsXmlSpace(s[i])
    ensures r == [] || !IsXmlSpace(r[|r| - 1])
    decreases |s|
  {
    if s != [] && IsXmlSpace(s[|s| - 1]) then TrimEnd(s[..|s| - 1]) else s
  }

  /** What the tokenizer, told to trim text, hands on of a text: the text without white space at
      either end. A text already trimmed is unchanged. */
  function Trim(s: string): (r: string)
    ensures Trimmed(r)
    ensures Trimmed(s) ==> r == s
  {
    TrimEnd(TrimStart(s))
  }

  /** What the tokenizer hands on of one written event. */
  function Token(e: Event): (r: seq<Event>)
    ensures |r| <= 1
  {
    if e.Text? then TextNode(Trim(e.text)) else [e]
  }

  /** The event stream a trimming tokenizer produces from written events: every text is trimmed,
      and a text that trims to nothing produces no event. Every other event passes unchanged. */
  function Tokenized(events: seq<Event>): (r: seq<Event>)
    ensures |r| <= |events|
    decreases |events|
  {
    if events == [] then [] else Token(events[0]) + Tokenized(events[1..])
  }

  /** Every text the tokenizer hands on is non-empty and trimmed, and every other event it hands
      on was written. */
  lemma {:induction false} TokenizedTextsTrimmed(events: seq<Event>)
    ensures forall e :: e in Tokenized(events) && e.Text? ==> e.text != [] && Trimmed(e.text)
    ensures forall e :: e in Tokenized(events) && !e.Text? ==> e in events
    decreases |events|
  {
    if events != [] {
      TokenizedTextsTrimmed(events[1..]);
      assert Tokenized(events) == Token(events[0]) + Tokenized(events[1..]);
      forall e | e in Tokenized(events) && !e.Text? ensures e in events {
        if e in Tokenized(events[1..]) {
          assert e in events[1..];
        }
      }
    }
  }

  /** Tokenizing a concatenation tokenizes each part. */
  lemma {:induction false} TokenizedAppend(a: seq<Event>, b: seq<Event>)
    ensures Tokenized(a + b) == Tokenized(a) + Tokenized(b)
    decreases |a|
  {
    if a != [] {
      assert (a + b)[0] == a[0] && (a + b)[1..] == a[1..] + b;
      TokenizedAppend(a[1..], b);
    } else {
      assert a + b == b;
    }
  }

  /** A written text node comes out of the tokenizer as the text node of its trimmed text. */
  lemma TokenizedTextNode(s: string)
    ensures Tokenized(TextNode(s)) == TextNode(Trim(s))
  {
    if s != [] {
      assert TextNode(s)[1..] == [];
    }
  }

  /** The text of the last text event of a stretch of events, or `v` when it has none. */
  function LastText(events: seq<Event>, v: Option<string>): (r: Option<string>)
    ensures v.Some? ==> r.Some?
    decreases |events|
  {
    if events == [] then v
    else if events[|events| - 1].Text? then Some(events[|events| - 1].text)
    else LastText(events[..|events| - 1], v)
  }

  /** Walking a stretch front to back, each text replacing the value, ends on its last text. */
  lemma {:induction false} LastTextFront(events: seq<Event>, v: Option<string>)
    requires events != []
    ensures LastText(events, v) == LastText(events[1..], if events[0].Text? then Some(events[0].text) else v)
    decreases |events|
  {
    var v' := if events[0].Text? then Some(events[0].text) else v;
    if |events| == 1 {
      assert events[..0] == [] && events[1..] == [];
    } else if !events[|events| - 1].Text? {
      var init := events[..|events| - 1];
      LastTextFront(init, v);
      assert init[1..] == events[1..][..|events[1..]| - 1];
    }
  }

  /** A non-empty slice is its first element followed by the rest. */
  lemma SliceFront<T>(s: seq<T>, p: nat, q: nat)
    requires p < q <= |s|
    ensures s[p..q] != [] && s[p..q][0] == s[p] && s[p..q][1..] == s[p + 1..q]
  {
  }

  /** `n` self-closing elements named `name`, the k-th carrying `attrs[k]`. */
  function EmptyElements(name: string, attrs: seq<seq<Attribute>>): (r: seq<Event>)
    ensures |r| == |attrs|
    ensures forall k :: 0 <= k < |attrs| ==> r[k] == Empty(name, attrs[k])
  {
    seq(|attrs|, k requires 0 <= k < |attrs| => Empty(name, attrs[k]))
  }

  /** The events from position `p` on begin with self-closing `name` elements, the k-th carrying
      `attrs[k]`. */
  predicate ElementsAt(events: seq<Event>, p: nat, name: string, attrs: seq<seq<Attribute>>)
  {
    p + |attrs| <= |events| && forall k :: 0 <= k < |attrs| ==> events[p + k] == Empty(name, attrs[k])
  }

  /** Past the first of such a run, the others follow. */
  lemma ElementsAtTail(events: seq<Event>, p: nat, name: string, attrs: seq<seq<Attribute>>)
    requires attrs != [] && ElementsAt(events, p, name, attrs)
    ensures events[p] == Empty(name, attrs[0]) && ElementsAt(events, p + 1, name, attrs[1..])
  {
    assert events[p + 0] == Empty(name, attrs[0]);
    forall k | 0 <= k < |attrs[1..]| ensures events[p + 1 + k] == Empty(name, attrs[1..][k]) {
      assert events[p + (k + 1)] == Empty(name, attrs[k + 1]);
    }
  }

  /** Written self-closing elements, between any prefix and any tail, lie right after the prefix. */
  lemma EmptyElementsAt(prefix: seq<Event>, name: string, attrs: seq<seq<Attribute>>, tail: seq<Event>)
    ensures ElementsAt(prefix + EmptyElements(name, attrs) + tail, |prefix|, name, attrs)
  {
    var es := prefix + EmptyElements(name, attrs) + tail;
    forall k | 0 <= k < |attrs| ensures es[|prefix| + k] == Empty(name, attrs[k]) {
      assert es[|prefix| + k] == EmptyElements(name, attrs)[k];
    }
  }

  /** Where the reader resumes after a delegated reader consumed `n` events following position `p`'s
      start tag; a reader that ran off the end leaves the stream at its end. */
  function Resume(events: seq<Event>, p: nat, n: nat): (q: nat)
    requires p < |events|
    ensures p < q <= |events|
  {
    if p + 1 + n <= |events| then p + 1 + n else |events|
  }

  /** The concatenation of a sequence of event sequences. */
  function Flatten(parts: seq<seq<Event>>): (r: seq<Event>)
    decreases |parts|
  {
    if parts == [] then [] else parts[0] + Flatten(parts[1..])
  }
}
