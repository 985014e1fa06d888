/**
 * A reader for the documents `Ssml.CreateSsml` produces, used as its inverse.
 *
 * Because the builder escapes nothing, a document can be read back only when the
 * pieces copied into it cannot be confused with the markup around them: the voice
 * name and the setting values contain no double quote, and a text sent without
 * prosody does not itself start like a `<prosody` element. Under these
 * conditions the builder is injective and the reader recovers its inputs; when
 * they fail, some documents have more than one source (see
 * `NoEscapingIsAmbiguous`).
 */
module SsmlReader {
  import opened Wrappers
  import opened Text
  import opened Ssml

  /** What a document says: the voice, the prosody attributes in document order,
      and the text. */
  datatype Document = Document(voiceName: string, attributes: seq<Attribute>, text: string)

  /** The text that opens an attribute of the given name: `name="`. */
  function AttributeStart(n: ProsodyName): string {
    n.Key() + "=\""
  }

  /** Reads a value up to its closing quote; `s` starts just after `name="`. */
  function ParseValue(n: ProsodyName, s: string): (r: Option<(Attribute, string)>)
    ensures r.Some? ==> |r.value.1| < |s|
  {
    match IndexOf(s, '"')
    case None => None
    case Some(k) => Some((Attribute(n, s[..k]), s[k + 1..]))
  }

  /** Reads one `name="value"` pair at the start of `s`. */
  function ParseAttribute(s: string): (r: Option<(Attribute, string)>)
    ensures r.Some? ==> |r.value.1| < |s|
  {
    if HasPrefix(s, AttributeStart(Rate)) then ParseValue(Rate, s[|AttributeStart(Rate)|..])
    else if HasPrefix(s, AttributeStart(Pitch)) then ParseValue(Pitch, s[|AttributeStart(Pitch)|..])
    else if HasPrefix(s, AttributeStart(Volume)) then ParseValue(Volume, s[|AttributeStart(Volume)|..])
    else None
  }

  /** Reads space-separated pairs up to and including the `>` that ends the start
      tag; returns the pairs and what follows the `>`. */
  function ParseAttributes(s: string): (r: Option<(seq<Attribute>, string)>)
    decreases |s|
  {
    match ParseAttribute(s)
    case None => None
    case Some((a, rest)) =>
      if |rest| == 0 then None
      else if rest[0] == '>' then Some(([a], rest[1..]))
      else if rest[0] == ' ' then
        match ParseAttributes(rest[1..])
        case None => None
        case Some((more, tail)) => Some(([a] + more, tail))
      else None
  }

  /** Reads the content of the `<voice>` element: a `<prosody>` element, or plain text. */
  function ParseContent(inner: string): Option<(seq<Attribute>, string)> {
    if HasPrefix(inner, ProsodyOpen) then
      match ParseAttributes(inner[|ProsodyOpen|..])
      case None => None
      case Some((attrs, rest)) =>
        if HasSuffix(rest, ProsodyClose) then Some((attrs, rest[..|rest| - |ProsodyClose|]))
        else None
    else Some(([], inner))
  }

  /** Reads what lies between the fixed frame: `name">` and the element content. */
  function DecodeVoice(body: string): Option<Document> {
    match IndexOf(body, '"')
    case None => None
    case Some(q) =>
      var rest := body[q..];
      if !HasPrefix(rest, VoiceOpenEnd) then None
      else
        match ParseContent(rest[|VoiceOpenEnd|..])
        case None => None
        case Some((attrs, text)) => Some(Document(body[..q], attrs, text))
  }

  /** Reads a whole document; `None` when it is not shaped like the builder's output. */
  function Decode(doc: string): Option<Document> {
    var head := SpeakOpen + VoiceOpen;
    if HasPrefix(doc, head) && |head| + |Closing| <= |doc| && HasSuffix(doc, Closing) then
      DecodeVoice(doc[|head|..|doc| - |Closing|])
    else None
  }

  /** The inputs the builder copies verbatim cannot be mistaken for its markup. */
  predicate Unambiguous(text: string, voiceName: string, p: Prosody) {
    && '"' !in voiceName
    && (forall n: ProsodyName :: Present(p.Get(n)) ==> '"' !in p.Get(n).value)
    && (|Attributes(p)| == 0 ==> !HasPrefix(text, ProsodyOpen))
  }

  /** Settings with Python-falsy values replaced by `None`: the builder treats
      `None` and `""` alike. */
  function Normalize(p: Prosody): (q: Prosody)
    ensures forall n: ProsodyName :: q.Get(n) == (if Present(p.Get(n)) then p.Get(n) else None)
  {
    Prosody(if Present(p.rate) then p.rate else None,
            if Present(p.pitch) then p.pitch else None,
            if Present(p.volume) then p.volume else None)
  }

  /** Distinct attribute names differ in their first character. */
  lemma FirstCharacter(n: ProsodyName, v: string)
    ensures (AttributeStart(n) + v)[0] == n.Key()[0]
    ensures Rate.Key()[0] == 'r' && Pitch.Key()[0] == 'p' && Volume.Key()[0] == 'v'
  {}

  /** The attribute name at the start of `s` selects the parse. */
  lemma ParseAttributeStart(n: ProsodyName, v: string)
    ensures ParseAttribute(AttributeStart(n) + v) == ParseValue(n, v)
  {
    Split(AttributeStart(n), v);
    FirstCharacter(n, v);
  }

  lemma RenderSplit(a: Attribute, rest: string)
    ensures Render(a) + rest == AttributeStart(a.name) + (a.value + ['"'] + rest)
  {}

  /** A value ends at its first quote. */
  lemma ParseValueQuoted(n: ProsodyName, value: string, rest: string)
    requires '"' !in value
    ensures ParseValue(n, value + ['"'] + rest) == Some((Attribute(n, value), rest))
  {
    IndexOfFirst(value, rest, '"');
    DropTwo(value, ['"'], rest);
  }

  lemma ParseOne(a: Attribute, rest: string)
    requires '"' !in a.value
    ensures ParseAttribute(Render(a) + rest) == Some((a, rest))
  {
    RenderSplit(a, rest);
    ParseAttributeStart(a.name, a.value + ['"'] + rest);
    ParseValueQuoted(a.name, a.value, rest);
  }

  lemma RenderAllCons(attrs: seq<Attribute>, rest: string)
    requires |attrs| > 1
    ensures RenderAll(attrs) + ">" + rest == Render(attrs[0]) + " " + (RenderAll(attrs[1..]) + ">" + rest)
  {}

  lemma ParseLast(a: Attribute, rest: string)
    requires '"' !in a.value
    ensures ParseAttributes(Render(a) + ">" + rest) == Some(([a], rest))
  {
    ParseOne(a, ">" + rest);
    assert Render(a) + ">" + rest == Render(a) + (">" + rest);
    Split(">", rest);
  }

  lemma ParseNext(a: Attribute, tail: string, more: seq<Attribute>, rest: string)
    requires '"' !in a.value
    requires ParseAttributes(tail) == Some((more, rest))
    ensures ParseAttributes(Render(a) + " " + tail) == Some(([a] + more, rest))
  {
    ParseOne(a, " " + tail);
    assert Render(a) + " " + tail == Render(a) + (" " + tail);
    Split(" ", tail);
  }

  /** Reading the rendered start-tag attributes back gives the same attributes. */
  lemma {:induction false} ParseAttributesRoundTrip(attrs: seq<Attribute>, rest: string)
    requires |attrs| > 0
    requires forall i :: 0 <= i < |attrs| ==> '"' !in attrs[i].value
    ensures ParseAttributes(RenderAll(attrs) + ">" + rest) == Some((attrs, rest))
  {
    if |attrs| == 1 {
      assert RenderAll(attrs) == Render(attrs[0]);
      ParseLast(attrs[0], rest);
      assert [attrs[0]] == attrs;
    } else {
      RenderAllCons(attrs, rest);
      var tail := RenderAll(attrs[1..]) + ">" + rest;
      ParseAttributesRoundTrip(attrs[1..], rest);
      ParseNext(attrs[0], tail, attrs[1..], rest);
      assert [attrs[0]] + attrs[1..] == attrs;
    }
  }

  lemma ParseElement(attrs: seq<Attribute>, text: string)
    requires |attrs| > 0
    requires forall i :: 0 <= i < |attrs| ==> '"' !in attrs[i].value
    ensures ParseContent(ProsodyOpen + RenderAll(attrs) + ">" + text + ProsodyClose) == Some((attrs, text))
  {
    var rest := text + ProsodyClose;
    var tagged := RenderAll(attrs) + ">" + rest;
    Regroup(ProsodyOpen, RenderAll(attrs), ">", text, ProsodyClose);
    Split(ProsodyOpen, tagged);
    ParseAttributesRoundTrip(attrs, rest);
    SplitEnd(text, ProsodyClose);
  }

  /** Reading the content of the `<voice>` element gives the attributes and the text. */
  lemma ParseContentRoundTrip(text: string, p: Prosody)
    requires forall n: ProsodyName :: Present(p.Get(n)) ==> '"' !in p.Get(n).value
    requires |Attributes(p)| == 0 ==> !HasPrefix(text, ProsodyOpen)
    ensures ParseContent(ProsodyText(text, p)) == Some((Attributes(p), text))
  {
    var attrs := Attributes(p);
    if |attrs| > 0 {
      ParseElement(attrs, text);
    }
  }

  lemma DecodeFrame(body: string)
    ensures Decode(SpeakOpen + VoiceOpen + body + Closing) == DecodeVoice(body)
  {}

  lemma DecodeVoiceRoundTrip(voiceName: string, inner: string)
    requires '"' !in voiceName
    ensures DecodeVoice(voiceName + VoiceOpenEnd + inner)
         == match ParseContent(inner)
            case None => None
            case Some((attrs, text)) => Some(Document(voiceName, attrs, text))
  {
    var body := voiceName + VoiceOpenEnd + inner;
    assert body == voiceName + ['"'] + (VoiceOpenEnd[1..] + inner);
    IndexOfFirst(voiceName, VoiceOpenEnd[1..] + inner, '"');
    assert body[..|voiceName|] == voiceName;
    var rest := body[|voiceName|..];
    assert rest == VoiceOpenEnd + inner;
    assert rest[..|VoiceOpenEnd|] == VoiceOpenEnd;
    assert rest[|VoiceOpenEnd|..] == inner;
  }

  /** Round trip: under `Unambiguous`, reading a built document back yields the
      voice name, exactly the present settings in the order rate, pitch, volume,
      and the text. */
  lemma DecodeCreateSsml(text: string, voiceName: string, p: Prosody)
    requires Unambiguous(text, voiceName, p)
    ensures Decode(CreateSsml(text, voiceName, p)) == Some(Document(voiceName, Attributes(p), text))
  {
    var inner := ProsodyText(text, p);
    var body := voiceName + VoiceOpenEnd + inner;
    RegroupMiddle(SpeakOpen, VoiceOpen, voiceName, VoiceOpenEnd, inner, Closing);
    DecodeFrame(body);
    DecodeVoiceRoundTrip(voiceName, inner);
    ParseContentRoundTrip(text, p);
  }

  /** The attribute list determines the settings up to Python truthiness. */
  lemma AttributesDetermineSettings(p1: Prosody, p2: Prosody)
    requires Attributes(p1) == Attributes(p2)
    ensures Normalize(p1) == Normalize(p2)
  {
    forall n: ProsodyName ensures Normalize(p1).Get(n) == Normalize(p2).Get(n) {
      if Present(p1.Get(n)) {
        assert Attribute(n, p1.Get(n).value) in Attributes(p2);
      }
      if Present(p2.Get(n)) {
        assert Attribute(n, p2.Get(n).value) in Attributes(p1);
      }
    }
    assert Normalize(p1).Get(Rate) == Normalize(p2).Get(Rate);
    assert Normalize(p1).Get(Pitch) == Normalize(p2).Get(Pitch);
    assert Normalize(p1).Get(Volume) == Normalize(p2).Get(Volume);
  }

  /** Under `Unambiguous`, equal documents come from the same text, the same voice
      and the same settings (up to `None` versus `""`). */
  lemma CreateSsmlInjective(text1: string, voice1: string, p1: Prosody,
                            text2: string, voice2: string, p2: Prosody)
    requires Unambiguous(text1, voice1, p1) && Unambiguous(text2, voice2, p2)
    requires CreateSsml(text1, voice1, p1) == CreateSsml(text2, voice2, p2)
    ensures text1 == text2 && voice1 == voice2 && Normalize(p1) == Normalize(p2)
  {
    DecodeCreateSsml(text1, voice1, p1);
    DecodeCreateSsml(text2, voice2, p2);
    AttributesDetermineSettings(p1, p2);
  }

  lemma RateOnly(rate: string)
    requires |rate| > 0
    ensures Attributes(Prosody(Some(rate), None, None)) == [Attribute(Rate, rate)]
    ensures RenderAll([Attribute(Rate, rate)]) == Render(Attribute(Rate, rate))
  {}

  /** Without escaping, a text that looks like a `<prosody>` element and no settings
      yields the same document as the plain text with a rate setting. */
  lemma NoEscapingIsAmbiguous()
    ensures CreateSsml("<prosody " + "rate=\"1\"" + ">" + "hi" + "</prosody>", "v", Prosody(None, None, None))
         == CreateSsml("hi", "v", Prosody(Some("1"), None, None))
  {
    RateOnly("1");
    assert Render(Attribute(Rate, "1")) == "rate=\"1\"";
    assert |Attributes(Prosody(None, None, None))| == 0;
  }
}
