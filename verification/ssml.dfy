/**
 * The SSML document builder `AzureTTS._create_ssml` of tts_speech.py.
 *
 * The builder turns a text, a voice name and optional prosody settings into a
 * Speech Synthesis Markup Language 1.0 document: a `<speak>` root (section 3.1.1
 * of the W3C SSML 1.0 recommendation), a `<voice>` element (section 3.2.1) and,
 * when some prosody setting is present, a `<prosody>` element (section 3.2.4).
 * Nothing is escaped: the text, the voice name and the setting values are
 * copied into the document verbatim.
 */
module Ssml {
  import opened Wrappers
  import opened Text

  /** The fixed root start tag: SSML version 1.0, its namespace, and a language tag
      that is always ja-JP whatever the voice. */
  const SpeakOpen: string :=
    "<speak version=\"1.0\" xmlns=\"http://www.w3.org/2001/10/synthesis\" xml:lang=\"ja-JP\">"
  /** Text between the root start tag and the voice name. */
  const VoiceOpen: string := "\n    <voice name=\""
  /** Text between the voice name and the (possibly wrapped) content. */
  const VoiceOpenEnd: string := "\">\n        "
  /** Text after the content: the two end tags. */
  const Closing: string := "\n    </voice>\n</speak>"
  const ProsodyOpen: string := "<prosody "
  const ProsodyClose: string := "</prosody>"

  /** Python truthiness of an `Optional[str]`: neither `None` nor the empty string. */
  predicate Present(p: Option<string>)
    ensures Present(p) <==> p != None && p != Some("")
  {
    p.Some? && |p.value| > 0
  }

  /** The three prosody settings, in the order the builder emits them. */
  datatype ProsodyName = Rate | Pitch | Volume {
    /** The SSML attribute name. */
    function Key(): string {
      match this
      case Rate => "rate"
      case Pitch => "pitch"
      case Volume => "volume"
    }

    /** Position in the emission order rate, pitch, volume. */
    function Rank(): nat {
      match this
      case Rate => 0
      case Pitch => 1
      case Volume => 2
    }
  }

  /** The optional `rate`, `pitch` and `volume` arguments. */
  datatype Prosody = Prosody(rate: Option<string>, pitch: Option<string>, volume: Option<string>) {
    function Get(n: ProsodyName): Option<string> {
      match n
      case Rate => rate
      case Pitch => pitch
      case Volume => volume
    }
  }

  /** One `name="value"` pair of the `<prosody>` start tag. */
  datatype Attribute = Attribute(name: ProsodyName, value: string)

  function Render(a: Attribute): string {
    a.name.Key() + "=\"" + a.value + "\""
  }

  /** The `prosody_attrs` list: one attribute per present setting, in the order
      rate, pitch, volume, carrying that setting's value. */
  function Attributes(p: Prosody): (attrs: seq<Attribute>)
    ensures forall i :: 0 <= i < |attrs| ==>
              Present(p.Get(attrs[i].name)) && attrs[i].value == p.Get(attrs[i].name).value
    ensures forall i, j :: 0 <= i < j < |attrs| ==> attrs[i].name.Rank() < attrs[j].name.Rank()
    ensures forall n: ProsodyName :: Present(p.Get(n)) ==> Attribute(n, p.Get(n).value) in attrs
  {
    (if Present(p.rate) then [Attribute(Rate, p.rate.value)] else [])
    + (if Present(p.pitch) then [Attribute(Pitch, p.pitch.value)] else [])
    + (if Present(p.volume) then [Attribute(Volume, p.volume.value)] else [])
  }

  /** Each attribute rendered as `name="value"`. */
  function RenderEach(attrs: seq<Attribute>): (parts: seq<string>)
    ensures |parts| == |attrs|
    ensures forall i :: 0 <= i < |attrs| ==> parts[i] == Render(attrs[i])
  {
    if |attrs| == 0 then [] else [Render(attrs[0])] + RenderEach(attrs[1..])
  }

  /** The attributes of the start tag, rendered and separated by single spaces. */
  function RenderAll(attrs: seq<Attribute>): string {
    Join(RenderEach(attrs), " ")
  }

  /** `prosody_text`: the content placed inside the `<voice>` element. It is the
      text itself when no setting is present, and otherwise a `<prosody>` element
      around the text. */
  function ProsodyText(text: string, p: Prosody): (inner: string)
    ensures |Attributes(p)| == 0 ==> inner == text
    ensures |Attributes(p)| > 0 ==> HasPrefix(inner, ProsodyOpen) && HasSuffix(inner, ProsodyClose)
    ensures Occurs(text, inner)
  {
    var attrs := Attributes(p);
    if |attrs| > 0 then
      var open := ProsodyOpen + RenderAll(attrs) + ">";
      Framed(open, text, ProsodyClose);
      Split(ProsodyOpen, RenderAll(attrs) + ">" + text + ProsodyClose);
      OccursInside(open, text, ProsodyClose);
      open + text + ProsodyClose
    else
      OccursSelf(text);
      text
  }

  /** `_create_ssml(text, voice_name, rate, pitch, volume)`: the content inside a
      `<voice>` element naming the voice, inside the fixed `<speak>` root. The
      envelope is exact: the fixed head with the voice name, then precisely the
      content, then the fixed end tags; the text appears in the document verbatim. */
  function CreateSsml(text: string, voiceName: string, p: Prosody): (doc: string)
    ensures HasPrefix(doc, SpeakOpen + VoiceOpen + voiceName + VoiceOpenEnd)
    ensures HasSuffix(doc, Closing)
    ensures |doc| == |SpeakOpen + VoiceOpen + voiceName + VoiceOpenEnd| + |ProsodyText(text, p)| + |Closing|
    ensures doc[|SpeakOpen + VoiceOpen + voiceName + VoiceOpenEnd|..|doc| - |Closing|] == ProsodyText(text, p)
    ensures |Attributes(p)| > 0 ==>
              && HasPrefix(doc, SpeakOpen + VoiceOpen + voiceName + VoiceOpenEnd + ProsodyOpen)
              && HasSuffix(doc, ProsodyClose + Closing)
    ensures Occurs(text, doc)
  {
    var head := SpeakOpen + VoiceOpen + voiceName + VoiceOpenEnd;
    var inner := ProsodyText(text, p);
    Framed(head, inner, Closing);
    SuffixExtends(head, inner, Closing, ProsodyClose);
    PrefixExtends(head, inner, Closing, ProsodyOpen);
    OccursTransitive(text, inner, head, Closing);
    head + inner + Closing
  }

  lemma AllThreeSelected(rate: string, pitch: string, volume: string)
    requires |rate| > 0 && |pitch| > 0 && |volume| > 0
    ensures Attributes(Prosody(Some(rate), Some(pitch), Some(volume)))
         == [Attribute(Rate, rate), Attribute(Pitch, pitch), Attribute(Volume, volume)]
  {}

  lemma RenderEachThree(a: Attribute, b: Attribute, c: Attribute)
    ensures RenderEach([a, b, c]) == [Render(a), Render(b), Render(c)]
  {}

  /** With all three settings present, the start tag carries rate, pitch and volume
      in that order, separated by single spaces. */
  lemma AllThreeInOrder(rate: string, pitch: string, volume: string)
    requires |rate| > 0 && |pitch| > 0 && |volume| > 0
    ensures RenderAll(Attributes(Prosody(Some(rate), Some(pitch), Some(volume))))
         == Render(Attribute(Rate, rate)) + " " + Render(Attribute(Pitch, pitch)) + " "
            + Render(Attribute(Volume, volume))
  {
    AllThreeSelected(rate, pitch, volume);
    RenderEachThree(Attribute(Rate, rate), Attribute(Pitch, pitch), Attribute(Volume, volume));
    JoinThree(Render(Attribute(Rate, rate)), Render(Attribute(Pitch, pitch)), Render(Attribute(Volume, volume)), " ");
  }

  /** The settings of the demonstration call (rate 1.5, pitch +50Hz, volume loud),
      here with the text `hello`, wrap the text in a prosody element whose start
      tag carries all three attributes, in that order, separated by single spaces. */
  lemma WorkedExample()
    // the right-hand side spells <prosody rate="1.5" pitch="+50Hz" volume="loud">hello</prosody>
    ensures ProsodyText("hello", Prosody(Some("1.5"), Some("+50Hz"), Some("loud")))
         == "<prosody " + ("rate=\"1.5\"" + " " + "pitch=\"+50Hz\"" + " " + "volume=\"loud\"") + ">"
            + "hello" + "</prosody>"
  {
    AllThreeInOrder("1.5", "+50Hz", "loud");
    assert Render(Attribute(Rate, "1.5")) == "rate=\"1.5\"";
    assert Render(Attribute(Pitch, "+50Hz")) == "pitch=\"+50Hz\"";
    assert Render(Attribute(Volume, "loud")) == "volume=\"loud\"";
  }
}
