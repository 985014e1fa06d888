/**
 * The decisions `AzureTTS.text_to_speech` of tts_speech.py makes around the
 * speech service: which of the two synthesis calls it issues, and how the
 * service's answer (or an exception) becomes the returned `bool`.
 *
 * The service itself is opaque: it is a parameter mapping the call issued to
 * what that call yields.
 */
module Synthesis {
  import opened Wrappers
  import opened Text
  import opened Ssml
  import SsmlReader

  /** The arguments of one `text_to_speech` call that affect the decisions. */
  datatype Request = Request(text: string, voiceName: string, prosody: Prosody)

  /** The two service calls. `speak_text_async(text)` speaks with the voice the
      configuration names, so that voice is part of the call; `speak_ssml_async(ssml)`
      takes the voice from the document. */
  datatype SpeakCall = SpeakText(voiceName: string, text: string) | SpeakSsml(ssml: string)

  /** The cancellation reason and the optional error details of a canceled result. */
  datatype CancellationDetails = CancellationDetails(reason: string, errorDetails: Option<string>)

  /** The `reason` of a synthesis result; every reason other than completion and
      cancellation is folded into `OtherReason`. */
  datatype ResultReason =
    | SynthesizingAudioCompleted
    | Canceled(details: CancellationDetails)
    | OtherReason(name: string)

  /** What one service call does: it returns a result, it raises an `Exception`
      (which the handler catches), or it is interrupted by a `BaseException` that is
      not an `Exception`, such as `KeyboardInterrupt` or `SystemExit` (which the
      handler does not catch). */
  datatype CallOutcome =
    | Returned(reason: ResultReason)
    | Raised(message: string)
    | Interrupted(message: string)

  /** What `text_to_speech` does: it returns a `bool`, or an exception leaves it. */
  datatype Invocation = Returns(value: bool) | Propagates(message: string)

  /** The test `rate or pitch or volume`: the SSML path is taken exactly when the
      builder would emit at least one prosody attribute. */
  predicate UsesSsml(p: Prosody)
    ensures UsesSsml(p) <==> |Attributes(p)| > 0
    ensures UsesSsml(p) <==> exists n: ProsodyName :: Present(p.Get(n))
  {
    SomeSettingPresent(p);
    Present(p.rate) || Present(p.pitch) || Present(p.volume)
  }

  /** Some setting is present exactly when rate, pitch or volume is. */
  lemma SomeSettingPresent(p: Prosody)
    ensures (exists n: ProsodyName :: Present(p.Get(n)))
         <==> Present(p.rate) || Present(p.pitch) || Present(p.volume)
  {
    assert Present(p.Get(Rate)) == Present(p.rate);
    assert Present(p.Get(Pitch)) == Present(p.pitch);
    assert Present(p.Get(Volume)) == Present(p.volume);
  }

  /** The call `text_to_speech` issues: the plain text unchanged when no setting is
      present, otherwise the SSML document built from the request. */
  function Dispatch(req: Request): (call: SpeakCall)
    ensures call.SpeakSsml? <==> UsesSsml(req.prosody)
    ensures call.SpeakText? ==> call.voiceName == req.voiceName && call.text == req.text
    ensures call.SpeakSsml? ==>
              && HasPrefix(call.ssml, SpeakOpen + VoiceOpen + req.voiceName + VoiceOpenEnd + ProsodyOpen)
              && HasSuffix(call.ssml, ProsodyClose + Closing)
  {
    if UsesSsml(req.prosody) then
      SpeakSsml(CreateSsml(req.text, req.voiceName, req.prosody))
    else
      SpeakText(req.voiceName, req.text)
  }

  /** The result handling inside the `try`: true only for a completed synthesis;
      a cancellation, any other reason and a caught exception all give false.
      An interruption never reaches this point (see `TextToSpeech`). */
  function Succeeded(outcome: CallOutcome): (ok: bool)
    ensures ok <==> outcome == Returned(SynthesizingAudioCompleted)
  {
    match outcome
    case Raised(_) => false
    case Interrupted(_) => false
    case Returned(SynthesizingAudioCompleted) => true
    case Returned(Canceled(_)) => false
    case Returned(OtherReason(_)) => false
  }

  /** Whether the service's answer would leave the `if`/`elif` without printing:
      only a reason other than completion and cancellation does. */
  predicate SilentOutcome(outcome: CallOutcome) {
    outcome.Returned? && outcome.reason.OtherReason?
  }

  /** `text_to_speech`. `setupError` is an exception raised while configuring the
      voice, the audio output or the synthesizer; that happens before the `try`, so
      it leaves the method. `service` is what the speech service answers to the call
      issued; an interruption of that call is not caught and leaves the method too.

      `consoleError` is the exception every console write raises, if any. Such a
      write inside the `try` is caught, but the handler's own write then raises
      again and leaves the method. */
  function TextToSpeech(req: Request, setupError: Option<string>, consoleError: Option<string>,
                        service: SpeakCall -> CallOutcome): (r: Invocation)
    ensures setupError.Some? ==> r == Propagates(setupError.value)
    ensures setupError.None? && service(Dispatch(req)).Interrupted? ==>
              r == Propagates(service(Dispatch(req)).message)
    ensures setupError.None? && consoleError.None? && !service(Dispatch(req)).Interrupted? ==> r.Returns?
    ensures r == Returns(true) <==>
              && setupError.None? && consoleError.None?
              && service(Dispatch(req)) == Returned(SynthesizingAudioCompleted)
    ensures r.Returns? <==>
              && setupError.None? && !service(Dispatch(req)).Interrupted?
              && (consoleError.None? || SilentOutcome(service(Dispatch(req))))
    ensures r.Propagates? && setupError.None? && !service(Dispatch(req)).Interrupted? ==>
              consoleError.Some? && r.message == consoleError.value
  {
    match setupError
    case Some(message) => Propagates(message)
    case None =>
      var outcome := service(Dispatch(req));
      if outcome.Interrupted? then Propagates(outcome.message)
      else match consoleError
        case None => Returns(Succeeded(outcome))
        case Some(message) =>
          if SilentOutcome(outcome) then Returns(false)
          else Propagates(message)
  }

  /** The voice `text_to_speech` uses when its caller names none. */
  const DefaultVoice: string := "ja-JP-NanamiNeural"

  /** A call that leaves `voice_name` at its default. */
  function DefaultRequest(text: string, p: Prosody): Request {
    Request(text, DefaultVoice, p)
  }

  /** The first demonstration call sends its text as plain text with the default
      voice configured, the second as plain text with the male voice configured;
      the last one sends an SSML document naming the default voice and opening a
      `<prosody>` element. */
  lemma DemonstrationCalls(text: string)
    ensures Dispatch(DefaultRequest(text, Prosody(None, None, None))) == SpeakText(DefaultVoice, text)
    ensures Dispatch(Request(text, "ja-JP-KeitaNeural", Prosody(None, None, None)))
         == SpeakText("ja-JP-KeitaNeural", text)
    ensures var call := Dispatch(DefaultRequest(text, Prosody(Some("1.5"), Some("+50Hz"), Some("loud"))));
            call.SpeakSsml? && HasPrefix(call.ssml, SpeakOpen + VoiceOpen + DefaultVoice + VoiceOpenEnd + ProsodyOpen)
  {
    assert !UsesSsml(Prosody(None, None, None));
    assert UsesSsml(Prosody(Some("1.5"), Some("+50Hz"), Some("loud")));
  }

  /** On the SSML path the document carries the voice, exactly the present settings
      in the order rate, pitch, volume, and the text, whenever the copied pieces
      cannot be mistaken for markup. */
  lemma DispatchedSsmlCarriesRequest(req: Request)
    requires UsesSsml(req.prosody)
    requires '"' !in req.voiceName
    requires forall n: ProsodyName :: Present(req.prosody.Get(n)) ==> '"' !in req.prosody.Get(n).value
    ensures Dispatch(req).SpeakSsml?
    ensures SsmlReader.Decode(Dispatch(req).ssml)
         == Some(SsmlReader.Document(req.voiceName, Attributes(req.prosody), req.text))
    ensures |Attributes(req.prosody)| > 0
  {
    SsmlReader.DecodeCreateSsml(req.text, req.voiceName, req.prosody);
  }
}
