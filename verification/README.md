# AzureTTS: SSML builder and synthesis dispatch, in Dafny

This project models the logic in `tts_speech.py`, a thin client over the Azure speech service. The logic has two parts:

- `AzureTTS._create_ssml` builds a Speech Synthesis Markup Language 1.0 document from a text, a voice name and optional `rate`, `pitch` and `volume` settings. The document has a `<speak>` root (section 3.1.1 of the W3C SSML 1.0 recommendation) and a `<voice>` element (section 3.2.1). It also has a `<prosody>` element (section 3.2.4) when at least one setting is present.
- `AzureTTS.text_to_speech` picks between the plain-text call and the SSML call. It then turns the service's answer, or an exception, into a `bool`.

Files:

- `wrappers.dfy`, module `Wrappers`: `Option`, which models Python's `Optional[str]`.
- `text.dfy`, module `Text`: string helpers. These are prefix/suffix/occurrence predicates, `Join` (Python's `sep.join`) and `IndexOf`. The module also holds the slicing lemmas the proofs share.
- `ssml.dfy`, module `Ssml`: the builder. It contains the fixed tags, the truthiness test `Present`, the `prosody_attrs` list (`Attributes`), the content `ProsodyText`, and `CreateSsml`.
- `ssml_reader.dfy`, module `SsmlReader`: a reader for the builder's documents and the proofs that it inverts the builder. This module is the builder's partner.
- `synthesis.dfy`, module `Synthesis`: the SSML-or-text choice (`UsesSsml`, `Dispatch`), the result handling (`Succeeded`) and the whole `text_to_speech` decision (`TextToSpeech`).

Modelling decisions:

- Python truthiness: a setting counts as present exactly when it is `Some(s)` with `s` non-empty. `if rate:` treats `None` and `""` alike.
- Nothing is escaped, as in the source. The text, the voice name and the setting values are copied verbatim. `SsmlReader.Unambiguous` is a sufficient condition for the builder to be inverted: no quote in the voice name or the values, and no text starting with `<prosody ` when no setting is present. `NoEscapingIsAmbiguous` shows that when the condition fails, some documents have more than one source.
- The speech SDK is opaque. `TextToSpeech` takes the service as a function from the call issued to what that call yields. `SpeakText(voiceName, text)` stands for `speak_text_async(text)` (tts_speech.py:62) on a synthesizer whose configuration names the voice (tts_speech.py:44, 51-54). `SpeakSsml(ssml)` stands for `speak_ssml_async`, which takes the voice from the document. The result is `Returned(reason)`, `Raised(message)` for an `Exception`, which `except Exception` (tts_speech.py:76) catches, or `Interrupted(message)` for a `BaseException` that is not an `Exception`, such as `KeyboardInterrupt` or `SystemExit`, which that handler lets through. A reason is `SynthesizingAudioCompleted`, `Canceled(details)` or any other reason.
- `text_to_speech` catches exceptions only inside its `try` (tts_speech.py:56-78). Setting the voice, building the audio output configuration and building the synthesizer (tts_speech.py:44-54) happen before the `try`, so an exception there leaves the method. `setupError` stands for such an exception, and `TextToSpeech` then yields `Propagates(message)`.
- The method reports completion and cancellation only through `print`; its result is the `bool`.
- The `print` calls can raise, for example on a closed pipe or a console that cannot encode the Japanese messages. `consoleError` stands for the exception every console write then raises. A write inside the `try` (tts_speech.py:66, 68, 72, 74) is caught, but the handler's own write (tts_speech.py:77) raises again and leaves the method. Only a reason that prints nothing returns normally.
- `voice_name` defaults to `ja-JP-NanamiNeural` (tts_speech.py:24). `Synthesis.DefaultVoice` and `Synthesis.DefaultRequest` model a call that leaves it at that default.

## Model

| member | source | states |
|---|---|---|
| Ssml.Present | tts_speech.py:121-126 | A setting counts as present exactly when it is neither `None` nor the empty string, matching Python truthiness of `if rate:`. |
| Ssml.Attributes | tts_speech.py:119-126 | Each attribute belongs to a present setting and carries that setting's value. Every present setting has its attribute. Attributes appear in strictly increasing order rate, pitch, volume. A `None` or empty setting gets no attribute. |
| Ssml.ProsodyText | tts_speech.py:128-133 | With no attribute, the content is exactly the text. With at least one attribute, the content starts with `<prosody ` and ends with `</prosody>`. The text always occurs in the content verbatim. |
| Ssml.CreateSsml | tts_speech.py:135-141 | The document is exactly the fixed `<speak version="1.0" …SSML namespace… xml:lang="ja-JP">` head, then the voice element with the voice name verbatim, then precisely the content, then the fixed end tags. The language tag does not depend on the voice. With prosody, the `<prosody ` start follows the voice head directly and `</prosody>` precedes the end tags. The text occurs verbatim. |
| Ssml.AllThreeInOrder | tts_speech.py:119-129 | With all three settings present, the start tag's attribute string is `rate="…"`, a space, `pitch="…"`, a space, `volume="…"`, in that order. |
| Ssml.WorkedExample | tts_speech.py:119-131 | The settings of the demonstration call (line 173), rate 1.5, pitch +50Hz and volume loud, with the text `hello` give `<prosody rate="1.5" pitch="+50Hz" volume="loud">hello</prosody>`. |
| SsmlReader.ParseOne | tts_speech.py:122-126 | Each rendered `name="value"` pair reads back as exactly that name and value, followed by whatever came after it, provided the value contains no quote. This pins down the rendering of one attribute. |
| Text.JoinThree | tts_speech.py:129 | Joining three pieces with a separator gives the first, the separator, the second, the separator, the third: Python's `" ".join` on three attributes. |
| SsmlReader.ParseAttributesRoundTrip | tts_speech.py:129 | This pins down `RenderAll`, the space-joined attribute string. Reading back the space-joined `name="value"` attributes and the closing `>` yields exactly the attributes and the rest, provided no value contains a quote. |
| SsmlReader.DecodeCreateSsml | tts_speech.py:119-139 | Round trip: when the copied pieces cannot be mistaken for markup, reading a built document back yields the voice name, exactly the present settings in order rate, pitch, volume, and the text. |
| SsmlReader.CreateSsmlInjective | tts_speech.py:119-139 | Under the same condition, two equal documents come from equal texts, equal voice names, and settings that agree once `None` and `""` are identified. |
| SsmlReader.AttributesDetermineSettings | tts_speech.py:121-126 | Two sets of settings with the same attribute list agree up to Python truthiness: the builder cannot tell `None` from `""`. |
| SsmlReader.NoEscapingIsAmbiguous | tts_speech.py:128-137 | Because nothing is escaped, a text that spells out `<prosody rate="1">hi</prosody>` with no settings yields the same document as the text `hi` with rate `1`. |
| Synthesis.UsesSsml | tts_speech.py:58 | The test `rate or pitch or volume` holds exactly when some setting is present. This is exactly when the builder emits at least one prosody attribute. |
| Synthesis.Dispatch | tts_speech.py:44-62 | The SSML call is issued iff some setting is present. Otherwise the plain-text call carries the requested voice and the text unchanged. The SSML call's document opens a `<prosody` element right after the voice head and closes it before the end tags. |
| Synthesis.DispatchedSsmlCarriesRequest | tts_speech.py:58-60 | On the SSML path the builder's no-prosody branch is never taken. The document reads back as the request's voice name, its present settings in order, and its text, whenever the copied pieces hold no quote. |
| Synthesis.Succeeded | tts_speech.py:64-80 | Result handling yields true iff the call returned `SynthesizingAudioCompleted`. It yields false for a cancellation (with or without error details), for any other reason, and for a caught exception. |
| Synthesis.TextToSpeech | tts_speech.py:44-80 | An exception from the setup before the `try` leaves the method with its message. An interruption of the service call (`KeyboardInterrupt`, `SystemExit`) leaves the method with its message. With a working console, no other exception from the service call escapes, and the method returns true iff the service completed the synthesis for the call `Dispatch` issues. With a failing console, the method returns (false) only for a reason that prints nothing; otherwise the console's exception leaves the method. |
| Synthesis.DemonstrationCalls | tts_speech.py:165-173 | A call that keeps the default voice and sets nothing (line 165) sends its text as plain text with `ja-JP-NanamiNeural` configured. The call naming `ja-JP-KeitaNeural` (line 170) sends its text as plain text with that voice configured. The call with rate 1.5, pitch +50Hz and volume loud (line 173, default voice) sends an SSML document naming `ja-JP-NanamiNeural` and opening a `<prosody>` element. |

## Left out

- The Azure SDK objects and calls (`SpeechConfig`, `AudioOutputConfig`, `SpeechSynthesizer`, `speak_text_async`, `speak_ssml_async`, `get_voices_async`). They are foreign calls doing network I/O. Their results appear only as the `CallOutcome` datatype, and the service is a parameter of `TextToSpeech`.
- `AzureTTS.__init__` (tts_speech.py:8-19) only builds the SDK configuration from the key and region.
- The choice between a file and the default speaker (tts_speech.py:46-49). It only configures the SDK's output sink and does not affect the decisions modelled.
- `get_available_voices` (tts_speech.py:82-96) is a thin SDK wrapper. It returns the voice list for `VoicesListRetrieved` and an empty list for any other reason.
- The text of the console messages (tts_speech.py:66-77 and 95). Only whether a write raises is modelled, as `consoleError`.
- Synthesis.TextToSpeech: an interruption (`KeyboardInterrupt`, `SystemExit`) is modelled only during the service call, where the method blocks; one arriving while the document is built or a message is written is not modelled.
- Synthesis.TextToSpeech: a console that fails on some writes and succeeds on others is not modelled; `consoleError` makes every write raise or none.
- `main` (tts_speech.py:144-177): `.env` loading, environment lookup (`AZURE_SPEECH_KEY`, `AZURE_SPEECH_REGION` with default `japaneast`) and the demonstration calls. The calls' settings and their default voice appear in `Ssml.WorkedExample` and `Synthesis.DemonstrationCalls`; the demonstration text itself does not.
- XML escaping and validity checks, because the source performs none.
- SsmlReader.DecodeCreateSsml: the round trip is stated only under `Unambiguous`. That condition requires no quote in the voice name or the values, and, when there is no prosody, a text that does not start with `<prosody `. Without escaping, the document does not determine its inputs in general (see `NoEscapingIsAmbiguous`).
