/** The three external engines (speech recognition, the language model, speech synthesis)
    and the transcript table, reduced to the outcomes the consumer reacts to
    (agent/consumers.py). */
module Engines {
  import opened Wrappers
  import opened Protocol

  /** What the recogniser does with one recording. */
  datatype Recognition =
    | Recognized(text: string)        // recognize_google returned a text
    | UnknownValue                    // sr.UnknownValueError
    | RequestFailed(message: string)  // sr.RequestError
    | Unexpected(message: string)     // any other exception

  /** `_recognize_speech`: every exception collapses to `None`. */
  function Transcribed(r: Recognition): (text: Option<string>)
    ensures text.Some? == r.Recognized?
    ensures text.Some? ==> text.value == r.text
  {
    match r
    case Recognized(t) => Some(t)
    case _ => None
  }

  /** The text on which a turn goes on (`if text:`): a non-empty recognised text. */
  function Utterance(r: Recognition): (t: Option<string>)
    ensures t.Some? == (r.Recognized? && r.text != "")
    ensures t.Some? ==> t.value == r.text
  {
    match Transcribed(r)
    case Some(x) => if x != "" then Some(x) else None
    case None => None
  }

  /** The language code and accent domain the primary synthesis asks for. */
  function VoiceFor(language: string, voice: string): (selection: (string, string))
    ensures selection.0 == language
    ensures selection.1 in {"co.uk", "com.au", "co.in", "com"}
    ensures (selection.1 == "com") == (language != "en" && language != "hi")
    ensures selection.1 == "co.uk" ==> language == "en" && voice == "male"
    ensures selection.1 == "com.au" ==> language == "en" && voice != "male"
    ensures selection.1 == "co.in" ==> language == "hi"
  {
    if language == "en" then
      if voice == "male" then ("en", "co.uk") else ("en", "com.au")
    else if language == "hi" then ("hi", "co.in")
    else (language, "com")
  }

  /** The sped-up synthesis: it completes, or raises, possibly after saving its draft. */
  datatype PrimaryTts = SpedUp | PrimaryRaised(draftLeft: bool)

  /** The plain fallback synthesis: it saves the reply audio, or raises. */
  datatype FallbackTts = FallbackSaved | FallbackRaised(message: string)

  /** One `Transcript.objects.create`: the row is written, or the call raises. */
  datatype Write = Written | WriteRaised(message: string)

  /** Everything the collaborators decide during one turn. */
  datatype Outcomes = Outcomes(
    recognition: Recognition,
    userRow: Write,
    reply: Option<string>,  // the model's text, `None` when the call raised
    aiRow: Write,
    primary: PrimaryTts,
    fallback: FallbackTts)

  /** A request made of an engine. */
  datatype EngineCall =
    | Recognize(path: string, audio: seq<byte>, language: string)
    | Complete(context: seq<string>)  // the model, asked with the instruction and these history lines
    | Synthesize(text: string, lang: string, tld: string, speed: Option<string>)  // None: no speed-up

  /** What `_text_to_speech` returns, or the exception it re-raises. */
  datatype Synthesized = SavedAt(path: string) | SynthesisRaised(message: string)
}
