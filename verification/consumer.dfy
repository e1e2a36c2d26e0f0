/** `CallConsumer`: the WebSocket consumer of one call, whose handlers update its fields in
    place. The effects it has on the outside world (messages sent, transcript rows written,
    requests made of the engines, files on disk) are kept as logs in fields of their own.
    Each handler is proved to do what the matching function of `Sessions` says
    (agent/consumers.py). */
module Consumers {
  import opened Wrappers
  import opened Naming
  import opened Protocol
  import opened Engines
  import opened Conversation
  import opened Sessions

  class CallConsumer {
    var audioBuffer: seq<byte>
    var conversationHistory: seq<string>
    var isProcessing: bool
    var language: string
    var voice: string
    var speed: string
    var call: CallRecord
    var sent: seq<Outbound>
    var transcripts: seq<TranscriptRow>
    var engineCalls: seq<EngineCall>
    var files: set<string>

    /** The consumer as a session value. */
    ghost function State(): Session
      reads this
    {
      Session(audioBuffer, conversationHistory, isProcessing, Config(language, voice, speed),
              call, sent, transcripts, engineCalls, files)
    }

    /** `connect`: the call row is created with id `callId` at time `now`, and `query` holds
        the decoded fields of the query string. */
    constructor Connect(callId: nat, now: int, query: seq<(string, string)>)
      ensures State() == Connected(callId, now, query)
      ensures Settled(State())
    {
      audioBuffer := [];
      conversationHistory := [];
      isProcessing := false;
      files := {};
      call := CallRecord(callId, now, None);
      transcripts := [];
      engineCalls := [];
      language := QueryParam(query, "language", "en");
      voice := QueryParam(query, "voice", "female");
      speed := QueryParam(query, "speed", "1.3");
      sent := [Ack(ConnectedMessage, language, voice, speed)];
      new;
      ConnectDefaults(callId, now, query);
    }

    /** `disconnect`: the call's end time is stamped with `now`. */
    method Disconnect(closeCode: int, now: int)
      modifies this
      ensures State() == Disconnected(old(State()), now)
    {
      call := call.(endTime := Some(now));
    }

    /** `receive`: `raised` when the handler raises out of the consumer. */
    method Receive(frame: Frame, o: Outcomes) returns (raised: bool)
      modifies this
      ensures raised == Step(old(State()), frame, o).None?
      ensures State() == if raised then old(State()) else Step(old(State()), frame, o).value
    {
      raised := false;
      match frame
      case TextFrame(text, decoded) =>
        if text != "" {
          match decoded
          case None =>  // JSONDecodeError is caught and logged
          case Some(data) =>
            if !data.JObject? {
              raised := true;  // AttributeError from `data.get`
            } else if EndOfSpeech(data.members) {
              if !isProcessing && |audioBuffer| > 0 {
                ProcessAudio(o);
              }
            }
        }
      case BytesFrame(data) =>
        if data != [] {
          audioBuffer := audioBuffer + data;
        }
    }

    /** `process_audio`: one turn over the buffered recording. */
    method ProcessAudio(o: Outcomes)
      modifies this
      ensures State() == Turn(old(State()), o)
    {
      if |audioBuffer| == 0 || |audioBuffer| < MinAudioBytes {
        audioBuffer := [];
        return;
      }
      isProcessing := true;
      // The exception caught at the top of the turn, if any.
      var failure: Option<string>;
      var currentAudio := audioBuffer;
      audioBuffer := [];
      var wavPath := WavPath(call.id);
      files := files + {wavPath};
      var fileSize: nat := |currentAudio|;
      if fileSize < MinAudioBytes {
        failure := Some("Audio file too small: " + Decimal(fileSize) + " bytes");
      } else {
        failure := ProcessRecording(wavPath, currentAudio, o);
      }
      if failure.Some? {
        sent := sent + [ErrorNotice(ErrorText(failure.value))];
      }
      isProcessing := false;
    }

    /** The body of the `try` in `process_audio` once `audio` is saved at `wavPath`. */
    method ProcessRecording(wavPath: string, audio: seq<byte>, o: Outcomes) returns (failure: Option<string>)
      requires wavPath == WavPath(call.id)
      modifies this`sent, this`transcripts, this`conversationHistory, this`engineCalls, this`files
      ensures Progress(State(), failure) == Attempt(old(State()), audio, o)
    {
      var text := RecognizeSpeech(wavPath, audio, o.recognition);
      if text.Some? && text.value != "" {
        failure := Answer(text.value, o);
      } else {
        sent := sent + [TranscriptMessage(NotUnderstoodNotice, System)];
        failure := None;
      }
      if failure.None? {
        files := files - {wavPath};
      }
    }

    /** The recognised branch of `process_audio`, from sending the user's text `t`. */
    method Answer(t: string, o: Outcomes) returns (failure: Option<string>)
      modifies this`sent, this`transcripts, this`conversationHistory, this`engineCalls, this`files
      ensures Progress(State(), failure) == Converse(old(State()), t, o)
    {
      sent := sent + [TranscriptMessage(t, User)];
      if o.userRow.WriteRaised? {
        return Some(o.userRow.message);
      }
      Consult(t, o);
      failure := Publish(GetAiResponse(o.reply), o);
    }

    /** The user's row, the history, the request to the model and the reply's message. */
    method Consult(t: string, o: Outcomes)
      modifies this`sent, this`transcripts, this`conversationHistory, this`engineCalls
      ensures State() == Consulted(old(State()), t, o)
    {
      transcripts := transcripts + [TranscriptRow(call.id, t, true)];
      conversationHistory := conversationHistory + [UserLine(t)];
      // The model is asked with `PromptText(context)`.
      var context := Window(conversationHistory);
      engineCalls := engineCalls + [Complete(context)];
      var aiResponse := GetAiResponse(o.reply);
      conversationHistory := conversationHistory + [AiLine(aiResponse)];
      sent := sent + [TranscriptMessage(aiResponse, Ai)];
    }

    /** The end of `process_audio`'s recognised branch: the reply's row, the synthesis and
        the audio URL. */
    method Publish(reply: string, o: Outcomes) returns (failure: Option<string>)
      modifies this`transcripts, this`engineCalls, this`files, this`sent
      ensures Progress(State(), failure) == Deliver(old(State()), reply, o)
    {
      if o.aiRow.WriteRaised? {
        return Some(o.aiRow.message);
      }
      transcripts := transcripts + [TranscriptRow(call.id, reply, false)];
      var audioResponse := TextToSpeech(reply, o);
      if audioResponse.SynthesisRaised? {
        failure := Some(audioResponse.message);
      } else {
        // The URL is built from the call id, not from the path the synthesis returned.
        sent := sent + [AudioReady(AudioUrl(call.id))];
        failure := None;
      }
    }

    /** `_recognize_speech`: asks the recogniser for the text of `audio`, saved at `wavPath`. */
    method RecognizeSpeech(wavPath: string, audio: seq<byte>, r: Recognition) returns (text: Option<string>)
      modifies this`engineCalls
      ensures engineCalls == old(engineCalls) + [Recognize(wavPath, audio, language)]
      ensures text == Transcribed(r)
    {
      engineCalls := engineCalls + [Recognize(wavPath, audio, language)];
      match r
      case Recognized(t) => text := Some(t);
      case UnknownValue => text := None;
      case RequestFailed(_) => text := None;
      case Unexpected(_) => text := None;
    }

    /** `_text_to_speech`: the sped-up synthesis, and the plain one if that raises. */
    method TextToSpeech(text: string, o: Outcomes) returns (result: Synthesized)
      modifies this`engineCalls, this`files
      ensures engineCalls == old(engineCalls) + TtsCalls(text, Config(language, voice, speed), o)
      ensures files == TtsFiles(old(files), call.id, o)
      ensures result == TtsResult(call.id, o)
    {
      var selection := VoiceFor(language, voice);
      engineCalls := engineCalls + [Synthesize(text, selection.0, selection.1, Some(speed))];
      match o.primary
      case SpedUp =>
        files := files + {DraftPath(call.id)};
        files := files + {MediaPath(call.id)};
        files := files - {DraftPath(call.id)};
        result := SavedAt(MediaPath(call.id));
      case PrimaryRaised(draftLeft) =>
        if draftLeft {
          files := files + {DraftPath(call.id)};
        }
        engineCalls := engineCalls + [Synthesize(text, language, "com", None)];
        match o.fallback
        case FallbackSaved =>
          files := files + {MediaPath(call.id)};
          result := SavedAt(MediaPath(call.id));
        case FallbackRaised(message) =>
          result := SynthesisRaised(message);
    }
  }
}
