/** The per-call session of `CallConsumer` as values: what each event does to the buffer,
    the history, the busy flag, the messages sent, the transcript rows written, the requests
    made of the engines and the files left on disk (agent/consumers.py). */
module Sessions {
  import opened Wrappers
  import opened Naming
  import opened Protocol
  import opened Engines
  import opened Conversation
  import Admin

  /** Recordings shorter than this are dropped without a turn. */
  const MinAudioBytes := 1000

  datatype Config = Config(language: string, voice: string, speed: string)
  datatype CallRecord = CallRecord(id: nat, startTime: int, endTime: Option<int>)
  datatype TranscriptRow = TranscriptRow(callId: nat, text: string, isUser: bool)

  datatype Session = Session(
    buffer: seq<byte>,
    history: seq<string>,
    busy: bool,
    config: Config,
    call: CallRecord,
    outbox: seq<Outbound>,
    rows: seq<TranscriptRow>,
    engineCalls: seq<EngineCall>,
    files: set<string>)

  /** The session right after `connect`. */
  function Connected(callId: nat, now: int, query: seq<(string, string)>): Session
  {
    var config := Config(QueryParam(query, "language", "en"),
                         QueryParam(query, "voice", "female"),
                         QueryParam(query, "speed", "1.3"));
    Session([], [], false, config, CallRecord(callId, now, None),
            [Ack(ConnectedMessage, config.language, config.voice, config.speed)], [], [], {})
  }

  /** The session after `disconnect` at time `now`. */
  function Disconnected(s: Session, now: int): Session
  {
    s.(call := s.call.(endTime := Some(now)))
  }

  // ---------------------------------------------------------------------------------------
  // One turn, in the order `process_audio` takes its steps.

  /** The reply the consumer speaks: the model's text, or the apology. */
  function Reply(o: Outcomes): string
  {
    GetAiResponse(o.reply)
  }

  /** The synthesis requests `_text_to_speech` makes: the sped-up one with the selected
      accent, then, if that raised, a plain one in the session's language. */
  function TtsCalls(text: string, config: Config, o: Outcomes): seq<EngineCall>
  {
    var selection := VoiceFor(config.language, config.voice);
    [Synthesize(text, selection.0, selection.1, Some(config.speed))] +
    (if o.primary.PrimaryRaised? then [Synthesize(text, config.language, "com", None)] else [])
  }

  /** The files after `_text_to_speech`. */
  function TtsFiles(files: set<string>, id: nat, o: Outcomes): set<string>
  {
    match o.primary
    case SpedUp => files + {DraftPath(id)} + {MediaPath(id)} - {DraftPath(id)}
    case PrimaryRaised(draftLeft) =>
      var kept := if draftLeft then files + {DraftPath(id)} else files;
      if o.fallback.FallbackSaved? then kept + {MediaPath(id)} else kept
  }

  /** What `_text_to_speech` returns or raises. */
  function TtsResult(id: nat, o: Outcomes): Synthesized
  {
    if o.primary.PrimaryRaised? && o.fallback.FallbackRaised? then SynthesisRaised(o.fallback.message)
    else SavedAt(MediaPath(id))
  }

  /** The session so far, and the exception that ended the attempt, if any. */
  datatype Progress = Progress(session: Session, failure: Option<string>)

  /** From writing the reply's row to sending the audio URL. */
  function Deliver(s: Session, reply: string, o: Outcomes): Progress
  {
    if o.aiRow.WriteRaised? then Progress(s, Some(o.aiRow.message))
    else
      var voiced := s.(rows := s.rows + [TranscriptRow(s.call.id, reply, false)],
                       engineCalls := s.engineCalls + TtsCalls(reply, s.config, o),
                       files := TtsFiles(s.files, s.call.id, o));
      match TtsResult(s.call.id, o)
      case SynthesisRaised(why) => Progress(voiced, Some(why))
      case SavedAt(_) => Progress(voiced.(outbox := voiced.outbox + [AudioReady(AudioUrl(s.call.id))]), None)
  }

  /** The session once the user's row is written and the model has answered: the row, both
      history lines, the request and the reply's message. */
  function Consulted(s: Session, t: string, o: Outcomes): Session
  {
    var asked := s.history + [UserLine(t)];
    var reply := GetAiResponse(o.reply);
    s.(outbox := s.outbox + [TranscriptMessage(reply, Ai)],
       rows := s.rows + [TranscriptRow(s.call.id, t, true)],
       history := asked + [AiLine(reply)],
       engineCalls := s.engineCalls + [Complete(Window(asked))])
  }

  /** From sending the recognised text `t` onwards. */
  function Converse(s: Session, t: string, o: Outcomes): Progress
  {
    var told := s.(outbox := s.outbox + [TranscriptMessage(t, User)]);
    if o.userRow.WriteRaised? then Progress(told, Some(o.userRow.message))
    else Deliver(Consulted(told, t, o), GetAiResponse(o.reply), o)
  }

  /** The body of the `try` once the recording `audio` is on disk: recognise, answer, and
      remove the recording unless something raised. */
  function Attempt(s: Session, audio: seq<byte>, o: Outcomes): Progress
  {
    var wav := WavPath(s.call.id);
    var heard := s.(engineCalls := s.engineCalls + [Recognize(wav, audio, s.config.language)]);
    var p := match Utterance(o.recognition)
             case Some(t) => Converse(heard, t, o)
             case None => Progress(heard.(outbox := heard.outbox + [TranscriptMessage(NotUnderstoodNotice, System)]), None);
    if p.failure.None? then Progress(p.session.(files := p.session.files - {wav}), None) else p
  }

  /** `process_audio`: a recording under `MinAudioBytes` is dropped; otherwise the buffer is
      taken, saved as the call's WAV file, and the attempt runs with the busy flag set; an
      exception from it is reported as one error notice. */
  function Turn(s: Session, o: Outcomes): (r: Session)
    ensures r.buffer == [] && r.config == s.config && r.call == s.call
    ensures |s.buffer| >= MinAudioBytes ==> !r.busy
  {
    if |s.buffer| < MinAudioBytes then s.(buffer := [])
    else
      var begun := s.(buffer := [], busy := true, files := s.files + {WavPath(s.call.id)});
      var p := Attempt(begun, s.buffer, o);
      var caught := match p.failure
                    case Some(why) => p.session.(outbox := p.session.outbox + [ErrorNotice(ErrorText(why))])
                    case None => p.session;
      caught.(busy := false)
  }

  // ---------------------------------------------------------------------------------------
  // Events.

  /** `receive` for one frame; `None` when it raises (a JSON value that is not an object has
      no `.get`). */
  function Step(s: Session, f: Frame, o: Outcomes): Option<Session>
  {
    match f
    case BytesFrame(data) => Some(if data == [] then s else s.(buffer := s.buffer + data))
    case TextFrame(text, decoded) =>
      if text == "" then Some(s)
      else match decoded
        case None => Some(s)
        case Some(j) =>
          if !j.JObject? then None
          else if EndOfSpeech(j.members) && !s.busy && |s.buffer| > 0 then Some(Turn(s, o))
          else Some(s)
  }

  datatype Event = Event(frame: Frame, outcomes: Outcomes)

  /** Frames handled one after another, as Channels dispatches them; a frame on which
      `receive` raises ends the consumer. */
  function Run(s: Session, events: seq<Event>): Session
    decreases |events|
  {
    if events == [] then s
    else match Step(s, events[0].frame, events[0].outcomes)
      case None => s
      case Some(next) => Run(next, events[1..])
  }

  /** Appended to the history in pairs: each user line followed by the reply's line. */
  ghost predicate Alternating(history: seq<string>)
  {
    |history| % 2 == 0 &&
    forall i :: 0 <= i < |history| ==> HasPrefix(history[i], if i % 2 == 0 then "User: " else "AI: ")
  }

  /** Every row belongs to the call, and every reply's row directly follows a user's row. */
  ghost predicate Paired(rows: seq<TranscriptRow>, callId: nat)
  {
    forall i {:trigger rows[i]} :: 0 <= i < |rows| ==> rows[i].callId == callId && (!rows[i].isUser ==> 0 < i && rows[i - 1].isUser)
  }

  /** What holds between any two events. */
  ghost predicate Settled(s: Session)
  {
    !s.busy && Alternating(s.history) && Paired(s.rows, s.call.id)
  }

  // ---------------------------------------------------------------------------------------
  // Connect and disconnect.

  /** `connect` starts idle with empty buffer and history, and acknowledges the effective
      configuration, defaulting to `en`, `female`, `1.3`. */
  lemma ConnectDefaults(callId: nat, now: int, query: seq<(string, string)>)
    ensures var s := Connected(callId, now, query);
            Settled(s) && s.buffer == [] && s.history == [] && s.rows == [] && s.engineCalls == [] &&
            s.call == CallRecord(callId, now, None) &&
            s.outbox == [Ack(ConnectedMessage, s.config.language, s.config.voice, s.config.speed)] &&
            (query == [] ==> s.config == Config("en", "female", "1.3"))
  {
  }

  /** `disconnect` stamps the end time and nothing else; the admin then shows the elapsed
      time instead of "Ongoing". */
  lemma HangUpShowsDuration(s: Session, now: int)
    ensures var r := Disconnected(s, now);
            r == s.(call := CallRecord(s.call.id, s.call.startTime, Some(now))) &&
            Admin.Duration(r.call.startTime, r.call.endTime) == Admin.Elapsed(now - s.call.startTime)
  {
  }

  // ---------------------------------------------------------------------------------------
  // Frames.

  /** A binary frame only appends its bytes to the buffer. */
  lemma BytesFrameAppends(s: Session, data: seq<byte>, o: Outcomes)
    ensures Step(s, BytesFrame(data), o) == Some(s.(buffer := s.buffer + data))
  {
    assert data == [] ==> s.buffer + data == s.buffer;
  }

  /** A text frame starts a turn exactly when it decodes to an object whose
      `end_of_speech` is truthy while the consumer is idle and has buffered audio; an empty,
      undecodable or otherwise unflagged frame changes nothing, and a decoded value that is
      not an object makes `receive` raise. */
  lemma TextFrameAdmission(s: Session, text: string, decoded: Option<Json>, o: Outcomes)
    ensures var r := Step(s, TextFrame(text, decoded), o);
            var admitted := text != "" && decoded.Some? && decoded.value.JObject? &&
                            EndOfSpeech(decoded.value.members) && !s.busy && |s.buffer| > 0;
            (r.None? == (text != "" && decoded.Some? && !decoded.value.JObject?)) &&
            (admitted ==> r == Some(Turn(s, o))) &&
            (r.Some? && !admitted ==> r == Some(s))
  {
  }

  // ---------------------------------------------------------------------------------------
  // The turn, path by path.

  /** A short recording is dropped: no message, no row, no engine request, and the busy
      flag is left as it was. */
  lemma ShortRecordingDropped(s: Session, o: Outcomes)
    requires |s.buffer| < MinAudioBytes
    ensures Turn(s, o) == s.(buffer := [])
  {
  }

  /** A turn takes the whole buffer, hands exactly those bytes to the recogniser first, and
      ends idle whichever way it ends. */
  lemma TurnTakesSnapshot(s: Session, o: Outcomes)
    requires |s.buffer| >= MinAudioBytes
    ensures var r := Turn(s, o);
            r.buffer == [] && !r.busy && |r.engineCalls| > |s.engineCalls| &&
            r.engineCalls[..|s.engineCalls|] == s.engineCalls &&
            r.engineCalls[|s.engineCalls|] == Recognize(WavPath(s.call.id), s.buffer, s.config.language)
  {
  }

  /** No usable text (every recogniser exception, or an empty text): one system notice, no
      row, history unchanged, no model or synthesis request, recording removed. */
  lemma NotUnderstoodTurn(s: Session, o: Outcomes)
    requires |s.buffer| >= MinAudioBytes
    requires !o.recognition.Recognized? || o.recognition.text == ""
    ensures var r := Turn(s, o);
            r.outbox == s.outbox + [TranscriptMessage(NotUnderstoodNotice, System)] &&
            r.rows == s.rows && r.history == s.history &&
            r.engineCalls == s.engineCalls + [Recognize(WavPath(s.call.id), s.buffer, s.config.language)] &&
            WavPath(s.call.id) !in r.files && r.files == s.files - {WavPath(s.call.id)}
  {
  }

  /** A recognised text `t` whose two rows are written: the user's row then the reply's,
      the two history lines, the user's text and the reply sent in that order, and the
      requests: recognition, the model, then synthesis. */
  lemma RepliedTurn(s: Session, o: Outcomes, t: string)
    requires |s.buffer| >= MinAudioBytes
    requires Utterance(o.recognition) == Some(t)
    requires o.userRow.Written? && o.aiRow.Written?
    ensures var r := Turn(s, o);
            r.rows == s.rows + [TranscriptRow(s.call.id, t, true), TranscriptRow(s.call.id, Reply(o), false)] &&
            r.history == s.history + [UserLine(t), AiLine(Reply(o))] &&
            r.outbox[..|s.outbox| + 2] == s.outbox + [TranscriptMessage(t, User), TranscriptMessage(Reply(o), Ai)] &&
            r.engineCalls == s.engineCalls + [Recognize(WavPath(s.call.id), s.buffer, s.config.language),
                                              Complete(Window(s.history + [UserLine(t)]))] +
                                             TtsCalls(Reply(o), s.config, o)
  {
  }

  /** A recognised text `t` with a reply that is written and voiced: the messages are the
      user's text, the reply and the audio URL, in that order; the rows are the user's then the
      reply's; the history grows by the two lines; the reply is the apology when the model
      failed; the URL is built from the call id; the recording is removed and the reply audio
      is on disk; the draft is gone after a sped-up synthesis, and left behind when the
      sped-up attempt raised after saving it. */
  lemma SpokenTurn(s: Session, o: Outcomes, t: string)
    requires |s.buffer| >= MinAudioBytes
    requires o.recognition == Recognized(t) && t != ""
    requires o.userRow.Written? && o.aiRow.Written?
    requires o.primary.SpedUp? || o.fallback.FallbackSaved?
    ensures var r := Turn(s, o);
            var reply := if o.reply.Some? then o.reply.value else Apology;
            r.outbox == s.outbox + [TranscriptMessage(t, User), TranscriptMessage(reply, Ai),
                                    AudioReady("/media/response_" + Decimal(s.call.id) + ".mp3")] &&
            r.rows == s.rows + [TranscriptRow(s.call.id, t, true), TranscriptRow(s.call.id, reply, false)] &&
            r.history == s.history + ["User: " + t, "AI: " + reply] &&
            WavPath(s.call.id) !in r.files && MediaPath(s.call.id) in r.files &&
            (o.primary.SpedUp? ==> DraftPath(s.call.id) !in r.files) &&
            (o.primary == PrimaryRaised(true) ==> DraftPath(s.call.id) in r.files)
  {
    NamesKeptApart(s.call.id, s.call.id);
  }

  /** The model is asked with the last five history entries, the newest being the user's
      line just appended (whose prompt text `PromptEndsWithLatest` describes). */
  lemma PromptOfTurn(s: Session, o: Outcomes, t: string)
    requires |s.buffer| >= MinAudioBytes
    requires Utterance(o.recognition) == Some(t)
    requires o.userRow.Written?
    ensures var r := Turn(s, o);
            var h := s.history + [UserLine(t)];
            |r.engineCalls| > |s.engineCalls| + 1 &&
            r.engineCalls[|s.engineCalls| + 1] == Complete(h[|h| - Min(WindowSize, |h|)..])
  {
    var begun := s.(buffer := [], busy := true, files := s.files + {WavPath(s.call.id)});
    var heard := begun.(engineCalls := begun.engineCalls + [Recognize(WavPath(s.call.id), s.buffer, s.config.language)]);
    var c := Consulted(heard.(outbox := heard.outbox + [TranscriptMessage(t, User)]), t, o);
    var k := |s.engineCalls| + 1;
    assert c.engineCalls[k] == Complete(Window(s.history + [UserLine(t)]));
    DeliverExtends(c, Reply(o), o);
  }

  /** `Deliver` only appends to the engine requests. */
  lemma DeliverExtends(s: Session, reply: string, o: Outcomes)
    ensures var d := Deliver(s, reply, o).session;
            |s.engineCalls| <= |d.engineCalls| && d.engineCalls[..|s.engineCalls|] == s.engineCalls
  {
  }


  /** Both syntheses raise: the user's text and the reply go out, then exactly one error
      notice and no audio URL; both rows are written; the plain fallback in the session's
      language was tried after the sped-up attempt; the recording stays on disk. */
  lemma UnvoicedTurn(s: Session, o: Outcomes, t: string)
    requires |s.buffer| >= MinAudioBytes
    requires o.recognition == Recognized(t) && t != ""
    requires o.userRow.Written? && o.aiRow.Written?
    requires o.primary.PrimaryRaised? && o.fallback.FallbackRaised?
    ensures var r := Turn(s, o);
            var selection := VoiceFor(s.config.language, s.config.voice);
            r.outbox == s.outbox + [TranscriptMessage(t, User), TranscriptMessage(Reply(o), Ai),
                                    ErrorNotice("Error processing audio: " + o.fallback.message)] &&
            r.rows == s.rows + [TranscriptRow(s.call.id, t, true), TranscriptRow(s.call.id, Reply(o), false)] &&
            r.engineCalls[|s.engineCalls| + 2..] ==
              [Synthesize(Reply(o), selection.0, selection.1, Some(s.config.speed)),
               Synthesize(Reply(o), s.config.language, "com", None)] &&
            WavPath(s.call.id) in r.files
  {
  }

  /** The user's text is sent before its row is written, so a failing write still leaves
      the message out, with an error notice after it, no row, and no request to the model. */
  lemma UserRowLostTurn(s: Session, o: Outcomes, t: string)
    requires |s.buffer| >= MinAudioBytes
    requires o.recognition == Recognized(t) && t != ""
    requires o.userRow.WriteRaised?
    ensures var r := Turn(s, o);
            r.outbox == s.outbox + [TranscriptMessage(t, User), ErrorNotice(ErrorText(o.userRow.message))] &&
            r.rows == s.rows && r.history == s.history &&
            |r.engineCalls| == |s.engineCalls| + 1 && WavPath(s.call.id) in r.files
  {
  }

  /** The reply is sent, and both history lines appended, before the reply's row is written:
      a failing write leaves the user's row alone in the table. */
  lemma AiRowLostTurn(s: Session, o: Outcomes, t: string)
    requires |s.buffer| >= MinAudioBytes
    requires o.recognition == Recognized(t) && t != ""
    requires o.userRow.Written? && o.aiRow.WriteRaised?
    ensures var r := Turn(s, o);
            r.outbox == s.outbox + [TranscriptMessage(t, User), TranscriptMessage(Reply(o), Ai),
                                    ErrorNotice(ErrorText(o.aiRow.message))] &&
            r.rows == s.rows + [TranscriptRow(s.call.id, t, true)] &&
            r.history == s.history + [UserLine(t), AiLine(Reply(o))] &&
            WavPath(s.call.id) in r.files
  {
  }

  // ---------------------------------------------------------------------------------------
  // Invariants over sequences of events.

  lemma AlternatingGrows(history: seq<string>, said: seq<string>, user: string, reply: string)
    requires Alternating(history)
    requires said == [] || said == [UserLine(user), AiLine(reply)]
    ensures Alternating(history + said)
  {
    var h := history + said;
    assert HasPrefix(UserLine(user), "User: ") && HasPrefix(AiLine(reply), "AI: ");
    forall i | 0 <= i < |h|
      ensures HasPrefix(h[i], if i % 2 == 0 then "User: " else "AI: ")
    {
      if i >= |history| {
        assert h[i] == said[i - |history|];
      }
    }
  }

  lemma PairedGrows(rows: seq<TranscriptRow>, callId: nat, saved: seq<TranscriptRow>, user: string, reply: string)
    requires Paired(rows, callId)
    requires saved == [] || saved == [TranscriptRow(callId, user, true)] ||
             saved == [TranscriptRow(callId, user, true), TranscriptRow(callId, reply, false)]
    ensures Paired(rows + saved, callId)
  {
    var r := rows + saved;
    forall i | 0 <= i < |r|
      ensures r[i].callId == callId && (!r[i].isUser ==> 0 < i && r[i - 1].isUser)
    {
      if i < |rows| {
        assert r[i] == rows[i];
        if !r[i].isUser {
          assert r[i - 1] == rows[i - 1];
        }
      } else {
        assert r[i] == saved[i - |rows|];
        if i > |rows| {
          assert r[i - 1] == saved[0];
        }
      }
    }
  }

  lemma TurnKeepsSettled(s: Session, o: Outcomes)
    requires Settled(s)
    ensures Settled(Turn(s, o))
  {
    if |s.buffer| >= MinAudioBytes {
      match Utterance(o.recognition)
      case None =>
        NotUnderstoodTurn(s, o);
      case Some(t) =>
        var said := [UserLine(t), AiLine(Reply(o))];
        var user := TranscriptRow(s.call.id, t, true);
        if o.userRow.WriteRaised? {
          UserRowLostTurn(s, o, t);
        } else if o.aiRow.WriteRaised? {
          AiRowLostTurn(s, o, t);
          AlternatingGrows(s.history, said, t, Reply(o));
          PairedGrows(s.rows, s.call.id, [user], t, Reply(o));
        } else {
          RepliedTurn(s, o, t);
          AlternatingGrows(s.history, said, t, Reply(o));
          PairedGrows(s.rows, s.call.id, [user, TranscriptRow(s.call.id, Reply(o), false)], t, Reply(o));
        }
    }
  }

  lemma StepKeepsSettled(s: Session, f: Frame, o: Outcomes)
    requires Settled(s) && Step(s, f, o).Some?
    ensures Settled(Step(s, f, o).value)
  {
    if f.TextFrame? && f.text != "" && f.decoded.Some? && f.decoded.value.JObject? &&
       EndOfSpeech(f.decoded.value.members) && |s.buffer| > 0 {
      TurnKeepsSettled(s, o);
    }
  }

  /** Because Channels hands `receive` one frame at a time and `process_audio` is awaited,
      the consumer is idle whenever a frame arrives: the busy flag is false after any
      sequence of events, history lines come in user/reply pairs, and no reply row is
      written without the user row just before it. */
  lemma {:induction false} RunKeepsSettled(s: Session, events: seq<Event>)
    requires Settled(s)
    ensures Settled(Run(s, events))
    decreases |events|
  {
    if events != [] {
      var step := Step(s, events[0].frame, events[0].outcomes);
      if step.Some? {
        StepKeepsSettled(s, events[0].frame, events[0].outcomes);
        RunKeepsSettled(step.value, events[1..]);
      }
    }
  }

  /** A whole session from `connect`: settled after every prefix of its events. */
  lemma SessionStaysSettled(callId: nat, now: int, query: seq<(string, string)>, events: seq<Event>)
    ensures Settled(Run(Connected(callId, now, query), events))
  {
    ConnectDefaults(callId, now, query);
    RunKeepsSettled(Connected(callId, now, query), events);
  }

  function Flatten(chunks: seq<seq<byte>>): seq<byte>
  {
    if chunks == [] then [] else chunks[0] + Flatten(chunks[1..])
  }

  function BytesEvents(chunks: seq<seq<byte>>, o: Outcomes): (events: seq<Event>)
    ensures |events| == |chunks|
    ensures forall i :: 0 <= i < |chunks| ==> events[i] == Event(BytesFrame(chunks[i]), o)
  {
    seq(|chunks|, i requires 0 <= i < |chunks| => Event(BytesFrame(chunks[i]), o))
  }

  /** The `{"end_of_speech": true}` frame. */
  function EndSignal(o: Outcomes): Event
  {
    Event(TextFrame("{\"end_of_speech\": true}", Some(JObject([("end_of_speech", JBool(true))]))), o)
  }

  /** Binary frames only accumulate, whatever follows them. */
  lemma {:induction false} BytesThen(s: Session, chunks: seq<seq<byte>>, o: Outcomes, rest: seq<Event>)
    ensures Run(s, BytesEvents(chunks, o) + rest) == Run(s.(buffer := s.buffer + Flatten(chunks)), rest)
    decreases |chunks|
  {
    if chunks == [] {
      assert BytesEvents(chunks, o) + rest == rest;
      assert s.(buffer := s.buffer + Flatten(chunks)) == s;
    } else {
      var events := BytesEvents(chunks, o) + rest;
      var next := s.(buffer := s.buffer + chunks[0]);
      assert events[0] == Event(BytesFrame(chunks[0]), o);
      BytesFrameAppends(s, chunks[0], o);
      assert events[1..] == BytesEvents(chunks[1..], o) + rest;
      BytesThen(next, chunks[1..], o, rest);
      assert next.buffer + Flatten(chunks[1..]) == s.buffer + Flatten(chunks);
    }
  }

  /** Bytes sent before the end-of-speech signal are exactly what the recogniser gets;
      bytes sent after it wait in the fresh buffer for the next turn. */
  lemma TurnTakesExactlyWhatArrived(s: Session, before: seq<seq<byte>>, after: seq<seq<byte>>,
                                    o: Outcomes, signal: Outcomes)
    requires !s.busy && |s.buffer + Flatten(before)| >= MinAudioBytes
    ensures var r := Run(s, BytesEvents(before, o) + [EndSignal(signal)] + BytesEvents(after, o));
            r.buffer == Flatten(after) && !r.busy && |r.engineCalls| > |s.engineCalls| &&
            r.engineCalls[|s.engineCalls|] == Recognize(WavPath(s.call.id), s.buffer + Flatten(before), s.config.language)
  {
    var tail := [EndSignal(signal)] + BytesEvents(after, o);
    assert BytesEvents(before, o) + [EndSignal(signal)] + BytesEvents(after, o) == BytesEvents(before, o) + tail;
    BytesThen(s, before, o, tail);
    var gathered := s.(buffer := s.buffer + Flatten(before));
    SignalThen(gathered, signal, BytesEvents(after, o));
    var turned := Turn(gathered, signal);
    TurnTakesSnapshot(gathered, signal);
    assert BytesEvents(after, o) == BytesEvents(after, o) + [];
    BytesThen(turned, after, o, []);
    var final := turned.(buffer := turned.buffer + Flatten(after));
    assert Run(final, []) == final;
  }

  /** The end-of-speech signal starts a turn on an idle consumer with buffered audio, and
      the events after it carry on from the turn's result. */
  lemma SignalThen(s: Session, o: Outcomes, rest: seq<Event>)
    requires !s.busy && |s.buffer| > 0
    ensures Run(s, [EndSignal(o)] + rest) == Run(Turn(s, o), rest)
  {
    var events := [EndSignal(o)] + rest;
    assert events[0] == EndSignal(o) && events[1..] == rest;
    assert EndOfSpeech([("end_of_speech", JBool(true))]);
    assert Step(s, EndSignal(o).frame, o) == Some(Turn(s, o));
  }
}
