# AI call agent: the per-call consumer

This project models `CallConsumer`, the Django Channels WebSocket consumer of the AI call
agent, together with the two computed columns of its admin pages. A browser streams one
call's microphone audio to the consumer as binary frames and signals the end of an
utterance with the text frame `{"end_of_speech": true}`. On that signal the consumer runs
one *turn* over the buffered recording:

1. It saves the buffer as `temp/temp_audio_<id>.wav`.
2. It asks the speech recogniser for the text.
3. It sends the text back as the user's transcript and writes the user's transcript row.
4. It asks the language model, given an instruction and the last five history lines, for a
   reply, falling back to a fixed apology when the model call fails.
5. It sends and stores the reply.
6. It synthesises the reply with gTTS (sped up, with an accent picked from the language and
   voice; a plain synthesis is the fallback) and tells the client where to fetch the audio.

The call row is created on connect and stamped with its end time on disconnect.

The model has two layers:

- **`Sessions`** describes the consumer's state as a value, `Session`. Besides the fields of
  the consumer, it carries four logs of what the consumer did to the outside world:
  - the messages sent;
  - the transcript rows written;
  - the requests made of the engines, including the exact audio bytes given to the
    recogniser;
  - the set of files left on disk.

  `Turn`, `Step` and `Run` say what a turn, one frame and a sequence of frames do to a
  session. They follow the order of the steps in `process_audio`. The lemmas state, path by
  path, what a turn does and which invariants every sequence of events preserves.
- **`Consumers.CallConsumer`** is a class with the consumer's fields, updated in place by
  its handlers. Each handler is proved to do what the matching `Sessions` function says, via
  `State()`.

The engines and the database are not called. Their behaviour is an `Outcomes` value given
with each event:
- what the recogniser returns or raises;
- whether each transcript write succeeds;
- the model's text, or a failure;
- whether the sped-up synthesis completes, and if not whether it left its draft behind;
- whether the fallback synthesis succeeds.

Modules:
- `Naming`: file and URL names.
- `Protocol`: frames, JSON and messages.
- `Engines`: engine outcomes and the voice selection.
- `Conversation`: the history and prompt.
- `Admin`: the admin columns.
- `Sessions`: the session as a value.
- `Consumers`: the class.

## Model

| member | source | states |
|---|---|---|
| Naming.Decimal | agent/consumers.py:109 | the f-string of a call id is one or more decimal digits, a single digit exactly for ids under ten, with a leading zero only for zero |
| Naming.DecimalInjective | agent/consumers.py:109 | two different call ids never print the same |
| Naming.WavPathsDistinct | agent/consumers.py:109 | two calls share a temporary recording name exactly when they are the same call |
| Naming.DraftPathsDistinct | agent/consumers.py:271 | two calls share a synthesis draft name exactly when they are the same call |
| Naming.MediaPathsDistinct | agent/consumers.py:289 | two calls share a published reply name exactly when they are the same call |
| Naming.NamesKeptApart | agent/consumers.py:186 | the audio URL is the published file's path under `/`; the recording, the draft and the published file never share a name, whichever calls they belong to |
| Protocol.Lookup | agent/consumers.py:77-78 | `get` on a decoded object is absent exactly when no member has the key; otherwise it is the value of the last member with that key |
| Protocol.QueryParam | agent/consumers.py:50-54 | a connection parameter is the first non-blank value given for its key, and the default when none is given |
| Engines.Transcribed | agent/consumers.py:216-248 | `_recognize_speech` yields a text exactly when the recogniser returns one (that text), and `None` for each of the three exceptions |
| Engines.Utterance | agent/consumers.py:136 | the turn goes on with the recogniser's text exactly when it returned a non-empty one |
| Engines.VoiceFor | agent/consumers.py:255-267 | the primary synthesis keeps the session's language; the domain is one of `co.uk`, `com.au`, `co.in`, `com`; `com` exactly for languages other than `en` and `hi`; `co.uk` only for English with a male voice, `com.au` only for English otherwise, `co.in` only for Hindi |
| Conversation.Window | agent/consumers.py:155 | the prompt's history is the last `min(5, len)` entries of the history |
| Conversation.JoinSnoc | agent/consumers.py:155 | joining one more line appends the separator and that line |
| Conversation.JoinEndsWithLast | agent/consumers.py:155 | a joined non-empty list of lines ends with its last line |
| Conversation.PromptEndsWithLatest | agent/consumers.py:150-155 | after a line is appended to the history, the prompt starts with the instruction and a blank line and ends with that line |
| Conversation.PromptIgnoresOlder | agent/consumers.py:155 | entries older than the last five do not change the prompt |
| Conversation.GetAiResponse | agent/consumers.py:18-30 | the reply is the model's text, or the fixed apology when the model call raised |
| Admin.ShortText | agent/admin.py:56-57 | a text of at most 60 characters is shown whole; a longer one as its first 60 characters and `...`; the shown text never exceeds 63 characters and always starts with the text's first `min(60, len)` characters |
| Admin.Duration | agent/admin.py:41-44 | the column shows "Ongoing" exactly while the call has no end time, otherwise the elapsed time from start to end |
| Sessions.Turn | agent/consumers.py:93-214 | a turn always empties the buffer and keeps the configuration and the call; a turn over a recording of at least 1000 bytes always ends with the busy flag cleared |
| Sessions.ConnectDefaults | agent/consumers.py:34-64 | after connect the buffer, history, rows and engine requests are empty, the consumer is idle, the call is open from `now`, exactly one acknowledgement carrying the effective configuration has been sent, and the defaults are `en`, `female`, `1.3` |
| Sessions.HangUpShowsDuration | agent/consumers.py:67-71 | disconnect changes only the call's end time; afterwards the admin shows the elapsed time instead of "Ongoing" |
| Sessions.BytesFrameAppends | agent/consumers.py:88-90 | a binary frame only appends its bytes to the buffer |
| Sessions.TextFrameAdmission | agent/consumers.py:73-86 | a text frame raises exactly when it decodes to a value that is not an object; it starts a turn when it decodes to an object with a truthy `end_of_speech`, the consumer is idle and the buffer is non-empty; otherwise it changes nothing |
| Sessions.ShortRecordingDropped | agent/consumers.py:96-99 | a recording under 1000 bytes is discarded with no message, row, request or file |
| Sessions.TurnTakesSnapshot | agent/consumers.py:101-134 | a turn ends idle with an empty buffer, and its first engine request is recognition of exactly the buffered bytes, from the call's WAV file, in the session's language |
| Sessions.NotUnderstoodTurn | agent/consumers.py:191-201 | with no usable text (any recogniser exception, or an empty text) the turn sends one "Could not understand audio" notice, writes no row, leaves the history alone, makes no model or synthesis request and removes the recording |
| Sessions.RepliedTurn | agent/consumers.py:136-183 | when both rows are written, the rows are the user's then the reply's, the history grows by `User: t` and `AI: reply`, the user's text and the reply are sent in that order, and the requests are recognition, the model, then synthesis |
| Sessions.SpokenTurn | agent/consumers.py:136-201 | a voiced reply sends exactly the user's text, the reply (or the apology) and `/media/response_<id>.mp3`; writes both rows; grows the history by both lines; removes the recording; leaves the reply audio; removes the draft after a sped-up synthesis and leaves it when the sped-up attempt raised after saving it |
| Sessions.PromptOfTurn | agent/consumers.py:150-161 | the model is asked, right after recognition, with the last five history entries, ending with the user line just appended |
| Sessions.UnvoicedTurn | agent/consumers.py:178-211 | when both syntheses raise, the user's text and the reply go out followed by exactly one error notice carrying the fallback's message and no audio URL; both rows are written; the plain synthesis in the session's language follows the sped-up one; the recording stays on disk |
| Sessions.UserRowLostTurn | agent/consumers.py:136-148 | when writing the user's row raises, the user's text has already gone out; one error notice follows, no row is written, the history is unchanged, the model is not asked and the recording stays |
| Sessions.AiRowLostTurn | agent/consumers.py:163-176 | when writing the reply's row raises, the reply and both history lines are already out; one error notice follows, only the user's row is written and the recording stays |
| Sessions.TurnKeepsSettled | agent/consumers.py:101-214 | a turn from an idle consumer ends idle; history lines stay in user/reply pairs; every row belongs to the call, and each reply row directly follows a user row |
| Sessions.StepKeepsSettled | agent/consumers.py:73-91 | handling any frame that does not raise keeps those properties |
| Sessions.RunKeepsSettled | agent/consumers.py:73-82 | they hold after any sequence of frames handled one at a time |
| Sessions.SessionStaysSettled | agent/consumers.py:39-41 | they hold for the whole life of a connection, from connect on |
| Sessions.BytesThen | agent/consumers.py:88-90 | a run of binary frames is the same as appending all their bytes at once, whatever follows |
| Sessions.SignalThen | agent/consumers.py:78-82 | the end-of-speech signal on an idle consumer with buffered audio runs one turn, and the later frames go on from its result |
| Sessions.TurnTakesExactlyWhatArrived | agent/consumers.py:104-106 | the recogniser gets exactly the bytes that arrived before the signal; bytes arriving after it wait in the fresh buffer for the next turn, and the consumer is idle again |
| Consumers.CallConsumer.Connect | agent/consumers.py:34-64 | the new consumer's state is `Sessions.Connected` for the call id, time and query, and it is settled |
| Consumers.CallConsumer.Disconnect | agent/consumers.py:67-71 | the new state is the old one with the call's end time stamped |
| Consumers.CallConsumer.Receive | agent/consumers.py:73-91 | the handler raises exactly when `Sessions.Step` does, and otherwise leaves the state `Step` gives |
| Consumers.CallConsumer.ProcessAudio | agent/consumers.py:93-214 | the new state is `Sessions.Turn` of the old one |
| Consumers.CallConsumer.ProcessRecording | agent/consumers.py:128-201 | recognise, answer or give the not-understood notice, and remove the recording unless an exception is pending: the state and pending exception are `Sessions.Attempt`'s |
| Consumers.CallConsumer.Answer | agent/consumers.py:136-190 | the recognised branch ends in the state and pending exception that `Sessions.Converse` gives |
| Consumers.CallConsumer.Consult | agent/consumers.py:143-169 | the user's row, both history lines, the model request and the reply's message, as `Sessions.Consulted` gives |
| Consumers.CallConsumer.Publish | agent/consumers.py:171-190 | the reply's row, the syntheses and the audio URL, with the pending exception, as `Sessions.Deliver` gives |
| Consumers.CallConsumer.RecognizeSpeech | agent/consumers.py:216-248 | one recognition request for the saved recording in the session's language, and the result `Engines.Transcribed` gives |
| Consumers.CallConsumer.TextToSpeech | agent/consumers.py:250-310 | the synthesis requests, the files left and the result or exception are those of `Sessions.TtsCalls`, `TtsFiles` and `TtsResult` |

## Left out

- The transport is left out. Sending never fails, and messages are recorded as values rather than JSON text.
- `json.loads` is not modelled. Each text frame carries the value it decodes to, or `None` for a `JSONDecodeError`.
- JSON numbers are integers; fractional numbers are not modelled.
- The query string arrives already split and percent-decoded into ordered key/value pairs.
- `speed` is kept as the text of the parameter; parsing it with `float` is not modelled. As a result:
  - the `ValueError` that `connect` raises on a non-numeric speed is not modelled;
  - the acknowledgement carries the text rather than the number.
- Creating the call row is assumed to succeed, and its id is a parameter. `timezone.now()` is a parameter.
- Saving the call on disconnect is assumed to succeed. The close code is ignored, as in the source.
- Transcript timestamps are not modelled. The order of the rows stands in for them, and for the admin's ordering by timestamp.
- `os.makedirs`, writing the WAV file and `os.path.getsize` are not modelled separately. The file size is the number of bytes buffered.
  - The second size check therefore can never fire. `ProcessAudio` keeps it as a branch, but `Sessions.Turn` has no such path.
- The `wave.open` validation only logs, so it is left out.
- The recogniser's settings and internals are left out, as are Gemini's configuration and model name. Only the outcomes the consumer reacts to are modelled.
- gTTS and pydub audio are not modelled, including the bitrate, the actual speed-up and partial writes. Only the requests and the file names are kept.
- The consumer's `run_in_executor` offloading is not modelled, and neither is any concurrency between consumers.
  - Channels handles one frame of a connection at a time and `receive` awaits `process_audio`, so the model runs frames one after another.
  - Audio arriving during a turn is therefore modelled as arriving after it.
- Logging (`print`) is left out.
- The admin's site titles, list, filter and inline settings are left out. Only the two computed columns are modelled.
- File names are written with `/`, as `os.path.join` produces them on POSIX.
- Three behaviours follow the code rather than a stricter reading of the intended design:
  - The WAV recording is removed only when the turn ends without an exception. It stays on disk after a failed row write or failed synthesis (`Sessions.UserRowLostTurn`, `AiRowLostTurn`, `UnvoicedTurn`).
  - The synthesis draft stays behind when the sped-up attempt raises after saving it.
  - A recogniser exception is indistinguishable from "no speech" in the session; the difference shows only in the logs.
