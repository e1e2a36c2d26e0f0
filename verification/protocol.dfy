/** What crosses the WebSocket: inbound frames, the JSON they carry, connection
    parameters, and the JSON messages the consumer sends back (agent/consumers.py). */
module Protocol {
  import opened Wrappers

  newtype byte = x: int | 0 <= x < 256

  /** A decoded JSON value; numbers are limited to integers. */
  datatype Json =
    | JNull
    | JBool(b: bool)
    | JNumber(n: int)
    | JString(s: string)
    | JArray(items: seq<Json>)
    | JObject(members: seq<(string, Json)>)

  /** Python truthiness of a decoded JSON value. */
  predicate Truthy(j: Json)
  {
    match j
    case JNull => false
    case JBool(b) => b
    case JNumber(n) => n != 0
    case JString(s) => s != ""
    case JArray(items) => items != []
    case JObject(members) => members != []
  }

  /** `dict.get(key)` on an object decoded from `members`: a repeated key keeps its last value. */
  function Lookup(members: seq<(string, Json)>, key: string): (v: Option<Json>)
    ensures v.None? == (forall i :: 0 <= i < |members| ==> members[i].0 != key)
    ensures v.Some? ==> exists i :: 0 <= i < |members| && members[i] == (key, v.value) &&
                                    forall j :: i < j < |members| ==> members[j].0 != key
  {
    if members == [] then None
    else if members[|members| - 1].0 == key then Some(members[|members| - 1].1)
    else
      var init := members[..|members| - 1];
      assert members == init + [members[|members| - 1]];
      Lookup(init, key)
  }

  /** `data.get('end_of_speech')` is truthy for the object `data`. */
  predicate EndOfSpeech(members: seq<(string, Json)>)
  {
    match Lookup(members, "end_of_speech")
    case None => false
    case Some(v) => Truthy(v)
  }

  /** One WebSocket frame: text (with what `json.loads` makes of it, `None` when it raises
      `JSONDecodeError`) or binary. */
  datatype Frame =
    | TextFrame(text: string, decoded: Option<Json>)
    | BytesFrame(data: seq<byte>)

  datatype Sender = User | Ai | System

  /** The JSON messages the consumer sends. */
  datatype Outbound =
    | Ack(message: string, language: string, voice: string, speed: string)  // {type: connection, ...}
    | TranscriptMessage(text: string, sender: Sender)                     // {transcript, sender}
    | ErrorNotice(text: string)                              // {transcript, sender: system, error: true}
    | AudioReady(url: string)                                             // {audio_url}

  const ConnectedMessage := "Connected to AI Call Agent"
  const NotUnderstoodNotice := "Could not understand audio. Please speak clearly."

  function ErrorText(message: string): string
  {
    "Error processing audio: " + message
  }

  /** A query-string field `parse_qs` keeps: blank values are dropped. */
  predicate Given(field: (string, string), key: string)
  {
    field.0 == key && field.1 != ""
  }

  /** `parse_qs(query).get(key, [default])[0]` over the decoded fields of the query string,
      in order: the first non-blank value given for `key`, else `default`. */
  function QueryParam(fields: seq<(string, string)>, key: string, default: string): (v: string)
    ensures (forall i :: 0 <= i < |fields| ==> !Given(fields[i], key)) ==> v == default
    ensures forall i :: 0 <= i < |fields| && Given(fields[i], key) ==>
                          (forall j :: 0 <= j < i ==> !Given(fields[j], key)) ==> v == fields[i].1
  {
    if fields == [] then default
    else if Given(fields[0], key) then fields[0].1
    else
      var v := QueryParam(fields[1..], key, default);
      assert forall i :: 1 <= i < |fields| ==> fields[1..][i - 1] == fields[i];
      v
  }
}
