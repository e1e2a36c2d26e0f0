/** The conversation history and the prompt built from it (agent/consumers.py). */
module Conversation {
  import opened Wrappers

  const SystemInstruction := "You are a helpful AI assistant in a phone conversation. Keep responses brief, natural, and conversational (2-3 sentences max). Speak like a human would in a phone call."
  const Apology := "I'm sorry, I couldn't process that. Could you please try again?"
  const WindowSize := 5

  function UserLine(text: string): string { "User: " + text }
  function AiLine(reply: string): string { "AI: " + reply }

  predicate HasPrefix(s: string, p: string) { |p| <= |s| && s[..|p|] == p }
  predicate EndsWith(s: string, t: string) { |t| <= |s| && s[|s| - |t|..] == t }

  function Min(a: nat, b: nat): nat { if a <= b then a else b }

  /** `history[-5:]`. */
  function Window(history: seq<string>): (w: seq<string>)
    ensures |w| == Min(WindowSize, |history|)
    ensures w == history[|history| - |w|..]
  {
    if |history| <= WindowSize then history else history[|history| - WindowSize..]
  }

  /** `sep.join(parts)`. */
  function Join(parts: seq<string>, sep: string): string
  {
    if parts == [] then ""
    else if |parts| == 1 then parts[0]
    else parts[0] + sep + Join(parts[1..], sep)
  }

  lemma {:induction false} JoinSnoc(parts: seq<string>, last: string, sep: string)
    requires parts != []
    ensures Join(parts + [last], sep) == Join(parts, sep) + sep + last
    decreases |parts|
  {
    var all := parts + [last];
    assert all[0] == parts[0] && all[1..] == parts[1..] + [last];
    if |parts| > 1 {
      JoinSnoc(parts[1..], last, sep);
    } else {
      assert all[1..] == [last];
    }
  }

  /** The text put before the history in every prompt. */
  function Header(): string { SystemInstruction + "\n\n" }

  /** The prompt text for the history lines `context`. */
  function PromptText(context: seq<string>): string
  {
    Header() + Join(context, "\n")
  }

  /** The prompt sent to the model for `history`. */
  function Prompt(history: seq<string>): string
  {
    PromptText(Window(history))
  }

  lemma EndsWithAfter(a: string, b: string, t: string)
    requires EndsWith(b, t)
    ensures EndsWith(a + b, t)
  {
    assert (a + b)[|a + b| - |t|..] == b[|b| - |t|..];
  }

  /** `sep.join(parts)` ends with the last part. */
  lemma {:induction false} JoinEndsWithLast(parts: seq<string>, sep: string)
    requires parts != []
    ensures EndsWith(Join(parts, sep), parts[|parts| - 1])
  {
    var last := parts[|parts| - 1];
    if |parts| == 1 {
      assert Join(parts, sep) == last;
    } else {
      var init := parts[..|parts| - 1];
      assert parts == init + [last];
      JoinSnoc(init, last, sep);
      EndsWithAfter(Join(init, sep) + sep, last, last);
    }
  }

  /** The prompt starts with the instruction and a blank line, and ends with the entry just
      appended, so the model always sees the user's latest words. */
  lemma PromptEndsWithLatest(history: seq<string>, latest: string)
    ensures HasPrefix(Prompt(history + [latest]), Header())
    ensures EndsWith(Prompt(history + [latest]), latest)
  {
    var w := Window(history + [latest]);
    JoinEndsWithLast(w, "\n");
    EndsWithAfter(Header(), Join(w, "\n"), latest);
    assert (Header() + Join(w, "\n"))[..|Header()|] == Header();
  }

  /** Entries older than the last five never reach the model. */
  lemma PromptIgnoresOlder(older: seq<string>, recent: seq<string>)
    requires |recent| >= WindowSize
    ensures Prompt(older + recent) == Prompt(recent)
  {
    var h := older + recent;
    assert h[|h| - WindowSize..] == recent[|recent| - WindowSize..];
  }

  /** `get_ai_response`: the model's text, or the fixed apology when the call raised. */
  function GetAiResponse(reply: Option<string>): (r: string)
    ensures reply.Some? ==> r == reply.value
    ensures reply.None? ==> r == Apology
  {
    match reply
    case Some(text) => text
    case None => Apology
  }
}
