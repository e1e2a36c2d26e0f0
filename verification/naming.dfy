/** File and URL names derived from a call's id (agent/consumers.py). */
module Naming {

  /** The decimal digit character for `d`. */
  function DigitChar(d: nat): (c: char)
    requires d < 10
    ensures '0' <= c <= '9'
    ensures (c == '0') == (d == 0)
  {
    ('0' as int + d) as char
  }

  /** The text an f-string gives a non-negative integer: its decimal digits, no leading zero. */
  function Decimal(n: nat): (s: string)
    ensures 1 <= |s|
    ensures (|s| == 1) == (n < 10)
    ensures forall i :: 0 <= i < |s| ==> '0' <= s[i] <= '9'
    ensures (s[0] == '0') == (n == 0)
    decreases n
  {
    if n < 10 then [DigitChar(n)] else Decimal(n / 10) + [DigitChar(n % 10)]
  }

  /** Two ids never print the same. */
  lemma {:induction false} DecimalInjective(a: nat, b: nat)
    requires Decimal(a) == Decimal(b)
    ensures a == b
    decreases a
  {
    if a < 10 || b < 10 {
      assert Decimal(a)[0] == Decimal(b)[0];
      assert DigitChar(a) as int == '0' as int + a;
      assert DigitChar(b) as int == '0' as int + b;
    } else {
      var sa, sb := Decimal(a), Decimal(b);
      assert sa == Decimal(a / 10) + [DigitChar(a % 10)];
      assert sb == Decimal(b / 10) + [DigitChar(b % 10)];
      assert Decimal(a / 10) == sa[..|sa| - 1];
      assert Decimal(b / 10) == sb[..|sb| - 1];
      DecimalInjective(a / 10, b / 10);
      assert DigitChar(a % 10) == sa[|sa| - 1] == DigitChar(b % 10);
      assert DigitChar(a % 10) as int == '0' as int + a % 10;
      assert DigitChar(b % 10) as int == '0' as int + b % 10;
    }
  }

  /** The recorded utterance, `temp/temp_audio_<id>.wav`. */
  function WavPath(id: nat): string
  {
    "temp/temp_audio_" + Decimal(id) + ".wav"
  }

  /** The un-sped-up synthesis draft, `temp/temp_response_<id>.mp3`. */
  function DraftPath(id: nat): string
  {
    "temp/temp_response_" + Decimal(id) + ".mp3"
  }

  /** The published reply audio, `media/response_<id>.mp3`. */
  function MediaPath(id: nat): string
  {
    "media/response_" + Decimal(id) + ".mp3"
  }

  /** The URL the client is told to fetch, `/media/response_<id>.mp3`. */
  function AudioUrl(id: nat): string
  {
    "/media/response_" + Decimal(id) + ".mp3"
  }

  lemma Framed(p: string, x: string, y: string, q: string)
    requires p + x + q == p + y + q
    ensures x == y
  {
    assert |x| == |y|;
    assert x == (p + x + q)[|p|..|p| + |x|];
    assert y == (p + y + q)[|p|..|p| + |y|];
  }

  /** Concurrent calls never share a temp recording: the WAV name determines the call. */
  lemma WavPathsDistinct(a: nat, b: nat)
    ensures (WavPath(a) == WavPath(b)) == (a == b)
  {
    if WavPath(a) == WavPath(b) {
      Framed("temp/temp_audio_", Decimal(a), Decimal(b), ".wav");
      DecimalInjective(a, b);
    }
  }

  /** Concurrent calls never share a draft. */
  lemma DraftPathsDistinct(a: nat, b: nat)
    ensures (DraftPath(a) == DraftPath(b)) == (a == b)
  {
    if DraftPath(a) == DraftPath(b) {
      Framed("temp/temp_response_", Decimal(a), Decimal(b), ".mp3");
      DecimalInjective(a, b);
    }
  }

  /** Concurrent calls never overwrite each other's published reply. */
  lemma MediaPathsDistinct(a: nat, b: nat)
    ensures (MediaPath(a) == MediaPath(b)) == (a == b)
  {
    if MediaPath(a) == MediaPath(b) {
      Framed("media/response_", Decimal(a), Decimal(b), ".mp3");
      DecimalInjective(a, b);
    }
  }

  /** The URL sent to the client names the file the synthesiser writes, and the three
      kinds of file never share a name (different directory or extension). */
  lemma NamesKeptApart(a: nat, b: nat)
    ensures AudioUrl(a) == "/" + MediaPath(a)
    ensures WavPath(a) != DraftPath(b) && WavPath(a) != MediaPath(b) && DraftPath(a) != MediaPath(b)
  {
    var w, d, m := WavPath(a), DraftPath(b), MediaPath(b);
    assert w[|w| - 1] == 'v' && d[|d| - 1] == '3';
    assert w[0] == 't' && m[0] == 'm';
    assert DraftPath(a)[0] == 't';
  }
}
