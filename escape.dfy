/** `escapeHtml` from the popup: the five characters that matter inside markup
    are replaced by character references; every other character is copied. */
module HtmlEscape {

  /** The characters `escapeHtml` replaces. */
  predicate IsSpecial(c: char) {
    c == '&' || c == '<' || c == '>' || c == '"' || c == '\''
  }

  /** A character that may not appear in escaped text. */
  predicate IsMarkup(c: char) {
    c == '<' || c == '>' || c == '"' || c == '\''
  }

  /** The replacement table: one entry per special character. */
  function EscapeChar(c: char): (r: string)
    ensures r == [c] <==> !IsSpecial(c)
    ensures IsSpecial(c) ==> |r| >= 4 && r[0] == '&' && r[|r| - 1] == ';'
    ensures IsSpecial(c) ==> forall k :: 0 <= k < |r| ==> !IsMarkup(r[k])
  {
    match c
    case '&' => "&amp;"
    case '<' => "&lt;"
    case '>' => "&gt;"
    case '"' => "&quot;"
    case '\'' => "&#039;"
    case _ => [c]
  }

  /** `escapeHtml(text)`: the result never contains `<`, `>`, `"` or `'`, and is
      at least as long as the input. */
  function EscapeHtml(s: string): (r: string)
    ensures |r| >= |s|
    ensures forall k :: 0 <= k < |r| ==> !IsMarkup(r[k])
  {
    if s == [] then [] else EscapeChar(s[0]) + EscapeHtml(s[1..])
  }

  /** `p` is a prefix of `s`. */
  predicate HasPrefix(s: string, p: string) {
    |p| <= |s| && s[..|p|] == p
  }

  /** The character a reference at the start of `s` stands for, and its length;
      an `&` that starts no known reference stands for itself. */
  function DecodeReference(s: string): (r: (char, nat))
    requires s != [] && s[0] == '&'
    ensures 1 <= r.1 <= |s|
  {
    if HasPrefix(s, "&amp;") then ('&', 5)
    else if HasPrefix(s, "&lt;") then ('<', 4)
    else if HasPrefix(s, "&gt;") then ('>', 4)
    else if HasPrefix(s, "&quot;") then ('"', 6)
    else if HasPrefix(s, "&#039;") then ('\'', 6)
    else ('&', 1)
  }

  /** A decoder for the five character references `EscapeHtml` produces; any
      other text is copied. It is the reference against which the encoder is
      proved lossless. */
  function Unescape(s: string): string
    decreases |s|
  {
    if s == [] then []
    else
      var d := if s[0] == '&' then DecodeReference(s) else (s[0], 1);
      [d.0] + Unescape(s[d.1..])
  }

  /** Escaping is a per-character homomorphism. */
  lemma {:induction false} EscapeConcat(a: string, b: string)
    ensures EscapeHtml(a + b) == EscapeHtml(a) + EscapeHtml(b)
  {
    if a == [] {
      assert a + b == b;
    } else {
      assert (a + b)[0] == a[0];
      assert (a + b)[1..] == a[1..] + b;
      EscapeConcat(a[1..], b);
    }
  }

  /** Text with none of the five special characters is left exactly as it is. */
  lemma {:induction false} EscapeIdentity(s: string)
    requires forall k :: 0 <= k < |s| ==> !IsSpecial(s[k])
    ensures EscapeHtml(s) == s
  {
    if s != [] {
      EscapeIdentity(s[1..]);
    }
  }

  /** Decoding undoes one escaped character in front of any text. */
  lemma UnescapeStep(c: char, t: string)
    ensures Unescape(EscapeChar(c) + t) == [c] + Unescape(t)
  {
    var e := EscapeChar(c) + t;
    match c
    case '&' =>
      assert e[..5] == "&amp;" && e[5..] == t;
    case '<' =>
      assert e[1] == 'l' && e[..4] == "&lt;" && e[4..] == t;
    case '>' =>
      assert e[1] == 'g' && e[..4] == "&gt;" && e[4..] == t;
    case '"' =>
      assert e[1] == 'q' && e[..6] == "&quot;" && e[6..] == t;
    case '\'' =>
      assert e[1] == '#' && e[..6] == "&#039;" && e[6..] == t;
    case _ =>
      assert e[0] == c && e[1..] == t;
  }

  /** Escaping loses nothing: decoding the escaped text gives back the input. */
  lemma {:induction false} UnescapeEscape(s: string)
    ensures Unescape(EscapeHtml(s)) == s
  {
    if s != [] {
      UnescapeStep(s[0], EscapeHtml(s[1..]));
      UnescapeEscape(s[1..]);
    }
  }

  /** Distinct texts are rendered as distinct markup. */
  lemma EscapeInjective(a: string, b: string)
    requires EscapeHtml(a) == EscapeHtml(b)
    ensures a == b
  {
    UnescapeEscape(a);
    UnescapeEscape(b);
  }
}
