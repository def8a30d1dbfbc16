/**
 * The JSON extraction of the generation edge functions: the model's reply
 * (or a default when it is missing) is searched with the greedy pattern
 * /\[[\s\S]*\]/ (generate-mcq) or /\{[\s\S]*\}/ (generate-paper,
 * process-voice-notes), and the matched text, or the whole reply when
 * nothing matches, goes to JSON.parse.
 */
module Extraction {
  import opened Text

  /** The first position of `c` in `s`. */
  function FirstIndex(s: string, c: char): (r: Option<nat>)
    ensures r.Some? ==> r.value < |s| && s[r.value] == c && forall k :: 0 <= k < r.value ==> s[k] != c
    ensures r.None? ==> forall k :: 0 <= k < |s| ==> s[k] != c
  {
    if s == [] then None
    else if s[0] == c then Some(0)
    else match FirstIndex(s[1..], c)
         case None => None
         case Some(i) => Some(i + 1)
  }

  /** The last position of `c` in `s`. */
  function LastIndex(s: string, c: char): (r: Option<nat>)
    ensures r.Some? ==> r.value < |s| && s[r.value] == c && forall k :: r.value < k < |s| ==> s[k] != c
    ensures r.None? ==> forall k :: 0 <= k < |s| ==> s[k] != c
  {
    if s == [] then None
    else if s[|s| - 1] == c then Some(|s| - 1)
    else LastIndex(s[..|s| - 1], c)
  }

  /** The pattern `open [\s\S]* close` can match s[i..j+1]. */
  predicate IsMatch(s: string, open: char, close: char, i: int, j: int) {
    0 <= i < j < |s| && s[i] == open && s[j] == close
  }

  /**
   * `const m = s.match(pattern); m ? m[0] : s`: from the first `open` to the
   * last `close` when such a `close` follows it, otherwise the whole text.
   * The span is not bracket-balanced.
   */
  function Span(s: string, open: char, close: char): string {
    match (FirstIndex(s, open), LastIndex(s, close))
    case (Some(i), Some(j)) => if i < j then s[i..j + 1] else s
    case _ => s
  }

  /**
   * Span is the leftmost-longest match of the greedy pattern: its start is
   * the leftmost position any match can start at and its end the rightmost
   * position any match can end at. Without any match the whole text is kept.
   */
  lemma SpanIsLeftmostLongest(s: string, open: char, close: char)
    ensures (exists i, j :: IsMatch(s, open, close, i, j)) ==>
              exists i, j :: IsMatch(s, open, close, i, j) && Span(s, open, close) == s[i..j + 1]
                && forall i', j' :: IsMatch(s, open, close, i', j') ==> i <= i' && j' <= j
    ensures (forall i, j :: !IsMatch(s, open, close, i, j)) ==> Span(s, open, close) == s
  {
    var first, last := FirstIndex(s, open), LastIndex(s, close);
    if first.Some? && last.Some? && first.value < last.value {
      assert IsMatch(s, open, close, first.value, last.value);
    }
  }

  /** A found span starts with `open`, ends with `close` and lies inside the reply. */
  lemma SpanShape(s: string, open: char, close: char)
    ensures |Span(s, open, close)| <= |s|
    ensures Span(s, open, close) != s ==>
              |Span(s, open, close)| >= 2 && Span(s, open, close)[0] == open
              && Span(s, open, close)[|Span(s, open, close)| - 1] == close
  {
  }

  /** `data.choices[0]?.message?.content || fallback`: a missing or empty content is replaced by the fallback. */
  function ReplyText(content: Option<string>, fallback: string): (r: string)
    ensures r == fallback <==> content.None? || content.value == "" || content.value == fallback
    ensures content.Some? && content.value != "" ==> r == content.value
  {
    if content.None? || content.value == "" then fallback else content.value
  }
}
