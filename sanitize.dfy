/**
 * sanitizeInput, identical in the three generation edge functions: every
 * character of the class [\x00-\x08\x0B\x0C\x0E-\x1F\x7F] is removed, then
 * the result is trimmed. Tab, line feed and carriage return are kept.
 */
module Sanitizer {
  import opened Text

  /** The control characters the sanitizer's character class matches. */
  predicate IsStrippedControl(c: char) {
    c <= '\U{8}' || c == '\U{B}' || c == '\U{C}' || ('\U{E}' <= c <= '\U{1F}') || c == '\U{7F}'
  }

  predicate HasNoStrippedControl(s: string) {
    forall k :: 0 <= k < |s| ==> !IsStrippedControl(s[k])
  }

  /** `input.replace(/[\x00-\x08\x0B\x0C\x0E-\x1F\x7F]/g, "")`: keeps every other character, in order. */
  function StripControl(s: string): (r: string)
    ensures |r| <= |s|
    ensures HasNoStrippedControl(r)
    ensures forall c :: !IsStrippedControl(c) ==> multiset(r)[c] == multiset(s)[c]
  {
    if s == [] then []
    else
      assert s == [s[0]] + s[1..];
      if IsStrippedControl(s[0]) then StripControl(s[1..]) else [s[0]] + StripControl(s[1..])
  }

  /** sanitizeInput on a string argument. */
  function Sanitize(s: string): string {
    Trim(StripControl(s))
  }

  lemma {:induction false} StripControlOfClean(s: string)
    requires HasNoStrippedControl(s)
    ensures StripControl(s) == s
  {
    if s != [] {
      StripControlOfClean(s[1..]);
    }
  }

  /** The sanitized text holds none of the stripped control characters and is never longer than the input. */
  lemma SanitizeClean(s: string)
    ensures HasNoStrippedControl(Sanitize(s))
    ensures |Sanitize(s)| <= |s|
    ensures Sanitize(s) == [] || (!IsWhitespace(Sanitize(s)[0]) && !IsWhitespace(Sanitize(s)[|Sanitize(s)| - 1]))
  {
    var t := StripControl(s);
    var i, j := TrimBounds(t);
    SliceClean(t, i, j);
  }

  lemma SliceClean(t: string, i: nat, j: nat)
    requires i <= j <= |t| && HasNoStrippedControl(t)
    ensures HasNoStrippedControl(t[i..j])
  {
    forall k | 0 <= k < j - i ensures !IsStrippedControl(t[i..j][k]) {
      assert t[i..j][k] == t[i + k];
    }
  }

  /** Sanitizing twice is sanitizing once. */
  lemma SanitizeIdempotent(s: string)
    ensures Sanitize(Sanitize(s)) == Sanitize(s)
  {
    SanitizeClean(s);
    StripControlOfClean(Sanitize(s));
    TrimIdempotent(StripControl(s));
  }

  /**
   * The strings the sanitizer leaves unchanged are exactly those with no
   * stripped control character and no whitespace at either end: tabs,
   * newlines and carriage returns inside a text survive.
   */
  lemma SanitizeFixedPoints(s: string)
    ensures Sanitize(s) == s <==>
              HasNoStrippedControl(s) && (s == [] || (!IsWhitespace(s[0]) && !IsWhitespace(s[|s| - 1])))
  {
    SanitizeClean(s);
    if HasNoStrippedControl(s) && (s == [] || (!IsWhitespace(s[0]) && !IsWhitespace(s[|s| - 1]))) {
      StripControlOfClean(s);
      TrimOfUntrimmed(s);
    }
  }

  /** A blank input (only whitespace) sanitizes to the empty string. */
  lemma SanitizeBlank(s: string)
    requires IsBlank(s)
    ensures Sanitize(s) == []
  {
    BlankIffAllWhitespace(s);
    var t := StripControl(s);
    forall k | 0 <= k < |t| ensures IsWhitespace(t[k]) {
      assert multiset(t)[t[k]] > 0;
      assert t[k] in multiset(s);
    }
    BlankIffAllWhitespace(t);
  }
}
