/**
  The reply of the ssh route: the output the in-container tmate pipeline
  printed, trimmed as JavaScript's `String.prototype.trim` trims, or a fixed
  retry hint when nothing but white space was printed.
 */
module Shell {

  const Fallback := "Starting tmate... try again in 10s"

  /** The characters `trim` strips: ECMAScript's WhiteSpace and
      LineTerminator code points. */
  predicate IsWhiteSpace(c: char)
  {
    || c == '\t' || c == '\n' || c == '\U{B}' || c == '\U{C}' || c == '\r' || c == ' '
    || c == '\U{A0}' || c == '\U{1680}' || ('\U{2000}' <= c <= '\U{200A}')
    || c == '\U{2028}' || c == '\U{2029}' || c == '\U{202F}' || c == '\U{205F}'
    || c == '\U{3000}' || c == '\U{FEFF}'
  }

  predicate AllWhiteSpace(s: string)
  {
    forall i :: 0 <= i < |s| ==> IsWhiteSpace(s[i])
  }

  /** The length of the white-space prefix of `s`. */
  function LeadingWhiteSpace(s: string): (k: nat)
    ensures k <= |s|
    ensures forall i :: 0 <= i < k ==> IsWhiteSpace(s[i])
    ensures k < |s| ==> !IsWhiteSpace(s[k])
  {
    if |s| == 0 || !IsWhiteSpace(s[0]) then 0
    else 1 + LeadingWhiteSpace(s[1..])
  }

  /** The length of the white-space suffix of `s`. */
  function TrailingWhiteSpace(s: string): (k: nat)
    ensures k <= |s|
    ensures forall i :: |s| - k <= i < |s| ==> IsWhiteSpace(s[i])
    ensures k < |s| ==> !IsWhiteSpace(s[|s| - 1 - k])
  {
    if |s| == 0 || !IsWhiteSpace(s[|s| - 1]) then 0
    else 1 + TrailingWhiteSpace(s[..|s| - 1])
  }

  /** `s.trim()`: `s` without its white-space prefix and suffix. The result
      is the infix of `s` that starts at the first character that is not
      white space and ends at the last; it is empty exactly when `s` is all
      white space. */
  function Trim(s: string): (t: string)
    ensures var lo := LeadingWhiteSpace(s);
      && lo + |t| <= |s|
      && t == s[lo..lo + |t|]
      && forall i :: lo + |t| <= i < |s| ==> IsWhiteSpace(s[i])
    ensures t == [] <==> AllWhiteSpace(s)
    ensures t != [] ==> !IsWhiteSpace(t[0]) && !IsWhiteSpace(t[|t| - 1])
  {
    var lo := LeadingWhiteSpace(s);
    var rest := s[lo..];
    rest[..|rest| - TrailingWhiteSpace(rest)]
  }

  /** Trimming twice is trimming once. */
  lemma TrimIdempotent(s: string)
    ensures Trim(Trim(s)) == Trim(s)
  {
    var t := Trim(s);
    if t != [] {
      assert LeadingWhiteSpace(t) == 0;
      assert TrailingWhiteSpace(t) == 0;
      assert t[0..|t|] == t;
    }
  }

  /** `ssh.trim() || fallback`: never empty; the trimmed output when the
      output has a character that is not white space, the fallback hint
      when it has none. */
  function ShellLink(output: string): (link: string)
    ensures link != []
    ensures AllWhiteSpace(output) ==> link == Fallback
    ensures !AllWhiteSpace(output) ==> link == Trim(output) && !IsWhiteSpace(link[0])
  {
    var t := Trim(output);
    if t != [] then t else Fallback
  }
}
