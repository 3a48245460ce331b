/**
 * The email pattern `^\S+@\S+\.\S+$` of app/login.tsx and app/signup/email.tsx.
 * `\S` is any character that is not JavaScript whitespace, so `@` and `.` are
 * themselves allowed inside the three parts. The pattern therefore matches
 * exactly the strings without whitespace that can be cut as a@b.c with a, b
 * and c non-empty.
 */
module EmailPattern {

  /** ECMAScript's `\s`: the WhiteSpace and LineTerminator code points. */
  function IsWhitespace(c: char): (w: bool)
    ensures c == ' ' || c == '\t' || c == '\n' || c == '\r' ==> w
    ensures w ==> c != '@' && c != '.'
  {
    || c == '\U{0009}' || c == '\U{000A}' || c == '\U{000B}' || c == '\U{000C}' || c == '\U{000D}'
    || c == ' ' || c == '\U{00A0}' || c == '\U{1680}'
    || ('\U{2000}' <= c <= '\U{200A}')
    || c == '\U{2028}' || c == '\U{2029}' || c == '\U{202F}' || c == '\U{205F}'
    || c == '\U{3000}' || c == '\U{FEFF}'
  }

  predicate NoWhitespace(s: string)
  {
    forall i :: 0 <= i < |s| ==> !IsWhitespace(s[i])
  }

  /** The pattern: no whitespace, an `@` after a non-empty prefix, then a `.` with non-empty text on both sides. */
  function MatchesEmailPattern(s: string): (m: bool)
    ensures m ==> '@' in s && '.' in s
  {
    && NoWhitespace(s)
    && exists at, dot :: 0 < at && at + 1 < dot && dot + 1 < |s| && s[at] == '@' && s[dot] == '.'
  }

  /** Every a@b.c made of whitespace-free, non-empty parts matches. */
  lemma PartsMatch(a: string, b: string, c: string)
    requires a != "" && b != "" && c != ""
    requires NoWhitespace(a) && NoWhitespace(b) && NoWhitespace(c)
    ensures MatchesEmailPattern(a + "@" + b + "." + c)
  {
    var s := a + "@" + b + "." + c;
    var at, dot := |a|, |a| + 1 + |b|;
    assert s[at] == '@' && s[dot] == '.';
    forall i | 0 <= i < |s| ensures !IsWhitespace(s[i]) {
      if i < at { assert s[i] == a[i]; }
      else if at < i < dot { assert s[i] == b[i - at - 1]; }
      else if dot < i { assert s[i] == c[i - dot - 1]; }
    }
  }

  /** Conversely, every match can be cut into such parts. */
  lemma MatchHasParts(s: string) returns (a: string, b: string, c: string)
    requires MatchesEmailPattern(s)
    ensures s == a + "@" + b + "." + c
    ensures a != "" && b != "" && c != ""
    ensures NoWhitespace(a) && NoWhitespace(b) && NoWhitespace(c)
  {
    var at, dot :| 0 < at && at + 1 < dot && dot + 1 < |s| && s[at] == '@' && s[dot] == '.';
    a, b, c := s[..at], s[at + 1..dot], s[dot + 1..];
    assert s == s[..at] + [s[at]] + s[at + 1..dot] + [s[dot]] + s[dot + 1..];
    assert forall i :: 0 <= i < |b| ==> b[i] == s[at + 1 + i];
    assert forall i :: 0 <= i < |c| ==> c[i] == s[dot + 1 + i];
  }

  /** A match is never empty, so the `!email ||` guard in front of the pattern adds nothing. */
  lemma MatchIsNonEmpty(s: string)
    requires MatchesEmailPattern(s)
    ensures |s| >= 5
  {
  }

  /** Several `@` are accepted: `\S` matches `@` too. */
  lemma SecondAtAccepted()
    ensures MatchesEmailPattern("a@@b.c")
  {
    assert "a@@b.c"[1] == '@' && "a@@b.c"[4] == '.';
  }

  /**
   * A single left-to-right scan: stop at the first whitespace; otherwise
   * remember the first `@` after position 0 and look for a `.` that leaves a
   * non-empty middle and a non-empty end.
   */
  method MatchEmail(s: string) returns (matched: bool)
    ensures matched == MatchesEmailPattern(s)
  {
    var at := -1;
    var dotFound := false;
    for k := 0 to |s|
      invariant forall i :: 0 <= i < k ==> !IsWhitespace(s[i])
      invariant at == -1 || 0 < at < k
      invariant at == -1 ==> forall i :: 0 < i < k ==> s[i] != '@'
      invariant at != -1 ==> 0 < at && s[at] == '@' && forall i :: 0 < i < at ==> s[i] != '@'
      invariant dotFound <==> at != -1 && exists d :: at + 1 < d < k && d + 1 < |s| && s[d] == '.'
    {
      if IsWhitespace(s[k]) {
        return false;
      }
      if at == -1 {
        if k > 0 && s[k] == '@' {
          at := k;
        }
      } else if at + 1 < k && k + 1 < |s| && s[k] == '.' {
        dotFound := true;
      }
    }
    matched := dotFound;
  }
}
