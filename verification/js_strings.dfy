/**
 * The two pieces of the JavaScript runtime the room-id checks rely on:
 * `String.prototype.trim` and an anchored regular expression of the form
 * `/^[a-zA-Z0-9]{lo,hi}$/`.
 */
module JsStrings {

  /** The code points `trim` strips: ECMAScript WhiteSpace and LineTerminator. */
  predicate IsSpace(c: char)
  {
    || c == '\t' || c == '\n' || c == '\U{B}' || c == '\U{C}' || c == '\r' || c == ' '
    || c == '\U{A0}' || c == '\U{1680}' || ('\U{2000}' <= c <= '\U{200A}')
    || c == '\U{2028}' || c == '\U{2029}' || c == '\U{202F}' || c == '\U{205F}'
    || c == '\U{3000}' || c == '\U{FEFF}'
  }

  /** The character class `[a-zA-Z0-9]`. */
  predicate IsAlnum(c: char)
  {
    ('a' <= c <= 'z') || ('A' <= c <= 'Z') || ('0' <= c <= '9')
  }

  predicate AllAlnum(s: string)
  {
    forall i :: 0 <= i < |s| ==> IsAlnum(s[i])
  }

  /** `s` with its leading white space removed. */
  function TrimStart(s: string): (r: string)
    ensures |r| <= |s| && r == s[|s| - |r|..]
    ensures r == [] || !IsSpace(r[0])
    ensures forall i :: 0 <= i < |s| - |r| ==> IsSpace(s[i])
  {
    if s != [] && IsSpace(s[0]) then TrimStart(s[1..]) else s
  }

  /** `s` with its trailing white space removed. */
  function TrimEnd(s: string): (r: string)
    ensures |r| <= |s| && r == s[..|r|]
    ensures r == [] || !IsSpace(r[|r| - 1])
    ensures forall i :: |r| <= i < |s| ==> IsSpace(s[i])
  {
    if s != [] && IsSpace(s[|s| - 1]) then TrimEnd(s[..|s| - 1]) else s
  }

  /** `r` occurs in `s` at offset `i`, and everything around it is white space. */
  predicate PaddedBySpace(s: string, r: string, i: nat)
  {
    && i + |r| <= |s| && s[i..i + |r|] == r
    && (forall k :: 0 <= k < i ==> IsSpace(s[k]))
    && (forall k :: i + |r| <= k < |s| ==> IsSpace(s[k]))
  }

  /** `String.prototype.trim`: white space removed from both ends. */
  function Trim(s: string): (r: string)
    ensures r == [] || (!IsSpace(r[0]) && !IsSpace(r[|r| - 1]))
    ensures PaddedBySpace(s, r, |s| - |TrimStart(s)|)
  {
    TrimEnd(TrimStart(s))
  }

  /** A string with no white space at either end is its own trim. */
  lemma {:induction false} TrimOfTrimmed(s: string)
    requires s == [] || (!IsSpace(s[0]) && !IsSpace(s[|s| - 1]))
    ensures Trim(s) == s
  {
  }

  /** Trimming twice is trimming once. */
  lemma {:induction false} TrimIdempotent(s: string)
    ensures Trim(Trim(s)) == Trim(s)
  {
    TrimOfTrimmed(Trim(s));
  }

  /**
   * The anchored match of `^[a-zA-Z0-9]{lo,hi}$` against `s`, consuming one
   * character of the class at a time (JavaScript's `$` without the `m` flag
   * matches only at the end of the input).
   */
  function MatchAlnumRepeat(s: string, lo: nat, hi: nat): bool
  {
    if s == [] then lo == 0
    else hi > 0 && IsAlnum(s[0]) && MatchAlnumRepeat(s[1..], if lo > 0 then lo - 1 else 0, hi - 1)
  }

  /** The matcher accepts exactly the strings of the class whose length lies in `[lo, hi]`. */
  lemma {:induction false} MatchAlnumRepeatIff(s: string, lo: nat, hi: nat)
    ensures MatchAlnumRepeat(s, lo, hi) <==> lo <= |s| <= hi && AllAlnum(s)
  {
    if s != [] && hi > 0 {
      MatchAlnumRepeatIff(s[1..], if lo > 0 then lo - 1 else 0, hi - 1);
      if AllAlnum(s) {
        assert AllAlnum(s[1..]) by {
          forall i | 0 <= i < |s[1..]| ensures IsAlnum(s[1..][i]) { assert s[1..][i] == s[i + 1]; }
        }
      }
      if IsAlnum(s[0]) && AllAlnum(s[1..]) {
        forall i | 0 <= i < |s| ensures IsAlnum(s[i]) {
          if i > 0 { assert s[i] == s[1..][i - 1]; }
        }
      }
    }
  }
}
