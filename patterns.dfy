/**
 * The fixed regular expressions that dialog.js registers, modelled exactly, and the
 * abstract matcher standing for `new RegExp(option.match, 'i')`.
 */
module Patterns {

  /**
   * `new RegExp(source, 'i').test(text)` for a caller-supplied option pattern. The
   * regular-expression engine is foreign code, so it is a parameter of the model.
   */
  type OptionMatcher = (string, string) -> bool

  /** The characters of JavaScript's `\s` class. */
  predicate IsWhitespace(c: char)
  {
    || c == ' ' || c == '\t' || c == '\n' || c == '\U{000B}' || c == '\U{000C}' || c == '\r'
    || c == '\U{00A0}' || c == '\U{1680}' || ('\U{2000}' <= c <= '\U{200A}')
    || c == '\U{2028}' || c == '\U{2029}' || c == '\U{202F}' || c == '\U{205F}'
    || c == '\U{3000}' || c == '\U{FEFF}'
  }

  /** The characters that `.` does not match when the `s` flag is absent. */
  predicate IsLineTerminator(c: char)
  {
    c == '\n' || c == '\r' || c == '\U{2028}' || c == '\U{2029}'
  }

  /** Empty or made only of whitespace. */
  predicate IsBlank(s: string)
  {
    forall i :: 0 <= i < |s| ==> IsWhitespace(s[i])
  }

  /**
   * `/^(?!\s*$).+/i`: without the `m` flag `^` and `$` anchor at the ends of the whole
   * text, so the look-ahead fails exactly on a blank text, and `.+` then needs a first
   * character that is not a line terminator.
   */
  predicate NotBlankMatches(text: string)
  {
    |text| > 0 && !IsLineTerminator(text[0]) && !IsBlank(text)
  }

  /** The first `n` characters of `t` are whitespace: what `\s*` can consume from index 0. */
  predicate WhitespaceRun(t: string, n: nat)
    requires n <= |t|
  {
    forall i :: 0 <= i < n ==> IsWhitespace(t[i])
  }

  /** The first `n` characters of `t` are no line terminators: what `.+` or `.*` can consume
      from index 0. */
  predicate DotRun(t: string, n: nat)
    requires n <= |t|
  {
    forall i :: 0 <= i < n ==> !IsLineTerminator(t[i])
  }

  /** The look-ahead `(?!\s*$)` at index 0: no run of `\s*`, however far it backtracks,
      is followed by the end of the text. */
  predicate NotBlankLookAhead(t: string)
  {
    !exists n :: 0 <= n <= |t| && WhitespaceRun(t, n) && n == |t|
  }

  /** `.+` at index 0: it consumes at least one character that is not a line terminator. */
  predicate DotPlusMatches(t: string)
  {
    exists n :: 1 <= n <= |t| && DotRun(t, n)
  }

  /** The closed form of the text pattern is the regular expression's two parts together. */
  lemma NotBlankMatchesRegex(t: string)
    ensures NotBlankMatches(t) <==> NotBlankLookAhead(t) && DotPlusMatches(t)
  {
    // The look-ahead fails exactly on a blank text.
    if IsBlank(t) {
      assert WhitespaceRun(t, |t|);
    }
    if !NotBlankLookAhead(t) {
      var n :| 0 <= n <= |t| && WhitespaceRun(t, n) && n == |t|;
    }
    // `.+` succeeds exactly when the first character exists and is not a line terminator.
    if |t| > 0 && !IsLineTerminator(t[0]) {
      assert DotRun(t, 1);
    }
    if DotPlusMatches(t) {
      var n :| 1 <= n <= |t| && DotRun(t, n);
      assert !IsLineTerminator(t[0]);
    }
  }

  /** ASCII lower-casing. Without the `u` flag JavaScript's case-insensitive matching
      folds no non-ASCII character onto an ASCII letter, so this is all `/skip/i` needs. */
  function LowerAscii(c: char): char
  {
    if 'A' <= c <= 'Z' then (c as int + 32) as char else c
  }

  /** The word `skip`, in any letter case, starts at index `i` of `t`. */
  predicate SkipAt(t: string, i: nat)
    requires i + 4 <= |t|
  {
    LowerAscii(t[i]) == 's' && LowerAscii(t[i + 1]) == 'k'
    && LowerAscii(t[i + 2]) == 'i' && LowerAscii(t[i + 3]) == 'p'
  }

  /** The search the regular-expression engine runs for `/skip/i`: try each start
      position from `i` onwards, leftmost first. */
  predicate SkipFrom(t: string, i: nat)
    decreases |t| - i
  {
    i + 4 <= |t| && (SkipAt(t, i) || SkipFrom(t, i + 1))
  }

  /** `/skip/i.test(text)`. */
  predicate ContainsSkip(text: string)
  {
    SkipFrom(text, 0)
  }

  /** The left-to-right search finds `skip` exactly when it occurs at some position. */
  lemma {:induction false} SkipFromFindsOccurrence(t: string, i: nat)
    ensures SkipFrom(t, i) <==> exists k :: i <= k && k + 4 <= |t| && SkipAt(t, k)
    decreases |t| - i
  {
    if i + 4 <= |t| {
      SkipFromFindsOccurrence(t, i + 1);
      if !SkipFrom(t, i) {
        forall k | i <= k && k + 4 <= |t|
          ensures !SkipAt(t, k)
        {
          if k > i { assert k >= i + 1; }
        }
      }
    }
  }

  /** `/skip/i` matches exactly the texts containing `skip` in any letter case. */
  lemma ContainsSkipIff(text: string)
    ensures ContainsSkip(text) <==> exists k :: 0 <= k && k + 4 <= |text| && SkipAt(text, k)
  {
    SkipFromFindsOccurrence(text, 0);
  }

  /** A pattern registered with the switchboard. */
  datatype Pattern =
    | OptionPattern(source: string) // new RegExp(option.match, 'i')
    | AnyText                       // /(.*)/i
    | NotBlank                      // /^(?!\s*$).+/i
    | SkipWord                      // /skip/i

  /** `pattern.test(text)`. */
  predicate Matches(p: Pattern, text: string, rx: OptionMatcher)
  {
    match p
    case OptionPattern(source) => rx(source, text)
    case AnyText => true
    case NotBlank => NotBlankMatches(text)
    case SkipWord => ContainsSkip(text)
  }

  /** Only a reply with a non-whitespace character passes the text pattern, and every such
      reply passes unless it starts with a line break. */
  lemma NotBlankAcceptsNonBlank(text: string)
    ensures Matches(NotBlank, text, (_, _) => false) ==> !IsBlank(text)
    ensures !IsBlank(text) && !IsLineTerminator(text[0]) ==> Matches(NotBlank, text, (_, _) => false)
  {
  }
}
