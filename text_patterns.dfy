/**
 The string primitives the registration form's validator relies on:
 JavaScript's String.prototype.trim and the three regular expressions it
 tests field values against. Each regular expression is written out as a
 predicate stating what RegExp.prototype.test decides for it, and a lemma
 beside it says what that decision amounts to.
 */
module TextPatterns {

  /** ECMAScript WhiteSpace and LineTerminator code points: what `trim()`
      strips and what `\s` matches (so `\S` is its complement). The
      space-separator (Zs) members are those of current Unicode. ASCII
      digits and letters, `@` and `.` are outside it. */
  predicate IsWhitespace(c: char)
    ensures IsWhitespace(c) ==>
            !IsAsciiDigit(c) && !IsAsciiLower(c) && !IsAsciiUpper(c) && c != '@' && c != '.'
  {
    c == '\t' || c == '\n' || c == '\U{000B}' || c == '\U{000C}' || c == '\r'
    || c == ' ' || c == '\U{00A0}' || c == '\U{1680}'
    || ('\U{2000}' <= c <= '\U{200A}')
    || c == '\U{2028}' || c == '\U{2029}' || c == '\U{202F}' || c == '\U{205F}'
    || c == '\U{3000}' || c == '\U{FEFF}'
  }

  /** The characters that `.` does not match in a regular expression without
      the `s` flag; each of them is also whitespace to `trim()` and `\s`. */
  predicate IsLineTerminator(c: char)
    ensures IsLineTerminator(c) ==> IsWhitespace(c)
  {
    c == '\n' || c == '\r' || c == '\U{2028}' || c == '\U{2029}'
  }

  /** `\d` */
  predicate IsAsciiDigit(c: char) { '0' <= c <= '9' }
  /** `[a-z]` */
  predicate IsAsciiLower(c: char) { 'a' <= c <= 'z' }
  /** `[A-Z]` */
  predicate IsAsciiUpper(c: char) { 'A' <= c <= 'Z' }

  predicate AllWhitespace(s: string) {
    forall k :: 0 <= k < |s| ==> IsWhitespace(s[k])
  }

  /** Every character matches `\S`. */
  predicate NonSpace(s: string) {
    forall k :: 0 <= k < |s| ==> !IsWhitespace(s[k])
  }

  /** Every character matches `.`. */
  predicate LineFree(s: string) {
    forall k :: 0 <= k < |s| ==> !IsLineTerminator(s[k])
  }

  // ---------------------------------------------------------------- trim

  /** `s` without its leading whitespace. */
  function TrimStart(s: string): (r: string)
    ensures |r| <= |s| && r == s[|s| - |r|..]
    ensures forall k :: 0 <= k < |s| - |r| ==> IsWhitespace(s[k])
    ensures r == [] || !IsWhitespace(r[0])
  {
    if s != [] && IsWhitespace(s[0]) then TrimStart(s[1..]) else s
  }

  /** `s` without its trailing whitespace. */
  function TrimEnd(s: string): (r: string)
    ensures |r| <= |s| && r == s[..|r|]
    ensures forall k :: |r| <= k < |s| ==> IsWhitespace(s[k])
    ensures r == [] || !IsWhitespace(r[|r| - 1])
  {
    if s != [] && IsWhitespace(s[|s| - 1]) then TrimEnd(s[..|s| - 1]) else s
  }

  /** String.prototype.trim: nothing is left exactly when every character is whitespace. */
  function Trim(s: string): (r: string)
    ensures r == [] <==> AllWhitespace(s)
    ensures r == [] || (!IsWhitespace(r[0]) && !IsWhitespace(r[|r| - 1]))
  {
    var t := TrimStart(s);
    assert t != [] ==> !IsWhitespace(s[|s| - |t|]);
    TrimEnd(t)
  }

  /** `!s.trim()`: the trimmed string is the empty string, which is falsy;
      that is, every character of `s` is whitespace. */
  predicate IsBlank(s: string)
    ensures IsBlank(s) <==> AllWhitespace(s)
  {
    Trim(s) == []
  }

  // ------------------------------------------------------ /^\d{10}$/

  /** `/^\d{10}$/.test(s)`: both anchors pin the match to the whole string
      (`$` without the `m` flag matches only at the end of input), so the
      test holds exactly when `s` is ten ASCII digits. Such a value has no
      whitespace, so it is never blank and the "required" branch cannot hide it. */
  predicate IsTenAsciiDigits(s: string)
    ensures IsTenAsciiDigits(s) ==> NonSpace(s) && !IsBlank(s)
  {
    |s| == 10 && forall k :: 0 <= k < |s| ==> IsAsciiDigit(s[k])
  }

  // --------------------------------------------------- /\S+@\S+\.\S+/

  /** `t` as a whole matches `\S+@\S+\.\S+`: it splits into three non-empty
      runs of non-space characters joined by `@` and `.`. */
  predicate EmailMatchesWhole(t: string) {
    exists p, d | 0 < p < |t| && p + 1 < d < |t| - 1 :: EmailSplit(t, p, d)
  }

  /** `t` is `t[..p] + "@" + t[p + 1..d] + "." + t[d + 1..]` with all three parts non-space. */
  predicate EmailSplit(t: string, p: int, d: int) {
    && 0 < p && p + 1 < d && d + 1 < |t|
    && t[p] == '@' && t[d] == '.'
    && NonSpace(t[..p]) && NonSpace(t[p + 1..d]) && NonSpace(t[d + 1..])
  }

  /** `/\S+@\S+\.\S+/.test(s)`: the pattern is unanchored, so the test holds
      when some substring of `s` matches it as a whole; that is exactly when
      an `@` and a later `.` sit as AtDotAt describes. */
  predicate EmailPatternFound(s: string)
    ensures EmailPatternFound(s) <==> HasAtDot(s)
  {
    SubstringMatchIffAtDot(s);
    exists i, j | 0 <= i <= j <= |s| :: EmailMatchesWhole(s[i..j])
  }

  /** The shortest match there can be around an `@` at `p` and a `.` at `d`:
      a non-space character right before the `@`, only non-space characters
      strictly between `@` and `.` (at least one), and a non-space character
      right after the `.`. */
  ghost predicate AtDotAt(s: string, p: int, d: int) {
    && 0 < p && p + 1 < d && d + 1 < |s|
    && s[p] == '@' && s[d] == '.'
    && !IsWhitespace(s[p - 1]) && !IsWhitespace(s[d + 1])
    && forall k :: p < k < d ==> !IsWhitespace(s[k])
  }

  ghost predicate HasAtDot(s: string) {
    exists p, d :: AtDotAt(s, p, d)
  }

  /** A whole-string match of the email pattern found at offset `i` of `s`
      yields the `@` and `.` positions of AtDotAt. */
  lemma {:induction false} MatchGivesAtDot(s: string, i: int, j: int)
    requires 0 <= i <= j <= |s| && EmailMatchesWhole(s[i..j])
    ensures HasAtDot(s)
  {
    var t := s[i..j];
    var p, d :| 0 < p < |t| && p + 1 < d < |t| - 1 && EmailSplit(t, p, d);
    assert t[..p][p - 1] == s[i + p - 1];
    assert t[d + 1..][0] == s[i + d + 1];
    forall k | i + p < k < i + d ensures !IsWhitespace(s[k]) {
      assert t[p + 1..d][k - i - p - 1] == s[k];
    }
    assert AtDotAt(s, i + p, i + d);
  }

  /** Around an AtDotAt pair, the substring from the character before the
      `@` to the character after the `.` matches the email pattern whole. */
  lemma {:induction false} AtDotGivesMatch(s: string, p: int, d: int)
    requires AtDotAt(s, p, d)
    ensures EmailMatchesWhole(s[p - 1..d + 2])
  {
    var t := s[p - 1..d + 2];
    var d' := d - p + 1;
    assert t[1] == '@' && t[d'] == '.';
    assert NonSpace(t[..1]) by { assert t[..1] == [s[p - 1]]; }
    assert NonSpace(t[2..d']) by {
      forall k | 0 <= k < d' - 2 ensures !IsWhitespace(t[2..d'][k]) {
        assert t[2..d'][k] == s[p + 1 + k];
      }
    }
    assert NonSpace(t[d' + 1..]) by { assert t[d' + 1..] == [s[d + 1]]; }
    assert EmailSplit(t, 1, d');
  }

  /** Some substring matches the email pattern whole exactly when the string
      has an `@` and a later `.` placed as AtDotAt describes. */
  lemma {:induction false} SubstringMatchIffAtDot(s: string)
    ensures (exists i, j | 0 <= i <= j <= |s| :: EmailMatchesWhole(s[i..j])) <==> HasAtDot(s)
  {
    if exists i, j | 0 <= i <= j <= |s| :: EmailMatchesWhole(s[i..j]) {
      var i, j :| 0 <= i <= j <= |s| && EmailMatchesWhole(s[i..j]);
      MatchGivesAtDot(s, i, j);
    }
    if HasAtDot(s) {
      var p, d :| AtDotAt(s, p, d);
      AtDotGivesMatch(s, p, d);
    }
  }

  /** A string that passes the email test is not blank. */
  lemma EmailPatternNotBlank(s: string)
    requires HasAtDot(s)
    ensures !IsBlank(s)
  {
    var p, d :| AtDotAt(s, p, d);
    assert !IsWhitespace(s[p]);
  }

  // ------------------------------- /(?=.*\d)(?=.*[a-z])(?=.*[A-Z]).{8,}/

  /** The three character classes the password lookaheads ask for. */
  datatype CharClass = Digit | Lower | Upper

  predicate InClass(c: char, cls: CharClass) {
    match cls
    case Digit => IsAsciiDigit(c)
    case Lower => IsAsciiLower(c)
    case Upper => IsAsciiUpper(c)
  }

  predicate Contains(s: string, cls: CharClass) {
    exists k | 0 <= k < |s| :: InClass(s[k], cls)
  }

  /** The lookahead `(?=.*C)` succeeds at position `i`: a character of class
      `C` occurs at or after `i` with no line terminator in between. */
  predicate LookaheadAt(s: string, i: nat, cls: CharClass)
    requires i <= |s|
  {
    exists k | i <= k < |s| :: LineFree(s[i..k]) && InClass(s[k], cls)
  }

  /** The whole password pattern matches starting at `i`: the three
      lookaheads succeed there and `.{8,}` consumes eight or more characters
      of the same line. */
  predicate PasswordMatchesAt(s: string, i: nat)
    requires i <= |s|
  {
    && LookaheadAt(s, i, Digit) && LookaheadAt(s, i, Lower) && LookaheadAt(s, i, Upper)
    && i + 8 <= |s| && LineFree(s[i..i + 8])
  }

  /** `/(?=.*\d)(?=.*[a-z])(?=.*[A-Z]).{8,}/.test(s)`: unanchored, so a match
      may start anywhere. Whatever the string, one that passes has eight
      characters and one of each class. */
  predicate PasswordPatternFound(s: string)
    ensures PasswordPatternFound(s) ==>
            |s| >= 8 && Contains(s, Digit) && Contains(s, Lower) && Contains(s, Upper)
  {
    exists i: nat | i <= |s| :: PasswordMatchesAt(s, i)
  }

  /** A string holding a digit or an ASCII letter is not blank. */
  lemma ContainsNotBlank(s: string, cls: CharClass)
    requires Contains(s, cls)
    ensures !IsBlank(s)
  {
    var k :| 0 <= k < |s| && InClass(s[k], cls);
    assert !IsWhitespace(s[k]);
  }

  /** On a single line, the password test is exactly the rule the form
      states: at least eight characters, among them an ASCII digit, an ASCII
      lower-case letter and an ASCII upper-case letter. */
  lemma {:induction false} PasswordPatternOneLine(s: string)
    requires LineFree(s)
    ensures PasswordPatternFound(s) <==>
            |s| >= 8 && Contains(s, Digit) && Contains(s, Lower) && Contains(s, Upper)
  {
    if |s| >= 8 && Contains(s, Digit) && Contains(s, Lower) && Contains(s, Upper) {
      forall cls: CharClass | Contains(s, cls) ensures LookaheadAt(s, 0, cls) {
        var k :| 0 <= k < |s| && InClass(s[k], cls);
        assert LineFree(s[0..k]);
      }
      assert LineFree(s[0..8]);
      assert PasswordMatchesAt(s, 0);
    }
  }

  /** A line break splits the password: neither line of "abcdefgh" U+2028
      "A1" meets the rule, so the test fails although the whole string has
      eleven characters and one of each class. (A browser strips LF and CR
      from a text or password input, but not U+2028 LINE SEPARATOR.) */
  lemma PasswordPatternLineBreak()
    ensures var s := "abcdefgh\U{2028}A1";
            |s| >= 8 && Contains(s, Digit) && Contains(s, Lower) && Contains(s, Upper)
            && !PasswordPatternFound(s)
  {
    var s := "abcdefgh\U{2028}A1";
    assert InClass(s[10], Digit) && InClass(s[0], Lower) && InClass(s[9], Upper);
    forall i: nat | i <= |s| ensures !PasswordMatchesAt(s, i) {
      if i <= 8 {
        forall k | i <= k < |s| && InClass(s[k], Upper) ensures !LineFree(s[i..k]) {
          assert k == 9;
          assert s[i..k][8 - i] == '\U{2028}';
        }
      }
    }
  }
}
