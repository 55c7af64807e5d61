/// Character-level behaviour the chat engine relies on: JavaScript's notion
/// of white space, `String.prototype.trim`, `length` (UTF-16 code units),
/// lower-casing, and the e-mail pattern checked at registration.
module Text {

  /** The characters that JavaScript's `trim` strips and that `\s` matches in a
      regular expression: ECMAScript's WhiteSpace and LineTerminator sets. */
  predicate IsWhitespace(c: char) {
    var n := c as int;
    n == 0x09 || n == 0x0A || n == 0x0B || n == 0x0C || n == 0x0D || n == 0x20
    || n == 0xA0 || n == 0x1680 || (0x2000 <= n <= 0x200A) || n == 0x2028
    || n == 0x2029 || n == 0x202F || n == 0x205F || n == 0x3000 || n == 0xFEFF
  }

  predicate AllWhitespace(s: string) {
    forall k :: 0 <= k < |s| ==> IsWhitespace(s[k])
  }

  /** `s` with its leading white space removed. */
  function TrimStart(s: string): (r: string)
    ensures |r| <= |s|
  {
    if s != [] && IsWhitespace(s[0]) then TrimStart(s[1..]) else s
  }

  /** What TrimStart removes is white space, and what it keeps is a suffix
      that does not start with white space. */
  lemma {:induction false} TrimStartSpec(s: string)
    ensures var r := TrimStart(s);
      r == s[|s| - |r|..]
      && (forall k :: 0 <= k < |s| - |r| ==> IsWhitespace(s[k]))
      && (r == [] || !IsWhitespace(r[0]))
    decreases |s|
  {
    if s != [] && IsWhitespace(s[0]) {
      TrimStartSpec(s[1..]);
    }
  }

  /** `s` with its trailing white space removed. */
  function TrimEnd(s: string): (r: string)
    ensures |r| <= |s|
  {
    if s != [] && IsWhitespace(s[|s| - 1]) then TrimEnd(s[..|s| - 1]) else s
  }

  /** What TrimEnd removes is white space, and what it keeps is a prefix
      that does not end with white space. */
  lemma {:induction false} TrimEndSpec(s: string)
    ensures var r := TrimEnd(s);
      r == s[..|r|]
      && (forall k :: |r| <= k < |s| ==> IsWhitespace(s[k]))
      && (r == [] || !IsWhitespace(r[|r| - 1]))
    decreases |s|
  {
    if s != [] && IsWhitespace(s[|s| - 1]) {
      TrimEndSpec(s[..|s| - 1]);
    }
  }

  /** JavaScript's `s.trim()`: the result is empty exactly when `s` is all
      white space, and otherwise neither starts nor ends with white space. */
  function Trim(s: string): (r: string)
    ensures |r| <= |s|
    ensures r == [] <==> AllWhitespace(s)
    ensures r == [] || (!IsWhitespace(r[0]) && !IsWhitespace(r[|r| - 1]))
  {
    TrimStartSpec(s);
    TrimEndSpec(TrimStart(s));
    TrimEnd(TrimStart(s))
  }

  /** Trim keeps the infix of `s` that starts after its leading white space
      and ends before its trailing white space; it is empty exactly when `s`
      is all white space. */
  lemma TrimSpec(s: string)
    ensures var r, a := Trim(s), |s| - |TrimStart(s)|;
      a + |r| <= |s| && r == s[a..a + |r|]
      && (forall k :: 0 <= k < a ==> IsWhitespace(s[k]))
      && (forall k :: a + |r| <= k < |s| ==> IsWhitespace(s[k]))
      && (r == [] || (!IsWhitespace(r[0]) && !IsWhitespace(r[|r| - 1])))
      && (r == [] <==> AllWhitespace(s))
  {
    TrimStartSpec(s);
    TrimEndSpec(TrimStart(s));
  }

  /** Trimming twice is trimming once. */
  lemma TrimIdempotent(s: string)
    ensures Trim(Trim(s)) == Trim(s)
  {
    TrimSpec(s);
    var r := Trim(s);
    if r != [] {
      assert TrimStart(r) == r;
      assert TrimEnd(r) == r;
    }
  }

  /** Number of UTF-16 code units JavaScript's `length` reports for `s`:
      characters outside the Basic Multilingual Plane take two. */
  function Utf16Length(s: string): (n: nat)
    ensures |s| <= n <= 2 * |s|
    ensures (forall k :: 0 <= k < |s| ==> s[k] as int < 0x10000) ==> n == |s|
  {
    if s == [] then 0
    else (if s[0] as int < 0x10000 then 1 else 2) + Utf16Length(s[1..])
  }

  function LowerChar(c: char): char {
    if 'A' <= c <= 'Z' then (c as int + 32) as char else c
  }

  /** `toLowerCase` restricted to the ASCII letters. */
  function ToLower(s: string): (r: string)
    ensures |r| == |s|
    ensures forall k :: 0 <= k < |r| ==> !('A' <= r[k] <= 'Z')
  {
    seq(|s|, k requires 0 <= k < |s| => LowerChar(s[k]))
  }

  /** No upper-case ASCII letter survives, and only those letters change,
      each to the letter 32 code points above it. */
  lemma ToLowerSpec(s: string)
    ensures var r := ToLower(s);
      (forall k :: 0 <= k < |r| ==> !('A' <= r[k] <= 'Z'))
      && (forall k :: 0 <= k < |s| && r[k] != s[k] ==> 'A' <= s[k] <= 'Z' && r[k] as int == s[k] as int + 32)
  {
  }

  /** Lower-casing an already lower-cased string changes nothing. */
  lemma ToLowerIdempotent(s: string)
    ensures ToLower(ToLower(s)) == ToLower(s)
  {
    var r := ToLower(s);
    assert forall k :: 0 <= k < |r| ==> ToLower(r)[k] == r[k];
  }

  // ---------------------------------------------------------------------
  // E-mail pattern
  // ---------------------------------------------------------------------

  /** The regular-expression class `[^\s@]`. */
  predicate PlainChar(c: char) {
    !IsWhitespace(c) && c != '@'
  }

  predicate AllPlain(s: string) {
    forall k :: 0 <= k < |s| ==> PlainChar(s[k])
  }

  /** What `/^[^\s@]+@[^\s@]+\.[^\s@]+$/.test(s)` accepts: a non-empty run of
      plain characters, `@` at index `at`, then plain characters (dots
      included) with a dot at some index `dot` that has at least one
      character on each side. Such a string has at least five characters and
      neither starts nor ends with white space or `@`. */
  predicate MatchesEmailPattern(s: string)
    ensures MatchesEmailPattern(s) ==> 5 <= |s| && PlainChar(s[0]) && PlainChar(s[|s| - 1])
  {
    exists at, dot | 0 < at < |s| && 0 < dot < |s| ::
      at + 1 < dot < |s| - 1 && s[at] == '@' && s[dot] == '.'
      && AllPlain(s[..at]) && AllPlain(s[at + 1..])
  }

  /** Number of occurrences of `c` in `s`. */
  function Count(s: string, c: char): (n: nat)
    ensures n <= |s|
    ensures n == 0 <==> forall k :: 0 <= k < |s| ==> s[k] != c
  {
    if s == [] then 0 else (if s[0] == c then 1 else 0) + Count(s[1..], c)
  }

  /** Index of the first `c` in `s`, or `|s|` when there is none. */
  function IndexOf(s: string, c: char): (i: nat)
    ensures i <= |s|
    ensures i < |s| ==> s[i] == c
    ensures forall k :: 0 <= k < i ==> s[k] != c
  {
    if s == [] then 0 else if s[0] == c then 0 else 1 + IndexOf(s[1..], c)
  }

  /** The pattern described field by field: no white space at all, exactly one
      `@`, a non-empty local part before it, and a domain after it holding a
      `.` with at least one character on each side. */
  predicate WellFormedEmail(s: string) {
    (forall k :: 0 <= k < |s| ==> !IsWhitespace(s[k]))
    && Count(s, '@') == 1
    && var at := IndexOf(s, '@');
       0 < at && exists dot | at + 1 < dot < |s| - 1 :: s[dot] == '.'
  }

  /** One occurrence of `c`, at index `i`, means no occurrence anywhere else. */
  lemma {:induction false} CountOne(s: string, c: char, i: nat)
    requires i < |s| && s[i] == c
    ensures Count(s, c) == 1 <==> forall k :: 0 <= k < |s| && k != i ==> s[k] != c
  {
    if i == 0 {
      assert forall k :: 0 <= k < |s[1..]| ==> s[1..][k] == s[k + 1];
    } else {
      CountOne(s[1..], c, i - 1);
      assert forall k :: 0 <= k < |s[1..]| ==> s[1..][k] == s[k + 1];
      if s[0] == c {
        assert Count(s[1..], c) >= 1;
      }
    }
  }

  /** The regular expression and the field-by-field description agree. */
  lemma EmailPatternIff(s: string)
    ensures MatchesEmailPattern(s) <==> WellFormedEmail(s)
  {
    if MatchesEmailPattern(s) {
      var at, dot :| 0 < at < |s| && 0 < dot < |s| && at + 1 < dot < |s| - 1
        && s[at] == '@' && s[dot] == '.' && AllPlain(s[..at]) && AllPlain(s[at + 1..]);
      forall k | 0 <= k < |s| && k != at ensures PlainChar(s[k]) {
        if k < at { assert s[k] == s[..at][k]; } else { assert s[k] == s[at + 1..][k - at - 1]; }
      }
      CountOne(s, '@', at);
      assert IndexOf(s, '@') == at;
    }
    if WellFormedEmail(s) {
      var at := IndexOf(s, '@');
      assert at < |s|;
      CountOne(s, '@', at);
      var dot :| at + 1 < dot < |s| - 1 && s[dot] == '.';
      assert AllPlain(s[..at]);
      assert forall k :: at + 1 <= k < |s| ==> PlainChar(s[k]);
      assert AllPlain(s[at + 1..]);
    }
  }

  /** Lower-casing a string that matches the pattern keeps it matching, so the
      address stored for a customer is itself a well-formed address. */
  lemma LowerKeepsEmailPattern(s: string)
    requires MatchesEmailPattern(s)
    ensures MatchesEmailPattern(ToLower(s))
  {
    var at, dot :| 0 < at < |s| && 0 < dot < |s| && at + 1 < dot < |s| - 1
      && s[at] == '@' && s[dot] == '.' && AllPlain(s[..at]) && AllPlain(s[at + 1..]);
    var r := ToLower(s);
    forall k | 0 <= k < |s| && k != at ensures PlainChar(r[k]) {
      if k < at { assert s[k] == s[..at][k]; } else { assert s[k] == s[at + 1..][k - at - 1]; }
    }
    assert AllPlain(r[..at]) by {
      forall k | 0 <= k < at ensures PlainChar(r[..at][k]) { assert r[..at][k] == r[k]; }
    }
    assert AllPlain(r[at + 1..]);
    assert r[at] == '@' && r[dot] == '.';
  }
}
