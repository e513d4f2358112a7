/**
 * Character and string helpers shared by the token model and both scanners:
 * decimal digits, the "skip while" cursor loop, newline counting and the
 * decimal rendering of a line number.
 */
module Strings {

  /** Scanner::is_digit: an ASCII decimal digit. */
  predicate IsDigit(c: char) {
    '0' <= c <= '9'
  }

  /** Scanner::is_alpha: an ASCII letter or underscore. */
  predicate IsAlpha(c: char) {
    'a' <= c <= 'z' || 'A' <= c <= 'Z' || c == '_'
  }

  /** Scanner::is_alphanumeric. */
  predicate IsAlphanumeric(c: char) {
    IsDigit(c) || IsAlpha(c)
  }

  /** The character classes a cursor loop runs over. */
  datatype CharClass = Digit | Alphanumeric | NotQuote | NotNewline | NotComma

  /** Whether `c` belongs to class `cls`. */
  predicate InClass(c: char, cls: CharClass) {
    match cls
    case Digit => IsDigit(c)
    case Alphanumeric => IsAlphanumeric(c)
    case NotQuote => c != '"'
    case NotNewline => c != '\n'
    case NotComma => c != ','
  }

  /**
   * The cursor position reached by advancing from `i` while the current
   * character belongs to `cls`: every skipped character does, and the scan
   * stops at the end of `s` or at the first character that does not.
   */
  function SkipWhile(s: string, i: nat, cls: CharClass): (j: nat)
    requires i <= |s|
    ensures i <= j <= |s|
    decreases |s| - i
  {
    if i == |s| || !InClass(s[i], cls) then i else SkipWhile(s, i + 1, cls)
  }

  /** Every character SkipWhile passes over is in the class, and the one it stops at is not. */
  lemma {:induction false} SkipWhileStops(s: string, i: nat, cls: CharClass)
    requires i <= |s|
    ensures forall k :: i <= k < SkipWhile(s, i, cls) ==> InClass(s[k], cls)
    ensures SkipWhile(s, i, cls) == |s| || !InClass(s[SkipWhile(s, i, cls)], cls)
    decreases |s| - i
  {
    if i < |s| && InClass(s[i], cls) {
      SkipWhileStops(s, i + 1, cls);
    }
  }

  /** The stopping position of SkipWhile is the only one with its two properties. */
  lemma {:induction false} SkipWhileUnique(s: string, i: nat, cls: CharClass, j: nat)
    requires i <= j <= |s|
    requires forall k :: i <= k < j ==> InClass(s[k], cls)
    requires j == |s| || !InClass(s[j], cls)
    ensures SkipWhile(s, i, cls) == j
    decreases j - i
  {
    if i < j {
      SkipWhileUnique(s, i + 1, cls, j);
    }
  }

  /** The number of newline characters in `s[i..j]`. */
  function Newlines(s: string, i: nat, j: nat): nat
    requires i <= j <= |s|
    decreases j - i
  {
    if i == j then 0 else Newlines(s, i, j - 1) + (if s[j - 1] == '\n' then 1 else 0)
  }

  /** Newline counts add up over adjacent ranges. */
  lemma {:induction false} NewlinesSplit(s: string, i: nat, j: nat, k: nat)
    requires i <= j <= k <= |s|
    ensures Newlines(s, i, k) == Newlines(s, i, j) + Newlines(s, j, k)
    decreases k - j
  {
    if j < k {
      NewlinesSplit(s, i, j, k - 1);
    }
  }

  /** A range without a newline character counts zero newlines. */
  lemma {:induction false} NoNewlines(s: string, i: nat, j: nat)
    requires i <= j <= |s|
    requires forall k :: i <= k < j ==> s[k] != '\n'
    ensures Newlines(s, i, j) == 0
    decreases j - i
  {
    if i < j {
      NoNewlines(s, i, j - 1);
    }
  }

  /** The character of decimal digit `d`. */
  function DigitChar(d: nat): (c: char)
    requires d < 10
    ensures IsDigit(c)
  {
    ('0' as int + d) as char
  }

  /** The value of a decimal digit character. */
  function DigitValue(c: char): (d: nat)
    requires IsDigit(c)
    ensures d < 10 && DigitChar(d) == c
  {
    c as int - '0' as int
  }

  /** Every character of `s` is a decimal digit. */
  predicate AllDigits(s: string) {
    forall k :: 0 <= k < |s| ==> IsDigit(s[k])
  }

  /**
   * std::to_string on a non-negative int: the shortest decimal spelling,
   * with no sign and no leading zero (except for zero itself).
   */
  function NatToString(n: nat): (s: string)
    ensures |s| > 0 && AllDigits(s)
    ensures s[0] == '0' ==> n == 0
    decreases n
  {
    if n < 10 then [DigitChar(n)] else NatToString(n / 10) + [DigitChar(n % 10)]
  }

  /** The value of a string of decimal digits. */
  function ParseNat(s: string): nat
    requires AllDigits(s)
    decreases |s|
  {
    if s == [] then 0 else ParseNat(s[..|s| - 1]) * 10 + DigitValue(s[|s| - 1])
  }

  /** Reading back the rendering of `n` gives `n`. */
  lemma {:induction false} ParseNatToString(n: nat)
    ensures ParseNat(NatToString(n)) == n
    decreases n
  {
    var s := NatToString(n);
    if n >= 10 {
      ParseNatToString(n / 10);
      assert s[..|s| - 1] == NatToString(n / 10);
    }
  }
}
