/** String operations the scraper relies on: its own `truncate_text`, and the
    Python string builtins whose behaviour shapes its results (`s[:k]`,
    `str.strip()`, `str.lower()`, `in` on strings and `str(int)`). */
module Text {

  /** The marker `truncate_text` appends when it cuts a text (18 characters). */
  const TruncationMarker: string := "\n...[truncated]..."

  /** Python's `s[:k]` for any integer `k`: a negative `k` counts from the end. */
  function PyPrefix(s: string, k: int): (r: string)
    ensures r <= s
    ensures 0 <= k ==> |r| == if k <= |s| then k else |s|
    ensures k < 0 ==> |r| == if |s| + k < 0 then 0 else |s| + k
  {
    if 0 <= k then s[..if k <= |s| then k else |s|]
    else s[..if |s| + k < 0 then 0 else |s| + k]
  }

  /** `truncate_text(text, max_chars)`: a text no longer than `max_chars` is
      kept; a longer one keeps its first `max_chars` characters and gets the
      truncation marker. */
  function TruncateText(text: string, maxChars: int): (r: string)
    ensures |text| <= maxChars ==> r == text
    ensures 0 <= maxChars < |text| ==>
              |r| == maxChars + 18 && r[..maxChars] == text[..maxChars]
              && r[maxChars..] == TruncationMarker
    ensures maxChars < |text| ==> |r| >= 18 && r[|r| - 18..] == TruncationMarker
    ensures 0 <= maxChars ==> |r| <= maxChars + 18
    ensures 0 <= maxChars ==> text[..if |text| <= maxChars then |text| else maxChars] <= r
    ensures maxChars < 0 ==>
              var kept := if |text| + maxChars < 0 then 0 else |text| + maxChars;
              r == text[..kept] + TruncationMarker
  {
    assert |TruncationMarker| == 18;
    if |text| > maxChars then PyPrefix(text, maxChars) + TruncationMarker
    else text
  }

  /** Python's `str.isspace()` for one character: the characters whose
      bidirectional class is WS, B or S, or whose category is Zs. */
  predicate IsSpace(c: char)
  {
    c == ' ' || ('\t' <= c <= '\r') || ('\U{1C}' <= c <= '\U{1F}')
    || c == '\U{85}' || c == '\U{A0}' || c == '\U{1680}'
    || ('\U{2000}' <= c <= '\U{200A}') || c == '\U{2028}' || c == '\U{2029}'
    || c == '\U{202F}' || c == '\U{205F}' || c == '\U{3000}'
  }

  /** Where the text of `s` starts when scanning from `i`: past the run of
      whitespace at `i`. */
  function ContentStart(s: string, i: nat): (k: nat)
    requires i <= |s|
    ensures i <= k <= |s|
    ensures forall j :: i <= j < k ==> IsSpace(s[j])
    ensures k < |s| ==> !IsSpace(s[k])
    decreases |s| - i
  {
    if i < |s| && IsSpace(s[i]) then ContentStart(s, i + 1) else i
  }

  /** Where the text of `s[lo..j]` ends: before the run of whitespace that
      ends at `j`, and never before `lo`. */
  function ContentEnd(s: string, lo: nat, j: nat): (k: nat)
    requires lo <= j <= |s|
    ensures lo <= k <= j
    ensures forall m :: k <= m < j ==> IsSpace(s[m])
    ensures lo < k ==> !IsSpace(s[k - 1])
  {
    if lo < j && IsSpace(s[j - 1]) then ContentEnd(s, lo, j - 1) else j
  }

  /** `s.strip()`: the infix of `s` left once the whitespace at both ends is
      gone. */
  function Strip(s: string): (r: string)
    ensures var a := ContentStart(s, 0);
            var b := ContentEnd(s, a, |s|);
            r == s[a..b]
            && (forall i :: 0 <= i < a ==> IsSpace(s[i]))
            && (forall i :: b <= i < |s| ==> IsSpace(s[i]))
    ensures r != [] ==> !IsSpace(r[0]) && !IsSpace(r[|r| - 1])
  {
    var a := ContentStart(s, 0);
    s[a..ContentEnd(s, a, |s|)]
  }

  /** Stripping is idempotent: the text it returns has nothing more to strip. */
  lemma StripIdempotent(s: string)
    ensures Strip(Strip(s)) == Strip(s)
  {
    StripKeeps(Strip(s));
  }

  /** A text without whitespace at either end is stripped to itself. */
  lemma StripKeeps(s: string)
    requires s == [] || (!IsSpace(s[0]) && !IsSpace(s[|s| - 1]))
    ensures Strip(s) == s
  {
    assert ContentStart(s, 0) == 0;
    assert ContentEnd(s, 0, |s|) == |s|;
  }

  /** `str.lower()` on one character, for the ASCII letters. */
  function LowerChar(c: char): char
  {
    if 'A' <= c <= 'Z' then (c as int - 'A' as int + 'a' as int) as char else c
  }

  /** `s.lower()`, ASCII letters only. */
  function Lower(s: string): (r: string)
    ensures |r| == |s|
    ensures forall i :: 0 <= i < |s| ==> r[i] == LowerChar(s[i])
    ensures forall i :: 0 <= i < |s| ==> !('A' <= r[i] <= 'Z')
  {
    seq(|s|, i requires 0 <= i < |s| => LowerChar(s[i]))
  }

  /** Python's `t in s` on strings: `t` occurs somewhere in `s`. */
  predicate ContainsInfix(s: string, t: string)
  {
    exists i :: 0 <= i <= |s| && t <= s[i..]
  }

  /** Lower-casing both sides keeps an occurrence: `t in s` implies
      `t.lower() in s.lower()`, at the same position. */
  lemma InfixSurvivesLower(s: string, t: string)
    ensures ContainsInfix(s, t) ==> ContainsInfix(Lower(s), Lower(t))
  {
    if ContainsInfix(s, t) {
      var i :| 0 <= i <= |s| && t <= s[i..];
      assert Lower(t) <= Lower(s)[i..];
    }
  }

  /** The decimal digit character for `d`. */
  function DigitChar(d: nat): (c: char)
    requires d < 10
    ensures '0' <= c <= '9' && c as int - '0' as int == d
  {
    (d + '0' as int) as char
  }

  predicate IsDigits(s: string)
  {
    forall i :: 0 <= i < |s| ==> '0' <= s[i] <= '9'
  }

  /** `str(n)` for a natural number: its decimal digits, without leading zeros. */
  function NatToDecimal(n: nat): (s: string)
    ensures |s| >= 1 && IsDigits(s)
    ensures s[0] == '0' ==> n == 0
  {
    if n < 10 then [DigitChar(n)] else NatToDecimal(n / 10) + [DigitChar(n % 10)]
  }

  /** The number a string of decimal digits denotes (Python's `int(s)`). */
  function DecimalValue(s: string): nat
    requires IsDigits(s)
  {
    if s == [] then 0
    else 10 * DecimalValue(s[..|s| - 1]) + (s[|s| - 1] as int - '0' as int)
  }

  /** Reading back the decimal rendering gives the number again. */
  lemma {:induction false} DecimalRoundTrip(n: nat)
    ensures DecimalValue(NatToDecimal(n)) == n
  {
    if n >= 10 {
      DecimalRoundTrip(n / 10);
      var s := NatToDecimal(n);
      assert s[..|s| - 1] == NatToDecimal(n / 10);
    }
  }
}
