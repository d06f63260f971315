/**
 * The string primitives the rules engine and the pages rely on:
 * `toLowerCase`, `includes`, the regular-expression character classes
 * `\d`, `\s` and `\w`, `parseInt` on a run of digits and `String(n)`.
 */
module Text {

  /** Lower-cases one character as `toLowerCase` does for the ASCII letters. */
  function LowerChar(c: char): (r: char)
    ensures !('A' <= r <= 'Z')
    ensures ('A' <= c <= 'Z') || r == c
  {
    if 'A' <= c <= 'Z' then (c as int - 'A' as int + 'a' as int) as char else c
  }

  /** `s.toLowerCase()`, character by character. */
  function ToLower(s: string): (r: string)
    ensures |r| == |s|
    ensures forall i :: 0 <= i < |s| ==> r[i] == LowerChar(s[i])
    decreases |s|
  {
    if s == [] then [] else [LowerChar(s[0])] + ToLower(s[1..])
  }

  /** Lower-casing an already lower-cased string changes nothing. */
  lemma ToLowerIdempotent(s: string)
    ensures ToLower(ToLower(s)) == ToLower(s)
  {
    var once := ToLower(s);
    var twice := ToLower(once);
    assert forall i :: 0 <= i < |s| ==> twice[i] == once[i];
  }

  /** `sub` occurs in `s` starting at index `i`. */
  ghost predicate OccursAt(s: string, sub: string, i: int)
  {
    0 <= i && i + |sub| <= |s| && s[i..i + |sub|] == sub
  }

  /** `sub` occurs somewhere in `s`. */
  ghost predicate Occurs(s: string, sub: string)
  {
    exists i :: OccursAt(s, sub, i)
  }

  /** `s.includes(sub)`: tries every start position from the left. */
  function Contains(s: string, sub: string): (b: bool)
    ensures b <==> Occurs(s, sub)
    decreases |s|
  {
    if sub <= s then
      assert OccursAt(s, sub, 0);
      true
    else if s == [] then
      false
    else
      var rest := Contains(s[1..], sub);
      assert forall i :: OccursAt(s[1..], sub, i) <==> OccursAt(s, sub, i + 1) by {
        forall i ensures OccursAt(s[1..], sub, i) <==> OccursAt(s, sub, i + 1) {
          if 0 <= i && i + |sub| <= |s[1..]| {
            assert s[1..][i..i + |sub|] == s[i + 1..i + 1 + |sub|];
          }
        }
      }
      assert OccursAt(s, sub, 0) ==> sub <= s;
      assert forall i :: OccursAt(s, sub, i) && i > 0 ==> OccursAt(s[1..], sub, i - 1);
      rest
  }

  /** `\d` */
  predicate IsDigit(c: char)
  {
    '0' <= c <= '9'
  }

  /**
   * `\s`: the ECMAScript white-space and line-terminator characters
   * (tab, line feed, vertical tab, form feed, carriage return, space,
   * no-break space, the Unicode space separators, the line and paragraph
   * separators and the byte-order mark).
   */
  predicate IsSpace(c: char)
  {
    var n := c as int;
    (9 <= n <= 13) || n == 32 || n == 0xA0 || n == 0x1680 || (0x2000 <= n <= 0x200A) ||
    n == 0x2028 || n == 0x2029 || n == 0x202F || n == 0x205F || n == 0x3000 || n == 0xFEFF
  }

  /** `[A-Z]` */
  predicate IsUpper(c: char)
  {
    'A' <= c <= 'Z'
  }

  /** `[a-z]` */
  predicate IsLower(c: char)
  {
    'a' <= c <= 'z'
  }

  /** `\w` */
  predicate IsWordChar(c: char)
  {
    IsUpper(c) || IsLower(c) || IsDigit(c) || c == '_'
  }

  /** Every character of `s` belongs to the class `inClass`. */
  ghost predicate AllIn(s: string, inClass: char -> bool)
  {
    forall k :: 0 <= k < |s| ==> inClass(s[k])
  }

  /**
   * The end of the longest run of `inClass` characters starting at `i`:
   * what a greedy `[class]*` consumes from `i`.
   */
  function SpanEnd(s: string, i: nat, inClass: char -> bool): (j: nat)
    requires i <= |s|
    ensures i <= j <= |s|
    ensures forall k :: i <= k < j ==> inClass(s[k])
    ensures j < |s| ==> !inClass(s[j])
    decreases |s| - i
  {
    if i < |s| && inClass(s[i]) then SpanEnd(s, i + 1, inClass) else i
  }

  /** The run that `SpanEnd` measures lies in the class. */
  lemma SpanAllIn(s: string, i: nat, inClass: char -> bool)
    requires i <= |s|
    ensures AllIn(s[i..SpanEnd(s, i, inClass)], inClass)
  {
  }

  /** A slice of a slice is a slice of the original. */
  lemma SliceOfSlice<T>(s: seq<T>, lo: nat, a: nat, b: nat, hi: nat)
    requires lo <= a <= b <= hi <= |s|
    ensures s[lo..hi][a - lo..b - lo] == s[a..b]
    ensures a == lo ==> s[lo..hi][..b - lo] == s[a..b]
    ensures b == hi ==> s[lo..hi][a - lo..] == s[a..b]
  {
    var inner := s[lo..hi][a - lo..b - lo];
    assert |inner| == |s[a..b]|;
    assert forall k :: 0 <= k < |inner| ==> inner[k] == s[a..b][k];
  }

  /** `s` starts, at index `k`, with `word` when both are compared case-insensitively (`word` is lower case). */
  predicate StartsWithIgnoringCase(s: string, k: nat, word: string)
  {
    k + |word| <= |s| && ToLower(s[k..k + |word|]) == word
  }

  /** The value of one decimal digit. */
  function DigitValue(c: char): (v: nat)
    requires IsDigit(c)
    ensures v < 10
  {
    c as int - '0' as int
  }

  /** The digit character for a value below ten. */
  function DigitChar(v: nat): (c: char)
    requires v < 10
    ensures IsDigit(c) && DigitValue(c) == v
  {
    (v + '0' as int) as char
  }

  /** `parseInt` applied to a non-empty run of decimal digits. */
  function DecimalValue(digits: string): nat
    requires forall k :: 0 <= k < |digits| ==> IsDigit(digits[k])
    decreases |digits|
  {
    if digits == [] then 0
    else 10 * DecimalValue(digits[..|digits| - 1]) + DigitValue(digits[|digits| - 1])
  }

  /** The decimal representation of a natural number, without leading zeros. */
  function NatToDecimal(n: nat): (r: string)
    ensures |r| > 0
    ensures forall k :: 0 <= k < |r| ==> IsDigit(r[k])
    ensures |r| > 1 ==> r[0] != '0'
    decreases n
  {
    if n < 10 then [DigitChar(n)] else NatToDecimal(n / 10) + [DigitChar(n % 10)]
  }

  /** Reading back what `NatToDecimal` writes gives the number. */
  lemma {:induction false} DecimalRoundTrip(n: nat)
    ensures DecimalValue(NatToDecimal(n)) == n
    decreases n
  {
    var r := NatToDecimal(n);
    if n >= 10 {
      DecimalRoundTrip(n / 10);
      assert r[..|r| - 1] == NatToDecimal(n / 10);
    }
  }

  /** `String(n)` for an integer. */
  function IntToString(n: int): (r: string)
    ensures n < 0 <==> (|r| > 0 && r[0] == '-')
    ensures n >= 0 ==> (forall k :: 0 <= k < |r| ==> IsDigit(r[k])) && DecimalValue(r) == n
    ensures n < 0 ==> (forall k :: 1 <= k < |r| ==> IsDigit(r[k])) && DecimalValue(r[1..]) == -n
    ensures n >= 0 ==> |r| > 0 && (|r| > 1 ==> r[0] != '0')
    ensures n < 0 ==> |r| > 1 && (|r| > 2 ==> r[1] != '0')
  {
    DecimalRoundTrip(if n < 0 then -n else n);
    if n < 0 then "-" + NatToDecimal(-n) else NatToDecimal(n)
  }
}
