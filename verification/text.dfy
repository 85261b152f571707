/**
 * The string operations the two blocks rely on: case mapping, substring
 * search (`includes`), the file-extension strip `replace(/\.[^/.]+$/, '')`,
 * decimal rendering of an index, and JavaScript's relational order on strings.
 */
module Text {

  /** Lower-cases an ASCII capital; every other character is kept. */
  function LowerChar(c: char): char {
    if 'A' <= c <= 'Z' then (c as int + 32) as char else c
  }

  /** Upper-cases an ASCII small letter; every other character is kept. */
  function UpperChar(c: char): char {
    if 'a' <= c <= 'z' then (c as int - 32) as char else c
  }

  /** `String.prototype.toLowerCase`, on the ASCII range. */
  function ToLower(s: string): (r: string)
    ensures |r| == |s|
    ensures forall i :: 0 <= i < |s| ==> r[i] == LowerChar(s[i])
  {
    seq(|s|, i requires 0 <= i < |s| => LowerChar(s[i]))
  }

  /** `String.prototype.toUpperCase`, on the ASCII range. */
  function ToUpper(s: string): (r: string)
    ensures |r| == |s|
    ensures forall i :: 0 <= i < |s| ==> r[i] == UpperChar(s[i])
  {
    seq(|s|, i requires 0 <= i < |s| => UpperChar(s[i]))
  }

  /** needle occurs in s starting at position i. */
  predicate OccursAt(s: string, needle: string, i: int) {
    0 <= i <= |s| - |needle| && s[i..i + |needle|] == needle
  }

  /** `s.includes(needle)`: needle occurs in s at some position. */
  predicate Contains(s: string, needle: string) {
    exists i :: 0 <= i <= |s| - |needle| && OccursAt(s, needle, i)
  }

  // ---------------------------------------------------------------------
  // File extensions

  /** A character that may appear in the extension the pattern removes. */
  predicate ExtensionChar(c: char) {
    c != '.' && c != '/'
  }

  /**
   * The pattern /\.[^/.]+$/ matches s at position p: a '.' that is followed
   * by at least one character, none of them a '.' or a '/'.
   */
  ghost predicate ExtensionAt(s: string, p: int) {
    && 0 <= p < |s| - 1
    && s[p] == '.'
    && forall j :: p < j < |s| ==> ExtensionChar(s[j])
  }

  /** Length of the longest suffix of s made of extension characters only. */
  function TailLength(s: string): (k: nat)
    ensures k <= |s|
    ensures forall j :: |s| - k <= j < |s| ==> ExtensionChar(s[j])
    ensures k < |s| ==> !ExtensionChar(s[|s| - 1 - k])
  {
    if |s| == 0 || !ExtensionChar(s[|s| - 1]) then 0
    else
      var k' := TailLength(s[..|s| - 1]);
      assert forall j :: |s| - 1 - k' <= j < |s| - 1 ==> s[j] == s[..|s| - 1][j];
      1 + k'
  }

  /**
   * `name.replace(/\.[^/.]+$/, '')`: drops the final extension. The result is
   * always a prefix of the name; it is the name itself exactly when the
   * pattern matches nowhere, and otherwise it ends just before the matched dot.
   */
  function StripExtension(s: string): (r: string)
    ensures r <= s
    ensures r == s <==> !exists p :: ExtensionAt(s, p)
    ensures r != s ==> ExtensionAt(s, |r|)
    ensures (forall j :: 0 <= j < |s| ==> s[j] != '.') ==> r == s
  {
    var k := TailLength(s);
    ExtensionAtTail(s);
    if 0 < k < |s| && s[|s| - 1 - k] == '.' then
      assert ExtensionAt(s, |s| - 1 - k);
      s[..|s| - 1 - k]
    else
      s
  }

  /** The pattern can only match at the dot just before the longest tail. */
  lemma ExtensionAtTail(s: string)
    ensures forall p :: ExtensionAt(s, p) ==> p == |s| - 1 - TailLength(s)
  {
  }

  // ---------------------------------------------------------------------
  // Decimal numbers

  /** The decimal digit for d. */
  function DigitChar(d: nat): (c: char)
    requires d < 10
    ensures '0' <= c <= '9'
    ensures c as int - '0' as int == d
  {
    (d + '0' as int) as char
  }

  /** A template literal `${n}` for a natural number n: its decimal digits. */
  function NatToString(n: nat): (r: string)
    ensures 1 <= |r|
    ensures forall i :: 0 <= i < |r| ==> '0' <= r[i] <= '9'
    ensures (|r| == 1) == (n < 10)
  {
    if n < 10 then [DigitChar(n)] else NatToString(n / 10) + [DigitChar(n % 10)]
  }

  /** Different numbers are written differently. */
  lemma {:induction false} NatToStringInjective(n: nat, m: nat)
    requires NatToString(n) == NatToString(m)
    ensures n == m
    decreases n
  {
    var s := NatToString(n);
    if n < 10 {
      assert DigitChar(n) == s[0] == DigitChar(m);
    } else {
      assert m >= 10;
      assert DigitChar(n % 10) == s[|s| - 1] == DigitChar(m % 10);
      assert NatToString(n / 10) == s[..|s| - 1] == NatToString(m / 10);
      NatToStringInjective(n / 10, m / 10);
    }
  }

  // ---------------------------------------------------------------------
  // The relational operator `<` on strings

  /**
   * `a < b` on JavaScript strings: lexicographic comparison character by
   * character, a proper prefix coming first.
   */
  predicate LexLess(a: string, b: string) {
    if |a| == 0 then |b| > 0
    else if |b| == 0 then false
    else if a[0] != b[0] then a[0] < b[0]
    else LexLess(a[1..], b[1..])
  }

  lemma {:induction false} LexLessIrreflexive(a: string)
    ensures !LexLess(a, a)
  {
    if |a| > 0 {
      LexLessIrreflexive(a[1..]);
    }
  }

  lemma {:induction false} LexLessTransitive(a: string, b: string, c: string)
    requires LexLess(a, b) && LexLess(b, c)
    ensures LexLess(a, c)
  {
    if |a| > 0 && |b| > 0 && |c| > 0 && a[0] == b[0] == c[0] {
      LexLessTransitive(a[1..], b[1..], c[1..]);
    }
  }

  /** Two different strings are always ordered one way or the other. */
  lemma {:induction false} LexLessTotal(a: string, b: string)
    requires a != b
    ensures LexLess(a, b) || LexLess(b, a)
  {
    if |a| > 0 && |b| > 0 && a[0] == b[0] {
      assert a == [a[0]] + a[1..] && b == [b[0]] + b[1..];
      LexLessTotal(a[1..], b[1..]);
    }
  }
}
