// Character classes of <ctype.h> for the "C" locale, decimal digit
// strings and the decimal rendering used by printf's %d.
module Chars {

  /** isalpha in the "C" locale. */
  predicate IsAlpha(c: char) { ('a' <= c <= 'z') || ('A' <= c <= 'Z') }

  /** isdigit. */
  predicate IsDigit(c: char) { '0' <= c <= '9' }

  /** isalnum. */
  predicate IsAlnum(c: char) { IsAlpha(c) || IsDigit(c) }

  /** The same classes on the int returned by fgetc (EOF is -1). */
  predicate IsAlphaCode(x: int) { (97 <= x <= 122) || (65 <= x <= 90) }
  predicate IsDigitCode(x: int) { 48 <= x <= 57 }
  predicate IsAlnumCode(x: int) { IsAlphaCode(x) || IsDigitCode(x) }

  predicate AllDigits(s: seq<char>) { forall i :: 0 <= i < |s| ==> IsDigit(s[i]) }

  function DigitValue(c: char): (d: int)
    requires IsDigit(c)
    ensures 0 <= d <= 9
  { c as int - '0' as int }

  function DigitChar(d: int): (c: char)
    requires 0 <= d <= 9
    ensures IsDigit(c) && DigitValue(c) == d
  { (d + '0' as int) as char }

  /** The value of a digit string read left to right: v := v*10 + digit. */
  function DecimalValue(s: seq<char>): nat
    requires AllDigits(s)
  {
    if s == [] then 0 else 10 * DecimalValue(s[..|s| - 1]) + DigitValue(s[|s| - 1])
  }

  /** One more digit on the right: the value times ten plus that digit. */
  lemma DecimalValueSnoc(t: seq<char>, c: char)
    requires AllDigits(t) && IsDigit(c)
    ensures AllDigits(t + [c]) && DecimalValue(t + [c]) == 10 * DecimalValue(t) + DigitValue(c)
  {
    assert (t + [c])[..|t|] == t;
  }

  /** Appending a digit can only make the value grow, so every prefix of a
      digit string is worth at most the whole string. */
  lemma {:induction false} PrefixValueAtMost(s: seq<char>, k: nat)
    requires AllDigits(s) && k <= |s|
    ensures AllDigits(s[..k]) && DecimalValue(s[..k]) <= DecimalValue(s)
  {
    if k < |s| {
      assert s[..|s| - 1][..k] == s[..k];
      PrefixValueAtMost(s[..|s| - 1], k);
    } else {
      assert s[..k] == s;
    }
  }

  /** The same for a digit string held in s[p..e] and its part s[p..m]. */
  lemma SliceValueAtMost(s: seq<char>, p: nat, m: nat, e: nat)
    requires p <= m <= e <= |s| && AllDigits(s[p..e])
    ensures AllDigits(s[p..m]) && DecimalValue(s[p..m]) <= DecimalValue(s[p..e])
  {
    assert s[p..e][..m - p] == s[p..m];
    PrefixValueAtMost(s[p..e], m - p);
  }

  /** Reading the digit s[q] of the digit string s[p..e] takes the value of
      s[p..q] to ten times it plus that digit, still at most the whole. */
  lemma SliceValueStep(s: seq<char>, p: nat, q: nat, e: nat)
    requires p <= q < e <= |s| && AllDigits(s[p..e])
    ensures IsDigit(s[q]) && AllDigits(s[p..q]) && AllDigits(s[p..q + 1])
    ensures DecimalValue(s[p..q + 1]) == 10 * DecimalValue(s[p..q]) + DigitValue(s[q])
    ensures DecimalValue(s[p..q + 1]) <= DecimalValue(s[p..e])
  {
    assert s[q] == s[p..e][q - p];
    SliceValueAtMost(s, p, q, e);
    SliceValueAtMost(s, p, q + 1, e);
    assert s[p..q + 1] == s[p..q] + [s[q]];
    DecimalValueSnoc(s[p..q], s[q]);
  }

  /** printf("%d") of a non-negative number: no leading zeros, "0" for zero. */
  function NatToString(n: nat): (s: string)
    ensures |s| > 0 && AllDigits(s)
    ensures |s| > 1 ==> s[0] != '0'
    decreases n
  {
    if n < 10 then [DigitChar(n)] else NatToString(n / 10) + [DigitChar(n % 10)]
  }

  /** printf("%d") of any int. */
  function IntToString(i: int): string
  {
    if i < 0 then "-" + NatToString(-i) else NatToString(i)
  }

  /** Reading back what %d printed gives the number again. */
  lemma {:induction false} DecimalValueOfNatToString(n: nat)
    ensures DecimalValue(NatToString(n)) == n
    decreases n
  {
    if n >= 10 {
      var s := NatToString(n / 10) + [DigitChar(n % 10)];
      assert s[..|s| - 1] == NatToString(n / 10);
      DecimalValueOfNatToString(n / 10);
    }
  }

  /** printf("%0*d", w, n): left-padded with zeros to at least w characters;
      the digits of n always end the text. */
  function ZeroPad(n: nat, w: nat): (s: string)
    ensures |s| >= w && AllDigits(s)
    ensures |s| >= |NatToString(n)| && s[|s| - |NatToString(n)|..] == NatToString(n)
    ensures forall i :: 0 <= i < |s| - |NatToString(n)| ==> s[i] == '0'
  {
    var d := NatToString(n);
    if |d| >= w then d else seq(w - |d|, _ => '0') + d
  }

  /** strcmp(a, b) < 0: a sorts strictly before b. */
  predicate Before(a: string, b: string)
    decreases |a|
  {
    if a == [] then b != []
    else b != [] && (a[0] < b[0] || (a[0] == b[0] && Before(a[1..], b[1..])))
  }

  lemma {:induction false} BeforeIrreflexive(a: string)
    ensures !Before(a, a)
    decreases |a|
  {
    if a != [] { BeforeIrreflexive(a[1..]); }
  }

  lemma {:induction false} BeforeTransitive(a: string, b: string, c: string)
    requires Before(a, b) && Before(b, c)
    ensures Before(a, c)
    decreases |a|
  {
    if a != [] && a[0] == b[0] && b[0] == c[0] {
      BeforeTransitive(a[1..], b[1..], c[1..]);
    }
  }
}
