/**
 * Small value-level helpers shared by every part of the model: an Option type,
 * the decimal rendering of integers that JavaScript's `toString()` and template
 * literals perform, `String.prototype.padStart` and `toUpperCase` restricted to the
 * letters the documents use.
 */
module Basics {

  datatype Option<T> = None | Some(value: T)

  predicate IsDigit(c: char) {
    '0' <= c <= '9'
  }

  predicate AllDigits(s: string) {
    forall i :: 0 <= i < |s| ==> IsDigit(s[i])
  }

  function DigitChar(d: nat): (c: char)
    requires d < 10
    ensures IsDigit(c) && c as int - '0' as int == d
  {
    (d + '0' as int) as char
  }

  function DigitValue(c: char): nat
    requires IsDigit(c)
  {
    c as int - '0' as int
  }

  /** The number a string of decimal digits denotes (most significant digit first). */
  function DecimalValue(s: string): nat
    requires AllDigits(s)
  {
    if s == [] then 0 else 10 * DecimalValue(s[..|s| - 1]) + DigitValue(s[|s| - 1])
  }

  /** `n.toString()` for a non-negative integer: digits, no leading zero. */
  function NatToString(n: nat): (r: string)
    ensures 1 <= |r| && AllDigits(r) && DecimalValue(r) == n
    ensures r[0] == '0' ==> n == 0 && |r| == 1
    decreases n
  {
    if n < 10 then [DigitChar(n)]
    else
      var front := NatToString(n / 10);
      var r := front + [DigitChar(n % 10)];
      assert r[..|r| - 1] == front;
      r
  }

  /** `String(i)` for an integer: a minus sign in front of the digits of |i| when negative. */
  function IntToString(i: int): (r: string)
    ensures 1 <= |r|
    ensures i < 0 <==> r[0] == '-'
    ensures i >= 0 ==> r == NatToString(i)
    ensures i < 0 ==> r[1..] == NatToString(-i)
  {
    if i < 0 then "-" + NatToString(-i) else NatToString(i)
  }

  /** `s.padStart(n, c)` with a one-character filler: s is kept when already n long. */
  function PadStart(s: string, n: nat, c: char): (r: string)
    ensures |r| == if |s| >= n then |s| else n
    ensures r[|r| - |s|..] == s
    ensures forall i :: 0 <= i < |r| - |s| ==> r[i] == c
  {
    if |s| >= n then s else seq(n - |s|, _ => c) + s
  }

  /** Zeros in front of a digit string do not change its value. */
  lemma {:induction false} LeadingZeros(z: string, s: string)
    requires forall i :: 0 <= i < |z| ==> z[i] == '0'
    requires AllDigits(s)
    ensures AllDigits(z + s) && DecimalValue(z + s) == DecimalValue(s)
  {
    if s == [] {
      assert z + s == z;
      ZerosValue(z);
    } else {
      var front := s[..|s| - 1];
      assert (z + s)[..|z + s| - 1] == z + front;
      LeadingZeros(z, front);
    }
  }

  lemma {:induction false} ZerosValue(z: string)
    requires forall i :: 0 <= i < |z| ==> z[i] == '0'
    ensures AllDigits(z) && DecimalValue(z) == 0
  {
    if z != [] {
      ZerosValue(z[..|z| - 1]);
    }
  }

  /** How many digits `NatToString` writes for numbers below 10000. */
  lemma NatToStringLength(n: nat)
    ensures n < 10 ==> |NatToString(n)| == 1
    ensures 10 <= n < 100 ==> |NatToString(n)| == 2
    ensures 100 <= n < 1000 ==> |NatToString(n)| == 3
    ensures 1000 <= n < 10000 ==> |NatToString(n)| == 4
  {
    if n >= 10 {
      NatToStringLength(n / 10);
    }
  }

  /** The zero-padded field `String(n).padStart(k, '0')` for n below 10^k decodes to n. */
  lemma PaddedDigits(n: nat, k: nat)
    requires 1 <= k <= 4
    requires k == 1 ==> n < 10
    requires k == 2 ==> n < 100
    requires k == 3 ==> n < 1000
    requires k == 4 ==> n < 10000
    ensures var p := PadStart(NatToString(n), k, '0');
      |p| == k && AllDigits(p) && DecimalValue(p) == n
  {
    NatToStringLength(n);
    var s := NatToString(n);
    assert |s| <= k;
    PaddedValue(s, k);
  }

  /** Padding a digit string with zeros keeps its value. */
  lemma PaddedValue(s: string, k: nat)
    requires AllDigits(s) && |s| <= k
    ensures var p := PadStart(s, k, '0');
      |p| == k && AllDigits(p) && DecimalValue(p) == DecimalValue(s)
  {
    var p := PadStart(s, k, '0');
    var z := p[..k - |s|];
    assert forall i :: 0 <= i < |z| ==> z[i] == '0';
    assert p == z + s;
    LeadingZeros(z, s);
  }

  /** `toUpperCase` on the characters the documents contain: ASCII letters and the
      eleven Latvian lower-case letters; every other character is left as it is. */
  function UpperChar(c: char): char {
    if 'a' <= c <= 'z' then (c as int - 32) as char
    else match c
      case 'ā' => 'Ā' case 'č' => 'Č' case 'ē' => 'Ē' case 'ģ' => 'Ģ'
      case 'ī' => 'Ī' case 'ķ' => 'Ķ' case 'ļ' => 'Ļ' case 'ņ' => 'Ņ'
      case 'š' => 'Š' case 'ū' => 'Ū' case 'ž' => 'Ž'
      case _ => c
  }

  function ToUpper(s: string): (r: string)
    ensures |r| == |s| && forall i :: 0 <= i < |s| ==> r[i] == UpperChar(s[i])
  {
    seq(|s|, i requires 0 <= i < |s| => UpperChar(s[i]))
  }

  /** The characters JavaScript counts as white space or line terminators, which
      `trim` removes and `parseInt` skips. */
  predicate IsJsSpace(c: char) {
    c in JsSpaces
  }

  const JsSpaces: set<char> := {
    '\t', '\n', '\U{000B}', '\U{000C}', '\r', ' ', '\U{00A0}', '\U{1680}',
    '\U{2000}', '\U{2001}', '\U{2002}', '\U{2003}', '\U{2004}', '\U{2005}', '\U{2006}', '\U{2007}',
    '\U{2008}', '\U{2009}', '\U{200A}',
    '\U{2028}', '\U{2029}', '\U{202F}', '\U{205F}', '\U{3000}', '\U{FEFF}'}

  /** The first index at or after i whose character is not white space, or |s|. */
  function SpaceEnd(s: string, i: nat): (k: nat)
    requires i <= |s|
    ensures i <= k <= |s|
    ensures forall j :: i <= j < k ==> IsJsSpace(s[j])
    ensures k < |s| ==> !IsJsSpace(s[k])
    decreases |s| - i
  {
    if i < |s| && IsJsSpace(s[i]) then SpaceEnd(s, i + 1) else i
  }

  /** The index just past the last character in s[lo..k] that is not white space,
      or lo. */
  function SpaceStart(s: string, lo: nat, k: nat): (m: nat)
    requires lo <= k <= |s|
    ensures lo <= m <= k
    ensures forall j :: m <= j < k ==> IsJsSpace(s[j])
    ensures m > lo ==> !IsJsSpace(s[m - 1])
    decreases k
  {
    if k > lo && IsJsSpace(s[k - 1]) then SpaceStart(s, lo, k - 1) else k
  }

  /** `s.trimStart()`, the part `parseInt` reads: the white space in front is cut. */
  function TrimStart(s: string): (r: string)
    ensures |r| <= |s| && r == s[|s| - |r|..]
    ensures r != [] ==> !IsJsSpace(r[0])
    ensures forall j :: 0 <= j < |s| - |r| ==> IsJsSpace(s[j])
  {
    s[SpaceEnd(s, 0)..]
  }

  /** `s.trim()`: white space is cut at both ends. */
  function Trim(s: string): string {
    var a := SpaceEnd(s, 0);
    s[a..SpaceStart(s, a, |s|)]
  }

  /** What `trim` keeps starts and ends with a character that is not white space. */
  lemma TrimEnds(s: string)
    ensures var r := Trim(s);
      r == [] || (!IsJsSpace(r[0]) && !IsJsSpace(r[|r| - 1]))
  {
    var a := SpaceEnd(s, 0);
    var m := SpaceStart(s, a, |s|);
    if a < m {
      assert Trim(s)[0] == s[a];
      assert Trim(s)[m - a - 1] == s[m - 1];
    }
  }

  /** What `trim` keeps is a piece of s, and only white space was cut on either
      side of it. */
  lemma TrimCut(s: string)
    ensures var r, i := Trim(s), |s| - |TrimStart(s)|;
      i + |r| <= |s| && r == s[i..i + |r|] &&
      (forall j :: 0 <= j < i ==> IsJsSpace(s[j])) &&
      (forall j :: i + |r| <= j < |s| ==> IsJsSpace(s[j]))
  {
    var a := SpaceEnd(s, 0);
    var m := SpaceStart(s, a, |s|);
    assert |TrimStart(s)| == |s| - a;
    assert forall j :: m <= j < |s| ==> IsJsSpace(s[j]);
  }

  /** Trimming twice cuts nothing more. */
  lemma TrimTwice(s: string)
    ensures Trim(Trim(s)) == Trim(s)
  {
    var r := Trim(s);
    TrimEnds(s);
    if r != [] {
      assert SpaceEnd(r, 0) == 0;
      assert SpaceStart(r, 0, |r|) == |r|;
      assert r[0..|r|] == r;
    }
  }
}
