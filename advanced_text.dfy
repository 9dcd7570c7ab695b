/**
 * The string helpers of the Advanced generator: its `processLatvianText` (which,
 * despite the name, keeps the Latvian letters and only rewrites three punctuation
 * marks), `pdfUtils.hexToRgb`, `pdfUtils.calculateOptimalFontSize`, and the cut that
 * `addTable` applies to a cell that is too wide.
 */
module AdvancedText {
  import opened Basics
  import opened Canvas

  /** The characters the normaliser rewrites: horizontal ellipsis, en dash, em dash. */
  predicate IsRewritten(c: char) {
    c == '…' || c == '–' || c == '—'
  }

  /** What one character becomes. The two quote replacements of the source match the
      ASCII quote characters and put the same character back, so they change nothing. */
  function Expand(c: char): string {
    if c == '…' then "..." else if c == '–' || c == '—' then "-" else [c]
  }

  /** `processLatvianText` of the Advanced generator ("" stays ""). */
  function ProcessText(s: string): (r: string)
    ensures forall i :: 0 <= i < |r| ==> !IsRewritten(r[i])
    ensures |s| <= |r| <= 3 * |s|
    decreases |s|
  {
    if s == [] then "" else Expand(s[0]) + ProcessText(s[1..])
  }

  /** Text without the three marks passes through unchanged. */
  lemma {:induction false} ProcessPlain(s: string)
    requires forall i :: 0 <= i < |s| ==> !IsRewritten(s[i])
    ensures ProcessText(s) == s
    decreases |s|
  {
    if s != [] {
      ProcessPlain(s[1..]);
      assert s == [s[0]] + s[1..];
    }
  }

  /** Normalising twice is normalising once. */
  lemma ProcessTextIdempotent(s: string)
    ensures ProcessText(ProcessText(s)) == ProcessText(s)
  {
    ProcessPlain(ProcessText(s));
  }

  /** The normaliser works piece by piece: it distributes over concatenation. */
  lemma {:induction false} ProcessTextAppend(a: string, b: string)
    ensures ProcessText(a + b) == ProcessText(a) + ProcessText(b)
    decreases |a|
  {
    if a == [] {
      assert a + b == b;
    } else {
      assert (a + b)[1..] == a[1..] + b;
      ProcessTextAppend(a[1..], b);
    }
  }

  // ---------------------------------------------------------------------------
  // `pdfUtils.hexToRgb`

  predicate IsHexDigit(c: char) {
    '0' <= c <= '9' || 'a' <= c <= 'f' || 'A' <= c <= 'F'
  }

  function HexDigitValue(c: char): (v: nat)
    requires IsHexDigit(c)
    ensures v < 16
  {
    if '0' <= c <= '9' then c as int - '0' as int
    else if 'a' <= c <= 'f' then c as int - 'a' as int + 10
    else c as int - 'A' as int + 10
  }

  /** `parseInt(pair, 16)` for two hexadecimal digits. */
  function HexPair(a: char, b: char): (v: nat)
    requires IsHexDigit(a) && IsHexDigit(b)
    ensures v < 256
  {
    16 * HexDigitValue(a) + HexDigitValue(b)
  }

  predicate AllHex(s: string) {
    forall i :: 0 <= i < |s| ==> IsHexDigit(s[i])
  }

  /** The inputs the pattern `^#?([a-f\d]{2}){3}$` (case-insensitive) accepts. */
  predicate IsHexColor(s: string) {
    (|s| == 6 && AllHex(s)) || (|s| == 7 && s[0] == '#' && AllHex(s[1..]))
  }

  /** The three pairs as numbers, for a string of exactly six hex digits. */
  function Channels(h: string): seq<int>
    requires |h| == 6 && AllHex(h)
  {
    [HexPair(h[0], h[1]), HexPair(h[2], h[3]), HexPair(h[4], h[5])]
  }

  /** What the pattern captures: the six digits after an optional '#', if that is
      all there is. */
  function MatchHex(s: string): (h: Option<string>)
    ensures h.Some? ==> |h.value| == 6 && AllHex(h.value)
  {
    var body := if |s| > 0 && s[0] == '#' then s[1..] else s;
    if |body| == 6 && AllHex(body) then Some(body) else None
  }

  /** The pattern matches exactly the strings `IsHexColor` describes, and captures
      their last six characters. */
  lemma MatchHexExactly(s: string)
    ensures MatchHex(s).Some? <==> IsHexColor(s)
    ensures MatchHex(s).Some? ==> MatchHex(s).value == s[|s| - 6..]
  {
    if |s| == 6 && AllHex(s) {
      assert IsHexDigit(s[0]);
    }
  }

  /** `hexToRgb`: three channels in 0..255 read from the captured pairs; black when
      the pattern does not match. */
  function HexToRgb(s: string): (rgb: seq<int>)
    ensures |rgb| == 3 && forall i :: 0 <= i < 3 ==> 0 <= rgb[i] <= 255
    ensures MatchHex(s).None? ==> rgb == [0, 0, 0]
  {
    match MatchHex(s)
    case Some(h) => Channels(h)
    case None => [0, 0, 0]
  }

  /** A valid colour string gives its three pairs; any other string gives black. */
  lemma HexToRgbAccepts(s: string)
    ensures IsHexColor(s) ==> HexToRgb(s) == Channels(s[|s| - 6..])
    ensures !IsHexColor(s) ==> HexToRgb(s) == [0, 0, 0]
  {
    MatchHexExactly(s);
  }

  /** Lower-case hexadecimal digit of v < 16. */
  function HexChar(v: nat): (c: char)
    requires v < 16
    ensures IsHexDigit(c) && HexDigitValue(c) == v
  {
    if v < 10 then (v + '0' as int) as char else (v - 10 + 'a' as int) as char
  }

  /** "#rrggbb" for three channels in 0..255. */
  function RgbToHex(r: nat, g: nat, b: nat): string
    requires r < 256 && g < 256 && b < 256
  {
    ['#', HexChar(r / 16), HexChar(r % 16), HexChar(g / 16), HexChar(g % 16), HexChar(b / 16), HexChar(b % 16)]
  }

  /** Every colour written as "#rrggbb" is read back by `hexToRgb`, with or without '#'. */
  lemma HexRoundTrip(r: nat, g: nat, b: nat)
    requires r < 256 && g < 256 && b < 256
    ensures HexToRgb(RgbToHex(r, g, b)) == [r, g, b]
    ensures HexToRgb(RgbToHex(r, g, b)[1..]) == [r, g, b]
  {
    var s := RgbToHex(r, g, b);
    assert AllHex(s[1..]);
    assert s[|s| - 6..] == s[1..];
    HexToRgbAccepts(s);
    HexToRgbAccepts(s[1..]);
  }

  // ---------------------------------------------------------------------------
  // `pdfUtils.calculateOptimalFontSize`

  /** The text, normalised, fits maxWidth at this size in a fresh document's style. */
  predicate Fits(m: Metrics, text: string, maxWidth: real, size: real) {
    m.width(Font(size, Normal), ProcessText(text)) <= maxWidth
  }

  /** The sizes tried, largest first: maxFontSize, maxFontSize - 1, ... */
  function Candidate(maxFontSize: real, k: nat): real {
    maxFontSize - k as real
  }

  /** Counts down from maxFontSize and returns the first size above 8 at which the
      text fits, or 8 when none does. */
  method OptimalFontSize(m: Metrics, text: string, maxWidth: real, maxFontSize: real) returns (size: real)
    ensures size == 8.0 || (size > 8.0 && Fits(m, text, maxWidth, size))
    ensures size > 8.0 ==> size <= maxFontSize && Candidate(maxFontSize, (maxFontSize - size).Floor) == size
    ensures forall k: nat :: Candidate(maxFontSize, k) > size && Candidate(maxFontSize, k) > 8.0 ==>
      !Fits(m, text, maxWidth, Candidate(maxFontSize, k))
  {
    var fontSize := maxFontSize;
    ghost var i: nat := 0;
    while fontSize > 8.0
      invariant fontSize == Candidate(maxFontSize, i)
      invariant forall k: nat :: k < i ==> !Fits(m, text, maxWidth, Candidate(maxFontSize, k))
      decreases (fontSize - 8.0).Floor + 1
    {
      if m.width(Font(fontSize, Normal), ProcessText(text)) <= maxWidth {
        assert (maxFontSize - fontSize).Floor == i;
        return fontSize;
      }
      fontSize := fontSize - 1.0;
      i := i + 1;
    }
    return 8.0;
  }

  // ---------------------------------------------------------------------------
  // The cell cut of `addTable`

  /** The shrinking loop: drop the last character while the text with "..." added
      is wider than max and something is left to drop. */
  function Shrink(m: Metrics, f: Font, t: string, max: real): string
    decreases |t|
  {
    if |t| > 0 && m.width(f, t + "...") > max then Shrink(m, f, t[..|t| - 1], max) else t
  }

  /** The loop keeps the longest prefix p of t for which p + "..." fits, or the empty
      prefix when none does. */
  lemma {:induction false} ShrinkLongest(m: Metrics, f: Font, t: string, max: real)
    ensures var p := Shrink(m, f, t, max);
      p <= t && (m.width(f, p + "...") <= max || p == []) &&
      forall j :: |p| < j <= |t| ==> m.width(f, t[..j] + "...") > max
    decreases |t|
  {
    if |t| > 0 && m.width(f, t + "...") > max {
      var front := t[..|t| - 1];
      ShrinkLongest(m, f, front, max);
      var p := Shrink(m, f, front, max);
      forall j | |p| < j <= |t| ensures m.width(f, t[..j] + "...") > max {
        if j < |t| {
          assert t[..j] == front[..j];
        } else {
          assert t[..j] == t;
        }
      }
    }
  }

  /** What a cell shows: itself when it fits, otherwise the shrunk prefix and "...". */
  function Ellipsize(m: Metrics, f: Font, t: string, max: real): string {
    if m.width(f, t) > max then Shrink(m, f, t, max) + "..." else t
  }

  /** A cell that fits is unchanged; otherwise the result is a prefix of it followed
      by "...", and that prefix is the longest one the loop can keep. */
  lemma EllipsizeShape(m: Metrics, f: Font, t: string, max: real)
    ensures m.width(f, t) <= max ==> Ellipsize(m, f, t, max) == t
    ensures m.width(f, t) > max ==>
      var p := Ellipsize(m, f, t, max)[..|Ellipsize(m, f, t, max)| - 3];
      Ellipsize(m, f, t, max) == p + "..." && p <= t && (m.width(f, Ellipsize(m, f, t, max)) <= max || p == []) &&
      forall j :: |p| < j <= |t| ==> m.width(f, t[..j] + "...") > max
  {
    if m.width(f, t) > max {
      ShrinkLongest(m, f, t, max);
      var p := Shrink(m, f, t, max);
      assert (p + "...")[..|p + "..."| - 3] == p;
    }
  }
}
