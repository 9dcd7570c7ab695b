/**
 * The three `generateActNumber` formats. The clock reading and the random draw
 * are parameters: `DateTime` holds what the `Date` getters return (full year, month
 * index 0..11, day, hours, minutes, seconds), and the random part is given as the
 * integer `Draw` makes of a `Math.random()` value.
 */
module ActNumbers {
  import opened Basics

  datatype DateTime = DateTime(year: int, monthIndex: nat, day: nat, hours: nat, minutes: nat, seconds: nat)

  /** The ranges the `Date` getters keep to. */
  predicate ValidClock(t: DateTime) {
    t.monthIndex < 12 && 1 <= t.day <= 31 && t.hours < 24 && t.minutes < 60 && t.seconds < 60
  }

  /** `String(n).padStart(2, '0')`. */
  function Two(n: nat): string {
    PadStart(NatToString(n), 2, '0')
  }

  lemma TwoLength(n: nat)
    ensures n < 100 ==> |Two(n)| == 2
  {
    NatToStringLength(n);
  }

  lemma DrawLength(k: nat, places: nat)
    requires places == 2 || places == 3
    ensures (places == 2 && k < 100) || (places == 3 && k < 1000) ==> |PadStart(NatToString(k), places, '0')| == places
  {
    NatToStringLength(k);
  }

  /** `Math.floor(r * scale)` for a random value r in [0, 1). */
  function Draw(r: real, scale: nat): (k: nat)
    requires 0.0 <= r < 1.0 && scale > 0
    ensures k < scale
  {
    var f := (r * scale as real).Floor;
    assert 0.0 <= r * scale as real < scale as real;
    f
  }

  /** "AKT-YYYY-MMDD-HHMMSS-RRR", the Advanced generator's format. */
  function AdvancedActNumber(t: DateTime, random: nat): (s: string)
    ensures ValidClock(t) && random < 1000 ==> |s| == 20 + |IntToString(t.year)|
  {
    TwoLength(t.monthIndex + 1); TwoLength(t.day); TwoLength(t.hours); TwoLength(t.minutes); TwoLength(t.seconds);
    DrawLength(random, 3);
    var y, rr := IntToString(t.year), PadStart(NatToString(random), 3, '0');
    "AKT-" + y + "-" + Two(t.monthIndex + 1) + Two(t.day) + "-" +
    Two(t.hours) + Two(t.minutes) + Two(t.seconds) + "-" + rr
  }

  /** "AKT-YYYY-MMDD-HHMM-RR", the Fast generator's format. */
  function FastActNumber(t: DateTime, random: nat): (s: string)
    ensures ValidClock(t) && random < 100 ==> |s| == 17 + |IntToString(t.year)|
  {
    TwoLength(t.monthIndex + 1); TwoLength(t.day); TwoLength(t.hours); TwoLength(t.minutes);
    DrawLength(random, 2);
    var y, rr := IntToString(t.year), PadStart(NatToString(random), 2, '0');
    "AKT-" + y + "-" + Two(t.monthIndex + 1) + Two(t.day) + "-" +
    Two(t.hours) + Two(t.minutes) + "-" + rr
  }

  /** "AKT-YYYY-MMDD-HHMM", the basic generator's format, which the form uses. */
  function BasicActNumber(t: DateTime): (s: string)
    ensures ValidClock(t) ==> |s| == 14 + |IntToString(t.year)|
  {
    TwoLength(t.monthIndex + 1); TwoLength(t.day); TwoLength(t.hours); TwoLength(t.minutes);
    "AKT-" + IntToString(t.year) + "-" + Two(t.monthIndex + 1) + Two(t.day) + "-" +
    Two(t.hours) + Two(t.minutes)
  }

  /** The digits in s[i..j] spell the number n. */
  predicate FieldIs(s: string, i: nat, j: nat, n: nat) {
    i <= j <= |s| && AllDigits(s[i..j]) && DecimalValue(s[i..j]) == n
  }

  /** The four-digit year written as `${year}`. */
  lemma YearDigits(year: int)
    requires 1000 <= year <= 9999
    ensures var y := IntToString(year); |y| == 4 && AllDigits(y) && DecimalValue(y) == year
  {
    NatToStringLength(year);
  }

  lemma TwoDigits(n: nat)
    requires n < 100
    ensures |Two(n)| == 2 && AllDigits(Two(n)) && DecimalValue(Two(n)) == n
  {
    PaddedDigits(n, 2);
  }

  /** Where the pieces of "AKT-" + y + "-" + m + d + "-" + h + n land, for pieces of
      the lengths the formats produce; the later slots follow in the lemmas below. */
  lemma Slots(y: string, m: string, d: string, h: string, n: string)
    requires |y| == 4 && |m| == 2 && |d| == 2 && |h| == 2 && |n| == 2
    ensures var s := "AKT-" + y + "-" + m + d + "-" + h + n;
      |s| == 18 && s[..4] == "AKT-" && s[4..8] == y && s[8] == '-' && s[9..11] == m &&
      s[11..13] == d && s[13] == '-' && s[14..16] == h && s[16..18] == n
  {
  }

  /** The slots of the Advanced format, for any pieces of the right lengths. */
  lemma AdvancedSlots(y: string, m: string, d: string, h: string, n: string, sec: string, rr: string)
    requires |y| == 4 && |m| == 2 && |d| == 2 && |h| == 2 && |n| == 2 && |sec| == 2 && |rr| == 3
    ensures var s := "AKT-" + y + "-" + m + d + "-" + h + n + sec + "-" + rr;
      |s| == 24 && s[..4] == "AKT-" && s[4..8] == y && s[8] == '-' && s[9..11] == m &&
      s[11..13] == d && s[13] == '-' && s[14..16] == h && s[16..18] == n &&
      s[18..20] == sec && s[20] == '-' && s[21..24] == rr
  {
    var s0 := "AKT-" + y + "-" + m + d + "-" + h + n;
    Slots(y, m, d, h, n);
    var s := s0 + sec + "-" + rr;
    assert s[..4] == s0[..4] && s[4..8] == s0[4..8] && s[9..11] == s0[9..11] && s[11..13] == s0[11..13];
    assert s[14..16] == s0[14..16] && s[16..18] == s0[16..18];
  }

  /** The slots of the Fast format, for any pieces of the right lengths. */
  lemma FastSlots(y: string, m: string, d: string, h: string, n: string, rr: string)
    requires |y| == 4 && |m| == 2 && |d| == 2 && |h| == 2 && |n| == 2 && |rr| == 2
    ensures var s := "AKT-" + y + "-" + m + d + "-" + h + n + "-" + rr;
      |s| == 21 && s[..4] == "AKT-" && s[4..8] == y && s[8] == '-' && s[9..11] == m &&
      s[11..13] == d && s[13] == '-' && s[14..16] == h && s[16..18] == n &&
      s[18] == '-' && s[19..21] == rr
  {
    var s0 := "AKT-" + y + "-" + m + d + "-" + h + n;
    Slots(y, m, d, h, n);
    var s := s0 + "-" + rr;
    assert s[..4] == s0[..4] && s[4..8] == s0[4..8] && s[9..11] == s0[9..11] && s[11..13] == s0[11..13];
    assert s[14..16] == s0[14..16] && s[16..18] == s0[16..18];
  }

  /** For a four-digit year every field of an Advanced act number sits at a fixed
      place and reads back as the clock value (month 1..12) or the random draw. */
  lemma AdvancedActNumberFields(t: DateTime, random: nat)
    requires ValidClock(t) && 1000 <= t.year <= 9999 && random < 1000
    ensures var s := AdvancedActNumber(t, random);
      |s| == 24 && s[..4] == "AKT-" && s[8] == '-' && s[13] == '-' && s[20] == '-' &&
      FieldIs(s, 4, 8, t.year) && FieldIs(s, 9, 11, t.monthIndex + 1) && FieldIs(s, 11, 13, t.day) &&
      FieldIs(s, 14, 16, t.hours) && FieldIs(s, 16, 18, t.minutes) && FieldIs(s, 18, 20, t.seconds) &&
      FieldIs(s, 21, 24, random)
  {
    var k := random;
    var y, m, d, h, n := IntToString(t.year), Two(t.monthIndex + 1), Two(t.day), Two(t.hours), Two(t.minutes);
    var sec, rr := Two(t.seconds), PadStart(NatToString(k), 3, '0');
    YearDigits(t.year);
    TwoDigits(t.monthIndex + 1); TwoDigits(t.day); TwoDigits(t.hours); TwoDigits(t.minutes); TwoDigits(t.seconds);
    PaddedDigits(k, 3);
    AdvancedSlots(y, m, d, h, n, sec, rr);
  }

  /** The same reading for the Fast format "AKT-YYYY-MMDD-HHMM-RR". */
  lemma FastActNumberFields(t: DateTime, random: nat)
    requires ValidClock(t) && 1000 <= t.year <= 9999 && random < 100
    ensures var s := FastActNumber(t, random);
      |s| == 21 && s[..4] == "AKT-" && s[8] == '-' && s[13] == '-' && s[18] == '-' &&
      FieldIs(s, 4, 8, t.year) && FieldIs(s, 9, 11, t.monthIndex + 1) && FieldIs(s, 11, 13, t.day) &&
      FieldIs(s, 14, 16, t.hours) && FieldIs(s, 16, 18, t.minutes) && FieldIs(s, 19, 21, random)
  {
    var k := random;
    var y, m, d, h, n := IntToString(t.year), Two(t.monthIndex + 1), Two(t.day), Two(t.hours), Two(t.minutes);
    var rr := PadStart(NatToString(k), 2, '0');
    YearDigits(t.year);
    TwoDigits(t.monthIndex + 1); TwoDigits(t.day); TwoDigits(t.hours); TwoDigits(t.minutes);
    PaddedDigits(k, 2);
    FastSlots(y, m, d, h, n, rr);
  }

  /** The same reading for the basic format "AKT-YYYY-MMDD-HHMM": no seconds, no random part. */
  lemma BasicActNumberFields(t: DateTime)
    requires ValidClock(t) && 1000 <= t.year <= 9999
    ensures var s := BasicActNumber(t);
      |s| == 18 && s[..4] == "AKT-" && s[8] == '-' && s[13] == '-' &&
      FieldIs(s, 4, 8, t.year) && FieldIs(s, 9, 11, t.monthIndex + 1) && FieldIs(s, 11, 13, t.day) &&
      FieldIs(s, 14, 16, t.hours) && FieldIs(s, 16, 18, t.minutes)
  {
    var y, m, d, h, n := IntToString(t.year), Two(t.monthIndex + 1), Two(t.day), Two(t.hours), Two(t.minutes);
    YearDigits(t.year);
    TwoDigits(t.monthIndex + 1); TwoDigits(t.day); TwoDigits(t.hours); TwoDigits(t.minutes);
    Slots(y, m, d, h, n);
    assert BasicActNumber(t) == "AKT-" + y + "-" + m + d + "-" + h + n;
  }
}
