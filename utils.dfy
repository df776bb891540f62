/**
 * Timestamp formatting (src/utils.ts). The clock read `new Date()` becomes an
 * `Instant` argument carrying the local-time components the source asks the
 * `Date` for, the epoch milliseconds, and the ISO string `toISOString` gives.
 */
module TimestampFormatting {
  import opened Types

  /** The readings of one `Date`: its local-time fields, `getTime()` and `toISOString()`. */
  datatype Instant = Instant(
    year: int,
    monthIndex: nat,
    day: nat,
    hours: nat,
    minutes: nat,
    seconds: nat,
    epochMs: int,
    iso: string)

  /** The ranges a `Date` guarantees for its local-time fields. */
  predicate IsCalendarInstant(now: Instant) {
    && now.monthIndex < 12
    && 1 <= now.day <= 31
    && now.hours < 24
    && now.minutes < 60
    && now.seconds < 60
  }

  predicate IsDigit(c: char) {
    '0' <= c <= '9'
  }

  predicate AllDigits(s: string) {
    forall i :: 0 <= i < |s| ==> IsDigit(s[i])
  }

  function DigitChar(d: nat): (c: char)
    requires d < 10
    ensures IsDigit(c) && c as int - '0' as int == d
  {
    ('0' as int + d) as char
  }

  function DigitValue(c: char): nat
    requires IsDigit(c)
  {
    c as int - '0' as int
  }

  /** The number a string of decimal digits denotes (the inverse of `NatToDecimal`). */
  function DecimalValue(s: string): nat
    requires AllDigits(s)
  {
    if s == [] then 0 else DecimalValue(s[..|s| - 1]) * 10 + DigitValue(s[|s| - 1])
  }

  /** `n.toString()` for a non-negative integer: its digits, without leading zeros. */
  function NatToDecimal(n: nat): (s: string)
    ensures |s| >= 1 && AllDigits(s)
    ensures s[0] == '0' ==> n == 0
    ensures |s| == 1 <==> n < 10
    ensures |s| <= 2 <==> n < 100
  {
    if n < 10 then [DigitChar(n)] else NatToDecimal(n / 10) + [DigitChar(n % 10)]
  }

  /** Reading back the digits `NatToDecimal` writes gives the number. */
  lemma {:induction false} NatToDecimalRoundTrip(n: nat)
    ensures DecimalValue(NatToDecimal(n)) == n
  {
    var s := NatToDecimal(n);
    if n < 10 {
      assert s[..0] == [];
    } else {
      NatToDecimalRoundTrip(n / 10);
      assert s[..|s| - 1] == NatToDecimal(n / 10);
    }
  }

  /** A four-digit year is written with exactly four characters. */
  lemma {:induction false} FourDigitYear(n: nat)
    requires 1000 <= n <= 9999
    ensures |NatToDecimal(n)| == 4
  {
    assert NatToDecimal(n) == NatToDecimal(n / 10) + [DigitChar(n % 10)];
    assert NatToDecimal(n / 10) == NatToDecimal(n / 100) + [DigitChar(n / 10 % 10)];
  }

  /** `num.toString()` for any integer: a minus sign before the digits of a negative number. */
  function IntToString(i: int): (s: string)
    ensures i >= 0 ==> AllDigits(s) && |s| >= 1 && DecimalValue(s) == i
    ensures i >= 0 ==> (s[0] == '0' ==> i == 0)
    ensures i < 0 ==> |s| >= 2 && s[0] == '-' && AllDigits(s[1..]) && DecimalValue(s[1..]) == -i
    ensures i < 0 ==> s[1] != '0'
  {
    if i < 0 then
      NatToDecimalRoundTrip(-i);
      var s := "-" + NatToDecimal(-i);
      assert s[1..] == NatToDecimal(-i);
      s
    else
      NatToDecimalRoundTrip(i);
      NatToDecimal(i)
  }

  /** A leading zero does not change the number a digit string denotes. */
  lemma {:induction false} LeadingZero(s: string)
    requires AllDigits(s)
    ensures AllDigits("0" + s) && DecimalValue("0" + s) == DecimalValue(s)
  {
    if s != [] {
      var t := "0" + s;
      assert t[..|t| - 1] == "0" + s[..|s| - 1];
      LeadingZero(s[..|s| - 1]);
    } else {
      assert ("0" + s)[..0] == [];
    }
  }

  /** `s.padStart(width, fill)` for a one-character fill. */
  function PadStart(s: string, width: nat, fill: char): (r: string)
    ensures |r| == if |s| < width then width else |s|
    ensures r[|r| - |s|..] == s
    ensures forall i :: 0 <= i < |r| - |s| ==> r[i] == fill
  {
    if |s| < width then seq(width - |s|, _ => fill) + s else s
  }

  /**
   * `padZero`: the decimal digits of `n`, padded to two characters with `0`.
   * Below 100 it has exactly two digits, led by `0` exactly when `n < 10`;
   * from 100 on it is the full decimal, never truncated.
   */
  function PadZero(n: nat): (s: string)
    ensures AllDigits(s) && DecimalValue(s) == n
    ensures n < 100 ==> |s| == 2
    ensures s[0] == '0' <==> n < 10
    ensures n >= 10 ==> s == NatToDecimal(n)
  {
    var digits := NatToDecimal(n);
    NatToDecimalRoundTrip(n);
    var s := PadStart(digits, 2, '0');
    if n < 10 then
      assert s == "0" + digits;
      LeadingZero(digits);
      s
    else
      s
  }

  /** `s[at..at+2]` is a two-digit field holding `value`. */
  predicate TwoDigitField(s: string, at: nat, value: nat) {
    && at + 2 <= |s|
    && AllDigits(s[at..at + 2])
    && DecimalValue(s[at..at + 2]) == value
  }

  /** Where the three fields of `HH:MM:SS` sit once joined with `:`. */
  lemma JoinTimeFields(hours: string, minutes: string, seconds: string)
    requires |hours| == 2 && |minutes| == 2 && |seconds| == 2
    ensures var s := hours + ":" + minutes + ":" + seconds;
      && |s| == 8 && s[2] == ':' && s[5] == ':'
      && s[0..2] == hours && s[3..5] == minutes && s[6..8] == seconds
  {
  }

  /** `formatTime`: `HH:MM:SS`, eight characters for any `Date`. */
  function FormatTime(now: Instant): (s: string)
    ensures now.hours < 100 && now.minutes < 100 && now.seconds < 100 ==>
      && |s| == 8 && s[2] == ':' && s[5] == ':'
      && TwoDigitField(s, 0, now.hours)
      && TwoDigitField(s, 3, now.minutes)
      && TwoDigitField(s, 6, now.seconds)
  {
    var hours := PadZero(now.hours);
    var minutes := PadZero(now.minutes);
    var seconds := PadZero(now.seconds);
    if now.hours < 100 && now.minutes < 100 && now.seconds < 100 then
      JoinTimeFields(hours, minutes, seconds);
      hours + ":" + minutes + ":" + seconds
    else
      hours + ":" + minutes + ":" + seconds
  }

  /** Where the parts of `YYYY-MM-DD HH:MM:SS` sit once joined. */
  lemma JoinDateTimeParts(year: string, month: string, day: string, time: string)
    ensures var s := year + "-" + month + "-" + day + " " + time;
      |year| < |s| && s[..|year|] == year && s[|year|] == '-'
    ensures |month| == 2 && |day| == 2 ==>
      var s := year + "-" + month + "-" + day + " " + time;
      var y := |year|;
      && |s| == y + 7 + |time|
      && s[..y] == year && s[y] == '-'
      && s[y + 1..y + 3] == month && s[y + 3] == '-'
      && s[y + 4..y + 6] == day && s[y + 6] == ' '
      && s[y + 7..] == time
  {
  }

  /**
   * `formatDateTime`: the year unpadded, then `-MM-DD `, then `formatTime`;
   * the month field holds the month index plus one.
   */
  function FormatDateTime(now: Instant): (s: string)
    ensures var y := IntToString(now.year);
      |y| < |s| && s[..|y|] == y && s[|y|] == '-'
    ensures IsCalendarInstant(now) ==>
      var y := |IntToString(now.year)|;
      && |s| == y + 15
      && TwoDigitField(s, y + 1, now.monthIndex + 1)
      && s[y + 3] == '-'
      && TwoDigitField(s, y + 4, now.day)
      && s[y + 6] == ' '
      && s[y + 7..] == FormatTime(now)
  {
    var year := IntToString(now.year);
    var month := PadZero(now.monthIndex + 1);
    var day := PadZero(now.day);
    var time := FormatTime(now);
    JoinDateTimeParts(year, month, day, time);
    year + "-" + month + "-" + day + " " + time
  }

  /** With a four-digit year, `datetime` is `YYYY-MM-DD HH:MM:SS`, nineteen characters. */
  lemma FourDigitYearDateTime(now: Instant)
    requires IsCalendarInstant(now) && 1000 <= now.year <= 9999
    ensures var s := FormatDateTime(now);
      && |s| == 19 && AllDigits(s[..4]) && DecimalValue(s[..4]) == now.year
      && s[4] == '-' && TwoDigitField(s, 5, now.monthIndex + 1)
      && s[7] == '-' && TwoDigitField(s, 8, now.day)
      && s[10] == ' ' && s[11..] == FormatTime(now)
  {
    FourDigitYear(now.year);
  }

  /**
   * `formatTimestamp(format)`; `None` is the omitted argument. `time`, the
   * omitted argument and every unrecognized value give `formatTime`.
   */
  function FormatTimestamp(format: Option<TimestampFormat>, now: Instant): (s: string)
    ensures format.None? || format.value.Time? || format.value.Unrecognized? ==> s == FormatTime(now)
    ensures format == Some(DateTime) ==> s == FormatDateTime(now)
    ensures format == Some(Iso) ==> s == now.iso
    ensures format == Some(Ms) ==> s == IntToString(now.epochMs)
  {
    match format.GetOr(Time)
    case Time => FormatTime(now)
    case DateTime => FormatDateTime(now)
    case Iso => now.iso
    case Ms => IntToString(now.epochMs)
    case Unrecognized(_) => FormatTime(now)
  }

  /** The default format and any unrecognized format both produce the `time` output. */
  lemma FallbackIsTime(name: string, now: Instant)
    ensures FormatTimestamp(None, now) == FormatTimestamp(Some(Time), now)
    ensures FormatTimestamp(Some(Unrecognized(name)), now) == FormatTimestamp(Some(Time), now)
  {
  }

  /**
   * The shapes of the four formats: `HH:MM:SS` for time, the default and the
   * fallback; the digits of the epoch milliseconds for `ms` after 1970.
   */
  lemma TimestampShapes(format: Option<TimestampFormat>, now: Instant)
    requires IsCalendarInstant(now)
    ensures var s := FormatTimestamp(format, now);
      format.None? || format.value.Time? || format.value.Unrecognized? ==>
        |s| == 8 && s[2] == ':' && s[5] == ':' && AllDigits(s[0..2]) && AllDigits(s[3..5]) && AllDigits(s[6..8])
    ensures var s := FormatTimestamp(format, now);
      format == Some(Ms) && now.epochMs >= 0 ==> |s| >= 1 && AllDigits(s) && DecimalValue(s) == now.epochMs
  {
  }
}
