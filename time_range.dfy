/** `TimeRange` and its `toString`, the `HH:MM-HH:MM` text of a Nagios time period line. */
module TimeRange {
  import opened Wrappers
  import opened JavaString

  /** A clock time as the range holds it: an hour (24 is allowed, for end of day) and a minute. */
  datatype Time = Time(hour: int, minute: int)

  /** The getters `getStartTime` and `getEndTime` are this datatype's two fields. */
  datatype TimeRange = TimeRange(startTime: Time, endTime: Time)

  /** `String.format("%02d", n)`: the decimal text, zero-padded to at least two characters. */
  function Pad2(n: int): string {
    var s := IntToString(n);
    if |s| < 2 then "0" + s else s
  }

  /** `toString()`: start hour ':' start minute '-' end hour ':' end minute. */
  function ToString(r: TimeRange): string {
    Pad2(r.startTime.hour) + ":" + Pad2(r.startTime.minute) + "-" + Pad2(r.endTime.hour) + ":" + Pad2(r.endTime.minute)
  }

  predicate InTwoDigits(r: TimeRange) {
    0 <= r.startTime.hour < 100 && 0 <= r.startTime.minute < 100
    && 0 <= r.endTime.hour < 100 && 0 <= r.endTime.minute < 100
  }

  function TwoDigitValue(a: char, b: char): Option<int> {
    if IsDigit(a) && IsDigit(b) then Some((a as int - '0' as int) * 10 + (b as int - '0' as int)) else None
  }

  /** Reads `HH:MM-HH:MM` back into a range. */
  function ParseRange(s: string): Option<TimeRange> {
    if |s| != 11 || s[2] != ':' || s[5] != '-' || s[8] != ':' then None
    else
      var h1, m1 := TwoDigitValue(s[0], s[1]), TwoDigitValue(s[3], s[4]);
      var h2, m2 := TwoDigitValue(s[6], s[7]), TwoDigitValue(s[9], s[10]);
      if h1.None? || m1.None? || h2.None? || m2.None? then None
      else Some(TimeRange(Time(h1.value, m1.value), Time(h2.value, m2.value)))
  }

  lemma Pad2TwoDigits(n: int)
    requires 0 <= n < 100
    ensures Pad2(n) == [DigitChar(n / 10), DigitChar(n % 10)]
  {
    if n >= 10 {
      assert NatToString(n / 10) == [DigitChar(n / 10)];
    }
  }

  /**
   * For hours and minutes in 0..99 the text has exactly 11 characters and reads back as the
   * same range.
   */
  lemma ToStringRoundTrip(r: TimeRange)
    requires InTwoDigits(r)
    ensures |ToString(r)| == 11
    ensures ParseRange(ToString(r)) == Some(r)
  {
    Pad2TwoDigits(r.startTime.hour);
    Pad2TwoDigits(r.startTime.minute);
    Pad2TwoDigits(r.endTime.hour);
    Pad2TwoDigits(r.endTime.minute);
  }

  /** The whole-day range prints as "00:00-24:00". */
  lemma AllDayText()
    ensures ToString(TimeRange(Time(0, 0), Time(24, 0))) == "00:00-24:00"
  {
    Pad2TwoDigits(0);
    Pad2TwoDigits(24);
  }
}
