/** Points in time, taken as whole seconds on the server's local clock; where they come from is an input. */
module Time {

  type Instant = int

  const SecondsPerDay := 86400

  /** The calendar day of an instant, counted from the epoch (what a `__date` lookup compares). */
  function DayOf(t: Instant): (d: int)
    ensures d * SecondsPerDay <= t < (d + 1) * SecondsPerDay
  {
    t / SecondsPerDay
  }

  function Digit(n: nat): (c: char)
    requires n < 10
    ensures '0' <= c <= '9' && c as int - '0' as int == n
  {
    ('0' as int + n) as char
  }

  function DigitValue(c: char): int {
    c as int - '0' as int
  }

  /** strftime('%H:%M') of an instant: the hour and minute of its day, two digits each. */
  function ClockText(t: Instant): (r: string)
    ensures |r| == 5 && r[2] == ':'
    ensures forall k :: k in {0, 1, 3, 4} ==> '0' <= r[k] <= '9'
    ensures DigitValue(r[0]) * 10 + DigitValue(r[1]) == (t % SecondsPerDay) / 3600
    ensures DigitValue(r[3]) * 10 + DigitValue(r[4]) == (t % 3600) / 60
  {
    var hour := (t % SecondsPerDay) / 3600;
    var minute := (t % 3600) / 60;
    [Digit(hour / 10), Digit(hour % 10), ':', Digit(minute / 10), Digit(minute % 10)]
  }
}
