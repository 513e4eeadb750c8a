/** The relative-time label shown next to play logs and notifications:
    whole minutes, hours and days obtained by successive floor divisions of
    the elapsed milliseconds. */
module TimeAgo {
  import opened Decimal

  const MinuteMs := 60000
  const HourMs := 3600000
  const DayMs := 86400000

  /** Describes an elapsed time of `diffMs` milliseconds ("now" minus the
      timestamp; negative for a timestamp in the future). `/` here rounds
      toward negative infinity for a positive divisor, as `Math.floor` of the
      quotient does. */
  function Describe(diffMs: int): (r: string)
    ensures diffMs < MinuteMs ==> r == "Just now"
    ensures MinuteMs <= diffMs < HourMs ==> r == NatToString(diffMs / MinuteMs) + "m ago"
    ensures HourMs <= diffMs < DayMs ==> r == NatToString(diffMs / HourMs) + "h ago"
    ensures DayMs <= diffMs ==> r == NatToString(diffMs / DayMs) + "d ago"
  {
    var diffMins := diffMs / MinuteMs;
    var diffHours := diffMins / 60;
    var diffDays := diffHours / 24;
    DivDiv(diffMs, MinuteMs, 60);
    DivDiv(diffMs, HourMs, 24);
    if diffMins < 1 then "Just now"
    else if diffMins < 60 then IntToString(diffMins) + "m ago"
    else if diffHours < 24 then IntToString(diffHours) + "h ago"
    else IntToString(diffDays) + "d ago"
  }

  /** Dividing twice is dividing by the product. */
  lemma DivDiv(x: int, a: nat, b: nat)
    requires a > 0 && b > 0
    ensures (x / a) / b == x / (a * b)
  {
    var q := (x / a) / b;
    var r1 := x % a;
    var r2 := (x / a) % b;
    Regroup(a, b, q, r2, r1);
    Below(a, b, r2, r1);
    DivUnique(x, a * b, q, a * r2 + r1);
  }

  lemma Regroup(a: int, b: int, q: int, r2: int, r1: int)
    ensures a * (b * q + r2) + r1 == (a * b) * q + (a * r2 + r1)
  {
  }

  lemma Below(a: nat, b: nat, r2: nat, r1: nat)
    requires r2 < b && r1 < a
    ensures a * r2 + r1 < a * b
  {
    assert a * r2 <= a * (b - 1);
  }

  /** A product with a positive factor is at least that factor in size
      unless the other factor is zero. */
  lemma MulSign(d: int, k: int)
    requires d > 0
    ensures k >= 1 ==> d * k >= d
    ensures k <= -1 ==> d * k <= -d
  {
  }

  lemma DivUnique(x: int, d: nat, q: int, r: nat)
    requires d > 0 && r < d && x == d * q + r
    ensures x / d == q
  {
    MulSign(d, x / d - q);
    assert d * (x / d - q) == r - x % d;
  }

  /** The minute label always carries a number from 1 to 59 and the hour
      label one from 1 to 23. */
  lemma LabelRanges(diffMs: int)
    ensures MinuteMs <= diffMs < HourMs ==> 1 <= diffMs / MinuteMs < 60
    ensures HourMs <= diffMs < DayMs ==> 1 <= diffMs / HourMs < 24
    ensures DayMs <= diffMs ==> 1 <= diffMs / DayMs
  {
    if MinuteMs <= diffMs < HourMs {
      DivUnique(HourMs, MinuteMs, 60, 0);
    }
  }
}
