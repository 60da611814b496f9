/** Proleptic Gregorian calendar arithmetic on integer milliseconds since 1970-01-01T00:00Z,
    as `Date` and date-fns use it, taken in UTC. A month is identified by its index
    `year * 12 + (month - 1)`. */
module Calendar {
  import opened Text

  const DayMs: int := 86400000

  /** Days from 1970-01-01 to the given civil date (H. Hinnant's `days_from_civil`). */
  function DaysFromCivil(y: int, m: int, d: int): int
    requires 1 <= m <= 12
  {
    var y' := if m <= 2 then y - 1 else y;
    var era := y' / 400;
    var yoe := y' - era * 400;
    var mp := (m + 9) % 12;
    var doy := (153 * mp + 2) / 5 + d - 1;
    var doe := yoe * 365 + yoe / 4 - yoe / 100 + doy;
    era * 146097 + doe - 719468
  }

  datatype Civil = Civil(year: int, month: int, day: int)

  /** The civil date of a day number (H. Hinnant's `civil_from_days`). */
  function CivilFromDays(z: int): Civil {
    var z' := z + 719468;
    var era := z' / 146097;
    var doe := z' - era * 146097;
    var yoe := (doe - doe / 1460 + doe / 36524 - doe / 146096) / 365;
    var doy := doe - (365 * yoe + yoe / 4 - yoe / 100);
    var mp := (5 * doy + 2) / 153;
    var d := doy - (153 * mp + 2) / 5 + 1;
    var m := if mp < 10 then mp + 3 else mp - 9;
    Civil(yoe + era * 400 + (if m <= 2 then 1 else 0), m, d)
  }

  /** The month index of an instant. */
  function MonthOf(t: int): int {
    var c := CivilFromDays(t / DayMs);
    c.year * 12 + (c.month - 1)
  }

  /** The first millisecond of month `mi`: `startOfMonth`. */
  function MonthStart(mi: int): int {
    DaysFromCivil(mi / 12, mi % 12 + 1, 1) * DayMs
  }

  /** Every month has at least 28 days, so consecutive month starts are strictly increasing. */
  lemma MonthStartIncreasing(mi: int)
    ensures MonthStart(mi) + 28 * DayMs <= MonthStart(mi + 1)
  {
    var y, m := mi / 12, mi % 12 + 1;
    assert (mi + 1) / 12 == (if m == 12 then y + 1 else y);
    assert (mi + 1) % 12 + 1 == (if m == 12 then 1 else m + 1);
    if m == 2 {
      ShiftedYearStep(y - 1);
    } else {
      MonthStep(y, m);
    }
  }

  /** Within one March-based year the next month starts at least 28 days later. */
  lemma MonthStep(y: int, m: int)
    requires 1 <= m <= 12 && m != 2
    ensures DaysFromCivil(if m == 12 then y + 1 else y, if m == 12 then 1 else m + 1, 1)
            >= DaysFromCivil(y, m, 1) + 28
  {
  }

  /** March 1st of March-based year `y' + 1` is at least 28 days after February 1st of year `y'`. */
  lemma ShiftedYearStep(y': int)
    ensures DaysFromCivil(y' + 1, 3, 1) >= DaysFromCivil(y' + 1, 2, 1) + 28
  {
    var era := y' / 400;
    var yoe := y' - era * 400;
    var feb := era * 146097 + yoe * 365 + yoe / 4 - yoe / 100 + 337 - 719468;
    assert DaysFromCivil(y' + 1, 2, 1) == feb;
    if yoe == 399 {
      assert (y' + 1) / 400 == era + 1;
      assert DaysFromCivil(y' + 1, 3, 1) == (era + 1) * 146097 - 719468;
    } else {
      assert (y' + 1) / 400 == era;
      assert (yoe + 1) / 100 - yoe / 100 <= (yoe + 1) / 4 - yoe / 4;
      assert DaysFromCivil(y' + 1, 3, 1) ==
        era * 146097 + (yoe + 1) * 365 + (yoe + 1) / 4 - (yoe + 1) / 100 - 719468;
    }
  }

  /** Month starts are strictly increasing over any distance. */
  lemma {:induction false} MonthStartMonotone(a: int, b: int)
    requires a < b
    ensures MonthStart(a) < MonthStart(b)
    decreases b - a
  {
    MonthStartIncreasing(a);
    if a + 1 < b {
      MonthStartMonotone(a + 1, b);
    }
  }

  /** An integer with at least `width` digits (date-fns 'yyyy', 'MM', 'dd'). */
  function PadInt(n: int, width: nat): (r: string)
    ensures 'T' !in r
  {
    var r := if n < 0 then "-" + PadZero(NatToString(-n), width) else PadZero(NatToString(n), width);
    assert forall k :: 0 <= k < |r| ==> r[k] == '-' || IsDigit(r[k]);
    r
  }

  function TwoDigits(n: int): string { PadInt(n, 2) }

  /** A calendar month as a (year, month) pair, month 1..12: what date-fns' 'yyyy-MM' and
      'MMM' labels are printed from. */
  datatype YearMonth = YearMonth(year: int, month: int)

  function YearMonthOf(mi: int): (ym: YearMonth)
    ensures 1 <= ym.month <= 12 && ym.year * 12 + ym.month - 1 == mi
  {
    YearMonth(mi / 12, mi % 12 + 1)
  }

  /** The year part of `toISOString`: four digits for years 0..9999, otherwise a sign and six. */
  function IsoYear(y: int): (r: string)
    ensures 'T' !in r
  {
    if 0 <= y <= 9999 then PadInt(y, 4)
    else if y < 0 then PadInt(y, 6)
    else
      var r := "+" + PadInt(y, 6);
      assert forall k :: 0 < k < |r| ==> r[k] == PadInt(y, 6)[k - 1];
      r
  }

  /** The date part of `toISOString`: `YYYY-MM-DD`. */
  function IsoDate(t: int): (r: string)
    ensures 'T' !in r
    ensures r != ""
  {
    var c := CivilFromDays(t / DayMs);
    var r := IsoYear(c.year) + "-" + TwoDigits(c.month) + "-" + TwoDigits(c.day);
    r
  }

  /** The time part of `toISOString`: `HH:mm:ss.sssZ`. */
  function IsoTime(t: int): string {
    var ms := t % DayMs;
    TwoDigits(ms / 3600000) + ":" + TwoDigits(ms / 60000 % 60) + ":" + TwoDigits(ms / 1000 % 60) + "." +
    PadZero(NatToString(ms % 1000), 3) + "Z"
  }

  /** `date.toISOString()`. */
  function IsoString(t: int): string {
    IsoDate(t) + "T" + IsoTime(t)
  }
}
