/**
 * Dates of Django's DateField, as day numbers: a date is the number of days since
 * 1970-01-01 in the proleptic Gregorian calendar. Ordering and `timedelta`
 * arithmetic are then integer ordering and addition; `date.month`, `date.year` and
 * `date.replace(day=1)` go through the civil date of the day number.
 */
module Calendar {
  type Day = int

  datatype Date = Date(year: int, month: int, day: int)

  /** A calendar month. */
  datatype YearMonth = YearMonth(year: int, month: int)

  /** The months since January of year 0, so that consecutive months have consecutive indices. */
  function MonthIndex(m: YearMonth): int
  {
    m.year * 12 + m.month - 1
  }

  /** The civil date of day number `z`, by Howard Hinnant's days-to-civil algorithm. */
  function CivilFromDays(z: Day): Date
  {
    var z' := z + 719468;
    var era := z' / 146097;
    CivilInEra(era, z' - era * 146097)
  }

  /** The year of the era holding day `doe` of a 400-year era (years start on 1 March). */
  function YearOfEra(doe: int): int
  {
    (doe - doe / 1460 + doe / 36524 - doe / 146096) / 365
  }

  /** The day of the March-based year `yoe` holding day `doe` of the era. */
  function DayOfYear(doe: int, yoe: int): int
  {
    doe - (365 * yoe + yoe / 4 - yoe / 100)
  }

  /** The March-based month (0 is March) holding day `doy` of the year. */
  function MarchMonth(doy: int): int
  {
    (5 * doy + 2) / 153
  }

  /** The civil date of day `doe` of 400-year era `era`. */
  function CivilInEra(era: int, doe: int): Date
  {
    var yoe := YearOfEra(doe);
    var doy := DayOfYear(doe, yoe);
    var mp := MarchMonth(doy);
    var day := doy - (153 * mp + 2) / 5 + 1;
    var month := if mp < 10 then mp + 3 else mp - 9;
    Date(yoe + era * 400 + (if month <= 2 then 1 else 0), month, day)
  }

  /** `d.month` */
  function MonthOf(d: Day): int
  {
    CivilFromDays(d).month
  }

  /** `d.replace(day=1)`: the first day of the month holding `d`. */
  function FirstOfMonth(d: Day): Day
  {
    d - (CivilFromDays(d).day - 1)
  }

  /** The calendar month of day `d`. */
  function YearMonthOf(d: Day): YearMonth
  {
    var c := CivilFromDays(d);
    YearMonth(c.year, c.month)
  }

  /** The day number of the civil date `y`-`m`-`d`, by Howard Hinnant's days-from-civil algorithm. */
  function DaysFromCivil(y: int, m: int, d: int): Day
  {
    var y' := if m <= 2 then y - 1 else y;
    var era := y' / 400;
    var yoe := y' - era * 400;
    var mp := if m > 2 then m - 3 else m + 9;
    era * 146097 + MonthStartOfEra(yoe, mp) + d - 1 - 719468
  }

  /** Within a 400-year era, the year of a day up to the start of February is recovered from its day of the era. */
  lemma YearOfEraStart(yoe: int, doy: int)
    requires 0 <= yoe < 400 && 0 <= doy <= 337
    ensures var doe := yoe * 365 + yoe / 4 - yoe / 100 + doy;
      0 <= doe < 146097 && YearOfEra(doe) == yoe && DayOfYear(doe, yoe) == doy
  {
    var c := yoe / 100;
    var q := (yoe % 100) / 4;
    var r := yoe % 4;
    assert yoe == 100 * c + 4 * q + r;
    assert yoe / 4 == 25 * c + q;
    var doe := yoe * 365 + yoe / 4 - yoe / 100 + doy;
    assert doe == 36524 * c + 1461 * q + 365 * r + doy;
    assert doe / 146096 == 0;
    assert doe / 36524 == c;
    var e := (24 * c + q + 365 * r + doy) / 1460;
    assert doe / 1460 == 25 * c + q + e;
    assert doe - doe / 1460 + doe / 36524 - doe / 146096 == 365 * yoe + doy - e;
  }

  /** The March-based month of the first day of that month is recovered from its day of the year. */
  lemma MonthOfYear(mp: int)
    requires 0 <= mp < 12
    ensures var doy := (153 * mp + 2) / 5;
      0 <= doy <= 337 && MarchMonth(doy) == mp && doy - (153 * mp + 2) / 5 + 1 == 1
  {
  }

  /** The day of the era of the first day of March-based month `mp` of year `yoe` of an era. */
  function MonthStartOfEra(yoe: int, mp: int): int
  {
    yoe * 365 + yoe / 4 - yoe / 100 + (153 * mp + 2) / 5
  }

  /** Days-to-civil within one era, on the first day of a month. */
  lemma CivilWithinEra(era: int, yoe: int, mp: int, doe: int)
    requires 0 <= yoe < 400 && 0 <= mp < 12 && doe == MonthStartOfEra(yoe, mp)
    ensures 0 <= doe < 146097
    ensures CivilInEra(era, doe)
      == Date(yoe + era * 400 + (if mp >= 10 then 1 else 0), if mp < 10 then mp + 3 else mp - 9, 1)
  {
    MonthOfYear(mp);
    YearOfEraStart(yoe, (153 * mp + 2) / 5);
  }

  /** Days-to-civil of a day given as an era and a day of that era. */
  lemma CivilFromEraDay(z: Day, era: int, doe: int)
    requires 0 <= doe < 146097 && z + 719468 == era * 146097 + doe
    ensures CivilFromDays(z) == CivilInEra(era, doe)
  {
    assert (z + 719468) / 146097 == era;
  }

  /** The first day of any month converts back to that date: the two algorithms agree there. */
  lemma FirstRoundTrip(y: int, m: int)
    requires 1 <= m <= 12
    ensures CivilFromDays(DaysFromCivil(y, m, 1)) == Date(y, m, 1)
  {
    var y' := if m <= 2 then y - 1 else y;
    var era := y' / 400;
    var yoe := y' - era * 400;
    var mp := if m > 2 then m - 3 else m + 9;
    var doe := MonthStartOfEra(yoe, mp);
    var z := DaysFromCivil(y, m, 1);
    assert 0 <= yoe < 400;
    assert z + 719468 == era * 146097 + doe;
    CivilWithinEra(era, yoe, mp, doe);
    CivilFromEraDay(z, era, doe);
    assert yoe + era * 400 + (if mp >= 10 then 1 else 0) == y;
  }
}
