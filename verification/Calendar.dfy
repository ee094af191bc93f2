/** Day numbers to Gregorian dates, and the time stamps built from them. */
module Calendar {
  import opened Prelude

  datatype Date = Date(year: int, month: int, day: int)

  // ---------- the calendar, by its rules ----------

  predicate IsLeap(y: int) {
    y % 4 == 0 && (y % 100 != 0 || y % 400 == 0)
  }

  function YearLength(y: int): int {
    if IsLeap(y) then 366 else 365
  }

  function MonthLength(y: int, m: int): int {
    if m == 2 then (if IsLeap(y) then 29 else 28)
    else if m == 4 || m == 6 || m == 9 || m == 11 then 30
    else 31
  }

  predicate IsDate(t: Date) {
    1 <= t.month <= 12 && 1 <= t.day <= MonthLength(t.year, t.month)
  }

  /** The days of the year before this month. */
  function DaysBeforeMonth(y: int, m: int): int
    decreases m
  {
    if m <= 1 then 0 else DaysBeforeMonth(y, m - 1) + MonthLength(y, m - 1)
  }

  /** The number of days from 1970-01-01 to the first of January of the year. */
  function YearStart(y: int): int
    decreases if y >= 1970 then y - 1970 else 1970 - y
  {
    if y == 1970 then 0
    else if y > 1970 then YearStart(y - 1) + YearLength(y - 1)
    else YearStart(y + 1) - YearLength(y)
  }

  /** The number of days from 1970-01-01 to the date. */
  function DayNumber(t: Date): int {
    YearStart(t.year) + DaysBeforeMonth(t.year, t.month) + t.day - 1
  }

  /** The day after. */
  function NextDay(t: Date): Date {
    if t.day < MonthLength(t.year, t.month) then Date(t.year, t.month, t.day + 1)
    else if t.month < 12 then Date(t.year, t.month + 1, 1)
    else Date(t.year + 1, 1, 1)
  }

  predicate Before(a: Date, b: Date) {
    || a.year < b.year
    || (a.year == b.year && (a.month < b.month || (a.month == b.month && a.day < b.day)))
  }

  // ---------- the conversion ----------

  /** Division that truncates towards zero, as the `/` operator of Rust does. */
  function TruncatedDiv(a: int, b: int): int
    requires b > 0
  {
    if a >= 0 then a / b else -((-a) / b)
  }

  /** `civil_from_days`: years are counted from March, in eras of 400 years. */
  function CivilFromDays(days: int): Date {
    var (era, doe) := EraAndDay(days + 719_468);
    EraDate(era, doe)
  }

  function EraAndDay(z: int): (int, int) {
    (EraOf(z), z - EraOf(z) * 146_097)
  }

  function EraOf(z: int): int {
    TruncatedDiv(if z >= 0 then z else z - 146_096, 146_097)
  }

  /** The date of a day of an era. */
  function EraDate(era: int, doe: int): Date {
    var yoe := YearOfEra(doe);
    MarchDate(yoe + era * 400, doe - EraYearStart(yoe))
  }

  /** The date of a day of a year that starts in March. */
  function MarchDate(y: int, doy: int): Date {
    var mp := (5 * doy + 2) / 153;
    var d := doy - (153 * mp + 2) / 5 + 1;
    var m := if mp < 10 then mp + 3 else mp - 9;
    Date(if m <= 2 then y + 1 else y, m, d)
  }

  function YearOfEra(doe: int): int {
    (doe - doe / 1460 + doe / 36_524 - doe / 146_096) / 365
  }

  /** The first day of a year of the era. */
  function EraYearStart(yoe: int): int {
    365 * yoe + yoe / 4 - yoe / 100
  }

  // ---------- eras ----------

  lemma EraIsFloor(z: int, era: int, doe: int)
    requires 0 <= doe < 146_097 && z == era * 146_097 + doe
    ensures EraAndDay(z) == (era, doe)
  {
  }

  /** Every day of the era belongs to the year that the division picks. */
  lemma YearOfEraIs(a: int, b: int, c: int, doy: int)
    requires 0 <= a < 4 && 0 <= b < 25 && 0 <= c < 4 && 0 <= doy <= 365
    requires doy == 365 ==> c == 3 && (b < 24 || a == 3)
    ensures var yoe := 100 * a + 4 * b + c;
      EraYearStart(yoe) == 36_524 * a + 1461 * b + 365 * c && YearOfEra(EraYearStart(yoe) + doy) == yoe
  {
    var yoe := 100 * a + 4 * b + c;
    assert yoe / 4 == 25 * a + b && yoe / 100 == a;
    var doe := 36_524 * a + 1461 * b + 365 * c + doy;
    var r := 24 * a + b + 365 * c + doy;
    assert doe == 1460 * (25 * a + b) + r;
    assert doe / 1460 == 25 * a + b + (if r >= 1460 then 1 else 0);
    assert doe / 36_524 == a + (if doe == 146_096 then 1 else 0);
    assert doe / 146_096 == (if doe == 146_096 then 1 else 0);
  }

  /** A day of an era, as the year of the era and the day of that year. */
  lemma DayOfEra(doe: int) returns (yoe: int, doy: int)
    requires 0 <= doe < 146_097
    ensures 0 <= yoe < 400 && yoe == YearOfEra(doe) && doe == EraYearStart(yoe) + doy
    ensures 0 <= doy <= 365 && (doy == 365 ==> IsLeap(yoe + 1))
  {
    var a := if doe / 36_524 < 3 then doe / 36_524 else 3;
    var rest := doe - 36_524 * a;
    var b := if rest / 1461 < 24 then rest / 1461 else 24;
    var more := rest - 1461 * b;
    var c := if more / 365 < 3 then more / 365 else 3;
    yoe, doy := 100 * a + 4 * b + c, more - 365 * c;
    YearOfEraIs(a, b, c, doy);
    if c == 3 && (b < 24 || a == 3) { LeapAfter(a, b, c); }
  }

  lemma LeapAfter(a: int, b: int, c: int)
    requires 0 <= a < 4 && 0 <= b < 25 && c == 3 && (b < 24 || a == 3)
    ensures IsLeap(100 * a + 4 * b + c + 1)
  {
  }

  // ---------- months from March ----------

  /** The days before the month, in a year that starts in March. */
  function MonthStart(mp: int): int {
    (153 * mp + 2) / 5
  }

  /** A day of such a year falls into the month and on the day that the divisions pick. */
  lemma MonthOfDay(doy: int)
    requires 0 <= doy <= 365
    ensures var mp := (5 * doy + 2) / 153;
      && 0 <= mp <= 11 && MonthStart(mp) <= doy && (mp < 11 ==> doy < MonthStart(mp + 1))
  {
  }

  lemma MarchMonth(y: int, mp: int)
    requires 0 <= mp < 10
    ensures DaysBeforeMonth(y, mp + 3) == DaysBeforeMonth(y, 3) + MonthStart(mp)
    ensures MonthStart(mp + 1) - MonthStart(mp) == MonthLength(y, mp + 3)
    ensures DaysBeforeMonth(y, 3) == (if IsLeap(y) then 60 else 59)
  {
    assert DaysBeforeMonth(y, 3) == MonthLength(y, 1) + MonthLength(y, 2);
    if mp > 0 { MarchMonth(y, mp - 1); }
  }

  // ---------- years ----------

  /** The leap years up to `n`. */
  function Leaps(n: int): int {
    n / 4 - n / 100 + n / 400
  }

  lemma LeapsStep(y: int)
    ensures Leaps(y) - Leaps(y - 1) == (if IsLeap(y) then 1 else 0)
  {
    Multiples(y);
    assert y % 400 == 0 ==> y % 100 == 0;
    assert y % 100 == 0 ==> y % 4 == 0;
  }

  lemma Multiples(y: int)
    ensures y / 4 - (y - 1) / 4 == (if y % 4 == 0 then 1 else 0)
    ensures y / 100 - (y - 1) / 100 == (if y % 100 == 0 then 1 else 0)
    ensures y / 400 - (y - 1) / 400 == (if y % 400 == 0 then 1 else 0)
  {
  }

  lemma {:induction false} YearStartClosed(y: int)
    ensures YearStart(y) == 365 * (y - 1970) + Leaps(y - 1) - Leaps(1969)
    decreases if y >= 1970 then y - 1970 else 1970 - y
  {
    if y > 1970 {
      YearStartClosed(y - 1);
      LeapsStep(y - 1);
    } else if y < 1970 {
      YearStartClosed(y + 1);
      LeapsStep(y);
    }
  }

  /** The first of March of a year of an era, counted from 1970-01-01. */
  lemma MarchFirst(era: int, yoe: int)
    requires 0 <= yoe < 400
    ensures var y := yoe + era * 400;
      DayNumber(Date(y, 3, 1)) == era * 146_097 + EraYearStart(yoe) - 719_468
  {
    var y := yoe + era * 400;
    YearStartClosed(y);
    LeapsStep(y);
    MarchMonth(y, 0);
    assert y / 400 == era && y / 100 == 4 * era + yoe / 100 && y / 4 == 100 * era + yoe / 4;
  }

  // ---------- the conversion is exact ----------

  /** A day of a year that starts in March is a date, and as many days after the first of March as it says. */
  lemma DateOfMarchYear(y: int, doy: int)
    requires 0 <= doy <= 365 && (doy == 365 ==> IsLeap(y + 1))
    ensures IsDate(MarchDate(y, doy)) && DayNumber(MarchDate(y, doy)) == DayNumber(Date(y, 3, 1)) + doy
  {
    var mp := (5 * doy + 2) / 153;
    MonthOfDay(doy);
    if mp < 10 {
      MarchMonth(y, mp);
    } else {
      MarchMonth(y, 9);
      MarchMonth(y, 0);
      YearAfter(y);
    }
  }

  lemma YearAfter(y: int)
    ensures YearStart(y + 1) == YearStart(y) + YearLength(y)
    ensures DaysBeforeMonth(y + 1, 1) == 0 && DaysBeforeMonth(y + 1, 2) == 31
  {
  }

  lemma CivilParts(days: int, era: int, doe: int)
    requires 0 <= doe < 146_097 && days == era * 146_097 + doe - 719_468
    ensures CivilFromDays(days) == EraDate(era, doe)
  {
    EraIsFloor(days + 719_468, era, doe);
  }

  lemma YearDateIsExact(days: int, era: int, yoe: int, doy: int)
    requires 0 <= yoe < 400 && 0 <= doy <= 365 && (doy == 365 ==> IsLeap(yoe + 1))
    requires days == era * 146_097 + EraYearStart(yoe) + doy - 719_468
    ensures var t := MarchDate(yoe + era * 400, doy); IsDate(t) && DayNumber(t) == days
  {
    LeapPeriod(yoe + 1, era);
    MarchFirst(era, yoe);
    DateOfMarchYear(yoe + era * 400, doy);
  }

  lemma EraDateIsExact(days: int, era: int, doe: int)
    requires 0 <= doe < 146_097 && days == era * 146_097 + doe - 719_468
    ensures IsDate(EraDate(era, doe)) && DayNumber(EraDate(era, doe)) == days
  {
    var yoe, doy := DayOfEra(doe);
    YearDateIsExact(days, era, yoe, doy);
  }

  /** Every day number is converted to a date with that day number. */
  lemma ConversionIsExact(days: int)
    ensures IsDate(CivilFromDays(days)) && DayNumber(CivilFromDays(days)) == days
  {
    var z := days + 719_468;
    var era := z / 146_097;
    var doe := z % 146_097;
    assert days == era * 146_097 + doe - 719_468;
    CivilParts(days, era, doe);
    EraDateIsExact(days, era, doe);
  }

  lemma LeapPeriod(y: int, era: int)
    ensures IsLeap(y + era * 400) <==> IsLeap(y)
  {
    assert (y + era * 400) / 400 == y / 400 + era;
    assert (y + era * 400) / 100 == y / 100 + 4 * era;
    assert (y + era * 400) / 4 == y / 4 + 100 * era;
  }

  // ---------- order ----------

  lemma {:induction false} LaterYear(a: int, b: int)
    requires a < b
    ensures YearStart(a) + YearLength(a) <= YearStart(b)
    decreases b - a
  {
    YearAfter(b - 1);
    if a < b - 1 { LaterYear(a, b - 1); }
  }

  lemma {:induction false} LaterMonth(y: int, a: int, b: int)
    requires 1 <= a < b <= 13
    ensures DaysBeforeMonth(y, a) + MonthLength(y, a) <= DaysBeforeMonth(y, b)
    decreases b - a
  {
    if a < b - 1 { LaterMonth(y, a, b - 1); }
  }

  lemma YearIsItsMonths(y: int)
    ensures DaysBeforeMonth(y, 13) == YearLength(y)
  {
  }

  /** Later dates have larger day numbers. */
  lemma DayNumberIsIncreasing(a: Date, b: Date)
    requires IsDate(a) && IsDate(b) && Before(a, b)
    ensures DayNumber(a) < DayNumber(b)
  {
    LaterMonth(a.year, a.month, 13);
    YearIsItsMonths(a.year);
    if a.year < b.year {
      LaterYear(a.year, b.year);
      if b.month > 1 { LaterMonth(b.year, 1, b.month); }
    } else if a.month < b.month {
      LaterMonth(a.year, a.month, b.month);
    }
  }

  /** Every date comes from its own day number: with `ConversionIsExact`, the conversion is a bijection. */
  lemma DatesComeBack(t: Date)
    requires IsDate(t)
    ensures CivilFromDays(DayNumber(t)) == t
  {
    var c := CivilFromDays(DayNumber(t));
    ConversionIsExact(DayNumber(t));
    if Before(c, t) {
      DayNumberIsIncreasing(c, t);
    } else if Before(t, c) {
      DayNumberIsIncreasing(t, c);
    }
  }

  /** The conversion is strictly increasing. */
  lemma ConversionIsIncreasing(a: int, b: int)
    ensures a < b <==> Before(CivilFromDays(a), CivilFromDays(b))
  {
    var s, t := CivilFromDays(a), CivilFromDays(b);
    ConversionIsExact(a);
    ConversionIsExact(b);
    if Before(s, t) {
      DayNumberIsIncreasing(s, t);
    } else if Before(t, s) {
      DayNumberIsIncreasing(t, s);
    }
  }

  lemma NextDayCounts(t: Date)
    requires IsDate(t)
    ensures IsDate(NextDay(t)) && DayNumber(NextDay(t)) == DayNumber(t) + 1
  {
    if t.day == MonthLength(t.year, t.month) {
      if t.month < 12 {
        NextMonthCounts(t.year, t.month);
      } else {
        YearAfter(t.year);
        YearIsItsMonths(t.year);
        NextMonthCounts(t.year, 12);
      }
    }
  }

  lemma NextMonthCounts(y: int, m: int)
    requires 1 <= m <= 12
    ensures DaysBeforeMonth(y, m + 1) == DaysBeforeMonth(y, m) + MonthLength(y, m)
  {
  }

  /** One day later is the next date of the calendar. */
  lemma NextDayFollows(t: Date)
    requires IsDate(t)
    ensures CivilFromDays(DayNumber(t) + 1) == NextDay(t)
  {
    NextDayCounts(t);
    DatesComeBack(NextDay(t));
  }

  // ---------- time stamps (section 5.6 of RFC 3339) ----------

  /** The decimal digits of a number, with zeros in front up to the width. */
  function Pad(n: nat, width: nat): (s: string)
    decreases n, width
  {
    var digit := ['0' + (n % 10) as char];
    if n < 10 && width <= 1 then digit
    else Pad(n / 10, if width > 0 then width - 1 else 0) + digit
  }

  /** A number to write, its width, and the character after it. */
  datatype Field = Field(value: nat, width: nat, after: char)

  function Format(fields: seq<Field>): string {
    if fields == [] then "" else Pad(fields[0].value, fields[0].width) + ([fields[0].after] + Format(fields[1..]))
  }

  function TimeFields(secs: nat): seq<Field> {
    var t := CivilFromDays(secs / 86_400);
    ConversionIsExact(secs / 86_400);
    YearNotBefore1970(secs / 86_400);
    StampFields(t, secs)
  }

  /** `now_iso`, at this number of seconds after the epoch. */
  function Iso(secs: nat): string {
    Format(TimeFields(secs))
  }

  lemma YearNotBefore1970(days: nat)
    ensures CivilFromDays(days).year >= 1970
  {
    var t := CivilFromDays(days);
    ConversionIsExact(days);
    if t.year < 1970 {
      LaterYear(t.year, 1970);
      LaterMonth(t.year, t.month, 13);
      YearIsItsMonths(t.year);
    }
  }

  /** The order in which texts are sorted, character by character. */
  predicate Less(a: string, b: string) {
    b != "" && (a == "" || a[0] < b[0] || (a[0] == b[0] && Less(a[1..], b[1..])))
  }

  lemma {:induction false} LessConcat(a: string, b: string, x: string, y: string)
    requires |a| == |b|
    ensures Less(a + x, b + y) <==> Less(a, b) || (a == b && Less(x, y))
  {
    if a == "" {
      assert a + x == x && b + y == y;
    } else {
      assert (a + x)[1..] == a[1..] + x && (b + y)[1..] == b[1..] + y;
      LessConcat(a[1..], b[1..], x, y);
      assert a == [a[0]] + a[1..] && b == [b[0]] + b[1..];
    }
  }

  function Pow10(n: nat): nat {
    if n == 0 then 1 else 10 * Pow10(n - 1)
  }

  lemma {:induction false} PadWidth(n: nat, width: nat)
    requires width > 0
    ensures n < Pow10(width) ==> |Pad(n, width)| == width
    ensures n >= Pow10(width) ==> |Pad(n, width)| > width
    decreases width
  {
    if width > 1 {
      PadWidth(n / 10, width - 1);
    } else if n >= 10 {
      PadIsNotEmpty(n / 10);
    }
  }

  lemma PadIsNotEmpty(n: nat)
    ensures |Pad(n, 0)| > 0
  {
  }

  /** Numbers of one width are sorted as numbers. */
  lemma {:induction false} PadOrder(a: nat, b: nat, width: nat)
    requires width > 0 && a < Pow10(width) && b < Pow10(width)
    ensures Less(Pad(a, width), Pad(b, width)) <==> a < b
    ensures Pad(a, width) == Pad(b, width) <==> a == b
    decreases width
  {
    PadWidth(a, width);
    PadWidth(b, width);
    var x, y := ['0' + (a % 10) as char], ['0' + (b % 10) as char];
    assert Less(x, y) <==> a % 10 < b % 10;
    if width > 1 {
      PadOrder(a / 10, b / 10, width - 1);
      PadWidth(a / 10, width - 1);
      PadWidth(b / 10, width - 1);
      LessConcat(Pad(a / 10, width - 1), Pad(b / 10, width - 1), x, y);
      assert Pad(a, width)[..width - 1] == Pad(a / 10, width - 1);
      assert Pad(b, width)[..width - 1] == Pad(b / 10, width - 1);
      assert Pad(a, width)[width - 1] == x[0] && Pad(b, width)[width - 1] == y[0];
    }
  }

  /** Every value fits its width. */
  predicate Fits(fields: seq<Field>) {
    forall i | 0 <= i < |fields| :: fields[i].width > 0 && fields[i].value < Pow10(fields[i].width)
  }

  predicate SameLayout(a: seq<Field>, b: seq<Field>) {
    |a| == |b| && forall i | 0 <= i < |a| :: a[i].width == b[i].width && a[i].after == b[i].after
  }

  /** The first field that differs is smaller. */
  predicate Earlier(a: seq<Field>, b: seq<Field>)
    requires |a| == |b|
  {
    a != [] && (a[0].value < b[0].value || (a[0].value == b[0].value && Earlier(a[1..], b[1..])))
  }

  /** Texts of one layout are sorted by their fields. */
  lemma {:induction false} FormatOrder(a: seq<Field>, b: seq<Field>)
    requires SameLayout(a, b) && Fits(a) && Fits(b)
    ensures Less(Format(a), Format(b)) <==> Earlier(a, b)
  {
    if a != [] {
      var x, y := Pad(a[0].value, a[0].width), Pad(b[0].value, b[0].width);
      PadOrder(a[0].value, b[0].value, a[0].width);
      PadWidth(a[0].value, a[0].width);
      PadWidth(b[0].value, b[0].width);
      LessConcat(x, y, [a[0].after] + Format(a[1..]), [b[0].after] + Format(b[1..]));
      LessConcat([a[0].after], [b[0].after], Format(a[1..]), Format(b[1..]));
      FormatOrder(a[1..], b[1..]);
    }
  }

  lemma Powers()
    ensures Pow10(2) == 100 && Pow10(4) == 10_000
  {
  }

  lemma EarlierFields(a: seq<Field>, b: seq<Field>)
    requires |a| == |b| == 6
    ensures Earlier(a, b) <==>
      || a[0].value < b[0].value
      || (a[0].value == b[0].value && (a[1].value < b[1].value
      || (a[1].value == b[1].value && (a[2].value < b[2].value
      || (a[2].value == b[2].value && (a[3].value < b[3].value
      || (a[3].value == b[3].value && (a[4].value < b[4].value
      || (a[4].value == b[4].value && a[5].value < b[5].value)))))))))
  {
    assert a[1..][1..] == a[2..] && b[1..][1..] == b[2..];
    assert a[2..][1..] == a[3..] && b[2..][1..] == b[3..];
    assert a[3..][1..] == a[4..] && b[3..][1..] == b[4..];
    assert a[4..][1..] == a[5..] && b[4..][1..] == b[5..];
    assert Earlier(a[5..], b[5..]) <==> a[5].value < b[5].value;
    assert Earlier(a[4..], b[4..])
      <==> a[4].value < b[4].value || (a[4].value == b[4].value && Earlier(a[5..], b[5..]));
    assert Earlier(a[3..], b[3..])
      <==> a[3].value < b[3].value || (a[3].value == b[3].value && Earlier(a[4..], b[4..]));
    assert Earlier(a[2..], b[2..])
      <==> a[2].value < b[2].value || (a[2].value == b[2].value && Earlier(a[3..], b[3..]));
    assert Earlier(a[1..], b[1..])
      <==> a[1].value < b[1].value || (a[1].value == b[1].value && Earlier(a[2..], b[2..]));
  }

  /** The time of day, as hours, minutes and seconds, is ordered like the seconds. */
  lemma TimeOfDayOrder(a: nat, b: nat)
    ensures a % 86_400 < b % 86_400 <==>
      var h, k := a % 86_400 / 3600, b % 86_400 / 3600;
      var m, n := a % 3600 / 60, b % 3600 / 60;
      h < k || (h == k && (m < n || (m == n && a % 60 < b % 60)))
  {
    ClockParts(a);
    ClockParts(b);
  }

  lemma HourRemainder(hours: nat, rest: nat)
    requires rest < 3600
    ensures (3600 * hours + rest) % 3600 == rest
  {
  }

  lemma MinuteRemainder(minutes: nat, rest: nat)
    requires rest < 60
    ensures (60 * minutes + rest) % 60 == rest
  {
  }

  lemma ClockParts(a: nat)
    ensures a % 86_400 == a % 86_400 / 3600 * 3600 + a % 3600 / 60 * 60 + a % 60
    ensures 0 <= a % 3600 / 60 < 60 && 0 <= a % 60 < 60
  {
    var days, clock := a / 86_400, a % 86_400;
    var hours, rest := clock / 3600, clock % 3600;
    var minutes, seconds := rest / 60, rest % 60;
    HourRemainder(24 * days + hours, rest);
    MinuteRemainder(60 * (24 * days + hours) + minutes, seconds);
    assert a == 86_400 * days + clock && clock == 3600 * hours + rest && rest == 60 * minutes + seconds;
    assert a % 3600 == rest;
    assert a % 60 == seconds;
  }

  /** The fields of a date and the time of a day. */
  function StampFields(t: Date, secs: nat): seq<Field>
    requires t.year >= 0 && t.month >= 0 && t.day >= 0
  {
    [Field(t.year, 4, '-'), Field(t.month, 2, '-'), Field(t.day, 2, 'T'),
     Field(secs % 86_400 / 3600, 2, ':'), Field(secs % 3600 / 60, 2, ':'), Field(secs % 60, 2, 'Z')]
  }

  lemma StampOrder(s: Date, t: Date, a: nat, b: nat)
    requires s.year >= 0 && s.month >= 0 && s.day >= 0 && t.year >= 0 && t.month >= 0 && t.day >= 0
    requires a / 86_400 < b / 86_400 <==> Before(s, t)
    requires b / 86_400 < a / 86_400 <==> Before(t, s)
    ensures Earlier(StampFields(s, a), StampFields(t, b)) <==> a < b
  {
    EarlierFields(StampFields(s, a), StampFields(t, b));
    TimeOfDayOrder(a, b);
  }

  lemma StampsSort(s: Date, t: Date, a: nat, b: nat)
    requires IsDate(s) && IsDate(t) && 0 <= s.year <= 9999 && 0 <= t.year <= 9999
    requires a / 86_400 < b / 86_400 <==> Before(s, t)
    requires b / 86_400 < a / 86_400 <==> Before(t, s)
    ensures Less(Format(StampFields(s, a)), Format(StampFields(t, b))) <==> a < b
  {
    Powers();
    FormatOrder(StampFields(s, a), StampFields(t, b));
    StampOrder(s, t, a, b);
  }

  /** Time stamps up to the year 9999 are sorted in the order of time. */
  lemma StampsSortByTime(a: nat, b: nat)
    requires CivilFromDays(a / 86_400).year <= 9999 && CivilFromDays(b / 86_400).year <= 9999
    ensures Less(Iso(a), Iso(b)) <==> a < b
  {
    var x, y := a / 86_400, b / 86_400;
    ConversionIsExact(x);
    ConversionIsExact(y);
    ConversionIsIncreasing(x, y);
    ConversionIsIncreasing(y, x);
    YearNotBefore1970(x);
    YearNotBefore1970(y);
    StampsSort(CivilFromDays(x), CivilFromDays(y), a, b);
  }

  /** Twenty characters, exactly up to the year 9999. */
  lemma StampWidth(secs: nat)
    ensures |Iso(secs)| == 20 <==> CivilFromDays(secs / 86_400).year <= 9999
  {
    var t := CivilFromDays(secs / 86_400);
    ConversionIsExact(secs / 86_400);
    YearNotBefore1970(secs / 86_400);
    StampLength(t, secs);
  }

  lemma StampLength(t: Date, secs: nat)
    requires IsDate(t) && t.year >= 0
    ensures |Format(StampFields(t, secs))| == 20 <==> t.year <= 9999
  {
    Powers();
    PadWidth(t.year, 4);
    PadWidth(t.month, 2);
    PadWidth(t.day, 2);
    PadWidth(secs % 86_400 / 3600, 2);
    PadWidth(secs % 3600 / 60, 2);
    PadWidth(secs % 60, 2);
    var f := StampFields(t, secs);
    assert f[5..][1..] == [] && |Format(f[5..])| == 3;
    assert f[4..][1..] == f[5..] && |Format(f[4..])| == 6;
    assert f[3..][1..] == f[4..] && |Format(f[3..])| == 9;
    assert f[2..][1..] == f[3..] && |Format(f[2..])| == 12;
    assert f[1..][1..] == f[2..] && |Format(f[1..])| == 15;
    assert f[0..] == f;
  }

  /** Beyond, the order breaks: every stamp of the year 10000 sorts before every stamp of the year 9999. */
  lemma YearTenThousandSortsFirst(a: nat, b: nat)
    requires CivilFromDays(a / 86_400).year == 9999 && CivilFromDays(b / 86_400).year == 10_000
    ensures a < b && Less(Iso(b), Iso(a))
  {
    ConversionIsIncreasing(a / 86_400, b / 86_400);
    FirstDigits();
  }

  lemma FirstDigits()
    ensures Pad(10_000, 4)[0] == '1' && Pad(9999, 4)[0] == '9'
  {
    assert Pad(10_000, 4) == Pad(1000, 3) + ['0'] && Pad(1000, 3) == Pad(100, 2) + ['0'];
    assert Pad(100, 2) == Pad(10, 1) + ['0'] && Pad(10, 1) == Pad(1, 0) + ['0'];
    assert Pad(9999, 4) == Pad(999, 3) + ['9'] && Pad(999, 3) == Pad(99, 2) + ['9'];
    assert Pad(99, 2) == Pad(9, 1) + ['9'];
  }
}
