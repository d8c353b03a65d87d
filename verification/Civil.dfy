/** Timestamps to calendar dates: the civil-from-days arithmetic against the Gregorian calendar. */
module Civil {
  import opened Money
  import opened Radix

  datatype DateTime = DateTime(year: int, month: int, day: int, hour: int, minute: int, second: int)

  // ----- the calendar -----

  predicate Leap(y: int) {
    y % 4 == 0 && (y % 100 != 0 || y % 400 == 0)
  }

  function YearLength(y: int): int {
    if Leap(y) then 366 else 365
  }

  function MonthLength(y: int, m: int): int {
    if m == 2 then (if Leap(y) then 29 else 28)
    else if m == 4 || m == 6 || m == 9 || m == 11 then 30
    else 31
  }

  /** Days from 1 January of year 0 to 1 January of year y; every fourth, not every hundredth, every 400th year is long. */
  function DaysBeforeYear(y: int): int {
    365 * y + (y - 1) / 4 - (y - 1) / 100 + (y - 1) / 400
  }

  function DaysBeforeMonth(y: int, m: nat): int
    requires m >= 1
  {
    if m == 1 then 0 else DaysBeforeMonth(y, m - 1) + MonthLength(y, m - 1)
  }

  predicate ValidDate(y: int, m: int, d: int) {
    1 <= m <= 12 && 1 <= d <= MonthLength(y, m)
  }

  /** Days since 1 January 1970. */
  function DayNumber(y: int, m: int, d: int): int
    requires 1 <= m
  {
    DaysBeforeYear(y) + DaysBeforeMonth(y, m) + (d - 1) - DaysBeforeYear(1970)
  }

  /** The leap-year rule and the day count agree, year by year. */
  lemma YearAfterYear(y: int)
    ensures DaysBeforeYear(y + 1) == DaysBeforeYear(y) + YearLength(y)
  {
    DivStep(y, 4);
    DivStep(y, 100);
    DivStep(y, 400);
    Multiples(y);
  }

  /** Every 400th year is a 100th, every 100th a fourth. */
  lemma Multiples(y: int)
    ensures y % 400 == 0 ==> y % 100 == 0
    ensures y % 100 == 0 ==> y % 4 == 0
  {
    var a, b := y / 400, y / 100;
    if y % 400 == 0 {
      assert y == 100 * (4 * a);
      assert b == 4 * a;
    }
    if y % 100 == 0 {
      assert y == 4 * (25 * b);
      assert y / 4 == 25 * b;
    }
  }

  lemma DivStep(y: int, n: int)
    requires n == 4 || n == 100 || n == 400
    ensures y / n == (y - 1) / n + if y % n == 0 then 1 else 0
  {
  }

  // ----- the conversion -----

  datatype Date = Date(year: int, month: int, day: int)

  /** The range of `days` that a 64-bit millisecond count can give. */
  type Days = x: int | -106_751_991_168 <= x <= 106_751_991_167

  /** Every named intermediate value fits 64 bits: the lets are typed so. Divisions with a floor are Euclidean, by positive numbers. */
  function DateOf(days: Days): Date {
    var z: Int64 := days + 719_468;
    var era: Int64 := z / 146_097;
    var doe: Int64 := z % 146_097;
    var yoe: Int64 := YearOfEra(doe);
    var y: Int64 := yoe + era * 400;
    var doy: Int64 := doe - (365 * yoe + yoe / 4 - yoe / 100);
    var mp: Int64 := (5 * doy + 2) / 153;
    var d: Int64 := doy - (153 * mp + 2) / 5 + 1;
    var m: Int64 := if mp < 10 then mp + 3 else mp - 9;
    Date(if m <= 2 then y + 1 else y, m, d)
  }

  function CivilOf(ms: Int64): DateTime {
    var secs: Int64 := ms / 1000;
    var days: Days := secs / 86_400;
    var sod: Int64 := secs % 86_400;
    var date := DateOf(days);
    DateTime(date.year, date.month, date.day, sod / 3600, sod % 3600 / 60, sod % 60)
  }

  function YearOfEra(doe: int): int {
    (doe - doe / 1460 + doe / 36_524 - doe / 146_096) / 365
  }

  /** Whole seconds since the epoch, rounded down. */
  function Seconds(ms: Int64): int {
    ms / 1000
  }

  // ----- the year of the era -----

  /** Days of the era before year k of the era, counting years from 1 March. */
  function DaysBeforeYoe(k: int): int {
    365 * k + k / 4 - k / 100
  }

  /** Centuries, then four-year cycles, then years: the formula finds the right one. */
  lemma YearInCentury(c: int, q: int, s: int)
    requires 0 <= c <= 3 && 0 <= q <= 24 && 0 <= s <= 1460 && 1461 * q + s < 36_524
    ensures var doe, t := 36_524 * c + 1461 * q + s, if s == 1460 then 3 else s / 365;
            YearOfEra(doe) == 100 * c + 4 * q + t && DaysBeforeYoe(100 * c + 4 * q + t) == 36_524 * c + 1461 * q + 365 * t
  {
    var doe := 36_524 * c + 1461 * q + s;
    assert doe / 36_524 == c && doe / 146_096 == 0;
    var e := if 24 * c + q + s >= 1460 then 1 else 0;
    assert doe == 1460 * (25 * c + q + e) + (24 * c + q + s - 1460 * e);
    assert doe / 1460 == 25 * c + q + e;
    var t := if s == 1460 then 3 else s / 365;
    assert doe - doe / 1460 + c == 365 * (100 * c + 4 * q) + (s - e);
    assert (s - e) / 365 == t;
    assert (100 * c + 4 * q + t) / 4 == 25 * c + q && (100 * c + 4 * q + t) / 100 == c;
  }

  /** The day of the year counted from 1 March is in range; 29 February, the 366th, only where there is one. */
  lemma YearOfEraCorrect(doe: int)
    requires 0 <= doe < 146_097
    ensures var yoe := YearOfEra(doe);
            && 0 <= yoe < 400
            && 0 <= doe - DaysBeforeYoe(yoe) <= 365
            && (doe - DaysBeforeYoe(yoe) == 365 ==> Leap(yoe + 1))
  {
    if doe == 146_096 {
      assert YearOfEra(doe) == 399;
    } else {
      var c, r := doe / 36_524, doe % 36_524;
      assert 0 <= c <= 3 && doe == 36_524 * c + r;
      var q, s := r / 1461, r % 1461;
      assert 0 <= q <= 24 && r == 1461 * q + s;
      YearInCentury(c, q, s);
      var t := if s == 1460 then 3 else s / 365;
      var yoe := 100 * c + 4 * q + t;
      if s == 1460 {
        assert q < 24;
        LastOfCycle(c, q);
      }
    }
  }

  /** The 366th day belongs to the fourth year of a cycle, and to a century's last cycle never. */
  lemma LastOfCycle(c: int, q: int)
    requires 0 <= c <= 3 && 0 <= q < 24
    ensures Leap(100 * c + 4 * q + 4)
  {
    var y := 100 * c + 4 * q + 4;
    assert y == 4 * (25 * c + q + 1);
    assert y == 100 * c + (4 * q + 4) && 0 < 4 * q + 4 < 100;
  }

  // ----- months -----

  /** Days from 1 March to the first of the mp-th month after it. */
  function DaysBeforeMp(mp: int): int {
    (153 * mp + 2) / 5
  }

  lemma MonthTable()
    ensures DaysBeforeMp(0) == 0 && DaysBeforeMp(1) == 31 && DaysBeforeMp(2) == 61 && DaysBeforeMp(3) == 92
    ensures DaysBeforeMp(4) == 122 && DaysBeforeMp(5) == 153 && DaysBeforeMp(6) == 184 && DaysBeforeMp(7) == 214
    ensures DaysBeforeMp(8) == 245 && DaysBeforeMp(9) == 275 && DaysBeforeMp(10) == 306 && DaysBeforeMp(11) == 337
  {
  }

  lemma MonthOfDay(doy: int)
    requires 0 <= doy <= 365
    ensures var mp := (5 * doy + 2) / 153;
            0 <= mp <= 11 && DaysBeforeMp(mp) <= doy && (mp < 11 ==> doy < DaysBeforeMp(mp + 1))
  {
  }

  lemma MonthSums(y: int)
    ensures DaysBeforeMonth(y, 1) == 0 && DaysBeforeMonth(y, 2) == 31
    ensures var n := DaysBeforeMonth(y, 3);
            && n == (if Leap(y) then 60 else 59)
            && DaysBeforeMonth(y, 4) == n + 31 && DaysBeforeMonth(y, 5) == n + 61 && DaysBeforeMonth(y, 6) == n + 92
            && DaysBeforeMonth(y, 7) == n + 122 && DaysBeforeMonth(y, 8) == n + 153 && DaysBeforeMonth(y, 9) == n + 184
            && DaysBeforeMonth(y, 10) == n + 214 && DaysBeforeMonth(y, 11) == n + 245 && DaysBeforeMonth(y, 12) == n + 275
  {
    var n := DaysBeforeMonth(y, 3);
    assert DaysBeforeMonth(y, 4) == n + 31;
    assert DaysBeforeMonth(y, 5) == n + 61;
    assert DaysBeforeMonth(y, 6) == n + 92;
    assert DaysBeforeMonth(y, 7) == n + 122;
    assert DaysBeforeMonth(y, 8) == n + 153;
    assert DaysBeforeMonth(y, 9) == n + 184;
    assert DaysBeforeMonth(y, 10) == n + 214;
    assert DaysBeforeMonth(y, 11) == n + 245;
  }

  /** 1 March of year y, in days since the epoch. */
  function MarchFirst(y: int): int {
    DayNumber(y, 3, 1)
  }

  lemma MarchFirstIs(yoe: int, era: int)
    requires 0 <= yoe < 400
    ensures MarchFirst(yoe + era * 400) == era * 146_097 + DaysBeforeYoe(yoe) - 719_468
  {
    var y := yoe + era * 400;
    MarchFirstClosed(y);
    SameRemainder(yoe, era, 4, 100);
    SameRemainder(yoe, era, 100, 4);
    SameRemainder(yoe, era, 400, 1);
  }

  lemma MarchFirstClosed(y: int)
    ensures MarchFirst(y) == 365 * y + y / 4 - y / 100 + y / 400 - 719_468
  {
    assert DaysBeforeMonth(y, 2) == 31;
    assert DaysBeforeMonth(y, 3) == if Leap(y) then 60 else 59;
    DivStep(y, 4);
    DivStep(y, 100);
    DivStep(y, 400);
    Multiples(y);
  }

  /** The date `doy` days after 1 March of year y. */
  function InMarchYear(y: int, doy: int): Date {
    var mp := (5 * doy + 2) / 153;
    var m := if mp < 10 then mp + 3 else mp - 9;
    Date(if m <= 2 then y + 1 else y, m, doy - DaysBeforeMp(mp) + 1)
  }

  /** A day counted from 1 March falls on the date the month arithmetic names. */
  lemma MarchYear(y: int, doy: int)
    requires 0 <= doy <= 365 && (doy == 365 ==> Leap(y + 1))
    ensures var t := InMarchYear(y, doy);
            ValidDate(t.year, t.month, t.day) && DayNumber(t.year, t.month, t.day) == MarchFirst(y) + doy
  {
    MonthTable();
    MonthOfDay(doy);
    MonthSums(y);
    MonthSums(y + 1);
    YearAfterYear(y);
  }

  lemma DateCorrect(days: Days)
    ensures var t := DateOf(days);
            ValidDate(t.year, t.month, t.day) && DayNumber(t.year, t.month, t.day) == days
  {
    var z := days + 719_468;
    var era, doe := z / 146_097, z % 146_097;
    YearOfEraCorrect(doe);
    var yoe := YearOfEra(doe);
    var y, doy := yoe + era * 400, doe - DaysBeforeYoe(yoe);
    assert DateOf(days) == InMarchYear(y, doy);
    MarchFirstIs(yoe, era);
    LeapShift(yoe + 1, era);
    MarchYear(y, doy);
  }

  lemma LeapShift(y: int, era: int)
    ensures Leap(y + era * 400) == Leap(y)
  {
    SameRemainder(y, era, 4, 100);
    SameRemainder(y, era, 100, 4);
    SameRemainder(y, era, 400, 1);
  }

  lemma SameRemainder(y: int, era: int, n: int, k: int)
    requires (n == 4 && k == 100) || (n == 100 && k == 4) || (n == 400 && k == 1)
    ensures (y + era * 400) % n == y % n && (y + era * 400) / n == y / n + k * era
  {
    var q, r := y / n, y % n;
    assert y + era * 400 == n * (q + k * era) + r;
    assert (y + era * 400) / n == q + k * era;
  }

  lemma TimeOfDay(sod: int)
    requires 0 <= sod < 86_400
    ensures var h, m, s := sod / 3600, sod % 3600 / 60, sod % 60;
            0 <= h < 24 && 0 <= m < 60 && 0 <= s < 60 && sod == 3600 * h + 60 * m + s
  {
  }

  /** Every timestamp gets the one proleptic Gregorian date of its day, and its time of day. */
  lemma CivilCorrect(ms: Int64)
    ensures var t := CivilOf(ms);
            && ValidDate(t.year, t.month, t.day)
            && 0 <= t.hour < 24 && 0 <= t.minute < 60 && 0 <= t.second < 60
            && Seconds(ms) == 86_400 * DayNumber(t.year, t.month, t.day) + 3600 * t.hour + 60 * t.minute + t.second
  {
    var secs := ms / 1000;
    DateCorrect(secs / 86_400);
    TimeOfDay(secs % 86_400);
  }

  // ----- order -----

  predicate Earlier(a: DateTime, b: DateTime) {
    a.year < b.year || (a.year == b.year &&
    (a.month < b.month || (a.month == b.month &&
    (a.day < b.day || (a.day == b.day &&
    (a.hour < b.hour || (a.hour == b.hour &&
    (a.minute < b.minute || (a.minute == b.minute &&
     a.second < b.second)))))))))
  }

  lemma {:induction false} YearsGrow(a: int, b: int)
    requires a <= b
    ensures DaysBeforeYear(a) <= DaysBeforeYear(b)
    decreases b - a
  {
    if a < b {
      YearsGrow(a, b - 1);
      YearAfterYear(b - 1);
    }
  }

  lemma {:induction false} MonthsGrow(y: int, a: nat, b: nat)
    requires 1 <= a <= b
    ensures DaysBeforeMonth(y, a) <= DaysBeforeMonth(y, b)
    decreases b
  {
    if a < b {
      MonthsGrow(y, a, b - 1);
    }
  }

  /** A date within its year. */
  lemma WithinYear(y: int, m: int, d: int)
    requires ValidDate(y, m, d)
    ensures DaysBeforeYear(y) <= DaysBeforeYear(y) + DaysBeforeMonth(y, m) + d - 1 < DaysBeforeYear(y + 1)
  {
    MonthSums(y);
    MonthsGrow(y, 1, m);
    MonthsGrow(y, m + 1, 13);
    YearAfterYear(y);
  }

  /** Later dates have later day numbers. */
  lemma DatesOrder(y: int, m: int, d: int, y': int, m': int, d': int)
    requires ValidDate(y, m, d) && ValidDate(y', m', d')
    requires y < y' || (y == y' && (m < m' || (m == m' && d < d')))
    ensures DayNumber(y, m, d) < DayNumber(y', m', d')
  {
    if y < y' {
      WithinYear(y, m, d);
      WithinYear(y', m', d');
      YearsGrow(y + 1, y');
    } else if m < m' {
      MonthsGrow(y, m + 1, m');
    }
  }

  lemma EarlierIsLess(a: DateTime, b: DateTime, sa: int, sb: int)
    requires ValidDate(a.year, a.month, a.day) && ValidDate(b.year, b.month, b.day)
    requires 0 <= a.hour < 24 && 0 <= a.minute < 60 && 0 <= a.second < 60
    requires 0 <= b.hour < 24 && 0 <= b.minute < 60 && 0 <= b.second < 60
    requires sa == 86_400 * DayNumber(a.year, a.month, a.day) + 3600 * a.hour + 60 * a.minute + a.second
    requires sb == 86_400 * DayNumber(b.year, b.month, b.day) + 3600 * b.hour + 60 * b.minute + b.second
    requires Earlier(a, b)
    ensures sa < sb
  {
    if (a.year, a.month, a.day) != (b.year, b.month, b.day) {
      DatesOrder(a.year, a.month, a.day, b.year, b.month, b.day);
    }
  }

  /** The printed fields order timestamps exactly by whole seconds. */
  lemma CivilOrder(ms: Int64, ms': Int64)
    ensures Earlier(CivilOf(ms), CivilOf(ms')) <==> Seconds(ms) < Seconds(ms')
    ensures CivilOf(ms) == CivilOf(ms') <==> Seconds(ms) == Seconds(ms')
  {
    var a, b := CivilOf(ms), CivilOf(ms');
    CivilCorrect(ms);
    CivilCorrect(ms');
    if Earlier(a, b) {
      EarlierIsLess(a, b, Seconds(ms), Seconds(ms'));
    } else if Earlier(b, a) {
      EarlierIsLess(b, a, Seconds(ms'), Seconds(ms));
    } else {
      assert a == b;
    }
  }

  // ----- the printed form -----

  /** The year in at least four characters, a sign included; other fields in two digits. */
  function Year(y: int): string {
    if y < 0 then "-" + Padded(-y, 3) else Padded(y, 4)
  }

  predicate Natural(t: DateTime) {
    0 <= t.month && 0 <= t.day && 0 <= t.hour && 0 <= t.minute && 0 <= t.second
  }

  function Clock(t: DateTime): string
    requires Natural(t)
  {
    Padded(t.hour, 2) + (":" + (Padded(t.minute, 2) + (":" + (Padded(t.second, 2) + "Z"))))
  }

  function AfterYear(t: DateTime): string
    requires Natural(t)
  {
    "-" + (Padded(t.month, 2) + ("-" + (Padded(t.day, 2) + ("T" + Clock(t)))))
  }

  function Iso(t: DateTime): string
    requires Natural(t)
  {
    Year(t.year) + AfterYear(t)
  }

  function MillisToIso(ms: Int64): string {
    CivilCorrect(ms);
    Iso(CivilOf(ms))
  }

  predicate InYears(t: DateTime) {
    && 0 <= t.year <= 9999 && 0 <= t.month < 100 && 0 <= t.day < 100
    && 0 <= t.hour < 100 && 0 <= t.minute < 100 && 0 <= t.second < 100
  }

  /** One two-digit field and what follows it. */
  lemma FieldFirst(m: nat, n: nat, width: nat, x: string, y: string)
    requires 1 <= width && Fits(m, 10, width) && Fits(n, 10, width)
    ensures StringLess(Padded(m, width) + x, Padded(n, width) + y) <==> m < n || (m == n && StringLess(x, y))
  {
    PaddedOrder(m, n, width);
    FieldOrder(Padded(m, width), Padded(n, width), x, y);
  }

  lemma TwoDigits(n: nat)
    requires n < 100
    ensures Fits(n, 10, 2)
  {
    assert Fits(n / 10, 10, 1);
  }

  lemma FourDigits(n: nat)
    requires n < 10_000
    ensures Fits(n, 10, 4)
  {
    assert Fits(n / 10 / 10 / 10, 10, 1);
    assert Fits(n / 10 / 10, 10, 2);
    assert Fits(n / 10, 10, 3);
  }

  lemma TwoFirst(m: nat, n: nat, x: string, y: string)
    requires m < 100 && n < 100
    ensures StringLess(Padded(m, 2) + x, Padded(n, 2) + y) <==> m < n || (m == n && StringLess(x, y))
  {
    TwoDigits(m);
    TwoDigits(n);
    FieldFirst(m, n, 2, x, y);
  }

  lemma SameMark(c: string, x: string, y: string)
    requires |c| == 1
    ensures StringLess(c + x, c + y) <==> StringLess(x, y)
  {
    assert (c + x)[1..] == x && (c + y)[1..] == y;
  }

  lemma ClockOrder(a: DateTime, b: DateTime)
    requires InYears(a) && InYears(b)
    ensures StringLess(Clock(a), Clock(b)) <==>
            a.hour < b.hour || (a.hour == b.hour && (a.minute < b.minute || (a.minute == b.minute && a.second < b.second)))
  {
    TwoFirst(a.second, b.second, "Z", "Z");
    SameMark("Z", "", "");
    SameMark(":", Padded(a.second, 2) + "Z", Padded(b.second, 2) + "Z");
    TwoFirst(a.minute, b.minute, ":" + (Padded(a.second, 2) + "Z"), ":" + (Padded(b.second, 2) + "Z"));
    SameMark(":", Padded(a.minute, 2) + (":" + (Padded(a.second, 2) + "Z")),
             Padded(b.minute, 2) + (":" + (Padded(b.second, 2) + "Z")));
    TwoFirst(a.hour, b.hour, ":" + (Padded(a.minute, 2) + (":" + (Padded(a.second, 2) + "Z"))),
             ":" + (Padded(b.minute, 2) + (":" + (Padded(b.second, 2) + "Z"))));
  }

  lemma AfterYearOrder(a: DateTime, b: DateTime)
    requires InYears(a) && InYears(b)
    ensures StringLess(AfterYear(a), AfterYear(b)) <==>
            a.month < b.month || (a.month == b.month && (a.day < b.day || (a.day == b.day && StringLess(Clock(a), Clock(b)))))
  {
    var x, y := "T" + Clock(a), "T" + Clock(b);
    SameMark("T", Clock(a), Clock(b));
    TwoFirst(a.day, b.day, x, y);
    SameMark("-", Padded(a.day, 2) + x, Padded(b.day, 2) + y);
    TwoFirst(a.month, b.month, "-" + (Padded(a.day, 2) + x), "-" + (Padded(b.day, 2) + y));
    SameMark("-", Padded(a.month, 2) + ("-" + (Padded(a.day, 2) + x)), Padded(b.month, 2) + ("-" + (Padded(b.day, 2) + y)));
  }

  lemma IsoOrder(a: DateTime, b: DateTime)
    requires InYears(a) && InYears(b)
    ensures StringLess(Iso(a), Iso(b)) <==> Earlier(a, b)
  {
    FourDigits(a.year);
    FourDigits(b.year);
    FieldFirst(a.year, b.year, 4, AfterYear(a), AfterYear(b));
    AfterYearOrder(a, b);
    ClockOrder(a, b);
  }

  /** Digits where section 5.6 of RFC 3339 wants digits, marks where it wants marks. */
  predicate DateTimeForm(s: string) {
    && |s| == 20
    && s[4] == '-' && s[7] == '-' && s[10] == 'T' && s[13] == ':' && s[16] == ':' && s[19] == 'Z'
    && (forall i :: 0 <= i < 20 && i !in {4, 7, 10, 13, 16, 19} ==> '0' <= s[i] <= '9')
  }

  predicate AllDigits(s: string) {
    forall i :: 0 <= i < |s| ==> '0' <= s[i] <= '9'
  }

  lemma FieldsForm(y: string, m: string, d: string, h: string, mi: string, s: string)
    requires |y| == 4 && |m| == 2 && |d| == 2 && |h| == 2 && |mi| == 2 && |s| == 2
    requires AllDigits(y) && AllDigits(m) && AllDigits(d) && AllDigits(h) && AllDigits(mi) && AllDigits(s)
    ensures DateTimeForm(y + ("-" + (m + ("-" + (d + ("T" + (h + (":" + (mi + (":" + (s + "Z")))))))))))
  {
    var clock := h + (":" + (mi + (":" + (s + "Z"))));
    assert |clock| == 9 && clock[2] == ':' && clock[5] == ':' && clock[8] == 'Z';
    assert forall i :: 0 <= i < 9 && i !in {2, 5, 8} ==> '0' <= clock[i] <= '9';
    var rest := "-" + (m + ("-" + (d + ("T" + clock))));
    assert |rest| == 16 && rest[0] == '-' && rest[3] == '-' && rest[6] == 'T' && rest[7..] == clock;
    assert forall i :: 0 <= i < 7 && i !in {0, 3, 6} ==> '0' <= rest[i] <= '9';
    assert forall i :: 7 <= i < 16 ==> rest[i] == clock[i - 7];
    var all := y + rest;
    assert forall i :: 4 <= i < 20 ==> all[i] == rest[i - 4];
  }

  lemma IsoForm(t: DateTime)
    requires InYears(t)
    ensures DateTimeForm(Iso(t))
  {
    FourDigits(t.year);
    PaddedWidth(t.year, 4);
    PairForm(t.month);
    PairForm(t.day);
    PairForm(t.hour);
    PairForm(t.minute);
    PairForm(t.second);
    FieldsForm(Padded(t.year, 4), Padded(t.month, 2), Padded(t.day, 2), Padded(t.hour, 2), Padded(t.minute, 2),
               Padded(t.second, 2));
  }

  lemma PairForm(n: nat)
    requires n < 100
    ensures |Padded(n, 2)| == 2 && AllDigits(Padded(n, 2))
  {
    TwoDigits(n);
    PaddedWidth(n, 2);
  }

  /** 0000-01-01T00:00:00Z and the first millisecond of year 10000. */
  const YEAR_ZERO: int := -62_167_219_200_000
  const YEAR_TEN_THOUSAND: int := 253_402_300_800_000

  lemma YearBounds()
    ensures DayNumber(0, 1, 1) == -719_528 && DayNumber(10_000, 1, 1) == 2_932_897
  {
    assert DaysBeforeYear(0) == -1 && DaysBeforeYear(1970) == 719_527 && DaysBeforeYear(10_000) == 3_652_424;
  }

  /** The timestamps with a four-digit year. */
  lemma FourDigitYears(ms: Int64)
    ensures 0 <= CivilOf(ms).year <= 9999 <==> YEAR_ZERO <= ms < YEAR_TEN_THOUSAND
  {
    var t := CivilOf(ms);
    CivilCorrect(ms);
    YearBounds();
    var n := DayNumber(t.year, t.month, t.day);
    if t.year < 0 {
      DatesOrder(t.year, t.month, t.day, 0, 1, 1);
    } else if (t.year, t.month, t.day) != (0, 1, 1) {
      DatesOrder(0, 1, 1, t.year, t.month, t.day);
    }
    if t.year < 10_000 {
      DatesOrder(t.year, t.month, t.day, 10_000, 1, 1);
    } else if (t.year, t.month, t.day) != (10_000, 1, 1) {
      DatesOrder(10_000, 1, 1, t.year, t.month, t.day);
    }
    assert 0 <= t.year <= 9999 <==> -719_528 <= n < 2_932_897;
    assert 86_400 * n <= Seconds(ms) < 86_400 * (n + 1);
  }

  /** For years 0 to 9999 the strings have the RFC 3339 form and sort as the timestamps do. */
  lemma StringsSortChronologically(ms: Int64, ms': Int64)
    requires YEAR_ZERO <= ms < YEAR_TEN_THOUSAND && YEAR_ZERO <= ms' < YEAR_TEN_THOUSAND
    ensures DateTimeForm(MillisToIso(ms))
    ensures StringLess(MillisToIso(ms), MillisToIso(ms')) <==> Seconds(ms) < Seconds(ms')
  {
    CivilCorrect(ms);
    CivilCorrect(ms');
    FourDigitYears(ms);
    FourDigitYears(ms');
    IsoForm(CivilOf(ms));
    IsoOrder(CivilOf(ms), CivilOf(ms'));
    CivilOrder(ms, ms');
  }
}
