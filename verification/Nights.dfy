/** The night count of `hold`: calendar days between two instants, from UTC date parts.
    Time arithmetic follows section 21.4.1 of ECMA-262, for instants from 1970 on. */
module Nights {
  import opened BookingTypes

  const MS_PER_DAY: nat := 86_400_000

  function Day(t: Instant): nat { t / MS_PER_DAY }

  /** A day is 86 400 000 milliseconds. */
  lemma DaysAreWhole(t: Instant)
    ensures Day(t) * 86_400_000 <= t < (Day(t) + 1) * 86_400_000
  {}

  predicate LeapYear(y: nat) {
    y % 4 == 0 && (y % 100 != 0 || y % 400 == 0)
  }

  function DaysInYear(y: nat): nat {
    if LeapYear(y) then 366 else 365
  }

  function DayFromYear(y: nat): int
    requires y >= 1970
  {
    365 * (y - 1970) + (y - 1969) / 4 - (y - 1901) / 100 + (y - 1601) / 400
  }

  lemma YearLength(y: nat)
    requires y >= 1970
    ensures DayFromYear(y + 1) == DayFromYear(y) + DaysInYear(y)
  {
    FourYears(y);
    Centuries(y);
    FourCenturies(y);
    EveryFourHundredth(y);
    EveryHundredth(y);
  }

  lemma EveryFourHundredth(y: nat)
    ensures y % 400 == 0 ==> y % 100 == 0
  {
    if y % 400 == 0 {
      assert y == 100 * (4 * (y / 400));
      Multiple(4 * (y / 400), 100);
    }
  }

  lemma Multiple(k: nat, d: nat)
    requires d > 0
    ensures d * k % d == 0
  {
    RoundDown(d * k, d, k);
  }

  /** A number has only one quotient. */
  lemma RoundDown(n: nat, d: nat, k: nat)
    requires d > 0 && n == d * k
    ensures n / d == k && n % d == 0
  {
    var q := n / d;
    assert d * k == d * q + n % d;
    assert d * (k - q) == n % d;
    MultiplesAreApart(k - q, d);
    assert (k - q) * d == d * (k - q);
  }

  lemma EveryHundredth(y: nat)
    ensures y % 100 == 0 ==> y % 4 == 0
  {
    if y % 100 == 0 {
      assert y == 4 * (25 * (y / 100));
      Multiple(25 * (y / 100), 4);
    }
  }

  lemma FourYears(y: nat)
    requires y >= 1970
    ensures (y + 1 - 1969) / 4 == (y - 1969) / 4 + (if y % 4 == 0 then 1 else 0)
  {}

  lemma Centuries(y: nat)
    requires y >= 1970
    ensures (y + 1 - 1901) / 100 == (y - 1901) / 100 + (if y % 100 == 0 then 1 else 0)
  {}

  lemma FourCenturies(y: nat)
    requires y >= 1970
    ensures (y + 1 - 1601) / 400 == (y - 1601) / 400 + (if y % 400 == 0 then 1 else 0)
  {}

  lemma {:induction false} YearsAreOrdered(y: nat, z: nat)
    requires 1970 <= y <= z
    ensures DayFromYear(y) + (z - y) <= DayFromYear(z)
    decreases z
  {
    if y < z {
      YearLength(z - 1);
      YearsAreOrdered(y, z - 1);
    }
  }

  /** The year a day falls in: the largest one that does not start after it. */
  function YearFromDay(d: nat): (y: nat)
    ensures y >= 1970 && DayFromYear(y) <= d < DayFromYear(y) + DaysInYear(y)
  {
    SearchYear(d, 1970)
  }

  function SearchYear(d: nat, from: nat): (y: nat)
    requires from >= 1970 && DayFromYear(from) <= d
    ensures y >= from && DayFromYear(y) <= d < DayFromYear(y) + DaysInYear(y)
    decreases d - DayFromYear(from)
  {
    YearLength(from);
    if d < DayFromYear(from + 1) then from else SearchYear(d, from + 1)
  }

  lemma YearIsUnique(d: nat, y: nat)
    requires y >= 1970 && DayFromYear(y) <= d < DayFromYear(y) + DaysInYear(y)
    ensures YearFromDay(d) == y
  {
    LaterYearsStartLater(y, YearFromDay(d));
    LaterYearsStartLater(YearFromDay(d), y);
  }

  lemma LaterYearsStartLater(y: nat, z: nat)
    requires y >= 1970 && z >= 1970
    ensures y < z ==> DayFromYear(y) + DaysInYear(y) <= DayFromYear(z)
  {
    YearLength(y);
    if y < z {
      YearsAreOrdered(y + 1, z);
    }
  }

  /** The day of the year on which a month begins, months counted from zero. */
  function MonthStart(m: nat, leap: bool): nat
    requires m <= 12
  {
    if m == 0 then 0 else MonthStart(m - 1, leap) + MonthLength(m - 1, leap)
  }

  function MonthLength(m: nat, leap: bool): nat
    requires m < 12
  {
    if m == 1 then (if leap then 29 else 28)
    else if m in {3, 5, 8, 10} then 30
    else 31
  }

  lemma MonthsFillTheYear(leap: bool)
    ensures MonthStart(12, leap) == if leap then 366 else 365
  {
    assert MonthStart(1, leap) == 31;
    assert MonthStart(2, leap) == 31 + MonthLength(1, leap);
    assert MonthStart(4, leap) == MonthStart(2, leap) + 61;
    assert MonthStart(6, leap) == MonthStart(4, leap) + 61;
    assert MonthStart(8, leap) == MonthStart(6, leap) + 62;
    assert MonthStart(10, leap) == MonthStart(8, leap) + 61;
    assert MonthStart(12, leap) == MonthStart(10, leap) + 61;
  }

  lemma {:induction false} MonthsAreOrdered(m: nat, n: nat, leap: bool)
    requires m <= n <= 12
    ensures MonthStart(m, leap) + (n - m) <= MonthStart(n, leap)
    decreases n
  {
    if m < n {
      MonthsAreOrdered(m, n - 1, leap);
    }
  }

  /** The month a day of the year falls in. */
  function SearchMonth(day: nat, from: nat, leap: bool): (m: nat)
    requires from < 12 && MonthStart(from, leap) <= day < MonthStart(12, leap)
    ensures m < 12 && MonthStart(m, leap) <= day < MonthStart(m + 1, leap)
    decreases 12 - from
  {
    if day < MonthStart(from + 1, leap) then from else SearchMonth(day, from + 1, leap)
  }

  function DayWithinYear(d: nat): (day: nat)
    ensures day < MonthStart(12, LeapYear(YearFromDay(d)))
  {
    MonthsFillTheYear(LeapYear(YearFromDay(d)));
    d - DayFromYear(YearFromDay(d))
  }

  function MonthFromDay(d: nat): (m: nat)
    ensures m < 12
  {
    SearchMonth(DayWithinYear(d), 0, LeapYear(YearFromDay(d)))
  }

  function DateFromDay(d: nat): int {
    DayWithinYear(d) - MonthStart(MonthFromDay(d), LeapYear(YearFromDay(d))) + 1
  }

  /** `MakeDay` for a month in range: the day on which that month starts, plus the date. */
  function MakeDay(y: nat, m: nat, date: int): int
    requires y >= 1970 && m < 12
  {
    DayFromYear(y) + MonthStart(m, LeapYear(y)) + date - 1
  }

  lemma MonthIsUnique(day: nat, m: nat, leap: bool)
    requires m < 12 && MonthStart(m, leap) <= day < MonthStart(m + 1, leap) && day < MonthStart(12, leap)
    ensures SearchMonth(day, 0, leap) == m
  {
    LaterMonthsStartLater(m, SearchMonth(day, 0, leap), leap);
    LaterMonthsStartLater(SearchMonth(day, 0, leap), m, leap);
  }

  lemma LaterMonthsStartLater(m: nat, n: nat, leap: bool)
    requires m < 12 && n < 12
    ensures m < n ==> MonthStart(m + 1, leap) <= MonthStart(n, leap)
  {
    if m < n {
      MonthsAreOrdered(m + 1, n, leap);
    }
  }

  lemma OffsetWithinYear(y: nat, m: nat)
    requires y >= 1970 && m < 12
    ensures MonthStart(m, LeapYear(y)) < MonthStart(m + 1, LeapYear(y)) <= DaysInYear(y)
    ensures MonthStart(12, LeapYear(y)) == DaysInYear(y)
    ensures DayFromYear(y) >= 0
  {
    MonthsFillTheYear(LeapYear(y));
    MonthsAreOrdered(m + 1, 12, LeapYear(y));
    YearsAreOrdered(1970, y);
  }

  lemma PartsOfDay(d: nat, y: nat, m: nat, offset: nat)
    requires y >= 1970 && m < 12 && d == DayFromYear(y) + offset
    requires MonthStart(m, LeapYear(y)) <= offset < MonthStart(m + 1, LeapYear(y)) <= DaysInYear(y)
    requires MonthStart(12, LeapYear(y)) == DaysInYear(y)
    ensures YearFromDay(d) == y && DayWithinYear(d) == offset && MonthFromDay(d) == m
  {
    YearIsUnique(d, y);
    MonthIsUnique(offset, m, LeapYear(y));
  }

  /** `MakeDay` finds the day the standard asks for: first of the given month of the given year. */
  lemma MakeDayMeetsTheStandard(y: nat, m: nat)
    requires y >= 1970 && m < 12
    ensures MakeDay(y, m, 1) >= 0
    ensures YearFromDay(MakeDay(y, m, 1)) == y
    ensures MonthFromDay(MakeDay(y, m, 1)) == m
    ensures DateFromDay(MakeDay(y, m, 1)) == 1
  {
    OffsetWithinYear(y, m);
    PartsOfDay(MakeDay(y, m, 1), y, m, MonthStart(m, LeapYear(y)));
  }

  /** The day `Date.UTC` rebuilds from the year, month and date of an instant. */
  function UtcDay(t: Instant): int {
    MakeDay(YearFromDay(Day(t)), MonthFromDay(Day(t)), DateFromDay(Day(t)))
  }

  /** Taking an instant apart into UTC date parts and rebuilding it floors it to its day. */
  lemma DatePartsRoundTrip(t: Instant)
    ensures UtcDay(t) == Day(t)
    ensures UtcDay(t) * MS_PER_DAY <= t < (UtcDay(t) + 1) * MS_PER_DAY
  {}

  /** `Math.round(n / d)`: half rounds up. */
  function RoundedQuotient(n: int, d: nat): int
    requires d > 0
  {
    (2 * n + d) / (2 * d)
  }

  /** Two UTC midnights apart, in days. */
  function MidnightsApart(from: int, to: int): int {
    RoundedQuotient(to * MS_PER_DAY - from * MS_PER_DAY, MS_PER_DAY)
  }

  function Nights(checkIn: Instant, checkOut: Instant): int {
    MidnightsApart(UtcDay(checkIn), UtcDay(checkOut))
  }

  lemma RoundingIsExact(k: int, d: nat)
    requires d > 0
    ensures RoundedQuotient(k * d, d) == k
  {
    var n, q := 2 * (k * d) + d, RoundedQuotient(k * d, d);
    assert n == (2 * d) * q + n % (2 * d);
    MultiplesAreApart(q - k, 2 * d);
    assert (q - k) * (2 * d) == q * (2 * d) - k * (2 * d);
  }

  lemma MultiplesAreApart(k: int, d: nat)
    ensures k >= 1 ==> k * d >= d
    ensures k <= -1 ==> k * d <= -(d as int)
  {}

  lemma RoundedDays(a: int, b: int)
    ensures MidnightsApart(a, b) == b - a
  {
    RoundingIsExact(b - a, MS_PER_DAY);
  }

  lemma DayIsMonotone(a: Instant, b: Instant)
    requires a <= b
    ensures Day(a) <= Day(b)
  {}

  /** Nights are a difference of day numbers: the rounding never has anything to round. */
  lemma NightsAreDays(checkIn: Instant, checkOut: Instant)
    ensures Nights(checkIn, checkOut) == Day(checkOut) - Day(checkIn)
    ensures checkIn <= checkOut ==> Nights(checkIn, checkOut) >= 0
  {
    DatePartsRoundTrip(checkIn);
    DatePartsRoundTrip(checkOut);
    RoundedDays(UtcDay(checkIn), UtcDay(checkOut));
    if checkIn <= checkOut {
      DayIsMonotone(checkIn, checkOut);
    }
  }

  /** Back-to-back stays cost exactly what one long stay costs. */
  lemma NightsAddUp(a: Instant, b: Instant, c: Instant)
    ensures Nights(a, b) + Nights(b, c) == Nights(a, c)
  {
    NightsAreDays(a, b);
    NightsAreDays(b, c);
    NightsAreDays(a, c);
  }

  /** The count is within one day of the elapsed time, either way. */
  lemma NightsTrackElapsedTime(checkIn: Instant, checkOut: Instant)
    ensures -(MS_PER_DAY as int) < Nights(checkIn, checkOut) * MS_PER_DAY - (checkOut - checkIn) < MS_PER_DAY
  {
    NightsAreDays(checkIn, checkOut);
  }

  lemma ProductIsZero(n: int, price: nat)
    ensures n * price == 0 <==> n == 0 || price == 0
  {}

  /** A stay inside one UTC day has no nights, so it is free however long it runs. */
  lemma FreeExactlyWithinOneDay(checkIn: Instant, checkOut: Instant, nightlyPriceCents: nat)
    requires checkIn < checkOut
    ensures Nights(checkIn, checkOut) * nightlyPriceCents == 0
            <==> Day(checkIn) == Day(checkOut) || nightlyPriceCents == 0
  {
    NightsAreDays(checkIn, checkOut);
    ProductIsZero(Nights(checkIn, checkOut), nightlyPriceCents);
  }

  function NightCount(checkIn: Instant, checkOut: Instant): nat
    requires checkIn <= checkOut
  {
    NightsAreDays(checkIn, checkOut);
    Nights(checkIn, checkOut)
  }

  function Cents(nights: nat, nightlyPriceCents: nat): nat {
    nights * nightlyPriceCents
  }

  /** The price `hold` stores: nights times the listing's nightly price. */
  function PriceTotal(checkIn: Instant, checkOut: Instant, nightlyPriceCents: nat): nat
    requires checkIn <= checkOut
  {
    Cents(NightCount(checkIn, checkOut), nightlyPriceCents)
  }

  /** Which is the difference of the day numbers times that price. */
  lemma PriceIsDays(checkIn: Instant, checkOut: Instant, nightlyPriceCents: nat)
    requires checkIn <= checkOut
    ensures Day(checkIn) <= Day(checkOut)
    ensures PriceTotal(checkIn, checkOut, nightlyPriceCents) == (Day(checkOut) - Day(checkIn)) * nightlyPriceCents
  {
    NightsAreDays(checkIn, checkOut);
    assert NightCount(checkIn, checkOut) == Day(checkOut) - Day(checkIn);
  }

  lemma NextDay(a: Instant, b: Instant)
    requires b == a + MS_PER_DAY
    ensures Day(b) == Day(a) + 1
  {}

  lemma OneNight(nights: int, nightlyPriceCents: nat)
    requires nights == 1
    ensures nights * nightlyPriceCents == nightlyPriceCents
  {}

  /** One day later, one night's price. */
  lemma OneNightCosts(checkIn: Instant, checkOut: Instant, nightlyPriceCents: nat)
    requires checkOut == checkIn + MS_PER_DAY
    ensures PriceTotal(checkIn, checkOut, nightlyPriceCents) == nightlyPriceCents
  {
    NextDay(checkIn, checkOut);
    PriceIsDays(checkIn, checkOut, nightlyPriceCents);
    OneNight(Day(checkOut) - Day(checkIn), nightlyPriceCents);
  }
}
