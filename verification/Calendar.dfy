/**
 The month a timestamp falls in, computed without a calendar library, against a calendar that
 simply counts days month by month from January 1970 with the leap-year rule of Appendix C of
 RFC 3339.
 */
module Calendar {

  /** Month(0, 0) stands for timestamps at or before the epoch. */
  datatype Month = Month(year: nat, month: nat)

  const BEFORE_EPOCH := Month(0, 0)

  // ----- the calendar -----

  predicate IsLeap(year: nat) {
    year % 4 == 0 && (year % 100 != 0 || year % 400 == 0)
  }

  predicate IsMonth(m: Month) {
    m.year >= 1970 && 1 <= m.month <= 12
  }

  function DaysIn(m: Month): nat
    requires 1 <= m.month <= 12
  {
    if m.month == 2 then if IsLeap(m.year) then 29 else 28
    else if m.month == 4 || m.month == 6 || m.month == 9 || m.month == 11 then 30
    else 31
  }

  function After(m: Month): Month {
    if m.month == 12 then Month(m.year + 1, 1) else Month(m.year, m.month + 1)
  }

  function Before(m: Month): Month
    requires m.year > 0 && m.month >= 1
  {
    if m.month == 1 then Month(m.year - 1, 12) else Month(m.year, m.month - 1)
  }

  function Index(m: Month): nat {
    m.year * 12 + m.month
  }

  /** The number of days from 1 January 1970 to the first of the month. */
  function FirstDay(m: Month): nat
    requires IsMonth(m)
    decreases Index(m)
  {
    if m == Month(1970, 1) then 0 else FirstDay(Before(m)) + DaysIn(Before(m))
  }

  predicate Contains(m: Month, day: nat)
    requires IsMonth(m)
  {
    FirstDay(m) <= day < FirstDay(After(m))
  }

  // ----- the computation -----

  function DayOf(ts: nat): nat {
    ts / 1000 / 86400
  }

  function YearOfEra(doe: int): int {
    (doe - doe / 1460 + doe / 36524 - doe / 146096) / 365
  }

  /** The month from a day count: eras of 400 years that begin on 1 March. */
  function MonthFromDays(days: int): Month
    requires days >= 0
  {
    var z := days + 719468;
    var era := (if z >= 0 then z else z - 146096) / 146097;
    var doe := z - era * 146097;
    var yoe := YearOfEra(doe);
    var y := yoe + era * 400;
    var doy := doe - (365 * yoe + yoe / 4 - yoe / 100);
    var mp := (5 * doy + 2) / 153;
    var month := if mp < 10 then mp + 3 else mp - 9;
    SplitYear(z, era, doe, yoe);
    SplitMonth(doy);
    Month(if month <= 2 then y + 1 else y, month)
  }

  function YmdMonth(ts: int): Month {
    if ts <= 0 then BEFORE_EPOCH else MonthFromDays(DayOf(ts))
  }

  // ----- years that begin in March -----

  /** Days from 1 March of year 0 to 1 March of year `n`. */
  function MarchFirst(n: nat): nat {
    365 * n + n / 4 - n / 100 + n / 400
  }

  /** Counting up, a quotient steps exactly at the multiples of its divisor. */
  lemma QuotientStep(n: nat, d: nat)
    requires d > 0
    ensures (n + 1) / d == n / d + if (n + 1) % d == 0 then 1 else 0
  {
    var q, r := n / d, n % d;
    assert n == q * d + r;
    if r + 1 < d {
      Division(n + 1, d, q, r + 1);
    } else {
      assert (q + 1) * d == q * d + d;
      Division(n + 1, d, q + 1, 0);
    }
  }

  lemma NestedMultiples(n: nat)
    ensures n % 100 == 0 ==> n % 4 == 0
    ensures n % 400 == 0 ==> n % 100 == 0
  {
    if n % 100 == 0 {
      Division(n, 4, 25 * (n / 100), 0);
    }
    if n % 400 == 0 {
      Division(n, 100, 4 * (n / 400), 0);
    }
  }

  lemma MarchYear(n: nat)
    ensures MarchFirst(n + 1) == MarchFirst(n) + if IsLeap(n + 1) then 366 else 365
  {
    QuotientStep(n, 4);
    QuotientStep(n, 100);
    QuotientStep(n, 400);
    NestedMultiples(n + 1);
  }

  lemma TimesMonotone(a: nat, b: nat, d: nat)
    ensures a <= b ==> a * d <= b * d
  {
  }

  lemma Division(x: nat, d: nat, q: nat, r: nat)
    requires d > 0 && x == q * d + r && r < d
    ensures x / d == q && x % d == r
  {
    var k := x / d;
    assert x == k * d + x % d;
    TimesMonotone(k + 1, q, d);
    TimesMonotone(q + 1, k, d);
  }

  /** A day of a 400-year era split into centuries, four-year cycles, years and days. The last day
      of a leap year, or of the era, is the one that does not fit the even division. */
  lemma SplitEra(doe: nat) returns (c: nat, a: nat, b: nat, doy: nat)
    requires doe <= 146096
    ensures doe == 36524 * c + 1461 * a + 365 * b + doy
    ensures c <= 3 && a <= 24 && b <= 3 && doy <= 365
    ensures doy == 365 ==> b == 3 && (a < 24 || c == 3)
  {
    c := if doe == 146096 then 3 else doe / 36524;
    var r := doe - 36524 * c;
    a := r / 1461;
    var q := r - 1461 * a;
    b := if q == 1460 then 3 else q / 365;
    doy := q - 365 * b;
  }

  lemma YearOfEraIs(doe: nat, c: nat, a: nat, b: nat, doy: nat)
    requires doe <= 146096
    requires doe == 36524 * c + 1461 * a + 365 * b + doy
    requires c <= 3 && a <= 24 && b <= 3 && doy <= 365
    requires doy == 365 ==> b == 3 && (a < 24 || c == 3)
    ensures YearOfEra(doe) == 100 * c + 4 * a + b
  {
    var extra := 24 * c + a + 365 * b + doy;
    assert doe == 1460 * (25 * c + a) + extra;
    Quotient(doe, 1460, 25 * c + a + if extra >= 1460 then 1 else 0);
    Quotient(doe, 36524, c + if doe == 146096 then 1 else 0);
    Quotient(doe, 146096, if doe == 146096 then 1 else 0);
    Quotient(doe - doe / 1460 + doe / 36524 - doe / 146096, 365, 100 * c + 4 * a + b);
  }

  lemma Quotient(x: nat, d: nat, q: nat)
    requires d > 0 && q * d <= x < q * d + d
    ensures x / d == q
  {
    Division(x, d, q, x - q * d);
  }

  lemma MarchOfEra(era: nat, c: nat, a: nat, b: nat)
    requires c <= 3 && a <= 24 && b <= 3
    ensures var k := 100 * c + 4 * a + b;
            && k / 4 == 25 * c + a && k / 100 == c
            && MarchFirst(400 * era + k) == 146097 * era + 36524 * c + 1461 * a + 365 * b
  {
    var k := 100 * c + 4 * a + b;
    var n := 400 * era + k;
    Division(k, 4, 25 * c + a, b);
    Division(k, 100, c, 4 * a + b);
    Division(n, 4, 100 * era + 25 * c + a, b);
    Division(n, 100, 4 * era + c, 4 * a + b);
    Division(n, 400, era, k);
  }

  lemma SplitYear(z: nat, era: nat, doe: nat, yoe: int)
    requires era == z / 146097 && doe == z - era * 146097 && yoe == YearOfEra(doe)
    ensures 0 <= yoe <= 399
    ensures var n := yoe + era * 400;
            var doy := doe - (365 * yoe + yoe / 4 - yoe / 100);
            z == MarchFirst(n) + doy && 0 <= doy <= 365 && (doy == 365 ==> IsLeap(n + 1))
  {
    var c, a, b, doy := SplitEra(doe);
    YearOfEraIs(doe, c, a, b, doy);
    MarchOfEra(era, c, a, b);
    if doy == 365 {
      LeapAtEnd(yoe + era * 400, era, c, a);
    }
  }

  lemma LeapAtEnd(n: nat, era: nat, c: nat, a: nat)
    requires n == 400 * era + 100 * c + 4 * a + 3
    requires c <= 3 && a <= 24 && (a < 24 || c == 3)
    ensures IsLeap(n + 1)
  {
    Division(n + 1, 4, 100 * era + 25 * c + a + 1, 0);
    if a < 24 {
      Division(n + 1, 100, 4 * era + c, 4 * (a + 1));
    } else {
      Division(n + 1, 400, era + 1, 0);
    }
  }

  // ----- months that begin with March -----

  function MonthStart(mp: nat): nat {
    (153 * mp + 2) / 5
  }

  lemma SplitMonth(doy: nat)
    requires doy <= 365
    ensures var mp := (5 * doy + 2) / 153;
            mp <= 11 && MonthStart(mp) <= doy && (mp < 11 ==> doy < MonthStart(mp + 1))
  {
  }

  function MarchYearOf(m: Month): int {
    if m.month <= 2 then m.year - 1 else m.year
  }

  function MarchMonthOf(m: Month): int {
    if m.month <= 2 then m.month + 9 else m.month - 3
  }

  /** The first of the month in closed form. */
  function ClosedFirst(m: Month): int
    requires IsMonth(m)
  {
    MarchFirst(MarchYearOf(m)) + MonthStart(MarchMonthOf(m)) - 719468
  }

  lemma MonthLength(mp: nat)
    requires mp <= 10
    ensures MonthStart(mp + 1) == MonthStart(mp) + if mp == 1 || mp == 3 || mp == 6 || mp == 8 then 30 else 31
  {
  }

  lemma ClosedStep(m: Month)
    requires IsMonth(m)
    ensures ClosedFirst(After(m)) == ClosedFirst(m) + DaysIn(m)
  {
    if m.month == 2 {
      MarchYear(m.year - 1);
      assert MonthStart(11) == 337 && MonthStart(0) == 0;
    } else {
      assert MarchYearOf(After(m)) == MarchYearOf(m) && MarchMonthOf(After(m)) == MarchMonthOf(m) + 1;
      MonthLength(MarchMonthOf(m));
    }
  }

  /** Counting months one by one agrees with the closed form. */
  lemma {:induction false} FirstDayClosed(m: Month)
    requires IsMonth(m)
    ensures FirstDay(m) == ClosedFirst(m)
    decreases Index(m)
  {
    if m == Month(1970, 1) {
    } else {
      FirstDayClosed(Before(m));
      ClosedStep(Before(m));
      assert After(Before(m)) == m;
    }
  }

  lemma InMonth(days: nat, n: nat, doy: nat, mp: nat, m: Month)
    requires days + 719468 == MarchFirst(n) + doy && doy <= 365 && (doy == 365 ==> IsLeap(n + 1))
    requires mp <= 11 && MonthStart(mp) <= doy && (mp < 11 ==> doy < MonthStart(mp + 1))
    requires m.month == (if mp < 10 then mp + 3 else mp - 9) && m.year == (if m.month <= 2 then n + 1 else n)
    ensures IsMonth(m) && Contains(m, days)
  {
    YearAtLeast(n, doy);
    MarchYear(n);
    assert IsMonth(m) by {
      if n == 1969 {
        assert mp >= 10;
      }
    }
    FirstDayClosed(m);
    FirstDayClosed(After(m));
  }

  lemma YearAtLeast(n: nat, doy: nat)
    requires MarchFirst(n) + doy >= 719468 && doy <= 365
    ensures n >= 1969 && (n == 1969 ==> doy >= 306)
  {
  }

  // ----- what the month means -----

  lemma {:induction false} LaterMonthsStartLater(a: Month, b: Month)
    requires IsMonth(a) && IsMonth(b) && Index(a) < Index(b)
    ensures FirstDay(After(a)) <= FirstDay(b)
    decreases Index(b)
  {
    if After(a) == b {
    } else {
      LaterMonthsStartLater(a, Before(b));
    }
  }

  /** A day lies in exactly one month. */
  lemma MonthIsUnique(a: Month, b: Month, day: nat)
    requires IsMonth(a) && IsMonth(b) && Contains(a, day) && Contains(b, day)
    ensures a == b
  {
    if Index(a) < Index(b) {
      LaterMonthsStartLater(a, b);
    } else if Index(b) < Index(a) {
      LaterMonthsStartLater(b, a);
    } else {
      assert a.year == b.year;
    }
  }

  lemma DaysSplit(days: nat) returns (n: nat, doy: nat, mp: nat)
    ensures days + 719468 == MarchFirst(n) + doy && doy <= 365 && (doy == 365 ==> IsLeap(n + 1))
    ensures mp <= 11 && MonthStart(mp) <= doy && (mp < 11 ==> doy < MonthStart(mp + 1))
    ensures var m := MonthFromDays(days);
            m.month == (if mp < 10 then mp + 3 else mp - 9) && m.year == (if m.month <= 2 then n + 1 else n)
  {
    var z := days + 719468;
    var era := z / 146097;
    var doe := z - era * 146097;
    var yoe := YearOfEra(doe);
    SplitYear(z, era, doe, yoe);
    n, doy := yoe + era * 400, doe - (365 * yoe + yoe / 4 - yoe / 100);
    mp := (5 * doy + 2) / 153;
    SplitMonth(doy);
  }

  /** The computed month is a month of the calendar and the day lies in it. */
  lemma MonthContainsDay(days: nat)
    ensures IsMonth(MonthFromDays(days)) && Contains(MonthFromDays(days), days)
  {
    var n, doy, mp := DaysSplit(days);
    InMonth(days, n, doy, mp, MonthFromDays(days));
  }

  /** The month of a timestamp after the epoch is the one and only month its day lies in. */
  lemma YmdMonthIsTheMonth(ts: int, m: Month)
    requires ts > 0
    ensures IsMonth(m) && Contains(m, DayOf(ts)) <==> m == YmdMonth(ts)
  {
    MonthContainsDay(DayOf(ts));
    if IsMonth(m) && Contains(m, DayOf(ts)) {
      MonthIsUnique(m, YmdMonth(ts), DayOf(ts));
    }
  }

  lemma DayIsMonotone(a: nat, b: nat)
    requires a <= b
    ensures DayOf(a) <= DayOf(b)
  {
  }

  /** Later timestamps never fall in earlier months. */
  lemma MonthIsMonotone(ts: int, later: int)
    requires ts <= later
    ensures Index(YmdMonth(ts)) <= Index(YmdMonth(later))
  {
    if ts > 0 {
      DayIsMonotone(ts, later);
      MonthContainsDay(DayOf(ts));
      MonthContainsDay(DayOf(later));
      if Index(YmdMonth(later)) < Index(YmdMonth(ts)) {
        LaterMonthsStartLater(YmdMonth(later), YmdMonth(ts));
      }
    }
  }
}
