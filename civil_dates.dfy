/**
 * Calendar dates as integer day keys: the number of days since 1970-01-01
 * (UTC), so that the instant `new Date("YYYY-MM-DD")` denotes is the day key
 * times `MsPerDay` milliseconds.
 */
module CivilDates {
  import opened Wrappers
  import opened JsStrings

  const MsPerDay: int := 86400000

  predicate IsLeapYear(y: int) {
    y % 4 == 0 && (y % 100 != 0 || y % 400 == 0)
  }

  function DaysInMonth(y: int, m: int): (n: int)
    requires 1 <= m <= 12
    ensures 28 <= n <= 31
  {
    if m == 2 then (if IsLeapYear(y) then 29 else 28)
    else if m == 4 || m == 6 || m == 9 || m == 11 then 30
    else 31
  }

  /** The day key of year `y`, month `m` (1-12), day `d` of the proleptic Gregorian calendar. */
  function DayKey(y: int, m: int, d: int): (r: int)
    requires 1 <= m <= 12
    ensures y == 1970 && m == 1 && d == 1 ==> r == 0
  {
    var y' := if m <= 2 then y - 1 else y;
    var era := y' / 400;
    var yoe := y' - era * 400;
    var mp := if m > 2 then m - 3 else m + 9;
    var doy := (153 * mp + 2) / 5 + d - 1;
    var doe := yoe * 365 + yoe / 4 - yoe / 100 + doy;
    era * 146097 + doe - 719468
  }

  /** Consecutive days of a month have consecutive keys. */
  lemma DayKeyNextDay(y: int, m: int, d: int)
    requires 1 <= m <= 12
    ensures DayKey(y, m, d + 1) == DayKey(y, m, d) + 1
  {
  }

  /** The key of March 1 of year `y`, which opens the computation's year. */
  function MarchFirst(y: int): int {
    var era := y / 400;
    var yoe := y - era * 400;
    era * 146097 + yoe * 365 + yoe / 4 - yoe / 100 - 719468
  }

  /** A day key counts on from the March 1 that opens its year. */
  lemma DayKeyFromMarch(y: int, m: int, d: int)
    requires 1 <= m <= 12
    ensures DayKey(y, m, d) == MarchFirst(if m <= 2 then y - 1 else y)
      + (153 * (if m > 2 then m - 3 else m + 9) + 2) / 5 + d - 1
  {
  }

  /** Within an era, the next year adds a leap day exactly on multiples of 4 that are not multiples of 100. */
  lemma YearOfEraSucc(yoe: int)
    requires 0 <= yoe < 399
    ensures (yoe + 1) / 4 == yoe / 4 + (if (yoe + 1) % 4 == 0 then 1 else 0)
    ensures (yoe + 1) / 100 == yoe / 100 + (if (yoe + 1) % 100 == 0 then 1 else 0)
  {
  }

  /** Year `y` is year `yoe` of era `era`; the year after it is the next year of that era, or the first of the next era. */
  lemma EraSucc(y: int, era: int, yoe: int)
    requires era == y / 400 && yoe == y - era * 400
    ensures 0 <= yoe < 400
    ensures yoe < 399 ==> (y + 1) / 400 == era && (y + 1) % 400 == yoe + 1
    ensures yoe < 399 ==> (y + 1) % 4 == (yoe + 1) % 4 && (y + 1) % 100 == (yoe + 1) % 100
    ensures yoe == 399 ==> (y + 1) / 400 == era + 1 && (y + 1) % 400 == 0 && (y + 1) % 4 == 0
  {
    assert y == era * 400 + yoe;
    if yoe < 399 {
      ModOfMultiplePlus(era * 100, 4, yoe + 1);
      ModOfMultiplePlus(era * 4, 100, yoe + 1);
      assert y + 1 == (era * 100) * 4 + (yoe + 1);
      assert y + 1 == (era * 4) * 100 + (yoe + 1);
    } else {
      ModOfMultiplePlus((era + 1) * 100, 4, 0);
      assert y + 1 == ((era + 1) * 100) * 4 + 0;
    }
  }

  /** March 1 of the next year comes 365 days later, or 366 when February of that year has a 29th. */
  lemma {:induction false} MarchFirstNext(y: int)
    ensures MarchFirst(y + 1) == MarchFirst(y) + (if IsLeapYear(y + 1) then 366 else 365)
  {
    var era := y / 400;
    var yoe := y - era * 400;
    EraSucc(y, era, yoe);
    if yoe < 399 {
      YearOfEraSucc(yoe);
    }
  }

  /** The day after the last of a month is the first of the next month, December running on into January. */
  lemma DayKeyMonthEnd(y: int, m: int)
    requires 1 <= m <= 12
    ensures m < 12 ==> DayKey(y, m, DaysInMonth(y, m)) + 1 == DayKey(y, m + 1, 1)
    ensures m == 12 ==> DayKey(y, 12, 31) + 1 == DayKey(y + 1, 1, 1)
  {
    if m == 2 {
      FebruaryEnd(y);
    } else if m == 12 {
      DecemberEnd(y);
    } else {
      MonthEndWithinYear(y, m);
    }
  }

  /** The day after December 31 is January 1 of the next year. */
  lemma DecemberEnd(y: int)
    ensures DayKey(y, 12, 31) + 1 == DayKey(y + 1, 1, 1)
  {
    DayKeyFromMarch(y, 12, 31);
    DayKeyFromMarch(y + 1, 1, 1);
  }

  /** Months other than February and December run on into the next month of the same computation year. */
  lemma MonthEndWithinYear(y: int, m: int)
    requires 1 <= m < 12 && m != 2
    ensures DayKey(y, m, DaysInMonth(y, m)) + 1 == DayKey(y, m + 1, 1)
  {
    DayKeyFromMarch(y, m, DaysInMonth(y, m));
    DayKeyFromMarch(y, m + 1, 1);
  }

  /** The day after February's last is March 1, leap year or not. */
  lemma FebruaryEnd(y: int)
    ensures DayKey(y, 2, DaysInMonth(y, 2)) + 1 == DayKey(y, 3, 1)
  {
    DayKeyFromMarch(y, 2, DaysInMonth(y, 2));
    DayKeyFromMarch(y, 3, 1);
    MarchFirstNext(y - 1);
  }

  /** A day number past either end of the month counts on from its first day, as `new Date(y, m, d)` does. */
  lemma DayKeyShift(y: int, m: int, d: int)
    requires 1 <= m <= 12
    ensures DayKey(y, m, d) == DayKey(y, m, 1) + d - 1
  {
  }

  /** The day of the week of a day key, Sunday 0 to Saturday 6 (1970-01-01 was a Thursday). */
  function Weekday(day: int): (w: int)
    ensures 0 <= w < 7
  {
    (day + 4) % 7
  }

  /** Moving on by whole weeks keeps the remainder. */
  lemma ModOfMultiplePlus(q: int, n: int, a: int)
    requires n > 0
    ensures (q * n + a) % n == a % n
  {
    var x := q * n + a;
    var k := x / n - q - a / n;
    assert x == (x / n) * n + x % n;
    assert a == (a / n) * n + a % n;
    assert k * n == a % n - x % n;
  }

  /** `new Date(a) >= new Date(now)` for a date at day key `day`: the day starts at or after the instant `now` (ms). */
  predicate IsUpcoming(day: int, now: int): (b: bool)
    ensures b <==> day >= (now + MsPerDay - 1) / MsPerDay
  {
    day * MsPerDay >= now
  }

  /** A date-only ISO text `YYYY-MM-DD` with a real month and day, as `new Date(text)` accepts it. */
  function ParseIsoDate(text: string): (r: Option<int>)
    ensures r.Some? ==> |text| == 10 && text[4] == '-' && text[7] == '-'
  {
    if |text| == 10 && text[4] == '-' && text[7] == '-'
       && AllDigits(text[..4]) && AllDigits(text[5..7]) && AllDigits(text[8..])
    then
      var y := DigitsValue(text[..4]);
      var m := DigitsValue(text[5..7]);
      var d := DigitsValue(text[8..]);
      if 1 <= m <= 12 && 1 <= d <= DaysInMonth(y, m) then Some(DayKey(y, m, d)) else None
    else None
  }

  /** The day key of a date text that the parser accepts; an unparseable text is an invalid date. */
  predicate IsUpcomingText(text: string, now: int): (b: bool)
    ensures b ==> ParseIsoDate(text).Some?
  {
    match ParseIsoDate(text)
    case Some(day) => IsUpcoming(day, now)
    case None => false
  }

  /** `n` written with exactly `width` digits, zero-padded. */
  function PadDigits(n: nat, width: nat): (s: string)
    ensures |s| == width && AllDigits(s)
    decreases width
  {
    if width == 0 then "" else PadDigits(n / 10, width - 1) + [DigitChar(n % 10)]
  }

  lemma {:induction false} PadDigitsValue(n: nat, width: nat)
    ensures DigitsValue(PadDigits(n, width)) == n % Pow10(width)
    decreases width
  {
    if width > 0 {
      var s := PadDigits(n, width);
      assert s[..|s| - 1] == PadDigits(n / 10, width - 1);
      PadDigitsValue(n / 10, width - 1);
      DivModPow10(n, width - 1);
    }
  }

  function Pow10(k: nat): (p: nat)
    ensures p >= 1
  {
    if k == 0 then 1 else 10 * Pow10(k - 1)
  }

  lemma DivModPow10(n: nat, k: nat)
    ensures (n / 10) % Pow10(k) * 10 + n % 10 == n % Pow10(k + 1)
  {
    var p := Pow10(k);
    var q := n / 10;
    var a := q / p;
    var b := q % p;
    assert q == a * p + b;
    assert n == (a * p + b) * 10 + n % 10;
    assert n == a * (10 * p) + (b * 10 + n % 10);
    assert 0 <= b * 10 + n % 10 < 10 * p;
    assert Pow10(k + 1) == 10 * p;
    LemmaModUnique(n, 10 * p, a, b * 10 + n % 10);
  }

  lemma LemmaModUnique(n: nat, d: nat, q: int, r: int)
    requires d > 0 && 0 <= r < d && n == q * d + r
    ensures n % d == r
  {
    var q' := n / d;
    var r' := n % d;
    var k := q - q';
    assert k * d == r' - r;
  }

  /** The ISO text `YYYY-MM-DD` of a date with a four-digit year. */
  function IsoDate(y: nat, m: nat, d: nat): string
    requires y <= 9999 && 1 <= m <= 12 && 1 <= d <= DaysInMonth(y, m)
  {
    PadDigits(y, 4) + "-" + PadDigits(m, 2) + "-" + PadDigits(d, 2)
  }

  /** Parsing the ISO text of a date gives that date's day key. */
  lemma ParseIsoDateOfIsoDate(y: nat, m: nat, d: nat)
    requires y <= 9999 && 1 <= m <= 12 && 1 <= d <= DaysInMonth(y, m)
    ensures ParseIsoDate(IsoDate(y, m, d)) == Some(DayKey(y, m, d))
  {
    IsoDateFields(y, m, d);
    PadDigitsOfYear(y);
    PadDigitsOfTwo(m);
    PadDigitsOfTwo(d);
  }

  /** A year below 10000 reads back from its four digits. */
  lemma PadDigitsOfYear(y: nat)
    requires y <= 9999
    ensures DigitsValue(PadDigits(y, 4)) == y
  {
    PadDigitsValue(y, 4);
    assert Pow10(4) == 10000 by {
      assert Pow10(2) == 100;
    }
  }

  /** A month or day below 100 reads back from its two digits. */
  lemma PadDigitsOfTwo(n: nat)
    requires n <= 99
    ensures DigitsValue(PadDigits(n, 2)) == n
  {
    PadDigitsValue(n, 2);
    assert Pow10(2) == 100;
  }

  lemma IsoDateFields(y: nat, m: nat, d: nat)
    requires y <= 9999 && 1 <= m <= 12 && 1 <= d <= DaysInMonth(y, m)
    ensures var t := IsoDate(y, m, d);
      |t| == 10 && t[4] == '-' && t[7] == '-'
      && t[..4] == PadDigits(y, 4) && t[5..7] == PadDigits(m, 2) && t[8..] == PadDigits(d, 2)
  {
  }
}
