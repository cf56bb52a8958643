/**
 The canonical timestamp: microsecond RFC 3339 in UTC with a `Z`, always 27 characters.
 SQL compares these as text, so text order has to be time order (section 5.1 of RFC 3339).
 Instants are microseconds since the start of year 0.
 */
module Stamps {

  // ---------------------------------------------------------------------------
  // Text order
  // ---------------------------------------------------------------------------

  predicate TextLess(a: string, b: string) {
    if b == [] then false
    else if a == [] then true
    else a[0] < b[0] || (a[0] == b[0] && TextLess(a[1..], b[1..]))
  }

  predicate TextAtMost(a: string, b: string) {
    a == b || TextLess(a, b)
  }

  lemma {:induction false} TextLessConcat(a: string, b: string, x: string, y: string)
    requires |a| == |b|
    ensures TextLess(a + x, b + y) <==> TextLess(a, b) || (a == b && TextLess(x, y))
  {
    if a == [] {
      assert a + x == x && b + y == y;
    } else {
      TextLessConcat(a[1..], b[1..], x, y);
      assert (a + x)[1..] == a[1..] + x && (b + y)[1..] == b[1..] + y;
      assert a == b <==> a[0] == b[0] && a[1..] == b[1..];
    }
  }

  lemma {:induction false} TextLessIrreflexive(a: string)
    ensures !TextLess(a, a)
  {
    if a != [] {
      TextLessIrreflexive(a[1..]);
    }
  }

  // ---------------------------------------------------------------------------
  // Decimal digits
  // ---------------------------------------------------------------------------

  function Digit(d: nat): char
    requires d < 10
  {
    '0' + d as char
  }

  function Pow10(w: nat): nat {
    if w == 0 then 1 else 10 * Pow10(w - 1)
  }

  /** The last `w` decimal digits of `n`. */
  function Pad(n: nat, w: nat): (s: string)
    ensures |s| == w
  {
    if w == 0 then "" else Pad(n / 10, w - 1) + [Digit(n % 10)]
  }

  /** Two texts of equal length rank like two numbers. */
  ghost predicate Ranks(a: string, x: nat, b: string, y: nat) {
    && |a| == |b|
    && (TextLess(a, b) <==> x < y)
    && (a == b <==> x == y)
  }

  /** Appending a field below `radix` to each text appends a digit of that radix to each rank. */
  lemma RanksConcat(a: string, x: nat, b: string, y: nat, s: string, u: nat, t: string, v: nat, radix: nat)
    requires Ranks(a, x, b, y) && Ranks(s, u, t, v) && u < radix && v < radix
    ensures Ranks(a + s, x * radix + u, b + t, y * radix + v)
  {
    TextLessConcat(a, b, s, t);
    assert a + s == b + t <==> a == b && s == t by {
      assert (a + s)[..|a|] == a && (a + s)[|a|..] == s;
      assert (b + t)[..|a|] == b && (b + t)[|a|..] == t;
    }
    RadixOrder(x, y, u, v, radix);
  }

  lemma RadixOrder(x: nat, y: nat, u: nat, v: nat, radix: nat)
    requires u < radix && v < radix
    ensures x * radix + u < y * radix + v <==> x < y || (x == y && u < v)
    ensures x * radix + u == y * radix + v <==> x == y && u == v
  {
    if x < y {
      ScaledGap(x, y, radix);
    } else if y < x {
      ScaledGap(y, x, radix);
    }
  }

  lemma ScaledGap(x: nat, y: nat, radix: nat)
    requires x < y
    ensures x * radix + radix <= y * radix
  {
    assert (y - x - 1) * radix >= 0;
    assert y * radix == x * radix + radix + (y - x - 1) * radix;
  }

  /** Changing the radix of one more digit does not change how two numbers compare. */
  lemma RadixAgrees(x: nat, y: nat, p: nat, q: nat, u: nat, v: nat, r: nat, s: nat)
    requires (x < y <==> p < q) && (x == y <==> p == q)
    requires u < r && v < r && u < s && v < s
    ensures x * r + u < y * r + v <==> p * s + u < q * s + v
    ensures x * r + u == y * r + v <==> p * s + u == q * s + v
  {
    RadixOrder(x, y, u, v, r);
    RadixOrder(p, q, u, v, s);
  }

  lemma DigitRanks(d: nat, e: nat)
    requires d < 10 && e < 10
    ensures Ranks([Digit(d)], d, [Digit(e)], e)
  {
  }

  lemma {:induction false} PadRanks(n: nat, m: nat, w: nat)
    requires n < Pow10(w) && m < Pow10(w)
    ensures Ranks(Pad(n, w), n, Pad(m, w), m)
  {
    if w > 0 {
      PadRanks(n / 10, m / 10, w - 1);
      DigitRanks(n % 10, m % 10);
      RanksConcat(Pad(n / 10, w - 1), n / 10, Pad(m / 10, w - 1), m / 10,
                  [Digit(n % 10)], n % 10, [Digit(m % 10)], m % 10, 10);
    }
  }

  /** Decimal notation without padding, as `{}` prints a non-negative integer. */
  function Decimal(n: nat): (s: string)
    ensures s != []
  {
    if n < 10 then [Digit(n)] else Decimal(n / 10) + [Digit(n % 10)]
  }

  predicate IsDigit(c: char) {
    '0' <= c <= '9'
  }

  /** The number a numeral stands for, most significant digit first. */
  function ReadDecimal(s: string): nat {
    if s == [] || !IsDigit(s[|s| - 1]) then 0
    else 10 * ReadDecimal(s[..|s| - 1]) + (s[|s| - 1] as int - '0' as int)
  }

  lemma {:induction false} DecimalReads(n: nat)
    ensures ReadDecimal(Decimal(n)) == n
  {
    if n >= 10 {
      DecimalReads(n / 10);
      var s := Decimal(n / 10);
      assert (s + [Digit(n % 10)])[..|s|] == s;
    } else {
      assert Decimal(n)[..0] == [];
    }
  }

  lemma {:induction false} DecimalInjective(n: nat, m: nat)
    requires Decimal(n) == Decimal(m)
    ensures n == m
  {
    var s, t := Decimal(n), Decimal(m);
    assert s[|s| - 1] == Digit(n % 10) && t[|t| - 1] == Digit(m % 10);
    assert n % 10 == m % 10;
    if n >= 10 && m >= 10 {
      assert s[..|s| - 1] == Decimal(n / 10) && t[..|t| - 1] == Decimal(m / 10);
      DecimalInjective(n / 10, m / 10);
    } else {
      assert |s| == 1 <==> n < 10;
      assert |t| == 1 <==> m < 10;
    }
  }

  // ---------------------------------------------------------------------------
  // Calendar
  // ---------------------------------------------------------------------------

  datatype Civil = Civil(year: nat, month: nat, day: nat, hour: nat, minute: nat, second: nat, micro: nat)

  predicate IsLeap(y: nat) {
    y % 4 == 0 && (y % 100 != 0 || y % 400 == 0)
  }

  function DaysInYear(y: nat): nat {
    if IsLeap(y) then 366 else 365
  }

  function DaysInMonth(y: nat, m: nat): nat
    requires 1 <= m <= 12
  {
    if m == 2 then (if IsLeap(y) then 29 else 28)
    else if m == 4 || m == 6 || m == 9 || m == 11 then 30
    else 31
  }

  function YearStart(y: nat): nat {
    if y == 0 then 0 else YearStart(y - 1) + DaysInYear(y - 1)
  }

  function MonthStart(y: nat, m: nat): nat
    requires 1 <= m <= 13
  {
    if m == 1 then 0 else MonthStart(y, m - 1) + DaysInMonth(y, m - 1)
  }

  predicate ValidCivil(c: Civil) {
    && 1 <= c.month <= 12 && 1 <= c.day <= DaysInMonth(c.year, c.month)
    && c.hour < 24 && c.minute < 60 && c.second < 60 && c.micro < 1_000_000
  }

  function Day(c: Civil): nat
    requires ValidCivil(c)
  {
    YearStart(c.year) + MonthStart(c.year, c.month) + c.day - 1
  }

  const DAY_MICROS: nat := 86_400_000_000

  function TimeOfDay(c: Civil): nat {
    ((c.hour * 60 + c.minute) * 60 + c.second) * 1_000_000 + c.micro
  }

  lemma LeapSteps(y: nat)
    ensures (y + 4) / 4 == (y + 3) / 4 + if y % 4 == 0 then 1 else 0
    ensures (y + 100) / 100 == (y + 99) / 100 + if y % 100 == 0 then 1 else 0
    ensures (y + 400) / 400 == (y + 399) / 400 + if y % 400 == 0 then 1 else 0
  {
    DivSteps4(y);
    DivSteps100(y);
    DivSteps400(y);
  }

  lemma DivSteps4(y: nat)
    ensures (y + 4) / 4 == (y + 3) / 4 + if y % 4 == 0 then 1 else 0
  {
  }

  lemma DivSteps100(y: nat)
    ensures (y + 100) / 100 == (y + 99) / 100 + if y % 100 == 0 then 1 else 0
  {
  }

  lemma DivSteps400(y: nat)
    ensures (y + 400) / 400 == (y + 399) / 400 + if y % 400 == 0 then 1 else 0
  {
  }

  lemma MultipleOf100(k: nat)
    ensures (100 * k) % 100 == 0
  {
  }

  lemma MultipleOf4(k: nat)
    ensures (4 * k) % 4 == 0
  {
  }

  lemma CenturiesNest(y: nat)
    ensures y % 400 == 0 ==> y % 100 == 0
    ensures y % 100 == 0 ==> y % 4 == 0
  {
    MultipleOf100(4 * (y / 400));
    MultipleOf4(25 * (y / 100));
    assert y == 400 * (y / 400) + y % 400;
    assert y == 100 * (y / 100) + y % 100;
  }

  function LeapDays(y: nat): int {
    (y + 3) / 4 - (y + 99) / 100 + (y + 399) / 400
  }

  lemma LeapDaysStep(y: nat)
    ensures LeapDays(y + 1) == LeapDays(y) + if IsLeap(y) then 1 else 0
  {
    LeapSteps(y);
    CenturiesNest(y);
  }

  /** Days before a year: one more for every fourth year, but for centuries not divisible by four hundred. */
  lemma {:induction false} YearStartCounts(y: nat)
    ensures YearStart(y) == 365 * y + LeapDays(y)
  {
    if y > 0 {
      YearStartCounts(y - 1);
      LeapDaysStep(y - 1);
    }
  }

  /** The epoch of the system clock, and a day of the month lengths. */
  lemma KnownDays()
    ensures YearStart(1970) == 719_528
    ensures Day(Civil(2024, 2, 29, 0, 0, 0, 0)) + 1 == Day(Civil(2024, 3, 1, 0, 0, 0, 0))
    ensures Day(Civil(2026, 4, 20, 0, 0, 0, 0)) == YearStart(2026) + 109
  {
    YearStartCounts(1970);
    assert MonthStart(2026, 4) == MonthStart(2026, 3) + 31 == MonthStart(2026, 2) + 59 == 90;
    assert MonthStart(2024, 3) == MonthStart(2024, 2) + 29 == 60;
  }

  /** The instant a civil time names. */
  function Instant(c: Civil): nat
    requires ValidCivil(c)
  {
    Day(c) * DAY_MICROS + TimeOfDay(c)
  }

  lemma {:induction false} YearStartGrows(y: nat, z: nat)
    requires y <= z
    ensures YearStart(y) + (z - y) <= YearStart(z)
    decreases z
  {
    if y < z {
      YearStartGrows(y, z - 1);
    }
  }

  lemma {:induction false} MonthStartGrows(y: nat, m: nat, n: nat)
    requires 1 <= m <= n <= 13
    ensures MonthStart(y, m) <= MonthStart(y, n)
    decreases n
  {
    if m < n {
      MonthStartGrows(y, m, n - 1);
    }
  }

  lemma YearHasTwelveMonths(y: nat)
    ensures MonthStart(y, 13) == DaysInYear(y)
  {
    assert MonthStart(y, 3) == MonthStart(y, 2) + DaysInMonth(y, 2) == 31 + DaysInMonth(y, 2);
    assert MonthStart(y, 6) == MonthStart(y, 5) + 31 == MonthStart(y, 4) + 61 == MonthStart(y, 3) + 92;
    assert MonthStart(y, 9) == MonthStart(y, 8) + 31 == MonthStart(y, 7) + 62 == MonthStart(y, 6) + 92;
    assert MonthStart(y, 11) == MonthStart(y, 10) + 31 == MonthStart(y, 9) + 61;
    assert MonthStart(y, 13) == MonthStart(y, 12) + 31 == MonthStart(y, 11) + 61;
  }

  /** Earlier dates have smaller day numbers. */
  lemma DayGrows(c: Civil, d: Civil)
    requires ValidCivil(c) && ValidCivil(d)
    requires c.year < d.year || (c.year == d.year && (c.month < d.month || (c.month == d.month && c.day < d.day)))
    ensures Day(c) < Day(d)
  {
    assert Day(c) < YearStart(c.year) + MonthStart(c.year, c.month + 1);
    if c.year < d.year {
      MonthStartGrows(c.year, c.month + 1, 13);
      YearHasTwelveMonths(c.year);
      assert YearStart(c.year + 1) == YearStart(c.year) + DaysInYear(c.year);
      YearStartGrows(c.year + 1, d.year);
    } else if c.month < d.month {
      MonthStartGrows(c.year, c.month + 1, d.month);
    }
  }

  // ---------------------------------------------------------------------------
  // The printer
  // ---------------------------------------------------------------------------

  function CanonicalIso(c: Civil): (s: string)
    ensures |s| == 27
  {
    Pad(c.year, 4) + "-" + Pad(c.month, 2) + "-" + Pad(c.day, 2) + "T"
    + Pad(c.hour, 2) + ":" + Pad(c.minute, 2) + ":" + Pad(c.second, 2) + "." + Pad(c.micro, 6) + "Z"
  }

  lemma SampleFields()
    ensures Pad(2026, 4) == "2026" && Pad(4, 2) == "04" && Pad(20, 2) == "20" && Pad(10, 2) == "10"
    ensures Pad(45, 2) == "45" && Pad(0, 2) == "00" && Pad(123456, 6) == "123456"
  {
    assert Pad(2, 1) == "2" && Pad(20, 2) == "20" && Pad(202, 3) == "202";
    assert Pad(0, 1) == "0" && Pad(1, 1) == "1" && Pad(4, 1) == "4";
    assert Pad(12, 2) == "12" && Pad(123, 3) == "123" && Pad(1234, 4) == "1234" && Pad(12345, 5) == "12345";
  }

  /** The stamp the documentation gives as its example. */
  lemma SampleStamp()
    ensures CanonicalIso(Civil(2026, 4, 20, 10, 45, 0, 123456)) == "2026-04-20T10:45:00.123456Z"
  {
    SampleFields();
  }

  function DateRank(c: Civil): nat {
    (c.year * 100 + c.month) * 100 + c.day
  }

  function CivilRank(c: Civil): nat {
    (((DateRank(c) * 100 + c.hour) * 100 + c.minute) * 100 + c.second) * 1_000_000 + c.micro
  }

  lemma SameTail(a: string, x: nat, b: string, y: nat, mark: string)
    requires Ranks(a, x, b, y)
    ensures Ranks(a + mark, x, b + mark, y)
  {
    TextLessIrreflexive(mark);
    TextLessConcat(a, b, mark, mark);
    assert (a + mark)[..|a|] == a && (b + mark)[..|a|] == b;
  }

  lemma {:induction false} FieldRanks(a: string, x: nat, b: string, y: nat, u: nat, v: nat, w: nat, mark: string)
    requires Ranks(a, x, b, y) && u < Pow10(w) && v < Pow10(w)
    ensures Ranks(a + Pad(u, w) + mark, x * Pow10(w) + u, b + Pad(v, w) + mark, y * Pow10(w) + v)
  {
    PadRanks(u, v, w);
    RanksConcat(a, x, b, y, Pad(u, w), u, Pad(v, w), v, Pow10(w));
    SameTail(a + Pad(u, w), x * Pow10(w) + u, b + Pad(v, w), y * Pow10(w) + v, mark);
  }

  lemma Powers()
    ensures Pow10(2) == 100 && Pow10(4) == 10_000 && Pow10(6) == 1_000_000
  {
  }

  lemma DateTextRanks(c: Civil, d: Civil)
    requires ValidCivil(c) && ValidCivil(d) && c.year < 10_000 && d.year < 10_000
    ensures Ranks(Pad(c.year, 4) + "-" + Pad(c.month, 2) + "-" + Pad(c.day, 2) + "T", DateRank(c),
                  Pad(d.year, 4) + "-" + Pad(d.month, 2) + "-" + Pad(d.day, 2) + "T", DateRank(d))
  {
    Powers();
    PadRanks(c.year, d.year, 4);
    var a, b := Pad(c.year, 4), Pad(d.year, 4);
    SameTail(a, c.year, b, d.year, "-");
    FieldRanks(a + "-", c.year, b + "-", d.year, c.month, d.month, 2, "-");
    FieldRanks(a + "-" + Pad(c.month, 2) + "-", c.year * 100 + c.month,
               b + "-" + Pad(d.month, 2) + "-", d.year * 100 + d.month, c.day, d.day, 2, "T");
  }

  lemma StampRanks(c: Civil, d: Civil)
    requires ValidCivil(c) && ValidCivil(d) && c.year < 10_000 && d.year < 10_000
    ensures Ranks(CanonicalIso(c), CivilRank(c), CanonicalIso(d), CivilRank(d))
  {
    Powers();
    DateTextRanks(c, d);
    var a := Pad(c.year, 4) + "-" + Pad(c.month, 2) + "-" + Pad(c.day, 2) + "T";
    var b := Pad(d.year, 4) + "-" + Pad(d.month, 2) + "-" + Pad(d.day, 2) + "T";
    var x, y := DateRank(c), DateRank(d);
    FieldRanks(a, x, b, y, c.hour, d.hour, 2, ":");
    a, b, x, y := a + Pad(c.hour, 2) + ":", b + Pad(d.hour, 2) + ":", x * 100 + c.hour, y * 100 + d.hour;
    FieldRanks(a, x, b, y, c.minute, d.minute, 2, ":");
    a, b, x, y := a + Pad(c.minute, 2) + ":", b + Pad(d.minute, 2) + ":", x * 100 + c.minute, y * 100 + d.minute;
    FieldRanks(a, x, b, y, c.second, d.second, 2, ".");
    a, b, x, y := a + Pad(c.second, 2) + ".", b + Pad(d.second, 2) + ".", x * 100 + c.second, y * 100 + d.second;
    FieldRanks(a, x, b, y, c.micro, d.micro, 6, "Z");
  }

  /** The stamp's rank orders like (date, time of day). */
  lemma RankAgreesWithInstant(c: Civil, d: Civil)
    requires ValidCivil(c) && ValidCivil(d)
    requires (DateRank(c) < DateRank(d) <==> Day(c) < Day(d)) && (DateRank(c) == DateRank(d) <==> Day(c) == Day(d))
    ensures CivilRank(c) < CivilRank(d) <==> Instant(c) < Instant(d)
    ensures CivilRank(c) == CivilRank(d) <==> Instant(c) == Instant(d)
  {
    var x, y, p, q := DateRank(c), DateRank(d), Day(c), Day(d);
    RadixAgrees(x, y, p, q, c.hour, d.hour, 100, 24);
    x, y, p, q := x * 100 + c.hour, y * 100 + d.hour, p * 24 + c.hour, q * 24 + d.hour;
    RadixAgrees(x, y, p, q, c.minute, d.minute, 100, 60);
    x, y, p, q := x * 100 + c.minute, y * 100 + d.minute, p * 60 + c.minute, q * 60 + d.minute;
    RadixAgrees(x, y, p, q, c.second, d.second, 100, 60);
    x, y, p, q := x * 100 + c.second, y * 100 + d.second, p * 60 + c.second, q * 60 + d.second;
    RadixAgrees(x, y, p, q, c.micro, d.micro, 1_000_000, 1_000_000);
    assert p * 1_000_000 + c.micro == Instant(c) && q * 1_000_000 + d.micro == Instant(d);
  }

  lemma DateOrder(c: Civil, d: Civil)
    requires ValidCivil(c) && ValidCivil(d)
    ensures DateRank(c) < DateRank(d) <==> Day(c) < Day(d)
    ensures DateRank(c) == DateRank(d) <==> Day(c) == Day(d)
  {
    if DateRank(c) < DateRank(d) {
      DayGrows(c, d);
    } else if DateRank(d) < DateRank(c) {
      DayGrows(d, c);
    } else {
      assert c.year == d.year && c.month == d.month && c.day == d.day;
    }
  }

  /** Text order of canonical stamps is time order, for every two instants in four-digit years. */
  lemma TextOrderIsTimeOrder(c: Civil, d: Civil)
    requires ValidCivil(c) && ValidCivil(d) && c.year < 10_000 && d.year < 10_000
    ensures TextLess(CanonicalIso(c), CanonicalIso(d)) <==> Instant(c) < Instant(d)
    ensures CanonicalIso(c) == CanonicalIso(d) <==> Instant(c) == Instant(d)
  {
    StampRanks(c, d);
    DateOrder(c, d);
    RankAgreesWithInstant(c, d);
  }

  // ---------------------------------------------------------------------------
  // From instants to stamps
  // ---------------------------------------------------------------------------

  function FindYear(days: nat, y: nat): (r: nat)
    requires YearStart(y) <= days
    ensures YearStart(r) <= days < YearStart(r + 1)
    decreases days - YearStart(y)
  {
    if days < YearStart(y + 1) then y else FindYear(days, y + 1)
  }

  function FindMonth(y: nat, rest: nat, m: nat): (r: nat)
    requires 1 <= m <= 12 && MonthStart(y, m) <= rest < MonthStart(y, 13)
    ensures 1 <= r <= 12 && MonthStart(y, r) <= rest < MonthStart(y, r + 1)
    decreases 12 - m
  {
    if m == 12 || rest < MonthStart(y, m + 1) then m else FindMonth(y, rest, m + 1)
  }

  function FromInstant(t: nat): (c: Civil)
    ensures ValidCivil(c) && Instant(c) == t
  {
    var days := t / DAY_MICROS;
    var micros := t % DAY_MICROS;
    var y := FindYear(days, 0);
    YearHasTwelveMonths(y);
    var m := FindMonth(y, days - YearStart(y), 1);
    var seconds := micros / 1_000_000;
    Civil(y, m, days - YearStart(y) - MonthStart(y, m) + 1,
          seconds / 3600, seconds / 60 % 60, seconds % 60, micros % 1_000_000)
  }

  /** The first instant that no longer fits a four-digit year. */
  function EndOfStamps(): nat {
    YearStart(10_000) * DAY_MICROS
  }

  function Stamp(t: nat): (s: string)
    ensures |s| == 27
  {
    CanonicalIso(FromInstant(t))
  }

  lemma FourDigitYear(t: nat)
    requires t < EndOfStamps()
    ensures FromInstant(t).year < 10_000
  {
    var c := FromInstant(t);
    assert YearStart(c.year) <= Day(c) < YearStart(10_000);
    if c.year >= 10_000 {
      YearStartGrows(10_000, c.year);
    }
  }

  lemma StampOrder(t: nat, u: nat)
    requires t < EndOfStamps() && u < EndOfStamps()
    ensures TextAtMost(Stamp(t), Stamp(u)) <==> t <= u
    ensures Stamp(t) == Stamp(u) <==> t == u
  {
    FourDigitYear(t);
    FourDigitYear(u);
    TextOrderIsTimeOrder(FromInstant(t), FromInstant(u));
  }
}
