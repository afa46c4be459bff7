// Day keys as the store holds them: the date of a UTC day printed as YYYY-MM-DD.
// The printed form is one-to-one and its string order is the order of days, so the
// rest of the model may key rows by the number of the day.
module Calendar {
  import opened Events
  import opened Queries

  // ---------- The Gregorian calendar from year 0 ----------

  datatype Date = Date(year: nat, month: nat, day: nat)

  predicate Leap(y: nat) {
    y % 4 == 0 && (y % 100 != 0 || y % 400 == 0)
  }

  function MonthDays(y: nat, m: nat): nat {
    if m == 2 then (if Leap(y) then 29 else 28)
    else if m == 4 || m == 6 || m == 9 || m == 11 then 30
    else 31
  }

  predicate IsDate(d: Date) {
    1 <= d.month <= 12 && 1 <= d.day <= MonthDays(d.year, d.month)
  }

  predicate DateLess(a: Date, b: Date) {
    || a.year < b.year
    || (a.year == b.year && (a.month < b.month || (a.month == b.month && a.day < b.day)))
  }

  function Next(d: Date): (n: Date)
    requires IsDate(d)
    ensures IsDate(n)
  {
    if d.day < MonthDays(d.year, d.month) then d.(day := d.day + 1)
    else if d.month < 12 then Date(d.year, d.month + 1, 1)
    else Date(d.year + 1, 1, 1)
  }

  // The n-th date after 0000-01-01.
  function Nth(n: nat): (d: Date)
    ensures IsDate(d)
  {
    if n == 0 then Date(0, 1, 1) else Next(Nth(n - 1))
  }

  const EPOCH := 719_528
  const DAYS_TO_10000 := 3_652_425

  // The days whose year has at most four digits.
  predicate Printable(day: Day) {
    -EPOCH <= day < DAYS_TO_10000 - EPOCH
  }

  function DateOf(day: Day): Date
    requires Printable(day)
  {
    Nth(day + EPOCH)
  }

  // ---------- Counting days in closed form ----------

  // The multiples of k below y.
  function MultiplesBelow(y: nat, k: nat): nat
    requires k > 0
  {
    (y + k - 1) / k
  }

  function BeforeYear(y: nat): int {
    365 * y + MultiplesBelow(y, 4) - MultiplesBelow(y, 100) + MultiplesBelow(y, 400)
  }

  function BeforeMonth(y: nat, m: nat): nat {
    if m <= 1 then 0 else BeforeMonth(y, m - 1) + MonthDays(y, m - 1)
  }

  function Number(d: Date): int
    requires IsDate(d)
  {
    BeforeYear(d.year) + BeforeMonth(d.year, d.month) + d.day - 1
  }

  lemma MonthsMakeYear(y: nat)
    ensures BeforeMonth(y, 12) + 31 == if Leap(y) then 366 else 365
  {
    assert BeforeMonth(y, 3) == BeforeMonth(y, 2) + MonthDays(y, 2) && BeforeMonth(y, 2) == 31;
    assert BeforeMonth(y, 6) == BeforeMonth(y, 5) + 31 && BeforeMonth(y, 5) == BeforeMonth(y, 4) + 30
           && BeforeMonth(y, 4) == BeforeMonth(y, 3) + 31;
    assert BeforeMonth(y, 9) == BeforeMonth(y, 8) + 31 && BeforeMonth(y, 8) == BeforeMonth(y, 7) + 31
           && BeforeMonth(y, 7) == BeforeMonth(y, 6) + 30;
    assert BeforeMonth(y, 12) == BeforeMonth(y, 11) + 30 && BeforeMonth(y, 11) == BeforeMonth(y, 10) + 31
           && BeforeMonth(y, 10) == BeforeMonth(y, 9) + 30;
  }

  lemma FoursPassed(y: nat)
    ensures MultiplesBelow(y + 1, 4) == MultiplesBelow(y, 4) + if y % 4 == 0 then 1 else 0
  {
  }

  lemma HundredsPassed(y: nat)
    ensures MultiplesBelow(y + 1, 100) == MultiplesBelow(y, 100) + if y % 100 == 0 then 1 else 0
  {
  }

  lemma FourHundredsPassed(y: nat)
    ensures MultiplesBelow(y + 1, 400) == MultiplesBelow(y, 400) + if y % 400 == 0 then 1 else 0
  {
  }

  lemma LeapDays(y: nat)
    ensures BeforeYear(y + 1) == BeforeYear(y) + 365 + (if y % 4 == 0 then 1 else 0) - (if y % 100 == 0 then 1 else 0)
                                 + if y % 400 == 0 then 1 else 0
  {
    FoursPassed(y);
    HundredsPassed(y);
    FourHundredsPassed(y);
  }

  lemma Divisors(y: nat)
    ensures y % 400 == 0 ==> y % 100 == 0
    ensures y % 100 == 0 ==> y % 4 == 0
  {
    if y % 400 == 0 { assert y == 100 * (4 * (y / 400)); }
    if y % 100 == 0 { assert y == 4 * (25 * (y / 100)); }
  }

  lemma YearLength(y: nat)
    ensures BeforeYear(y + 1) == BeforeYear(y) + BeforeMonth(y, 12) + 31
  {
    MonthsMakeYear(y);
    LeapDays(y);
    Divisors(y);
  }

  lemma NextIsOneMore(d: Date)
    requires IsDate(d)
    ensures Number(Next(d)) == Number(d) + 1
  {
    YearLength(d.year);
  }

  lemma {:induction false} NthNumber(n: nat)
    ensures Number(Nth(n)) == n
  {
    if n > 0 {
      NthNumber(n - 1);
      NextIsOneMore(Nth(n - 1));
    }
  }

  lemma {:induction false} MonthsGrow(y: nat, m: nat, m': nat)
    requires 1 <= m < m'
    ensures BeforeMonth(y, m) + MonthDays(y, m) <= BeforeMonth(y, m')
  {
    if m' > m + 1 { MonthsGrow(y, m, m' - 1); }
  }

  lemma {:induction false} YearsGrow(y: nat, y': nat)
    requires y < y'
    ensures BeforeYear(y) + BeforeMonth(y, 12) + 31 <= BeforeYear(y')
    decreases y' - y
  {
    YearLength(y);
    if y + 1 < y' { YearsGrow(y + 1, y'); }
  }

  lemma WithinYear(d: Date)
    requires IsDate(d)
    ensures Number(d) < BeforeYear(d.year) + BeforeMonth(d.year, 12) + 31
  {
    if d.month < 12 { MonthsGrow(d.year, d.month, 12); }
  }

  lemma NumberGrows(a: Date, b: Date)
    requires IsDate(a) && IsDate(b) && DateLess(a, b)
    ensures Number(a) < Number(b)
  {
    if a.year < b.year {
      WithinYear(a);
      YearsGrow(a.year, b.year);
    } else if a.month < b.month {
      MonthsGrow(a.year, a.month, b.month);
    }
  }

  lemma NumberIsInjective(a: Date, b: Date)
    requires IsDate(a) && IsDate(b) && Number(a) == Number(b)
    ensures a == b
  {
    if DateLess(a, b) { NumberGrows(a, b); }
    if DateLess(b, a) { NumberGrows(b, a); }
  }

  lemma LateNumber(d: Date)
    requires IsDate(d)
    ensures d.year > 9999 ==> Number(d) >= DAYS_TO_10000
  {
    if d.year > 9999 {
      YearsGrow(9999, d.year);
      YearLength(9999);
    }
  }

  // Chronological order is the order of dates.
  lemma DatesInOrder(a: Day, b: Day)
    requires Printable(a) && Printable(b)
    ensures DateLess(DateOf(a), DateOf(b)) <==> a < b
    ensures DateOf(a).year <= 9999
  {
    var x, y := DateOf(a), DateOf(b);
    NthNumber(a + EPOCH);
    NthNumber(b + EPOCH);
    if DateLess(x, y) { NumberGrows(x, y); }
    if DateLess(y, x) { NumberGrows(y, x); }
    LateNumber(x);
  }

  // The date of a day is the one whose number, counted from 1970-01-01, is the day.
  lemma DateIsNumbered(day: Day, d: Date)
    requires Printable(day) && IsDate(d)
    ensures DateOf(day) == d <==> Number(d) - Number(Date(1970, 1, 1)) == day
  {
    NthNumber(day + EPOCH);
    EpochNumber();
    if Number(d) == day + EPOCH { NumberIsInjective(DateOf(day), d); }
  }

  lemma EpochNumber()
    ensures Number(Date(1970, 1, 1)) == EPOCH
  {
    assert MultiplesBelow(1970, 4) == 493 && MultiplesBelow(1970, 100) == 20 && MultiplesBelow(1970, 400) == 5;
  }

  // ---------- The printed form ----------

  const DIGITS := "0123456789"

  // The last width digits of a number.
  function Decimal(n: nat, width: nat): (s: string)
    ensures |s| == width
  {
    if width == 0 then "" else Decimal(n / 10, width - 1) + [DIGITS[n % 10]]
  }

  function Power10(width: nat): nat {
    if width == 0 then 1 else 10 * Power10(width - 1)
  }

  function Print(d: Date): string {
    Decimal(d.year, 4) + "-" + Decimal(d.month, 2) + "-" + Decimal(d.day, 2)
  }

  lemma {:induction false} PrefixFirst(a: string, b: string, x: string, y: string)
    requires |a| == |b|
    ensures StringLess(a + x, b + y) <==> StringLess(a, b) || (a == b && StringLess(x, y))
  {
    if a == [] {
      assert a + x == x && b + y == y;
    } else {
      assert (a + x)[1..] == a[1..] + x && (b + y)[1..] == b[1..] + y;
      PrefixFirst(a[1..], b[1..], x, y);
      assert a == [a[0]] + a[1..] && b == [b[0]] + b[1..];
    }
  }

  lemma DigitsInOrder(i: nat, j: nat)
    requires i < 10 && j < 10
    ensures StringLess([DIGITS[i]], [DIGITS[j]]) <==> i < j
  {
    assert DIGITS[i] == '0' + i as char && DIGITS[j] == '0' + j as char;
  }

  lemma {:induction false} DecimalsInOrder(n: nat, m: nat, width: nat)
    requires n < Power10(width) && m < Power10(width)
    ensures StringLess(Decimal(n, width), Decimal(m, width)) <==> n < m
    ensures Decimal(n, width) == Decimal(m, width) <==> n == m
  {
    if width > 0 {
      DecimalsInOrder(n / 10, m / 10, width - 1);
      DigitsInOrder(n % 10, m % 10);
      DigitsInOrder(m % 10, n % 10);
      var a, b := Decimal(n / 10, width - 1), Decimal(m / 10, width - 1);
      PrefixFirst(a, b, [DIGITS[n % 10]], [DIGITS[m % 10]]);
      if Decimal(n, width) == Decimal(m, width) {
        assert Decimal(n, width)[..width - 1] == a && Decimal(m, width)[..width - 1] == b;
        assert Decimal(n, width)[width - 1] == DIGITS[n % 10] && Decimal(m, width)[width - 1] == DIGITS[m % 10];
      }
    }
  }

  lemma PrintedPartsInOrder(a: Date, b: Date)
    requires IsDate(a) && IsDate(b) && a.year <= 9999 && b.year <= 9999
    ensures StringLess(Print(a), Print(b)) <==> DateLess(a, b)
  {
    assert Power10(4) == 10 * Power10(3) && Power10(3) == 10 * Power10(2) && Power10(2) == 10 * Power10(1)
           && Power10(1) == 10;
    DecimalsInOrder(a.year, b.year, 4);
    DecimalsInOrder(a.month, b.month, 2);
    DecimalsInOrder(a.day, b.day, 2);
    var am, ad := Decimal(a.month, 2), Decimal(a.day, 2);
    var bm, bd := Decimal(b.month, 2), Decimal(b.day, 2);
    assert Print(a) == Decimal(a.year, 4) + ("-" + (am + ("-" + ad)));
    assert Print(b) == Decimal(b.year, 4) + ("-" + (bm + ("-" + bd)));
    PrefixFirst(Decimal(a.year, 4), Decimal(b.year, 4), "-" + (am + ("-" + ad)), "-" + (bm + ("-" + bd)));
    PrefixFirst("-", "-", am + ("-" + ad), bm + ("-" + bd));
    PrefixFirst(am, bm, "-" + ad, "-" + bd);
    PrefixFirst("-", "-", ad, bd);
    StringLessIrreflexive("-");
  }

  // The key of a UTC day's rows.
  function KeyOf(day: Day): string
    requires Printable(day)
  {
    Print(DateOf(day))
  }

  predicate Spells(c: char, digit: int) {
    0 <= digit <= 9 && c as int == '0' as int + digit
  }

  lemma LastDigit(n: nat, width: nat)
    requires width > 0
    ensures Decimal(n, width)[..width - 1] == Decimal(n / 10, width - 1)
    ensures Spells(Decimal(n, width)[width - 1], n % 10)
  {
  }

  lemma Tens(n: nat)
    ensures n / 10 / 10 == n / 100 && n / 100 / 10 == n / 1000
  {
  }

  lemma FourDigits(n: nat)
    requires n <= 9999
    ensures var s := Decimal(n, 4);
            && Spells(s[0], n / 1000) && Spells(s[1], n / 100 % 10) && Spells(s[2], n / 10 % 10) && Spells(s[3], n % 10)
  {
    var s := Decimal(n, 4);
    Tens(n);
    LastDigit(n, 4);
    LastDigit(n / 10, 3);
    LastDigit(n / 100, 2);
    LastDigit(n / 1000, 1);
    assert s[2] == s[..3][2] && s[1] == s[..3][..2][1] && s[0] == s[..3][..2][..1][0];
  }

  lemma TwoDigits(n: nat)
    requires n <= 99
    ensures var s := Decimal(n, 2); Spells(s[0], n / 10) && Spells(s[1], n % 10)
  {
    LastDigit(n, 2);
    LastDigit(n / 10, 1);
    assert Decimal(n, 2)[0] == Decimal(n, 2)[..1][0];
  }

  // The key reads YYYY-MM-DD.
  lemma KeyIsSpelled(day: Day)
    requires Printable(day)
    ensures var k, d := KeyOf(day), DateOf(day);
            && |k| == 10 && k[4] == k[7] == '-'
            && Spells(k[0], d.year / 1000) && Spells(k[1], d.year / 100 % 10) && Spells(k[2], d.year / 10 % 10)
            && Spells(k[3], d.year % 10)
            && Spells(k[5], d.month / 10) && Spells(k[6], d.month % 10) && Spells(k[8], d.day / 10)
            && Spells(k[9], d.day % 10)
  {
    var d := DateOf(day);
    DatesInOrder(day, day);
    FourDigits(d.year);
    TwoDigits(d.month);
    TwoDigits(d.day);
    var y, m, e := Decimal(d.year, 4), Decimal(d.month, 2), Decimal(d.day, 2);
    assert KeyOf(day) == y + "-" + m + "-" + e;
  }

  // The days of a year before each month, leap years having one more after February.
  lemma MonthsStart(y: nat, m: nat)
    requires 1 <= m <= 12
    ensures BeforeMonth(y, m) == [0, 31, 59, 90, 120, 151, 181, 212, 243, 273, 304, 334][m - 1]
                                 + if m > 2 && y % 4 == 0 && (y % 100 != 0 || y % 400 == 0) then 1 else 0
  {
    if m > 1 { MonthsStart(y, m - 1); }
  }

  // Main result: printed keys are as many as days, and in the same order.
  lemma KeysInOrder(a: Day, b: Day)
    requires Printable(a) && Printable(b)
    ensures |KeyOf(a)| == 10
    ensures StringLess(KeyOf(a), KeyOf(b)) <==> a < b
    ensures KeyOf(a) == KeyOf(b) <==> a == b
  {
    DatesInOrder(a, b);
    DatesInOrder(b, a);
    PrintedPartsInOrder(DateOf(a), DateOf(b));
    PrintedPartsInOrder(DateOf(b), DateOf(a));
    StringLessIrreflexive(KeyOf(a));
  }

  // So the string guard refuses exactly the empty ranges, and the string filter
  // selects exactly the days of the inclusive range, for the instants of each day.
  lemma StringFilterIsRange(from: Day, to: Day, t: Instant)
    requires Printable(from) && Printable(to) && Printable(UtcDay(t))
    ensures StringLess(KeyOf(to), KeyOf(from)) <==> from > to
    ensures !StringLess(KeyOf(UtcDay(t)), KeyOf(from)) && !StringLess(KeyOf(to), KeyOf(UtcDay(t))) <==>
            from * NANOS_PER_DAY <= t < (to + 1) * NANOS_PER_DAY
  {
    KeysInOrder(to, from);
    KeysInOrder(UtcDay(t), from);
    KeysInOrder(to, UtcDay(t));
  }
}
