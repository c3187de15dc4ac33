/** Calendar dates as the date picker produces them, whole years elapsed between two dates as
    `dayjs().diff(birth, 'year')` counts them, and the `DD/MM/YYYY` rendering with its inverse. */
module Calendar {
  import opened Optional
  import opened Numerals

  datatype Ymd = Ymd(year: nat, month: nat, day: nat)

  predicate IsLeapYear(y: nat) {
    y % 4 == 0 && (y % 100 != 0 || y % 400 == 0)
  }

  function DaysInMonth(y: nat, m: nat): (n: nat)
    requires 1 <= m <= 12
    ensures 28 <= n <= 31
  {
    if m == 2 then (if IsLeapYear(y) then 29 else 28)
    else if m == 4 || m == 6 || m == 9 || m == 11 then 30
    else 31
  }

  predicate ValidYmd(d: Ymd) {
    1 <= d.month <= 12 && 1 <= d.day <= DaysInMonth(d.year, d.month)
  }

  /** A real calendar date (Gregorian, non-negative year). */
  type Date = d: Ymd | ValidYmd(d) witness Ymd(2000, 1, 1)

  /** `a` is strictly earlier than `b`. */
  predicate Before(a: Date, b: Date) {
    || a.year < b.year
    || (a.year == b.year && a.month < b.month)
    || (a.year == b.year && a.month == b.month && a.day < b.day)
  }

  predicate NotAfter(a: Date, b: Date) {
    !Before(b, a)
  }

  lemma NotAfterTransitive(a: Date, b: Date, c: Date)
    requires NotAfter(a, b) && NotAfter(b, c)
    ensures NotAfter(a, c)
  {
  }

  /** The `n`-th anniversary of `d`: same month, the day clamped to the month's length, as adding
      `12 * n` months does in dayjs (a 29 February falls on 28 February in a common year). */
  function AddYears(d: Date, n: nat): (r: Date)
    ensures r.year == d.year + n && r.month == d.month
    ensures r.day == d.day || (d.month == 2 && d.day == 29 && r.day == 28 && !IsLeapYear(r.year))
  {
    var last := DaysInMonth(d.year + n, d.month);
    Ymd(d.year + n, d.month, if d.day <= last then d.day else last)
  }

  /** Whole years from `birth` to `today`: the number of anniversaries reached, counting an
      anniversary that falls on `today` itself. */
  function WholeYears(birth: Date, today: Date): (age: nat)
    requires NotAfter(birth, today)
    ensures NotAfter(AddYears(birth, age), today)
    ensures Before(today, AddYears(birth, age + 1))
  {
    var n := today.year - birth.year;
    assert AddYears(birth, 0) == birth;
    if NotAfter(AddYears(birth, n), today) then n else n - 1
  }

  /** Later anniversaries come later. */
  lemma AnniversariesIncrease(d: Date, m: nat, n: nat)
    requires m < n
    ensures Before(AddYears(d, m), AddYears(d, n))
  {
  }

  /** The age is at least `k` exactly when the `k`-th anniversary has been reached. */
  lemma AgeAtLeast(birth: Date, today: Date, k: nat)
    requires NotAfter(birth, today)
    ensures WholeYears(birth, today) >= k <==> NotAfter(AddYears(birth, k), today)
  {
    var age := WholeYears(birth, today);
    if age >= k {
      if age > k {
        AnniversariesIncrease(birth, k, age);
      }
      NotAfterTransitive(AddYears(birth, k), AddYears(birth, age), today);
    } else if age + 1 < k {
      AnniversariesIncrease(birth, age + 1, k);
    }
  }

  // ---------------------------------------------------------------- DD/MM/YYYY

  /** `format('DD/MM/YYYY')`: day and month as two digits, the year as at least four digits. */
  function FormatDmy(d: Date): (r: string)
    ensures |r| >= 10
    ensures r[2] == '/' && r[5] == '/'
    ensures forall i :: 0 <= i < |r| && i != 2 && i != 5 ==> '0' <= r[i] <= '9'
  {
    Fixed(d.day, 2) + "/" + Fixed(d.month, 2) + "/" + Padded(d.year, 4)
  }

  /** Reads a `DD/MM/YYYY` string (the year may have more than four digits) back into a date. */
  function ParseDmy(s: string): Option<Date> {
    if |s| >= 10 && s[2] == '/' && s[5] == '/'
       && (forall i :: 0 <= i < |s| && i != 2 && i != 5 ==> '0' <= s[i] <= '9')
    then
      var d := Ymd(Value(s[6..], 10), Value(s[3..5], 10), Value(s[..2], 10));
      if ValidYmd(d) then Some(d) else None
    else None
  }

  /** Reading back a rendered date gives the date. */
  lemma DmyRoundTrip(d: Date)
    ensures ParseDmy(FormatDmy(d)) == Some(d)
  {
    var r := FormatDmy(d);
    var dd, mm, yy := Fixed(d.day, 2), Fixed(d.month, 2), Padded(d.year, 4);
    assert r[..2] == dd;
    assert r[3..5] == mm;
    assert r[6..] == yy;
    FixedRoundTrip(d.day, 2);
    FixedRoundTrip(d.month, 2);
    PaddedRoundTrip(d.year, 4);
  }

  /** Different dates are rendered differently. */
  lemma FormatDmyInjective(a: Date, b: Date)
    requires FormatDmy(a) == FormatDmy(b)
    ensures a == b
  {
    DmyRoundTrip(a);
    DmyRoundTrip(b);
  }
}
