/** Calendar dates as the vacation screens handle them: the `YYYY-MM-DD`
    text of a date input, the date it denotes, and its day number. Two facts
    join the three views: comparing the texts as strings orders them as the
    dates are ordered, and parsing a text gives back the date it was
    written from. */
module Dates {
  import opened Common
  import opened Decimal

  datatype Date = Date(year: int, month: int, day: int)

  predicate IsLeapYear(y: int) {
    y % 4 == 0 && (y % 100 != 0 || y % 400 == 0)
  }

  function DaysInYear(y: int): int {
    if IsLeapYear(y) then 366 else 365
  }

  function DaysInMonth(y: int, m: int): int
    requires 1 <= m <= 12
  {
    if m == 2 then (if IsLeapYear(y) then 29 else 28)
    else if m == 4 || m == 6 || m == 9 || m == 11 then 30
    else 31
  }

  /** A real calendar day in the years a date input offers. */
  predicate ValidDate(d: Date) {
    1 <= d.year <= 9999 && 1 <= d.month <= 12 && 1 <= d.day <= DaysInMonth(d.year, d.month)
  }

  /** Days of the year before the first day of month `m`. */
  function DaysBeforeMonth(y: int, m: int): int
    requires 1 <= m <= 12
  {
    [0, 31, 59, 90, 120, 151, 181, 212, 243, 273, 304, 334][m - 1]
      + (if m > 2 && IsLeapYear(y) then 1 else 0)
  }

  /** Days from 0001-01-01 to the first day of year `y`. */
  function DaysBeforeYear(y: int): int
    requires y >= 1
  {
    if y == 1 then 0 else DaysBeforeYear(y - 1) + DaysInYear(y - 1)
  }

  /** Days elapsed since 0001-01-01: what `getTime()` counts, divided by
      the length of a day, for a date parsed at midnight UTC. */
  function DayNumber(d: Date): int
    requires ValidDate(d)
  {
    DaysBeforeYear(d.year) + DaysBeforeMonth(d.year, d.month) + d.day - 1
  }

  /** Calendar order. */
  predicate Before(a: Date, b: Date) {
    || a.year < b.year
    || (a.year == b.year && a.month < b.month)
    || (a.year == b.year && a.month == b.month && a.day < b.day)
  }

  lemma MonthFits(y: int, m: int)
    requires 1 <= m <= 12
    ensures m < 12 ==> DaysBeforeMonth(y, m) + DaysInMonth(y, m) == DaysBeforeMonth(y, m + 1)
    ensures m == 12 ==> DaysBeforeMonth(y, m) + DaysInMonth(y, m) == DaysInYear(y)
  {
  }

  lemma {:induction false} MonthsIncrease(y: int, m: int, n: int)
    requires 1 <= m < n <= 12
    ensures DaysBeforeMonth(y, m) + DaysInMonth(y, m) <= DaysBeforeMonth(y, n)
    decreases n - m
  {
    MonthFits(y, m);
    if m + 1 < n {
      MonthsIncrease(y, m + 1, n);
    }
  }

  lemma {:induction false} YearsIncrease(y: int, z: int)
    requires 1 <= y < z
    ensures DaysBeforeYear(y) + DaysInYear(y) <= DaysBeforeYear(z)
    decreases z - y
  {
    if y + 1 < z {
      YearsIncrease(y + 1, z);
    }
  }

  /** A date's day number lies within its year. */
  lemma DayWithinYear(d: Date)
    requires ValidDate(d)
    ensures DaysBeforeYear(d.year) <= DayNumber(d) < DaysBeforeYear(d.year) + DaysInYear(d.year)
  {
    MonthFits(d.year, d.month);
    if d.month < 12 {
      MonthsIncrease(d.year, d.month, 12);
      MonthFits(d.year, 12);
    }
  }

  lemma BeforeMeansSmaller(a: Date, b: Date)
    requires ValidDate(a) && ValidDate(b) && Before(a, b)
    ensures DayNumber(a) < DayNumber(b)
  {
    if a.year < b.year {
      DayWithinYear(a);
      DayWithinYear(b);
      YearsIncrease(a.year, b.year);
    } else if a.month < b.month {
      MonthsIncrease(a.year, a.month, b.month);
    }
  }

  /** Day numbers order dates as the calendar does. */
  lemma DayNumberOrder(a: Date, b: Date)
    requires ValidDate(a) && ValidDate(b)
    ensures Before(a, b) <==> DayNumber(a) < DayNumber(b)
    ensures a == b <==> DayNumber(a) == DayNumber(b)
  {
    if Before(a, b) {
      BeforeMeansSmaller(a, b);
    } else if Before(b, a) {
      BeforeMeansSmaller(b, a);
    }
  }

  // ---------------------------------------------------------------------
  // The text of a date input
  // ---------------------------------------------------------------------

  function Pow10(w: nat): (p: nat)
    ensures p >= 1
  {
    if w == 0 then 1 else 10 * Pow10(w - 1)
  }

  /** `n` written with exactly `w` decimal digits, zero-padded. */
  function Pad(n: nat, w: nat): (s: string)
    ensures |s| == w && AllDigits(s)
  {
    if w == 0 then [] else Pad(n / 10, w - 1) + [DigitChar(n % 10)]
  }

  /** `YYYY-MM-DD` */
  function Iso(d: Date): (s: string)
    requires ValidDate(d)
    ensures |s| == 10
  {
    Pad(d.year, 4) + ("-" + (Pad(d.month, 2) + ("-" + Pad(d.day, 2))))
  }

  /** The text a date input produces, read as a date: `YYYY-MM-DD` naming a
      real calendar day. Any other text is refused here; the model does not
      follow `new Date(s)` on texts a date input never produces. */
  function ParseIso(s: string): (r: Option<Date>)
    ensures r.Some? ==> ValidDate(r.value) && |s| == 10
  {
    if |s| == 10 && s[4] == '-' && s[7] == '-'
       && AllDigits(s[..4]) && AllDigits(s[5..7]) && AllDigits(s[8..])
    then
      var d := Date(Value(s[..4]), Value(s[5..7]), Value(s[8..]));
      if ValidDate(d) then Some(d) else None
    else None
  }

  lemma {:induction false} ValuePad(n: nat, w: nat)
    requires n < Pow10(w)
    ensures Value(Pad(n, w)) == n
  {
    if w > 0 {
      var s, h, c := Pad(n, w), Pad(n / 10, w - 1), DigitChar(n % 10);
      TensBelow(n, Pow10(w - 1));
      ValuePad(n / 10, w - 1);
      assert s[..|s| - 1] == h && s[|s| - 1] == c;
      DigitRoundTrip(n % 10);
      Recompose(n, Value(h), DigitValue(c));
    }
  }

  lemma TensBelow(n: nat, p: nat)
    requires n < 10 * p
    ensures n / 10 < p
  {
  }

  lemma Recompose(n: nat, tens: nat, units: nat)
    requires tens == n / 10 && units == n % 10
    ensures 10 * tens + units == n
  {
  }

  lemma CharRoundTrip(c: char)
    requires IsDigit(c)
    ensures DigitChar(DigitValue(c)) == c
  {
  }

  lemma {:induction false} PadValue(s: string)
    requires AllDigits(s)
    ensures Pad(Value(s), |s|) == s
  {
    if s != [] {
      var s' := s[..|s| - 1];
      PadValue(s');
      var v := Value(s);
      assert v / 10 == Value(s') && v % 10 == DigitValue(s[|s| - 1]);
      CharRoundTrip(s[|s| - 1]);
      assert s == s' + [s[|s| - 1]];
    }
  }

  /** Parsing the text written from a date gives the date back. */
  lemma ParseIsoOfIso(d: Date)
    requires ValidDate(d)
    ensures ParseIso(Iso(d)) == Some(d)
  {
    var s := Iso(d);
    assert s[..4] == Pad(d.year, 4);
    assert s[5..7] == Pad(d.month, 2);
    assert s[8..] == Pad(d.day, 2);
    ValuePad(d.year, 4);
    ValuePad(d.month, 2);
    ValuePad(d.day, 2);
  }

  /** A text that parses is the text of the date it parses to. */
  lemma IsoOfParseIso(s: string)
    requires ParseIso(s).Some?
    ensures Iso(ParseIso(s).value) == s
  {
    var d := ParseIso(s).value;
    PadValue(s[..4]);
    PadValue(s[5..7]);
    PadValue(s[8..]);
    assert s == s[..4] + ("-" + (s[5..7] + ("-" + s[8..])));
  }

  // ---------------------------------------------------------------------
  // String order
  // ---------------------------------------------------------------------

  /** JavaScript's `a < b` on strings: lexicographic by character. */
  predicate LexLess(a: string, b: string) {
    if a == [] then b != []
    else if b == [] then false
    else if a[0] != b[0] then a[0] < b[0]
    else LexLess(a[1..], b[1..])
  }

  lemma {:induction false} LexLessIrreflexive(a: string)
    ensures !LexLess(a, a)
  {
    if a != [] {
      LexLessIrreflexive(a[1..]);
    }
  }

  /** Behind equal-length heads, the first difference decides. */
  lemma {:induction false} LexLessAppend(x: string, y: string, s: string, t: string)
    requires |x| == |y|
    ensures LexLess(x + s, y + t) == if x == y then LexLess(s, t) else LexLess(x, y)
  {
    if x != [] {
      assert (x + s)[1..] == x[1..] + s;
      assert (y + t)[1..] == y[1..] + t;
      if x[0] == y[0] {
        LexLessAppend(x[1..], y[1..], s, t);
        if x[1..] == y[1..] {
          assert x == y;
        }
      }
    } else {
      assert x + s == s && y + t == t;
    }
  }

  /** Numbers compare by their tens first and their units second. */
  lemma TensThenUnits(n: nat, m: nat)
    ensures n / 10 < m / 10 ==> n < m
    ensures m / 10 < n / 10 ==> m < n
    ensures n / 10 == m / 10 ==> (n < m <==> n % 10 < m % 10)
  {
  }

  /** The digit characters are in the order of the digits. */
  lemma DigitCharOrder(a: nat, b: nat)
    requires a < 10 && b < 10
    ensures DigitChar(a) < DigitChar(b) <==> a < b
  {
  }

  /** Equal-width padded numbers compare as strings as they do as numbers. */
  lemma {:induction false} LexLessPad(n: nat, m: nat, w: nat)
    requires n < Pow10(w) && m < Pow10(w)
    ensures LexLess(Pad(n, w), Pad(m, w)) <==> n < m
    decreases w
  {
    if w > 0 {
      var hn, hm := Pad(n / 10, w - 1), Pad(m / 10, w - 1);
      var cn, cm := DigitChar(n % 10), DigitChar(m % 10);
      assert Pad(n, w) == hn + [cn] && Pad(m, w) == hm + [cm];
      LexLessAppend(hn, hm, [cn], [cm]);
      TensThenUnits(n, m);
      if n / 10 == m / 10 {
        DigitCharOrder(n % 10, m % 10);
        assert LexLess([cn], [cm]) <==> cn < cm;
      } else {
        TensBelow(n, Pow10(w - 1));
        TensBelow(m, Pow10(w - 1));
        LexLessPad(n / 10, m / 10, w - 1);
        LexLessPad(m / 10, n / 10, w - 1);
        if hn == hm {
          LexLessIrreflexive(hn);
        }
      }
    }
  }

  lemma PadInjective(n: nat, m: nat, w: nat)
    requires n < Pow10(w) && m < Pow10(w)
    ensures Pad(n, w) == Pad(m, w) <==> n == m
  {
    if Pad(n, w) == Pad(m, w) {
      LexLessIrreflexive(Pad(n, w));
      LexLessPad(n, m, w);
      LexLessPad(m, n, w);
    }
  }

  /** Comparing two date-input texts as strings, as the vacation form
      does, compares the dates. */
  lemma IsoOrder(a: Date, b: Date)
    requires ValidDate(a) && ValidDate(b)
    ensures LexLess(Iso(a), Iso(b)) <==> Before(a, b)
    ensures Iso(a) == Iso(b) <==> a == b
  {
    var ya, yb := Pad(a.year, 4), Pad(b.year, 4);
    var ma, mb := Pad(a.month, 2), Pad(b.month, 2);
    var da, db := Pad(a.day, 2), Pad(b.day, 2);
    LexLessPad(a.year, b.year, 4);
    LexLessPad(a.month, b.month, 2);
    LexLessPad(a.day, b.day, 2);
    PadInjective(a.year, b.year, 4);
    PadInjective(a.month, b.month, 2);
    PadInjective(a.day, b.day, 2);
    LexLessAppend(ya, yb, "-" + (ma + ("-" + da)), "-" + (mb + ("-" + db)));
    LexLessAppend("-", "-", ma + ("-" + da), mb + ("-" + db));
    LexLessAppend(ma, mb, "-" + da, "-" + db);
    LexLessAppend("-", "-", da, db);
    if Iso(a) == Iso(b) {
      ParseIsoOfIso(a);
      ParseIsoOfIso(b);
    }
  }

  /** The inclusive number of days of the range `inicio..fim`: at least one
      unless the end comes before the start, and one exactly for a single
      day. */
  function InclusiveDays(inicio: Date, fim: Date): (n: int)
    requires ValidDate(inicio) && ValidDate(fim)
    ensures n >= 1 <==> !Before(fim, inicio)
    ensures n == 1 <==> inicio == fim
    ensures Before(inicio, fim) ==> n >= 2
  {
    DayNumberOrder(inicio, fim);
    DayNumberOrder(fim, inicio);
    DayNumber(fim) - DayNumber(inicio) + 1
  }
}
