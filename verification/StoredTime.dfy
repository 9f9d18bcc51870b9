/** Times as the tables store them: RFC 3339 UTC text with up to nine fractional digits, trailing
    zeros dropped.  An instant is the number of nanoseconds since 0001-01-01T00:00:00Z, so 0 is
    the zero time, which is stored as the empty text. */
module StoredTime {
  import opened TextOrder

  type Instant = nat

  const SECOND: nat := 1_000_000_000
  const DAY: nat := 86_400

  // ---------- the Gregorian calendar ----------

  predicate IsLeap(y: nat) {
    y % 4 == 0 && (y % 100 != 0 || y % 400 == 0)
  }

  function DaysBeforeYear(y: nat): nat
    requires y >= 1
  {
    365 * (y - 1) + (y - 1) / 4 - (y - 1) / 100 + (y - 1) / 400
  }

  function DaysIn(leap: bool, m: nat): nat {
    if m == 2 then (if leap then 29 else 28)
    else if m == 4 || m == 6 || m == 9 || m == 11 then 30
    else 31
  }

  function DaysBeforeMonth(leap: bool, m: nat): nat {
    if m <= 1 then 0 else DaysBeforeMonth(leap, m - 1) + DaysIn(leap, m - 1)
  }

  lemma {:induction false} FourthYears(n: nat)
    ensures (n + 1) / 4 == n / 4 + if (n + 1) % 4 == 0 then 1 else 0
  {
  }

  lemma {:induction false} Centuries(n: nat)
    ensures (n + 1) / 100 == n / 100 + if (n + 1) % 100 == 0 then 1 else 0
    ensures (n + 1) % 100 == 0 ==> (n + 1) % 4 == 0
  {
    var q, r := n / 100, n % 100;
    assert n + 1 == 100 * q + r + 1;
    if r == 99 { assert n + 1 == 4 * (25 * (q + 1)); }
  }

  lemma {:induction false} FourthCenturies(n: nat)
    ensures (n + 1) / 400 == n / 400 + if (n + 1) % 400 == 0 then 1 else 0
    ensures (n + 1) % 400 == 0 ==> (n + 1) % 100 == 0
  {
    var q, r := n / 400, n % 400;
    assert n + 1 == 400 * q + r + 1;
    if r == 399 { assert n + 1 == 100 * (4 * (q + 1)); }
  }

  lemma {:induction false} YearLength(y: nat)
    requires y >= 1
    ensures DaysBeforeYear(y + 1) == DaysBeforeYear(y) + DaysBeforeMonth(IsLeap(y), 13)
  {
    MonthTable(IsLeap(y));
    FourthYears(y - 1);
    Centuries(y - 1);
    FourthCenturies(y - 1);
  }

  lemma {:induction false} MonthTable(leap: bool)
    ensures DaysBeforeMonth(leap, 13) == if leap then 366 else 365
  {
    assert DaysBeforeMonth(leap, 2) == 31;
    assert DaysBeforeMonth(leap, 3) == if leap then 60 else 59;
    assert DaysBeforeMonth(leap, 5) == if leap then 121 else 120;
    assert DaysBeforeMonth(leap, 7) == if leap then 182 else 181;
    assert DaysBeforeMonth(leap, 9) == if leap then 244 else 243;
    assert DaysBeforeMonth(leap, 11) == if leap then 305 else 304;
  }

  lemma {:induction false} YearsGrow(y: nat, z: nat)
    requires 1 <= y <= z
    ensures DaysBeforeYear(y) <= DaysBeforeYear(z)
    decreases z - y
  {
    if y < z { YearLength(y); YearsGrow(y + 1, z); }
  }

  lemma {:induction false} MonthsGrow(leap: bool, m: nat, n: nat)
    requires 1 <= m <= n
    ensures DaysBeforeMonth(leap, m) <= DaysBeforeMonth(leap, n)
    decreases n - m
  {
    if m < n { MonthsGrow(leap, m + 1, n); }
  }

  /** The year holding a day, searched upwards from y. */
  function YearOf(day: nat, y: nat): (r: nat)
    requires y >= 1 && DaysBeforeYear(y) <= day
    ensures r >= y && DaysBeforeYear(r) <= day < DaysBeforeYear(r + 1)
    decreases day - DaysBeforeYear(y)
  {
    YearLength(y);
    MonthTable(IsLeap(y));
    if day < DaysBeforeYear(y + 1) then y else YearOf(day, y + 1)
  }

  function MonthOf(day: nat, leap: bool, m: nat): (r: nat)
    requires 1 <= m <= 12 && DaysBeforeMonth(leap, m) <= day < DaysBeforeMonth(leap, 13)
    ensures m <= r <= 12 && DaysBeforeMonth(leap, r) <= day < DaysBeforeMonth(leap, r + 1)
    decreases 12 - m
  {
    if day < DaysBeforeMonth(leap, m + 1) then m else MonthOf(day, leap, m + 1)
  }

  datatype Clock = Clock(year: nat, month: nat, day: nat, hour: nat, minute: nat, second: nat) {
    predicate Valid() {
      && year >= 1 && 1 <= month <= 12
      && 1 <= day <= DaysIn(IsLeap(year), month)
      && hour < 24 && minute < 60 && second < 60
    }

    /** Whole seconds since 0001-01-01T00:00:00Z. */
    function Seconds(): nat
      requires Valid()
    {
      DayNumber() * DAY + hour * 3600 + minute * 60 + second
    }

    function DayNumber(): nat
      requires Valid()
    {
      DaysBeforeYear(year) + DaysBeforeMonth(IsLeap(year), month) + day - 1
    }

    predicate Before(c: Clock) {
      || year < c.year
      || (year == c.year && (month < c.month
      || (month == c.month && (day < c.day
      || (day == c.day && (hour < c.hour
      || (hour == c.hour && (minute < c.minute
      || (minute == c.minute && second < c.second)))))))))
    }
  }

  /** The civil reading of a whole second; reading it back gives the same second. */
  function ClockOf(seconds: nat): (c: Clock)
    ensures c.Valid() && c.Seconds() == seconds
  {
    var d, s := seconds / DAY, seconds % DAY;
    var y := YearOf(d, 1);
    var leap := IsLeap(y);
    YearLength(y);
    var m := MonthOf(d - DaysBeforeYear(y), leap, 1);
    SecondsOfDay(s);
    Clock(y, m, d - DaysBeforeYear(y) - DaysBeforeMonth(leap, m) + 1, s / 3600, s / 60 % 60, s % 60)
  }

  lemma {:induction false} SecondsOfDay(s: nat)
    requires s < DAY
    ensures s / 3600 < 24 && s == s / 3600 * 3600 + s / 60 % 60 * 60 + s % 60
  {
  }

  lemma {:induction false} LaterDayLaterDate(c: Clock, e: Clock)
    requires c.Valid() && e.Valid()
    requires (c.year > e.year || (c.year == e.year && c.month > e.month))
    ensures c.DayNumber() > e.DayNumber()
  {
    var dc := DaysBeforeMonth(IsLeap(c.year), c.month) + c.day - 1;
    var de := DaysBeforeMonth(IsLeap(e.year), e.month) + e.day - 1;
    assert DaysBeforeMonth(IsLeap(e.year), e.month + 1) >= de + 1;
    if c.year > e.year {
      YearLength(e.year);
      YearsGrow(e.year + 1, c.year);
      MonthsGrow(IsLeap(e.year), e.month + 1, 13);
      assert DaysBeforeYear(c.year) + dc >= DaysBeforeYear(e.year) + de + 1;
    } else {
      MonthsGrow(IsLeap(e.year), e.month + 1, c.month);
    }
    assert DaysBeforeYear(c.year) + dc >= DaysBeforeYear(e.year) + de + 1;
  }

  /** Reading the fields from the year down to the second is reading time in order. */
  lemma {:induction false} ClockOrder(c: Clock, e: Clock)
    requires c.Valid() && e.Valid() && c.Seconds() < e.Seconds()
    ensures c.Before(e) && !e.Before(c) && c != e
  {
    if c.year > e.year || (c.year == e.year && c.month > e.month) {
      LaterDayLaterDate(c, e);
    }
  }

  // ---------- decimal text ----------

  function Pow10(k: nat): (p: nat)
    ensures p >= 1
  {
    if k == 0 then 1 else 10 * Pow10(k - 1)
  }

  function Digit(d: nat): char
    requires d < 10
  {
    ('0' as int + d) as char
  }

  predicate IsDigit(c: char) {
    '0' <= c <= '9'
  }

  function Digits(n: nat, w: nat): (s: string)
    ensures |s| == w
  {
    if w == 0 then "" else Digits(n / 10, w - 1) + [Digit(n % 10)]
  }

  predicate AllDigits(s: string) {
    forall i :: 0 <= i < |s| ==> IsDigit(s[i])
  }

  function Number(s: string): nat
    requires AllDigits(s)
  {
    if |s| == 0 then 0 else Number(s[..|s| - 1]) * 10 + (s[|s| - 1] as int - '0' as int)
  }

  lemma {:induction false} DigitsRead(n: nat, w: nat)
    requires n < Pow10(w)
    ensures AllDigits(Digits(n, w)) && Number(Digits(n, w)) == n
  {
    if w > 0 {
      DigitsRead(n / 10, w - 1);
      assert Digits(n, w)[..w - 1] == Digits(n / 10, w - 1);
    }
  }

  lemma {:induction false} DigitsOrder(m: nat, n: nat, w: nat)
    requires m < n < Pow10(w)
    ensures Less(Digits(m, w), Digits(n, w))
  {
    if m / 10 < n / 10 {
      DigitsOrder(m / 10, n / 10, w - 1);
      Asymmetric(Digits(m / 10, w - 1), Digits(n / 10, w - 1));
      PrefixDecides(Digits(m / 10, w - 1), Digits(n / 10, w - 1), [Digit(m % 10)], [Digit(n % 10)]);
    } else {
      CommonPrefix(Digits(m / 10, w - 1), [Digit(m % 10)], [Digit(n % 10)]);
    }
  }

  /** One fixed-width field at the front of two texts, then the rest. */
  lemma {:induction false} FieldOrder(m: nat, n: nat, w: nat, a: string, b: string)
    requires m < Pow10(w) && n < Pow10(w)
    ensures Less(Digits(m, w) + a, Digits(n, w) + b) == (m < n || (m == n && Less(a, b)))
  {
    if m == n {
      CommonPrefix(Digits(m, w), a, b);
    } else {
      if m < n { DigitsOrder(m, n, w); } else { DigitsOrder(n, m, w); }
      var p, q := Digits(m, w), Digits(n, w);
      if m < n { Asymmetric(p, q); } else { Asymmetric(q, p); }
      PrefixDecides(p, q, a, b);
    }
  }

  // ---------- the fraction ----------

  /** The digits of x out of w, without the trailing zeros. */
  function FractionDigits(x: nat, w: nat): string
    requires x < Pow10(w)
  {
    if x == 0 then "" else
      var p := Pow10(w - 1);
      LeadingDigit(x, p);
      [Digit(x / p)] + FractionDigits(x % p, w - 1)
  }

  lemma {:induction false} LeadingDigit(x: nat, p: nat)
    requires p >= 1 && x < 10 * p
    ensures x / p < 10 && x % p < p && x == x / p * p + x % p
  {
    var q := x / p;
    assert x == q * p + x % p;
    assert (10 - q) * p == 10 * p - q * p;
    PositiveFactor(10 - q, p);
  }

  lemma {:induction false} MulAtLeast(a: nat, b: nat, p: nat)
    requires a >= b
    ensures a * p >= b * p
  {
    assert a * p == b * p + (a - b) * p;
  }

  lemma {:induction false} PositiveFactor(a: int, p: int)
    requires p > 0 && a * p > 0
    ensures a > 0
  {
  }

  function FractionValue(s: string, w: nat): nat
    requires AllDigits(s) && |s| <= w
  {
    if |s| == 0 then 0 else (s[0] as int - '0' as int) * Pow10(w - 1) + FractionValue(s[1..], w - 1)
  }

  lemma {:induction false} FractionRead(x: nat, w: nat)
    requires x < Pow10(w)
    ensures var s := FractionDigits(x, w);
      AllDigits(s) && |s| <= w && (x > 0 ==> |s| > 0) && FractionValue(s, w) == x
  {
    if x > 0 {
      var d, p, r := x / Pow10(w - 1), Pow10(w - 1), x % Pow10(w - 1);
      LeadingDigit(x, p);
      FractionRead(r, w - 1);
      FractionStep(d, FractionDigits(r, w - 1), w);
    }
  }

  lemma {:induction false} FractionStep(d: nat, rest: string, w: nat)
    requires d < 10 && w > 0 && AllDigits(rest) && |rest| < w
    ensures AllDigits([Digit(d)] + rest) && FractionValue([Digit(d)] + rest, w) == d * Pow10(w - 1) + FractionValue(rest, w - 1)
  {
    var s := [Digit(d)] + rest;
    assert s[1..] == rest && s[0] as int - '0' as int == d;
  }

  /** The largest power of ten that divides n. */
  function Grain(n: nat): (g: nat)
    requires n > 0
    ensures 1 <= g <= n
  {
    if n % 10 == 0 then 10 * Grain(n / 10) else 1
  }

  lemma {:induction false} GrainOfLowPart(d: nat, x: nat, k: nat)
    requires 0 < x < Pow10(k)
    ensures d * Pow10(k) + x > 0 && Grain(d * Pow10(k) + x) == Grain(x)
  {
    var m := d * Pow10(k - 1);
    assert d * Pow10(k) == 10 * m;
    if x % 10 == 0 {
      GrainOfLowPart(d, x / 10, k - 1);
      assert (10 * m + x) / 10 == m + x / 10;
    }
  }

  lemma {:induction false} GrainOfTopDigit(d: nat, k: nat)
    requires 1 <= d < 10
    ensures d * Pow10(k) > 0 && Grain(d * Pow10(k)) == Pow10(k)
  {
    if k > 0 {
      var m := d * Pow10(k - 1);
      assert d * Pow10(k) == 10 * m;
      GrainOfTopDigit(d, k - 1);
    }
  }

  lemma {:induction false} GrainFits(x: nat, k: nat)
    requires 0 < x < Pow10(k)
    ensures x + Grain(x) <= Pow10(k)
  {
    if x % 10 == 0 { GrainFits(x / 10, k - 1); }
  }

  /** Where the leading digits differ, the whole grain of x is before y. */
  lemma {:induction false} GrainBeforeNextDigit(x: nat, dx: nat, x': nat, k: nat)
    requires x == dx * Pow10(k) + x' && 0 < x && dx < 10 && x' < Pow10(k)
    ensures x + Grain(x) <= (dx + 1) * Pow10(k)
    ensures x' == 0 ==> Grain(x) == Pow10(k)
    ensures x' > 0 ==> Grain(x) == Grain(x')
  {
    assert (dx + 1) * Pow10(k) == dx * Pow10(k) + Pow10(k);
    if x' == 0 {
      assert dx != 0;
      GrainOfTopDigit(dx, k);
    } else {
      GrainOfLowPart(dx, x', k);
      GrainFits(x', k);
    }
  }

  lemma {:induction false} FractionSplit(x: nat, w: nat) returns (d: nat, rest: nat)
    requires 0 < x < Pow10(w)
    ensures w > 0 && d < 10 && rest < Pow10(w - 1) && x == d * Pow10(w - 1) + rest
    ensures FractionDigits(x, w) + "Z" == [Digit(d)] + (FractionDigits(rest, w - 1) + "Z")
  {
    LeadingDigit(x, Pow10(w - 1));
    d, rest := x / Pow10(w - 1), x % Pow10(w - 1);
  }

  lemma {:induction false} SameLeadingDigit(d: nat, x': nat, y': nat, w: nat)
    requires d < 10 && x' < y' < Pow10(w)
    ensures Less([Digit(d)] + (FractionDigits(x', w) + "Z"), [Digit(d)] + (FractionDigits(y', w) + "Z"))
         == (x' > 0 && Less(FractionDigits(x', w) + "Z", FractionDigits(y', w) + "Z"))
  {
    CommonPrefix([Digit(d)], FractionDigits(x', w) + "Z", FractionDigits(y', w) + "Z");
    if x' == 0 {
      FractionRead(y', w);
      assert IsDigit((FractionDigits(y', w) + "Z")[0]);
    }
  }

  lemma {:induction false} LeadingOrder(dx: nat, x': nat, dy: nat, y': nat, p: nat)
    requires x' < p && y' < p
    requires dx * p + x' < dy * p + y'
    ensures dx <= dy
    ensures dx < dy ==> (dx + 1) * p <= dy * p + y'
    ensures dx == dy ==> x' < y'
  {
    assert (dy + 1) * p == dy * p + p;
    if dx >= dy + 1 { MulAtLeast(dx, dy + 1, p); }
    if dx < dy { MulAtLeast(dy, dx + 1, p); }
  }

  lemma {:induction false} LeadingDigitsDecide(x: nat, y: nat, dx: nat, dy: nat, x': nat, y': nat, k: nat)
    requires x == dx * Pow10(k) + x' && y == dy * Pow10(k) + y'
    requires dx < 10 && dy < 10 && x' < Pow10(k) && y' < Pow10(k)
    requires 0 < x < y
    ensures dx <= dy
    ensures dx < dy ==> y >= x + Grain(x)
    ensures dx == dy ==> x' < y' && (y >= x + Grain(x) <==> x' > 0 && y' >= x' + Grain(x'))
  {
    var p := Pow10(k);
    var dp, ep, up := dx * p, dy * p, (dx + 1) * p;
    LeadingOrder(dx, x', dy, y', p);
    GrainBeforeNextDigit(x, dx, x', k);
    assert x == dp + x' && y == ep + y' && up == dp + p;
    if dx == dy && x' == 0 { assert y < x + p; }
  }

  lemma {:induction false} DigitThenRest(dx: nat, dy: nat, a: string, b: string)
    requires dx <= dy < 10
    ensures Less([Digit(dx)] + a, [Digit(dy)] + b) == (dx < dy || Less(a, b))
  {
    if dx == dy { CommonPrefix([Digit(dx)], a, b); }
  }

  lemma {:induction false} FractionCase(dx: nat, x': nat, dy: nat, y': nat, k: nat)
    requires dx < 10 && dy < 10 && x' < Pow10(k) && y' < Pow10(k)
    requires 0 < dx * Pow10(k) + x' < dy * Pow10(k) + y'
    requires dx == dy && 0 < x' < y' ==>
      Less(FractionDigits(x', k) + "Z", FractionDigits(y', k) + "Z") == (y' >= x' + Grain(x'))
    ensures var x, y := dx * Pow10(k) + x', dy * Pow10(k) + y';
      Less([Digit(dx)] + (FractionDigits(x', k) + "Z"), [Digit(dy)] + (FractionDigits(y', k) + "Z")) == (y >= x + Grain(x))
  {
    var x, y := dx * Pow10(k) + x', dy * Pow10(k) + y';
    LeadingDigitsDecide(x, y, dx, dy, x', y', k);
    if dx == dy {
      SameLeadingDigit(dx, x', y', k);
    } else {
      DigitThenRest(dx, dy, FractionDigits(x', k) + "Z", FractionDigits(y', k) + "Z");
    }
  }

  /** Within one second: a fraction reads later than every fraction it is a proper prefix of,
      that is, than every time inside its own grain. */
  lemma {:induction false} FractionOrder(x: nat, y: nat, w: nat)
    requires 0 < x < y < Pow10(w)
    ensures Less(FractionDigits(x, w) + "Z", FractionDigits(y, w) + "Z") == (y >= x + Grain(x))
    decreases w
  {
    var dx, x' := FractionSplit(x, w);
    var dy, y' := FractionSplit(y, w);
    if dx == dy && 0 < x' < y' { FractionOrder(x', y', w - 1); }
    FractionCase(dx, x', dy, y', w - 1);
  }

  // ---------- the stored text ----------

  /** One past the last instant whose year has four digits. */
  const YEAR_10000: nat := DaysBeforeYear(10_000) * DAY * SECOND

  function YearWidth(y: nat, w: nat): (r: nat)
    ensures r >= w && y < Pow10(r)
    decreases y - Pow10(w)
  {
    if y < Pow10(w) then w else YearWidth(y, w + 1)
  }

  function ClockText(c: Clock, tail: string): string {
    Digits(c.year, YearWidth(c.year, 4)) + ("-" + (Digits(c.month, 2) + ("-" + (Digits(c.day, 2) + ("T" +
    (Digits(c.hour, 2) + (":" + (Digits(c.minute, 2) + (":" + (Digits(c.second, 2) + tail))))))))))
  }

  function FractionTail(x: nat): string
    requires x < SECOND
  {
    assert Pow10(9) == SECOND;
    if x == 0 then "Z" else "." + (FractionDigits(x, 9) + "Z")
  }

  function FormatTime(t: Instant): string {
    if t == 0 then "" else ClockText(ClockOf(t / SECOND), FractionTail(t % SECOND))
  }

  predicate HasClockShape(s: string) {
    && |s| >= 20
    && AllDigits(s[0..4]) && s[4] == '-' && AllDigits(s[5..7]) && s[7] == '-' && AllDigits(s[8..10])
    && s[10] == 'T' && AllDigits(s[11..13]) && s[13] == ':' && AllDigits(s[14..16]) && s[16] == ':' && AllDigits(s[17..19])
  }

  predicate HasFractionShape(s: string) {
    s == "Z" || (3 <= |s| <= 11 && s[0] == '.' && s[|s| - 1] == 'Z' && AllDigits(s[1..|s| - 1]))
  }

  function ParseClock(s: string): Clock
    requires HasClockShape(s)
  {
    Clock(Number(s[0..4]), Number(s[5..7]), Number(s[8..10]), Number(s[11..13]), Number(s[14..16]), Number(s[17..19]))
  }

  function ParseFraction(s: string): nat
    requires HasFractionShape(s)
  {
    if s == "Z" then 0 else FractionValue(s[1..|s| - 1], 9)
  }

  /** Text that is not a stored time reads as the zero time. */
  function ParseTime(s: string): Instant {
    if HasClockShape(s) && HasFractionShape(s[19..]) && ParseClock(s).Valid()
    then ParseClock(s).Seconds() * SECOND + ParseFraction(s[19..])
    else 0
  }

  lemma {:induction false} FourDigitYears(t: Instant)
    ensures ClockOf(t / SECOND).year <= 9_999 <==> t < YEAR_10000
  {
    var c := ClockOf(t / SECOND);
    var monthDays := DaysBeforeMonth(IsLeap(c.year), c.month) + c.day - 1;
    MonthsGrow(IsLeap(c.year), c.month + 1, 13);
    YearLength(c.year);
    var days := DaysBeforeYear(c.year) + monthDays;
    assert t / SECOND == days * DAY + c.hour * 3600 + c.minute * 60 + c.second;
    assert t / SECOND / DAY == days;
    if c.year <= 9_999 { YearsGrow(c.year + 1, 10_000); } else { YearsGrow(10_000, c.year); }
  }

  lemma {:induction false} FractionTailRead(x: nat)
    requires x < SECOND
    ensures HasFractionShape(FractionTail(x)) && ParseFraction(FractionTail(x)) == x
  {
    if x > 0 {
      assert Pow10(9) == SECOND;
      FractionRead(x, 9);
      var s := FractionTail(x);
      assert s[1..|s| - 1] == FractionDigits(x, 9);
    }
  }

  /** A field, a separator and the rest, found at offset i of a text. */
  lemma {:induction false} FieldSlices(s: string, i: nat, a: string, sep: char, b: string)
    requires i <= |s| && s[i..] == a + ([sep] + b)
    ensures |s| == i + |a| + 1 + |b|
    ensures s[i..i + |a|] == a && s[i + |a|] == sep && s[i + |a| + 1..] == b
  {
    var t := s[i..];
    assert s[i..i + |a|] == t[..|a|] == a;
    assert s[i + |a|] == t[|a|];
    assert s[i + |a| + 1..] == t[|a| + 1..] == b;
  }

  lemma {:induction false} ClockSlices(c: Clock, tail: string)
    requires YearWidth(c.year, 4) == 4
    ensures var s := ClockText(c, tail);
      && |s| == 19 + |tail| && s[19..] == tail
      && s[0..4] == Digits(c.year, 4) && s[5..7] == Digits(c.month, 2) && s[8..10] == Digits(c.day, 2)
      && s[11..13] == Digits(c.hour, 2) && s[14..16] == Digits(c.minute, 2) && s[17..19] == Digits(c.second, 2)
      && s[4] == '-' && s[7] == '-' && s[10] == 'T' && s[13] == ':' && s[16] == ':'
  {
    var last := Digits(c.second, 2) + tail;
    var s0 := Digits(c.minute, 2) + (":" + last);
    var s1 := Digits(c.hour, 2) + (":" + s0);
    var s2 := Digits(c.day, 2) + ("T" + s1);
    var s3 := Digits(c.month, 2) + ("-" + s2);
    var s := Digits(c.year, 4) + ("-" + s3);
    assert s[0..] == s;
    FieldSlices(s, 0, Digits(c.year, 4), '-', s3);
    FieldSlices(s, 5, Digits(c.month, 2), '-', s2);
    FieldSlices(s, 8, Digits(c.day, 2), 'T', s1);
    FieldSlices(s, 11, Digits(c.hour, 2), ':', s0);
    FieldSlices(s, 14, Digits(c.minute, 2), ':', last);
    assert s[17..] == last;
    assert s[17..19] == last[..2];
    assert s[19..] == last[2..];
  }

  lemma {:induction false} ClockTextRead(c: Clock, tail: string)
    requires c.Valid() && c.year <= 9_999 && |tail| >= 1
    ensures var s := ClockText(c, tail); HasClockShape(s) && ParseClock(s) == c && s[19..] == tail
  {
    assert Pow10(4) == 10_000 && Pow10(2) == 100;
    ClockSlices(c, tail);
    DigitsRead(c.year, 4); DigitsRead(c.month, 2); DigitsRead(c.day, 2);
    DigitsRead(c.hour, 2); DigitsRead(c.minute, 2); DigitsRead(c.second, 2);
  }

  /** A stored time reads back as itself exactly while its year has four digits; so within those
      years run ids and cursor comparisons made on text are made on instants. */
  lemma {:induction false} RoundTrip(t: Instant)
    ensures ParseTime(FormatTime(t)) == t <==> t < YEAR_10000
  {
    FourDigitYears(t);
    if t == 0 {
      assert !HasClockShape("");
    } else {
      var c, tail := ClockOf(t / SECOND), FractionTail(t % SECOND);
      FractionTailRead(t % SECOND);
      if c.year <= 9_999 {
        ClockTextRead(c, tail);
      } else {
        assert Pow10(4) == 10_000;
        var w := YearWidth(c.year, 4);
        assert w > 4;
        DigitsRead(c.year, w);
        assert FormatTime(t)[4] == Digits(c.year, w)[4];
      }
    }
  }

  /** The stored text is the RFC 3339 form in UTC: year, month, day, hour, minute and second in their places,
      nine fractional digits at most, none of them a zero at the end, and no fraction at a whole second. */
  lemma {:induction false} TextIsRfc3339(t: Instant)
    requires 0 < t < YEAR_10000
    ensures var s := FormatTime(t);
      && HasClockShape(s) && HasFractionShape(s[19..]) && ParseClock(s).Valid()
      && t == ParseClock(s).Seconds() * SECOND + ParseFraction(s[19..])
      && (s[19..] == "Z" <==> t % SECOND == 0) && (t % SECOND != 0 ==> s[19..][|s[19..]| - 2] != '0')
  {
    FourDigitYears(t);
    FractionTailRead(t % SECOND);
    ClockTextRead(ClockOf(t / SECOND), FractionTail(t % SECOND));
    TailEnds(t % SECOND);
  }

  lemma {:induction false} TailEnds(x: nat)
    requires x < SECOND
    ensures var s := FractionTail(x); (s == "Z" <==> x == 0) && (x > 0 ==> |s| >= 3 && s[|s| - 2] != '0')
  {
    assert Pow10(9) == SECOND;
    if x > 0 {
      NoZeroAtTheEnd(x, 9);
      var g := FractionDigits(x, 9) + "Z";
      assert FractionTail(x) == "." + g;
    }
  }

  lemma {:induction false} NoZeroAtTheEnd(x: nat, w: nat)
    requires 0 < x < Pow10(w)
    ensures var g := FractionDigits(x, w) + "Z"; |g| >= 2 && g[|g| - 2] != '0'
    decreases w
  {
    var d, rest := FractionSplit(x, w);
    if rest > 0 {
      NoZeroAtTheEnd(rest, w - 1);
    } else {
      assert FractionDigits(rest, w - 1) + "Z" == "Z";
      assert d != 0;
    }
  }

  /** The calendar is the Gregorian one, checked at the epoch, at leap days and at the last year of four digits. */
  lemma {:induction false} KnownDates()
    ensures Clock(1970, 1, 1, 0, 0, 0).Valid() && Clock(1970, 1, 1, 0, 0, 0).Seconds() == 62_135_596_800
    ensures Clock(2024, 2, 29, 12, 30, 15).Valid() && Clock(2024, 2, 29, 12, 30, 15).Seconds() == 63_844_806_615
    ensures Clock(2000, 2, 29, 0, 0, 0).Valid() && !Clock(2100, 2, 29, 0, 0, 0).Valid()
    ensures YEAR_10000 == 315_537_897_600 * 1_000_000_000
  {
    assert DaysBeforeMonth(true, 2) == 31;
  }

  lemma {:induction false} FormatInjective(a: Instant, b: Instant)
    requires a < YEAR_10000 && b < YEAR_10000
    ensures FormatTime(a) == FormatTime(b) ==> a == b
  {
    RoundTrip(a);
    RoundTrip(b);
  }

  lemma {:induction false} ClockTextOrder(c: Clock, e: Clock, a: string, b: string)
    requires c.Valid() && e.Valid() && c.year <= 9_999 && e.year <= 9_999
    ensures Less(ClockText(c, a), ClockText(e, b)) == (c.Before(e) || (c == e && Less(a, b)))
  {
    assert Pow10(4) == 10_000 && Pow10(2) == 100;
    var s0, z0 := ":" + (Digits(c.second, 2) + a), ":" + (Digits(e.second, 2) + b);
    var s1, z1 := ":" + (Digits(c.minute, 2) + s0), ":" + (Digits(e.minute, 2) + z0);
    var s2, z2 := "T" + (Digits(c.hour, 2) + s1), "T" + (Digits(e.hour, 2) + z1);
    var s3, z3 := "-" + (Digits(c.day, 2) + s2), "-" + (Digits(e.day, 2) + z2);
    var s4, z4 := "-" + (Digits(c.month, 2) + s3), "-" + (Digits(e.month, 2) + z3);
    CommonPrefix(":", Digits(c.second, 2) + a, Digits(e.second, 2) + b);
    CommonPrefix(":", Digits(c.minute, 2) + s0, Digits(e.minute, 2) + z0);
    CommonPrefix("T", Digits(c.hour, 2) + s1, Digits(e.hour, 2) + z1);
    CommonPrefix("-", Digits(c.day, 2) + s2, Digits(e.day, 2) + z2);
    CommonPrefix("-", Digits(c.month, 2) + s3, Digits(e.month, 2) + z3);
    FieldOrder(c.second, e.second, 2, a, b);
    FieldOrder(c.minute, e.minute, 2, s0, z0);
    FieldOrder(c.hour, e.hour, 2, s1, z1);
    FieldOrder(c.day, e.day, 2, s2, z2);
    FieldOrder(c.month, e.month, 2, s3, z3);
    FieldOrder(c.year, e.year, 4, s4, z4);
  }

  /** How far past t the text of t still reads later: to the end of the second for a whole second,
      otherwise one unit of the last digit written. */
  function Shadow(t: Instant): (g: nat)
    requires t > 0
    ensures 1 <= g <= SECOND
  {
    if t % SECOND == 0 then SECOND else
      assert Pow10(9) == SECOND;
      GrainFits(t % SECOND, 9);
      Grain(t % SECOND)
  }

  lemma {:induction false} FractionTailOrder(x: nat, y: nat)
    requires x < y < SECOND
    ensures Less(FractionTail(x), FractionTail(y)) == (x > 0 && y >= x + Grain(x))
  {
    assert Pow10(9) == SECOND;
    if x > 0 {
      FractionOrder(x, y, 9);
      CommonPrefix(".", FractionDigits(x, 9) + "Z", FractionDigits(y, 9) + "Z");
    }
  }

  lemma {:induction false} ShadowInsideSecond(a: Instant)
    requires a > 0
    ensures a % SECOND + Shadow(a) <= SECOND
  {
    assert Pow10(9) == SECOND;
    if a % SECOND > 0 { GrainFits(a % SECOND, 9); }
  }

  lemma {:induction false} TextOrderAcrossSeconds(a: Instant, b: Instant)
    requires 0 < a < b < YEAR_10000 && a / SECOND < b / SECOND
    ensures Less(FormatTime(a), FormatTime(b))
  {
    FourDigitYears(a);
    FourDigitYears(b);
    ClockOrder(ClockOf(a / SECOND), ClockOf(b / SECOND));
    ClockTextOrder(ClockOf(a / SECOND), ClockOf(b / SECOND), FractionTail(a % SECOND), FractionTail(b % SECOND));
  }

  lemma {:induction false} TextOrderInsideSecond(a: Instant, b: Instant)
    requires 0 < a < b < YEAR_10000 && a / SECOND == b / SECOND
    ensures Less(FormatTime(a), FormatTime(b)) <==> b >= a + Shadow(a)
  {
    FourDigitYears(a);
    var c := ClockOf(a / SECOND);
    ClockTextOrder(c, c, FractionTail(a % SECOND), FractionTail(b % SECOND));
    FractionTailOrder(a % SECOND, b % SECOND);
  }

  /** Exactly when the text of two instants is in time order: the later one lies outside the
      shadow of the earlier. */
  lemma {:induction false} TextOrderExact(a: Instant, b: Instant)
    requires a < b < YEAR_10000
    ensures Less(FormatTime(a), FormatTime(b)) <==> (a == 0 || b >= a + Shadow(a))
  {
    if a > 0 {
      ShadowInsideSecond(a);
      if a / SECOND < b / SECOND { TextOrderAcrossSeconds(a, b); } else { TextOrderInsideSecond(a, b); }
    }
  }

  /** Two instants in different whole seconds are always stored in order. */
  lemma {:induction false} DifferentSecondsInOrder(a: Instant, b: Instant)
    requires a < YEAR_10000 && b < YEAR_10000 && a / SECOND < b / SECOND
    ensures Less(FormatTime(a), FormatTime(b)) && !Less(FormatTime(b), FormatTime(a))
  {
    if a > 0 { ShadowInsideSecond(a); }
    TextOrderExact(a, b);
    Asymmetric(FormatTime(a), FormatTime(b));
  }

  // ---------- comparisons the queries make ----------

  /** column <= value, on stored text. */
  predicate StoredAtMost(a: Instant, b: Instant) {
    AtMost(FormatTime(a), FormatTime(b))
  }

  /** The queries' <= on text against <= on time, for all pairs: they agree unless the instants
      differ and the later lies in the earlier one's shadow. */
  lemma {:induction false} StoredAtMostExact(a: Instant, b: Instant)
    requires a < YEAR_10000 && b < YEAR_10000
    ensures StoredAtMost(a, b) <==>
      if a == b then true
      else if a < b then a == 0 || b >= a + Shadow(a)
      else b > 0 && a < b + Shadow(b)
  {
    if a == b {
      Irreflexive(FormatTime(a));
    } else if a < b {
      TextOrderExact(a, b);
      Trichotomy(FormatTime(a), FormatTime(b));
      FormatInjective(a, b);
      if Less(FormatTime(a), FormatTime(b)) { Asymmetric(FormatTime(a), FormatTime(b)); }
    } else {
      TextOrderExact(b, a);
    }
  }

  /** A deadline is never judged passed a full second early, and always is a full second late. */
  lemma {:induction false} DeadlineWithinOneSecond(deadline: Instant, now: Instant)
    requires deadline < YEAR_10000 && now < YEAR_10000
    ensures StoredAtMost(deadline, now) ==> deadline < now + SECOND
    ensures now >= deadline + SECOND ==> StoredAtMost(deadline, now)
  {
    StoredAtMostExact(deadline, now);
  }

  /** Half a second past a whole second is stored before it. */
  lemma {:induction false} TextMisordersInsideASecond()
    ensures var whole := SECOND; whole < whole + 500_000_000 && Less(FormatTime(whole + 500_000_000), FormatTime(whole))
  {
    var a, b := SECOND, SECOND + 500_000_000;
    YearsGrow(2, 10_000);
    assert DaysBeforeYear(2) == 365;
    assert b < YEAR_10000;
    TextOrderExact(a, b);
    Trichotomy(FormatTime(a), FormatTime(b));
    FormatInjective(a, b);
  }
}
