/** Reliability times are stored as fixed-width text; comparing the text compares the times (section 5.1 of RFC
    3339). */
module TimeFormat {

  // ---- fixed-width numbers and byte order ----

  function Power(w: nat): nat {
    if w == 0 then 1 else 10 * Power(w - 1)
  }

  function Digit(n: nat): char
    requires n < 10
  {
    ('0' as int + n) as char
  }

  function Pad(n: nat, w: nat): (s: string)
    ensures |s| == w
  {
    if w == 0 then "" else Pad(n / 10, w - 1) + [Digit(n % 10)]
  }

  /** Byte order of texts. */
  predicate TextBefore(a: string, b: string) {
    b != "" && (a == "" || a[0] < b[0] || (a[0] == b[0] && TextBefore(a[1..], b[1..])))
  }

  lemma {:induction false} TextJoined(a: string, b: string, x: string, y: string)
    requires |a| == |b| && |x| == |y|
    ensures TextBefore(a + x, b + y) <==> TextBefore(a, b) || (a == b && TextBefore(x, y))
  {
    if a == "" {
      assert a + x == x && b + y == y;
    } else {
      TextJoined(a[1..], b[1..], x, y);
      assert (a + x)[1..] == a[1..] + x && (b + y)[1..] == b[1..] + y;
      assert a == b <==> a[0] == b[0] && a[1..] == b[1..];
    }
  }

  lemma {:induction false} PadOrder(m: nat, n: nat, w: nat)
    requires m < Power(w) && n < Power(w)
    ensures TextBefore(Pad(m, w), Pad(n, w)) <==> m < n
    ensures Pad(m, w) == Pad(n, w) <==> m == n
  {
    if w > 0 {
      PadOrder(m / 10, n / 10, w - 1);
      TextJoined(Pad(m / 10, w - 1), Pad(n / 10, w - 1), [Digit(m % 10)], [Digit(n % 10)]);
      LastDigit(Pad(m / 10, w - 1), m % 10, Pad(n / 10, w - 1), n % 10);
    }
  }

  lemma LastDigit(a: string, m: nat, b: string, n: nat)
    requires |a| == |b| && m < 10 && n < 10
    ensures a + [Digit(m)] == b + [Digit(n)] <==> a == b && m == n
    ensures TextBefore([Digit(m)], [Digit(n)]) <==> m < n
  {
    var x, y := a + [Digit(m)], b + [Digit(n)];
    assert x[..|a|] == a && y[..|a|] == b && x[|a|] == Digit(m) && y[|a|] == Digit(n);
  }

  // ---- layouts: numbers of fixed width, each followed by a separator ----

  datatype Part = Part(width: nat, separator: char)

  predicate Fits(layout: seq<Part>, values: seq<nat>) {
    |values| == |layout| && forall i | 0 <= i < |layout| :: values[i] < Power(layout[i].width)
  }

  function Render(layout: seq<Part>, values: seq<nat>): string
    requires |values| == |layout|
  {
    if layout == [] then ""
    else Pad(values[0], layout[0].width) + [layout[0].separator] + Render(layout[1..], values[1..])
  }

  predicate ValuesBefore(a: seq<nat>, b: seq<nat>)
    requires |a| == |b|
  {
    a != [] && (a[0] < b[0] || (a[0] == b[0] && ValuesBefore(a[1..], b[1..])))
  }

  lemma {:induction false} RenderLength(layout: seq<Part>, a: seq<nat>, b: seq<nat>)
    requires |a| == |b| == |layout|
    ensures |Render(layout, a)| == |Render(layout, b)|
  {
    if layout != [] {
      RenderLength(layout[1..], a[1..], b[1..]);
    }
  }

  /** Texts of one layout are ordered as their numbers are, from the left. */
  lemma {:induction false} RenderOrder(layout: seq<Part>, a: seq<nat>, b: seq<nat>)
    requires Fits(layout, a) && Fits(layout, b)
    ensures |Render(layout, a)| == |Render(layout, b)|
    ensures TextBefore(Render(layout, a), Render(layout, b)) <==> ValuesBefore(a, b)
  {
    RenderLength(layout, a, b);
    if layout != [] {
      var w, sep := layout[0].width, [layout[0].separator];
      RenderOrder(layout[1..], a[1..], b[1..]);
      PadOrder(a[0], b[0], w);
      TextJoined(Pad(a[0], w) + sep, Pad(b[0], w) + sep, Render(layout[1..], a[1..]), Render(layout[1..], b[1..]));
      TextJoined(Pad(a[0], w), Pad(b[0], w), sep, sep);
      Separated(Pad(a[0], w), Pad(b[0], w), sep);
    }
  }

  lemma Separated(a: string, b: string, sep: string)
    requires |a| == |b| && |sep| == 1
    ensures a + sep == b + sep <==> a == b
    ensures !TextBefore(sep, sep)
  {
    assert (a + sep)[..|a|] == a && (b + sep)[..|a|] == b;
  }

  // ---- the calendar ----

  predicate Leap(y: nat) {
    y % 4 == 0 && (y % 100 != 0 || y % 400 == 0)
  }

  function DaysInMonth(y: nat, m: nat): nat {
    if m == 2 then (if Leap(y) then 29 else 28) else if m in {4, 6, 9, 11} then 30 else 31
  }

  /** Days of the year before month m, counting from 1; month 13 is the end of the year. */
  function DaysBeforeMonth(y: nat, m: nat): nat {
    if m <= 1 then 0 else DaysBeforeMonth(y, m - 1) + DaysInMonth(y, m - 1)
  }

  function DaysBeforeYear(y: nat): nat {
    if y == 0 then 0 else DaysBeforeYear(y - 1) + DaysBeforeMonth(y - 1, 13)
  }

  datatype Civil = Civil(year: nat, month: nat, day: nat, hour: nat, minute: nat, second: nat, micro: nat)

  predicate Valid(c: Civil) {
    && 1 <= c.month <= 12 && 1 <= c.day <= DaysInMonth(c.year, c.month)
    && c.hour < 24 && c.minute < 60 && c.second < 60 && c.micro < 1_000_000
  }

  function DayNumber(y: nat, m: nat, d: nat): int {
    DaysBeforeYear(y) + DaysBeforeMonth(y, m) + d - 1
  }

  function MicroOfDay(c: Civil): nat {
    ((c.hour * 60 + c.minute) * 60 + c.second) * 1_000_000 + c.micro
  }

  const DAY := 86_400_000_000

  /** Microseconds since the start of year 0. */
  function Instant(c: Civil): int {
    DayNumber(c.year, c.month, c.day) * DAY + MicroOfDay(c)
  }

  function Values(c: Civil): seq<nat> {
    [c.year, c.month, c.day, c.hour, c.minute, c.second, c.micro]
  }

  lemma {:induction false} MonthsGrow(y: nat, m: nat, n: nat)
    requires 1 <= m <= n
    ensures DaysBeforeMonth(y, m) <= DaysBeforeMonth(y, n)
  {
    if m < n {
      MonthsGrow(y, m, n - 1);
    }
  }

  lemma {:induction false} YearsGrow(y: nat, z: nat)
    requires y <= z
    ensures DaysBeforeYear(y) <= DaysBeforeYear(z)
  {
    if y < z {
      YearsGrow(y, z - 1);
    }
  }

  lemma DaysInOrder(a: Civil, b: Civil)
    requires Valid(a) && Valid(b)
    requires DateEarlier(a, b)
    ensures DayNumber(a.year, a.month, a.day) < DayNumber(b.year, b.month, b.day)
  {
    if a.year < b.year {
      MonthsGrow(a.year, a.month + 1, 13);
      YearsGrow(a.year + 1, b.year);
    } else if a.month < b.month {
      MonthsGrow(a.year, a.month + 1, b.month);
    }
  }

  lemma MicrosInOrder(a: Civil, b: Civil)
    requires Valid(a) && Valid(b)
    ensures 0 <= MicroOfDay(a) < DAY
    ensures TimeEarlier(a, b) ==> MicroOfDay(a) < MicroOfDay(b)
  {
  }

  predicate TimeEarlier(a: Civil, b: Civil) {
    || a.hour < b.hour
    || (a.hour == b.hour && a.minute < b.minute)
    || (a.hour == b.hour && a.minute == b.minute && a.second < b.second)
    || (a.hour == b.hour && a.minute == b.minute && a.second == b.second && a.micro < b.micro)
  }

  predicate DateEarlier(a: Civil, b: Civil) {
    a.year < b.year || (a.year == b.year && (a.month < b.month || (a.month == b.month && a.day < b.day)))
  }

  predicate SameDate(a: Civil, b: Civil) {
    a.year == b.year && a.month == b.month && a.day == b.day
  }

  predicate Earlier(a: Civil, b: Civil) {
    ValuesBefore(Values(a), Values(b))
  }

  lemma HeadOrder(x: nat, s: seq<nat>, y: nat, t: seq<nat>)
    requires |s| == |t|
    ensures ValuesBefore([x] + s, [y] + t) <==> x < y || (x == y && ValuesBefore(s, t))
    ensures !ValuesBefore([], [])
  {
  }

  lemma Unfolded(a: Civil, b: Civil)
    ensures Earlier(a, b) <==> DateEarlier(a, b) || (SameDate(a, b) && TimeEarlier(a, b))
  {
    hide ValuesBefore;
    var s, t := [a.micro], [b.micro];
    HeadOrder(a.micro, [], b.micro, []);
    assert [a.micro] + [] == s && [b.micro] + [] == t;
    HeadOrder(a.second, s, b.second, t);
    s, t := [a.second] + s, [b.second] + t;
    HeadOrder(a.minute, s, b.minute, t);
    s, t := [a.minute] + s, [b.minute] + t;
    HeadOrder(a.hour, s, b.hour, t);
    s, t := [a.hour] + s, [b.hour] + t;
    HeadOrder(a.day, s, b.day, t);
    s, t := [a.day] + s, [b.day] + t;
    HeadOrder(a.month, s, b.month, t);
    s, t := [a.month] + s, [b.month] + t;
    HeadOrder(a.year, s, b.year, t);
    assert [a.year] + s == Values(a) && [b.year] + t == Values(b);
  }

  /** The calendar fields of two instants are ordered as the instants are. */
  lemma InstantOrder(a: Civil, b: Civil)
    requires Valid(a) && Valid(b)
    ensures Earlier(a, b) <==> Instant(a) < Instant(b)
  {
    Unfolded(a, b);
    if Earlier(a, b) {
      Forward(a, b);
    } else if a != b {
      Unfolded(b, a);
      Forward(b, a);
    }
  }

  lemma Forward(a: Civil, b: Civil)
    requires Valid(a) && Valid(b) && Earlier(a, b)
    ensures Instant(a) < Instant(b)
  {
    hide DaysInMonth, MicroOfDay, DayNumber;
    Unfolded(a, b);
    MicrosInOrder(a, b);
    MicrosInOrder(b, a);
    if DateEarlier(a, b) {
      DaysInOrder(a, b);
    }
  }

  // ---- from an instant to its fields ----

  lemma YearHasDays(y: nat)
    ensures DaysBeforeYear(y) < DaysBeforeYear(y + 1)
  {
  }

  function YearOf(days: nat, from: nat): (y: nat)
    requires DaysBeforeYear(from) <= days
    ensures DaysBeforeYear(y) <= days < DaysBeforeYear(y + 1)
    decreases days - DaysBeforeYear(from)
  {
    if days < DaysBeforeYear(from + 1) then from
    else
      YearHasDays(from);
      YearOf(days, from + 1)
  }

  function MonthOf(y: nat, days: nat, from: nat): (m: nat)
    requires 1 <= from <= 12 && DaysBeforeMonth(y, from) <= days < DaysBeforeMonth(y, 13)
    ensures 1 <= m <= 12 && DaysBeforeMonth(y, m) <= days < DaysBeforeMonth(y, m + 1)
    decreases 13 - from
  {
    if days < DaysBeforeMonth(y, from + 1) then from else MonthOf(y, days, from + 1)
  }

  /** The UTC fields of an instant, in microseconds since the start of year 0. */
  function CivilOf(t: nat): Civil {
    var days, micros := t / DAY, t % DAY;
    var y := YearOf(days, 0);
    var m := MonthOf(y, days - DaysBeforeYear(y), 1);
    var seconds := micros / 1_000_000;
    Civil(y, m, days - DaysBeforeYear(y) - DaysBeforeMonth(y, m) + 1,
          seconds / 3600, seconds / 60 % 60, seconds % 60, micros % 1_000_000)
  }

  lemma CivilOfInstant(t: nat)
    ensures Valid(CivilOf(t)) && Instant(CivilOf(t)) == t
  {
  }

  // ---- FormatReliabilityTime ----

  /** A year takes at least four digits. */
  function YearWidth(y: nat): nat {
    if y < 10_000 then 4 else YearWidth(y / 10) + 1
  }

  function Layout(y: nat): seq<Part> {
    [Part(YearWidth(y), '-'), Part(2, '-'), Part(2, 'T'), Part(2, ':'), Part(2, ':'), Part(2, '.'), Part(6, 'Z')]
  }

  /** The text of an instant given in nanoseconds; what is below a microsecond is cut off. */
  function FormatReliabilityTime(nanos: nat): string {
    var c := CivilOf(nanos / 1000);
    Render(Layout(c.year), Values(c))
  }

  lemma {:induction false} YearFits(y: nat)
    ensures y < Power(YearWidth(y))
  {
    if y < 10_000 {
      assert Power(4) == 10_000;
    } else {
      YearFits(y / 10);
    }
  }

  lemma FieldsFit(c: Civil)
    requires Valid(c)
    ensures Fits(Layout(c.year), Values(c))
  {
    YearFits(c.year);
    assert Power(2) == 100 && Power(6) == 1_000_000;
    hide YearWidth;
  }

  /** Where the years are equally wide, as up to the year 9999, comparing two texts compares the times they were made
      from, to the microsecond. */
  lemma TextOrderIsTimeOrder(s: nat, t: nat)
    requires YearWidth(CivilOf(s / 1000).year) == YearWidth(CivilOf(t / 1000).year)
    ensures TextBefore(FormatReliabilityTime(s), FormatReliabilityTime(t)) <==> s / 1000 < t / 1000
    ensures FormatReliabilityTime(s) == FormatReliabilityTime(t) <==> s / 1000 == t / 1000
  {
    hide CivilOf, Values, Instant, Fits, YearWidth;
    OneDirection(s, t);
    OneDirection(t, s);
    if FormatReliabilityTime(s) == FormatReliabilityTime(t) {
      NotBeforeItself(FormatReliabilityTime(s));
    }
  }

  lemma OneDirection(s: nat, t: nat)
    requires YearWidth(CivilOf(s / 1000).year) == YearWidth(CivilOf(t / 1000).year)
    ensures TextBefore(FormatReliabilityTime(s), FormatReliabilityTime(t)) <==> s / 1000 < t / 1000
  {
    hide CivilOf, Instant, Fits, Render, Values, YearWidth;
    var a, b := CivilOf(s / 1000), CivilOf(t / 1000);
    CivilOfInstant(s / 1000);
    CivilOfInstant(t / 1000);
    FieldsFit(a);
    FieldsFit(b);
    RenderOrder(Layout(a.year), Values(a), Values(b));
    InstantOrder(a, b);
  }

  lemma {:induction false} NotBeforeItself(a: string)
    ensures !TextBefore(a, a)
  {
    if a != "" {
      NotBeforeItself(a[1..]);
    }
  }

  /** Past that the width grows and the order breaks: the text of any time in year 10000 comes before that of any time
      in year 9999. */
  lemma OrderBreaksAfterYear9999(s: nat, t: nat)
    requires CivilOf(s / 1000).year == 9999 && CivilOf(t / 1000).year == 10_000
    ensures s < t && TextBefore(FormatReliabilityTime(t), FormatReliabilityTime(s))
  {
    hide CivilOf, Render, Instant, Pad, Valid, Earlier;
    var a, b := CivilOf(s / 1000), CivilOf(t / 1000);
    CivilOfInstant(s / 1000);
    CivilOfInstant(t / 1000);
    Unfolded(a, b);
    InstantOrder(a, b);
    FirstCharacters();
    RenderHead(Layout(9999), Values(a));
    RenderHead(Layout(10_000), Values(b));
  }

  lemma FirstCharacters()
    ensures YearWidth(9999) == 4 && YearWidth(10_000) == 5
    ensures Pad(9999, 4)[0] == '9' && Pad(10_000, 5)[0] == '1'
  {
  }

  lemma RenderHead(layout: seq<Part>, values: seq<nat>)
    requires |values| == |layout| > 0 && layout[0].width > 0
    ensures Render(layout, values) != "" && Render(layout, values)[0] == Pad(values[0], layout[0].width)[0]
  {
  }

  // ---- the text read back ----

  /** The decimal number a text of digits stands for. */
  function NumberOf(s: string): int {
    if s == "" then 0 else 10 * NumberOf(s[..|s| - 1]) + (s[|s| - 1] as int - '0' as int)
  }

  lemma {:induction false} PadReads(n: nat, w: nat)
    requires n < Power(w)
    ensures NumberOf(Pad(n, w)) == n
  {
    if w > 0 {
      PadReads(n / 10, w - 1);
      assert Pad(n, w)[..w - 1] == Pad(n / 10, w - 1);
    }
  }

  /** Where the field in place i begins. */
  function Offset(layout: seq<Part>, i: nat): nat
    requires i <= |layout|
  {
    if i == 0 then 0 else layout[0].width + 1 + Offset(layout[1..], i - 1)
  }

  lemma {:induction false} FieldAt(layout: seq<Part>, values: seq<nat>, i: nat)
    requires Fits(layout, values) && i < |layout|
    ensures var s, from, w := Render(layout, values), Offset(layout, i), layout[i].width;
            && from + w < |s| && s[from + w] == layout[i].separator && NumberOf(s[from..from + w]) == values[i]
            && Offset(layout, |layout|) == |s|
  {
    hide NumberOf, Power;
    var s := Render(layout, values);
    var head := Pad(values[0], layout[0].width) + [layout[0].separator];
    var tail := Render(layout[1..], values[1..]);
    assert s == head + tail;
    WholeLength(layout, values);
    if i == 0 {
      PadReads(values[0], layout[0].width);
      assert s[..layout[0].width] == Pad(values[0], layout[0].width);
    } else {
      FieldAt(layout[1..], values[1..], i - 1);
      var from, w := Offset(layout[1..], i - 1), layout[i].width;
      assert s[|head| + from..|head| + from + w] == tail[from..from + w];
    }
  }

  lemma {:induction false} WholeLength(layout: seq<Part>, values: seq<nat>)
    requires |values| == |layout|
    ensures |Render(layout, values)| == Offset(layout, |layout|)
  {
    if layout != [] {
      WholeLength(layout[1..], values[1..]);
    }
  }

  lemma OffsetIs(layout: seq<Part>, i: nat)
    requires i < |layout|
    ensures Offset(layout, i + 1) == Offset(layout, i) + layout[i].width + 1
  {
    if i > 0 {
      OffsetIs(layout[1..], i - 1);
    }
  }

  /** The fields between the separators of a time like 2026-01-31T23:59:59.000001Z. */
  function ReadBack(s: string): Civil
    requires |s| == 27
  {
    Civil(Field(s, 0, 4), Field(s, 5, 7), Field(s, 8, 10), Field(s, 11, 13), Field(s, 14, 16), Field(s, 17, 19),
          Field(s, 20, 26))
  }

  function Field(s: string, from: nat, to: nat): nat
    requires from <= to <= |s|
  {
    var n := NumberOf(s[from..to]); if n < 0 then 0 else n
  }

  /** Up to the year 9999 the text has the form 2006-01-02T15:04:05.000000Z, and its fields are a valid date and time
      that give the instant back to the microsecond. */
  lemma FormatReadsBack(nanos: nat)
    requires CivilOf(nanos / 1000).year < 10_000
    ensures var s := FormatReliabilityTime(nanos);
            && |s| == 27 && s[4] == '-' && s[7] == '-' && s[10] == 'T' && s[13] == ':' && s[16] == ':' && s[19] == '.'
            && s[26] == 'Z'
            && Valid(ReadBack(s)) && Instant(ReadBack(s)) == nanos / 1000
  {
    hide CivilOf, Render, Pad, Instant, Valid, NumberOf, Fits, YearWidth, Offset;
    var c := CivilOf(nanos / 1000);
    CivilOfInstant(nanos / 1000);
    FieldsFit(c);
    FourDigits(c.year);
    var layout, values := Layout(c.year), Values(c);
    assert Offset(layout, 0) == 0 by {
      OffsetStarts(layout);
    }
    forall i | 0 <= i < 7
      ensures Offset(layout, i + 1) == Offset(layout, i) + layout[i].width + 1
    {
      OffsetIs(layout, i);
    }
    assert Offset(layout, 1) == 5 && Offset(layout, 2) == 8 && Offset(layout, 3) == 11 && Offset(layout, 4) == 14;
    assert Offset(layout, 5) == 17 && Offset(layout, 6) == 20 && Offset(layout, 7) == 27;
    FieldAt(layout, values, 0);
    FieldAt(layout, values, 1);
    FieldAt(layout, values, 2);
    FieldAt(layout, values, 3);
    FieldAt(layout, values, 4);
    FieldAt(layout, values, 5);
    FieldAt(layout, values, 6);
    assert ReadBack(FormatReliabilityTime(nanos)) == c;
  }

  lemma FourDigits(y: nat)
    requires y < 10_000
    ensures YearWidth(y) == 4
  {
  }

  lemma OffsetStarts(layout: seq<Part>)
    ensures Offset(layout, 0) == 0
  {
  }

  // ---- the Gregorian calendar ----

  /** Months have 31 and 30 days in turn, with July and August both 31, and February 28, or 29 in leap years. */
  lemma MonthLength(y: nat, m: nat)
    requires 1 <= m <= 12
    ensures m < 8 && m % 2 == 1 ==> DaysInMonth(y, m) == 31
    ensures m < 8 && m % 2 == 0 && m != 2 ==> DaysInMonth(y, m) == 30
    ensures m >= 8 ==> DaysInMonth(y, m) == 31 - m % 2
    ensures m == 2 ==> DaysInMonth(y, m) == if (y % 4 == 0 && y % 100 != 0) || y % 400 == 0 then 29 else 28
  {
    LeapIff(y);
    hide Leap;
    MonthParity(m);
  }

  lemma MonthParity(m: nat)
    requires 1 <= m <= 12
    ensures m % 2 == if m in {1, 3, 5, 7, 9, 11} then 1 else 0
  {
  }

  lemma LeapIff(y: nat)
    ensures Leap(y) <==> (y % 4 == 0 && y % 100 != 0) || y % 400 == 0
  {
    var k := y / 400;
    assert y % 400 == 0 ==> y == 4 * (100 * k);
  }

  lemma YearLength(y: nat)
    ensures DaysBeforeYear(y + 1) - DaysBeforeYear(y)
            == if (y % 4 == 0 && y % 100 != 0) || y % 400 == 0 then 366 else 365
  {
    MonthLength(y, 2);
    var feb := DaysInMonth(y, 2);
    MonthSums(y, 1, 4);
    MonthSums(y, 4, 7);
    MonthSums(y, 7, 10);
    MonthSums(y, 10, 13);
    hide DaysBeforeMonth;
    assert DaysBeforeMonth(y, 13) == 337 + feb;
  }

  lemma MonthSums(y: nat, m: nat, n: nat)
    requires m >= 1 && n == m + 3
    ensures DaysBeforeMonth(y, n)
            == DaysBeforeMonth(y, m) + DaysInMonth(y, m) + DaysInMonth(y, m + 1) + DaysInMonth(y, m + 2)
    ensures DaysBeforeMonth(y, 1) == 0
  {
    hide DaysInMonth;
    assert DaysBeforeMonth(y, m + 1) == DaysBeforeMonth(y, m) + DaysInMonth(y, m);
    assert DaysBeforeMonth(y, m + 2) == DaysBeforeMonth(y, m + 1) + DaysInMonth(y, m + 1);
    assert DaysBeforeMonth(y, m + 3) == DaysBeforeMonth(y, m + 2) + DaysInMonth(y, m + 2);
  }
}
