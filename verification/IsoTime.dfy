/**
 * The stored form of an instant: fixed-width UTC text YYYY-MM-DDTHH:MM:SS.mmmZ, compared
 * character by character (section 5.1 of RFC 3339), for the years 0000 to 9999.
 */
module IsoTime {

  datatype Stamp = Stamp(year: nat, month: nat, day: nat, hour: nat, minute: nat, second: nat, ms: nat)

  const DAY_MS: nat := 86400000

  // Days from 0000-01-01 to 1970-01-01.
  const EPOCH_DAY: int := 719528

  predicate Leap(year: nat) { year % 4 == 0 && (year % 100 != 0 || year % 400 == 0) }

  function YearLength(year: nat): nat { if Leap(year) then 366 else 365 }

  function MonthLength(year: nat, month: nat): nat {
    if month == 2 then if Leap(year) then 29 else 28
    else if month in {4, 6, 9, 11} then 30
    else 31
  }

  function DaysBeforeYear(year: nat): nat {
    if year == 0 then 0 else DaysBeforeYear(year - 1) + YearLength(year - 1)
  }

  function DaysBeforeMonth(year: nat, month: nat): nat {
    if month <= 1 then 0 else DaysBeforeMonth(year, month - 1) + MonthLength(year, month - 1)
  }

  predicate Valid(s: Stamp) {
    && s.year <= 9999 && 1 <= s.month <= 12 && 1 <= s.day <= MonthLength(s.year, s.month)
    && s.hour < 24 && s.minute < 60 && s.second < 60 && s.ms < 1000
  }

  function DayNumber(s: Stamp): int { DaysBeforeYear(s.year) + DaysBeforeMonth(s.year, s.month) + s.day - 1 }

  function TimeOfDay(s: Stamp): nat { ((s.hour * 60 + s.minute) * 60 + s.second) * 1000 + s.ms }

  // Milliseconds since the epoch.
  function InstantOf(s: Stamp): int { (DayNumber(s) - EPOCH_DAY) * DAY_MS + TimeOfDay(s) }

  // ----- Text -----

  function Digit(n: nat): char
    requires n < 10
  {
    ('0' as int + n) as char
  }

  function Pad(n: nat, width: nat): string {
    if width == 0 then "" else Pad(n / 10, width - 1) + [Digit(n % 10)]
  }

  // A field is written with its width and followed by its separator.
  datatype Field = Field(value: nat, width: nat, separator: char)

  function Written(fields: seq<Field>): string {
    if fields == [] then ""
    else Pad(fields[0].value, fields[0].width) + [fields[0].separator] + Written(fields[1..])
  }

  function Fields(s: Stamp): seq<Field> {
    [Field(s.year, 4, '-'), Field(s.month, 2, '-'), Field(s.day, 2, 'T'),
     Field(s.hour, 2, ':'), Field(s.minute, 2, ':'), Field(s.second, 2, '.'), Field(s.ms, 3, 'Z')]
  }

  function TextOf(s: Stamp): string { Written(Fields(s)) }

  predicate TextBefore(a: string, b: string) {
    b != [] && (a == [] || a[0] < b[0] || (a[0] == b[0] && TextBefore(a[1..], b[1..])))
  }

  // ----- Text order is the order of the fields -----

  lemma {:induction false} ConcatOrder(a: string, b: string, c: string, d: string)
    requires |a| == |b|
    ensures TextBefore(a + c, b + d) <==> TextBefore(a, b) || (a == b && TextBefore(c, d))
  {
    if a == [] {
      assert a + c == c && b + d == d;
    } else {
      assert (a + c)[1..] == a[1..] + c && (b + d)[1..] == b[1..] + d;
      assert a == b <==> a[0] == b[0] && a[1..] == b[1..] by {
        assert a == [a[0]] + a[1..] && b == [b[0]] + b[1..];
      }
      ConcatOrder(a[1..], b[1..], c, d);
    }
  }

  lemma {:induction false} NothingBeforeItself(a: string)
    ensures !TextBefore(a, a)
  {
    if a != [] {
      NothingBeforeItself(a[1..]);
    }
  }

  function Power10(width: nat): nat { if width == 0 then 1 else 10 * Power10(width - 1) }

  lemma {:induction false} PadOrder(m: nat, n: nat, width: nat)
    requires m < Power10(width) && n < Power10(width)
    ensures |Pad(m, width)| == |Pad(n, width)| == width
    ensures TextBefore(Pad(m, width), Pad(n, width)) <==> m < n
    ensures Pad(m, width) == Pad(n, width) <==> m == n
  {
    if width != 0 {
      PadOrder(m / 10, n / 10, width - 1);
      var a, b := Pad(m / 10, width - 1), Pad(n / 10, width - 1);
      ConcatOrder(a, b, [Digit(m % 10)], [Digit(n % 10)]);
      assert a + [Digit(m % 10)] == b + [Digit(n % 10)] <==> a == b && m % 10 == n % 10 by {
        assert (a + [Digit(m % 10)])[..width - 1] == a && (b + [Digit(n % 10)])[..width - 1] == b;
        assert (a + [Digit(m % 10)])[width - 1] == Digit(m % 10) && (b + [Digit(n % 10)])[width - 1] == Digit(n % 10);
      }
    }
  }

  ghost predicate SameLayout(a: seq<Field>, b: seq<Field>) {
    && |a| == |b|
    && forall i :: 0 <= i < |a| ==>
         && a[i].width == b[i].width && a[i].separator == b[i].separator
         && a[i].value < Power10(a[i].width) && b[i].value < Power10(b[i].width)
  }

  predicate FieldsBefore(a: seq<Field>, b: seq<Field>)
    requires |a| == |b|
  {
    a != [] && (a[0].value < b[0].value || (a[0].value == b[0].value && FieldsBefore(a[1..], b[1..])))
  }

  lemma {:induction false} WrittenOrder(a: seq<Field>, b: seq<Field>)
    requires SameLayout(a, b)
    ensures TextBefore(Written(a), Written(b)) <==> FieldsBefore(a, b)
  {
    if a != [] {
      var padA, padB := Pad(a[0].value, a[0].width), Pad(b[0].value, b[0].width);
      PadOrder(a[0].value, b[0].value, a[0].width);
      WrittenOrder(a[1..], b[1..]);
      ConcatOrder([a[0].separator], [b[0].separator], Written(a[1..]), Written(b[1..]));
      NothingBeforeItself([a[0].separator]);
      ConcatOrder(padA, padB, [a[0].separator] + Written(a[1..]), [b[0].separator] + Written(b[1..]));
      assert padA + [a[0].separator] + Written(a[1..]) == padA + ([a[0].separator] + Written(a[1..]));
      assert padB + [b[0].separator] + Written(b[1..]) == padB + ([b[0].separator] + Written(b[1..]));
    }
  }

  // ----- The order of the fields is the order of the instants -----

  lemma {:induction false} MonthsAddUp(year: nat, month: nat, other: nat)
    requires 1 <= month < other <= 13
    ensures DaysBeforeMonth(year, month) + MonthLength(year, month) <= DaysBeforeMonth(year, other)
  {
    if month + 1 < other {
      MonthsAddUp(year, month, other - 1);
    }
  }

  lemma TwelveMonths(year: nat)
    ensures DaysBeforeMonth(year, 13) == YearLength(year)
  {
    var leap := if Leap(year) then 1 else 0;
    assert DaysBeforeMonth(year, 2) == 31;
    assert DaysBeforeMonth(year, 3) == 59 + leap;
    assert DaysBeforeMonth(year, 4) == 90 + leap;
    assert DaysBeforeMonth(year, 5) == 120 + leap;
    assert DaysBeforeMonth(year, 6) == 151 + leap;
    assert DaysBeforeMonth(year, 7) == 181 + leap;
    assert DaysBeforeMonth(year, 8) == 212 + leap;
    assert DaysBeforeMonth(year, 9) == 243 + leap;
    assert DaysBeforeMonth(year, 10) == 273 + leap;
    assert DaysBeforeMonth(year, 11) == 304 + leap;
    assert DaysBeforeMonth(year, 12) == 334 + leap;
  }

  lemma {:induction false} YearsAddUp(year: nat, other: nat)
    requires year < other
    ensures DaysBeforeYear(year) + YearLength(year) <= DaysBeforeYear(other)
  {
    if year + 1 < other {
      YearsAddUp(year, other - 1);
    }
  }

  // Where a valid date lies within its year.
  lemma DateInYear(s: Stamp)
    requires Valid(s)
    ensures DaysBeforeYear(s.year) <= DayNumber(s) < DaysBeforeYear(s.year) + YearLength(s.year)
  {
    MonthsAddUp(s.year, s.month, 13);
    TwelveMonths(s.year);
  }

  predicate DateBefore(a: Stamp, b: Stamp) {
    a.year < b.year || (a.year == b.year && (a.month < b.month || (a.month == b.month && a.day < b.day)))
  }

  lemma LaterDate(a: Stamp, b: Stamp)
    requires Valid(a) && Valid(b) && DateBefore(a, b)
    ensures DayNumber(a) < DayNumber(b)
  {
    DateInYear(a);
    DateInYear(b);
    if a.year < b.year {
      YearsAddUp(a.year, b.year);
    } else if a.month < b.month {
      MonthsAddUp(a.year, a.month, b.month);
    }
  }

  predicate TimeBefore(a: Stamp, b: Stamp) {
    a.hour < b.hour || (a.hour == b.hour && (a.minute < b.minute || (a.minute == b.minute
      && (a.second < b.second || (a.second == b.second && a.ms < b.ms)))))
  }

  lemma InstantOrder(a: Stamp, b: Stamp)
    requires Valid(a) && Valid(b)
    ensures InstantOf(a) < InstantOf(b) <==> DateBefore(a, b) || (!DateBefore(b, a) && TimeBefore(a, b))
  {
    assert TimeOfDay(a) < DAY_MS && TimeOfDay(b) < DAY_MS;
    if DateBefore(a, b) {
      LaterDate(a, b);
    } else if DateBefore(b, a) {
      LaterDate(b, a);
    }
  }

  // Comparing two stored instants as text is comparing the instants.
  lemma TextOrderIsInstantOrder(a: Stamp, b: Stamp)
    requires Valid(a) && Valid(b)
    ensures TextBefore(TextOf(a), TextOf(b)) <==> InstantOf(a) < InstantOf(b)
  {
    assert Power10(2) == 100 && Power10(3) == 1000 && Power10(4) == 10000;
    WrittenOrder(Fields(a), Fields(b));
    InstantOrder(a, b);
    FieldOrder(a, b);
  }

  lemma FieldOrder(a: Stamp, b: Stamp)
    requires Valid(a) && Valid(b)
    ensures FieldsBefore(Fields(a), Fields(b)) <==> DateBefore(a, b) || (!DateBefore(b, a) && TimeBefore(a, b))
  {
    var f, g := Fields(a), Fields(b);
    FieldsFrom(f, g, 6);
    FieldsFrom(f, g, 5);
    FieldsFrom(f, g, 4);
    FieldsFrom(f, g, 3);
    FieldsFrom(f, g, 2);
    FieldsFrom(f, g, 1);
  }

  lemma FieldsFrom(f: seq<Field>, g: seq<Field>, i: nat)
    requires |f| == |g| && i < |f|
    ensures FieldsBefore(f[i..], g[i..]) <==>
      f[i].value < g[i].value || (f[i].value == g[i].value && FieldsBefore(f[i + 1..], g[i + 1..]))
  {
    assert f[i..][1..] == f[i + 1..] && g[i..][1..] == g[i + 1..];
  }

  // Every instant of the years 0000 to 9999 has such a text.
  lemma EveryInstantHasAText(instant: int) returns (s: Stamp)
    requires -EPOCH_DAY * DAY_MS <= instant < (DaysBeforeYear(10000) - EPOCH_DAY) * DAY_MS
    ensures Valid(s) && InstantOf(s) == instant
  {
    var shifted := instant + EPOCH_DAY * DAY_MS;
    var date := DateOf(shifted / DAY_MS);
    var rest := shifted % DAY_MS;
    s := date.(hour := rest / 3600000, minute := rest / 60000 % 60, second := rest / 1000 % 60, ms := rest % 1000);
    TimeSplits(rest);
  }

  lemma TimeSplits(rest: nat)
    ensures ((rest / 3600000 * 60 + rest / 60000 % 60) * 60 + rest / 1000 % 60) * 1000 + rest % 1000 == rest
    ensures rest < DAY_MS ==> rest / 3600000 < 24
  {
    var minutes := rest / 60000;
    var seconds := rest / 1000;
    assert seconds / 60 == minutes && minutes / 60 == rest / 3600000;
    assert seconds == minutes * 60 + seconds % 60 && minutes == minutes / 60 * 60 + minutes % 60;
  }

  lemma {:induction false} DateOf(day: nat) returns (s: Stamp)
    requires day < DaysBeforeYear(10000)
    ensures Valid(s) && DayNumber(s) == day && TimeOfDay(s) == 0
  {
    if day == 0 {
      s := Stamp(0, 1, 1, 0, 0, 0, 0);
    } else {
      var previous := DateOf(day - 1);
      if previous.day < MonthLength(previous.year, previous.month) {
        s := previous.(day := previous.day + 1);
      } else if previous.month < 12 {
        s := previous.(month := previous.month + 1, day := 1);
      } else {
        s := Stamp(previous.year + 1, 1, 1, 0, 0, 0, 0);
        TwelveMonths(previous.year);
        assert DaysBeforeMonth(previous.year, 13) == DaysBeforeMonth(previous.year, 12) + 31;
        assert DaysBeforeYear(previous.year + 1) == DaysBeforeYear(previous.year) + YearLength(previous.year);
      }
    }
  }

  // The days before a year: 365 each, and one for every leap year among them.
  lemma {:induction false} DaysInClosedForm(year: nat)
    ensures DaysBeforeYear(year) == 365 * year + (year + 3) / 4 - (year + 99) / 100 + (year + 399) / 400
  {
    if year != 0 {
      DaysInClosedForm(year - 1);
      Multiples4(year - 1);
      Multiples100(year - 1);
      Multiples400(year - 1);
    }
  }

  lemma Multiples4(n: nat)
    ensures (n + 4) / 4 == (n + 3) / 4 + if n % 4 == 0 then 1 else 0
  {
  }

  lemma Multiples100(n: nat)
    ensures (n + 100) / 100 == (n + 99) / 100 + if n % 100 == 0 then 1 else 0
  {
  }

  lemma Multiples400(n: nat)
    ensures (n + 400) / 400 == (n + 399) / 400 + if n % 400 == 0 then 1 else 0
    ensures n % 400 == 0 ==> n % 100 == 0
    ensures n % 100 == 0 ==> n % 4 == 0
  {
    assert n % 100 == 0 ==> n == 4 * (25 * (n / 100));
    assert n % 400 == 0 ==> n == 100 * (4 * (n / 400));
  }

  // The zero of the instants is the beginning of 1970.
  lemma EpochIsZero()
    ensures InstantOf(Stamp(1970, 1, 1, 0, 0, 0, 0)) == 0
  {
    DaysInClosedForm(1970);
    hide DaysBeforeYear;
  }
}
