/** The civil date behind an Event's timestamp, hand-computed from a day count. */
module Calendar {
  import opened Wrappers
  import opened Text

  datatype Date = Date(year: int, month: int, day: int)

  // ----- what the agent computes ----------------------------------------------------

  function YearOfEra(doe: nat): nat {
    (doe - doe / 1_460 + doe / 36_524 - doe / 146_096) / 365
  }

  function DayOfYear(doe: nat): int {
    var yoe := YearOfEra(doe);
    doe - (365 * yoe + yoe / 4 - yoe / 100)
  }

  function FromShifted(year: int, doy: int): Date {
    var mp := (5 * doy + 2) / 153;
    var day := doy - (153 * mp + 2) / 5 + 1;
    var month := if mp < 10 then mp + 3 else mp - 9;
    Date(if month <= 2 then year + 1 else year, month, day)
  }

  /** The date of day `doe` of the four-hundred-year era `era`. */
  function DateInEra(era: int, doe: nat): Date {
    FromShifted(YearOfEra(doe) + era * 400, DayOfYear(doe))
  }

  function CivilDate(days: nat): Date {
    DateInEra((days + 719_468) / 146_097, (days + 719_468) % 146_097)
  }

  // ----- the Gregorian calendar -----------------------------------------------------

  predicate Leap(year: int) {
    year % 4 == 0 && (year % 100 != 0 || year % 400 == 0)
  }

  function DaysInMonth(year: int, month: int): int {
    if month == 2 then if Leap(year) then 29 else 28
    else if month == 4 || month == 6 || month == 9 || month == 11 then 30
    else 31
  }

  predicate Valid(d: Date) {
    1 <= d.month <= 12 && 1 <= d.day <= DaysInMonth(d.year, d.month)
  }

  function Tomorrow(d: Date): Date {
    if d.day < DaysInMonth(d.year, d.month) then Date(d.year, d.month, d.day + 1)
    else if d.month < 12 then Date(d.year, d.month + 1, 1)
    else Date(d.year + 1, 1, 1)
  }

  /** Counting days on a calendar from the first of January 1970. */
  function Counted(days: nat): Date {
    if days == 0 then Date(1970, 1, 1) else Tomorrow(Counted(days - 1))
  }

  // ----- the year of an era ---------------------------------------------------------

  /** A day of an era, split into centuries, four-year cycles, years and days. */
  lemma YearOfParts(doe: nat, c: int, q: int, r: int, d: int)
    requires 0 <= c <= 3 && 0 <= q <= 24 && 0 <= r <= 3 && 0 <= d <= 365
    requires d == 365 ==> r == 3 && (q < 24 || c == 3)
    requires doe == 36_524 * c + 1_461 * q + 365 * r + d
    ensures YearOfEra(doe) == 100 * c + 4 * q + r
    ensures DayOfYear(doe) == d
  {
    var e := if 24 * c + q + 365 * r + d >= 1_460 then 1 else 0;
    assert doe / 1_460 == 25 * c + q + e;
    var last := doe == 146_096;
    assert doe / 36_524 == if last then 4 else c;
    assert doe / 146_096 == if last then 1 else 0;
    assert doe - doe / 1_460 + doe / 36_524 - doe / 146_096 == 36_500 * c + 1_460 * q + 365 * r + d - e;
    var y := 100 * c + 4 * q + r;
    assert YearOfEra(doe) == y;
    assert y / 4 == 25 * c + q;
    assert y / 100 == c;
  }

  lemma Parts(doe: nat) returns (c: int, q: int, r: int, d: int)
    requires doe < 146_097
    ensures 0 <= c <= 3 && 0 <= q <= 24 && 0 <= r <= 3 && 0 <= d <= 365
    ensures d == 365 ==> r == 3 && (q < 24 || c == 3)
    ensures doe == 36_524 * c + 1_461 * q + 365 * r + d
  {
    c := if doe == 146_096 then 3 else doe / 36_524;
    var inCentury := doe - 36_524 * c;
    q := inCentury / 1_461;
    var inCycle := inCentury - 1_461 * q;
    r := if inCycle == 1_460 then 3 else inCycle / 365;
    d := inCycle - 365 * r;
  }

  lemma Remainder400(x: int, quotient: int, rest: int)
    requires x == 400 * quotient + rest && 0 <= rest < 400
    ensures x % 400 == rest
  {
    assert x / 400 == quotient;
  }

  /** Whether the year that runs from March of `400 * era + 100 * c + 4 * q + r` holds a
      leap day is a matter of its parts. */
  lemma LeapOfParts(era: int, c: int, q: int, r: int)
    requires 0 <= c <= 3 && 0 <= q <= 24 && 0 <= r <= 3
    ensures Leap(400 * era + 100 * c + 4 * q + r + 1) <==> r == 3 && (q < 24 || c == 3)
  {
    var next := 400 * era + 100 * c + 4 * q + r + 1;
    if r == 3 && q == 24 {
      if c < 3 {
        Remainder400(next, era, 100 * c + 100);
      } else {
        Remainder400(next, era + 1, 0);
      }
    }
  }

  lemma ShiftedNext(year: int, doy: int)
    requires 0 <= doy <= 364 && (doy == 364 ==> Leap(year + 1))
    ensures Valid(FromShifted(year, doy))
    ensures FromShifted(year, doy + 1) == Tomorrow(FromShifted(year, doy))
  {
  }

  lemma ShiftedNewYear(year: int, doy: int)
    requires doy == if Leap(year + 1) then 365 else 364
    ensures Valid(FromShifted(year, doy))
    ensures FromShifted(year + 1, 0) == Tomorrow(FromShifted(year, doy))
  {
  }

  lemma OfParts(era: int, doe: nat, c: int, q: int, r: int, d: int)
    requires 0 <= c <= 3 && 0 <= q <= 24 && 0 <= r <= 3 && 0 <= d <= 365
    requires d == 365 ==> r == 3 && (q < 24 || c == 3)
    requires doe == 36_524 * c + 1_461 * q + 365 * r + d
    ensures DateInEra(era, doe) == FromShifted(400 * era + 100 * c + 4 * q + r, d)
  {
    YearOfParts(doe, c, q, r, d);
  }

  predicate LastOfYear(era: int, c: int, q: int, r: int, d: int) {
    d == if Leap(400 * era + 100 * c + 4 * q + r + 1) then 365 else 364
  }

  lemma NextInYear(era: int, doe: nat, c: int, q: int, r: int, d: int)
    requires 0 <= c <= 3 && 0 <= q <= 24 && 0 <= r <= 3 && 0 <= d <= 364
    requires doe == 36_524 * c + 1_461 * q + 365 * r + d
    requires !LastOfYear(era, c, q, r, d)
    ensures Valid(DateInEra(era, doe))
    ensures DateInEra(era, doe + 1) == Tomorrow(DateInEra(era, doe))
  {
    hide DateInEra, FromShifted, Tomorrow;
    LeapOfParts(era, c, q, r);
    ShiftedNext(400 * era + 100 * c + 4 * q + r, d);
    OfParts(era, doe, c, q, r, d);
    OfParts(era, doe + 1, c, q, r, d + 1);
  }

  lemma NextYear(era: int, doe: nat, c: int, q: int, r: int, d: int)
    requires 0 <= c <= 3 && 0 <= q <= 24 && 0 <= r <= 3 && 0 <= d <= 365
    requires doe == 36_524 * c + 1_461 * q + 365 * r + d
    requires LastOfYear(era, c, q, r, d)
    ensures Valid(DateInEra(era, doe))
    ensures doe < 146_096 ==> DateInEra(era, doe + 1) == Tomorrow(DateInEra(era, doe))
    ensures doe == 146_096 ==> DateInEra(era + 1, 0) == Tomorrow(DateInEra(era, doe))
  {
    hide DateInEra, FromShifted, Tomorrow;
    LeapOfParts(era, c, q, r);
    ShiftedNewYear(400 * era + 100 * c + 4 * q + r, d);
    OfParts(era, doe, c, q, r, d);
    if r < 3 {
      OfParts(era, doe + 1, c, q, r + 1, 0);
    } else if q < 24 {
      OfParts(era, doe + 1, c, q + 1, 0, 0);
    } else if c < 3 {
      OfParts(era, doe + 1, c + 1, 0, 0, 0);
    } else {
      OfParts(era + 1, 0, 0, 0, 0, 0);
    }
  }

  lemma NextInEra(era: int, doe: nat)
    requires doe < 146_097
    ensures Valid(DateInEra(era, doe))
    ensures doe < 146_096 ==> DateInEra(era, doe + 1) == Tomorrow(DateInEra(era, doe))
    ensures doe == 146_096 ==> DateInEra(era + 1, 0) == Tomorrow(DateInEra(era, doe))
  {
    var c, q, r, d := Parts(doe);
    LeapOfParts(era, c, q, r);
    if LastOfYear(era, c, q, r, d) {
      NextYear(era, doe, c, q, r, d);
    } else {
      NextInYear(era, doe, c, q, r, d);
    }
  }

  lemma EraOfNext(days: nat)
    ensures var x := days + 719_468;
            if x % 146_097 < 146_096 then (x + 1) / 146_097 == x / 146_097 && (x + 1) % 146_097 == x % 146_097 + 1
            else (x + 1) / 146_097 == x / 146_097 + 1 && (x + 1) % 146_097 == 0
  {
  }

  /** Adding one to the day count is turning one page of the calendar. */
  lemma TomorrowIsNext(days: nat)
    ensures Valid(CivilDate(days))
    ensures CivilDate(days + 1) == Tomorrow(CivilDate(days))
  {
    NextInEra((days + 719_468) / 146_097, (days + 719_468) % 146_097);
    EraOfNext(days);
  }

  lemma EpochDate()
    ensures CivilDate(0) == Date(1970, 1, 1)
  {
    hide DateInEra;
    assert FromShifted(1969, 306) == Date(1970, 1, 1);
    OfParts(4, 135_080, 3, 17, 1, 306);
  }

  /** The formula is the calendar: for every day it names the date counting reaches. */
  lemma {:induction false} CivilDateCounts(days: nat)
    ensures CivilDate(days) == Counted(days) && Valid(CivilDate(days))
  {
    hide CivilDate, Tomorrow, Valid;
    if days == 0 {
      EpochDate();
    } else {
      CivilDateCounts(days - 1);
      TomorrowIsNext(days - 1);
    }
    TomorrowIsNext(days);
  }

  // ----- the stamp ------------------------------------------------------------------

  /** The first second of the year 10000. */
  const LIMIT: nat := 253_402_300_800

  function Year(year: nat): string {
    if year < 10_000 then Fixed(year, 4) else Decimal(year)
  }

  /** Two-digit fields, each followed by its separator. */
  function Fields(values: seq<nat>, separators: string): (s: string)
    requires |values| == |separators|
    ensures |s| == 3 * |values|
  {
    if values == [] then ""
    else Fixed(values[0], 2) + [separators[0]] + Fields(values[1..], separators[1..])
  }

  /** Month, day, hour, minute and second. */
  function Parts5(d: Date, time: nat): (values: seq<nat>)
    requires d.month >= 0 && d.day >= 0
    ensures |values| == 5
    ensures Valid(d) && time < 86_400 ==> forall k :: 0 <= k < 5 ==> values[k] < 100
  {
    [d.month, d.day, time / 3_600, time % 3_600 / 60, time % 60]
  }

  /** The date and time of a second since the epoch, as section 5.6 of RFC 3339 writes it. */
  function Stamp(seconds: nat): string {
    var d := CivilDate(seconds / 86_400);
    CivilDateCounts(seconds / 86_400);
    CountedLater(0, seconds / 86_400);
    Year(d.year) + ("-" + Fields(Parts5(d, seconds % 86_400), "-T::Z"))
  }

  predicate Earlier(a: Date, b: Date) {
    a.year < b.year || (a.year == b.year && (a.month < b.month || (a.month == b.month && a.day < b.day)))
  }

  lemma {:induction false} CountedLater(a: nat, b: nat)
    requires a <= b
    ensures a < b ==> Earlier(Counted(a), Counted(b))
    ensures Counted(a).year <= Counted(b).year && Valid(Counted(b)) && Counted(b).year >= 1970
  {
    if a < b {
      CountedLater(a, b - 1);
    } else if a > 0 {
      CountedLater(a - 1, a - 1);
      CivilDateCounts(a);
    }
  }

  /** Different days have different dates. */
  lemma DatesDiffer(a: nat, b: nat)
    ensures CivilDate(a) == CivilDate(b) ==> a == b
  {
    CivilDateCounts(a);
    CivilDateCounts(b);
    if a < b {
      CountedLater(a, b);
    } else {
      CountedLater(b, a);
    }
  }

  lemma LastDay()
    ensures CivilDate(2_932_896) == Date(9999, 12, 31)
  {
    hide DateInEra;
    assert FromShifted(9999, 305) == Date(9999, 12, 31);
    OfParts(24, 146_036, 3, 24, 3, 305);
  }

  predicate Less(a: seq<nat>, b: seq<nat>) {
    a != [] && b != [] && (a[0] < b[0] || (a[0] == b[0] && Less(a[1..], b[1..])))
  }

  lemma FieldSorts(a: nat, b: nat, separator: char, x: string, y: string)
    requires a < 100 && b < 100 && (a < b || (a == b && Before(x, y)))
    ensures Before(Fixed(a, 2) + [separator] + x, Fixed(b, 2) + [separator] + y)
  {
    assert Pow10(2) == 100 by { assert Pow10(1) == 10; }
    hide Fixed, Before, Pow10;
    if a < b {
      FixedSorts(a, b, 2);
    } else {
      BeforePrefix([separator], [separator], x, y);
    }
    BeforePrefix(Fixed(a, 2), Fixed(b, 2), [separator] + x, [separator] + y);
    assert Fixed(a, 2) + [separator] + x == Fixed(a, 2) + ([separator] + x);
    assert Fixed(b, 2) + [separator] + y == Fixed(b, 2) + ([separator] + y);
  }

  lemma {:induction false} FieldsSort(a: seq<nat>, b: seq<nat>, separators: string)
    requires |a| == |b| == |separators| && Less(a, b)
    requires forall k :: 0 <= k < |a| ==> a[k] < 100 && b[k] < 100
    ensures Before(Fields(a, separators), Fields(b, separators))
  {
    hide Fixed, Before;
    if a[0] == b[0] {
      FieldsSort(a[1..], b[1..], separators[1..]);
    }
    FieldSorts(a[0], b[0], separators[0], Fields(a[1..], separators[1..]), Fields(b[1..], separators[1..]));
  }

  lemma TimeLess(a: nat, b: nat)
    requires a < b < 86_400
    ensures Less([a / 3_600, a % 3_600 / 60, a % 60], [b / 3_600, b % 3_600 / 60, b % 60])
  {
    var x, y := [a / 3_600, a % 3_600 / 60, a % 60], [b / 3_600, b % 3_600 / 60, b % 60];
    assert x[1..][1..] == [a % 60] && y[1..][1..] == [b % 60];
    if a / 3_600 == b / 3_600 {
      assert a % 3_600 == a - 3_600 * (a / 3_600) && b % 3_600 == b - 3_600 * (b / 3_600);
      assert a % 3_600 < b % 3_600;
      assert a % 60 == a % 3_600 % 60 && b % 60 == b % 3_600 % 60;
    }
  }

  lemma RestLess(d: Date, e: Date, s: nat, t: nat)
    requires Valid(d) && Valid(e) && d.year == e.year && s < 86_400 && t < 86_400
    requires Earlier(d, e) || (d == e && s < t)
    ensures Less(Parts5(d, s), Parts5(e, t))
  {
    var a, b := Parts5(d, s), Parts5(e, t);
    if d == e {
      TimeLess(s, t);
      assert a[1..][1..] == [s / 3_600, s % 3_600 / 60, s % 60];
      assert b[1..][1..] == [t / 3_600, t % 3_600 / 60, t % 60];
    }
  }

  lemma YearSorts(d: Date, e: Date, x: string, y: string)
    requires 0 <= d.year < 10_000 && 0 <= e.year < 10_000
    requires d.year < e.year || (d.year == e.year && Before(x, y))
    ensures Before(Year(d.year) + ("-" + x), Year(e.year) + ("-" + y))
  {
    assert Pow10(4) == 10_000 by { assert Pow10(2) == 100 by { assert Pow10(1) == 10; } assert Pow10(3) == 1_000; }
    if d.year < e.year {
      FixedSorts(d.year, e.year, 4);
    } else {
      BeforePrefix("-", "-", x, y);
    }
    BeforePrefix(Year(d.year), Year(e.year), "-" + x, "-" + y);
  }

  lemma StampOf(s: nat) returns (day: nat, time: nat, d: Date, rest: string)
    requires s < LIMIT
    ensures s == 86_400 * day + time && time < 86_400
    ensures d == Counted(day) && Valid(d) && 1970 <= d.year < 10_000
    ensures rest == Fields(Parts5(d, time), "-T::Z")
    ensures Stamp(s) == Year(d.year) + ("-" + rest)
  {
    hide CivilDate, Counted;
    day, time := s / 86_400, s % 86_400;
    d := CivilDate(day);
    CivilDateCounts(day);
    CivilDateCounts(2_932_896);
    LastDay();
    CountedLater(day, 2_932_896);
    CountedLater(0, day);
    rest := Fields(Parts5(d, time), "-T::Z");
  }

  lemma {:induction false} FieldsRead(values: seq<nat>, separators: string, k: nat)
    requires |values| == |separators| && k < |values| && values[k] < 100
    ensures Digits(Fields(values, separators)[3 * k..3 * k + 2], 10) == Some(values[k])
    ensures Fields(values, separators)[3 * k + 2] == separators[k]
  {
    var first, rest := Fixed(values[0], 2) + [separators[0]], Fields(values[1..], separators[1..]);
    if k == 0 {
      assert Pow10(2) == 100 by { assert Pow10(1) == 10; }
      FixedReads(values[0], 2);
      assert (first + rest)[0..2] == Fixed(values[0], 2);
    } else {
      FieldsRead(values[1..], separators[1..], k - 1);
      assert (first + rest)[3 * k..3 * k + 2] == rest[3 * (k - 1)..3 * (k - 1) + 2];
      assert (first + rest)[3 * k + 2] == rest[3 * (k - 1) + 2];
    }
  }

  /** To the end of year 9999 a stamp is twenty characters in which every field stands at its
      place and reads back: the date that counting days reaches, and the time of that day. */
  lemma StampReadsBack(s: nat)
    requires s < LIMIT
    ensures var stamp, date, time := Stamp(s), Counted(s / 86_400), s % 86_400;
            && |stamp| == 20 && date.year >= 0 && date.month >= 0 && date.day >= 0
            && stamp[4] == '-' && stamp[7] == '-' && stamp[10] == 'T' && stamp[13] == ':' && stamp[16] == ':' && stamp[19] == 'Z'
            && Digits(stamp[0..4], 10) == Some(date.year)
            && Digits(stamp[5..7], 10) == Some(date.month) && Digits(stamp[8..10], 10) == Some(date.day)
            && Digits(stamp[11..13], 10) == Some(time / 3_600)
            && Digits(stamp[14..16], 10) == Some(time % 3_600 / 60)
            && Digits(stamp[17..19], 10) == Some(time % 60)
  {
    hide Counted, Fields, Digits, Stamp;
    var day, time, d, rest := StampOf(s);
    YearReads(d.year);
    hide Fixed;
    var values, separators := Parts5(d, time), "-T::Z";
    forall k | 0 <= k < 5
      ensures Digits(rest[3 * k..3 * k + 2], 10) == Some(values[k]) && rest[3 * k + 2] == separators[k]
    {
      FieldsRead(values, separators, k);
    }
    hide Year;
    Sliced(Year(d.year), rest);
    assert Digits(rest[3 * 0..3 * 0 + 2], 10) == Some(values[0]) && Digits(rest[3 * 1..3 * 1 + 2], 10) == Some(values[1]);
    assert Digits(rest[3 * 2..3 * 2 + 2], 10) == Some(values[2]) && Digits(rest[3 * 3..3 * 3 + 2], 10) == Some(values[3]);
    assert Digits(rest[3 * 4..3 * 4 + 2], 10) == Some(values[4]);
    assert rest[3 * 0 + 2] == '-' && rest[3 * 1 + 2] == 'T' && rest[3 * 2 + 2] == ':' && rest[3 * 3 + 2] == ':';
    assert rest[3 * 4 + 2] == 'Z';
  }

  lemma Sliced(year: string, rest: string)
    requires |year| == 4 && |rest| == 15
    ensures var stamp := year + ("-" + rest);
            && |stamp| == 20 && stamp[0..4] == year && stamp[4] == '-'
            && (forall i, j :: 0 <= i <= j <= 15 ==> stamp[5 + i..5 + j] == rest[i..j])
            && stamp[5..7] == rest[0..2] && stamp[8..10] == rest[3..5] && stamp[11..13] == rest[6..8]
            && stamp[14..16] == rest[9..11] && stamp[17..19] == rest[12..14]
            && stamp[7] == rest[2] && stamp[10] == rest[5] && stamp[13] == rest[8] && stamp[16] == rest[11] && stamp[19] == rest[14]
  {
    var stamp := year + ("-" + rest);
    forall i, j | 0 <= i <= j <= 15 ensures stamp[5 + i..5 + j] == rest[i..j] {
    }
    assert stamp[5 + 0..5 + 2] == rest[0..2] && stamp[5 + 3..5 + 5] == rest[3..5] && stamp[5 + 6..5 + 8] == rest[6..8];
    assert stamp[5 + 9..5 + 11] == rest[9..11] && stamp[5 + 12..5 + 14] == rest[12..14];
  }

  /** A year reads back, in four digits up to 9999 and in as many as it has from then on. */
  lemma YearReads(year: nat)
    ensures Digits(Year(year), 10) == Some(year)
    ensures year < 10_000 ==> |Year(year)| == 4
    ensures year >= 10_000 ==> Year(year) == Decimal(year)
  {
    if year < 10_000 {
      assert Pow10(4) == 10_000 by { assert Pow10(2) == 100 by { assert Pow10(1) == 10; } assert Pow10(3) == 1_000; }
      FixedReads(year, 4);
    } else {
      NumeralReads(year, 10);
    }
  }

  lemma StampLater(s: nat, t: nat)
    requires s < t < LIMIT
    ensures Before(Stamp(s), Stamp(t))
  {
    hide Stamp, Counted, Fields, Year, Before, Less, Parts5, Tomorrow;
    var a, x, d, p := StampOf(s);
    var b, y, e, q := StampOf(t);
    CountedLater(a, b);
    if d.year == e.year {
      RestLess(d, e, x, y);
      FieldsSort(Parts5(d, x), Parts5(e, y), "-T::Z");
    }
    YearSorts(d, e, p, q);
  }

  /** Until the year 10000, sorting stamps as text is sorting them in time. */
  lemma StampsSort(s: nat, t: nat)
    requires s < LIMIT && t < LIMIT
    ensures Before(Stamp(s), Stamp(t)) <==> s < t
    ensures |Stamp(s)| == 20
  {
    var _, _, _, _ := StampOf(s);
    hide Stamp, CivilDate;
    if s < t {
      StampLater(s, t);
    } else {
      BeforeAsymmetric(Stamp(s), Stamp(t));
      if t < s {
        StampLater(t, s);
      }
    }
  }

  lemma FiveDigits()
    ensures Decimal(10_000)[0] == '1' && Fixed(9_999, 4)[0] == '9'
  {
    assert Decimal(10_000) == Decimal(1_000) + [Digit(0)];
    assert Decimal(1_000) == Decimal(100) + [Digit(0)];
    assert Decimal(100) == Decimal(10) + [Digit(0)];
    assert Decimal(10) == Decimal(1) + [Digit(0)];
    assert Fixed(9_999, 4) == Fixed(999, 3) + [Digit(9)];
    assert Fixed(999, 3) == Fixed(99, 2) + [Digit(9)];
    assert Fixed(99, 2) == Fixed(9, 1) + [Digit(9)];
  }

  /** And not beyond: the fifth digit sorts first. */
  lemma StampsStopSorting()
    ensures Before(Stamp(LIMIT), Stamp(LIMIT - 1))
  {
    hide DateInEra;
    LastDay();
    TomorrowIsNext(2_932_896);
    assert CivilDate(2_932_897) == Date(10_000, 1, 1);
    assert LIMIT / 86_400 == 2_932_897 && (LIMIT - 1) / 86_400 == 2_932_896;
    FiveDigits();
  }
}
