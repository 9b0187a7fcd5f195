/** Stored timestamps: a fixed nine-digit UTC layout that sorts as text the way instants sort, and the
    page token's layout with trailing zeros trimmed, that reads back to the same stored text. */
module Timestamps {
  import opened Basics
  import opened Ordering

  // ----------------------------------------------------------------------- digits

  function DigitChar(d: int): char
    requires 0 <= d < 10
  {
    '0' + d as char
  }

  predicate IsDigit(c: char) {
    '0' <= c <= '9'
  }

  function DigitValue(c: char): int
    requires IsDigit(c)
  {
    (c - '0') as int
  }

  function Power10(n: nat): int {
    if n == 0 then 1 else 10 * Power10(n - 1)
  }

  /** `n` in decimal, padded with zeros to `width`. */
  function Digits(n: nat, width: nat): (s: string)
    ensures |s| == width && forall c :: c in s ==> IsDigit(c)
  {
    if width == 0 then "" else Digits(n / 10, width - 1) + [DigitChar(n % 10)]
  }

  predicate AllDigits(s: string) {
    forall i :: 0 <= i < |s| ==> IsDigit(s[i])
  }

  function Value(s: string): nat
    requires AllDigits(s)
  {
    if |s| == 0 then 0 else 10 * Value(s[..|s| - 1]) + DigitValue(s[|s| - 1])
  }

  lemma {:induction false} DigitsReadBack(n: nat, width: nat)
    requires n < Power10(width)
    ensures AllDigits(Digits(n, width)) && Value(Digits(n, width)) == n
  {
    if width > 0 {
      DigitsReadBack(n / 10, width - 1);
      var s := Digits(n, width);
      assert s[..|s| - 1] == Digits(n / 10, width - 1);
    }
  }

  /** Texts of equal length compare by their heads first, then by what follows. */
  lemma {:induction false} HeadsFirst(a: string, b: string, x: string, y: string)
    requires |a| == |b|
    ensures TextBefore(a + x, b + y) <==> TextBefore(a, b) || (a == b && TextBefore(x, y))
  {
    if |a| == 0 {
      assert a + x == x && b + y == y;
    } else {
      HeadsFirst(a[1..], b[1..], x, y);
      assert (a + x)[1..] == a[1..] + x && (b + y)[1..] == b[1..] + y;
      assert a == [a[0]] + a[1..] && b == [b[0]] + b[1..];
    }
  }

  lemma {:induction false} DigitsInOrder(m: nat, n: nat, width: nat)
    requires m < Power10(width) && n < Power10(width)
    ensures TextBefore(Digits(m, width), Digits(n, width)) <==> m < n
    ensures Digits(m, width) == Digits(n, width) <==> m == n
  {
    DigitsReadBack(m, width);
    DigitsReadBack(n, width);
    if width > 0 {
      DigitsInOrder(m / 10, n / 10, width - 1);
      HeadsFirst(Digits(m / 10, width - 1), Digits(n / 10, width - 1), [DigitChar(m % 10)], [DigitChar(n % 10)]);
    }
  }

  // ----------------------------------------------------------------------- fields

  /** A number of fixed width and the character after it. */
  datatype Field = Field(value: nat, width: nat, after: char)

  datatype Slot = Slot(width: nat, after: char)

  const LAYOUT := [Slot(4, '-'), Slot(2, '-'), Slot(2, 'T'), Slot(2, ':'), Slot(2, ':'), Slot(2, '.'), Slot(9, 'Z')]

  function Text(values: seq<nat>, layout: seq<Slot>): string
    requires |values| == |layout|
  {
    if |values| == 0 then "" else Digits(values[0], layout[0].width) + [layout[0].after] + Text(values[1..], layout[1..])
  }

  ghost predicate Fit(values: seq<nat>, layout: seq<Slot>) {
    |values| == |layout| && forall i :: 0 <= i < |values| ==> values[i] < Power10(layout[i].width)
  }

  /** The first field that differs decides. */
  predicate Earlier(a: seq<nat>, b: seq<nat>)
    requires |a| == |b|
  {
    |a| > 0 && (a[0] < b[0] || (a[0] == b[0] && Earlier(a[1..], b[1..])))
  }

  lemma FieldDecides(da: string, db: string, after: string, ta: string, tb: string)
    requires |da| == |db|
    ensures TextBefore(da + after + ta, db + after + tb) <==> TextBefore(da, db) || (da == db && TextBefore(ta, tb))
  {
    HeadsFirst(da + after, db + after, ta, tb);
    HeadsFirst(da, db, after, after);
    TextTotal(after, after);
    assert (da + after)[..|da|] == da && (db + after)[..|db|] == db;
  }

  lemma FieldsSplit(da: string, db: string, after: string, ta: string, tb: string)
    requires |da| == |db|
    ensures da + after + ta == db + after + tb <==> da == db && ta == tb
  {
    var n := |da|;
    var s, t := da + after + ta, db + after + tb;
    assert s[..n] == da && t[..n] == db && s[n + |after|..] == ta && t[n + |after|..] == tb;
  }

  lemma {:induction false} TextsInOrder(a: seq<nat>, b: seq<nat>, layout: seq<Slot>)
    requires Fit(a, layout) && Fit(b, layout)
    ensures TextBefore(Text(a, layout), Text(b, layout)) <==> Earlier(a, b)
    ensures Text(a, layout) == Text(b, layout) <==> a == b
  {
    if |a| > 0 {
      var width, after := layout[0].width, [layout[0].after];
      var ta, tb := Text(a[1..], layout[1..]), Text(b[1..], layout[1..]);
      TextsInOrder(a[1..], b[1..], layout[1..]);
      DigitsInOrder(a[0], b[0], width);
      FieldDecides(Digits(a[0], width), Digits(b[0], width), after, ta, tb);
      FieldsSplit(Digits(a[0], width), Digits(b[0], width), after, ta, tb);
      assert a == [a[0]] + a[1..] && b == [b[0]] + b[1..];
    }
  }

  /** Reads a text back by its layout. */
  function Read(text: string, layout: seq<Slot>): Option<seq<nat>> {
    if |layout| == 0 then if text == "" then Some([]) else None
    else
      var width := layout[0].width;
      if |text| < width + 1 || !AllDigits(text[..width]) || text[width] != layout[0].after then None
      else
        var rest := Read(text[width + 1..], layout[1..]);
        if rest.None? then None else Some([Value(text[..width])] + rest.value)
  }

  lemma {:induction false} TextReadsBack(values: seq<nat>, layout: seq<Slot>)
    requires Fit(values, layout)
    ensures Read(Text(values, layout), layout) == Some(values)
  {
    if |values| > 0 {
      var width := layout[0].width;
      var text := Text(values, layout);
      DigitsReadBack(values[0], width);
      assert text[..width] == Digits(values[0], width) && text[width + 1..] == Text(values[1..], layout[1..]);
      TextReadsBack(values[1..], layout[1..]);
      assert values == [values[0]] + values[1..];
    }
  }

  // --------------------------------------------------------------------- calendar

  datatype Civil = Civil(year: nat, month: nat, day: nat, hour: nat, minute: nat, second: nat, nano: nat)

  predicate LeapYear(y: nat) {
    y % 4 == 0 && (y % 100 != 0 || y % 400 == 0)
  }

  function MonthDays(y: nat, m: nat): nat {
    if m == 2 then if LeapYear(y) then 29 else 28
    else if m == 4 || m == 6 || m == 9 || m == 11 then 30
    else 31
  }

  /** A UTC time of the years a four-digit layout can hold. */
  predicate ValidCivil(c: Civil) {
    && c.year <= 9999 && 1 <= c.month <= 12 && 1 <= c.day <= MonthDays(c.year, c.month)
    && c.hour < 24 && c.minute < 60 && c.second < 60 && c.nano < 1_000_000_000
  }

  function DaysBeforeMonth(y: nat, m: nat): nat
    requires 1 <= m
  {
    if m == 1 then 0 else DaysBeforeMonth(y, m - 1) + MonthDays(y, m - 1)
  }

  function YearDays(y: nat): (days: nat)
    ensures days > 0
  {
    if LeapYear(y) then 366 else 365
  }

  function DaysBeforeYear(y: nat): nat {
    if y == 0 then 0 else DaysBeforeYear(y - 1) + YearDays(y - 1)
  }

  /** The instant, in nanoseconds from the start of year 0. */
  function Instant(c: Civil): int
    requires 1 <= c.month
  {
    (((DaysBeforeYear(c.year) + DaysBeforeMonth(c.year, c.month) + c.day) * 24 + c.hour) * 60 + c.minute) * 60_000_000_000
    + c.second * 1_000_000_000 + c.nano
  }

  function FieldsOf(c: Civil): seq<nat> {
    [c.year, c.month, c.day, c.hour, c.minute, c.second, c.nano]
  }

  /** What the store writes into a timestamp column. */
  function StorageTimestamp(c: Civil): string {
    Text(FieldsOf(c), LAYOUT)
  }

  /** What it reads back, refusing anything that is no valid time. */
  function ParseTimestamp(text: string): Result<Civil> {
    var read := Read(text, LAYOUT);
    if read.None? || |read.value| != 7 then Failure(InternalError)
    else
      var c := Civil(read.value[0], read.value[1], read.value[2], read.value[3], read.value[4], read.value[5], read.value[6]);
      if ValidCivil(c) then Success(c) else Failure(InternalError)
  }

  lemma {:induction false} MonthsGrow(y: nat, m: nat, n: nat)
    requires 1 <= m < n
    ensures DaysBeforeMonth(y, m) + MonthDays(y, m) <= DaysBeforeMonth(y, n)
  {
    if m + 1 < n {
      MonthsGrow(y, m, n - 1);
    }
  }

  lemma {:induction false} MonthsInYear(y: nat)
    ensures DaysBeforeMonth(y, 13) == YearDays(y)
  {
    assert DaysBeforeMonth(y, 2) == 31;
    assert DaysBeforeMonth(y, 3) == 31 + MonthDays(y, 2);
    assert DaysBeforeMonth(y, 4) == DaysBeforeMonth(y, 3) + 31;
    assert DaysBeforeMonth(y, 5) == DaysBeforeMonth(y, 4) + 30;
    assert DaysBeforeMonth(y, 6) == DaysBeforeMonth(y, 5) + 31;
    assert DaysBeforeMonth(y, 7) == DaysBeforeMonth(y, 6) + 30;
    assert DaysBeforeMonth(y, 8) == DaysBeforeMonth(y, 7) + 31;
    assert DaysBeforeMonth(y, 9) == DaysBeforeMonth(y, 8) + 31;
    assert DaysBeforeMonth(y, 10) == DaysBeforeMonth(y, 9) + 30;
    assert DaysBeforeMonth(y, 11) == DaysBeforeMonth(y, 10) + 31;
    assert DaysBeforeMonth(y, 12) == DaysBeforeMonth(y, 11) + 30;
    assert DaysBeforeMonth(y, 13) == DaysBeforeMonth(y, 12) + 31;
  }

  lemma {:induction false} YearsGrow(y: nat, z: nat)
    requires y < z
    ensures DaysBeforeYear(y) + YearDays(y) <= DaysBeforeYear(z)
    decreases z
  {
    if y + 1 < z {
      YearsGrow(y, z - 1);
    }
  }

  function DayNumber(c: Civil): nat
    requires 1 <= c.month
  {
    DaysBeforeYear(c.year) + DaysBeforeMonth(c.year, c.month) + c.day
  }

  function TimeOfDay(c: Civil): nat {
    ((c.hour * 60 + c.minute) * 60 + c.second) * 1_000_000_000 + c.nano
  }

  /** A later date has a greater day number. */
  lemma DaysInOrder(a: Civil, b: Civil)
    requires ValidCivil(a) && ValidCivil(b)
    requires a.year < b.year || (a.year == b.year && (a.month < b.month || (a.month == b.month && a.day < b.day)))
    ensures DayNumber(a) < DayNumber(b)
  {
    if a.year < b.year {
      YearsGrow(a.year, b.year);
      MonthsInYear(a.year);
      MonthsGrow(a.year, a.month, 13);
    } else if a.month < b.month {
      MonthsGrow(a.year, a.month, b.month);
    }
  }

  lemma TimesInOrder(a: Civil, b: Civil)
    requires ValidCivil(a) && ValidCivil(b)
    requires Earlier([a.hour, a.minute, a.second, a.nano], [b.hour, b.minute, b.second, b.nano])
    ensures TimeOfDay(a) < TimeOfDay(b)
  {
    EarlierTail([a.hour, a.minute, a.second, a.nano], [b.hour, b.minute, b.second, b.nano]);
    EarlierTail([a.minute, a.second, a.nano], [b.minute, b.second, b.nano]);
    EarlierTail([a.second, a.nano], [b.second, b.nano]);
    EarlierTail([a.nano], [b.nano]);
  }

  lemma EarlierTail(a: seq<nat>, b: seq<nat>)
    requires |a| == |b| > 0
    ensures Earlier(a, b) <==> a[0] < b[0] || (a[0] == b[0] && Earlier(a[1..], b[1..]))
    ensures |a| == 4 ==> a[1..] == [a[1], a[2], a[3]]
    ensures |a| == 3 ==> a[1..] == [a[1], a[2]]
    ensures |a| == 2 ==> a[1..] == [a[1]]
    ensures |b| == 4 ==> b[1..] == [b[1], b[2], b[3]]
    ensures |b| == 3 ==> b[1..] == [b[1], b[2]]
    ensures |b| == 2 ==> b[1..] == [b[1]]
  {
  }

  lemma WithinDay(c: Civil)
    requires ValidCivil(c)
    ensures 0 <= TimeOfDay(c) < 86_400_000_000_000
    ensures Instant(c) == DayNumber(c) * 86_400_000_000_000 + TimeOfDay(c)
  {
  }

  /** Fields compare as instants do. */
  lemma FieldsInOrder(a: Civil, b: Civil)
    requires ValidCivil(a) && ValidCivil(b)
    ensures Earlier(FieldsOf(a), FieldsOf(b)) ==> Instant(a) < Instant(b)
  {
    WithinDay(a);
    WithinDay(b);
    if Earlier(FieldsOf(a), FieldsOf(b)) {
      EarlierSplits(a, b);
      if a.year == b.year && a.month == b.month && a.day == b.day {
        TimesInOrder(a, b);
      } else {
        DaysInOrder(a, b);
      }
    }
  }

  lemma EarlierSplits(a: Civil, b: Civil)
    ensures Earlier(FieldsOf(a), FieldsOf(b)) <==>
              || a.year < b.year || (a.year == b.year && (a.month < b.month || (a.month == b.month && a.day < b.day)))
              || (a.year == b.year && a.month == b.month && a.day == b.day
                  && Earlier([a.hour, a.minute, a.second, a.nano], [b.hour, b.minute, b.second, b.nano]))
  {
    var x, y := FieldsOf(a), FieldsOf(b);
    assert x[1..][1..][1..] == [a.hour, a.minute, a.second, a.nano] && y[1..][1..][1..] == [b.hour, b.minute, b.second, b.nano];
    EarlierTail(x, y);
    EarlierTail(x[1..], y[1..]);
    EarlierTail(x[1..][1..], y[1..][1..]);
  }

  // ----------------------------------------------------------------- main results

  lemma FieldsFit(c: Civil)
    requires ValidCivil(c)
    ensures Fit(FieldsOf(c), LAYOUT)
  {
    assert Power10(2) == 100;
    assert Power10(4) == 100 * Power10(2);
    assert Power10(9) == 100_000 * Power10(4);
  }

  /** Stored timestamps sort as text exactly as instants sort in time. */
  lemma TextOrderIsTimeOrder(a: Civil, b: Civil)
    requires ValidCivil(a) && ValidCivil(b)
    ensures TextBefore(StorageTimestamp(a), StorageTimestamp(b)) <==> Instant(a) < Instant(b)
    ensures StorageTimestamp(a) == StorageTimestamp(b) <==> a == b
    ensures a == b <==> Instant(a) == Instant(b)
  {
    FieldsFit(a);
    FieldsFit(b);
    TextsInOrder(FieldsOf(a), FieldsOf(b), LAYOUT);
    FieldsInOrder(a, b);
    FieldsInOrder(b, a);
    EarlierTotal(FieldsOf(a), FieldsOf(b));
    SameFields(a, b);
  }

  lemma SameFields(a: Civil, b: Civil)
    ensures FieldsOf(a) == FieldsOf(b) <==> a == b
  {
    var x, y := FieldsOf(a), FieldsOf(b);
    if x == y {
      assert x[0] == y[0] && x[1] == y[1] && x[2] == y[2] && x[3] == y[3] && x[4] == y[4] && x[5] == y[5] && x[6] == y[6];
    }
  }

  lemma {:induction false} EarlierTotal(a: seq<nat>, b: seq<nat>)
    requires |a| == |b|
    ensures Earlier(a, b) || Earlier(b, a) || a == b
  {
    if |a| > 0 {
      EarlierTotal(a[1..], b[1..]);
      assert a == [a[0]] + a[1..] && b == [b[0]] + b[1..];
    }
  }

  /** A stored timestamp parses back to the same time. */
  lemma StoredTimestampReadsBack(c: Civil)
    requires ValidCivil(c)
    ensures ParseTimestamp(StorageTimestamp(c)) == Success(c)
  {
    FieldsFit(c);
    TextReadsBack(FieldsOf(c), LAYOUT);
  }

  /** So comparing stored rows by (text, id) is comparing them by (instant, id): the order the pages use. */
  lemma StoredKeysCompare(a: Civil, idA: Id, b: Civil, idB: Id)
    requires ValidCivil(a) && ValidCivil(b)
    ensures (TextBefore(StorageTimestamp(a), StorageTimestamp(b))
             || (StorageTimestamp(a) == StorageTimestamp(b) && TextBefore(idA, idB)))
            <==> Before(Key(Instant(a), idA), Key(Instant(b), idB))
  {
    TextOrderIsTimeOrder(a, b);
  }

  // ------------------------------------------------------------------ page tokens

  function TrimZeros(s: string): string {
    if |s| == 0 || s[|s| - 1] != '0' then s else TrimZeros(s[..|s| - 1])
  }

  /** The fields to the whole second, with what follows them. */
  function ToSecond(after: char): seq<Slot> {
    [Slot(4, '-'), Slot(2, '-'), Slot(2, 'T'), Slot(2, ':'), Slot(2, ':'), Slot(2, after)]
  }

  function SecondFields(c: Civil): seq<nat> {
    [c.year, c.month, c.day, c.hour, c.minute, c.second]
  }

  const SECONDS_LENGTH := 20

  /** The token's layout: the fraction without trailing zeros, and no point if nothing is left of it. */
  function TokenTimestamp(c: Civil): string {
    if c.nano == 0 then Text(SecondFields(c), ToSecond('Z'))
    else Text(SecondFields(c), ToSecond('.')) + TrimZeros(Digits(c.nano, 9)) + "Z"
  }

  /** The nanoseconds a fraction of at most nine digits stands for. */
  function Nanoseconds(fraction: string): nat
    requires AllDigits(fraction) && |fraction| <= 9
  {
    PowerPositive(9 - |fraction|);
    Value(fraction) * Power10(9 - |fraction|)
  }

  lemma {:induction false} PowerPositive(n: nat)
    ensures Power10(n) > 0
  {
    if n > 0 {
      PowerPositive(n - 1);
    }
  }

  /** How a token's time is read: any fraction of one to nine digits. */
  function ParseToken(text: string): Option<Civil> {
    if |text| < SECONDS_LENGTH then None
    else
      var read := Read(text[..SECONDS_LENGTH], ToSecond(text[SECONDS_LENGTH - 1]));
      if read.None? || |read.value| != 6 then None
      else
        var at := (nano: nat) => Civil(read.value[0], read.value[1], read.value[2], read.value[3], read.value[4], read.value[5], nano);
        if text[SECONDS_LENGTH - 1] == 'Z' && |text| == SECONDS_LENGTH then Some(at(0))
        else
          var last := |text| - 1;
          if text[SECONDS_LENGTH - 1] != '.' || !(SECONDS_LENGTH < last <= SECONDS_LENGTH + 9) || text[last] != 'Z'
             || !AllDigits(text[SECONDS_LENGTH..last]) then None
          else Some(at(Nanoseconds(text[SECONDS_LENGTH..last])))
  }

  lemma {:induction false} TrimKeepsFraction(s: string)
    requires AllDigits(s) && |s| <= 9
    ensures AllDigits(TrimZeros(s)) && |TrimZeros(s)| <= |s| && Nanoseconds(TrimZeros(s)) == Nanoseconds(s)
  {
    if |s| > 0 && s[|s| - 1] == '0' {
      var shorter := s[..|s| - 1];
      TrimKeepsFraction(shorter);
      var p := Power10(9 - |s|);
      assert Power10(9 - |shorter|) == 10 * p && Value(s) == 10 * Value(shorter);
      Regroup(Value(shorter), p);
    }
  }

  lemma Regroup(v: int, p: int)
    ensures (10 * v) * p == v * (10 * p)
  {
  }

  lemma {:induction false} TextLength(values: seq<nat>, layout: seq<Slot>)
    requires |values| == |layout| && forall slot :: slot in layout ==> slot.width <= 9
    ensures |Text(values, layout)| == Width(layout)
  {
    if |values| > 0 {
      TextLength(values[1..], layout[1..]);
    }
  }

  function Width(layout: seq<Slot>): nat {
    if |layout| == 0 then 0 else layout[0].width + 1 + Width(layout[1..])
  }

  lemma SecondsWidth(after: char)
    ensures Width(ToSecond(after)) == SECONDS_LENGTH
  {
    var l := ToSecond(after);
    assert Width(l[3..]) == 3 + Width(l[4..]) && Width(l[4..]) == 3 + Width(l[5..]) && Width(l[5..]) == 3 + Width(l[6..]) by {
      assert l[3..][1..] == l[4..] && l[4..][1..] == l[5..] && l[5..][1..] == l[6..];
    }
    assert Width(l) == 5 + Width(l[1..]) && Width(l[1..]) == 3 + Width(l[2..]) && Width(l[2..]) == 3 + Width(l[3..]) by {
      assert l[1..][1..] == l[2..] && l[2..][1..] == l[3..];
    }
  }

  lemma SecondsReadBack(c: Civil, after: char)
    requires ValidCivil(c)
    ensures var text := Text(SecondFields(c), ToSecond(after));
            && |text| == SECONDS_LENGTH && text[SECONDS_LENGTH - 1] == after
            && Read(text, ToSecond(after)) == Some(SecondFields(c))
  {
    assert Power10(2) == 100;
    assert Power10(4) == 100 * Power10(2);
    SecondsWidth(after);
    TextLength(SecondFields(c), ToSecond(after));
    TextReadsBack(SecondFields(c), ToSecond(after));
    LastIsAfter(SecondFields(c), ToSecond(after));
  }

  lemma {:induction false} LastIsAfter(values: seq<nat>, layout: seq<Slot>)
    requires |values| == |layout| > 0
    ensures |Text(values, layout)| > 0 && Text(values, layout)[|Text(values, layout)| - 1] == layout[|layout| - 1].after
  {
    if |values| > 1 {
      LastIsAfter(values[1..], layout[1..]);
    }
  }

  lemma FractionReadsBack(n: nat)
    requires 0 < n < 1_000_000_000
    ensures var f := TrimZeros(Digits(n, 9));
            0 < |f| <= 9 && AllDigits(f) && Nanoseconds(f) == n
  {
    assert Power10(2) == 100;
    assert Power10(4) == 100 * Power10(2);
    assert Power10(9) == 100_000 * Power10(4);
    DigitsReadBack(n, 9);
    TrimKeepsFraction(Digits(n, 9));
  }

  /** A cursor that goes through the token comes back as the same time, so as the identical stored text. */
  lemma TokenReadsBack(c: Civil)
    requires ValidCivil(c)
    ensures ParseToken(TokenTimestamp(c)) == Some(c)
    ensures StorageTimestamp(ParseToken(TokenTimestamp(c)).value) == StorageTimestamp(c)
  {
    var text := TokenTimestamp(c);
    if c.nano == 0 {
      SecondsReadBack(c, 'Z');
      assert text[..SECONDS_LENGTH] == text;
    } else {
      SecondsReadBack(c, '.');
      FractionReadsBack(c.nano);
      var f := TrimZeros(Digits(c.nano, 9));
      assert text[..SECONDS_LENGTH] == Text(SecondFields(c), ToSecond('.'));
      assert text[SECONDS_LENGTH..|text| - 1] == f;
    }
  }
}
