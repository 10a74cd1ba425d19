/**
 * Capture times (frontend/app/lib/capture.ts, `toRfc3339`): printing, reading back by the
 * grammar of section 5.6 of RFC 3339, and the order of the printed texts.
 */
module Rfc3339 {
  import opened Options
  import opened Text
  import opened Decimal
  import Q = PhotoQueue

  /** The local fields of a Date and its offset from UTC in minutes. */
  datatype Stamp = Stamp(year: int, month: nat, day: nat, hour: nat, minute: nat, second: nat, offset: int)

  // ---------- The calendar ----------

  predicate IsLeap(year: int) {
    year % 4 == 0 && (year % 100 != 0 || year % 400 == 0)
  }

  function DaysIn(year: int, month: nat): nat {
    if month == 2 then (if IsLeap(year) then 29 else 28)
    else if month == 4 || month == 6 || month == 9 || month == 11 then 30
    else 31
  }

  predicate ValidStamp(d: Stamp) {
    && 1 <= d.month <= 12 && 1 <= d.day <= DaysIn(d.year, d.month)
    && d.hour < 24 && d.minute < 60 && d.second < 60
    && -1440 < d.offset < 1440
  }

  function DaysBeforeMonth(year: int, month: nat): nat {
    if month <= 1 then 0 else DaysBeforeMonth(year, month - 1) + DaysIn(year, month - 1)
  }

  function DaysBeforeYear(year: nat): nat {
    if year == 0 then 0 else DaysBeforeYear(year - 1) + DaysBeforeMonth(year - 1, 13)
  }

  function DayNumber(year: nat, month: nat, day: nat): nat {
    DaysBeforeYear(year) + DaysBeforeMonth(year, month) + day
  }

  /** Seconds the device's own clock shows. */
  function LocalSeconds(d: Stamp): int
    requires d.year >= 0
  {
    DayNumber(d.year, d.month, d.day) * 86400 + d.hour * 3600 + d.minute * 60 + d.second
  }

  /** Seconds on the UTC time line. */
  function Instant(d: Stamp): int
    requires d.year >= 0
  {
    LocalSeconds(d) - d.offset * 60
  }

  lemma {:induction false} MonthsGrow(year: int, m: nat, n: nat)
    requires 1 <= m < n
    ensures DaysBeforeMonth(year, m) + DaysIn(year, m) <= DaysBeforeMonth(year, n)
  {
    if n > m + 1 {
      MonthsGrow(year, m, n - 1);
    }
  }

  lemma {:induction false} YearsGrow(y: nat, z: nat)
    requires y < z
    ensures DaysBeforeYear(y) + DaysBeforeMonth(y, 13) <= DaysBeforeYear(z)
  {
    if z > y + 1 {
      YearsGrow(y, z - 1);
    }
  }

  /** An earlier valid date has a smaller day number. */
  lemma EarlierDateHasSmallerDayNumber(y: nat, m: nat, d: nat, y': nat, m': nat, d': nat)
    requires 1 <= m <= 12 && 1 <= d <= DaysIn(y, m) && 1 <= m' <= 12 && 1 <= d' <= DaysIn(y', m')
    requires y < y' || (y == y' && (m < m' || (m == m' && d < d')))
    ensures DayNumber(y, m, d) < DayNumber(y', m', d')
  {
    if y < y' {
      YearsGrow(y, y');
      MonthsGrow(y, m, 13);
    } else if m < m' {
      MonthsGrow(y, m, m');
    }
  }

  // ---------- The clock ticks ----------

  /** The last day of a month of the Gregorian calendar. */
  function LastDay(year: int, month: nat): nat {
    match month
    case 2 => if year % 400 == 0 || (year % 4 == 0 && year % 100 != 0) then 29 else 28
    case 4 => 30
    case 6 => 30
    case 9 => 30
    case 11 => 30
    case _ => 31
  }

  function NextDay(d: Stamp): Stamp {
    if d.day < LastDay(d.year, d.month) then d.(day := d.day + 1)
    else if d.month < 12 then d.(month := d.month + 1, day := 1)
    else d.(year := d.year + 1, month := 1, day := 1)
  }

  /** What the clock shows a second later. */
  function NextSecond(d: Stamp): Stamp {
    if d.second < 59 then d.(second := d.second + 1)
    else if d.minute < 59 then d.(minute := d.minute + 1, second := 0)
    else if d.hour < 23 then d.(hour := d.hour + 1, minute := 0, second := 0)
    else NextDay(d).(hour := 0, minute := 0, second := 0)
  }

  lemma NextDayIsNext(d: Stamp)
    requires ValidStamp(d) && d.year >= 0
    ensures
      var n := NextDay(d);
      && ValidStamp(n) && n.year >= 0
      && DayNumber(n.year, n.month, n.day) == DayNumber(d.year, d.month, d.day) + 1
  {
    assert LastDay(d.year, d.month) == DaysIn(d.year, d.month);
  }

  /** The seconds that times are compared by advance by one from each second of the calendar to the next. */
  lemma SecondsTick(d: Stamp)
    requires ValidStamp(d) && d.year >= 0
    ensures ValidStamp(NextSecond(d)) && NextSecond(d).year >= 0
    ensures LocalSeconds(NextSecond(d)) == LocalSeconds(d) + 1 && Instant(NextSecond(d)) == Instant(d) + 1
  {
    NextDayIsNext(d);
  }

  // ---------- Printing and parsing ----------

  function YearText(year: int): string {
    if year < 0 then "-" + Print(-year) else Print(year)
  }

  function DateWith(d: Stamp, sep: string): string {
    YearText(d.year) + sep + Pad(d.month, 2) + sep + Pad(d.day, 2)
  }

  function DateText(d: Stamp): string {
    DateWith(d, "-")
  }

  function TimeText(d: Stamp): string {
    Pad(d.hour, 2) + ":" + Pad(d.minute, 2) + ":" + Pad(d.second, 2)
  }

  function Abs(n: int): nat {
    if n < 0 then -n else n
  }

  function OffsetText(offset: int): string {
    (if offset >= 0 then "+" else "-") + Pad(Abs(offset) / 60, 2) + ":" + Pad(Abs(offset) % 60, 2)
  }

  /** `toRfc3339`. */
  function ToRfc3339(d: Stamp): string {
    DateText(d) + "T" + TimeText(d) + OffsetText(d.offset)
  }

  function Field(s: string): Option<nat> {
    if AllDigits(s) then Some(Parse(s)) else None
  }

  /** A date-time of section 5.6 of RFC 3339 without fraction and with a numeric offset. */
  function ParseRfc3339(s: string): Option<Stamp> {
    if !(|s| == 25 && s[4] == '-' && s[7] == '-' && s[10] == 'T' && s[13] == ':' && s[16] == ':'
         && (s[19] == '+' || s[19] == '-') && s[22] == ':') then None
    else
      var year, month, day := Field(s[..4]), Field(s[5..7]), Field(s[8..10]);
      var hour, minute, second := Field(s[11..13]), Field(s[14..16]), Field(s[17..19]);
      var offsetHour, offsetMinute := Field(s[20..22]), Field(s[23..]);
      if year.None? || month.None? || day.None? || hour.None? || minute.None? || second.None?
         || offsetHour.None? || offsetMinute.None? || offsetHour.value >= 24 || offsetMinute.value >= 60 then None
      else
        var offset := offsetHour.value * 60 + offsetMinute.value;
        var d := Stamp(year.value, month.value, day.value, hour.value, minute.value, second.value,
                       if s[19] == '+' then offset else -offset);
        if ValidStamp(d) then Some(d) else None
  }

  predicate FourDigits(year: int) {
    1000 <= year <= 9999
  }

  lemma TwoDigits(n: nat)
    requires n < 100
    ensures |Pad(n, 2)| == 2 && Parse(Pad(n, 2)) == n
  {
    assert Pow10(2) == 100;
    PadLength(n, 2);
    ParsePad(n, 2);
  }

  lemma YearWidth(year: int)
    ensures FourDigits(year) ==> |YearText(year)| == 4 && AllDigits(YearText(year)) && Parse(YearText(year)) == year
    ensures !FourDigits(year) ==> |YearText(year)| != 4 || YearText(year)[0] == '-'
  {
    assert Pow10(3) == 1000 && Pow10(4) == 10000 by { assert Pow10(2) == 100; }
    if year >= 0 {
      PrintLength(year, 3);
      PrintLength(year, 4);
      ParsePrint(year);
    }
  }

  lemma DateParts(d: Stamp)
    requires ValidStamp(d) && FourDigits(d.year)
    ensures
      var s := DateText(d);
      && |s| == 10 && s[4] == '-' && s[7] == '-'
      && Field(s[..4]) == Some(d.year) && Field(s[5..7]) == Some(d.month) && Field(s[8..10]) == Some(d.day)
  {
    YearWidth(d.year);
    TwoDigits(d.month);
    TwoDigits(d.day);
    var s := DateText(d);
    assert s[..4] == YearText(d.year) && s[5..7] == Pad(d.month, 2) && s[8..10] == Pad(d.day, 2);
  }

  lemma TimeParts(d: Stamp)
    requires ValidStamp(d)
    ensures
      var s := TimeText(d);
      && |s| == 8 && s[2] == ':' && s[5] == ':'
      && Field(s[..2]) == Some(d.hour) && Field(s[3..5]) == Some(d.minute) && Field(s[6..8]) == Some(d.second)
  {
    TwoDigits(d.hour);
    TwoDigits(d.minute);
    TwoDigits(d.second);
    var s := TimeText(d);
    assert s[..2] == Pad(d.hour, 2) && s[3..5] == Pad(d.minute, 2) && s[6..8] == Pad(d.second, 2);
  }

  lemma OffsetParts(offset: int)
    requires -1440 < offset < 1440
    ensures
      var s := OffsetText(offset);
      && |s| == 6 && s[0] == (if offset >= 0 then '+' else '-') && s[3] == ':'
      && Field(s[1..3]) == Some(Abs(offset) / 60) && Field(s[4..]) == Some(Abs(offset) % 60)
  {
    TwoDigits(Abs(offset) / 60);
    TwoDigits(Abs(offset) % 60);
    var s := OffsetText(offset);
    assert s[1..3] == Pad(Abs(offset) / 60, 2) && s[4..] == Pad(Abs(offset) % 60, 2);
  }

  /** Where the fields stand in a text of date, time and offset. */
  lemma FieldsOf(a: string, b: string, c: string)
    requires |a| == 10 && |b| == 8 && |c| == 6
    ensures
      var s := a + "T" + b + c;
      && |s| == 25 && s[4] == a[4] && s[7] == a[7] && s[10] == 'T' && s[13] == b[2] && s[16] == b[5]
      && s[19] == c[0] && s[22] == c[3]
      && s[..4] == a[..4] && s[5..7] == a[5..7] && s[8..10] == a[8..10]
      && s[11..13] == b[..2] && s[14..16] == b[3..5] && s[17..19] == b[6..8]
      && s[20..22] == c[1..3] && s[23..] == c[4..]
  {
  }

  lemma SplitMinutes(offset: int)
    ensures Abs(offset) == Abs(offset) / 60 * 60 + Abs(offset) % 60
  {
  }

  lemma PrintedParses(d: Stamp)
    requires ValidStamp(d) && FourDigits(d.year)
    ensures ParseRfc3339(ToRfc3339(d)) == Some(d)
  {
    DateParts(d);
    TimeParts(d);
    OffsetParts(d.offset);
    FieldsOf(DateText(d), TimeText(d), OffsetText(d.offset));
    SplitMinutes(d.offset);
  }

  lemma YearComesFirst(y: string, m: string, d: string, t: string, o: string)
    requires |m| == 2 && |d| == 2 && |t| == 8 && |o| == 6
    ensures
      var s := y + "-" + m + "-" + d + "T" + t + o;
      |s| == |y| + 21 && s[..|y|] == y
  {
  }

  lemma LeadingDashIsNoField(s: string)
    requires s != [] && s[0] == '-'
    ensures Field(s) == None
  {
    assert '-' in s;
  }

  lemma OddYearIsRejected(d: Stamp)
    requires ValidStamp(d) && !FourDigits(d.year)
    ensures ParseRfc3339(ToRfc3339(d)) == None
  {
    var y, s := YearText(d.year), ToRfc3339(d);
    assert |s| == |y| + 21 && s[..|y|] == y by {
      TwoDigits(d.month);
      TwoDigits(d.day);
      TimeParts(d);
      OffsetParts(d.offset);
      YearComesFirst(y, Pad(d.month, 2), Pad(d.day, 2), TimeText(d), OffsetText(d.offset));
    }
    YearWidth(d.year);
    if |s| == 25 {
      LeadingDashIsNoField(y);
    }
  }

  /** Reading back a printed time gives the same fields and offset exactly for years of four digits. */
  lemma RoundTrip(d: Stamp)
    requires ValidStamp(d)
    ensures ParseRfc3339(ToRfc3339(d)) == Some(d) <==> 1000 <= d.year <= 9999
  {
    if FourDigits(d.year) {
      PrintedParses(d);
    } else {
      OddYearIsRejected(d);
    }
  }

  // ---------- Order ----------

  /** Equal-length first fields decide the order unless they are equal. */
  lemma FieldOrder(x: string, y: string, r: string, q: string)
    requires |x| == |y|
    ensures TextLeq(x + r, y + q) <==> if x == y then TextLeq(r, q) else TextLeq(x, y)
  {
    if x == y {
      TextLeqPrefix(x, r, q);
    } else {
      TextLeqHead(x, y, r, q);
    }
  }

  /** One two-digit field with what follows it, compared as a number first. */
  lemma PadOrder(m: nat, n: nat, r: string, q: string)
    requires m < 100 && n < 100
    ensures TextLeq(Pad(m, 2) + r, Pad(n, 2) + q) <==> m < n || (m == n && TextLeq(r, q))
  {
    TwoDigits(m);
    TwoDigits(n);
    FieldOrder(Pad(m, 2), Pad(n, 2), r, q);
    DigitsSortAsNumbers(Pad(m, 2), Pad(n, 2));
  }

  lemma YearOrder(m: int, n: int, r: string, q: string)
    requires FourDigits(m) && FourDigits(n)
    ensures TextLeq(YearText(m) + r, YearText(n) + q) <==> m < n || (m == n && TextLeq(r, q))
  {
    YearWidth(m);
    YearWidth(n);
    FieldOrder(YearText(m), YearText(n), r, q);
    DigitsSortAsNumbers(YearText(m), YearText(n));
  }

  predicate EarlierTime(a: Stamp, b: Stamp) {
    a.hour < b.hour || (a.hour == b.hour && (a.minute < b.minute || (a.minute == b.minute && a.second < b.second)))
  }

  predicate SameTime(a: Stamp, b: Stamp) {
    a.hour == b.hour && a.minute == b.minute && a.second == b.second
  }

  predicate EarlierDate(a: Stamp, b: Stamp) {
    a.year < b.year || (a.year == b.year && (a.month < b.month || (a.month == b.month && a.day < b.day)))
  }

  predicate SameDate(a: Stamp, b: Stamp) {
    a.year == b.year && a.month == b.month && a.day == b.day
  }

  /** Three fields with two separators and a tail, grouped from the right. */
  lemma Grouped(x: string, y: string, z: string, tail: string, sep: string)
    ensures x + sep + y + sep + z + tail == x + (sep + (y + (sep + (z + tail))))
  {
    assert x + sep + y + sep + z + tail == (x + sep + y) + (sep + (z + tail));
    assert (x + sep + y) + (sep + (z + tail)) == x + (sep + (y + (sep + (z + tail))));
  }

  lemma TimeOrder(a: Stamp, b: Stamp, r: string, q: string)
    requires ValidStamp(a) && ValidStamp(b)
    ensures TextLeq(TimeText(a) + r, TimeText(b) + q) <==> EarlierTime(a, b) || (SameTime(a, b) && TextLeq(r, q))
  {
    Grouped(Pad(a.hour, 2), Pad(a.minute, 2), Pad(a.second, 2), r, ":");
    Grouped(Pad(b.hour, 2), Pad(b.minute, 2), Pad(b.second, 2), q, ":");
    ThreeFields(a.hour, a.minute, a.second, b.hour, b.minute, b.second, ":", r, q);
  }

  lemma ThreeFields(h: nat, m: nat, s: nat, h': nat, m': nat, s': nat, sep: string, r: string, q: string)
    requires h < 100 && m < 100 && s < 100 && h' < 100 && m' < 100 && s' < 100
    ensures TextLeq(Pad(h, 2) + (sep + (Pad(m, 2) + (sep + (Pad(s, 2) + r)))),
                    Pad(h', 2) + (sep + (Pad(m', 2) + (sep + (Pad(s', 2) + q))))) <==>
            h < h' || (h == h' && (m < m' || (m == m' && (s < s' || (s == s' && TextLeq(r, q))))))
  {
    var x, x' := Pad(s, 2) + r, Pad(s', 2) + q;
    PadOrder(s, s', r, q);
    TextLeqPrefix(sep, x, x');
    var y, y' := Pad(m, 2) + (sep + x), Pad(m', 2) + (sep + x');
    PadOrder(m, m', sep + x, sep + x');
    TextLeqPrefix(sep, y, y');
    PadOrder(h, h', sep + y, sep + y');
  }

  lemma DateOrder(a: Stamp, b: Stamp, sep: string, r: string, q: string)
    requires ValidStamp(a) && ValidStamp(b) && FourDigits(a.year) && FourDigits(b.year)
    ensures TextLeq(DateWith(a, sep) + r, DateWith(b, sep) + q) <==>
            EarlierDate(a, b) || (SameDate(a, b) && TextLeq(r, q))
  {
    Grouped(YearText(a.year), Pad(a.month, 2), Pad(a.day, 2), r, sep);
    Grouped(YearText(b.year), Pad(b.month, 2), Pad(b.day, 2), q, sep);
    YearAndFields(a.year, a.month, a.day, b.year, b.month, b.day, sep, r, q);
  }

  lemma YearAndFields(y: int, m: nat, d: nat, y': int, m': nat, d': nat, sep: string, r: string, q: string)
    requires FourDigits(y) && FourDigits(y') && m < 100 && d < 100 && m' < 100 && d' < 100
    ensures TextLeq(YearText(y) + (sep + (Pad(m, 2) + (sep + (Pad(d, 2) + r)))),
                    YearText(y') + (sep + (Pad(m', 2) + (sep + (Pad(d', 2) + q))))) <==>
            y < y' || (y == y' && (m < m' || (m == m' && (d < d' || (d == d' && TextLeq(r, q))))))
  {
    var x, x' := Pad(d, 2) + r, Pad(d', 2) + q;
    PadOrder(d, d', r, q);
    TextLeqPrefix(sep, x, x');
    var z, z' := Pad(m, 2) + (sep + x), Pad(m', 2) + (sep + x');
    PadOrder(m, m', sep + x, sep + x');
    TextLeqPrefix(sep, z, z');
    YearOrder(y, y', sep + z, sep + z');
  }

  lemma LocalOrder(a: Stamp, b: Stamp)
    requires ValidStamp(a) && ValidStamp(b) && a.year >= 0 && b.year >= 0
    ensures LocalSeconds(a) < LocalSeconds(b) <==> EarlierDate(a, b) || (SameDate(a, b) && EarlierTime(a, b))
    ensures LocalSeconds(a) == LocalSeconds(b) <==> SameDate(a, b) && SameTime(a, b)
  {
    if EarlierDate(a, b) {
      EarlierDateHasSmallerDayNumber(a.year, a.month, a.day, b.year, b.month, b.day);
    } else if !SameDate(a, b) {
      EarlierDateHasSmallerDayNumber(b.year, b.month, b.day, a.year, a.month, a.day);
    }
  }

  lemma SignedOffset(sign: string, h: string, m: string)
    ensures sign + h + ":" + m == sign + (h + (":" + m))
  {
  }

  lemma CollatedDigits(s: string)
    requires AllDigits(s)
    ensures Collated(s) == s
  {
    forall i | 0 <= i < |s| ensures CollationKey(s[i]) == s[i] {
      assert s[i] in s;
    }
  }

  /** Three digit fields with separators, under the collation. */
  lemma CollatedFields(x: string, y: string, z: string, sep: string)
    requires AllDigits(x) && AllDigits(y) && AllDigits(z)
    ensures Collated(x + sep + y + sep + z) == x + Collated(sep) + y + Collated(sep) + z
  {
    CollatedDigits(x);
    CollatedDigits(y);
    CollatedDigits(z);
    CollatedConcat(x + sep + y + sep, z);
    CollatedConcat(x + sep + y, sep);
    CollatedConcat(x + sep, y);
    CollatedConcat(x, sep);
  }

  /** A text of three parts is collated part by part. */
  lemma CollatedParts(x: string, y: string, z: string)
    ensures Collated(x + "T" + y + z) == Collated(x) + "T" + Collated(y) + Collated(z)
  {
    CollatedConcat(x + "T" + y, z);
    CollatedConcat(x + "T", y);
    CollatedConcat(x, "T");
    assert Collated("T") == "T";
  }

  lemma CollatedText(d: Stamp)
    requires FourDigits(d.year)
    ensures Collated(ToRfc3339(d)) == DateWith(d, "+") + "T" + TimeText(d) + Collated(OffsetText(d.offset))
  {
    CollatedParts(DateText(d), TimeText(d), OffsetText(d.offset));
    CollatedFields(YearText(d.year), Pad(d.month, 2), Pad(d.day, 2), "-");
    CollatedFields(Pad(d.hour, 2), Pad(d.minute, 2), Pad(d.second, 2), ":");
    assert Collated("-") == "+" && Collated(":") == ":";
  }

  lemma CollatedOffset(offset: int)
    ensures Collated(OffsetText(offset)) ==
            (if offset >= 0 then "-" else "+") + (Pad(Abs(offset) / 60, 2) + (":" + Pad(Abs(offset) % 60, 2)))
  {
    var sign, h, m := if offset >= 0 then "+" else "-", Pad(Abs(offset) / 60, 2), Pad(Abs(offset) % 60, 2);
    CollatedDigits(h);
    CollatedDigits(m);
    CollatedConcat(sign + h + ":", m);
    CollatedConcat(sign + h, ":");
    CollatedConcat(sign, h);
    assert Collated(":") == ":" && Collated(sign) == if offset >= 0 then "-" else "+";
    SignedOffset(Collated(sign), h, m);
  }

  /** Offset texts: every "-" before every "+", then by size. */
  lemma OffsetOrder(m: int, n: int)
    requires -1440 < m < 1440 && -1440 < n < 1440
    ensures LocaleLeq(OffsetText(m), OffsetText(n)) <==> if (m >= 0) == (n >= 0) then Abs(m) <= Abs(n) else m < 0
  {
    var h, h', l, l' := Abs(m) / 60, Abs(n) / 60, Abs(m) % 60, Abs(n) % 60;
    var key, key' := if m >= 0 then "-" else "+", if n >= 0 then "-" else "+";
    CollatedOffset(m);
    CollatedOffset(n);
    FieldOrder(key, key', Pad(h, 2) + (":" + Pad(l, 2)), Pad(h', 2) + (":" + Pad(l', 2)));
    PadOrder(h, h', ":" + Pad(l, 2), ":" + Pad(l', 2));
    TextLeqPrefix(":", Pad(l, 2), Pad(l', 2));
    TwoDigits(l);
    TwoDigits(l');
    DigitsSortAsNumbers(Pad(l, 2), Pad(l', 2));
  }

  lemma Joined(x: string, y: string, z: string)
    ensures x + "T" + y + z == x + ("T" + (y + z))
  {
  }

  /** Printed times sort by what the device's clock showed; the offset only breaks ties. */
  lemma TextOrderIsLocalOrder(a: Stamp, b: Stamp)
    requires ValidStamp(a) && ValidStamp(b) && FourDigits(a.year) && FourDigits(b.year)
    ensures LocaleLeq(ToRfc3339(a), ToRfc3339(b)) <==>
            LocalSeconds(a) < LocalSeconds(b)
            || (LocalSeconds(a) == LocalSeconds(b) && LocaleLeq(OffsetText(a.offset), OffsetText(b.offset)))
  {
    var oa, ob := Collated(OffsetText(a.offset)), Collated(OffsetText(b.offset));
    var ta, tb := TimeText(a) + oa, TimeText(b) + ob;
    CollatedText(a);
    CollatedText(b);
    TimeOrder(a, b, oa, ob);
    TextLeqPrefix("T", ta, tb);
    DateOrder(a, b, "+", "T" + ta, "T" + tb);
    Joined(DateWith(a, "+"), TimeText(a), oa);
    Joined(DateWith(b, "+"), TimeText(b), ob);
    LocalOrder(a, b);
  }

  /**
   * The clocks' difference outweighs the difference of the offsets; equal clocks have equal
   * offsets, or both are behind UTC.
   */
  predicate OffsetsKeepOrder(a: Stamp, b: Stamp)
    requires a.year >= 0 && b.year >= 0
  {
    var gap, shift := LocalSeconds(a) - LocalSeconds(b), (a.offset - b.offset) * 60;
    if gap < 0 then gap <= shift
    else if gap > 0 then gap > shift
    else a.offset == b.offset || (a.offset < 0 && b.offset < 0)
  }

  /** Sorting the texts sorts the instants exactly when the offsets keep the order of the clocks. */
  lemma TextOrderIsTimeOrderExactly(a: Stamp, b: Stamp)
    requires ValidStamp(a) && ValidStamp(b) && FourDigits(a.year) && FourDigits(b.year)
    ensures (LocaleLeq(ToRfc3339(a), ToRfc3339(b)) <==> Instant(a) <= Instant(b)) <==> OffsetsKeepOrder(a, b)
  {
    TextOrderIsLocalOrder(a, b);
    OffsetOrder(a.offset, b.offset);
  }

  /** Among times printed with one offset it always does (section 5.1 of RFC 3339). */
  lemma TextOrderIsTimeOrder(a: Stamp, b: Stamp)
    requires ValidStamp(a) && ValidStamp(b) && FourDigits(a.year) && FourDigits(b.year) && a.offset == b.offset
    ensures LocaleLeq(ToRfc3339(a), ToRfc3339(b)) <==> Instant(a) <= Instant(b)
  {
    TextOrderIsTimeOrderExactly(a, b);
  }

  /** What `enqueue` recorded for the captures of a snapshot: valid four-digit-year times with one offset. */
  ghost predicate Stamped(snapshot: seq<Q.Item>, stamps: map<Q.ClientId, Stamp>, offset: int) {
    forall i | 0 <= i < |snapshot| ::
      && snapshot[i].clientId in stamps
      && var d := stamps[snapshot[i].clientId];
      ValidStamp(d) && FourDigits(d.year) && d.offset == offset && snapshot[i].takenAt == ToRfc3339(d)
  }

  /** On a phone that stays in its time zone the queue drains in the order the photos were taken. */
  lemma QueueOrderIsCaptureOrder(store: Q.Store, now: int, snapshot: seq<Q.Item>, stamps: map<Q.ClientId, Stamp>,
                                 offset: int, i: nat, j: nat)
    requires Q.IsDueSnapshot(store, now, snapshot) && Stamped(snapshot, stamps, offset) && i < j < |snapshot|
    ensures Instant(stamps[snapshot[i].clientId]) <= Instant(stamps[snapshot[j].clientId])
  {
    assert Q.TakenBefore(snapshot[i], snapshot[j]);
    TextOrderIsTimeOrder(stamps[snapshot[i].clientId], stamps[snapshot[j].clientId]);
  }

  /** A phone that crosses a time zone westward can sort a later capture first. */
  lemma TextOrderFailsAcrossOffsets(a: Stamp, b: Stamp)
    requires a == Stamp(2026, 9, 6, 10, 0, 0, 120) && b == Stamp(2026, 9, 6, 9, 30, 0, 60)
    ensures ValidStamp(a) && ValidStamp(b) && Instant(a) < Instant(b)
    ensures !LocaleLeq(ToRfc3339(a), ToRfc3339(b))
  {
    TextOrderIsLocalOrder(a, b);
  }
}
