/** Dates and times as the dialogue engine reads and writes them: the
    typed date of send_day_schedule_text (`%d.%m.%Y`, or `%d.%m` in the
    current year), the subscription time of update_subscribe_time (`%H:%M`),
    the day offset handed to the schedule resolver, and the week-start
    sentinels -1 and -2 of send_schedule / send_teacher_schedule.

    The parsers follow Python's `strptime`: its regular expression for
    `%d` is `3[01]|[12]\d|0[1-9]|[1-9]| [1-9]`, for `%m` `1[0-2]|0[1-9]|[1-9]`,
    for `%Y` `\d\d\d\d`, for `%H` `2[0-3]|[0-1]\d|\d` and for `%M`
    `[0-5]\d|\d`; text left over after the match is an error, and so is a
    day that its month does not have. */
module Calendar {
  import opened Values
  import opened Text

  datatype Date = Date(year: int, month: int, day: int)

  predicate IsLeap(y: int)
  {
    y % 4 == 0 && (y % 100 != 0 || y % 400 == 0)
  }

  function DaysInMonth(y: int, m: int): (n: int)
    requires 1 <= m <= 12
    ensures 28 <= n <= 31
  {
    if m == 2 then (if IsLeap(y) then 29 else 28)
    else if m == 4 || m == 6 || m == 9 || m == 11 then 30
    else 31
  }

  /** A date Python's `datetime` can represent (years 1 to 9999). */
  predicate ValidDate(d: Date)
  {
    1 <= d.year <= 9999 && 1 <= d.month <= 12 && 1 <= d.day <= DaysInMonth(d.year, d.month)
  }

  function DaysBeforeMonth(y: int, m: int): (n: int)
    requires 1 <= m <= 12
    ensures 0 <= n <= 31 * (m - 1)
  {
    if m == 1 then 0 else DaysBeforeMonth(y, m - 1) + DaysInMonth(y, m - 1)
  }

  /** `date.toordinal()`: 1 for 0001-01-01, counting days in the Gregorian calendar. */
  function Ordinal(d: Date): int
    requires ValidDate(d)
  {
    var y := d.year - 1;
    y * 365 + y / 4 - y / 100 + y / 400 + DaysBeforeMonth(d.year, d.month) + d.day
  }

  /** ISO weekday (1 = Monday … 7 = Sunday) of the day with the given ordinal;
      0001-01-01 was a Monday. */
  function WeekdayOfOrdinal(n: int): (w: int)
    ensures 1 <= w <= 7
  {
    (n + 6) % 7 + 1
  }

  /** `date.isoweekday()` */
  function IsoWeekday(d: Date): int
    requires ValidDate(d)
  {
    WeekdayOfOrdinal(Ordinal(d))
  }

  /** The local wall clock when an event is handled: today's date and the
      microseconds elapsed since midnight. */
  datatype Clock = Clock(today: Date, micros: int)

  const DayMicros: int := 86_400_000_000

  predicate ValidClock(c: Clock)
  {
    ValidDate(c.today) && 0 <= c.micros < DayMicros
  }

  // ---------------------------------------------------------------------
  // Week-start sentinels

  /** `-isoweekday() + 1`: the offset from today back to this week's Monday. */
  function ThisWeekStart(weekday: int): (offset: int)
    requires 1 <= weekday <= 7
    ensures -6 <= offset <= 0
    ensures forall n :: WeekdayOfOrdinal(n) == weekday ==> WeekdayOfOrdinal(n + offset) == 1
  {
    MondayOffsets(weekday);
    -weekday + 1
  }

  /** `7 - isoweekday() + 1`: the offset from today to next week's Monday. */
  function NextWeekStart(weekday: int): (offset: int)
    requires 1 <= weekday <= 7
    ensures 1 <= offset <= 7
    ensures forall n :: WeekdayOfOrdinal(n) == weekday ==> WeekdayOfOrdinal(n + offset) == 1
  {
    MondayOffsets(weekday);
    7 - weekday + 1
  }

  /** From any day with ISO weekday `w`, stepping back `w - 1` days or
      forward `8 - w` days lands on a Monday. */
  lemma MondayOffsets(w: int)
    requires 1 <= w <= 7
    ensures forall n :: WeekdayOfOrdinal(n) == w ==>
      WeekdayOfOrdinal(n - w + 1) == 1 && WeekdayOfOrdinal(n + 7 - w + 1) == 1
  {
    forall n | WeekdayOfOrdinal(n) == w
      ensures WeekdayOfOrdinal(n - w + 1) == 1 && WeekdayOfOrdinal(n + 7 - w + 1) == 1
    {
      var q := (n + 6) / 7;
      assert n == 7 * q + (w - 1) - 6;
      assert n - w + 1 == 7 * (q - 1) + 1;
      WeekdayShift(1, q - 1);
      assert n + 7 - w + 1 == 7 * q + 1;
      WeekdayShift(1, q);
    }
  }

  /** The start_day handed to the schedule resolver: the sentinel -1 means
      "Monday of this week", -2 "Monday of next week"; any other value is
      passed on unchanged. */
  function ResolveStartDay(startDay: Val, weekday: int): Val
    requires 1 <= weekday <= 7
  {
    if startDay == Int(-1) then Int(ThisWeekStart(weekday))
    else if startDay == Int(-2) then Int(NextWeekStart(weekday))
    else startDay
  }

  lemma {:induction false} WeekdayShift(n: int, k: int)
    ensures WeekdayOfOrdinal(n + 7 * k) == WeekdayOfOrdinal(n)
  {
    assert (n + 7 * k + 6) == (n + 6) + 7 * k;
    assert (n + 6 + 7 * k) % 7 == (n + 6) % 7 by {
      var q := (n + 6) / 7;
      var r := (n + 6) % 7;
      assert n + 6 + 7 * k == 7 * (q + k) + r;
    }
  }

  /** Counted from today, the two sentinels land on a Monday: this week's
      is on or before today, next week's is seven days later and after today. */
  lemma {:induction false} SentinelsLandOnMonday(today: Date)
    requires ValidDate(today)
    ensures var w := IsoWeekday(today);
      var s := ResolveStartDay(Int(-1), w);
      var t := ResolveStartDay(Int(-2), w);
      s.Int? && t.Int? && t.i == s.i + 7 && s.i <= 0 < t.i
      && WeekdayOfOrdinal(Ordinal(today) + s.i) == 1
      && WeekdayOfOrdinal(Ordinal(today) + t.i) == 1
  {
    var n := Ordinal(today);
    var w := IsoWeekday(today);
    var q := (n + 6) / 7;
    assert n == 7 * q + (w - 1) - 6;
    assert n + ThisWeekStart(w) == 7 * (q - 1) + 1;
    WeekdayShift(1, q - 1);
    assert n + NextWeekStart(w) == 7 * q + 1;
    WeekdayShift(1, q);
  }

  // ---------------------------------------------------------------------
  // Day offset of a typed date

  /** `(date - datetime.today() + timedelta(days=1)).days` for a date at
      midnight: whole days, rounded down, from now to the end of that date. */
  function DaysFromNow(date: Date, now: Clock): int
    requires ValidDate(date) && ValidClock(now)
  {
    ((Ordinal(date) - Ordinal(now.today) + 1) * DayMicros - now.micros) / DayMicros
  }

  /** After midnight the offset is the plain day difference; exactly at
      midnight it is one more. */
  lemma {:induction false} DaysFromNowIsDayDifference(date: Date, now: Clock)
    requires ValidDate(date) && ValidClock(now)
    ensures now.micros > 0 ==> DaysFromNow(date, now) == Ordinal(date) - Ordinal(now.today)
    ensures now.micros == 0 ==> DaysFromNow(date, now) == Ordinal(date) - Ordinal(now.today) + 1
  {
    var d := Ordinal(date) - Ordinal(now.today);
    var x := (d + 1) * DayMicros - now.micros;
    if now.micros > 0 {
      assert d * DayMicros + (DayMicros - now.micros) == x;
      assert 0 < DayMicros - now.micros < DayMicros;
      DivOfRemainder(d, DayMicros - now.micros);
    } else {
      DivOfRemainder(d + 1, 0);
    }
  }

  lemma DivOfRemainder(q: int, r: int)
    requires 0 <= r < DayMicros
    ensures (q * DayMicros + r) / DayMicros == q
  {
    var x := q * DayMicros + r;
    var d, m := x / DayMicros, x % DayMicros;
    assert x == d * DayMicros + m;
    assert (q - d) * DayMicros == m - r;
  }

  // ---------------------------------------------------------------------
  // `strptime(text, "%d.%m.%Y")`

  /** `s.split(".")`: the pieces between the dots, always at least one. */
  function SplitDots(s: string): (parts: seq<string>)
    ensures |parts| >= 1
    ensures forall k, j :: 0 <= k < |parts| && 0 <= j < |parts[k]| ==> parts[k][j] != '.'
  {
    if s == [] then [""]
    else
      var rest := SplitDots(s[1..]);
      if s[0] == '.' then [""] + rest
      else
        var parts := [[s[0]] + rest[0]] + rest[1..];
        assert forall k :: 1 <= k < |parts| ==> parts[k] == rest[k];
        parts
  }

  lemma {:induction false} SplitDotsAppend(s: string, tail: string)
    requires forall j :: 0 <= j < |tail| ==> tail[j] != '.'
    ensures SplitDots(s + "." + tail) == SplitDots(s) + [tail]
  {
    if s == [] {
      assert s + "." + tail == "." + tail;
      SplitDotsNoDot(tail);
    } else {
      assert (s + "." + tail)[1..] == s[1..] + "." + tail;
      SplitDotsAppend(s[1..], tail);
    }
  }

  lemma {:induction false} SplitDotsNoDot(s: string)
    requires forall j :: 0 <= j < |s| ==> s[j] != '.'
    ensures SplitDots(s) == [s]
  {
    if s != [] {
      SplitDotsNoDot(s[1..]);
      assert [s[0]] + s[1..] == s;
    }
  }

  predicate AllDigits(s: string)
  {
    forall k :: 0 <= k < |s| ==> IsDigit(s[k])
  }

  /** The `%d` field: "1"…"9", "01"…"31" or a space and one digit. */
  function DayField(s: string): (r: Option<int>)
    ensures r.Some? ==> 1 <= r.value <= 31
  {
    if |s| == 1 && IsDigit(s[0]) && s[0] != '0' then Some(DigitValue(s[0]))
    else if |s| == 2 && s[0] == ' ' && IsDigit(s[1]) && s[1] != '0' then Some(DigitValue(s[1]))
    else if |s| == 2 && AllDigits(s) && 1 <= DigitsValue(s) <= 31 then Some(DigitsValue(s))
    else None
  }

  /** The `%m` field: "1"…"9" or "01"…"12". */
  function MonthField(s: string): (r: Option<int>)
    ensures r.Some? ==> 1 <= r.value <= 12
  {
    if |s| == 1 && IsDigit(s[0]) && s[0] != '0' then Some(DigitValue(s[0]))
    else if |s| == 2 && AllDigits(s) && 1 <= DigitsValue(s) <= 12 then Some(DigitsValue(s))
    else None
  }

  /** The `%Y` field: exactly four digits. */
  function YearField(s: string): Option<int>
  {
    if |s| == 4 && AllDigits(s) then Some(DigitsValue(s)) else None
  }

  /** `datetime.strptime(s, "%d.%m.%Y")`; None where Python raises ValueError. */
  function StrptimeDate(s: string): (r: Option<Date>)
    ensures r.Some? ==> ValidDate(r.value)
  {
    var parts := SplitDots(s);
    if |parts| != 3 then None
    else
      var d, m, y := DayField(parts[0]), MonthField(parts[1]), YearField(parts[2]);
      if d.None? || m.None? || y.None? then None
      else
        var date := Date(y.value, m.value, d.value);
        if ValidDate(date) then Some(date) else None
  }

  /** The date typed in reply to the one-day prompt (send_day_schedule_text):
      spaces are dropped; three dot-separated parts are day.month.year, two
      are day.month of the current year, anything else is an error. */
  function ParseTypedDate(text: string, currentYear: int): (r: Option<Date>)
    ensures r.Some? ==> ValidDate(r.value)
  {
    var date := RemoveSpaces(text);
    var n := |SplitDots(date)|;
    if n == 3 then StrptimeDate(date)
    else if n == 2 then StrptimeDate(date + "." + IntToString(currentYear))
    else None
  }

  // ---------------------------------------------------------------------
  // `strftime("%d.%m.%Y")`, `strftime("%H:%M")`

  /** A number below 100 as two digits, zero-padded. */
  function Pad2(n: nat): (s: string)
    requires n < 100
    ensures |s| == 2 && AllDigits(s) && DigitsValue(s) == n
    ensures s[0] == DigitChar(n / 10) && s[1] == DigitChar(n % 10)
  {
    var s := [DigitChar(n / 10), DigitChar(n % 10)];
    DigitsValueTwo(s);
    s
  }

  lemma FourDigitYear(y: int)
    requires 1000 <= y <= 9999
    ensures |IntToString(y)| == 4 && AllDigits(IntToString(y)) && DigitsValue(IntToString(y)) == y
  {
    NatToStringValue(y);
    var a := y / 10;
    var b := a / 10;
    var c := b / 10;
    assert 100 <= a <= 999 && 10 <= b <= 99 && 1 <= c <= 9;
    assert |NatToString(c)| == 1;
    assert |NatToString(b)| == 2 by {
      assert NatToString(b) == NatToString(c) + [DigitChar(b % 10)];
    }
    assert |NatToString(a)| == 3 by {
      assert NatToString(a) == NatToString(b) + [DigitChar(a % 10)];
    }
    assert NatToString(y) == NatToString(a) + [DigitChar(y % 10)];
  }

  /** `date.strftime("%d.%m.%Y")`; the C library writes the year without
      padding. */
  function FormatDate(d: Date): string
    requires ValidDate(d)
  {
    Pad2(d.day) + "." + Pad2(d.month) + "." + IntToString(d.year)
  }

  /** A formatted date reads back as the same date. */
  lemma FormatDateRoundTrip(d: Date)
    requires ValidDate(d) && d.year >= 1000
    ensures StrptimeDate(FormatDate(d)) == Some(d)
    ensures |SplitDots(FormatDate(d))| == 3
  {
    var a, b, c := Pad2(d.day), Pad2(d.month), IntToString(d.year);
    FourDigitYear(d.year);
    SplitDotsNoDot(c);
    SplitDotsAppend(a + "." + b, c);
    SplitDotsNoDot(b);
    SplitDotsAppend(a, b);
    SplitDotsNoDot(a);
    assert FormatDate(d) == (a + "." + b) + "." + c;
    assert SplitDots(FormatDate(d)) == [a, b, c];
  }

  /** The pieces of `"15.03"`: a day and a month, and no space to drop. */
  lemma DayMonthPieces()
    ensures RemoveSpaces("15.03") == "15.03"
    ensures SplitDots("15.03") == ["15", "03"]
    ensures DayField("15") == Some(15) && MonthField("03") == Some(3)
  {
    RemoveSpacesKeepsOthers("15.03");
    SplitDotsNoDot("03");
    SplitDotsNoDot("15");
    SplitDotsAppend("15", "03");
    DigitsValueTwo("15");
    DigitsValueTwo("03");
  }

  /** `"15.03"` completed with a four-digit year Y is 15 March Y. */
  lemma DayMonthWithYear(y: int)
    requires 1000 <= y <= 9999
    ensures StrptimeDate("15.03" + "." + IntToString(y)) == Some(Date(y, 3, 15))
  {
    var ys := IntToString(y);
    FourDigitYear(y);
    DayMonthPieces();
    SplitDotsNoDot(ys);
    SplitDotsAppend("15.03", ys);
    var full := "15.03" + "." + ys;
    assert SplitDots(full) == ["15", "03", ys];
    assert YearField(ys) == Some(y);
    assert ValidDate(Date(y, 3, 15));
  }

  /** `"15.03"` typed in year Y is 15 March Y. */
  lemma DayMonthExample(y: int)
    requires 1000 <= y <= 9999
    ensures ParseTypedDate("15.03", y) == Some(Date(y, 3, 15))
  {
    DayMonthPieces();
    DayMonthWithYear(y);
  }

  /** Spaces typed anywhere in a date make no difference to its reading. */
  lemma SpacesIgnored(text: string, currentYear: int)
    ensures ParseTypedDate(text, currentYear) == ParseTypedDate(RemoveSpaces(text), currentYear)
  {
    RemoveSpacesNoSpace(text);
    RemoveSpacesKeepsOthers(RemoveSpaces(text));
  }

  /** A day and a month typed as two fields are that day of the current
      year, whenever that is a real date. */
  lemma DayMonthRule(d: Date)
    requires ValidDate(d) && d.year >= 1000
    ensures ParseTypedDate(Pad2(d.day) + "." + Pad2(d.month), d.year) == Some(d)
  {
    var a, b := Pad2(d.day), Pad2(d.month);
    var s := a + "." + b;
    assert forall k :: 0 <= k < |s| ==> s[k] != ' ';
    RemoveSpacesKeepsOthers(s);
    SplitDotsNoDot(b);
    SplitDotsNoDot(a);
    SplitDotsAppend(a, b);
    FormatDateRoundTrip(d);
    assert FormatDate(d) == s + "." + IntToString(d.year);
  }

  /** A day or month number written without padding ("5", "15") is read
      back by the `%d` and `%m` fields. */
  lemma UnpaddedFields(n: nat)
    requires 1 <= n <= 31
    ensures DayField(NatToString(n)) == Some(n)
    ensures n <= 12 ==> MonthField(NatToString(n)) == Some(n)
  {
    var s := NatToString(n);
    if n >= 10 {
      assert NatToString(n / 10) == [DigitChar(n / 10)];
      assert s == [DigitChar(n / 10), DigitChar(n % 10)];
      DigitsValueTwo(s);
    }
  }

  /** The same rule for a day and a month typed without zero padding,
      such as "5.3" or "15.3". */
  lemma UnpaddedDayMonthRule(d: Date)
    requires ValidDate(d) && d.year >= 1000
    ensures ParseTypedDate(NatToString(d.day) + "." + NatToString(d.month), d.year) == Some(d)
  {
    var a, b, c := NatToString(d.day), NatToString(d.month), IntToString(d.year);
    var s := a + "." + b;
    assert forall k :: 0 <= k < |s| ==> s[k] != ' ';
    RemoveSpacesKeepsOthers(s);
    SplitDotsNoDot(b);
    SplitDotsNoDot(a);
    SplitDotsAppend(a, b);
    FourDigitYear(d.year);
    SplitDotsNoDot(c);
    SplitDotsAppend(s, c);
    assert SplitDots(s + "." + c) == [a, b, c];
    UnpaddedFields(d.day);
    UnpaddedFields(d.month);
  }

  /** Spaces typed inside a date are ignored: "15 . 03" reads as "15.03". */
  lemma SpacedDayMonthExample(y: int)
    requires 1000 <= y <= 9999
    ensures ParseTypedDate("15 . 03", y) == Some(Date(y, 3, 15))
  {
    DayMonthExample(y);
    SpacesDropped();
  }

  /** "15 . 03" without its spaces is "15.03". */
  lemma SpacesDropped()
    ensures RemoveSpaces("15 . 03") == "15.03"
  {
    RemoveSpacesKeepsOthers("03");
    var t := "15 . 03";
    assert t[1..] == "5 . 03" && t[2..] == " . 03" && t[3..] == ". 03" && t[4..] == " 03" && t[5..] == "03";
    assert RemoveSpaces(t[4..]) == "03";
    assert RemoveSpaces(t[3..]) == ".03";
    assert RemoveSpaces(t[1..]) == "5.03";
  }

  /** A full date typed as day.month.year is read as that date, whatever
      the current year. */
  lemma TypedFullDateRoundTrip(d: Date, currentYear: int)
    requires ValidDate(d) && d.year >= 1000
    ensures ParseTypedDate(FormatDate(d), currentYear) == Some(d)
  {
    var s := FormatDate(d);
    FormatDateRoundTrip(d);
    FourDigitYear(d.year);
    assert forall k :: 0 <= k < |s| ==> s[k] != ' ';
    RemoveSpacesKeepsOthers(s);
  }

  /** `"15.03.2021"` is 15 March 2021 whatever the current year. */
  lemma DayMonthYearExample(y: int)
    ensures ParseTypedDate("15.03.2021", y) == Some(Date(2021, 3, 15))
  {
    TypedFullDateRoundTrip(Date(2021, 3, 15), y);
    FormattedExample();
  }

  /** 15 March 2021 is written "15.03.2021". */
  lemma FormattedExample()
    ensures FormatDate(Date(2021, 3, 15)) == "15.03.2021"
  {
    assert IntToString(2021) == "2021";
  }

  /** `"15/03"` and `"abc"` take the incorrect-date path. */
  lemma MalformedDateExamples(y: int)
    ensures ParseTypedDate("15/03", y) == None
    ensures ParseTypedDate("abc", y) == None
  {
    SplitDotsNoDot("15/03");
    SplitDotsNoDot("abc");
    RemoveSpacesKeepsOthers("15/03");
    RemoveSpacesKeepsOthers("abc");
  }

  /** The `%H` field: "0"…"9" or "00"…"23". */
  function HourField(s: string): (r: Option<int>)
    ensures r.Some? ==> 0 <= r.value <= 23
  {
    if |s| == 1 && IsDigit(s[0]) then Some(DigitValue(s[0]))
    else if |s| == 2 && AllDigits(s) && DigitsValue(s) <= 23 then Some(DigitsValue(s))
    else None
  }

  /** The `%M` field followed by the end of the text: the regular expression
      tries `[0-5]\d` first and `\d` second and does not backtrack to reach
      the end, so "60" fails although "6" alone would match. */
  function MinuteField(s: string): (r: Option<int>)
    ensures r.Some? ==> 0 <= r.value <= 59
  {
    if |s| >= 2 && '0' <= s[0] <= '5' && IsDigit(s[1]) then
      (if |s| == 2 then DigitsValueTwo(s); Some(DigitsValue(s)) else None)
    else if |s| >= 1 && IsDigit(s[0]) then
      (if |s| == 1 then Some(DigitValue(s[0])) else None)
    else None
  }

  function FirstColon(s: string): (i: nat)
    requires ':' in s
    ensures i < |s| && s[i] == ':' && ':' !in s[..i]
  {
    if s[0] == ':' then 0 else
      assert ':' in s[1..] by {
        var k :| 0 <= k < |s| && s[k] == ':';
        assert s[1..][k - 1] == ':';
      }
      var i := FirstColon(s[1..]) + 1;
      assert s[..i] == [s[0]] + s[1..][..i - 1];
      i
  }

  /** `datetime.strptime(s, "%H:%M")` as (hour, minute); None where Python
      raises ValueError. */
  function StrptimeTime(s: string): (r: Option<(int, int)>)
    ensures r.Some? ==> 0 <= r.value.0 <= 23 && 0 <= r.value.1 <= 59
  {
    if ':' !in s then None
    else
      var i := FirstColon(s);
      var h, m := HourField(s[..i]), MinuteField(s[i + 1..]);
      if h.Some? && m.Some? then Some((h.value, m.value)) else None
  }

  /** `strftime("%H:%M")`: always five characters, zero-padded. */
  function FormatTime(h: nat, m: nat): (s: string)
    requires h < 24 && m < 60
    ensures |s| == 5 && s[2] == ':'
  {
    Pad2(h) + ":" + Pad2(m)
  }

  /** The subscription time update_subscribe_time stores for a text, or None. */
  function NormaliseTime(text: string): (r: Option<string>)
    ensures r.Some? ==> |r.value| == 5 && r.value[2] == ':'
    ensures r.Some? <==> StrptimeTime(text).Some?
  {
    match StrptimeTime(text)
    case None => None
    case Some(hm) => Some(FormatTime(hm.0, hm.1))
  }

  /** A stored subscription time reads back as the same hour and minute, so
      normalising it again changes nothing. */
  lemma FormatTimeRoundTrip(h: nat, m: nat)
    requires h < 24 && m < 60
    ensures StrptimeTime(FormatTime(h, m)) == Some((h, m))
    ensures NormaliseTime(FormatTime(h, m)) == Some(FormatTime(h, m))
  {
    var s := FormatTime(h, m);
    assert s[..2] == Pad2(h) && s[3..] == Pad2(m);
    assert FirstColon(s) == 2;
    assert HourField(Pad2(h)) == Some(h);
    assert MinuteField(Pad2(m)) == Some(m);
  }

  /** "7:5" is stored as "07:05" and "23:59" as itself. */
  lemma TimeExamples()
    ensures NormaliseTime("7:5") == Some("07:05")
    ensures NormaliseTime("23:59") == Some("23:59")
  {
    ShortTimeExample();
    FullTimeExample();
  }

  /** Single-digit fields are zero-padded. */
  lemma ShortTimeExample()
    ensures NormaliseTime("7:5") == Some("07:05")
  {
    assert StrptimeTime("7:5") == Some((7, 5)) by {
      assert FirstColon("7:5") == 1;
      assert "7:5"[..1] == "7" && "7:5"[2..] == "5";
      assert HourField("7") == Some(7);
      assert MinuteField("5") == Some(5);
    }
    assert FormatTime(7, 5) == "07:05";
  }

  /** The last minute of the day is stored as typed. */
  lemma FullTimeExample()
    ensures NormaliseTime("23:59") == Some("23:59")
  {
    assert StrptimeTime("23:59") == Some((23, 59)) by {
      assert FirstColon("23:59") == 2;
      assert "23:59"[..2] == "23" && "23:59"[3..] == "59";
      DigitsValueTwo("23");
      DigitsValueTwo("59");
      assert HourField("23") == Some(23);
      assert MinuteField("59") == Some(59);
    }
    assert FormatTime(23, 59) == "23:59";
  }

  /** "24:00", "12:60" and "12.30" are rejected. */
  lemma MalformedTimeExamples()
    ensures NormaliseTime("24:00") == None
    ensures NormaliseTime("12:60") == None
    ensures NormaliseTime("12.30") == None
  {
    HourOutOfRange();
    MinuteOutOfRange();
    assert ':' !in "12.30";
  }

  /** There is no hour 24. */
  lemma HourOutOfRange()
    ensures StrptimeTime("24:00") == None
  {
    assert FirstColon("24:00") == 2;
    assert "24:00"[..2] == "24";
    DigitsValueTwo("24");
  }

  /** There is no minute 60. */
  lemma MinuteOutOfRange()
    ensures StrptimeTime("12:60") == None
  {
    assert FirstColon("12:60") == 2;
    assert "12:60"[3..] == "60";
  }
}
