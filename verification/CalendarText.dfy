/** Dates and times as text: the layout 2006-01-02T15:04:05, the default end of an event, and the date
    keywords of the event list. */
module CalendarText {
  import opened Calendar
  import opened Text
  import opened Wrappers

  const SECONDS_PER_DAY := 86400

  /** A civil time to the second. */
  datatype Stamp = Stamp(date: Date, second: int)

  predicate ValidStamp(t: Stamp) {
    Valid(t.date) && 0 <= t.second < SECONDS_PER_DAY
  }

  /** Seconds since Monday, 1 January of year 1. */
  function Instant(t: Stamp): int
    requires ValidStamp(t)
  {
    Number(t.date) * SECONDS_PER_DAY + t.second
  }

  function AddSeconds(t: Stamp, seconds: nat): (r: Stamp)
    requires ValidStamp(t)
    ensures ValidStamp(r)
  {
    var total := t.second + seconds;
    Stamp(AddDays(t.date, total / SECONDS_PER_DAY), total % SECONDS_PER_DAY)
  }

  lemma AddSecondsCounts(t: Stamp, seconds: nat)
    requires ValidStamp(t)
    ensures Instant(AddSeconds(t, seconds)) == Instant(t) + seconds
  {
    AddDaysCounts(t.date, (t.second + seconds) / SECONDS_PER_DAY);
  }

  // ---------------------------------------------------------------------------
  // Printing
  // ---------------------------------------------------------------------------

  function TwoDigits(n: int): (s: string)
    requires 0 <= n < 100
    ensures |s| == 2
  {
    [Digit(n / 10), Digit(n % 10)]
  }

  /** At least four digits. */
  function YearText(y: int): string {
    if y < 0 then "-" + PositiveYear(-y) else PositiveYear(y)
  }

  function PositiveYear(y: nat): string {
    if y < 10000 then TwoDigits(y / 100) + TwoDigits(y % 100) else Decimal(y)
  }

  function DateThen(d: Date, rest: string): string
    requires Valid(d)
  {
    YearText(d.year) + ("-" + (TwoDigits(d.month) + ("-" + (TwoDigits(d.day) + rest))))
  }

  function FieldsThen(hour: int, minute: int, second: int, rest: string): string
    requires 0 <= hour < 24 && 0 <= minute < 60 && 0 <= second < 60
  {
    TwoDigits(hour) + (":" + (TwoDigits(minute) + (":" + (TwoDigits(second) + rest))))
  }

  function ClockThen(second: int, rest: string): string
    requires 0 <= second < SECONDS_PER_DAY
  {
    FieldsThen(second / 3600, second / 60 % 60, second % 60, rest)
  }

  function FormatDate(d: Date): string
    requires Valid(d)
  {
    DateThen(d, "")
  }

  function FormatStamp(t: Stamp): string
    requires ValidStamp(t)
  {
    DateThen(t.date, "T" + ClockThen(t.second, ""))
  }

  // ---------------------------------------------------------------------------
  // Reading
  // ---------------------------------------------------------------------------

  predicate DigitAt(s: string, i: nat) {
    i < |s| && '0' <= s[i] <= '9'
  }

  function DigitValue(c: char): (d: nat)
    requires '0' <= c <= '9'
    ensures d < 10
  {
    c as int - '0' as int
  }

  /** One or two digits; exactly two when `fixed`. */
  function ReadNumber(s: string, fixed: bool): Option<(nat, string)> {
    if !DigitAt(s, 0) then None
    else if DigitAt(s, 1) then Some((10 * DigitValue(s[0]) + DigitValue(s[1]), s[2..]))
    else if fixed then None
    else Some((DigitValue(s[0]), s[1..]))
  }

  function ReadYear(s: string): Option<(nat, string)> {
    if !DigitAt(s, 0) || !DigitAt(s, 1) || !DigitAt(s, 2) || !DigitAt(s, 3) then None
    else Some((1000 * DigitValue(s[0]) + 100 * DigitValue(s[1]) + 10 * DigitValue(s[2]) + DigitValue(s[3]), s[4..]))
  }

  function Expect(s: string, c: char): Option<string> {
    if s != "" && s[0] == c then Some(s[1..]) else None
  }

  function SkipDigits(s: string): string {
    if DigitAt(s, 0) then SkipDigits(s[1..]) else s
  }

  /** Fractional seconds are accepted after the seconds and then dropped by every printing. */
  function SkipFraction(s: string): string {
    if |s| >= 2 && (s[0] == '.' || s[0] == ',') && DigitAt(s, 1) then SkipDigits(s[2..]) else s
  }

  function ReadDate(s: string): (r: Option<(Date, string)>)
    ensures r.Some? ==> Valid(r.value.0) && 0 <= r.value.0.year <= 9999
  {
    match ReadYear(s)
    case None => None
    case Some((y, afterYear)) =>
      match ReadNumber(Expect(afterYear, '-').GetOr(""), true)
      case None => None
      case Some((m, afterMonth)) =>
        match ReadNumber(Expect(afterMonth, '-').GetOr(""), true)
        case None => None
        case Some((d, rest)) => if Valid(Date(y, m, d)) then Some((Date(y, m, d), rest)) else None
  }

  /** Hour, minute and second, as seconds of the day. */
  function ReadClock(s: string): (r: Option<(int, string)>)
    ensures r.Some? ==> 0 <= r.value.0 < SECONDS_PER_DAY
  {
    match ReadNumber(s, false)
    case None => None
    case Some((hour, afterHour)) =>
      match ReadNumber(Expect(afterHour, ':').GetOr(""), true)
      case None => None
      case Some((minute, afterMinute)) =>
        match ReadNumber(Expect(afterMinute, ':').GetOr(""), true)
        case None => None
        case Some((second, rest)) =>
          if hour < 24 && minute < 60 && second < 60 then Some((hour * 3600 + minute * 60 + second, SkipFraction(rest))) else None
  }

  function ParseDate(s: string): (r: Option<Date>)
    ensures r.Some? ==> Valid(r.value) && 0 <= r.value.year <= 9999
  {
    match ReadDate(s)
    case Some((d, rest)) => if rest == "" then Some(d) else None
    case None => None
  }

  function ParseStamp(s: string): (r: Option<Stamp>)
    ensures r.Some? ==> ValidStamp(r.value) && 0 <= r.value.date.year <= 9999
  {
    match ReadDate(s)
    case None => None
    case Some((d, afterDate)) =>
      match ReadClock(Expect(afterDate, 'T').GetOr(""))
      case None => None
      case Some((second, rest)) => if rest == "" then Some(Stamp(d, second)) else None
  }

  // ---------------------------------------------------------------------------
  // What is printed reads back
  // ---------------------------------------------------------------------------

  lemma TwoDigitsRead(n: int, rest: string, fixed: bool)
    requires 0 <= n < 100
    ensures ReadNumber(TwoDigits(n) + rest, fixed) == Some((n, rest))
  {
  }

  lemma ExpectRead(c: char, rest: string)
    ensures Expect([c] + rest, c) == Some(rest)
  {
  }

  lemma YearRead(y: int, rest: string)
    requires 0 <= y <= 9999
    ensures ReadYear(YearText(y) + rest) == Some((y, rest))
  {
  }

  lemma DateRead(d: Date, rest: string)
    requires Valid(d) && 0 <= d.year <= 9999
    ensures ReadDate(DateThen(d, rest)) == Some((d, rest))
  {
    var afterMonth := "-" + (TwoDigits(d.day) + rest);
    var afterYear := "-" + (TwoDigits(d.month) + afterMonth);
    YearRead(d.year, afterYear);
    ExpectRead('-', TwoDigits(d.month) + afterMonth);
    TwoDigitsRead(d.month, afterMonth, true);
    ExpectRead('-', TwoDigits(d.day) + rest);
    TwoDigitsRead(d.day, rest, true);
  }

  lemma FieldsRead(hour: int, minute: int, second: int, rest: string)
    requires 0 <= hour < 24 && 0 <= minute < 60 && 0 <= second < 60
    ensures ReadClock(FieldsThen(hour, minute, second, rest)) == Some((hour * 3600 + minute * 60 + second, SkipFraction(rest)))
  {
  }

  lemma ClockFields(second: int)
    requires 0 <= second < SECONDS_PER_DAY
    ensures second / 3600 * 3600 + second / 60 % 60 * 60 + second % 60 == second
  {
  }

  lemma ClockRead(second: int, rest: string)
    requires 0 <= second < SECONDS_PER_DAY
    ensures ReadClock(ClockThen(second, rest)) == Some((second, SkipFraction(rest)))
  {
    FieldsRead(second / 3600, second / 60 % 60, second % 60, rest);
    ClockFields(second);
  }

  lemma DateReadsBack(d: Date)
    requires Valid(d) && 0 <= d.year <= 9999
    ensures ParseDate(FormatDate(d)) == Some(d)
  {
  }

  lemma StampReadsBack(t: Stamp)
    requires ValidStamp(t) && 0 <= t.date.year <= 9999
    ensures ParseStamp(FormatStamp(t)) == Some(t)
  {
    DateRead(t.date, "T" + ClockThen(t.second, ""));
    ExpectRead('T', ClockThen(t.second, ""));
    ClockRead(t.second, "");
  }

  // ---------------------------------------------------------------------------
  // What reads back was printed
  // ---------------------------------------------------------------------------

  lemma NumberPrinted(s: string)
    requires ReadNumber(s, true).Some?
    ensures s == TwoDigits(ReadNumber(s, true).value.0) + ReadNumber(s, true).value.1
  {
  }

  lemma YearPrinted(s: string)
    requires ReadYear(s).Some?
    ensures s == YearText(ReadYear(s).value.0) + ReadYear(s).value.1
  {
    assert s == [s[0], s[1], s[2], s[3]] + s[4..];
    var y := ReadYear(s).value.0;
    assert y / 100 == 10 * DigitValue(s[0]) + DigitValue(s[1]);
    assert y % 100 == 10 * DigitValue(s[2]) + DigitValue(s[3]);
  }

  lemma ExpectPrinted(s: string, c: char)
    requires Expect(s, c).GetOr("") != ""
    ensures s == [c] + Expect(s, c).GetOr("")
  {
  }

  /** The date layout has one spelling for each date: the accepted strings are exactly the printed ones. */
  lemma ParseDateExact(s: string, d: Date)
    requires Valid(d) && 0 <= d.year <= 9999
    ensures ParseDate(s) == Some(d) <==> s == FormatDate(d)
  {
    DateReadsBack(d);
    if ParseDate(s) == Some(d) {
      YearPrinted(s);
      var afterYear := ReadYear(s).value.1;
      ExpectPrinted(afterYear, '-');
      var month := Expect(afterYear, '-').GetOr("");
      NumberPrinted(month);
      var afterMonth := ReadNumber(month, true).value.1;
      ExpectPrinted(afterMonth, '-');
      NumberPrinted(Expect(afterMonth, '-').GetOr(""));
    }
  }

  // ---------------------------------------------------------------------------
  // The default end of an event
  // ---------------------------------------------------------------------------

  const DEFAULT_MEETING_SECONDS := 1800

  function DefaultLength(isAllDay: bool): nat {
    if isAllDay then SECONDS_PER_DAY else DEFAULT_MEETING_SECONDS
  }

  function ComputeDefaultEndTime(start: string, isAllDay: bool): Option<string> {
    match ParseStamp(start)
    case Some(t) => Some(FormatStamp(AddSeconds(t, DefaultLength(isAllDay))))
    case None => None
  }

  lemma FiveDigits(y: nat)
    requires y >= 10000
    ensures |Decimal(y)| >= 5
  {
    var a, b, c, d := y / 10, y / 100, y / 1000, y / 10000;
    assert b == a / 10 && c == b / 10 && d == c / 10;
    assert Decimal(y) == Decimal(a) + [Digit(y % 10)];
    assert Decimal(a) == Decimal(b) + [Digit(a % 10)];
    assert Decimal(b) == Decimal(c) + [Digit(b % 10)];
    assert Decimal(c) == Decimal(d) + [Digit(c % 10)];
  }

  /** A five-digit year is not read back. */
  lemma LongYearUnread(d: Date, rest: string)
    requires Valid(d) && d.year > 9999
    ensures ReadDate(DateThen(d, rest)).None?
  {
    FiveDigits(d.year);
    var s := DateThen(d, rest);
    assert s[4] == YearText(d.year)[4];
    assert ReadYear(s).Some? && ReadYear(s).value.1[0] == s[4];
  }

  /** The end computed for a readable start is half an hour later, or a day later for an all-day event, across month,
      year and leap boundaries; it reads back as such exactly when it falls in a four-digit year. */
  lemma DefaultEndTime(start: string, isAllDay: bool)
    requires ParseStamp(start).Some?
    ensures var t := ParseStamp(start).value;
            var u := AddSeconds(t, if isAllDay then 86400 else 1800);
            && Instant(u) == Instant(t) + (if isAllDay then 86400 else 1800)
            && ComputeDefaultEndTime(start, isAllDay) == Some(FormatStamp(u))
            && (ParseStamp(FormatStamp(u)) == Some(u) <==> u.date.year <= 9999)
            && (u.date.year > 9999 ==> ParseStamp(FormatStamp(u)).None?)
  {
    var t := ParseStamp(start).value;
    var u := AddSeconds(t, DefaultLength(isAllDay));
    AddSecondsCounts(t, DefaultLength(isAllDay));
    NumberOrdersDates(u.date, t.date);
    if u.date.year <= 9999 {
      StampReadsBack(u);
    } else {
      LongYearUnread(u.date, "T" + ClockThen(u.second, ""));
    }
  }

  /** There is an end exactly for a start that can be read. */
  lemma EndIffReadable(start: string, isAllDay: bool)
    ensures ComputeDefaultEndTime(start, isAllDay).Some? <==> ParseStamp(start).Some?
  {
  }

  lemma {:induction false} DigitsSkipped(digits: string)
    requires forall i :: 0 <= i < |digits| ==> '0' <= digits[i] <= '9'
    ensures SkipDigits(digits) == ""
  {
    if digits != "" {
      DigitsSkipped(digits[1..]);
    }
  }

  /** A fraction of a second, after a point or a comma, is read and dropped. */
  lemma FractionDropped(t: Stamp, mark: char, digits: string)
    requires ValidStamp(t) && 0 <= t.date.year <= 9999 && mark in {'.', ','}
    requires digits != "" && forall i :: 0 <= i < |digits| ==> '0' <= digits[i] <= '9'
    ensures ParseStamp(FormatStamp(t) + ([mark] + digits)) == Some(t)
  {
    var rest := [mark] + digits;
    DigitsSkipped(digits[1..]);
    assert rest[2..] == digits[1..] && rest[1] == digits[0];
    assert SkipFraction(rest) == "";
    DateRead(t.date, "T" + ClockThen(t.second, rest));
    ExpectRead('T', ClockThen(t.second, rest));
    ClockRead(t.second, rest);
    StampExtended(t, rest);
  }

  lemma StampExtended(t: Stamp, rest: string)
    requires ValidStamp(t)
    ensures FormatStamp(t) + rest == DateThen(t.date, "T" + ClockThen(t.second, rest))
  {
    ClockExtended(t.second, rest);
    DateExtended(t.date, "T" + ClockThen(t.second, ""), rest);
    assert "T" + ClockThen(t.second, "") + rest == "T" + ClockThen(t.second, rest);
  }

  lemma ClockExtended(second: int, rest: string)
    requires 0 <= second < SECONDS_PER_DAY
    ensures ClockThen(second, "") + rest == ClockThen(second, rest)
  {
  }

  lemma DateExtended(d: Date, x: string, rest: string)
    requires Valid(d)
    ensures DateThen(d, x) + rest == DateThen(d, x + rest)
  {
  }

  /** The last quarter of an hour of 9999. */
  const LAST_QUARTER := Stamp(Date(9999, 12, 31), 85500)

  lemma DateText(d: Date, rest: string)
    requires d == Date(9999, 12, 31)
    ensures DateThen(d, rest) == "9999-12-31" + rest
  {
    assert TwoDigits(99) == "99" && TwoDigits(12) == "12" && TwoDigits(31) == "31";
    assert YearText(9999) == "99" + "99";
  }

  lemma ClockText(second: int)
    requires second == 85500
    ensures ClockThen(second, "") == "23:45:00"
  {
    assert TwoDigits(23) == "23" && TwoDigits(45) == "45" && TwoDigits(0) == "00";
  }

  lemma LastQuarterText(t: Stamp)
    requires t == LAST_QUARTER
    ensures FormatStamp(t) == "9999-12-31T23:45:00"
  {
    ClockText(t.second);
    DateText(t.date, "T" + ClockThen(t.second, ""));
    assert "9999-12-31" + ("T" + "23:45:00") == "9999-12-31T23:45:00";
  }

  lemma LastQuarterRead(start: string)
    requires start == "9999-12-31T23:45:00"
    ensures ParseStamp(start) == Some(LAST_QUARTER)
  {
    LastQuarterText(LAST_QUARTER);
    StampReadsBack(LAST_QUARTER);
  }

  lemma LastQuarterEnd(t: Stamp)
    requires t == LAST_QUARTER
    ensures AddSeconds(t, DEFAULT_MEETING_SECONDS).date == Date(10000, 1, 1)
  {
    assert AddDays(t.date, 1) == NextDay(t.date);
  }

  /** A meeting that starts then gets an end that cannot be read. */
  lemma LastQuarterFails(start: string)
    requires start == "9999-12-31T23:45:00"
    ensures ComputeDefaultEndTime(start, false).Some?
    ensures ParseStamp(ComputeDefaultEndTime(start, false).value).None?
  {
    LastQuarterRead(start);
    LastQuarterEnd(ParseStamp(start).value);
    DefaultEndTime(start, false);
  }

  // ---------------------------------------------------------------------------
  // Date keywords
  // ---------------------------------------------------------------------------

  /** `today` is the current date in the zone, when the zone is known. */
  function DateWindow(param: string, zoneKnown: bool, today: Date): (r: Option<Window>)
    requires Valid(today)
    ensures r.Some? ==> Valid(r.value.start) && Valid(r.value.end)
  {
    if !zoneKnown then None
    else if param == "today" then Some(DayWindow(today))
    else if param == "tomorrow" then Some(DayWindow(AddDays(today, 1)))
    else if param == "this_week" then Some(WeekWindow(today, 0))
    else if param == "next_week" then Some(WeekWindow(today, 1))
    else
      match ParseDate(param)
      case Some(d) => Some(DayWindow(d))
      case None => None
  }

  function Midnight(d: Date): string
    requires Valid(d)
  {
    FormatStamp(Stamp(d, 0))
  }

  function ExpandDateParam(param: string, zoneKnown: bool, today: Date): Option<(string, string)>
    requires Valid(today)
  {
    match DateWindow(param, zoneKnown, today)
    case Some(w) => Some((Midnight(w.start), Midnight(w.end)))
    case None => None
  }

  /** The texts of a window read back as its two midnights. */
  lemma ExpansionReadsBack(param: string, zoneKnown: bool, today: Date)
    requires Valid(today) && DateWindow(param, zoneKnown, today).Some?
    requires var w := DateWindow(param, zoneKnown, today).value; 0 <= w.start.year <= 9999 && 0 <= w.end.year <= 9999
    ensures ExpandDateParam(param, zoneKnown, today).Some?
    ensures var w := DateWindow(param, zoneKnown, today).value;
            var texts := ExpandDateParam(param, zoneKnown, today).value;
            ParseStamp(texts.0) == Some(Stamp(w.start, 0)) && ParseStamp(texts.1) == Some(Stamp(w.end, 0))
  {
    var w := DateWindow(param, zoneKnown, today).value;
    StampReadsBack(Stamp(w.start, 0));
    StampReadsBack(Stamp(w.end, 0));
  }

  /** Today's window ends where tomorrow's starts, and this week's where the next week's does. */
  lemma KeywordsAdjoin(today: Date)
    requires Valid(today)
    ensures DateWindow("today", true, today).value.end == DateWindow("tomorrow", true, today).value.start
    ensures DateWindow("this_week", true, today).value.end == DateWindow("next_week", true, today).value.start
  {
    WeeksAdjoin(today, 0);
  }

  /** "today" is today and nothing else, "tomorrow" the day after it and nothing else. */
  lemma DayKeywords(today: Date, d: Date)
    requires Valid(today) && Valid(d)
    ensures var w := DateWindow("today", true, today); w.Some? && (Covers(w.value, d) <==> d == today)
    ensures var w := DateWindow("tomorrow", true, today); w.Some? && (Covers(w.value, d) <==> d == NextDay(today))
  {
    DaysTile(today, d);
    DaysTile(NextDay(today), d);
  }

  /** "this_week" is the week of seven days from Monday on that has today in it; "next_week" is the one that has the
      same day of the next week in it. */
  lemma WeekKeywords(today: Date, week: int)
    requires Valid(today) && week == 7
    ensures var w := DateWindow("this_week", true, today);
            w.Some? && Weekday(w.value.start) == 1 && w.value.end == AddDays(w.value.start, week) && Covers(w.value, today)
    ensures var w := DateWindow("next_week", true, today);
            && w.Some? && Weekday(w.value.start) == 1 && w.value.end == AddDays(w.value.start, week)
            && Covers(w.value, AddDays(today, week))
  {
    ThisWeek(today);
    NextWeek(today, week);
  }

  /** Whatever is asked for, without a known zone there is no window. */
  lemma UnknownZone(param: string, today: Date)
    requires Valid(today)
    ensures ExpandDateParam(param, false, today).None?
  {
  }

  /** An ISO date gives its own day, and nothing but the keywords and ISO dates is accepted. */
  lemma AcceptedIff(param: string, today: Date)
    requires Valid(today)
    ensures DateWindow(param, true, today).Some? <==>
              param in {"today", "tomorrow", "this_week", "next_week"} ||
              exists d: Date :: Valid(d) && 0 <= d.year <= 9999 && param == FormatDate(d)
    ensures forall d: Date :: Valid(d) && 0 <= d.year <= 9999 && param == FormatDate(d) ==>
              DateWindow(param, true, today) == Some(DayWindow(d))
  {
    if ParseDate(param).Some? {
      ParseDateExact(param, ParseDate(param).value);
    }
    forall d: Date | Valid(d) && 0 <= d.year <= 9999 && param == FormatDate(d)
      ensures DateWindow(param, true, today) == Some(DayWindow(d))
    {
      DateReadsBack(d);
      assert DigitAt(param, 0);
    }
  }
}
