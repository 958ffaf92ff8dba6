/** The Japan-time text of an instant and its parsing, over the proleptic Gregorian calendar
    of section 21.4.1 of ECMA-262, for the years 0 to 9999 that a four-digit year can name. */
module Calendar {
  import opened Wrappers
  import opened Policy

  // ----- years, months, days -----

  datatype Date = Date(year: int, month: int, day: int)

  /** The day number (days since 1970-01-01) on which a year starts. */
  function DayFromYear(y: int): int {
    365 * (y - 1970) + (y - 1969) / 4 - (y - 1901) / 100 + (y - 1601) / 400
  }

  predicate IsLeap(y: int) { y % 4 == 0 && (y % 100 != 0 || y % 400 == 0) }

  function DaysInMonth(y: int, m: int): int {
    if m == 2 then (if IsLeap(y) then 29 else 28)
    else if m in {4, 6, 9, 11} then 30 else 31
  }

  /** Days of the year that precede a month; 13 stands for the end of the year. */
  function DaysBefore(y: int, m: int): int
    requires 1 <= m <= 13
  {
    [0, 31, 59, 90, 120, 151, 181, 212, 243, 273, 304, 334, 365][m - 1] + if m > 2 && IsLeap(y) then 1 else 0
  }

  lemma MonthLength(y: int, m: int)
    requires 1 <= m <= 12
    ensures DaysBefore(y, m + 1) == DaysBefore(y, m) + DaysInMonth(y, m)
  {
  }

  predicate IsDate(d: Date) {
    0 <= d.year <= 9999 && 1 <= d.month <= 12 && 1 <= d.day <= DaysInMonth(d.year, d.month)
  }

  /** The day number of a date; a day past the end of the month rolls over. */
  function MakeDay(d: Date): int
    requires 1 <= d.month <= 12
  {
    DayFromYear(d.year) + DaysBefore(d.year, d.month) + d.day - 1
  }

  /** Days are counted from 1 January 1970, nine hours later in Japan. */
  lemma CountsFromTheEpoch()
    ensures MakeDay(Date(1970, 1, 1)) == 0 && InstantOf(Fields(Date(1970, 1, 1), 9, 0)) == 0
  {
  }

  predicate InCalendar(day: int) { DayFromYear(0) <= day < DayFromYear(10000) }

  /** The last year that starts on or before the day, searched upwards. */
  function YearOf(day: int, from: int): (y: int)
    requires from <= 9999 && DayFromYear(from) <= day < DayFromYear(10000)
    ensures from <= y <= 9999 && DayFromYear(y) <= day < DayFromYear(y + 1)
    decreases 9999 - from
  {
    if day < DayFromYear(from + 1) then from else YearOf(day, from + 1)
  }

  function MonthOf(y: int, dayInYear: int, from: int): (m: int)
    requires 1 <= from <= 12 && DaysBefore(y, from) <= dayInYear < DaysBefore(y, 13)
    ensures from <= m <= 12 && DaysBefore(y, m) <= dayInYear < DaysBefore(y, m + 1)
    decreases 12 - from
  {
    if dayInYear < DaysBefore(y, from + 1) then from else MonthOf(y, dayInYear, from + 1)
  }

  lemma FloorStep(a: int, n: int)
    requires n in {4, 100, 400}
    ensures (a + 1) / n - a / n == if (a + 1) % n == 0 then 1 else 0
  {
    if n == 4 {} else if n == 100 {} else {}
  }

  lemma YearLength(y: int)
    ensures DayFromYear(y + 1) - DayFromYear(y) == if IsLeap(y) then 366 else 365
  {
    FloorStep(y - 1969, 4); FloorStep(y - 1901, 100); FloorStep(y - 1601, 400);
    Since1968(y); Since1900(y); Since1600(y);
    Multiple(y);
  }

  lemma Since1968(y: int) ensures (y - 1968) % 4 == y % 4 {}
  lemma Since1900(y: int) ensures (y - 1900) % 100 == y % 100 {}
  lemma Since1600(y: int) ensures (y - 1600) % 400 == y % 400 {}

  lemma Times4(k: int) ensures 4 * k % 4 == 0 {}
  lemma Times100(k: int) ensures 100 * k % 100 == 0 {}

  lemma Multiple(y: int)
    ensures y % 400 == 0 ==> y % 100 == 0
    ensures y % 100 == 0 ==> y % 4 == 0
  {
    if y % 400 == 0 { Times100(4 * (y / 400)); }
    if y % 100 == 0 { Times4(25 * (y / 100)); }
  }

  /** The date of a day number. */
  function DateOf(day: int): (d: Date)
    requires InCalendar(day)
    ensures IsDate(d) && MakeDay(d) == day
  {
    var y := YearOf(day, 0);
    YearLength(y);
    var m := MonthOf(y, day - DayFromYear(y), 1);
    MonthLength(y, m);
    Date(y, m, day - DayFromYear(y) - DaysBefore(y, m) + 1)
  }

  lemma {:induction false} YearsIncrease(y: int, z: int)
    requires y <= z
    ensures DayFromYear(y) <= DayFromYear(z)
    decreases z - y
  {
    if y < z { YearLength(y); YearsIncrease(y + 1, z); }
  }

  lemma {:induction false} MonthsIncrease(y: int, m: int, n: int)
    requires 1 <= m <= n <= 13
    ensures DaysBefore(y, m) <= DaysBefore(y, n)
    decreases n - m
  {
    if m < n { MonthsIncrease(y, m, n - 1); MonthLength(y, n - 1); }
  }

  /** Every real date lies inside its own year. */
  lemma DateInYear(d: Date)
    requires IsDate(d)
    ensures DayFromYear(d.year) <= MakeDay(d) < DayFromYear(d.year + 1)
    ensures InCalendar(MakeDay(d))
  {
    MonthsIncrease(d.year, 1, d.month); MonthsIncrease(d.year, d.month + 1, 13);
    YearLength(d.year); MonthLength(d.year, d.month);
    YearsIncrease(0, d.year); YearsIncrease(d.year + 1, 10000);
  }

  lemma SameYear(a: Date, b: Date)
    requires IsDate(a) && IsDate(b) && MakeDay(a) == MakeDay(b)
    ensures a.year <= b.year
  {
    DateInYear(a); DateInYear(b);
    if b.year < a.year { YearsIncrease(b.year + 1, a.year); }
    hide DaysInMonth, DayFromYear, MakeDay;
  }

  /** Two real dates with the same day number are the same date. */
  lemma MakeDayIsInjective(a: Date, b: Date)
    requires IsDate(a) && IsDate(b) && MakeDay(a) == MakeDay(b)
    ensures a == b
  {
    SameYear(a, b);
    SameYear(b, a);
    hide DaysInMonth, DayFromYear, DaysBefore;
    MonthLength(a.year, a.month); MonthLength(b.year, b.month);
    if a.month < b.month { MonthsIncrease(a.year, a.month + 1, b.month); }
    if b.month < a.month { MonthsIncrease(a.year, b.month + 1, a.month); }
  }

  // ----- text -----

  function Digit(n: int): char
    requires 0 <= n <= 9
  {
    ('0' as int + n) as char
  }

  predicate IsDigit(c: char) { '0' <= c <= '9' }

  function Value(c: char): int { c as int - '0' as int }

  function Two(n: int): (s: string)
    requires 0 <= n <= 99
    ensures |s| == 2 && IsDigit(s[0]) && IsDigit(s[1])
    ensures 10 * Value(s[0]) + Value(s[1]) == n
  {
    [Digit(n / 10), Digit(n % 10)]
  }

  function Four(n: int): (s: string)
    requires 0 <= n <= 9999
    ensures |s| == 4 && IsDigit(s[0]) && IsDigit(s[1]) && IsDigit(s[2]) && IsDigit(s[3])
    ensures 1000 * Value(s[0]) + 100 * Value(s[1]) + 10 * Value(s[2]) + Value(s[3]) == n
  {
    var high, low := Two(n / 100), Two(n % 100);
    [high[0], high[1], low[0], low[1]]
  }

  datatype Fields = Fields(date: Date, hour: int, minute: int)

  /** "YYYY-MM-DD HH:mm" */
  function Render(f: Fields): (text: string)
    requires IsDate(f.date) && 0 <= f.hour <= 23 && 0 <= f.minute <= 59
    ensures HasShape(text) && Read(text) == f
  {
    var y, m, d, h, n := Four(f.date.year), Two(f.date.month), Two(f.date.day), Two(f.hour), Two(f.minute);
    [y[0], y[1], y[2], y[3], '-', m[0], m[1], '-', d[0], d[1], ' ', h[0], h[1], ':', n[0], n[1]]
  }

  predicate HasShape(text: string) {
    && |text| == 16
    && text[4] == '-' && text[7] == '-' && text[10] == ' ' && text[13] == ':'
    && IsDigit(text[0]) && IsDigit(text[1]) && IsDigit(text[2]) && IsDigit(text[3])
    && IsDigit(text[5]) && IsDigit(text[6]) && IsDigit(text[8]) && IsDigit(text[9])
    && IsDigit(text[11]) && IsDigit(text[12]) && IsDigit(text[14]) && IsDigit(text[15])
  }

  function Read(text: string): Fields
    requires HasShape(text)
  {
    Fields(
      Date(1000 * Value(text[0]) + 100 * Value(text[1]) + 10 * Value(text[2]) + Value(text[3]),
           10 * Value(text[5]) + Value(text[6]),
           10 * Value(text[8]) + Value(text[9])),
      10 * Value(text[11]) + Value(text[12]),
      10 * Value(text[14]) + Value(text[15]))
  }

  /** The Japan-time text of an instant; None for the years a four-digit text cannot name. */
  function FormatJst(t: int): Option<string> {
    if InCalendar(JstDay(t)) then
      Some(Render(FieldsOf(t)))
    else None
  }

  function FieldsOf(t: int): (f: Fields)
    requires InCalendar(JstDay(t))
    ensures IsDate(f.date) && 0 <= f.hour <= 23 && 0 <= f.minute <= 59
  {
    Fields(DateOf(JstDay(t)), JstHour(t), JstMinute(t))
  }

  /** The instant at which the Japan-time minute named by the fields starts. */
  function InstantOf(f: Fields): int
    requires 1 <= f.date.month <= 12
  {
    JstAt(MakeDay(f.date), f.hour) + f.minute * MINUTE
  }

  /** The instant named by the fields in Japan time. Month, day 1-31, hour and minute are
      checked one by one; a day that its month does not have rolls over. */
  function DateParse(f: Fields): Option<int> {
    var d := f.date;
    if 1 <= d.month <= 12 && 1 <= d.day <= 31 && 0 <= f.minute <= 59 &&
       (0 <= f.hour <= 23 || (f.hour == 24 && f.minute == 0))
    then Some(InstantOf(f))
    else None
  }

  function ParseJst(text: string, now: int): Result<int> {
    if !HasShape(text) then Failure("format") else
    var parsed := DateParse(Read(text));
    if parsed.None? || FormatJst(parsed.value) != Some(text) then Failure("no such date") else
    var target := parsed.value;
    if target < now + LEAD_TIME then Failure("too soon") else
    if target > now + 90 * DAY then Failure("too far") else
    Success(target)
  }

  lemma MonthAtMost31(d: Date)
    ensures IsDate(d) ==> d.day <= 31
  {
  }

  /** Whole minutes are exactly what the text can carry. */
  lemma FormatThenParse(t: int, text: string)
    requires t % MINUTE == 0 && FormatJst(t) == Some(text)
    ensures HasShape(text) && DateParse(Read(text)) == Some(t)
  {
    var f := FieldsOf(t);
    FieldsThenParse(t);
    assert HasShape(text) && Read(text) == f by { ReadRender(f, text); }
  }

  lemma ReadRender(f: Fields, text: string)
    requires IsDate(f.date) && 0 <= f.hour <= 23 && 0 <= f.minute <= 59 && text == Render(f)
    ensures HasShape(text) && Read(text) == f
  {
  }

  lemma FieldsThenParse(t: int)
    requires InCalendar(JstDay(t)) && t % MINUTE == 0
    ensures DateParse(FieldsOf(t)) == Some(t)
  {
    hide JstDay, JstHour, JstMinute, MakeDay, DateOf, IsDate, DateParse, InCalendar;
    SplitTime(t);
    ParseValid(FieldsOf(t));
  }

  lemma ParseValid(f: Fields)
    requires IsDate(f.date) && 0 <= f.hour <= 23 && 0 <= f.minute <= 59
    ensures DateParse(f) == Some(InstantOf(f))
  {
    MonthAtMost31(f.date);
  }

  lemma ParsedIsWholeMinute(f: Fields)
    ensures DateParse(f).Some? ==> DateParse(f).value % MINUTE == 0
  {
    hide MakeDay;
    if DateParse(f).Some? {
      var minutes := 1440 * MakeDay(f.date) + 60 * (f.hour - 9) + f.minute;
      assert InstantOf(f) == MINUTE * minutes + 0;
      Remainder(minutes, 0, MINUTE);
    }
  }

  /** The parser accepts exactly the canonical texts of whole-minute instants of the four-digit
      years inside the lead-time and 90-day limits, and returns the instant the text names. */
  lemma ParseJstIsExact(text: string, now: int, t: int)
    ensures ParseJst(text, now) == Success(t) <==>
            t % 60_000 == 0 && FormatJst(t) == Some(text) && now + 10 * 60_000 <= t <= now + 90 * 86_400_000
  {
    if t % MINUTE == 0 && FormatJst(t) == Some(text) { FormatThenParse(t, text); }
    if HasShape(text) { ParsedIsWholeMinute(Read(text)); }
  }

  /** An accepted text names a real Gregorian date and a real time of day, even though the
      underlying date constructor rolls over: 31 February and 24:00 are refused. */
  lemma ParseJstNamesARealDate(text: string, now: int)
    requires ParseJst(text, now).Success?
    ensures HasShape(text) && IsDate(Read(text).date)
    ensures 0 <= Read(text).hour <= 23 && 0 <= Read(text).minute <= 59
  {
    ParseJstIsExact(text, now, ParseJst(text, now).value);
  }

  lemma RealDateIsCanonical(f: Fields, text: string)
    requires IsDate(f.date) && 0 <= f.hour <= 23 && 0 <= f.minute <= 59
    requires HasShape(text) && Read(text) == f
    ensures InstantOf(f) % MINUTE == 0 && FormatJst(InstantOf(f)) == Some(text)
  {
    ParseValid(f);
    ParsedIsWholeMinute(f);
    ParseThenFormat(f);
    SameFieldsSameText(Render(f), text);
  }

  /** Every text of a real date and time inside the limits is accepted as the instant it names. */
  lemma ParseJstAcceptsEveryRealDate(text: string, now: int)
    requires HasShape(text) && IsDate(Read(text).date)
    requires Read(text).hour <= 23 && Read(text).minute <= 59
    requires now + 10 * 60_000 <= InstantOf(Read(text)) <= now + 90 * 86_400_000
    ensures ParseJst(text, now) == Success(InstantOf(Read(text)))
  {
    RealDateIsCanonical(Read(text), text);
    ParseJstIsExact(text, now, InstantOf(Read(text)));
  }

  lemma TimeOfInstant(f: Fields)
    requires 1 <= f.date.month <= 12 && 0 <= f.hour <= 23 && 0 <= f.minute <= 59
    ensures var t := InstantOf(f); JstDay(t) == MakeDay(f.date) && JstHour(t) == f.hour && JstMinute(t) == f.minute
  {
    hide MakeDay, JstDay, JstHour, JstMinute;
    JoinTime(MakeDay(f.date), f.hour, f.minute);
  }

  /** Every real date is the date of its day. */
  lemma DateOfMakeDay(d: Date)
    requires IsDate(d)
    ensures InCalendar(MakeDay(d)) && DateOf(MakeDay(d)) == d
  {
    DateInYear(d);
    hide DaysInMonth, DaysBefore, DayFromYear, DateOf;
    MakeDayIsInjective(DateOf(MakeDay(d)), d);
  }

  lemma ParseThenFormat(f: Fields)
    requires IsDate(f.date) && 0 <= f.hour <= 23 && 0 <= f.minute <= 59
    ensures InCalendar(JstDay(InstantOf(f))) && FieldsOf(InstantOf(f)) == f
  {
    hide DaysInMonth, MakeDay, InCalendar, DateOf, InstantOf, JstDay, JstHour, JstMinute;
    DateOfMakeDay(f.date);
    TimeOfInstant(f);
  }

  lemma SamePair(a: char, b: char, c: char, d: char)
    requires IsDigit(a) && IsDigit(b) && IsDigit(c) && IsDigit(d)
    requires 10 * Value(a) + Value(b) == 10 * Value(c) + Value(d)
    ensures a == c && b == d
  {
  }

  /** The text of a date and time is unique. */
  lemma SameFieldsSameText(a: string, b: string)
    requires HasShape(a) && HasShape(b) && Read(a) == Read(b)
    ensures a == b
  {
    SameCentury(a, b);
    SamePair(a[0], a[1], b[0], b[1]);
    SamePair(a[2], a[3], b[2], b[3]);
    SamePair(a[5], a[6], b[5], b[6]);
    SamePair(a[8], a[9], b[8], b[9]);
    SamePair(a[11], a[12], b[11], b[12]);
    SamePair(a[14], a[15], b[14], b[15]);
  }

  lemma SameCentury(a: string, b: string)
    requires HasShape(a) && HasShape(b) && Read(a).date.year == Read(b).date.year
    ensures 10 * Value(a[0]) + Value(a[1]) == 10 * Value(b[0]) + Value(b[1])
    ensures 10 * Value(a[2]) + Value(a[3]) == 10 * Value(b[2]) + Value(b[3])
  {
    SplitHundred(10 * Value(a[0]) + Value(a[1]), 10 * Value(a[2]) + Value(a[3]),
                 10 * Value(b[0]) + Value(b[1]), 10 * Value(b[2]) + Value(b[3]));
  }

  lemma SplitHundred(p: int, q: int, r: int, s: int)
    requires 0 <= q < 100 && 0 <= s < 100 && 100 * p + q == 100 * r + s
    ensures p == r && q == s
  {
  }

  /** The date and hour the rest of the code cuts out of the text agree with the arithmetic:
      characters 11-12 are the Japan-time hour, and the date part with another hour names
      that hour of the same Japan-time day. */
  lemma SlicesOfTheText(t: int, hour: int)
    requires InCalendar(JstDay(t)) && 0 <= hour <= 23
    ensures var text := FormatJst(t).value;
            && text[11..13] == Two(JstHour(t))
            && DateParse(Fields(Read(text).date, hour, 0)) == Some(JstAt(JstDay(t), hour))
  {
    var f := FieldsOf(t);
    ParseValid(f.(hour := hour, minute := 0));
    assert Read(Render(f)) == f;
    assert Render(f)[11..13] == [Two(f.hour)[0], Two(f.hour)[1]];
  }
}
