/**
 * The records the bot works on: calendar dates, students, topics, reports,
 * the accumulated report data, and the screens (`BotServiceMessage`) the
 * service hands to the chat transport.
 */
module Models {
  import opened Common
  import opened PyText
  import opened CallbackData

  // ---------------------------------------------------------------------
  // Calendar dates (`datetime.date`, proleptic Gregorian, years 1..9999)

  datatype Ymd = Ymd(year: int, month: int, day: int)

  predicate IsLeapYear(y: int) {
    y % 4 == 0 && (y % 100 != 0 || y % 400 == 0)
  }

  function DaysInMonth(y: int, m: int): (n: int)
    requires 1 <= m <= 12
    ensures 28 <= n <= 31
    ensures m == 2 ==> (n == 29 <==> IsLeapYear(y))
  {
    if m == 2 then (if IsLeapYear(y) then 29 else 28)
    else if m == 4 || m == 6 || m == 9 || m == 11 then 30
    else 31
  }

  /** The dates `datetime.date` can represent. */
  predicate ValidDate(d: Ymd) {
    && 1 <= d.year <= 9999
    && 1 <= d.month <= 12
    && 1 <= d.day <= DaysInMonth(d.year, d.month)
  }

  /** A `datetime.date`: a year, month and day that exist in the calendar. */
  type Date = d: Ymd | ValidDate(d) witness Ymd(1, 1, 1)

  /** `d - timedelta(days=1)`; below 0001-01-01 Python raises OverflowError. */
  function PrevDay(d: Date): (r: Result<Date>)
    ensures r.Err? <==> d == Ymd(1, 1, 1)
    ensures r.Err? ==> r.error == OverflowError
  {
    if d.day > 1 then Ok(d.(day := d.day - 1))
    else if d.month > 1 then Ok(Ymd(d.year, d.month - 1, DaysInMonth(d.year, d.month - 1)))
    else if d.year > 1 then Ok(Ymd(d.year - 1, 12, 31))
    else Err(OverflowError)
  }

  /** `d + timedelta(days=1)`, the partner of `PrevDay`. */
  function NextDay(d: Date): (r: Result<Date>)
    ensures r.Err? <==> d == Ymd(9999, 12, 31)
  {
    if d.day < DaysInMonth(d.year, d.month) then Ok(d.(day := d.day + 1))
    else if d.month < 12 then Ok(Ymd(d.year, d.month + 1, 1))
    else if d.year < 9999 then Ok(Ymd(d.year + 1, 1, 1))
    else Err(OverflowError)
  }

  /** Yesterday and tomorrow undo each other. */
  lemma PrevNextDay(d: Date)
    ensures PrevDay(d).Ok? ==> NextDay(PrevDay(d).value) == Ok(d)
    ensures NextDay(d).Ok? ==> PrevDay(NextDay(d).value) == Ok(d)
  {
  }

  /** `n` in decimal, zero-padded to at least `width` digits (`%d`, `%m`, `%Y`). */
  function Pad(n: nat, width: nat): (s: string)
    ensures |s| >= width
    ensures forall i :: 0 <= i < |s| ==> IsDigit(s[i])
  {
    var digits := NatToString(n);
    if |digits| >= width then digits
    else seq(width - |digits|, _ => '0') + digits
  }

  /** `d.strftime('%d-%m-%Y')`. */
  function FormatDate(d: Date): (s: string)
    ensures |s| == 10 && s[2] == '-' && s[5] == '-'
    ensures forall i :: 0 <= i < |s| && i != 2 && i != 5 ==> IsDigit(s[i])
    ensures NoLineBreak(s)
  {
    var r := Pad(d.day, 2) + "-" + Pad(d.month, 2) + "-" + Pad(d.year, 4);
    NatBelowIsShort(d.day, 2);
    NatBelowIsShort(d.month, 2);
    NatBelowIsShort(d.year, 4);
    assert forall i :: 0 <= i < |r| ==> IsDigit(r[i]) || r[i] == '-';
    r
  }

  function Pow10(k: nat): (p: nat)
    ensures p >= 1
  {
    if k == 0 then 1 else 10 * Pow10(k - 1)
  }

  /** Below 10^k a number has at most k digits. */
  lemma {:induction false} NatBelowIsShort(n: nat, k: nat)
    requires k >= 1 && n < Pow10(k)
    ensures |NatToString(n)| <= k
  {
    if n >= 10 {
      NatBelowIsShort(n / 10, k - 1);
    }
  }

  lemma {:induction false} ZerosValue(z: string)
    requires forall i :: 0 <= i < |z| ==> z[i] == '0'
    ensures DigitsValue(z) == 0
  {
    if z != [] {
      ZerosValue(z[..|z| - 1]);
    }
  }

  /** Leading zeros do not change a numeral's value. */
  lemma {:induction false} LeadingZerosValue(z: string, t: string)
    requires forall i :: 0 <= i < |z| ==> z[i] == '0'
    requires forall i :: 0 <= i < |t| ==> IsDigit(t[i])
    ensures DigitsValue(z + t) == DigitsValue(t)
  {
    if t == [] {
      assert z + t == z;
      ZerosValue(z);
    } else {
      assert (z + t)[..|z + t| - 1] == z + t[..|t| - 1];
      LeadingZerosValue(z, t[..|t| - 1]);
    }
  }

  lemma PadValue(n: nat, width: nat)
    ensures DigitsValue(Pad(n, width)) == n
  {
    DigitsValueOfNat(n);
    var digits := NatToString(n);
    if |digits| < width {
      LeadingZerosValue(seq(width - |digits|, _ => '0'), digits);
    }
  }

  /** Different dates print differently: the day, month and year can be read
      back from their fixed positions. */
  lemma FormatDateInjective(a: Date, b: Date)
    requires FormatDate(a) == FormatDate(b)
    ensures a == b
  {
    ReadBack(a);
    ReadBack(b);
  }

  lemma ReadBack(d: Date)
    ensures var s := FormatDate(d);
            && DigitsValue(s[0..2]) == d.day
            && DigitsValue(s[3..5]) == d.month
            && DigitsValue(s[6..10]) == d.year
  {
    var s := FormatDate(d);
    NatBelowIsShort(d.day, 2);
    NatBelowIsShort(d.month, 2);
    NatBelowIsShort(d.year, 4);
    var dd, mm, yy := Pad(d.day, 2), Pad(d.month, 2), Pad(d.year, 4);
    assert s == dd + "-" + mm + "-" + yy;
    assert s[0..2] == dd && s[3..5] == mm && s[6..10] == yy;
    PadValue(d.day, 2);
    PadValue(d.month, 2);
    PadValue(d.year, 4);
  }

  // ---------------------------------------------------------------------
  // Store rows and the wizard's data

  /** A `Student` row; `parentId` is optional and starts absent. */
  datatype Student = Student(studentId: int, name: string, parentId: Option<int>)

  /** A `Topic` row. */
  datatype Topic = Topic(topicId: int, topic: string)

  /** The data a completed wizard run produces; only `comment` may be absent. */
  datatype ReportData = ReportData(
    lessonDate: Date,
    lessonCount: int,
    topicId: int,
    studentId: int,
    homeworkStatus: int,
    isProactive: bool,
    isPaid: bool,
    comment: Option<string>)

  /** A `Report` row: the report data plus its key and whether it was sent. */
  datatype Report = Report(
    reportId: int,
    lessonDate: Date,
    lessonCount: int,
    topicId: int,
    studentId: int,
    homeworkStatus: int,
    isProactive: bool,
    isPaid: bool,
    isSent: bool,
    comment: Option<string>)
  {
    /** The row read as `ReportData` (what `format_report_text` accepts). */
    function Data(): (d: ReportData)
      ensures FromData(reportId, d, isSent) == this
    {
      ReportData(lessonDate, lessonCount, topicId, studentId, homeworkStatus,
                 isProactive, isPaid, comment)
    }
  }

  /** The row `save_report` builds from completed data. */
  function FromData(reportId: int, d: ReportData, isSent: bool): (r: Report)
    ensures r.reportId == reportId && r.isSent == isSent
  {
    Report(reportId, d.lessonDate, d.lessonCount, d.topicId, d.studentId,
           d.homeworkStatus, d.isProactive, d.isPaid, isSent, d.comment)
  }

  lemma DataOfFromData(reportId: int, d: ReportData, isSent: bool)
    ensures FromData(reportId, d, isSent).Data() == d
  {
  }

  // ---------------------------------------------------------------------
  // Screens

  /** A `FormattedPaginationItem`: a button title and the item's key. */
  datatype PaginationItem = PaginationItem(title: string, id: int)

  /** A button pairs a title with exactly one action. */
  datatype Button = Button(title: string, action: Action)

  /** A `BotServiceMessage`: text, ordered buttons and the row width. */
  datatype Message = Message(text: string, buttons: seq<Button>, rowWidth: int)

  /** `BotServiceMessage(text)`: no buttons, rows two wide. */
  function TextMessage(text: string): (m: Message)
    ensures m.text == text && m.buttons == [] && m.rowWidth == 2
  {
    Message(text, [], 2)
  }

  /** The free-text steps a screen can leave pending; each stands for one of
      the closures the service registers, with the values it captured. */
  datatype TextStep =
    | TopicName(page: int)
    | StudentName(page: int)
    | ParentIdInput(page: int, studentId: int)
    | StudentRename(page: int, studentId: int)
    | LessonDateInput
    | CommentInput

  /** One element of a handler's answer: a screen to show, or
      (`BotServiceRegisterNextMessageHandler`) the step that reads the next text. */
  datatype Reply = Show(message: Message) | RegisterNext(step: TextStep)
}
