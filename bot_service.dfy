/**
 * `BotService`: turns each button action into the screen to show, leaves
 * free-text steps pending, and reads and writes the stores and the report
 * builder. A pending step is a `TextStep` value; the `Process…` methods are
 * the closures that consume the next text.
 */
module BotService {
  import opened Common
  import opened PyText
  import opened CallbackData
  import opened Models
  import opened Pagination
  import opened Tables
  import opened Stores
  import opened ReportWizard
  import opened Authorization

  const PAGE_SIZE: int := 10

  /** Python truthiness of an optional id: absent and 0 both count as false. */
  predicate Truthy(p: Option<int>) {
    p.Some? && p.value != 0
  }

  /** `FORMATTED_HOMEWORK_STATUS_MAP`. */
  function HomeworkStatusText(status: int): string
    requires 0 <= status <= 2
  {
    if status == 2 then "выполнено"
    else if status == 1 then "частично выполнено"
    else "не выполнено"
  }

  lemma OneLineConcat(a: string, b: string)
    requires NoLineBreak(a) && NoLineBreak(b)
    ensures NoLineBreak(a + b)
  {
    assert forall i :: 0 <= i < |a + b| ==> (a + b)[i] == if i < |a| then a[i] else b[i - |a|];
  }

  /** The fixed parts of the report template hold no line break. */
  lemma TemplateOneLine()
    ensures NoLineBreak("ФИО: ") && NoLineBreak("Занятие № ") && NoLineBreak(" от ")
    ensures NoLineBreak("Тема: ") && NoLineBreak("Д/З: ") && NoLineBreak("Активность на занятии ")
    ensures NoLineBreak("Занятие ")
    ensures NoLineBreak("выполнено") && NoLineBreak("частично выполнено") && NoLineBreak("не выполнено")
    ensures NoLineBreak("высокая") && NoLineBreak("слабая")
    ensures NoLineBreak("оплачено") && NoLineBreak("не оплачено")
  {
  }

  const MenuButton: Button := Button("В меню", GoBackToAdminPanel)

  // ---------------------------------------------------------------------
  // Student names

  /** The stored form of a typed name: trimmed, split into words, each word
      capitalised, and the words rejoined with single spaces. */
  function NormaliseName(text: string): string {
    Join(CapitalizeWords(SplitWords(Strip(text))), " ")
  }

  /** A normalised name consists of the input's words, each capitalised and
      separated by single spaces. */
  lemma NormaliseNameWords(text: string)
    ensures SplitWords(NormaliseName(text)) == CapitalizeWords(SplitWords(Strip(text)))
    ensures SplitWords(NormaliseName(text)) == CapitalizeWords(SplitWords(text))
  {
    SplitWordsOfStrip(text);
    var raw := SplitWords(Strip(text));
    SplitWordsAreWords(Strip(text));
    CapitalizedWordsAreWords(raw);
    SplitWordsOfJoin(CapitalizeWords(raw));
  }

  /** Capitalising each word keeps every word a nonempty run without spaces. */
  lemma CapitalizedWordsAreWords(raw: seq<string>)
    requires forall i :: 0 <= i < |raw| ==> raw[i] != [] && NoSpace(raw[i])
    ensures var words := CapitalizeWords(raw);
            forall i :: 0 <= i < |words| ==> words[i] != [] && NoSpace(words[i])
  {
    forall i | 0 <= i < |raw| ensures NoSpace(Capitalize(raw[i])) {
      CapitalizeFacts(raw[i]);
    }
  }

  /** Capitalised words stay as they are when capitalised again. */
  lemma CapitalizeWordsFixed(raw: seq<string>)
    ensures CapitalizeWords(CapitalizeWords(raw)) == CapitalizeWords(raw)
  {
    var words := CapitalizeWords(raw);
    var again := CapitalizeWords(words);
    forall i | 0 <= i < |words| ensures again[i] == words[i] {
      CapitalizeFacts(raw[i]);
    }
  }

  /** Normalising a normalised name changes nothing. */
  lemma NormaliseNameIdempotent(text: string)
    ensures NormaliseName(NormaliseName(text)) == NormaliseName(text)
  {
    var raw := SplitWords(Strip(text));
    var words := CapitalizeWords(raw);
    var name := Join(words, " ");
    SplitWordsAreWords(Strip(text));
    CapitalizedWordsAreWords(raw);
    JoinedWordsTrimmed(words);
    StripTrimmed(name);
    SplitWordsOfJoin(words);
    assert Strip(name) == name;
    assert SplitWords(name) == words;
    CapitalizeWordsFixed(raw);
    assert CapitalizeWords(words) == words;
  }

  // ---------------------------------------------------------------------
  // Item lists

  function StudentItems(students: seq<Student>): (items: seq<PaginationItem>)
    ensures |items| == |students|
    ensures forall i :: 0 <= i < |students| ==>
              items[i] == PaginationItem(students[i].name, students[i].studentId)
  {
    seq(|students|, i requires 0 <= i < |students| => PaginationItem(students[i].name, students[i].studentId))
  }

  function TopicItems(topics: seq<Topic>): (items: seq<PaginationItem>)
    ensures |items| == |topics|
    ensures forall i :: 0 <= i < |topics| ==> items[i] == PaginationItem(topics[i].topic, topics[i].topicId)
  {
    seq(|topics|, i requires 0 <= i < |topics| => PaginationItem(topics[i].topic, topics[i].topicId))
  }

  /** Whether the report's student is still in the table. */
  function StudentIn(students: seq<Student>): Report -> bool {
    (r: Report) => HasKey(students, StudentKey, r.studentId)
  }

  /** A report list item: titled with the lesson date and the student's name. */
  function ReportTitle(r: Report, s: Student): PaginationItem {
    PaginationItem(FormatDate(r.lessonDate) + " — " + s.name, r.reportId)
  }

  /** The report list's items: one per report whose student still exists,
      titled by `ReportTitle`; reports of a deleted student are dropped. */
  function ReportItems(reports: seq<Report>, students: seq<Student>): (items: seq<PaginationItem>)
    ensures var kept := Filter(reports, StudentIn(students));
            && |items| == |kept|
            && forall i :: 0 <= i < |items| ==>
                 items[i] == ReportTitle(kept[i], Find(students, StudentKey, kept[i].studentId).value)
  {
    if reports == [] then []
    else
      var r := reports[0];
      var head := match Find(students, StudentKey, r.studentId)
        case None => []
        case Some(s) => [ReportTitle(r, s)];
      head + ReportItems(reports[1..], students)
  }

  function ListText(t: ItemType): string {
    match t
    case S => "Выберите студента:"
    case R => "Выберите отчёт:"
    case T => "Выберите тему:"
  }

  function ListRowWidth(t: ItemType): int {
    match t
    case S => 2
    case R => 1
    case T => 1
  }

  /** The buttons a list screen shows after the page's items and the paging
      buttons: add a student or topic; for reports, back to the students
      when the list is filtered by one, send the saved reports otherwise. */
  function ListExtraButtons(data: Action): (extras: seq<Button>)
    requires data.ShowItemsList?
    ensures |extras| == 1
    ensures data.itemType == S ==> extras == [Button("Добавить студента", Action.CreateStudent(data.page))]
    ensures data.itemType == T ==> extras == [Button("Добавить тему", Action.CreateTopic(data.page))]
    ensures data.itemType == R && Truthy(data.itemFilter) ==>
              extras == [Button("К студентам", Action.ShowItemsList(S, data.itemFilter, data.page))]
    ensures data.itemType == R && !Truthy(data.itemFilter) ==>
              extras == [Button("Отправить сохранённые отчёты", Action.SendSavedReports)]
  {
    match data.itemType
    case S => [Button("Добавить студента", Action.CreateStudent(data.page))]
    case R =>
      if Truthy(data.itemFilter) then [Button("К студентам", Action.ShowItemsList(S, data.itemFilter, data.page))]
      else [Button("Отправить сохранённые отчёты", Action.SendSavedReports)]
    case T => [Button("Добавить тему", Action.CreateTopic(data.page))]
  }

  function PrevButton(data: Action): Button
    requires data.ShowItemsList?
  {
    Button("Назад", Action.ShowItemsList(data.itemType, None, data.page - 1))
  }

  function NextButton(data: Action): Button
    requires data.ShowItemsList?
  {
    Button("Вперёд", Action.ShowItemsList(data.itemType, None, data.page + 1))
  }

  /** One button per item of the page, opening that item with the list's
      type, filter and page. */
  function OpenButtons(items: seq<PaginationItem>, data: Action): (buttons: seq<Button>)
    requires data.ShowItemsList?
    ensures |buttons| == |items|
    ensures forall k :: 0 <= k < |items| ==>
              buttons[k] == Button(items[k].title, Action.ShowOneItem(data.itemType, data.itemFilter, data.page, items[k].id))
  {
    seq(|items|, k requires 0 <= k < |items| =>
      Button(items[k].title, Action.ShowOneItem(data.itemType, data.itemFilter, data.page, items[k].id)))
  }

  function ChooseButtons(items: seq<PaginationItem>, data: Action): (buttons: seq<Button>)
    requires data.ReportBuilderShowItemList?
    ensures |buttons| == |items|
    ensures forall k :: 0 <= k < |items| ==>
              buttons[k] == Button(items[k].title, ReportBuilderChooseItemList(data.entityType, items[k].id))
  {
    seq(|items|, k requires 0 <= k < |items| =>
      Button(items[k].title, ReportBuilderChooseItemList(data.entityType, items[k].id)))
  }

  // ---------------------------------------------------------------------
  // Fixed screens

  function ShowAdminPanel(): (m: Message)
    ensures |m.buttons| == 4
    ensures forall k :: 0 <= k < 3 ==> m.buttons[k].action.ShowItemsList? && m.buttons[k].action.page == 1
    ensures m.buttons[0].action == Action.ShowItemsList(S, None, 1)
    ensures m.buttons[1].action == Action.ShowItemsList(T, None, 1)
    ensures m.buttons[2].action == Action.ShowItemsList(R, None, 1)
    ensures m.buttons[3].action == ReportBuilder1
  {
    Message("Главное меню:", [
      Button("Студенты", Action.ShowItemsList(S, None, 1)),
      Button("Темы уроков", Action.ShowItemsList(T, None, 1)),
      Button("Отчёты", Action.ShowItemsList(R, None, 1)),
      Button("Составить отчёт", ReportBuilder1)], 2)
  }

  /** The first delete step: asks for confirmation and reads no store. */
  function DeleteOneItem(data: Action): (m: Message)
    requires data.DeleteOneItem?
    ensures |m.buttons| == 2
    ensures m.buttons[0] == Button("Удалить", DeleteConfirmedItem(data.entityType, data.page, data.itemId))
    ensures m.buttons[1] == Button("Назад", Action.ShowOneItem(data.entityType, None, data.page, data.itemId))
  {
    var text := if data.entityType == S then "Подтвердите удаление студента" else "Подтвердите удаление темы";
    Message(text, [
      Button("Удалить", DeleteConfirmedItem(data.entityType, data.page, data.itemId)),
      Button("Назад", Action.ShowOneItem(data.entityType, None, data.page, data.itemId))], 2)
  }

  /** Step 1: today, yesterday or a typed date. The two date buttons send
      exactly the two values `BuildReport1LessonDateFromButton` accepts. */
  function BuildReport1LessonDateSetting(): (m: Message)
    ensures |m.buttons| == 4 && m.buttons[3] == MenuButton
    ensures m.buttons[0] == Button("Сегодня", ReportBuilder1SetValueFromButton("today"))
    ensures m.buttons[1] == Button("Вчера", ReportBuilder1SetValueFromButton("yesterday"))
    ensures m.buttons[2] == Button("Ввести дату:", ReportBuilder1EnterManually)
    ensures forall k :: 0 <= k < |m.buttons| && m.buttons[k].action.ReportBuilder1SetValueFromButton? ==>
              m.buttons[k].action.lessonDay == "today" || m.buttons[k].action.lessonDay == "yesterday"
  {
    Message("Выберите дату:", [
      Button("Сегодня", ReportBuilder1SetValueFromButton("today")),
      Button("Вчера", ReportBuilder1SetValueFromButton("yesterday")),
      Button("Ввести дату:", ReportBuilder1EnterManually),
      MenuButton], 2)
  }

  /** Step 1, typed date: asks for the date and leaves the date step pending. */
  function BuildReport1Manual(): (r: seq<Reply>)
    ensures |r| == 2 && r[1] == RegisterNext(LessonDateInput)
  {
    [Show(Message("Введите дату в формате ('ДД-ММ-ГГГГ'):", [MenuButton], 2)),
     RegisterNext(LessonDateInput)]
  }

  /** Step 5 as written: the button titled 'Выполнено' sends 0 and the one
      titled 'Не выполнено' sends 2. */
  function BuildReport5HomeworkStatusSetting(): (m: Message)
    ensures |m.buttons| == 4 && m.buttons[3] == MenuButton
    ensures forall k :: 0 <= k < 3 ==> m.buttons[k].action == ReportBuilder5SetHomeworkStatus(k)
  {
    Message("Домашнее задание", [
      Button("Выполнено", ReportBuilder5SetHomeworkStatus(0)),
      Button("Выполнено частично", ReportBuilder5SetHomeworkStatus(1)),
      Button("Не выполнено", ReportBuilder5SetHomeworkStatus(2)),
      MenuButton], 2)
  }

  /** Step 5 with the values the report text gives them: 'Выполнено' sends 2,
      'Не выполнено' sends 0. */
  function BuildReport5HomeworkStatusSettingCorrected(): (m: Message)
    ensures |m.buttons| == 4 && m.buttons[3] == MenuButton
    ensures forall k :: 0 <= k < 3 ==> m.buttons[k].action == ReportBuilder5SetHomeworkStatus(2 - k)
  {
    Message("Домашнее задание", [
      Button("Выполнено", ReportBuilder5SetHomeworkStatus(2)),
      Button("Выполнено частично", ReportBuilder5SetHomeworkStatus(1)),
      Button("Не выполнено", ReportBuilder5SetHomeworkStatus(0)),
      MenuButton], 2)
  }

  /** The status a homework button sends, rendered as the report text renders it. */
  function RenderedStatus(b: Button): string
    requires b.action.ReportBuilder5SetHomeworkStatus? && 0 <= b.action.homeworkStatus <= 2
  {
    HomeworkStatusText(b.action.homeworkStatus)
  }

  /** A button title names a rendered text when the text is the title with
      its first letter lower-cased. */
  predicate TitleNames(title: string, text: string) {
    title != [] && text == [Lower(title[0])] + title[1..]
  }

  /** As written, neither the done nor the not-done button's title names the
      status it sends: the done button's status reads 'не выполнено' in the
      report and the not-done button's reads 'выполнено'. */
  lemma HomeworkButtonsInverted()
    ensures var m := BuildReport5HomeworkStatusSetting();
            && m.buttons[0].title == "Выполнено" && RenderedStatus(m.buttons[0]) == "не выполнено"
            && m.buttons[2].title == "Не выполнено" && RenderedStatus(m.buttons[2]) == "выполнено"
            && !TitleNames(m.buttons[0].title, RenderedStatus(m.buttons[0]))
            && !TitleNames(m.buttons[2].title, RenderedStatus(m.buttons[2]))
  {
    var m := BuildReport5HomeworkStatusSetting();
    assert |RenderedStatus(m.buttons[0])| != |m.buttons[0].title|;
    assert |RenderedStatus(m.buttons[2])| != |m.buttons[2].title|;
  }

  /** With the corrected values the done and not-done buttons' titles name the
      statuses they send, and the partial button sends the partial status. */
  lemma HomeworkButtonsMatchText()
    ensures var m := BuildReport5HomeworkStatusSettingCorrected();
            && TitleNames(m.buttons[0].title, RenderedStatus(m.buttons[0]))
            && RenderedStatus(m.buttons[1]) == "частично выполнено"
            && TitleNames(m.buttons[2].title, RenderedStatus(m.buttons[2]))
  {
    var m := BuildReport5HomeworkStatusSettingCorrected();
    assert Lower('В') == 'в' && Lower('Н') == 'н';
    assert "выполнено" == ['в'] + m.buttons[0].title[1..];
    assert "не выполнено" == ['н'] + m.buttons[2].title[1..];
  }

  function BuildReport6IsProactiveSetting(): (m: Message)
    ensures |m.buttons| == 3 && m.buttons[2] == MenuButton
    ensures m.buttons[0] == Button("Сильная", ReportBuilder6SetIsProactive(1))
    ensures m.buttons[1] == Button("Слабая", ReportBuilder6SetIsProactive(0))
  {
    Message("Активность на занятии", [
      Button("Сильная", ReportBuilder6SetIsProactive(1)),
      Button("Слабая", ReportBuilder6SetIsProactive(0)),
      MenuButton], 2)
  }

  function BuildReport7PaymentStatusSetting(): (m: Message)
    ensures |m.buttons| == 3 && m.buttons[2] == MenuButton
    ensures m.buttons[0] == Button("Оплачено", ReportBuilder7SetIsPaid(1))
    ensures m.buttons[1] == Button("Не оплачено", ReportBuilder7SetIsPaid(0))
  {
    Message("Занятие", [
      Button("Оплачено", ReportBuilder7SetIsPaid(1)),
      Button("Не оплачено", ReportBuilder7SetIsPaid(0)),
      MenuButton], 2)
  }

  /** Step 8: add a comment, or skip straight to the preview. */
  function BuildReport8AskComment(): (m: Message)
    ensures |m.buttons| == 3 && m.buttons[2] == MenuButton
    ensures m.buttons[0] == Button("Добавить", ReportBuilder8AddCommentQuestion)
    ensures m.buttons[1] == Button("Пропустить", ReportBuilderShowReportPreview)
  {
    Message("Добавить комментарий?", [
      Button("Добавить", ReportBuilder8AddCommentQuestion),
      Button("Пропустить", ReportBuilderShowReportPreview),
      MenuButton], 2)
  }

  function BuildReport8GetComment(): (r: seq<Reply>)
    ensures |r| == 2 && r[1] == RegisterNext(CommentInput)
  {
    [Show(TextMessage("Введите комментарий:")), RegisterNext(CommentInput)]
  }

  function GetErrorMessageTempReportMustBeFilled(): (m: Message)
    ensures m.buttons == []
  {
    TextMessage("Отчёт не полный. Создайте с самого начала.")
  }

  // ---------------------------------------------------------------------
  // Free-text prompts

  function CreateTopic(data: Action): (r: seq<Reply>)
    requires data.CreateTopic?
    ensures |r| == 2 && r[1] == RegisterNext(TopicName(data.page))
  {
    [Show(TextMessage("Введите название темы:")), RegisterNext(TopicName(data.page))]
  }

  function CreateStudent(data: Action): (r: seq<Reply>)
    requires data.CreateStudent?
    ensures |r| == 2 && r[1] == RegisterNext(StudentName(data.page))
  {
    [Show(TextMessage("Введите ФИО студента:")), RegisterNext(StudentName(data.page))]
  }

  /** Asks for the parent id; the pending step keeps the list page and the
      student id given alongside the action. */
  function AddParentIdToStudent(data: Action, studentId: int): (r: seq<Reply>)
    requires data.AddParentIdToStudent?
    ensures |r| == 2 && r[1] == RegisterNext(ParentIdInput(data.page, studentId))
    ensures r[0].Show? && r[0].message.buttons == [Button("Назад", Action.ShowOneItem(S, None, data.page, data.studentId))]
  {
    [Show(Message("Введите id родителя:", [Button("Назад", Action.ShowOneItem(S, None, data.page, data.studentId))], 2)),
     RegisterNext(ParentIdInput(data.page, studentId))]
  }

  function UpdateStudentName(data: Action): (r: seq<Reply>)
    requires data.UpdateStudentName?
    ensures |r| == 2 && r[1] == RegisterNext(StudentRename(data.page, data.studentId))
    ensures r[0].Show? && r[0].message.buttons == [Button("Назад", Action.ShowOneItem(S, None, data.page, data.studentId))]
  {
    [Show(Message("Введите имя и фамилию:", [Button("Назад", Action.ShowOneItem(S, None, data.page, data.studentId))], 2)),
     RegisterNext(StudentRename(data.page, data.studentId))]
  }

  // ---------------------------------------------------------------------
  // The service

  class BotService {
    const authorizationService: AuthorizationService
    const topicStorage: TopicStorage
    const studentStorage: StudentStorage
    const reportBuilder: ReportBuilder
    const reportStorage: ReportStorage

    ghost predicate Valid()
      reads topicStorage, studentStorage, reportStorage
    {
      topicStorage.Valid() && studentStorage.Valid() && reportStorage.Valid()
    }

    constructor (authorizationService: AuthorizationService, topicStorage: TopicStorage,
                 studentStorage: StudentStorage, reportBuilder: ReportBuilder,
                 reportStorage: ReportStorage)
      ensures this.authorizationService == authorizationService
      ensures this.topicStorage == topicStorage && this.studentStorage == studentStorage
      ensures this.reportBuilder == reportBuilder && this.reportStorage == reportStorage
    {
      this.authorizationService := authorizationService;
      this.topicStorage := topicStorage;
      this.studentStorage := studentStorage;
      this.reportBuilder := reportBuilder;
      this.reportStorage := reportStorage;
    }

    /** A teacher gets the admin panel; anyone else gets their user id to
        forward and an explanation. */
    function Welcome(userId: int): (r: seq<Message>)
      ensures r == [ShowAdminPanel()] <==> authorizationService.HasTeacherAccess(userId)
      ensures !authorizationService.HasTeacherAccess(userId) ==> |r| == 2 && r[0].buttons == [] && r[1].buttons == []
      ensures !authorizationService.HasTeacherAccess(userId) ==>
                r[0].text == "Здравствуйте! Перешлите это сообщение Елене Петровне:\n`" + IntToString(userId) + "`"
    {
      if authorizationService.HasTeacherAccess(userId) then [ShowAdminPanel()]
      else [
        Message("Здравствуйте! Перешлите это сообщение Елене Петровне:\n`" + IntToString(userId) + "`", [], 2),
        Message("После этого бот будет присылать вам отчёты"
                + " о проведённых занятиях. Если возникли вопросы,"
                + " обратитесь к Елене Петровне. Спасибо!", [], 2)]
    }

    // -------------------------------------------------------------------
    // Report text

    /** What `format_report_text` needs: the topic and the student exist and
        the homework status is a key of the status map. */
    predicate Renderable(d: ReportData)
      reads topicStorage, studentStorage
    {
      && topicStorage.GetTopicById(d.topicId).Some?
      && studentStorage.GetStudentById(d.studentId).Some?
      && 0 <= d.homeworkStatus <= 2
    }

    /** The six lines of the report template. */
    function ReportLines(d: ReportData): (lines: seq<string>)
      reads topicStorage, studentStorage
      requires Renderable(d)
      ensures |lines| == 6
    {
      var topic := topicStorage.GetTopicById(d.topicId).value;
      var student := studentStorage.GetStudentById(d.studentId).value;
      [ "ФИО: " + student.name,
        "Занятие № " + IntToString(d.lessonCount) + " от " + FormatDate(d.lessonDate),
        "Тема: " + topic.topic,
        "Д/З: " + HomeworkStatusText(d.homeworkStatus),
        "Активность на занятии " + (if d.isProactive then "высокая" else "слабая"),
        "Занятие " + (if d.isPaid then "оплачено" else "не оплачено") ]
    }

    /** The report text: the six template lines joined by line breaks, and
        when there is a comment, a heading line and the comment after them. */
    function FormatReportText(d: ReportData): (text: string)
      reads topicStorage, studentStorage
      requires Renderable(d)
      ensures d.comment.None? ==> text == Join(ReportLines(d), "\n")
      ensures d.comment.Some? ==> text == Join(ReportLines(d) + ["Комментарий:", d.comment.value], "\n")
    {
      var lines := ReportLines(d);
      var text := Join(lines, "\n");
      if d.comment.None? then text
      else
        JoinComment(lines, d.comment.value);
        text + "\n" + "Комментарий:" + "\n" + d.comment.value
    }

    /** Appending the comment heading and the comment as two more lines. */
    static lemma JoinComment(lines: seq<string>, c: string)
      requires |lines| > 0
      ensures Join(lines + ["Комментарий:", c], "\n") == Join(lines, "\n") + "\n" + "Комментарий:" + "\n" + c
    {
      JoinAppend(lines, "Комментарий:", "\n");
      assert lines + ["Комментарий:", c] == (lines + ["Комментарий:"]) + [c];
      JoinAppend(lines + ["Комментарий:"], c, "\n");
    }

    /** Read back line by line, the text gives the six fields, then the
        comment heading and the comment when there is one. */
    lemma ReportTextLines(d: ReportData)
      requires Renderable(d)
      requires NoLineBreak(studentStorage.GetStudentById(d.studentId).value.name)
      requires NoLineBreak(topicStorage.GetTopicById(d.topicId).value.topic)
      requires d.comment.Some? ==> d.comment.value != [] && NoLineBreak(d.comment.value)
      ensures d.comment.None? ==> SplitLines(FormatReportText(d)) == ReportLines(d)
      ensures d.comment.Some? ==>
                SplitLines(FormatReportText(d)) == ReportLines(d) + ["Комментарий:", d.comment.value]
    {
      var lines := ReportLines(d);
      ReportLinesOneLine(d);
      if d.comment.None? {
        SplitLinesOfJoin(lines);
      } else {
        var all := lines + ["Комментарий:", d.comment.value];
        assert forall i :: 0 <= i < |all| ==> NoLineBreak(all[i]);
        SplitLinesOfJoin(all);
      }
    }

    /** Each template line is one line when the name and the topic are. */
    lemma ReportLinesOneLine(d: ReportData)
      requires Renderable(d)
      requires NoLineBreak(studentStorage.GetStudentById(d.studentId).value.name)
      requires NoLineBreak(topicStorage.GetTopicById(d.topicId).value.topic)
      ensures forall i :: 0 <= i < 6 ==> NoLineBreak(ReportLines(d)[i])
      ensures ReportLines(d)[5] != []
    {
      var lines := ReportLines(d);
      var topic := topicStorage.GetTopicById(d.topicId).value;
      var student := studentStorage.GetStudentById(d.studentId).value;
      var count := IntToString(d.lessonCount);
      var date := FormatDate(d.lessonDate);
      var status := HomeworkStatusText(d.homeworkStatus);
      var activity := if d.isProactive then "высокая" else "слабая";
      var paid := if d.isPaid then "оплачено" else "не оплачено";
      IntToStringIsOneLine(d.lessonCount);
      TemplateOneLine();
      assert NoLineBreak(status) && NoLineBreak(activity) && NoLineBreak(paid);
      OneLineConcat("ФИО: ", student.name);
      OneLineConcat("Занятие № ", count);
      OneLineConcat("Занятие № " + count, " от ");
      OneLineConcat("Занятие № " + count + " от ", date);
      OneLineConcat("Тема: ", topic.topic);
      OneLineConcat("Д/З: ", status);
      OneLineConcat("Активность на занятии ", activity);
      OneLineConcat("Занятие ", paid);
      assert lines == ["ФИО: " + student.name, "Занятие № " + count + " от " + date, "Тема: " + topic.topic,
                       "Д/З: " + status, "Активность на занятии " + activity, "Занятие " + paid];
    }

    // -------------------------------------------------------------------
    // Item screens

    /** What showing a report needs: a report whose student exists can be rendered. */
    predicate ReportShowable(reportId: int)
      reads topicStorage, studentStorage, reportStorage
    {
      match reportStorage.GetReportById(reportId)
      case None => true
      case Some(r) => studentStorage.GetStudentById(r.studentId).Some? ==> Renderable(r.Data())
    }

    function StudentText(s: Student): string {
      "ФИО: " + s.name + "\nРодитель id: "
      + (if Truthy(s.parentId) then IntToString(s.parentId.value) else "отсутсвует")
    }

    /** One item's screen. A missing student, report, report's student or
        topic gives a not-found text; the last button goes back to the list. */
    function ShowOneItem(data: Action): (m: Message)
      reads topicStorage, studentStorage, reportStorage
      requires data.ShowOneItem?
      requires data.itemType == R ==> ReportShowable(data.itemId)
      ensures |m.buttons| > 0 && m.rowWidth == 2
      ensures m.buttons[|m.buttons| - 1] == Button("Назад", Action.ShowItemsList(data.itemType, data.itemFilter, data.page))
      ensures data.itemType == S ==>
                m.buttons == [Button("Отчёты", Action.ShowItemsList(R, Some(data.itemId), data.page)),
                              Button("Удалить", Action.DeleteOneItem(S, data.page, data.itemId)),
                              Button("Изменить ФИО", Action.UpdateStudentName(data.itemId, data.page)),
                              Button("Изменить id родителя", Action.AddParentIdToStudent(data.itemId, data.page)),
                              Button("Назад", Action.ShowItemsList(S, data.itemFilter, data.page))]
      ensures data.itemType == T ==>
                m.buttons == [Button("Удалить", Action.DeleteOneItem(T, data.page, data.itemId)),
                              Button("Назад", Action.ShowItemsList(T, data.itemFilter, data.page))]
      ensures data.itemType == S ==>
                && m.text == (match studentStorage.GetStudentById(data.itemId)
                              case None => "Студент не найден"
                              case Some(s) => StudentText(s))
                && Button("Удалить", Action.DeleteOneItem(S, data.page, data.itemId)) in m.buttons
      ensures data.itemType == R ==>
                && |m.buttons| == 1
                && m.text == (match reportStorage.GetReportById(data.itemId)
                              case None => "Отчёт не найден."
                              case Some(r) =>
                                if studentStorage.GetStudentById(r.studentId).None? then "Студент не найден"
                                else FormatReportText(r.Data()))
      ensures data.itemType == T ==>
                && m.text == (match topicStorage.GetTopicById(data.itemId)
                              case None => "Тема не найдена."
                              case Some(t) => t.topic)
                && Button("Удалить", Action.DeleteOneItem(T, data.page, data.itemId)) in m.buttons
    {
      var back := Button("Назад", Action.ShowItemsList(data.itemType, data.itemFilter, data.page));
      match data.itemType
      case S =>
        var text := match studentStorage.GetStudentById(data.itemId)
          case None => "Студент не найден"
          case Some(s) => StudentText(s);
        Message(text, [
          Button("Отчёты", Action.ShowItemsList(R, Some(data.itemId), data.page)),
          Button("Удалить", Action.DeleteOneItem(S, data.page, data.itemId)),
          Button("Изменить ФИО", Action.UpdateStudentName(data.itemId, data.page)),
          Button("Изменить id родителя", Action.AddParentIdToStudent(data.itemId, data.page)),
          back], 2)
      case R =>
        var text := match reportStorage.GetReportById(data.itemId)
          case None => "Отчёт не найден."
          case Some(r) =>
            if studentStorage.GetStudentById(r.studentId).None? then "Студент не найден"
            else FormatReportText(r.Data());
        Message(text, [back], 2)
      case T =>
        var text := match topicStorage.GetTopicById(data.itemId)
          case None => "Тема не найдена."
          case Some(t) => t.topic;
        Message(text, [Button("Удалить", Action.DeleteOneItem(T, data.page, data.itemId)), back], 2)
    }

    /** The reports a report list starts from: one student's when the filter
        is set (truthy), all otherwise. */
    function ReportsToList(data: Action): seq<Report>
      reads reportStorage
      requires data.ShowItemsList?
    {
      if Truthy(data.itemFilter) then reportStorage.ListReportsByStudentId(data.itemFilter.value)
      else reportStorage.ListReports()
    }

    function ListItems(data: Action): seq<PaginationItem>
      reads topicStorage, studentStorage, reportStorage
      requires data.ShowItemsList?
    {
      match data.itemType
      case S => StudentItems(studentStorage.ListStudents())
      case R => ReportItems(ReportsToList(data), studentStorage.rows)
      case T => TopicItems(topicStorage.ListTopics())
    }

    /** A list screen: the page's items, a previous-page button iff the page
        is not the first, a next-page button iff it is not the last (both
        drop the filter), the extra button, and "В меню" last. */
    method ShowItemsList(data: Action) returns (m: Message)
      requires data.ShowItemsList?
      ensures var pr := Paginate(ListItems(data), data.page, PAGE_SIZE);
              && m.text == ListText(data.itemType)
              && m.rowWidth == ListRowWidth(data.itemType)
              && |m.buttons| == |pr.items| + (if pr.isFirstPage then 0 else 1)
                                + (if pr.isLastPage then 0 else 1) + 2
              && m.buttons[..|pr.items|] == OpenButtons(pr.items, data)
              && (PrevButton(data) in m.buttons <==> !pr.isFirstPage)
              && (NextButton(data) in m.buttons <==> !pr.isLastPage)
              && m.buttons[|m.buttons| - 2..|m.buttons| - 1] == ListExtraButtons(data)
              && m.buttons[|m.buttons| - 1] == MenuButton
    {
      var items := ListItems(data);
      var pr := Paginate(items, data.page, PAGE_SIZE);
      var open := OpenButtons(pr.items, data);
      var buttons := open;
      var nav: seq<Button> := [];
      if !(pr.isFirstPage && pr.isLastPage) {
        if !pr.isFirstPage {
          nav := nav + [PrevButton(data)];
        }
        if !pr.isLastPage {
          nav := nav + [NextButton(data)];
        }
      }
      buttons := buttons + nav;
      buttons := buttons + ListExtraButtons(data);
      buttons := buttons + [MenuButton];
      m := Message(ListText(data.itemType), buttons, ListRowWidth(data.itemType));
      assert m.buttons == open + nav + ListExtraButtons(data) + [MenuButton];
      ListLayout(open, nav, data, pr.isFirstPage, pr.isLastPage, pr.items);
    }

    /** The paging buttons are told apart from every other button of a list
        screen by their action. */
    static lemma ListLayout(open: seq<Button>, nav: seq<Button>, data: Action,
                            first: bool, last: bool, items: seq<PaginationItem>)
      requires data.ShowItemsList?
      requires open == OpenButtons(items, data)
      requires nav == (if first then [] else [PrevButton(data)]) + (if last then [] else [NextButton(data)])
      ensures var all := open + nav + ListExtraButtons(data) + [MenuButton];
              && (PrevButton(data) in all <==> !first)
              && (NextButton(data) in all <==> !last)
    {
      var extras := ListExtraButtons(data);
      var all := open + nav + extras + [MenuButton];
      assert PrevButton(data) !in open && NextButton(data) !in open by {
        forall k | 0 <= k < |open| ensures open[k].action.ShowOneItem? {}
      }
      assert PrevButton(data) !in extras && NextButton(data) !in extras;
      assert PrevButton(data) != NextButton(data);
      assert PrevButton(data) in all <==> PrevButton(data) in nav;
      assert NextButton(data) in all <==> NextButton(data) in nav;
    }

    // -------------------------------------------------------------------
    // Delete, second step

    /** Deletes the student or topic and says whether there was one. */
    method DeleteConfirmedOneItem(data: Action) returns (m: Message)
      requires data.DeleteConfirmedItem? && Valid()
      modifies studentStorage, topicStorage
      ensures Valid()
      ensures m.buttons == [Button("Назад", Action.ShowItemsList(data.entityType, None, data.page))]
      ensures data.entityType == S ==>
                && studentStorage.rows == RemoveKey(old(studentStorage.rows), StudentKey, data.itemId)
                && unchanged(topicStorage)
                && m.text == (if old(studentStorage.GetStudentById(data.itemId)).Some?
                              then "Студент удалён" else "Студент не найден")
      ensures data.entityType == T ==>
                && topicStorage.rows == RemoveKey(old(topicStorage.rows), TopicKey, data.itemId)
                && unchanged(studentStorage)
                && m.text == (if old(topicStorage.GetTopicById(data.itemId)).Some?
                              then "Тема удалена" else "Тема не найдена")
    {
      var text: string;
      if data.entityType == S {
        var deleted := studentStorage.DeleteStudent(data.itemId);
        text := if deleted then "Студент удалён" else "Студент не найден";
      } else {
        var deleted := topicStorage.DeleteTopic(data.itemId);
        text := if deleted then "Тема удалена" else "Тема не найдена";
      }
      m := Message(text, [Button("Назад", Action.ShowItemsList(data.entityType, None, data.page))], 2);
    }

    // -------------------------------------------------------------------
    // Pending text steps

    /** Stores the topic as typed and shows it. */
    method ProcessTopicName(page: int, text: string) returns (r: seq<Reply>)
      requires Valid()
      modifies topicStorage
      ensures Valid()
      ensures topicStorage.rows == old(topicStorage.rows) + [Topic(old(topicStorage.nextId), text)]
      ensures r == [Show(ShowOneItem(Action.ShowOneItem(T, None, page, old(topicStorage.nextId))))]
      ensures r[0].message.text == text
    {
      var topicId := topicStorage.AddTopic(text);
      r := [Show(ShowOneItem(Action.ShowOneItem(T, None, page, topicId)))];
    }

    /** Stores the typed name normalised and shows the new student. */
    method ProcessStudentName(page: int, text: string) returns (r: seq<Reply>)
      requires Valid()
      modifies studentStorage
      ensures Valid()
      ensures var id := old(studentStorage.nextId);
              && studentStorage.rows == old(studentStorage.rows) + [Student(id, NormaliseName(text), None)]
              && r == [Show(ShowOneItem(Action.ShowOneItem(S, None, page, id)))]
              && r[0].message.text == "ФИО: " + NormaliseName(text) + "\nРодитель id: отсутсвует"
    {
      var name := NormaliseName(text);
      var studentId := studentStorage.AddStudent(name);
      r := [Show(ShowOneItem(Action.ShowOneItem(S, None, page, studentId)))];
    }

    /** Reads the parent id with `int()`. Text that is not an integer asks
        again with the same pending step and changes nothing. */
    method ProcessParentIdInput(page: int, studentId: int, text: string) returns (r: seq<Reply>)
      requires Valid()
      modifies studentStorage
      ensures Valid()
      ensures ParseInt(text).Err? ==>
                && r == [Show(TextMessage("Введите id родителя:")), RegisterNext(ParentIdInput(page, studentId))]
                && studentStorage.rows == old(studentStorage.rows)
      ensures ParseInt(text).Ok? ==>
                && |studentStorage.rows| == |old(studentStorage.rows)|
                && (forall i :: 0 <= i < |studentStorage.rows| ==>
                      studentStorage.rows[i] ==
                        if old(studentStorage.rows[i]).studentId == studentId
                        then old(studentStorage.rows[i]).(parentId := Some(ParseInt(text).value))
                        else old(studentStorage.rows[i]))
                && r == [Show(ShowOneItem(Action.ShowOneItem(S, None, page, studentId)))]
    {
      match ParseInt(text)
      case Err(_) =>
        r := [Show(TextMessage("Введите id родителя:")), RegisterNext(ParentIdInput(page, studentId))];
      case Ok(parentId) =>
        studentStorage.AddParentIdToStudent(studentId, parentId);
        r := [Show(ShowOneItem(Action.ShowOneItem(S, None, page, studentId)))];
    }

    /** Stores the new name exactly as typed. */
    method ProcessStudentRename(page: int, studentId: int, text: string) returns (r: seq<Reply>)
      requires Valid()
      modifies studentStorage
      ensures Valid()
      ensures |studentStorage.rows| == |old(studentStorage.rows)|
      ensures forall i :: 0 <= i < |studentStorage.rows| ==>
                studentStorage.rows[i] ==
                  if old(studentStorage.rows[i]).studentId == studentId
                  then old(studentStorage.rows[i]).(name := text) else old(studentStorage.rows[i])
      ensures r == [Show(ShowOneItem(Action.ShowOneItem(S, None, page, studentId)))]
    {
      studentStorage.UpdateStudentName(studentId, text);
      r := [Show(ShowOneItem(Action.ShowOneItem(S, None, page, studentId)))];
    }

    // -------------------------------------------------------------------
    // Report wizard

    /** A wizard choice list: the page's items, a previous-page button iff
        the page is not the first, a next-page button iff it is not the
        last, and "В меню" last. */
    method ChoiceList(items: seq<PaginationItem>, data: Action, text: string) returns (m: Message)
      requires data.ReportBuilderShowItemList?
      ensures var pr := Paginate(items, data.page, PAGE_SIZE);
              var prev := Button("Назад", ReportBuilderShowItemList(data.entityType, data.page - 1));
              var next := Button("Вперёд", ReportBuilderShowItemList(data.entityType, data.page + 1));
              && m.text == text && m.rowWidth == 2
              && |m.buttons| == |pr.items| + (if pr.isFirstPage then 0 else 1)
                                + (if pr.isLastPage then 0 else 1) + 1
              && m.buttons[..|pr.items|] == ChooseButtons(pr.items, data)
              && (prev in m.buttons <==> !pr.isFirstPage)
              && (next in m.buttons <==> !pr.isLastPage)
              && m.buttons[|m.buttons| - 1] == MenuButton
    {
      var pr := Paginate(items, data.page, PAGE_SIZE);
      var prev := Button("Назад", ReportBuilderShowItemList(data.entityType, data.page - 1));
      var next := Button("Вперёд", ReportBuilderShowItemList(data.entityType, data.page + 1));
      var choose := ChooseButtons(pr.items, data);
      var nav: seq<Button> := [];
      if !pr.isFirstPage {
        nav := nav + [prev];
      }
      if !pr.isLastPage {
        nav := nav + [next];
      }
      var buttons := choose + nav;
      buttons := buttons + [MenuButton];
      m := Message(text, buttons, 2);
      assert prev !in choose && next !in choose by {
        forall k | 0 <= k < |choose| ensures choose[k].action.ReportBuilderChooseItemList? {}
      }
      assert prev != next;
      assert m.buttons == choose + nav + [MenuButton];
    }

    /** Step 2: the topics to choose from. */
    method BuildReport2TopicSetting(data: Action) returns (m: Message)
      requires data.ReportBuilderShowItemList?
      ensures m.text == "Выберите тему:"
      ensures var pr := Paginate(TopicItems(topicStorage.rows), data.page, PAGE_SIZE);
              var prev := Button("Назад", ReportBuilderShowItemList(data.entityType, data.page - 1));
              var next := Button("Вперёд", ReportBuilderShowItemList(data.entityType, data.page + 1));
              && m.rowWidth == 2
              && |m.buttons| == |pr.items| + (if pr.isFirstPage then 0 else 1)
                                + (if pr.isLastPage then 0 else 1) + 1
              && m.buttons[..|pr.items|] == ChooseButtons(pr.items, data)
              && (prev in m.buttons <==> !pr.isFirstPage)
              && (next in m.buttons <==> !pr.isLastPage)
              && m.buttons[|m.buttons| - 1] == MenuButton
    {
      m := ChoiceList(TopicItems(topicStorage.ListTopics()), data, "Выберите тему:");
    }

    /** Step 3: the students to choose from. */
    method BuildReport3StudentSetting(data: Action) returns (m: Message)
      requires data.ReportBuilderShowItemList?
      ensures m.text == "Выберите студента:"
      ensures var pr := Paginate(StudentItems(studentStorage.rows), data.page, PAGE_SIZE);
              var prev := Button("Назад", ReportBuilderShowItemList(data.entityType, data.page - 1));
              var next := Button("Вперёд", ReportBuilderShowItemList(data.entityType, data.page + 1));
              && m.rowWidth == 2
              && |m.buttons| == |pr.items| + (if pr.isFirstPage then 0 else 1)
                                + (if pr.isLastPage then 0 else 1) + 1
              && m.buttons[..|pr.items|] == ChooseButtons(pr.items, data)
              && (prev in m.buttons <==> !pr.isFirstPage)
              && (next in m.buttons <==> !pr.isLastPage)
              && m.buttons[|m.buttons| - 1] == MenuButton
    {
      m := ChoiceList(StudentItems(studentStorage.ListStudents()), data, "Выберите студента:");
    }

    /** Step 1 from a button: today's or yesterday's date (the clock is the
        `today` parameter), then the topic list. Any other value leaves the
        date unbound and raises; yesterday of 0001-01-01 overflows. */
    method BuildReport1LessonDateFromButton(lessonDay: string, today: Date) returns (r: Result<seq<Reply>>)
      modifies reportBuilder
      ensures lessonDay == "today" ==>
                r.Ok? && reportBuilder.tempReport == old(reportBuilder.tempReport).(lessonDate := Some(today))
      ensures lessonDay == "yesterday" && PrevDay(today).Ok? ==>
                r.Ok? && reportBuilder.tempReport == old(reportBuilder.tempReport).(lessonDate := Some(PrevDay(today).value))
      ensures lessonDay == "yesterday" && PrevDay(today).Err? ==>
                r == Err(OverflowError) && reportBuilder.tempReport == old(reportBuilder.tempReport)
      ensures lessonDay != "today" && lessonDay != "yesterday" ==>
                r == Err(UnboundLocalError) && reportBuilder.tempReport == old(reportBuilder.tempReport)
      ensures r.Ok? ==> |r.value| == 1 && r.value[0].Show? && r.value[0].message.text == "Выберите тему:"
    {
      var lessonDate: Date;
      if lessonDay == "today" {
        lessonDate := today;
      } else if lessonDay == "yesterday" {
        var y := PrevDay(today);
        if y.Err? {
          return Err(y.error);
        }
        lessonDate := y.value;
      } else {
        return Err(UnboundLocalError);
      }
      reportBuilder.SetLessonDate1(lessonDate);
      var m := BuildReport2TopicSetting(ReportBuilderShowItemList(T, 1));
      r := Ok([Show(m)]);
    }

    /** The typed date, read by `strptime` (the `parse` parameter). A date that
        does not parse asks again with the same pending step and leaves the
        builder as it was. */
    method ProcessLessonDate(text: string, parse: string -> Option<Date>) returns (r: seq<Reply>)
      modifies reportBuilder
      ensures parse(text).None? ==>
                && r == [Show(Message("Введите дату в корректном формате ('ДД-ММ-ГГГГ'):", [MenuButton], 2)),
                         RegisterNext(LessonDateInput)]
                && reportBuilder.tempReport == old(reportBuilder.tempReport)
      ensures parse(text).Some? ==>
                && reportBuilder.tempReport == old(reportBuilder.tempReport).(lessonDate := parse(text))
                && |r| == 1 && r[0].Show? && r[0].message.text == "Выберите тему:"
    {
      match parse(text)
      case None =>
        r := [Show(Message("Введите дату в корректном формате ('ДД-ММ-ГГГГ'):", [MenuButton], 2)),
              RegisterNext(LessonDateInput)];
      case Some(lessonDate) =>
        reportBuilder.SetLessonDate1(lessonDate);
        var m := BuildReport2TopicSetting(ReportBuilderShowItemList(T, 1));
        r := [Show(m)];
    }

    /** What the preview needs: when the accumulator validates, the data can
        be rendered. */
    predicate PreviewRenderable(t: TempReport)
      reads topicStorage, studentStorage
    {
      Preview(t).Ok? ==> Renderable(Preview(t).value)
    }

    /** The preview: validation errors propagate; otherwise the report text and
        a save button that carries the parent id, titled "save and send" iff
        the parent id is truthy. Nothing changes. */
    function BuildReportPreview(): (r: Result<Message>)
      reads reportBuilder, topicStorage, studentStorage
      requires PreviewRenderable(reportBuilder.tempReport)
      ensures r.Ok? <==> Preview(reportBuilder.tempReport).Ok?
      ensures r.Err? ==> r.error == Preview(reportBuilder.tempReport).error
      ensures r.Ok? ==>
                var d := Preview(reportBuilder.tempReport).value;
                var parentId := studentStorage.GetParentId(d.studentId);
                && r.value.text == FormatReportText(d)
                && |r.value.buttons| == 3
                && r.value.buttons[0] == MenuButton
                && r.value.buttons[1] == Button("Новый отчёт", ReportBuilder1)
                && r.value.buttons[2].action == SaveConfirmedReport(parentId)
                && (r.value.buttons[2].title == "Сохранить и отправить отчёт" <==> Truthy(parentId))
                && (r.value.buttons[2].title == "Сохранить отчёт" <==> !Truthy(parentId))
    {
      match Preview(reportBuilder.tempReport)
      case Err(e) => Err(e)
      case Ok(d) =>
        var parentId := studentStorage.GetParentId(d.studentId);
        var title := if Truthy(parentId) then "Сохранить и отправить отчёт" else "Сохранить отчёт";
        Ok(Message(FormatReportText(d), [
          MenuButton,
          Button("Новый отчёт", ReportBuilder1),
          Button(title, SaveConfirmedReport(parentId))], 2))
    }

    /** Stores the comment, then shows the preview; a failing validation
        raises with the comment already stored. */
    method ProcessCommentInput(text: string) returns (r: Result<seq<Reply>>)
      requires PreviewRenderable(reportBuilder.tempReport.(comment := Some(text)))
      modifies reportBuilder
      ensures reportBuilder.tempReport == old(reportBuilder.tempReport).(comment := Some(text))
      ensures r.Ok? <==> BuildReportPreview().Ok?
      ensures r.Ok? ==> r.value == [Show(BuildReportPreview().value)]
    {
      reportBuilder.SetComment8(Some(text));
      var preview := BuildReportPreview();
      if preview.Err? {
        return Err(preview.error);
      }
      r := Ok([Show(preview.value)]);
    }

    /** Completes the report (clearing the builder) and stores it, marked sent
        iff the parent id is truthy; a failing validation raises and changes
        nothing. */
    method SaveReport(parentId: Option<int>) returns (r: Result<ReportData>)
      requires Valid()
      modifies reportBuilder, reportStorage
      ensures Valid()
      ensures r == Preview(old(reportBuilder.tempReport))
      ensures r.Ok? ==>
                && reportBuilder.tempReport == EmptyTemp
                && reportStorage.rows == old(reportStorage.rows)
                                         + [FromData(old(reportStorage.nextId), r.value, Truthy(parentId))]
      ensures r.Err? ==>
                && reportBuilder.tempReport == old(reportBuilder.tempReport)
                && reportStorage.rows == old(reportStorage.rows)
    {
      r := reportBuilder.CompleteReport();
      if r.Err? {
        return;
      }
      reportStorage.AddReport(r.value, Truthy(parentId));
    }

    /** The completed report as one plain message. */
    function SendReport(d: ReportData): (r: seq<Message>)
      reads topicStorage, studentStorage
      requires Renderable(d)
      ensures |r| == 1 && r[0].buttons == [] && r[0].text == FormatReportText(d)
    {
      [TextMessage(FormatReportText(d))]
    }

    // -------------------------------------------------------------------
    // Sending saved reports

    /** Whether the report's student has a truthy parent id. */
    predicate HasParent(r: Report)
      reads studentStorage
    {
      Truthy(studentStorage.GetParentId(r.studentId))
    }

    /** What sending needs: every report that would be sent can be rendered. */
    predicate Deliverable(rs: seq<Report>)
      reads topicStorage, studentStorage
    {
      forall i :: 0 <= i < |rs| && HasParent(rs[i]) ==> Renderable(rs[i].Data())
    }

    /** The message, report id and parent id for one report to send. */
    function Delivery(r: Report): (m: (Message, int, int))
      reads topicStorage, studentStorage
      requires HasParent(r) && Renderable(r.Data())
    {
      (TextMessage(FormatReportText(r.Data())), r.reportId, studentStorage.GetParentId(r.studentId).value)
    }

    /** The deliveries for `rs`, in order: one per report with a truthy parent id. */
    function Deliveries(rs: seq<Report>): (ds: seq<(Message, int, int)>)
      reads topicStorage, studentStorage
      requires Deliverable(rs)
      ensures |ds| <= |rs|
    {
      if rs == [] then []
      else
        var init := rs[..|rs| - 1];
        var last := rs[|rs| - 1];
        assert Deliverable(init) by {
          forall i | 0 <= i < |init| && HasParent(init[i]) ensures Renderable(init[i].Data()) {
            assert init[i] == rs[i];
          }
        }
        Deliveries(init) + (if HasParent(last) then [Delivery(last)] else [])
    }

    /** The reports with a truthy parent id, in order. */
    function WithParent(rs: seq<Report>): (ws: seq<Report>)
      reads studentStorage
      ensures forall i :: 0 <= i < |ws| ==> ws[i] in rs && HasParent(ws[i])
      ensures forall i :: 0 <= i < |rs| && HasParent(rs[i]) ==> rs[i] in ws
    {
      if rs == [] then [] else (if HasParent(rs[0]) then [rs[0]] else []) + WithParent(rs[1..])
    }

    lemma {:induction false} WithParentAppend(a: seq<Report>, x: Report)
      ensures WithParent(a + [x]) == WithParent(a) + (if HasParent(x) then [x] else [])
    {
      if a == [] {
        assert [x][1..] == [];
      } else {
        assert (a + [x])[0] == a[0] && (a + [x])[1..] == a[1..] + [x];
        WithParentAppend(a[1..], x);
      }
    }

    /** The deliveries are exactly the reports with a truthy parent id, in the
        order given, each paired with its report id and parent id. */
    lemma {:induction false} DeliveriesAreWithParent(rs: seq<Report>)
      requires Deliverable(rs)
      ensures var ws := WithParent(rs);
              var ds := Deliveries(rs);
              && |ds| == |ws|
              && forall k :: 0 <= k < |ds| ==>
                   && Renderable(ws[k].Data())
                   && ds[k] == (TextMessage(FormatReportText(ws[k].Data())), ws[k].reportId,
                                studentStorage.GetParentId(ws[k].studentId).value)
    {
      if rs != [] {
        var init := rs[..|rs| - 1];
        var last := rs[|rs| - 1];
        assert rs == init + [last];
        assert Deliverable(init) by {
          forall i | 0 <= i < |init| && HasParent(init[i]) ensures Renderable(init[i].Data()) {
            assert init[i] == rs[i];
          }
        }
        DeliveriesAreWithParent(init);
        WithParentAppend(init, last);
      }
    }

    /** Every prefix of a deliverable list is deliverable, and extending a
        prefix by one report adds that report's delivery iff it has a parent. */
    lemma DeliveriesStep(rs: seq<Report>, i: nat)
      requires Deliverable(rs) && i < |rs|
      ensures Deliverable(rs[..i]) && Deliverable(rs[..i + 1])
      ensures Deliveries(rs[..i + 1]) ==
                Deliveries(rs[..i]) + (if HasParent(rs[i]) then [Delivery(rs[i])] else [])
    {
      DeliverablePrefix(rs, i);
      DeliverablePrefix(rs, i + 1);
      assert rs[..i + 1][..i] == rs[..i];
    }

    lemma DeliverablePrefix(rs: seq<Report>, n: nat)
      requires Deliverable(rs) && n <= |rs|
      ensures Deliverable(rs[..n])
    {
      var p := rs[..n];
      forall j | 0 <= j < |p| && HasParent(p[j]) ensures Renderable(p[j].Data()) {
        assert p[j] == rs[j];
      }
    }

    /** `send_saved_reports`: walks the unsent reports in store order and
        collects a delivery for each whose student has a truthy parent id.
        Nothing changes. */
    method SendSavedReports() returns (result: seq<(Message, int, int)>)
      requires Deliverable(reportStorage.GetSavedReports())
      ensures result == Deliveries(reportStorage.GetSavedReports())
    {
      var saved := reportStorage.GetSavedReports();
      result := [];
      for i := 0 to |saved|
        invariant Deliverable(saved[..i])
        invariant result == Deliveries(saved[..i])
      {
        DeliveriesStep(saved, i);
        var report := saved[i];
        var parentId := studentStorage.GetParentId(report.studentId);
        if Truthy(parentId) {
          result := result + [(TextMessage(FormatReportText(report.Data())), report.reportId, parentId.value)];
        }
      }
      assert saved[..|saved|] == saved;
    }
  }
}
