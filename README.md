# Lessons Reporter Bot, modelled in Dafny

Lessons Reporter Bot is a Telegram bot in which a teacher files lesson reports. A report wizard asks for:

- the lesson date;
- the topic;
- the student;
- the homework status;
- the student's activity;
- whether the lesson was paid;
- an optional comment.

The bot then shows a preview and saves the report. When the student's parent has a chat id, the report is also sent to them. Teachers also browse and manage students, topics and reports through paged lists.

Every button carries a short text token that encodes an action and its arguments. Some screens wait for a typed reply instead.

This project models the bot's core and proves properties of it:

- `CallbackData` (callback_data.dfy): the 23 button actions as one datatype.
  - `TypeTag` gives each variant's literal `type` tag.
  - Wizard list actions and delete actions can only name a student or a topic (`EntityType`). List and item actions can also name a report (`ItemType`).
- `Models` (models.dfy): the records.
  - Calendar dates are a subset type of year, month and day.
  - `FormatDate` renders a date as `DD-MM-YYYY`.
  - Students, topics, report data, report rows.
  - The screen value `Message` (text, ordered buttons, row width).
  - `TextStep` is the kind of typed reply a screen waits for. Each value stands for one closure the service registers.
  - `Reply` is one element of a handler's answer: a screen to show, or a step to wait for.
- `Pagination` (pagination.dfy): `paginate`, including Python slicing with negative bounds for pages below 1.
- `ReportWizard` (report_builder.dfy): the class `ReportBuilder`. It holds the eight optional fields, the setters, clear, preview (validation) and complete.
- `CallbackStorage` and `JsonArgs` (callback_storage.dfy, json_args.dfy): the class `CallbackStorage`.
  - It keeps a duplicate-free callback registry.
  - Its token codec writes the version line, the index line and one `json.dumps` line per argument. The arguments are null, booleans, integers and strings.
  - Its decoder reads a token back with `splitlines`, `int` and `json.loads`.
- `Authorization` (authorization.dfy): teacher access as membership in the superuser list.
- `Tables` and `Stores` (tables.dfy, stores.dfy): the three SQL-backed stores as classes.
  - Each store holds a sequence of rows with unique keys, in listing order, and the next key to assign.
- `BotService` (bot_service.dfy): the class `BotService`.
  - It covers the screens, the two-step delete, the typed-reply steps and the report text template.
  - It also covers saving a report and collecting the saved reports to send.
- `PyText` (pytext.dfy): the Python string operations the core relies on: `splitlines`, `split`, `strip`, `capitalize`, `str(int)` and `int(str)`.
- `Common` (common.dfy): `Option`, `Result` and the Python exceptions a call can raise.

Where the source raises, the model returns `Err` with the exception. Examples: `complete_report` on an incomplete builder, a `lesson_day` other than 'today' or 'yesterday', yesterday before 0001-01-01, a registered callback registered again. The one exception is `FormatReportText`: its crashes on a missing topic or student are excluded by a precondition rather than returned (see "## Left out").

Python truthiness is written out in `BotService.Truthy`: a parent id or filter of 0 counts as absent.

## Model

| member | source | states |
|---|---|---|
| CallbackData.VariantIndex | lessons_reporter_bot/callback_data.py:145-174 | every action is one of exactly 23 variants, numbered in the order of the union |
| CallbackData.TypeTagsDistinct | lessons_reporter_bot/callback_data.py:19-142 | the 23 literal `type` tags are pairwise different |
| CallbackData.TypeTagListed | lessons_reporter_bot/callback_data.py:19-142 | an action's tag is the tag listed for its variant |
| CallbackData.TypeTagDiscriminates | lessons_reporter_bot/callback_data.py:19-174 | two actions have the same tag iff they are the same variant, and the tag alone recovers the variant, so the union is a discriminated sum |
| CallbackData.VariantOfTag | lessons_reporter_bot/callback_data.py:145-174 | a tag is found iff it is one of the 23 listed tags, and the position found carries that tag |
| Models.DaysInMonth | lessons_reporter_bot/models.py:71-79 | months have 28 to 31 days, and February has 29 exactly in leap years |
| Models.PrevDay | lessons_reporter_bot/bot_service.py:493-494 | yesterday fails, with OverflowError, exactly for 0001-01-01 |
| Models.NextDay | lessons_reporter_bot/bot_service.py:493-494 | tomorrow fails exactly for 9999-12-31 |
| Models.PrevNextDay | lessons_reporter_bot/bot_service.py:493-494 | yesterday and tomorrow undo each other |
| Models.FormatDate | lessons_reporter_bot/bot_service.py:742 | `strftime('%d-%m-%Y')` gives ten characters: digits with dashes at places 2 and 5, and no line break |
| Models.FormatDateInjective | lessons_reporter_bot/bot_service.py:742 | different dates print differently |
| Models.ReadBack | lessons_reporter_bot/bot_service.py:742 | day, month and year are read back from their fixed places of the printed date |
| Models.Report.Data | lessons_reporter_bot/models.py:50-63 | a report row is its `ReportData` plus its key and sent flag: rebuilding the row from them gives it back |
| Models.FromData | lessons_reporter_bot/bot_service.py:782-794 | the row built for saving carries the given key and sent flag |
| Models.DataOfFromData | lessons_reporter_bot/models.py:50-79 | reading a built row as data gives back the data |
| Models.TextMessage | lessons_reporter_bot/models.py:12-16 | a message given only text has no buttons and rows two wide |
| Pagination.SliceBound | lessons_reporter_bot/utils.py:30 | a Python slice bound is clipped to the list, counting a negative bound from the end |
| Pagination.PySlice | lessons_reporter_bot/utils.py:30 | `items[a:b]` is the contiguous window between the clipped bounds |
| Pagination.Paginate | lessons_reporter_bot/utils.py:9-30 | first iff page is 1; last iff page equals the page count or the list is empty; at most `page_size` items; for page >= 1 the window `[(page-1)*size, page*size)` clipped to the list |
| Pagination.TotalPagesIsCeiling | lessons_reporter_bot/utils.py:25 | the page count is the least count of pages of `page_size` that hold the list |
| Pagination.EmptyList | lessons_reporter_bot/utils.py:28-29 | an empty list is last on every page, and first on page 1 |
| Pagination.PastTheEnd | lessons_reporter_bot/utils.py:25-30 | for a non-empty list any page past the last has no items and is not last |
| Pagination.LastPageHasItems | lessons_reporter_bot/utils.py:24-30 | for a non-empty list, the page numbered by the page count is marked last and has items |
| Pagination.PageZero | lessons_reporter_bot/utils.py:24-30 | page 0 is an empty slice and not the first page |
| Pagination.NegativePage | lessons_reporter_bot/utils.py:24-30 | a negative page slices a window counted from the end of the list |
| Pagination.PagesUpToPrefix | lessons_reporter_bot/utils.py:24-30 | pages 1..k put together are the first `k*size` items |
| Pagination.AllPages | lessons_reporter_bot/utils.py:24-30 | pages 1..page count put together reproduce the list in order |
| ReportWizard.MissingFields | lessons_reporter_bot/models.py:71-79 | no field is reported missing iff all seven required fields are present |
| ReportWizard.Preview | lessons_reporter_bot/report_builder.py:51-52 | validation succeeds iff every field but the comment is present; on failure it names the missing fields; on success the data carries exactly the accumulated values |
| ReportWizard.PreviewOfFill | lessons_reporter_bot/report_builder.py:51-52 | validating an accumulator filled from some data gives back that data |
| ReportWizard.ReportBuilder.constructor | lessons_reporter_bot/report_builder.py:9-22 | a fresh builder has all eight fields absent |
| ReportWizard.ReportBuilder.ClearTempReport | lessons_reporter_bot/report_builder.py:24-25 | after a clear all eight fields are absent |
| ReportWizard.ReportBuilder.SetLessonDate1 | lessons_reporter_bot/report_builder.py:27-28 | writes the date and leaves the other seven fields as they were |
| ReportWizard.ReportBuilder.SetLessonCount4 | lessons_reporter_bot/report_builder.py:30-31 | writes the lesson count and leaves the other seven fields as they were |
| ReportWizard.ReportBuilder.SetTopicId | lessons_reporter_bot/report_builder.py:33-34 | writes the topic and leaves the other seven fields as they were |
| ReportWizard.ReportBuilder.SetStudentId3 | lessons_reporter_bot/report_builder.py:36-37 | writes the student and leaves the other seven fields as they were |
| ReportWizard.ReportBuilder.SetHomeworkStatus5 | lessons_reporter_bot/report_builder.py:39-40 | writes the homework status and leaves the other seven fields as they were |
| ReportWizard.ReportBuilder.SetIsProactive6 | lessons_reporter_bot/report_builder.py:42-43 | writes the activity flag and leaves the other seven fields as they were |
| ReportWizard.ReportBuilder.SetIsPaid7 | lessons_reporter_bot/report_builder.py:45-46 | writes the payment flag and leaves the other seven fields as they were |
| ReportWizard.ReportBuilder.SetComment8 | lessons_reporter_bot/report_builder.py:48-49 | writes the comment, so that `None` makes it absent again, and leaves the other fields as they were |
| ReportWizard.ReportBuilder.PreviewCompleteReport | lessons_reporter_bot/report_builder.py:51-52 | returns the validation of the accumulator and changes nothing |
| ReportWizard.ReportBuilder.CompleteReport | lessons_reporter_bot/report_builder.py:54-57 | returns what preview returns; on success the builder is left empty; on failure it raises before the clear and the builder is unchanged |
| ReportWizard.WizardRun | lessons_reporter_bot/report_builder.py:27-57 | a full run of the setters completes with exactly the values supplied, and the builder is left empty |
| ReportWizard.RestartWithoutComment | lessons_reporter_bot/report_builder.py:24-25 | after a clear, a run that skips the comment completes without one: nothing of an abandoned attempt survives |
| ReportWizard.SkippedCommentSurvives | lessons_reporter_bot/report_builder.py:48-52 | without a clear, a skipped comment step keeps the comment of the abandoned attempt |
| JsonArgs.Dumps | lessons_reporter_bot/callback_storage.py:27 | `json.dumps` text is non-empty printable ASCII |
| JsonArgs.EscapeChar | lessons_reporter_bot/callback_storage.py:27 | one escaped character is printable ASCII and does not start with a quote |
| JsonArgs.DumpsIsOneLine | lessons_reporter_bot/callback_storage.py:27 | a dumped argument holds no line break |
| JsonArgs.ParseHex4OfHex4 | lessons_reporter_bot/callback_storage.py:27-36 | four hex digits written for a number read back as that number |
| JsonArgs.DecodeUnicodeEscape | lessons_reporter_bot/callback_storage.py:36 | a `\uXXXX` escape, or a surrogate pair, consumes 6 or 12 characters |
| JsonArgs.DecodeEscapedChar | lessons_reporter_bot/callback_storage.py:27-36 | decoding the escape of a character gives the character and consumes the escape exactly |
| JsonArgs.ParseEscapedString | lessons_reporter_bot/callback_storage.py:27-36 | the body of a dumped string parses back to the string and leaves what follows the closing quote |
| JsonArgs.ParseNumber | lessons_reporter_bot/callback_storage.py:36 | a parsed integer consumes at least one character |
| JsonArgs.ParseNatString | lessons_reporter_bot/callback_storage.py:27-36 | a dumped natural number parses back to itself with nothing left |
| JsonArgs.Loads | lessons_reporter_bot/callback_storage.py:36 | `json.loads` fails only with JSONDecodeError |
| JsonArgs.LoadsDumps | lessons_reporter_bot/callback_storage.py:27-36 | loading a dumped value gives back the value |
| CallbackStorage.EscapeNewlines | lessons_reporter_bot/callback_storage.py:27 | text without a line feed is left as it is |
| CallbackStorage.UnescapeNewlines | lessons_reporter_bot/callback_storage.py:36 | text without a line feed is left as it is |
| CallbackStorage.ArgLines | lessons_reporter_bot/callback_storage.py:27 | one argument line per positional argument, in order |
| CallbackStorage.LoadArgs | lessons_reporter_bot/callback_storage.py:36 | decoding the argument lines succeeds iff every line loads, and then gives one value per line in order; failures are JSONDecodeError |
| CallbackStorage.IndexOf | lessons_reporter_bot/callback_storage.py:23 | `list.index` gives the first position holding the callback |
| CallbackStorage.PyIndex | lessons_reporter_bot/callback_storage.py:43 | Python indexing succeeds iff `-len <= i < len`, counts a negative index from the end, and otherwise raises IndexError |
| CallbackStorage.ParseToken | lessons_reporter_bot/callback_storage.py:31-37 | fewer than two lines raise IndexError and a bad index line raises ValueError, whatever the version; otherwise version, index and arguments come from lines 0, 1 and 2.. |
| CallbackStorage.CallbackStorage.constructor | lessons_reporter_bot/callback_storage.py:11-14 | a new registry has the given version and no callbacks |
| CallbackStorage.CallbackStorage.Register | lessons_reporter_bot/callback_storage.py:16-19 | registering a new callback appends it and returns it; registering one again raises AssertionError and changes nothing; the registry stays duplicate-free |
| CallbackStorage.CallbackStorage.ToCallbackData | lessons_reporter_bot/callback_storage.py:21-29 | keyword arguments raise AssertionError; otherwise the encoding succeeds iff the callback is registered, and an unregistered one raises ValueError |
| CallbackStorage.CallbackStorage.FromCallbackData | lessons_reporter_bot/callback_storage.py:31-43 | parse errors propagate; a different version decodes to the no-op callable; a matching version looks the index up with Python indexing |
| CallbackStorage.TokenLines | lessons_reporter_bot/callback_storage.py:21-29 | the token's lines are the version, the index and one JSON text per argument |
| CallbackStorage.LoadArgLines | lessons_reporter_bot/callback_storage.py:27-36 | the argument lines load back to the arguments |
| CallbackStorage.RoundTrip | lessons_reporter_bot/callback_storage.py:21-43 | with a version without line breaks, decoding an encoded call gives the same callback with equal arguments in the same order |
| CallbackStorage.StaleToken | lessons_reporter_bot/callback_storage.py:39-41 | a token made under another version decodes to the no-op callable |
| CallbackStorage.IndexIsPosition | lessons_reporter_bot/callback_storage.py:17-23 | in a duplicate-free registry a callback's index is its registration position |
| Authorization.AuthorizationService.HasTeacherAccess | lessons_reporter_bot/authorization_service.py:8-11 | access is granted iff the user appears in the superuser list; an empty list denies everyone |
| Authorization.AccessIgnoresOrderAndRepeats | lessons_reporter_bot/authorization_service.py:11 | two lists naming the same users give the same answer, whatever their order and repetitions |
| Tables.Find | lessons_reporter_bot/student_storage.py:33-37 | a lookup finds a row iff some row has the key, and the row found has it |
| Tables.FindUnique | lessons_reporter_bot/topic_storage.py:39-41 | with unique keys the row found is the one row with the key |
| Tables.Filter | lessons_reporter_bot/report_storage.py:37-49 | a `where` keeps just the rows that satisfy it and every such row, and keeps all rows when all satisfy it |
| Tables.FilterAppend | lessons_reporter_bot/report_storage.py:37-49 | filtering distributes over appending rows |
| Tables.FilterUnique | lessons_reporter_bot/report_storage.py:63-66 | filtering keeps keys unique |
| Tables.RemoveKey | lessons_reporter_bot/student_storage.py:69-78 | deleting a key removes exactly the rows with that key, and removes nothing when there is none |
| Tables.RemoveKeyUnique | lessons_reporter_bot/topic_storage.py:43-52 | deleting keeps keys unique |
| Stores.AppendFresh | lessons_reporter_bot/student_storage.py:16-22 | adding a row under the next key keeps every key below the new next key; that key finds the new row and every other key finds what it found before |
| Stores.FindAppended | lessons_reporter_bot/topic_storage.py:17-23 | adding a row under another key does not change what a key finds |
| Stores.FindRemoved | lessons_reporter_bot/student_storage.py:69-78 | deleting one key does not change what any other key finds |
| Stores.StudentStorage.GetStudentById | lessons_reporter_bot/student_storage.py:33-37 | finds the student iff the key is present |
| Stores.StudentStorage.GetParentId | lessons_reporter_bot/student_storage.py:39-44 | a known student's parent id is returned; an unknown student's is None |
| Stores.StudentStorage.AddStudent | lessons_reporter_bot/student_storage.py:16-22 | appends a student with the next key and no parent, and returns the key |
| Stores.StudentStorage.AddParentIdToStudent | lessons_reporter_bot/student_storage.py:24-31 | sets the parent id of that student only; an unknown student changes nothing |
| Stores.StudentStorage.UpdateStudentName | lessons_reporter_bot/student_storage.py:60-67 | sets the name of that student only; an unknown student changes nothing |
| Stores.StudentStorage.DeleteStudent | lessons_reporter_bot/student_storage.py:69-78 | returns whether the key existed and removes that row |
| Stores.TopicStorage.GetTopicById | lessons_reporter_bot/topic_storage.py:39-41 | finds the topic iff the key is present |
| Stores.TopicStorage.AddTopic | lessons_reporter_bot/topic_storage.py:17-23 | appends a topic with the next key and returns the key |
| Stores.TopicStorage.DeleteTopic | lessons_reporter_bot/topic_storage.py:43-52 | returns whether the key existed and removes that row |
| Stores.OfStudent | lessons_reporter_bot/report_storage.py:37-49 | one student's reports are exactly the reports with that student id |
| Stores.Unsent | lessons_reporter_bot/report_storage.py:63-66 | the unsent reports are exactly those with `is_sent` false |
| Stores.ReportStorage.AddReport | lessons_reporter_bot/report_storage.py:18-21 | appends the report with the next key and the given sent flag |
| Stores.ReportStorage.GetReportById | lessons_reporter_bot/report_storage.py:51-54 | finds the report iff the key is present |
| Stores.ReportStorage.LessonsCountByStudentId | lessons_reporter_bot/report_storage.py:56-61 | the count is the number of that student's reports |
| Stores.ReportStorage.GetSavedReports | lessons_reporter_bot/report_storage.py:63-66 | exactly the reports with `is_sent` false |
| Stores.ReportStorage.SetIsSent | lessons_reporter_bot/report_storage.py:68-72 | marks that report sent and no other; an unknown report raises AttributeError and changes nothing |
| Stores.AddReportCounts | lessons_reporter_bot/report_storage.py:18-61 | saving a report adds one to its student's count and leaves other students' counts alone |
| PyText.SplitLinesOfJoin | lessons_reporter_bot/bot_service.py:739-750 | lines without breaks joined by `\n` split back into the same lines |
| PyText.SplitWordsOfJoin | lessons_reporter_bot/bot_service.py:371-373 | non-empty words without spaces joined by single spaces split back into the same words |
| PyText.SplitWordsAreWords | lessons_reporter_bot/bot_service.py:372 | `str.split()` gives non-empty words without whitespace |
| PyText.Capitalize | lessons_reporter_bot/bot_service.py:372 | `capitalize` keeps the length, upper-cases the first letter and lower-cases the rest |
| PyText.CapitalizeFacts | lessons_reporter_bot/bot_service.py:372 | capitalising twice is capitalising once, and keeps a word free of spaces |
| PyText.Strip | lessons_reporter_bot/bot_service.py:372 | the result is a contiguous part of the text with only whitespace cut from either end, and it neither starts nor ends with whitespace |
| PyText.SplitWordsOfStrip | lessons_reporter_bot/bot_service.py:372 | stripping before `split()` changes no word: the stripped and unstripped text split into the same words |
| PyText.StripTrimmed | lessons_reporter_bot/bot_service.py:372 | stripping text that neither starts nor ends with whitespace changes nothing |
| PyText.ParseInt | lessons_reporter_bot/bot_service.py:394-396 | `int()` fails only with ValueError |
| PyText.ParseIntOfString | lessons_reporter_bot/callback_storage.py:26-35 | `int(str(i)) == i` |
| PyText.JoinAppend | lessons_reporter_bot/bot_service.py:749-750 | joining one more line adds a separator and that line at the end |
| BotService.NormaliseNameWords | lessons_reporter_bot/bot_service.py:370-374 | the stored name is the typed words, stripped and split on whitespace, each capitalised, joined by single spaces; its words are the capitalised words of the text as typed |
| BotService.NormaliseNameIdempotent | lessons_reporter_bot/bot_service.py:370-374 | normalising a stored name again changes nothing |
| BotService.StudentItems | lessons_reporter_bot/bot_service.py:241-244 | one item per student, titled with the name and keyed by the student id |
| BotService.TopicItems | lessons_reporter_bot/bot_service.py:292-295 | one item per topic, titled with the topic and keyed by the topic id |
| BotService.ReportItems | lessons_reporter_bot/bot_service.py:278-287 | one item per report whose student still exists, dropping the rest before paging, titled with date, dash and student name |
| BotService.ListExtraButtons | lessons_reporter_bot/bot_service.py:246-302 | the student list offers "Добавить студента" and the topic list "Добавить тему", both with the page; the report list offers "К студентам" when filtered by a (truthy) student, and "Отправить сохранённые отчёты" otherwise |
| BotService.OpenButtons | lessons_reporter_bot/bot_service.py:307-318 | one button per page item, opening it with the list's type, filter and page |
| BotService.ChooseButtons | lessons_reporter_bot/bot_service.py:554-563 | one button per page item, choosing it for the wizard with the list's type |
| BotService.ShowAdminPanel | lessons_reporter_bot/bot_service.py:82-103 | four buttons: the student, topic and report lists, each unfiltered on page 1, then the report wizard |
| BotService.DeleteOneItem | lessons_reporter_bot/bot_service.py:105-129 | reads no store; offers "Удалить", the confirmed delete with the same type, page and key, and "Назад" back to the item |
| BotService.BuildReport1LessonDateSetting | lessons_reporter_bot/bot_service.py:462-486 | "Сегодня" sends "today", "Вчера" sends "yesterday", "Ввести дату:" starts the typed entry, then the menu button; every date button sends a value the date step accepts |
| BotService.BuildReport1Manual | lessons_reporter_bot/bot_service.py:502-541 | prompts for the date and leaves the date step pending |
| BotService.BuildReport5HomeworkStatusSetting | lessons_reporter_bot/bot_service.py:642-668 | as written: the three buttons send 0, 1, 2 in title order, then the menu button |
| BotService.BuildReport5HomeworkStatusSettingCorrected | lessons_reporter_bot/bot_service.py:642-668 | the three buttons send 2, 1, 0 in title order, then the menu button |
| BotService.HomeworkButtonsInverted | lessons_reporter_bot/bot_service.py:646-663 | as written, the "Выполнено" button's status reads "не выполнено" in the report and the "Не выполнено" button's reads "выполнено" |
| BotService.HomeworkButtonsMatchText | lessons_reporter_bot/bot_service.py:646-663 | with the corrected values, each title names the status its button sends |
| BotService.BuildReport6IsProactiveSetting | lessons_reporter_bot/bot_service.py:670-686 | "Сильная" sends 1, "Слабая" sends 0, then the menu button |
| BotService.BuildReport7PaymentStatusSetting | lessons_reporter_bot/bot_service.py:688-704 | "Оплачено" sends 1, "Не оплачено" sends 0, then the menu button |
| BotService.BuildReport8AskComment | lessons_reporter_bot/bot_service.py:706-722 | "Добавить" asks for the comment, "Пропустить" goes straight to the preview; the menu button is last |
| BotService.BuildReport8GetComment | lessons_reporter_bot/bot_service.py:724-734 | prompts for the comment and leaves the comment step pending |
| BotService.GetErrorMessageTempReportMustBeFilled | lessons_reporter_bot/bot_service.py:814-815 | a message without buttons |
| BotService.CreateTopic | lessons_reporter_bot/bot_service.py:349-365 | prompts and leaves the topic-name step pending with the page |
| BotService.CreateStudent | lessons_reporter_bot/bot_service.py:367-386 | prompts and leaves the student-name step pending with the page |
| BotService.AddParentIdToStudent | lessons_reporter_bot/bot_service.py:388-427 | prompts with a way back to the student and leaves the parent-id step pending with the page and student |
| BotService.UpdateStudentName | lessons_reporter_bot/bot_service.py:429-460 | prompts with a way back to the student and leaves the rename step pending |
| BotService.BotService.constructor | lessons_reporter_bot/bot_service.py:54-60 | the service holds the given access service, stores and builder |
| BotService.BotService.Welcome | lessons_reporter_bot/bot_service.py:62-80 | the admin panel is shown iff the user has teacher access; anyone else gets two messages without buttons, the first carrying their user id in backticks to forward |
| BotService.BotService.ReportLines | lessons_reporter_bot/bot_service.py:736-748 | the template has six lines |
| BotService.BotService.FormatReportText | lessons_reporter_bot/bot_service.py:736-752 | the six lines joined by `\n`; when a comment is present, a heading line and the comment follow as two more lines |
| BotService.BotService.JoinComment | lessons_reporter_bot/bot_service.py:749-750 | appending `\nКомментарий:\n{comment}` is joining two more lines |
| BotService.BotService.ReportLinesOneLine | lessons_reporter_bot/bot_service.py:739-748 | each template line is a single line when the name and topic are |
| BotService.BotService.ReportTextLines | lessons_reporter_bot/bot_service.py:736-752 | read back line by line the text gives the six lines, then the heading and the comment when present |
| BotService.BotService.ShowOneItem | lessons_reporter_bot/bot_service.py:159-237 | a missing student or a report's missing student gives "Студент не найден", a missing report "Отчёт не найден.", a missing topic "Тема не найдена."; a student's screen has exactly "Отчёты" (the list filtered by that student), "Удалить", "Изменить ФИО", "Изменить id родителя" and "Назад"; a topic's exactly "Удалить" and "Назад"; a report's only "Назад"; rows two wide; "Назад" goes back to the list |
| BotService.BotService.ShowItemsList | lessons_reporter_bot/bot_service.py:239-347 | the page's open buttons; a previous-page button iff not first and a next-page button iff not last, both dropping the filter; then the extra button; "В меню" last |
| BotService.BotService.ListLayout | lessons_reporter_bot/bot_service.py:307-346 | paging buttons are told apart from every other button of a list screen |
| BotService.BotService.DeleteConfirmedOneItem | lessons_reporter_bot/bot_service.py:131-157 | deletes the student or topic, says whether one existed, leaves the other store alone, and goes back to the list |
| BotService.BotService.ProcessTopicName | lessons_reporter_bot/bot_service.py:352-360 | stores the topic as typed under the next key and shows it |
| BotService.BotService.ProcessStudentName | lessons_reporter_bot/bot_service.py:370-381 | stores the normalised name under the next key with no parent, and shows the new student |
| BotService.BotService.ProcessParentIdInput | lessons_reporter_bot/bot_service.py:391-412 | text that is not an integer asks again with the same step and changes nothing; otherwise sets that student's parent id and shows the student |
| BotService.BotService.ProcessStudentRename | lessons_reporter_bot/bot_service.py:432-445 | stores the name exactly as typed and shows the student |
| BotService.BotService.ChoiceList | lessons_reporter_bot/bot_service.py:552-591 | the page's choose buttons; previous iff not first; next iff not last; "В меню" last |
| BotService.BotService.BuildReport2TopicSetting | lessons_reporter_bot/bot_service.py:543-591 | the topics page as choose buttons, "Назад" iff the page is not the first, "Вперёд" iff it is not the last, the menu button last, rows two wide |
| BotService.BotService.BuildReport3StudentSetting | lessons_reporter_bot/bot_service.py:593-640 | the students page as choose buttons, "Назад" iff the page is not the first, "Вперёд" iff it is not the last, the menu button last, rows two wide |
| BotService.BotService.BuildReport1LessonDateFromButton | lessons_reporter_bot/bot_service.py:488-500 | "today" sets today and "yesterday" sets the day before, then the topic list shows; yesterday of 0001-01-01 raises OverflowError; any other value raises UnboundLocalError; a failure leaves the builder unchanged |
| BotService.BotService.ProcessLessonDate | lessons_reporter_bot/bot_service.py:505-529 | a date that does not parse asks again with the same step and leaves the builder unchanged; otherwise sets the date and shows the topic list |
| BotService.BotService.BuildReportPreview | lessons_reporter_bot/bot_service.py:754-778 | a validation error propagates; otherwise the report text and a save button with the parent id, titled "Сохранить и отправить отчёт" iff the parent id is truthy and "Сохранить отчёт" iff it is not, after the menu button and "Новый отчёт" |
| BotService.BotService.ProcessCommentInput | lessons_reporter_bot/bot_service.py:727-729 | stores the comment, then shows the preview or raises its validation error |
| BotService.BotService.SaveReport | lessons_reporter_bot/bot_service.py:780-795 | completes (and so clears) the builder, stores the data marked sent iff the parent id is truthy, and returns it; a validation error changes nothing |
| BotService.BotService.SendReport | lessons_reporter_bot/bot_service.py:797-799 | one message without buttons holding the report text |
| BotService.BotService.WithParent | lessons_reporter_bot/bot_service.py:803-804 | exactly the reports whose student has a truthy parent id |
| BotService.BotService.DeliveriesAreWithParent | lessons_reporter_bot/bot_service.py:801-812 | the deliveries are exactly the reports with a truthy parent id, in order, each with its text, report id and parent id |
| BotService.BotService.SendSavedReports | lessons_reporter_bot/bot_service.py:801-812 | walks the unsent reports in store order, collects the deliveries of those with a truthy parent id, and changes nothing |

## Left out

- The telebot wiring in `lessons_reporter_bot/main.py`: sending and editing messages, registering step handlers, decoding button presses, passing arguments in by inspection, polling. This is where the bot:
  - calls `set_is_sent` after a delivery;
  - clears the builder when a new report starts;
  - derives the lesson count from `lessons_count_by_student_id`.
- main.py's older copies of the handlers, which `BotService` supersedes.
- There is no single dispatcher. Each action's screen is its own member; a pending `TextStep` is consumed by the matching `Process…` method.
- SQL ordering (`order_by`, `descending`) is not modelled. Rows are listed in store order, a fixed order of their own.
- The `count_*` store methods, sessions and the engine.
- The clock and `strptime`. `BuildReport1LessonDateFromButton` takes today's date as a parameter. `ProcessLessonDate` takes the parse as a function that may fail.
- `ParseInt` accepts only ASCII digits, signs, underscores between digits and whitespace; `int()` also accepts other Unicode digits.
- `Upper`/`Lower` map ASCII letters and the Cyrillic letters U+0400–U+045F only; other letters such as é or ñ pass through unchanged, whereas Python's `capitalize` maps them.
- `FormatDate` pads years below 1000 to four digits, as CPython 3.12.5 and later do; earlier 3.12 releases on glibc print such years unpadded.
- JSON arguments are null, booleans, integers and strings only. `Loads` returns JSONDecodeError for floats, arrays, objects, NaN and Infinity, all of which Python's `json.loads` decodes, so the JSONDecodeError cases of `Loads`, `LoadArgs` and `ParseToken` also cover such inputs the source accepts. Lone surrogates in strings are refused, because a Dafny `char` cannot hold one.
- `BotService.BotService.FormatReportText` requires that the topic and the student exist and that the homework status is 0, 1 or 2. The source indexes and dereferences them without checking. The callers `ShowOneItem`, `BuildReportPreview`, `ProcessCommentInput`, `SendReport` and `SendSavedReports` carry that requirement as well.
- pydantic's validation machinery is reduced to "present iff not None" on the accumulator. Coercions such as `is_active=1` becoming a bool happen in main.py and are not modelled.
- The show-one-item back button in the source also passes `i_id`, which the list action does not declare and pydantic drops. The model builds the list action without it.
- The diagnostic `print` calls in `from_callback_data`, `delete_confirmed_one_item` and `show_one_item`.

## Findings

| source | as written | input that shows it | evidently intended | confidence | as-written member | corrected member |
|---|---|---|---|---|---|---|
| lessons_reporter_bot/bot_service.py:646-663 | the "Выполнено" (done) button sends homework status 0 and "Не выполнено" (not done) sends 2, but the report text renders 0 as "не выполнено" and 2 as "выполнено" (lines 47-51) | press "Выполнено" at step 5 and complete the report: the text says "Д/З: не выполнено" | done sends 2 and not done sends 0, so each title names the status it records | high (not executed) | BotService.HomeworkButtonsInverted | BotService.HomeworkButtonsMatchText |
