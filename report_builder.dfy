/**
 * `ReportBuilder`: the wizard's accumulator. It holds eight optional fields,
 * one setter each, a clear operation, and the validation that turns a full
 * accumulator into `ReportData`.
 */
module ReportWizard {
  import opened Common
  import opened Models

  /** `TempReport`: every field starts absent. */
  datatype TempReport = TempReport(
    lessonDate: Option<Date>,
    lessonCount: Option<int>,
    topicId: Option<int>,
    studentId: Option<int>,
    homeworkStatus: Option<int>,
    isProactive: Option<bool>,
    isPaid: Option<bool>,
    comment: Option<string>)

  const EmptyTemp: TempReport := TempReport(None, None, None, None, None, None, None, None)

  /** The names of the required fields that are absent, in declaration order
      (what pydantic's error lists). */
  function MissingFields(t: TempReport): (names: seq<string>)
    ensures names == [] <==>
              && t.lessonDate.Some? && t.lessonCount.Some? && t.topicId.Some?
              && t.studentId.Some? && t.homeworkStatus.Some?
              && t.isProactive.Some? && t.isPaid.Some?
  {
    (if t.lessonDate.None? then ["lesson_date"] else [])
    + (if t.lessonCount.None? then ["lesson_count"] else [])
    + (if t.topicId.None? then ["topic_id"] else [])
    + (if t.studentId.None? then ["student_id"] else [])
    + (if t.homeworkStatus.None? then ["homework_status"] else [])
    + (if t.isProactive.None? then ["is_proactive"] else [])
    + (if t.isPaid.None? then ["is_paid"] else [])
  }

  /** `ReportData.model_validate(temp_report)`: succeeds iff every field but
      the comment is present, and then carries exactly the accumulated values. */
  function Preview(t: TempReport): (r: Result<ReportData>)
    ensures r.Ok? <==> MissingFields(t) == []
    ensures r.Err? ==> r.error == ValidationError(MissingFields(t))
    ensures r.Ok? ==> Fill(r.value) == t
  {
    if MissingFields(t) != [] then Err(ValidationError(MissingFields(t)))
    else Ok(ReportData(t.lessonDate.value, t.lessonCount.value, t.topicId.value,
                       t.studentId.value, t.homeworkStatus.value,
                       t.isProactive.value, t.isPaid.value, t.comment))
  }

  /** The accumulator a wizard run leaves when it supplied every value of `d`. */
  function Fill(d: ReportData): TempReport {
    TempReport(Some(d.lessonDate), Some(d.lessonCount), Some(d.topicId), Some(d.studentId),
               Some(d.homeworkStatus), Some(d.isProactive), Some(d.isPaid), d.comment)
  }

  /** Validation gives back the data the fields were filled from. */
  lemma PreviewOfFill(d: ReportData)
    ensures Preview(Fill(d)) == Ok(d)
  {
  }

  class ReportBuilder {
    var tempReport: TempReport

    constructor ()
      ensures tempReport == EmptyTemp
    {
      tempReport := EmptyTemp;
    }

    method ClearTempReport()
      modifies this
      ensures tempReport == EmptyTemp
    {
      tempReport := EmptyTemp;
    }

    method SetLessonDate1(lessonDate: Date)
      modifies this
      ensures tempReport == old(tempReport).(lessonDate := Some(lessonDate))
    {
      tempReport := tempReport.(lessonDate := Some(lessonDate));
    }

    method SetLessonCount4(lessonCount: int)
      modifies this
      ensures tempReport == old(tempReport).(lessonCount := Some(lessonCount))
    {
      tempReport := tempReport.(lessonCount := Some(lessonCount));
    }

    method SetTopicId(topicId: int)
      modifies this
      ensures tempReport == old(tempReport).(topicId := Some(topicId))
    {
      tempReport := tempReport.(topicId := Some(topicId));
    }

    method SetStudentId3(studentId: int)
      modifies this
      ensures tempReport == old(tempReport).(studentId := Some(studentId))
    {
      tempReport := tempReport.(studentId := Some(studentId));
    }

    method SetHomeworkStatus5(homeworkStatus: int)
      modifies this
      ensures tempReport == old(tempReport).(homeworkStatus := Some(homeworkStatus))
    {
      tempReport := tempReport.(homeworkStatus := Some(homeworkStatus));
    }

    method SetIsProactive6(isProactive: bool)
      modifies this
      ensures tempReport == old(tempReport).(isProactive := Some(isProactive))
    {
      tempReport := tempReport.(isProactive := Some(isProactive));
    }

    method SetIsPaid7(isPaid: bool)
      modifies this
      ensures tempReport == old(tempReport).(isPaid := Some(isPaid))
    {
      tempReport := tempReport.(isPaid := Some(isPaid));
    }

    /** Sets the comment; `None` makes it absent again. */
    method SetComment8(text: Option<string>)
      modifies this
      ensures tempReport == old(tempReport).(comment := text)
    {
      tempReport := tempReport.(comment := text);
    }

    /** Validates without changing the accumulator. */
    method PreviewCompleteReport() returns (r: Result<ReportData>)
      ensures r == Preview(tempReport)
    {
      r := Preview(tempReport);
    }

    /** Validation, then clear: when validation fails it raises before the
        clear, and the accumulator stays as it was. */
    method CompleteReport() returns (r: Result<ReportData>)
      modifies this
      ensures r == Preview(old(tempReport))
      ensures r.Ok? ==> tempReport == EmptyTemp
      ensures r.Err? ==> tempReport == old(tempReport)
    {
      r := PreviewCompleteReport();
      if r.Err? {
        return;
      }
      ClearTempReport();
    }
  }

  /** A full wizard run, steps 1 to 8 in the order the screens ask for them,
      completes with exactly the values supplied, whatever an earlier run
      left behind, and leaves the accumulator empty. */
  method WizardRun(b: ReportBuilder, d: ReportData) returns (r: Result<ReportData>)
    modifies b
    ensures r == Ok(d)
    ensures b.tempReport == EmptyTemp
  {
    b.SetLessonDate1(d.lessonDate);
    b.SetTopicId(d.topicId);
    b.SetStudentId3(d.studentId);
    b.SetLessonCount4(d.lessonCount);
    b.SetHomeworkStatus5(d.homeworkStatus);
    b.SetIsProactive6(d.isProactive);
    b.SetIsPaid7(d.isPaid);
    b.SetComment8(d.comment);
    assert b.tempReport == Fill(d);
    r := b.CompleteReport();
  }

  /** A run that skips the comment step after a clear completes without a
      comment: nothing of the abandoned attempt survives the clear. */
  method RestartWithoutComment(b: ReportBuilder, d: ReportData) returns (r: Result<ReportData>)
    modifies b
    ensures r == Ok(d.(comment := None))
  {
    b.ClearTempReport();
    b.SetLessonDate1(d.lessonDate);
    b.SetTopicId(d.topicId);
    b.SetStudentId3(d.studentId);
    b.SetLessonCount4(d.lessonCount);
    b.SetHomeworkStatus5(d.homeworkStatus);
    b.SetIsProactive6(d.isProactive);
    b.SetIsPaid7(d.isPaid);
    assert b.tempReport == Fill(d.(comment := None));
    r := b.CompleteReport();
  }

  /** Without the clear, a skipped comment step keeps the comment of the
      abandoned attempt. */
  lemma SkippedCommentSurvives(abandoned: TempReport, d: ReportData)
    ensures var t := abandoned.(lessonDate := Some(d.lessonDate), topicId := Some(d.topicId),
                                studentId := Some(d.studentId), lessonCount := Some(d.lessonCount),
                                homeworkStatus := Some(d.homeworkStatus),
                                isProactive := Some(d.isProactive), isPaid := Some(d.isPaid));
            Preview(t) == Ok(d.(comment := abandoned.comment))
  {
  }
}
