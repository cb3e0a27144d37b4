/**
 * The three storages (`StudentStorage`, `TopicStorage`, `ReportStorage`) as
 * in-memory tables. The database assigns fresh keys on insert; here each
 * store hands out `nextId` and counts up. Listing queries return the rows in
 * the store's own fixed order.
 */
module Stores {
  import opened Common
  import opened Models
  import opened Tables

  function StudentKey(s: Student): int { s.studentId }
  function TopicKey(t: Topic): int { t.topicId }
  function ReportKey(r: Report): int { r.reportId }

  /** Every key is below the next key to hand out, and no key repeats. */
  ghost predicate KeysBelow<T>(rows: seq<T>, key: T -> int, nextId: int) {
    && UniqueKeys(rows, key)
    && forall i :: 0 <= i < |rows| ==> key(rows[i]) < nextId
  }

  /** Appending a row with a fresh key keeps keys unique and makes the new
      row the one found under its key. */
  lemma AppendFresh<T>(rows: seq<T>, key: T -> int, nextId: int, x: T)
    requires KeysBelow(rows, key, nextId) && key(x) == nextId
    ensures KeysBelow(rows + [x], key, nextId + 1)
    ensures Find(rows + [x], key, nextId) == Some(x)
    ensures forall id :: id != nextId ==> Find(rows + [x], key, id) == Find(rows, key, id)
  {
    var r := rows + [x];
    assert r[|rows|] == x;
    FindUnique(r, key, |rows|);
    forall id | id != nextId ensures Find(r, key, id) == Find(rows, key, id) {
      FindAppended(rows, key, id, x);
    }
  }

  lemma {:induction false} FindAppended<T>(rows: seq<T>, key: T -> int, id: int, x: T)
    requires key(x) != id
    ensures Find(rows + [x], key, id) == Find(rows, key, id)
  {
    if rows == [] {
      assert Find([x], key, id) == Find([x][1..], key, id);
    } else {
      assert (rows + [x])[1..] == rows[1..] + [x];
      FindAppended(rows[1..], key, id, x);
    }
  }

  /** Removing the row with key `id` leaves every other lookup as it was. */
  lemma {:induction false} FindRemoved<T>(rows: seq<T>, key: T -> int, id: int, other: int)
    requires other != id
    ensures Find(RemoveKey(rows, key, id), key, other) == Find(rows, key, other)
  {
    if rows != [] {
      var tail := RemoveKey(rows[1..], key, id);
      FindRemoved(rows[1..], key, id, other);
      if key(rows[0]) == id {
        assert RemoveKey(rows, key, id) == tail;
        assert Find(rows, key, other) == Find(rows[1..], key, other);
      } else {
        var r := [rows[0]] + tail;
        assert RemoveKey(rows, key, id) == r;
        assert r[0] == rows[0] && r[1..] == tail;
        if key(rows[0]) != other {
          assert Find(r, key, other) == Find(tail, key, other);
          assert Find(rows, key, other) == Find(rows[1..], key, other);
        }
      }
    }
  }

  class StudentStorage {
    var rows: seq<Student>
    var nextId: int

    ghost predicate Valid()
      reads this
    {
      KeysBelow(rows, StudentKey, nextId)
    }

    constructor ()
      ensures Valid() && rows == []
    {
      rows := [];
      nextId := 1;
    }

    /** `get_student_by_id`: the row with that key, if any. */
    function GetStudentById(studentId: int): (r: Option<Student>)
      reads this
      ensures r.Some? <==> HasKey(rows, StudentKey, studentId)
      ensures r.Some? ==> r.value in rows && r.value.studentId == studentId
    {
      Find(rows, StudentKey, studentId)
    }

    /** `get_parent_id`: the student's parent id; None for an unknown student. */
    function GetParentId(studentId: int): (p: Option<int>)
      reads this
      ensures GetStudentById(studentId).None? ==> p == None
      ensures GetStudentById(studentId).Some? ==> p == GetStudentById(studentId).value.parentId
      ensures p.Some? ==> exists i :: 0 <= i < |rows| && rows[i].studentId == studentId && rows[i].parentId == p
    {
      match GetStudentById(studentId)
      case None => None
      case Some(s) => s.parentId
    }

    /** `list_students`: every row, in the store's order. */
    function ListStudents(): seq<Student>
      reads this
    {
      rows
    }

    /** `add_student`: inserts a student under a fresh key with no parent id. */
    method AddStudent(name: string) returns (studentId: int)
      requires Valid()
      modifies this
      ensures Valid()
      ensures studentId == old(nextId) && !old(HasKey(rows, StudentKey, studentId))
      ensures rows == old(rows) + [Student(studentId, name, None)]
      ensures GetStudentById(studentId) == Some(Student(studentId, name, None))
      ensures forall id :: id != studentId ==> GetStudentById(id) == old(GetStudentById(id))
    {
      studentId := nextId;
      AppendFresh(rows, StudentKey, nextId, Student(studentId, name, None));
      rows := rows + [Student(studentId, name, None)];
      nextId := nextId + 1;
    }

    /** `add_parent_id_to_student`: sets the parent id of that student; no
        change when the student does not exist. */
    method AddParentIdToStudent(studentId: int, parentId: int)
      requires Valid()
      modifies this
      ensures Valid() && nextId == old(nextId) && |rows| == |old(rows)|
      ensures forall i :: 0 <= i < |rows| ==>
                rows[i] == if old(rows[i]).studentId == studentId
                           then old(rows[i]).(parentId := Some(parentId)) else old(rows[i])
      ensures !old(HasKey(rows, StudentKey, studentId)) ==> rows == old(rows)
    {
      rows := seq(|rows|, i requires 0 <= i < |rows| reads this =>
                if rows[i].studentId == studentId then rows[i].(parentId := Some(parentId)) else rows[i]);
    }

    /** `update_student_name`: stores the name as given; no change when the
        student does not exist. */
    method UpdateStudentName(studentId: int, name: string)
      requires Valid()
      modifies this
      ensures Valid() && nextId == old(nextId) && |rows| == |old(rows)|
      ensures forall i :: 0 <= i < |rows| ==>
                rows[i] == if old(rows[i]).studentId == studentId
                           then old(rows[i]).(name := name) else old(rows[i])
      ensures !old(HasKey(rows, StudentKey, studentId)) ==> rows == old(rows)
    {
      rows := seq(|rows|, i requires 0 <= i < |rows| reads this =>
                if rows[i].studentId == studentId then rows[i].(name := name) else rows[i]);
    }

    /** `delete_student`: removes the student and tells whether it existed. */
    method DeleteStudent(studentId: int) returns (deleted: bool)
      requires Valid()
      modifies this
      ensures Valid() && nextId == old(nextId)
      ensures deleted == old(GetStudentById(studentId)).Some?
      ensures rows == RemoveKey(old(rows), StudentKey, studentId)
      ensures GetStudentById(studentId) == None
      ensures forall id :: id != studentId ==> GetStudentById(id) == old(GetStudentById(id))
    {
      deleted := GetStudentById(studentId).Some?;
      RemoveKeyUnique(rows, StudentKey, studentId);
      forall id | id != studentId
        ensures Find(RemoveKey(rows, StudentKey, studentId), StudentKey, id) == Find(rows, StudentKey, id)
      {
        FindRemoved(rows, StudentKey, studentId, id);
      }
      rows := RemoveKey(rows, StudentKey, studentId);
    }
  }

  class TopicStorage {
    var rows: seq<Topic>
    var nextId: int

    ghost predicate Valid()
      reads this
    {
      KeysBelow(rows, TopicKey, nextId)
    }

    constructor ()
      ensures Valid() && rows == []
    {
      rows := [];
      nextId := 1;
    }

    /** `get_topic_by_id`: the row with that key, if any. */
    function GetTopicById(topicId: int): (r: Option<Topic>)
      reads this
      ensures r.Some? <==> HasKey(rows, TopicKey, topicId)
      ensures r.Some? ==> r.value in rows && r.value.topicId == topicId
    {
      Find(rows, TopicKey, topicId)
    }

    /** `list_topics`: every row, in the store's order. */
    function ListTopics(): seq<Topic>
      reads this
    {
      rows
    }

    /** `add_topic`: inserts a topic under a fresh key. */
    method AddTopic(topic: string) returns (topicId: int)
      requires Valid()
      modifies this
      ensures Valid()
      ensures topicId == old(nextId) && !old(HasKey(rows, TopicKey, topicId))
      ensures rows == old(rows) + [Topic(topicId, topic)]
      ensures GetTopicById(topicId) == Some(Topic(topicId, topic))
      ensures forall id :: id != topicId ==> GetTopicById(id) == old(GetTopicById(id))
    {
      topicId := nextId;
      AppendFresh(rows, TopicKey, nextId, Topic(topicId, topic));
      rows := rows + [Topic(topicId, topic)];
      nextId := nextId + 1;
    }

    /** `delete_topic`: removes the topic and tells whether it existed. */
    method DeleteTopic(topicId: int) returns (deleted: bool)
      requires Valid()
      modifies this
      ensures Valid() && nextId == old(nextId)
      ensures deleted == old(GetTopicById(topicId)).Some?
      ensures rows == RemoveKey(old(rows), TopicKey, topicId)
      ensures GetTopicById(topicId) == None
      ensures forall id :: id != topicId ==> GetTopicById(id) == old(GetTopicById(id))
    {
      deleted := GetTopicById(topicId).Some?;
      RemoveKeyUnique(rows, TopicKey, topicId);
      forall id | id != topicId
        ensures Find(RemoveKey(rows, TopicKey, topicId), TopicKey, id) == Find(rows, TopicKey, id)
      {
        FindRemoved(rows, TopicKey, topicId, id);
      }
      rows := RemoveKey(rows, TopicKey, topicId);
    }
  }

  /** The rows of one student (a `where` on the student id). */
  function OfStudent(rows: seq<Report>, studentId: int): (r: seq<Report>)
    ensures forall i :: 0 <= i < |r| ==> r[i] in rows && r[i].studentId == studentId
    ensures forall i :: 0 <= i < |rows| && rows[i].studentId == studentId ==> rows[i] in r
  {
    Filter(rows, (x: Report) => x.studentId == studentId)
  }

  /** The rows not yet sent (`where(Report.is_sent == False)`). */
  function Unsent(rows: seq<Report>): (r: seq<Report>)
    ensures forall i :: 0 <= i < |r| ==> r[i] in rows && !r[i].isSent
    ensures forall i :: 0 <= i < |rows| && !rows[i].isSent ==> rows[i] in r
  {
    Filter(rows, (x: Report) => !x.isSent)
  }

  class ReportStorage {
    var rows: seq<Report>
    var nextId: int

    ghost predicate Valid()
      reads this
    {
      KeysBelow(rows, ReportKey, nextId)
    }

    constructor ()
      ensures Valid() && rows == []
    {
      rows := [];
      nextId := 1;
    }

    /** `add_report`: inserts the report under a fresh key. */
    method AddReport(data: ReportData, isSent: bool)
      requires Valid()
      modifies this
      ensures Valid()
      ensures rows == old(rows) + [FromData(old(nextId), data, isSent)]
      ensures GetReportById(old(nextId)) == Some(FromData(old(nextId), data, isSent))
    {
      AppendFresh(rows, ReportKey, nextId, FromData(nextId, data, isSent));
      rows := rows + [FromData(nextId, data, isSent)];
      nextId := nextId + 1;
    }

    /** `list_reports`: every row, in the store's order. */
    function ListReports(): seq<Report>
      reads this
    {
      rows
    }

    /** `list_reports_by_student_id`: that student's rows, in the store's order. */
    function ListReportsByStudentId(studentId: int): seq<Report>
      reads this
    {
      OfStudent(rows, studentId)
    }

    /** `get_report_by_id`: the row with that key, if any. */
    function GetReportById(reportId: int): (r: Option<Report>)
      reads this
      ensures r.Some? <==> HasKey(rows, ReportKey, reportId)
      ensures r.Some? ==> r.value in rows && r.value.reportId == reportId
    {
      Find(rows, ReportKey, reportId)
    }

    /** `lessons_count_by_student_id`: how many reports the student has. */
    function LessonsCountByStudentId(studentId: int): (n: nat)
      reads this
      ensures n <= |rows|
      ensures n == |ListReportsByStudentId(studentId)|
    {
      |OfStudent(rows, studentId)|
    }

    /** `get_saved_reports`: exactly the reports not yet sent, in store order. */
    function GetSavedReports(): (r: seq<Report>)
      reads this
      ensures forall i :: 0 <= i < |r| ==> r[i] in rows && !r[i].isSent
      ensures forall i :: 0 <= i < |rows| && !rows[i].isSent ==> rows[i] in r
    {
      Unsent(rows)
    }

    /** `set_is_sent`: marks the report sent; an unknown key makes
        `session.get` return None and the attribute write raise. */
    method SetIsSent(reportId: int) returns (r: Result<Report>)
      requires Valid()
      modifies this
      ensures Valid() && nextId == old(nextId) && |rows| == |old(rows)|
      ensures !old(HasKey(rows, ReportKey, reportId)) ==> r == Err(AttributeError) && rows == old(rows)
      ensures old(HasKey(rows, ReportKey, reportId)) ==>
                r == Ok(old(GetReportById(reportId)).value.(isSent := true))
      ensures forall i :: 0 <= i < |rows| ==>
                rows[i] == if old(rows[i]).reportId == reportId
                           then old(rows[i]).(isSent := true) else old(rows[i])
    {
      var found := GetReportById(reportId);
      if found.None? {
        return Err(AttributeError);
      }
      rows := seq(|rows|, i requires 0 <= i < |rows| reads this =>
                if rows[i].reportId == reportId then rows[i].(isSent := true) else rows[i]);
      r := Ok(found.value.(isSent := true));
    }
  }

  /** Adding a report for a student raises that student's lesson count by
      one and leaves every other student's count unchanged. */
  lemma AddReportCounts(rows: seq<Report>, x: Report, studentId: int)
    ensures |OfStudent(rows + [x], studentId)| ==
              |OfStudent(rows, studentId)| + (if x.studentId == studentId then 1 else 0)
  {
    FilterAppend(rows, [x], (y: Report) => y.studentId == studentId);
  }
}
