/** The report routes (server/routes/reports.js) over the report collection: list, get,
    create, update, delete, the spreadsheet export and search. */
module Reports {
  import opened Common
  import opened Text
  import opened Collections
  import opened ReportModel

  /** The list and export query parameters. A query string that is empty counts as absent
      (the handlers test each with `if (x)`); `week` is given already parsed. */
  datatype ReportFilter = ReportFilter(
    lecturer: Option<Id>,
    course: Option<string>,
    week: Option<int>,
    status: Option<string>)

  /** Every supplied filter holds of the report; absent filters do not constrain. Casting the
      filter runs the path's setters, so the course is compared trimmed and upper-cased. */
  predicate MatchesFilter(r: Report, f: ReportFilter) {
    && (f.lecturer.Some? ==> r.lecturer == f.lecturer.value)
    && (Given(f.course) ==> r.courseCode == TrimUpper(f.course.value))
    && (f.week.Some? ==> r.weekOfReporting == f.week.value)
    && (Given(f.status) ==> r.status == f.status.value)
  }

  /** `GET /reports?course=%20cs101` finds a report filed under `CS101`: the query value goes
      through the same setters as the stored code. */
  lemma CourseQueryIsNormalized(r: Report)
    requires r.courseCode == "CS101"
    ensures MatchesFilter(r, ReportFilter(None, Some(" cs101"), None, None))
  {
    TrimExample();
    UpperExample();
  }

  lemma TrimExample()
    ensures Trim(" cs101") == "cs101"
  {
    var q, t := " cs101", "cs101";
    assert q[1..] == t;
    assert !IsSpace(t[0]) && !IsSpace(t[|t| - 1]);
    assert TrimStart(q) == t;
  }

  lemma UpperExample()
    ensures ToUpper("cs101") == "CS101"
  {
    var u := ToUpper("cs101");
    assert u[0] == 'C' && u[1] == 'S';
  }

  /** The search's disjunction: `q` occurs, ignoring case, in one of the seven searched fields. */
  predicate MatchesSearch(r: Report, q: string) {
    || ContainsIgnoringCase(r.facultyName, q)
    || ContainsIgnoringCase(r.className, q)
    || ContainsIgnoringCase(r.courseName, q)
    || ContainsIgnoringCase(r.courseCode, q)
    || ContainsIgnoringCase(r.lecturerName, q)
    || ContainsIgnoringCase(r.topicTaught, q)
    || ContainsIgnoringCase(r.venue, q)
  }

  /** Sort keys: `{createdAt: -1}` and `{dateOfLecture: 1}`. */
  function NewestFirst(r: Report): int { -r.createdAt }
  function ByLectureDate(r: Report): int { r.dateOfLecture }

  /** The ownership check shared by update and delete: only a lecturer is checked, and only
      against the report's `lecturer`. */
  predicate MayModify(me: Principal, r: Report) {
    !(me.role == Lecturer && r.lecturer != me.id)
  }

  /** The roles `authorize` admits to report creation. */
  predicate MayCreate(me: Principal) {
    me.role == Lecturer || me.role == PrincipalLecturer
  }

  /** `{...req.body, lecturer: req.user._id, lecturerName: `${firstName} ${lastName}`}` */
  function OwnedBody(b: ReportBody, me: Principal): (o: ReportBody)
    ensures o.lecturer == Some(me.id) && o.lecturerName == Some(FullName(me.firstName, me.lastName))
    ensures o.(lecturer := b.lecturer, lecturerName := b.lecturerName) == b
  {
    b.(lecturer := Some(me.id), lecturerName := Some(FullName(me.firstName, me.lastName)))
  }

  /** The report a create would save, before the save's validation. */
  function NewReport(b: ReportBody, me: Principal, now: Timestamp): Option<Report> {
    var n := Normalize(OwnedBody(b, me));
    if Complete(n) then Some(Build(n, now)) else None
  }

  /** The save of a create succeeds: every required path is given and every validator passes. */
  predicate CreateAccepted(b: ReportBody, me: Principal, now: Timestamp) {
    var d := NewReport(b, me, now);
    d.Some? && ValidReport(d.value)
  }

  // ---------------------------------------------------------------- export layout

  /** The spreadsheet's columns, in order. */
  const ExportColumns: seq<Field> := [
    FacultyName, ClassName, WeekOfReporting, DateOfLecture, CourseName, CourseCode, LecturerName,
    ActualStudentsPresent, TotalRegisteredStudents, AttendanceRate, Venue, ScheduledLectureTime,
    TopicTaught, LearningOutcomes, LecturerRecommendations, PrincipalLecturerFeedback,
    ProgramLeaderFeedback, Status]

  /** Their header texts. */
  const ExportHeaders: seq<string> := [
    "Faculty Name", "Class Name", "Week", "Date", "Course Name", "Course Code", "Lecturer",
    "Students Present", "Total Students", "Attendance Rate", "Venue", "Time", "Topic",
    "Learning Outcomes", "Recommendations", "PRL Feedback", "PL Feedback", "Status"]

  /** One cell: the field's value, except that the learning outcomes become one text joined by "; ". */
  function Cell(r: Report, f: Field): Value {
    if f == LearningOutcomes then Str(Join(r.learningOutcomes, OutcomeSeparator)) else Get(r, f)
  }

  /** One spreadsheet row per report, a cell per column in the fixed order. */
  function ExportRow(r: Report): seq<Value> {
    seq(|ExportColumns|, i requires 0 <= i < |ExportColumns| => Cell(r, ExportColumns[i]))
  }

  function HeaderRow(): seq<Value> {
    seq(|ExportHeaders|, i requires 0 <= i < |ExportHeaders| => Str(ExportHeaders[i]))
  }

  /** Every row has the header's width, one cell per column: the report's own values, the
      outcomes joined, the feedback and status as stored. */
  lemma ExportRowShape(r: Report)
    ensures |ExportRow(r)| == |HeaderRow()| == |ExportColumns| == 18
    ensures forall i :: 0 <= i < 18 && i != 13 ==> ExportRow(r)[i] == Get(r, ExportColumns[i])
    ensures ExportRow(r)[9] == Percent(r.attendanceRate) && ExportRow(r)[17] == Str(r.status)
    ensures HeaderRow()[9] == Str("Attendance Rate") && HeaderRow()[13] == Str("Learning Outcomes")
  {
  }

  /** The learning-outcomes cell is the outcomes joined by "; ", and splitting it gives them back. */
  lemma ExportedOutcomes(r: Report)
    requires r.learningOutcomes != []
    requires forall i :: 0 <= i < |r.learningOutcomes| ==> FreeOfSeparator(r.learningOutcomes[i])
    ensures ExportRow(r)[13] == Str(Join(r.learningOutcomes, OutcomeSeparator))
    ensures Split(ExportRow(r)[13].s) == r.learningOutcomes
  {
    SplitJoin(r.learningOutcomes);
  }

  function RowsOf(selected: seq<(Id, Report)>): (rows: seq<seq<Value>>)
    ensures |rows| == |selected|
    ensures forall i :: 0 <= i < |selected| ==> rows[i] == ExportRow(selected[i].1)
  {
    seq(|selected|, i requires 0 <= i < |selected| => ExportRow(selected[i].1))
  }

  /** The worksheet's body: one row per report, in the order given. */
  method ExportRows(selected: seq<(Id, Report)>) returns (rows: seq<seq<Value>>)
    ensures |rows| == |selected|
    ensures rows == RowsOf(selected)
  {
    rows := [];
    var i := 0;
    while i < |selected|
      invariant 0 <= i <= |selected|
      invariant |rows| == i
      invariant forall k :: 0 <= k < i ==> rows[k] == ExportRow(selected[k].1)
    {
      rows := rows + [ExportRow(selected[i].1)];
      i := i + 1;
    }
  }

  // ---------------------------------------------------------------- the update's edits

  /** The edits the update handler makes before saving: the requester's role line
      (`principalLecturerFeedback = req.body.x || report.x` for a principal lecturer, the
      programme-leader feedback for a programme leader), then `Object.assign(report, req.body)`.
      The role line never matters: the result is the plain merge of the body over the report. */
  function Revise(r: Report, me: Principal, body: ReportBody): (m: Report)
    ensures m == Merge(r, Normalize(body))
  {
    var given := Normalize(body);
    var edited :=
      if me.role == PrincipalLecturer then
        r.(principalLecturerFeedback := FeedbackOr(body.principalLecturerFeedback, r.principalLecturerFeedback))
      else if me.role == ProgramLeader then
        r.(programLeaderFeedback := FeedbackOr(body.programLeaderFeedback, r.programLeaderFeedback))
      else r;
    FeedbackLinesSubsumed(r, given, edited.principalLecturerFeedback, edited.programLeaderFeedback);
    Merge(edited, given)
  }

  // ---------------------------------------------------------------- the store invariant

  /** Every stored report passed validation, is normalised by the setters and carries the rate
      derived from its counts; every id lies below the next one to be handed out. */
  predicate AllStored(reports: map<Id, Report>, nextId: Id) {
    forall id :: id in reports ==> id < nextId && Stored(reports[id])
  }

  /** Storing a report the store may hold under the next id, and moving the counter past it. */
  lemma AddKeepsStored(reports: map<Id, Report>, nextId: Id, r: Report)
    requires AllStored(reports, nextId) && Stored(r)
    ensures nextId !in reports
    ensures AllStored(reports[nextId := r], nextId + 1)
  {
  }

  /** Replacing a stored report by one the store may hold. */
  lemma PutKeepsStored(reports: map<Id, Report>, nextId: Id, id: Id, r: Report)
    requires AllStored(reports, nextId) && id in reports && Stored(r)
    ensures AllStored(reports[id := r], nextId)
  {
  }

  /** Removing a report. */
  lemma RemoveKeepsStored(reports: map<Id, Report>, nextId: Id, id: Id)
    requires AllStored(reports, nextId)
    ensures AllStored(reports - {id}, nextId)
  {
  }

  /** A report that passed the save's validation after an update is one the store may hold. */
  lemma RevisedIsStored(r: Report, me: Principal, body: ReportBody, now: Timestamp)
    requires Stored(r) && ValidReport(Revise(r, me, body))
    ensures Stored(PreSave(Revise(r, me, body), now))
  {
    MergeKeepsNormalized(r, Normalize(body));
    PreSaveIsStored(Revise(r, me, body), now);
  }

  /** A report that passed the save's validation after a create is one the store may hold. */
  lemma CreatedIsStored(b: ReportBody, me: Principal, now: Timestamp)
    requires CreateAccepted(b, me, now)
    ensures Stored(PreSave(NewReport(b, me, now).value, now))
  {
    var n := Normalize(OwnedBody(b, me));
    BuildIsNormalized(n, now);
    PreSaveIsStored(Build(n, now), now);
  }

  // ---------------------------------------------------------------- the store

  class ReportStore {
    /** The report collection, by id. */
    var reports: map<Id, Report>
    /** The id the next created report receives. */
    var nextId: Id

    ghost predicate Valid()
      reads this
    {
      AllStored(reports, nextId)
    }

    constructor ()
      ensures Valid() && reports == map[]
    {
      reports := map[];
      nextId := 0;
    }

    /** `GET /reports/:id` */
    function Get(id: Id): (r: Result<Report>)
      reads this
      ensures r.Ok? <==> id in reports
      ensures r.Ok? ==> r.value == reports[id]
      ensures r.Err? ==> r.error == NotFound
    {
      if id in reports then Ok(reports[id]) else Err(NotFound)
    }

    /** `GET /reports`: exactly the reports matching every supplied filter, each once, newest first. */
    function List(f: ReportFilter): (rs: seq<(Id, Report)>)
      reads this
      ensures forall e :: e in rs <==> e.0 in reports && reports[e.0] == e.1 && MatchesFilter(e.1, f)
      ensures Distinct(rs)
      ensures forall i, j :: 0 <= i < j < |rs| ==> rs[i].1.createdAt >= rs[j].1.createdAt
    {
      Query(reports, (r: Report) => MatchesFilter(r, f), NewestFirst)
    }

    /** The export's selection: the same filters, ordered by lecture date, oldest first. */
    function ExportSelection(f: ReportFilter): (rs: seq<(Id, Report)>)
      reads this
      ensures forall e :: e in rs <==> e.0 in reports && reports[e.0] == e.1 && MatchesFilter(e.1, f)
      ensures Distinct(rs)
      ensures forall i, j :: 0 <= i < j < |rs| ==> rs[i].1.dateOfLecture <= rs[j].1.dateOfLecture
    {
      Query(reports, (r: Report) => MatchesFilter(r, f), ByLectureDate)
    }

    /** `GET /reports/search`: a missing or blank `q` is a 400; otherwise exactly the reports in
        which `q` occurs in one of the seven searched fields, newest first. */
    function Search(q: Option<string>): (res: Result<seq<(Id, Report)>>)
      reads this
      ensures res.Err? <==> q.None? || IsBlank(q.value)
      ensures res.Err? ==> res.error == BadRequest("Search query is required")
      ensures res.Ok? ==> forall e :: e in res.value <==>
                e.0 in reports && reports[e.0] == e.1 && MatchesSearch(e.1, q.value)
      ensures res.Ok? ==> Distinct(res.value)
      ensures res.Ok? ==> forall i, j :: 0 <= i < j < |res.value| ==>
                res.value[i].1.createdAt >= res.value[j].1.createdAt
    {
      if q.None? || Trim(q.value) == "" then Err(BadRequest("Search query is required"))
      else Ok(Query(reports, (r: Report) => MatchesSearch(r, q.value), NewestFirst))
    }

    /** `GET /reports/export/excel`: a header row, then one row per selected report, in order. */
    method Export(f: ReportFilter) returns (sheet: seq<seq<Value>>)
      ensures |sheet| == |ExportSelection(f)| + 1
      ensures sheet[0] == HeaderRow()
      ensures sheet[1..] == RowsOf(ExportSelection(f))
    {
      var rows := ExportRows(ExportSelection(f));
      sheet := [HeaderRow()] + rows;
      assert sheet[1..] == rows;
    }

    /** `POST /reports`: only a lecturer or principal lecturer may create; the owner fields are
        forced to the requester whatever the body says; a report the schema rejects is a 500 and
        nothing is stored; otherwise the saved report, with its derived rate, is stored under a new id. */
    method Create(me: Principal, body: ReportBody, now: Timestamp) returns (res: Result<(Id, Report)>)
      requires Valid()
      modifies this
      ensures Valid()
      ensures !MayCreate(me) ==> res == Err(Forbidden)
      ensures MayCreate(me) && !CreateAccepted(body, me, now) ==> res == Err(ServerError)
      ensures res.Ok? <==> MayCreate(me) && CreateAccepted(body, me, now)
      ensures res.Err? ==> reports == old(reports) && nextId == old(nextId)
      ensures res.Ok? ==>
                && res.value.0 !in old(reports)
                && res.value.1 == PreSave(NewReport(body, me, now).value, now)
                && reports == old(reports)[res.value.0 := res.value.1]
    {
      if !MayCreate(me) {
        return Err(Forbidden);
      }
      if !CreateAccepted(body, me, now) {
        return Err(ServerError);
      }
      CreatedIsStored(body, me, now);
      var report := PreSave(NewReport(body, me, now).value, now);
      var id := Add(report);
      res := Ok((id, report));
    }

    /** Stores a report the store may hold under the next id. */
    method Add(r: Report) returns (id: Id)
      requires Valid() && Stored(r)
      modifies this
      ensures Valid()
      ensures id !in old(reports) && reports == old(reports)[id := r] && nextId == old(nextId) + 1
    {
      AddKeepsStored(reports, nextId, r);
      id := nextId;
      reports := reports[id := r];
      nextId := nextId + 1;
    }

    /** `PUT /reports/:id`: an unknown id is a 404 and a lecturer who does not own the report
        gets a 403, both changing nothing; otherwise the body is merged over the report (body
        fields win, absent fields keep their value), the merged report is validated (a 500 and
        no change when it fails) and saved, which re-derives the rate and stamps `updatedAt`. */
    method Update(me: Principal, id: Id, body: ReportBody, now: Timestamp) returns (res: Result<Report>)
      requires Valid()
      modifies this
      ensures Valid() && nextId == old(nextId)
      ensures id !in old(reports) ==> res == Err(NotFound)
      ensures id in old(reports) && !MayModify(me, old(reports)[id]) ==> res == Err(Forbidden)
      ensures id in old(reports) && MayModify(me, old(reports)[id]) ==>
                var merged := Merge(old(reports)[id], Normalize(body));
                if ValidReport(merged)
                then res == Ok(PreSave(merged, now)) && reports == old(reports)[id := PreSave(merged, now)]
                else res == Err(ServerError)
      ensures res.Err? ==> reports == old(reports)
    {
      if id !in reports {
        return Err(NotFound);
      }
      var report := reports[id];
      if me.role == Lecturer && report.lecturer != me.id {
        return Err(Forbidden);
      }
      var revised := Revise(report, me, body);
      if !ValidReport(revised) {
        return Err(ServerError);
      }
      RevisedIsStored(report, me, body, now);
      var saved := PreSave(revised, now);
      PutKeepsStored(reports, nextId, id, saved);
      reports := reports[id := saved];
      res := Ok(saved);
    }

    /** `DELETE /reports/:id`: an unknown id is a 404 and a lecturer who does not own the report
        gets a 403, both changing nothing; otherwise exactly that report is removed. */
    method Delete(me: Principal, id: Id) returns (res: Result<()>)
      requires Valid()
      modifies this
      ensures Valid() && nextId == old(nextId)
      ensures id !in old(reports) ==> res == Err(NotFound)
      ensures id in old(reports) && !MayModify(me, old(reports)[id]) ==> res == Err(Forbidden)
      ensures res.Ok? <==> id in old(reports) && MayModify(me, old(reports)[id])
      ensures res.Ok? ==> reports == old(reports) - {id}
      ensures res.Err? ==> reports == old(reports)
    {
      if id !in reports {
        return Err(NotFound);
      }
      if me.role == Lecturer && reports[id].lecturer != me.id {
        return Err(Forbidden);
      }
      RemoveKeepsStored(reports, nextId, id);
      reports := reports - {id};
      res := Ok(());
    }
  }

  // ---------------------------------------------------------------- properties

  /** A created report belongs to its creator: `lecturer` is the requester's id and `lecturerName`
      the requester's full name (trimmed), whatever the body said; it starts as a draft unless
      the body says otherwise, and its creation and update times are the request's time unless
      the body gives a creation time. */
  lemma CreateForcesOwner(b: ReportBody, me: Principal, now: Timestamp)
    requires CreateAccepted(b, me, now)
    ensures var r := PreSave(NewReport(b, me, now).value, now);
      && r.lecturer == me.id
      && r.lecturerName == Trim(FullName(me.firstName, me.lastName))
      && (b.status.None? ==> r.status == DefaultStatus)
      && r.createdAt == OrElse(b.createdAt, now) && r.updatedAt == now
  {
    var n := Normalize(OwnedBody(b, me));
    assert n.lecturer == Some(me.id);
    assert n.lecturerName == Some(Trim(FullName(me.firstName, me.lastName)));
  }

  /** The ownership check lets every role but lecturer through, and a lecturer only on
      reports whose `lecturer` is that lecturer. */
  lemma OnlyLecturersAreChecked(me: Principal, r: Report)
    ensures me.role != Lecturer ==> MayModify(me, r)
    ensures me.role == Lecturer ==> (MayModify(me, r) <==> r.lecturer == me.id)
  {
  }

  /** A permitted update may rewrite `status` to any of its values, in any order: nothing
      forces draft, submitted, reviewed, approved to be taken in sequence. */
  lemma StatusIsFreelyOverwritten(r: Report, target: string)
    requires Stored(r) && target in Statuses
    ensures var b := ReportBody(None, None, None, None, None, None, None, None, None, None,
                                None, None, None, None, None, None, None, Some(target), None);
      && ValidReport(Merge(r, Normalize(b)))
      && Merge(r, Normalize(b)).status == target
  {
    var b := ReportBody(None, None, None, None, None, None, None, None, None, None,
                        None, None, None, None, None, None, None, Some(target), None);
    assert Normalize(b) == b;
    assert Merge(r, b) == Assign(r, b) == r.(status := target);
  }

  /** A principal lecturer's update that gives only feedback changes only that feedback (and the
      save's derived fields): `status` in particular stays as it was. */
  lemma FeedbackOnlyUpdate(r: Report, text: string)
    ensures var b := ReportBody(None, None, None, None, None, None, None, None, None, None,
                                None, None, None, None, None, Some(text), None, None, None);
      Merge(r, Normalize(b)) == r.(principalLecturerFeedback := Some(Trim(text)))
  {
    var b := ReportBody(None, None, None, None, None, None, None, None, None, None,
                        None, None, None, None, None, Some(text), None, None, None);
    var n := Normalize(b);
    assert n == b.(principalLecturerFeedback := Some(Trim(text)));
    assert Merge(r, n) == Assign(r, n);
  }
}
