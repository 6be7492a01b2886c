/** The Report schema (server/models/Report.js): the stored lecture report, the fields a
    request body may carry, the schema's setters (`trim`, `uppercase`), its validators and
    defaults, and the pre-save hook that derives `attendanceRate` and `updatedAt`. */
module ReportModel {
  import opened Common
  import opened Text

  /** The values of the `status` enum. */
  const Statuses: seq<string> := ["draft", "submitted", "reviewed", "approved"]

  /** The value `status` takes when a new report does not give one. */
  const DefaultStatus: string := "draft"

  /** A stored report. `attendanceRate` is `None` where the source's division has no finite
      value (no registered students). */
  datatype Report = Report(
    facultyName: string,
    className: string,
    weekOfReporting: int,
    dateOfLecture: Timestamp,
    courseName: string,
    courseCode: string,
    lecturerName: string,
    lecturer: Id,
    actualStudentsPresent: int,
    totalRegisteredStudents: int,
    attendanceRate: Option<real>,
    venue: string,
    scheduledLectureTime: string,
    topicTaught: string,
    learningOutcomes: seq<string>,
    lecturerRecommendations: Option<string>,
    principalLecturerFeedback: Option<string>,
    programLeaderFeedback: Option<string>,
    status: string,
    createdAt: Timestamp,
    updatedAt: Timestamp)

  /** A request body: every report field a client may send, `None` when it is absent.
      (`attendanceRate` and `updatedAt` are left out: the save overwrites them.) */
  datatype ReportBody = ReportBody(
    facultyName: Option<string>,
    className: Option<string>,
    weekOfReporting: Option<int>,
    dateOfLecture: Option<Timestamp>,
    courseName: Option<string>,
    courseCode: Option<string>,
    lecturerName: Option<string>,
    lecturer: Option<Id>,
    actualStudentsPresent: Option<int>,
    totalRegisteredStudents: Option<int>,
    venue: Option<string>,
    scheduledLectureTime: Option<string>,
    topicTaught: Option<string>,
    learningOutcomes: Option<seq<string>>,
    lecturerRecommendations: Option<string>,
    principalLecturerFeedback: Option<string>,
    programLeaderFeedback: Option<string>,
    status: Option<string>,
    createdAt: Option<Timestamp>)

  /** The report's fields by name, for statements that hold of every field alike. */
  datatype Field =
    | FacultyName | ClassName | WeekOfReporting | DateOfLecture | CourseName | CourseCode
    | LecturerName | LecturerRef | ActualStudentsPresent | TotalRegisteredStudents | AttendanceRate
    | Venue | ScheduledLectureTime | TopicTaught | LearningOutcomes | LecturerRecommendations
    | PrincipalLecturerFeedback | ProgramLeaderFeedback | Status | CreatedAt | UpdatedAt

  /** The value of one field. */
  datatype Value =
    | Str(s: string) | Num(n: int) | Strs(ss: seq<string>) | OptStr(o: Option<string>)
    | Percent(rate: Option<real>) | Ref(id: Id)

  function Get(r: Report, f: Field): Value {
    match f
    case FacultyName => Str(r.facultyName)
    case ClassName => Str(r.className)
    case WeekOfReporting => Num(r.weekOfReporting)
    case DateOfLecture => Num(r.dateOfLecture)
    case CourseName => Str(r.courseName)
    case CourseCode => Str(r.courseCode)
    case LecturerName => Str(r.lecturerName)
    case LecturerRef => Ref(r.lecturer)
    case ActualStudentsPresent => Num(r.actualStudentsPresent)
    case TotalRegisteredStudents => Num(r.totalRegisteredStudents)
    case AttendanceRate => Percent(r.attendanceRate)
    case Venue => Str(r.venue)
    case ScheduledLectureTime => Str(r.scheduledLectureTime)
    case TopicTaught => Str(r.topicTaught)
    case LearningOutcomes => Strs(r.learningOutcomes)
    case LecturerRecommendations => OptStr(r.lecturerRecommendations)
    case PrincipalLecturerFeedback => OptStr(r.principalLecturerFeedback)
    case ProgramLeaderFeedback => OptStr(r.programLeaderFeedback)
    case Status => Str(r.status)
    case CreatedAt => Num(r.createdAt)
    case UpdatedAt => Num(r.updatedAt)
  }

  /** The value a body gives a field, if it gives one. */
  function BodyGet(b: ReportBody, f: Field): Option<Value> {
    match f
    case FacultyName => if b.facultyName.Some? then Some(Str(b.facultyName.value)) else None
    case ClassName => if b.className.Some? then Some(Str(b.className.value)) else None
    case WeekOfReporting => if b.weekOfReporting.Some? then Some(Num(b.weekOfReporting.value)) else None
    case DateOfLecture => if b.dateOfLecture.Some? then Some(Num(b.dateOfLecture.value)) else None
    case CourseName => if b.courseName.Some? then Some(Str(b.courseName.value)) else None
    case CourseCode => if b.courseCode.Some? then Some(Str(b.courseCode.value)) else None
    case LecturerName => if b.lecturerName.Some? then Some(Str(b.lecturerName.value)) else None
    case LecturerRef => if b.lecturer.Some? then Some(Ref(b.lecturer.value)) else None
    case ActualStudentsPresent =>
      if b.actualStudentsPresent.Some? then Some(Num(b.actualStudentsPresent.value)) else None
    case TotalRegisteredStudents =>
      if b.totalRegisteredStudents.Some? then Some(Num(b.totalRegisteredStudents.value)) else None
    case AttendanceRate => None
    case Venue => if b.venue.Some? then Some(Str(b.venue.value)) else None
    case ScheduledLectureTime =>
      if b.scheduledLectureTime.Some? then Some(Str(b.scheduledLectureTime.value)) else None
    case TopicTaught => if b.topicTaught.Some? then Some(Str(b.topicTaught.value)) else None
    case LearningOutcomes => if b.learningOutcomes.Some? then Some(Strs(b.learningOutcomes.value)) else None
    case LecturerRecommendations =>
      if b.lecturerRecommendations.Some? then Some(OptStr(b.lecturerRecommendations)) else None
    case PrincipalLecturerFeedback =>
      if b.principalLecturerFeedback.Some? then Some(OptStr(b.principalLecturerFeedback)) else None
    case ProgramLeaderFeedback =>
      if b.programLeaderFeedback.Some? then Some(OptStr(b.programLeaderFeedback)) else None
    case Status => if b.status.Some? then Some(Str(b.status.value)) else None
    case CreatedAt => if b.createdAt.Some? then Some(Num(b.createdAt.value)) else None
    case UpdatedAt => None
  }

  // ---------------------------------------------------------------- setters

  function TrimAll(xs: seq<string>): (r: seq<string>)
    ensures |r| == |xs| && forall i :: 0 <= i < |xs| ==> r[i] == Trim(xs[i])
  {
    seq(|xs|, i requires 0 <= i < |xs| => Trim(xs[i]))
  }

  /** Every string path with `trim: true` holds a trimmed value; `courseCode` is also upper case. */
  predicate Normalized(r: Report) {
    && IsTrimmed(r.facultyName) && IsTrimmed(r.className) && IsTrimmed(r.courseName)
    && IsTrimmed(r.courseCode) && IsUpper(r.courseCode)
    && IsTrimmed(r.lecturerName) && IsTrimmed(r.venue) && IsTrimmed(r.topicTaught)
    && (forall i :: 0 <= i < |r.learningOutcomes| ==> IsTrimmed(r.learningOutcomes[i]))
    && (r.lecturerRecommendations.Some? ==> IsTrimmed(r.lecturerRecommendations.value))
    && (r.principalLecturerFeedback.Some? ==> IsTrimmed(r.principalLecturerFeedback.value))
    && (r.programLeaderFeedback.Some? ==> IsTrimmed(r.programLeaderFeedback.value))
  }

  /** The same, for the fields a body carries. */
  predicate NormalizedBody(b: ReportBody) {
    && (b.facultyName.Some? ==> IsTrimmed(b.facultyName.value))
    && (b.className.Some? ==> IsTrimmed(b.className.value))
    && (b.courseName.Some? ==> IsTrimmed(b.courseName.value))
    && (b.courseCode.Some? ==> IsTrimmed(b.courseCode.value) && IsUpper(b.courseCode.value))
    && (b.lecturerName.Some? ==> IsTrimmed(b.lecturerName.value))
    && (b.venue.Some? ==> IsTrimmed(b.venue.value))
    && (b.topicTaught.Some? ==> IsTrimmed(b.topicTaught.value))
    && (b.learningOutcomes.Some? ==>
          forall i :: 0 <= i < |b.learningOutcomes.value| ==> IsTrimmed(b.learningOutcomes.value[i]))
    && (b.lecturerRecommendations.Some? ==> IsTrimmed(b.lecturerRecommendations.value))
    && (b.principalLecturerFeedback.Some? ==> IsTrimmed(b.principalLecturerFeedback.value))
    && (b.programLeaderFeedback.Some? ==> IsTrimmed(b.programLeaderFeedback.value))
  }

  /** The schema's setters applied to a body as its values are assigned to a document:
      `trim` on the string paths that declare it, `uppercase` on `courseCode`. */
  function Normalize(b: ReportBody): (n: ReportBody)
    ensures NormalizedBody(n)
    ensures Complete(n) <==> Complete(b)
    ensures n.facultyName == TrimOpt(b.facultyName) && n.className == TrimOpt(b.className)
    ensures n.courseName == TrimOpt(b.courseName) && n.lecturerName == TrimOpt(b.lecturerName)
    ensures n.venue == TrimOpt(b.venue) && n.topicTaught == TrimOpt(b.topicTaught)
    ensures n.courseCode.Some? <==> b.courseCode.Some?
    ensures b.courseCode.Some? ==> n.courseCode.value == TrimUpper(b.courseCode.value)
    ensures n.learningOutcomes.Some? <==> b.learningOutcomes.Some?
    ensures b.learningOutcomes.Some? ==> n.learningOutcomes.value == TrimAll(b.learningOutcomes.value)
    ensures n.lecturerRecommendations == TrimOpt(b.lecturerRecommendations)
    ensures n.principalLecturerFeedback == TrimOpt(b.principalLecturerFeedback)
    ensures n.programLeaderFeedback == TrimOpt(b.programLeaderFeedback)
    ensures n.(facultyName := b.facultyName, className := b.className, courseName := b.courseName,
               courseCode := b.courseCode, lecturerName := b.lecturerName, venue := b.venue,
               topicTaught := b.topicTaught, learningOutcomes := b.learningOutcomes,
               lecturerRecommendations := b.lecturerRecommendations,
               principalLecturerFeedback := b.principalLecturerFeedback,
               programLeaderFeedback := b.programLeaderFeedback) == b
  {
    b.(facultyName := TrimOpt(b.facultyName),
       className := TrimOpt(b.className),
       courseName := TrimOpt(b.courseName),
       courseCode := if b.courseCode.Some? then Some(TrimUpper(b.courseCode.value)) else None,
       lecturerName := TrimOpt(b.lecturerName),
       venue := TrimOpt(b.venue),
       topicTaught := TrimOpt(b.topicTaught),
       learningOutcomes := if b.learningOutcomes.Some? then Some(TrimAll(b.learningOutcomes.value)) else None,
       lecturerRecommendations := TrimOpt(b.lecturerRecommendations),
       principalLecturerFeedback := TrimOpt(b.principalLecturerFeedback),
       programLeaderFeedback := TrimOpt(b.programLeaderFeedback))
  }

  /** The setter a field declares, applied to a value: `trim` on the ten string paths that
      declare it (on each element of `learningOutcomes`), `trim` then `uppercase` on
      `courseCode`, and nothing on every other path. */
  function Setter(f: Field, v: Value): Value {
    match f
    case FacultyName | ClassName | CourseName | LecturerName | Venue | TopicTaught =>
      if v.Str? then Str(Trim(v.s)) else v
    case CourseCode => if v.Str? then Str(TrimUpper(v.s)) else v
    case LearningOutcomes => if v.Strs? then Strs(TrimAll(v.ss)) else v
    case LecturerRecommendations | PrincipalLecturerFeedback | ProgramLeaderFeedback =>
      if v.OptStr? then OptStr(TrimOpt(v.o)) else v
    case _ => v
  }

  /** Field by field, the setters give each path the body sends its declared setter applied to
      the value sent, leave every other path as sent, and never add or drop a path. */
  lemma NormalizeField(b: ReportBody, f: Field)
    ensures BodyGet(Normalize(b), f) == if BodyGet(b, f).Some? then Some(Setter(f, BodyGet(b, f).value)) else None
  {
    match f
    case FacultyName =>
    case ClassName =>
    case WeekOfReporting =>
    case DateOfLecture =>
    case CourseName =>
    case CourseCode =>
    case LecturerName =>
    case LecturerRef =>
    case ActualStudentsPresent =>
    case TotalRegisteredStudents =>
    case AttendanceRate =>
    case Venue =>
    case ScheduledLectureTime =>
    case TopicTaught =>
    case LearningOutcomes =>
    case LecturerRecommendations =>
    case PrincipalLecturerFeedback =>
    case ProgramLeaderFeedback =>
    case Status =>
    case CreatedAt =>
    case UpdatedAt =>
  }

  // ---------------------------------------------------------------- validators

  /** The schema's validators: the `required` string paths are non-empty (after their setters),
      `weekOfReporting` lies in [1, 52], both counts are non-negative, every learning outcome is
      non-empty and `status` is one of the enum's values. The 0..100 bound on `attendanceRate` is
      not part of it (see the README). */
  predicate ValidReport(r: Report) {
    && r.facultyName != "" && r.className != "" && r.courseName != "" && r.courseCode != ""
    && r.lecturerName != "" && r.venue != "" && r.scheduledLectureTime != "" && r.topicTaught != ""
    && 1 <= r.weekOfReporting <= 52
    && r.actualStudentsPresent >= 0 && r.totalRegisteredStudents >= 0
    && (forall i :: 0 <= i < |r.learningOutcomes| ==> r.learningOutcomes[i] != "")
    && r.status in Statuses
  }

  /** A body gives every path the schema marks `required` and has no default for. */
  predicate Complete(b: ReportBody) {
    && b.facultyName.Some? && b.className.Some? && b.weekOfReporting.Some? && b.dateOfLecture.Some?
    && b.courseName.Some? && b.courseCode.Some? && b.lecturerName.Some? && b.lecturer.Some?
    && b.actualStudentsPresent.Some? && b.totalRegisteredStudents.Some?
    && b.venue.Some? && b.scheduledLectureTime.Some? && b.topicTaught.Some?
  }

  // ---------------------------------------------------------------- derived fields

  /** `actualStudentsPresent / totalRegisteredStudents * 100`; no finite value when nobody is registered. */
  function Rate(present: int, total: int): (rate: Option<real>)
    ensures total == 0 <==> rate.None?
    ensures rate.Some? ==> rate.value * (total as real) == 100.0 * (present as real)
  {
    if total == 0 then None else Some((present as real) / (total as real) * 100.0)
  }

  /** The pre-save hook: every save re-derives `attendanceRate` and stamps `updatedAt`. */
  function PreSave(r: Report, now: Timestamp): (s: Report)
    ensures s.attendanceRate == Rate(s.actualStudentsPresent, s.totalRegisteredStudents)
    ensures s.updatedAt == now
  {
    r.(attendanceRate := Rate(r.actualStudentsPresent, r.totalRegisteredStudents), updatedAt := now)
  }

  /** The hook touches the two derived fields and no other. */
  lemma PreSaveKeepsFields(r: Report, now: Timestamp)
    ensures forall f :: f != AttendanceRate && f != UpdatedAt ==> Get(PreSave(r, now), f) == Get(r, f)
  {
  }

  /** What the store holds: a validated, normalised report whose rate is derived from its counts. */
  predicate Stored(r: Report) {
    ValidReport(r) && Normalized(r) && r.attendanceRate == Rate(r.actualStudentsPresent, r.totalRegisteredStudents)
  }

  // ---------------------------------------------------------------- construction and merge

  /** `new Report(body)`: the body's values, and the schema defaults for the paths it leaves out
      (`status` "draft", `learningOutcomes` empty, `createdAt` and `updatedAt` now). */
  function Build(b: ReportBody, now: Timestamp): (r: Report)
    requires Complete(b)
    ensures b.status.None? ==> r.status == DefaultStatus
    ensures b.learningOutcomes.None? ==> r.learningOutcomes == []
    ensures b.createdAt.None? ==> r.createdAt == now
    ensures b.lecturerRecommendations.None? ==> r.lecturerRecommendations.None?
    ensures b.principalLecturerFeedback.None? && b.programLeaderFeedback.None? ==>
              r.principalLecturerFeedback.None? && r.programLeaderFeedback.None?
  {
    Report(
      b.facultyName.value, b.className.value, b.weekOfReporting.value, b.dateOfLecture.value,
      b.courseName.value, b.courseCode.value, b.lecturerName.value, b.lecturer.value,
      b.actualStudentsPresent.value, b.totalRegisteredStudents.value, None,
      b.venue.value, b.scheduledLectureTime.value, b.topicTaught.value,
      OrElse(b.learningOutcomes, []), b.lecturerRecommendations, b.principalLecturerFeedback,
      b.programLeaderFeedback, OrElse(b.status, DefaultStatus), OrElse(b.createdAt, now), now)
  }

  /** Every field the body gives has the body's value in the new report. */
  lemma BuildTakesBody(b: ReportBody, now: Timestamp)
    requires Complete(b)
    ensures forall f :: BodyGet(b, f).Some? ==> Get(Build(b, now), f) == BodyGet(b, f).value
  {
  }

  /** `Object.assign(report, body)`: every field the body gives takes the body's value
      (including `status`, `lecturer` and empty feedback strings); every other field keeps its value. */
  function Merge(r: Report, b: ReportBody): (m: Report)
    ensures forall f :: Get(m, f) == if BodyGet(b, f).Some? then BodyGet(b, f).value else Get(r, f)
  {
    var m := Assign(r, b);
    AssignFieldwise(r, b);
    m
  }

  /** The field-by-field assignment `Merge` performs. */
  function Assign(r: Report, b: ReportBody): Report {
    Report(
      OrElse(b.facultyName, r.facultyName),
      OrElse(b.className, r.className),
      OrElse(b.weekOfReporting, r.weekOfReporting),
      OrElse(b.dateOfLecture, r.dateOfLecture),
      OrElse(b.courseName, r.courseName),
      OrElse(b.courseCode, r.courseCode),
      OrElse(b.lecturerName, r.lecturerName),
      OrElse(b.lecturer, r.lecturer),
      OrElse(b.actualStudentsPresent, r.actualStudentsPresent),
      OrElse(b.totalRegisteredStudents, r.totalRegisteredStudents),
      r.attendanceRate,
      OrElse(b.venue, r.venue),
      OrElse(b.scheduledLectureTime, r.scheduledLectureTime),
      OrElse(b.topicTaught, r.topicTaught),
      OrElse(b.learningOutcomes, r.learningOutcomes),
      if b.lecturerRecommendations.Some? then b.lecturerRecommendations else r.lecturerRecommendations,
      if b.principalLecturerFeedback.Some? then b.principalLecturerFeedback else r.principalLecturerFeedback,
      if b.programLeaderFeedback.Some? then b.programLeaderFeedback else r.programLeaderFeedback,
      OrElse(b.status, r.status),
      OrElse(b.createdAt, r.createdAt),
      r.updatedAt)
  }

  lemma AssignFieldwise(r: Report, b: ReportBody)
    ensures forall f :: Get(Assign(r, b), f) == if BodyGet(b, f).Some? then BodyGet(b, f).value else Get(r, f)
  {
    forall f ensures Get(Assign(r, b), f) == if BodyGet(b, f).Some? then BodyGet(b, f).value else Get(r, f) {
      AssignField(r, b, f);
    }
  }

  lemma AssignField(r: Report, b: ReportBody, f: Field)
    ensures Get(Assign(r, b), f) == if BodyGet(b, f).Some? then BodyGet(b, f).value else Get(r, f)
  {
    match f
    case FacultyName =>
    case ClassName =>
    case WeekOfReporting =>
    case DateOfLecture =>
    case CourseName =>
    case CourseCode =>
    case LecturerName =>
    case LecturerRef =>
    case ActualStudentsPresent =>
    case TotalRegisteredStudents =>
    case AttendanceRate =>
    case Venue =>
    case ScheduledLectureTime =>
    case TopicTaught =>
    case LearningOutcomes =>
    case LecturerRecommendations =>
    case PrincipalLecturerFeedback =>
    case ProgramLeaderFeedback =>
    case Status =>
    case CreatedAt =>
    case UpdatedAt =>
  }

  /** The `req.body.x || report.x` lines of the update handler, with the setter applied on assignment:
      a non-empty body value replaces the feedback, otherwise it is kept. */
  function FeedbackOr(given: Option<string>, current: Option<string>): (r: Option<string>)
    ensures given.Some? && given.value != "" ==> r == Some(Trim(given.value))
    ensures (given.None? || given.value == "") ==> r == current
  {
    if given.Some? && given.value != "" then Some(Trim(given.value)) else current
  }

  // ---------------------------------------------------------------- properties

  /** With at least one registered student and no more present than registered,
      the derived rate lies in the declared range [0, 100]. */
  lemma {:induction false} RateWithinBounds(present: int, total: int)
    requires 0 <= present <= total && total > 0
    ensures Rate(present, total).Some?
    ensures 0.0 <= Rate(present, total).value <= 100.0
  {
    var p, t := present as real, total as real;
    var q := p / t;
    assert q * t == p;
    assert 0.0 <= q <= 1.0;
  }

  /** The worked example: 20 present of 40 registered gives a rate of 50. */
  lemma RateExample()
    ensures Rate(20, 40) == Some(50.0)
  {
  }

  /** A merge over a stored report with a normalised body keeps the stored fields normalised. */
  lemma MergeKeepsNormalized(r: Report, b: ReportBody)
    requires Normalized(r) && NormalizedBody(b)
    ensures Normalized(Merge(r, b))
  {
  }

  /** A report built from a normalised body is normalised. */
  lemma BuildIsNormalized(b: ReportBody, now: Timestamp)
    requires Complete(b) && NormalizedBody(b)
    ensures Normalized(Build(b, now))
  {
  }

  /** A validated, normalised report that went through the pre-save hook is what the store holds. */
  lemma PreSaveIsStored(r: Report, now: Timestamp)
    requires ValidReport(r) && Normalized(r)
    ensures Stored(PreSave(r, now))
  {
  }

  /** The role-specific feedback lines that precede `Object.assign` are subsumed by it: whatever
      they wrote into either feedback field, the merge with the same body yields the same report. */
  lemma {:induction false} FeedbackLinesSubsumed(r: Report, b: ReportBody, pl: Option<string>, pg: Option<string>)
    requires b.principalLecturerFeedback.None? ==> pl == r.principalLecturerFeedback
    requires b.programLeaderFeedback.None? ==> pg == r.programLeaderFeedback
    ensures Merge(r.(principalLecturerFeedback := pl, programLeaderFeedback := pg), b) == Merge(r, b)
  {
  }
}
